/** Typed packets and their byte layouts (src/net/packet). Every layout starts with
    a little-endian u16 kind, followed by a kind-specific body. */
module Packet {
  import opened Results
  import opened Wire
  import opened Text
  import opened Model

  /** `packet::Incoming`. The codec decodes Hello and Ping; the map worker also
      handles a `Move { direction }` packet, whose wire layout is not part of
      this model, so no byte sequence decodes to it. */
  datatype Incoming =
    | Hello(token: string)
    | Ping(timestamp: i64)
    | Move(direction: Direction)

  /** `packet::Outgoing`, as the codec implements it. */
  datatype Outgoing = Pong(timestamp: i64)

  const HelloKind: u16 := 1
  const PingKind: u16 := 2
  const PongKind: u16 := 1

  /** The kind discriminator: the little-endian u16 of the first two bytes. */
  function Kind(buf: seq<byte>): u16
    requires |buf| >= 2
  {
    U16(buf[0], buf[1])
  }

  function TooShort(buf: seq<byte>): string
  {
    "buffer too short to deserialize, " + ByteList(buf)
  }

  /** `Incoming::deserialize`. A kind-2 body longer than 8 bytes is read through its
      first 8 bytes (the unseen `clone_into_array` decides that case in the source). */
  function Deserialize(buf: seq<byte>): (r: Result<Incoming, string>)
    ensures |buf| < 2 ==> r.Err?
    ensures |buf| >= 2 && Kind(buf) == HelloKind ==> r.Ok?
    ensures |buf| >= 2 && Kind(buf) == PingKind ==> (|buf| < 10 ==> r.Err?) && (|buf| == 10 ==> r.Ok?)
    ensures |buf| >= 2 && Kind(buf) != HelloKind && Kind(buf) != PingKind ==> r.Err?
    ensures r.Ok? ==> !r.value.Move?
    ensures r.Ok? && r.value.Hello? ==> Kind(buf) == HelloKind
    ensures r.Ok? && r.value.Ping? ==> Kind(buf) == PingKind
  {
    if |buf| < 2 then Err(TooShort(buf))
    else
      var kind := U16(buf[0], buf[1]);
      var body := buf[2..];
      if kind == 1 then Ok(Hello(Utf8Lossy(body)))
      else if kind == 2 then
        if |body| < 8 then Err(TooShort(buf))
        else Ok(Ping(I64FromLe(body[..8])))
      else Err("unexpected packet arrived, " + Decimal(kind))
  }

  /** A buffer shorter than the kind field is rejected, naming its bytes. */
  lemma ShortBufferRejected(buf: seq<byte>)
    requires |buf| < 2
    ensures Deserialize(buf) == Err(TooShort(buf))
  {
  }

  /** Kind 1 always decodes, to the lossy text of the rest of the buffer. */
  lemma HelloDecodes(buf: seq<byte>)
    requires |buf| >= 2 && Kind(buf) == HelloKind
    ensures Deserialize(buf) == Ok(Hello(Utf8Lossy(buf[2..])))
    ensures |buf| == 2 ==> Deserialize(buf) == Ok(Hello(""))
  {
  }

  /** The bytes of an ASCII string. */
  function AsciiBytes(s: string): (bs: seq<byte>)
    requires forall i | 0 <= i < |s| :: s[i] < '\U{80}'
    ensures |bs| == |s|
  {
    seq(|s|, i requires 0 <= i < |s| => s[i] as int)
  }

  /** An ASCII token survives the trip through a Hello packet unchanged. */
  lemma HelloAsciiRoundTrip(token: string)
    requires forall i | 0 <= i < |token| :: token[i] < '\U{80}'
    ensures Deserialize([1, 0] + AsciiBytes(token)) == Ok(Hello(token))
  {
    var buf := [1, 0] + AsciiBytes(token);
    assert buf[2..] == AsciiBytes(token);
    assert Kind(buf) == 1;
    var text := Utf8Lossy(buf[2..]);
    assert |text| == |token|;
    forall i | 0 <= i < |token|
      ensures text[i] == token[i]
    {
      assert text[i] as int == token[i] as int;
    }
    assert text == token;
    assert Deserialize(buf) == Ok(Hello(text));
  }

  /** A kind-2 packet whose body is shorter than an i64 is rejected. */
  lemma PingShortRejected(buf: seq<byte>)
    requires |buf| >= 2 && Kind(buf) == PingKind && |buf| < 10
    ensures Deserialize(buf) == Err(TooShort(buf))
  {
  }

  /** An 8-byte kind-2 body is the little-endian i64 timestamp. */
  lemma PingDecodes(body: seq<byte>)
    requires |body| == 8
    ensures Deserialize([2, 0] + body) == Ok(Ping(I64FromLe(body)))
  {
    var buf := [2, 0] + body;
    assert buf[2..][..8] == body;
  }

  lemma PingRoundTrip(t: i64)
    ensures Deserialize([2, 0] + I64Le(t)) == Ok(Ping(t))
  {
    PingDecodes(I64Le(t));
    I64RoundTrip(t);
  }

  /** Every kind other than 1 and 2 is rejected, naming the kind. */
  lemma UnknownKindRejected(buf: seq<byte>)
    requires |buf| >= 2 && Kind(buf) != HelloKind && Kind(buf) != PingKind
    ensures Deserialize(buf) == Err("unexpected packet arrived, " + Decimal(Kind(buf)))
  {
  }

  /** `Outgoing::serialize`. */
  function Serialize(p: Outgoing): (r: seq<byte>)
    ensures |r| == 10
    ensures U16(r[0], r[1]) == PongKind
    ensures I64FromLe(r[2..]) == p.timestamp
  {
    match p
    case Pong(t) =>
      var r := [1, 0] + I64Le(t);
      assert r[2..] == I64Le(t);
      I64RoundTrip(t);
      r
  }

  lemma SerializeInjective(p: Outgoing, q: Outgoing)
    requires Serialize(p) == Serialize(q)
    ensures p == q
  {
    assert Serialize(p)[2..] == Serialize(q)[2..];
  }
}
