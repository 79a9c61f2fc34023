/** Reading one framed incoming packet (src/net/io/reader.rs). The two
    non-blocking reads become their results: the bytes each one delivered,
    or the error it reported. */
module Reader {
  import opened Results
  import opened Wire
  import opened Text
  import opened Io
  import opened Packet
  import Writer

  const MaxPacketSize: nat := 8096

  /** A decoder error, carried as an `Other` I/O error. */
  function Lift(d: Result<Incoming, string>): (r: Result<Incoming, IoError>)
    ensures d.Ok? <==> r.Ok?
    ensures d.Ok? ==> r.value == d.value
    ensures d.Err? ==> r.error == IoError(Other, d.error)
  {
    match d
    case Ok(p) => Ok(p)
    case Err(m) => Err(IoError(Other, m))
  }

  /** `try_read_packet`: `header` is what the 2-byte header read returned and `body`
      what the body read returned (that read happens only once the header passes). */
  function TryReadPacket(header: Result<seq<byte>, IoError>, body: Result<seq<byte>, IoError>): (r: Result<Incoming, IoError>)
    ensures header.Err? ==> r == Err(header.error)
    ensures header.Ok? && |header.value| < 2 ==> r == Err(UnexpectedEofError)
    ensures r.Ok? ==> && header.Ok? && |header.value| >= 2
                      && 1 <= U16(header.value[0], header.value[1]) <= MaxPacketSize
                      && body.Ok? && Deserialize(body.value) == Ok(r.value)
  {
    match header
    case Err(e) => Err(e)
    case Ok(buf) =>
      if |buf| < 2 then Err(UnexpectedEofError)
      else
        var size := U16(buf[0], buf[1]);
        if size == 0 then Err(IoError(Other, "zero size packet, " + Decimal(size)))
        else if size > MaxPacketSize then Err(IoError(Other, "too large packet, " + Decimal(size)))
        else
          match body
          case Err(e) => Err(e)
          case Ok(bytes) => Lift(Deserialize(bytes))
  }

  lemma ZeroSizeRejected(header: seq<byte>, body: Result<seq<byte>, IoError>)
    requires |header| >= 2 && U16(header[0], header[1]) == 0
    ensures TryReadPacket(Ok(header), body) == Err(IoError(Other, "zero size packet, 0"))
  {
    var size := U16(header[0], header[1]);
    assert Decimal(0) == "0";
    assert "zero size packet, " + Decimal(size) == "zero size packet, 0";
  }

  lemma TooLargeRejected(header: seq<byte>, body: Result<seq<byte>, IoError>)
    requires |header| >= 2 && U16(header[0], header[1]) > MaxPacketSize
    ensures TryReadPacket(Ok(header), body)
         == Err(IoError(Other, "too large packet, " + Decimal(U16(header[0], header[1]))))
  {
  }

  /** Once the header declares a size in 1..=8096, the result is the body read's
      error, or the decoding of the bytes it delivered, whatever their number. */
  lemma HeaderAccepted(header: seq<byte>, body: Result<seq<byte>, IoError>)
    requires |header| >= 2 && 1 <= U16(header[0], header[1]) <= MaxPacketSize
    ensures body.Err? ==> TryReadPacket(Ok(header), body) == Err(body.error)
    ensures body.Ok? ==> TryReadPacket(Ok(header), body) == Lift(Deserialize(body.value))
  {
  }

  /** A frame made by the writer around a body of 1..=8096 bytes passes the header
      checks, and the reader decodes exactly that body. */
  lemma FramePassesHeader(body: seq<byte>)
    requires 1 <= |body| <= MaxPacketSize
    ensures Writer.Frame(body).Ok?
    ensures var f := Writer.Frame(body).value;
      TryReadPacket(Ok(f[..2]), Ok(f[2..])) == Lift(Deserialize(body))
  {
  }

  /** A framed ping is read back with its timestamp. */
  lemma FramedPingReadBack(t: i64)
    ensures Writer.Frame([2, 0] + I64Le(t)).Ok?
    ensures var f := Writer.Frame([2, 0] + I64Le(t)).value;
      TryReadPacket(Ok(f[..2]), Ok(f[2..])) == Ok(Ping(t))
  {
    FramePassesHeader([2, 0] + I64Le(t));
    PingRoundTrip(t);
  }
}
