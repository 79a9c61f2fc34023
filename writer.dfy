/** The length-prefix framer for outgoing packets (src/net/io/writer.rs). */
module Writer {
  import opened Results
  import opened Wire
  import opened Packet

  const TooLarge := "outgoing packet too large"

  /** Prefix a serialized body with its length as a little-endian u16;
      a body whose length does not fit in a u16 is refused. */
  function Frame(body: seq<byte>): (r: Result<seq<byte>, string>)
    ensures r.Err? <==> |body| > 0xFFFF
    ensures r.Err? ==> r.error == TooLarge
    ensures r.Ok? ==> |r.value| == |body| + 2 && r.value[2..] == body
    ensures r.Ok? ==> U16(r.value[0], r.value[1]) == |body|
  {
    if |body| > 0xFFFF then Err(TooLarge)
    else
      var f := Le16(|body|) + body;
      assert f[2..] == body;
      Ok(f)
  }

  /** `get_packet_buf`: serialize, then frame. */
  function GetPacketBuf(p: Outgoing): (r: Result<seq<byte>, string>)
    ensures r.Ok? && |r.value| == 12
    ensures U16(r.value[0], r.value[1]) == 10 && r.value[2..] == Serialize(p)
  {
    Frame(Serialize(p))
  }

  /** A Pong always frames, into 12 bytes: size 10, kind 1, then the timestamp. */
  lemma PongFrame(t: i64)
    ensures GetPacketBuf(Pong(t)).Ok?
    ensures var f := GetPacketBuf(Pong(t)).value;
      |f| == 12 && f[..4] == [10, 0, 1, 0] && f[4..] == I64Le(t)
  {
    var body := Serialize(Pong(t));
    assert body == [1, 0] + I64Le(t);
    var f := GetPacketBuf(Pong(t)).value;
    assert f == Le16(10) + body;
    assert f == [10, 0, 1, 0] + I64Le(t);
  }
}
