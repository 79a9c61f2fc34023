/** Fixed-width integers and their little-endian byte encodings. */
module Wire {

  type byte = b: int | 0 <= b < 0x100
  type u16 = n: int | 0 <= n < 0x1_0000
  type i64 = n: int | -0x8000_0000_0000_0000 <= n < 0x8000_0000_0000_0000

  const TwoTo63: nat := 0x8000_0000_0000_0000
  const TwoTo64: nat := 0x1_0000_0000_0000_0000

  function Pow256(n: nat): (r: nat)
    ensures r > 0
  {
    if n == 0 then 1 else 256 * Pow256(n - 1)
  }

  lemma Pow256Eight()
    ensures Pow256(2) == 0x1_0000
    ensures Pow256(8) == TwoTo64
  {
  }

  /** The n low-order bytes of u, least significant first. */
  function ToLe(u: nat, n: nat): (r: seq<byte>)
    ensures |r| == n
  {
    if n == 0 then [] else [u % 256] + ToLe(u / 256, n - 1)
  }

  /** The unsigned number whose little-endian bytes are s. */
  function FromLe(s: seq<byte>): nat
  {
    if s == [] then 0 else s[0] + 256 * FromLe(s[1..])
  }

  lemma {:induction false} FromLeBound(s: seq<byte>)
    ensures FromLe(s) < Pow256(|s|)
  {
    if s != [] {
      FromLeBound(s[1..]);
    }
  }

  /** Encoding a number that fits in n bytes and decoding it gives it back. */
  lemma {:induction false} FromLeToLe(u: nat, n: nat)
    requires u < Pow256(n)
    ensures FromLe(ToLe(u, n)) == u
  {
    if n > 0 {
      assert u / 256 < Pow256(n - 1);
      FromLeToLe(u / 256, n - 1);
    }
  }

  /** Decoding n bytes and encoding the number in n bytes gives the bytes back. */
  lemma {:induction false} ToLeFromLe(s: seq<byte>)
    ensures ToLe(FromLe(s), |s|) == s
  {
    if s != [] {
      var u := FromLe(s);
      assert u % 256 == s[0] && u / 256 == FromLe(s[1..]);
      ToLeFromLe(s[1..]);
    }
  }

  /** `u16::from_le_bytes([lo, hi])`. */
  function U16(lo: byte, hi: byte): (r: u16)
    ensures r == FromLe([lo, hi])
  {
    assert [lo, hi][1..] == [hi] && [hi][1..] == [];
    assert FromLe([hi]) == hi;
    lo + 256 * hi
  }

  /** `u16::to_le_bytes(n)`. */
  function Le16(n: u16): (r: seq<byte>)
    ensures |r| == 2 && U16(r[0], r[1]) == n
  {
    [n % 256, n / 256]
  }

  /** The unsigned 64-bit pattern of a two's-complement i64. */
  function Bits64(t: i64): (u: nat)
    ensures u < TwoTo64
    ensures (u < TwoTo63) == (t >= 0)
  {
    if t < 0 then t + TwoTo64 else t
  }

  /** `i64::to_le_bytes(t)`. */
  function I64Le(t: i64): (r: seq<byte>)
    ensures |r| == 8
  {
    ToLe(Bits64(t), 8)
  }

  /** `i64::from_le_bytes(s)`. */
  function I64FromLe(s: seq<byte>): (t: i64)
    requires |s| == 8
    ensures Bits64(t) == FromLe(s)
  {
    var u := FromLe(s);
    FromLeBound(s);
    Pow256Eight();
    if u >= TwoTo63 then u - TwoTo64 else u
  }

  lemma I64RoundTrip(t: i64)
    ensures I64FromLe(I64Le(t)) == t
  {
    Pow256Eight();
    FromLeToLe(Bits64(t), 8);
  }

  lemma I64BytesRoundTrip(s: seq<byte>)
    requires |s| == 8
    ensures I64Le(I64FromLe(s)) == s
  {
    Pow256Eight();
    FromLeBound(s);
    ToLeFromLe(s);
  }

  lemma I64LeInjective(t1: i64, t2: i64)
    requires I64Le(t1) == I64Le(t2)
    ensures t1 == t2
  {
    I64RoundTrip(t1);
    I64RoundTrip(t2);
  }
}
