/** The text conversions the codec's messages rely on: `Display` of integers,
    `Debug` of byte slices, and the lossy decoding of bytes into a `String`. */
module Text {
  import opened Wire

  function Digit(d: nat): (c: char)
    requires d < 10
    ensures '0' <= c <= '9'
    ensures c as int - '0' as int == d
  {
    "0123456789"[d]
  }

  predicate IsDigits(s: string)
  {
    forall i | 0 <= i < |s| :: '0' <= s[i] <= '9'
  }

  /** The number a string of decimal digits denotes, most significant digit first. */
  function Value(s: string): nat
    requires IsDigits(s)
  {
    if s == [] then 0 else 10 * Value(s[..|s| - 1]) + (s[|s| - 1] as int - '0' as int)
  }

  /** The decimal rendering of n (`format!("{n}")`): digits that denote n. */
  function Decimal(n: nat): (s: string)
    ensures |s| > 0 && IsDigits(s)
    ensures Value(s) == n
    ensures |s| > 1 ==> s[0] != '0'
  {
    if n < 10 then [Digit(n)]
    else
      var prefix := Decimal(n / 10);
      var s := prefix + [Digit(n % 10)];
      assert s[..|s| - 1] == prefix;
      s
  }

  /** Distinct numbers have distinct renderings. */
  lemma DecimalInjective(a: nat, b: nat)
    requires Decimal(a) == Decimal(b)
    ensures a == b
  {
    assert Value(Decimal(a)) == Value(Decimal(b));
  }

  lemma NoCommaInDigits(s: string)
    requires IsDigits(s)
    ensures multiset(s)[','] == 0
  {
  }

  /** The entries of a byte list, separated by ", ". */
  function JoinBytes(bs: seq<byte>): (r: string)
    ensures bs == [] <==> r == ""
  {
    if bs == [] then ""
    else
      if |bs| == 1 then Decimal(bs[0])
      else Decimal(bs[0]) + ", " + JoinBytes(bs[1..])
  }

  /** A run of digits followed by nothing or by a comma is read back uniquely:
      the digits end exactly where the comma (or the text) starts. */
  lemma DigitsSplit(d1: string, t1: string, d2: string, t2: string)
    requires IsDigits(d1) && IsDigits(d2) && d1 + t1 == d2 + t2
    requires t1 == [] || t1[0] == ','
    requires t2 == [] || t2[0] == ','
    ensures d1 == d2 && t1 == t2
  {
    var s := d1 + t1;
    assert forall k | 0 <= k < |d1| :: s[k] == d1[k];
    assert forall k | 0 <= k < |d2| :: s[k] == d2[k];
    assert |s| == |d1| || s[|d1|] == ',';
    assert |s| == |d2| || s[|d2|] == ',';
    assert d1 == s[..|d1|] == d2;
  }

  /** The entries are separated by exactly one comma each: no digit is a comma. */
  lemma {:induction false} JoinBytesCommas(bs: seq<byte>)
    ensures multiset(JoinBytes(bs))[','] == if bs == [] then 0 else |bs| - 1
    decreases |bs|
  {
    if bs != [] {
      NoCommaInDigits(Decimal(bs[0]));
      if |bs| > 1 {
        JoinBytesCommas(bs[1..]);
        assert JoinBytes(bs) == Decimal(bs[0]) + ", " + JoinBytes(bs[1..]);
      }
    }
  }

  /** A non-empty entry list is the first entry followed by its tail. */
  lemma JoinBytesSplit(bs: seq<byte>)
    requires bs != []
    ensures JoinBytes(bs) == Decimal(bs[0]) + JoinTail(bs)
  {
    if |bs| == 1 {
      assert Decimal(bs[0]) + "" == Decimal(bs[0]);
    }
  }

  /** What follows the first entry: nothing, or ", " and the other entries. */
  function JoinTail(bs: seq<byte>): (t: string)
    requires bs != []
    ensures t == [] || t[0] == ','
  {
    if |bs| == 1 then "" else ", " + JoinBytes(bs[1..])
  }

  /** Distinct byte lists have distinct entry lists: each entry is read back up
      to the next comma, and its digits name the byte. */
  lemma {:induction false} JoinBytesInjective(a: seq<byte>, b: seq<byte>)
    requires JoinBytes(a) == JoinBytes(b)
    ensures a == b
    decreases |a|
  {
    if a != [] && b != [] {
      var ta, tb := JoinTail(a), JoinTail(b);
      JoinBytesSplit(a);
      JoinBytesSplit(b);
      DigitsSplit(Decimal(a[0]), ta, Decimal(b[0]), tb);
      DecimalInjective(a[0], b[0]);
      if |a| > 1 {
        assert |b| > 1;
        assert JoinBytes(a[1..]) == ta[2..] == tb[2..] == JoinBytes(b[1..]);
        JoinBytesInjective(a[1..], b[1..]);
        assert a == [a[0]] + a[1..] && b == [b[0]] + b[1..];
      }
    }
  }

  /** The `Debug` rendering of a byte slice (`format!("{buf:?}")`): `[1, 2, 3]`,
      one decimal entry per byte, the entries separated by commas. */
  function ByteList(bs: seq<byte>): (s: string)
    ensures |s| >= 2 && s[0] == '[' && s[|s| - 1] == ']'
    ensures bs == [] <==> s == "[]"
    ensures multiset(s)[','] == if bs == [] then 0 else |bs| - 1
  {
    JoinBytesCommas(bs);
    "[" + JoinBytes(bs) + "]"
  }

  /** The rendering names the bytes: distinct byte lists print differently. */
  lemma ByteListInjective(a: seq<byte>, b: seq<byte>)
    requires ByteList(a) == ByteList(b)
    ensures a == b
  {
    var s := ByteList(a);
    assert JoinBytes(a) == s[1..|s| - 1] == JoinBytes(b);
    JoinBytesInjective(a, b);
  }

  /** `String::from_utf8_lossy`: ASCII bytes decode to themselves, every other
      byte to the replacement character U+FFFD. */
  function Utf8Lossy(bs: seq<byte>): (s: string)
    ensures |s| == |bs|
    ensures forall i | 0 <= i < |bs| :: bs[i] < 0x80 ==> s[i] as int == bs[i]
  {
    seq(|bs|, i requires 0 <= i < |bs| => if bs[i] < 0x80 then bs[i] as char else '�')
  }
}
