/** Bytes, fixed-width integers in network order, and UTF-8 as the standard decoder accepts it. */
module Bytes {
  type Byte = b: int | 0 <= b < 256
  type Oid = o: int | 0 <= o < 0x1_0000_0000
  type Int16 = v: int | -0x8000 <= v < 0x8000
  type Int32 = v: int | -0x8000_0000 <= v < 0x8000_0000

  // Two's complement: a value and its unsigned reading.

  function Unsigned16(v: Int16): nat {
    if v < 0 then v + 0x1_0000 else v
  }

  function Signed16(u: nat): Int16
    requires u < 0x1_0000
  {
    if u < 0x8000 then u else u - 0x1_0000
  }

  function Unsigned32(v: Int32): Oid {
    if v < 0 then v + 0x1_0000_0000 else v
  }

  function Signed32(u: nat): Int32
    requires u < 0x1_0000_0000
  {
    if u < 0x8000_0000 then u else u - 0x1_0000_0000
  }

  /** A length or a count cut to its field. */
  function AsInt16(n: nat): Int16 {
    Signed16(n % 0x1_0000)
  }

  function AsInt32(n: nat): Int32 {
    Signed32(n % 0x1_0000_0000)
  }

  function Be16(v: Int16): (b: seq<Byte>)
    ensures |b| == 2
  {
    var u := Unsigned16(v);
    [u / 256, u % 256]
  }

  function Be32(v: Int32): (b: seq<Byte>)
    ensures |b| == 4
  {
    var u: nat := Unsigned32(v);
    var w := u / 256;
    var x := w / 256;
    [x / 256, x % 256, w % 256, u % 256]
  }

  function FromBe16(hi: Byte, lo: Byte): (u: nat)
    ensures u < 0x1_0000
  {
    hi * 256 + lo
  }

  function FromBe32(b0: Byte, b1: Byte, b2: Byte, b3: Byte): (u: nat)
    ensures u < 0x1_0000_0000
  {
    ((b0 * 256 + b1) * 256 + b2) * 256 + b3
  }

  lemma Be16RoundTrip(v: Int16)
    ensures var b := Be16(v); FromBe16(b[0], b[1]) == Unsigned16(v)
    ensures Signed16(Unsigned16(v)) == v
  {
  }

  lemma Be32RoundTrip(v: Int32)
    ensures var b := Be32(v); FromBe32(b[0], b[1], b[2], b[3]) == Unsigned32(v)
    ensures Signed32(Unsigned32(v)) == v
  {
    var u: nat := Unsigned32(v);
    var w := u / 256;
    var x := w / 256;
    assert u == w * 256 + u % 256 && w == x * 256 + w % 256 && x == x / 256 * 256 + x % 256;
  }

  predicate Cont(s: seq<Byte>, i: nat, lo: Byte, hi: Byte) {
    i < |s| && lo <= s[i] <= hi
  }

  /** Well-formed UTF-8: shortest form, no surrogates, nothing above U+10FFFF. */
  predicate ValidUtf8(s: seq<Byte>)
    decreases |s|
  {
    if s == [] then true
    else if s[0] < 0x80 then ValidUtf8(s[1..])
    else if 0xC2 <= s[0] <= 0xDF then Cont(s, 1, 0x80, 0xBF) && ValidUtf8(s[2..])
    else if 0xE0 <= s[0] <= 0xEF then
      var lo := if s[0] == 0xE0 then 0xA0 else 0x80;
      var hi := if s[0] == 0xED then 0x9F else 0xBF;
      Cont(s, 1, lo, hi) && Cont(s, 2, 0x80, 0xBF) && ValidUtf8(s[3..])
    else if 0xF0 <= s[0] <= 0xF4 then
      var lo := if s[0] == 0xF0 then 0x90 else 0x80;
      var hi := if s[0] == 0xF4 then 0x8F else 0xBF;
      Cont(s, 1, lo, hi) && Cont(s, 2, 0x80, 0xBF) && Cont(s, 3, 0x80, 0xBF) && ValidUtf8(s[4..])
    else false
  }
}
