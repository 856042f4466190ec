/** What the wire takes for a text: UTF-8 as encodings of characters, one to four bytes each,
    without surrogates and without anything longer than it need be, ended by a NUL. The check
    of single bytes accepts exactly these. */
module Utf8 {
  import opened Bytes
  import opened Primitives

  /** A Unicode character: no surrogates. */
  predicate IsScalar(c: nat) {
    c < 0xD800 || 0xE000 <= c < 0x11_0000
  }

  /** One to four bytes: six bits in each byte behind the first. */
  function Encoding(c: nat): seq<int> {
    if c < 0x80 then [c]
    else if c < 0x800 then [0xC0 + c / 0x40, 0x80 + c % 0x40]
    else if c < 0x1_0000 then [0xE0 + c / 0x1000, 0x80 + c / 0x40 % 0x40, 0x80 + c % 0x40]
    else [0xF0 + c / 0x4_0000, 0x80 + c / 0x1000 % 0x40, 0x80 + c / 0x40 % 0x40, 0x80 + c % 0x40]
  }

  function Encodings(cs: seq<nat>): seq<int> {
    if cs == [] then [] else Encoding(cs[0]) + Encodings(cs[1..])
  }

  ghost predicate AreScalars(cs: seq<nat>) {
    forall i :: 0 <= i < |cs| ==> IsScalar(cs[i])
  }

  lemma EncodingIsBytes(c: nat)
    requires IsScalar(c)
    ensures 0 < |Encoding(c)| <= 4 && forall i :: 0 <= i < |Encoding(c)| ==> 0 <= Encoding(c)[i] < 256
  {
    assert c / 0x4_0000 <= 4;
    assert c < 0x1_0000 ==> c / 0x1000 < 16;
    assert c < 0x800 ==> c / 0x40 < 32;
  }

  lemma TwoByteEncoding(c: nat, tail: seq<Byte>)
    requires 0x80 <= c < 0x800
    ensures var s: seq<Byte> := [0xC0 + c / 0x40, 0x80 + c % 0x40] + tail;
            ValidUtf8(s) <==> ValidUtf8(tail)
  {
    var s: seq<Byte> := [0xC0 + c / 0x40, 0x80 + c % 0x40] + tail;
    assert s[2..] == tail && 2 <= c / 0x40 < 32;
  }

  lemma ThreeByteEncoding(c: nat, tail: seq<Byte>)
    requires 0x800 <= c < 0x1_0000 && IsScalar(c)
    ensures c / 0x1000 < 16
    ensures var s: seq<Byte> := [0xE0 + c / 0x1000, 0x80 + c / 0x40 % 0x40, 0x80 + c % 0x40] + tail;
            ValidUtf8(s) <==> ValidUtf8(tail)
  {
    var s: seq<Byte> := [0xE0 + c / 0x1000, 0x80 + c / 0x40 % 0x40, 0x80 + c % 0x40] + tail;
    assert s[3..] == tail;
    var hi, mid := c / 0x1000, c / 0x40 % 0x40;
    assert c / 0x40 == hi * 0x40 + mid;
    assert hi == 0 ==> mid >= 0x20;
    assert hi == 13 ==> mid < 0x20;
  }

  lemma FourByteEncoding(c: nat, tail: seq<Byte>)
    requires 0x1_0000 <= c < 0x11_0000
    ensures c / 0x4_0000 <= 4
    ensures var s: seq<Byte> :=
              [0xF0 + c / 0x4_0000, 0x80 + c / 0x1000 % 0x40, 0x80 + c / 0x40 % 0x40, 0x80 + c % 0x40] + tail;
            ValidUtf8(s) <==> ValidUtf8(tail)
  {
    var s: seq<Byte> := [0xF0 + c / 0x4_0000, 0x80 + c / 0x1000 % 0x40, 0x80 + c / 0x40 % 0x40, 0x80 + c % 0x40] + tail;
    assert s[4..] == tail;
    var hi, mid := c / 0x4_0000, c / 0x1000 % 0x40;
    assert c / 0x1000 == hi * 0x40 + mid;
    assert hi == 0 ==> mid >= 0x10;
    assert hi == 4 ==> mid < 0x10;
  }

  lemma EncodingIsValid(c: nat, tail: seq<Byte>, s: seq<Byte>)
    requires IsScalar(c) && s == Encoding(c) + tail
    ensures ValidUtf8(s) <==> ValidUtf8(tail)
  {
    if c < 0x80 {
      assert s[1..] == tail;
    } else if c < 0x800 {
      TwoByteEncoding(c, tail);
    } else if c < 0x1_0000 {
      ThreeByteEncoding(c, tail);
    } else {
      FourByteEncoding(c, tail);
    }
  }

  lemma {:induction false} EncodingsAreValid(cs: seq<nat>, s: seq<Byte>)
    requires AreScalars(cs) && s == Encodings(cs)
    ensures ValidUtf8(s)
    decreases |cs|
  {
    if cs != [] {
      EncodingIsBytes(cs[0]);
      var tail: seq<Byte> := s[|Encoding(cs[0])|..];
      assert tail == Encodings(cs[1..]);
      assert AreScalars(cs[1..]);
      EncodingsAreValid(cs[1..], tail);
      EncodingIsValid(cs[0], tail, s);
    }
  }

  lemma TwoDigits(a: nat, x: nat)
    requires x < 0x40
    ensures (a * 0x40 + x) / 0x40 == a && (a * 0x40 + x) % 0x40 == x
  {
  }

  lemma ThreeDigits(a: nat, x: nat, y: nat)
    requires x < 0x40 && y < 0x40
    ensures var c := a * 0x1000 + x * 0x40 + y;
            c / 0x1000 == a && c / 0x40 % 0x40 == x && c % 0x40 == y
  {
    var c := a * 0x1000 + x * 0x40 + y;
    TwoDigits(a * 0x40 + x, y);
    TwoDigits(a, x);
    assert c == (a * 0x40 + x) * 0x40 + y;
    assert c / 0x1000 == c / 0x40 / 0x40;
  }

  lemma FourDigits(a: nat, x: nat, y: nat, z: nat)
    requires x < 0x40 && y < 0x40 && z < 0x40
    ensures var c := a * 0x4_0000 + x * 0x1000 + y * 0x40 + z;
            c / 0x4_0000 == a && c / 0x1000 % 0x40 == x && c / 0x40 % 0x40 == y && c % 0x40 == z
  {
    var c := a * 0x4_0000 + x * 0x1000 + y * 0x40 + z;
    ThreeDigits(a * 0x40 + x, y, z);
    TwoDigits(a, x);
    assert c == (a * 0x40 + x) * 0x1000 + y * 0x40 + z;
    assert c / 0x4_0000 == c / 0x1000 / 0x40;
  }

  lemma OneOrTwoBytes(s: seq<Byte>) returns (c: nat, tail: seq<Byte>)
    requires s != [] && s[0] <= 0xDF && ValidUtf8(s)
    ensures IsScalar(c) && s == Encoding(c) + tail && ValidUtf8(tail) && |tail| < |s|
  {
    var first: int := s[0];
    if first < 0x80 {
      c, tail := first, s[1..];
    } else {
      var b1: int := s[1];
      TwoDigits(first - 0xC0, b1 - 0x80);
      c, tail := (first - 0xC0) * 0x40 + (b1 - 0x80), s[2..];
    }
  }

  lemma ThreeBytes(s: seq<Byte>) returns (c: nat, tail: seq<Byte>)
    requires s != [] && 0xE0 <= s[0] <= 0xEF && ValidUtf8(s)
    ensures IsScalar(c) && s == Encoding(c) + tail && ValidUtf8(tail) && |tail| < |s|
  {
    var first: int, b1: int, b2: int := s[0], s[1], s[2];
    ThreeDigits(first - 0xE0, b1 - 0x80, b2 - 0x80);
    c, tail := (first - 0xE0) * 0x1000 + (b1 - 0x80) * 0x40 + (b2 - 0x80), s[3..];
  }

  lemma FourBytes(s: seq<Byte>) returns (c: nat, tail: seq<Byte>)
    requires s != [] && 0xF0 <= s[0] && ValidUtf8(s)
    ensures IsScalar(c) && s == Encoding(c) + tail && ValidUtf8(tail) && |tail| < |s|
  {
    var first: int, b1: int, b2: int, b3: int := s[0], s[1], s[2], s[3];
    FourDigits(first - 0xF0, b1 - 0x80, b2 - 0x80, b3 - 0x80);
    c, tail := (first - 0xF0) * 0x4_0000 + (b1 - 0x80) * 0x1000 + (b2 - 0x80) * 0x40 + (b3 - 0x80), s[4..];
  }

  /** The character a valid text starts with. */
  lemma FirstCharacter(s: seq<Byte>) returns (c: nat, tail: seq<Byte>)
    requires s != [] && ValidUtf8(s)
    ensures IsScalar(c) && s == Encoding(c) + tail && ValidUtf8(tail) && |tail| < |s|
  {
    if s[0] <= 0xDF {
      c, tail := OneOrTwoBytes(s);
    } else if s[0] <= 0xEF {
      c, tail := ThreeBytes(s);
    } else {
      c, tail := FourBytes(s);
    }
  }

  lemma {:induction false} ValidHasCharacters(s: seq<Byte>) returns (cs: seq<nat>)
    requires ValidUtf8(s)
    ensures AreScalars(cs) && s == Encodings(cs)
    decreases |s|
  {
    if s == [] {
      cs := [];
    } else {
      var c, tail := FirstCharacter(s);
      var others := ValidHasCharacters(tail);
      cs := [c] + others;
      assert cs[1..] == others;
    }
  }

  /** The bytes that pass for text are exactly the encodings of characters, one after the other. */
  lemma ValidIffCharacters(s: seq<Byte>)
    ensures ValidUtf8(s) <==> exists cs :: AreScalars(cs) && s == Encodings(cs)
  {
    if ValidUtf8(s) {
      var cs := ValidHasCharacters(s);
    } else if cs :| AreScalars(cs) && s == Encodings(cs) {
      EncodingsAreValid(cs, s);
    }
  }

  lemma {:induction false} NulIsFirst(s: seq<Byte>)
    ensures 0 !in s[..NulAt(s)]
    ensures NulAt(s) < |s| ==> s[NulAt(s)] == 0
  {
    if s != [] && s[0] != 0 {
      NulIsFirst(s[1..]);
      assert s[..NulAt(s)] == [s[0]] + s[1..][..NulAt(s[1..])];
    }
  }

  /** A text is read exactly when valid UTF-8 without NUL comes in front of a NUL, and it is what
      comes in front. */
  lemma TextIsReadIff(s: seq<Byte>, t: seq<Byte>, rest: seq<Byte>)
    ensures ReadCString(s) == Ok(t, rest) <==> s == t + [0] + rest && 0 !in t && ValidUtf8(t)
  {
    if s == t + [0] + rest && 0 !in t && ValidUtf8(t) {
      assert IsText(t);
      CStringBack(t, rest);
    }
    if ReadCString(s) == Ok(t, rest) {
      NulIsFirst(s);
      assert s == s[..NulAt(s)] + [s[NulAt(s)]] + s[NulAt(s) + 1..];
    }
  }
}
