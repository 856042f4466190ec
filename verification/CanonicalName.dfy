/** The bytes hashed for a canonical name: text, then type OIDs. */
module CanonicalName {
  import opened Bytes
  import opened Lru
  import opened Connection

  /** The `k` low bytes of `v`, least significant first. */
  function LeBytes(v: nat, k: nat): (r: seq<Byte>)
    ensures |r| == k
  {
    if k == 0 then [] else [v % 256] + LeBytes(v / 256, k - 1)
  }

  /** Little-endian bytes of an OID. */
  function Le4(o: Oid): (r: seq<Byte>)
    ensures |r| == 4
  {
    LeBytes(o, 4)
  }

  function TypeBytes(oids: seq<Oid>): seq<Byte> {
    if oids == [] then [] else Le4(oids[0]) + TypeBytes(oids[1..])
  }

  function Preimage(s: Stmt): seq<Byte> {
    s.query + TypeBytes(s.paramTypes)
  }

  function CanonicalNameOf(hash: seq<Byte> -> Name, s: Stmt): Name {
    hash(Preimage(s))
  }

  function PowerOf256(k: nat): nat {
    if k == 0 then 1 else 256 * PowerOf256(k - 1)
  }

  lemma {:induction false} LeBytesInjective(v: nat, w: nat, k: nat)
    requires v < PowerOf256(k) && w < PowerOf256(k)
    requires LeBytes(v, k) == LeBytes(w, k)
    ensures v == w
  {
    if k > 0 {
      assert LeBytes(v, k)[0] == v % 256 && LeBytes(w, k)[0] == w % 256;
      assert LeBytes(v, k)[1..] == LeBytes(v / 256, k - 1) && LeBytes(w, k)[1..] == LeBytes(w / 256, k - 1);
      LeBytesInjective(v / 256, w / 256, k - 1);
    }
  }

  lemma Le4Injective(a: Oid, b: Oid)
    requires Le4(a) == Le4(b)
    ensures a == b
  {
    assert PowerOf256(2) == 0x1_0000;
    assert PowerOf256(4) == U32_LIMIT;
    LeBytesInjective(a, b, 4);
  }

  lemma {:induction false} TypeBytesLength(oids: seq<Oid>)
    ensures |TypeBytes(oids)| == 4 * |oids|
  {
    if oids != [] {
      TypeBytesLength(oids[1..]);
    }
  }

  lemma {:induction false} TypeBytesInjective(a: seq<Oid>, b: seq<Oid>)
    requires |a| == |b| && TypeBytes(a) == TypeBytes(b)
    ensures a == b
  {
    if a != [] {
      assert TypeBytes(a)[..4] == Le4(a[0]) && TypeBytes(b)[..4] == Le4(b[0]);
      Le4Injective(a[0], b[0]);
      assert TypeBytes(a)[4..] == TypeBytes(a[1..]) && TypeBytes(b)[4..] == TypeBytes(b[1..]);
      TypeBytesInjective(a[1..], b[1..]);
      assert a == [a[0]] + a[1..] && b == [b[0]] + b[1..];
    }
  }

  /** Least significant byte first. */
  function Value4(b: seq<Byte>): nat
    requires |b| == 4
  {
    var b0: int, b1: int, b2: int, b3: int := b[0], b[1], b[2], b[3];
    b0 + 0x100 * b1 + 0x1_0000 * b2 + 0x100_0000 * b3
  }

  lemma Le4Value(o: Oid)
    ensures Value4(Le4(o)) == o
  {
    var v: int := o;
    var a, b, c := v / 256, v / 256 / 256, v / 256 / 256 / 256;
    assert LeBytes(c, 1) == [c % 256];
    assert LeBytes(b, 2) == [b % 256, c % 256];
    assert LeBytes(a, 3) == [a % 256, b % 256, c % 256];
    assert Le4(o) == [v % 256, a % 256, b % 256, c % 256];
    assert v == 256 * a + v % 256 && a == 256 * b + a % 256 && b == 256 * c + b % 256;
    assert c < 256;
  }

  lemma {:induction false} TypeBytesAt(oids: seq<Oid>, i: nat)
    requires i < |oids|
    ensures |TypeBytes(oids)| == 4 * |oids|
    ensures Value4(TypeBytes(oids)[4 * i..4 * i + 4]) == oids[i]
  {
    TypeBytesLength(oids);
    var rest := TypeBytes(oids[1..]);
    TypeBytesLength(oids[1..]);
    if i == 0 {
      assert TypeBytes(oids)[0..4] == Le4(oids[0]);
      Le4Value(oids[0]);
    } else {
      TypeBytesAt(oids[1..], i - 1);
      assert TypeBytes(oids)[4 * i..4 * i + 4] == rest[4 * (i - 1)..4 * (i - 1) + 4];
    }
  }

  /** What is hashed, byte by byte: the text, then four bytes for each parameter type, least
      significant first. */
  lemma HashedBytes(s: Stmt, i: nat)
    requires i < |s.paramTypes|
    ensures var bytes, at := Preimage(s), |s.query| + 4 * i;
            && |bytes| == |s.query| + 4 * |s.paramTypes|
            && bytes[..|s.query|] == s.query
            && Value4(bytes[at..at + 4]) == s.paramTypes[i]
  {
    TypeBytesAt(s.paramTypes, i);
    var at := |s.query| + 4 * i;
    assert Preimage(s)[at..at + 4] == TypeBytes(s.paramTypes)[4 * i..4 * i + 4];
  }

  lemma {:induction false} TypeBytesSplit(oids: seq<Oid>, d: nat)
    requires d <= |oids|
    ensures TypeBytes(oids) == TypeBytes(oids[..d]) + TypeBytes(oids[d..])
  {
    if d > 0 {
      TypeBytesSplit(oids[1..], d - 1);
      assert oids[..d][1..] == oids[1..][..d - 1];
      assert oids[1..][d - 1..] == oids[d..];
    }
  }

  /** When two statements are hashed alike: one query text is the other followed by the
      bytes of the types that the other has in front. */
  lemma SameHashInput(a: Stmt, b: Stmt)
    requires |a.paramTypes| <= |b.paramTypes|
    ensures var d := |b.paramTypes| - |a.paramTypes|;
            Preimage(a) == Preimage(b) <==>
              a.query == b.query + TypeBytes(b.paramTypes[..d]) && a.paramTypes == b.paramTypes[d..]
  {
    var d := |b.paramTypes| - |a.paramTypes|;
    var front, back := TypeBytes(b.paramTypes[..d]), TypeBytes(b.paramTypes[d..]);
    TypeBytesSplit(b.paramTypes, d);
    TypeBytesLength(a.paramTypes);
    TypeBytesLength(b.paramTypes[d..]);
    assert Preimage(b) == (b.query + front) + back;
    if Preimage(a) == Preimage(b) {
      var n := |Preimage(a)| - 4 * |a.paramTypes|;
      assert Preimage(a)[n..] == TypeBytes(a.paramTypes) && Preimage(b)[n..] == back;
      TypeBytesInjective(a.paramTypes, b.paramTypes[d..]);
      assert Preimage(a)[..n] == a.query && Preimage(b)[..n] == b.query + front;
    }
  }

  /** Statements with equally many parameter types have distinct names under a hash that
      does not collide on what they are hashed from. */
  lemma DistinctAtEqualCount(hash: seq<Byte> -> Name, a: Stmt, b: Stmt)
    requires hash(Preimage(a)) == hash(Preimage(b)) ==> Preimage(a) == Preimage(b)
    requires |a.paramTypes| == |b.paramTypes|
    ensures CanonicalNameOf(hash, a) == CanonicalNameOf(hash, b) <==> a == b
  {
    SameHashInput(a, b);
    assert b.query + TypeBytes(b.paramTypes[..0]) == b.query;
    assert b.paramTypes[0..] == b.paramTypes;
  }

  /** Whatever the hash, a text ending in AAAA without parameters and the text before it
      with one parameter of type 0x41414141 share a name. */
  lemma TextSwallowsType(hash: seq<Byte> -> Name, query: seq<Byte>)
    ensures var a, b := Stmt(query + [65, 65, 65, 65], []), Stmt(query, [0x41414141]);
            a != b && CanonicalNameOf(hash, a) == CanonicalNameOf(hash, b)
  {
    var oid: Oid := 0x41414141;
    assert oid / 256 == 0x414141 && oid / 256 / 256 == 0x4141 && oid / 256 / 256 / 256 == 0x41;
    assert Le4(oid) == [65, 65, 65, 65];
    assert TypeBytes([oid]) == [65, 65, 65, 65];
    assert Preimage(Stmt(query + [65, 65, 65, 65], [])) == query + [65, 65, 65, 65];
  }
}
