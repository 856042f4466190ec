/** The parsing primitives, with what they parse back. */
module Primitives {
  import opened Bytes
  import opened Options
  import opened Sequences

  datatype Parsed<+T> = Fail | Ok(value: T, rest: seq<Byte>) {
    predicate IsFailure() {
      Fail?
    }

    function PropagateFailure<U>(): Parsed<U>
      requires IsFailure()
    {
      Fail
    }

    function Extract(): (T, seq<Byte>)
      requires !IsFailure()
    {
      (value, rest)
    }
  }

  /** A parse that has to consume all of its input. */
  function Complete<T>(p: Parsed<T>): Option<T> {
    if p.Ok? && p.rest == [] then Some(p.value) else None
  }

  function AnyByte(s: seq<Byte>): Parsed<Byte> {
    if s == [] then Fail else Ok(s[0], s[1..])
  }

  function ReadInt16(s: seq<Byte>): Parsed<Int16> {
    if |s| < 2 then Fail else Ok(Signed16(FromBe16(s[0], s[1])), s[2..])
  }

  function ReadInt32(s: seq<Byte>): Parsed<Int32> {
    if |s| < 4 then Fail else Ok(Signed32(FromBe32(s[0], s[1], s[2], s[3])), s[4..])
  }

  function ReadOid(s: seq<Byte>): Parsed<Oid> {
    var (v, rest) :- ReadInt32(s);
    Ok(Unsigned32(v), rest)
  }

  /** The bytes before the first NUL; |s| when there is none. */
  function NulAt(s: seq<Byte>): (n: nat)
    ensures n <= |s|
  {
    if s == [] || s[0] == 0 then 0 else 1 + NulAt(s[1..])
  }

  function ReadCString(s: seq<Byte>): Parsed<seq<Byte>> {
    var n := NulAt(s);
    if n == |s| || !ValidUtf8(s[..n]) then Fail else Ok(s[..n], s[n + 1..])
  }

  /** A negative length is NULL. */
  function ReadNullable(s: seq<Byte>): Parsed<Option<seq<Byte>>> {
    var (len, rest) :- ReadInt32(s);
    if len < 0 then Ok(None, rest)
    else if len > |rest| then Fail
    else Ok(Some(rest[..len]), rest[len..])
  }

  datatype FormatCode = Text | Binary

  function ReadFormat(s: seq<Byte>): Parsed<FormatCode> {
    var (v, rest) :- ReadInt16(s);
    if v == 0 then Ok(Text, rest) else if v == 1 then Ok(Binary, rest) else Fail
  }

  function ReadMany<T>(n: nat, item: seq<Byte> -> Parsed<T>, s: seq<Byte>): Parsed<seq<T>> {
    if n == 0 then Ok([], s)
    else
      var (first, rest) :- item(s);
      var (others, rest') :- ReadMany(n - 1, item, rest);
      Ok([first] + others, rest')
  }

  /** A count, then that many items. */
  function ReadCounted<T>(item: seq<Byte> -> Parsed<T>, s: seq<Byte>): Parsed<seq<T>> {
    var (count, rest) :- ReadInt16(s);
    if count < 0 then Fail else ReadMany(count, item, rest)
  }

  // ---------------------------------------------------------------------
  // The loops
  // ---------------------------------------------------------------------

  lemma {:induction false} ReadManySnoc<T>(n: nat, item: seq<Byte> -> Parsed<T>, s: seq<Byte>)
    ensures ReadMany(n + 1, item, s) ==
              match ReadMany(n, item, s)
              case Fail => Fail
              case Ok(items, rest) =>
                match item(rest)
                case Fail => Fail
                case Ok(last, rest') => Ok(items + [last], rest')
  {
    if n == 0 {
      assert ReadMany(0, item, s) == Ok([], s);
      if item(s).Ok? {
        assert ReadMany(0, item, item(s).rest) == Ok([], item(s).rest);
        assert [item(s).value] + [] == [] + [item(s).value];
      }
    } else if item(s).Ok? {
      ReadManySnoc(n - 1, item, item(s).rest);
      var r := ReadMany(n - 1, item, item(s).rest);
      if r.Ok? && item(r.rest).Ok? {
        assert [item(s).value] + (r.value + [item(r.rest).value]) == [item(s).value] + r.value + [item(r.rest).value];
      }
    }
  }

  lemma {:induction false} ReadManyFails<T>(n: nat, m: nat, item: seq<Byte> -> Parsed<T>, s: seq<Byte>)
    requires n <= m && ReadMany(n, item, s).Fail?
    ensures ReadMany(m, item, s).Fail?
    decreases m
  {
    if n < m {
      ReadManyFails(n, m - 1, item, s);
      ReadManySnoc(m - 1, item, s);
    }
  }

  /** The counted list, as the loop that pushes one item at a time. */
  method ParseCounted<T>(item: seq<Byte> -> Parsed<T>, s: seq<Byte>) returns (r: Parsed<seq<T>>)
    ensures r == ReadCounted(item, s)
  {
    var count := ReadInt16(s);
    if count.Fail? || count.value < 0 {
      return Fail;
    }
    var items: seq<T>, rest := [], count.rest;
    var i := 0;
    while i < count.value
      invariant 0 <= i <= count.value
      invariant ReadMany(i, item, count.rest) == Ok(items, rest)
    {
      ReadManySnoc(i, item, count.rest);
      var next := item(rest);
      if next.Fail? {
        ReadManyFails(i + 1, count.value, item, count.rest);
        return Fail;
      }
      items, rest := items + [next.value], next.rest;
      i := i + 1;
    }
    r := Ok(items, rest);
  }

  /** A nullable value, as the loop that pushes one byte at a time. */
  method ParseNullable(s: seq<Byte>) returns (r: Parsed<Option<seq<Byte>>>)
    ensures r == ReadNullable(s)
  {
    var len := ReadInt32(s);
    if len.Fail? {
      return Fail;
    }
    if len.value < 0 {
      return Ok(None, len.rest);
    }
    var bytes: seq<Byte>, rest := [], len.rest;
    while |bytes| < len.value
      invariant |bytes| <= len.value && bytes + rest == len.rest
    {
      if rest == [] {
        return Fail;
      }
      bytes, rest := bytes + [rest[0]], rest[1..];
    }
    assert len.rest[..len.value] == bytes && len.rest[len.value..] == rest;
    r := Ok(Some(bytes), rest);
  }

  // ---------------------------------------------------------------------
  // Printing, and reading back
  // ---------------------------------------------------------------------

  predicate IsText(s: seq<Byte>) {
    ValidUtf8(s) && 0 !in s
  }

  function CString(s: seq<Byte>): seq<Byte> {
    s + [0]
  }

  function Nullable(v: Option<seq<Byte>>): seq<Byte> {
    match v
    case None => Be32(-1)
    case Some(data) => Be32(AsInt32(|data|)) + data
  }

  function Format(f: FormatCode): seq<Byte> {
    Be16(if f.Text? then 0 else 1)
  }

  function OidBytes(o: Oid): seq<Byte> {
    Be32(Signed32(o))
  }

  function Concat<T>(items: seq<T>, put: T -> seq<Byte>): seq<Byte> {
    if items == [] then [] else put(items[0]) + Concat(items[1..], put)
  }

  function Counted<T>(items: seq<T>, put: T -> seq<Byte>): seq<Byte> {
    Be16(AsInt16(|items|)) + Concat(items, put)
  }

  lemma Int16Back(v: Int16, tail: seq<Byte>)
    ensures ReadInt16(Be16(v) + tail) == Ok(v, tail)
  {
    Be16RoundTrip(v);
    assert (Be16(v) + tail)[2..] == tail;
  }

  lemma Int32Back(v: Int32, tail: seq<Byte>)
    ensures ReadInt32(Be32(v) + tail) == Ok(v, tail)
  {
    Be32RoundTrip(v);
    assert (Be32(v) + tail)[4..] == tail;
  }

  lemma OidBack(o: Oid, tail: seq<Byte>)
    ensures ReadOid(OidBytes(o) + tail) == Ok(o, tail)
  {
    Int32Back(Signed32(o), tail);
  }

  lemma {:induction false} NulAtEnd(s: seq<Byte>, tail: seq<Byte>)
    requires 0 !in s
    ensures NulAt(s + [0] + tail) == |s|
  {
    if s != [] {
      NulAtEnd(s[1..], tail);
      assert (s + [0] + tail)[1..] == s[1..] + [0] + tail;
    }
  }

  lemma CStringBack(s: seq<Byte>, tail: seq<Byte>)
    requires IsText(s)
    ensures ReadCString(CString(s) + tail) == Ok(s, tail)
  {
    NulAtEnd(s, tail);
    var all := s + [0] + tail;
    assert all[..|s|] == s && all[|s| + 1..] == tail;
  }

  lemma DataBack(data: seq<Byte>, tail: seq<Byte>)
    requires |data| < 0x8000_0000
    ensures ReadNullable(Be32(AsInt32(|data|)) + data + tail) == Ok(Some(data), tail)
  {
    var len: Int32 := |data|;
    var rest := data + tail;
    assert AsInt32(len) == len;
    Int32Back(len, rest);
    assert Be32(len) + data + tail == Be32(len) + rest;
    assert rest[..len] == data && rest[len..] == tail;
  }

  lemma NullableBack(v: Option<seq<Byte>>, tail: seq<Byte>)
    requires v.Some? ==> |v.value| < 0x8000_0000
    ensures ReadNullable(Nullable(v) + tail) == Ok(v, tail)
  {
    match v
    case None => Int32Back(-1, tail);
    case Some(data) =>
      DataBack(data, tail);
  }

  lemma FormatBack(f: FormatCode, tail: seq<Byte>)
    ensures ReadFormat(Format(f) + tail) == Ok(f, tail)
  {
    Int16Back(if f.Text? then 0 else 1, tail);
  }

  /** Each item is read back whatever follows it. */
  ghost predicate ReadsBack<T>(items: seq<T>, put: T -> seq<Byte>, item: seq<Byte> -> Parsed<T>) {
    forall x, tail :: x in items ==> item(put(x) + tail) == Ok(x, tail)
  }

  lemma {:induction false} ManyBack<T>(items: seq<T>, put: T -> seq<Byte>, item: seq<Byte> -> Parsed<T>, tail: seq<Byte>)
    requires ReadsBack(items, put, item)
    ensures ReadMany(|items|, item, Concat(items, put) + tail) == Ok(items, tail)
  {
    if items == [] {
      assert Concat(items, put) + tail == tail;
    } else {
      var x, others := items[0], items[1..];
      ManyBack(others, put, item, tail);
      assert put(x) + Concat(others, put) + tail == put(x) + (Concat(others, put) + tail);
      assert [x] + others == items;
    }
  }

  lemma CountThenMany<T>(items: seq<T>, put: T -> seq<Byte>, item: seq<Byte> -> Parsed<T>, tail: seq<Byte>)
    requires |items| < 0x8000 && ReadMany(|items|, item, Concat(items, put) + tail) == Ok(items, tail)
    ensures ReadCounted(item, Counted(items, put) + tail) == Ok(items, tail)
  {
    var count := AsInt16(|items|);
    Assoc(Be16(count), Concat(items, put), tail);
    Int16Back(count, Concat(items, put) + tail);
    CountFits(|items|);
  }

  lemma CountFits(n: nat)
    requires n < 0x8000
    ensures AsInt16(n) == n
  {
  }

  lemma CountedBack<T>(items: seq<T>, put: T -> seq<Byte>, item: seq<Byte> -> Parsed<T>, tail: seq<Byte>)
    requires |items| < 0x8000 && ReadsBack(items, put, item)
    ensures ReadCounted(item, Counted(items, put) + tail) == Ok(items, tail)
  {
    ManyBack(items, put, item, tail);
    CountThenMany(items, put, item, tail);
  }
}
