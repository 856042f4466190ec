/** The other direction of the wire format: a message that was decoded and is encoded again,
    as the proxy does with whatever it passes on. The bytes are the same exactly when the frame
    was canonical: nothing in a message without fields, and every NULL written with the length
    minus one. */
module Forwarding {
  import opened Bytes
  import opened Options
  import opened Primitives
  import opened Sequences
  import opened Codec
  import Frontend
  import Backend

  // ---------------------------------------------------------------------
  // What a successful read says about its input
  // ---------------------------------------------------------------------

  lemma Int16Was(s: seq<Byte>)
    requires ReadInt16(s).Ok?
    ensures s == Be16(ReadInt16(s).value) + ReadInt16(s).rest
  {
    var u := FromBe16(s[0], s[1]);
    assert Unsigned16(Signed16(u)) == u && u / 256 == s[0] && u % 256 == s[1];
  }

  lemma BytesAreDigits(b0: Byte, b1: Byte, b2: Byte, b3: Byte)
    ensures Be32(Signed32(FromBe32(b0, b1, b2, b3))) == [b0, b1, b2, b3]
  {
    var u := FromBe32(b0, b1, b2, b3);
    assert Unsigned32(Signed32(u)) == u;
    assert u / 256 == (b0 * 256 + b1) * 256 + b2 && u % 256 == b3;
    assert u / 256 / 256 == b0 * 256 + b1 && u / 256 % 256 == b2;
    assert u / 256 / 256 / 256 == b0 && u / 256 / 256 % 256 == b1;
  }

  lemma Int32Was(s: seq<Byte>)
    requires ReadInt32(s).Ok?
    ensures s == Be32(ReadInt32(s).value) + ReadInt32(s).rest
  {
    BytesAreDigits(s[0], s[1], s[2], s[3]);
    assert s == s[..4] + s[4..];
  }

  lemma OidWas(s: seq<Byte>)
    requires ReadOid(s).Ok?
    ensures s == OidBytes(ReadOid(s).value) + ReadOid(s).rest
  {
    Int32Was(s);
    var v := ReadInt32(s).value;
    assert Signed32(Unsigned32(v)) == v;
  }

  lemma FormatWas(s: seq<Byte>)
    requires ReadFormat(s).Ok?
    ensures s == Format(ReadFormat(s).value) + ReadFormat(s).rest
  {
    Int16Was(s);
  }

  lemma {:induction false} NulAtIsNul(s: seq<Byte>)
    ensures NulAt(s) < |s| ==> s[NulAt(s)] == 0
  {
    if s != [] && s[0] != 0 {
      NulAtIsNul(s[1..]);
    }
  }

  lemma CStringWas(s: seq<Byte>)
    requires ReadCString(s).Ok?
    ensures s == CString(ReadCString(s).value) + ReadCString(s).rest
  {
    NulAtIsNul(s);
    var n := NulAt(s);
    assert s == s[..n] + [s[n]] + s[n + 1..];
  }

  /** A NULL is canonical when its length is -1; any other negative length means NULL too. */
  predicate CanonicalNull(s: seq<Byte>) {
    ReadInt32(s).Ok? ==> ReadInt32(s).value >= -1
  }

  lemma ValueWas(s: seq<Byte>)
    requires ReadNullable(s).Ok? && ReadInt32(s).value >= 0
    ensures s == Nullable(ReadNullable(s).value) + ReadNullable(s).rest
  {
    Int32Was(s);
    var len, rest := ReadInt32(s).value, ReadInt32(s).rest;
    LengthFits(len);
  }

  lemma LengthFits(len: Int32)
    requires len >= 0
    ensures AsInt32(len) == len
  {
  }

  lemma NullWas(s: seq<Byte>)
    requires ReadNullable(s).Ok? && ReadInt32(s).value < 0
    ensures s[..4] == Nullable(ReadNullable(s).value) <==> CanonicalNull(s)
  {
    Int32Was(s);
    var len := ReadInt32(s).value;
    assert s[..4] == Be32(len);
    Be32RoundTrip(len);
    Be32RoundTrip(-1);
  }

  lemma NullableWas(s: seq<Byte>)
    requires ReadNullable(s).Ok?
    ensures |s| == |Nullable(ReadNullable(s).value)| + |ReadNullable(s).rest|
    ensures CanonicalNull(s) ==> s == Nullable(ReadNullable(s).value) + ReadNullable(s).rest
    ensures !CanonicalNull(s) ==> s[..4] != Nullable(ReadNullable(s).value)[..4]
  {
    var v := ReadNullable(s).value;
    if ReadInt32(s).value >= 0 {
      ValueWas(s);
    } else {
      NullWas(s);
      assert Nullable(v)[..4] == Nullable(v);
      assert s == s[..4] + s[4..];
    }
  }

  // ---------------------------------------------------------------------
  // Lists
  // ---------------------------------------------------------------------

  /** Every successful read of an item gives its bytes back. */
  ghost predicate Exact<T(!new)>(item: seq<Byte> -> Parsed<T>, put: T -> seq<Byte>) {
    forall s :: item(s).Ok? ==> s == put(item(s).value) + item(s).rest
  }

  lemma {:induction false} ManyWas<T(!new)>(n: nat, item: seq<Byte> -> Parsed<T>, put: T -> seq<Byte>, s: seq<Byte>)
    requires Exact(item, put) && ReadMany(n, item, s).Ok?
    ensures |ReadMany(n, item, s).value| == n
    ensures s == Concat(ReadMany(n, item, s).value, put) + ReadMany(n, item, s).rest
  {
    if n == 0 {
      assert [] + s == s;
    } else {
      var x, rest := item(s).value, item(s).rest;
      ManyWas(n - 1, item, put, rest);
      var others := ReadMany(n - 1, item, rest);
      assert ([x] + others.value)[1..] == others.value;
      Assoc(put(x), Concat(others.value, put), others.rest);
    }
  }

  lemma CountedWas<T(!new)>(item: seq<Byte> -> Parsed<T>, put: T -> seq<Byte>, s: seq<Byte>)
    requires Exact(item, put) && ReadCounted(item, s).Ok?
    ensures s == Counted(ReadCounted(item, s).value, put) + ReadCounted(item, s).rest
  {
    Int16Was(s);
    var count := ReadInt16(s);
    ManyWas(count.value, item, put, count.rest);
    var items := ReadCounted(item, s);
    CountFits(count.value);
    Assoc(Be16(count.value), Concat(items.value, put), items.rest);
  }

  predicate CanonicalNulls(n: nat, s: seq<Byte>) {
    n > 0 && ReadNullable(s).Ok? ==> CanonicalNull(s) && CanonicalNulls(n - 1, ReadNullable(s).rest)
  }

  lemma {:induction false} ManyNullablesWas(n: nat, s: seq<Byte>)
    requires ReadMany(n, ReadNullable, s).Ok?
    ensures var r := ReadMany(n, ReadNullable, s);
            && |r.value| == n && |s| == |Concat(r.value, Nullable)| + |r.rest|
            && (s == Concat(r.value, Nullable) + r.rest <==> CanonicalNulls(n, s))
  {
    if n == 0 {
      assert [] + s == s;
    } else {
      NullableWas(s);
      var first := ReadNullable(s);
      ManyNullablesWas(n - 1, first.rest);
      var others := ReadMany(n - 1, ReadNullable, first.rest);
      assert ([first.value] + others.value)[1..] == others.value;
      var h, t := Nullable(first.value), Concat(others.value, Nullable);
      Assoc(h, t, others.rest);
      if CanonicalNull(s) {
        assert s == h + first.rest;
        SameTails(h, first.rest, t + others.rest);
      } else {
        assert (h + (t + others.rest))[..4] == h[..4];
      }
    }
  }

  lemma SameTails(h: seq<Byte>, a: seq<Byte>, b: seq<Byte>)
    ensures h + a == h + b <==> a == b
  {
    assert (h + a)[|h|..] == a && (h + b)[|h|..] == b;
  }

  /** The nulls of a counted list, at the front of `s`. */
  predicate CanonicalList(s: seq<Byte>) {
    ReadInt16(s).Ok? && ReadInt16(s).value >= 0 ==> CanonicalNulls(ReadInt16(s).value, ReadInt16(s).rest)
  }

  lemma NullablesWas(s: seq<Byte>)
    requires ReadCounted(ReadNullable, s).Ok?
    ensures var r := ReadCounted(ReadNullable, s);
            s == Counted(r.value, Nullable) + r.rest <==> CanonicalList(s)
  {
    Int16Was(s);
    var count := ReadInt16(s);
    ManyNullablesWas(count.value, count.rest);
    var r := ReadCounted(ReadNullable, s);
    CountFits(count.value);
    Assoc(Be16(count.value), Concat(r.value, Nullable), r.rest);
    SameTails(Be16(count.value), count.rest, Concat(r.value, Nullable) + r.rest);
  }

  lemma FormatsWas(s: seq<Byte>)
    requires ReadCounted(ReadFormat, s).Ok?
    ensures s == Counted(ReadCounted(ReadFormat, s).value, Format) + ReadCounted(ReadFormat, s).rest
  {
    forall t | ReadFormat(t).Ok?
      ensures t == Format(ReadFormat(t).value) + ReadFormat(t).rest
    {
      FormatWas(t);
    }
    CountedWas(ReadFormat, Format, s);
  }

  lemma OidsWas(s: seq<Byte>)
    requires ReadCounted(ReadOid, s).Ok?
    ensures s == Counted(ReadCounted(ReadOid, s).value, OidBytes) + ReadCounted(ReadOid, s).rest
  {
    forall t | ReadOid(t).Ok?
      ensures t == OidBytes(ReadOid(t).value) + ReadOid(t).rest
    {
      OidWas(t);
    }
    CountedWas(ReadOid, OidBytes, s);
  }

  // ---------------------------------------------------------------------
  // Frontend messages
  // ---------------------------------------------------------------------

  /** Where the parameter values of a Bind start. */
  function BindValues(s: seq<Byte>): seq<Byte> {
    var s1 := ReadCString(s);
    if s1.Fail? then [] else
    var s2 := ReadCString(s1.rest);
    if s2.Fail? then [] else
    var s3 := ReadCounted(ReadFormat, s2.rest);
    if s3.Fail? then [] else s3.rest
  }

  /** Known parts in front: what is behind them decides. */
  lemma BehindParts(s: seq<Byte>, a: seq<Byte>, s1: seq<Byte>, b: seq<Byte>, s2: seq<Byte>, x: seq<Byte>)
    requires s == a + s1 && s1 == b + s2
    ensures a + (b + x) == s <==> x == s2
  {
    SameTails(b, x, s2);
    SameTails(a, b + x, s1);
  }

  lemma PartsOfBind(s: seq<Byte>)
    requires Frontend.ReadBind(s).Ok? && Frontend.ReadBind(s).rest == []
    ensures var m := Frontend.ReadBind(s).value;
            && m.Bind?
            && (CString(m.portal) + (CString(m.statement) + (Counted(m.paramFormats, Format)
                  + (Counted(m.params, Nullable) + Counted(m.resultFormats, Format)))) == s
                <==> CanonicalList(BindValues(s)))
  {
    var p1 := ReadCString(s);
    var p2 := ReadCString(p1.rest);
    var p3 := ReadCounted(ReadFormat, p2.rest);
    CStringWas(s);
    CStringWas(p1.rest);
    FormatsWas(p2.rest);
    var p4 := ReadCounted(ReadNullable, p3.rest);
    ValuesWere(p3.rest);
    var last := Counted(ReadCounted(ReadFormat, p4.rest).value, Format);
    var again := Counted(p4.value, Nullable) + last;
    SameTails(Counted(p3.value, Format), p3.rest, again);
    BehindParts(s, CString(p1.value), p1.rest, CString(p2.value), p2.rest, Counted(p3.value, Format) + again);
  }

  lemma BodyOfBind(m: Frontend.FrontendMessage)
    requires m.Bind?
    ensures Frontend.Body(m) == CString(m.portal) + (CString(m.statement) + (Counted(m.paramFormats, Format)
              + (Counted(m.params, Nullable) + Counted(m.resultFormats, Format))))
  {
  }

  lemma BindWas(s: seq<Byte>)
    requires Complete(Frontend.ReadBind(s)).Some?
    ensures Frontend.Body(Complete(Frontend.ReadBind(s)).value) == s <==> CanonicalList(BindValues(s))
  {
    PartsOfBind(s);
    BodyOfBind(Frontend.ReadBind(s).value);
  }

  /** Values and result formats, the end of a Bind. */
  lemma ValuesWere(s: seq<Byte>)
    requires ReadCounted(ReadNullable, s).Ok?
    requires ReadCounted(ReadFormat, ReadCounted(ReadNullable, s).rest).Ok?
    requires ReadCounted(ReadFormat, ReadCounted(ReadNullable, s).rest).rest == []
    ensures var values := ReadCounted(ReadNullable, s);
            Counted(values.value, Nullable) + Counted(ReadCounted(ReadFormat, values.rest).value, Format) == s <==>
                  CanonicalList(s)
  {
    NullablesWas(s);
    var values := ReadCounted(ReadNullable, s);
    FormatsWas(values.rest);
  }

  lemma PartsOfParse(s: seq<Byte>)
    requires Frontend.ReadParse(s).Ok? && Frontend.ReadParse(s).rest == []
    ensures var m := Frontend.ReadParse(s).value;
            m.Parse? && CString(m.name) + (CString(m.query) + Counted(m.paramTypes, OidBytes)) == s
  {
    var p1 := ReadCString(s);
    var p2 := ReadCString(p1.rest);
    CStringWas(s);
    CStringWas(p1.rest);
    OidsWas(p2.rest);
    var last := Counted(ReadCounted(ReadOid, p2.rest).value, OidBytes);
    BehindParts(s, CString(p1.value), p1.rest, CString(p2.value), p2.rest, last);
  }

  lemma BodyOfParse(m: Frontend.FrontendMessage)
    requires m.Parse?
    ensures Frontend.Body(m) == CString(m.name) + (CString(m.query) + Counted(m.paramTypes, OidBytes))
  {
  }

  lemma ParseWas(s: seq<Byte>)
    requires Complete(Frontend.ReadParse(s)).Some?
    ensures Frontend.Body(Complete(Frontend.ReadParse(s)).value) == s
  {
    PartsOfParse(s);
    BodyOfParse(Frontend.ReadParse(s).value);
  }

  lemma StringWas(s: seq<Byte>)
    requires Complete(ReadCString(s)).Some?
    ensures CString(Complete(ReadCString(s)).value) == s
  {
    CStringWas(s);
    var v := ReadCString(s).value;
    assert CString(v) + [] == CString(v);
  }

  lemma KindAndName(s: seq<Byte>)
    requires s != [] && Frontend.ReadTargetKind(s).Ok? && Complete(ReadCString(s[1..])).Some?
    ensures [Frontend.KindByte(Frontend.ReadTargetKind(s).value)] + CString(ReadCString(s[1..]).value) == s
  {
    StringWas(s[1..]);
    assert s == [s[0]] + s[1..];
  }

  lemma CloseWas(s: seq<Byte>)
    requires Complete(Frontend.ReadClose(s)).Some?
    ensures Frontend.Body(Complete(Frontend.ReadClose(s)).value) == s
  {
    KindAndName(s);
  }

  lemma DescribeWas(s: seq<Byte>)
    requires Complete(Frontend.ReadDescribe(s)).Some?
    ensures Frontend.Body(Complete(Frontend.ReadDescribe(s)).value) == s
  {
    KindAndName(s);
  }

  lemma ExecuteWas(s: seq<Byte>)
    requires Complete(Frontend.ReadExecute(s)).Some?
    ensures Frontend.Body(Complete(Frontend.ReadExecute(s)).value) == s
  {
    CStringWas(s);
    Int32Was(ReadCString(s).rest);
    var v := ReadInt32(ReadCString(s).rest).value;
    assert Be32(v) + [] == Be32(v);
  }

  /** Messages without fields have no payload and NULLs have length -1. */
  predicate CanonicalFrontend(c: Byte, payload: seq<Byte>) {
    && (c in {0x63, 0x48, 0x53, 0x58} ==> payload == [])
    && (c == 0x42 ==> CanonicalList(BindValues(payload)))
  }

  lemma FrontendTypeKept(c: Byte, payload: seq<Byte>)
    requires Frontend.ParseRegular(c, payload).Some?
    ensures var m := Frontend.ParseRegular(c, payload).value; !Frontend.IsInitial(m) && Frontend.TypeByte(m) == c
  {
    if 0x43 < c <= 0x48 {
      Types44Kept(c, payload);
    } else if 0x48 < c <= 0x51 {
      Types50Kept(c, payload);
    } else if c > 0x51 {
      Types53Kept(c, payload);
    }
  }

  lemma Types44Kept(c: Byte, payload: seq<Byte>)
    requires 0x43 < c <= 0x48 && Frontend.ParseRegular(c, payload).Some?
    ensures var m := Frontend.ParseRegular(c, payload).value; !Frontend.IsInitial(m) && Frontend.TypeByte(m) == c
  {
  }

  lemma Types50Kept(c: Byte, payload: seq<Byte>)
    requires 0x48 < c <= 0x51 && Frontend.ParseRegular(c, payload).Some?
    ensures var m := Frontend.ParseRegular(c, payload).value; !Frontend.IsInitial(m) && Frontend.TypeByte(m) == c
  {
  }

  lemma Types53Kept(c: Byte, payload: seq<Byte>)
    requires c > 0x51 && Frontend.ParseRegular(c, payload).Some?
    ensures var m := Frontend.ParseRegular(c, payload).value; !Frontend.IsInitial(m) && Frontend.TypeByte(m) == c
  {
  }

  predicate StringsOnly(c: Byte) {
    c in {0x43, 0x44, 0x45, 0x51, 0x66}
  }

  lemma StringsWere(c: Byte, payload: seq<Byte>)
    requires StringsOnly(c) && Frontend.ParseRegular(c, payload).Some?
    ensures Frontend.Body(Frontend.ParseRegular(c, payload).value) == payload
  {
    if c == 0x43 {
      CloseWas(payload);
    } else if c == 0x44 {
      DescribeWas(payload);
    } else if c == 0x45 {
      ExecuteWas(payload);
    } else {
      assert Complete(ReadCString(payload)).Some?;
      StringWas(payload);
    }
  }

  lemma FrontendBodyWas(c: Byte, payload: seq<Byte>)
    requires Frontend.ParseRegular(c, payload).Some?
    ensures Frontend.Body(Frontend.ParseRegular(c, payload).value) == payload <==> CanonicalFrontend(c, payload)
  {
    if c == 0x42 {
      BindWas(payload);
    } else if c == 0x50 {
      ParseWas(payload);
    } else if StringsOnly(c) {
      StringsWere(c, payload);
    } else {
      PlainWas(c, payload);
    }
  }

  lemma PlainWas(c: Byte, payload: seq<Byte>)
    requires Frontend.ParseRegular(c, payload).Some? && !StringsOnly(c) && c != 0x42 && c != 0x50
    ensures Frontend.Body(Frontend.ParseRegular(c, payload).value) == payload <==> CanonicalFrontend(c, payload)
  {
  }

  // ---------------------------------------------------------------------
  // Initial messages
  // ---------------------------------------------------------------------

  lemma {:induction false} ParametersWere(s: seq<Byte>)
    requires Frontend.ReadParameters(s).Ok?
    ensures s == Concat(Frontend.ReadParameters(s).value, Frontend.Parameter) + [0] + Frontend.ReadParameters(s).rest
    decreases |s|
  {
    CStringWas(s);
    var key := ReadCString(s);
    if key.value == [] {
      assert CString([]) == [0] && [] + [0] == [0];
    } else {
      CStringWas(key.rest);
      var value := ReadCString(key.rest);
      ParametersWere(value.rest);
      var others := Frontend.ReadParameters(value.rest);
      assert ([(key.value, value.value)] + others.value)[1..] == others.value;
      Frontend.ParametersCons((key.value, value.value), Concat(others.value, Frontend.Parameter), others.rest);
    }
  }

  lemma InitialBodyWas(s: seq<Byte>)
    requires |s| >= 4 && Frontend.ParseInitial(s).Some?
    ensures Frontend.IsInitial(Frontend.ParseInitial(s).value)
    ensures Frontend.Body(Frontend.ParseInitial(s).value) == s[4..]
  {
    Int32Was(s[4..]);
    var code := ReadInt32(s[4..]);
    if code.value == Frontend.PROTOCOL_V3 {
      ParametersWere(code.rest);
      Frontend.VersionIsCode(code.rest);
    } else if code.value == Frontend.CANCEL_REQUEST_CODE {
      Int32Was(code.rest);
      var processId := ReadInt32(code.rest);
      Int32Was(processId.rest);
    }
  }

  // ---------------------------------------------------------------------
  // Backend messages
  // ---------------------------------------------------------------------

  lemma FieldWas(s: seq<Byte>)
    requires Backend.ReadField(s).Ok?
    ensures s == Backend.Field(Backend.ReadField(s).value) + Backend.ReadField(s).rest
  {
    CStringWas(s);
    var p1 := ReadCString(s);
    OidWas(p1.rest);
    var p2 := ReadOid(p1.rest);
    Int16Was(p2.rest);
    var p3 := ReadInt16(p2.rest);
    OidWas(p3.rest);
    var p4 := ReadOid(p3.rest);
    Int16Was(p4.rest);
    var p5 := ReadInt16(p4.rest);
    Int32Was(p5.rest);
    var p6 := ReadInt32(p5.rest);
    FormatWas(p6.rest);
    SevenParts(CString(p1.value), OidBytes(p2.value), Be16(p3.value), OidBytes(p4.value), Be16(p5.value), Be32(p6.value),
               Format(ReadFormat(p6.rest).value), ReadFormat(p6.rest).rest);
  }

  lemma SevenParts(a: seq<Byte>, b: seq<Byte>, c: seq<Byte>, d: seq<Byte>, e: seq<Byte>, f: seq<Byte>, g: seq<Byte>,
                   t: seq<Byte>)
    ensures a + (b + (c + (d + (e + (f + g))))) + t == a + (b + (c + (d + (e + (f + (g + t))))))
  {
    Assoc(f, g, t);
    Assoc(e, f + g, t);
    Assoc(d, e + (f + g), t);
    Assoc(c, d + (e + (f + g)), t);
    Assoc(b, c + (d + (e + (f + g))), t);
    Assoc(a, b + (c + (d + (e + (f + g)))), t);
  }

  lemma FieldsWere(s: seq<Byte>)
    requires ReadCounted(Backend.ReadField, s).Ok? && ReadCounted(Backend.ReadField, s).rest == []
    ensures s == Counted(ReadCounted(Backend.ReadField, s).value, Backend.Field)
  {
    forall t | Backend.ReadField(t).Ok?
      ensures t == Backend.Field(Backend.ReadField(t).value) + Backend.ReadField(t).rest
    {
      FieldWas(t);
    }
    CountedWas(Backend.ReadField, Backend.Field, s);
  }

  lemma BodyOfRows(fields: seq<Backend.FieldDescription>)
    ensures Backend.Body(Backend.RowDescription(fields)) == Counted(fields, Backend.Field)
  {
  }

  lemma BodyOfNotices(notices: seq<Backend.Notice>)
    ensures Backend.Body(Backend.ErrorResponse(notices)) == Backend.Notices(notices)
    ensures Backend.Body(Backend.NoticeResponse(notices)) == Backend.Notices(notices)
  {
  }

  lemma BodyOfCopyOut(copy: Backend.CopyResponse)
    ensures Backend.Body(Backend.CopyOutResponse(copy)) == Backend.Copy(copy)
  {
  }

  lemma RowDescriptionWas(s: seq<Byte>)
    requires Backend.ReadFields(s).Ok? && Backend.ReadFields(s).rest == []
    ensures Backend.ReadFields(s).value.RowDescription? && Backend.Body(Backend.ReadFields(s).value) == s
  {
    FieldsWere(s);
    BodyOfRows(ReadCounted(Backend.ReadField, s).value);
  }

  lemma {:induction false} MechanismsWere(s: seq<Byte>)
    requires Backend.ReadMechanisms(s).Ok?
    ensures s == Concat(Backend.ReadMechanisms(s).value, CString) + [0] + Backend.ReadMechanisms(s).rest
    decreases |s|
  {
    CStringWas(s);
    var first := ReadCString(s);
    if first.value == [] {
      assert CString([]) == [0] && [] + [0] == [0];
    } else {
      MechanismsWere(first.rest);
      var others := Backend.ReadMechanisms(first.rest);
      assert ([first.value] + others.value)[1..] == others.value;
      Assoc(CString(first.value), Concat(others.value, CString), [0]);
      Assoc(CString(first.value), Concat(others.value, CString) + [0], others.rest);
    }
  }

  lemma {:induction false} NoticesWere(s: seq<Byte>)
    requires Backend.ReadNotices(s).Ok?
    ensures s == Backend.Notices(Backend.ReadNotices(s).value) + Backend.ReadNotices(s).rest
    decreases |s|
  {
    assert s == [s[0]] + s[1..];
    if s[0] == 0 {
      assert [] + [0] == [0];
    } else {
      CStringWas(s[1..]);
      var text := ReadCString(s[1..]);
      NoticesWere(text.rest);
      var others := Backend.ReadNotices(text.rest);
      assert ([(s[0], text.value)] + others.value)[1..] == others.value;
      NoticesCons((s[0], text.value), Concat(others.value, Backend.NoticeBytes), others.rest);
    }
  }

  lemma NoticesCons(n: Backend.Notice, others: seq<Byte>, t: seq<Byte>)
    ensures Backend.NoticeBytes(n) + others + [0] + t == [n.0] + (CString(n.1) + (others + [0] + t))
  {
  }

  lemma CopyWas(s: seq<Byte>)
    requires Backend.ReadCopy(s).Ok? && Backend.ReadCopy(s).rest == []
    ensures s == Backend.Copy(Backend.ReadCopy(s).value)
  {
    FormatsWas(s[1..]);
    assert s == [s[0]] + s[1..];
  }

  lemma MechanismsBodyWas(rest: seq<Byte>)
    requires Backend.ReadMechanisms(rest).Ok? && Backend.ReadMechanisms(rest).rest == []
    ensures Concat(Backend.ReadMechanisms(rest).value, CString) + [0] == rest
  {
    MechanismsWere(rest);
  }

  lemma AuthenticationWas(s: seq<Byte>)
    requires Backend.ReadAuthentication(s).Ok? && Backend.ReadAuthentication(s).rest == []
    ensures Backend.TypeByte(Backend.ReadAuthentication(s).value) == 0x52
    ensures Backend.Body(Backend.ReadAuthentication(s).value) == s
  {
    Int32Was(s);
    var kind := ReadInt32(s);
    if kind.value == 10 {
      MechanismsBodyWas(kind.rest);
    } else if kind.value == 5 {
      assert kind.rest[..4] == kind.rest;
    } else {
    }
  }

  lemma RowWas(s: seq<Byte>)
    requires ReadCounted(ReadNullable, s).Ok? && ReadCounted(ReadNullable, s).rest == []
    ensures Counted(ReadCounted(ReadNullable, s).value, Nullable) == s <==> CanonicalList(s)
  {
    NullablesWas(s);
  }

  lemma OidListWas(s: seq<Byte>)
    requires ReadCounted(ReadOid, s).Ok? && ReadCounted(ReadOid, s).rest == []
    ensures Counted(ReadCounted(ReadOid, s).value, OidBytes) == s
  {
    OidsWas(s);
  }

  lemma NoticeListWas(s: seq<Byte>)
    requires Backend.ReadNotices(s).Ok? && Backend.ReadNotices(s).rest == []
    ensures Backend.Notices(Backend.ReadNotices(s).value) == s
  {
    NoticesWere(s);
  }

  lemma KeyDataWas(s: seq<Byte>)
    requires Backend.ReadKeyData(s).Ok? && Backend.ReadKeyData(s).rest == []
    ensures Backend.Body(Backend.ReadKeyData(s).value) == s
  {
    Int32Was(s);
    Int32Was(ReadInt32(s).rest);
  }

  lemma TwoTextsWere(s: seq<Byte>)
    requires ReadCString(s).Ok? && ReadCString(ReadCString(s).rest).Ok? && ReadCString(ReadCString(s).rest).rest == []
    ensures CString(ReadCString(s).value) + CString(ReadCString(ReadCString(s).rest).value) == s
  {
    CStringWas(s);
    CStringWas(ReadCString(s).rest);
  }

  lemma TextsWere(s: seq<Byte>)
    requires Backend.ReadTexts(s).Ok? && Backend.ReadTexts(s).rest == []
    ensures Backend.Body(Backend.ReadTexts(s).value) == s
  {
    TwoTextsWere(s);
    BodyOfTexts(ReadCString(s).value, ReadCString(ReadCString(s).rest).value);
  }

  lemma BodyOfTexts(name: seq<Byte>, value: seq<Byte>)
    ensures Backend.Body(Backend.ParameterStatus(name, value)) == CString(name) + CString(value)
  {
  }

  lemma BodyOfNotification(processId: Int32, channel: seq<Byte>, payload: seq<Byte>)
    ensures Backend.Body(Backend.NotificationResponse(processId, channel, payload))
         == Be32(processId) + (CString(channel) + CString(payload))
  {
  }

  lemma NotificationWas(s: seq<Byte>)
    requires Backend.ReadNotification(s).Ok? && Backend.ReadNotification(s).rest == []
    ensures Backend.Body(Backend.ReadNotification(s).value) == s
  {
    Int32Was(s);
    var p := ReadInt32(s);
    TwoTextsWere(p.rest);
    var channel := ReadCString(p.rest);
    BodyOfNotification(p.value, channel.value, ReadCString(channel.rest).value);
  }

  lemma StatusWas(s: seq<Byte>)
    requires Backend.ReadStatus(s).Ok? && Backend.ReadStatus(s).rest == []
    ensures Backend.Body(Backend.ReadStatus(s).value) == s
  {
    assert s == [s[0]] + s[1..];
  }

  /** As for a frontend: no payload where there are no fields, and canonical NULLs in rows. */
  predicate CanonicalBackend(c: Byte, payload: seq<Byte>) {
    && (c in {0x31, 0x32, 0x33, 0x63, 0x49, 0x6e, 0x73} ==> payload == [])
    && (c == 0x44 ==> CanonicalList(payload))
  }

  predicate SimpleBackend(c: Byte) {
    c in {0x31, 0x32, 0x33, 0x63, 0x49, 0x6e, 0x73, 0x64}
  }

  lemma RowBodyWas(c: Byte, payload: seq<Byte>)
    requires c == 0x44 && Backend.Parse(c, payload).Some?
    ensures var m := Backend.Parse(c, payload).value;
            Backend.TypeByte(m) == c && (Backend.Body(m) == payload <==> CanonicalBackend(c, payload))
  {
    RowWas(payload);
  }

  lemma OidsBodyWas(c: Byte, payload: seq<Byte>)
    requires c == 0x74 && Backend.Parse(c, payload).Some?
    ensures var m := Backend.Parse(c, payload).value;
            Backend.TypeByte(m) == c && Backend.Body(m) == payload
  {
    OidListWas(payload);
  }

  lemma RowDescriptionMessage(c: Byte, payload: seq<Byte>)
    requires c == 0x54 && Backend.Parse(c, payload).Some?
    ensures var rows := Backend.ReadFields(payload);
            rows.Ok? && rows.rest == [] && Backend.Parse(c, payload).value == rows.value
  {
  }

  lemma FieldsBodyWas(c: Byte, payload: seq<Byte>)
    requires c == 0x54 && Backend.Parse(c, payload).Some?
    ensures var m := Backend.Parse(c, payload).value;
            Backend.TypeByte(m) == c && Backend.Body(m) == payload
  {
    RowDescriptionMessage(c, payload);
    RowDescriptionWas(payload);
  }

  lemma NoticesMessage(c: Byte, payload: seq<Byte>)
    requires (c == 0x45 || c == 0x4e) && Backend.Parse(c, payload).Some?
    ensures var notices := Backend.ReadNotices(payload);
            && notices.Ok? && notices.rest == []
            && Backend.Parse(c, payload).value ==
                 if c == 0x45 then Backend.ErrorResponse(notices.value) else Backend.NoticeResponse(notices.value)
  {
  }

  lemma NoticesBodyWas(c: Byte, payload: seq<Byte>)
    requires (c == 0x45 || c == 0x4e) && Backend.Parse(c, payload).Some?
    ensures var m := Backend.Parse(c, payload).value;
            Backend.TypeByte(m) == c && Backend.Body(m) == payload
  {
    NoticesMessage(c, payload);
    NoticeListWas(payload);
    BodyOfNotices(Backend.ReadNotices(payload).value);
  }

  lemma CopyBodyWas(c: Byte, payload: seq<Byte>)
    requires (c == 0x47 || c == 0x48 || c == 0x57) && Backend.Parse(c, payload).Some?
    ensures var m := Backend.Parse(c, payload).value;
            Backend.TypeByte(m) == c && Backend.Body(m) == payload
  {
    CopyWas(payload);
    var copy := Backend.ReadCopy(payload).value;
    BodyOfCopyOut(copy);
  }

  lemma AuthenticationBodyWas(c: Byte, payload: seq<Byte>)
    requires c == 0x52 && Backend.Parse(c, payload).Some?
    ensures var m := Backend.Parse(c, payload).value;
            Backend.TypeByte(m) == c && Backend.Body(m) == payload
  {
    AuthenticationWas(payload);
  }

  lemma TextBodyWas(c: Byte, payload: seq<Byte>)
    requires (c == 0x41 || c == 0x43 || c == 0x53) && Backend.Parse(c, payload).Some?
    ensures var m := Backend.Parse(c, payload).value;
            Backend.TypeByte(m) == c && Backend.Body(m) == payload
  {
    if c == 0x41 {
      NotificationWas(payload);
    } else if c == 0x43 {
      StringWas(payload);
    } else {
      TextsWere(payload);
    }
  }

  lemma NumberBodyWas(c: Byte, payload: seq<Byte>)
    requires (c == 0x4b || c == 0x5a) && Backend.Parse(c, payload).Some?
    ensures var m := Backend.Parse(c, payload).value;
            Backend.TypeByte(m) == c && Backend.Body(m) == payload
  {
    if c == 0x4b {
      KeyDataWas(payload);
    } else {
      StatusWas(payload);
    }
  }

  lemma BackendBodyWas(c: Byte, payload: seq<Byte>)
    requires Backend.Parse(c, payload).Some?
    ensures var m := Backend.Parse(c, payload).value;
            Backend.TypeByte(m) == c && (Backend.Body(m) == payload <==> CanonicalBackend(c, payload))
  {
    if SimpleBackend(c) {
    } else if c == 0x44 {
      RowBodyWas(c, payload);
    } else if c == 0x74 {
      OidsBodyWas(c, payload);
    } else if c == 0x54 {
      FieldsBodyWas(c, payload);
    } else if c == 0x45 || c == 0x4e {
      NoticesBodyWas(c, payload);
    } else if c == 0x47 || c == 0x48 || c == 0x57 {
      CopyBodyWas(c, payload);
    } else if c == 0x52 {
      AuthenticationBodyWas(c, payload);
    } else if c == 0x4b || c == 0x5a {
      NumberBodyWas(c, payload);
    } else {
      TextBodyWas(c, payload);
    }
  }

  // ---------------------------------------------------------------------
  // Main result
  // ---------------------------------------------------------------------

  /** The frame at the front of the buffer. */
  predicate CanonicalFrame(mode: Mode, s: seq<Byte>)
    requires Decode(mode, s).Got?
  {
    if mode.Initial? then true
    else
      var payload := s[5..1 + Length(s[1..])];
      if mode.Server? then CanonicalBackend(s[0], payload) else CanonicalFrontend(s[0], payload)
  }

  lemma HeaderIs(s: seq<Byte>)
    requires |s| >= 4
    ensures Be32(Signed32(Length(s))) == s[..4]
  {
    BytesAreDigits(s[0], s[1], s[2], s[3]);
  }

  lemma SameLengthFramed(s: seq<Byte>, body: seq<Byte>)
    requires |s| >= 4 && Length(s) == |s| == |body| + 4
    ensures Frontend.Framed(body) == s[..4] + body
  {
    var n := |body| + 4;
    assert n < 0x1_0000_0000 && n % 0x1_0000_0000 == n;
    HeaderIs(s);
  }

  lemma FramedWas(s: seq<Byte>, body: seq<Byte>)
    requires |s| >= 4 && Length(s) == |s|
    ensures Frontend.Framed(body) == s <==> body == s[4..]
  {
    if |body| + 4 == |s| {
      SameLengthFramed(s, body);
      SameTails(s[..4], body, s[4..]);
    } else {
      FramedHasLength(body);
    }
  }

  lemma FramedHasLength(body: seq<Byte>)
    ensures |Frontend.Framed(body)| == |body| + 4
  {
  }

  lemma InitialFrameForwards(frame: seq<Byte>)
    requires |frame| >= 4 && Length(frame) == |frame| && Frontend.ParseInitial(frame).Some?
    ensures Frontend.Encoded(Frontend.ParseInitial(frame).value) == frame
  {
    InitialBodyWas(frame);
    FramedWas(frame, Frontend.Body(Frontend.ParseInitial(frame).value));
  }

  lemma InitialForwards(s: seq<Byte>)
    requires DecodeInitial(s).Got?
    ensures s == Encoded(DecodeInitial(s).message) + DecodeInitial(s).rest
  {
    var frame := s[..Length(s)];
    assert Length(frame) == Length(s) == |frame|;
    InitialFrameForwards(frame);
    assert s == frame + s[Length(s)..];
  }

  lemma FrameForwards(c: Byte, framed: seq<Byte>, body: seq<Byte>, rest: seq<Byte>)
    requires |framed| >= 4 && Length(framed) == |framed|
    ensures [c] + framed + rest == [c] + Frontend.Framed(body) + rest <==> body == framed[4..]
  {
    FramedWas(framed, body);
    SameHeads([c] + framed, [c] + Frontend.Framed(body), rest);
    SameTails([c], framed, Frontend.Framed(body));
  }

  /** Where the message of a frame comes from. */
  lemma MessageOfFrame(mode: Mode, s: seq<Byte>)
    requires !mode.Initial? && DecodeRegular(mode, s).Got?
    ensures var d, payload := DecodeRegular(mode, s), s[5..1 + Length(s[1..])];
            exists body :: Encoded(d.message) == [s[0]] + Frontend.Framed(body) &&
                  (body == payload <==> CanonicalFrame(mode, s))
  {
    var d, payload := DecodeRegular(mode, s), s[5..1 + Length(s[1..])];
    if mode.Server? {
      BackendBodyWas(s[0], payload);
      var body := Backend.Body(d.message.back);
      assert Encoded(d.message) == [s[0]] + Frontend.Framed(body);
    } else {
      FrontendTypeKept(s[0], payload);
      FrontendBodyWas(s[0], payload);
      var body := Frontend.Body(d.message.front);
      assert Encoded(d.message) == [s[0]] + Frontend.Framed(body);
    }
  }

  lemma CutFrame(mode: Mode, s: seq<Byte>)
    requires !mode.Initial? && DecodeRegular(mode, s).Got?
    ensures var framed := s[1..1 + Length(s[1..])];
            && |framed| >= 4 && Length(framed) == |framed| && framed[4..] == s[5..1 + Length(s[1..])]
            && s == [s[0]] + framed + DecodeRegular(mode, s).rest
  {
    var total := 1 + Length(s[1..]);
    assert Length(s[1..total]) == Length(s[1..]);
  }

  lemma RegularForwards(mode: Mode, s: seq<Byte>)
    requires !mode.Initial? && DecodeRegular(mode, s).Got?
    ensures var d := DecodeRegular(mode, s);
            s == Encoded(d.message) + d.rest <==> CanonicalFrame(mode, s)
  {
    CutFrame(mode, s);
    MessageOfFrame(mode, s);
    var d, framed := DecodeRegular(mode, s), s[1..1 + Length(s[1..])];
    var body :| Encoded(d.message) == [s[0]] + Frontend.Framed(body) && (body == framed[4..] <==> CanonicalFrame(mode, s));
    FrameForwards(s[0], framed, body, d.rest);
  }

  lemma SameHeads(a: seq<Byte>, b: seq<Byte>, t: seq<Byte>)
    ensures a + t == b + t <==> a == b
  {
    if |a| == |b| {
      assert (a + t)[..|a|] == a && (b + t)[..|b|] == b;
    }
  }

  /** A message that is decoded and encoded again leaves the bytes as they were exactly when
      its frame was canonical; every startup-mode message does. */
  lemma ForwardingKeepsBytes(mode: Mode, s: seq<Byte>)
    requires Decode(mode, s).Got?
    ensures s == Encoded(Decode(mode, s).message) + Decode(mode, s).rest <==> CanonicalFrame(mode, s)
  {
    if mode.Initial? {
      InitialForwards(s);
    } else {
      RegularForwards(mode, s);
    }
  }
}
