/** What the decoders accept: a canonical frame is decoded exactly to the message whose documented
    form it is, and what is decoded is well-formed: texts without NUL, lists short enough for
    their count, no empty name before the end of a list. How long a decoder waits follows from
    the length field alone. */
module Documented {
  import opened Bytes
  import opened Options
  import opened Primitives
  import opened Codec
  import Frontend
  import Backend
  import Forwarding
  import Layout
  import Utf8

  // ---------------------------------------------------------------------
  // What the fields hold
  // ---------------------------------------------------------------------

  lemma TextIsRead(s: seq<Byte>)
    requires ReadCString(s).Ok?
    ensures IsText(ReadCString(s).value) && |ReadCString(s).rest| < |s|
  {
    Utf8.TextIsReadIff(s, ReadCString(s).value, ReadCString(s).rest);
  }

  lemma {:induction false} ManyAre<T>(n: nat, item: seq<Byte> -> Parsed<T>, s: seq<Byte>, p: T -> bool)
    requires ReadMany(n, item, s).Ok?
    requires forall t :: item(t).Ok? ==> p(item(t).value)
    ensures |ReadMany(n, item, s).value| == n && forall x :: x in ReadMany(n, item, s).value ==> p(x)
  {
    if n > 0 {
      ManyAre(n - 1, item, item(s).rest, p);
    }
  }

  lemma CountedAre<T>(item: seq<Byte> -> Parsed<T>, s: seq<Byte>, p: T -> bool)
    requires ReadCounted(item, s).Ok?
    requires forall t :: item(t).Ok? ==> p(item(t).value)
    ensures |ReadCounted(item, s).value| < 0x8000 && forall x :: x in ReadCounted(item, s).value ==> p(x)
  {
    ManyAre(ReadInt16(s).value, item, ReadInt16(s).rest, p);
  }

  lemma CountedIsShort<T>(item: seq<Byte> -> Parsed<T>, s: seq<Byte>)
    requires ReadCounted(item, s).Ok?
    ensures |ReadCounted(item, s).value| < 0x8000
  {
    CountedAre(item, s, x => true);
  }

  // ---------------------------------------------------------------------
  // Messages of a client
  // ---------------------------------------------------------------------

  /** What a well-formed message holds, but for its length. */
  ghost predicate Holds(m: Frontend.FrontendMessage) {
    |Frontend.Body(m)| + 4 < 0x8000_0000 ==> Frontend.WellFormed(m)
  }

  lemma {:induction false} ParametersHold(s: seq<Byte>)
    requires Frontend.ReadParameters(s).Ok?
    ensures forall p :: p in Frontend.ReadParameters(s).value ==> p.0 != [] && IsText(p.0) && IsText(p.1)
    decreases |s|
  {
    TextIsRead(s);
    var key := ReadCString(s);
    if key.value != [] {
      TextIsRead(key.rest);
      ParametersHold(ReadCString(key.rest).rest);
    }
  }

  lemma InitialHolds(s: seq<Byte>)
    requires Frontend.ParseInitial(s).Some?
    ensures Holds(Frontend.ParseInitial(s).value)
  {
    var rest := ReadInt32(s).rest;
    var code := ReadInt32(rest);
    if code.value == Frontend.PROTOCOL_V3 {
      ParametersHold(code.rest);
    }
  }

  lemma BindHolds(s: seq<Byte>)
    requires Frontend.ReadBind(s).Ok?
    ensures Holds(Frontend.ReadBind(s).value)
  {
    TextIsRead(s);
    var s1 := ReadCString(s).rest;
    TextIsRead(s1);
    var s2 := ReadCString(s1).rest;
    CountedIsShort(ReadFormat, s2);
    var s3 := ReadCounted(ReadFormat, s2).rest;
    CountedIsShort(ReadNullable, s3);
    CountedIsShort(ReadFormat, ReadCounted(ReadNullable, s3).rest);
  }

  lemma ParseHolds(s: seq<Byte>)
    requires Frontend.ReadParse(s).Ok?
    ensures Holds(Frontend.ReadParse(s).value)
  {
    TextIsRead(s);
    var s1 := ReadCString(s).rest;
    TextIsRead(s1);
    CountedIsShort(ReadOid, ReadCString(s1).rest);
  }

  lemma RegularHolds(c: Byte, payload: seq<Byte>)
    requires Frontend.ParseRegular(c, payload).Some?
    ensures Holds(Frontend.ParseRegular(c, payload).value)
  {
    if c == 0x42 {
      BindHolds(payload);
    } else if c == 0x50 {
      ParseHolds(payload);
    } else if c == 0x43 || c == 0x44 {
      TextIsRead(payload[1..]);
    } else if c == 0x45 || c == 0x66 || c == 0x51 {
      TextIsRead(payload);
    }
  }

  // ---------------------------------------------------------------------
  // Messages of a backend
  // ---------------------------------------------------------------------

  ghost predicate BackendHolds(m: Backend.BackendMessage) {
    |Backend.Body(m)| + 4 < 0x8000_0000 ==> Backend.WellFormed(m)
  }

  lemma {:induction false} MechanismsHold(s: seq<Byte>)
    requires Backend.ReadMechanisms(s).Ok?
    ensures Backend.AreMechanisms(Backend.ReadMechanisms(s).value)
    decreases |s|
  {
    TextIsRead(s);
    if ReadCString(s).value != [] {
      MechanismsHold(ReadCString(s).rest);
    }
  }

  lemma {:induction false} NoticesHold(s: seq<Byte>)
    requires Backend.ReadNotices(s).Ok?
    ensures Backend.AreNotices(Backend.ReadNotices(s).value)
    decreases |s|
  {
    if s[0] != 0 {
      TextIsRead(s[1..]);
      NoticesHold(ReadCString(s[1..]).rest);
    }
  }

  lemma FieldHolds(s: seq<Byte>)
    requires Backend.ReadField(s).Ok?
    ensures IsText(Backend.ReadField(s).value.name)
  {
    TextIsRead(s);
  }

  lemma FieldsHold(s: seq<Byte>)
    requires ReadCounted(Backend.ReadField, s).Ok?
    ensures var fields := ReadCounted(Backend.ReadField, s).value;
            |fields| < 0x8000 && forall f :: f in fields ==> IsText(f.name)
  {
    forall t | Backend.ReadField(t).Ok?
      ensures IsText(Backend.ReadField(t).value.name)
    {
      FieldHolds(t);
    }
    CountedAre(Backend.ReadField, s, (f: Backend.FieldDescription) => IsText(f.name));
  }

  lemma AuthenticationHolds(s: seq<Byte>)
    requires Backend.ReadAuthentication(s).Ok?
    ensures BackendHolds(Backend.ReadAuthentication(s).value)
  {
    var kind := ReadInt32(s);
    if kind.value == 10 {
      MechanismsHold(kind.rest);
    }
  }

  lemma TwoTextsAreRead(s: seq<Byte>)
    requires ReadCString(s).Ok? && ReadCString(ReadCString(s).rest).Ok?
    ensures IsText(ReadCString(s).value) && IsText(ReadCString(ReadCString(s).rest).value)
  {
    TextIsRead(s);
    TextIsRead(ReadCString(s).rest);
  }

  lemma NotificationHolds(payload: seq<Byte>)
    requires Backend.ReadNotification(payload).Ok?
    ensures BackendHolds(Backend.ReadNotification(payload).value)
  {
    TwoTextsAreRead(ReadInt32(payload).rest);
  }

  lemma TagHolds(payload: seq<Byte>)
    requires Backend.ReadTag(payload).Ok?
    ensures BackendHolds(Backend.ReadTag(payload).value)
  {
    TextIsRead(payload);
  }

  lemma StatusTextsHold(payload: seq<Byte>)
    requires Backend.ReadTexts(payload).Ok?
    ensures BackendHolds(Backend.ReadTexts(payload).value)
  {
    TwoTextsAreRead(payload);
  }

  lemma TextsHold(c: Byte, payload: seq<Byte>)
    requires c == 0x41 || c == 0x43 || c == 0x53
    requires Backend.Parse(c, payload).Some?
    ensures BackendHolds(Backend.Parse(c, payload).value)
  {
    if c == 0x41 {
      NotificationHolds(payload);
    } else if c == 0x43 {
      TagHolds(payload);
    } else {
      StatusTextsHold(payload);
    }
  }

  lemma RowHolds(payload: seq<Byte>)
    requires Backend.ReadRow(payload).Ok?
    ensures BackendHolds(Backend.ReadRow(payload).value)
  {
    CountedIsShort(ReadNullable, payload);
  }

  lemma OidsHold(payload: seq<Byte>)
    requires Backend.ReadOids(payload).Ok?
    ensures BackendHolds(Backend.ReadOids(payload).value)
  {
    CountedIsShort(ReadOid, payload);
  }

  lemma FieldListHolds(payload: seq<Byte>)
    requires Backend.ReadFields(payload).Ok?
    ensures BackendHolds(Backend.ReadFields(payload).value)
  {
    FieldsHold(payload);
  }

  lemma ListsHold(c: Byte, payload: seq<Byte>)
    requires c == 0x44 || c == 0x74 || c == 0x54
    requires Backend.Parse(c, payload).Some?
    ensures BackendHolds(Backend.Parse(c, payload).value)
  {
    if c == 0x44 {
      RowHolds(payload);
    } else if c == 0x74 {
      OidsHold(payload);
    } else {
      FieldListHolds(payload);
    }
  }

  lemma CopiesHold(c: Byte, payload: seq<Byte>)
    requires c == 0x47 || c == 0x48 || c == 0x57
    requires Backend.Parse(c, payload).Some?
    ensures BackendHolds(Backend.Parse(c, payload).value)
  {
    CountedIsShort(ReadFormat, payload[1..]);
  }

  lemma NumberedHold(c: Byte, payload: seq<Byte>)
    requires c == 0x52 || c == 0x4b || c == 0x5a
    requires Backend.Parse(c, payload).Some?
    ensures BackendHolds(Backend.Parse(c, payload).value)
  {
    if c == 0x52 {
      AuthenticationHolds(payload);
    }
  }

  lemma ErrorHolds(payload: seq<Byte>)
    requires Backend.ReadError(payload).Ok?
    ensures BackendHolds(Backend.ReadError(payload).value)
  {
    NoticesHold(payload);
  }

  lemma NoticeHolds(payload: seq<Byte>)
    requires Backend.ReadNotice(payload).Ok?
    ensures BackendHolds(Backend.ReadNotice(payload).value)
  {
    NoticesHold(payload);
  }

  lemma NoticeMessagesHold(c: Byte, payload: seq<Byte>)
    requires c == 0x45 || c == 0x4e
    requires Backend.Parse(c, payload).Some?
    ensures BackendHolds(Backend.Parse(c, payload).value)
  {
    if c == 0x45 {
      ErrorHolds(payload);
    } else {
      NoticeHolds(payload);
    }
  }

  predicate HasFields(c: Byte) {
    c in {0x52, 0x4b, 0x5a, 0x45, 0x4e, 0x41, 0x43, 0x53, 0x44, 0x74, 0x54, 0x47, 0x48, 0x57}
  }

  lemma PlainHolds(c: Byte, payload: seq<Byte>)
    requires !HasFields(c) && Backend.Parse(c, payload).Some?
    ensures BackendHolds(Backend.Parse(c, payload).value)
  {
  }

  lemma BackendMessageHolds(c: Byte, payload: seq<Byte>)
    requires Backend.Parse(c, payload).Some?
    ensures BackendHolds(Backend.Parse(c, payload).value)
  {
    if c == 0x45 || c == 0x4e {
      NoticeMessagesHold(c, payload);
    } else if c == 0x52 || c == 0x4b || c == 0x5a {
      NumberedHold(c, payload);
    } else if c == 0x41 || c == 0x43 || c == 0x53 {
      TextsHold(c, payload);
    } else if c == 0x44 || c == 0x74 || c == 0x54 {
      ListsHold(c, payload);
    } else if c == 0x47 || c == 0x48 || c == 0x57 {
      CopiesHold(c, payload);
    } else {
      PlainHolds(c, payload);
    }
  }

  // ---------------------------------------------------------------------
  // Both directions
  // ---------------------------------------------------------------------

  /** The documented form of a message that may come in this mode. */
  function Form(mode: Mode, m: Message): seq<int>
    requires Expected(mode, m)
  {
    match m
    case Front(f) => Layout.Message(Layout.FrontendType(f), Layout.FrontendItems(f))
    case Back(b) => Layout.Message(Some(Layout.BackendType(b)), Layout.BackendItems(b))
  }

  lemma FormIsEncoded(mode: Mode, m: Message)
    requires Expected(mode, m)
    ensures Form(mode, m) == Encoded(m)
  {
    match m
    case Front(f) => Layout.FrontendOnTheWire(f);
    case Back(b) => Layout.BackendOnTheWire(b);
  }

  lemma DecodedIsExpected(mode: Mode, s: seq<Byte>)
    requires Decode(mode, s).Got? && s == Encoded(Decode(mode, s).message) + Decode(mode, s).rest && |s| < 0x8000_0000
    ensures Expected(mode, Decode(mode, s).message)
  {
    var m := Decode(mode, s).message;
    if mode.Initial? {
      var frame := s[..Length(s)];
      InitialHolds(frame);
      Forwarding.InitialBodyWas(frame);
    } else {
      var payload := s[5..1 + Length(s[1..])];
      if mode.Server? {
        BackendMessageHolds(s[0], payload);
      } else {
        RegularHolds(s[0], payload);
        Forwarding.FrontendTypeKept(s[0], payload);
      }
    }
    EncodedIsLonger(m);
  }

  lemma EncodedIsLonger(m: Message)
    ensures m.Front? ==> |Encoded(m)| >= |Frontend.Body(m.front)| + 4
    ensures m.Back? ==> |Encoded(m)| >= |Backend.Body(m.back)| + 4
  {
  }

  /** In front of any bytes shorter than 2^31: a message is decoded from a canonical frame exactly
      when they begin with its documented form and it is one that may come. */
  lemma DecodedIffDocumented(mode: Mode, s: seq<Byte>, m: Message, rest: seq<Byte>)
    requires |s| < 0x8000_0000
    ensures Decode(mode, s) == Got(m, rest) && Forwarding.CanonicalFrame(mode, s)
            <==> Expected(mode, m) && s == Form(mode, m) + rest
  {
    if Decode(mode, s) == Got(m, rest) && Forwarding.CanonicalFrame(mode, s) {
      Forwarding.ForwardingKeepsBytes(mode, s);
      DecodedIsExpected(mode, s);
      FormIsEncoded(mode, m);
    }
    if Expected(mode, m) && s == Form(mode, m) + rest {
      FormIsEncoded(mode, m);
      WholeIsDecoded(mode, m, rest);
      Forwarding.ForwardingKeepsBytes(mode, s);
    }
  }

  lemma LengthIsDocumented(s: seq<Byte>)
    requires |s| >= 4
    ensures Layout.BigEndian(Length(s), 4) == s[..4]
  {
    var v := Length(s);
    var b0: int, b1: int, b2: int, b3: int := s[0], s[1], s[2], s[3];
    assert v == 256 * ((b0 * 256 + b1) * 256 + b2) + b3;
    assert v / 256 == 256 * (b0 * 256 + b1) + b2 && v % 256 == b3;
    assert v / 256 / 256 == 256 * b0 + b1 && v / 256 % 256 == b2;
    Layout.FourBytes(v);
  }

  /** The decoder waits exactly while the length, four bytes in network order behind the type
      byte if there is one, has not come, or is at least 4 and more than what has come. */
  lemma WaitsForTheLength(mode: Mode, s: seq<Byte>, length: nat)
    requires var at := if mode.Initial? then 0 else 1;
             |s| >= at + 4 ==> Layout.BigEndian(length, 4) == s[at..at + 4] && length < 0x1_0000_0000
    ensures var at := if mode.Initial? then 0 else 1;
            Decode(mode, s) == NeedMore <==> |s| < at + 4 || (length >= 4 && |s| < at + length)
  {
    var at := if mode.Initial? then 0 else 1;
    if |s| >= at + 4 {
      LengthIsDocumented(s[at..]);
      assert s[at..][..4] == s[at..at + 4];
      SameBytes(length, Length(s[at..]));
    }
    assert s[0..] == s;
  }

  lemma SameBytes(v: nat, w: nat)
    requires v < 0x1_0000_0000 && w < 0x1_0000_0000 && Layout.BigEndian(v, 4) == Layout.BigEndian(w, 4)
    ensures v == w
  {
    Layout.FourBytes(v);
    Layout.FourBytes(w);
    var b := Layout.BigEndian(v, 4);
    assert Layout.BigEndian(w, 4) == b;
    assert b[3] == v % 256 && b[2] == v / 256 % 256 && b[1] == v / 256 / 256 % 256 && b[0] == v / 256 / 256 / 256;
    assert b[3] == w % 256 && b[2] == w / 256 % 256 && b[1] == w / 256 / 256 % 256 && b[0] == w / 256 / 256 / 256;
  }
}
