/** The message formats as they are documented (section 55.7 of the PostgreSQL 16 documentation),
    item by item: two-byte and four-byte integers with the most significant byte first, texts
    ended by a zero byte, raw bytes, lists with a count in front and lists ended by a zero byte.
    The encoders write every well-formed message this way. */
module Layout {
  import opened Bytes
  import opened Options
  import opened Sequences
  import opened Primitives
  import Frontend
  import Backend

  /** What a format is made of: a character, signed numbers of two and four bytes, an object
      identifier, a text that ends in NUL, and bytes as they are. */
  datatype Item = Char(c: char) | Int2(i: Int16) | Int4(n: Int32) | Id(o: Oid) | Str(t: seq<Byte>) | Raw(b: seq<Byte>)

  /** Most significant byte first. */
  function BigEndian(v: nat, width: nat): seq<Byte> {
    if width == 0 then [] else BigEndian(v / 256, width - 1) + [v % 256]
  }

  function Written(item: Item): seq<int> {
    match item
    case Char(c) => [c as int]
    case Int2(i) => BigEndian(if i < 0 then 0x1_0000 + i else i, 2)
    case Int4(n) => BigEndian(if n < 0 then 0x1_0000_0000 + n else n, 4)
    case Id(o) => BigEndian(o, 4)
    case Str(t) => t + [0]
    case Raw(b) => b
  }

  function AllWritten(items: seq<Item>): seq<int> {
    if items == [] then [] else Written(items[0]) + AllWritten(items[1..])
  }

  function Each<T>(list: seq<T>, items: T -> seq<Item>): seq<Item> {
    if list == [] then [] else items(list[0]) + Each(list[1..], items)
  }

  /** A count and what is counted. */
  function Many<T>(list: seq<T>, items: T -> seq<Item>): seq<Item>
    requires |list| < 0x8000
  {
    [Int2(|list|)] + Each(list, items)
  }

  function FormatItems(f: FormatCode): seq<Item> {
    [Int2(match f case Text => 0 case Binary => 1)]
  }

  /** The length, -1 for NULL, and the bytes. */
  function ValueItems(v: Option<seq<Byte>>): seq<Item> {
    match v
    case None => [Int4(-1)]
    case Some(data) => [Int4(AsInt32(|data|)), Raw(data)]
  }

  function KindItem(kind: Frontend.TargetKind): Item {
    Char(match kind case Statement => 'S' case Portal => 'P')
  }

  // ---------------------------------------------------------------------
  // Numbers and lists
  // ---------------------------------------------------------------------

  lemma TwoBytes(v: nat)
    requires v < 0x1_0000
    ensures BigEndian(v, 2) == [v / 256, v % 256]
  {
    assert BigEndian(v / 256, 1) == BigEndian(v / 256 / 256, 0) + [v / 256 % 256];
  }

  lemma FourBytes(v: nat)
    requires v < 0x1_0000_0000
    ensures var w := v / 256; var x := w / 256; BigEndian(v, 4) == [x / 256, x % 256, w % 256, v % 256]
  {
    var w := v / 256;
    var x := w / 256;
    TwoBytes(x);
    assert BigEndian(w, 3) == BigEndian(x, 2) + [w % 256];
    assert BigEndian(v, 4) == BigEndian(w, 3) + [v % 256];
  }

  lemma NumbersAreWritten()
    ensures forall i: Int16 :: Written(Int2(i)) == Be16(i)
    ensures forall n: Int32 :: Written(Int4(n)) == Be32(n)
    ensures forall o: Oid :: Written(Id(o)) == OidBytes(o)
  {
    forall i: Int16
      ensures Written(Int2(i)) == Be16(i)
    {
      TwoBytes(Unsigned16(i));
    }
    forall n: Int32
      ensures Written(Int4(n)) == Be32(n)
    {
      FourBytes(Unsigned32(n));
    }
    forall o: Oid
      ensures Written(Id(o)) == OidBytes(o)
    {
      FourBytes(o);
      assert Unsigned32(Signed32(o)) == o;
    }
  }

  lemma {:induction false} WrittenConcat(a: seq<Item>, b: seq<Item>)
    ensures AllWritten(a + b) == AllWritten(a) + AllWritten(b)
  {
    if a == [] {
      assert a + b == b;
    } else {
      assert (a + b)[1..] == a[1..] + b;
      WrittenConcat(a[1..], b);
    }
  }

  lemma {:induction false} EachIsConcat<T>(list: seq<T>, items: T -> seq<Item>, put: T -> seq<Byte>)
    requires forall x :: x in list ==> AllWritten(items(x)) == put(x)
    ensures AllWritten(Each(list, items)) == Concat(list, put)
  {
    if list != [] {
      EachIsConcat(list[1..], items, put);
      WrittenConcat(items(list[0]), Each(list[1..], items));
    }
  }

  lemma ManyIsCounted<T>(list: seq<T>, items: T -> seq<Item>, put: T -> seq<Byte>)
    requires |list| < 0x8000 && forall x :: x in list ==> AllWritten(items(x)) == put(x)
    ensures AllWritten(Many(list, items)) == Counted(list, put)
  {
    EachIsConcat(list, items, put);
    WrittenConcat([Int2(|list|)], Each(list, items));
    OneWritten(Int2(|list|));
    NumbersAreWritten();
    CountFits(|list|);
  }

  lemma OneWritten(item: Item)
    ensures AllWritten([item]) == Written(item)
  {
    assert [item][1..] == [];
  }

  lemma FormatIsWritten(f: FormatCode)
    ensures AllWritten(FormatItems(f)) == Format(f)
  {
    NumbersAreWritten();
    OneWritten(FormatItems(f)[0]);
  }

  lemma ValueIsWritten(v: Option<seq<Byte>>)
    ensures AllWritten(ValueItems(v)) == Nullable(v)
  {
    NumbersAreWritten();
    OneWritten(Int4(-1));
    if v.Some? {
      OneWritten(Raw(v.value));
      assert ValueItems(v) == [Int4(AsInt32(|v.value|))] + [Raw(v.value)];
      WrittenConcat([Int4(AsInt32(|v.value|))], [Raw(v.value)]);
      OneWritten(Int4(AsInt32(|v.value|)));
    }
  }

  // ---------------------------------------------------------------------
  // Messages of a client
  // ---------------------------------------------------------------------

  /** The type of a message; those that open a connection have none. */
  function FrontendType(m: Frontend.FrontendMessage): Option<char> {
    match m
    case Startup(_, _, _) => None
    case SslRequest => None
    case GssEncRequest => None
    case CancelRequest(_, _) => None
    case Bind(_, _, _, _, _) => Some('B')
    case Close(_, _) => Some('C')
    case CopyData(_) => Some('d')
    case CopyDone => Some('c')
    case CopyFail(_) => Some('f')
    case Describe(_, _) => Some('D')
    case Execute(_, _) => Some('E')
    case Flush => Some('H')
    case FunctionCall(_) => Some('F')
    case Parse(_, _, _) => Some('P')
    case PasswordMessage(_) => Some('p')
    case Query(_) => Some('Q')
    case Sync => Some('S')
    case Terminate => Some('X')
  }

  /** What is behind the length. */
  function FrontendItems(m: Frontend.FrontendMessage): seq<Item>
    requires Frontend.WellFormed(m)
  {
    match m
    case Startup(_, _, parameters) =>
      [Int2(3), Int2(0)] + Each(parameters, (p: (seq<Byte>, seq<Byte>)) => [Str(p.0), Str(p.1)]) + [Raw([0])]
    case SslRequest => [Int2(1234), Int2(5679)]
    case GssEncRequest => [Int2(1234), Int2(5680)]
    case CancelRequest(processId, secretKey) => [Int2(1234), Int2(5678), Int4(processId), Int4(secretKey)]
    case Bind(portal, statement, paramFormats, params, resultFormats) =>
      [Str(portal), Str(statement)]
        + Many(paramFormats, FormatItems) + Many(params, ValueItems) + Many(resultFormats, FormatItems)
    case Close(kind, name) => [KindItem(kind), Str(name)]
    case CopyData(data) => [Raw(data)]
    case CopyDone => []
    case CopyFail(message) => [Str(message)]
    case Describe(kind, name) => [KindItem(kind), Str(name)]
    case Execute(portal, maxRows) => [Str(portal), Int4(maxRows)]
    case Flush => []
    case FunctionCall(data) => [Raw(data)]
    case Parse(name, query, paramTypes) => [Str(name), Str(query)] + Many(paramTypes, o => [Id(o)])
    case PasswordMessage(data) => [Raw(data)]
    case Query(query) => [Str(query)]
    case Sync => []
    case Terminate => []
  }

  /** Type, length of the rest with the length itself, and items. */
  function Message(typeChar: Option<char>, items: seq<Item>): seq<int> {
    var body := AllWritten(items);
    (if typeChar.Some? then [typeChar.value as int] else []) + (BigEndian(|body| + 4, 4) + body)
  }

  lemma LengthIsWritten(n: nat)
    requires n < 0x8000_0000
    ensures BigEndian(n, 4) == Be32(AsInt32(n))
  {
    FourBytes(n);
    assert AsInt32(n) == n;
  }

  lemma FramedIsMessage(typeChar: Option<char>, items: seq<Item>, body: seq<Byte>)
    requires AllWritten(items) == body && |body| + 4 < 0x8000_0000
    ensures Message(typeChar, items) == (if typeChar.Some? then [typeChar.value as int] else []) + Frontend.Framed(body)
  {
    LengthIsWritten(|body| + 4);
  }

  lemma TwoWritten(a: Item, b: Item)
    ensures AllWritten([a, b]) == Written(a) + Written(b)
  {
    assert [a, b] == [a] + [b];
    WrittenConcat([a], [b]);
    OneWritten(a);
    OneWritten(b);
  }

  lemma RequestCodes()
    ensures Be32(Frontend.SSL_REQUEST_CODE) == Be16(1234) + Be16(5679)
    ensures Be32(Frontend.GSS_ENC_REQUEST_CODE) == Be16(1234) + Be16(5680)
    ensures Be32(Frontend.CANCEL_REQUEST_CODE) == Be16(1234) + Be16(5678)
  {
  }

  lemma BindIsWritten(m: Frontend.FrontendMessage)
    requires m.Bind? && Frontend.WellFormed(m)
    ensures AllWritten(FrontendItems(m)) == Frontend.Body(m)
  {
    forall f
      ensures AllWritten(FormatItems(f)) == Format(f)
    {
      FormatIsWritten(f);
    }
    forall v
      ensures AllWritten(ValueItems(v)) == Nullable(v)
    {
      ValueIsWritten(v);
    }
    ManyIsCounted(m.paramFormats, FormatItems, Format);
    ManyIsCounted(m.params, ValueItems, Nullable);
    ManyIsCounted(m.resultFormats, FormatItems, Format);
    var names, a, b := [Str(m.portal), Str(m.statement)], Many(m.paramFormats, FormatItems), Many(m.params, ValueItems);
    TwoWritten(Str(m.portal), Str(m.statement));
    WrittenConcat(names, a);
    WrittenConcat(names + a, b);
    WrittenConcat(names + a + b, Many(m.resultFormats, FormatItems));
    FiveParts(CString(m.portal), CString(m.statement), Counted(m.paramFormats, Format), Counted(m.params, Nullable),
              Counted(m.resultFormats, Format));
  }

  lemma FiveParts(a: seq<int>, b: seq<int>, c: seq<int>, d: seq<int>, e: seq<int>)
    ensures a + b + c + d + e == a + (b + (c + (d + e)))
  {
  }

  lemma ParseIsWritten(m: Frontend.FrontendMessage)
    requires m.Parse? && Frontend.WellFormed(m)
    ensures AllWritten(FrontendItems(m)) == Frontend.Body(m)
  {
    NumbersAreWritten();
    forall o: Oid
      ensures AllWritten([Id(o)]) == OidBytes(o)
    {
      OneWritten(Id(o));
    }
    ManyIsCounted(m.paramTypes, o => [Id(o)], OidBytes);
    TwoWritten(Str(m.name), Str(m.query));
    WrittenConcat([Str(m.name), Str(m.query)], Many(m.paramTypes, o => [Id(o)]));
    Assoc(CString(m.name), CString(m.query), Counted(m.paramTypes, OidBytes));
  }

  lemma StartupIsWritten(m: Frontend.FrontendMessage)
    requires m.Startup? && Frontend.WellFormed(m)
    ensures AllWritten(FrontendItems(m)) == Frontend.Body(m)
  {
    NumbersAreWritten();
    var pair := (p: (seq<Byte>, seq<Byte>)) => [Str(p.0), Str(p.1)];
    forall p
      ensures AllWritten(pair(p)) == Frontend.Parameter(p)
    {
      TwoWritten(Str(p.0), Str(p.1));
    }
    EachIsConcat(m.parameters, pair, Frontend.Parameter);
    TwoWritten(Int2(3), Int2(0));
    WrittenConcat([Int2(3), Int2(0)], Each(m.parameters, pair));
    WrittenConcat([Int2(3), Int2(0)] + Each(m.parameters, pair), [Raw([0])]);
    OneWritten(Raw([0]));
    FiveParts([], Be16(3), Be16(0), Concat(m.parameters, Frontend.Parameter), [0]);
  }

  lemma RequestIsWritten(m: Frontend.FrontendMessage)
    requires m.SslRequest? || m.GssEncRequest? || m.CancelRequest?
    requires Frontend.WellFormed(m)
    ensures AllWritten(FrontendItems(m)) == Frontend.Body(m)
  {
    NumbersAreWritten();
    RequestCodes();
    match m
    case SslRequest => TwoWritten(Int2(1234), Int2(5679));
    case GssEncRequest => TwoWritten(Int2(1234), Int2(5680));
    case CancelRequest(processId, secretKey) =>
      TwoWritten(Int2(1234), Int2(5678));
      TwoWritten(Int4(processId), Int4(secretKey));
      WrittenConcat([Int2(1234), Int2(5678)], [Int4(processId), Int4(secretKey)]);
      assert FrontendItems(m) == [Int2(1234), Int2(5678)] + [Int4(processId), Int4(secretKey)];
  }

  lemma SmallIsWritten(m: Frontend.FrontendMessage)
    requires !Frontend.IsInitial(m) && !m.Bind? && !m.Parse? && Frontend.WellFormed(m)
    ensures AllWritten(FrontendItems(m)) == Frontend.Body(m)
  {
    NumbersAreWritten();
    var items := FrontendItems(m);
    if |items| == 1 {
      OneWritten(items[0]);
    } else if |items| == 2 {
      TwoWritten(items[0], items[1]);
    }
  }

  /** Every message of a client is written as it is documented: its type, the length, and its
      items in order. */
  lemma FrontendOnTheWire(m: Frontend.FrontendMessage)
    requires Frontend.WellFormed(m)
    ensures Frontend.Encoded(m) == Message(FrontendType(m), FrontendItems(m))
  {
    if m.Bind? {
      BindIsWritten(m);
    } else if m.Parse? {
      ParseIsWritten(m);
    } else if m.Startup? {
      StartupIsWritten(m);
    } else if Frontend.IsInitial(m) {
      RequestIsWritten(m);
    } else {
      SmallIsWritten(m);
    }
    FramedIsMessage(FrontendType(m), FrontendItems(m), Frontend.Body(m));
  }

  // ---------------------------------------------------------------------
  // Messages of a backend
  // ---------------------------------------------------------------------

  function BackendType(m: Backend.BackendMessage): char {
    match m
    case AuthenticationOk => 'R'
    case AuthenticationCleartextPassword => 'R'
    case AuthenticationMd5Password(_) => 'R'
    case AuthenticationSasl(_) => 'R'
    case AuthenticationSaslContinue(_) => 'R'
    case AuthenticationSaslFinal(_) => 'R'
    case BackendKeyData(_, _) => 'K'
    case ParseComplete => '1'
    case BindComplete => '2'
    case CloseComplete => '3'
    case NoData => 'n'
    case PortalSuspended => 's'
    case EmptyQueryResponse => 'I'
    case CommandComplete(_) => 'C'
    case RowDescription(_) => 'T'
    case DataRow(_) => 'D'
    case ParameterDescription(_) => 't'
    case ParameterStatus(_, _) => 'S'
    case ReadyForQuery(_) => 'Z'
    case CopyInResponse(_) => 'G'
    case CopyOutResponse(_) => 'H'
    case CopyBothResponse(_) => 'W'
    case CopyData(_) => 'd'
    case CopyDone => 'c'
    case ErrorResponse(_) => 'E'
    case NoticeResponse(_) => 'N'
    case NotificationResponse(_, _, _) => 'A'
  }

  function FieldItems(f: Backend.FieldDescription): seq<Item> {
    [Str(f.name), Id(f.tableOid), Int2(f.columnId), Id(f.typeOid), Int2(f.typeSize), Int4(f.typeModifier)]
      + FormatItems(f.format)
  }

  function NoticeItems(n: Backend.Notice): seq<Item> {
    [Raw([n.0]), Str(n.1)]
  }

  /** The overall format in one byte, then that of each column. */
  function CopyItems(copy: Backend.CopyResponse): seq<Item>
    requires |copy.columnFormats| < 0x8000
  {
    [Raw([match copy.format case Text => 0 case Binary => 1])] + Many(copy.columnFormats, FormatItems)
  }

  function BackendItems(m: Backend.BackendMessage): seq<Item>
    requires Backend.WellFormed(m)
  {
    match m
    case AuthenticationOk => [Int4(0)]
    case AuthenticationCleartextPassword => [Int4(3)]
    case AuthenticationMd5Password(salt) => [Int4(5), Raw(salt)]
    case AuthenticationSasl(mechanisms) => [Int4(10)] + Each(mechanisms, t => [Str(t)]) + [Raw([0])]
    case AuthenticationSaslContinue(data) => [Int4(11), Raw(data)]
    case AuthenticationSaslFinal(data) => [Int4(12), Raw(data)]
    case BackendKeyData(processId, secretKey) => [Int4(processId), Int4(secretKey)]
    case ParseComplete => []
    case BindComplete => []
    case CloseComplete => []
    case NoData => []
    case PortalSuspended => []
    case EmptyQueryResponse => []
    case CommandComplete(tag) => [Str(tag)]
    case RowDescription(fields) => Many(fields, FieldItems)
    case DataRow(columns) => Many(columns, ValueItems)
    case ParameterDescription(oids) => Many(oids, o => [Id(o)])
    case ParameterStatus(name, value) => [Str(name), Str(value)]
    case ReadyForQuery(status) => [Char(match status case Idle => 'I' case InTransaction => 'T' case Failed => 'E')]
    case CopyInResponse(copy) => CopyItems(copy)
    case CopyOutResponse(copy) => CopyItems(copy)
    case CopyBothResponse(copy) => CopyItems(copy)
    case CopyData(data) => [Raw(data)]
    case CopyDone => []
    case ErrorResponse(notices) => Each(notices, NoticeItems) + [Raw([0])]
    case NoticeResponse(notices) => Each(notices, NoticeItems) + [Raw([0])]
    case NotificationResponse(processId, channel, payload) => [Int4(processId), Str(channel), Str(payload)]
  }

  lemma ThreeWritten(a: Item, b: Item, c: Item)
    ensures AllWritten([a, b, c]) == Written(a) + (Written(b) + Written(c))
  {
    assert [a, b, c] == [a] + [b, c];
    WrittenConcat([a], [b, c]);
    OneWritten(a);
    TwoWritten(b, c);
  }

  lemma FieldIsWritten(f: Backend.FieldDescription)
    ensures AllWritten(FieldItems(f)) == Backend.Field(f)
  {
    NumbersAreWritten();
    FormatIsWritten(f.format);
    var a, b := [Str(f.name), Id(f.tableOid), Int2(f.columnId)], [Id(f.typeOid), Int2(f.typeSize), Int4(f.typeModifier)];
    ThreeWritten(a[0], a[1], a[2]);
    ThreeWritten(b[0], b[1], b[2]);
    WrittenConcat(b, FormatItems(f.format));
    WrittenConcat(a, b + FormatItems(f.format));
    assert FieldItems(f) == a + (b + FormatItems(f.format));
    SixAndOne(CString(f.name), OidBytes(f.tableOid), Be16(f.columnId), OidBytes(f.typeOid), Be16(f.typeSize),
              Be32(f.typeModifier), Format(f.format));
  }

  lemma SixAndOne(a: seq<int>, b: seq<int>, c: seq<int>, d: seq<int>, e: seq<int>, f: seq<int>, g: seq<int>)
    ensures (a + (b + c)) + ((d + (e + f)) + g) == a + (b + (c + (d + (e + (f + g)))))
  {
  }

  lemma RowsAreWritten(m: Backend.BackendMessage)
    requires m.RowDescription? || m.DataRow? || m.ParameterDescription?
    requires Backend.WellFormed(m)
    ensures AllWritten(BackendItems(m)) == Backend.Body(m)
  {
    match m
    case RowDescription(fields) =>
      forall f
        ensures AllWritten(FieldItems(f)) == Backend.Field(f)
      {
        FieldIsWritten(f);
      }
      ManyIsCounted(fields, FieldItems, Backend.Field);
    case DataRow(columns) =>
      forall v
        ensures AllWritten(ValueItems(v)) == Nullable(v)
      {
        ValueIsWritten(v);
      }
      ManyIsCounted(columns, ValueItems, Nullable);
    case ParameterDescription(oids) =>
      NumbersAreWritten();
      forall o: Oid
        ensures AllWritten([Id(o)]) == OidBytes(o)
      {
        OneWritten(Id(o));
      }
      ManyIsCounted(oids, o => [Id(o)], OidBytes);
  }

  lemma CopyIsWritten(copy: Backend.CopyResponse)
    requires |copy.columnFormats| < 0x8000
    ensures AllWritten(CopyItems(copy)) == Backend.Copy(copy)
  {
    forall f
      ensures AllWritten(FormatItems(f)) == Format(f)
    {
      FormatIsWritten(f);
    }
    ManyIsCounted(copy.columnFormats, FormatItems, Format);
    var first := Raw([match copy.format case Text => 0 case Binary => 1]);
    OneWritten(first);
    WrittenConcat([first], Many(copy.columnFormats, FormatItems));
  }

  lemma NoticesAreWritten(notices: seq<Backend.Notice>)
    ensures AllWritten(Each(notices, NoticeItems) + [Raw([0])]) == Backend.Notices(notices)
  {
    forall n
      ensures AllWritten(NoticeItems(n)) == Backend.NoticeBytes(n)
    {
      TwoWritten(Raw([n.0]), Str(n.1));
    }
    EachIsConcat(notices, NoticeItems, Backend.NoticeBytes);
    WrittenConcat(Each(notices, NoticeItems), [Raw([0])]);
    OneWritten(Raw([0]));
  }

  lemma MechanismsAreWritten(mechanisms: seq<seq<Byte>>)
    ensures AllWritten([Int4(10)] + Each(mechanisms, t => [Str(t)]) + [Raw([0])])
         == Be32(10) + (Concat(mechanisms, CString) + [0])
  {
    NumbersAreWritten();
    forall t
      ensures AllWritten([Str(t)]) == CString(t)
    {
      OneWritten(Str(t));
    }
    EachIsConcat(mechanisms, t => [Str(t)], CString);
    OneWritten(Int4(10));
    OneWritten(Raw([0]));
    WrittenConcat([Int4(10)], Each(mechanisms, t => [Str(t)]));
    WrittenConcat([Int4(10)] + Each(mechanisms, t => [Str(t)]), [Raw([0])]);
    Assoc(Be32(10), Concat(mechanisms, CString), [0]);
  }

  predicate IsShort(m: Backend.BackendMessage) {
    && !m.RowDescription? && !m.DataRow? && !m.ParameterDescription? && !m.AuthenticationSasl?
    && !m.ErrorResponse? && !m.NoticeResponse?
    && !m.CopyInResponse? && !m.CopyOutResponse? && !m.CopyBothResponse?
  }

  lemma AuthenticationIsWritten(m: Backend.BackendMessage)
    requires m.AuthenticationOk? || m.AuthenticationCleartextPassword? || m.AuthenticationMd5Password?
             || m.AuthenticationSaslContinue? || m.AuthenticationSaslFinal?
    requires Backend.WellFormed(m)
    ensures AllWritten(BackendItems(m)) == Backend.Body(m)
  {
    NumbersAreWritten();
    var items := BackendItems(m);
    if |items| == 1 {
      OneWritten(items[0]);
    } else {
      TwoWritten(items[0], items[1]);
    }
  }

  lemma ShortIsWritten(m: Backend.BackendMessage)
    requires IsShort(m) && Backend.WellFormed(m)
    ensures AllWritten(BackendItems(m)) == Backend.Body(m)
  {
    NumbersAreWritten();
    match m {
      case AuthenticationOk => AuthenticationIsWritten(m);
      case AuthenticationCleartextPassword => AuthenticationIsWritten(m);
      case AuthenticationMd5Password(_) => AuthenticationIsWritten(m);
      case AuthenticationSaslContinue(_) => AuthenticationIsWritten(m);
      case AuthenticationSaslFinal(_) => AuthenticationIsWritten(m);
      case BackendKeyData(processId, secretKey) => TwoWritten(Int4(processId), Int4(secretKey));
      case ParameterStatus(name, value) => TwoWritten(Str(name), Str(value));
      case NotificationResponse(processId, channel, payload) => ThreeWritten(Int4(processId), Str(channel), Str(payload));
      case CommandComplete(tag) => OneWritten(Str(tag));
      case ReadyForQuery(_) => OneWritten(BackendItems(m)[0]);
      case CopyData(data) => OneWritten(Raw(data));
      case _ =>
    }
  }

  /** Every message of a backend is written as it is documented. */
  lemma BackendOnTheWire(m: Backend.BackendMessage)
    requires Backend.WellFormed(m)
    ensures Backend.Encoded(m) == Message(Some(BackendType(m)), BackendItems(m))
  {
    match m {
      case RowDescription(_) => RowsAreWritten(m);
      case DataRow(_) => RowsAreWritten(m);
      case ParameterDescription(_) => RowsAreWritten(m);
      case AuthenticationSasl(mechanisms) => MechanismsAreWritten(mechanisms);
      case ErrorResponse(notices) => NoticesAreWritten(notices);
      case NoticeResponse(notices) => NoticesAreWritten(notices);
      case CopyInResponse(copy) => CopyIsWritten(copy);
      case CopyOutResponse(copy) => CopyIsWritten(copy);
      case CopyBothResponse(copy) => CopyIsWritten(copy);
      case _ => ShortIsWritten(m);
    }
    FramedIsMessage(Some(BackendType(m)), BackendItems(m), Backend.Body(m));
  }
}
