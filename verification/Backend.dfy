/** Messages of a backend: what they are, how they are read, how they are written. All but the
    authentication requests, which share a type and are told apart by a code, are told apart by
    their type byte. */
module Backend {
  import opened Bytes
  import opened Options
  import opened Primitives
  import Frontend

  datatype FieldDescription = FieldDescription(
    name: seq<Byte>, tableOid: Oid, columnId: Int16, typeOid: Oid, typeSize: Int16, typeModifier: Int32, format: FormatCode)

  datatype CopyResponse = CopyResponse(format: FormatCode, columnFormats: seq<FormatCode>)

  /** A tag byte and a text. */
  type Notice = (Byte, seq<Byte>)

  datatype TransactionStatus = Idle | InTransaction | Failed

  datatype BackendMessage =
    | AuthenticationOk
    | AuthenticationCleartextPassword
    | AuthenticationMd5Password(salt: seq<Byte>)
    | AuthenticationSasl(mechanisms: seq<seq<Byte>>)
    | AuthenticationSaslContinue(data: seq<Byte>)
    | AuthenticationSaslFinal(data: seq<Byte>)
    | BackendKeyData(processId: Int32, secretKey: Int32)
    | ParseComplete
    | BindComplete
    | CloseComplete
    | NoData
    | PortalSuspended
    | EmptyQueryResponse
    | CommandComplete(tag: seq<Byte>)
    | RowDescription(fields: seq<FieldDescription>)
    | DataRow(columns: seq<Option<seq<Byte>>>)
    | ParameterDescription(oids: seq<Oid>)
    | ParameterStatus(name: seq<Byte>, value: seq<Byte>)
    | ReadyForQuery(status: TransactionStatus)
    | CopyInResponse(copy: CopyResponse)
    | CopyOutResponse(copy: CopyResponse)
    | CopyBothResponse(copy: CopyResponse)
    | CopyData(data: seq<Byte>)
    | CopyDone
    | ErrorResponse(notices: seq<Notice>)
    | NoticeResponse(notices: seq<Notice>)
    | NotificationResponse(processId: Int32, channel: seq<Byte>, payload: seq<Byte>)

  // ---------------------------------------------------------------------
  // Reading
  // ---------------------------------------------------------------------

  /** Texts until an empty one. */
  function ReadMechanisms(s: seq<Byte>): Parsed<seq<seq<Byte>>>
    decreases |s|
  {
    var (mechanism, rest) :- ReadCString(s);
    if mechanism == [] then Ok([], rest)
    else
      var (others, end) :- ReadMechanisms(rest);
      Ok([mechanism] + others, end)
  }

  function ReadAuthentication(s: seq<Byte>): Parsed<BackendMessage> {
    var (kind, rest) :- ReadInt32(s);
    if kind == 0 then Ok(AuthenticationOk, rest)
    else if kind == 3 then Ok(AuthenticationCleartextPassword, rest)
    else if kind == 5 then (if |rest| < 4 then Fail else Ok(AuthenticationMd5Password(rest[..4]), rest[4..]))
    else if kind == 10 then
      var (mechanisms, end) :- ReadMechanisms(rest);
      Ok(AuthenticationSasl(mechanisms), end)
    else if kind == 11 then Ok(AuthenticationSaslContinue(rest), [])
    else if kind == 12 then Ok(AuthenticationSaslFinal(rest), [])
    else Fail
  }

  function ReadKeyData(s: seq<Byte>): Parsed<BackendMessage> {
    var (processId, s1) :- ReadInt32(s);
    var (secretKey, s2) :- ReadInt32(s1);
    Ok(BackendKeyData(processId, secretKey), s2)
  }

  function ReadField(s: seq<Byte>): Parsed<FieldDescription> {
    var (name, s1) :- ReadCString(s);
    var (tableOid, s2) :- ReadOid(s1);
    var (columnId, s3) :- ReadInt16(s2);
    var (typeOid, s4) :- ReadOid(s3);
    var (typeSize, s5) :- ReadInt16(s4);
    var (typeModifier, s6) :- ReadInt32(s5);
    var (format, s7) :- ReadFormat(s6);
    Ok(FieldDescription(name, tableOid, columnId, typeOid, typeSize, typeModifier, format), s7)
  }

  function ReadStatus(s: seq<Byte>): Parsed<BackendMessage> {
    var (b, rest) :- AnyByte(s);
    var c := b as char;
    if c == 'I' then Ok(ReadyForQuery(Idle), rest)
    else if c == 'T' then Ok(ReadyForQuery(InTransaction), rest)
    else if c == 'E' then Ok(ReadyForQuery(Failed), rest)
    else Fail
  }

  function ReadNotification(s: seq<Byte>): Parsed<BackendMessage> {
    var (processId, s1) :- ReadInt32(s);
    var (channel, s2) :- ReadCString(s1);
    var (payload, s3) :- ReadCString(s2);
    Ok(NotificationResponse(processId, channel, payload), s3)
  }

  /** Tagged texts until a zero tag. */
  function ReadNotices(s: seq<Byte>): Parsed<seq<Notice>>
    decreases |s|
  {
    var (tag, rest) :- AnyByte(s);
    if tag == 0 then Ok([], rest)
    else
      var (text, rest') :- ReadCString(rest);
      var (others, end) :- ReadNotices(rest');
      Ok([(tag, text)] + others, end)
  }

  function ReadCopy(s: seq<Byte>): Parsed<CopyResponse> {
    var (b, s1) :- AnyByte(s);
    if b > 1 then Fail
    else
      var (columnFormats, s2) :- ReadCounted(ReadFormat, s1);
      Ok(CopyResponse(if b == 0 then Text else Binary, columnFormats), s2)
  }

  function ReadTexts(s: seq<Byte>): Parsed<BackendMessage> {
    var (name, s1) :- ReadCString(s);
    var (value, s2) :- ReadCString(s1);
    Ok(ParameterStatus(name, value), s2)
  }

  function ReadTag(s: seq<Byte>): Parsed<BackendMessage> {
    var (tag, rest) :- ReadCString(s);
    Ok(CommandComplete(tag), rest)
  }

  function ReadRow(s: seq<Byte>): Parsed<BackendMessage> {
    var (columns, rest) :- ReadCounted(ReadNullable, s);
    Ok(DataRow(columns), rest)
  }

  function ReadFields(s: seq<Byte>): Parsed<BackendMessage> {
    var (fields, rest) :- ReadCounted(ReadField, s);
    Ok(RowDescription(fields), rest)
  }

  function ReadOids(s: seq<Byte>): Parsed<BackendMessage> {
    var (oids, rest) :- ReadCounted(ReadOid, s);
    Ok(ParameterDescription(oids), rest)
  }

  function ReadError(s: seq<Byte>): Parsed<BackendMessage> {
    var (notices, rest) :- ReadNotices(s);
    Ok(ErrorResponse(notices), rest)
  }

  function ReadNotice(s: seq<Byte>): Parsed<BackendMessage> {
    var (notices, rest) :- ReadNotices(s);
    Ok(NoticeResponse(notices), rest)
  }

  function ReadCopyIn(s: seq<Byte>): Parsed<BackendMessage> {
    var (copy, rest) :- ReadCopy(s);
    Ok(CopyInResponse(copy), rest)
  }

  function ReadCopyOut(s: seq<Byte>): Parsed<BackendMessage> {
    var (copy, rest) :- ReadCopy(s);
    Ok(CopyOutResponse(copy), rest)
  }

  function ReadCopyBoth(s: seq<Byte>): Parsed<BackendMessage> {
    var (copy, rest) :- ReadCopy(s);
    Ok(CopyBothResponse(copy), rest)
  }

  /** A message with its type byte, a character of ASCII; the payload of messages without
      fields is not looked at. */
  function Parse(c: Byte, payload: seq<Byte>): Option<BackendMessage> {
    if c == 0x31 then Some(ParseComplete)
    else if c == 0x32 then Some(BindComplete)
    else if c == 0x33 then Some(CloseComplete)
    else if c == 0x41 then Complete(ReadNotification(payload))
    else if c == 0x43 then Complete(ReadTag(payload))
    else if c == 0x63 then Some(CopyDone)
    else if c == 0x64 then Some(CopyData(payload))
    else if c == 0x44 then Complete(ReadRow(payload))
    else if c == 0x45 then Complete(ReadError(payload))
    else if c == 0x47 then Complete(ReadCopyIn(payload))
    else if c == 0x48 then Complete(ReadCopyOut(payload))
    else if c == 0x49 then Some(EmptyQueryResponse)
    else if c == 0x4b then Complete(ReadKeyData(payload))
    else if c == 0x6e then Some(NoData)
    else if c == 0x4e then Complete(ReadNotice(payload))
    else if c == 0x52 then Complete(ReadAuthentication(payload))
    else if c == 0x73 then Some(PortalSuspended)
    else if c == 0x53 then Complete(ReadTexts(payload))
    else if c == 0x74 then Complete(ReadOids(payload))
    else if c == 0x54 then Complete(ReadFields(payload))
    else if c == 0x57 then Complete(ReadCopyBoth(payload))
    else if c == 0x5a then Complete(ReadStatus(payload))
    else None
  }

  // ---------------------------------------------------------------------
  // Writing
  // ---------------------------------------------------------------------

  function TypeByte(m: BackendMessage): Byte
  {
    match m
    case AuthenticationOk => 0x52
    case AuthenticationCleartextPassword => 0x52
    case AuthenticationMd5Password(_) => 0x52
    case AuthenticationSasl(_) => 0x52
    case AuthenticationSaslContinue(_) => 0x52
    case AuthenticationSaslFinal(_) => 0x52
    case BackendKeyData(_, _) => 0x4b
    case ParseComplete => 0x31
    case BindComplete => 0x32
    case CloseComplete => 0x33
    case NoData => 0x6e
    case PortalSuspended => 0x73
    case EmptyQueryResponse => 0x49
    case CommandComplete(_) => 0x43
    case RowDescription(_) => 0x54
    case DataRow(_) => 0x44
    case ParameterDescription(_) => 0x74
    case ParameterStatus(_, _) => 0x53
    case ReadyForQuery(_) => 0x5a
    case CopyInResponse(_) => 0x47
    case CopyOutResponse(_) => 0x48
    case CopyBothResponse(_) => 0x57
    case CopyData(_) => 0x64
    case CopyDone => 0x63
    case ErrorResponse(_) => 0x45
    case NoticeResponse(_) => 0x4e
    case NotificationResponse(_, _, _) => 0x41
  }

  function Field(f: FieldDescription): seq<Byte> {
    CString(f.name) + (OidBytes(f.tableOid) + (Be16(f.columnId) + (OidBytes(f.typeOid)
      + (Be16(f.typeSize) + (Be32(f.typeModifier) + Format(f.format))))))
  }

  function NoticeBytes(n: Notice): seq<Byte> {
    [n.0] + CString(n.1)
  }

  function Notices(notices: seq<Notice>): seq<Byte> {
    Concat(notices, NoticeBytes) + [0]
  }

  function Copy(copy: CopyResponse): seq<Byte> {
    [if copy.format.Text? then 0 else 1] + Counted(copy.columnFormats, Format)
  }

  function StatusByte(status: TransactionStatus): Byte {
    (match status
     case Idle => 'I'
     case InTransaction => 'T'
     case Failed => 'E') as int
  }

  /** Everything after the length. */
  function Body(m: BackendMessage): seq<Byte> {
    match m
    case AuthenticationOk => Be32(0)
    case AuthenticationCleartextPassword => Be32(3)
    case AuthenticationMd5Password(salt) => Be32(5) + salt
    case AuthenticationSasl(mechanisms) => Be32(10) + (Concat(mechanisms, CString) + [0])
    case AuthenticationSaslContinue(data) => Be32(11) + data
    case AuthenticationSaslFinal(data) => Be32(12) + data
    case BackendKeyData(processId, secretKey) => Be32(processId) + Be32(secretKey)
    case ParseComplete => []
    case BindComplete => []
    case CloseComplete => []
    case NoData => []
    case PortalSuspended => []
    case EmptyQueryResponse => []
    case CommandComplete(tag) => CString(tag)
    case RowDescription(fields) => Counted(fields, Field)
    case DataRow(columns) => Counted(columns, Nullable)
    case ParameterDescription(oids) => Counted(oids, OidBytes)
    case ParameterStatus(name, value) => CString(name) + CString(value)
    case ReadyForQuery(status) => [StatusByte(status)]
    case CopyInResponse(copy) => Copy(copy)
    case CopyOutResponse(copy) => Copy(copy)
    case CopyBothResponse(copy) => Copy(copy)
    case CopyData(data) => data
    case CopyDone => []
    case ErrorResponse(notices) => Notices(notices)
    case NoticeResponse(notices) => Notices(notices)
    case NotificationResponse(processId, channel, payload) => Be32(processId) + (CString(channel) + CString(payload))
  }

  function Encoded(m: BackendMessage): seq<Byte> {
    [TypeByte(m)] + Frontend.Framed(Body(m))
  }

  // ---------------------------------------------------------------------
  // Round trip
  // ---------------------------------------------------------------------

  ghost predicate AreNotices(notices: seq<Notice>) {
    forall n :: n in notices ==> n.0 != 0 && IsText(n.1)
  }

  ghost predicate AreMechanisms(mechanisms: seq<seq<Byte>>) {
    forall i :: 0 <= i < |mechanisms| ==> mechanisms[i] != [] && IsText(mechanisms[i])
  }

  /** What the format can carry: strings are UTF-8 without NUL, mechanisms and tags are not
      empty or zero, counts fit in 15 bits and lengths in 31. */
  ghost predicate WellFormed(m: BackendMessage) {
    && |Body(m)| + 4 < 0x8000_0000
    && match m
       case AuthenticationMd5Password(salt) => |salt| == 4
       case AuthenticationSasl(mechanisms) => AreMechanisms(mechanisms)
       case CommandComplete(tag) => IsText(tag)
       case RowDescription(fields) => |fields| < 0x8000 && forall f :: f in fields ==> IsText(f.name)
       case DataRow(columns) => |columns| < 0x8000
       case ParameterDescription(oids) => |oids| < 0x8000
       case ParameterStatus(name, value) => IsText(name) && IsText(value)
       case CopyInResponse(copy) => |copy.columnFormats| < 0x8000
       case CopyOutResponse(copy) => |copy.columnFormats| < 0x8000
       case CopyBothResponse(copy) => |copy.columnFormats| < 0x8000
       case ErrorResponse(notices) => AreNotices(notices)
       case NoticeResponse(notices) => AreNotices(notices)
       case NotificationResponse(_, channel, payload) => IsText(channel) && IsText(payload)
       case _ => true
  }

  lemma {:induction false} MechanismsBack(mechanisms: seq<seq<Byte>>)
    requires AreMechanisms(mechanisms)
    ensures ReadMechanisms(Concat(mechanisms, CString) + [0]) == Ok(mechanisms, [])
  {
    if mechanisms == [] {
      assert Concat(mechanisms, CString) + [0] == CString([]) + [];
      CStringBack([], []);
    } else {
      var x, others := mechanisms[0], mechanisms[1..];
      MechanismsBack(others);
      assert Concat(mechanisms, CString) + [0] == CString(x) + (Concat(others, CString) + [0]);
      CStringBack(x, Concat(others, CString) + [0]);
      assert [x] + others == mechanisms;
    }
  }

  lemma {:induction false} NoticesBack(notices: seq<Notice>)
    requires AreNotices(notices)
    ensures ReadNotices(Notices(notices)) == Ok(notices, [])
  {
    if notices == [] {
      assert Notices(notices) == [0];
    } else {
      var n, others := notices[0], notices[1..];
      NoticesBack(others);
      assert Notices(notices) == [n.0] + (CString(n.1) + Notices(others));
      assert Notices(notices)[1..] == CString(n.1) + Notices(others);
      CStringBack(n.1, Notices(others));
      assert [n] + others == notices;
    }
  }

  lemma FieldBack(f: FieldDescription, tail: seq<Byte>)
    requires IsText(f.name)
    ensures ReadField(Field(f) + tail) == Ok(f, tail)
  {
    var s6 := Format(f.format) + tail;
    var s5 := Be32(f.typeModifier) + s6;
    var s4 := Be16(f.typeSize) + s5;
    var s3 := OidBytes(f.typeOid) + s4;
    var s2 := Be16(f.columnId) + s3;
    var s1 := OidBytes(f.tableOid) + s2;
    assert Field(f) + tail == CString(f.name) + s1;
    CStringBack(f.name, s1);
    OidBack(f.tableOid, s2);
    Int16Back(f.columnId, s3);
    OidBack(f.typeOid, s4);
    Int16Back(f.typeSize, s5);
    Int32Back(f.typeModifier, s6);
    FormatBack(f.format, tail);
  }

  lemma FieldsBack(fields: seq<FieldDescription>)
    requires |fields| < 0x8000 && forall f :: f in fields ==> IsText(f.name)
    ensures ReadCounted(ReadField, Counted(fields, Field)) == Ok(fields, [])
  {
    forall f, t | f in fields
      ensures ReadField(Field(f) + t) == Ok(f, t)
    {
      FieldBack(f, t);
    }
    CountedBack(fields, Field, ReadField, []);
    assert Counted(fields, Field) + [] == Counted(fields, Field);
  }

  lemma CopyBack(copy: CopyResponse)
    requires |copy.columnFormats| < 0x8000
    ensures ReadCopy(Copy(copy)) == Ok(copy, [])
  {
    var formats := Counted(copy.columnFormats, Format);
    Frontend.FormatsBack(copy.columnFormats, []);
    assert formats + [] == formats;
    assert Copy(copy)[1..] == formats;
  }

  lemma AuthenticationBack(m: BackendMessage)
    requires TypeByte(m) == 0x52 && WellFormed(m)
    ensures ReadAuthentication(Body(m)) == Ok(m, [])
  {
    match m
    case AuthenticationOk => Frontend.CodeBack(0);
    case AuthenticationCleartextPassword => Frontend.CodeBack(3);
    case AuthenticationMd5Password(salt) =>
      Int32Back(5, salt);
      assert salt[..4] == salt && salt[4..] == [];
    case AuthenticationSasl(mechanisms) =>
      Int32Back(10, Concat(mechanisms, CString) + [0]);
      MechanismsBack(mechanisms);
    case AuthenticationSaslContinue(data) => Int32Back(11, data);
    case AuthenticationSaslFinal(data) => Int32Back(12, data);
  }

  lemma TextsBack(name: seq<Byte>, value: seq<Byte>)
    requires IsText(name) && IsText(value)
    ensures ReadTexts(CString(name) + CString(value)) == Ok(ParameterStatus(name, value), [])
  {
    CStringBack(name, CString(value));
    Frontend.StringBack(value);
  }

  lemma KeyDataBack(processId: Int32, secretKey: Int32)
    ensures ReadKeyData(Be32(processId) + Be32(secretKey)) == Ok(BackendKeyData(processId, secretKey), [])
  {
    Int32Back(processId, Be32(secretKey));
    Frontend.CodeBack(secretKey);
  }

  lemma NotificationBack(processId: Int32, channel: seq<Byte>, payload: seq<Byte>)
    requires IsText(channel) && IsText(payload)
    ensures ReadNotification(Be32(processId) + (CString(channel) + CString(payload)))
              == Ok(NotificationResponse(processId, channel, payload), [])
  {
    Int32Back(processId, CString(channel) + CString(payload));
    CStringBack(channel, CString(payload));
    Frontend.StringBack(payload);
  }

  lemma StatusBack(status: TransactionStatus)
    ensures ReadStatus([StatusByte(status)]) == Ok(ReadyForQuery(status), [])
  {
  }

  /** The reader a message's type byte selects. */
  function Reader(m: BackendMessage, payload: seq<Byte>): Option<BackendMessage> {
    match m
    case NotificationResponse(_, _, _) => Complete(ReadNotification(payload))
    case CommandComplete(_) => Complete(ReadTag(payload))
    case CopyData(_) => Some(CopyData(payload))
    case DataRow(_) => Complete(ReadRow(payload))
    case ErrorResponse(_) => Complete(ReadError(payload))
    case NoticeResponse(_) => Complete(ReadNotice(payload))
    case CopyInResponse(_) => Complete(ReadCopyIn(payload))
    case CopyOutResponse(_) => Complete(ReadCopyOut(payload))
    case CopyBothResponse(_) => Complete(ReadCopyBoth(payload))
    case BackendKeyData(_, _) => Complete(ReadKeyData(payload))
    case ParameterStatus(_, _) => Complete(ReadTexts(payload))
    case ParameterDescription(_) => Complete(ReadOids(payload))
    case RowDescription(_) => Complete(ReadFields(payload))
    case ReadyForQuery(_) => Complete(ReadStatus(payload))
    case _ => if TypeByte(m) == 0x52 then Complete(ReadAuthentication(payload)) else Some(m)
  }

  lemma Types30(m: BackendMessage, payload: seq<Byte>)
    requires TypeByte(m) < 0x44
    ensures Parse(TypeByte(m), payload) == Reader(m, payload)
  {
  }

  lemma Types44(m: BackendMessage, payload: seq<Byte>)
    requires 0x44 <= TypeByte(m) < 0x49
    ensures Parse(TypeByte(m), payload) == Reader(m, payload)
  {
  }

  lemma Types49(m: BackendMessage, payload: seq<Byte>)
    requires 0x49 <= TypeByte(m) < 0x53
    ensures Parse(TypeByte(m), payload) == Reader(m, payload)
  {
  }

  lemma Types53(m: BackendMessage, payload: seq<Byte>)
    requires 0x53 <= TypeByte(m) < 0x63
    ensures Parse(TypeByte(m), payload) == Reader(m, payload)
  {
  }

  lemma Types63(m: BackendMessage, payload: seq<Byte>)
    requires 0x63 <= TypeByte(m)
    ensures Parse(TypeByte(m), payload) == Reader(m, payload)
  {
  }

  lemma TypeSelectsReader(m: BackendMessage, payload: seq<Byte>)
    ensures Parse(TypeByte(m), payload) == Reader(m, payload)
  {
    var c := TypeByte(m);
    if c < 0x44 {
      Types30(m, payload);
    } else if c < 0x49 {
      Types44(m, payload);
    } else if c < 0x53 {
      Types49(m, payload);
    } else if c < 0x63 {
      Types53(m, payload);
    } else {
      Types63(m, payload);
    }
  }

  lemma CountedFieldsBack(m: BackendMessage)
    requires WellFormed(m) && (m.DataRow? || m.ParameterDescription? || m.RowDescription?)
    ensures Reader(m, Body(m)) == Some(m)
  {
    match m
    case DataRow(columns) =>
      Frontend.NullablesBack(columns, []);
      assert Counted(columns, Nullable) + [] == Counted(columns, Nullable);
    case ParameterDescription(oids) =>
      Frontend.OidsBack(oids, []);
      assert Counted(oids, OidBytes) + [] == Counted(oids, OidBytes);
    case RowDescription(fields) => FieldsBack(fields);
  }

  lemma ReaderBack(m: BackendMessage)
    requires WellFormed(m)
    ensures Reader(m, Body(m)) == Some(m)
  {
    if TypeByte(m) == 0x52 {
      AuthenticationBack(m);
    } else if m.DataRow? || m.ParameterDescription? || m.RowDescription? {
      CountedFieldsBack(m);
    } else {
      match m
      case NotificationResponse(processId, channel, payload) => NotificationBack(processId, channel, payload);
      case CommandComplete(tag) => Frontend.StringBack(tag);
      case ErrorResponse(notices) => NoticesBack(notices);
      case NoticeResponse(notices) => NoticesBack(notices);
      case CopyInResponse(copy) => CopyBack(copy);
      case CopyOutResponse(copy) => CopyBack(copy);
      case CopyBothResponse(copy) => CopyBack(copy);
      case BackendKeyData(processId, secretKey) => KeyDataBack(processId, secretKey);
      case ParameterStatus(name, value) => TextsBack(name, value);
      case ReadyForQuery(status) => StatusBack(status);
      case _ =>
    }
  }

  /** A message is read back from its type byte and body. */
  lemma MessageBack(m: BackendMessage)
    requires WellFormed(m)
    ensures Parse(TypeByte(m), Body(m)) == Some(m)
  {
    TypeSelectsReader(m, Body(m));
    ReaderBack(m);
  }
}
