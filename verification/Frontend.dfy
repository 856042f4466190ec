/** Messages of a client: what they are, how they are read, how they are written. Those that
    open a connection have no type byte and are told apart by the code behind the length; all
    others start with their type. */
module Frontend {
  import opened Bytes
  import opened Options
  import opened Primitives

  datatype TargetKind = Statement | Portal

  datatype FrontendMessage =
    | Startup(major: Int16, minor: Int16, parameters: seq<(seq<Byte>, seq<Byte>)>)
    | SslRequest
    | GssEncRequest
    | CancelRequest(processId: Int32, secretKey: Int32)
    | Bind(portal: seq<Byte>, statement: seq<Byte>, paramFormats: seq<FormatCode>,
           params: seq<Option<seq<Byte>>>, resultFormats: seq<FormatCode>)
    | Close(kind: TargetKind, name: seq<Byte>)
    | CopyData(data: seq<Byte>)
    | CopyDone
    | CopyFail(message: seq<Byte>)
    | Describe(kind: TargetKind, name: seq<Byte>)
    | Execute(portal: seq<Byte>, maxRows: Int32)
    | Flush
    | FunctionCall(data: seq<Byte>)
    | Parse(name: seq<Byte>, query: seq<Byte>, paramTypes: seq<Oid>)
    | PasswordMessage(data: seq<Byte>)
    | Query(query: seq<Byte>)
    | Sync
    | Terminate

  const PROTOCOL_V3: Int32 := 196608
  const SSL_REQUEST_CODE: Int32 := 80877103
  const CANCEL_REQUEST_CODE: Int32 := 80877102
  const GSS_ENC_REQUEST_CODE: Int32 := 80877104

  predicate IsInitial(m: FrontendMessage) {
    m.Startup? || m.SslRequest? || m.GssEncRequest? || m.CancelRequest?
  }

  // ---------------------------------------------------------------------
  // Reading
  // ---------------------------------------------------------------------

  function ReadTargetKind(s: seq<Byte>): Parsed<TargetKind> {
    var (b, rest) :- AnyByte(s);
    if b == 'S' as int then Ok(Statement, rest) else if b == 'P' as int then Ok(Portal, rest) else Fail
  }

  /** Pairs of strings until an empty key. */
  function ReadParameters(s: seq<Byte>): Parsed<seq<(seq<Byte>, seq<Byte>)>>
    decreases |s|
  {
    var (key, rest) :- ReadCString(s);
    if key == [] then Ok([], rest)
    else
      var (value, rest') :- ReadCString(rest);
      var (others, end) :- ReadParameters(rest');
      Ok([(key, value)] + others, end)
  }

  function ReadStartup(s: seq<Byte>): Parsed<FrontendMessage> {
    var (parameters, rest) :- ReadParameters(s);
    Ok(Startup(3, 0, parameters), rest)
  }

  function ReadCancel(s: seq<Byte>): Parsed<FrontendMessage> {
    var (processId, rest) :- ReadInt32(s);
    var (secretKey, rest') :- ReadInt32(rest);
    Ok(CancelRequest(processId, secretKey), rest')
  }

  /** The input is the whole message with its length. */
  function ParseInitial(s: seq<Byte>): Option<FrontendMessage> {
    Complete(
      var (_, rest) :- ReadInt32(s);
      var (code, body) :- ReadInt32(rest);
      if code == PROTOCOL_V3 then ReadStartup(body)
      else if code == SSL_REQUEST_CODE then Ok(SslRequest, body)
      else if code == CANCEL_REQUEST_CODE then ReadCancel(body)
      else if code == GSS_ENC_REQUEST_CODE then Ok(GssEncRequest, body)
      else Fail)
  }

  function ReadBind(s: seq<Byte>): Parsed<FrontendMessage> {
    var (portal, s1) :- ReadCString(s);
    var (statement, s2) :- ReadCString(s1);
    var (paramFormats, s3) :- ReadCounted(ReadFormat, s2);
    var (params, s4) :- ReadCounted(ReadNullable, s3);
    var (resultFormats, s5) :- ReadCounted(ReadFormat, s4);
    Ok(Bind(portal, statement, paramFormats, params, resultFormats), s5)
  }

  function ReadParse(s: seq<Byte>): Parsed<FrontendMessage> {
    var (name, s1) :- ReadCString(s);
    var (query, s2) :- ReadCString(s1);
    var (paramTypes, s3) :- ReadCounted(ReadOid, s2);
    Ok(Parse(name, query, paramTypes), s3)
  }

  function ReadClose(s: seq<Byte>): Parsed<FrontendMessage> {
    var (kind, s1) :- ReadTargetKind(s);
    var (name, s2) :- ReadCString(s1);
    Ok(Close(kind, name), s2)
  }

  function ReadDescribe(s: seq<Byte>): Parsed<FrontendMessage> {
    var (kind, s1) :- ReadTargetKind(s);
    var (name, s2) :- ReadCString(s1);
    Ok(Describe(kind, name), s2)
  }

  function ReadExecute(s: seq<Byte>): Parsed<FrontendMessage> {
    var (portal, s1) :- ReadCString(s);
    var (maxRows, s2) :- ReadInt32(s1);
    Ok(Execute(portal, maxRows), s2)
  }

  function ReadQuery(s: seq<Byte>): Parsed<FrontendMessage> {
    var (query, rest) :- ReadCString(s);
    Ok(Query(query), rest)
  }

  function ReadCopyFail(s: seq<Byte>): Parsed<FrontendMessage> {
    var (message, rest) :- ReadCString(s);
    Ok(CopyFail(message), rest)
  }

  /** A message with its type byte, a character of ASCII; the payload of messages without
      fields is not looked at. */
  function ParseRegular(c: Byte, payload: seq<Byte>): Option<FrontendMessage> {
    if c == 0x42 then Complete(ReadBind(payload))
    else if c == 0x43 then Complete(ReadClose(payload))
    else if c == 0x63 then Some(CopyDone)
    else if c == 0x64 then Some(CopyData(payload))
    else if c == 0x44 then Complete(ReadDescribe(payload))
    else if c == 0x45 then Complete(ReadExecute(payload))
    else if c == 0x66 then Complete(ReadCopyFail(payload))
    else if c == 0x46 then Some(FunctionCall(payload))
    else if c == 0x48 then Some(Flush)
    else if c == 0x50 then Complete(ReadParse(payload))
    else if c == 0x70 then Some(PasswordMessage(payload))
    else if c == 0x51 then Complete(ReadQuery(payload))
    else if c == 0x53 then Some(Sync)
    else if c == 0x58 then Some(Terminate)
    else None
  }

  // ---------------------------------------------------------------------
  // Writing
  // ---------------------------------------------------------------------

  function KindByte(kind: TargetKind): Byte {
    match kind
    case Statement => 'S' as int
    case Portal => 'P' as int
  }

  function Parameter(p: (seq<Byte>, seq<Byte>)): seq<Byte> {
    CString(p.0) + CString(p.1)
  }

  function TypeByte(m: FrontendMessage): Byte
    requires !IsInitial(m)
  {
    match m
     case Bind(_, _, _, _, _) => 0x42
     case Close(_, _) => 0x43
     case CopyData(_) => 0x64
     case CopyDone => 0x63
     case CopyFail(_) => 0x66
     case Describe(_, _) => 0x44
     case Execute(_, _) => 0x45
     case Flush => 0x48
     case FunctionCall(_) => 0x46
     case Parse(_, _, _) => 0x50
     case PasswordMessage(_) => 0x70
     case Query(_) => 0x51
     case Sync => 0x53
     case Terminate => 0x58
  }

  /** Everything after the length. */
  function Body(m: FrontendMessage): seq<Byte> {
    match m
    case Startup(major, minor, parameters) => Be16(major) + (Be16(minor) + (Concat(parameters, Parameter) + [0]))
    case SslRequest => Be32(SSL_REQUEST_CODE)
    case GssEncRequest => Be32(GSS_ENC_REQUEST_CODE)
    case CancelRequest(processId, secretKey) => Be32(CANCEL_REQUEST_CODE) + (Be32(processId) + Be32(secretKey))
    case Bind(portal, statement, paramFormats, params, resultFormats) =>
      CString(portal) + (CString(statement)
        + (Counted(paramFormats, Format) + (Counted(params, Nullable) + Counted(resultFormats, Format))))
    case Close(kind, name) => [KindByte(kind)] + CString(name)
    case CopyData(data) => data
    case CopyDone => []
    case CopyFail(message) => CString(message)
    case Describe(kind, name) => [KindByte(kind)] + CString(name)
    case Execute(portal, maxRows) => CString(portal) + Be32(maxRows)
    case Flush => []
    case FunctionCall(data) => data
    case Parse(name, query, paramTypes) => CString(name) + (CString(query) + Counted(paramTypes, OidBytes))
    case PasswordMessage(data) => data
    case Query(query) => CString(query)
    case Sync => []
    case Terminate => []
  }

  /** The length counts itself and the body, not the type byte. */
  function Framed(body: seq<Byte>): seq<Byte> {
    Be32(AsInt32(|body| + 4)) + body
  }

  function Encoded(m: FrontendMessage): seq<Byte> {
    if IsInitial(m) then Framed(Body(m)) else [TypeByte(m)] + Framed(Body(m))
  }

  // ---------------------------------------------------------------------
  // Round trip
  // ---------------------------------------------------------------------

  /** What the format can carry: strings are UTF-8 without NUL, counts fit in 15 bits and
      lengths in 31, and a startup message is one of version 3.0 with non-empty keys. */
  ghost predicate WellFormed(m: FrontendMessage) {
    && |Body(m)| + 4 < 0x8000_0000
    && match m
       case Startup(major, minor, parameters) =>
         major == 3 && minor == 0 && forall p :: p in parameters ==> p.0 != [] && IsText(p.0) && IsText(p.1)
       case Bind(portal, statement, paramFormats, params, resultFormats) =>
         && IsText(portal) && IsText(statement)
         && |paramFormats| < 0x8000 && |params| < 0x8000 && |resultFormats| < 0x8000
       case Close(_, name) => IsText(name)
       case CopyFail(message) => IsText(message)
       case Describe(_, name) => IsText(name)
       case Execute(portal, _) => IsText(portal)
       case Parse(name, query, paramTypes) => IsText(name) && IsText(query) && |paramTypes| < 0x8000
       case Query(query) => IsText(query)
       case _ => true
  }

  lemma ParametersCons(p: (seq<Byte>, seq<Byte>), others: seq<Byte>, tail: seq<Byte>)
    ensures Parameter(p) + others + [0] + tail == CString(p.0) + (CString(p.1) + (others + [0] + tail))
  {
  }

  lemma {:induction false} ParametersBack(parameters: seq<(seq<Byte>, seq<Byte>)>, tail: seq<Byte>)
    requires forall p :: p in parameters ==> p.0 != [] && IsText(p.0) && IsText(p.1)
    ensures ReadParameters(Concat(parameters, Parameter) + [0] + tail) == Ok(parameters, tail)
  {
    if parameters == [] {
      assert Concat(parameters, Parameter) + [0] + tail == CString([]) + tail;
      CStringBack([], tail);
    } else {
      var p, others := parameters[0], parameters[1..];
      var rest := Concat(others, Parameter) + [0] + tail;
      ParametersBack(others, tail);
      ParametersCons(p, Concat(others, Parameter), tail);
      CStringBack(p.0, CString(p.1) + rest);
      CStringBack(p.1, rest);
      assert [p] + others == parameters;
    }
  }

  lemma VersionIsCode(tail: seq<Byte>)
    ensures Be16(3) + (Be16(0) + tail) == Be32(PROTOCOL_V3) + tail
  {
  }

  lemma StartupBack(m: FrontendMessage)
    requires m.Startup? && WellFormed(m)
    ensures ParseInitial(Encoded(m)) == Some(m)
  {
    var all := Concat(m.parameters, Parameter) + [0];
    ParametersBack(m.parameters, []);
    assert all + [] == all;
    VersionIsCode(all);
    Int32Back(AsInt32(|Body(m)| + 4), Body(m));
    Int32Back(PROTOCOL_V3, all);
  }

  lemma CancelBack(m: FrontendMessage)
    requires m.CancelRequest?
    ensures ParseInitial(Encoded(m)) == Some(m)
  {
    Int32Back(AsInt32(|Body(m)| + 4), Body(m));
    Int32Back(CANCEL_REQUEST_CODE, Be32(m.processId) + Be32(m.secretKey));
    Int32Back(m.processId, Be32(m.secretKey));
    CodeBack(m.secretKey);
  }

  lemma RequestBack(m: FrontendMessage)
    requires m.SslRequest? || m.GssEncRequest?
    ensures ParseInitial(Encoded(m)) == Some(m)
  {
    Int32Back(AsInt32(|Body(m)| + 4), Body(m));
    CodeBack(if m.SslRequest? then SSL_REQUEST_CODE else GSS_ENC_REQUEST_CODE);
  }

  lemma InitialBack(m: FrontendMessage)
    requires IsInitial(m) && WellFormed(m)
    ensures ParseInitial(Encoded(m)) == Some(m)
  {
    match m
    case Startup(_, _, _) => StartupBack(m);
    case CancelRequest(_, _) => CancelBack(m);
    case _ => RequestBack(m);
  }

  lemma CodeBack(v: Int32)
    ensures ReadInt32(Be32(v)) == Ok(v, [])
  {
    Int32Back(v, []);
    assert Be32(v) + [] == Be32(v);
  }

  lemma StringBack(s: seq<Byte>)
    requires IsText(s)
    ensures ReadCString(CString(s)) == Ok(s, [])
  {
    CStringBack(s, []);
    assert CString(s) + [] == CString(s);
  }

  lemma OidsBack(oids: seq<Oid>, tail: seq<Byte>)
    requires |oids| < 0x8000
    ensures ReadCounted(ReadOid, Counted(oids, OidBytes) + tail) == Ok(oids, tail)
  {
    forall o, t | o in oids
      ensures ReadOid(OidBytes(o) + t) == Ok(o, t)
    {
      OidBack(o, t);
    }
    CountedBack(oids, OidBytes, ReadOid, tail);
  }

  lemma FormatsBack(formats: seq<FormatCode>, tail: seq<Byte>)
    requires |formats| < 0x8000
    ensures ReadCounted(ReadFormat, Counted(formats, Format) + tail) == Ok(formats, tail)
  {
    forall f, t | f in formats
      ensures ReadFormat(Format(f) + t) == Ok(f, t)
    {
      FormatBack(f, t);
    }
    CountedBack(formats, Format, ReadFormat, tail);
  }

  lemma {:induction false} ItemFits(values: seq<Option<seq<Byte>>>, v: Option<seq<Byte>>)
    requires v in values && v.Some?
    ensures |v.value| <= |Concat(values, Nullable)|
  {
    if v != values[0] {
      ItemFits(values[1..], v);
    }
  }

  lemma NullablesBack(values: seq<Option<seq<Byte>>>, tail: seq<Byte>)
    requires |values| < 0x8000 && |Concat(values, Nullable)| < 0x8000_0000
    ensures ReadCounted(ReadNullable, Counted(values, Nullable) + tail) == Ok(values, tail)
  {
    forall v, t | v in values
      ensures ReadNullable(Nullable(v) + t) == Ok(v, t)
    {
      if v.Some? {
        ItemFits(values, v);
      }
      NullableBack(v, t);
    }
    CountedBack(values, Nullable, ReadNullable, tail);
  }

  lemma BindBack(m: FrontendMessage)
    requires m.Bind? && WellFormed(m)
    ensures ReadBind(Body(m)) == Ok(m, [])
  {
    var s4 := Counted(m.resultFormats, Format);
    var s3 := Counted(m.params, Nullable) + s4;
    var s2 := Counted(m.paramFormats, Format) + s3;
    var s1 := CString(m.statement) + s2;
    CStringBack(m.portal, s1);
    CStringBack(m.statement, s2);
    FormatsBack(m.paramFormats, s3);
    NullablesBack(m.params, s4);
    assert s4 + [] == s4;
    FormatsBack(m.resultFormats, []);
  }

  lemma ParseBack(m: FrontendMessage)
    requires m.Parse? && WellFormed(m)
    ensures ReadParse(Body(m)) == Ok(m, [])
  {
    var s2 := Counted(m.paramTypes, OidBytes);
    var s1 := CString(m.query) + s2;
    CStringBack(m.name, s1);
    CStringBack(m.query, s2);
    assert s2 + [] == s2;
    OidsBack(m.paramTypes, []);
  }

  lemma TargetBack(kind: TargetKind, name: seq<Byte>)
    requires IsText(name)
    ensures ReadClose([KindByte(kind)] + CString(name)) == Ok(Close(kind, name), [])
    ensures ReadDescribe([KindByte(kind)] + CString(name)) == Ok(Describe(kind, name), [])
  {
    StringBack(name);
    assert ([KindByte(kind)] + CString(name))[1..] == CString(name);
  }

  lemma ExecuteBack(portal: seq<Byte>, maxRows: Int32)
    requires IsText(portal)
    ensures ReadExecute(CString(portal) + Be32(maxRows)) == Ok(Execute(portal, maxRows), [])
  {
    CStringBack(portal, Be32(maxRows));
    CodeBack(maxRows);
  }

  /** The reader a message's type byte selects. */
  function Reader(m: FrontendMessage, payload: seq<Byte>): Option<FrontendMessage> {
    match m
    case Bind(_, _, _, _, _) => Complete(ReadBind(payload))
    case Close(_, _) => Complete(ReadClose(payload))
    case CopyFail(_) => Complete(ReadCopyFail(payload))
    case Describe(_, _) => Complete(ReadDescribe(payload))
    case Execute(_, _) => Complete(ReadExecute(payload))
    case Parse(_, _, _) => Complete(ReadParse(payload))
    case Query(_) => Complete(ReadQuery(payload))
    case CopyData(_) => Some(CopyData(payload))
    case FunctionCall(_) => Some(FunctionCall(payload))
    case PasswordMessage(_) => Some(PasswordMessage(payload))
    case _ => Some(m)
  }

  lemma CapitalTypes(m: FrontendMessage, payload: seq<Byte>)
    requires !IsInitial(m) && TypeByte(m) <= 0x46
    ensures ParseRegular(TypeByte(m), payload) == Reader(m, payload)
  {
  }

  lemma OtherTypes(m: FrontendMessage, payload: seq<Byte>)
    requires !IsInitial(m) && TypeByte(m) > 0x46
    ensures ParseRegular(TypeByte(m), payload) == Reader(m, payload)
  {
  }

  lemma TypeSelectsReader(m: FrontendMessage, payload: seq<Byte>)
    requires !IsInitial(m)
    ensures ParseRegular(TypeByte(m), payload) == Reader(m, payload)
  {
    if TypeByte(m) <= 0x46 {
      CapitalTypes(m, payload);
    } else {
      OtherTypes(m, payload);
    }
  }

  lemma ReaderBack(m: FrontendMessage)
    requires !IsInitial(m) && WellFormed(m)
    ensures Reader(m, Body(m)) == Some(m)
  {
    match m
    case Bind(_, _, _, _, _) => BindBack(m);
    case Parse(_, _, _) => ParseBack(m);
    case Close(kind, name) => TargetBack(kind, name);
    case Describe(kind, name) => TargetBack(kind, name);
    case Execute(portal, maxRows) => ExecuteBack(portal, maxRows);
    case Query(query) => StringBack(query);
    case CopyFail(message) => StringBack(message);
    case _ =>
  }

  /** A regular message is read back from its type byte and body. */
  lemma RegularBack(m: FrontendMessage)
    requires !IsInitial(m) && WellFormed(m)
    ensures ParseRegular(TypeByte(m), Body(m)) == Some(m)
  {
    TypeSelectsReader(m, Body(m));
    ReaderBack(m);
  }
}
