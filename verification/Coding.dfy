/** The growing buffer that messages are written to and cut from, and the writing and reading
    loops over it: placeholders patched with the length, counted lists, parameters up to the
    empty key. Each is proved against the functions of the formats. */
module Coding {
  import opened Bytes
  import opened Options
  import opened Primitives
  import opened Sequences
  import opened Codec
  import Frontend
  import Backend

  class Buffer {
    var data: seq<Byte>

    constructor (data: seq<Byte>)
      ensures this.data == data
    {
      this.data := data;
    }

    method PutU8(b: Byte)
      modifies this
      ensures data == old(data) + [b]
    {
      data := data + [b];
    }

    method PutI16(v: Int16)
      modifies this
      ensures data == old(data) + Be16(v)
    {
      data := data + Be16(v);
    }

    method PutI32(v: Int32)
      modifies this
      ensures data == old(data) + Be32(v)
    {
      data := data + Be32(v);
    }

    method Extend(bytes: seq<Byte>)
      modifies this
      ensures data == old(data) + bytes
    {
      data := data + bytes;
    }

    method PutCString(s: seq<Byte>)
      modifies this
      ensures data == old(data) + CString(s)
    {
      Extend(s);
      PutU8(0);
      Assoc(old(data), s, [0]);
    }

    method PutNullable(v: Option<seq<Byte>>)
      modifies this
      ensures data == old(data) + Nullable(v)
    {
      match v
      case None => PutI32(-1);
      case Some(bytes) =>
        PutI32(AsInt32(|bytes|));
        Extend(bytes);
        Assoc(old(data), Be32(AsInt32(|bytes|)), bytes);
    }

    /** One item after the other; `put` is what writing one item appends. */
    method PutAll<T>(items: seq<T>, put: T -> seq<Byte>)
      modifies this
      ensures data == old(data) + Concat(items, put)
    {
      var i := 0;
      assert items[0..] == items;
      while i < |items|
        invariant 0 <= i <= |items|
        invariant data + Concat(items[i..], put) == old(data) + Concat(items, put)
      {
        ghost var rest := items[i..];
        assert rest[0] == items[i] && rest[1..] == items[i + 1..];
        Assoc(data, put(items[i]), Concat(items[i + 1..], put));
        Extend(put(items[i]));
        i := i + 1;
      }
      assert items[i..] == [];
      assert data + [] == data;
    }

    /** The count, then the items. */
    method PutCounted<T>(items: seq<T>, put: T -> seq<Byte>)
      modifies this
      ensures data == old(data) + Counted(items, put)
    {
      PutI16(AsInt16(|items|));
      PutAll(items, put);
      Assoc(old(data), Be16(AsInt16(|items|)), Concat(items, put));
    }

    /** A placeholder for the length. */
    method BeginLength() returns (at: nat)
      modifies this
      ensures at == |old(data)| && data == old(data) + Be32(0)
    {
      at := |data|;
      PutI32(0);
    }

    /** Writes the length over the placeholder. */
    method PatchLength(at: nat)
      requires at + 4 <= |data|
      modifies this
      ensures data == old(data[..at]) + Be32(AsInt32(|old(data)| - at)) + old(data[at + 4..])
    {
      var length := AsInt32(|data| - at);
      data := data[..at] + Be32(length) + data[at + 4..];
    }

    /** Cuts the first n bytes off. */
    method SplitTo(n: nat) returns (front: seq<Byte>)
      requires n <= |data|
      modifies this
      ensures front == old(data[..n]) && data == old(data[n..])
    {
      front, data := data[..n], data[n..];
    }
  }

  /** The placeholder is replaced by the length of what was written after it. */
  lemma PatchedIsFramed(before: seq<Byte>, body: seq<Byte>)
    ensures var written := before + Be32(0) + body;
            written[..|before|] + Be32(AsInt32(|written| - |before|)) + written[|before| + 4..]
              == before + Frontend.Framed(body)
  {
    var written := before + Be32(0) + body;
    assert written[..|before|] == before && written[|before| + 4..] == body;
    Assoc(before, Be32(AsInt32(|body| + 4)), body);
  }

  // ---------------------------------------------------------------------
  // Frontend messages
  // ---------------------------------------------------------------------

  method PutBind(m: Frontend.FrontendMessage, dst: Buffer)
    requires m.Bind?
    modifies dst
    ensures dst.data == old(dst.data) + Frontend.Body(m)
  {
    ghost var s4 := Counted(m.resultFormats, Format);
    ghost var s3 := Counted(m.params, Nullable) + s4;
    ghost var s2 := Counted(m.paramFormats, Format) + s3;
    ghost var s1 := CString(m.statement) + s2;
    ghost var d0 := dst.data;
    dst.PutCString(m.portal);
    Assoc(d0, CString(m.portal), s1);
    ghost var d1 := dst.data;
    dst.PutCString(m.statement);
    Assoc(d1, CString(m.statement), s2);
    ghost var d2 := dst.data;
    dst.PutCounted(m.paramFormats, Format);
    Assoc(d2, Counted(m.paramFormats, Format), s3);
    ghost var d3 := dst.data;
    dst.PutCounted(m.params, Nullable);
    Assoc(d3, Counted(m.params, Nullable), s4);
    dst.PutCounted(m.resultFormats, Format);
  }

  method PutStartup(m: Frontend.FrontendMessage, dst: Buffer)
    requires m.Startup?
    modifies dst
    ensures dst.data == old(dst.data) + Frontend.Body(m)
  {
    ghost var s2 := Concat(m.parameters, Frontend.Parameter) + [0];
    ghost var d0 := dst.data;
    dst.PutI16(m.major);
    Assoc(d0, Be16(m.major), Be16(m.minor) + s2);
    ghost var d1 := dst.data;
    dst.PutI16(m.minor);
    Assoc(d1, Be16(m.minor), s2);
    ghost var d2 := dst.data;
    dst.PutAll(m.parameters, Frontend.Parameter);
    Assoc(d2, Concat(m.parameters, Frontend.Parameter), [0]);
    dst.PutU8(0);
  }

  method PutParse(m: Frontend.FrontendMessage, dst: Buffer)
    requires m.Parse?
    modifies dst
    ensures dst.data == old(dst.data) + Frontend.Body(m)
  {
    ghost var s2 := Counted(m.paramTypes, OidBytes);
    ghost var d0 := dst.data;
    dst.PutCString(m.name);
    Assoc(d0, CString(m.name), CString(m.query) + s2);
    ghost var d1 := dst.data;
    dst.PutCString(m.query);
    Assoc(d1, CString(m.query), s2);
    dst.PutCounted(m.paramTypes, OidBytes);
  }

  method PutTarget(kind: Frontend.TargetKind, name: seq<Byte>, dst: Buffer)
    modifies dst
    ensures dst.data == old(dst.data) + ([Frontend.KindByte(kind)] + CString(name))
  {
    ghost var d0 := dst.data;
    dst.PutU8(Frontend.KindByte(kind));
    dst.PutCString(name);
    Assoc(d0, [Frontend.KindByte(kind)], CString(name));
  }

  method PutCancel(m: Frontend.FrontendMessage, dst: Buffer)
    requires m.CancelRequest?
    modifies dst
    ensures dst.data == old(dst.data) + Frontend.Body(m)
  {
    ghost var d0 := dst.data;
    dst.PutI32(Frontend.CANCEL_REQUEST_CODE);
    Assoc(d0, Be32(Frontend.CANCEL_REQUEST_CODE), Be32(m.processId) + Be32(m.secretKey));
    ghost var d1 := dst.data;
    dst.PutI32(m.processId);
    Assoc(d1, Be32(m.processId), Be32(m.secretKey));
    dst.PutI32(m.secretKey);
  }

  method PutFrontendBody(m: Frontend.FrontendMessage, dst: Buffer)
    modifies dst
    ensures dst.data == old(dst.data) + Frontend.Body(m)
  {
    ghost var d0 := dst.data;
    assert d0 == d0 + [];
    match m
    case Startup(_, _, _) => PutStartup(m, dst);
    case SslRequest => dst.PutI32(Frontend.SSL_REQUEST_CODE);
    case GssEncRequest => dst.PutI32(Frontend.GSS_ENC_REQUEST_CODE);
    case CancelRequest(_, _) => PutCancel(m, dst);
    case Bind(_, _, _, _, _) => PutBind(m, dst);
    case Close(kind, name) => PutTarget(kind, name, dst);
    case CopyData(data) => dst.Extend(data);
    case CopyDone =>
    case CopyFail(message) => dst.PutCString(message);
    case Describe(kind, name) => PutTarget(kind, name, dst);
    case Execute(portal, maxRows) =>
      dst.PutCString(portal);
      dst.PutI32(maxRows);
      Assoc(d0, CString(portal), Be32(maxRows));
    case Flush =>
    case FunctionCall(data) => dst.Extend(data);
    case Parse(_, _, _) => PutParse(m, dst);
    case PasswordMessage(data) => dst.Extend(data);
    case Query(query) => dst.PutCString(query);
    case Sync =>
    case Terminate =>
  }

  /** Placeholder, body, then the length over the placeholder. */
  method EncodeInitial(m: Frontend.FrontendMessage, dst: Buffer)
    modifies dst
    ensures dst.data == old(dst.data) + Frontend.Framed(Frontend.Body(m))
  {
    PatchedIsFramed(dst.data, Frontend.Body(m));
    var at := dst.BeginLength();
    PutFrontendBody(m, dst);
    dst.PatchLength(at);
  }

  method EncodeFrontend(m: Frontend.FrontendMessage, dst: Buffer)
    modifies dst
    ensures dst.data == old(dst.data) + Frontend.Encoded(m)
  {
    if !Frontend.IsInitial(m) {
      Assoc(dst.data, [Frontend.TypeByte(m)], Frontend.Framed(Frontend.Body(m)));
      dst.PutU8(Frontend.TypeByte(m));
    }
    EncodeInitial(m, dst);
  }

  // ---------------------------------------------------------------------
  // Backend messages
  // ---------------------------------------------------------------------

  method PutCopy(copy: Backend.CopyResponse, dst: Buffer)
    modifies dst
    ensures dst.data == old(dst.data) + Backend.Copy(copy)
  {
    ghost var d0 := dst.data;
    var b: Byte := if copy.format.Text? then 0 else 1;
    dst.PutU8(b);
    dst.PutCounted(copy.columnFormats, Format);
    Assoc(d0, [b], Counted(copy.columnFormats, Format));
  }

  method PutNotices(notices: seq<Backend.Notice>, dst: Buffer)
    modifies dst
    ensures dst.data == old(dst.data) + Backend.Notices(notices)
  {
    ghost var d0 := dst.data;
    dst.PutAll(notices, Backend.NoticeBytes);
    dst.PutU8(0);
    Assoc(d0, Concat(notices, Backend.NoticeBytes), [0]);
  }

  method PutAuthentication(kind: Int32, bytes: seq<Byte>, dst: Buffer)
    modifies dst
    ensures dst.data == old(dst.data) + (Be32(kind) + bytes)
  {
    ghost var d0 := dst.data;
    dst.PutI32(kind);
    dst.Extend(bytes);
    Assoc(d0, Be32(kind), bytes);
  }

  method PutMechanisms(mechanisms: seq<seq<Byte>>, dst: Buffer)
    modifies dst
    ensures dst.data == old(dst.data) + (Be32(10) + (Concat(mechanisms, CString) + [0]))
  {
    ghost var d0 := dst.data;
    dst.PutI32(10);
    Assoc(d0, Be32(10), Concat(mechanisms, CString) + [0]);
    ghost var d1 := dst.data;
    dst.PutAll(mechanisms, CString);
    Assoc(d1, Concat(mechanisms, CString), [0]);
    dst.PutU8(0);
  }

  method PutNotification(m: Backend.BackendMessage, dst: Buffer)
    requires m.NotificationResponse?
    modifies dst
    ensures dst.data == old(dst.data) + Backend.Body(m)
  {
    ghost var d0 := dst.data;
    dst.PutI32(m.processId);
    Assoc(d0, Be32(m.processId), CString(m.channel) + CString(m.payload));
    ghost var d1 := dst.data;
    dst.PutCString(m.channel);
    Assoc(d1, CString(m.channel), CString(m.payload));
    dst.PutCString(m.payload);
  }

  method PutPair(a: seq<Byte>, b: seq<Byte>, dst: Buffer)
    modifies dst
    ensures dst.data == old(dst.data) + (a + b)
  {
    Assoc(dst.data, a, b);
    dst.Extend(a);
    dst.Extend(b);
  }

  predicate IsAuthentication(m: Backend.BackendMessage) {
    || m.AuthenticationOk? || m.AuthenticationCleartextPassword? || m.AuthenticationMd5Password?
    || m.AuthenticationSasl? || m.AuthenticationSaslContinue? || m.AuthenticationSaslFinal?
  }

  method PutAuthenticationBody(m: Backend.BackendMessage, dst: Buffer)
    requires IsAuthentication(m)
    modifies dst
    ensures dst.data == old(dst.data) + Backend.Body(m)
  {
    match m
    case AuthenticationOk => dst.PutI32(0);
    case AuthenticationCleartextPassword => dst.PutI32(3);
    case AuthenticationMd5Password(salt) => PutAuthentication(5, salt, dst);
    case AuthenticationSasl(mechanisms) => PutMechanisms(mechanisms, dst);
    case AuthenticationSaslContinue(data) => PutAuthentication(11, data, dst);
    case AuthenticationSaslFinal(data) => PutAuthentication(12, data, dst);
  }

  method PutBackendBody(m: Backend.BackendMessage, dst: Buffer)
    modifies dst
    ensures dst.data == old(dst.data) + Backend.Body(m)
  {
    assert dst.data == dst.data + [];
    if IsAuthentication(m) {
      PutAuthenticationBody(m, dst);
      return;
    }
    match m
    case BackendKeyData(processId, secretKey) => PutPair(Be32(processId), Be32(secretKey), dst);
    case ParseComplete =>
    case BindComplete =>
    case CloseComplete =>
    case NoData =>
    case PortalSuspended =>
    case EmptyQueryResponse =>
    case CommandComplete(tag) => dst.PutCString(tag);
    case RowDescription(fields) => dst.PutCounted(fields, Backend.Field);
    case DataRow(columns) => dst.PutCounted(columns, Nullable);
    case ParameterDescription(oids) => dst.PutCounted(oids, OidBytes);
    case ParameterStatus(name, value) => PutPair(CString(name), CString(value), dst);
    case ReadyForQuery(status) => dst.PutU8(Backend.StatusByte(status));
    case CopyInResponse(copy) => PutCopy(copy, dst);
    case CopyOutResponse(copy) => PutCopy(copy, dst);
    case CopyBothResponse(copy) => PutCopy(copy, dst);
    case CopyData(data) => dst.Extend(data);
    case CopyDone =>
    case ErrorResponse(notices) => PutNotices(notices, dst);
    case NoticeResponse(notices) => PutNotices(notices, dst);
    case NotificationResponse(_, _, _) => PutNotification(m, dst);
  }

  method EncodeBackend(m: Backend.BackendMessage, dst: Buffer)
    modifies dst
    ensures dst.data == old(dst.data) + Backend.Encoded(m)
  {
    Assoc(dst.data, [Backend.TypeByte(m)], Frontend.Framed(Backend.Body(m)));
    dst.PutU8(Backend.TypeByte(m));
    PatchedIsFramed(dst.data, Backend.Body(m));
    var at := dst.BeginLength();
    PutBackendBody(m, dst);
    dst.PatchLength(at);
  }

  // ---------------------------------------------------------------------
  // The reading loops
  // ---------------------------------------------------------------------

  ghost function After<T>(read: seq<T>, more: Parsed<seq<T>>): Parsed<seq<T>> {
    if more.Fail? then Fail else Ok(read + more.value, more.rest)
  }

  lemma AfterOne<T>(read: seq<T>, x: T, more: Parsed<seq<T>>)
    ensures After(read + [x], more) == After(read, After([x], more))
  {
    if more.Ok? {
      assert read + [x] + more.value == read + ([x] + more.value);
    }
  }

  lemma AfterEnds<T>(read: seq<T>, p: Parsed<seq<T>>, rest: seq<Byte>)
    ensures After([], p) == p
    ensures After(read, Ok([], rest)) == Ok(read, rest)
  {
    if p.Ok? {
      assert [] + p.value == p.value;
    }
    assert read + [] == read;
  }

  /** Key and value strings up to an empty key. */
  method ParseParameters(s: seq<Byte>) returns (r: Parsed<seq<(seq<Byte>, seq<Byte>)>>)
    ensures r == Frontend.ReadParameters(s)
  {
    var parameters, rest := [], s;
    AfterEnds(parameters, Frontend.ReadParameters(s), []);
    while true
      invariant After(parameters, Frontend.ReadParameters(rest)) == Frontend.ReadParameters(s)
      decreases |rest|
    {
      var key := ReadCString(rest);
      if key.Fail? {
        return Fail;
      }
      if key.value == [] {
        AfterEnds(parameters, Fail, key.rest);
        return Ok(parameters, key.rest);
      }
      var value := ReadCString(key.rest);
      if value.Fail? {
        return Fail;
      }
      AfterOne(parameters, (key.value, value.value), Frontend.ReadParameters(value.rest));
      parameters, rest := parameters + [(key.value, value.value)], value.rest;
    }
  }

  /** Mechanism names up to an empty one. */
  method ParseMechanisms(s: seq<Byte>) returns (r: Parsed<seq<seq<Byte>>>)
    ensures r == Backend.ReadMechanisms(s)
  {
    var mechanisms, rest := [], s;
    AfterEnds(mechanisms, Backend.ReadMechanisms(s), []);
    while true
      invariant After(mechanisms, Backend.ReadMechanisms(rest)) == Backend.ReadMechanisms(s)
      decreases |rest|
    {
      var next := ReadCString(rest);
      if next.Fail? {
        return Fail;
      }
      if next.value == [] {
        AfterEnds(mechanisms, Fail, next.rest);
        return Ok(mechanisms, next.rest);
      }
      AfterOne(mechanisms, next.value, Backend.ReadMechanisms(next.rest));
      mechanisms, rest := mechanisms + [next.value], next.rest;
    }
  }

  /** Tagged strings up to a zero tag. */
  method ParseNotices(s: seq<Byte>) returns (r: Parsed<seq<Backend.Notice>>)
    ensures r == Backend.ReadNotices(s)
  {
    var notices, rest := [], s;
    AfterEnds(notices, Backend.ReadNotices(s), []);
    while true
      invariant After(notices, Backend.ReadNotices(rest)) == Backend.ReadNotices(s)
      decreases |rest|
    {
      if rest == [] {
        return Fail;
      }
      if rest[0] == 0 {
        AfterEnds(notices, Fail, rest[1..]);
        return Ok(notices, rest[1..]);
      }
      var text := ReadCString(rest[1..]);
      if text.Fail? {
        return Fail;
      }
      AfterOne(notices, (rest[0], text.value), Backend.ReadNotices(text.rest));
      notices, rest := notices + [(rest[0], text.value)], text.rest;
    }
  }

  // ---------------------------------------------------------------------
  // Decoders
  // ---------------------------------------------------------------------

  datatype Frame<+M> = Pending | Invalid | Frame(message: M)

  /** What a decoder reported and left in the buffer is what `Decode` says. */
  predicate Reports<M>(d: Decoded, before: seq<Byte>, frame: Frame<M>, after: seq<Byte>, wrap: M -> Message) {
    match d
    case NeedMore => frame.Pending? && after == before
    case Error(rest) => frame.Invalid? && after == rest
    case Got(m, rest) => frame.Frame? && wrap(frame.message) == m && after == rest
  }

  /** Cuts a frame of the given length off, if it is there. */
  method CutFrame(src: Buffer, headerEnd: nat, lengthAt: nat) returns (frame: Frame<seq<Byte>>)
    requires headerEnd == lengthAt + 4
    modifies src
    ensures var s := old(src.data);
            if |s| < headerEnd then frame == Pending && src.data == s
            else if Length(s[lengthAt..]) < 4 then frame == Invalid && src.data == s
            else
              var total := lengthAt + Length(s[lengthAt..]);
              if |s| < total then frame == Pending && src.data == s
              else frame == Frame(s[..total]) && src.data == s[total..]
  {
    if |src.data| < headerEnd {
      return Pending;
    }
    var length := FromBe32(src.data[lengthAt], src.data[lengthAt + 1], src.data[lengthAt + 2], src.data[lengthAt + 3]);
    if length < 4 {
      return Invalid;
    }
    var total := lengthAt + length;
    if |src.data| < total {
      return Pending;
    }
    var bytes := src.SplitTo(total);
    frame := Frame(bytes);
  }

  class FrontendCodec {
    var startup: bool

    constructor ()
      ensures startup
    {
      startup := true;
    }

    constructor PostStartup()
      ensures !startup
    {
      startup := false;
    }

    function Mode(): Mode
      reads this
    {
      if startup then Initial else Regular
    }

    method Decode(src: Buffer) returns (frame: Frame<Frontend.FrontendMessage>)
      modifies this, src
      ensures Reports(Codec.Decode(old(Mode()), old(src.data)), old(src.data), frame, src.data, m => Front(m))
      ensures Mode() == if frame.Frame? then NextMode(old(Mode()), Front(frame.message)) else old(Mode())
    {
      ghost var s := src.data;
      var at := if startup then 0 else 1;
      var cut := CutFrame(src, at + 4, at);
      assert s[0..] == s;
      if !cut.Frame? {
        return if cut.Pending? then Pending else Invalid;
      }
      var parsed := if startup then Frontend.ParseInitial(cut.message)
                    else Frontend.ParseRegular(cut.message[0], cut.message[5..]);
      assert !startup ==> cut.message[5..] == s[5..|cut.message|];
      match parsed
      case None => return Invalid;
      case Some(m) =>
        if !(m.SslRequest? || m.GssEncRequest? || m.CancelRequest?) {
          startup := false;
        }
        return Frame(m);
    }
  }

  class BackendCodec {
    constructor () {
    }

    method Decode(src: Buffer) returns (frame: Frame<Backend.BackendMessage>)
      modifies src
      ensures Reports(Codec.Decode(Server, old(src.data)), old(src.data), frame, src.data, m => Back(m))
    {
      ghost var s := src.data;
      var cut := CutFrame(src, 5, 1);
      if !cut.Frame? {
        return if cut.Pending? then Pending else Invalid;
      }
      assert cut.message[5..] == s[5..|cut.message|];
      match Backend.Parse(cut.message[0], cut.message[5..])
      case None => return Invalid;
      case Some(m) => return Frame(m);
    }
  }
}
