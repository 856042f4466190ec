/** Incremental framing: messages cut out of a byte stream that arrives in any chunks. A frame is
    decided as soon as its last byte has arrived, never earlier, and what is behind it has no
    say; so the messages of a stream do not depend on how it was chunked. */
module Codec {
  import opened Bytes
  import opened Options
  import opened Primitives
  import Frontend
  import Backend

  /** What a decoder expects: a message without type byte before the startup is over, a
      frontend message, or (on the server's side) a backend message. */
  datatype Mode = Initial | Regular | Server

  datatype Message = Front(front: Frontend.FrontendMessage) | Back(back: Backend.BackendMessage)

  datatype Decoded = NeedMore | Error(rest: seq<Byte>) | Got(message: Message, rest: seq<Byte>)

  function Length(s: seq<Byte>): nat
    requires |s| >= 4
  {
    FromBe32(s[0], s[1], s[2], s[3])
  }

  function DecodeInitial(s: seq<Byte>): Decoded {
    if |s| < 4 then NeedMore
    else if Length(s) < 4 then Error(s)
    else if |s| < Length(s) then NeedMore
    else
      var rest := s[Length(s)..];
      match Frontend.ParseInitial(s[..Length(s)])
      case None => Error(rest)
      case Some(m) => Got(Front(m), rest)
  }

  function ParsePayload(mode: Mode, typeByte: Byte, payload: seq<Byte>): Option<Message> {
    if mode.Server? then
      match Backend.Parse(typeByte, payload)
      case None => None
      case Some(m) => Some(Back(m))
    else
      match Frontend.ParseRegular(typeByte, payload)
      case None => None
      case Some(m) => Some(Front(m))
  }

  function DecodeRegular(mode: Mode, s: seq<Byte>): Decoded {
    if |s| < 5 then NeedMore
    else if Length(s[1..]) < 4 then Error(s)
    else
      var total := 1 + Length(s[1..]);
      if |s| < total then NeedMore
      else
        match ParsePayload(mode, s[0], s[5..total])
        case None => Error(s[total..])
        case Some(m) => Got(m, s[total..])
  }

  function Decode(mode: Mode, s: seq<Byte>): Decoded {
    if mode.Initial? then DecodeInitial(s) else DecodeRegular(mode, s)
  }

  /** SSL, GSS and cancel requests stay in startup mode; any other message leaves it. */
  function NextMode(mode: Mode, m: Message): Mode {
    if mode.Server? then Server
    else if m.Front? && (m.front.SslRequest? || m.front.GssEncRequest? || m.front.CancelRequest?) then mode
    else Regular
  }

  function Encoded(m: Message): seq<Byte> {
    match m
    case Front(f) => Frontend.Encoded(f)
    case Back(b) => Backend.Encoded(b)
  }

  /** The message may come in this mode. */
  ghost predicate Expected(mode: Mode, m: Message) {
    match m
    case Front(f) => !mode.Server? && (mode.Initial? <==> Frontend.IsInitial(f)) && Frontend.WellFormed(f)
    case Back(b) => mode.Server? && Backend.WellFormed(b)
  }

  // ---------------------------------------------------------------------
  // One message
  // ---------------------------------------------------------------------

  lemma FramedLength(body: seq<Byte>, tail: seq<Byte>)
    requires |body| + 4 < 0x8000_0000
    ensures |Frontend.Framed(body)| == |body| + 4
    ensures Length(Frontend.Framed(body) + tail) == |body| + 4
  {
    Be32RoundTrip(AsInt32(|body| + 4));
  }

  lemma InitialWhole(f: Frontend.FrontendMessage, tail: seq<Byte>)
    requires Frontend.IsInitial(f) && Frontend.WellFormed(f)
    ensures DecodeInitial(Frontend.Encoded(f) + tail) == Got(Front(f), tail)
  {
    var e := Frontend.Encoded(f);
    FramedLength(Frontend.Body(f), tail);
    assert (e + tail)[..|e|] == e && (e + tail)[|e|..] == tail;
    Frontend.InitialBack(f);
  }

  lemma PartsOfFrame(typeByte: Byte, body: seq<Byte>, tail: seq<Byte>)
    ensures var framed := Frontend.Framed(body);
            var s := [typeByte] + framed + tail;
            && s[0] == typeByte && s[1..] == framed + tail
            && s[5..1 + |framed|] == body && s[1 + |framed|..] == tail
  {
  }

  lemma RegularWhole(mode: Mode, typeByte: Byte, body: seq<Byte>, m: Message, tail: seq<Byte>)
    requires |body| + 4 < 0x8000_0000 && ParsePayload(mode, typeByte, body) == Some(m)
    ensures DecodeRegular(mode, [typeByte] + Frontend.Framed(body) + tail) == Got(m, tail)
  {
    PartsOfFrame(typeByte, body, tail);
    FramedLength(body, tail);
  }

  /** A whole message in front is decoded and nothing behind it is touched. */
  lemma WholeIsDecoded(mode: Mode, m: Message, tail: seq<Byte>)
    requires Expected(mode, m)
    ensures Decode(mode, Encoded(m) + tail) == Got(m, tail)
  {
    match m
    case Front(f) =>
      if mode.Initial? {
        InitialWhole(f, tail);
      } else {
        Frontend.RegularBack(f);
        RegularWhole(mode, Frontend.TypeByte(f), Frontend.Body(f), m, tail);
      }
    case Back(b) =>
      Backend.MessageBack(b);
      RegularWhole(mode, Backend.TypeByte(b), Backend.Body(b), m, tail);
  }

  lemma InitialPart(body: seq<Byte>, n: nat)
    requires |body| + 4 < 0x8000_0000 && n < |body| + 4
    ensures n < |Frontend.Framed(body)|
    ensures DecodeInitial(Frontend.Framed(body)[..n]) == NeedMore
  {
    FramedLength(body, []);
    var s := Frontend.Framed(body)[..n];
    if n >= 4 {
      assert Frontend.Framed(body) + [] == Frontend.Framed(body);
      assert Length(s) == Length(Frontend.Framed(body));
    }
  }

  lemma RegularPart(mode: Mode, typeByte: Byte, body: seq<Byte>, n: nat)
    requires |body| + 4 < 0x8000_0000 && n < |body| + 5
    ensures n < |[typeByte] + Frontend.Framed(body)|
    ensures DecodeRegular(mode, ([typeByte] + Frontend.Framed(body))[..n]) == NeedMore
  {
    var framed := Frontend.Framed(body);
    FramedLength(body, []);
    assert framed + [] == framed;
    var s := ([typeByte] + framed)[..n];
    if n >= 5 {
      assert s[1..] == framed[..n - 1];
      assert Length(s[1..]) == Length(framed);
    }
  }

  /** Nothing is decoded before the last byte of the message. */
  lemma PartIsNotDecoded(mode: Mode, m: Message, n: nat)
    requires Expected(mode, m) && n < |Encoded(m)|
    ensures Decode(mode, Encoded(m)[..n]) == NeedMore
  {
    match m
    case Front(f) =>
      FramedLength(Frontend.Body(f), []);
      if mode.Initial? {
        InitialPart(Frontend.Body(f), n);
      } else {
        RegularPart(mode, Frontend.TypeByte(f), Frontend.Body(f), n);
      }
    case Back(b) =>
      FramedLength(Backend.Body(b), []);
      RegularPart(mode, Backend.TypeByte(b), Backend.Body(b), n);
  }

  // ---------------------------------------------------------------------
  // A stream
  // ---------------------------------------------------------------------

  /** What a decoder holds: its mode and the bytes it did not use yet. */
  datatype State = State(mode: Mode, buffer: seq<Byte>)

  datatype Output = Output(messages: seq<Message>, state: State, failed: bool)

  function Behind(messages: seq<Message>, o: Output): Output {
    Output(messages + o.messages, o.state, o.failed)
  }

  /** Decodes until the buffer holds no whole message. */
  function Drain(s: State): Output
    decreases |s.buffer|
  {
    match Decode(s.mode, s.buffer)
    case NeedMore => Output([], s, false)
    case Error(rest) => Output([], State(s.mode, rest), true)
    case Got(m, rest) => Behind([m], Drain(State(NextMode(s.mode, m), rest)))
  }

  /** One chunk arrives after the other. */
  function Feed(s: State, chunks: seq<seq<Byte>>): Output
    decreases |chunks|
  {
    if chunks == [] then Output([], s, false)
    else
      var o := Drain(s.(buffer := s.buffer + chunks[0]));
      if o.failed then o else Behind(o.messages, Feed(o.state, chunks[1..]))
  }

  function Joined(chunks: seq<seq<Byte>>): seq<Byte> {
    if chunks == [] then [] else chunks[0] + Joined(chunks[1..])
  }

  function EncodedAll(ms: seq<Message>): seq<Byte> {
    if ms == [] then [] else Encoded(ms[0]) + EncodedAll(ms[1..])
  }

  function ModeAfter(mode: Mode, ms: seq<Message>): Mode
    decreases |ms|
  {
    if ms == [] then mode else ModeAfter(NextMode(mode, ms[0]), ms[1..])
  }

  /** Each message may come where it comes: initial requests, a startup, regular messages. */
  ghost predicate Sequenced(mode: Mode, ms: seq<Message>)
    decreases |ms|
  {
    ms == [] || (Expected(mode, ms[0]) && Sequenced(NextMode(mode, ms[0]), ms[1..]))
  }

  /** How many of the messages are complete within the first n bytes. */
  function CompleteIn(ms: seq<Message>, n: nat): (k: nat)
    ensures k <= |ms|
    decreases |ms|
  {
    if ms == [] || n < |Encoded(ms[0])| then 0 else 1 + CompleteIn(ms[1..], n - |Encoded(ms[0])|)
  }

  /** After the bytes `arrived`, with `later` still to come: exactly the complete messages are
      out, in order, and the buffer holds the start of what is left. */
  ghost predicate Delivered(mode: Mode, ms: seq<Message>, n: nat, later: seq<Byte>, o: Output) {
    var k := CompleteIn(ms, n);
    && !o.failed
    && o.messages == ms[..k]
    && o.state.mode == ModeAfter(mode, ms[..k])
    && o.state.buffer + later == EncodedAll(ms[k..])
    && CompleteIn(ms[k..], |o.state.buffer|) == 0
  }

  lemma DrainNothing(mode: Mode, ms: seq<Message>, arrived: seq<Byte>, later: seq<Byte>)
    requires Sequenced(mode, ms) && EncodedAll(ms) == arrived + later && CompleteIn(ms, |arrived|) == 0
    ensures Drain(State(mode, arrived)) == Output([], State(mode, arrived), false)
  {
    if ms == [] {
      assert arrived == [];
    } else {
      var n := |arrived|;
      PartIsNotDecoded(mode, ms[0], n);
      assert arrived == (arrived + later)[..n];
      assert arrived == Encoded(ms[0])[..n];
    }
  }

  /** The first message splits off the arrived bytes. */
  lemma FirstSplitsOff(e: seq<Byte>, rest: seq<Byte>, arrived: seq<Byte>, later: seq<Byte>)
    requires e + rest == arrived + later && |arrived| >= |e|
    ensures arrived == e + arrived[|e|..] && rest == arrived[|e|..] + later
  {
    assert arrived[..|e|] == (arrived + later)[..|e|] == e;
    assert rest == (e + rest)[|e|..] == (arrived + later)[|e|..];
  }

  lemma FirstAndMore<T>(ms: seq<T>, k: nat)
    requires k < |ms|
    ensures ms[..k + 1] == [ms[0]] + ms[1..][..k] && ms[..k + 1][1..] == ms[1..][..k] && ms[k + 1..] == ms[1..][k..]
  {
  }

  lemma DeliveredFirst(mode: Mode, ms: seq<Message>, n: nat, later: seq<Byte>, o: Output)
    requires ms != [] && n >= |Encoded(ms[0])|
    requires Delivered(NextMode(mode, ms[0]), ms[1..], n - |Encoded(ms[0])|, later, o)
    ensures Delivered(mode, ms, n, later, Output([ms[0]] + o.messages, o.state, o.failed))
  {
    var k := CompleteIn(ms[1..], n - |Encoded(ms[0])|);
    FirstAndMore(ms, k);
    assert CompleteIn(ms, n) == k + 1;
  }

  /** Draining gives exactly the messages complete in the bytes that arrived. */
  lemma {:induction false} DrainDelivers(mode: Mode, ms: seq<Message>, arrived: seq<Byte>, later: seq<Byte>)
    requires Sequenced(mode, ms) && EncodedAll(ms) == arrived + later
    ensures Delivered(mode, ms, |arrived|, later, Drain(State(mode, arrived)))
    decreases |ms|
  {
    if CompleteIn(ms, |arrived|) == 0 {
      DrainNothing(mode, ms, arrived, later);
      assert ms[..0] == [] && ms[0..] == ms;
    } else {
      var e, rest := Encoded(ms[0]), arrived[|Encoded(ms[0])|..];
      FirstSplitsOff(e, EncodedAll(ms[1..]), arrived, later);
      WholeIsDecoded(mode, ms[0], rest);
      DrainDelivers(NextMode(mode, ms[0]), ms[1..], rest, later);
      DeliveredFirst(mode, ms, |arrived|, later, Drain(State(NextMode(mode, ms[0]), rest)));
    }
  }

  // ---------------------------------------------------------------------
  // Chunks do not matter, for any bytes whatever
  // ---------------------------------------------------------------------

  function WithMore(d: Decoded, t: seq<Byte>): Decoded {
    match d
    case NeedMore => NeedMore
    case Error(rest) => Error(rest + t)
    case Got(m, rest) => Got(m, rest + t)
  }

  lemma InitialIgnoresMore(s: seq<Byte>, t: seq<Byte>)
    requires DecodeInitial(s) != NeedMore
    ensures DecodeInitial(s + t) == WithMore(DecodeInitial(s), t)
  {
    assert Length(s + t) == Length(s);
    if 4 <= Length(s) {
      assert (s + t)[..Length(s)] == s[..Length(s)] && (s + t)[Length(s)..] == s[Length(s)..] + t;
    }
  }

  lemma RegularIgnoresMore(mode: Mode, s: seq<Byte>, t: seq<Byte>)
    requires DecodeRegular(mode, s) != NeedMore
    ensures DecodeRegular(mode, s + t) == WithMore(DecodeRegular(mode, s), t)
  {
    assert (s + t)[1..] == s[1..] + t;
    assert Length((s + t)[1..]) == Length(s[1..]);
    if 4 <= Length(s[1..]) {
      var total := 1 + Length(s[1..]);
      assert (s + t)[5..total] == s[5..total] && (s + t)[total..] == s[total..] + t;
    }
  }

  lemma DecodeIgnoresMore(mode: Mode, s: seq<Byte>, t: seq<Byte>)
    requires Decode(mode, s) != NeedMore
    ensures Decode(mode, s + t) == WithMore(Decode(mode, s), t)
  {
    if mode.Initial? {
      InitialIgnoresMore(s, t);
    } else {
      RegularIgnoresMore(mode, s, t);
    }
  }

  lemma BehindBehind(a: seq<Message>, b: seq<Message>, o: Output)
    ensures Behind(a, Behind(b, o)) == Behind(a + b, o)
    ensures Behind([], o) == o
  {
    assert a + (b + o.messages) == a + b + o.messages;
  }

  /** What comes of `first` once the bytes `t` follow. */
  function Continued(first: Output, t: seq<Byte>): Output {
    var more := State(first.state.mode, first.state.buffer + t);
    if first.failed then Output(first.messages, more, true) else Behind(first.messages, Drain(more))
  }

  lemma ContinuedBehind(m: Message, first: Output, t: seq<Byte>)
    ensures Continued(Behind([m], first), t) == Behind([m], Continued(first, t))
  {
    if !first.failed {
      BehindBehind([m], first.messages, Drain(State(first.state.mode, first.state.buffer + t)));
    }
  }

  /** Draining, then more bytes, then draining, is draining once. */
  lemma {:induction false} DrainInTwoRounds(mode: Mode, s: seq<Byte>, t: seq<Byte>)
    ensures Drain(State(mode, s + t)) == Continued(Drain(State(mode, s)), t)
    decreases |s|
  {
    match Decode(mode, s)
    case NeedMore =>
      BehindBehind([], [], Drain(State(mode, s + t)));
    case Error(rest) => DecodeIgnoresMore(mode, s, t);
    case Got(m, rest) =>
      DecodeIgnoresMore(mode, s, t);
      DrainInTwoRounds(NextMode(mode, m), rest, t);
      ContinuedBehind(m, Drain(State(NextMode(mode, m), rest)), t);
  }

  /** The same up to the buffer of a decoder that failed. */
  predicate SameOutput(a: Output, b: Output) {
    a.messages == b.messages && a.failed == b.failed && a.state.mode == b.state.mode && (!a.failed ==> a.state == b.state)
  }

  lemma {:induction false} DrainedStaysDrained(mode: Mode, s: seq<Byte>)
    ensures var o := Drain(State(mode, s)); !o.failed ==> Decode(o.state.mode, o.state.buffer) == NeedMore
    decreases |s|
  {
    match Decode(mode, s)
    case NeedMore =>
    case Error(rest) =>
    case Got(m, rest) => DrainedStaysDrained(NextMode(mode, m), rest);
  }

  /** Every stream of bytes, well-formed or not, decodes the same in any chunks. */
  lemma {:induction false} ChunksDoNotMatter(s: State, chunks: seq<seq<Byte>>)
    requires Decode(s.mode, s.buffer) == NeedMore
    ensures SameOutput(Feed(s, chunks), Drain(State(s.mode, s.buffer + Joined(chunks))))
    decreases |chunks|
  {
    if chunks == [] {
      assert s.buffer + Joined(chunks) == s.buffer;
    } else {
      var first, later := s.buffer + chunks[0], Joined(chunks[1..]);
      assert s.buffer + Joined(chunks) == first + later;
      DrainInTwoRounds(s.mode, first, later);
      DrainedStaysDrained(s.mode, first);
      var o := Drain(State(s.mode, first));
      if !o.failed {
        ChunksDoNotMatter(o.state, chunks[1..]);
      }
    }
  }

  // ---------------------------------------------------------------------
  // Main results
  // ---------------------------------------------------------------------

  /** However a prefix of the stream is cut into chunks, what comes out is exactly the
      messages whose last byte has arrived. */
  lemma NothingEarlyNothingLate(mode: Mode, ms: seq<Message>, chunks: seq<seq<Byte>>, later: seq<Byte>)
    requires Sequenced(mode, ms) && EncodedAll(ms) == Joined(chunks) + later
    ensures Delivered(mode, ms, |Joined(chunks)|, later, Feed(State(mode, []), chunks))
  {
    assert [] + Joined(chunks) == Joined(chunks);
    ChunksDoNotMatter(State(mode, []), chunks);
    DrainDelivers(mode, ms, Joined(chunks), later);
  }

  lemma {:induction false} AllComplete(ms: seq<Message>)
    ensures CompleteIn(ms, |EncodedAll(ms)|) == |ms|
  {
    if ms != [] {
      AllComplete(ms[1..]);
    }
  }

  /** However the whole stream is cut, exactly the messages come out, in order, and the buffer
      is empty again. */
  lemma StreamRoundTrip(mode: Mode, ms: seq<Message>, chunks: seq<seq<Byte>>)
    requires Sequenced(mode, ms) && Joined(chunks) == EncodedAll(ms)
    ensures Feed(State(mode, []), chunks) == Output(ms, State(ModeAfter(mode, ms), []), false)
  {
    assert Joined(chunks) + [] == Joined(chunks);
    NothingEarlyNothingLate(mode, ms, chunks, []);
    AllComplete(ms);
    assert ms[..|ms|] == ms && ms[|ms|..] == [];
    var buffer := Feed(State(mode, []), chunks).state.buffer;
    assert buffer + [] == buffer;
  }

  // ---------------------------------------------------------------------
  // A client's connection from its first byte
  // ---------------------------------------------------------------------

  /** A request that may come before the startup message, any number of times. */
  ghost predicate IsRequest(m: Message) {
    && m.Front? && (m.front.SslRequest? || m.front.GssEncRequest? || m.front.CancelRequest?)
    && Frontend.WellFormed(m.front)
  }

  ghost predicate IsStartup(m: Message) {
    m.Front? && m.front.Startup? && Frontend.WellFormed(m.front)
  }

  ghost predicate IsRegular(m: Message) {
    && m.Front? && Frontend.WellFormed(m.front)
    && !m.front.SslRequest? && !m.front.GssEncRequest? && !m.front.CancelRequest? && !m.front.Startup?
  }

  lemma {:induction false} RegularStaysRegular(ms: seq<Message>)
    requires forall m :: m in ms ==> IsRegular(m)
    ensures Sequenced(Regular, ms) && ModeAfter(Regular, ms) == Regular
    decreases |ms|
  {
    if ms != [] {
      assert ms[0] in ms;
      RegularStaysRegular(ms[1..]);
    }
  }

  lemma {:induction false} RequestsComeFirst(requests: seq<Message>, rest: seq<Message>)
    requires (forall m :: m in requests ==> IsRequest(m)) && Sequenced(Initial, rest)
    ensures Sequenced(Initial, requests + rest)
    ensures ModeAfter(Initial, requests + rest) == ModeAfter(Initial, rest)
    decreases |requests|
  {
    if requests == [] {
      assert requests + rest == rest;
    } else {
      assert requests[0] in requests;
      assert (requests + rest)[1..] == requests[1..] + rest;
      RequestsComeFirst(requests[1..], rest);
    }
  }

  lemma StartupThenRegular(startup: Message, regular: seq<Message>)
    requires IsStartup(startup) && forall m :: m in regular ==> IsRegular(m)
    ensures Sequenced(Initial, [startup] + regular) && ModeAfter(Initial, [startup] + regular) == Regular
  {
    RegularStaysRegular(regular);
    assert ([startup] + regular)[1..] == regular;
  }

  /** However the bytes of a client are cut: any number of SSL, GSS and cancel requests, one
      startup message and then regular messages come out one by one, in order, nothing is left,
      and the decoder has left startup mode. */
  lemma ConnectionIsDecoded(requests: seq<Message>, startup: Message, regular: seq<Message>, chunks: seq<seq<Byte>>)
    requires (forall m :: m in requests ==> IsRequest(m)) && IsStartup(startup)
    requires forall m :: m in regular ==> IsRegular(m)
    requires Joined(chunks) == EncodedAll(requests + ([startup] + regular))
    ensures Feed(State(Initial, []), chunks) == Output(requests + ([startup] + regular), State(Regular, []), false)
  {
    StartupThenRegular(startup, regular);
    RequestsComeFirst(requests, [startup] + regular);
    StreamRoundTrip(Initial, requests + ([startup] + regular), chunks);
  }

  /** Requests alone do not end startup mode. */
  lemma RequestsAreDecoded(requests: seq<Message>, chunks: seq<seq<Byte>>)
    requires (forall m :: m in requests ==> IsRequest(m)) && Joined(chunks) == EncodedAll(requests)
    ensures Feed(State(Initial, []), chunks) == Output(requests, State(Initial, []), false)
  {
    RequestsComeFirst(requests, []);
    assert requests + [] == requests;
    StreamRoundTrip(Initial, requests, chunks);
  }

  /** The messages of a backend are decoded one by one from the first byte. */
  lemma BackendIsDecoded(ms: seq<Message>, chunks: seq<seq<Byte>>)
    requires (forall m :: m in ms ==> m.Back? && Backend.WellFormed(m.back)) && Joined(chunks) == EncodedAll(ms)
    ensures Feed(State(Server, []), chunks) == Output(ms, State(Server, []), false)
  {
    ServerStaysServer(ms);
    StreamRoundTrip(Server, ms, chunks);
  }

  lemma {:induction false} ServerStaysServer(ms: seq<Message>)
    requires forall m :: m in ms ==> m.Back? && Backend.WellFormed(m.back)
    ensures Sequenced(Server, ms) && ModeAfter(Server, ms) == Server
    decreases |ms|
  {
    if ms != [] {
      assert ms[0] in ms;
      ServerStaysServer(ms[1..]);
    }
  }
}
