/** One backend connection seen from both ends, with the messages in flight. */
module Connection {
  import opened Bytes
  import opened Options
  import opened Lru
  import opened Server

  /** What a statement is: the text (UTF-8) and the parameter types. */
  datatype Stmt = Stmt(query: seq<Byte>, paramTypes: seq<Oid>)

  /** Who caused a Parse or a Close: the client (its messages are numbered) or the proxy
      itself. No decision reads it; it says in the theorems whose reply is whose. */
  datatype Origin = Client(id: nat) | Injected

  datatype Target = Bind | Describe

  /** A message on the wire to the backend. `wanted` is the statement the client last
      parsed under the name it used, and like `origin` and `id` it is read by no decision. */
  datatype Msg =
    | Parse(name: Name, stmt: Stmt, origin: Origin)
    | Use(target: Target, name: Name, wanted: Option<Stmt>, id: nat)
    | CloseStatement(name: Name)
    | ClosePortal(id: nat)
    | Query(discardAll: bool, id: nat)
    | Sync(id: nat)
    | Other(id: nat)

  /** The backend's answer to one message. */
  datatype Answer =
    | ParseComplete(name: Name, origin: Origin)
    | CloseComplete(origin: Origin)
    | Ready(id: nat)
    | Result(id: nat)
    | Error

  function AnswerTo(m: Msg): Answer {
    match m
    case Parse(n, _, o) => ParseComplete(n, o)
    case CloseStatement(_) => CloseComplete(Injected)
    case ClosePortal(id) => CloseComplete(Client(id))
    case Query(_, id) => Ready(id)
    case Sync(id) => Ready(id)
    case Use(_, _, _, id) => Result(id)
    case Other(id) => Result(id)
  }

  // ---------------------------------------------------------------------
  // The backend (extended query protocol)
  // ---------------------------------------------------------------------

  type Statements = map<Name, Stmt>

  /** The backend takes `m` without an error: a named Parse needs a fresh name,
      Bind and Describe need a known one. */
  predicate Accepts(p: Statements, m: Msg) {
    match m
    case Parse(n, _, _) => n !in p
    case Use(_, n, _, _) => n in p
    case _ => true
  }

  function Apply(p: Statements, m: Msg): Statements {
    match m
    case Parse(n, s, _) => p[n := s]
    case CloseStatement(n) => p - {n}
    case Query(true, _) => map[]
    case _ => p
  }

  function Replay(p: Statements, ms: seq<Msg>): Statements
    decreases |ms|
  {
    if ms == [] then p else Replay(Apply(p, ms[0]), ms[1..])
  }

  ghost predicate Fits(p: Statements, max: nat) {
    max > 0 ==> |p| <= max
  }

  /** `m` is a message the proxy may send: its Parse hits no existing name, and what it
      rewrote to a canonical name is there. */
  ghost predicate Sound(p: Statements, m: Msg) {
    match m
    case Parse(n, _, _) => n !in p
    case Use(_, n, wanted, _) => wanted.Some? ==> n in p
    case _ => true
  }

  /** Every message in flight will be sound when its turn comes, and the backend
      never holds more than `max` statements on the way. */
  ghost predicate WellSent(p: Statements, ms: seq<Msg>, max: nat)
    decreases |ms|
  {
    Fits(p, max) && (ms != [] ==> Sound(p, ms[0]) && WellSent(Apply(p, ms[0]), ms[1..], max))
  }

  lemma {:induction false} SendOne(p: Statements, ms: seq<Msg>, m: Msg, max: nat)
    requires WellSent(p, ms, max)
    ensures Replay(p, ms + [m]) == Apply(Replay(p, ms), m)
    ensures Fits(Replay(p, ms), max)
    ensures Sound(Replay(p, ms), m) && Fits(Apply(Replay(p, ms), m), max) ==> WellSent(p, ms + [m], max)
    decreases |ms|
  {
    if ms == [] {
      assert ms + [m] == [m] && [m][1..] == [];
    } else {
      SendOne(Apply(p, ms[0]), ms[1..], m, max);
      assert (ms + [m])[1..] == ms[1..] + [m];
    }
  }

  // ---------------------------------------------------------------------
  // The connection
  // ---------------------------------------------------------------------

  /** `skipping`: the backend answered an error and drops everything up to a Sync. */
  datatype Conn = Conn(tracker: Tracker, backend: Statements, skipping: bool, sent: seq<Msg>, replies: seq<Answer>)

  const NEW := Conn(EMPTY, map[], false, [], [])

  function Put(c: Conn, m: Msg): Conn {
    c.(sent := c.sent + [m])
  }

  function PutEviction(c: Conn, eviction: Option<Name>): Conn {
    match eviction
    case None => c
    case Some(e) => Put(c, CloseStatement(e))
  }

  /** A client Parse under its canonical name; true when it is answered by the proxy. */
  function SendParse(c: Conn, max: nat, canon: Name, stmt: Stmt, origin: Origin): (Conn, bool) {
    match c.tracker.NoteClientParse(max, canon)
    case (t, Synthesize) => (c.(tracker := t), true)
    case (t, ForwardParse(eviction)) =>
      (Put(PutEviction(c.(tracker := t), eviction), Parse(canon, stmt, origin)), false)
  }

  /** Make sure `canon` is prepared, injecting its Parse when it is not. */
  function EnsurePrepared(c: Conn, max: nat, canon: Name, stmt: Stmt): Conn {
    match c.tracker.NoteReprepare(max, canon)
    case (t, AlreadyPrepared) => c.(tracker := t)
    case (t, Prepare(eviction)) =>
      Put(PutEviction(c.(tracker := t), eviction), Parse(canon, stmt, Injected))
  }

  function SendPortalClose(c: Conn, id: nat): Conn {
    Put(c.(tracker := c.tracker.NotePortalClose()), ClosePortal(id))
  }

  /** A simple query; `DISCARD ALL` clears the cache when it is sent. */
  function SendQuery(c: Conn, discardAll: bool, id: nat): Conn {
    Put(if discardAll then c.(tracker := c.tracker.DiscardAll()) else c, Query(discardAll, id))
  }

  /** The backend handles the first message without an error, or drops it while skipping;
      a Sync ends the skipping. */
  function Exec(c: Conn): Conn
    requires c.sent != []
  {
    var m := c.sent[0];
    var rest := c.(sent := c.sent[1..]);
    if c.skipping && !m.Sync? then rest
    else rest.(backend := Apply(c.backend, m), skipping := false, replies := c.replies + [AnswerTo(m)])
  }

  /** The backend rejects the first message. A failed simple query or Sync is answered by
      the error and its own Ready; any other message starts the skipping. */
  function Fail(c: Conn): Conn
    requires c.sent != []
  {
    var m := c.sent[0];
    var ends := m.Query? || m.Sync?;
    c.(sent := c.sent[1..],
       skipping := !ends,
       replies := c.replies + (if ends then [Error, AnswerTo(m)] else [Error]))
  }

  /** The proxy reads one reply; the second result is what it passes to the client. */
  function Read(c: Conn): (Conn, Option<Answer>)
    requires c.replies != []
  {
    var a := c.replies[0];
    var rest := c.(replies := c.replies[1..]);
    match a
    case ParseComplete(_, _) =>
      var (t, r) := c.tracker.NextParseReply();
      (rest.(tracker := t), if r == Forward then Some(a) else None)
    case CloseComplete(_) =>
      var (t, r) := c.tracker.NextCloseReply();
      (rest.(tracker := t), if r == Forward then Some(a) else None)
    case Error => (rest.(tracker := c.tracker.RollBackAfterError()), Some(a))
    case _ => (rest, Some(a))
  }

  // ---------------------------------------------------------------------
  // The reply stream still to come
  // ---------------------------------------------------------------------

  function Answers(ms: seq<Msg>): seq<Answer> {
    if ms == [] then [] else [AnswerTo(ms[0])] + Answers(ms[1..])
  }

  /** Every reply not read yet, in the order it will be read, if the backend accepts
      everything in flight. */
  function Due(c: Conn): seq<Answer> {
    c.replies + Answers(c.sent)
  }

  function Expect(o: Origin): Reply {
    if o.Client? then Forward else Suppress
  }

  function ParseDue(a: Answer): seq<ParseReply> {
    if a.ParseComplete? then [ParseReply(Expect(a.origin), a.name)] else []
  }

  function CloseDue(a: Answer): seq<Reply> {
    if a.CloseComplete? then [Expect(a.origin)] else []
  }

  function ClientDue(a: Answer): seq<Answer> {
    match a
    case ParseComplete(_, Injected) => []
    case CloseComplete(Injected) => []
    case Error => []
    case _ => [a]
  }

  function ParsesDue(s: seq<Answer>): seq<ParseReply> {
    if s == [] then [] else ParseDue(s[0]) + ParsesDue(s[1..])
  }

  function ClosesDue(s: seq<Answer>): seq<Reply> {
    if s == [] then [] else CloseDue(s[0]) + ClosesDue(s[1..])
  }

  /** The replies that answer messages the client sent. */
  function ForClient(s: seq<Answer>): seq<Answer> {
    if s == [] then [] else ClientDue(s[0]) + ForClient(s[1..])
  }

  lemma {:induction false} ParsesDueAppend(s: seq<Answer>, a: Answer)
    ensures ParsesDue(s + [a]) == ParsesDue(s) + ParseDue(a)
  {
    if s == [] {
      assert s + [a] == [a] && [a][1..] == [];
    } else {
      ParsesDueAppend(s[1..], a);
      assert (s + [a])[1..] == s[1..] + [a];
    }
  }

  lemma {:induction false} ClosesDueAppend(s: seq<Answer>, a: Answer)
    ensures ClosesDue(s + [a]) == ClosesDue(s) + CloseDue(a)
  {
    if s == [] {
      assert s + [a] == [a] && [a][1..] == [];
    } else {
      ClosesDueAppend(s[1..], a);
      assert (s + [a])[1..] == s[1..] + [a];
    }
  }

  lemma {:induction false} ForClientAppend(s: seq<Answer>, a: Answer)
    ensures ForClient(s + [a]) == ForClient(s) + ClientDue(a)
  {
    if s == [] {
      assert s + [a] == [a] && [a][1..] == [];
    } else {
      var first, rest, last := ClientDue(s[0]), ForClient(s[1..]), ClientDue(a);
      calc {
        ForClient(s + [a]);
        { assert (s + [a])[1..] == s[1..] + [a]; }
        first + ForClient(s[1..] + [a]);
        { ForClientAppend(s[1..], a); }
        first + (rest + last);
        (first + rest) + last;
        ForClient(s) + last;
      }
    }
  }

  lemma {:induction false} AnswersAppend(ms: seq<Msg>, m: Msg)
    ensures Answers(ms + [m]) == Answers(ms) + [AnswerTo(m)]
  {
    if ms == [] {
      assert ms + [m] == [m] && [m][1..] == [];
    } else {
      AnswersAppend(ms[1..], m);
      assert (ms + [m])[1..] == ms[1..] + [m];
    }
  }

  lemma PutAddsDue(c: Conn, m: Msg)
    ensures Due(Put(c, m)) == Due(c) + [AnswerTo(m)]
    ensures ParsesDue(Due(Put(c, m))) == ParsesDue(Due(c)) + ParseDue(AnswerTo(m))
    ensures ClosesDue(Due(Put(c, m))) == ClosesDue(Due(c)) + CloseDue(AnswerTo(m))
    ensures ForClient(Due(Put(c, m))) == ForClient(Due(c)) + ClientDue(AnswerTo(m))
  {
    AnswersAppend(c.sent, m);
    assert Due(Put(c, m)) == Due(c) + [AnswerTo(m)];
    ParsesDueAppend(Due(c), AnswerTo(m));
    ClosesDueAppend(Due(c), AnswerTo(m));
    ForClientAppend(Due(c), AnswerTo(m));
  }

  // ---------------------------------------------------------------------
  // Invariants of an error-free connection
  // ---------------------------------------------------------------------

  /** Replaying the messages in flight gives exactly the cache, every message will be
      sound when its turn comes, and the backend stays within the cap throughout. */
  ghost predicate Simulates(c: Conn, max: nat) {
    && !c.skipping
    && Error !in c.replies
    && WithinCap(c.tracker.order, max)
    && WellSent(c.backend, c.sent, max)
    && Replay(c.backend, c.sent).Keys == Elems(c.tracker.order)
  }

  /** The FIFOs hold one entry per reply to come, in order, with the right disposition. */
  ghost predicate Aligned(c: Conn) {
    && c.tracker.parses == ParsesDue(Due(c))
    && c.tracker.closes == ClosesDue(Due(c))
  }

  /** Sending one message whose effect on the cache is already noted in `t`. */
  lemma PutKeepsSimulation(c: Conn, max: nat, t: Tracker, m: Msg)
    requires Simulates(c, max)
    requires Sound(Replay(c.backend, c.sent), m)
    requires WithinCap(t.order, max)
    requires Apply(Replay(c.backend, c.sent), m).Keys == Elems(t.order)
    ensures Simulates(Put(c, m).(tracker := t), max)
  {
    var p := Apply(Replay(c.backend, c.sent), m);
    ElemsCardinality(t.order);
    assert |p| == |p.Keys|;
    SendOne(c.backend, c.sent, m, max);
  }

  lemma EvictionKeepsSimulation(c: Conn, max: nat, e: Name)
    requires Simulates(c, max) && e in c.tracker.order
    ensures Simulates(Put(c, CloseStatement(e)).(tracker := c.tracker.(order := Without(c.tracker.order, e))), max)
  {
    WithoutKeepsNoDup(c.tracker.order, e);
    PutKeepsSimulation(c, max, c.tracker.(order := Without(c.tracker.order, e)), CloseStatement(e));
  }

  lemma EvictThenParse(c: Conn, max: nat, t: Tracker, e: Name, m: Msg)
    requires Simulates(c, max) && e in c.tracker.order
    requires m.Parse? && m.name !in c.tracker.order
    requires WithinCap(t.order, max) && Elems(t.order) == Elems(c.tracker.order) - {e} + {m.name}
    ensures Simulates(Put(Put(c.(tracker := t), CloseStatement(e)), m), max)
  {
    EvictionKeepsSimulation(c, max, e);
    var mid := Put(c, CloseStatement(e)).(tracker := c.tracker.(order := Without(c.tracker.order, e)));
    assert Elems(mid.tracker.order) == Elems(c.tracker.order) - {e};
    PutKeepsSimulation(mid, max, t, m);
  }

  /** Sending a Parse that is not cached, evicting first when the cache is full. */
  lemma RecordKeepsSimulation(c: Conn, max: nat, canon: Name, stmt: Stmt, reply: Reply, origin: Origin)
    requires Simulates(c, max) && canon !in c.tracker.order
    ensures var (t, eviction) := c.tracker.RecordPrepare(max, canon, reply);
            Simulates(Put(PutEviction(c.(tracker := t), eviction), Parse(canon, stmt, origin)), max)
  {
    var (t, eviction) := c.tracker.RecordPrepare(max, canon, reply);
    NotesGrowTogether(c.tracker, max, canon, reply);
    match eviction
    case None =>
      PutKeepsSimulation(c, max, t, Parse(canon, stmt, origin));
    case Some(e) =>
      EvictThenParse(c, max, t, e, Parse(canon, stmt, origin));
  }

  lemma EvictionAddsDue(c: Conn, eviction: Option<Name>)
    ensures var c' := PutEviction(c, eviction);
            && ParsesDue(Due(c')) == ParsesDue(Due(c))
            && ClosesDue(Due(c')) == ClosesDue(Due(c)) + (if eviction.Some? then [Suppress] else [])
            && ForClient(Due(c')) == ForClient(Due(c))
  {
    if eviction.Some? {
      PutAddsDue(c, CloseStatement(eviction.value));
    }
  }

  lemma RecordKeepsAligned(c: Conn, max: nat, canon: Name, stmt: Stmt, origin: Origin)
    requires Aligned(c)
    ensures var (t, eviction) := c.tracker.RecordPrepare(max, canon, Expect(origin));
            var c' := Put(PutEviction(c.(tracker := t), eviction), Parse(canon, stmt, origin));
            Aligned(c') && ForClient(Due(c')) == ForClient(Due(c)) + ClientDue(ParseComplete(canon, origin))
  {
    var (t, eviction) := c.tracker.RecordPrepare(max, canon, Expect(origin));
    var c1 := c.(tracker := t);
    EvictionAddsDue(c1, eviction);
    PutAddsDue(PutEviction(c1, eviction), Parse(canon, stmt, origin));
  }

  lemma SendParseKeeps(c: Conn, max: nat, canon: Name, stmt: Stmt, id: nat)
    requires Aligned(c)
    ensures var (c', synthesized) := SendParse(c, max, canon, stmt, Client(id));
            && Aligned(c')
            && ForClient(Due(c')) == ForClient(Due(c)) + (if synthesized then [] else [ParseComplete(canon, Client(id))])
            && (Simulates(c, max) ==> Simulates(c', max) && canon in c'.tracker.order)
  {
    if canon in c.tracker.order {
      TouchKeepsSimulation(c, max, canon);
    } else {
      RecordKeepsAligned(c, max, canon, stmt, Client(id));
      if Simulates(c, max) {
        RecordKeepsSimulation(c, max, canon, stmt, Forward, Client(id));
      }
    }
  }

  lemma TouchKeepsSimulation(c: Conn, max: nat, canon: Name)
    requires canon in c.tracker.order
    ensures Simulates(c, max) ==> Simulates(c.(tracker := c.tracker.(order := Used(c.tracker.order, max, canon).0)), max)
  {
    if Simulates(c, max) {
      UsedKeepsCap(c.tracker.order, max, canon);
      assert Elems(Used(c.tracker.order, max, canon).0) == Elems(c.tracker.order);
    }
  }

  lemma EnsurePreparedKeeps(c: Conn, max: nat, canon: Name, stmt: Stmt)
    requires Aligned(c)
    ensures var c' := EnsurePrepared(c, max, canon, stmt);
            && Aligned(c')
            && ForClient(Due(c')) == ForClient(Due(c))
            && (Simulates(c, max) ==> Simulates(c', max) && canon in Replay(c'.backend, c'.sent))
  {
    if canon in c.tracker.order {
      TouchKeepsSimulation(c, max, canon);
    } else {
      RecordKeepsAligned(c, max, canon, stmt, Injected);
      if Simulates(c, max) {
        RecordKeepsSimulation(c, max, canon, stmt, Suppress, Injected);
      }
    }
    if Simulates(c, max) {
      var c' := EnsurePrepared(c, max, canon, stmt);
      assert canon in c'.tracker.order;
      assert canon in Elems(c'.tracker.order);
    }
  }

  /** Bind or Describe, a Sync, or anything else the tracker does not follow. */
  lemma PutPlainKeeps(c: Conn, max: nat, m: Msg)
    requires Aligned(c)
    requires m.Use? || m.Sync? || m.Other? || (m.Query? && !m.discardAll)
    ensures Aligned(Put(c, m))
    ensures ForClient(Due(Put(c, m))) == ForClient(Due(c)) + ClientDue(AnswerTo(m))
    ensures Simulates(c, max) && Sound(Replay(c.backend, c.sent), m) ==> Simulates(Put(c, m), max)
  {
    PutAddsDue(c, m);
    if Simulates(c, max) && Sound(Replay(c.backend, c.sent), m) {
      PutKeepsSimulation(c, max, c.tracker, m);
    }
  }

  lemma SendPortalCloseKeeps(c: Conn, max: nat, id: nat)
    requires Aligned(c)
    ensures var c' := SendPortalClose(c, id);
            && Aligned(c')
            && ForClient(Due(c')) == ForClient(Due(c)) + [CloseComplete(Client(id))]
            && (Simulates(c, max) ==> Simulates(c', max))
  {
    PutAddsDue(c.(tracker := c.tracker.NotePortalClose()), ClosePortal(id));
    if Simulates(c, max) {
      PutKeepsSimulation(c, max, c.tracker.NotePortalClose(), ClosePortal(id));
    }
  }

  lemma SendQueryKeeps(c: Conn, max: nat, discardAll: bool, id: nat)
    requires Aligned(c)
    ensures var c' := SendQuery(c, discardAll, id);
            && Aligned(c')
            && ForClient(Due(c')) == ForClient(Due(c)) + [Ready(id)]
            && (Simulates(c, max) ==> Simulates(c', max))
  {
    var m := Query(discardAll, id);
    var t := if discardAll then c.tracker.DiscardAll() else c.tracker;
    PutAddsDue(c.(tracker := t), m);
    if Simulates(c, max) {
      PutKeepsSimulation(c, max, t, m);
    }
  }

  /** The backend working off a message changes neither the reply stream nor the
      simulation; the message it takes is one it accepts. */
  lemma ExecKeeps(c: Conn, max: nat)
    requires c.sent != []
    ensures !c.skipping ==> Due(Exec(c)) == Due(c) && (Aligned(c) ==> Aligned(Exec(c)))
    ensures Simulates(c, max) ==> Simulates(Exec(c), max) && Sound(c.backend, c.sent[0]) && Fits(c.backend, max)
  {
    if !c.skipping {
      assert Due(Exec(c)) == c.replies + ([AnswerTo(c.sent[0])] + Answers(c.sent[1..]));
    }
  }

  /** The client receives the reply exactly when it answers a message of the client. */
  lemma ReadFilters(c: Conn, max: nat)
    requires Aligned(c) && c.replies != [] && c.replies[0] != Error
    ensures var (c', delivered) := Read(c);
            && Aligned(c')
            && Due(c') == Due(c)[1..]
            && (if delivered.Some? then [delivered.value] else []) == ClientDue(c.replies[0])
            && ForClient(Due(c)) == ClientDue(c.replies[0]) + ForClient(Due(c'))
            && (Simulates(c, max) ==> Simulates(c', max))
  {
    var (c', delivered) := Read(c);
    assert Due(c) == [c.replies[0]] + Due(c');
    assert Due(c)[1..] == Due(c');
    var a := c.replies[0];
    assert ParsesDue(Due(c)) == ParseDue(a) + ParsesDue(Due(c'));
    assert ClosesDue(Due(c)) == CloseDue(a) + ClosesDue(Due(c'));
    match a
    case ParseComplete(_, o) => assert c.tracker.parses[0].reply == Expect(o);
    case CloseComplete(o) => assert c.tracker.closes[0] == Expect(o);
    case _ =>
  }

  /** Session mode forwards DISCARD ALL without clearing the cache: the simulation survives
      it exactly when the cache is empty. */
  lemma UntrackedDiscardBreaks(c: Conn, max: nat, id: nat)
    requires Simulates(c, max)
    ensures Simulates(Put(c, Query(true, id)), max) <==> c.tracker.order == []
  {
    SendOne(c.backend, c.sent, Query(true, id), max);
    if c.tracker.order != [] {
      assert c.tracker.order[0] in Elems(c.tracker.order);
    } else {
      PutKeepsSimulation(c, max, c.tracker, Query(true, id));
    }
  }
}
