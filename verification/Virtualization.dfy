/** Prepared-statement virtualisation as a step system: any number of clients over any number of
    backend connections, errors and cancelled clients included, every message in flight
    explicit. */
module Virtualization {
  import opened Options
  import opened Lru
  import opened Server
  import opened Connection
  import opened Names
  import opened Rewriting
  import Backend

  datatype Config = Config(canonOf: Stmt -> Name, max: nat)

  /** One client. `last` is the private name-to-statement map the client believes it owns:
      the statement it last parsed under each name. `asked` are the replies owed for the
      messages that went to a backend, `told` the replies it received from one. The counters
      are its Parse and Close messages and those that end with a ReadyForQuery, and for each
      kind the replies that the proxy made up itself. */
  datatype Session = Session(
    names: NameMap, last: map<Name, Stmt>, held: Option<nat>, next: nat,
    asked: seq<Answer>, told: seq<Answer>, parses: nat, synthetic: nat, closes: nat, syntheticCloses: nat,
    queries: nat, syntheticReadies: nat)

  const NEW_SESSION := Session(map[], map[], None, 0, [], [], 0, 0, 0, 0, 0, 0)

  /** `ran` records, for every Bind or Describe of a parsed name that a backend executed,
      the statement the client meant and the statement the backend used; `parsed` is
      every statement a client ever parsed. */
  datatype World = World(
    sessions: map<nat, Session>, store: Store, conns: map<nat, Conn>,
    ran: seq<(Stmt, Stmt)>, parsed: set<Stmt>)

  const INITIAL := World(map[], map[], map[], [], {})

  datatype Step =
    | Connect(k: nat)                    // a fresh backend connection
    | Discard(k: nat)                    // an idle connection is closed
    | Arrive(i: nat)
    | Leave(i: nat)                      // an idle client disconnects
    | Checkout(i: nat, k: nat)
    | Checkin(i: nat)                    // released with nothing in flight
    | Abandon(i: nat)                    // the client goes away; the reset swallows the replies left
    | GiveUp(i: nat)                     // the client and its connection are dropped
    | Send(i: nat, msg: ClientMsg)
    | Absorbs(i: nat, a: Absorbed, status: Backend.TransactionStatus)
    | Exec(k: nat)                       // the backend takes one message without an error
    | Fail(k: nat)                       // the backend answers one message with an error
    | Read(i: nat)                       // the proxy reads one reply

  predicate Holds(w: World, i: nat) {
    i in w.sessions && w.sessions[i].held.Some? && w.sessions[i].held.value in w.conns
  }

  function Held(w: World, i: nat): Conn
    requires Holds(w, i)
  {
    w.conns[w.sessions[i].held.value]
  }

  ghost predicate Free(w: World, k: nat) {
    k in w.conns && forall i :: i in w.sessions ==> w.sessions[i].held != Some(k)
  }

  function Wanted(s: Session, msg: ClientMsg): Option<Stmt> {
    if msg.CUse? && msg.name in s.last then Some(s.last[msg.name]) else None
  }

  function Sends(cfg: Config, w: World, i: nat, msg: ClientMsg): Outcome
    requires Holds(w, i)
  {
    var s := w.sessions[i];
    Outbound(cfg.canonOf, cfg.max, s.names, w.store, Held(w, i), msg, Wanted(s, msg), s.next)
  }

  ghost predicate Enabled(cfg: Config, w: World, step: Step) {
    match step
    case Connect(k) => k !in w.conns
    case Discard(k) => Free(w, k)
    case Arrive(i) => i !in w.sessions
    case Leave(i) => i in w.sessions && w.sessions[i].held.None?
    case Checkout(i, k) => i in w.sessions && w.sessions[i].held.None? && Free(w, k)
    case Checkin(i) => Holds(w, i) && Due(Held(w, i)) == [] && !Held(w, i).skipping
    case Abandon(i) =>
      && Holds(w, i) && Held(w, i).sent == [] && !Held(w, i).skipping
      && forall a :: a in Held(w, i).replies ==> !a.Ready? && !a.Error?
    case GiveUp(i) => Holds(w, i)
    case Send(i, msg) => Holds(w, i)
    case Absorbs(i, _, _) => i in w.sessions
    case Exec(k) => k in w.conns && w.conns[k].sent != [] &&
          (w.conns[k].skipping || Accepts(w.conns[k].backend, w.conns[k].sent[0]))
    case Fail(k) => k in w.conns && w.conns[k].sent != [] && !w.conns[k].skipping
    case Read(i) => Holds(w, i) && Held(w, i).replies != []
  }

  function WithConn(w: World, k: nat, c: Conn): World {
    w.(conns := w.conns[k := c])
  }

  function WithSession(w: World, i: nat, s: Session): World {
    w.(sessions := w.sessions[i := s])
  }

  function Gone(w: World, i: nat): World
    requires i in w.sessions
  {
    w.(sessions := w.sessions - {i}, store := ReleaseAll(w.store, w.sessions[i].names))
  }

  /** The reply the backend owes for a message that went out. */
  function Owed(cfg: Config, id: nat, msg: ClientMsg, sent: bool): seq<Answer> {
    match msg
    case CParse(_, stmt) => if sent then [ParseComplete(cfg.canonOf(stmt), Client(id))] else []
    case CUse(_, _) => [Result(id)]
    case CClosePortal => [CloseComplete(Client(id))]
    case CQuery(_) => [Ready(id)]
    case CSync => [Ready(id)]
    case COther => [Result(id)]
  }

  /** The private map and the ledger after a message went out. */
  function Noted(s: Session, cfg: Config, msg: ClientMsg, sent: bool, names: NameMap): Session {
    s.(names := names,
       last := if msg.CParse? then s.last[msg.name := msg.stmt] else s.last,
       next := s.next + 1,
       asked := s.asked + Owed(cfg, s.next, msg, sent),
       parses := if msg.CParse? then s.parses + 1 else s.parses,
       synthetic := if msg.CParse? && !sent then s.synthetic + 1 else s.synthetic,
       closes := if msg.CClosePortal? then s.closes + 1 else s.closes,
       queries := if msg.CQuery? || msg.CSync? then s.queries + 1 else s.queries)
  }

  function AfterSend(cfg: Config, w: World, i: nat, msg: ClientMsg): World
    requires Holds(w, i)
  {
    var s := w.sessions[i];
    var k := s.held.value;
    var parsed := if msg.CParse? then w.parsed + {msg.stmt} else w.parsed;
    match Sends(cfg, w, i, msg)
    case Sent(names, store, c) =>
      w.(store := store, conns := w.conns[k := c], parsed := parsed,
         sessions := w.sessions[i := Noted(s, cfg, msg, true, names)])
    case Answered(names, store, c) =>
      w.(store := store, conns := w.conns[k := c], parsed := parsed,
         sessions := w.sessions[i := Noted(s, cfg, msg, false, names)])
    case Bail => Gone(w, i).(conns := w.conns - {k})
  }

  function CloseCompletesIn(replies: seq<Backend.BackendMessage>): nat {
    if replies == [] then 0 else (if replies[0].CloseComplete? then 1 else 0) + CloseCompletesIn(replies[1..])
  }

  function ReadiesIn(replies: seq<Backend.BackendMessage>): nat {
    if replies == [] then 0 else (if replies[0].ReadyForQuery? then 1 else 0) + ReadiesIn(replies[1..])
  }

  function AfterAbsorb(w: World, i: nat, a: Absorbed, status: Backend.TransactionStatus): World
    requires i in w.sessions
  {
    var s := w.sessions[i];
    var (names, store) := Absorb(s.names, w.store, a);
    var last := match a {
      case CloseOne(n) => s.last - {n}
      case Deallocate(n) => s.last - {n}
      case DeallocateAll => map[]
    };
    var replies := SyntheticReplies(a, status);
    WithSession(w, i, s.(names := names, last := last,
                         closes := if a.CloseOne? then s.closes + 1 else s.closes,
                         syntheticCloses := s.syntheticCloses + CloseCompletesIn(replies),
                         queries := if a.CloseOne? then s.queries else s.queries + 1,
                         syntheticReadies := s.syntheticReadies + ReadiesIn(replies))).(store := store)
  }

  function Ran(c: Conn): seq<(Stmt, Stmt)>
    requires c.sent != []
  {
    var m := c.sent[0];
    if !c.skipping && m.Use? && m.wanted.Some? && m.name in c.backend
    then [(m.wanted.value, c.backend[m.name])] else []
  }

  ghost function Next(cfg: Config, w: World, step: Step): World
    requires Enabled(cfg, w, step)
  {
    match step
    case Connect(k) => WithConn(w, k, NEW)
    case Discard(k) => w.(conns := w.conns - {k})
    case Arrive(i) => WithSession(w, i, NEW_SESSION)
    case Leave(i) => Gone(w, i)
    case Checkout(i, k) =>
      WithConn(WithSession(w, i, w.sessions[i].(held := Some(k))), k,
               w.conns[k].(tracker := w.conns[k].tracker.ResetPending()))
    case Checkin(i) => WithSession(w, i, w.sessions[i].(held := None))
    case Abandon(i) => WithConn(Gone(w, i), w.sessions[i].held.value, Held(w, i).(replies := []))
    case GiveUp(i) => Gone(w, i).(conns := w.conns - {w.sessions[i].held.value})
    case Send(i, msg) => AfterSend(cfg, w, i, msg)
    case Absorbs(i, a, status) => AfterAbsorb(w, i, a, status)
    case Exec(k) => WithConn(w, k, Connection.Exec(w.conns[k])).(ran := w.ran + Ran(w.conns[k]))
    case Fail(k) => WithConn(w, k, Connection.Fail(w.conns[k]))
    case Read(i) =>
      var (c, delivered) := Connection.Read(Held(w, i));
      var s := w.sessions[i];
      var told := if delivered.Some? then s.told + [delivered.value] else s.told;
      WithConn(WithSession(w, i, s.(told := told)), s.held.value, c)
  }

  ghost predicate Runs(cfg: Config, w: World, steps: seq<Step>)
    decreases |steps|
  {
    steps == [] || (Enabled(cfg, w, steps[0]) && Runs(cfg, Next(cfg, w, steps[0]), steps[1..]))
  }

  ghost function After(cfg: Config, w: World, steps: seq<Step>): World
    requires Runs(cfg, w, steps)
    decreases |steps|
  {
    if steps == [] then w else After(cfg, Next(cfg, w, steps[0]), steps[1..])
  }

  ghost predicate ErrorFree(steps: seq<Step>) {
    forall s :: s in steps ==> !s.Fail?
  }

  // ---------------------------------------------------------------------
  // Safety in every run, with or without errors
  // ---------------------------------------------------------------------

  ghost function NamesOf(w: World): map<nat, NameMap> {
    map i | i in w.sessions :: w.sessions[i].names
  }

  /** The client's names are the canonical names of what it last parsed. */
  ghost predicate Faithful(cfg: Config, parsed: set<Stmt>, s: Session) {
    && s.names.Keys == s.last.Keys
    && forall n :: n in s.names ==> s.names[n] == cfg.canonOf(s.last[n]) && s.last[n] in parsed
  }

  ghost predicate MsgContent(cfg: Config, parsed: set<Stmt>, m: Msg) {
    match m
    case Parse(n, s, _) => cfg.canonOf(s) == n && s in parsed
    case Use(_, n, Some(s), _) => cfg.canonOf(s) == n && s in parsed
    case _ => true
  }

  /** Every statement on the backend or on its way carries its own canonical name. */
  ghost predicate Content(cfg: Config, parsed: set<Stmt>, c: Conn) {
    && (forall n :: n in c.backend ==> cfg.canonOf(c.backend[n]) == n && c.backend[n] in parsed)
    && (forall m :: m in c.sent ==> MsgContent(cfg, parsed, m))
  }

  ghost predicate RanContent(cfg: Config, parsed: set<Stmt>, r: (Stmt, Stmt)) {
    cfg.canonOf(r.0) == cfg.canonOf(r.1) && r.0 in parsed && r.1 in parsed
  }

  ghost predicate StoreContent(cfg: Config, parsed: set<Stmt>, store: Store) {
    forall n :: n in store ==> cfg.canonOf(store[n].stmt) == n && store[n].stmt in parsed
  }

  ghost predicate Safe(cfg: Config, w: World) {
    && Exact(w.store, NamesOf(w))
    && (forall i :: i in w.sessions ==> Faithful(cfg, w.parsed, w.sessions[i]))
    && StoreContent(cfg, w.parsed, w.store)
    && (forall k :: k in w.conns ==> Content(cfg, w.parsed, w.conns[k]))
    && (forall r :: r in w.ran ==> RanContent(cfg, w.parsed, r))
  }

  lemma GoneKeepsSafe(cfg: Config, w: World, i: nat)
    requires Safe(cfg, w) && i in w.sessions
    ensures Safe(cfg, Gone(w, i))
  {
    var clients := NamesOf(w);
    ReleaseAllKeepsExact(w.store, clients, i);
    EmptyClientKeepsExact(ReleaseAll(w.store, clients[i]), clients[i := map[]], i);
    assert clients[i := map[]] - {i} == NamesOf(Gone(w, i));
  }

  lemma AbsorbKeepsStore(cfg: Config, parsed: set<Stmt>, s: Session, store: Store, a: Absorbed)
    requires StoreContent(cfg, parsed, store)
    ensures StoreContent(cfg, parsed, Absorb(s.names, store, a).1)
  {
  }

  lemma AbsorbKeepsExact(store: Store, clients: map<nat, NameMap>, i: nat, a: Absorbed)
    requires Exact(store, clients) && i in clients
    ensures var (names', store') := Absorb(clients[i], store, a);
            Exact(store', clients[i := names'])
  {
    match a
    case CloseOne(n) => RemoveKeepsExact(store, clients, i, n);
    case Deallocate(n) => RemoveKeepsExact(store, clients, i, n);
    case DeallocateAll => ReleaseAllKeepsExact(store, clients, i);
  }

  lemma AbsorbKeepsSafe(cfg: Config, w: World, i: nat, a: Absorbed, status: Backend.TransactionStatus)
    requires Safe(cfg, w) && i in w.sessions
    ensures Safe(cfg, AfterAbsorb(w, i, a, status))
  {
    var w' := AfterAbsorb(w, i, a, status);
    assert NamesOf(w') == NamesOf(w)[i := w'.sessions[i].names];
    AbsorbKeepsStore(cfg, w.parsed, w.sessions[i], w.store, a);
    AbsorbKeepsExact(w.store, NamesOf(w), i, a);
  }

  lemma ContentGrows(cfg: Config, parsed: set<Stmt>, more: set<Stmt>, c: Conn)
    requires Content(cfg, parsed, c) && parsed <= more
    ensures Content(cfg, more, c)
  {
  }

  lemma PutKeepsContent(cfg: Config, parsed: set<Stmt>, c: Conn, m: Msg)
    requires Content(cfg, parsed, c) && MsgContent(cfg, parsed, m)
    ensures Content(cfg, parsed, Put(c, m))
  {
  }

  lemma EvictionKeepsContent(cfg: Config, parsed: set<Stmt>, c: Conn, eviction: Option<Name>)
    requires Content(cfg, parsed, c)
    ensures Content(cfg, parsed, PutEviction(c, eviction))
  {
    if eviction.Some? {
      PutKeepsContent(cfg, parsed, c, CloseStatement(eviction.value));
    }
  }

  lemma SendKeepsContent(cfg: Config, w: World, i: nat, msg: ClientMsg)
    requires Safe(cfg, w) && Holds(w, i)
    ensures var parsed := if msg.CParse? then w.parsed + {msg.stmt} else w.parsed;
            match Sends(cfg, w, i, msg)
            case Sent(_, _, c) => Content(cfg, parsed, c)
            case Answered(_, _, c) => Content(cfg, parsed, c)
            case Bail => true
  {
    var s, c := w.sessions[i], Held(w, i);
    assert Content(cfg, w.parsed, c);
    match msg
    case CParse(name, stmt) =>
      var parsed := w.parsed + {stmt};
      ContentGrows(cfg, w.parsed, parsed, c);
      var canon := cfg.canonOf(stmt);
      var (t, note) := c.tracker.NoteClientParse(cfg.max, canon);
      if note.ForwardParse? {
        EvictionKeepsContent(cfg, parsed, c.(tracker := t), note.eviction);
        PutKeepsContent(cfg, parsed, PutEviction(c.(tracker := t), note.eviction), Parse(canon, stmt, Client(s.next)));
      }
    case CUse(target, name) =>
      if name in s.names {
        var canon := s.names[name];
        var r := Reprepared(c, cfg.max, w.store, canon);
        if canon !in c.tracker.order && canon in w.store {
          var (t, note) := c.tracker.NoteReprepare(cfg.max, canon);
          EvictionKeepsContent(cfg, w.parsed, c.(tracker := t), note.eviction);
          var c' := PutEviction(c.(tracker := t), note.eviction);
          PutKeepsContent(cfg, w.parsed, c', Parse(canon, w.store[canon].stmt, Injected));
        }
        if r.Some? {
          PutKeepsContent(cfg, w.parsed, r.value, Use(target, canon, Wanted(s, msg), s.next));
        }
      } else {
        PutKeepsContent(cfg, w.parsed, c, Use(target, name, None, s.next));
      }
    case _ =>
  }

  lemma ConnChangeKeepsSafe(cfg: Config, w: World, k: nat, c: Conn)
    requires Safe(cfg, w) && Content(cfg, w.parsed, c)
    ensures Safe(cfg, WithConn(w, k, c))
  {
    assert NamesOf(WithConn(w, k, c)) == NamesOf(w);
  }

  lemma SessionChangeKeepsSafe(cfg: Config, w: World, i: nat, s: Session)
    requires Safe(cfg, w) && i in w.sessions
    requires s.names == w.sessions[i].names && s.last == w.sessions[i].last
    ensures Safe(cfg, WithSession(w, i, s))
  {
    assert NamesOf(WithSession(w, i, s)) == NamesOf(w);
  }

  lemma ParsedGrows(cfg: Config, w: World, stmt: Stmt)
    requires Safe(cfg, w)
    ensures Safe(cfg, w.(parsed := w.parsed + {stmt}))
  {
    var parsed := w.parsed + {stmt};
    assert NamesOf(w.(parsed := parsed)) == NamesOf(w);
    forall k | k in w.conns
      ensures Content(cfg, parsed, w.conns[k])
    {
      ContentGrows(cfg, w.parsed, parsed, w.conns[k]);
    }
  }

  lemma RegisterKeepsSafe(cfg: Config, w: World, i: nat, name: Name, stmt: Stmt, s: Session)
    requires Safe(cfg, w) && i in w.sessions && stmt in w.parsed
    requires s.names == Register(w.sessions[i].names, w.store, name, cfg.canonOf(stmt), stmt).0
    requires s.last == w.sessions[i].last[name := stmt]
    ensures Safe(cfg, WithSession(w, i, s).(
                        store := Register(w.sessions[i].names, w.store, name, cfg.canonOf(stmt), stmt).1))
  {
    var (names, store) := Register(w.sessions[i].names, w.store, name, cfg.canonOf(stmt), stmt);
    var w' := WithSession(w, i, s).(store := store);
    RegisterKeepsExact(w.store, NamesOf(w), i, name, cfg.canonOf(stmt), stmt);
    assert NamesOf(w') == NamesOf(w)[i := names];
    RegisterKeepsContent(cfg, w.parsed, w.sessions[i], w.store, name, stmt, s);
  }

  lemma RegisterKeepsContent(cfg: Config, parsed: set<Stmt>, before: Session, store: Store, name: Name, stmt: Stmt,
                             s: Session)
    requires StoreContent(cfg, parsed, store) && Faithful(cfg, parsed, before) && stmt in parsed
    requires s.names == Register(before.names, store, name, cfg.canonOf(stmt), stmt).0 && s.last == before.last[name := stmt]
    ensures StoreContent(cfg, parsed, Register(before.names, store, name, cfg.canonOf(stmt), stmt).1)
    ensures Faithful(cfg, parsed, s)
  {
  }

  lemma SendKeepsSafe(cfg: Config, w: World, i: nat, msg: ClientMsg)
    requires Safe(cfg, w) && Holds(w, i)
    ensures Safe(cfg, AfterSend(cfg, w, i, msg))
  {
    var w' := AfterSend(cfg, w, i, msg);
    var k := w.sessions[i].held.value;
    SendKeepsContent(cfg, w, i, msg);
    var out := Sends(cfg, w, i, msg);
    if out.Bail? {
      GoneKeepsSafe(cfg, w, i);
    } else if msg.CParse? {
      ParsedGrows(cfg, w, msg.stmt);
      RegisterKeepsSafe(cfg, w.(parsed := w'.parsed), i, msg.name, msg.stmt, w'.sessions[i]);
      var mid := WithSession(w, i, w'.sessions[i]).(parsed := w'.parsed, store := w'.store);
      assert out.names == Register(w.sessions[i].names, w.store, msg.name, cfg.canonOf(msg.stmt), msg.stmt).0;
      ConnChangeKeepsSafe(cfg, mid, k, out.conn);
      assert w' == WithConn(mid, k, out.conn);
    } else {
      SessionChangeKeepsSafe(cfg, w, i, w'.sessions[i]);
      var mid := WithSession(w, i, w'.sessions[i]);
      ConnChangeKeepsSafe(cfg, mid, k, out.conn);
      assert w' == WithConn(mid, k, out.conn);
    }
  }

  lemma ExecKeepsSafe(cfg: Config, w: World, k: nat)
    requires Safe(cfg, w) && Enabled(cfg, w, Exec(k))
    ensures Safe(cfg, Next(cfg, w, Exec(k)))
  {
    var c := w.conns[k];
    assert Content(cfg, w.parsed, c);
    assert c.sent[0] in c.sent;
    assert MsgContent(cfg, w.parsed, c.sent[0]);
    assert NamesOf(Next(cfg, w, Exec(k))) == NamesOf(w);
    assert Content(cfg, w.parsed, Connection.Exec(c));
    ConnChangeKeepsSafe(cfg, w, k, Connection.Exec(c));
  }

  /** The steps that only move a connection or a session without touching names. */
  lemma PlainStepKeepsSafe(cfg: Config, w: World, step: Step)
    requires Safe(cfg, w) && Enabled(cfg, w, step)
    requires step.Connect? || step.Discard? || step.Checkout? || step.Checkin? || step.Fail? || step.Read?
    ensures Safe(cfg, Next(cfg, w, step))
  {
    match step
    case Connect(k) => ConnChangeKeepsSafe(cfg, w, k, NEW);
    case Discard(k) => assert NamesOf(Next(cfg, w, step)) == NamesOf(w);
    case Checkout(i, k) =>
      SessionChangeKeepsSafe(cfg, w, i, w.sessions[i].(held := Some(k)));
      ConnChangeKeepsSafe(cfg, WithSession(w, i, w.sessions[i].(held := Some(k))), k,
                          w.conns[k].(tracker := w.conns[k].tracker.ResetPending()));
    case Checkin(i) => SessionChangeKeepsSafe(cfg, w, i, w.sessions[i].(held := None));
    case Fail(k) => ConnChangeKeepsSafe(cfg, w, k, Connection.Fail(w.conns[k]));
    case Read(i) =>
      var s' := Next(cfg, w, step).sessions[i];
      SessionChangeKeepsSafe(cfg, w, i, s');
      ConnChangeKeepsSafe(cfg, WithSession(w, i, s'), w.sessions[i].held.value, Connection.Read(Held(w, i)).0);
  }

  lemma StepKeepsSafe(cfg: Config, w: World, step: Step)
    requires Safe(cfg, w) && Enabled(cfg, w, step)
    ensures Safe(cfg, Next(cfg, w, step))
  {
    match step
    case Arrive(i) =>
      EmptyClientKeepsExact(w.store, NamesOf(w), i);
      assert NamesOf(Next(cfg, w, step)) == NamesOf(w)[i := map[]];
    case Leave(i) => GoneKeepsSafe(cfg, w, i);
    case Abandon(i) =>
      GoneKeepsSafe(cfg, w, i);
      ConnChangeKeepsSafe(cfg, Gone(w, i), w.sessions[i].held.value, Held(w, i).(replies := []));
    case GiveUp(i) =>
      GoneKeepsSafe(cfg, w, i);
      assert NamesOf(Next(cfg, w, step)) == NamesOf(Gone(w, i));
    case Send(i, msg) => SendKeepsSafe(cfg, w, i, msg);
    case Absorbs(i, a, status) => AbsorbKeepsSafe(cfg, w, i, a, status);
    case Exec(k) => ExecKeepsSafe(cfg, w, k);
    case _ => PlainStepKeepsSafe(cfg, w, step);
  }

  lemma {:induction false} RunsKeepSafe(cfg: Config, w: World, steps: seq<Step>)
    requires Safe(cfg, w) && Runs(cfg, w, steps)
    ensures Safe(cfg, After(cfg, w, steps))
    decreases |steps|
  {
    if steps != [] {
      StepKeepsSafe(cfg, w, steps[0]);
      RunsKeepSafe(cfg, Next(cfg, w, steps[0]), steps[1..]);
    }
  }
}
