/** What clients can rely on in every run. */
module Transparency {
  import opened Bytes
  import opened Options
  import opened Lru
  import opened Server
  import opened Connection
  import opened Names
  import opened Rewriting
  import opened Virtualization
  import Backend
  import CanonicalName

  ghost predicate InjectiveOn(canonOf: Stmt -> Name, stmts: set<Stmt>) {
    forall a, b :: a in stmts && b in stmts && canonOf(a) == canonOf(b) ==> a == b
  }

  // ---------------------------------------------------------------------
  // Error-free runs
  // ---------------------------------------------------------------------

  function CountParses(s: seq<Answer>): nat {
    if s == [] then 0 else CountParses(s[..|s| - 1]) + (if s[|s| - 1].ParseComplete? then 1 else 0)
  }

  function CountCloses(s: seq<Answer>): nat {
    if s == [] then 0 else CountCloses(s[..|s| - 1]) + (if s[|s| - 1].CloseComplete? then 1 else 0)
  }

  function CountReadies(s: seq<Answer>): nat {
    if s == [] then 0 else CountReadies(s[..|s| - 1]) + (if s[|s| - 1].Ready? then 1 else 0)
  }

  lemma CountOne(s: seq<Answer>, a: Answer)
    ensures CountParses(s + [a]) == CountParses(s) + (if a.ParseComplete? then 1 else 0)
    ensures CountCloses(s + [a]) == CountCloses(s) + (if a.CloseComplete? then 1 else 0)
    ensures CountReadies(s + [a]) == CountReadies(s) + (if a.Ready? then 1 else 0)
  {
    assert (s + [a])[..|s|] == s;
  }

  /** What the client was told, then the replies `due` to it, is what it asked for; and
      every Parse and Close is answered once, and every query and Sync by one ReadyForQuery, by
      the proxy or by the backend. */
  ghost predicate Ledger(s: Session, due: seq<Answer>) {
    && s.asked == s.told + due
    && s.parses == s.synthetic + CountParses(s.asked)
    && s.closes == s.syntheticCloses + CountCloses(s.asked)
    && s.queries == s.syntheticReadies + CountReadies(s.asked)
  }

  ghost predicate SessionOk(w: World, i: nat)
    requires i in w.sessions
  {
    if w.sessions[i].held.None? then Ledger(w.sessions[i], [])
    else Holds(w, i) && Aligned(Held(w, i)) && Ledger(w.sessions[i], ForClient(Due(Held(w, i))))
  }

  ghost predicate Exclusive(w: World) {
    forall i, j | i in w.sessions && j in w.sessions && w.sessions[i].held.Some?
                  && w.sessions[i].held == w.sessions[j].held :: i == j
  }

  ghost predicate Quiet(c: Conn) {
    c.sent == [] && c.replies == []
  }

  ghost predicate Orderly(max: nat, w: World) {
    && Exclusive(w)
    && (forall k :: k in w.conns ==> Simulates(w.conns[k], max))
    && (forall i :: i in w.sessions ==> SessionOk(w, i))
    && (forall k :: Free(w, k) ==> Quiet(w.conns[k]))
  }

  lemma OthersUntouched(w: World, w': World, i: nat, j: nat, c: Conn)
    requires Exclusive(w) && Holds(w, i) && j in w.sessions && j != i && SessionOk(w, j)
    requires w'.conns == w.conns[w.sessions[i].held.value := c]
    requires j in w'.sessions && w'.sessions[j] == w.sessions[j]
    ensures SessionOk(w', j)
  {
    assert w.sessions[j].held != w.sessions[i].held;
  }

  lemma FreeIfFree(w: World, w': World, n: nat)
    requires Free(w', n) && n in w.conns
    requires forall j :: j in w.sessions && w.sessions[j].held.Some? ==>
               j in w'.sessions && w'.sessions[j].held == w.sessions[j].held
    ensures Free(w, n)
  {
    forall j | j in w.sessions
      ensures w.sessions[j].held != Some(n)
    {
      if w.sessions[j].held.Some? {
        assert w'.sessions[j].held != Some(n);
      }
    }
  }

  lemma HoldersStay(w: World, w': World)
    requires Exclusive(w) && w'.sessions.Keys == w.sessions.Keys
    requires forall j :: j in w.sessions ==> w'.sessions[j].held == w.sessions[j].held
    ensures Exclusive(w')
  {
  }

  /** One client and the connection it holds change; everything else is untouched. */
  lemma HeldChange(max: nat, w: World, w': World, i: nat, s: Session, c: Conn)
    requires Orderly(max, w) && Holds(w, i) && s.held == w.sessions[i].held
    requires Simulates(c, max) && Aligned(c) && Ledger(s, ForClient(Due(c)))
    requires w'.sessions == w.sessions[i := s] && w'.conns == w.conns[s.held.value := c]
    ensures Orderly(max, w')
  {
    HoldersStay(w, w');
    forall j | j in w'.sessions
      ensures SessionOk(w', j)
    {
      if j != i {
        OthersUntouched(w, w', i, j, c);
      }
    }
    forall n | Free(w', n)
      ensures Quiet(w'.conns[n])
    {
      assert w'.sessions[i].held != Some(n);
      FreeIfFree(w, w', n);
    }
  }

  /** The connection after one client message: nothing bails, the invariants stay, and
      exactly the reply owed to the client is added to the replies due. */
  ghost predicate GoodSend(cfg: Config, w: World, i: nat, msg: ClientMsg)
    requires Holds(w, i)
  {
    var out := Sends(cfg, w, i, msg);
    && !out.Bail?
    && (!msg.CParse? ==> out.Sent?)
    && Simulates(out.conn, cfg.max) && Aligned(out.conn)
    && ForClient(Due(out.conn)) == ForClient(Due(Held(w, i))) + Owed(cfg, w.sessions[i].next, msg, out.Sent?)
  }

  lemma ParseIsGood(cfg: Config, w: World, i: nat, name: Name, stmt: Stmt)
    requires Holds(w, i) && Simulates(Held(w, i), cfg.max) && Aligned(Held(w, i))
    ensures GoodSend(cfg, w, i, CParse(name, stmt))
  {
    SendParseKeeps(Held(w, i), cfg.max, cfg.canonOf(stmt), stmt, w.sessions[i].next);
  }

  lemma StoredIsReprepared(c: Conn, max: nat, store: Store, canon: Name)
    requires canon in store
    ensures Reprepared(c, max, store, canon) == Some(EnsurePrepared(c, max, canon, store[canon].stmt))
  {
  }

  lemma PreparedUseKeeps(c: Conn, max: nat, canon: Name, stmt: Stmt, m: Msg)
    requires Simulates(c, max) && Aligned(c) && m.Use? && m.name == canon
    ensures var c' := Put(EnsurePrepared(c, max, canon, stmt), m);
            Simulates(c', max) && Aligned(c') && ForClient(Due(c')) == ForClient(Due(c)) + [AnswerTo(m)]
  {
    EnsurePreparedKeeps(c, max, canon, stmt);
    PutPlainKeeps(EnsurePrepared(c, max, canon, stmt), max, m);
  }

  /** A Bind or Describe: the store has the statement, and the message finds it prepared. */
  lemma ResolvedUseIsGood(cfg: Config, w: World, i: nat, target: Target, name: Name)
    requires Holds(w, i) && Simulates(Held(w, i), cfg.max) && Aligned(Held(w, i))
    requires name in w.sessions[i].names && w.sessions[i].names[name] in w.store
    ensures GoodSend(cfg, w, i, CUse(target, name))
  {
    var s, c, msg := w.sessions[i], Held(w, i), CUse(target, name);
    var canon := s.names[name];
    var use := Use(target, canon, Wanted(s, msg), s.next);
    StoredIsReprepared(c, cfg.max, w.store, canon);
    PreparedUseKeeps(c, cfg.max, canon, w.store[canon].stmt, use);
    assert Sends(cfg, w, i, msg) == Sent(s.names, w.store, Put(EnsurePrepared(c, cfg.max, canon, w.store[canon].stmt), use));
  }

  lemma UseIsGood(cfg: Config, w: World, i: nat, target: Target, name: Name)
    requires Safe(cfg, w)
    requires Holds(w, i) && Simulates(Held(w, i), cfg.max) && Aligned(Held(w, i))
    ensures GoodSend(cfg, w, i, CUse(target, name))
  {
    var s := w.sessions[i];
    if name in s.names {
      assert i in NamesOf(w) && name in NamesOf(w)[i] && NamesOf(w)[i][name] == s.names[name];
      ExactFinds(w.store, NamesOf(w), s.names[name]);
      ResolvedUseIsGood(cfg, w, i, target, name);
    } else {
      PutPlainKeeps(Held(w, i), cfg.max, Use(target, name, None, s.next));
    }
  }

  lemma OutboundIsGood(cfg: Config, w: World, i: nat, msg: ClientMsg)
    requires Safe(cfg, w)
    requires Holds(w, i) && Simulates(Held(w, i), cfg.max) && Aligned(Held(w, i))
    ensures GoodSend(cfg, w, i, msg)
  {
    var c, id := Held(w, i), w.sessions[i].next;
    match msg
    case CParse(name, stmt) => ParseIsGood(cfg, w, i, name, stmt);
    case CUse(target, name) => UseIsGood(cfg, w, i, target, name);
    case CClosePortal => SendPortalCloseKeeps(c, cfg.max, id);
    case CQuery(b) => SendQueryKeeps(c, cfg.max, b, id);
    case CSync => PutPlainKeeps(c, cfg.max, Sync(id));
    case COther => PutPlainKeeps(c, cfg.max, Other(id));
  }

  lemma LedgerGrows(s: Session, s': Session, due: seq<Answer>, a: Answer)
    requires Ledger(s, due) && s'.told == s.told && s'.asked == s.asked + [a]
    requires s'.parses - s'.synthetic == s.parses - s.synthetic + if a.ParseComplete? then 1 else 0
    requires s'.closes - s'.syntheticCloses == s.closes - s.syntheticCloses + if a.CloseComplete? then 1 else 0
    requires s'.queries - s'.syntheticReadies == s.queries - s.syntheticReadies + if a.Ready? then 1 else 0
    ensures Ledger(s', due + [a])
  {
    CountOne(s.asked, a);
    assert s.asked + [a] == s.told + (due + [a]);
  }

  lemma NotedKeepsLedger(cfg: Config, s: Session, due: seq<Answer>, msg: ClientMsg, sent: bool, names: NameMap)
    requires Ledger(s, due) && (!msg.CParse? ==> sent)
    ensures Ledger(Noted(s, cfg, msg, sent, names), due + Owed(cfg, s.next, msg, sent))
  {
    var owed, s' := Owed(cfg, s.next, msg, sent), Noted(s, cfg, msg, sent, names);
    if owed == [] {
      assert s'.asked == s.asked && due + owed == due;
    } else {
      assert owed == [owed[0]];
      LedgerGrows(s, s', due, owed[0]);
    }
  }

  lemma SendKeepsOrder(cfg: Config, w: World, i: nat, msg: ClientMsg)
    requires Safe(cfg, w) && Orderly(cfg.max, w) && Holds(w, i)
    ensures Orderly(cfg.max, AfterSend(cfg, w, i, msg))
  {
    assert SessionOk(w, i);
    assert Simulates(Held(w, i), cfg.max);
    OutboundIsGood(cfg, w, i, msg);
    var w' := AfterSend(cfg, w, i, msg);
    var out := Sends(cfg, w, i, msg);
    NotedKeepsLedger(cfg, w.sessions[i], ForClient(Due(Held(w, i))), msg, out.Sent?, out.names);
    HeldChange(cfg.max, w, w', i, w'.sessions[i], w'.conns[w.sessions[i].held.value]);
  }

  lemma LedgerMoves(s: Session, got: seq<Answer>, rest: seq<Answer>)
    requires Ledger(s, got + rest)
    ensures Ledger(s.(told := s.told + got), rest)
  {
    assert s.told + (got + rest) == (s.told + got) + rest;
  }

  /** The reply just read moves from due to told, if it is the client's at all. */
  lemma ReadKeepsLedger(max: nat, s: Session, c: Conn)
    requires Aligned(c) && c.replies != [] && c.replies[0] != Error
    requires Ledger(s, ForClient(Due(c)))
    ensures var (c', delivered) := Connection.Read(c);
            var told := if delivered.Some? then s.told + [delivered.value] else s.told;
            Ledger(s.(told := told), ForClient(Due(c')))
  {
    ReadFilters(c, max);
    LedgerMoves(s, ClientDue(c.replies[0]), ForClient(Due(Connection.Read(c).0)));
  }

  lemma ReadKeepsOrder(cfg: Config, w: World, i: nat)
    requires Orderly(cfg.max, w) && Enabled(cfg, w, Read(i))
    ensures Orderly(cfg.max, Next(cfg, w, Read(i)))
  {
    var c := Held(w, i);
    assert SessionOk(w, i);
    assert Simulates(c, cfg.max);
    assert c.replies[0] in c.replies;
    ReadFilters(c, cfg.max);
    ReadKeepsLedger(cfg.max, w.sessions[i], c);
    var w' := Next(cfg, w, Read(i));
    HeldChange(cfg.max, w, w', i, w'.sessions[i], Connection.Read(c).0);
  }

  lemma ExecKeepsOrder(cfg: Config, w: World, k: nat)
    requires Orderly(cfg.max, w) && Enabled(cfg, w, Step.Exec(k))
    ensures Orderly(cfg.max, Next(cfg, w, Step.Exec(k)))
  {
    var c := w.conns[k];
    assert Free(w, k) ==> Quiet(c);
    var i :| i in w.sessions && w.sessions[i].held == Some(k);
    assert SessionOk(w, i);
    assert Simulates(c, cfg.max);
    ExecKeeps(c, cfg.max);
    HeldChange(cfg.max, w, Next(cfg, w, Step.Exec(k)), i, w.sessions[i], Connection.Exec(c));
  }

  lemma QuietIsAligned(c: Conn, max: nat)
    requires Quiet(c) && Simulates(c, max)
    ensures var c' := c.(tracker := c.tracker.ResetPending());
            Due(c') == [] && Aligned(c') && Simulates(c', max)
  {
  }

  lemma CheckoutKeepsExclusive(w: World, w': World, i: nat, k: nat)
    requires Exclusive(w) && i in w.sessions && Free(w, k)
    requires w'.sessions == w.sessions[i := w.sessions[i].(held := Some(k))]
    ensures Exclusive(w')
  {
    forall a, b | a in w'.sessions && b in w'.sessions && w'.sessions[a].held.Some?
                  && w'.sessions[a].held == w'.sessions[b].held
      ensures a == b
    {
      assert a in w.sessions && b in w.sessions;
      assert w.sessions[a].held != Some(k) && w.sessions[b].held != Some(k);
    }
  }

  lemma CheckoutKeepsOrder(cfg: Config, w: World, i: nat, k: nat)
    requires Orderly(cfg.max, w) && Enabled(cfg, w, Checkout(i, k))
    ensures Orderly(cfg.max, Next(cfg, w, Checkout(i, k)))
  {
    var w' := Next(cfg, w, Checkout(i, k));
    QuietIsAligned(w.conns[k], cfg.max);
    CheckoutKeepsExclusive(w, w', i, k);
    assert SessionOk(w, i);
    assert Ledger(w'.sessions[i], ForClient(Due(w'.conns[k])));
    forall j | j in w'.sessions && j != i
      ensures SessionOk(w', j)
    {
      assert w.sessions[j].held != Some(k);
      SessionUntouched(w, w', j);
    }
    forall n | Free(w', n)
      ensures Quiet(w'.conns[n])
    {
      FreeBefore(w, w', n, i, k);
    }
  }

  lemma FreeBefore(w: World, w': World, n: nat, i: nat, k: nat)
    requires i in w.sessions && w.sessions[i].held.None?
    requires w'.sessions == w.sessions[i := w.sessions[i].(held := Some(k))]
    requires w'.conns.Keys == w.conns.Keys
    requires Free(w', n)
    ensures n != k && Free(w, n)
  {
    assert w'.sessions[i].held != Some(n);
    forall j | j in w.sessions
      ensures w.sessions[j].held != Some(n)
    {
      assert w'.sessions[j].held != Some(n);
    }
  }

  /** A connection that is free afterwards was free before, unless it is the one let go. */
  lemma FreeUnlessLetGo(w: World, w': World, i: nat, n: nat)
    requires Holds(w, i) && w.sessions[i].held != Some(n)
    requires w'.conns.Keys == w.conns.Keys && Free(w', n)
    requires w'.sessions == w.sessions - {i} || w'.sessions == w.sessions[i := w.sessions[i].(held := None)]
    ensures Free(w, n)
  {
    forall j | j in w.sessions
      ensures w.sessions[j].held != Some(n)
    {
      if j != i {
        assert w'.sessions[j].held != Some(n);
      }
    }
  }

  lemma FewerHolders(w: World, w': World, i: nat)
    requires Exclusive(w) && i in w.sessions
    requires w'.sessions == w.sessions - {i} || w'.sessions == w.sessions[i := w.sessions[i].(held := None)]
    ensures Exclusive(w')
  {
  }

  /** A client lets go of its connection, which is left quiet. */
  lemma LetGo(max: nat, w: World, w': World, i: nat, c: Conn)
    requires Orderly(max, w) && Holds(w, i)
    requires Simulates(c, max) && Quiet(c)
    requires w'.conns == w.conns[w.sessions[i].held.value := c]
    requires w'.sessions == w.sessions - {i}
          || (w'.sessions == w.sessions[i := w.sessions[i].(held := None)] && Ledger(w.sessions[i], []))
    ensures Orderly(max, w')
  {
    FewerHolders(w, w', i);
    forall j | j in w'.sessions
      ensures SessionOk(w', j)
    {
      if j != i {
        OthersUntouched(w, w', i, j, c);
      }
    }
    forall n | Free(w', n)
      ensures Quiet(w'.conns[n])
    {
      if n != w.sessions[i].held.value {
        FreeUnlessLetGo(w, w', i, n);
      }
    }
  }

  lemma CheckinKeepsOrder(cfg: Config, w: World, i: nat)
    requires Orderly(cfg.max, w) && Enabled(cfg, w, Checkin(i))
    ensures Orderly(cfg.max, Next(cfg, w, Checkin(i)))
  {
    var c := Held(w, i);
    assert SessionOk(w, i);
    assert c.sent != [] ==> |Due(c)| > 0;
    assert Quiet(c);
    assert Simulates(c, cfg.max);
    LetGo(cfg.max, w, Next(cfg, w, Checkin(i)), i, c);
  }

  lemma AbandonKeepsOrder(cfg: Config, w: World, i: nat)
    requires Orderly(cfg.max, w) && Enabled(cfg, w, Abandon(i))
    ensures Orderly(cfg.max, Next(cfg, w, Abandon(i)))
  {
    assert Simulates(Held(w, i), cfg.max);
    LetGo(cfg.max, w, Next(cfg, w, Abandon(i)), i, Held(w, i).(replies := []));
  }

  lemma SessionUntouched(w: World, w': World, j: nat)
    requires j in w.sessions && SessionOk(w, j)
    requires j in w'.sessions && w'.sessions[j] == w.sessions[j]
    requires Holds(w, j) ==> Holds(w', j) && Held(w', j) == Held(w, j)
    ensures SessionOk(w', j)
  {
  }

  lemma ConnectKeepsOrder(cfg: Config, w: World, k: nat)
    requires Orderly(cfg.max, w) && Enabled(cfg, w, Connect(k))
    ensures Orderly(cfg.max, Next(cfg, w, Connect(k)))
  {
    var w' := Next(cfg, w, Connect(k));
    forall j | j in w'.sessions
      ensures SessionOk(w', j)
    {
      SessionUntouched(w, w', j);
    }
    forall n | Free(w', n)
      ensures Quiet(w'.conns[n])
    {
      if n != k {
        assert Free(w, n);
      }
    }
    assert Simulates(NEW, cfg.max);
  }

  lemma DiscardKeepsOrder(cfg: Config, w: World, k: nat)
    requires Orderly(cfg.max, w) && Enabled(cfg, w, Discard(k))
    ensures Orderly(cfg.max, Next(cfg, w, Discard(k)))
  {
    var w' := Next(cfg, w, Discard(k));
    forall j | j in w'.sessions
      ensures SessionOk(w', j)
    {
      assert w.sessions[j].held != Some(k);
      assert SessionOk(w, j);
      SessionUntouched(w, w', j);
    }
    forall n | Free(w', n)
      ensures Quiet(w'.conns[n])
    {
      assert Free(w, n);
    }
  }

  /** A client without a connection comes or goes. */
  lemma ArriveKeepsExclusive(w: World, w': World, i: nat, s: Session)
    requires Exclusive(w) && i !in w.sessions && s.held.None? && w'.sessions == w.sessions[i := s]
    ensures Exclusive(w')
  {
    forall a, b | a in w'.sessions && b in w'.sessions && w'.sessions[a].held.Some?
                  && w'.sessions[a].held == w'.sessions[b].held
      ensures a == b
    {
      assert a in w.sessions && b in w.sessions;
    }
  }

  lemma ArriveKeepsOrder(cfg: Config, w: World, i: nat)
    requires Orderly(cfg.max, w) && i !in w.sessions
    ensures Orderly(cfg.max, WithSession(w, i, NEW_SESSION))
  {
    var w' := WithSession(w, i, NEW_SESSION);
    ArriveKeepsExclusive(w, w', i, NEW_SESSION);
    forall j | j in w'.sessions && j != i
      ensures SessionOk(w', j)
    {
      SessionUntouched(w, w', j);
    }
    forall n | Free(w', n)
      ensures Quiet(w'.conns[n])
    {
      FreeIfFree(w, w', n);
    }
  }

  lemma LeaveKeepsOrder(cfg: Config, w: World, i: nat)
    requires Orderly(cfg.max, w) && i in w.sessions && w.sessions[i].held.None?
    ensures Orderly(cfg.max, Gone(w, i))
  {
    var w' := Gone(w, i);
    FewerHolders(w, w', i);
    forall j | j in w'.sessions
      ensures SessionOk(w', j)
    {
      SessionUntouched(w, w', j);
    }
    forall n | Free(w', n)
      ensures Quiet(w'.conns[n])
    {
      FreeIfFree(w, w', n);
    }
  }

  lemma GiveUpKeepsOrder(cfg: Config, w: World, i: nat)
    requires Orderly(cfg.max, w) && Enabled(cfg, w, GiveUp(i))
    ensures Orderly(cfg.max, Next(cfg, w, GiveUp(i)))
  {
    var w' := Next(cfg, w, GiveUp(i));
    var k := w.sessions[i].held.value;
    forall j | j in w'.sessions
      ensures SessionOk(w', j)
    {
      assert SessionOk(w, j);
      assert w.sessions[j].held.Some? ==> w.sessions[j].held != Some(k);
    }
    forall n | Free(w', n)
      ensures Quiet(w'.conns[n])
    {
      forall j | j in w.sessions
        ensures w.sessions[j].held != Some(n)
      {
        if j != i {
          assert w'.sessions[j].held != Some(n);
        }
      }
      assert Free(w, n);
    }
  }

  /** A client without a connection changes. */
  lemma IdleChange(max: nat, w: World, w': World, i: nat, s: Session)
    requires Orderly(max, w) && i in w.sessions && w.sessions[i].held.None? && s.held.None? && Ledger(s, [])
    requires w'.sessions == w.sessions[i := s] && w'.conns == w.conns
    ensures Orderly(max, w')
  {
    HoldersStay(w, w');
    forall j | j in w'.sessions && j != i
      ensures SessionOk(w', j)
    {
      SessionUntouched(w, w', j);
    }
    forall n | Free(w', n)
      ensures Quiet(w'.conns[n])
    {
      FreeIfFree(w, w', n);
    }
  }

  /** A statement Close is answered by one CloseComplete, a DEALLOCATE by one ReadyForQuery. */
  lemma AbsorbedIsAnswered(a: Absorbed, status: Backend.TransactionStatus)
    ensures CloseCompletesIn(SyntheticReplies(a, status)) == if a.CloseOne? then 1 else 0
    ensures ReadiesIn(SyntheticReplies(a, status)) == if a.CloseOne? then 0 else 1
  {
    var replies := SyntheticReplies(a, status);
    var rest, none := replies[1..], replies[|replies|..];
    assert CloseCompletesIn(none) == 0 && ReadiesIn(none) == 0;
    if a.CloseOne? {
      assert rest == none;
    } else {
      assert rest[1..] == none && rest[0] == replies[1];
      assert CloseCompletesIn(rest) == 0 && ReadiesIn(rest) == 1;
    }
  }

  lemma AbsorbKeepsLedger(w: World, i: nat, a: Absorbed, status: Backend.TransactionStatus, due: seq<Answer>)
    requires i in w.sessions && Ledger(w.sessions[i], due)
    ensures Ledger(AfterAbsorb(w, i, a, status).sessions[i], due)
  {
    AbsorbedIsAnswered(a, status);
  }

  lemma AbsorbKeepsOrder(cfg: Config, w: World, i: nat, a: Absorbed, status: Backend.TransactionStatus)
    requires Orderly(cfg.max, w) && i in w.sessions
    ensures Orderly(cfg.max, AfterAbsorb(w, i, a, status))
  {
    var w' := AfterAbsorb(w, i, a, status);
    assert SessionOk(w, i);
    AbsorbKeepsLedger(w, i, a, status, if Holds(w, i) then ForClient(Due(Held(w, i))) else []);
    if Holds(w, i) {
      assert Simulates(Held(w, i), cfg.max);
      HeldChange(cfg.max, w, w', i, w'.sessions[i], Held(w, i));
    } else {
      IdleChange(cfg.max, w, w', i, w'.sessions[i]);
    }
  }

  lemma StepKeepsOrder(cfg: Config, w: World, step: Step)
    requires Safe(cfg, w) && Orderly(cfg.max, w) && Enabled(cfg, w, step) && !step.Fail?
    ensures Orderly(cfg.max, Next(cfg, w, step))
  {
    match step
    case Checkout(i, k) => CheckoutKeepsOrder(cfg, w, i, k);
    case Checkin(i) => CheckinKeepsOrder(cfg, w, i);
    case Abandon(i) => AbandonKeepsOrder(cfg, w, i);
    case GiveUp(i) => GiveUpKeepsOrder(cfg, w, i);
    case Send(i, msg) => SendKeepsOrder(cfg, w, i, msg);
    case Absorbs(i, a, status) => AbsorbKeepsOrder(cfg, w, i, a, status);
    case Exec(k) => ExecKeepsOrder(cfg, w, k);
    case Read(i) => ReadKeepsOrder(cfg, w, i);
    case Connect(k) => ConnectKeepsOrder(cfg, w, k);
    case Discard(k) => DiscardKeepsOrder(cfg, w, k);
    case Arrive(i) => ArriveKeepsOrder(cfg, w, i);
    case Leave(i) => LeaveKeepsOrder(cfg, w, i);
    case Fail(_) =>
  }

  lemma {:induction false} ErrorFreeRunsStayOrderly(cfg: Config, w: World, steps: seq<Step>)
    requires Safe(cfg, w) && Orderly(cfg.max, w) && Runs(cfg, w, steps) && ErrorFree(steps)
    ensures Safe(cfg, After(cfg, w, steps)) && Orderly(cfg.max, After(cfg, w, steps))
    decreases |steps|
  {
    if steps != [] {
      StepKeepsSafe(cfg, w, steps[0]);
      StepKeepsOrder(cfg, w, steps[0]);
      ErrorFreeRunsStayOrderly(cfg, Next(cfg, w, steps[0]), steps[1..]);
    }
  }

  lemma InitialIsOrderly(cfg: Config)
    ensures Safe(cfg, INITIAL) && Orderly(cfg.max, INITIAL)
  {
  }

  // ---------------------------------------------------------------------
  // Main theorems
  // ---------------------------------------------------------------------

  /** Every run, with or without errors, keeps the store's reference counts exact: the count
      of a canonical name is the number of (client, name) pairs mapped to it. */
  lemma ReferenceCountsAreExact(cfg: Config, steps: seq<Step>)
    requires Runs(cfg, INITIAL, steps)
    ensures var w := After(cfg, INITIAL, steps);
            Exact(w.store, NamesOf(w))
  {
    InitialIsOrderly(cfg);
    RunsKeepSafe(cfg, INITIAL, steps);
  }

  /** Every run, with or without errors: a Bind or Describe that a backend executes uses
      exactly the statement the client last parsed under the name it used, provided the
      canonical names of the statements parsed in the run are distinct. */
  lemma EveryUseRunsTheLastParse(cfg: Config, steps: seq<Step>)
    requires Runs(cfg, INITIAL, steps)
    requires InjectiveOn(cfg.canonOf, After(cfg, INITIAL, steps).parsed)
    ensures forall r :: r in After(cfg, INITIAL, steps).ran ==> r.0 == r.1
  {
    InitialIsOrderly(cfg);
    RunsKeepSafe(cfg, INITIAL, steps);
    var w := After(cfg, INITIAL, steps);
    forall r | r in w.ran
      ensures r.0 == r.1
    {
      assert RanContent(cfg, w.parsed, r);
    }
  }

  /** Every error-free run, every connection: replaying the messages in flight gives exactly
      the cache; no Parse meets a name already there; a Bind or Describe of a parsed name
      meets its statement; the backend never holds more than `max` statements. */
  lemma CacheSimulatesBackend(cfg: Config, steps: seq<Step>, k: nat)
    requires Runs(cfg, INITIAL, steps) && ErrorFree(steps)
    requires k in After(cfg, INITIAL, steps).conns
    ensures var c := After(cfg, INITIAL, steps).conns[k];
            && Replay(c.backend, c.sent).Keys == Elems(c.tracker.order)
            && WellSent(c.backend, c.sent, cfg.max)
            && (cfg.max > 0 ==> |c.backend| <= cfg.max)
            && (c.sent != [] && c.sent[0].Parse? ==> Accepts(c.backend, c.sent[0]))
            && (c.sent != [] && c.sent[0].Use? && c.sent[0].wanted.Some? ==> Accepts(c.backend, c.sent[0]))
  {
    InitialIsOrderly(cfg);
    ErrorFreeRunsStayOrderly(cfg, INITIAL, steps);
    assert Simulates(After(cfg, INITIAL, steps).conns[k], cfg.max);
  }

  /** Every error-free run: what the client received is, in order, the first replies to the
      messages it sent; the rest of them are still due on its connection. */
  lemma RepliesAreTheClients(cfg: Config, steps: seq<Step>, i: nat)
    requires Runs(cfg, INITIAL, steps) && ErrorFree(steps)
    requires i in After(cfg, INITIAL, steps).sessions
    ensures var w := After(cfg, INITIAL, steps);
            var s := w.sessions[i];
            && (Holds(w, i) ==> s.asked == s.told + ForClient(Due(Held(w, i))))
            && (!Holds(w, i) ==> s.asked == s.told)
            && (!Holds(w, i) || Due(Held(w, i)) == [] ==>
                  && s.parses == s.synthetic + CountParses(s.told)
                  && s.closes == s.syntheticCloses + CountCloses(s.told)
                  && s.queries == s.syntheticReadies + CountReadies(s.told))
  {
    InitialIsOrderly(cfg);
    ErrorFreeRunsStayOrderly(cfg, INITIAL, steps);
    var w := After(cfg, INITIAL, steps);
    var s := w.sessions[i];
    assert SessionOk(w, i);
    assert s.told + [] == s.told;
  }

  /** No client message is ever given up for want of a stored Parse. */
  lemma NothingBails(cfg: Config, steps: seq<Step>, i: nat, msg: ClientMsg)
    requires Runs(cfg, INITIAL, steps)
    requires Holds(After(cfg, INITIAL, steps), i)
    ensures !Sends(cfg, After(cfg, INITIAL, steps), i, msg).Bail?
  {
    InitialIsOrderly(cfg);
    RunsKeepSafe(cfg, INITIAL, steps);
    var w := After(cfg, INITIAL, steps);
    if msg.CUse? && msg.name in w.sessions[i].names {
      var canon := w.sessions[i].names[msg.name];
      assert i in NamesOf(w) && NamesOf(w)[i][msg.name] == canon;
      ExactFinds(w.store, NamesOf(w), canon);
    }
  }

  // ---------------------------------------------------------------------
  // Distinct names are needed
  // ---------------------------------------------------------------------

  lemma {:induction false} OneMore(cfg: Config, w: World, steps: seq<Step>, step: Step)
    requires Runs(cfg, w, steps) && Enabled(cfg, After(cfg, w, steps), step)
    ensures Runs(cfg, w, steps + [step])
    ensures After(cfg, w, steps + [step]) == Next(cfg, After(cfg, w, steps), step)
    decreases |steps|
  {
    if steps == [] {
      assert steps + [step] == [step] && [step][1..] == [];
    } else {
      OneMore(cfg, Next(cfg, w, steps[0]), steps[1..], step);
      assert (steps + [step])[1..] == steps[1..] + [step];
    }
  }

  /** One client, one connection, both statements parsed. */
  function TwoParses(a: Stmt, b: Stmt): seq<Step> {
    [Connect(0)] + [Arrive(0)] + [Checkout(0, 0)] + [Send(0, CParse("a", a))] + [Send(0, CParse("b", b))]
  }

  /** Two statements that share a canonical name: the client means the second and the
      backend runs the first. */
  function CollisionRun(a: Stmt, b: Stmt): seq<Step> {
    TwoParses(a, b) + [Send(0, CUse(Target.Bind, "b"))] + [Step.Exec(0)] + [Step.Exec(0)]
  }

  lemma CheckedOut(cfg: Config)
    ensures var steps := [Connect(0)] + [Arrive(0)] + [Checkout(0, 0)];
            && Runs(cfg, INITIAL, steps)
            && var w := After(cfg, INITIAL, steps);
               && Holds(w, 0) && w.sessions[0] == NEW_SESSION.(held := Some(0)) && Held(w, 0) == NEW
               && w.ran == [] && w.parsed == {}
  {
    assert Runs(cfg, INITIAL, []);
    OneMore(cfg, INITIAL, [], Connect(0));
    assert [] + [Connect(0)] == [Connect(0)];
    var w1 := After(cfg, INITIAL, [Connect(0)]);
    OneMore(cfg, INITIAL, [Connect(0)], Arrive(0));
    var w2 := Next(cfg, w1, Arrive(0));
    assert Free(w2, 0);
    OneMore(cfg, INITIAL, [Connect(0)] + [Arrive(0)], Checkout(0, 0));
  }

  lemma TwoParsesRun(cfg: Config, a: Stmt, b: Stmt)
    requires cfg.canonOf(a) == cfg.canonOf(b)
    ensures Runs(cfg, INITIAL, TwoParses(a, b))
    ensures var w := After(cfg, INITIAL, TwoParses(a, b));
            var canon := cfg.canonOf(a);
            && Holds(w, 0)
            && Held(w, 0) == Conn(Held(w, 0).tracker, map[], false, [Parse(canon, a, Client(0))], [])
            && Held(w, 0).tracker.order == [canon]
            && w.sessions[0].held == Some(0)
            && "b" in w.sessions[0].names && w.sessions[0].names["b"] == canon
            && "b" in w.sessions[0].last && w.sessions[0].last["b"] == b
            && w.ran == [] && w.parsed == {a, b}
  {
    var canon := cfg.canonOf(a);
    CheckedOut(cfg);
    var w3 := After(cfg, INITIAL, [Connect(0)] + [Arrive(0)] + [Checkout(0, 0)]);
    OneMore(cfg, INITIAL, [Connect(0)] + [Arrive(0)] + [Checkout(0, 0)], Send(0, CParse("a", a)));
    var w4 := Next(cfg, w3, Send(0, CParse("a", a)));
    FirstParse(cfg, w3, a);
    var four := [Connect(0)] + [Arrive(0)] + [Checkout(0, 0)] + [Send(0, CParse("a", a))];
    OneMore(cfg, INITIAL, four, Send(0, CParse("b", b)));
    SecondParse(cfg, w4, a, b);
  }

  lemma FirstParse(cfg: Config, w: World, a: Stmt)
    requires Holds(w, 0) && w.sessions[0] == NEW_SESSION.(held := Some(0)) && Held(w, 0) == NEW
    requires w.ran == [] && w.parsed == {}
    ensures var w' := AfterSend(cfg, w, 0, CParse("a", a));
            var canon := cfg.canonOf(a);
            && Holds(w', 0) && w'.sessions[0].held == Some(0)
            && Held(w', 0) == Conn(Held(w', 0).tracker, map[], false, [Parse(canon, a, Client(0))], [])
            && Held(w', 0).tracker.order == [canon]
            && w'.ran == [] && w'.parsed == {a}
  {
    var t := EMPTY.NoteClientParse(cfg.max, cfg.canonOf(a)).0;
    assert t.order == [cfg.canonOf(a)];
    assert EMPTY.NoteClientParse(cfg.max, cfg.canonOf(a)).1 == ForwardParse(None);
  }

  lemma SecondParse(cfg: Config, w: World, a: Stmt, b: Stmt)
    requires cfg.canonOf(a) == cfg.canonOf(b)
    requires Holds(w, 0) && Held(w, 0).tracker.order == [cfg.canonOf(a)]
    ensures var w' := AfterSend(cfg, w, 0, CParse("b", b));
            var canon := cfg.canonOf(a);
            && Holds(w', 0) && w'.sessions[0].held == w.sessions[0].held
            && Held(w', 0) == Held(w, 0).(tracker := Held(w', 0).tracker)
            && Held(w', 0).tracker.order == [canon]
            && "b" in w'.sessions[0].names && w'.sessions[0].names["b"] == canon
            && "b" in w'.sessions[0].last && w'.sessions[0].last["b"] == b
            && w'.ran == w.ran && w'.parsed == w.parsed + {b}
  {
    var canon := cfg.canonOf(b);
    assert Without([canon], canon) + [canon] == [canon];
  }

  /** The run is possible and error-free, and its last step runs `a` for a client that last
      parsed `b` under the name it used. */
  lemma CollisionRunsTheOther(cfg: Config, a: Stmt, b: Stmt)
    requires cfg.canonOf(a) == cfg.canonOf(b)
    ensures Runs(cfg, INITIAL, CollisionRun(a, b)) && ErrorFree(CollisionRun(a, b))
    ensures After(cfg, INITIAL, CollisionRun(a, b)).ran == [(b, a)]
    ensures After(cfg, INITIAL, CollisionRun(a, b)).parsed == {a, b}
  {
    var canon := cfg.canonOf(a);
    var first := TwoParses(a, b);
    TwoParsesRun(cfg, a, b);
    var w5 := After(cfg, INITIAL, first);
    OneMore(cfg, INITIAL, first, Send(0, CUse(Target.Bind, "b")));
    var w6 := AfterSend(cfg, w5, 0, CUse(Target.Bind, "b"));
    var id := w5.sessions[0].next;
    assert w6.conns[0].sent == [Parse(canon, a, Client(0)), Use(Target.Bind, canon, Some(b), id)];
    var second := first + [Send(0, CUse(Target.Bind, "b"))];
    OneMore(cfg, INITIAL, second, Step.Exec(0));
    var w7 := Next(cfg, w6, Step.Exec(0));
    assert w7.conns[0].backend == map[canon := a];
    assert w7.conns[0].sent == [Use(Target.Bind, canon, Some(b), id)];
    OneMore(cfg, INITIAL, second + [Step.Exec(0)], Step.Exec(0));
  }

  /** Transparency holds in every run over a set of statements exactly when their canonical
      names are distinct. */
  lemma TransparentIffNamesDistinct(cfg: Config, stmts: set<Stmt>)
    ensures InjectiveOn(cfg.canonOf, stmts) <==>
            forall steps :: Runs(cfg, INITIAL, steps) && After(cfg, INITIAL, steps).parsed <= stmts ==>
              forall r :: r in After(cfg, INITIAL, steps).ran ==> r.0 == r.1
  {
    if InjectiveOn(cfg.canonOf, stmts) {
      forall steps | Runs(cfg, INITIAL, steps) && After(cfg, INITIAL, steps).parsed <= stmts
        ensures forall r :: r in After(cfg, INITIAL, steps).ran ==> r.0 == r.1
      {
        EveryUseRunsTheLastParse(cfg, steps);
      }
    } else {
      var a, b :| a in stmts && b in stmts && cfg.canonOf(a) == cfg.canonOf(b) && a != b;
      CollisionRunsTheOther(cfg, a, b);
      assert (b, a) in After(cfg, INITIAL, CollisionRun(a, b)).ran;
    }
  }

  /** The naming the proxy uses is not distinct on all statements: for every hash there is
      an error-free run in which a client that parsed a text without parameters has the
      shorter text with one parameter run for it. */
  lemma UnseparatedHashBreaksTransparency(hash: seq<Byte> -> Name, max: nat, query: seq<Byte>)
    ensures var cfg := Config(s => CanonicalName.CanonicalNameOf(hash, s), max);
            var meant, used := Stmt(query + [65, 65, 65, 65], []), Stmt(query, [0x41414141]);
            && meant != used
            && Runs(cfg, INITIAL, CollisionRun(used, meant)) && ErrorFree(CollisionRun(used, meant))
            && After(cfg, INITIAL, CollisionRun(used, meant)).ran == [(meant, used)]
  {
    var cfg := Config(s => CanonicalName.CanonicalNameOf(hash, s), max);
    CanonicalName.TextSwallowsType(hash, query);
    CollisionRunsTheOther(cfg, Stmt(query, [0x41414141]), Stmt(query + [65, 65, 65, 65], []));
  }
}
