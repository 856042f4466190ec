/** What goes on the wire of a connection is what its client sent, in order. */
module Relay {
  import opened Options
  import opened Lru
  import opened Server
  import opened Connection
  import opened Names
  import opened Rewriting
  import opened Virtualization
  import Transparency

  // ---------------------------------------------------------------------
  // What a client message has to become
  // ---------------------------------------------------------------------

  /** A client by its own messages: what it last parsed under each name, and how many messages
      it sent. */
  datatype History = History(last: map<Name, Stmt>, next: nat)

  /** Names of parsed statements are replaced by canonical ones, everything else is kept. */
  function Image(canonOf: Stmt -> Name, h: History, msg: ClientMsg): Msg {
    match msg
    case CParse(_, stmt) => Parse(canonOf(stmt), stmt, Client(h.next))
    case CUse(target, name) =>
      if name in h.last then Use(target, canonOf(h.last[name]), Some(h.last[name]), h.next)
      else Use(target, name, None, h.next)
    case CClosePortal => ClosePortal(h.next)
    case CQuery(discardAll) => Query(discardAll, h.next)
    case CSync => Sync(h.next)
    case COther => Other(h.next)
  }

  function Heard(h: History, i: nat, step: Step): History {
    match step
    case Send(j, CParse(name, stmt)) => if i == j then History(h.last[name := stmt], h.next + 1) else h
    case Send(j, _) => if i == j then h.(next := h.next + 1) else h
    case Absorbs(j, CloseOne(name), _) => if i == j then h.(last := h.last - {name}) else h
    case Absorbs(j, Deallocate(name), _) => if i == j then h.(last := h.last - {name}) else h
    case Absorbs(j, DeallocateAll, _) => if i == j then h.(last := map[]) else h
    case Arrive(j) => if i == j then History(map[], 0) else h
    case _ => h
  }

  function HeardAll(h: History, i: nat, steps: seq<Step>): History
    decreases |steps|
  {
    if steps == [] then h else HeardAll(Heard(h, i, steps[0]), i, steps[1..])
  }

  /** A message the proxy puts on the wire on its own account. */
  predicate ByProxy(m: Msg) {
    m.CloseStatement? || (m.Parse? && m.origin.Injected?)
  }

  function Relayed(ms: seq<Msg>): seq<Msg> {
    if ms == [] then [] else (if ByProxy(ms[0]) then [] else [ms[0]]) + Relayed(ms[1..])
  }

  lemma {:induction false} RelayedConcat(a: seq<Msg>, b: seq<Msg>)
    ensures Relayed(a + b) == Relayed(a) + Relayed(b)
    decreases |a|
  {
    if a == [] {
      assert a + b == b;
    } else {
      assert (a + b)[1..] == a[1..] + b;
      RelayedConcat(a[1..], b);
    }
  }

  // ---------------------------------------------------------------------
  // One message
  // ---------------------------------------------------------------------

  /** A Parse of a statement that the connection has: the proxy answers it itself. */
  predicate AnsweredHere(cfg: Config, c: Conn, msg: ClientMsg) {
    msg.CParse? && cfg.canonOf(msg.stmt) in c.tracker.order
  }

  /** The wire is longer by one message of the client, or by none if `answered`, and by
      messages of the proxy. */
  ghost predicate Adds(c: Conn, c': Conn, m: Msg, answered: bool) {
    && c.sent <= c'.sent
    && Relayed(c'.sent[|c.sent|..]) == if answered then [] else [m]
  }

  lemma AddsBehind(c: Conn, front: seq<Msg>, m: Msg, c': Conn)
    requires c'.sent == c.sent + front + [m] && Relayed(front) == [] && !ByProxy(m)
    ensures Adds(c, c', m, false)
  {
    assert c'.sent[|c.sent|..] == front + [m];
    RelayedConcat(front, [m]);
    assert [m][1..] == [];
  }

  lemma EvictionIsByProxy(c: Conn, eviction: Option<Name>)
    ensures var front := if eviction.Some? then [CloseStatement(eviction.value)] else [];
            PutEviction(c, eviction).sent == c.sent + front && Relayed(front) == []
  {
    if eviction.Some? {
      assert [CloseStatement(eviction.value)][1..] == [];
    }
  }

  lemma ParseAdds(c: Conn, max: nat, canon: Name, stmt: Stmt, id: nat)
    ensures var (c', answered) := SendParse(c, max, canon, stmt, Client(id));
            Adds(c, c', Parse(canon, stmt, Client(id)), answered) && (answered <==> canon in c.tracker.order)
  {
    var (t, note) := c.tracker.NoteClientParse(max, canon);
    if note.ForwardParse? {
      EvictionIsByProxy(c.(tracker := t), note.eviction);
      var front := if note.eviction.Some? then [CloseStatement(note.eviction.value)] else [];
      AddsBehind(c, front, Parse(canon, stmt, Client(id)), SendParse(c, max, canon, stmt, Client(id)).0);
    }
  }

  lemma UseAdds(c: Conn, max: nat, canon: Name, stmt: Stmt, m: Msg)
    requires m.Use?
    ensures Adds(c, Put(EnsurePrepared(c, max, canon, stmt), m), m, false)
  {
    var (t, note) := c.tracker.NoteReprepare(max, canon);
    if note.Prepare? {
      EvictionIsByProxy(c.(tracker := t), note.eviction);
      var front := if note.eviction.Some? then [CloseStatement(note.eviction.value)] else [];
      var parse := Parse(canon, stmt, Injected);
      RelayedConcat(front, [parse]);
      assert [parse][1..] == [];
      AddsBehind(c, front + [parse], m, Put(EnsurePrepared(c, max, canon, stmt), m));
    } else {
      AddsBehind(c, [], m, Put(EnsurePrepared(c, max, canon, stmt), m));
    }
  }

  lemma PlainAdds(c: Conn, c': Conn, m: Msg)
    requires c'.sent == c.sent + [m] && !ByProxy(m)
    ensures Adds(c, c', m, false)
  {
    AddsBehind(c, [], m, c');
  }

  ghost predicate Knows(s: Session, h: History) {
    s.last == h.last && s.next == h.next
  }

  /** Whatever the client sends, in any state of any run: its own message goes out, under the
      canonical name where it has one, and nothing else but messages of the proxy's own. */
  lemma SendRelays(cfg: Config, w: World, i: nat, msg: ClientMsg, h: History)
    requires Safe(cfg, w) && Holds(w, i) && Knows(w.sessions[i], h)
    ensures var out := Sends(cfg, w, i, msg);
            && !out.Bail? && (out.Answered? <==> AnsweredHere(cfg, Held(w, i), msg))
            && Adds(Held(w, i), out.conn, Image(cfg.canonOf, h, msg), out.Answered?)
  {
    var s, c := w.sessions[i], Held(w, i);
    var m := Image(cfg.canonOf, h, msg);
    assert Faithful(cfg, w.parsed, s);
    match msg
    case CParse(name, stmt) => ParseAdds(c, cfg.max, cfg.canonOf(stmt), stmt, s.next);
    case CUse(target, name) =>
      if name in s.names {
        var canon := s.names[name];
        assert i in NamesOf(w) && name in NamesOf(w)[i] && NamesOf(w)[i][name] == canon;
        ExactFinds(w.store, NamesOf(w), canon);
        Transparency.StoredIsReprepared(c, cfg.max, w.store, canon);
        UseAdds(c, cfg.max, canon, w.store[canon].stmt, m);
      } else {
        PlainAdds(c, Put(c, m), m);
      }
    case CClosePortal => PlainAdds(c, SendPortalClose(c, h.next), m);
    case CQuery(discardAll) => PlainAdds(c, SendQuery(c, discardAll, h.next), m);
    case CSync => PlainAdds(c, Put(c, m), m);
    case COther => PlainAdds(c, Put(c, m), m);
  }

  // ---------------------------------------------------------------------
  // One client at a time
  // ---------------------------------------------------------------------

  /** In every run, with errors too, a connection has one holder. */
  lemma StepKeepsExclusive(cfg: Config, w: World, step: Step)
    requires Transparency.Exclusive(w) && Enabled(cfg, w, step)
    ensures Transparency.Exclusive(Next(cfg, w, step))
  {
    var w' := Next(cfg, w, step);
    match step
    case Arrive(i) => Transparency.ArriveKeepsExclusive(w, w', i, NEW_SESSION);
    case Leave(i) => Transparency.FewerHolders(w, w', i);
    case Checkout(i, k) => Transparency.CheckoutKeepsExclusive(w, w', i, k);
    case Checkin(i) => Transparency.FewerHolders(w, w', i);
    case Abandon(i) => Transparency.FewerHolders(w, w', i);
    case GiveUp(i) => Transparency.FewerHolders(w, w', i);
    case Send(i, msg) =>
      if Sends(cfg, w, i, msg).Bail? {
        Transparency.FewerHolders(w, w', i);
      } else {
        Transparency.HoldersStay(w, w');
      }
    case Absorbs(_, _, _) => Transparency.HoldersStay(w, w');
    case Read(_) => Transparency.HoldersStay(w, w');
    case _ => assert w'.sessions == w.sessions;
  }

  // ---------------------------------------------------------------------
  // A whole hold
  // ---------------------------------------------------------------------

  /** What a step puts on the wire of a connection. */
  ghost function Puts(cfg: Config, w: World, step: Step, k: nat): seq<Msg>
    requires Enabled(cfg, w, step)
  {
    var w' := Next(cfg, w, step);
    if k in w.conns && k in w'.conns && w.conns[k].sent <= w'.conns[k].sent
    then w'.conns[k].sent[|w.conns[k].sent|..]
    else []
  }

  ghost function OnWire(cfg: Config, w: World, steps: seq<Step>, k: nat): seq<Msg>
    requires Runs(cfg, w, steps)
    decreases |steps|
  {
    if steps == [] then [] else Puts(cfg, w, steps[0], k) + OnWire(cfg, Next(cfg, w, steps[0]), steps[1..], k)
  }

  /** What the messages of a client have to become, without the Parses that are answered on
      the spot. */
  ghost function Meant(cfg: Config, w: World, steps: seq<Step>, i: nat, h: History): seq<Msg>
    requires Runs(cfg, w, steps)
    decreases |steps|
  {
    if steps == [] then []
    else
      var step, rest := steps[0], Meant(cfg, Next(cfg, w, steps[0]), steps[1..], i, Heard(h, i, steps[0]));
      if step.Send? && step.i == i && !AnsweredHere(cfg, Held(w, i), step.msg)
      then [Image(cfg.canonOf, h, step.msg)] + rest else rest
  }

  /** The client keeps its connection. */
  ghost predicate StaysHeld(steps: seq<Step>, i: nat) {
    forall step :: step in steps ==>
      !(step.Checkin? && step.i == i) && !(step.Abandon? && step.i == i) && !(step.GiveUp? && step.i == i)
  }

  /** In a world of a run, client `i` holds connection `k` and is known by its history. */
  ghost predicate Holding(cfg: Config, w: World, i: nat, k: nat, h: History) {
    && Safe(cfg, w) && Transparency.Exclusive(w)
    && Holds(w, i) && w.sessions[i].held == Some(k) && Knows(w.sessions[i], h)
  }

  lemma SendPuts(cfg: Config, w: World, i: nat, msg: ClientMsg, k: nat, h: History)
    requires Holding(cfg, w, i, k, h)
    ensures Relayed(Puts(cfg, w, Send(i, msg), k))
         == if AnsweredHere(cfg, Held(w, i), msg) then [] else [Image(cfg.canonOf, h, msg)]
  {
    SendRelays(cfg, w, i, msg, h);
  }

  lemma SendKeepsHold(cfg: Config, w: World, i: nat, msg: ClientMsg, k: nat, h: History)
    requires Holding(cfg, w, i, k, h)
    ensures Holds(Next(cfg, w, Send(i, msg)), i)
    ensures Next(cfg, w, Send(i, msg)).sessions[i].held == Some(k)
    ensures Knows(Next(cfg, w, Send(i, msg)).sessions[i], Heard(h, i, Send(i, msg)))
  {
    SendRelays(cfg, w, i, msg, h);
  }

  lemma OthersPutNothing(cfg: Config, w: World, step: Step, i: nat, k: nat, h: History)
    requires Holding(cfg, w, i, k, h) && Enabled(cfg, w, step) && !(step.Send? && step.i == i)
    ensures Puts(cfg, w, step, k) == []
  {
    if step.Send? && k in Next(cfg, w, step).conns {
      assert w.sessions[step.i].held != w.sessions[i].held;
      assert Next(cfg, w, step).conns[k] == w.conns[k];
    }
  }

  lemma OthersKeepHold(cfg: Config, w: World, step: Step, i: nat, k: nat, h: History)
    requires Holding(cfg, w, i, k, h) && Enabled(cfg, w, step) && !(step.Send? && step.i == i) && StaysHeld([step], i)
    ensures var w' := Next(cfg, w, step);
            Holds(w', i) && w'.sessions[i].held == Some(k) && Knows(w'.sessions[i], Heard(h, i, step))
  {
    assert step in [step];
    if step.Discard? {
      assert w.sessions[i].held != Some(step.k);
    } else if step.Send? && Sends(cfg, w, step.i, step.msg).Bail? {
      assert w.sessions[step.i].held != w.sessions[i].held;
    } else if step.GiveUp? {
      assert w.sessions[step.i].held != w.sessions[i].held;
    }
  }

  lemma StepRelays(cfg: Config, w: World, step: Step, i: nat, k: nat, h: History)
    requires Holding(cfg, w, i, k, h) && Enabled(cfg, w, step) && StaysHeld([step], i)
    ensures Holding(cfg, Next(cfg, w, step), i, k, Heard(h, i, step))
    ensures Relayed(Puts(cfg, w, step, k))
         == if step.Send? && step.i == i && !AnsweredHere(cfg, Held(w, i), step.msg)
            then [Image(cfg.canonOf, h, step.msg)] else []
  {
    StepKeepsSafe(cfg, w, step);
    StepKeepsExclusive(cfg, w, step);
    if step.Send? && step.i == i {
      SendPuts(cfg, w, i, step.msg, k, h);
      SendKeepsHold(cfg, w, i, step.msg, k, h);
    } else {
      OthersPutNothing(cfg, w, step, i, k, h);
      OthersKeepHold(cfg, w, step, i, k, h);
    }
  }

  lemma {:induction false} HoldRelays(cfg: Config, w: World, steps: seq<Step>, i: nat, k: nat, h: History)
    requires Holding(cfg, w, i, k, h) && Runs(cfg, w, steps) && StaysHeld(steps, i)
    ensures Relayed(OnWire(cfg, w, steps, k)) == Meant(cfg, w, steps, i, h)
    decreases |steps|
  {
    if steps != [] {
      assert steps[0] in steps;
      StepRelays(cfg, w, steps[0], i, k, h);
      HoldRelays(cfg, Next(cfg, w, steps[0]), steps[1..], i, k, Heard(h, i, steps[0]));
      RelayedConcat(Puts(cfg, w, steps[0], k), OnWire(cfg, Next(cfg, w, steps[0]), steps[1..], k));
    }
  }

  /** Sessions are known by their histories, in every run. */
  ghost predicate KnowsOne(w: World, i: nat, h: History) {
    i in w.sessions ==> Knows(w.sessions[i], h)
  }

  lemma StepKeepsKnown(cfg: Config, w: World, step: Step, i: nat, h: History)
    requires KnowsOne(w, i, h) && Enabled(cfg, w, step)
    ensures KnowsOne(Next(cfg, w, step), i, Heard(h, i, step))
  {
  }

  lemma {:induction false} RunsKeepKnown(cfg: Config, w: World, steps: seq<Step>, i: nat, h: History)
    requires KnowsOne(w, i, h) && Transparency.Exclusive(w) && Runs(cfg, w, steps)
    ensures KnowsOne(After(cfg, w, steps), i, HeardAll(h, i, steps)) && Transparency.Exclusive(After(cfg, w, steps))
    decreases |steps|
  {
    if steps != [] {
      StepKeepsKnown(cfg, w, steps[0], i, h);
      StepKeepsExclusive(cfg, w, steps[0]);
      RunsKeepKnown(cfg, Next(cfg, w, steps[0]), steps[1..], i, Heard(h, i, steps[0]));
    }
  }

  /** In every run, with backend errors too, whatever the other clients do: while a client holds
      a connection, what is put on its wire, without the proxy's own Parses and Closes, is
      message by message what the client sent, in order, with the names of its statements
      replaced by the canonical ones, and without the Parses that the proxy answers itself. */
  lemma WireIsTheClients(cfg: Config, before: seq<Step>, steps: seq<Step>, i: nat, k: nat)
    requires Runs(cfg, INITIAL, before) && Runs(cfg, After(cfg, INITIAL, before), steps)
    requires Holds(After(cfg, INITIAL, before), i) && After(cfg, INITIAL, before).sessions[i].held == Some(k)
    requires StaysHeld(steps, i)
    ensures Relayed(OnWire(cfg, After(cfg, INITIAL, before), steps, k))
         == Meant(cfg, After(cfg, INITIAL, before), steps, i, HeardAll(History(map[], 0), i, before))
  {
    var h := History(map[], 0);
    Transparency.InitialIsOrderly(cfg);
    RunsKeepSafe(cfg, INITIAL, before);
    RunsKeepKnown(cfg, INITIAL, before, i, h);
    HoldRelays(cfg, After(cfg, INITIAL, before), steps, i, k, HeardAll(h, i, before));
  }
}
