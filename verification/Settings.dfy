/** Session settings of a pooled connection, and the reset before it is pooled. */
module Settings {
  import opened Options
  import opened Sequences
  import Backend

  type Var = string
  type Value = string
  type Status = Backend.TransactionStatus

  /** What a query does to settings, transactions and subscriptions. PREPARE TRANSACTION is a
      `Commit` here. */
  datatype Command =
    | Set(v: Var, value: Option<Value>)        // None is SET ... TO DEFAULT
    | Reset(v: Var)
    | ResetAll
    | DiscardAll
    | Begin
    | Commit
    | Rollback
    | CommitChain
    | RollbackChain
    | Savepoint(name: string)
    | Release(name: string)
    | RollbackTo(name: string)
    | Listen
    | UnlistenAll
    | Work

  // ---------------------------------------------------------------------
  // The backend
  // ---------------------------------------------------------------------

  /** Settings like role that RESET ALL, or DISCARD ALL, leaves alone. */
  datatype Spared = Spared(byResetAll: set<Var>, byDiscardAll: set<Var>)

  /** The settings to go back to: those at the start of the transaction, without a name, or at
      a savepoint. */
  datatype Level = Level(name: string, values: map<Var, Value>)

  /** The settings that differ from startup, what rollbacks bring back, and the status. */
  datatype Server = Server(values: map<Var, Value>, saved: seq<Level>, status: Status)

  function Only(values: map<Var, Value>, vars: set<Var>): map<Var, Value> {
    map v | v in values && v in vars :: values[v]
  }

  function Changed(spared: Spared, values: map<Var, Value>, c: Command): map<Var, Value> {
    match c
    case Set(v, Some(x)) => values[v := x]
    case Set(v, None) => values - {v}
    case Reset(v) => values - {v}
    case ResetAll => Only(values, spared.byResetAll)
    case DiscardAll => Only(values, spared.byDiscardAll)
    case _ => values
  }

  /** The innermost savepoint of that name; 0 when there is none. */
  function Find(saved: seq<Level>, name: string): (k: nat)
    ensures saved != [] ==> k < |saved|
    ensures k > 0 ==> k < |saved| && saved[k].name == name
  {
    var n := |saved| - 1;
    if n <= 0 then 0 else if saved[n].name == name then n else Find(saved[..n], name)
  }

  /** What a query does to the transaction: nothing, after an error; a start; an error that
      aborts; work in it; a new savepoint; the end of savepoint `level`; the way back to it; and
      its end, kept or undone, with another one chained or not. */
  datatype Move =
    | Refuse
    | Start
    | Abort
    | Apply
    | Open(name: string)
    | Merge(level: nat)
    | Back(level: nat)
    | Keep(chained: bool)
    | Undo(chained: bool)

  function MoveWhenIdle(c: Command, ok: bool): Move {
    if !ok || c.Savepoint? || c.Release? || c.RollbackTo? || c.CommitChain? || c.RollbackChain? then Refuse
    else if c.Begin? then Start
    else Apply
  }

  /** An aborted transaction can only end or go back to a savepoint. */
  function MoveWhenFailed(saved: seq<Level>, c: Command): Move {
    match c
    case Commit => Undo(false)
    case Rollback => Undo(false)
    case CommitChain => Undo(true)
    case RollbackChain => Undo(true)
    case RollbackTo(name) => if Find(saved, name) > 0 then Back(Find(saved, name)) else Refuse
    case _ => Refuse
  }

  /** DISCARD ALL cannot run in a transaction. A COMMIT that fails is a ROLLBACK. */
  function MoveInTransaction(saved: seq<Level>, c: Command, ok: bool): Move {
    match c
    case Rollback => Undo(false)
    case RollbackChain => Undo(true)
    case RollbackTo(name) => if Find(saved, name) > 0 then Back(Find(saved, name)) else Abort
    case Commit => if ok then Keep(false) else Undo(false)
    case CommitChain => if ok then Keep(true) else Undo(false)
    case Savepoint(name) => if ok then Open(name) else Abort
    case Release(name) => if ok && Find(saved, name) > 0 then Merge(Find(saved, name)) else Abort
    case DiscardAll => Abort
    case _ => if ok then Apply else Abort
  }

  function MoveOf(s: Server, c: Command, ok: bool): Move {
    match s.status
    case Idle => MoveWhenIdle(c, ok)
    case InTransaction => MoveInTransaction(s.saved, c, ok)
    case Failed => MoveWhenFailed(s.saved, c)
  }

  function Bottom(s: Server): map<Var, Value> {
    if s.saved == [] then s.values else s.saved[0].values
  }

  function Top(s: Server): map<Var, Value> {
    if s.saved == [] then s.values else s.saved[|s.saved| - 1].values
  }

  function Ended(values: map<Var, Value>, chained: bool): Server {
    if chained then Server(values, [Level("", values)], Backend.InTransaction) else Server(values, [], Backend.Idle)
  }

  function Moved(spared: Spared, s: Server, move: Move, c: Command): Server {
    match move
    case Refuse => s
    case Start => Ended(s.values, true)
    case Abort => s.(values := Top(s), status := Backend.Failed)
    case Apply => s.(values := Changed(spared, s.values, c))
    case Open(name) => s.(saved := s.saved + [Level(name, s.values)])
    case Merge(k) => if k < |s.saved| then s.(saved := s.saved[..k]) else s
    case Back(k) => if k < |s.saved| then Server(s.saved[k].values, s.saved[..k + 1], Backend.InTransaction) else s
    case Keep(chained) => Ended(s.values, chained)
    case Undo(chained) => Ended(Bottom(s), chained)
  }

  /** One query, which succeeds or fails. */
  function Exec(spared: Spared, s: Server, c: Command, ok: bool): Server {
    Moved(spared, s, MoveOf(s, c, ok), c)
  }

  predicate Fails(s: Server, c: Command, ok: bool) {
    || MoveOf(s, c, ok).Refuse?
    || MoveOf(s, c, ok).Abort?
    || (s.status.InTransaction? && (c.Commit? || c.CommitChain?) && !ok)
  }

  datatype Reply = Ready(status: Status) | Error | Another

  function Answer(spared: Spared, s: Server, c: Command, ok: bool): seq<Reply> {
    [if Fails(s, c, ok) then Error else Another, Ready(Exec(spared, s, c, ok).status)]
  }

  // ---------------------------------------------------------------------
  // The reset
  // ---------------------------------------------------------------------

  /** One statement of the reset query. `BaseReset` is everything that is not a setting. */
  datatype ResetStatement = RollbackNow | ResetVar(v: Var) | BaseReset

  function AfterRollback(s: Server): Server {
    Server(Bottom(s), [], Backend.Idle)
  }

  function RunReset(s: Server, query: seq<ResetStatement>): Server
    decreases |query|
  {
    if query == [] then s
    else
      RunReset(
        match query[0]
        case RollbackNow => AfterRollback(s)
        case ResetVar(v) => s.(values := s.values - {v})
        case BaseReset => s,
        query[1..])
  }

  function ResetVars(order: seq<Var>): seq<ResetStatement> {
    seq(|order|, i requires 0 <= i < |order| => ResetVar(order[i]))
  }

  function ResetQuery(last: Status, order: seq<Var>): seq<ResetStatement> {
    (if last.Idle? then [] else [RollbackNow]) + (ResetVars(order) + [BaseReset])
  }

  /** What the reset makes of the replies, and what it leaves unread. */
  function ResetOutcome(replies: seq<Reply>): (bool, seq<Reply>)
    decreases |replies|
  {
    if replies == [] then (false, [])
    else
      match replies[0]
      case Ready(status) => (status.Idle?, replies[1..])
      case Error => (false, replies[1..])
      case Another => ResetOutcome(replies[1..])
  }

  // ---------------------------------------------------------------------
  // The proxy's side
  // ---------------------------------------------------------------------

  /** How a pool forwards: whole sessions, or transactions with LISTEN either pinning the
      connection or taken over by the multiplexer. */
  datatype Mode = Session | Pin | Multiplex

  datatype Config = Config(mode: Mode, spared: Spared)

  /** track_set_reset: what the proxy believes needs a reset. */
  function Track(dirty: set<Var>, c: Command): set<Var> {
    match c
    case Set(v, _) => dirty + {v}
    case Reset(v) => dirty - {v}
    case ResetAll => {}
    case DiscardAll => {}
    case _ => dirty
  }

  /** LISTEN pins the connection when it is sent, UNLISTEN * unpins it. */
  function Pinned(mode: Mode, pinned: bool, c: Command): bool {
    if mode.Pin? && c.Listen? then true else if mode.Pin? && c.UnlistenAll? then false else pinned
  }

  /** Whether a ReadyForQuery ends the hold. */
  predicate Releases(mode: Mode, pinned: bool, status: Status) {
    !mode.Session? && status.Idle? && !pinned
  }

  /** Labels, read by no decision.
      `plain`: in this hold the connection was not kept for a session or pinned, and the
      tracking read every command that touches settings as what it is. `guarded`: and no reset
      in it was executed where a rollback could undo it but not the SET before it (`Guard`).
      `always` says both of every hold so far. `base`: the settings when the hold began.
      `executed`: its commands that the backend has executed. `seen`: what the tracking read.
      `done`: the commands that took effect since the connection was made; `open`: those of the
      open transaction, one list for each level that a rollback can go back to. */
  datatype Story = Story(
    plain: bool, guarded: bool, always: bool, base: map<Var, Value>, executed: seq<Command>,
    seen: seq<Command>, done: seq<Command>, open: seq<seq<Command>>)

  /** `Stray` is a connection that went back to the pool with replies still to come. */
  datatype Phase = Pooled | Held | Resetting | Stray | Closed

  datatype Conn = Conn(
    phase: Phase, pinned: bool, dirty: set<Var>, last: Status,
    inFlight: seq<Command>, replies: seq<Reply>, server: Server, story: Story)

  const NEW :=
    Conn(Pooled, false, {}, Backend.Idle, [], [], Server(map[], [], Backend.Idle),
         Story(true, true, true, map[], [], [], [], []))

  /** `reading` is what the tracking makes of the query: `Work` when it does not look at it, as
      when it is in a Parse, or does not know the form. `Leave` is a client that is gone, `Drop`
      an error that closes the connection. `Recycle` runs the reset, with the dirty set drained
      in some order. */
  datatype Step =
    | Checkout
    | Send(command: Command, reading: Command)
    | Execute(ok: bool)
    | Read
    | Leave
    | Drop
    | Recycle(order: seq<Var>, ok: bool)

  /** The multiplexer takes LISTEN and UNLISTEN for itself. */
  predicate Enabled(cfg: Config, c: Conn, step: Step) {
    match step
    case Checkout => c.phase.Pooled?
    case Send(_, reading) => c.phase.Held? && (cfg.mode.Multiplex? ==> !reading.Listen? && !reading.UnlistenAll?)
    case Execute(_) => (c.phase.Held? || c.phase.Resetting?) && c.inFlight != []
    case Read => c.phase.Held? && c.replies != []
    case Leave => c.phase.Held?
    case Drop => c.phase.Held?
    case Recycle(order, _) =>
      c.phase.Resetting? && (c.replies != [] || c.inFlight == []) && multiset(order) == multiset(c.dirty)
  }

  function Next(cfg: Config, c: Conn, step: Step): Conn
    requires Enabled(cfg, c, step)
  {
    match step
    case Checkout => c.(phase := Held, pinned := false, story := Opened(cfg.mode, c.story, c.server.values))
    case Send(command, reading) =>
      var pinned := Pinned(cfg.mode, c.pinned, command);
      c.(pinned := pinned,
         dirty := if cfg.mode.Session? then c.dirty else Track(c.dirty, reading),
         inFlight := c.inFlight + [command],
         story := Told(cfg.mode, c.story, command, reading, pinned))
    case Execute(ok) =>
      var command := c.inFlight[0];
      c.(inFlight := c.inFlight[1..],
         server := Exec(cfg.spared, c.server, command, ok),
         replies := c.replies + Answer(cfg.spared, c.server, command, ok),
         story := Ran(cfg.spared, c.story, c.server, command, ok))
    case Read =>
      var c' := c.(replies := c.replies[1..]);
      if !c.replies[0].Ready? then c'
      else
        var status := c.replies[0].status;
        c'.(last := status, phase := if Releases(cfg.mode, c.pinned, status) then Resetting else Held)
    case Leave => c.(phase := Resetting)
    case Drop => c.(phase := Closed)
    case Recycle(order, ok) => Recycled(c, order, ok)
  }

  /** The reset reads the oldest replies that are outstanding as its own, if there are any. */
  function Recycled(c: Conn, order: seq<Var>, ok: bool): Conn {
    if c.replies != [] then
      var (success, rest) := ResetOutcome(c.replies);
      c.(phase := if success then Stray else Closed, dirty := {}, last := Backend.Idle, replies := rest)
    else
      var server := RunReset(c.server, ResetQuery(c.last, order));
      if ResetOutcome(if ok then [Another, Ready(server.status)] else [Error, Ready(c.last)]).0 then
        c.(phase := Pooled, dirty := {}, last := Backend.Idle, server := server, story := Closing(c.story, order))
      else c.(phase := Closed, dirty := {})
  }

  function Opened(mode: Mode, story: Story, base: map<Var, Value>): Story {
    story.(plain := !mode.Session?, guarded := true, always := story.always && !mode.Session?, base := base,
           executed := [], seen := [])
  }

  predicate TouchesNone(c: Command) {
    !c.Set? && !c.Reset? && !c.ResetAll? && !c.DiscardAll?
  }

  function Told(mode: Mode, story: Story, c: Command, reading: Command, pinned: bool): Story {
    var plain := story.plain && !pinned && (reading == c || (TouchesNone(c) && TouchesNone(reading)));
    story.(plain := plain, always := story.always && plain,
           seen := if mode.Session? then story.seen else story.seen + [reading])
  }

  function Flat(lists: seq<seq<Command>>): seq<Command> {
    if lists == [] then []
    else
      var n := |lists| - 1;
      Flat(lists[..n]) + lists[n]
  }

  function OpenAfter(open: seq<seq<Command>>, move: Move, c: Command): seq<seq<Command>> {
    var n := |open| - 1;
    match move
    case Refuse => open
    case Start => [[]]
    case Abort => if n < 0 then open else open[..n] + [[]]
    case Apply => if n < 0 then open else open[..n] + [open[n] + [c]]
    case Open(_) => open + [[]]
    case Merge(k) => if 0 < k <= n then open[..k - 1] + [Flat(open[k - 1..])] else open
    case Back(k) => if k <= n then open[..k] + [[]] else open
    case Keep(chained) => if chained then [[]] else []
    case Undo(chained) => if chained then [[]] else []
  }

  function DoneAfter(done: seq<Command>, open: seq<seq<Command>>, move: Move, c: Command): seq<Command> {
    if move.Keep? then done + Flat(open) else if move.Apply? && open == [] then done + [c] else done
  }

  function Ran(spared: Spared, story: Story, s: Server, c: Command, ok: bool): Story {
    var move := MoveOf(s, c, ok);
    var guarded := story.guarded && Guard(spared, s, c, story.base);
    story.(guarded := guarded, always := story.always && guarded, executed := story.executed + [c],
           done := DoneAfter(story.done, story.open, move, c), open := OpenAfter(story.open, move, c))
  }

  function Resets(order: seq<Var>): seq<Command> {
    seq(|order|, i requires 0 <= i < |order| => Reset(order[i]))
  }

  function Closing(story: Story, order: seq<Var>): Story {
    story.(seen := [], done := story.done + Resets(order), open := [])
  }

  // ---------------------------------------------------------------------
  // What a rollback may bring back
  // ---------------------------------------------------------------------

  /** The settings that are not as they were. */
  function Extra(values: map<Var, Value>, base: map<Var, Value>): set<Var> {
    set v | v in values && (v !in base || values[v] != base[v])
  }

  /** The settings that some level has not as they were. */
  function Behind(saved: seq<Level>, base: map<Var, Value>): set<Var> {
    set k, v | 0 <= k < |saved| && v in Extra(saved[k].values, base) :: v
  }

  function Exposed(s: Server, base: map<Var, Value>): set<Var> {
    Extra(s.values, base) + Behind(s.saved, base)
  }

  /** A reset that the tracking sees is harmless when no rollback can bring back what it resets,
      and it resets all that it is taken to reset. */
  predicate Guard(spared: Spared, s: Server, c: Command, base: map<Var, Value>) {
    match c
    case Reset(v) => v !in Behind(s.saved, base)
    case ResetAll => Behind(s.saved, base) == {} && Extra(s.values, base) !! spared.byResetAll
    case DiscardAll => Behind(s.saved, base) == {}
    case _ => true
  }

  // ---------------------------------------------------------------------
  // Runs
  // ---------------------------------------------------------------------

  ghost predicate Runs(cfg: Config, c: Conn, steps: seq<Step>)
    decreases |steps|
  {
    steps == [] || (Enabled(cfg, c, steps[0]) && Runs(cfg, Next(cfg, c, steps[0]), steps[1..]))
  }

  ghost function After(cfg: Config, c: Conn, steps: seq<Step>): Conn
    requires Runs(cfg, c, steps)
    decreases |steps|
  {
    if steps == [] then c else After(cfg, Next(cfg, c, steps[0]), steps[1..])
  }

  /** The proxy's record of a pooled connection. */
  class TrackedConn {
    var dirty: set<Var>
    var last: Status
    var pinned: bool

    constructor ()
      ensures dirty == {} && last == Backend.Idle && !pinned
    {
      dirty, last, pinned := {}, Backend.Idle, false;
    }

    /** LISTEN and UNLISTEN * on their way to the server. */
    method NoteListen(mode: Mode, c: Command)
      modifies this`pinned
      ensures pinned == Pinned(mode, old(pinned), c)
    {
      if mode.Pin? {
        match c
        case Listen => pinned := true;
        case UnlistenAll => pinned := false;
        case _ =>
      }
    }

    /** A ReadyForQuery from the server: records the status, says whether the hold is over. */
    method OnReady(mode: Mode, status: Status) returns (release: bool)
      modifies this`last
      ensures last == status && release == Releases(mode, pinned, status)
    {
      last := status;
      release := status.Idle? && !pinned && !mode.Session?;
    }

    /** Looks at a query on its way to the server. */
    method TrackSetReset(c: Command)
      modifies this`dirty
      ensures dirty == Track(old(dirty), c)
    {
      match c
      case Set(v, _) => dirty := dirty + {v};
      case ResetAll => dirty := {};
      case Reset(v) => dirty := dirty - {v};
      case DiscardAll => dirty := {};
      case _ =>
    }

    /** Builds the reset query, draining the dirty set in its own order. */
    method DrainDirty() returns (query: seq<ResetStatement>, ghost order: seq<Var>)
      modifies this`dirty
      ensures dirty == {} && multiset(order) == multiset(old(dirty))
      ensures query == ResetQuery(last, order)
    {
      query := if last.Idle? then [] else [RollbackNow];
      ghost var front := query;
      order := [];
      while dirty != {}
        invariant dirty <= old(dirty) && multiset(order) == multiset(old(dirty)) - multiset(dirty)
        invariant query == front + ResetVars(order)
        decreases dirty
      {
        var v :| v in dirty;
        dirty := dirty - {v};
        query := query + [ResetVar(v)];
        assert ResetVars(order + [v]) == ResetVars(order) + [ResetVar(v)];
        order := order + [v];
      }
      query := query + [BaseReset];
      assert query == front + (ResetVars(order) + [BaseReset]);
    }

    /** Reads replies to the reset up to the first ReadyForQuery or error; None is a stream
        that ended. */
    method AwaitReset(replies: seq<Reply>) returns (ok: bool, rest: seq<Reply>)
      modifies this`last
      ensures (ok, rest) == ResetOutcome(replies)
      ensures last == if ok then Backend.Idle else old(last)
    {
      rest := replies;
      while rest != []
        invariant ResetOutcome(replies) == ResetOutcome(rest) && last == old(last)
        decreases |rest|
      {
        var reply := rest[0];
        rest := rest[1..];
        match reply
        case Ready(status) =>
          if status.Idle? {
            last := Backend.Idle;
          }
          return status.Idle?, rest;
        case Error => return false, rest;
        case Another =>
      }
      ok := false;
    }
  }

  // ---------------------------------------------------------------------
  // Last words
  // ---------------------------------------------------------------------

  /** Says something about the setting. */
  predicate Touches(spared: Spared, c: Command, v: Var) {
    match c
    case Set(w, _) => v == w
    case Reset(w) => v == w
    case ResetAll => v !in spared.byResetAll
    case DiscardAll => v !in spared.byDiscardAll
    case _ => false
  }

  /** The last command that says something about the setting. */
  function LastOn(spared: Spared, commands: seq<Command>, v: Var): Option<Command> {
    if commands == [] then None
    else
      var n := |commands| - 1;
      if Touches(spared, commands[n], v) then Some(commands[n]) else LastOn(spared, commands[..n], v)
  }

  function ValuesAfter(spared: Spared, commands: seq<Command>): map<Var, Value> {
    if commands == [] then map[]
    else
      var n := |commands| - 1;
      Changed(spared, ValuesAfter(spared, commands[..n]), commands[n])
  }

  function TrackedAfter(commands: seq<Command>): set<Var> {
    if commands == [] then {}
    else
      var n := |commands| - 1;
      Track(TrackedAfter(commands[..n]), commands[n])
  }

  /** A SET to a value is the last thing said. */
  predicate LastSets(spared: Spared, commands: seq<Command>, v: Var) {
    var last := LastOn(spared, commands, v);
    last.Some? && last.value.Set? && last.value.value.Some?
  }

  /** The last thing the tracking read about the setting is a SET; to the tracking, RESET ALL and
      DISCARD ALL spare nothing. */
  predicate LastTracked(commands: seq<Command>, v: Var) {
    var last := LastOn(Spared({}, {}), commands, v);
    last.Some? && last.value.Set?
  }

  lemma {:induction false} ValuesAreLastSet(spared: Spared, commands: seq<Command>, v: Var)
    ensures v in ValuesAfter(spared, commands) <==> LastSets(spared, commands, v)
    ensures v in ValuesAfter(spared, commands) ==>
              Some(ValuesAfter(spared, commands)[v]) == LastOn(spared, commands, v).value.value
    decreases |commands|
  {
    if commands != [] {
      ValuesAreLastSet(spared, commands[..|commands| - 1], v);
    }
  }

  lemma {:induction false} TrackedAreLastSet(commands: seq<Command>, v: Var)
    ensures v in TrackedAfter(commands) <==> LastTracked(commands, v)
    decreases |commands|
  {
    if commands != [] {
      TrackedAreLastSet(commands[..|commands| - 1], v);
    }
  }

  lemma ValuesSnoc(spared: Spared, commands: seq<Command>, c: Command)
    ensures ValuesAfter(spared, commands + [c]) == Changed(spared, ValuesAfter(spared, commands), c)
  {
    assert (commands + [c])[..|commands|] == commands;
  }

  lemma TrackedSnoc(commands: seq<Command>, c: Command)
    ensures TrackedAfter(commands + [c]) == Track(TrackedAfter(commands), c)
  {
    assert (commands + [c])[..|commands|] == commands;
  }

  lemma {:induction false} ValuesAfterResets(spared: Spared, commands: seq<Command>, order: seq<Var>)
    ensures ValuesAfter(spared, commands + Resets(order)) == ValuesAfter(spared, commands) - set v | v in order
    decreases |order|
  {
    var values := ValuesAfter(spared, commands);
    if order == [] {
      assert commands + Resets(order) == commands;
      assert (set v | v in order) == {};
      assert values - {} == values;
    } else {
      var n := |order| - 1;
      ValuesAfterResets(spared, commands, order[..n]);
      ResetsSnoc(commands, order[..n], order[n]);
      ValuesSnoc(spared, commands + Resets(order[..n]), Reset(order[n]));
      assert order == order[..n] + [order[n]];
      WithoutEach(values, order[..n], order[n]);
    }
  }

  lemma ResetsSnoc(commands: seq<Command>, order: seq<Var>, v: Var)
    ensures commands + Resets(order + [v]) == (commands + Resets(order)) + [Reset(v)]
  {
    assert Resets(order + [v]) == Resets(order) + [Reset(v)];
  }

  lemma WithoutEach(values: map<Var, Value>, order: seq<Var>, v: Var)
    ensures (values - set w | w in order) - {v} == values - set w | w in order + [v]
  {
  }

  // ---------------------------------------------------------------------
  // The reset query
  // ---------------------------------------------------------------------

  lemma {:induction false} ResetsRemove(s: Server, order: seq<Var>, tail: seq<ResetStatement>)
    ensures RunReset(s, ResetVars(order) + tail) == RunReset(s.(values := s.values - set v | v in order), tail)
    decreases |order|
  {
    if order == [] {
      assert ResetVars(order) + tail == tail;
      assert (set v | v in order) == {} && s.values - {} == s.values;
    } else {
      var s' := s.(values := s.values - {order[0]});
      ResetsRemove(s', order[1..], tail);
      assert ResetVars(order) + tail == [ResetVar(order[0])] + (ResetVars(order[1..]) + tail);
      assert (set v | v in order) == {order[0]} + set v | v in order[1..];
      assert s'.values - (set v | v in order[1..]) == s.values - (set v | v in order);
    }
  }

  /** In whatever order the dirty set is drained, the reset of a known status ends the
      transaction and takes the tracked settings away. */
  lemma ResetIsExact(s: Server, order: seq<Var>, dirty: set<Var>)
    requires multiset(order) == multiset(dirty) && (s.status.Idle? ==> s.saved == [])
    ensures RunReset(s, ResetQuery(s.status, order)) == Server(Bottom(s) - dirty, [], Backend.Idle)
    ensures (set v | v in order) == dirty
  {
    var rest, s' := ResetVars(order) + [BaseReset], AfterRollback(s);
    forall v
      ensures v in dirty <==> v in order
    {
      assert v in multiset(order) <==> v in multiset(dirty);
    }
    ResetsRemove(s', order, [BaseReset]);
    assert (set v | v in order) == dirty;
    var cleared := s'.(values := s'.values - dirty);
    assert RunReset(s', rest) == cleared by {
      assert [BaseReset][1..] == [];
      assert RunReset(cleared, []) == cleared;
    }
    assert [] + rest == rest && ([RollbackNow] + rest)[1..] == rest;
  }

  /** What the reset query says: ROLLBACK first, if and only if the connection is not known to
      be idle, one RESET for each variable, and the base reset last. */
  lemma ResetQuerySays(last: Status, order: seq<Var>)
    ensures var query := ResetQuery(last, order);
            var n := if last.Idle? then 0 else 1;
            && |query| == n + |order| + 1
            && (!last.Idle? ==> query[0] == RollbackNow)
            && (forall i :: 0 <= i < |order| ==> query[n + i] == ResetVar(order[i]))
            && query[|query| - 1] == BaseReset
  {
  }

  // ---------------------------------------------------------------------
  // What every step keeps
  // ---------------------------------------------------------------------

  predicate Live(c: Conn) {
    !c.phase.Stray? && !c.phase.Closed?
  }

  predicate Quiet(c: Conn) {
    c.inFlight == [] && c.replies == []
  }

  function LastRead(last: Status, replies: seq<Reply>): Status {
    if replies != [] && replies[|replies| - 1].Ready? then replies[|replies| - 1].status else last
  }

  /** After the replies in flight, the proxy knows the transaction status. */
  ghost predicate Aligned(c: Conn) {
    && LastRead(c.last, c.replies) == c.server.status
    && (c.replies != [] ==> c.replies[|c.replies| - 1].Ready?)
  }

  /** A transaction has a level to go back to; when it is aborted, it is where the last level
      was. */
  predicate Shaped(s: Server) {
    && (s.status.Idle? <==> s.saved == [])
    && (s.status.Failed? ==> s.values == Top(s))
  }

  /** The settings are those of the commands that took effect, and so are those of each level. */
  ghost predicate Effective(spared: Spared, s: Server, done: seq<Command>, open: seq<seq<Command>>) {
    && |open| == |s.saved|
    && s.values == ValuesAfter(spared, done + Flat(open))
    && forall k :: 0 <= k < |open| ==> s.saved[k].values == ValuesAfter(spared, done + Flat(open[..k]))
  }

  ghost predicate Sound(spared: Spared, c: Conn) {
    Live(c) ==>
      && Aligned(c)
      && Shaped(c.server)
      && Effective(spared, c.server, c.story.done, c.story.open)
      && c.dirty == TrackedAfter(c.story.seen)
      && (c.phase.Pooled? ==> Quiet(c) && c.dirty == {} && c.last.Idle?)
  }

  lemma FlatSnoc(lists: seq<seq<Command>>, list: seq<Command>)
    ensures Flat(lists + [list]) == Flat(lists) + list
    ensures (lists + [list])[..|lists|] == lists
  {
    assert (lists + [list])[..|lists|] == lists;
  }

  lemma {:induction false} FlatAppend(a: seq<seq<Command>>, b: seq<seq<Command>>)
    ensures Flat(a + b) == Flat(a) + Flat(b)
    decreases |b|
  {
    if b == [] {
      assert a + b == a && Flat(a) + [] == Flat(a);
    } else {
      var front, last := b[..|b| - 1], b[|b| - 1];
      FlatAppend(a, front);
      FlatSnoc(a + front, last);
      FlatSnoc(front, last);
      assert b == front + [last] && a + b == (a + front) + [last];
      Assoc(Flat(a), Flat(front), last);
    }
  }

  lemma FlatSplits(lists: seq<seq<Command>>, k: nat)
    requires k <= |lists|
    ensures Flat(lists) == Flat(lists[..k]) + Flat(lists[k..])
  {
    FlatAppend(lists[..k], lists[k..]);
    assert lists[..k] + lists[k..] == lists;
  }

  lemma EndedIsEffective(spared: Spared, done: seq<Command>, chained: bool)
    ensures Effective(spared, Ended(ValuesAfter(spared, done), chained), done, if chained then [[]] else [])
  {
    var none: seq<seq<Command>> := [];
    FlatSnoc(none, []);
    assert none + [[]] == [[]] && done + [] == done;
  }

  lemma OpenIsEffective(spared: Spared, s: Server, done: seq<Command>, open: seq<seq<Command>>, name: string)
    requires Effective(spared, s, done, open)
    ensures Effective(spared, s.(saved := s.saved + [Level(name, s.values)]), done, open + [[]])
  {
    FlatSnoc(open, []);
    assert Flat(open) + [] == Flat(open);
    forall k | 0 <= k < |open|
      ensures (open + [[]])[..k] == open[..k]
    {
    }
  }

  lemma BackIsEffective(spared: Spared, s: Server, done: seq<Command>, open: seq<seq<Command>>, k: nat)
    requires Effective(spared, s, done, open) && k < |open|
    ensures Effective(spared, Server(s.saved[k].values, s.saved[..k + 1], Backend.InTransaction), done, open[..k] + [[]])
  {
    FlatSnoc(open[..k], []);
    assert Flat(open[..k]) + [] == Flat(open[..k]);
    forall j | 0 <= j <= k
      ensures (open[..k] + [[]])[..j] == open[..j]
    {
    }
  }

  lemma AbortIsEffective(spared: Spared, s: Server, done: seq<Command>, open: seq<seq<Command>>)
    requires Effective(spared, s, done, open) && open != []
    ensures Effective(spared, s.(values := Top(s), status := Backend.Failed), done, open[..|open| - 1] + [[]])
  {
    var n := |open| - 1;
    BackIsEffective(spared, s, done, open, n);
    assert s.saved[..n + 1] == s.saved;
  }

  lemma MergeIsEffective(spared: Spared, s: Server, done: seq<Command>, open: seq<seq<Command>>, k: nat)
    requires Effective(spared, s, done, open) && 0 < k < |open|
    ensures Effective(spared, s.(saved := s.saved[..k]), done, open[..k - 1] + [Flat(open[k - 1..])])
  {
    FlatSplits(open, k - 1);
    FlatSnoc(open[..k - 1], Flat(open[k - 1..]));
    forall j | 0 <= j < k
      ensures (open[..k - 1] + [Flat(open[k - 1..])])[..j] == open[..j]
    {
    }
  }

  lemma ApplyIsEffective(spared: Spared, s: Server, done: seq<Command>, open: seq<seq<Command>>, c: Command)
    requires Effective(spared, s, done, open) && open != []
    ensures Effective(spared, s.(values := Changed(spared, s.values, c)), done,
                      open[..|open| - 1] + [open[|open| - 1] + [c]])
  {
    var n := |open| - 1;
    FlatSnoc(open[..n], open[n] + [c]);
    assert done + (Flat(open[..n]) + (open[n] + [c])) == (done + Flat(open)) + [c];
    ValuesSnoc(spared, done + Flat(open), c);
    forall k | 0 <= k <= n
      ensures (open[..n] + [open[n] + [c]])[..k] == open[..k]
    {
    }
  }

  /** The levels that a query goes back to exist. */
  predicate Fits(s: Server, move: Move) {
    match move
    case Abort => s.saved != []
    case Merge(k) => 0 < k < |s.saved|
    case Back(k) => k < |s.saved|
    case Start => s.saved == []
    case _ => true
  }

  lemma MoveFits(s: Server, c: Command, ok: bool)
    requires Shaped(s)
    ensures Fits(s, MoveOf(s, c, ok))
  {
  }

  lemma WorkIsEffective(spared: Spared, s: Server, done: seq<Command>, open: seq<seq<Command>>, c: Command)
    requires Effective(spared, s, done, open)
    ensures Effective(spared, Moved(spared, s, Apply, c), DoneAfter(done, open, Apply, c), OpenAfter(open, Apply, c))
  {
    if open == [] {
      assert done + [] == done && (done + [c]) + [] == done + [c];
      ValuesSnoc(spared, done, c);
    } else {
      ApplyIsEffective(spared, s, done, open, c);
    }
  }

  lemma BottomIsDone(spared: Spared, s: Server, done: seq<Command>, open: seq<seq<Command>>)
    requires Effective(spared, s, done, open)
    ensures Bottom(s) == ValuesAfter(spared, done)
  {
    assert done + [] == done;
    assert open != [] ==> open[..0] == [];
  }

  lemma EndIsEffective(spared: Spared, s: Server, done: seq<Command>, open: seq<seq<Command>>, move: Move, c: Command)
    requires Fits(s, move) && Effective(spared, s, done, open) && (move.Start? || move.Keep? || move.Undo?)
    ensures Effective(spared, Moved(spared, s, move, c), DoneAfter(done, open, move, c), OpenAfter(open, move, c))
  {
    BottomIsDone(spared, s, done, open);
    match move
    case Start => EndedIsEffective(spared, done, true);
    case Keep(chained) => EndedIsEffective(spared, done + Flat(open), chained);
    case Undo(chained) => EndedIsEffective(spared, done, chained);
  }

  lemma MovedIsEffective(spared: Spared, s: Server, done: seq<Command>, open: seq<seq<Command>>, move: Move, c: Command)
    requires Fits(s, move) && Effective(spared, s, done, open)
    ensures Effective(spared, Moved(spared, s, move, c), DoneAfter(done, open, move, c), OpenAfter(open, move, c))
  {
    match move
    case Refuse =>
    case Abort => AbortIsEffective(spared, s, done, open);
    case Apply => WorkIsEffective(spared, s, done, open, c);
    case Open(name) => OpenIsEffective(spared, s, done, open, name);
    case Merge(k) => MergeIsEffective(spared, s, done, open, k);
    case Back(k) => BackIsEffective(spared, s, done, open, k);
    case _ => EndIsEffective(spared, s, done, open, move, c);
  }

  lemma ExecKeepsShape(spared: Spared, s: Server, c: Command, ok: bool)
    requires Shaped(s)
    ensures Shaped(Exec(spared, s, c, ok))
  {
  }

  lemma OwnReplies(status: Status)
    ensures ResetOutcome([Another, Ready(status)]) == (status.Idle?, [])
  {
    assert [Another, Ready(status)][1..] == [Ready(status)] && [Ready(status)][1..] == [];
  }

  lemma RecycleKeepsSound(cfg: Config, c: Conn, order: seq<Var>, ok: bool)
    requires Sound(cfg.spared, c) && Enabled(cfg, c, Recycle(order, ok))
    ensures Sound(cfg.spared, Recycled(c, order, ok))
  {
    if c.replies == [] {
      ResetIsExact(c.server, order, c.dirty);
      BottomIsDone(cfg.spared, c.server, c.story.done, c.story.open);
      ValuesAfterResets(cfg.spared, c.story.done, order);
      assert (c.story.done + Resets(order)) + [] == c.story.done + Resets(order);
    }
  }

  lemma SendKeepsSound(cfg: Config, c: Conn, command: Command, reading: Command)
    requires Sound(cfg.spared, c) && Enabled(cfg, c, Send(command, reading))
    ensures Sound(cfg.spared, Next(cfg, c, Send(command, reading)))
  {
    TrackedSnoc(c.story.seen, reading);
  }

  lemma AnswerEnds(spared: Spared, replies: seq<Reply>, s: Server, c: Command, ok: bool)
    ensures var all := replies + Answer(spared, s, c, ok);
            && |all| == |replies| + 2 && all[..|replies|] == replies && !all[|replies|].Ready?
            && all[|replies| + 1] == Ready(Exec(spared, s, c, ok).status)
  {
  }

  lemma AnsweredIsSound(spared: Spared, c: Conn, c': Conn)
    requires Sound(spared, c) && !c'.phase.Pooled? && Live(c) && Shaped(c'.server)
    requires Effective(spared, c'.server, c'.story.done, c'.story.open)
    requires c'.story.seen == c.story.seen && c'.dirty == c.dirty
    requires c'.replies != [] && c'.replies[|c'.replies| - 1] == Ready(c'.server.status)
    ensures Sound(spared, c')
  {
  }

  lemma ExecuteKeepsSound(cfg: Config, c: Conn, ok: bool)
    requires Sound(cfg.spared, c) && Enabled(cfg, c, Execute(ok))
    ensures Sound(cfg.spared, Next(cfg, c, Execute(ok)))
  {
    var command := c.inFlight[0];
    MoveFits(c.server, command, ok);
    MovedIsEffective(cfg.spared, c.server, c.story.done, c.story.open, MoveOf(c.server, command, ok), command);
    ExecKeepsShape(cfg.spared, c.server, command, ok);
    AnswerEnds(cfg.spared, c.replies, c.server, command, ok);
    AnsweredIsSound(cfg.spared, c, Next(cfg, c, Execute(ok)));
  }

  lemma ReadKeepsSound(cfg: Config, c: Conn)
    requires Sound(cfg.spared, c) && Enabled(cfg, c, Read)
    ensures Sound(cfg.spared, Next(cfg, c, Read))
  {
  }

  lemma StepKeepsSound(cfg: Config, c: Conn, step: Step)
    requires Sound(cfg.spared, c) && Enabled(cfg, c, step)
    ensures Sound(cfg.spared, Next(cfg, c, step))
  {
    match step
    case Checkout =>
    case Send(command, reading) => SendKeepsSound(cfg, c, command, reading);
    case Execute(ok) => ExecuteKeepsSound(cfg, c, ok);
    case Read => ReadKeepsSound(cfg, c);
    case Leave =>
    case Drop =>
    case Recycle(order, ok) => RecycleKeepsSound(cfg, c, order, ok);
  }

  lemma {:induction false} RunsKeepSound(cfg: Config, c: Conn, steps: seq<Step>)
    requires Sound(cfg.spared, c) && Runs(cfg, c, steps)
    ensures Sound(cfg.spared, After(cfg, c, steps))
    decreases |steps|
  {
    if steps != [] {
      StepKeepsSound(cfg, c, steps[0]);
      RunsKeepSound(cfg, Next(cfg, c, steps[0]), steps[1..]);
    }
  }

  lemma NewIsSound(spared: Spared)
    ensures Sound(spared, NEW)
  {
  }

  /** Over any number of holds, a connection in the pool has nothing under way, an empty dirty
      set, and a recorded status that is the backend's: idle. */
  lemma PooledConnectionsAreAtRest(cfg: Config, steps: seq<Step>)
    requires Runs(cfg, NEW, steps) && After(cfg, NEW, steps).phase.Pooled?
    ensures var c := After(cfg, NEW, steps);
            Quiet(c) && c.dirty == {} && c.last == c.server.status == Backend.Idle
  {
    NewIsSound(cfg.spared);
    RunsKeepSound(cfg, NEW, steps);
  }

  /** Whatever the holds were: a connection whose replies have all been read comes out of a
      successful reset with exactly those settings for which a SET was the last command to take
      effect, but not the last one of this hold that the tracking read. */
  lemma LeaksExactly(cfg: Config, steps: seq<Step>, order: seq<Var>)
    requires Runs(cfg, NEW, steps) && Quiet(After(cfg, NEW, steps))
    requires Enabled(cfg, After(cfg, NEW, steps), Recycle(order, true))
    ensures var c := After(cfg, NEW, steps);
            var c' := Next(cfg, c, Recycle(order, true));
            var done, seen := c.story.done, c.story.seen;
            && c'.phase.Pooled?
            && (forall v :: v in c'.server.values <==> LastSets(cfg.spared, done, v) && !LastTracked(seen, v))
            && (forall v :: v in c'.server.values ==>
                  Some(c'.server.values[v]) == LastOn(cfg.spared, done, v).value.value)
            && (c'.server.values == map[] <==> forall v :: LastSets(cfg.spared, done, v) ==> LastTracked(seen, v))
  {
    NewIsSound(cfg.spared);
    RunsKeepSound(cfg, NEW, steps);
    var c := After(cfg, NEW, steps);
    RecycleIsExact(c, order);
    BottomIsDone(cfg.spared, c.server, c.story.done, c.story.open);
    var done, seen := c.story.done, c.story.seen;
    var values := Recycled(c, order, true).server.values;
    assert values == ValuesAfter(cfg.spared, done) - TrackedAfter(seen);
    forall v
      ensures v in values <==> LastSets(cfg.spared, done, v) && !LastTracked(seen, v)
      ensures v in values ==> Some(values[v]) == LastOn(cfg.spared, done, v).value.value
    {
      ValuesAreLastSet(cfg.spared, done, v);
      TrackedAreLastSet(seen, v);
    }
    if forall v :: LastSets(cfg.spared, done, v) ==> LastTracked(seen, v) {
      assert forall v :: v !in values;
    }
  }

  lemma RecycleIsExact(c: Conn, order: seq<Var>)
    requires c.replies == [] && Aligned(c) && Shaped(c.server) && multiset(order) == multiset(c.dirty)
    ensures Recycled(c, order, true) ==
              c.(phase := Pooled, dirty := {}, last := Backend.Idle, story := Closing(c.story, order),
                 server := Server(Bottom(c.server) - c.dirty, [], Backend.Idle))
  {
    ResetIsExact(c.server, order, c.dirty);
    OwnReplies(Backend.Idle);
  }

  // ---------------------------------------------------------------------
  // Replies that are still to come
  // ---------------------------------------------------------------------

  predicate Silent(replies: seq<Reply>) {
    forall r :: r in replies ==> r.Another?
  }

  /** The first reply that ends anything. */
  function FirstEnd(replies: seq<Reply>): Option<Reply> {
    if replies == [] then None else if replies[0].Another? then FirstEnd(replies[1..]) else Some(replies[0])
  }

  lemma {:induction false} OutcomeOfPending(pending: seq<Reply>, own: seq<Reply>)
    requires Silent(own)
    ensures var (ok, rest) := ResetOutcome(pending + own + [Ready(Backend.Idle)]);
            && (ok <==> FirstEnd(pending).None? || FirstEnd(pending) == Some(Ready(Backend.Idle)))
            && (rest == [] <==> FirstEnd(pending).None?)
    decreases |pending| + |own|
  {
    var all := pending + own + [Ready(Backend.Idle)];
    if pending != [] {
      assert all[1..] == pending[1..] + own + [Ready(Backend.Idle)];
      if pending[0].Another? {
        OutcomeOfPending(pending[1..], own);
      }
    } else if own != [] {
      assert own[0] in own;
      assert all[1..] == [] + own[1..] + [Ready(Backend.Idle)];
      OutcomeOfPending([], own[1..]);
    }
  }

  lemma {:induction false} EndIsFound(replies: seq<Reply>)
    ensures ResetOutcome(replies).0 <==> FirstEnd(replies) == Some(Ready(Backend.Idle))
    decreases |replies|
  {
    if replies != [] && replies[0].Another? {
      EndIsFound(replies[1..]);
    }
  }

  /** Replies that are outstanding when a client leaves come before those to the reset. A reset
      that succeeds leaves nothing unread exactly when none of them is a ReadyForQuery; after
      an outstanding ReadyForQuery(Idle) the connection is pooled with replies still to come. */
  lemma PooledWithUnreadReplies(pending: seq<Reply>, own: seq<Reply>)
    requires Silent(own)
    ensures var (ok, rest) := ResetOutcome(pending + own + [Ready(Backend.Idle)]);
            && (ok && rest == [] <==> FirstEnd(pending).None?)
            && (ok && rest != [] <==> FirstEnd(pending) == Some(Ready(Backend.Idle)))
  {
    OutcomeOfPending(pending, own);
  }

  /** In a run: the reset of a connection with replies outstanding never cleans it. It puts the
      connection back into the pool, its own replies still to come, exactly when the first reply
      that ends anything is a ReadyForQuery(Idle), and closes it otherwise. */
  lemma OutstandingRepliesDecide(cfg: Config, steps: seq<Step>, order: seq<Var>, ok: bool)
    requires Runs(cfg, NEW, steps) && !Quiet(After(cfg, NEW, steps))
    requires Enabled(cfg, After(cfg, NEW, steps), Recycle(order, ok))
    ensures var c := After(cfg, NEW, steps);
            var c' := Next(cfg, c, Recycle(order, ok));
            && (c'.phase.Stray? <==> FirstEnd(c.replies) == Some(Ready(Backend.Idle)))
            && (c'.phase.Closed? <==> FirstEnd(c.replies) != Some(Ready(Backend.Idle)))
  {
    NewIsSound(cfg.spared);
    RunsKeepSound(cfg, NEW, steps);
    var c := After(cfg, NEW, steps);
    EndIsFound(c.replies);
    assert c.replies[|c.replies| - 1] in c.replies;
  }
}
