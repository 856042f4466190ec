/** Holds on one connection, from checkout to reset: which settings an unpinned hold may leave
    behind, when a reset of a variable is harmless, and the runs in which a setting goes back to
    the pool. */
module Holds {
  import opened Options
  import opened Settings
  import Backend

  // ---------------------------------------------------------------------
  // Which resets are harmless
  // ---------------------------------------------------------------------

  lemma LevelIsBehind(saved: seq<Level>, base: map<Var, Value>, k: nat)
    requires k < |saved|
    ensures Extra(saved[k].values, base) <= Behind(saved, base)
  {
    forall v | v in Extra(saved[k].values, base)
      ensures v in Behind(saved, base)
    {
    }
  }

  lemma PrefixBehind(saved: seq<Level>, base: map<Var, Value>, k: nat)
    requires k <= |saved|
    ensures Behind(saved[..k], base) <= Behind(saved, base)
  {
    forall v | v in Behind(saved[..k], base)
      ensures v in Behind(saved, base)
    {
      var j :| 0 <= j < k && v in Extra(saved[..k][j].values, base);
      assert v in Extra(saved[j].values, base);
    }
  }

  lemma BehindSnoc(saved: seq<Level>, level: Level, base: map<Var, Value>)
    ensures Behind(saved + [level], base) == Behind(saved, base) + Extra(level.values, base)
  {
    var all := saved + [level];
    PrefixBehind(all, base, |saved|);
    assert all[..|saved|] == saved;
    LevelIsBehind(all, base, |saved|);
    forall v | v in Behind(all, base)
      ensures v in Behind(saved, base) + Extra(level.values, base)
    {
      var j :| 0 <= j < |all| && v in Extra(all[j].values, base);
      if j < |saved| {
        assert v in Extra(saved[j].values, base);
      }
    }
  }

  lemma EndedExposes(values: map<Var, Value>, chained: bool, base: map<Var, Value>)
    ensures Exposed(Ended(values, chained), base) == Extra(values, base)
  {
    BehindSnoc([], Level("", values), base);
    assert [] + [Level("", values)] == [Level("", values)];
    assert Behind([], base) == {};
  }

  /** Only work in a transaction exposes anything new. */
  lemma MoveExposes(spared: Spared, s: Server, move: Move, c: Command, base: map<Var, Value>)
    requires Fits(s, move) && !move.Apply?
    ensures Exposed(Moved(spared, s, move, c), base) <= Exposed(s, base)
    ensures move.Abort? ==> Exposed(Moved(spared, s, move, c), base) == Behind(s.saved, base)
  {
    match move
    case Refuse =>
    case Start => EndedExposes(s.values, true, base);
    case Abort => LevelIsBehind(s.saved, base, |s.saved| - 1);
    case Open(name) => BehindSnoc(s.saved, Level(name, s.values), base);
    case Merge(k) => PrefixBehind(s.saved, base, k);
    case Back(k) =>
      PrefixBehind(s.saved, base, k + 1);
      LevelIsBehind(s.saved, base, k);
    case Keep(chained) => EndedExposes(s.values, chained, base);
    case Undo(chained) =>
      EndedExposes(Bottom(s), chained, base);
      if s.saved != [] {
        LevelIsBehind(s.saved, base, 0);
      }
  }

  lemma WorkIsTracked(spared: Spared, s: Server, c: Command, base: map<Var, Value>)
    requires Guard(spared, s, c, base) && (c.DiscardAll? ==> s.saved == [])
    requires s.saved == [] ==> s.values == base
    ensures Exposed(Moved(spared, s, Apply, c), base) <= Track(Exposed(s, base), c)
  {
    assert s.saved == [] ==> Behind(s.saved, base) == {};
  }

  /** A query that is guarded exposes nothing that is not tracked with it. */
  lemma ExecIsTracked(spared: Spared, s: Server, c: Command, ok: bool, base: map<Var, Value>)
    requires Shaped(s) && (s.status.Idle? ==> s.values == base) && Guard(spared, s, c, base)
    ensures Exposed(Exec(spared, s, c, ok), base) <= Track(Exposed(s, base), c)
  {
    var move := MoveOf(s, c, ok);
    MoveFits(s, c, ok);
    if move.Apply? {
      WorkIsTracked(spared, s, c, base);
    } else {
      MoveExposes(spared, s, move, c, base);
      if Untracks(c) {
        RefusedResetExposes(s, c, ok, base);
      }
    }
  }

  predicate Untracks(c: Command) {
    c.Reset? || c.ResetAll? || c.DiscardAll?
  }

  /** A reset that fails leaves what some level has, or nothing. */
  lemma RefusedResetExposes(s: Server, c: Command, ok: bool, base: map<Var, Value>)
    requires Shaped(s) && (s.status.Idle? ==> s.values == base) && Untracks(c)
    requires !MoveOf(s, c, ok).Apply?
    ensures MoveOf(s, c, ok).Abort? || (MoveOf(s, c, ok).Refuse? && Exposed(s, base) == Behind(s.saved, base))
  {
    if s.saved != [] {
      LevelIsBehind(s.saved, base, |s.saved| - 1);
    }
  }

  /** The guard is exact: after a tracked query, whether it succeeds or fails, what is exposed
      is tracked, exactly when the query is guarded. */
  lemma GuardIsExact(spared: Spared, s: Server, c: Command, dirty: set<Var>, base: map<Var, Value>)
    requires Shaped(s) && (s.status.Idle? ==> s.values == base) && Exposed(s, base) <= dirty
    ensures (forall ok :: Exposed(Exec(spared, s, c, ok), base) <= Track(dirty, c)) <==> Guard(spared, s, c, base)
  {
    if Guard(spared, s, c, base) {
      forall ok
        ensures Exposed(Exec(spared, s, c, ok), base) <= Track(dirty, c)
      {
        ExecIsTracked(spared, s, c, ok, base);
      }
    } else {
      UnguardedEscapes(spared, s, c, base);
      var escaped := Exposed(Exec(spared, s, c, true), base);
      assert !(escaped <= Track(dirty, c));
    }
  }

  /** What an unguarded reset loses sight of. */
  lemma UnguardedEscapes(spared: Spared, s: Server, c: Command, base: map<Var, Value>)
    requires Shaped(s) && (s.status.Idle? ==> s.values == base) && !Guard(spared, s, c, base)
    ensures c.Reset? ==> c.v in Exposed(Exec(spared, s, c, true), base)
    ensures !c.Reset? ==> (c.ResetAll? || c.DiscardAll?) && Exposed(Exec(spared, s, c, true), base) != {}
  {
    var s' := Exec(spared, s, c, true);
    if Behind(s.saved, base) != {} {
      assert s'.saved == s.saved;
    } else {
      var v :| v in Extra(s.values, base) && v in spared.byResetAll;
      if s.saved != [] {
        LevelIsBehind(s.saved, base, |s.saved| - 1);
      }
      assert v in Extra(s'.values, base);
    }
  }

  // ---------------------------------------------------------------------
  // What the steps of such a hold keep
  // ---------------------------------------------------------------------

  function TrackAll(dirty: set<Var>, commands: seq<Command>): set<Var>
    decreases |commands|
  {
    if commands == [] then dirty else TrackAll(Track(dirty, commands[0]), commands[1..])
  }

  lemma {:induction false} TrackAllMonotone(a: set<Var>, b: set<Var>, commands: seq<Command>)
    requires a <= b
    ensures TrackAll(a, commands) <= TrackAll(b, commands)
    decreases |commands|
  {
    if commands != [] {
      TrackAllMonotone(Track(a, commands[0]), Track(b, commands[0]), commands[1..]);
    }
  }

  lemma {:induction false} TrackAllSnoc(dirty: set<Var>, commands: seq<Command>, c: Command)
    ensures TrackAll(dirty, commands + [c]) == Track(TrackAll(dirty, commands), c)
    decreases |commands|
  {
    if commands == [] {
      assert [c][1..] == [];
    } else {
      TrackAllSnoc(Track(dirty, commands[0]), commands[1..], c);
      assert (commands + [c])[1..] == commands[1..] + [c];
    }
  }

  /** Nothing that ends the hold has been answered, but for the last reply. */
  ghost predicate Once(c: Conn) {
    && (c.server.status.Idle? ==> if c.replies == [] then c.server.values == c.story.base else c.inFlight == [])
    && (forall i :: 0 <= i < |c.replies| - 1 ==> c.replies[i] != Ready(Backend.Idle))
  }

  /** The reply that ends the hold has others behind it. */
  ghost predicate Overtaken(c: Conn) {
    exists i :: 0 <= i < |c.replies| && c.replies[i] == Ready(Backend.Idle) && (i < |c.replies| - 1 || c.inFlight != [])
  }

  /** After the commands in flight, all that is exposed is tracked. */
  ghost predicate Covered(c: Conn) {
    TrackAll(Exposed(c.server, c.story.base), c.inFlight) <= c.dirty
  }

  ghost predicate Steady(cfg: Config, c: Conn) {
    c.phase.Held? ==> !c.pinned && !cfg.mode.Session? && (Once(c) || Overtaken(c))
  }

  ghost predicate Clean(c: Conn) {
    match c.phase
    case Pooled => Extra(c.server.values, c.story.base) == {}
    case Held => Overtaken(c) || Covered(c)
    case Resetting => Quiet(c) ==> Exposed(c.server, c.story.base) <= c.dirty
    case _ => true
  }

  /** The command is read as what it is, as far as settings go. */
  predicate ReadAsIs(command: Command, reading: Command) {
    reading == command || (TouchesNone(command) && TouchesNone(reading))
  }

  lemma OvertakenStays(c: Conn, c': Conn)
    requires Overtaken(c) && |c.replies| <= |c'.replies| && c'.replies[..|c.replies|] == c.replies
    requires |c.replies| < |c'.replies| || c'.inFlight != []
    ensures Overtaken(c')
  {
    var i :| 0 <= i < |c.replies| && c.replies[i] == Ready(Backend.Idle) && (i < |c.replies| - 1 || c.inFlight != []);
    assert c'.replies[i] == c'.replies[..|c.replies|][i];
  }

  lemma SendKeepsSteady(cfg: Config, c: Conn, command: Command, reading: Command)
    requires Sound(cfg.spared, c) && Steady(cfg, c) && Enabled(cfg, c, Send(command, reading))
    requires !Pinned(cfg.mode, c.pinned, command)
    ensures Steady(cfg, Next(cfg, c, Send(command, reading)))
    ensures Overtaken(c) ==> Overtaken(Next(cfg, c, Send(command, reading)))
  {
    var c' := Next(cfg, c, Send(command, reading));
    if Overtaken(c) {
      OvertakenStays(c, c');
    } else if c.server.status.Idle? && c.replies != [] {
      assert c'.replies[|c.replies| - 1] == Ready(Backend.Idle);
      assert Overtaken(c');
    }
  }

  lemma SendKeepsClean(cfg: Config, c: Conn, command: Command, reading: Command)
    requires Sound(cfg.spared, c) && Steady(cfg, c) && Clean(c) && Enabled(cfg, c, Send(command, reading))
    requires !Pinned(cfg.mode, c.pinned, command) && ReadAsIs(command, reading)
    ensures Clean(Next(cfg, c, Send(command, reading)))
  {
    SendKeepsSteady(cfg, c, command, reading);
    TrackAllSnoc(Exposed(c.server, c.story.base), c.inFlight, command);
  }

  lemma AnswerStaysSteady(c: Conn, c': Conn)
    requires Once(c) && c.inFlight != [] && |c'.replies| == |c.replies| + 2 && c'.replies[..|c.replies|] == c.replies
    requires c.replies != [] ==> c.replies[|c.replies| - 1] == Ready(c.server.status)
    requires !c'.replies[|c.replies|].Ready? && c'.replies[|c.replies| + 1] == Ready(c'.server.status)
    ensures Once(c') || Overtaken(c')
  {
    forall i | 0 <= i < |c.replies|
      ensures c'.replies[i] != Ready(Backend.Idle)
    {
      assert c'.replies[i] == c'.replies[..|c.replies|][i];
    }
    if c'.server.status.Idle? && c'.inFlight != [] {
      assert c'.replies[|c'.replies| - 1] == Ready(Backend.Idle);
      assert Overtaken(c');
    }
  }

  lemma ExecuteKeepsSteady(cfg: Config, c: Conn, ok: bool)
    requires Sound(cfg.spared, c) && Steady(cfg, c) && Enabled(cfg, c, Execute(ok)) && c.phase.Held?
    ensures Steady(cfg, Next(cfg, c, Execute(ok)))
    ensures Overtaken(c) ==> Overtaken(Next(cfg, c, Execute(ok)))
  {
    var c' := Next(cfg, c, Execute(ok));
    AnswerEnds(cfg.spared, c.replies, c.server, c.inFlight[0], ok);
    if Overtaken(c) {
      OvertakenStays(c, c');
    } else {
      AnswerStaysSteady(c, c');
    }
  }

  lemma ExecuteKeepsClean(cfg: Config, c: Conn, ok: bool)
    requires Sound(cfg.spared, c) && Steady(cfg, c) && Clean(c) && Enabled(cfg, c, Execute(ok))
    requires c.phase.Held? ==> Guard(cfg.spared, c.server, c.inFlight[0], c.story.base)
    ensures Clean(Next(cfg, c, Execute(ok)))
  {
    var c', base := Next(cfg, c, Execute(ok)), c.story.base;
    AnswerEnds(cfg.spared, c.replies, c.server, c.inFlight[0], ok);
    if c.phase.Held? {
      ExecuteKeepsSteady(cfg, c, ok);
      if !Overtaken(c) {
        ExecIsTracked(cfg.spared, c.server, c.inFlight[0], ok, base);
        TrackAllMonotone(Exposed(c'.server, base), Track(Exposed(c.server, base), c.inFlight[0]), c.inFlight[1..]);
      }
    }
  }

  lemma ReadBehindOvertaken(c: Conn, c': Conn)
    requires Overtaken(c) && c'.replies == c.replies[1..] && c'.inFlight == c.inFlight
    ensures if c.replies[0] == Ready(Backend.Idle) then Overtaken(c') || !Quiet(c') else Overtaken(c')
  {
    var i :| 0 <= i < |c.replies| && c.replies[i] == Ready(Backend.Idle) && (i < |c.replies| - 1 || c.inFlight != []);
    assert i > 0 ==> c'.replies[i - 1] == Ready(Backend.Idle);
  }

  lemma ReadStaysOnce(c: Conn, c': Conn)
    requires Once(c) && c.replies != [] && c'.replies == c.replies[1..] && c.replies[0] != Ready(Backend.Idle)
    requires c'.inFlight == c.inFlight && c'.server == c.server && c'.story == c.story
    requires c.replies[|c.replies| - 1] == Ready(c.server.status)
    ensures Once(c')
  {
  }

  lemma ReadKeeps(cfg: Config, c: Conn)
    requires Sound(cfg.spared, c) && Steady(cfg, c) && Enabled(cfg, c, Step.Read)
    ensures Steady(cfg, Next(cfg, c, Step.Read))
    ensures Clean(c) ==> Clean(Next(cfg, c, Step.Read))
  {
    var c' := Next(cfg, c, Step.Read);
    if Overtaken(c) {
      ReadBehindOvertaken(c, c');
    } else if c.replies[0] != Ready(Backend.Idle) {
      ReadStaysOnce(c, c');
    }
  }

  lemma RecycleKeepsClean(cfg: Config, c: Conn, order: seq<Var>, ok: bool)
    requires Sound(cfg.spared, c) && Clean(c) && Enabled(cfg, c, Recycle(order, ok))
    ensures Clean(Recycled(c, order, ok))
  {
    if c.replies == [] && Recycled(c, order, ok).phase.Pooled? {
      ResetIsExact(c.server, order, c.dirty);
      if c.server.saved != [] {
        LevelIsBehind(c.server.saved, c.story.base, 0);
      }
    }
  }

  // ---------------------------------------------------------------------
  // Commands that are careful
  // ---------------------------------------------------------------------

  /** A level that a rollback can go back to begins with it, in the middle of the work. */
  predicate Marks(c: Command) {
    c.Savepoint? || c.CommitChain?
  }

  /** The settings that the commands SET. */
  function SetIn(commands: seq<Command>): set<Var> {
    if commands == [] then {}
    else
      var n := |commands| - 1;
      SetIn(commands[..n]) + if commands[n].Set? then {commands[n].v} else {}
  }

  /** The settings that are SET in front of a savepoint or a COMMIT AND CHAIN. */
  function Fixed(commands: seq<Command>): set<Var> {
    if commands == [] then {}
    else
      var n := |commands| - 1;
      if Marks(commands[n]) then SetIn(commands[..n]) else Fixed(commands[..n])
  }

  /** No reset is behind a savepoint or chain that is behind a SET of what it resets, and no
      RESET ALL is behind a SET of a setting that it spares. */
  predicate Careful(spared: Spared, commands: seq<Command>) {
    commands == [] || (
      var n := |commands| - 1;
      && Careful(spared, commands[..n])
      && match commands[n]
         case Reset(v) => v !in Fixed(commands[..n])
         case ResetAll => Fixed(commands[..n]) == {} && SetIn(commands[..n]) !! spared.byResetAll
         case DiscardAll => Fixed(commands[..n]) == {}
         case _ => true)
  }

  lemma {:induction false} FixedIsSet(commands: seq<Command>)
    ensures Fixed(commands) <= SetIn(commands)
    decreases |commands|
  {
    if commands != [] {
      FixedIsSet(commands[..|commands| - 1]);
    }
  }

  /** What the commands of the hold tell of the server, and that careful ones are guarded. */
  ghost predicate Tidy(spared: Spared, s: Server, story: Story) {
    && Extra(s.values, story.base) <= SetIn(story.executed)
    && Behind(s.saved, story.base) <= Fixed(story.executed)
    && (Careful(spared, story.executed) ==> story.guarded)
  }

  /** A move that opens a level at what it finds comes of a command that marks, or of a BEGIN. */
  lemma MoveBehind(spared: Spared, s: Server, move: Move, c: Command, base: map<Var, Value>)
    requires Fits(s, move)
    ensures Behind(Moved(spared, s, move, c).saved, base)
            <= Behind(s.saved, base)
               + if move.Start? || move.Open? || move.Keep? || s.saved == [] then Extra(s.values, base) else {}
  {
    match move
    case Start => EndedExposes(s.values, true, base);
    case Open(name) => BehindSnoc(s.saved, Level(name, s.values), base);
    case Merge(k) => PrefixBehind(s.saved, base, k);
    case Back(k) => PrefixBehind(s.saved, base, k + 1);
    case Keep(chained) => EndedExposes(s.values, chained, base);
    case Undo(chained) =>
      EndedExposes(Bottom(s), chained, base);
      if s.saved != [] {
        LevelIsBehind(s.saved, base, 0);
      }
    case _ =>
  }

  lemma UnmarkedMove(s: Server, c: Command, ok: bool)
    requires Shaped(s) && !Marks(c)
    ensures var move := MoveOf(s, c, ok);
            && !move.Open? && (move.Keep? ==> !move.chained)
            && (move.Start? || s.saved == [] ==> s.status.Idle?)
  {
  }

  lemma MoveKeepsFixed(spared: Spared, s: Server, c: Command, ok: bool, base: map<Var, Value>, commands: seq<Command>)
    requires Shaped(s) && (s.status.Idle? ==> s.values == base)
    requires Extra(s.values, base) <= SetIn(commands) && Behind(s.saved, base) <= Fixed(commands)
    ensures Behind(Exec(spared, s, c, ok).saved, base) <= if Marks(c) then SetIn(commands) else Fixed(commands)
  {
    MoveFits(s, c, ok);
    FixedIsSet(commands);
    MoveBehind(spared, s, MoveOf(s, c, ok), c, base);
    if !Marks(c) {
      UnmarkedMove(s, c, ok);
    }
  }

  lemma MoveKeepsSet(spared: Spared, s: Server, c: Command, ok: bool, base: map<Var, Value>, commands: seq<Command>)
    requires Shaped(s)
    requires Extra(s.values, base) <= SetIn(commands) && Behind(s.saved, base) <= Fixed(commands)
    ensures Extra(Exec(spared, s, c, ok).values, base) <= SetIn(commands) + if c.Set? then {c.v} else {}
  {
    var move := MoveOf(s, c, ok);
    MoveFits(s, c, ok);
    FixedIsSet(commands);
    if !move.Apply? {
      MoveExposes(spared, s, move, c, base);
    }
  }

  lemma RanIsTidy(spared: Spared, s: Server, story: Story, c: Command, ok: bool)
    requires Shaped(s) && (s.status.Idle? ==> s.values == story.base) && Tidy(spared, s, story)
    ensures Tidy(spared, Exec(spared, s, c, ok), Ran(spared, story, s, c, ok))
  {
    var commands := story.executed;
    assert (commands + [c])[..|commands|] == commands;
    MoveKeepsFixed(spared, s, c, ok, story.base, commands);
    MoveKeepsSet(spared, s, c, ok, story.base, commands);
  }

  ghost predicate TidyHold(spared: Spared, c: Conn) {
    match c.phase
    case Pooled => Careful(spared, c.story.executed) ==> c.story.guarded
    case Held => Overtaken(c) || Tidy(spared, c.server, c.story)
    case Resetting => Quiet(c) ==> Tidy(spared, c.server, c.story)
    case _ => true
  }

  // ---------------------------------------------------------------------
  // Every run
  // ---------------------------------------------------------------------

  lemma NothingExtra(values: map<Var, Value>)
    ensures Extra(values, map[]) == {} ==> values == map[]
  {
    assert forall v :: v in values ==> v in Extra(values, map[]);
  }

  ghost predicate Labelled(cfg: Config, c: Conn) {
    && (c.story.always ==> c.story.plain && c.story.guarded && c.story.base == map[])
    && (c.story.plain && Live(c) ==> Steady(cfg, c) && TidyHold(cfg.spared, c))
    && (c.story.plain && c.story.guarded && Live(c) ==> Clean(c))
  }

  lemma CheckoutKeepsLabels(cfg: Config, c: Conn)
    requires Sound(cfg.spared, c) && Labelled(cfg, c) && c.phase.Pooled?
    ensures Labelled(cfg, Next(cfg, c, Checkout))
  {
    NothingExtra(c.server.values);
    assert Extra(c.server.values, c.server.values) == {};
    assert Behind(c.server.saved, c.server.values) == {};
  }

  lemma SendKeepsLabels(cfg: Config, c: Conn, command: Command, reading: Command)
    requires Sound(cfg.spared, c) && Labelled(cfg, c) && Enabled(cfg, c, Send(command, reading))
    ensures Labelled(cfg, Next(cfg, c, Send(command, reading)))
  {
    if Next(cfg, c, Send(command, reading)).story.plain {
      SendKeepsSteady(cfg, c, command, reading);
      if c.story.guarded {
        SendKeepsClean(cfg, c, command, reading);
      }
    }
  }

  lemma ExecuteKeepsLabels(cfg: Config, c: Conn, ok: bool)
    requires Sound(cfg.spared, c) && Labelled(cfg, c) && Enabled(cfg, c, Execute(ok))
    ensures Labelled(cfg, Next(cfg, c, Execute(ok)))
  {
    var c' := Next(cfg, c, Execute(ok));
    AnswerEnds(cfg.spared, c.replies, c.server, c.inFlight[0], ok);
    if c.story.plain && c.phase.Held? {
      ExecuteKeepsSteady(cfg, c, ok);
      if !Overtaken(c) {
        RanIsTidy(cfg.spared, c.server, c.story, c.inFlight[0], ok);
      }
    }
    if c'.story.plain && c'.story.guarded {
      ExecuteKeepsClean(cfg, c, ok);
    }
  }

  lemma ReadKeepsLabels(cfg: Config, c: Conn)
    requires Sound(cfg.spared, c) && Labelled(cfg, c) && Enabled(cfg, c, Step.Read)
    ensures Labelled(cfg, Next(cfg, c, Step.Read))
  {
    if c.story.plain {
      ReadKeeps(cfg, c);
      ReadKeepsTidy(cfg, c);
    }
  }

  lemma ReadKeepsTidy(cfg: Config, c: Conn)
    requires Steady(cfg, c) && TidyHold(cfg.spared, c) && Enabled(cfg, c, Step.Read)
    ensures TidyHold(cfg.spared, Next(cfg, c, Step.Read))
  {
    var c' := Next(cfg, c, Step.Read);
    if Overtaken(c) {
      var i :| 0 <= i < |c.replies| && c.replies[i] == Ready(Backend.Idle) && (i < |c.replies| - 1 || c.inFlight != []);
      assert i > 0 ==> c'.replies[i - 1] == Ready(Backend.Idle);
    }
  }

  lemma StepKeepsLabels(cfg: Config, c: Conn, step: Step)
    requires Sound(cfg.spared, c) && Labelled(cfg, c) && Enabled(cfg, c, step)
    ensures Labelled(cfg, Next(cfg, c, step))
  {
    match step
    case Checkout => CheckoutKeepsLabels(cfg, c);
    case Send(command, reading) => SendKeepsLabels(cfg, c, command, reading);
    case Execute(ok) => ExecuteKeepsLabels(cfg, c, ok);
    case Read => ReadKeepsLabels(cfg, c);
    case Leave =>
    case Drop =>
    case Recycle(order, ok) =>
      if c.story.plain && c.story.guarded {
        RecycleKeepsClean(cfg, c, order, ok);
      }
  }

  lemma {:induction false} RunsKeepLabels(cfg: Config, c: Conn, steps: seq<Step>)
    requires Sound(cfg.spared, c) && Labelled(cfg, c) && Runs(cfg, c, steps)
    ensures Sound(cfg.spared, After(cfg, c, steps)) && Labelled(cfg, After(cfg, c, steps))
    decreases |steps|
  {
    if steps != [] {
      StepKeepsSound(cfg, c, steps[0]);
      StepKeepsLabels(cfg, c, steps[0]);
      RunsKeepLabels(cfg, Next(cfg, c, steps[0]), steps[1..]);
    }
  }

  lemma Reached(cfg: Config, steps: seq<Step>)
    requires Runs(cfg, NEW, steps)
    ensures Sound(cfg.spared, After(cfg, NEW, steps)) && Labelled(cfg, After(cfg, NEW, steps))
  {
    NewIsSound(cfg.spared);
    RunsKeepLabels(cfg, NEW, steps);
  }

  /** A hold in transaction mode that was never pinned, whose commands the tracking read as what
      they are, and whose resets were guarded, leaves no setting that was not there when it
      began, whatever failed, was rolled back or was pipelined in it. When all holds were like
      that, the connection has its startup settings. Careful commands are guarded whatever
      comes of them. */
  lemma UnpinnedHoldsLeaveNothing(cfg: Config, steps: seq<Step>)
    requires Runs(cfg, NEW, steps) && After(cfg, NEW, steps).phase.Pooled?
    ensures var c := After(cfg, NEW, steps);
            && (c.story.plain && Careful(cfg.spared, c.story.executed) ==> c.story.guarded)
            && (c.story.plain && c.story.guarded ==>
                  forall v :: v in c.server.values ==> (v, c.server.values[v]) in c.story.base.Items)
            && (c.story.always ==> c.server.values == map[])
  {
    Reached(cfg, steps);
    var c := After(cfg, NEW, steps);
    NothingExtra(c.server.values);
    if c.story.plain && c.story.guarded {
      forall v | v in c.server.values
        ensures (v, c.server.values[v]) in c.story.base.Items
      {
        assert v !in Extra(c.server.values, c.story.base);
      }
    }
  }

  // ---------------------------------------------------------------------
  // Pinning
  // ---------------------------------------------------------------------

  /** The last of LISTEN and UNLISTEN * is a LISTEN. */
  predicate ListensLast(commands: seq<Command>) {
    if commands == [] then false
    else
      var n := |commands| - 1;
      if commands[n].Listen? then true
      else if commands[n].UnlistenAll? then false
      else ListensLast(commands[..n])
  }

  lemma ListensSnoc(commands: seq<Command>, c: Command)
    ensures ListensLast(commands + [c]) <==> c.Listen? || (!c.UnlistenAll? && ListensLast(commands))
  {
    assert (commands + [c])[..|commands|] == commands;
  }

  /** The commands that the client of the hold has sent. */
  function SentInHold(c: Conn): seq<Command> {
    c.story.executed + c.inFlight
  }

  ghost predicate PinnedByLast(mode: Mode, c: Conn) {
    c.phase.Held? ==> (c.pinned <==> mode.Pin? && ListensLast(SentInHold(c)))
  }

  lemma SendKeepsPinned(cfg: Config, c: Conn, command: Command, reading: Command)
    requires PinnedByLast(cfg.mode, c) && Enabled(cfg, c, Send(command, reading))
    ensures PinnedByLast(cfg.mode, Next(cfg, c, Send(command, reading)))
  {
    assert SentInHold(Next(cfg, c, Send(command, reading))) == SentInHold(c) + [command];
    ListensSnoc(SentInHold(c), command);
  }

  lemma ExecuteKeepsPinned(cfg: Config, c: Conn, ok: bool)
    requires PinnedByLast(cfg.mode, c) && Enabled(cfg, c, Execute(ok))
    ensures PinnedByLast(cfg.mode, Next(cfg, c, Execute(ok)))
  {
    assert SentInHold(Next(cfg, c, Execute(ok))) == SentInHold(c);
  }

  lemma StepKeepsPinned(cfg: Config, c: Conn, step: Step)
    requires Sound(cfg.spared, c) && PinnedByLast(cfg.mode, c) && Enabled(cfg, c, step)
    ensures PinnedByLast(cfg.mode, Next(cfg, c, step))
  {
    match step
    case Checkout => assert SentInHold(Next(cfg, c, step)) == [];
    case Send(command, reading) => SendKeepsPinned(cfg, c, command, reading);
    case Execute(ok) => ExecuteKeepsPinned(cfg, c, ok);
    case _ =>
  }

  lemma {:induction false} RunsKeepPinned(cfg: Config, c: Conn, steps: seq<Step>)
    requires Sound(cfg.spared, c) && PinnedByLast(cfg.mode, c) && Runs(cfg, c, steps)
    ensures PinnedByLast(cfg.mode, After(cfg, c, steps))
    decreases |steps|
  {
    if steps != [] {
      StepKeepsSound(cfg, c, steps[0]);
      StepKeepsPinned(cfg, c, steps[0]);
      RunsKeepPinned(cfg, Next(cfg, c, steps[0]), steps[1..]);
    }
  }

  /** When a hold ends by what the proxy reads: exactly at a ReadyForQuery(Idle), unless the hold
      is for a session, or LISTEN pins and the last of the LISTEN and UNLISTEN * that the client
      sent in it is a LISTEN. */
  lemma HoldEndsIff(cfg: Config, steps: seq<Step>)
    requires Runs(cfg, NEW, steps) && Enabled(cfg, After(cfg, NEW, steps), Step.Read)
    ensures var c := After(cfg, NEW, steps);
            Next(cfg, c, Step.Read).phase == Resetting
            <==> && c.replies[0] == Ready(Backend.Idle)
                 && (cfg.mode.Multiplex? || (cfg.mode.Pin? && !ListensLast(SentInHold(c))))
  {
    NewIsSound(cfg.spared);
    RunsKeepPinned(cfg, NEW, steps);
  }

  // ---------------------------------------------------------------------
  // Ways out of a hold
  // ---------------------------------------------------------------------

  lemma RunsOn(cfg: Config, c: Conn, step: Step, more: seq<Step>)
    requires Enabled(cfg, c, step)
    ensures Runs(cfg, c, [step] + more) <==> Runs(cfg, Next(cfg, c, step), more)
    ensures Runs(cfg, c, [step] + more) ==> After(cfg, c, [step] + more) == After(cfg, Next(cfg, c, step), more)
  {
    assert ([step] + more)[1..] == more;
  }

  /** One query sent, executed and answered before the next. */
  function Exchange(command: Command, more: seq<Step>): seq<Step> {
    [Send(command, command)] + ([Execute(true)] + ([Step.Read] + ([Step.Read] + more)))
  }

  /** What an exchange makes of the connection. */
  function Exchanged(cfg: Config, c: Conn, command: Command): Conn {
    var pinned := Pinned(cfg.mode, c.pinned, command);
    var server := Exec(cfg.spared, c.server, command, true);
    c.(phase := if Releases(cfg.mode, pinned, server.status) then Resetting else Held,
       pinned := pinned,
       dirty := if cfg.mode.Session? then c.dirty else Track(c.dirty, command),
       last := server.status,
       server := server,
       story := Ran(cfg.spared, Told(cfg.mode, c.story, command, command, pinned), c.server, command, true))
  }

  lemma ExchangeSends(cfg: Config, c: Conn, command: Command)
    requires c.phase.Held? && Quiet(c) && Enabled(cfg, c, Send(command, command))
    ensures var c1 := Next(cfg, c, Send(command, command));
            && c1.inFlight == [command] && Enabled(cfg, c1, Execute(true))
            && var c2 := Next(cfg, c1, Execute(true));
               && c2.inFlight == [] && c2.replies == Answer(cfg.spared, c.server, command, true)
               && Enabled(cfg, c2, Step.Read)
  {
  }

  lemma ExchangeReads(cfg: Config, c: Conn, command: Command)
    requires c.phase.Held? && Quiet(c) && Enabled(cfg, c, Send(command, command))
    requires var c1 := Next(cfg, c, Send(command, command));
             && c1.inFlight == [command] && Enabled(cfg, c1, Execute(true))
             && var c2 := Next(cfg, c1, Execute(true));
                && c2.inFlight == [] && c2.replies == Answer(cfg.spared, c.server, command, true)
                && Enabled(cfg, c2, Step.Read)
    ensures var c3 := Next(cfg, Next(cfg, Next(cfg, c, Send(command, command)), Execute(true)), Step.Read);
            Enabled(cfg, c3, Step.Read) && Next(cfg, c3, Step.Read) == Exchanged(cfg, c, command)
  {
    var c2 := Next(cfg, Next(cfg, c, Send(command, command)), Execute(true));
    var c3 := Next(cfg, c2, Step.Read);
    assert c3.replies == [c2.replies[1]];
  }

  lemma ExchangeRuns(cfg: Config, c: Conn, command: Command, more: seq<Step>)
    requires c.phase.Held? && Quiet(c) && Enabled(cfg, c, Send(command, command))
    ensures Runs(cfg, c, Exchange(command, more)) <==> Runs(cfg, Exchanged(cfg, c, command), more)
    ensures Runs(cfg, Exchanged(cfg, c, command), more) ==>
              After(cfg, c, Exchange(command, more)) == After(cfg, Exchanged(cfg, c, command), more)
  {
    ExchangeSends(cfg, c, command);
    ExchangeReads(cfg, c, command);
    var c1 := Next(cfg, c, Send(command, command));
    var c2 := Next(cfg, c1, Execute(true));
    RunsOn(cfg, c, Send(command, command), [Execute(true)] + ([Step.Read] + ([Step.Read] + more)));
    RunsOn(cfg, c1, Execute(true), [Step.Read] + ([Step.Read] + more));
    RunsOn(cfg, c2, Step.Read, [Step.Read] + more);
    RunsOn(cfg, Next(cfg, c2, Step.Read), Step.Read, more);
  }

  /** Steps that end a hold without saying anything about settings. */
  predicate Silent(step: Step) {
    match step
    case Checkout => false
    case Send(command, reading) => TouchesNone(command) && TouchesNone(reading) && !command.Listen?
    case _ => true
  }

  predicate AllSilent(steps: seq<Step>) {
    forall step :: step in steps ==> Silent(step)
  }

  lemma ExchangeIsSilent(command: Command, more: seq<Step>)
    requires TouchesNone(command) && !command.Listen? && AllSilent(more)
    ensures AllSilent(Exchange(command, more))
  {
    forall step | step in Exchange(command, more)
      ensures Silent(step)
    {
      assert step == Send(command, command) || step == Execute(true) || step == Step.Read || step in more;
    }
  }

  ghost predicate SilentFlight(c: Conn) {
    forall command :: command in c.inFlight ==> TouchesNone(command)
  }

  lemma SilentSendKeepsClean(cfg: Config, c: Conn, command: Command, reading: Command)
    requires Sound(cfg.spared, c) && Steady(cfg, c) && Clean(c) && Enabled(cfg, c, Send(command, reading))
    requires Silent(Send(command, reading)) && SilentFlight(c)
    ensures var c' := Next(cfg, c, Send(command, reading));
            Steady(cfg, c') && Clean(c') && SilentFlight(c')
  {
    SendKeepsSteady(cfg, c, command, reading);
    SendKeepsClean(cfg, c, command, reading);
  }

  lemma SilentExecuteKeepsClean(cfg: Config, c: Conn, ok: bool)
    requires Sound(cfg.spared, c) && Steady(cfg, c) && Clean(c) && Enabled(cfg, c, Execute(ok)) && SilentFlight(c)
    ensures var c' := Next(cfg, c, Execute(ok));
            Steady(cfg, c') && Clean(c') && SilentFlight(c')
  {
    assert c.inFlight[0] in c.inFlight;
    if c.phase.Held? {
      ExecuteKeepsSteady(cfg, c, ok);
    }
    ExecuteKeepsClean(cfg, c, ok);
  }

  lemma SilentStepKeepsClean(cfg: Config, c: Conn, step: Step)
    requires Sound(cfg.spared, c) && Steady(cfg, c) && Clean(c) && Enabled(cfg, c, step)
    requires Silent(step) && SilentFlight(c)
    ensures var c' := Next(cfg, c, step);
            Steady(cfg, c') && Clean(c') && SilentFlight(c')
  {
    match step
    case Send(command, reading) => SilentSendKeepsClean(cfg, c, command, reading);
    case Execute(ok) => SilentExecuteKeepsClean(cfg, c, ok);
    case Read => ReadKeeps(cfg, c);
    case Leave =>
    case Drop =>
    case Recycle(order, ok) => RecycleKeepsClean(cfg, c, order, ok);
  }

  lemma SilentKeepsBase(cfg: Config, c: Conn, step: Step)
    requires Enabled(cfg, c, step) && Silent(step)
    ensures Next(cfg, c, step).story.base == c.story.base
  {
  }

  lemma {:induction false} SilentRunsKeepClean(cfg: Config, c: Conn, steps: seq<Step>)
    requires Sound(cfg.spared, c) && Steady(cfg, c) && Clean(c) && SilentFlight(c)
    requires Runs(cfg, c, steps) && AllSilent(steps)
    ensures Clean(After(cfg, c, steps)) && After(cfg, c, steps).story.base == c.story.base
    decreases |steps|
  {
    if steps != [] {
      assert steps[0] in steps;
      StepKeepsSound(cfg, c, steps[0]);
      SilentStepKeepsClean(cfg, c, steps[0]);
      SilentKeepsBase(cfg, c, steps[0]);
      SilentRunsKeepClean(cfg, Next(cfg, c, steps[0]), steps[1..]);
    }
  }

  lemma {:induction false} SomeOrder(vars: set<Var>) returns (order: seq<Var>)
    ensures multiset(order) == multiset(vars)
    decreases vars
  {
    if vars == {} {
      order := [];
    } else {
      var v :| v in vars;
      order := SomeOrder(vars - {v});
      order := order + [v];
      assert vars == (vars - {v}) + {v};
    }
  }

  /** A connection that a client of an open transaction waits on. */
  ghost predicate Waiting(cfg: Config, c: Conn) {
    && c.phase.Held? && Quiet(c) && !c.pinned && !cfg.mode.Session?
    && Shaped(c.server) && c.last == c.server.status && !c.server.status.Idle?
  }

  /** These steps say nothing about settings, and put the connection back with this one. */
  ghost predicate Escapes(cfg: Config, c: Conn, more: seq<Step>, v: Var) {
    && Runs(cfg, c, more) && AllSilent(more)
    && var c' := After(cfg, c, more);
       c'.phase.Pooled? && c'.story.base == c.story.base && v in Extra(c'.server.values, c.story.base)
  }

  /** The transaction ends, and the connection goes back with what is not tracked. */
  lemma EndLeaks(cfg: Config, c: Conn, command: Command, v: Var) returns (more: seq<Step>)
    requires Waiting(cfg, c) && (command.Commit? || command.Rollback?)
    requires v in Extra(Exec(cfg.spared, c.server, command, true).values, c.story.base) && v !in c.dirty
    ensures Escapes(cfg, c, more, v)
  {
    var c1 := Exchanged(cfg, c, command);
    var order := SomeOrder(c1.dirty);
    var last := [Recycle(order, true)];
    more := Exchange(command, last);
    RecycleIsExact(c1, order);
    ExchangeRuns(cfg, c, command, last);
    assert last == [Recycle(order, true)] + [];
    RunsOn(cfg, c1, Recycle(order, true), []);
    ExchangeIsSilent(command, last);
  }

  /** The way back to the innermost savepoint. */
  lemma BackToTop(cfg: Config, c: Conn)
    requires Waiting(cfg, c) && |c.server.saved| > 1
    ensures var n := |c.server.saved| - 1;
            var c' := Exchanged(cfg, c, RollbackTo(c.server.saved[n].name));
            && Waiting(cfg, c') && c'.dirty == c.dirty && c'.story.base == c.story.base
            && c'.server == Server(c.server.saved[n].values, c.server.saved, Backend.InTransaction)
  {
    var n := |c.server.saved| - 1;
    assert Find(c.server.saved, c.server.saved[n].name) == n;
    assert c.server.saved[..n + 1] == c.server.saved;
  }

  lemma TopIsReleased(cfg: Config, c: Conn)
    requires Waiting(cfg, c) && |c.server.saved| > 1 && c.server.status.InTransaction?
    ensures var n := |c.server.saved| - 1;
            var c' := Exchanged(cfg, c, Release(c.server.saved[n].name));
            && Waiting(cfg, c') && c'.dirty == c.dirty && c'.story.base == c.story.base
            && c'.server == c.server.(saved := c.server.saved[..n])
  {
    var n := |c.server.saved| - 1;
    assert Find(c.server.saved, c.server.saved[n].name) == n;
  }

  lemma EscapesLater(cfg: Config, c: Conn, command: Command, more: seq<Step>, v: Var)
    requires Waiting(cfg, c) && (command.RollbackTo? || command.Release?)
    requires Escapes(cfg, Exchanged(cfg, c, command), more, v)
    ensures Escapes(cfg, c, Exchange(command, more), v)
  {
    ExchangeRuns(cfg, c, command, more);
    ExchangeIsSilent(command, more);
  }

  /** The way back to the innermost savepoint, and its release. */
  function WithoutTop(cfg: Config, c: Conn): Conn
    requires c.server.saved != []
  {
    var name := c.server.saved[|c.server.saved| - 1].name;
    Exchanged(cfg, Exchanged(cfg, c, RollbackTo(name)), Release(name))
  }

  lemma TopIsGone(cfg: Config, c: Conn)
    requires Waiting(cfg, c) && |c.server.saved| > 1
    ensures var c' := WithoutTop(cfg, c);
            && Waiting(cfg, c') && c'.dirty == c.dirty && c'.story.base == c.story.base
            && c'.server.saved == c.server.saved[..|c.server.saved| - 1]
  {
    BackToTop(cfg, c);
    TopIsReleased(cfg, Exchanged(cfg, c, RollbackTo(c.server.saved[|c.server.saved| - 1].name)));
  }

  lemma EscapesBelow(cfg: Config, c: Conn, more: seq<Step>, v: Var)
    requires Waiting(cfg, c) && |c.server.saved| > 1 && Escapes(cfg, WithoutTop(cfg, c), more, v)
    ensures var name := c.server.saved[|c.server.saved| - 1].name;
            Escapes(cfg, c, Exchange(RollbackTo(name), Exchange(Release(name), more)), v)
  {
    var name := c.server.saved[|c.server.saved| - 1].name;
    BackToTop(cfg, c);
    EscapesLater(cfg, Exchanged(cfg, c, RollbackTo(name)), Release(name), more, v);
    EscapesLater(cfg, c, RollbackTo(name), Exchange(Release(name), more), v);
  }

  lemma TopLeaks(cfg: Config, c: Conn, v: Var) returns (more: seq<Step>)
    requires Waiting(cfg, c) && |c.server.saved| > 1 && v in Extra(Top(c.server), c.story.base) && v !in c.dirty
    ensures Escapes(cfg, c, more, v)
  {
    var name := c.server.saved[|c.server.saved| - 1].name;
    BackToTop(cfg, c);
    more := EndLeaks(cfg, Exchanged(cfg, c, RollbackTo(name)), Commit, v);
    EscapesLater(cfg, c, RollbackTo(name), more, v);
    more := Exchange(RollbackTo(name), more);
  }

  /** From any level that has an untracked setting, the client can go back to it and end the
      transaction. */
  lemma {:induction false} LevelLeaks(cfg: Config, c: Conn, k: nat, v: Var) returns (more: seq<Step>)
    requires Waiting(cfg, c) && k < |c.server.saved|
    requires v in Extra(c.server.saved[k].values, c.story.base) && v !in c.dirty
    ensures Escapes(cfg, c, more, v)
    decreases |c.server.saved|
  {
    var n := |c.server.saved| - 1;
    if k == 0 {
      more := EndLeaks(cfg, c, Rollback, v);
    } else if k == n {
      more := TopLeaks(cfg, c, v);
    } else {
      var name := c.server.saved[n].name;
      TopIsGone(cfg, c);
      more := LevelLeaks(cfg, WithoutTop(cfg, c), k, v);
      EscapesBelow(cfg, c, more, v);
      more := Exchange(RollbackTo(name), Exchange(Release(name), more));
    }
  }

  lemma ExposedLeaks(cfg: Config, c: Conn, v: Var) returns (more: seq<Step>)
    requires Waiting(cfg, c) && v in Exposed(c.server, c.story.base) && v !in c.dirty
    ensures Escapes(cfg, c, more, v)
  {
    if v in Behind(c.server.saved, c.story.base) {
      var k :| 0 <= k < |c.server.saved| && v in Extra(c.server.saved[k].values, c.story.base);
      more := LevelLeaks(cfg, c, k, v);
    } else {
      TopIsBehind(c.server, c.story.base);
      more := EndLeaks(cfg, c, Commit, v);
    }
  }

  lemma TopIsBehind(s: Server, base: map<Var, Value>)
    requires s.saved != []
    ensures Extra(Top(s), base) <= Behind(s.saved, base)
  {
    LevelIsBehind(s.saved, base, |s.saved| - 1);
  }

  ghost predicate LeavesNothing(c: Conn) {
    c.phase.Pooled? ==> Extra(c.server.values, c.story.base) == {}
  }

  /** Exactly when a hold is out of danger: while its client has read all replies, no way of
      going on without a word about settings leaves any behind, if and only if every setting
      that a level of the transaction, or its current state, does not have as it was is
      tracked. */
  lemma HoldIsSafeIff(cfg: Config, steps: seq<Step>)
    requires Runs(cfg, NEW, steps)
    requires var c := After(cfg, NEW, steps); c.phase.Held? && c.story.plain && Quiet(c)
    ensures var c := After(cfg, NEW, steps);
            Exposed(c.server, c.story.base) <= c.dirty
            <==> forall more :: Runs(cfg, c, more) && AllSilent(more) ==> LeavesNothing(After(cfg, c, more))
  {
    Reached(cfg, steps);
    var c := After(cfg, NEW, steps);
    if Exposed(c.server, c.story.base) <= c.dirty {
      forall more | Runs(cfg, c, more) && AllSilent(more)
        ensures LeavesNothing(After(cfg, c, more))
      {
        SilentRunsKeepClean(cfg, c, more);
      }
    } else {
      var v :| v in Exposed(c.server, c.story.base) && v !in c.dirty;
      assert c.server.status.Idle? ==> Exposed(c.server, c.story.base) == {};
      var more := ExposedLeaks(cfg, c, v);
      assert !LeavesNothing(After(cfg, c, more));
    }
  }

  // ---------------------------------------------------------------------
  // Runs that leak
  // ---------------------------------------------------------------------

  /** A connection with nothing under way, but for its labels. */
  datatype Spot = Spot(phase: Phase, pinned: bool, dirty: set<Var>, server: Server)

  predicate Stands(c: Conn, p: Spot) {
    && c.phase == p.phase && c.pinned == p.pinned && c.dirty == p.dirty && c.server == p.server
    && Quiet(c) && c.last == c.server.status
  }

  function Then(cfg: Config, p: Spot, command: Command): Spot {
    var pinned, server := Pinned(cfg.mode, p.pinned, command), Exec(cfg.spared, p.server, command, true);
    Spot(if Releases(cfg.mode, pinned, server.status) then Resetting else Held, pinned,
         if cfg.mode.Session? then p.dirty else Track(p.dirty, command), server)
  }

  /** From there the steps put the connection back into the pool with these settings. */
  ghost predicate Leaks(cfg: Config, p: Spot, steps: seq<Step>, values: map<Var, Value>) {
    forall c :: Stands(c, p) ==>
      Runs(cfg, c, steps) && After(cfg, c, steps).phase.Pooled? && After(cfg, c, steps).server.values == values
  }

  lemma LeaksLater(cfg: Config, p: Spot, command: Command, steps: seq<Step>, values: map<Var, Value>)
    requires p.phase.Held? && (cfg.mode.Multiplex? ==> !command.Listen? && !command.UnlistenAll?)
    requires Leaks(cfg, Then(cfg, p, command), steps, values)
    ensures Leaks(cfg, p, Exchange(command, steps), values)
  {
    forall c | Stands(c, p)
      ensures Runs(cfg, c, Exchange(command, steps))
      ensures After(cfg, c, Exchange(command, steps)).phase.Pooled?
      ensures After(cfg, c, Exchange(command, steps)).server.values == values
    {
      ExchangeRuns(cfg, c, command, steps);
      assert Stands(Exchanged(cfg, c, command), Then(cfg, p, command));
    }
  }

  /** A reset with nothing to undo. */
  const RECYCLED: seq<Step> := [Recycle([], true)] + []

  lemma RecycledLeaks(cfg: Config, values: map<Var, Value>)
    ensures Leaks(cfg, Spot(Resetting, false, {}, Server(values, [], Backend.Idle)), RECYCLED, values)
  {
    forall c | Stands(c, Spot(Resetting, false, {}, Server(values, [], Backend.Idle)))
      ensures Runs(cfg, c, RECYCLED)
      ensures After(cfg, c, RECYCLED).phase.Pooled? && After(cfg, c, RECYCLED).server.values == values
    {
      NothingRecycled(cfg, c);
    }
  }

  lemma NothingRecycled(cfg: Config, c: Conn)
    requires c.phase.Resetting? && Quiet(c) && c.dirty == {} && c.last == c.server.status == Backend.Idle
    requires c.server.saved == []
    ensures Runs(cfg, c, RECYCLED)
    ensures After(cfg, c, RECYCLED).phase.Pooled? && After(cfg, c, RECYCLED).server.values == c.server.values
  {
    assert multiset([]) == multiset(c.dirty);
    RecycleIsExact(c, []);
    assert c.server.values - {} == c.server.values;
    RunsOn(cfg, c, Recycle([], true), []);
  }

  /** The client of a kept connection goes. */
  lemma LeftLeaks(cfg: Config, pinned: bool, values: map<Var, Value>)
    ensures Leaks(cfg, Spot(Held, pinned, {}, Server(values, [], Backend.Idle)), [Leave] + RECYCLED, values)
  {
    forall c | Stands(c, Spot(Held, pinned, {}, Server(values, [], Backend.Idle)))
      ensures Runs(cfg, c, [Leave] + RECYCLED)
      ensures After(cfg, c, [Leave] + RECYCLED).phase.Pooled?
      ensures After(cfg, c, [Leave] + RECYCLED).server.values == values
    {
      NothingRecycled(cfg, Next(cfg, c, Leave));
      RunsOn(cfg, c, Leave, RECYCLED);
    }
  }

  ghost predicate LeaksFromNew(cfg: Config, steps: seq<Step>, values: map<Var, Value>) {
    var all := [Checkout] + steps;
    Runs(cfg, NEW, all) && After(cfg, NEW, all).phase.Pooled? && After(cfg, NEW, all).server.values == values
  }

  const TAKEN := Spot(Held, false, {}, Server(map[], [], Backend.Idle))

  lemma TakenLeaks(cfg: Config, steps: seq<Step>, values: map<Var, Value>)
    requires Leaks(cfg, TAKEN, steps, values)
    ensures LeaksFromNew(cfg, steps, values)
  {
    assert Stands(Next(cfg, NEW, Checkout), TAKEN);
    RunsOn(cfg, NEW, Checkout, steps);
  }

  /** A transaction that has SET one thing. */
  function OneSet(v: Var, x: Value, saved: seq<Level>): Spot {
    Spot(Held, false, {v}, Server(map[v := x], saved, Backend.InTransaction))
  }

  const EMPTY_LEVEL := Level("", map[])

  lemma OneSetLeaks(cfg: Config, v: Var, x: Value, steps: seq<Step>)
    requires !cfg.mode.Session? && Leaks(cfg, OneSet(v, x, [EMPTY_LEVEL]), steps, map[v := x])
    ensures LeaksFromNew(cfg, Exchange(Begin, Exchange(Set(v, Some(x)), steps)), map[v := x])
  {
    var p := Then(cfg, TAKEN, Begin);
    assert p == Spot(Held, false, {}, Server(map[], [EMPTY_LEVEL], Backend.InTransaction));
    assert Then(cfg, p, Set(v, Some(x))) == OneSet(v, x, [EMPTY_LEVEL]);
    LeaksLater(cfg, p, Set(v, Some(x)), steps, map[v := x]);
    LeaksLater(cfg, TAKEN, Begin, Exchange(Set(v, Some(x)), steps), map[v := x]);
    TakenLeaks(cfg, Exchange(Begin, Exchange(Set(v, Some(x)), steps)), map[v := x]);
  }

  /** An unpinned hold in transaction mode: a RESET behind a savepoint is undone by ROLLBACK TO,
      but not its tracking, and COMMIT keeps the SET. */
  lemma SavepointResetLeaks(cfg: Config, v: Var, x: Value, name: string)
    requires !cfg.mode.Session?
    ensures var back := Exchange(Reset(v), Exchange(RollbackTo(name), Exchange(Commit, RECYCLED)));
            var steps := Exchange(Begin, Exchange(Set(v, Some(x)), Exchange(Savepoint(name), back)));
            LeaksFromNew(cfg, steps, map[v := x])
  {
    var one, saved := map[v := x], [EMPTY_LEVEL, Level(name, map[v := x])];
    var p1, p2 := OneSet(v, x, [EMPTY_LEVEL]), OneSet(v, x, saved);
    assert Then(cfg, p1, Savepoint(name)) == p2;
    var p3 := Spot(Held, false, {}, Server(map[], saved, Backend.InTransaction));
    assert Then(cfg, p2, Reset(v)) == p3;
    var p4 := p3.(server := p3.server.(values := one));
    assert Find(saved, name) == 1 && saved[..2] == saved;
    assert Then(cfg, p3, RollbackTo(name)) == p4;
    RecycledLeaks(cfg, one);
    LeaksLater(cfg, p4, Commit, RECYCLED, one);
    LeaksLater(cfg, p3, RollbackTo(name), Exchange(Commit, RECYCLED), one);
    var back := Exchange(RollbackTo(name), Exchange(Commit, RECYCLED));
    LeaksLater(cfg, p2, Reset(v), back, one);
    LeaksLater(cfg, p1, Savepoint(name), Exchange(Reset(v), back), one);
    OneSetLeaks(cfg, v, x, Exchange(Savepoint(name), Exchange(Reset(v), back)));
  }

  /** COMMIT AND CHAIN keeps the SET and the connection; ROLLBACK then undoes the RESET. */
  lemma ChainedResetLeaks(cfg: Config, v: Var, x: Value)
    requires !cfg.mode.Session?
    ensures var back := Exchange(CommitChain, Exchange(Reset(v), Exchange(Rollback, RECYCLED)));
            LeaksFromNew(cfg, Exchange(Begin, Exchange(Set(v, Some(x)), back)), map[v := x])
  {
    var one, saved := map[v := x], [Level("", map[v := x])];
    var p1, p2 := OneSet(v, x, [EMPTY_LEVEL]), OneSet(v, x, saved);
    assert Then(cfg, p1, CommitChain) == p2;
    var p3 := Spot(Held, false, {}, Server(map[], saved, Backend.InTransaction));
    assert Then(cfg, p2, Reset(v)) == p3;
    RecycledLeaks(cfg, one);
    LeaksLater(cfg, p3, Rollback, RECYCLED, one);
    LeaksLater(cfg, p2, Reset(v), Exchange(Rollback, RECYCLED), one);
    LeaksLater(cfg, p1, CommitChain, Exchange(Reset(v), Exchange(Rollback, RECYCLED)), one);
    OneSetLeaks(cfg, v, x, Exchange(CommitChain, Exchange(Reset(v), Exchange(Rollback, RECYCLED))));
  }

  /** RESET ALL leaves a setting like role alone, but not its tracking. */
  lemma SparedSettingLeaks(cfg: Config, v: Var, x: Value)
    requires !cfg.mode.Session? && v in cfg.spared.byResetAll
    ensures LeaksFromNew(cfg, Exchange(Begin, Exchange(Set(v, Some(x)), Exchange(ResetAll, Exchange(Commit, RECYCLED)))),
                         map[v := x])
  {
    var one, p1 := map[v := x], OneSet(v, x, [EMPTY_LEVEL]);
    var p2 := p1.(dirty := {});
    assert Only(one, cfg.spared.byResetAll) == one;
    assert Then(cfg, p1, ResetAll) == p2;
    RecycledLeaks(cfg, one);
    LeaksLater(cfg, p2, Commit, RECYCLED, one);
    LeaksLater(cfg, p1, ResetAll, Exchange(Commit, RECYCLED), one);
    OneSetLeaks(cfg, v, x, Exchange(ResetAll, Exchange(Commit, RECYCLED)));
  }

  lemma PinnedSet(cfg: Config, v: Var, x: Value, steps: seq<Step>)
    requires cfg.mode.Pin? && Leaks(cfg, Spot(Held, true, {v}, Server(map[v := x], [], Backend.Idle)), steps, map[v := x])
    ensures LeaksFromNew(cfg, Exchange(Listen, Exchange(Set(v, Some(x)), steps)), map[v := x])
  {
    var p := TAKEN.(pinned := true);
    assert Then(cfg, TAKEN, Listen) == p;
    assert Then(cfg, p, Set(v, Some(x))) == Spot(Held, true, {v}, Server(map[v := x], [], Backend.Idle));
    LeaksLater(cfg, p, Set(v, Some(x)), steps, map[v := x]);
    LeaksLater(cfg, TAKEN, Listen, Exchange(Set(v, Some(x)), steps), map[v := x]);
    TakenLeaks(cfg, Exchange(Listen, Exchange(Set(v, Some(x)), steps)), map[v := x]);
  }

  /** On a connection pinned by LISTEN, a RESET that is rolled back is taken back, but not its
      tracking: the connection goes back to the pool with the setting. */
  lemma RolledBackResetLeaks(cfg: Config, v: Var, x: Value)
    requires cfg.mode.Pin?
    ensures var back := Exchange(Begin, Exchange(Reset(v), Exchange(Rollback, [Leave] + RECYCLED)));
            LeaksFromNew(cfg, Exchange(Listen, Exchange(Set(v, Some(x)), back)), map[v := x])
  {
    var one, saved, gone := map[v := x], [Level("", map[v := x])], [Leave] + RECYCLED;
    var p1 := Spot(Held, true, {v}, Server(one, [], Backend.Idle));
    var p2 := p1.(server := Server(one, saved, Backend.InTransaction));
    assert Then(cfg, p1, Begin) == p2;
    var p3 := Spot(Held, true, {}, Server(map[], saved, Backend.InTransaction));
    assert Then(cfg, p2, Reset(v)) == p3;
    LeftLeaks(cfg, true, one);
    LeaksLater(cfg, p3, Rollback, gone, one);
    LeaksLater(cfg, p2, Reset(v), Exchange(Rollback, gone), one);
    LeaksLater(cfg, p1, Begin, Exchange(Reset(v), Exchange(Rollback, gone)), one);
    PinnedSet(cfg, v, x, Exchange(Begin, Exchange(Reset(v), Exchange(Rollback, gone))));
  }

  /** Session mode tracks nothing: a SET stays for the next session. */
  lemma SessionSetLeaks(cfg: Config, v: Var, x: Value)
    requires cfg.mode.Session?
    ensures LeaksFromNew(cfg, Exchange(Set(v, Some(x)), [Leave] + RECYCLED), map[v := x])
  {
    var one := map[v := x];
    assert Then(cfg, TAKEN, Set(v, Some(x))) == Spot(Held, false, {}, Server(one, [], Backend.Idle));
    LeftLeaks(cfg, false, one);
    LeaksLater(cfg, TAKEN, Set(v, Some(x)), [Leave] + RECYCLED, one);
    TakenLeaks(cfg, Exchange(Set(v, Some(x)), [Leave] + RECYCLED), one);
  }
}
