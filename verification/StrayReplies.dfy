/** Whose answers clients are told on a connection that was pooled too early. */
module StrayReplies {

  /** What ends the answer to one query: whose it was, and whether it left an error or a
      ReadyForQuery(Idle). The client 0 is the reset. */
  datatype Answer = Answer(client: nat, failed: bool, idle: bool)

  datatype Phase = Pooled | Held | Released | Closed

  /** `due` are the answers not read yet, oldest first, of queries under way too. `kept` is
      whether an idle ReadyForQuery does not end the hold. The labels `stale`, `asked` and
      `told` are of the hold: the answers due when it began, those to its own queries, and
      those its client was told. */
  datatype Conn = Conn(
    phase: Phase, client: nat, kept: bool, due: seq<Answer>,
    stale: seq<Answer>, asked: seq<Answer>, told: seq<Answer>)

  const NEW := Conn(Pooled, 0, false, [], [], [], [])

  datatype Step =
    | Checkout(kept: bool)
    | Ask(failed: bool, idle: bool)
    | Tell
    | Leave
    | Recycle(failed: bool, idle: bool)

  predicate Enabled(c: Conn, step: Step) {
    match step
    case Checkout(_) => c.phase.Pooled?
    case Ask(_, _) => c.phase.Held?
    case Tell => c.phase.Held? && c.due != []
    case Leave => c.phase.Held?
    case Recycle(_, _) => c.phase.Released?
  }

  /** The reset sends a query of its own and takes the first answer that comes for its own. */
  function Next(c: Conn, step: Step): Conn
    requires Enabled(c, step)
  {
    match step
    case Checkout(kept) => Conn(Held, c.client + 1, kept, c.due, c.due, [], [])
    case Ask(failed, idle) =>
      var answer := Answer(c.client, failed, idle);
      c.(due := c.due + [answer], asked := c.asked + [answer])
    case Tell =>
      c.(phase := if c.due[0].idle && !c.kept then Released else Held, due := c.due[1..], told := c.told + [c.due[0]])
    case Leave => c.(phase := Released)
    case Recycle(failed, idle) =>
      var due := c.due + [Answer(0, failed, idle)];
      c.(phase := if due[0].idle && !due[0].failed then Pooled else Closed, due := due[1..])
  }

  ghost predicate Runs(c: Conn, steps: seq<Step>)
    decreases |steps|
  {
    steps == [] || (Enabled(c, steps[0]) && Runs(Next(c, steps[0]), steps[1..]))
  }

  ghost function After(c: Conn, steps: seq<Step>): Conn
    requires Runs(c, steps)
    decreases |steps|
  {
    if steps == [] then c else After(Next(c, steps[0]), steps[1..])
  }

  // ---------------------------------------------------------------------
  // What a client is told
  // ---------------------------------------------------------------------

  ghost predicate Others(answers: seq<Answer>, client: nat) {
    forall a :: a in answers ==> a.client != client
  }

  ghost predicate Own(answers: seq<Answer>, client: nat) {
    forall a :: a in answers ==> a.client == client
  }

  ghost predicate NoIdle(answers: seq<Answer>) {
    forall a :: a in answers ==> !a.idle
  }

  /** In a hold the answers due when it began come first, then its own, and a hold that ends at
      an idle one has been told none before the last. What is due in the pool ends with the
      answer to the reset. */
  ghost predicate Queued(c: Conn) {
    && (forall a :: a in c.due ==> a.client <= c.client)
    && (c.phase.Pooled? && c.due != [] ==> c.due[|c.due| - 1].client == 0)
    && (c.phase.Held? || c.phase.Released? ==>
          && c.client > 0 && Others(c.stale, c.client) && Own(c.asked, c.client))
    && (c.phase.Held? ==> c.told + c.due == c.stale + c.asked && (!c.kept ==> NoIdle(c.told)))
    && (c.phase.Released? ==> c.told + c.due == c.stale + c.asked
                              && (!c.kept && c.told != [] ==> NoIdle(c.told[..|c.told| - 1])))
  }

  lemma TellKeepsQueued(c: Conn)
    requires Queued(c) && Enabled(c, Tell)
    ensures Queued(Next(c, Tell))
  {
    var c' := Next(c, Tell);
    assert c'.told + c'.due == c.told + c.due;
    assert c'.told[..|c'.told| - 1] == c.told;
  }

  lemma StepKeepsQueued(c: Conn, step: Step)
    requires Queued(c) && Enabled(c, step)
    ensures Queued(Next(c, step))
  {
    match step
    case Checkout(_) => assert [] + c.due == c.due + [];
    case Ask(failed, idle) =>
      var answer := Answer(c.client, failed, idle);
      assert c.told + (c.due + [answer]) == (c.told + c.due) + [answer];
      assert c.stale + (c.asked + [answer]) == (c.stale + c.asked) + [answer];
    case Tell => TellKeepsQueued(c);
    case Leave =>
    case Recycle(_, _) =>
  }

  lemma {:induction false} RunsKeepQueued(c: Conn, steps: seq<Step>)
    requires Queued(c) && Runs(c, steps)
    ensures Queued(After(c, steps))
    decreases |steps|
  {
    if steps != [] {
      StepKeepsQueued(c, steps[0]);
      RunsKeepQueued(Next(c, steps[0]), steps[1..]);
    }
  }

  /** In every hold of every run the client is told the answers that were due when it began, then
      its own, in order: what it takes for the answer to its query number n is that to number n
      less the number of stale ones. */
  lemma AnswersAreShifted(steps: seq<Step>)
    requires Runs(NEW, steps) && After(NEW, steps).phase.Held?
    ensures var c := After(NEW, steps);
            && (forall i :: 0 <= i < |c.told| && i < |c.stale| ==> c.told[i] == c.stale[i] && c.told[i].client != c.client)
            && (forall i :: |c.stale| <= i < |c.told| ==>
                  i - |c.stale| < |c.asked| && c.told[i] == c.asked[i - |c.stale|] && c.told[i].client == c.client)
            && |c.due| == |c.stale| + |c.asked| - |c.told|
  {
    RunsKeepQueued(NEW, steps);
    var c := After(NEW, steps);
    var all := c.told + c.due;
    forall i | 0 <= i < |c.told|
      ensures i < |c.stale| ==> c.told[i] == c.stale[i] && c.told[i].client != c.client
      ensures i >= |c.stale| ==>
                i - |c.stale| < |c.asked| && c.told[i] == c.asked[i - |c.stale|] && c.told[i].client == c.client
    {
      assert all[i] == c.told[i];
      if i < |c.stale| {
        assert c.stale[i] in c.stale;
      } else {
        assert c.asked[i - |c.stale|] in c.asked;
      }
    }
    assert |all| == |c.stale + c.asked|;
  }

  /** A hold on a connection that owed nothing is told its own answers only. */
  lemma NothingStale(steps: seq<Step>)
    requires Runs(NEW, steps) && After(NEW, steps).phase.Held? && After(NEW, steps).stale == []
    ensures var c := After(NEW, steps); c.told <= c.asked
  {
    RunsKeepQueued(NEW, steps);
    var c := After(NEW, steps);
    assert c.told <= c.told + c.due;
    assert [] + c.asked == c.asked;
  }

  // ---------------------------------------------------------------------
  // Holds that end at the first ReadyForQuery(Idle)
  // ---------------------------------------------------------------------

  ghost predicate StaysInHold(steps: seq<Step>) {
    forall step :: step in steps ==> !step.Checkout? && !step.Recycle?
  }

  /** An answer of its own reaches the client. */
  ghost predicate ToldOwn(c: Conn) {
    exists a :: a in c.told && a.client == c.client
  }

  /** The labels of a hold stay. */
  lemma {:induction false} HoldKeepsLabels(c: Conn, steps: seq<Step>)
    requires Runs(c, steps) && StaysInHold(steps) && (c.phase.Held? || c.phase.Released?)
    ensures var c' := After(c, steps);
            && (c'.phase.Held? || c'.phase.Released?)
            && c'.stale == c.stale && c'.client == c.client && c'.kept == c.kept
    decreases |steps|
  {
    if steps != [] {
      assert steps[0] in steps;
      HoldKeepsLabels(Next(c, steps[0]), steps[1..]);
    }
  }

  lemma IdleComesFirst(c: Conn)
    requires Queued(c) && (c.phase.Held? || c.phase.Released?) && !c.kept && !NoIdle(c.stale)
    ensures !ToldOwn(c)
  {
    var i :| 0 <= i < |c.stale| && c.stale[i].idle;
    var all := c.stale + c.asked;
    assert forall j :: 0 <= j < |c.told| ==> c.told[j] == (c.told + c.due)[j] == all[j];
    forall j | 0 <= j < |c.told| - 1 && j < |c.stale|
      ensures !c.stale[j].idle
    {
      assert c.told[j] == c.told[..|c.told| - 1][j] && c.told[j] == c.stale[j];
    }
    assert |c.told| - 1 <= i;
    forall a | a in c.told
      ensures a.client != c.client
    {
      var j :| 0 <= j < |c.told| && c.told[j] == a;
      assert a == c.stale[j] && c.stale[j] in c.stale;
    }
  }

  lemma FirstOfMany(due: seq<Answer>, told: seq<Answer>, n: nat)
    requires 0 < n <= |due|
    ensures due[1..][..n - 1] == due[1..n] && due[1..][n - 1..] == due[n..]
    ensures (told + [due[0]]) + due[1..n] == told + due[..n]
    ensures NoIdle(due[..n]) ==> NoIdle(due[1..n]) && !due[0].idle
  {
    assert due[0] == due[..n][0];
    assert forall a :: a in due[1..n] ==> a in due[..n];
  }

  /** A hold that reads one stale answer after the other. */
  lemma {:induction false} StaleCanBeRead(c: Conn, n: nat) returns (steps: seq<Step>)
    requires c.phase.Held? && n <= |c.due| && NoIdle(c.due[..n])
    ensures Runs(c, steps) && StaysInHold(steps)
    ensures After(c, steps) == c.(due := c.due[n..], told := c.told + c.due[..n])
    decreases n
  {
    if n == 0 {
      steps := [];
      assert c.told + c.due[..0] == c.told && c.due[0..] == c.due;
    } else {
      FirstOfMany(c.due, c.told, n);
      var more := StaleCanBeRead(Next(c, Tell), n - 1);
      steps := [Tell] + more;
      assert steps[1..] == more;
    }
  }

  /** The client of a hold that ends at the first ReadyForQuery(Idle) can be told an answer of
      its own exactly when none of the stale ones is idle. The last of these is the answer to
      the reset; when that is idle, the client never is. */
  lemma OwnAnswerIffNoStaleIdle(before: seq<Step>)
    requires Runs(NEW, before) && After(NEW, before).phase.Pooled?
    ensures var c := Next(After(NEW, before), Checkout(false));
            c.stale != [] ==> c.stale[|c.stale| - 1].client == 0
    ensures var c := Next(After(NEW, before), Checkout(false));
            (exists steps :: Runs(c, steps) && StaysInHold(steps) && ToldOwn(After(c, steps))) <==> NoIdle(c.stale)
  {
    RunsKeepQueued(NEW, before);
    var pooled := After(NEW, before);
    var c := Next(pooled, Checkout(false));
    StepKeepsQueued(pooled, Checkout(false));
    if NoIdle(c.stale) {
      var n := |c.due|;
      assert c.due[..n] == c.due;
      var steps := StaleCanBeRead(c, n);
      var c1 := After(c, steps);
      OneOwnAnswer(c, steps);
    } else {
      forall steps | Runs(c, steps) && StaysInHold(steps)
        ensures !ToldOwn(After(c, steps))
      {
        RunsKeepQueued(c, steps);
        HoldKeepsLabels(c, steps);
        IdleComesFirst(After(c, steps));
      }
    }
  }

  lemma {:induction false} RunsConcat(c: Conn, steps: seq<Step>, more: seq<Step>)
    requires Runs(c, steps) && Runs(After(c, steps), more)
    ensures Runs(c, steps + more) && After(c, steps + more) == After(After(c, steps), more)
    decreases |steps|
  {
    if steps == [] {
      assert steps + more == more;
    } else {
      assert (steps + more)[1..] == steps[1..] + more;
      RunsConcat(Next(c, steps[0]), steps[1..], more);
    }
  }

  lemma OneOwnAnswer(c: Conn, steps: seq<Step>)
    requires Runs(c, steps) && StaysInHold(steps) && After(c, steps).phase.Held? && After(c, steps).due == []
    ensures exists all :: Runs(c, all) && StaysInHold(all) && ToldOwn(After(c, all))
  {
    var c1 := After(c, steps);
    var more := [Ask(false, true), Tell];
    var c2 := Next(c1, Ask(false, true));
    assert more[1..] == [Tell] && [Tell][1..] == [];
    assert c2.due == [Answer(c1.client, false, true)];
    var c3 := Next(c2, Tell);
    assert Runs(c2, [Tell]) && After(c2, [Tell]) == c3;
    assert Answer(c1.client, false, true) in c3.told;
    RunsConcat(c, steps, more);
    assert ToldOwn(After(c, steps + more));
  }
}
