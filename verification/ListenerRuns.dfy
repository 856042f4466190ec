/** Every run of the LISTEN multiplexer, with lost connections. */
module ListenerRuns {
  import opened Listener

  /** `restore` is what is left to re-subscribe; `told` is a label: the commands this connection
      has carried out. */
  datatype Link =
    | Down
    | Up(subs: set<Channel>, restore: seq<Channel>, told: seq<Cmd>)
    | Gone                                            // the listener gave up

  type Clients = map<nat, set<Channel>>

  datatype World = World(clients: Clients, shared: Shared, link: Link)

  const INITIAL := World(map[], Shared(map[], [], true), Down)

  datatype Step =
    | ClientListens(client: nat, ch: Channel)
    | ClientUnlistens(client: nat, ch: Channel)   // also one turn of UNLISTEN * or of a drop
    | Connected(restore: seq<Channel>)
    | RestoredOne
    | CommandDone
    | Crashed
    | CrashedInCommand                            // the command was taken from the queue and is lost
    | GaveUp

  function Channels(clients: Clients, client: nat): set<Channel> {
    if client in clients then clients[client] else {}
  }

  ghost predicate Enabled(w: World, step: Step) {
    match step
    case ClientListens(_, _) => true
    case ClientUnlistens(_, _) => true
    case Connected(restore) => w.link.Down? && (forall ch :: ch in restore <==> ch in w.shared.refs)
    case RestoredOne => w.link.Up? && w.link.restore != []
    case CommandDone => w.link.Up? && w.link.restore == [] && w.shared.queue != []
    case Crashed => w.link.Up?
    case CrashedInCommand => w.link.Up? && w.link.restore == [] && w.shared.queue != []
    case GaveUp => w.link.Down?
  }

  function Told(link: Link, cmd: Cmd): Link
    requires link.Up?
  {
    link.(subs := Apply(link.subs, cmd), told := link.told + [cmd])
  }

  function Next(w: World, step: Step): World
    requires Enabled(w, step)
  {
    match step
    case ClientListens(client, ch) =>
      var channels := Channels(w.clients, client);
      w.(clients := w.clients[client := channels + {ch}],
         shared := if ch in channels then w.shared else w.shared.AddRef(ch))
    case ClientUnlistens(client, ch) =>
      var channels := Channels(w.clients, client);
      w.(clients := w.clients[client := channels - {ch}],
         shared := if ch in channels then w.shared.RemoveRef(ch) else w.shared)
    case Connected(restore) => w.(link := Up({}, restore, []))
    case RestoredOne => w.(link := Told(w.link, Listen(w.link.restore[0])).(restore := w.link.restore[1..]))
    case CommandDone =>
      w.(link := Told(w.link, w.shared.queue[0]), shared := w.shared.(queue := w.shared.queue[1..]))
    case Crashed => w.(link := Down)
    case CrashedInCommand => w.(link := Down, shared := w.shared.(queue := w.shared.queue[1..]))
    case GaveUp => w.(link := Gone, shared := w.shared.(queue := [], open := false))
  }

  ghost predicate Runs(w: World, steps: seq<Step>)
    decreases |steps|
  {
    steps == [] || (Enabled(w, steps[0]) && Runs(Next(w, steps[0]), steps[1..]))
  }

  ghost function After(w: World, steps: seq<Step>): World
    requires Runs(w, steps)
    decreases |steps|
  {
    if steps == [] then w else After(Next(w, steps[0]), steps[1..])
  }

  // ---------------------------------------------------------------------
  // Reference counts
  // ---------------------------------------------------------------------

  ghost function Subscribers(clients: Clients, ch: Channel): set<nat> {
    set c | c in clients && ch in clients[c]
  }

  /** One channel's count against its set of subscribers. */
  ghost predicate ExactCount(shared: Shared, ch: Channel, subscribers: set<nat>) {
    shared.Count(ch) == |subscribers| && (ch in shared.refs <==> subscribers != {})
  }

  /** The count of a channel is the number of clients subscribed to it, and there is an entry
      exactly when that is positive. */
  ghost predicate ExactRefs(w: World) {
    forall ch :: ExactCount(w.shared, ch, Subscribers(w.clients, ch))
  }

  lemma SubscribersAfter(clients: Clients, client: nat, channels: set<Channel>, ch: Channel)
    ensures Subscribers(clients[client := channels], ch)
         == Subscribers(clients, ch) - {client} + if ch in channels then {client} else {}
  {
  }

  lemma AddRefKeepsExact(shared: Shared, ch: Channel, subscribers: set<nat>, client: nat)
    requires ExactCount(shared, ch, subscribers) && client !in subscribers
    ensures ExactCount(shared.AddRef(ch), ch, subscribers + {client})
  {
  }

  lemma RemoveRefKeepsExact(shared: Shared, ch: Channel, subscribers: set<nat>, client: nat)
    requires ExactCount(shared, ch, subscribers) && client in subscribers
    ensures ExactCount(shared.RemoveRef(ch), ch, subscribers - {client})
  {
    assert |subscribers - {client}| == |subscribers| - 1;
    assert shared.refs[ch] <= 1 <==> subscribers - {client} == {};
  }

  lemma OtherChannelsKeep(shared: Shared, c: Channel, ch: Channel, subscribers: set<nat>)
    requires c != ch
    ensures ExactCount(shared.AddRef(c), ch, subscribers) <==> ExactCount(shared, ch, subscribers)
    ensures ExactCount(shared.RemoveRef(c), ch, subscribers) <==> ExactCount(shared, ch, subscribers)
  {
  }

  lemma ListenKeepsExactCount(w: World, client: nat, c: Channel, ch: Channel)
    requires ExactCount(w.shared, ch, Subscribers(w.clients, ch))
    ensures var w' := Next(w, ClientListens(client, c)); ExactCount(w'.shared, ch, Subscribers(w'.clients, ch))
  {
    var before, channels := Subscribers(w.clients, ch), Channels(w.clients, client);
    SubscribersAfter(w.clients, client, channels + {c}, ch);
    assert ch in channels <==> client in before;
    if c == ch && client !in before {
      AddRefKeepsExact(w.shared, ch, before, client);
      assert before - {client} + {client} == before + {client};
    } else {
      assert before - {client} + (if ch in channels then {client} else {}) == before;
      if c != ch {
        OtherChannelsKeep(w.shared, c, ch, before);
      }
    }
  }

  lemma UnlistenKeepsExactCount(w: World, client: nat, c: Channel, ch: Channel)
    requires ExactCount(w.shared, ch, Subscribers(w.clients, ch))
    ensures var w' := Next(w, ClientUnlistens(client, c)); ExactCount(w'.shared, ch, Subscribers(w'.clients, ch))
  {
    var before, channels := Subscribers(w.clients, ch), Channels(w.clients, client);
    var after := Subscribers(w.clients[client := channels - {c}], ch);
    assert ch in channels <==> client in before;
    if c != ch {
      assert after == before;
      OtherChannelsKeep(w.shared, c, ch, before);
    } else {
      assert after == before - {client};
      if client in before {
        RemoveRefKeepsExact(w.shared, ch, before, client);
      } else {
        assert after == before;
      }
    }
  }

  lemma StepKeepsExactRefs(w: World, step: Step)
    requires ExactRefs(w) && Enabled(w, step)
    ensures ExactRefs(Next(w, step))
  {
    forall ch
      ensures ExactCount(Next(w, step).shared, ch, Subscribers(Next(w, step).clients, ch))
    {
      assert ExactCount(w.shared, ch, Subscribers(w.clients, ch));
      if step.ClientListens? {
        ListenKeepsExactCount(w, step.client, step.ch, ch);
      } else if step.ClientUnlistens? {
        UnlistenKeepsExactCount(w, step.client, step.ch, ch);
      }
    }
  }

  // ---------------------------------------------------------------------
  // The promise in the queue
  // ---------------------------------------------------------------------

  datatype Verdict = Subscribe | Leave | NoWord

  /** What the last queued command about a channel says. */
  function LastWord(queue: seq<Cmd>, ch: Channel): Verdict {
    if queue == [] then NoWord
    else
      var last := queue[|queue| - 1];
      if last.channel != ch then LastWord(queue[..|queue| - 1], ch)
      else if last.Listen? then Subscribe else Leave
  }

  function ApplyAll(subs: set<Channel>, queue: seq<Cmd>): set<Channel> {
    if queue == [] then subs else Apply(ApplyAll(subs, queue[..|queue| - 1]), queue[|queue| - 1])
  }

  lemma {:induction false} LastWordDecides(subs: set<Channel>, queue: seq<Cmd>, ch: Channel)
    ensures ch in ApplyAll(subs, queue) <==>
              LastWord(queue, ch) == Subscribe || (LastWord(queue, ch) == NoWord && ch in subs)
  {
    if queue != [] {
      LastWordDecides(subs, queue[..|queue| - 1], ch);
    }
  }

  lemma {:induction false} LastWordAfterPop(queue: seq<Cmd>, ch: Channel)
    requires queue != []
    ensures LastWord(queue, ch) ==
              if LastWord(queue[1..], ch) != NoWord then LastWord(queue[1..], ch)
              else if queue[0].channel != ch then NoWord
              else if queue[0].Listen? then Subscribe else Leave
    decreases |queue|
  {
    var front := queue[..|queue| - 1];
    if |queue| > 1 {
      assert queue[1..][..|queue| - 2] == front[1..];
      LastWordAfterPop(front, ch);
    }
  }

  lemma LastWordAfterPush(queue: seq<Cmd>, cmd: Cmd, ch: Channel)
    ensures LastWord(queue + [cmd], ch) ==
              if cmd.channel != ch then LastWord(queue, ch) else if cmd.Listen? then Subscribe else Leave
  {
    assert (queue + [cmd])[..|queue|] == queue;
  }

  /** One channel: the last queued word agrees with the reference counts; with no word queued,
      the server is subscribed, or about to be again, exactly when there are references. */
  ghost predicate SharedAgrees(shared: Shared, link: Link, ch: Channel) {
    match LastWord(shared.queue, ch)
    case Subscribe => ch in shared.refs
    case Leave => ch !in shared.refs
    case NoWord => link.Up? ==> (ch in link.subs || ch in link.restore <==> ch in shared.refs)
  }

  ghost predicate Agrees(w: World, ch: Channel) {
    SharedAgrees(w.shared, w.link, ch)
  }

  ghost predicate Promised(w: World) {
    && w.shared.open == !w.link.Gone?
    && (w.link.Gone? ==> w.shared.queue == [])
    && forall ch :: Agrees(w, ch)
  }

  lemma AddRefKeepsAgrees(shared: Shared, link: Link, c: Channel, ch: Channel)
    requires SharedAgrees(shared, link, ch) && shared.open == !link.Gone?
    requires link.Gone? ==> shared.queue == []
    requires c in shared.refs ==> shared.refs[c] > 0
    ensures SharedAgrees(shared.AddRef(c), link, ch)
  {
    LastWordAfterPush(shared.queue, Listen(c), ch);
  }

  lemma RemoveRefKeepsAgrees(shared: Shared, link: Link, c: Channel, ch: Channel)
    requires SharedAgrees(shared, link, ch) && shared.open == !link.Gone?
    requires link.Gone? ==> shared.queue == []
    ensures SharedAgrees(shared.RemoveRef(c), link, ch)
  {
    LastWordAfterPush(shared.queue, Unlisten(c), ch);
  }

  lemma ClientStepKeepsAgrees(w: World, step: Step, ch: Channel)
    requires ExactRefs(w) && Promised(w) && (step.ClientListens? || step.ClientUnlistens?)
    ensures Agrees(Next(w, step), ch)
  {
    assert Agrees(w, ch);
    assert ExactCount(w.shared, step.ch, Subscribers(w.clients, step.ch));
    if step.ClientListens? {
      AddRefKeepsAgrees(w.shared, w.link, step.ch, ch);
    } else {
      RemoveRefKeepsAgrees(w.shared, w.link, step.ch, ch);
    }
  }

  lemma TaskStepKeepsAgrees(w: World, step: Step, ch: Channel)
    requires Promised(w) && Enabled(w, step) && !step.ClientListens? && !step.ClientUnlistens?
    ensures Agrees(Next(w, step), ch)
  {
    assert Agrees(w, ch);
    if step.CommandDone? || step.CrashedInCommand? {
      LastWordAfterPop(w.shared.queue, ch);
    } else if step.RestoredOne? {
      assert w.link.restore == [w.link.restore[0]] + w.link.restore[1..];
    }
  }

  lemma StepKeepsPromised(w: World, step: Step)
    requires ExactRefs(w) && Promised(w) && Enabled(w, step)
    ensures Promised(Next(w, step))
  {
    forall ch
      ensures Agrees(Next(w, step), ch)
    {
      if step.ClientListens? || step.ClientUnlistens? {
        ClientStepKeepsAgrees(w, step, ch);
      } else {
        TaskStepKeepsAgrees(w, step, ch);
      }
    }
  }

  lemma {:induction false} RunsKeepPromised(w: World, steps: seq<Step>)
    requires ExactRefs(w) && Promised(w) && Runs(w, steps)
    ensures ExactRefs(After(w, steps)) && Promised(After(w, steps))
    decreases |steps|
  {
    if steps != [] {
      StepKeepsExactRefs(w, steps[0]);
      StepKeepsPromised(w, steps[0]);
      RunsKeepPromised(Next(w, steps[0]), steps[1..]);
    }
  }

  // ---------------------------------------------------------------------
  // Main results
  // ---------------------------------------------------------------------

  lemma Initially()
    ensures ExactRefs(INITIAL) && Promised(INITIAL)
  {
    assert forall ch :: Subscribers(INITIAL.clients, ch) == {};
    assert forall ch :: LastWord(INITIAL.shared.queue, ch) == NoWord;
  }

  /** In every reachable state a channel's count is the number of clients subscribed to it. */
  lemma RefsCountSubscribers(steps: seq<Step>, ch: Channel)
    requires Runs(INITIAL, steps)
    ensures var w := After(INITIAL, steps);
            && w.shared.Count(ch) == |Subscribers(w.clients, ch)|
            && (ch in w.shared.refs <==> exists c :: c in w.clients && ch in w.clients[c])
  {
    Initially();
    RunsKeepPromised(INITIAL, steps);
    var w := After(INITIAL, steps);
    assert ExactCount(w.shared, ch, Subscribers(w.clients, ch));
    if c :| c in w.clients && ch in w.clients[c] {
      assert c in Subscribers(w.clients, ch);
    } else {
      assert Subscribers(w.clients, ch) == {};
    }
  }

  function Restoring(restore: seq<Channel>): seq<Cmd> {
    seq(|restore|, i requires 0 <= i < |restore| => Listen(restore[i]))
  }

  lemma {:induction false} RestoringAdds(subs: set<Channel>, restore: seq<Channel>)
    ensures ApplyAll(subs, Restoring(restore)) == subs + set ch | ch in restore
  {
    if restore != [] {
      var n := |restore| - 1;
      RestoringAdds(subs, restore[..n]);
      assert Restoring(restore)[..n] == Restoring(restore[..n]);
      assert restore == restore[..n] + [restore[n]];
    }
  }

  lemma {:induction false} ApplyAllConcat(subs: set<Channel>, a: seq<Cmd>, b: seq<Cmd>)
    ensures ApplyAll(subs, a + b) == ApplyAll(ApplyAll(subs, a), b)
  {
    if b == [] {
      assert a + b == a;
    } else {
      ApplyAllConcat(subs, a, b[..|b| - 1]);
      assert (a + b)[..|a + b| - 1] == a + b[..|b| - 1];
    }
  }

  /** Whenever the connection is up, even in the middle of a restore after a crash at any
      point, the rest of the restore followed by the queued commands takes the server's
      subscriptions to exactly the channels some client is subscribed to. */
  lemma ServerConvergesToSubscribers(steps: seq<Step>)
    requires Runs(INITIAL, steps) && After(INITIAL, steps).link.Up?
    ensures var w := After(INITIAL, steps);
            ApplyAll(w.link.subs, Restoring(w.link.restore) + w.shared.queue) == w.shared.refs.Keys
  {
    Initially();
    RunsKeepPromised(INITIAL, steps);
    var w := After(INITIAL, steps);
    ApplyAllConcat(w.link.subs, Restoring(w.link.restore), w.shared.queue);
    RestoringAdds(w.link.subs, w.link.restore);
    var subs := w.link.subs + set ch | ch in w.link.restore;
    forall ch
      ensures ch in ApplyAll(subs, w.shared.queue) <==> ch in w.shared.refs
    {
      assert Agrees(w, ch);
      LastWordDecides(subs, w.shared.queue, ch);
    }
  }

  /** Once the listener has nothing left to do, the server listens to a channel exactly when
      some client does. */
  lemma IdleListenerIsExact(steps: seq<Step>, ch: Channel)
    requires Runs(INITIAL, steps)
    requires After(INITIAL, steps).link.Up? && After(INITIAL, steps).link.restore == [] &&
          After(INITIAL, steps).shared.queue == []
    ensures var w := After(INITIAL, steps);
            ch in w.link.subs <==> exists c :: c in w.clients && ch in w.clients[c]
  {
    ServerConvergesToSubscribers(steps);
    RefsCountSubscribers(steps, ch);
    var w := After(INITIAL, steps);
    assert Restoring(w.link.restore) + w.shared.queue == [];
  }

  // ---------------------------------------------------------------------
  // A server that cuts names
  // ---------------------------------------------------------------------

  /** The names are told apart after the cut; PostgreSQL keeps 63 bytes of an identifier. */
  ghost predicate ApartOn(cut: Channel -> Channel, names: set<Channel>) {
    forall a, b :: a in names && b in names && cut(a) == cut(b) ==> a == b
  }

  function Image(cut: Channel -> Channel, names: set<Channel>): set<Channel> {
    set ch | ch in names :: cut(ch)
  }

  function CutCmd(cut: Channel -> Channel, cmd: Cmd): Cmd {
    cmd.(channel := cut(cmd.channel))
  }

  /** What a server that cuts names is subscribed to after these commands. */
  function CutSubs(cut: Channel -> Channel, told: seq<Cmd>): set<Channel> {
    if told == [] then {} else Apply(CutSubs(cut, told[..|told| - 1]), CutCmd(cut, told[|told| - 1]))
  }

  ghost predicate Names(cmds: seq<Cmd>, names: set<Channel>) {
    forall cmd :: cmd in cmds ==> cmd.channel in names
  }

  ghost predicate StepNames(step: Step, names: set<Channel>) {
    step.ClientListens? || step.ClientUnlistens? ==> step.ch in names
  }

  ghost predicate RunNames(steps: seq<Step>, names: set<Channel>) {
    forall step :: step in steps ==> StepNames(step, names)
  }

  /** Only these names are around, and what was told is what the server is subscribed to. */
  ghost predicate Within(w: World, names: set<Channel>) {
    && w.shared.refs.Keys <= names
    && Names(w.shared.queue, names)
    && (w.link.Up? ==>
          && (forall ch :: ch in w.link.restore ==> ch in names)
          && Names(w.link.told, names)
          && w.link.subs == ApplyAll({}, w.link.told))
  }

  lemma ToldKeepsWithin(link: Link, cmd: Cmd, names: set<Channel>)
    requires link.Up? && Names(link.told, names) && cmd.channel in names && link.subs == ApplyAll({}, link.told)
    ensures Names(Told(link, cmd).told, names) && Told(link, cmd).subs == ApplyAll({}, Told(link, cmd).told)
  {
    assert (link.told + [cmd])[..|link.told|] == link.told;
  }

  lemma StepKeepsWithin(w: World, step: Step, names: set<Channel>)
    requires Within(w, names) && Enabled(w, step) && StepNames(step, names)
    ensures Within(Next(w, step), names)
  {
    if step.RestoredOne? {
      assert w.link.restore[0] in w.link.restore;
      ToldKeepsWithin(w.link, Listen(w.link.restore[0]), names);
    } else if step.CommandDone? {
      assert w.shared.queue[0] in w.shared.queue;
      ToldKeepsWithin(w.link, w.shared.queue[0], names);
    }
  }

  lemma {:induction false} RunsKeepWithin(w: World, steps: seq<Step>, names: set<Channel>)
    requires Within(w, names) && Runs(w, steps) && RunNames(steps, names)
    ensures Within(After(w, steps), names)
    decreases |steps|
  {
    if steps != [] {
      assert steps[0] in steps;
      StepKeepsWithin(w, steps[0], names);
      RunsKeepWithin(Next(w, steps[0]), steps[1..], names);
    }
  }

  /** Names that stay apart are cut one by one. */
  lemma {:induction false} CutSubsAreImage(cut: Channel -> Channel, names: set<Channel>, told: seq<Cmd>)
    requires ApartOn(cut, names) && Names(told, names)
    ensures ApplyAll({}, told) <= names && CutSubs(cut, told) == Image(cut, ApplyAll({}, told))
    decreases |told|
  {
    if told != [] {
      var front, last := told[..|told| - 1], told[|told| - 1];
      assert last in told;
      CutSubsAreImage(cut, names, front);
      CutOne(cut, names, ApplyAll({}, front), last);
    }
  }

  lemma CutOne(cut: Channel -> Channel, names: set<Channel>, subs: set<Channel>, cmd: Cmd)
    requires ApartOn(cut, names) && subs <= names && cmd.channel in names
    ensures Apply(Image(cut, subs), CutCmd(cut, cmd)) == Image(cut, Apply(subs, cmd))
  {
  }

  ghost predicate Idle(w: World) {
    w.link.Up? && w.link.restore == [] && w.shared.queue == []
  }

  /** The server is subscribed, under their cut names, to what clients are subscribed to. */
  ghost predicate CutExact(cut: Channel -> Channel, w: World) {
    Idle(w) ==> CutSubs(cut, w.link.told) == Image(cut, w.shared.refs.Keys)
  }

  lemma StepOn(w: World, step: Step, next: World, more: seq<Step>)
    requires Enabled(w, step) && Next(w, step) == next && Runs(next, more)
    ensures Runs(w, [step] + more) && After(w, [step] + more) == After(next, more)
  {
    assert ([step] + more)[1..] == more;
  }

  /** Two names with one cut: a client that leaves the second takes the first away from the
      other client. */
  function ClashingRun(a: Channel, b: Channel): seq<Step> {
    [Connected([])] + ([ClientListens(0, a)] + ([ClientListens(1, b)] + ([ClientUnlistens(1, b)] +
      ([CommandDone] + ([CommandDone] + ([CommandDone] + []))))))
  }

  /** The server carries out the three commands. */
  lemma ClashIsTold(clients: Clients, a: Channel, b: Channel)
    requires a != b
    ensures var all := [Listen(a), Listen(b), Unlisten(b)];
            var w := World(clients, Shared(map[a := 1], all, true), Up({}, [], []));
            var steps := [CommandDone] + ([CommandDone] + ([CommandDone] + []));
            Runs(w, steps) && After(w, steps) == World(clients, Shared(map[a := 1], [], true), Up({a}, [], all))
  {
    var all := [Listen(a), Listen(b), Unlisten(b)];
    var w3 := World(clients, Shared(map[a := 1], [], true), Up({a}, [], all));
    var w2 := World(clients, Shared(map[a := 1], [Unlisten(b)], true), Up({a, b}, [], [Listen(a), Listen(b)]));
    assert {a, b} - {b} == {a} && [Unlisten(b)][1..] == [] && [Listen(a), Listen(b)] + [Unlisten(b)] == all;
    StepOn(w2, CommandDone, w3, []);
    var w1 := World(clients, Shared(map[a := 1], [Listen(b), Unlisten(b)], true), Up({a}, [], [Listen(a)]));
    assert {a} + {b} == {a, b} && [Listen(b), Unlisten(b)][1..] == [Unlisten(b)];
    assert [Listen(a)] + [Listen(b)] == [Listen(a), Listen(b)];
    StepOn(w1, CommandDone, w2, [CommandDone] + []);
    var w := World(clients, Shared(map[a := 1], all, true), Up({}, [], []));
    assert {} + {a} == {a} && all[1..] == [Listen(b), Unlisten(b)] && [] + [Listen(a)] == [Listen(a)];
    StepOn(w, CommandDone, w1, [CommandDone] + ([CommandDone] + []));
  }

  lemma ClashIsQueued(a: Channel, b: Channel)
    requires a != b
    ensures var up := World(map[], Shared(map[], [], true), Up({}, [], []));
            var w1 := Next(up, ClientListens(0, a));
            var w2 := Next(w1, ClientListens(1, b));
            Next(w2, ClientUnlistens(1, b)).shared == Shared(map[a := 1], [Listen(a), Listen(b), Unlisten(b)], true)
  {
    var w1 := Next(World(map[], Shared(map[], [], true), Up({}, [], [])), ClientListens(0, a));
    assert w1.shared == Shared(map[a := 1], [Listen(a)], true);
    var w2 := Next(w1, ClientListens(1, b));
    assert w2.shared == Shared(map[a := 1, b := 1], [Listen(a), Listen(b)], true);
    assert map[a := 1, b := 1] - {b} == map[a := 1];
    assert [Listen(a), Listen(b)] + [Unlisten(b)] == [Listen(a), Listen(b), Unlisten(b)];
  }

  lemma ClashRuns(a: Channel, b: Channel)
    requires a != b
    ensures Runs(INITIAL, ClashingRun(a, b)) && Idle(After(INITIAL, ClashingRun(a, b)))
    ensures After(INITIAL, ClashingRun(a, b)).shared.refs == map[a := 1]
    ensures After(INITIAL, ClashingRun(a, b)).link.told == [Listen(a), Listen(b), Unlisten(b)]
  {
    var tail := [CommandDone] + ([CommandDone] + ([CommandDone] + []));
    var up := World(map[], Shared(map[], [], true), Up({}, [], []));
    var w1 := Next(up, ClientListens(0, a));
    var w2 := Next(w1, ClientListens(1, b));
    var w3 := Next(w2, ClientUnlistens(1, b));
    ClashIsQueued(a, b);
    ClashIsTold(w3.clients, a, b);
    StepOn(w2, ClientUnlistens(1, b), w3, tail);
    StepOn(w1, ClientListens(1, b), w2, [ClientUnlistens(1, b)] + tail);
    StepOn(up, ClientListens(0, a), w1, [ClientListens(1, b)] + ([ClientUnlistens(1, b)] + tail));
    assert Next(INITIAL, Connected([])) == up;
    StepOn(INITIAL, Connected([]), up, [ClientListens(0, a)] + ([ClientListens(1, b)] + ([ClientUnlistens(1, b)] + tail)));
  }

  lemma ClashIsNotExact(cut: Channel -> Channel, a: Channel, b: Channel)
    requires a != b && cut(a) == cut(b)
    ensures Runs(INITIAL, ClashingRun(a, b)) && !CutExact(cut, After(INITIAL, ClashingRun(a, b)))
  {
    ClashRuns(a, b);
    var w := After(INITIAL, ClashingRun(a, b));
    var told := [Listen(a), Listen(b), Unlisten(b)];
    assert told[..2] == [Listen(a), Listen(b)] && [Listen(a), Listen(b)][..1] == [Listen(a)] && [Listen(a)][..0] == [];
    assert CutSubs(cut, [Listen(a)]) == {cut(a)};
    assert CutSubs(cut, told) == {};
    assert cut(a) in Image(cut, w.shared.refs.Keys);
  }

  lemma ClashNames(a: Channel, b: Channel, names: set<Channel>)
    requires a in names && b in names
    ensures RunNames(ClashingRun(a, b), names)
  {
    forall step | step in ClashingRun(a, b)
      ensures StepNames(step, names)
    {
      assert step.ClientListens? || step.ClientUnlistens? ==> step.ch == a || step.ch == b;
    }
  }

  lemma ApartIsExact(cut: Channel -> Channel, names: set<Channel>, steps: seq<Step>)
    requires ApartOn(cut, names) && Runs(INITIAL, steps) && RunNames(steps, names)
    ensures CutExact(cut, After(INITIAL, steps))
  {
    var w := After(INITIAL, steps);
    if Idle(w) {
      RunsKeepWithin(INITIAL, steps, names);
      CutSubsAreImage(cut, names, w.link.told);
      ServerConvergesToSubscribers(steps);
      assert Restoring(w.link.restore) + w.shared.queue == [];
    }
  }

  /** A server that cuts names is, once the listener is idle, subscribed to what the clients are
      subscribed to in every run over a set of names, exactly when the cut keeps them apart. */
  lemma ExactIffNamesStayApart(cut: Channel -> Channel, names: set<Channel>)
    ensures ApartOn(cut, names) <==>
            forall steps :: Runs(INITIAL, steps) && RunNames(steps, names) ==> CutExact(cut, After(INITIAL, steps))
  {
    if ApartOn(cut, names) {
      forall steps | Runs(INITIAL, steps) && RunNames(steps, names)
        ensures CutExact(cut, After(INITIAL, steps))
      {
        ApartIsExact(cut, names, steps);
      }
    } else {
      var a, b :| a in names && b in names && cut(a) == cut(b) && a != b;
      ClashIsNotExact(cut, a, b);
      ClashNames(a, b, names);
    }
  }
}
