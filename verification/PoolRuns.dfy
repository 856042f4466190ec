/** Every run of the pool: each region under the pool lock is one step, connects and resets
    finish in their own steps, and time may pass between any two. */
module PoolRuns {
  import opened Options
  import opened Pools
  import opened Checkout
  import opened Lifecycle

  /** Where an issued connection id is. Connects under way and live guards are the two ways
      of being active; `Closed` is final. */
  datatype Place =
    | Idle(key: PoolKey)
    | Connecting(key: PoolKey)
    | Guarded(key: PoolKey)
    | Resetting(key: PoolKey)
    | Closed

  datatype State = State(pools: PoolMap, nextId: nat, places: map<nat, Place>, now: nat)

  const INITIAL := State(map[], 0, map[], 0)

  datatype Step =
    | Tick(elapsed: nat)
    | Try(ages: Ages, ranked: seq<PoolKey>, victim: Option<PoolKey>, pools: PoolMap, result: CandidateResult)
    | Connected(id: nat)
    | ConnectFailed(id: nat)
    | CheckedIn(id: nat)
    | GuardDropped(id: nat)
    | ResetDone(id: nat, createdAt: nat)
    | ResetGone(id: nat)                       // the reset failed or its task was dropped
    | Refilled(key: PoolKey, createdAt: nat)
    | Scavenged(alive: nat -> bool)
    | NodeDrained(node: string)
    | AllDrained

  predicate IsAt(s: State, id: nat, p: Place) {
    id in s.places && s.places[id] == p
  }

  ghost predicate Enabled(cfg: Config, s: State, step: Step) {
    match step
    case Try(ages, ranked, victim, pools', result) =>
      ages.now == s.now && Tried(cfg, ages, s.pools, ranked, s.nextId, victim, pools', result)
    case Connected(id) => id in s.places && s.places[id].Connecting?
    case ConnectFailed(id) => id in s.places && s.places[id].Connecting?
    case CheckedIn(id) => id in s.places && s.places[id].Guarded?
    case GuardDropped(id) => id in s.places && s.places[id].Guarded?
    case ResetDone(id, createdAt) => id in s.places && s.places[id].Resetting?
    case ResetGone(id) => id in s.places && s.places[id].Resetting?
    case _ => true
  }

  /** The places after the idle queues shrank: what left its queue is closed. */
  function Swept(places: map<nat, Place>, pools: PoolMap): map<nat, Place> {
    map id | id in places ::
      if places[id].Idle? && id !in Ids(Get(pools, places[id].key).idle) then Closed else places[id]
  }

  function Move(s: State, pools: PoolMap, id: nat, p: Place): State {
    s.(pools := pools, places := s.places[id := p])
  }

  function AfterTry(s: State, pools: PoolMap, result: CandidateResult): State {
    var places := Swept(s.places, pools);
    match result
    case GotIdle(key, conn) => s.(pools := pools, places := places[conn.id := Guarded(key)])
    case Claimed(key, id) => s.(pools := pools, places := places[id := Connecting(key)], nextId := s.nextId + 1)
    case AllFull => s.(pools := pools, places := places)
  }

  function Next(cfg: Config, s: State, step: Step): State
    requires Enabled(cfg, s, step)
  {
    match step
    case Tick(elapsed) => s.(now := s.now + elapsed)
    case Try(_, _, _, pools', result) => AfterTry(s, pools', result)
    case Connected(id) => s.(places := s.places[id := Guarded(s.places[id].key)])
    case ConnectFailed(id) => Move(s, Discard(s.pools, s.places[id].key, id), id, Closed)
    case CheckedIn(id) => Move(s, Checkin(s.pools, s.places[id].key, id), id, Resetting(s.places[id].key))
    case GuardDropped(id) => Move(s, Discard(s.pools, s.places[id].key, id), id, Closed)
    case ResetDone(id, createdAt) =>
      var key := s.places[id].key;
      Move(s, Return(s.pools, key, IdleConn(id, s.now, createdAt)), id, if key in s.pools then Idle(key) else Closed)
    case ResetGone(id) => Move(s, DropReset(s.pools, s.places[id].key, id), id, Closed)
    case Refilled(key, createdAt) =>
      Move(s, Refill(s.pools, key, IdleConn(s.nextId, s.now, createdAt)), s.nextId, Idle(key)).(nextId := s.nextId + 1)
    case Scavenged(alive) =>
      var pools' := Scavenge(cfg, s.pools, s.now, alive);
      s.(pools := pools', places := Swept(s.places, pools'))
    case NodeDrained(node) =>
      var pools' := DrainNode(s.pools, node);
      s.(pools := pools', places := Swept(s.places, pools'))
    case AllDrained =>
      var pools' := DrainAll(s.pools);
      s.(pools := pools', places := Swept(s.places, pools'))
  }

  ghost predicate Runs(cfg: Config, s: State, steps: seq<Step>)
    decreases |steps|
  {
    steps == [] || (Enabled(cfg, s, steps[0]) && Runs(cfg, Next(cfg, s, steps[0]), steps[1..]))
  }

  ghost function After(cfg: Config, s: State, steps: seq<Step>): State
    requires Runs(cfg, s, steps)
    decreases |steps|
  {
    if steps == [] then s else After(cfg, Next(cfg, s, steps[0]), steps[1..])
  }

  // ---------------------------------------------------------------------
  // What one pass over the candidates does to every pool
  // ---------------------------------------------------------------------

  ghost predicate IsSuffix(a: seq<IdleConn>, b: seq<IdleConn>) {
    |a| <= |b| && a == b[|b| - |a|..]
  }

  ghost function NewActive(result: CandidateResult, k: PoolKey): set<nat> {
    match result
    case GotIdle(key, conn) => if k == key then {conn.id} else {}
    case Claimed(key, id) => if k == key then {id} else {}
    case AllFull => {}
  }

  /** The queue only loses connections in front, and `fresh` becomes active. */
  ghost predicate Shrunk(p: Pool, p': Pool, activated: set<nat>) {
    && IsSuffix(p'.idle, p.idle)
    && p'.resetting == p.resetting
    && p'.active == p.active + activated
  }

  ghost predicate TakenFrom(before: seq<IdleConn>, after: seq<IdleConn>, conn: IdleConn) {
    |after| < |before| && before[|before| - |after| - 1] == conn
  }

  ghost predicate Shape(pools: PoolMap, pools': PoolMap, result: CandidateResult) {
    && pools.Keys <= pools'.Keys
    && (forall k :: Shrunk(Get(pools, k), Get(pools', k), NewActive(result, k)))
    && (result.GotIdle? ==> TakenFrom(Get(pools, result.key).idle, Get(pools', result.key).idle, result.conn))
    && (Chosen(result).Some? ==> Chosen(result).value in pools')
  }

  lemma ShrunkTwice(p: Pool, q: Pool, r: Pool, activated: set<nat>)
    requires Shrunk(p, q, {}) && Shrunk(q, r, activated)
    ensures Shrunk(p, r, activated)
  {
  }

  lemma TakenAfterPop(a: seq<IdleConn>, b: seq<IdleConn>, c: seq<IdleConn>, conn: IdleConn)
    requires IsSuffix(b, a) && TakenFrom(b, c, conn)
    ensures TakenFrom(a, c, conn)
  {
  }

  lemma PopShrinks(pools: PoolMap, key: PoolKey, rest: seq<IdleConn>, k: PoolKey)
    requires IsSuffix(rest, Get(pools, key).idle)
    ensures Shrunk(Get(pools, k), Get(WithIdle(pools, key, rest), k), {})
  {
    var p, p' := Get(pools, k), Get(WithIdle(pools, key, rest), k);
    assert p' == if k == key then p.(idle := rest) else p;
    assert p.idle == p.idle[0..];
  }

  lemma ShapeAfterPop(pools: PoolMap, popped: PoolMap, key: PoolKey, rest: seq<IdleConn>, pools': PoolMap,
                      result: CandidateResult)
    requires popped == WithIdle(pools, key, rest) && IsSuffix(rest, Get(pools, key).idle)
    requires Shape(popped, pools', result)
    ensures Shape(pools, pools', result)
  {
    forall k
      ensures Shrunk(Get(pools, k), Get(pools', k), NewActive(result, k))
    {
      PopShrinks(pools, key, rest, k);
      ShrunkTwice(Get(pools, k), Get(popped, k), Get(pools', k), NewActive(result, k));
    }
    if result.GotIdle? {
      PopShrinks(pools, key, rest, result.key);
      TakenAfterPop(Get(pools, result.key).idle, Get(popped, result.key).idle, Get(pools', result.key).idle, result.conn);
    }
  }

  lemma ShapeOfReuse(pools: PoolMap, key: PoolKey, conn: IdleConn, rest: seq<IdleConn>)
    requires IsSuffix(rest, Get(pools, key).idle) && TakenFrom(Get(pools, key).idle, rest, conn)
    ensures Shape(pools, Activate(WithIdle(pools, key, rest), key, conn.id), GotIdle(key, conn))
  {
  }

  lemma ShapeOfClaim(pools: PoolMap, key: PoolKey, id: nat)
    ensures Shape(pools, Activate(pools, key, id), Claimed(key, id))
  {
  }

  lemma EvictionShrinks(pools: PoolMap, victim: PoolKey, k: PoolKey)
    requires victim in pools && pools[victim].idle != []
    ensures Shrunk(Get(pools, k), Get(Evict(pools, victim), k), {})
  {
  }

  lemma ShapeOfEviction(pools: PoolMap, key: PoolKey, id: nat, victim: PoolKey)
    requires IsVictim(pools, key, victim)
    ensures Shape(pools, Activate(Evict(pools, victim), key, id), Claimed(key, id))
  {
    var evicted := Evict(pools, victim);
    var claimed := Activate(evicted, key, id);
    ShapeOfClaim(evicted, key, id);
    forall k
      ensures Shrunk(Get(pools, k), Get(claimed, k), NewActive(Claimed(key, id), k))
    {
      EvictionShrinks(pools, victim, k);
      ShrunkTwice(Get(pools, k), Get(evicted, k), Get(claimed, k), NewActive(Claimed(key, id), k));
    }
  }

  /** How a pass ends at a candidate: a reuse, a claim, or an eviction and a claim. */
  ghost predicate Ended(pools: PoolMap, key: PoolKey, rest: seq<IdleConn>, id: nat,
                        victim: Option<PoolKey>, pools': PoolMap, result: CandidateResult) {
    var popped := WithIdle(pools, key, rest);
    && IsSuffix(rest, Get(pools, key).idle)
    && match result
       case AllFull => false
       case GotIdle(k, conn) =>
         && k == key && TakenFrom(Get(pools, key).idle, rest, conn)
         && pools' == Activate(popped, key, conn.id) && victim == None
       case Claimed(k, i) =>
         && k == key && i == id
         && if victim.None? then pools' == Activate(popped, key, id)
            else IsVictim(popped, key, victim.value) && pools' == Activate(Evict(popped, victim.value), key, id)
  }

  lemma TriedReuses(cfg: Config, ages: Ages, pools: PoolMap, ranked: seq<PoolKey>, id: nat,
                    victim: Option<PoolKey>, pools': PoolMap, result: CandidateResult)
    requires ranked != [] && PopIdle(Get(pools, ranked[0]).idle, ages).0.Some?
    requires Tried(cfg, ages, pools, ranked, id, victim, pools', result)
    ensures Ended(pools, ranked[0], PopIdle(Get(pools, ranked[0]).idle, ages).1, id, victim, pools', result)
  {
    PopIdleTakesFirstLive(Get(pools, ranked[0]).idle, ages);
  }

  lemma TriedClaims(cfg: Config, ages: Ages, pools: PoolMap, ranked: seq<PoolKey>, id: nat,
                    victim: Option<PoolKey>, pools': PoolMap, result: CandidateResult)
    requires ranked != [] && PopIdle(Get(pools, ranked[0]).idle, ages) == (None, [])
    requires forall c :: c in Get(pools, ranked[0]).idle ==> Expired(c, ages)
    requires !Saturated(cfg, ages, pools, ranked[0])
    requires Tried(cfg, ages, pools, ranked, id, victim, pools', result)
    ensures Ended(pools, ranked[0], [], id, victim, pools', result)
  {
    var key := ranked[0];
    var popped, limits := WithIdle(pools, key, []), ResolveLimits(cfg, key);
    assert limits.UserHasCapacity(popped[key].Total());
    assert IsSuffix([], Get(pools, key).idle);
    if !limits.PoolHasCapacity(NodeTotal(popped, key.node, key.database)) {
      assert Evictable(popped, key);
      assert victim.Some? && IsVictim(popped, key, victim.value);
    }
  }

  lemma TriedEnds(cfg: Config, ages: Ages, pools: PoolMap, ranked: seq<PoolKey>, id: nat,
                  victim: Option<PoolKey>, pools': PoolMap, result: CandidateResult)
    requires ranked != [] && !Saturated(cfg, ages, pools, ranked[0])
    requires Tried(cfg, ages, pools, ranked, id, victim, pools', result)
    ensures Ended(pools, ranked[0], PopIdle(Get(pools, ranked[0]).idle, ages).1, id, victim, pools', result)
  {
    PopIdleTakesFirstLive(Get(pools, ranked[0]).idle, ages);
    if PopIdle(Get(pools, ranked[0]).idle, ages).0.Some? {
      TriedReuses(cfg, ages, pools, ranked, id, victim, pools', result);
    } else {
      TriedClaims(cfg, ages, pools, ranked, id, victim, pools', result);
    }
  }

  lemma EndedShape(pools: PoolMap, key: PoolKey, rest: seq<IdleConn>, id: nat,
                   victim: Option<PoolKey>, pools': PoolMap, result: CandidateResult)
    requires Ended(pools, key, rest, id, victim, pools', result)
    ensures Shape(pools, pools', result)
  {
    var popped := WithIdle(pools, key, rest);
    if result.GotIdle? {
      ShapeOfReuse(pools, key, result.conn, rest);
    } else if victim.None? {
      ShapeOfClaim(popped, key, id);
      ShapeAfterPop(pools, popped, key, rest, pools', result);
    } else {
      ShapeOfEviction(popped, key, id, victim.value);
      ShapeAfterPop(pools, popped, key, rest, pools', result);
    }
  }

  /** A saturated candidate is passed over; only its expired connections are gone. */
  lemma SkippedIsRetried(cfg: Config, ages: Ages, pools: PoolMap, ranked: seq<PoolKey>, id: nat,
                         victim: Option<PoolKey>, pools': PoolMap, result: CandidateResult)
    requires ranked != [] && Saturated(cfg, ages, pools, ranked[0])
    requires Tried(cfg, ages, pools, ranked, id, victim, pools', result)
    ensures Tried(cfg, ages, WithIdle(pools, ranked[0], []), ranked[1..], id, victim, pools', result)
  {
    PopIdleTakesFirstLive(Get(pools, ranked[0]).idle, ages);
  }

  lemma NothingTriedShape(pools: PoolMap)
    ensures Shape(pools, pools, AllFull)
  {
    assert forall k :: Shrunk(Get(pools, k), Get(pools, k), {});
  }

  lemma {:induction false} TriedShape(cfg: Config, ages: Ages, pools: PoolMap, ranked: seq<PoolKey>, id: nat,
                                      victim: Option<PoolKey>, pools': PoolMap, result: CandidateResult)
    requires Tried(cfg, ages, pools, ranked, id, victim, pools', result)
    ensures Shape(pools, pools', result)
    ensures result.Claimed? ==> result.id == id
    decreases |ranked|
  {
    if ranked == [] {
      NothingTriedShape(pools);
    } else if Saturated(cfg, ages, pools, ranked[0]) {
      SkippedIsRetried(cfg, ages, pools, ranked, id, victim, pools', result);
      var popped := WithIdle(pools, ranked[0], []);
      TriedShape(cfg, ages, popped, ranked[1..], id, victim, pools', result);
      ShapeAfterPop(pools, popped, ranked[0], [], pools', result);
    } else {
      TriedEnds(cfg, ages, pools, ranked, id, victim, pools', result);
      EndedShape(pools, ranked[0], PopIdle(Get(pools, ranked[0]).idle, ages).1, id, victim, pools', result);
    }
  }

  // ---------------------------------------------------------------------
  // Conservation
  // ---------------------------------------------------------------------

  ghost predicate PoolMatches(places: map<nat, Place>, k: PoolKey, p: Pool) {
    && DistinctIds(p.idle)
    && (forall id: nat :: id in Ids(p.idle) <==> id in places && places[id] == Idle(k))
    && (forall id: nat :: id in p.active <==> id in places && (places[id] == Connecting(k) || places[id] == Guarded(k)))
    && (forall id: nat :: id in p.resetting <==> id in places && places[id] == Resetting(k))
  }

  /** Every issued id is in exactly one place, and the pools hold what their places say. */
  ghost predicate Conserved(s: State) {
    && (forall id: nat :: id in s.places <==> id < s.nextId)
    && (forall k :: PoolMatches(s.places, k, Get(s.pools, k)))
    && (forall id :: id in s.places && !s.places[id].Closed? ==> s.places[id].key in s.pools)
  }

  lemma IdsOfSuffix(a: seq<IdleConn>, b: seq<IdleConn>)
    requires IsSuffix(a, b) && DistinctIds(b)
    ensures DistinctIds(a) && Ids(a) <= Ids(b)
    ensures |a| < |b| ==> b[|b| - |a| - 1].id in Ids(b) && b[|b| - |a| - 1].id !in Ids(a)
  {
    SuffixKeeps(b, |b| - |a|);
    forall id | id in Ids(a)
      ensures id in Ids(b)
    {
      var c :| c in a && c.id == id;
      assert c in b;
    }
    if |a| < |b| {
      var x := b[|b| - |a| - 1];
      assert x in b;
      forall c | c in a
        ensures c.id != x.id
      {
        var j :| 0 <= j < |a| && a[j] == c;
        assert b[|b| - |a| + j] == c;
      }
    }
  }

  /** The idle queues shrank: what left its queue is closed. */
  lemma SweepKeepsMatch(places: map<nat, Place>, pools: PoolMap, pools': PoolMap, k: PoolKey)
    requires PoolMatches(places, k, Get(pools, k))
    requires DistinctIds(Get(pools', k).idle) && Ids(Get(pools', k).idle) <= Ids(Get(pools, k).idle)
    requires Get(pools', k).resetting == Get(pools, k).resetting
    ensures PoolMatches(Swept(places, pools'), k, Get(pools', k).(active := Get(pools, k).active))
  {
    var p, p', swept := Get(pools, k), Get(pools', k), Swept(places, pools');
    forall id: nat
      ensures id in Ids(p'.idle) <==> id in swept && swept[id] == Idle(k)
    {
      assert id in Ids(p.idle) <==> id in places && places[id] == Idle(k);
    }
  }

  function Only(b: bool, id: nat): set<nat> {
    if b then {id} else {}
  }

  /** One id moves: it leaves whichever collection held it and joins that of its new place. */
  lemma MoveKeepsMatch(places: map<nat, Place>, id: nat, to: Place, k: PoolKey, p: Pool, p': Pool)
    requires PoolMatches(places, k, p) && DistinctIds(p'.idle)
    requires Ids(p'.idle) == Ids(p.idle) - {id} + Only(to == Idle(k), id)
    requires p'.active == p.active - {id} + Only(to == Connecting(k) || to == Guarded(k), id)
    requires p'.resetting == p.resetting - {id} + Only(to == Resetting(k), id)
    ensures PoolMatches(places[id := to], k, p')
  {
  }

  lemma AppendKeepsIds(idle: seq<IdleConn>, c: IdleConn)
    requires DistinctIds(idle) && c.id !in Ids(idle)
    ensures DistinctIds(idle + [c]) && Ids(idle + [c]) == Ids(idle) + {c.id}
  {
    forall i | 0 <= i < |idle|
      ensures idle[i].id != c.id
    {
      assert idle[i] in idle;
    }
    forall id
      ensures id in Ids(idle + [c]) <==> id in Ids(idle) + {c.id}
    {
      assert id in Ids(idle) ==> exists x :: x in idle && x.id == id;
      assert c in idle + [c];
      assert forall x :: x in idle + [c] <==> x in idle || x == c;
    }
  }

  /** The reused connection was idle, in the pool that was chosen. */
  lemma ReusedWasIdle(s: State, pools': PoolMap, key: PoolKey, conn: IdleConn)
    requires Conserved(s) && Shape(s.pools, pools', GotIdle(key, conn))
    ensures IsAt(s, conn.id, Idle(key)) && Swept(s.places, pools')[conn.id] == Closed
  {
    assert PoolMatches(s.places, key, Get(s.pools, key));
    assert Shrunk(Get(s.pools, key), Get(pools', key), {conn.id});
    IdsOfSuffix(Get(pools', key).idle, Get(s.pools, key).idle);
  }

  lemma TrySweeps(s: State, pools': PoolMap, result: CandidateResult, k: PoolKey)
    requires Conserved(s) && Shape(s.pools, pools', result)
    ensures PoolMatches(Swept(s.places, pools'), k, Get(pools', k).(active := Get(s.pools, k).active))
  {
    assert PoolMatches(s.places, k, Get(s.pools, k));
    assert Shrunk(Get(s.pools, k), Get(pools', k), NewActive(result, k));
    IdsOfSuffix(Get(pools', k).idle, Get(s.pools, k).idle);
    SweepKeepsMatch(s.places, s.pools, pools', k);
  }

  lemma {:induction false} TryActivates(places: map<nat, Place>, id: nat, to: Place, k: PoolKey, p: Pool, p': Pool, b: bool)
    requires PoolMatches(places, k, p) && (id in places ==> places[id] == Closed)
    requires to.Connecting? || to.Guarded?
    requires b <==> k == to.key
    requires p' == p.(active := p.active + Only(b, id))
    ensures PoolMatches(places[id := to], k, p')
  {
    MoveKeepsMatch(places, id, to, k, p, p');
  }

  ghost predicate TryShaped(s: State, pools': PoolMap, result: CandidateResult) {
    Shape(s.pools, pools', result) && (result.Claimed? ==> result.id == s.nextId)
  }

  lemma TryKeepsMatch(s: State, pools': PoolMap, result: CandidateResult, k: PoolKey)
    requires Conserved(s) && TryShaped(s, pools', result)
    ensures PoolMatches(AfterTry(s, pools', result).places, k, Get(pools', k))
  {
    var p, p' := Get(s.pools, k), Get(pools', k);
    TrySweeps(s, pools', result, k);
    assert Shrunk(p, p', NewActive(result, k));
    var still := p'.(active := p.active);
    match result
    case AllFull =>
      assert still == p';
    case Claimed(key, id) =>
      TryActivates(Swept(s.places, pools'), id, Connecting(key), k, still, p', k == key);
    case GotIdle(key, conn) =>
      ReusedWasIdle(s, pools', key, conn);
      TryActivates(Swept(s.places, pools'), conn.id, Guarded(key), k, still, p', k == key);
  }

  lemma TryKeepsDomain(s: State, pools': PoolMap, result: CandidateResult)
    requires Conserved(s) && TryShaped(s, pools', result)
    ensures var s' := AfterTry(s, pools', result);
            forall id: nat :: id in s'.places <==> id < s'.nextId
  {
    if result.GotIdle? {
      ReusedWasIdle(s, pools', result.key, result.conn);
    }
  }

  lemma TryKeepsHomes(s: State, pools': PoolMap, result: CandidateResult, id: nat)
    requires Conserved(s) && TryShaped(s, pools', result)
    requires id in AfterTry(s, pools', result).places && !AfterTry(s, pools', result).places[id].Closed?
    ensures AfterTry(s, pools', result).places[id].key in pools'
  {
    var place := AfterTry(s, pools', result).places[id];
    if Chosen(result).Some? && place.key == Chosen(result).value {
    } else {
      assert id in s.places && place == s.places[id];
      assert place.key in s.pools.Keys;
    }
  }

  lemma TryKeepsConserved(s: State, pools': PoolMap, result: CandidateResult)
    requires Conserved(s) && TryShaped(s, pools', result)
    ensures Conserved(AfterTry(s, pools', result))
  {
    TryKeepsDomain(s, pools', result);
    forall k
      ensures PoolMatches(AfterTry(s, pools', result).places, k, Get(pools', k))
    {
      TryKeepsMatch(s, pools', result, k);
    }
    var s' := AfterTry(s, pools', result);
    forall id | id in s'.places && !s'.places[id].Closed?
      ensures s'.places[id].key in s'.pools
    {
      TryKeepsHomes(s, pools', result, id);
    }
    assert s'.pools == pools';
  }

  lemma MovesKeepConserved(cfg: Config, s: State, step: Step)
    requires Conserved(s) && Enabled(cfg, s, step)
    requires step.Connected? || step.ConnectFailed? || step.CheckedIn? || step.GuardDropped? || step.ResetGone?
    ensures Conserved(Next(cfg, s, step))
  {
    var s', id := Next(cfg, s, step), step.id;
    var to := s'.places[id];
    forall k
      ensures PoolMatches(s'.places, k, Get(s'.pools, k))
    {
      assert PoolMatches(s.places, k, Get(s.pools, k));
      MoveKeepsMatch(s.places, id, to, k, Get(s.pools, k), Get(s'.pools, k));
    }
  }

  lemma ResetDoneKeepsConserved(cfg: Config, s: State, step: Step)
    requires Conserved(s) && Enabled(cfg, s, step) && step.ResetDone?
    ensures Conserved(Next(cfg, s, step))
  {
    var s', id := Next(cfg, s, step), step.id;
    var key := s.places[id].key;
    forall k
      ensures PoolMatches(s'.places, k, Get(s'.pools, k))
    {
      assert PoolMatches(s.places, k, Get(s.pools, k));
      if k == key {
        AppendKeepsIds(Get(s.pools, k).idle, IdleConn(id, s.now, step.createdAt));
      }
      MoveKeepsMatch(s.places, id, Idle(key), k, Get(s.pools, k), Get(s'.pools, k));
    }
  }

  lemma RefilledKeepsConserved(cfg: Config, s: State, step: Step)
    requires Conserved(s) && step.Refilled?
    ensures Conserved(Next(cfg, s, step))
  {
    var s', id := Next(cfg, s, step), s.nextId;
    forall k
      ensures PoolMatches(s'.places, k, Get(s'.pools, k))
    {
      assert PoolMatches(s.places, k, Get(s.pools, k));
      if k == step.key {
        AppendKeepsIds(Get(s.pools, k).idle, IdleConn(id, s.now, step.createdAt));
      }
      MoveKeepsMatch(s.places, id, Idle(step.key), k, Get(s.pools, k), Get(s'.pools, k));
    }
  }

  /** Scavenging and draining only shorten idle queues. */
  lemma SweepKeepsConserved(cfg: Config, s: State, step: Step)
    requires Conserved(s) && (forall k :: ByAge(Get(s.pools, k).idle))
    requires step.Scavenged? || step.NodeDrained? || step.AllDrained?
    ensures Conserved(Next(cfg, s, step))
  {
    var s' := Next(cfg, s, step);
    forall k
      ensures PoolMatches(s'.places, k, Get(s'.pools, k))
    {
      var p, p' := Get(s.pools, k), Get(s'.pools, k);
      assert PoolMatches(s.places, k, p);
      if step.Scavenged? && k in s.pools {
        ScavengedIdleKeeps(p.idle, AgesFor(cfg, k, s.now), MinForKey(cfg, k), step.alive);
      }
      assert forall c :: c in p'.idle ==> c in p.idle;
      SweepKeepsMatch(s.places, s.pools, s'.pools, k);
      assert p'.(active := p.active) == p';
    }
  }

  // ---------------------------------------------------------------------
  // Age order
  // ---------------------------------------------------------------------

  ghost predicate AgedQueue(idle: seq<IdleConn>, now: nat) {
    ByAge(idle) && forall c :: c in idle ==> c.idleSince <= now
  }

  /** Every queue is in the order its connections became idle. */
  ghost predicate Aged(s: State) {
    forall k :: AgedQueue(Get(s.pools, k).idle, s.now)
  }

  lemma AppendKeepsAged(idle: seq<IdleConn>, c: IdleConn)
    requires AgedQueue(idle, c.idleSince)
    ensures AgedQueue(idle + [c], c.idleSince)
  {
  }

  lemma TryKeepsAged(cfg: Config, s: State, step: Step)
    requires Aged(s) && step.Try? && Enabled(cfg, s, step)
    ensures Aged(Next(cfg, s, step))
  {
    TriedShape(cfg, step.ages, s.pools, step.ranked, s.nextId, step.victim, step.pools, step.result);
    forall k
      ensures AgedQueue(Get(step.pools, k).idle, s.now)
    {
      var p, p' := Get(s.pools, k), Get(step.pools, k);
      assert Shrunk(p, p', NewActive(step.result, k));
      assert AgedQueue(p.idle, s.now);
      SuffixKeeps(p.idle, |p.idle| - |p'.idle|);
    }
  }

  lemma StepKeepsAged(cfg: Config, s: State, step: Step)
    requires Aged(s) && Conserved(s) && Enabled(cfg, s, step)
    ensures Aged(Next(cfg, s, step))
  {
    if step.Try? {
      TryKeepsAged(cfg, s, step);
    } else {
      var s' := Next(cfg, s, step);
      forall k
        ensures AgedQueue(Get(s'.pools, k).idle, s'.now)
      {
        var p := Get(s.pools, k);
        assert AgedQueue(p.idle, s.now) && PoolMatches(s.places, k, p);
        if step.Scavenged? && k in s.pools {
          ScavengedIdleKeeps(p.idle, AgesFor(cfg, k, s.now), MinForKey(cfg, k), step.alive);
        } else if step.ResetDone? && k == s.places[step.id].key {
          AppendKeepsAged(p.idle, IdleConn(step.id, s.now, step.createdAt));
        } else if step.Refilled? && k == step.key {
          AppendKeepsAged(p.idle, IdleConn(s.nextId, s.now, step.createdAt));
        }
      }
    }
  }

  // ---------------------------------------------------------------------
  // Every run
  // ---------------------------------------------------------------------

  lemma StepKeepsConserved(cfg: Config, s: State, step: Step)
    requires Conserved(s) && Aged(s) && Enabled(cfg, s, step)
    ensures Conserved(Next(cfg, s, step))
  {
    match step
    case Tick(_) =>
    case Try(ages, ranked, victim, pools', result) =>
      TriedShape(cfg, ages, s.pools, ranked, s.nextId, victim, pools', result);
      TryKeepsConserved(s, pools', result);
    case ResetDone(_, _) => ResetDoneKeepsConserved(cfg, s, step);
    case Refilled(_, _) => RefilledKeepsConserved(cfg, s, step);
    case Scavenged(_) => SweepKeepsConserved(cfg, s, step);
    case NodeDrained(_) => SweepKeepsConserved(cfg, s, step);
    case AllDrained => SweepKeepsConserved(cfg, s, step);
    case _ => MovesKeepConserved(cfg, s, step);
  }

  lemma {:induction false} RunsKeepInvariants(cfg: Config, s: State, steps: seq<Step>)
    requires Conserved(s) && Aged(s) && Runs(cfg, s, steps)
    ensures Conserved(After(cfg, s, steps)) && Aged(After(cfg, s, steps))
    decreases |steps|
  {
    if steps != [] {
      StepKeepsConserved(cfg, s, steps[0]);
      StepKeepsAged(cfg, s, steps[0]);
      RunsKeepInvariants(cfg, Next(cfg, s, steps[0]), steps[1..]);
    }
  }

  /** Whether any collection of any pool names the id, and how. */
  ghost predicate InIdle(pools: PoolMap, k: PoolKey, id: nat) {
    id in Ids(Get(pools, k).idle)
  }

  ghost predicate InActive(pools: PoolMap, k: PoolKey, id: nat) {
    id in Get(pools, k).active
  }

  ghost predicate InResetting(pools: PoolMap, k: PoolKey, id: nat) {
    id in Get(pools, k).resetting
  }

  ghost predicate Held(pools: PoolMap, k: PoolKey, id: nat) {
    InIdle(pools, k, id) || InActive(pools, k, id) || InResetting(pools, k, id)
  }

  /** In every reachable state an id is held by at most one pool and there in exactly one of
      idle, active and resetting; it is active exactly while it connects or is guarded,
      resetting exactly while its reset runs, and never twice in an idle queue. */
  lemma ConnectionsAreConserved(cfg: Config, steps: seq<Step>, id: nat, k: PoolKey)
    requires Runs(cfg, INITIAL, steps)
    ensures var s := After(cfg, INITIAL, steps);
            && (InIdle(s.pools, k, id) <==> IsAt(s, id, Idle(k)))
            && (InActive(s.pools, k, id) <==> IsAt(s, id, Connecting(k)) || IsAt(s, id, Guarded(k)))
            && (InResetting(s.pools, k, id) <==> IsAt(s, id, Resetting(k)))
            && (Held(s.pools, k, id) ==> id < s.nextId && forall k' :: Held(s.pools, k', id) ==> k' == k)
            && DistinctIds(Get(s.pools, k).idle)
  {
    InitiallyInvariant();
    RunsKeepInvariants(cfg, INITIAL, steps);
    var s := After(cfg, INITIAL, steps);
    assert PoolMatches(s.places, k, Get(s.pools, k));
    forall k' | Held(s.pools, k', id)
      ensures Held(s.pools, k, id) ==> k' == k
    {
      assert PoolMatches(s.places, k', Get(s.pools, k'));
    }
  }

  lemma InitiallyInvariant()
    ensures Conserved(INITIAL) && Aged(INITIAL)
  {
  }

  lemma TryKeepsClosed(s: State, pools': PoolMap, result: CandidateResult, id: nat)
    requires Conserved(s) && TryShaped(s, pools', result) && IsAt(s, id, Closed)
    ensures IsAt(AfterTry(s, pools', result), id, Closed)
  {
    if result.GotIdle? {
      ReusedWasIdle(s, pools', result.key, result.conn);
    }
  }

  lemma {:induction false} StepKeepsClosed(cfg: Config, s: State, step: Step, id: nat)
    requires Conserved(s) && Enabled(cfg, s, step) && IsAt(s, id, Closed)
    ensures IsAt(Next(cfg, s, step), id, Closed)
  {
    match step
    case Try(ages, ranked, victim, pools', result) =>
      TriedShape(cfg, ages, s.pools, ranked, s.nextId, victim, pools', result);
      TryKeepsClosed(s, pools', result, id);
    case _ =>
  }

  lemma {:induction false} RunsKeepClosed(cfg: Config, s: State, steps: seq<Step>, id: nat)
    requires Conserved(s) && Aged(s) && Runs(cfg, s, steps) && IsAt(s, id, Closed)
    ensures IsAt(After(cfg, s, steps), id, Closed)
    decreases |steps|
  {
    if steps != [] {
      StepKeepsConserved(cfg, s, steps[0]);
      StepKeepsAged(cfg, s, steps[0]);
      StepKeepsClosed(cfg, s, steps[0], id);
      RunsKeepClosed(cfg, Next(cfg, s, steps[0]), steps[1..], id);
    }
  }

  /** Once an issued id is in no pool it is in none ever after. */
  lemma ClosedIsForGood(cfg: Config, before: seq<Step>, after: seq<Step>, id: nat, k: PoolKey)
    requires Runs(cfg, INITIAL, before) && Runs(cfg, After(cfg, INITIAL, before), after)
    requires id < After(cfg, INITIAL, before).nextId
    requires forall k' :: !Held(After(cfg, INITIAL, before).pools, k', id)
    ensures !Held(After(cfg, After(cfg, INITIAL, before), after).pools, k, id)
  {
    InitiallyInvariant();
    RunsKeepInvariants(cfg, INITIAL, before);
    var s := After(cfg, INITIAL, before);
    if !s.places[id].Closed? {
      var home := s.places[id].key;
      assert PoolMatches(s.places, home, Get(s.pools, home));
      assert Held(s.pools, home, id);
    }
    RunsKeepClosed(cfg, s, after, id);
    RunsKeepInvariants(cfg, s, after);
    var t := After(cfg, s, after);
    assert PoolMatches(t.places, k, Get(t.pools, k));
  }

  lemma SuffixIsAged(idle: seq<IdleConn>, d: nat, now: nat)
    requires d <= |idle| && AgedQueue(idle, now)
    ensures AgedQueue(idle[d..], now)
  {
    SuffixKeeps(idle, d);
  }

  lemma PopKeepsAged(pools: PoolMap, key: PoolKey, rest: seq<IdleConn>, k: PoolKey, now: nat)
    requires IsSuffix(rest, Get(pools, key).idle) && AgedQueue(Get(pools, k).idle, now)
    ensures AgedQueue(Get(WithIdle(pools, key, rest), k).idle, now)
  {
    if k == key {
      var idle := Get(pools, key).idle;
      SuffixIsAged(idle, |idle| - |rest|, now);
      assert Get(WithIdle(pools, key, rest), k).idle == rest == idle[|idle| - |rest|..];
    } else {
      assert Get(WithIdle(pools, key, rest), k) == Get(pools, k);
    }
  }

  lemma FrontIsLongestIdle(idle: seq<IdleConn>, now: nat, c: IdleConn)
    requires AgedQueue(idle, now) && c in idle
    ensures idle[0].idleSince <= c.idleSince
  {
    var i :| 0 <= i < |idle| && idle[i] == c;
  }

  /** The connection that left the queue of `v` last. */
  function LastGone(before: seq<IdleConn>, after: seq<IdleConn>): IdleConn
    requires |after| < |before|
  {
    before[|before| - |after| - 1]
  }

  /** What `v` lost last was idle no shorter than any connection left idle for this node and
      database, whoever its user is. */
  ghost predicate LostOldest(pools: PoolMap, pools': PoolMap, key: PoolKey, v: PoolKey) {
    && At(v, key.node, key.database)
    && |Get(pools', v).idle| < |Get(pools, v).idle|
    && forall k, c :: At(k, key.node, key.database) && c in Get(pools', k).idle ==>
         LastGone(Get(pools, v).idle, Get(pools', v).idle).idleSince <= c.idleSince
  }

  ghost predicate AllAged(pools: PoolMap, now: nat) {
    forall k :: AgedQueue(Get(pools, k).idle, now)
  }

  lemma PopKeepsAllAged(pools: PoolMap, key: PoolKey, rest: seq<IdleConn>, now: nat)
    requires IsSuffix(rest, Get(pools, key).idle) && AllAged(pools, now)
    ensures AllAged(WithIdle(pools, key, rest), now)
  {
    forall k
      ensures AgedQueue(Get(WithIdle(pools, key, rest), k).idle, now)
    {
      PopKeepsAged(pools, key, rest, k, now);
    }
  }

  lemma VictimIsOldest(pools: PoolMap, key: PoolKey, id: nat, v: PoolKey, now: nat)
    requires AllAged(pools, now) && IsVictim(pools, key, v)
    ensures var pools' := Activate(Evict(pools, v), key, id);
            LostOldest(pools, pools', key, v) && LastGone(pools[v].idle, Get(pools', v).idle) == pools[v].idle[0]
  {
    var pools' := Activate(Evict(pools, v), key, id);
    assert Get(pools', v).idle == pools[v].idle[1..];
    forall k, c | At(k, key.node, key.database) && c in Get(pools', k).idle
      ensures pools[v].idle[0].idleSince <= c.idleSince
    {
      assert c in Get(pools, k).idle;
      FrontIsLongestIdle(Get(pools, k).idle, now, c);
    }
  }

  lemma LostBehindPopped(pools: PoolMap, key: PoolKey, rest: seq<IdleConn>, pools': PoolMap, at: PoolKey, v: PoolKey)
    requires IsSuffix(rest, Get(pools, key).idle) && LostOldest(WithIdle(pools, key, rest), pools', at, v)
    ensures LostOldest(pools, pools', at, v)
  {
    var popped, after := Get(WithIdle(pools, key, rest), v).idle, Get(pools', v).idle;
    assert IsSuffix(popped, Get(pools, v).idle);
    assert LastGone(popped, after) == LastGone(Get(pools, v).idle, after);
  }

  lemma EndedTakesOldest(pools: PoolMap, key: PoolKey, rest: seq<IdleConn>, id: nat, v: PoolKey, pools': PoolMap,
                         result: CandidateResult, now: nat)
    requires AllAged(pools, now) && Ended(pools, key, rest, id, Some(v), pools', result)
    ensures result.Claimed? && LostOldest(pools, pools', result.key, v)
  {
    PopKeepsAllAged(pools, key, rest, now);
    VictimIsOldest(WithIdle(pools, key, rest), key, id, v, now);
    LostBehindPopped(pools, key, rest, pools', key, v);
  }

  lemma {:induction false} TriedTakesOldest(cfg: Config, ages: Ages, pools: PoolMap, ranked: seq<PoolKey>, id: nat,
                                            v: PoolKey, pools': PoolMap, result: CandidateResult, now: nat)
    requires AllAged(pools, now) && Tried(cfg, ages, pools, ranked, id, Some(v), pools', result)
    ensures result.Claimed? && LostOldest(pools, pools', result.key, v)
    decreases |ranked|
  {
    assert ranked != [];
    var key := ranked[0];
    if Saturated(cfg, ages, pools, key) {
      SkippedIsRetried(cfg, ages, pools, ranked, id, Some(v), pools', result);
      PopKeepsAllAged(pools, key, [], now);
      TriedTakesOldest(cfg, ages, WithIdle(pools, key, []), ranked[1..], id, v, pools', result, now);
      LostBehindPopped(pools, key, [], pools', result.key, v);
    } else {
      TriedEnds(cfg, ages, pools, ranked, id, Some(v), pools', result);
      EndedTakesOldest(pools, key, PopIdle(Get(pools, key).idle, ages).1, id, v, pools', result, now);
    }
  }

  /** Every eviction of every run ends in a claim and takes the connection that has been idle
      longest for that node and database, over all users. */
  lemma EvictionTakesLongestIdle(cfg: Config, steps: seq<Step>, ages: Ages, ranked: seq<PoolKey>, v: PoolKey,
                                 pools': PoolMap, result: CandidateResult)
    requires Runs(cfg, INITIAL, steps)
    requires Enabled(cfg, After(cfg, INITIAL, steps), Try(ages, ranked, Some(v), pools', result))
    ensures result.Claimed? && LostOldest(After(cfg, INITIAL, steps).pools, pools', result.key, v)
  {
    InitiallyInvariant();
    RunsKeepInvariants(cfg, INITIAL, steps);
    var s := After(cfg, INITIAL, steps);
    TriedTakesOldest(cfg, ages, s.pools, ranked, s.nextId, v, pools', result, s.now);
  }

  lemma ScavengedIsSuffix(idle: seq<IdleConn>, ages: Ages, floor: nat, alive: nat -> bool)
    requires ByAge(idle)
    ensures var survivors := Survivors(idle, ages, alive);
            var gone := Min(Excess(|survivors|, floor), CountTimedOut(survivors, ages));
            gone <= |survivors| && ScavengedIdle(idle, ages, floor, alive) == survivors[gone..]
  {
    SurvivorsAreSome(idle, ages, alive);
    var survivors := Survivors(idle, ages, alive);
    DropTimedOutKeepsSuffix(survivors, ages, Excess(|survivors|, floor));
  }

  /** In every reachable state a scavenge leaves of each queue a suffix of its healthy
      connections: as many of the longest idle go as are both timed out and above the floor. */
  lemma ScavengeKeepsSuffix(cfg: Config, steps: seq<Step>, alive: nat -> bool, k: PoolKey)
    requires Runs(cfg, INITIAL, steps) && k in After(cfg, INITIAL, steps).pools
    ensures var s := After(cfg, INITIAL, steps);
            var ages := AgesFor(cfg, k, s.now);
            var survivors := Survivors(s.pools[k].idle, ages, alive);
            var gone := Min(Excess(|survivors|, MinForKey(cfg, k)), CountTimedOut(survivors, ages));
            && gone <= |survivors|
            && Next(cfg, s, Scavenged(alive)).pools[k].idle == survivors[gone..]
  {
    InitiallyInvariant();
    RunsKeepInvariants(cfg, INITIAL, steps);
    var s := After(cfg, INITIAL, steps);
    assert AgedQueue(Get(s.pools, k).idle, s.now);
    ScavengedIsSuffix(s.pools[k].idle, AgesFor(cfg, k, s.now), MinForKey(cfg, k), alive);
  }
}
