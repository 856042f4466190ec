/** The limits of the pools in the numbers of the configuration and in connections counted one
    by one. */
module Configured {
  import opened Options
  import opened Pools
  import opened Checkout
  import opened Lifecycle
  import opened PoolRuns
  import Capacity

  // ---------------------------------------------------------------------
  // Configured numbers
  // ---------------------------------------------------------------------

  predicate IsPrimary(cfg: Config, node: string, database: string) {
    database in cfg && cfg[database].topology.primary == Some(node)
  }

  /** A replica that is not the primary as well. */
  predicate IsReplica(cfg: Config, node: string, database: string) {
    database in cfg && cfg[database].topology.primary != Some(node) && node in cfg[database].topology.replicas
  }

  /** The number that is configured for a node: none for nodes outside the topology. */
  function NodeNumber(cfg: Config, node: string, database: string): nat {
    if IsPrimary(cfg, node, database) then cfg[database].maxConnections.primary
    else if IsReplica(cfg, node, database) then cfg[database].maxConnections.replica
    else 0
  }

  predicate HasUser(cfg: Config, key: PoolKey) {
    key.database in cfg && key.user in cfg[key.database].users
  }

  /** The number configured for a user on a node; None is without a limit. */
  function UserNumber(cfg: Config, key: PoolKey): Option<nat> {
    if key.database !in cfg then Some(0)
    else if !HasUser(cfg, key) || cfg[key.database].users[key.user].maxConnections.None? then None
    else
      var numbers := cfg[key.database].users[key.user].maxConnections.value;
      Some(if IsPrimary(cfg, key.node, key.database) then numbers.primary
           else if IsReplica(cfg, key.node, key.database) then numbers.replica
           else 0)
  }

  function FloorNumber(cfg: Config, key: PoolKey): nat {
    if HasUser(cfg, key) && IsPrimary(cfg, key.node, key.database)
    then cfg[key.database].users[key.user].minConnections.primary
    else if HasUser(cfg, key) && IsReplica(cfg, key.node, key.database)
    then cfg[key.database].users[key.user].minConnections.replica
    else 0
  }

  lemma LimitsAreConfigured(cfg: Config, key: PoolKey)
    ensures PoolMax(cfg, key.node, key.database) == NodeNumber(cfg, key.node, key.database)
    ensures ResolveLimits(cfg, key) == Limits(NodeNumber(cfg, key.node, key.database), UserNumber(cfg, key))
    ensures MinForKey(cfg, key) == FloorNumber(cfg, key)
  {
  }

  // ---------------------------------------------------------------------
  // Connections, one by one
  // ---------------------------------------------------------------------

  /** The connections of a key that are not closed: idle, connecting, in use or being reset. */
  function LiveOf(s: State, k: PoolKey): set<nat> {
    set id | id in s.places && !s.places[id].Closed? && s.places[id].key == k
  }

  function LiveAt(s: State, node: string, database: string): set<nat> {
    set id | id in s.places && !s.places[id].Closed? && At(s.places[id].key, node, database)
  }

  function IdleOf(s: State, k: PoolKey): set<nat> {
    set id | id in s.places && s.places[id] == Idle(k)
  }

  lemma {:induction false} IdsAreMany(idle: seq<IdleConn>)
    requires DistinctIds(idle)
    ensures |Ids(idle)| == |idle|
    decreases |idle|
  {
    if idle != [] {
      var front, last := idle[..|idle| - 1], idle[|idle| - 1];
      IdsAreMany(front);
      assert idle == front + [last];
      assert Ids(idle) == Ids(front) + {last.id};
      assert last.id !in Ids(front);
    }
  }

  /** The total of a pool is the number of its connections. */
  lemma TotalCountsLive(s: State, k: PoolKey)
    requires Conserved(s)
    ensures |LiveOf(s, k)| == Get(s.pools, k).Total()
    ensures |IdleOf(s, k)| == |Get(s.pools, k).idle|
  {
    var p := Get(s.pools, k);
    assert PoolMatches(s.places, k, p);
    IdsAreMany(p.idle);
    LiveIsHeld(s, k, p);
  }

  lemma LiveIsHeld(s: State, k: PoolKey, p: Pool)
    requires PoolMatches(s.places, k, p)
    ensures IdleOf(s, k) == Ids(p.idle)
    ensures Ids(p.idle) !! p.active && Ids(p.idle) !! p.resetting && p.active !! p.resetting
    ensures LiveOf(s, k) == Ids(p.idle) + p.active + p.resetting
  {
  }

  function LiveIn(s: State, keys: set<PoolKey>, node: string, database: string): set<nat> {
    set id | id in LiveAt(s, node, database) && s.places[id].key in keys
  }

  /** The connections of several keys, one key taken out. */
  lemma LiveSplits(s: State, keys: set<PoolKey>, k: PoolKey, node: string, database: string)
    requires k in keys
    ensures var one := if At(k, node, database) then LiveOf(s, k) else {};
            && one !! LiveIn(s, keys - {k}, node, database)
            && LiveIn(s, keys, node, database) == one + LiveIn(s, keys - {k}, node, database)
  {
  }

  lemma {:induction false} SumCountsLive(s: State, keys: set<PoolKey>, node: string, database: string)
    requires Conserved(s)
    ensures Sum(s.pools, keys, node, database) == |LiveIn(s, keys, node, database)|
    decreases keys
  {
    if keys == {} {
      assert LiveIn(s, keys, node, database) == {};
    } else {
      var k :| k in keys;
      SumPick(s.pools, keys, k, node, database);
      SumCountsLive(s, keys - {k}, node, database);
      TotalCountsLive(s, k);
      LiveSplits(s, keys, k, node, database);
    }
  }

  /** The total of a node and database is the number of connections there. */
  lemma NodeTotalCountsLive(s: State, node: string, database: string)
    requires Conserved(s)
    ensures |LiveAt(s, node, database)| == NodeTotal(s.pools, node, database)
  {
    SumCountsLive(s, s.pools.Keys, node, database);
    assert LiveIn(s, s.pools.Keys, node, database) == LiveAt(s, node, database);
  }

  /** In every run: the connections to a database's primary are never more than the number
      configured for the primary and the refills there, those to a replica never more than the
      number for replicas and the refills, and anywhere else there are refills only. The same
      holds for each user with a limit. */
  lemma ConfiguredNumbersAreKept(cfg: Config, steps: seq<Step>, node: string, database: string, k: PoolKey)
    requires Runs(cfg, INITIAL, steps)
    ensures var s := After(cfg, INITIAL, steps);
            && |LiveAt(s, node, database)| <= NodeNumber(cfg, node, database) + Capacity.RefillsAt(steps, node, database)
            && (UserNumber(cfg, k).Some? ==> |LiveOf(s, k)| <= UserNumber(cfg, k).value + Capacity.RefillsFor(steps, k))
  {
    Capacity.CapacityIsRespected(cfg, steps, node, database, k);
    InitiallyInvariant();
    RunsKeepInvariants(cfg, INITIAL, steps);
    var s := After(cfg, INITIAL, steps);
    NodeTotalCountsLive(s, node, database);
    TotalCountsLive(s, k);
    LimitsAreConfigured(cfg, PoolKey(node, database, ""));
    LimitsAreConfigured(cfg, k);
  }

  // ---------------------------------------------------------------------
  // When everything is full
  // ---------------------------------------------------------------------

  /** Idle too long, or too old. */
  predicate Outlived(c: IdleConn, ages: Ages) {
    ages.now > c.idleSince + ages.idleTimeout || ages.now > c.createdAt + ages.maxLifetime
  }

  lemma OutlivedIsExpired(c: IdleConn, ages: Ages)
    ensures Expired(c, ages) <==> Outlived(c, ages)
  {
  }

  /** A connection that is taken from a queue has outlived neither limit, and all in front of
      it have outlived one; none is taken when all have. */
  lemma TakenIsFresh(idle: seq<IdleConn>, ages: Ages)
    ensures var (c, rest) := PopIdle(idle, ages);
            && (c.None? ==> rest == [] && forall x :: x in idle ==> Outlived(x, ages))
            && (c.Some? ==>
                  && |rest| < |idle| && idle[|idle| - |rest| - 1] == c.value && rest == idle[|idle| - |rest|..]
                  && ages.now <= c.value.idleSince + ages.idleTimeout
                  && ages.now <= c.value.createdAt + ages.maxLifetime
                  && forall i :: 0 <= i < |idle| - |rest| - 1 ==> Outlived(idle[i], ages))
  {
    PopIdleTakesFirstLive(idle, ages);
    forall x
      ensures Expired(x, ages) <==> Outlived(x, ages)
    {
      OutlivedIsExpired(x, ages);
    }
  }

  /** Nothing can be had for a key: all its idle connections have outlived their limits, and
      without them the user has its number already, or the node has and no other user has an
      idle connection there. */
  ghost predicate Full(cfg: Config, ages: Ages, s: State, k: PoolKey) {
    && (forall c :: c in Get(s.pools, k).idle ==> Outlived(c, ages))
    && (|| (UserNumber(cfg, k).Some? && |LiveOf(s, k) - IdleOf(s, k)| >= UserNumber(cfg, k).value)
        || (&& |LiveAt(s, k.node, k.database) - IdleOf(s, k)| >= NodeNumber(cfg, k.node, k.database)
            && forall other :: other != k && At(other, k.node, k.database) ==> IdleOf(s, other) == {}))
  }

  /** The node total without the idle connections of one key. */
  lemma SweptTotals(s: State, k: PoolKey)
    requires Conserved(s)
    ensures var swept := WithIdle(s.pools, k, []);
            && swept[k].Total() == |LiveOf(s, k) - IdleOf(s, k)|
            && NodeTotal(swept, k.node, k.database) == |LiveAt(s, k.node, k.database) - IdleOf(s, k)|
  {
    var p := Get(s.pools, k);
    TotalCountsLive(s, k);
    NodeTotalCountsLive(s, k.node, k.database);
    NodeTotalUpdate(s.pools, k, p.(idle := []), k.node, k.database);
    assert IdleOf(s, k) <= LiveOf(s, k) <= LiveAt(s, k.node, k.database);
  }

  lemma EvictableIsIdleElsewhere(s: State, k: PoolKey)
    requires Conserved(s)
    ensures Evictable(WithIdle(s.pools, k, []), k)
            <==> exists other :: other != k && At(other, k.node, k.database) && IdleOf(s, other) != {}
  {
    var swept := WithIdle(s.pools, k, []);
    if v :| v in swept && At(v, k.node, k.database) && swept[v].idle != [] {
      TotalCountsLive(s, v);
      assert v != k && |IdleOf(s, v)| > 0;
    }
    if other :| other != k && At(other, k.node, k.database) && IdleOf(s, other) != {} {
      TotalCountsLive(s, other);
      assert other in swept && swept[other].idle != [];
    }
  }

  lemma FullIsSaturated(cfg: Config, ages: Ages, s: State, k: PoolKey)
    requires Conserved(s)
    ensures Saturated(cfg, ages, s.pools, k) <==> Full(cfg, ages, s, k)
  {
    LimitsAreConfigured(cfg, k);
    SweptTotals(s, k);
    EvictableIsIdleElsewhere(s, k);
    forall c
      ensures Expired(c, ages) <==> Outlived(c, ages)
    {
      OutlivedIsExpired(c, ages);
    }
  }

  /** In every reachable state: a checkout finds no connection exactly when every candidate is
      full; otherwise the one it takes is not, and all with fewer connections in use are. */
  lemma CheckoutFailsOnlyWhenFull(cfg: Config, steps: seq<Step>, ages: Ages, candidates: seq<PoolKey>, counter: nat,
                                  victim: Option<PoolKey>, pools': PoolMap, result: CandidateResult)
    requires Runs(cfg, INITIAL, steps) && DistinctNodes(candidates)
    requires var s := After(cfg, INITIAL, steps);
             Enabled(cfg, s, Try(ages, Ranked(s.pools, candidates, counter), victim, pools', result))
    ensures var s := After(cfg, INITIAL, steps);
            && (result == AllFull <==> forall k :: k in candidates ==> Full(cfg, ages, s, k))
            && (Chosen(result).Some? ==>
                  && Chosen(result).value in candidates && !Full(cfg, ages, s, Chosen(result).value)
                  && forall k :: k in candidates && ActiveCount(s.pools, k) < ActiveCount(s.pools, Chosen(result).value)
                       ==> Full(cfg, ages, s, k))
  {
    InitiallyInvariant();
    RunsKeepInvariants(cfg, INITIAL, steps);
    var s := After(cfg, INITIAL, steps);
    ChoiceIsLeastLoaded(cfg, ages, s.pools, candidates, counter, s.nextId, victim, pools', result);
    forall k
      ensures Saturated(cfg, ages, s.pools, k) <==> Full(cfg, ages, s, k)
    {
      FullIsSaturated(cfg, ages, s, k);
    }
  }

  // ---------------------------------------------------------------------
  // What a checkout closes
  // ---------------------------------------------------------------------

  /** What the idle queue of a key may lose: outlived connections, the one that is reused, and
      the front one if this is the queue evicted from. */
  ghost predicate Spares(ages: Ages, k: PoolKey, before: seq<IdleConn>, after: seq<IdleConn>, victim: Option<PoolKey>,
                         result: CandidateResult) {
    if victim == Some(k) then
      result.Claimed? && k != result.key && At(k, result.key.node, result.key.database)
      && before != [] && after == before[1..]
    else forall c :: c in before && c !in after ==> Outlived(c, ages) || result == GotIdle(k, c)
  }

  ghost predicate SparesAll(ages: Ages, pools: PoolMap, pools': PoolMap, victim: Option<PoolKey>, result: CandidateResult) {
    forall k :: Spares(ages, k, Get(pools, k).idle, Get(pools', k).idle, victim, result)
  }

  /** A connection is opened only if there is none to reuse, and one is evicted for it only if
      the node has its number. */
  ghost predicate NeedsIt(cfg: Config, ages: Ages, pools: PoolMap, victim: Option<PoolKey>, result: CandidateResult) {
    && (victim.Some? ==> result.Claimed?)
    && (result.Claimed? ==>
          var key := result.key;
          && (forall c :: c in Get(pools, key).idle ==> Outlived(c, ages))
          && (victim.Some? <==>
              NodeTotal(WithIdle(pools, key, []), key.node, key.database) >= NodeNumber(cfg, key.node, key.database)))
  }

  lemma AllOutlived(idle: seq<IdleConn>, ages: Ages)
    requires forall c :: c in idle ==> Expired(c, ages)
    ensures forall c :: c in idle ==> Outlived(c, ages)
  {
    forall c | c in idle
      ensures Outlived(c, ages)
    {
      OutlivedIsExpired(c, ages);
    }
  }

  lemma ReuseSpares(cfg: Config, ages: Ages, pools: PoolMap, ranked: seq<PoolKey>, id: nat, victim: Option<PoolKey>,
                    pools': PoolMap, result: CandidateResult)
    requires ranked != [] && PopIdle(Get(pools, ranked[0]).idle, ages).0.Some?
    requires Tried(cfg, ages, pools, ranked, id, victim, pools', result)
    ensures SparesAll(ages, pools, pools', victim, result) && NeedsIt(cfg, ages, pools, victim, result)
  {
    var key := ranked[0];
    var idle := Get(pools, key).idle;
    var (conn, rest) := PopIdle(idle, ages);
    TakenIsFresh(idle, ages);
    var n := |idle| - |rest|;
    forall i | n <= i < |idle|
      ensures idle[i] in rest
    {
      assert rest[i - n] == idle[i];
    }
    forall c | c in idle && c !in rest
      ensures Outlived(c, ages) || c == conn.value
    {
      var i :| 0 <= i < |idle| && idle[i] == c;
      assert i < n;
    }
  }

  lemma ClaimIsNeeded(cfg: Config, ages: Ages, pools: PoolMap, ranked: seq<PoolKey>, id: nat, victim: Option<PoolKey>,
                      pools': PoolMap, result: CandidateResult)
    requires ranked != [] && PopIdle(Get(pools, ranked[0]).idle, ages) == (None, [])
    requires (forall c :: c in Get(pools, ranked[0]).idle ==> Expired(c, ages)) && !Saturated(cfg, ages, pools, ranked[0])
    requires Tried(cfg, ages, pools, ranked, id, victim, pools', result)
    ensures result == Claimed(ranked[0], id) && NeedsIt(cfg, ages, pools, victim, result)
  {
    var key := ranked[0];
    AllOutlived(Get(pools, key).idle, ages);
    LimitsAreConfigured(cfg, key);
    assert ResolveLimits(cfg, key).UserHasCapacity(WithIdle(pools, key, [])[key].Total());
  }

  lemma ClaimSpares(ages: Ages, pools: PoolMap, key: PoolKey, id: nat, victim: Option<PoolKey>, pools': PoolMap)
    requires forall c :: c in Get(pools, key).idle ==> Outlived(c, ages)
    requires Ended(pools, key, [], id, victim, pools', Claimed(key, id))
    ensures SparesAll(ages, pools, pools', victim, Claimed(key, id))
  {
    var popped := WithIdle(pools, key, []);
    if victim.Some? {
      assert IsVictim(popped, key, victim.value) && victim.value != key;
    }
    forall k
      ensures Spares(ages, k, Get(pools, k).idle, Get(pools', k).idle, victim, Claimed(key, id))
    {
      assert k == key ==> Get(pools', k).idle == [];
    }
  }

  lemma SkipSpares(cfg: Config, ages: Ages, pools: PoolMap, key: PoolKey, victim: Option<PoolKey>, pools': PoolMap,
                   result: CandidateResult)
    requires (forall c :: c in Get(pools, key).idle ==> Outlived(c, ages))
    requires Chosen(result).Some? ==> Chosen(result).value.node != key.node
    requires var popped := WithIdle(pools, key, []);
             SparesAll(ages, popped, pools', victim, result) && NeedsIt(cfg, ages, popped, victim, result)
    ensures SparesAll(ages, pools, pools', victim, result) && NeedsIt(cfg, ages, pools, victim, result)
  {
    var popped := WithIdle(pools, key, []);
    forall k
      ensures Spares(ages, k, Get(pools, k).idle, Get(pools', k).idle, victim, result)
    {
      assert Spares(ages, k, Get(popped, k).idle, Get(pools', k).idle, victim, result);
    }
    if result.Claimed? {
      var at := result.key;
      var a, b := WithIdle(pools, at, []), WithIdle(popped, at, []);
      NodeTotalAtMost(a, b, at.node, at.database);
      NodeTotalAtMost(b, a, at.node, at.database);
    }
  }

  lemma NothingTriedSpares(cfg: Config, ages: Ages, pools: PoolMap)
    ensures SparesAll(ages, pools, pools, None, AllFull) && NeedsIt(cfg, ages, pools, None, AllFull)
  {
  }

  lemma EndSpares(cfg: Config, ages: Ages, pools: PoolMap, ranked: seq<PoolKey>, id: nat, victim: Option<PoolKey>,
                  pools': PoolMap, result: CandidateResult)
    requires ranked != [] && !Saturated(cfg, ages, pools, ranked[0])
    requires Tried(cfg, ages, pools, ranked, id, victim, pools', result)
    ensures SparesAll(ages, pools, pools', victim, result) && NeedsIt(cfg, ages, pools, victim, result)
  {
    PopIdleTakesFirstLive(Get(pools, ranked[0]).idle, ages);
    if PopIdle(Get(pools, ranked[0]).idle, ages).0.Some? {
      ReuseSpares(cfg, ages, pools, ranked, id, victim, pools', result);
    } else {
      AllOutlived(Get(pools, ranked[0]).idle, ages);
      ClaimIsNeeded(cfg, ages, pools, ranked, id, victim, pools', result);
      TriedClaims(cfg, ages, pools, ranked, id, victim, pools', result);
      ClaimSpares(ages, pools, ranked[0], id, victim, pools');
    }
  }

  lemma {:induction false} TriedSpares(cfg: Config, ages: Ages, pools: PoolMap, ranked: seq<PoolKey>, id: nat,
                                       victim: Option<PoolKey>, pools': PoolMap, result: CandidateResult)
    requires DistinctNodes(ranked) && Tried(cfg, ages, pools, ranked, id, victim, pools', result)
    ensures SparesAll(ages, pools, pools', victim, result) && NeedsIt(cfg, ages, pools, victim, result)
    decreases |ranked|
  {
    if ranked == [] {
      NothingTriedSpares(cfg, ages, pools);
    } else if Saturated(cfg, ages, pools, ranked[0]) {
      var popped := WithIdle(pools, ranked[0], []);
      SkippedIsRetried(cfg, ages, pools, ranked, id, victim, pools', result);
      TriedSpares(cfg, ages, popped, ranked[1..], id, victim, pools', result);
      ChosenIsRanked(cfg, ages, popped, ranked[1..], id, victim, pools', result);
      AllOutlived(Get(pools, ranked[0]).idle, ages);
      SkipSpares(cfg, ages, pools, ranked[0], victim, pools', result);
    } else {
      EndSpares(cfg, ages, pools, ranked, id, victim, pools', result);
    }
  }

  /** In every reachable state: a checkout opens a connection only if there is none to reuse for
      the key it chose; it evicts exactly when the node, without what has outlived its limits,
      has the number configured for it, and then one connection of another user there. Nothing
      else that could be used is closed. */
  lemma CheckoutClosesOnlyWhatItMust(cfg: Config, steps: seq<Step>, ages: Ages, candidates: seq<PoolKey>, counter: nat,
                                     victim: Option<PoolKey>, pools': PoolMap, result: CandidateResult)
    requires Runs(cfg, INITIAL, steps) && DistinctNodes(candidates)
    requires var s := After(cfg, INITIAL, steps);
             Enabled(cfg, s, Try(ages, Ranked(s.pools, candidates, counter), victim, pools', result))
    ensures var s := After(cfg, INITIAL, steps);
            && (forall k :: Spares(ages, k, Get(s.pools, k).idle, Get(pools', k).idle, victim, result))
            && (result.Claimed? ==>
                  var key := result.key;
                  && (forall c :: c in Get(s.pools, key).idle ==> Outlived(c, ages))
                  && (victim.Some? <==>
                      |LiveAt(s, key.node, key.database) - IdleOf(s, key)| >= NodeNumber(cfg, key.node, key.database)))
            && (!result.Claimed? ==> victim.None?)
  {
    InitiallyInvariant();
    RunsKeepInvariants(cfg, INITIAL, steps);
    var s := After(cfg, INITIAL, steps);
    var ranked := Ranked(s.pools, candidates, counter);
    RankedIsSorted(s.pools, candidates, counter);
    PermutationKeepsDistinctNodes(candidates, ranked);
    TriedSpares(cfg, ages, s.pools, ranked, s.nextId, victim, pools', result);
    if result.Claimed? {
      SweptTotals(s, result.key);
    }
  }

  // ---------------------------------------------------------------------
  // Where a checkout may go
  // ---------------------------------------------------------------------

  datatype Routing = ToPrimary | ToReplica

  /** The candidates of a checkout: the primary, if there is one, or all replicas. */
  function ResolveCandidates(cfg: Config, database: string, user: string, routing: Routing): seq<PoolKey> {
    if database !in cfg then []
    else
      var t := cfg[database].topology;
      match routing
      case ToPrimary => if t.primary.None? then [] else [PoolKey(t.primary.value, database, user)]
      case ToReplica =>
        seq(|t.replicas|, i requires 0 <= i < |t.replicas| => PoolKey(t.replicas[i], database, user))
  }

  /** A connection that a checkout gets is to a node that the routing asks for: the configured
      primary, or one of the configured replicas, and it is for that database and user. */
  lemma CheckoutIsRouted(cfg: Config, ages: Ages, pools: PoolMap, database: string, user: string, routing: Routing,
                         counter: nat, id: nat, victim: Option<PoolKey>, pools': PoolMap, result: CandidateResult)
    requires Tried(cfg, ages, pools, Ranked(pools, ResolveCandidates(cfg, database, user, routing), counter), id, victim,
                   pools', result)
    ensures Chosen(result).Some? ==>
              var k := Chosen(result).value;
              && k.database == database && k.user == user && database in cfg
              && (routing.ToPrimary? ==> cfg[database].topology.primary == Some(k.node))
              && (routing.ToReplica? ==> k.node in cfg[database].topology.replicas)
  {
    var candidates := ResolveCandidates(cfg, database, user, routing);
    RankedIsSorted(pools, candidates, counter);
    PermutationKeepsElements(candidates, Ranked(pools, candidates, counter));
    ChosenIsRanked(cfg, ages, pools, Ranked(pools, candidates, counter), id, victim, pools', result);
  }

  lemma {:induction false} ChosenIsRanked(cfg: Config, ages: Ages, pools: PoolMap, ranked: seq<PoolKey>, id: nat,
                                          victim: Option<PoolKey>, pools': PoolMap, result: CandidateResult)
    requires Tried(cfg, ages, pools, ranked, id, victim, pools', result)
    ensures Chosen(result).Some? ==> Chosen(result).value in ranked
    decreases |ranked|
  {
    if ranked != [] {
      if Saturated(cfg, ages, pools, ranked[0]) {
        SkippedIsRetried(cfg, ages, pools, ranked, id, victim, pools', result);
        ChosenIsRanked(cfg, ages, WithIdle(pools, ranked[0], []), ranked[1..], id, victim, pools', result);
      } else {
        TriedEnds(cfg, ages, pools, ranked, id, victim, pools', result);
      }
    }
  }

  // ---------------------------------------------------------------------
  // Scavenging
  // ---------------------------------------------------------------------

  function IdleTimeout(cfg: Config, database: string): nat {
    if database in cfg then cfg[database].idleTimeout else 5 * 60
  }

  function MaxLifetime(cfg: Config, database: string): nat {
    if database in cfg then cfg[database].maxLifetime else 60 * 60
  }

  lemma {:induction false} CountedAreFirst(idle: seq<IdleConn>, ages: Ages)
    requires ByAge(idle)
    ensures CountTimedOut(idle, ages) <= |idle|
    ensures forall i :: 0 <= i < |idle| ==> (TimedOut(idle[i], ages) <==> i < CountTimedOut(idle, ages))
    decreases |idle|
  {
    if idle != [] {
      assert ByAge(idle[1..]);
      CountedAreFirst(idle[1..], ages);
      if !TimedOut(idle[0], ages) {
        NoneTimedOut(idle, ages);
        assert forall i :: 0 <= i < |idle| ==> idle[0].idleSince <= idle[i].idleSince;
      } else {
        assert forall i :: 0 < i < |idle| ==> idle[i] == idle[1..][i - 1];
      }
    }
  }

  /** What the two passes leave of a queue, and how many of its survivors are timed out. */
  lemma LeftOfQueue(idle: seq<IdleConn>, ages: Ages, floor: nat, alive: nat -> bool)
    requires ByAge(idle)
    ensures var survivors, left := Survivors(idle, ages, alive), ScavengedIdle(idle, ages, floor, alive);
            var gone := |survivors| - |left|;
            && 0 <= gone && left == survivors[gone..]
            && (|left| > floor ==> forall i :: gone <= i < |survivors| ==> !TimedOut(survivors[i], ages))
            && forall i :: 0 <= i < gone ==> TimedOut(survivors[i], ages)
  {
    var survivors := Survivors(idle, ages, alive);
    SurvivorsAreSome(idle, ages, alive);
    DropTimedOutKeepsSuffix(survivors, ages, Excess(|survivors|, floor));
    CountedAreFirst(survivors, ages);
  }

  lemma PassesTake(idle: seq<IdleConn>, ages: Ages, floor: nat, alive: nat -> bool, c: IdleConn)
    requires ByAge(idle) && c in idle && c !in ScavengedIdle(idle, ages, floor, alive)
    ensures !alive(c.id) || ages.now > c.createdAt + ages.maxLifetime || ages.now > c.idleSince + ages.idleTimeout
  {
    var survivors, left := Survivors(idle, ages, alive), ScavengedIdle(idle, ages, floor, alive);
    LeftOfQueue(idle, ages, floor, alive);
    SurvivorsAreSome(idle, ages, alive);
    var gone := |survivors| - |left|;
    forall i | gone <= i < |survivors|
      ensures survivors[i] in left
    {
      assert left[i - gone] == survivors[i];
    }
    if c in survivors {
      var i :| 0 <= i < |survivors| && survivors[i] == c;
      assert i < gone;
    }
  }

  lemma PassesLeave(idle: seq<IdleConn>, ages: Ages, floor: nat, alive: nat -> bool, c: IdleConn)
    requires ByAge(idle) && c in ScavengedIdle(idle, ages, floor, alive)
    ensures c in idle && alive(c.id) && ages.now <= c.createdAt + ages.maxLifetime
    ensures ages.now <= c.idleSince + ages.idleTimeout || |ScavengedIdle(idle, ages, floor, alive)| <= floor
  {
    var survivors, left := Survivors(idle, ages, alive), ScavengedIdle(idle, ages, floor, alive);
    LeftOfQueue(idle, ages, floor, alive);
    SurvivorsAreSome(idle, ages, alive);
    var i :| 0 <= i < |left| && left[i] == c;
    assert survivors[|survivors| - |left| + i] == c;
  }

  /** In every reachable state: a connection that a scavenge takes was dead, older than the
      lifetime of its database or idle longer than its time-out. One that it leaves is alive and
      within the lifetime, and idle no longer than the time-out unless its queue is within the
      floor configured for its user. */
  lemma ScavengeGoesByTheClock(cfg: Config, steps: seq<Step>, alive: nat -> bool, k: PoolKey, c: IdleConn)
    requires Runs(cfg, INITIAL, steps) && k in After(cfg, INITIAL, steps).pools
    ensures var s := After(cfg, INITIAL, steps);
            var before, left := s.pools[k].idle, Get(Next(cfg, s, Scavenged(alive)).pools, k).idle;
            && (c in before && c !in left ==>
                  || !alive(c.id)
                  || s.now > c.createdAt + MaxLifetime(cfg, k.database)
                  || s.now > c.idleSince + IdleTimeout(cfg, k.database))
            && (c in left ==>
                  && c in before && alive(c.id)
                  && s.now <= c.createdAt + MaxLifetime(cfg, k.database)
                  && (s.now <= c.idleSince + IdleTimeout(cfg, k.database) || |left| <= FloorNumber(cfg, k)))
  {
    InitiallyInvariant();
    RunsKeepInvariants(cfg, INITIAL, steps);
    var s := After(cfg, INITIAL, steps);
    assert AgedQueue(Get(s.pools, k).idle, s.now);
    LimitsAreConfigured(cfg, k);
    var idle, ages, floor := s.pools[k].idle, AgesFor(cfg, k, s.now), MinForKey(cfg, k);
    if c in ScavengedIdle(idle, ages, floor, alive) {
      PassesLeave(idle, ages, floor, alive, c);
    } else if c in idle {
      PassesTake(idle, ages, floor, alive, c);
    }
  }

  // ---------------------------------------------------------------------
  // Draining
  // ---------------------------------------------------------------------

  /** Draining a node closes the idle connections to it, of every database and user, and touches
      no other connection. */
  lemma DrainClosesTheNode(cfg: Config, steps: seq<Step>, node: string, id: nat)
    requires Runs(cfg, INITIAL, steps) && id in After(cfg, INITIAL, steps).places
    ensures var s := After(cfg, INITIAL, steps);
            var s' := Next(cfg, s, NodeDrained(node));
            && s'.places[id] == (if s.places[id].Idle? && s.places[id].key.node == node then Closed else s.places[id])
            && (forall k :: InIdle(s'.pools, k, id) <==> s'.places[id] == Idle(k))
  {
    InitiallyInvariant();
    RunsKeepInvariants(cfg, INITIAL, steps);
    var s := After(cfg, INITIAL, steps);
    var s' := Next(cfg, s, NodeDrained(node));
    SweepKeepsConserved(cfg, s, NodeDrained(node));
    forall k
      ensures InIdle(s'.pools, k, id) <==> s'.places[id] == Idle(k)
    {
      assert PoolMatches(s'.places, k, Get(s'.pools, k));
    }
    if s.places[id].Idle? {
      assert PoolMatches(s.places, s.places[id].key, Get(s.pools, s.places[id].key));
    }
  }

  /** Draining everything closes all idle connections and touches no other. */
  lemma DrainClosesAll(cfg: Config, steps: seq<Step>, id: nat)
    requires Runs(cfg, INITIAL, steps) && id in After(cfg, INITIAL, steps).places
    ensures var s := After(cfg, INITIAL, steps);
            var s' := Next(cfg, s, AllDrained);
            && s'.places[id] == (if s.places[id].Idle? then Closed else s.places[id])
            && (forall k :: Get(s'.pools, k) == Get(s.pools, k).(idle := []))
  {
  }
}
