/** Limits over every run: the node limit and the user limit are exceeded by refills only. */
module Capacity {
  import opened Options
  import opened Pools
  import opened Checkout
  import opened Lifecycle
  import opened PoolRuns

  // ---------------------------------------------------------------------
  // One pass over the candidates
  // ---------------------------------------------------------------------

  /** No pool grew. */
  ghost predicate NoneGrew(pools: PoolMap, pools': PoolMap) {
    forall k :: Get(pools', k).Total() <= Get(pools, k).Total()
  }

  lemma NoneGrewTotals(pools: PoolMap, pools': PoolMap, n: string, d: string)
    requires NoneGrew(pools, pools')
    ensures NodeTotal(pools', n, d) <= NodeTotal(pools, n, d)
  {
    forall k
      ensures Share(pools', k, n, d) <= Share(pools, k, n, d)
    {
      assert Get(pools', k).Total() <= Get(pools, k).Total();
    }
    NodeTotalAtMost(pools', pools, n, d);
  }

  lemma PopGrowsNone(pools: PoolMap, key: PoolKey, rest: seq<IdleConn>)
    requires |rest| <= |Get(pools, key).idle|
    ensures NoneGrew(pools, WithIdle(pools, key, rest))
  {
  }

  lemma ReuseGrowsNone(pools: PoolMap, key: PoolKey, id: nat, rest: seq<IdleConn>)
    requires |rest| < |Get(pools, key).idle|
    ensures NoneGrew(pools, Activate(WithIdle(pools, key, rest), key, id))
  {
  }

  /** A claim adds at most one, to the pool and to its node. */
  lemma ActivateAddsOne(pools: PoolMap, key: PoolKey, id: nat, n: string, d: string, k: PoolKey)
    ensures NodeTotal(Activate(pools, key, id), n, d) <= NodeTotal(pools, n, d) + (if At(key, n, d) then 1 else 0)
    ensures Get(Activate(pools, key, id), k).Total() <= Get(pools, k).Total() + (if k == key then 1 else 0)
  {
    NodeTotalUpdate(pools, key, Get(pools, key).(active := Get(pools, key).active + {id}), n, d);
  }

  lemma EvictFreesOne(pools: PoolMap, key: PoolKey, v: PoolKey, n: string, d: string, k: PoolKey)
    requires IsVictim(pools, key, v)
    ensures NodeTotal(Evict(pools, v), n, d) == NodeTotal(pools, n, d) - (if At(key, n, d) then 1 else 0)
    ensures Get(Evict(pools, v), k).Total() <= Get(pools, k).Total()
  {
    NodeTotalUpdate(pools, v, pools[v].(idle := pools[v].idle[1..]), n, d);
    assert At(key, n, d) <==> At(v, n, d);
  }

  /** Each total is no larger than it was, or within its limit. */
  ghost predicate TotalsKept(cfg: Config, pools: PoolMap, pools': PoolMap, n: string, d: string, k: PoolKey) {
    && (NodeTotal(pools', n, d) <= NodeTotal(pools, n, d) || NodeTotal(pools', n, d) <= PoolMax(cfg, n, d))
    && (ResolveLimits(cfg, k).userMax.Some? ==>
          || Get(pools', k).Total() <= Get(pools, k).Total()
          || Get(pools', k).Total() <= ResolveLimits(cfg, k).userMax.value)
  }

  lemma KeptWhenNoneGrew(cfg: Config, pools: PoolMap, pools': PoolMap, n: string, d: string, k: PoolKey)
    requires NoneGrew(pools, pools')
    ensures TotalsKept(cfg, pools, pools', n, d, k)
  {
    NoneGrewTotals(pools, pools', n, d);
    assert Get(pools', k).Total() <= Get(pools, k).Total();
  }

  lemma KeptAfterPop(cfg: Config, pools: PoolMap, popped: PoolMap, pools': PoolMap, n: string, d: string, k: PoolKey)
    requires NoneGrew(pools, popped) && TotalsKept(cfg, popped, pools', n, d, k)
    ensures TotalsKept(cfg, pools, pools', n, d, k)
  {
    NoneGrewTotals(pools, popped, n, d);
    assert Get(popped, k).Total() <= Get(pools, k).Total();
  }

  lemma KeptByClaim(cfg: Config, pools: PoolMap, key: PoolKey, id: nat, n: string, d: string, k: PoolKey)
    requires ResolveLimits(cfg, key).UserHasCapacity(Get(pools, key).Total())
    requires ResolveLimits(cfg, key).PoolHasCapacity(NodeTotal(pools, key.node, key.database))
    ensures TotalsKept(cfg, pools, Activate(pools, key, id), n, d, k)
  {
    ActivateAddsOne(pools, key, id, n, d, k);
  }

  lemma KeptByEviction(cfg: Config, pools: PoolMap, key: PoolKey, id: nat, v: PoolKey, n: string, d: string, k: PoolKey)
    requires ResolveLimits(cfg, key).UserHasCapacity(Get(pools, key).Total()) && IsVictim(pools, key, v)
    ensures TotalsKept(cfg, pools, Activate(Evict(pools, v), key, id), n, d, k)
  {
    EvictFreesOne(pools, key, v, n, d, k);
    ActivateAddsOne(Evict(pools, v), key, id, n, d, k);
  }

  lemma {:induction false} TriedTotals(cfg: Config, ages: Ages, pools: PoolMap, ranked: seq<PoolKey>, id: nat,
                                       victim: Option<PoolKey>, pools': PoolMap, result: CandidateResult,
                                       n: string, d: string, k: PoolKey)
    requires Tried(cfg, ages, pools, ranked, id, victim, pools', result)
    ensures TotalsKept(cfg, pools, pools', n, d, k)
    decreases |ranked|
  {
    if ranked != [] {
      var key := ranked[0];
      var (conn, rest) := PopIdle(Get(pools, key).idle, ages);
      PopIdleTakesFirstLive(Get(pools, key).idle, ages);
      var popped := WithIdle(pools, key, rest);
      var limits := ResolveLimits(cfg, key);
      if conn.Some? {
        ReuseGrowsNone(pools, key, conn.value.id, rest);
        KeptWhenNoneGrew(cfg, pools, pools', n, d, k);
      } else {
        PopGrowsNone(pools, key, rest);
        if !limits.UserHasCapacity(popped[key].Total()) {
          TriedTotals(cfg, ages, popped, ranked[1..], id, victim, pools', result, n, d, k);
        } else if limits.PoolHasCapacity(NodeTotal(popped, key.node, key.database)) {
          KeptByClaim(cfg, popped, key, id, n, d, k);
        } else if Evictable(popped, key) {
          KeptByEviction(cfg, popped, key, id, victim.value, n, d, k);
        } else {
          TriedTotals(cfg, ages, popped, ranked[1..], id, victim, pools', result, n, d, k);
        }
        KeptAfterPop(cfg, pools, popped, pools', n, d, k);
      }
    }
  }

  // ---------------------------------------------------------------------
  // Every step, every run
  // ---------------------------------------------------------------------

  /** Steps other than a pass over the candidates and a refill grow no pool. */
  lemma OtherStepsGrowNone(cfg: Config, s: State, step: Step)
    requires Conserved(s) && Aged(s) && Enabled(cfg, s, step) && !step.Try? && !step.Refilled?
    ensures NoneGrew(s.pools, Next(cfg, s, step).pools)
  {
    forall k
      ensures Get(Next(cfg, s, step).pools, k).Total() <= Get(s.pools, k).Total()
    {
      assert PoolMatches(s.places, k, Get(s.pools, k)) && AgedQueue(Get(s.pools, k).idle, s.now);
      if step.Scavenged? && k in s.pools {
        ScavengedIdleKeeps(s.pools[k].idle, AgesFor(cfg, k, s.now), MinForKey(cfg, k), step.alive);
      }
    }
  }

  /** The totals of a node and of a key, allowing for some refills. */
  ghost predicate Bounded(cfg: Config, pools: PoolMap, n: string, d: string, k: PoolKey, nodeRefills: nat, keyRefills: nat) {
    && NodeTotal(pools, n, d) <= PoolMax(cfg, n, d) + nodeRefills
    && (ResolveLimits(cfg, k).userMax.Some? ==> Get(pools, k).Total() <= ResolveLimits(cfg, k).userMax.value + keyRefills)
  }

  function RefillAt(step: Step, n: string, d: string): nat {
    if step.Refilled? && At(step.key, n, d) then 1 else 0
  }

  function RefillFor(step: Step, k: PoolKey): nat {
    if step.Refilled? && step.key == k then 1 else 0
  }

  function RefillsAt(steps: seq<Step>, n: string, d: string): nat {
    if steps == [] then 0 else RefillAt(steps[0], n, d) + RefillsAt(steps[1..], n, d)
  }

  function RefillsFor(steps: seq<Step>, k: PoolKey): nat {
    if steps == [] then 0 else RefillFor(steps[0], k) + RefillsFor(steps[1..], k)
  }

  lemma RefillKeepsBounded(cfg: Config, pools: PoolMap, key: PoolKey, conn: IdleConn, n: string, d: string, k: PoolKey,
                           nodeRefills: nat, keyRefills: nat)
    requires Bounded(cfg, pools, n, d, k, nodeRefills, keyRefills)
    ensures Bounded(cfg, Refill(pools, key, conn), n, d, k,
                    nodeRefills + (if At(key, n, d) then 1 else 0), keyRefills + (if key == k then 1 else 0))
  {
    NodeTotalUpdate(pools, key, Get(pools, key).(idle := Get(pools, key).idle + [conn]), n, d);
  }

  lemma OtherStepKeepsBounded(cfg: Config, s: State, step: Step, n: string, d: string, k: PoolKey,
                              nodeRefills: nat, keyRefills: nat)
    requires Conserved(s) && Aged(s) && Enabled(cfg, s, step) && !step.Try? && !step.Refilled?
    requires Bounded(cfg, s.pools, n, d, k, nodeRefills, keyRefills)
    ensures Bounded(cfg, Next(cfg, s, step).pools, n, d, k, nodeRefills, keyRefills)
  {
    OtherStepsGrowNone(cfg, s, step);
    NoneGrewStaysBounded(cfg, s.pools, Next(cfg, s, step).pools, n, d, k, nodeRefills, keyRefills);
  }

  lemma StepKeepsBounded(cfg: Config, s: State, step: Step, n: string, d: string, k: PoolKey,
                         nodeRefills: nat, keyRefills: nat)
    requires Conserved(s) && Aged(s) && Enabled(cfg, s, step) && Bounded(cfg, s.pools, n, d, k, nodeRefills, keyRefills)
    ensures Bounded(cfg, Next(cfg, s, step).pools, n, d, k,
                    nodeRefills + RefillAt(step, n, d), keyRefills + RefillFor(step, k))
  {
    if step.Try? {
      TriedTotals(cfg, step.ages, s.pools, step.ranked, s.nextId, step.victim, step.pools, step.result, n, d, k);
      KeptStaysBounded(cfg, s.pools, step.pools, n, d, k, nodeRefills, keyRefills);
    } else if step.Refilled? {
      var conn := IdleConn(s.nextId, s.now, step.createdAt);
      RefillKeepsBounded(cfg, s.pools, step.key, conn, n, d, k, nodeRefills, keyRefills);
    } else {
      OtherStepKeepsBounded(cfg, s, step, n, d, k, nodeRefills, keyRefills);
    }
  }

  lemma KeptStaysBounded(cfg: Config, pools: PoolMap, pools': PoolMap, n: string, d: string, k: PoolKey,
                         nodeRefills: nat, keyRefills: nat)
    requires TotalsKept(cfg, pools, pools', n, d, k) && Bounded(cfg, pools, n, d, k, nodeRefills, keyRefills)
    ensures Bounded(cfg, pools', n, d, k, nodeRefills, keyRefills)
  {
  }

  lemma NoneGrewStaysBounded(cfg: Config, pools: PoolMap, pools': PoolMap, n: string, d: string, k: PoolKey,
                             nodeRefills: nat, keyRefills: nat)
    requires NoneGrew(pools, pools') && Bounded(cfg, pools, n, d, k, nodeRefills, keyRefills)
    ensures Bounded(cfg, pools', n, d, k, nodeRefills, keyRefills)
  {
    KeptWhenNoneGrew(cfg, pools, pools', n, d, k);
    NoneGrewTotals(pools, pools', n, d);
    assert Get(pools', k).Total() <= Get(pools, k).Total();
  }

  lemma {:induction false} RunsKeepBounded(cfg: Config, s: State, steps: seq<Step>, n: string, d: string, k: PoolKey,
                                           nodeRefills: nat, keyRefills: nat)
    requires Conserved(s) && Aged(s) && Runs(cfg, s, steps) && Bounded(cfg, s.pools, n, d, k, nodeRefills, keyRefills)
    ensures Bounded(cfg, After(cfg, s, steps).pools, n, d, k,
                    nodeRefills + RefillsAt(steps, n, d), keyRefills + RefillsFor(steps, k))
    decreases |steps|
  {
    if steps != [] {
      StepKeepsConserved(cfg, s, steps[0]);
      StepKeepsAged(cfg, s, steps[0]);
      StepKeepsBounded(cfg, s, steps[0], n, d, k, nodeRefills, keyRefills);
      RunsKeepBounded(cfg, Next(cfg, s, steps[0]), steps[1..], n, d, k,
                      nodeRefills + RefillAt(steps[0], n, d), keyRefills + RefillFor(steps[0], k));
    }
  }

  /** From empty pools, whatever the clients, the scavenger and the administrator do in
      whatever order, the connections of a node and database stay within the node limit plus
      the refills there, and those of a user within the user limit plus its refills. */
  lemma CapacityIsRespected(cfg: Config, steps: seq<Step>, n: string, d: string, k: PoolKey)
    requires Runs(cfg, INITIAL, steps)
    ensures var pools := After(cfg, INITIAL, steps).pools;
            && NodeTotal(pools, n, d) <= PoolMax(cfg, n, d) + RefillsAt(steps, n, d)
            && (ResolveLimits(cfg, k).userMax.Some? ==>
                  Get(pools, k).Total() <= ResolveLimits(cfg, k).userMax.value + RefillsFor(steps, k))
  {
    InitiallyInvariant();
    RunsKeepBounded(cfg, INITIAL, steps, n, d, k, 0, 0);
  }

  /** The refills in the bound are needed: a refill adds one whatever the limit says. */
  lemma RefillIgnoresLimits(cfg: Config, s: State, key: PoolKey, createdAt: nat)
    ensures Enabled(cfg, s, Refilled(key, createdAt))
    ensures NodeTotal(Next(cfg, s, Refilled(key, createdAt)).pools, key.node, key.database)
              == NodeTotal(s.pools, key.node, key.database) + 1
  {
    var conn := IdleConn(s.nextId, s.now, createdAt);
    NodeTotalUpdate(s.pools, key, Get(s.pools, key).(idle := Get(s.pools, key).idle + [conn]), key.node, key.database);
  }
}
