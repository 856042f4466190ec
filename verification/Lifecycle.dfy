/** What happens to a connection after it was chosen, as changes
    of the pool map. */
module Lifecycle {
  import opened Options
  import opened Pools

  /** A connection in use is given up (discard_internal). */
  function Discard(pools: PoolMap, key: PoolKey, id: nat): PoolMap {
    if key in pools then pools[key := pools[key].(active := pools[key].active - {id})] else pools
  }

  function Checkin(pools: PoolMap, key: PoolKey, id: nat): PoolMap {
    if key in pools
    then pools[key := pools[key].(active := pools[key].active - {id}, resetting := pools[key].resetting + {id})]
    else pools
  }

  /** The reset succeeded. */
  function Return(pools: PoolMap, key: PoolKey, conn: IdleConn): PoolMap {
    if key in pools
    then pools[key := pools[key].(resetting := pools[key].resetting - {conn.id}, idle := pools[key].idle + [conn])]
    else pools
  }

  /** The reset failed, or its task was dropped. */
  function DropReset(pools: PoolMap, key: PoolKey, id: nat): PoolMap {
    if key in pools then pools[key := pools[key].(resetting := pools[key].resetting - {id})] else pools
  }

  /** A refill inserts without looking at the limits. */
  function Refill(pools: PoolMap, key: PoolKey, conn: IdleConn): PoolMap {
    pools[key := Get(pools, key).(idle := Get(pools, key).idle + [conn])]
  }

  function DrainNode(pools: PoolMap, node: string): PoolMap {
    map k | k in pools :: if k.node == node then pools[k].(idle := []) else pools[k]
  }

  function DrainAll(pools: PoolMap): PoolMap {
    map k | k in pools :: pools[k].(idle := [])
  }

  // ---------------------------------------------------------------------
  // Scavenging
  // ---------------------------------------------------------------------

  predicate Healthy(c: IdleConn, ages: Ages, alive: nat -> bool) {
    Elapsed(ages.now, c.createdAt) <= ages.maxLifetime && alive(c.id)
  }

  predicate TimedOut(c: IdleConn, ages: Ages) {
    Elapsed(ages.now, c.idleSince) > ages.idleTimeout
  }

  /** First pass: dead sockets and connections past their lifetime go. */
  function Survivors(idle: seq<IdleConn>, ages: Ages, alive: nat -> bool): seq<IdleConn> {
    if idle == [] then []
    else (if Healthy(idle[0], ages, alive) then [idle[0]] else []) + Survivors(idle[1..], ages, alive)
  }

  /** Second pass: at most `removable` timed-out connections go, front first. */
  function DropTimedOut(idle: seq<IdleConn>, ages: Ages, removable: nat): seq<IdleConn> {
    if idle == [] || removable == 0 then idle
    else if TimedOut(idle[0], ages) then DropTimedOut(idle[1..], ages, removable - 1)
    else [idle[0]] + DropTimedOut(idle[1..], ages, removable)
  }

  function Excess(n: nat, floor: nat): nat {
    if n > floor then n - floor else 0
  }

  function ScavengedIdle(idle: seq<IdleConn>, ages: Ages, floor: nat, alive: nat -> bool): seq<IdleConn> {
    var survivors := Survivors(idle, ages, alive);
    DropTimedOut(survivors, ages, Excess(|survivors|, floor))
  }

  const DEFAULT_IDLE_TIMEOUT := 300
  const DEFAULT_MAX_LIFETIME := 3600

  /** Time limits of a pool, in seconds. */
  function AgesFor(cfg: Config, key: PoolKey, now: nat): Ages {
    if key.database in cfg then Ages(now, cfg[key.database].idleTimeout, cfg[key.database].maxLifetime)
    else Ages(now, DEFAULT_IDLE_TIMEOUT, DEFAULT_MAX_LIFETIME)
  }

  function ScavengePool(cfg: Config, pools: PoolMap, key: PoolKey, now: nat, alive: nat -> bool): Pool
    requires key in pools
  {
    pools[key].(idle := ScavengedIdle(pools[key].idle, AgesFor(cfg, key, now), MinForKey(cfg, key), alive))
  }

  function Scavenge(cfg: Config, pools: PoolMap, now: nat, alive: nat -> bool): PoolMap {
    map k | k in pools :: ScavengePool(cfg, pools, k, now, alive)
  }

  function CountTimedOut(idle: seq<IdleConn>, ages: Ages): nat {
    if idle == [] then 0 else (if TimedOut(idle[0], ages) then 1 else 0) + CountTimedOut(idle[1..], ages)
  }

  function Min(a: nat, b: nat): nat {
    if a <= b then a else b
  }

  /** Idle longest in front. */
  ghost predicate ByAge(idle: seq<IdleConn>) {
    forall i, j :: 0 <= i < j < |idle| ==> idle[i].idleSince <= idle[j].idleSince
  }

  lemma {:induction false} NoneTimedOut(idle: seq<IdleConn>, ages: Ages)
    requires ByAge(idle) && idle != [] && !TimedOut(idle[0], ages)
    ensures CountTimedOut(idle, ages) == 0
  {
    if |idle| > 1 {
      NoneTimedOut(idle[1..], ages);
    }
  }

  /** The second pass keeps a suffix of the survivors and removes exactly as many as are both
      timed out and above the floor. */
  lemma {:induction false} DropTimedOutKeepsSuffix(idle: seq<IdleConn>, ages: Ages, removable: nat)
    requires ByAge(idle)
    ensures CountTimedOut(idle, ages) <= |idle|
    ensures DropTimedOut(idle, ages, removable) == idle[Min(removable, CountTimedOut(idle, ages))..]
    decreases |idle|
  {
    if idle != [] {
      var n := if TimedOut(idle[0], ages) && removable > 0 then removable - 1 else removable;
      DropTimedOutKeepsSuffix(idle[1..], ages, n);
      assert idle == [idle[0]] + idle[1..];
      if !TimedOut(idle[0], ages) {
        NoneTimedOut(idle, ages);
        assert idle[1..][0..] == idle[1..];
      }
    }
  }

  /** Scavenging never digs below the floor, except for what is unhealthy. */
  lemma ScavengeRespectsFloor(idle: seq<IdleConn>, ages: Ages, floor: nat, alive: nat -> bool)
    requires ByAge(Survivors(idle, ages, alive))
    ensures var survivors := Survivors(idle, ages, alive);
            |ScavengedIdle(idle, ages, floor, alive)|
              == |survivors| - Min(Excess(|survivors|, floor), CountTimedOut(survivors, ages))
    ensures |ScavengedIdle(idle, ages, floor, alive)| >= Min(|Survivors(idle, ages, alive)|, floor)
  {
    var survivors := Survivors(idle, ages, alive);
    DropTimedOutKeepsSuffix(survivors, ages, Excess(|survivors|, floor));
  }

  lemma {:induction false} ScavengedIsNoLonger(idle: seq<IdleConn>, ages: Ages, removable: nat)
    ensures |DropTimedOut(idle, ages, removable)| <= |idle|
    decreases |idle|
  {
    if idle != [] && removable > 0 {
      ScavengedIsNoLonger(idle[1..], ages, if TimedOut(idle[0], ages) then removable - 1 else removable);
    }
  }

  /** Idle connections of some pools together. */
  ghost function IdleTotal(pools: PoolMap, keys: set<PoolKey>): nat {
    if keys == {} then 0
    else
      var k :| k in keys;
      |Get(pools, k).idle| + IdleTotal(pools, keys - {k})
  }

  lemma {:induction false} IdleTotalPick(pools: PoolMap, keys: set<PoolKey>, k: PoolKey)
    requires k in keys
    ensures IdleTotal(pools, keys) == |Get(pools, k).idle| + IdleTotal(pools, keys - {k})
    decreases keys
  {
    var first :| first in keys && IdleTotal(pools, keys) == |Get(pools, first).idle| + IdleTotal(pools, keys - {first});
    if first != k {
      IdleTotalPick(pools, keys - {first}, k);
      IdleTotalPick(pools, keys - {k}, first);
      assert keys - {first} - {k} == keys - {k} - {first};
    }
  }

  // ---------------------------------------------------------------------
  // Order and identity survive
  // ---------------------------------------------------------------------

  ghost predicate DistinctIds(idle: seq<IdleConn>) {
    forall i, j :: 0 <= i < j < |idle| ==> idle[i].id != idle[j].id
  }

  function Ids(idle: seq<IdleConn>): set<nat> {
    set c | c in idle :: c.id
  }

  lemma {:induction false} SurvivorsAreSome(idle: seq<IdleConn>, ages: Ages, alive: nat -> bool)
    ensures forall c :: c in Survivors(idle, ages, alive) <==> c in idle && Healthy(c, ages, alive)
    ensures |Survivors(idle, ages, alive)| <= |idle|
    ensures ByAge(idle) ==> ByAge(Survivors(idle, ages, alive))
    ensures DistinctIds(idle) ==> DistinctIds(Survivors(idle, ages, alive))
  {
    if idle != [] {
      var rest := Survivors(idle[1..], ages, alive);
      SurvivorsAreSome(idle[1..], ages, alive);
      assert idle == [idle[0]] + idle[1..];
      forall j | 0 <= j < |rest|
        ensures ByAge(idle) ==> idle[0].idleSince <= rest[j].idleSince
        ensures DistinctIds(idle) ==> idle[0].id != rest[j].id
      {
        assert rest[j] in idle[1..];
        var k :| 0 <= k < |idle[1..]| && idle[1..][k] == rest[j];
        assert idle[k + 1] == rest[j];
      }
    }
  }

  lemma SuffixKeeps(idle: seq<IdleConn>, d: nat)
    requires d <= |idle|
    ensures ByAge(idle) ==> ByAge(idle[d..])
    ensures DistinctIds(idle) ==> DistinctIds(idle[d..])
    ensures forall c :: c in idle[d..] ==> c in idle
  {
  }

  lemma ScavengedIdleKeeps(idle: seq<IdleConn>, ages: Ages, floor: nat, alive: nat -> bool)
    requires ByAge(idle) && DistinctIds(idle)
    ensures var left := ScavengedIdle(idle, ages, floor, alive);
            && ByAge(left) && DistinctIds(left) && |left| <= |idle|
            && forall c :: c in left ==> c in idle
  {
    SurvivorsAreSome(idle, ages, alive);
    var survivors := Survivors(idle, ages, alive);
    DropTimedOutKeepsSuffix(survivors, ages, Excess(|survivors|, floor));
    SuffixKeeps(survivors, Min(Excess(|survivors|, floor), CountTimedOut(survivors, ages)));
  }
}
