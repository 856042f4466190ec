/** The pool manager: one lock around the pool map, each method one locked region. */
module PoolManager {
  import opened Options
  import opened Pools
  import opened Checkout
  import opened Lifecycle

  class PoolManager {
    var pools: PoolMap
    var nextId: nat
    var counter: nat              // round robin among replicas

    constructor ()
      ensures pools == map[] && nextId == 0 && counter == 0
    {
      pools, nextId, counter := map[], 0, 0;
    }

    // -------------------------------------------------------------------
    // Checkout
    // -------------------------------------------------------------------

    /** Drops expired connections from the front until one is usable. */
    method PopIdle(key: PoolKey, ages: Ages) returns (conn: Option<IdleConn>)
      modifies this`pools
      ensures conn == Pools.PopIdle(Get(old(pools), key).idle, ages).0
      ensures pools == WithIdle(old(pools), key, Pools.PopIdle(Get(old(pools), key).idle, ages).1)
    {
      var pool := Get(pools, key);
      var idle := pool.idle;
      conn := None;
      while idle != []
        invariant conn == None && Pools.PopIdle(idle, ages) == Pools.PopIdle(pool.idle, ages)
      {
        var c := idle[0];
        idle := idle[1..];
        if !Expired(c, ages) {
          conn := Some(c);
          break;
        }
      }
      pools := pools[key := pool.(idle := idle)];
    }

    /** Connections of the node and database, summed over all users. */
    method CountNode(node: string, database: string) returns (total: nat)
      ensures total == NodeTotal(pools, node, database)
    {
      total := 0;
      var left := pools.Keys;
      while left != {}
        invariant left <= pools.Keys
        invariant total + Sum(pools, left, node, database) == NodeTotal(pools, node, database)
        decreases left
      {
        var k :| k in left;
        SumPick(pools, left, k, node, database);
        if At(k, node, database) {
          total := total + pools[k].Total();
        }
        left := left - {k};
      }
    }

    /** Drops the idle connection that waits longest at the front of a queue of this node and
        database, whoever its user is. */
    method EvictIdleForNode(key: PoolKey) returns (victim: Option<PoolKey>)
      modifies this`pools
      ensures victim.Some? <==> Evictable(old(pools), key)
      ensures victim.None? ==> pools == old(pools)
      ensures victim.Some? ==> IsVictim(old(pools), key, victim.value) && pools == Evict(old(pools), victim.value)
    {
      victim := None;
      var left := pools.Keys;
      while left != {}
        invariant pools == old(pools) && left <= pools.Keys
        invariant victim.Some? ==>
                    && victim.value in pools && At(victim.value, key.node, key.database)
                    && pools[victim.value].idle != []
        invariant forall k :: k in pools && k !in left && At(k, key.node, key.database) && pools[k].idle != [] ==>
                    victim.Some? && pools[victim.value].idle[0].idleSince <= pools[k].idle[0].idleSince
        decreases left
      {
        var k :| k in left;
        left := left - {k};
        if At(k, key.node, key.database) && pools[k].idle != []
           && (victim.None? || pools[k].idle[0].idleSince < pools[victim.value].idle[0].idleSince) {
          victim := Some(k);
        }
      }
      if victim.Some? {
        var v := victim.value;
        pools := pools[v := pools[v].(idle := pools[v].idle[1..])];
      }
    }

    /** Rotates by the round-robin counter, then insertion-sorts by active count. */
    method Rank(candidates: seq<PoolKey>) returns (ranked: seq<PoolKey>)
      modifies this`counter
      ensures ranked == Ranked(pools, candidates, old(counter))
      ensures counter == if |candidates| > 1 then old(counter) + 1 else old(counter)
    {
      if |candidates| <= 1 {
        return candidates;
      }
      var start := counter % |candidates|;
      counter := counter + 1;
      var rotated := candidates[start..] + candidates[..start];
      ranked := [];
      var i := |rotated|;
      while i > 0
        invariant 0 <= i <= |rotated|
        invariant ranked == SortByActive(pools, rotated[i..])
      {
        i := i - 1;
        ranked := InsertByActive(pools, rotated[i], ranked);
        assert rotated[i..][1..] == rotated[i + 1..];
      }
      assert rotated[0..] == rotated;
    }

    /** One candidate, the first of `ranked`; None passes on to the others. */
    method TryCandidate(cfg: Config, key: PoolKey, ages: Ages, ghost ranked: seq<PoolKey>)
      returns (result: Option<CandidateResult>, ghost victim: Option<PoolKey>)
      requires ranked != [] && ranked[0] == key
      modifies this`pools, this`nextId
      ensures result.Some? ==> Tried(cfg, ages, old(pools), ranked, old(nextId), victim, pools, result.value)
      ensures result.None? ==> Continues(cfg, ages, old(pools), ranked, old(nextId), pools, ranked[1..]) && victim == None
      ensures nextId == if result.Some? && result.value.Claimed? then old(nextId) + 1 else old(nextId)
    {
      victim := None;
      var limits := ResolveLimits(cfg, key);
      var conn := PopIdle(key, ages);
      if conn.Some? {
        pools := Activate(pools, key, conn.value.id);
        TriedByReuse(cfg, ages, old(pools), ranked, nextId);
        return Some(GotIdle(key, conn.value)), None;
      }
      ghost var popped := pools;
      if limits.UserHasCapacity(pools[key].Total()) {
        var nodeTotal := CountNode(key.node, key.database);
        var room := limits.PoolHasCapacity(nodeTotal);
        if !room {
          var evicted := EvictIdleForNode(key);
          room, victim := evicted.Some?, evicted;
        }
        if room {
          pools := Activate(pools, key, nextId);
          TriedByClaim(cfg, ages, old(pools), ranked, nextId, victim, pools);
          nextId := nextId + 1;
          return Some(Claimed(key, nextId - 1)), victim;
        }
      }
      PopIdleTakesFirstLive(Get(old(pools), key).idle, ages);
      assert pools == popped == WithIdle(old(pools), key, []);
      TriedSkips(cfg, ages, old(pools), ranked, nextId);
      result := None;
    }

    /** One pass over the candidates. */
    method TryCandidates(cfg: Config, candidates: seq<PoolKey>, ages: Ages)
      returns (result: CandidateResult, ghost victim: Option<PoolKey>)
      modifies this
      ensures Tried(cfg, ages, old(pools), Ranked(old(pools), candidates, old(counter)), old(nextId), victim, pools, result)
      ensures nextId == if result.Claimed? then old(nextId) + 1 else old(nextId)
    {
      var ranked := Rank(candidates);
      victim := None;
      var i := 0;
      while i < |ranked|
        invariant 0 <= i <= |ranked| && nextId == old(nextId) && victim == None
        invariant Continues(cfg, ages, old(pools), ranked, nextId, pools, ranked[i..])
      {
        ghost var before, rest := pools, ranked[i..];
        var found, v := TryCandidate(cfg, ranked[i], ages, rest);
        if found.Some? {
          return found.value, v;
        }
        assert rest[1..] == ranked[i + 1..];
        ContinuesOn(cfg, ages, old(pools), ranked, nextId, before, rest, pools, ranked[i + 1..]);
        i := i + 1;
      }
      result := AllFull;
      assert Tried(cfg, ages, pools, ranked[i..], nextId, None, pools, AllFull);
    }

    /** A connection that failed, or a guard that was dropped. */
    method DiscardInternal(key: PoolKey, id: nat)
      modifies this`pools
      ensures pools == Discard(old(pools), key, id)
    {
      if key in pools {
        var pool := pools[key];
        pools := pools[key := pool.(active := pool.active - {id})];
      }
    }

    method Checkin(key: PoolKey, id: nat)
      modifies this`pools
      ensures pools == Lifecycle.Checkin(old(pools), key, id)
    {
      if key in pools {
        var pool := pools[key];
        pool := pool.(active := pool.active - {id});
        pool := pool.(resetting := pool.resetting + {id});
        pools := pools[key := pool];
      }
    }

    /** The end of a reset: back into the idle queue, or gone. */
    method FinishReset(key: PoolKey, id: nat, succeeded: bool, now: nat, createdAt: nat) returns (returned: bool)
      modifies this`pools
      ensures pools == if succeeded then Return(old(pools), key, IdleConn(id, now, createdAt))
            else DropReset(old(pools), key, id)
      ensures returned <==> succeeded && key in old(pools)
    {
      returned := false;
      if key in pools {
        var pool := pools[key];
        pool := pool.(resetting := pool.resetting - {id});
        if succeeded {
          pool := pool.(idle := pool.idle + [IdleConn(id, now, createdAt)]);
          returned := true;
        }
        pools := pools[key := pool];
      }
    }

    /** A connection opened by the refill task. */
    method InsertRefill(key: PoolKey, now: nat, createdAt: nat)
      modifies this`pools, this`nextId
      ensures pools == Refill(old(pools), key, IdleConn(old(nextId), now, createdAt)) && nextId == old(nextId) + 1
    {
      var pool := Get(pools, key);
      pools := pools[key := pool.(idle := pool.idle + [IdleConn(nextId, now, createdAt)])];
      nextId := nextId + 1;
    }

    // -------------------------------------------------------------------
    // Scavenging and draining
    // -------------------------------------------------------------------

    /** Returns how many connections are gone, over all pools. */
    method ScavengeIdle(cfg: Config, now: nat, alive: nat -> bool) returns (removed: nat)
      modifies this`pools
      ensures pools == Scavenge(cfg, old(pools), now, alive)
      ensures removed + IdleTotal(pools, pools.Keys) == IdleTotal(old(pools), old(pools).Keys)
    {
      removed := 0;
      var left := pools.Keys;
      ghost var was, swept := pools, Scavenge(cfg, pools, now, alive);
      while left != {}
        invariant Halfway(pools, was, swept, left)
        invariant removed + IdleTotal(swept, was.Keys) + IdleTotal(was, left)
               == IdleTotal(was, was.Keys) + IdleTotal(swept, left)
        decreases left
      {
        var k :| k in left;
        var kept, gone := RetainBoth(pools[k].idle, AgesFor(cfg, k, now), MinForKey(cfg, k), alive);
        assert pools[k].(idle := kept) == swept[k] && |was[k].idle| == |swept[k].idle| + gone;
        IdleTotalPick(was, left, k);
        IdleTotalPick(swept, left, k);
        HalfwayOn(pools, was, swept, left, k);
        pools := pools[k := pools[k].(idle := kept)];
        removed := removed + gone;
        left := left - {k};
      }
      assert pools == swept;
    }

    method DrainNode(node: string)
      modifies this`pools
      ensures pools == Lifecycle.DrainNode(old(pools), node)
    {
      var left := pools.Keys;
      while left != {}
        invariant pools.Keys == old(pools).Keys && left <= pools.Keys
        invariant forall k :: k in pools && k in left ==> pools[k] == old(pools)[k]
        invariant forall k :: k in pools && k !in left ==> pools[k] == Lifecycle.DrainNode(old(pools), node)[k]
        decreases left
      {
        var k :| k in left;
        if k.node == node {
          pools := pools[k := pools[k].(idle := [])];
        }
        left := left - {k};
      }
    }

    method DrainAll()
      modifies this`pools
      ensures pools == Lifecycle.DrainAll(old(pools))
    {
      var left := pools.Keys;
      while left != {}
        invariant pools.Keys == old(pools).Keys && left <= pools.Keys
        invariant forall k :: k in pools ==> pools[k] == if k in left then old(pools)[k] else old(pools)[k].(idle := [])
        decreases left
      {
        var k :| k in left;
        pools := pools[k := pools[k].(idle := [])];
        left := left - {k};
      }
    }
  }

  /** The keys in `left` are as they were, the others are swept. */
  ghost predicate Halfway(pools: PoolMap, was: PoolMap, swept: PoolMap, left: set<PoolKey>) {
    && pools.Keys == was.Keys == swept.Keys && left <= was.Keys
    && forall k :: k in pools ==> pools[k] == if k in left then was[k] else swept[k]
  }

  lemma HalfwayOn(pools: PoolMap, was: PoolMap, swept: PoolMap, left: set<PoolKey>, k: PoolKey)
    requires Halfway(pools, was, swept, left) && k in left
    ensures Halfway(pools[k := swept[k]], was, swept, left - {k})
  {
  }

  /** First pass of the scavenger, a retain loop. */
  method RetainHealthy(idle: seq<IdleConn>, ages: Ages, alive: nat -> bool) returns (kept: seq<IdleConn>)
    ensures kept == Survivors(idle, ages, alive)
  {
    kept := [];
    var i := 0;
    while i < |idle|
      invariant 0 <= i <= |idle|
      invariant kept + Survivors(idle[i..], ages, alive) == Survivors(idle, ages, alive)
    {
      assert idle[i..][1..] == idle[i + 1..];
      if Healthy(idle[i], ages, alive) {
        assert kept + ([idle[i]] + Survivors(idle[i + 1..], ages, alive))
              == kept + [idle[i]] + Survivors(idle[i + 1..], ages, alive);
        kept := kept + [idle[i]];
      }
      i := i + 1;
    }
  }

  /** Second pass, a retain loop that counts what it dropped. */
  method RetainRecent(idle: seq<IdleConn>, ages: Ages, removable: nat) returns (kept: seq<IdleConn>)
    ensures kept == DropTimedOut(idle, ages, removable)
  {
    kept := [];
    var dropped, i := 0, 0;
    while i < |idle|
      invariant 0 <= i <= |idle| && 0 <= dropped <= removable
      invariant kept + DropTimedOut(idle[i..], ages, removable - dropped) == DropTimedOut(idle, ages, removable)
    {
      assert idle[i..][1..] == idle[i + 1..];
      if dropped < removable && TimedOut(idle[i], ages) {
        dropped := dropped + 1;
      } else {
        assert DropTimedOut(idle[i..], ages, removable - dropped)
              == [idle[i]] + DropTimedOut(idle[i + 1..], ages, removable - dropped);
        assert kept + ([idle[i]] + DropTimedOut(idle[i + 1..], ages, removable - dropped))
            == kept + [idle[i]] + DropTimedOut(idle[i + 1..], ages, removable - dropped);
        kept := kept + [idle[i]];
      }
      i := i + 1;
    }
  }

  /** Both passes over one queue, and how many connections went. */
  method RetainBoth(idle: seq<IdleConn>, ages: Ages, floor: nat, alive: nat -> bool)
    returns (kept: seq<IdleConn>, gone: nat)
    ensures kept == ScavengedIdle(idle, ages, floor, alive) && gone + |kept| == |idle|
  {
    var healthy := RetainHealthy(idle, ages, alive);
    var removable := if |healthy| > floor then |healthy| - floor else 0;
    kept := RetainRecent(healthy, ages, removable);
    SurvivorsAreSome(idle, ages, alive);
    ScavengedIsNoLonger(healthy, ages, removable);
    gone := |idle| - |kept|;
  }

  lemma TriedByReuse(cfg: Config, ages: Ages, pools: PoolMap, ranked: seq<PoolKey>, id: nat)
    requires ranked != [] && PopIdle(Get(pools, ranked[0]).idle, ages).0.Some?
    ensures var (conn, rest) := PopIdle(Get(pools, ranked[0]).idle, ages);
            var pools' := Activate(WithIdle(pools, ranked[0], rest), ranked[0], conn.value.id);
            Tried(cfg, ages, pools, ranked, id, None, pools', GotIdle(ranked[0], conn.value))
  {
  }

  lemma TriedByClaim(cfg: Config, ages: Ages, pools: PoolMap, ranked: seq<PoolKey>, id: nat, victim: Option<PoolKey>,
                     pools': PoolMap)
    requires ranked != [] && PopIdle(Get(pools, ranked[0]).idle, ages).0.None?
    requires var popped := WithIdle(pools, ranked[0], PopIdle(Get(pools, ranked[0]).idle, ages).1);
             var limits := ResolveLimits(cfg, ranked[0]);
             && limits.UserHasCapacity(popped[ranked[0]].Total())
             && if limits.PoolHasCapacity(NodeTotal(popped, ranked[0].node, ranked[0].database))
                then victim == None && pools' == Activate(popped, ranked[0], id)
                else && Evictable(popped, ranked[0]) && victim.Some? && IsVictim(popped, ranked[0], victim.value)
                     && pools' == Activate(Evict(popped, victim.value), ranked[0], id)
    ensures Tried(cfg, ages, pools, ranked, id, victim, pools', Claimed(ranked[0], id))
  {
  }

  /** A pass over `rest` from `now` ends as a pass over `ranked` from `was` may. */
  ghost predicate Continues(cfg: Config, ages: Ages, was: PoolMap, ranked: seq<PoolKey>, id: nat, now: PoolMap,
                            rest: seq<PoolKey>) {
    forall v, pools', r :: Tried(cfg, ages, now, rest, id, v, pools', r) ==> Tried(cfg, ages, was, ranked, id, v, pools', r)
  }

  lemma ContinuesOn(cfg: Config, ages: Ages, was: PoolMap, ranked: seq<PoolKey>, id: nat, now: PoolMap, rest: seq<PoolKey>,
                    later: PoolMap, rest': seq<PoolKey>)
    requires Continues(cfg, ages, was, ranked, id, now, rest) && Continues(cfg, ages, now, rest, id, later, rest')
    ensures Continues(cfg, ages, was, ranked, id, later, rest')
  {
  }

  /** A saturated candidate is passed over: trying the others from here is trying them all. */
  lemma TriedSkips(cfg: Config, ages: Ages, pools: PoolMap, ranked: seq<PoolKey>, id: nat)
    requires ranked != [] && Saturated(cfg, ages, pools, ranked[0])
    ensures Continues(cfg, ages, pools, ranked, id, WithIdle(pools, ranked[0], []), ranked[1..])
  {
    PopIdleTakesFirstLive(Get(pools, ranked[0]).idle, ages);
  }
}
