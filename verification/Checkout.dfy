/** Choosing a connection: idle reuse, a claim, or an eviction for it. */
module Checkout {
  import opened Options
  import opened Pools

  datatype CandidateResult = GotIdle(key: PoolKey, conn: IdleConn) | Claimed(key: PoolKey, id: nat) | AllFull

  function ActiveCount(pools: PoolMap, key: PoolKey): nat {
    |Get(pools, key).active|
  }

  // ---------------------------------------------------------------------
  // Ranking
  // ---------------------------------------------------------------------

  function InsertByActive(pools: PoolMap, key: PoolKey, sorted: seq<PoolKey>): seq<PoolKey> {
    if sorted == [] || ActiveCount(pools, key) <= ActiveCount(pools, sorted[0]) then [key] + sorted
    else [sorted[0]] + InsertByActive(pools, key, sorted[1..])
  }

  /** The stable sort by active count. */
  function SortByActive(pools: PoolMap, keys: seq<PoolKey>): seq<PoolKey> {
    if keys == [] then [] else InsertByActive(pools, keys[0], SortByActive(pools, keys[1..]))
  }

  /** Rotated by the round-robin counter, then sorted. */
  function Ranked(pools: PoolMap, candidates: seq<PoolKey>, counter: nat): seq<PoolKey> {
    if |candidates| <= 1 then candidates
    else
      var start := counter % |candidates|;
      SortByActive(pools, candidates[start..] + candidates[..start])
  }

  ghost predicate LeastActiveFirst(pools: PoolMap, keys: seq<PoolKey>) {
    forall i, j :: 0 <= i < j < |keys| ==> ActiveCount(pools, keys[i]) <= ActiveCount(pools, keys[j])
  }

  ghost predicate AtLeast(pools: PoolMap, keys: seq<PoolKey>, bound: nat) {
    forall i :: 0 <= i < |keys| ==> bound <= ActiveCount(pools, keys[i])
  }

  lemma {:induction false} InsertKeepsBound(pools: PoolMap, key: PoolKey, sorted: seq<PoolKey>, bound: nat)
    requires AtLeast(pools, sorted, bound) && bound <= ActiveCount(pools, key)
    ensures AtLeast(pools, InsertByActive(pools, key, sorted), bound)
  {
    if sorted != [] && ActiveCount(pools, key) > ActiveCount(pools, sorted[0]) {
      InsertKeepsBound(pools, key, sorted[1..], bound);
    }
  }

  lemma {:induction false} InsertAdds(pools: PoolMap, key: PoolKey, sorted: seq<PoolKey>)
    ensures multiset(InsertByActive(pools, key, sorted)) == multiset(sorted) + multiset{key}
  {
    if sorted != [] && ActiveCount(pools, key) > ActiveCount(pools, sorted[0]) {
      InsertAdds(pools, key, sorted[1..]);
      assert sorted == [sorted[0]] + sorted[1..];
    }
  }

  lemma {:induction false} InsertKeepsOrder(pools: PoolMap, key: PoolKey, sorted: seq<PoolKey>)
    requires LeastActiveFirst(pools, sorted)
    ensures LeastActiveFirst(pools, InsertByActive(pools, key, sorted))
  {
    if sorted != [] && ActiveCount(pools, key) > ActiveCount(pools, sorted[0]) {
      InsertKeepsOrder(pools, key, sorted[1..]);
      InsertKeepsBound(pools, key, sorted[1..], ActiveCount(pools, sorted[0]));
    }
  }

  lemma {:induction false} SortPermutes(pools: PoolMap, keys: seq<PoolKey>)
    ensures multiset(SortByActive(pools, keys)) == multiset(keys)
  {
    if keys != [] {
      SortPermutes(pools, keys[1..]);
      InsertAdds(pools, keys[0], SortByActive(pools, keys[1..]));
      assert keys == [keys[0]] + keys[1..];
    }
  }

  lemma {:induction false} SortSorts(pools: PoolMap, keys: seq<PoolKey>)
    ensures LeastActiveFirst(pools, SortByActive(pools, keys))
  {
    if keys != [] {
      SortSorts(pools, keys[1..]);
      InsertKeepsOrder(pools, keys[0], SortByActive(pools, keys[1..]));
    }
  }

  /** The ranking permutes the candidates, least active first. */
  lemma RankedIsSorted(pools: PoolMap, candidates: seq<PoolKey>, counter: nat)
    ensures LeastActiveFirst(pools, Ranked(pools, candidates, counter))
    ensures multiset(Ranked(pools, candidates, counter)) == multiset(candidates)
  {
    if |candidates| > 1 {
      var start := counter % |candidates|;
      SortSorts(pools, candidates[start..] + candidates[..start]);
      SortPermutes(pools, candidates[start..] + candidates[..start]);
      assert candidates == candidates[..start] + candidates[start..];
    }
  }

  /** The candidates with this many active connections, in order. */
  function WithLoad(pools: PoolMap, keys: seq<PoolKey>, load: nat): seq<PoolKey> {
    if keys == [] then []
    else (if ActiveCount(pools, keys[0]) == load then [keys[0]] else []) + WithLoad(pools, keys[1..], load)
  }

  lemma {:induction false} InsertComesFirst(pools: PoolMap, key: PoolKey, sorted: seq<PoolKey>, load: nat)
    ensures WithLoad(pools, InsertByActive(pools, key, sorted), load) == WithLoad(pools, [key] + sorted, load)
  {
    assert ([key] + sorted)[1..] == sorted;
    if sorted != [] && ActiveCount(pools, key) > ActiveCount(pools, sorted[0]) {
      InsertComesFirst(pools, key, sorted[1..], load);
      assert ([key] + sorted[1..])[1..] == sorted[1..];
      assert InsertByActive(pools, key, sorted)[1..] == InsertByActive(pools, key, sorted[1..]);
    }
  }

  lemma {:induction false} SortIsStable(pools: PoolMap, keys: seq<PoolKey>, load: nat)
    ensures WithLoad(pools, SortByActive(pools, keys), load) == WithLoad(pools, keys, load)
  {
    if keys != [] {
      var sorted := SortByActive(pools, keys[1..]);
      SortIsStable(pools, keys[1..], load);
      InsertComesFirst(pools, keys[0], sorted, load);
      assert ([keys[0]] + sorted)[1..] == sorted;
    }
  }

  /** Once around, from the position of the counter. */
  function InTurn(candidates: seq<PoolKey>, counter: nat): seq<PoolKey> {
    seq(|candidates|, i requires 0 <= i < |candidates| => candidates[(counter + i) % |candidates|])
  }

  /** Among candidates with equally many active connections the turn goes around with the
      counter. */
  lemma EquallyLoadedTakeTurns(pools: PoolMap, candidates: seq<PoolKey>, counter: nat, load: nat)
    ensures WithLoad(pools, Ranked(pools, candidates, counter), load) == WithLoad(pools, InTurn(candidates, counter), load)
  {
    if |candidates| <= 1 {
      assert InTurn(candidates, counter) == candidates;
    } else {
      var n := |candidates|;
      var start := counter % n;
      var rotated := candidates[start..] + candidates[..start];
      forall i | 0 <= i < n
        ensures rotated[i] == InTurn(candidates, counter)[i]
      {
        Around(counter, i, n);
      }
      assert rotated == InTurn(candidates, counter);
      SortIsStable(pools, rotated, load);
    }
  }

  lemma Around(counter: nat, i: nat, n: nat)
    requires i < n
    ensures (counter + i) % n == if counter % n + i < n then counter % n + i else counter % n + i - n
  {
    var q, r := counter / n, counter % n;
    assert counter + i == q * n + (r + i);
    if r + i < n {
      ModOf(q, r + i, n);
    } else {
      assert q * n + (r + i) == (q + 1) * n + (r + i - n);
      ModOf(q + 1, r + i - n, n);
    }
  }

  lemma ModOf(q: nat, r: nat, n: nat)
    requires r < n
    ensures (q * n + r) % n == r
  {
    var m := q * n + r;
    assert m == (m / n) * n + m % n;
    assert (m / n - q) * n == r - m % n;
    SmallMultiple(m / n - q, n);
  }

  lemma SmallMultiple(d: int, n: int)
    requires -n < d * n < n
    ensures d == 0
  {
  }

  // ---------------------------------------------------------------------
  // Trying the candidates
  // ---------------------------------------------------------------------

  ghost predicate Evictable(pools: PoolMap, key: PoolKey) {
    exists v :: v in pools && At(v, key.node, key.database) && pools[v].idle != []
  }

  /** `v` holds the idle connection that waits longest among the fronts of the queues of
      this node and database. */
  ghost predicate IsVictim(pools: PoolMap, key: PoolKey, v: PoolKey) {
    && v in pools && At(v, key.node, key.database) && pools[v].idle != []
    && forall k :: k in pools && At(k, key.node, key.database) && pools[k].idle != [] ==>
         pools[v].idle[0].idleSince <= pools[k].idle[0].idleSince
  }

  function Evict(pools: PoolMap, v: PoolKey): PoolMap
    requires v in pools && pools[v].idle != []
  {
    pools[v := pools[v].(idle := pools[v].idle[1..])]
  }

  function WithIdle(pools: PoolMap, key: PoolKey, idle: seq<IdleConn>): PoolMap {
    pools[key := Get(pools, key).(idle := idle)]
  }

  function Activate(pools: PoolMap, key: PoolKey, id: nat): PoolMap {
    pools[key := Get(pools, key).(active := Get(pools, key).active + {id})]
  }

  /** What one pass over the ranked candidates does. `victim` is the queue an eviction took
      from; ties between queues are broken by the map's own order, which is left open. */
  ghost predicate Tried(cfg: Config, ages: Ages, pools: PoolMap, ranked: seq<PoolKey>, id: nat,
                        victim: Option<PoolKey>, pools': PoolMap, result: CandidateResult)
    decreases |ranked|
  {
    if ranked == [] then victim == None && pools' == pools && result == AllFull
    else
      var key := ranked[0];
      var (conn, rest) := PopIdle(Get(pools, key).idle, ages);
      var popped := WithIdle(pools, key, rest);
      var limits := ResolveLimits(cfg, key);
      if conn.Some? then
        victim == None && pools' == Activate(popped, key, conn.value.id) && result == GotIdle(key, conn.value)
      else if !limits.UserHasCapacity(popped[key].Total()) then
        Tried(cfg, ages, popped, ranked[1..], id, victim, pools', result)
      else if limits.PoolHasCapacity(NodeTotal(popped, key.node, key.database)) then
        victim == None && pools' == Activate(popped, key, id) && result == Claimed(key, id)
      else if Evictable(popped, key) then
        && victim.Some? && IsVictim(popped, key, victim.value)
        && pools' == Activate(Evict(popped, victim.value), key, id) && result == Claimed(key, id)
      else
        Tried(cfg, ages, popped, ranked[1..], id, victim, pools', result)
  }

  // ---------------------------------------------------------------------
  // Least loaded and work conserving
  // ---------------------------------------------------------------------

  /** Nothing can be had for `key`: no live idle connection, and either the user is at its
      cap or the node is at its cap with nothing to evict. */
  ghost predicate Saturated(cfg: Config, ages: Ages, pools: PoolMap, key: PoolKey) {
    && (forall c :: c in Get(pools, key).idle ==> Expired(c, ages))
    && var swept := WithIdle(pools, key, []);
       var limits := ResolveLimits(cfg, key);
       || !limits.UserHasCapacity(swept[key].Total())
       || (!limits.PoolHasCapacity(NodeTotal(swept, key.node, key.database)) && !Evictable(swept, key))
  }

  /** The pools agree on every key of the node. */
  ghost predicate SameAt(a: PoolMap, b: PoolMap, node: string) {
    forall k: PoolKey :: k.node == node ==> Get(a, k) == Get(b, k)
  }

  lemma SaturatedLocal(cfg: Config, ages: Ages, a: PoolMap, b: PoolMap, key: PoolKey)
    requires SameAt(a, b, key.node)
    ensures Saturated(cfg, ages, a, key) <==> Saturated(cfg, ages, b, key)
  {
    var sa, sb := WithIdle(a, key, []), WithIdle(b, key, []);
    assert SameAt(sa, sb, key.node);
    NodeTotalAtMost(sa, sb, key.node, key.database);
    NodeTotalAtMost(sb, sa, key.node, key.database);
    EvictableLocal(sa, sb, key);
    EvictableLocal(sb, sa, key);
  }

  lemma EvictableLocal(a: PoolMap, b: PoolMap, key: PoolKey)
    requires SameAt(a, b, key.node)
    ensures Evictable(a, key) ==> Evictable(b, key)
  {
    if v :| v in a && At(v, key.node, key.database) && a[v].idle != [] {
      assert Get(a, v) == Get(b, v);
    }
  }

  ghost predicate DistinctNodes(keys: seq<PoolKey>) {
    forall i, j :: 0 <= i < j < |keys| ==> keys[i].node != keys[j].node
  }

  function Chosen(result: CandidateResult): Option<PoolKey> {
    match result
    case GotIdle(key, _) => Some(key)
    case Claimed(key, _) => Some(key)
    case AllFull => None
  }

  /** The pass stops at the first candidate that is not saturated. */
  lemma {:induction false} StopsAtFirstUnsaturated(cfg: Config, ages: Ages, pools: PoolMap, ranked: seq<PoolKey>, id: nat,
                                                   victim: Option<PoolKey>, pools': PoolMap, result: CandidateResult)
    requires Tried(cfg, ages, pools, ranked, id, victim, pools', result) && DistinctNodes(ranked)
    ensures match Chosen(result)
            case None => forall k :: k in ranked ==> Saturated(cfg, ages, pools, k)
            case Some(key) => exists i :: 0 <= i < |ranked| && ranked[i] == key && !Saturated(cfg, ages, pools, key)
                                && forall j :: 0 <= j < i ==> Saturated(cfg, ages, pools, ranked[j])
    decreases |ranked|
  {
    if ranked != [] {
      var key := ranked[0];
      var (conn, rest) := PopIdle(Get(pools, key).idle, ages);
      PopIdleTakesFirstLive(Get(pools, key).idle, ages);
      var popped := WithIdle(pools, key, rest);
      if conn.None? && Saturated(cfg, ages, pools, key) {
        assert popped == WithIdle(pools, key, []);
        StopsAtFirstUnsaturated(cfg, ages, popped, ranked[1..], id, victim, pools', result);
        forall k | k in ranked[1..]
          ensures Saturated(cfg, ages, popped, k) <==> Saturated(cfg, ages, pools, k)
        {
          assert SameAt(popped, pools, k.node);
          SaturatedLocal(cfg, ages, popped, pools, k);
        }
        if Chosen(result).Some? {
          var i :| 0 <= i < |ranked[1..]| && ranked[1..][i] == Chosen(result).value
                && !Saturated(cfg, ages, popped, ranked[1..][i])
                && forall j :: 0 <= j < i ==> Saturated(cfg, ages, popped, ranked[1..][j]);
          assert ranked[i + 1] == ranked[1..][i];
          forall j | 0 <= j < i + 1
            ensures Saturated(cfg, ages, pools, ranked[j])
          {
            assert j > 0 ==> ranked[j] == ranked[1..][j - 1];
          }
        }
      } else {
        assert conn.Some? ==> conn.value in Get(pools, key).idle;
        assert Chosen(result) == Some(key) && ranked[0] == key;
      }
    }
  }

  /** Least loaded and work conserving: all candidates are reported full exactly when each is
      saturated; otherwise the chosen one is not saturated, and every candidate with
      strictly fewer active connections is. */
  lemma ChoiceIsLeastLoaded(cfg: Config, ages: Ages, pools: PoolMap, candidates: seq<PoolKey>, counter: nat, id: nat,
                            victim: Option<PoolKey>, pools': PoolMap, result: CandidateResult)
    requires Tried(cfg, ages, pools, Ranked(pools, candidates, counter), id, victim, pools', result)
    requires DistinctNodes(candidates)
    ensures result == AllFull <==> forall k :: k in candidates ==> Saturated(cfg, ages, pools, k)
    ensures Chosen(result).Some? ==>
              && Chosen(result).value in candidates && !Saturated(cfg, ages, pools, Chosen(result).value)
              && forall k :: k in candidates && ActiveCount(pools, k) < ActiveCount(pools, Chosen(result).value) ==>
                   Saturated(cfg, ages, pools, k)
  {
    var ranked := Ranked(pools, candidates, counter);
    RankedIsSorted(pools, candidates, counter);
    PermutationKeepsElements(candidates, ranked);
    PermutationKeepsDistinctNodes(candidates, ranked);
    StopsAtFirstUnsaturated(cfg, ages, pools, ranked, id, victim, pools', result);
    if Chosen(result).Some? {
      var i :| 0 <= i < |ranked| && ranked[i] == Chosen(result).value
            && forall j :: 0 <= j < i ==> Saturated(cfg, ages, pools, ranked[j]);
      forall k | k in candidates && ActiveCount(pools, k) < ActiveCount(pools, ranked[i])
        ensures Saturated(cfg, ages, pools, k)
      {
        LighterIsEarlier(pools, ranked, i, k);
      }
    }
  }

  lemma PermutationKeepsElements(a: seq<PoolKey>, b: seq<PoolKey>)
    requires multiset(a) == multiset(b)
    ensures forall k :: k in a <==> k in b
  {
    forall k
      ensures k in a <==> k in b
    {
      assert k in multiset(a) <==> k in multiset(b);
    }
  }

  lemma LighterIsEarlier(pools: PoolMap, ranked: seq<PoolKey>, i: nat, k: PoolKey)
    requires LeastActiveFirst(pools, ranked) && i < |ranked| && k in ranked
    requires ActiveCount(pools, k) < ActiveCount(pools, ranked[i])
    ensures exists j :: 0 <= j < i && ranked[j] == k
  {
    var j :| 0 <= j < |ranked| && ranked[j] == k;
  }

  lemma PermutationKeepsDistinctNodes(a: seq<PoolKey>, b: seq<PoolKey>)
    requires multiset(a) == multiset(b) && DistinctNodes(a)
    ensures DistinctNodes(b)
  {
    forall i, j | 0 <= i < j < |b|
      ensures b[i].node != b[j].node
    {
      if b[i].node == b[j].node {
        assert b[i] in multiset(a) && b[j] in multiset(a);
        var p :| 0 <= p < |a| && a[p] == b[i];
        var q :| 0 <= q < |a| && a[q] == b[j];
        assert p == q;
        assert b[i] == b[j];
        assert multiset(b)[b[i]] >= 2 by {
          assert b == b[..i] + [b[i]] + b[i + 1..j] + [b[j]] + b[j + 1..];
        }
        assert multiset(a)[a[p]] >= 2;
        OnceInDistinct(a, p);
      }
    }
  }

  lemma OnceInDistinct(a: seq<PoolKey>, p: nat)
    requires DistinctNodes(a) && p < |a|
    ensures multiset(a)[a[p]] == 1
  {
    assert a == a[..p] + [a[p]] + a[p + 1..];
    assert a[p] !in a[..p] && a[p] !in a[p + 1..];
    assert multiset(a) == multiset(a[..p]) + multiset([a[p]]) + multiset(a[p + 1..]);
  }
}
