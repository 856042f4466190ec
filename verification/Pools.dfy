/** The connection pools: what they hold, the limits on them, and their totals. */
module Pools {
  import opened Options

  datatype PoolKey = PoolKey(node: string, database: string, user: string)

  datatype IdleConn = IdleConn(id: nat, idleSince: nat, createdAt: nat)

  datatype Pool = Pool(idle: seq<IdleConn>, active: set<nat>, resetting: set<nat>) {
    function Total(): nat {
      |active| + |idle| + |resetting|
    }
  }

  const NO_POOL := Pool([], {}, {})

  type PoolMap = map<PoolKey, Pool>

  function Get(pools: PoolMap, key: PoolKey): Pool {
    if key in pools then pools[key] else NO_POOL
  }

  // ---------------------------------------------------------------------
  // Configuration and limits
  // ---------------------------------------------------------------------

  datatype PerRole = PerRole(primary: nat, replica: nat)
  datatype UserConfig = UserConfig(maxConnections: Option<PerRole>, minConnections: PerRole)
  datatype Topology = Topology(primary: Option<string>, replicas: seq<string>)
  datatype PoolConfig = PoolConfig(topology: Topology, maxConnections: PerRole, users: map<string, UserConfig>,
                                   idleTimeout: nat, maxLifetime: nat)

  /** The configured databases, each with the topology of its cluster. */
  type Config = map<string, PoolConfig>

  datatype NodeRole = Primary | Replica | Unknown

  function RoleForNode(t: Topology, node: string): NodeRole {
    if t.primary == Some(node) then Primary
    else if node in t.replicas then Replica
    else Unknown
  }

  function ForRole(n: PerRole, role: NodeRole): nat {
    match role
    case Primary => n.primary
    case Replica => n.replica
    case Unknown => 0
  }

  datatype Limits = Limits(poolMax: nat, userMax: Option<nat>) {
    predicate UserHasCapacity(userTotal: nat) {
      userMax.Some? ==> userTotal < userMax.value
    }

    predicate PoolHasCapacity(nodeTotal: nat) {
      nodeTotal < poolMax
    }
  }

  /** The node limit depends on the node and the database only. */
  function PoolMax(cfg: Config, node: string, database: string): nat {
    if database !in cfg then 0
    else ForRole(cfg[database].maxConnections, RoleForNode(cfg[database].topology, node))
  }

  function ResolveLimits(cfg: Config, key: PoolKey): Limits {
    if key.database !in cfg then Limits(0, Some(0))
    else
      var pool := cfg[key.database];
      var role := RoleForNode(pool.topology, key.node);
      var userMax := if key.user in pool.users && pool.users[key.user].maxConnections.Some?
                     then Some(ForRole(pool.users[key.user].maxConnections.value, role)) else None;
      Limits(PoolMax(cfg, key.node, key.database), userMax)
  }

  function MinForKey(cfg: Config, key: PoolKey): nat {
    if key.database !in cfg || key.user !in cfg[key.database].users then 0
    else ForRole(cfg[key.database].users[key.user].minConnections, RoleForNode(cfg[key.database].topology, key.node))
  }

  // ---------------------------------------------------------------------
  // Idle connections
  // ---------------------------------------------------------------------

  datatype Ages = Ages(now: nat, idleTimeout: nat, maxLifetime: nat)

  function Elapsed(now: nat, since: nat): nat {
    if now >= since then now - since else 0
  }

  predicate Expired(c: IdleConn, ages: Ages) {
    Elapsed(ages.now, c.idleSince) > ages.idleTimeout || Elapsed(ages.now, c.createdAt) > ages.maxLifetime
  }

  /** The first connection that is not expired, and what is left behind it. */
  function PopIdle(idle: seq<IdleConn>, ages: Ages): (Option<IdleConn>, seq<IdleConn>) {
    if idle == [] then (None, [])
    else if Expired(idle[0], ages) then PopIdle(idle[1..], ages)
    else (Some(idle[0]), idle[1..])
  }

  /** `PopIdle` skips exactly the expired connections in front. */
  lemma {:induction false} PopIdleTakesFirstLive(idle: seq<IdleConn>, ages: Ages)
    ensures var (c, rest) := PopIdle(idle, ages);
            && |rest| <= |idle| && rest == idle[|idle| - |rest|..]
            && (c.None? <==> forall x :: x in idle ==> Expired(x, ages))
            && (c.None? ==> rest == [])
            && (c.Some? ==>
                  && |rest| < |idle| && idle[|idle| - |rest| - 1] == c.value && !Expired(c.value, ages)
                  && forall i :: 0 <= i < |idle| - |rest| - 1 ==> Expired(idle[i], ages))
  {
    if idle != [] && Expired(idle[0], ages) {
      PopIdleTakesFirstLive(idle[1..], ages);
      assert idle == [idle[0]] + idle[1..];
    }
  }

  // ---------------------------------------------------------------------
  // Totals
  // ---------------------------------------------------------------------

  predicate At(key: PoolKey, node: string, database: string) {
    key.node == node && key.database == database
  }

  function Share(pools: PoolMap, key: PoolKey, node: string, database: string): nat {
    if At(key, node, database) then Get(pools, key).Total() else 0
  }

  ghost function Sum(pools: PoolMap, keys: set<PoolKey>, node: string, database: string): nat {
    if keys == {} then 0
    else
      var k :| k in keys;
      Share(pools, k, node, database) + Sum(pools, keys - {k}, node, database)
  }

  /** Physical connections of a node and database over all users. */
  ghost function NodeTotal(pools: PoolMap, node: string, database: string): nat {
    Sum(pools, pools.Keys, node, database)
  }

  lemma {:induction false} SumPick(pools: PoolMap, keys: set<PoolKey>, k: PoolKey, node: string, database: string)
    requires k in keys
    ensures Sum(pools, keys, node, database) == Share(pools, k, node, database) + Sum(pools, keys - {k}, node, database)
    decreases keys
  {
    var first :| first in keys && Sum(pools, keys, node, database)
      == Share(pools, first, node, database) + Sum(pools, keys - {first}, node, database);
    if first != k {
      SumPick(pools, keys - {first}, k, node, database);
      SumPick(pools, keys - {k}, first, node, database);
      assert keys - {first} - {k} == keys - {k} - {first};
    }
  }

  lemma {:induction false} SumAtMost(pools: PoolMap, more: PoolMap, keys: set<PoolKey>, node: string, database: string)
    requires forall k :: k in keys ==> Share(pools, k, node, database) <= Share(more, k, node, database)
    ensures Sum(pools, keys, node, database) <= Sum(more, keys, node, database)
    decreases keys
  {
    if keys != {} {
      var k :| k in keys;
      SumPick(pools, keys, k, node, database);
      SumPick(more, keys, k, node, database);
      SumAtMost(pools, more, keys - {k}, node, database);
    }
  }

  /** Keys without connections add nothing. */
  lemma {:induction false} SumIgnoresEmpty(pools: PoolMap, keys: set<PoolKey>, more: set<PoolKey>, node: string,
                                        database: string)
    requires keys <= more && forall k :: k in more - keys ==> Share(pools, k, node, database) == 0
    ensures Sum(pools, more, node, database) == Sum(pools, keys, node, database)
    decreases more
  {
    if k :| k in more && k !in keys {
      SumPick(pools, more, k, node, database);
      SumIgnoresEmpty(pools, keys, more - {k}, node, database);
    } else {
      assert more == keys;
    }
  }

  /** Pointwise no more connections, no larger total; equal shares, equal totals. */
  lemma NodeTotalAtMost(pools: PoolMap, more: PoolMap, node: string, database: string)
    requires forall k :: Share(pools, k, node, database) <= Share(more, k, node, database)
    ensures NodeTotal(pools, node, database) <= NodeTotal(more, node, database)
  {
    var keys := pools.Keys + more.Keys;
    SumIgnoresEmpty(pools, pools.Keys, keys, node, database);
    SumIgnoresEmpty(more, more.Keys, keys, node, database);
    SumAtMost(pools, more, keys, node, database);
  }

  lemma NodeTotalUpdate(pools: PoolMap, key: PoolKey, p: Pool, node: string, database: string)
    ensures NodeTotal(pools[key := p], node, database) + Share(pools, key, node, database)
         == NodeTotal(pools, node, database) + (if At(key, node, database) then p.Total() else 0)
  {
    var keys := pools.Keys + {key};
    var pools' := pools[key := p];
    SumIgnoresEmpty(pools, pools.Keys, keys, node, database);
    SumPick(pools, keys, key, node, database);
    SumPick(pools', keys, key, node, database);
    var rest := keys - {key};
    assert forall k :: k in rest ==> Share(pools, k, node, database) == Share(pools', k, node, database);
    SumAtMost(pools, pools', rest, node, database);
    SumAtMost(pools', pools, rest, node, database);
    assert pools'.Keys == keys;
  }
}
