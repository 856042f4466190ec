# Verification model of Halephant

Halephant is a PostgreSQL connection pooler. This project models its stateful parts in Dafny
and proves what they promise over every run.

**Prepared statements** (`Lru`, `Server`, `Connection`, `Names`, `Rewriting`, `Prepared`,
`Virtualization`, `Transparency`, `Relay`, `ErrorRecovery`, `CanonicalName`). Many clients share few
backends. Each client Parse is renamed to a canonical name, a ref-counted store keeps the
statement, each backend has an LRU-bounded optimistic cache, missing statements are prepared
silently, evicted ones are closed silently, and two FIFOs decide which replies the client sees.
`Virtualization` is the step system: clients arrive, check a connection out, send, read, leave
or are cancelled; backends execute or fail messages one at a time; in-flight queues are
explicit. The backend follows section 55.2.3 of the PostgreSQL 16 documentation. The labels
`origin`, `id` and `wanted` on messages are read by no decision; the theorems use them to say
whose message is whose.

**Connection pool** (`Pools`, `Checkout`, `Lifecycle`, `PoolManager`, `PoolRuns`, `Capacity`,
`Configured`). Each region under the pool lock is one step; connects and resets finish in their own
steps; time may pass between any two. `Place` is where an issued id is. `Configured` states the
limits in the numbers of the configuration and in connections counted one by one.

**LISTEN multiplexer** (`Listener`, `ListenerRuns`). Reference counts, the command queue, and a
server connection that may be lost at any point, also with a command taken from the queue or in
the middle of a restore.

**Wire codec** (`Bytes`, `Primitives`, `Frontend`, `Backend`, `Codec`, `Coding`, `Forwarding`,
`Layout`, `Utf8`, `Documented`). Printer, parser and incremental framing. `Layout` writes down the
formats of section 55.7 of the PostgreSQL 16 documentation field by field, apart from printer and
parser; `Documented` says that the decoder accepts what they say. A Rust string is the sequence of
its UTF-8 bytes.

**SQL scanners** (`Scanners`, `Lexer`). Quoted identifiers, nested comments, the dollar-quote
matcher, and the start of the statement parser.

**Session settings** (`Settings`, `Holds`, `StrayReplies`). One pooled connection over any number
of holds, with savepoints and chained transactions: what `dirty_vars` tracks, pinning by LISTEN,
the release at ReadyForQuery(Idle), the reset before the connection goes back to the pool, what
its reply loop reads, and whose answers the next client is told when it reads too little.

Code that updates state is a class or a method with the loops of the source, proved against a
specification function; the step systems use the same functions.

Five properties are false of the code without a condition, and the exact condition is proved:

- canonical names hash query text and type oids without a separator, so a use may run another
  client's statement (`TransparentIffNamesDistinct`, `UnseparatedHashBreaksTransparency`);
- after a backend error the cache is the backend's set only if the messages the error drops take
  nothing away (`CacheLacksExactlyTheOrphans`, `RollbackIsExactIff`, `WithoutCapExactIff`,
  `SkippedEvictionIsRejectedLater`);
- a connection may go back to the pool with a setting. The tracking forgets a variable at its
  RESET, also when ROLLBACK TO or the ROLLBACK of a chained or pinned transaction takes the RESET
  back, when it fails behind a savepoint, or when RESET ALL spares the variable; and session mode
  tracks nothing (`SavepointResetLeaks`, `ChainedResetLeaks`, `SparedSettingLeaks`,
  `RolledBackResetLeaks`, `SessionSetLeaks`). `LeaksExactly` says which settings survive a hold,
  `GuardIsExact` which reset is harmless in an unpinned hold, `HoldIsSafeIff` from where such a
  hold cannot end badly, and `UnpinnedHoldsLeaveNothing` that it does not when its resets are
  harmless;
- a client that leaves before its last ReadyForQuery(Idle) was read makes the reset take that
  reply for its own (`PooledWithUnreadReplies`, `OutstandingRepliesDecide`), and the next clients
  are told the answers to earlier queries (`AnswersAreShifted`, `OwnAnswerIffNoStaleIdle`);
- the server cuts long channel names, and is subscribed to what the clients are only if the cut
  keeps the names apart, as it does when none is longer than 63 bytes
  (`ExactIffNamesStayApart`).

Where the comment in the dollar-quote scanner says that an invalid tag consumes nothing more, the
code consumes the tag characters and the one that ended them; `BehindDollar` follows the code.

## Model

| member | source | states |
|---|---|---|
| `Lru.Lru.Insert` | crates/halephant-core/src/connections/server.rs:273-290 | a name that is already there moves to the end; otherwise the front one is evicted exactly when the cap is positive and reached; set and queue keep the same elements without duplicates |
| `Lru.Lru.Touch` | crates/halephant-core/src/connections/server.rs:293-296 | moves a name to the most recently used end; set and queue still agree iff the name was cached |
| `Lru.Lru.Evict` | crates/halephant-core/src/connections/server.rs:300-304 | takes the oldest name out of both collections |
| `Lru.Lru.Remove` | crates/halephant-core/src/connections/server.rs:314-317 | takes one name out of both collections and keeps the order of the others |
| `Lru.UsedKeepsCap` | crates/halephant-core/src/connections/server.rs:273-290 | a use never makes the cache exceed its cap |
| `Lru.CacheIsMostRecent` | crates/halephant-core/src/connections/server.rs:153-190 | after any history of uses the cache is exactly the `max` most recently used distinct names, oldest first; all of them when `max` is 0 |
| `Lru.EvictsLeastRecentlyUsed` | crates/halephant-core/src/connections/server.rs:273-290 | an eviction happens only at the cap and takes the name whose last use is oldest |
| `Server.PreparedStatements.NoteClientParse` | crates/halephant-core/src/connections/server.rs:153-161 | a hit is answered synthetically and recorded as a use; a miss is inserted, queues a forwarded reply and, with an eviction, a suppressed close |
| `Server.PreparedStatements.NoteReprepare` | crates/halephant-core/src/connections/server.rs:166-174 | the same for an injected Parse, whose reply is suppressed |
| `Server.PreparedStatements.RecordPrepare` | crates/halephant-core/src/connections/server.rs:180-190 | cache, Parse FIFO and Close FIFO grow together |
| `Server.PreparedStatements.NextParseReply` | crates/halephant-core/src/connections/server.rs:201-205 | pops the oldest disposition; forwards when there is none |
| `Server.PreparedStatements.NextCloseReply` | crates/halephant-core/src/connections/server.rs:208-210 | the same for closes |
| `Server.PreparedStatements.RollBackAfterError` | crates/halephant-core/src/connections/server.rs:217-222 | the pop loop empties both FIFOs and leaves exactly the cached names that no unconfirmed Parse carries |
| `Server.RollBackForgetsUnconfirmed` | crates/halephant-core/src/connections/server.rs:217-222 | after the rollback a name is cached exactly when it was cached and not pending |
| `Server.NotesGrowTogether` | crates/halephant-core/src/connections/server.rs:74-77 | every optimistic insert pairs with one queued reply disposition, and every eviction with one queued close |
| `Connection.SendParseKeeps` | crates/halephant-core/src/proxy/prepared.rs:162-191 | sending a client Parse (with its eviction Close in front) keeps: replaying what is in flight gives the cache, nothing in flight is rejected, and the FIFOs match the replies due |
| `Connection.EnsurePreparedKeeps` | crates/halephant-core/src/proxy/prepared.rs:241-270 | an injected re-prepare keeps the same, and afterwards the name will be prepared when the Bind or Describe arrives |
| `Connection.ExecKeeps` | crates/halephant-core/src/connections/server.rs:153-227 | whatever message the backend executes next, the simulation holds afterwards and the replies due are unchanged |
| `Connection.ReadFilters` | crates/halephant-core/src/proxy/transaction.rs:431-453 | reading a reply hands it to the client exactly when it answers a message the client sent |
| `Connection.UntrackedDiscardBreaks` | crates/halephant-core/src/proxy/session.rs:65-95 | session mode does not track DISCARD ALL: after one, cache and backend agree exactly when the cache was empty |
| `Names.RegisterKeepsExact` | crates/halephant-core/src/proxy/prepared.rs:88-103 | registering a name, new or replaced, keeps every count equal to the number of (client, name) pairs |
| `Names.RemoveKeepsExact` | crates/halephant-core/src/proxy/prepared.rs:113-117 | so does removing one |
| `Names.ReleaseAllKeepsExact` | crates/halephant-core/src/proxy/prepared.rs:121-126 | so does releasing all names of a client |
| `Names.ExactFinds` | crates/halephant-core/src/proxy/prepared.rs:249-260 | with exact counts the store has an entry for every name a client resolved |
| `Prepared.StatementStore.AddRef` | crates/halephant-core/src/pool/prepared.rs:37-43 | the first reference stores the statement, later ones count |
| `Prepared.StatementStore.Release` | crates/halephant-core/src/pool/prepared.rs:46-53 | the last reference removes the entry |
| `Prepared.ClientPrepared.Register` | crates/halephant-core/src/proxy/prepared.rs:88-103 | name map and store change as the value functions say |
| `Prepared.ClientPrepared.ReleaseAll` | crates/halephant-core/src/proxy/prepared.rs:121-126 | the loop over the names, in any order, releases each reference once |
| `Prepared.ServerConn.EnsurePrepared` | crates/halephant-core/src/proxy/prepared.rs:241-270 | touches on a hit; on a miss sends the eviction Close and the stored Parse; when the store misses nothing is sent and the tracker keeps the optimistic insert |
| `Prepared.ServerConn.RewriteOutbound` | crates/halephant-core/src/proxy/prepared.rs:154-209 | what is sent, what is answered at once and how map, store and tracker change, for each kind of message, also when the connection is given up |
| `Prepared.ServerConn.ForwardInbound` | crates/halephant-core/src/proxy/transaction.rs:421-453 | rolls back on an error, filters ParseComplete and CloseComplete by their FIFO, forwards the rest |
| `Prepared.AbsorbMessage` | crates/halephant-core/src/proxy/intercept.rs:22-85 | statement Close and DEALLOCATE change only the client's names and the store; a Close is answered by one CloseComplete, a DEALLOCATE by CommandComplete and ReadyForQuery with the status given |
| `Rewriting.AbsorbedReplies` | crates/halephant-core/src/proxy/intercept.rs:22-85 | a statement Close gets one CloseComplete and nothing else; DEALLOCATE of a name or of ALL exactly a CommandComplete whose tag spells DEALLOCATE and then ReadyForQuery with the status given |
| `Virtualization.RunsKeepSafe` | crates/halephant-core/src/proxy/prepared.rs:88-270 | in every run, with backend errors, cancelled clients and discarded connections: counts exact, every statement in store, on backends and in flight under its own canonical name |
| `Transparency.ReferenceCountsAreExact` | crates/halephant-core/src/pool/prepared.rs:37-58 | every run: a canonical name's count is the number of (client, name) pairs mapped to it, and the entry exists iff that is positive |
| `Transparency.EveryUseRunsTheLastParse` | crates/halephant-core/src/proxy/prepared.rs:154-270 | every run, any number of clients and backends, any cap: each Bind or Describe a backend executes uses exactly the statement the client last parsed under that name, if canonical names are distinct on the statements of the run |
| `Transparency.TransparentIffNamesDistinct` | crates/halephant-core/src/proxy/prepared.rs:50-65 | that condition is exact: transparency over a set of statements holds in all runs iff their canonical names are distinct |
| `Transparency.UnseparatedHashBreaksTransparency` | crates/halephant-core/src/proxy/prepared.rs:50-65 | for every hash, two concrete statements whose unseparated hash input coincides run for each other in an error-free run |
| `Transparency.CacheSimulatesBackend` | crates/halephant-core/src/connections/server.rs:153-227 | every error-free run, every connection: replaying the in-flight messages on the backend's set gives exactly the cache, no in-flight Parse hits a present name, no rewritten Bind or Describe an absent one, and the backend never exceeds the cap |
| `Transparency.RepliesAreTheClients` | crates/halephant-core/src/proxy/transaction.rs:431-453 | every error-free run: what a client was told is, in order, a prefix of the replies to its own messages, the rest is due; once drained, ParseCompletes, CloseCompletes and ReadyForQuerys, real and synthetic, equal its Parses, its Closes, and its Syncs and simple queries with the absorbed DEALLOCATEs |
| `Transparency.NothingBails` | crates/halephant-core/src/proxy/prepared.rs:249-260 | in no run does a client message fail for want of a stored Parse |
| `Relay.SendRelays` | crates/halephant-core/src/proxy/prepared.rs:154-209 | one client message in any state of any run: exactly its image goes on the wire (Parse, Bind and Describe under the canonical name of the statement last parsed under that name, everything else as it came), or nothing if it is a Parse that is answered on the spot, which happens iff the name is cached; besides it only the own Parses and Closes of the proxy |
| `Relay.WireIsTheClients` | crates/halephant-core/src/proxy/prepared.rs:154-209 | every run, with backend errors and any other clients: what is put on a connection while a client holds it, without the proxy's own Parses and Closes, is the image of that client's messages in order, without the Parses that are answered on the spot |
| `Transparency.CollisionRunsTheOther` | crates/halephant-core/src/proxy/prepared.rs:50-65 | two statements sharing a canonical name: a concrete error-free run executes the wrong one |
| `CanonicalName.SameHashInput` | crates/halephant-core/src/proxy/prepared.rs:50-55 | exactly when two statements are hashed from the same bytes |
| `CanonicalName.DistinctAtEqualCount` | crates/halephant-core/src/proxy/prepared.rs:50-65 | with equally many parameter types, names are equal iff statements are, under a hash that does not collide there |
| `CanonicalName.HashedBytes` | crates/halephant-core/src/proxy/prepared.rs:50-55 | the hash input is the query text and then four bytes for each parameter type, least significant first |
| `ErrorRecovery.RollbackIsSound` | crates/halephant-core/src/connections/server.rs:212-222 | whatever messages the backend rejects, of any number of pipelined batches: from the rollback until everything under way is answered both FIFOs are empty and every cached name stays on the backend |
| `ErrorRecovery.CacheLacksExactlyTheOrphans` | crates/halephant-core/src/connections/server.rs:212-222 | every run, any cap: after every rollback and whenever nothing is under way, the cache is the backend's set without the orphans, and equal to it iff there are none; an orphan is what messages dropped by an error were to take away, or what a Parse behind an error left |
| `ErrorRecovery.RollbackIsExactIff` | crates/halephant-core/src/connections/server.rs:212-222 | one error: the rollback makes cache and backend equal iff no message in flight was an eviction Close of a statement there or a DISCARD ALL while there are statements |
| `ErrorRecovery.WithoutCapExactIff` | crates/halephant-core/src/proxy/transaction.rs:65-69 | with no cap, DISCARD ALL included: cache and backend are equal iff no DISCARD ALL was lost to an error and no pipelined Parse was taken behind one since the last DISCARD ALL that was executed |
| `ErrorRecovery.RunsKeepInv` | crates/halephant-core/src/connections/server.rs:212-222 | the invariant of send, execute, fail and read over every run, through the batches that failed and what is pipelined behind them |
| `ErrorRecovery.ParseWhileShut` | crates/halephant-core/src/proxy/transaction.rs:421-430 | a Parse sent between reading an error and the end of what was under way keeps the cache within the backend iff the backend has the name already |
| `ErrorRecovery.SkippedEvictionIsRejectedLater` | crates/halephant-core/src/connections/server.rs:217-222 | with a cap, an eviction Close that the backend skips behind a rejected Bind orphans a statement, whose next Parse the backend rejects: a concrete run from a fresh connection |
| `Pools.PopIdleTakesFirstLive` | crates/halephant-core/src/pool/types.rs:113-124 | skips exactly the expired connections in front; nothing is found iff all are expired |
| `Configured.TakenIsFresh` | crates/halephant-core/src/pool/types.rs:113-137 | a popped connection is within the idle time-out and the lifetime, and all in front of it are beyond one of them; with the elapsed times written out |
| `Pools.NodeTotalUpdate` | crates/halephant-core/src/pool/types.rs:84-90 | changing one pool changes the total of its node and database by the difference and no other total |
| `Configured.NodeTotalCountsLive` | crates/halephant-core/src/pool/types.rs:84-90 | whenever connections are conserved, the total of a node and database is the number of ids that are idle, connecting, in use or being reset there |
| `Checkout.RankedIsSorted` | crates/halephant-core/src/pool/checkout.rs:304-310 | the ranking permutes the candidates, least active first |
| `Checkout.EquallyLoadedTakeTurns` | crates/halephant-core/src/pool/checkout.rs:304-310 | among candidates with equally many active connections the order is the cyclic one that begins at the counter modulo the number of candidates |
| `Checkout.StopsAtFirstUnsaturated` | crates/halephant-core/src/pool/checkout.rs:312-356 | the pass stops at the first candidate that is not saturated |
| `Checkout.ChoiceIsLeastLoaded` | crates/halephant-core/src/pool/checkout.rs:295-357 | with candidates on distinct nodes: AllFull iff every candidate is saturated (no live idle connection and user at its cap, or node at its cap with nothing to evict); otherwise the chosen one is not, and all with strictly fewer active connections are |
| `Configured.CheckoutFailsOnlyWhenFull` | crates/halephant-core/src/pool/checkout.rs:295-357 | the same in every reachable state with the configured numbers: AllFull iff for every candidate all idle connections have outlived a limit and the other connections have reached the number configured for the user, or for the node as primary or replica with nothing idle to evict |
| `Configured.CheckoutClosesOnlyWhatItMust` | crates/halephant-core/src/pool/checkout.rs:312-372 | every reachable state: a checkout claims a new connection only if its key has none to reuse; it evicts iff the node, without what has outlived a limit, has reached its configured number, and then exactly the front connection of one other user there; no other usable connection leaves a queue but the one handed out |
| `Configured.CheckoutIsRouted` | crates/halephant-core/src/pool/checkout.rs:262-293 | a connection that a checkout gets is for the database and user asked for, and to the configured primary or one of the configured replicas, as asked |
| `Lifecycle.DropTimedOutKeepsSuffix` | crates/halephant-core/src/pool/refill.rs:89-100 | the second retain pass keeps a suffix and removes min(excess over the floor, timed-out count) |
| `Lifecycle.ScavengeRespectsFloor` | crates/halephant-core/src/pool/refill.rs:81-100 | how many connections are left, and that unhealthy ones aside the floor is kept |
| `Lifecycle.SurvivorsAreSome` | crates/halephant-core/src/pool/refill.rs:81-84 | the first pass keeps exactly the healthy connections, in order |
| `Configured.ScavengeGoesByTheClock` | crates/halephant-core/src/pool/refill.rs:62-107 | every reachable state, with clock and configuration only: what a scavenge takes was dead, beyond the database's lifetime or idle beyond its time-out; what it leaves is alive, within the lifetime, and within the time-out unless its queue is within the floor configured for the user |
| `PoolManager.PoolManager.PopIdle` | crates/halephant-core/src/pool/types.rs:113-124 | the pop loop refines the specification |
| `PoolManager.PoolManager.CountNode` | crates/halephant-core/src/pool/types.rs:84-90 | the scan, in any order of the map, computes the node total |
| `PoolManager.PoolManager.EvictIdleForNode` | crates/halephant-core/src/pool/checkout.rs:359-372 | evicts iff some pool of the node and database has an idle connection, and then one whose front has waited longest among those fronts |
| `PoolManager.PoolManager.Rank` | crates/halephant-core/src/pool/checkout.rs:304-310 | rotates by the counter and sorts stably by active count |
| `PoolManager.PoolManager.TryCandidates` | crates/halephant-core/src/pool/checkout.rs:295-357 | the loop over ranked candidates does what one pass is specified to do: reuse, claim, or evict and claim |
| `PoolManager.PoolManager.DiscardInternal` | crates/halephant-core/src/pool/checkout.rs:374-382 | removes the id from the active set of its pool |
| `PoolManager.PoolManager.Checkin` | crates/halephant-core/src/pool/types.rs:163-171 | moves the id from active to resetting |
| `PoolManager.PoolManager.FinishReset` | crates/halephant-core/src/pool/refill.rs:351-392 | a successful reset moves the id to the back of the idle queue, a failed one drops it |
| `PoolManager.PoolManager.InsertRefill` | crates/halephant-core/src/pool/refill.rs:269-278 | inserts a fresh id at the back of the idle queue, without a limit check |
| `PoolManager.PoolManager.ScavengeIdle` | crates/halephant-core/src/pool/refill.rs:62-107 | every pool, in any order of the map, is left with what the two passes keep; the result is the number of idle connections that went |
| `PoolManager.RetainHealthy` | crates/halephant-core/src/pool/refill.rs:81-84 | the first retain loop |
| `PoolManager.RetainRecent` | crates/halephant-core/src/pool/refill.rs:89-100 | the second retain loop with its counter |
| `PoolManager.PoolManager.DrainNode` | crates/halephant-core/src/pool/mod.rs:163-179 | empties exactly the idle queues of that node |
| `Configured.DrainClosesTheNode` | crates/halephant-core/src/pool/mod.rs:163-179 | every reachable state: exactly the idle connections to that node are closed, of every database and user |
| `Configured.DrainClosesAll` | crates/halephant-core/src/pool/mod.rs:181-191 | every reachable state: all idle connections are closed and every idle queue is empty; nothing else changes |
| `PoolRuns.ConnectionsAreConserved` | crates/halephant-core/src/pool/types.rs:154-219 | every reachable state: an id is held by at most one pool and there in exactly one of idle (once), active, resetting; active iff connecting or guarded, resetting iff a reset runs |
| `PoolRuns.ClosedIsForGood` | crates/halephant-core/src/pool/checkout.rs:302-382 | an issued id that no pool holds is never held again, whatever follows |
| `PoolRuns.EvictionTakesLongestIdle` | crates/halephant-core/src/pool/checkout.rs:359-372 | every pass of every run that evicts: it ends in a claim, and what the victim queue lost last had been idle no shorter than any connection left idle for that node and database, over all users, also when candidates were skipped before |
| `PoolRuns.ScavengeKeepsSuffix` | crates/halephant-core/src/pool/refill.rs:81-100 | in every reachable state a scavenge leaves a suffix of each queue's healthy connections, short by min(excess over the floor, timed-out count) |
| `PoolRuns.RunsKeepInvariants` | crates/halephant-core/src/pool/refill.rs:361-367 | conservation and the age order of every idle queue hold along every run |
| `PoolRuns.TriedShape` | crates/halephant-core/src/pool/checkout.rs:312-356 | a pass only takes connections off the front of idle queues and activates one id in one pool |
| `Capacity.CapacityIsRespected` | crates/halephant-core/src/pool/checkout.rs:332-353 | every run from empty pools: a node's connections stay within its limit plus the refills there, a user's within its limit plus its refills |
| `Configured.ConfiguredNumbersAreKept` | crates/halephant-core/src/pool/checkout.rs:332-353 | every run, in connections counted one by one: at a database's primary at most the number configured for the primary plus the refills there, at a replica at most the number for replicas plus refills, elsewhere refills only; the same for each user with a limit |
| `Configured.LimitsAreConfigured` | crates/halephant-core/src/pool/candidates.rs:46-84 | which configured number each limit and each floor is: by role of the node in the topology, 0 outside it and for unknown databases, none for users without a limit |
| `Capacity.TriedTotals` | crates/halephant-core/src/pool/checkout.rs:312-356 | a pass leaves every node total and user total no larger, or within its limit, also when it evicts another user's connection |
| `Capacity.RefillIgnoresLimits` | crates/halephant-core/src/pool/refill.rs:269-278 | a refill always adds one, so the refill terms of the bound are needed |
| `Listener.ListenerPool.AddRef` | crates/halephant-core/src/listener/mod.rs:150-166 | counts; the first reference queues LISTEN |
| `Listener.ListenerPool.RemoveRef` | crates/halephant-core/src/listener/mod.rs:168-185 | counts down; the last reference removes the entry and queues UNLISTEN |
| `Listener.ClientNotifications.Listen` | crates/halephant-core/src/listener/mod.rs:194-198 | a new channel of the client takes one reference |
| `Listener.ClientNotifications.Unlisten` | crates/halephant-core/src/listener/mod.rs:201-205 | a channel of the client gives its reference back |
| `Listener.ClientNotifications.UnlistenAll` | crates/halephant-core/src/listener/mod.rs:208-212 | each channel is released exactly once, in some order |
| `Listener.ListenerConn.Restore` | crates/halephant-core/src/listener/mod.rs:382-390 | after the loop the server is subscribed to exactly the restored channels |
| `Listener.ListenerConn.Handle` | crates/halephant-core/src/listener/mod.rs:416-428 | a command changes the subscription of its channel only |
| `ListenerRuns.RefsCountSubscribers` | crates/halephant-core/src/listener/mod.rs:149-212 | every run: the count of a channel is the number of clients subscribed to it, and an entry exists iff there is one |
| `ListenerRuns.ServerConvergesToSubscribers` | crates/halephant-core/src/listener/mod.rs:381-444 | every run with crashes at any point: whenever the connection is up, the rest of the restore list and then the queue take the server's subscriptions to exactly the keys of refs |
| `ListenerRuns.IdleListenerIsExact` | crates/halephant-core/src/listener/mod.rs:381-444 | with nothing left to do the server listens to a channel iff some client does |
| `ListenerRuns.ExactIffNamesStayApart` | crates/halephant-core/src/listener/mod.rs:381-444 | for a server that cuts names: in every run over a set of names the idle listener's subscriptions are the cut names of the clients' channels iff the cut keeps the names apart; otherwise one client's UNLISTEN takes another's channel away |
| `Primitives.ParseCounted` | crates/halephant-core/src/proto/primitives.rs:56-67 | the push loop reads what the counted list is specified to be |
| `Primitives.ParseNullable` | crates/halephant-core/src/proto/primitives.rs:38-53 | the byte loop reads the nullable value |
| `Primitives.CStringBack` | crates/halephant-core/src/proto/primitives.rs:25-35 | a string without NUL is read back, whatever follows |
| `Primitives.CountedBack` | crates/halephant-core/src/proto/coding.rs:35-44 | a counted list is read back, whatever follows |
| `Primitives.NullableBack` | crates/halephant-core/src/proto/primitives.rs:38-53 | NULL and values are read back |
| `Coding.Buffer.PatchLength` | crates/halephant-core/src/proto/coding.rs:14-16 | overwrites the placeholder with the length and nothing else |
| `Coding.PatchedIsFramed` | crates/halephant-core/src/proto/coding.rs:5-26 | placeholder, body, back-patch: the buffer ends with the framed body |
| `Coding.EncodeFrontend` | crates/halephant-core/src/proto/frontend.rs:263-358 | appends exactly the encoding of the message |
| `Coding.EncodeBackend` | crates/halephant-core/src/proto/backend.rs:326-456 | appends exactly the encoding of the message |
| `Coding.ParseParameters` | crates/halephant-core/src/proto/frontend.rs:117-133 | the startup loop reads pairs up to the empty key |
| `Coding.ParseMechanisms` | crates/halephant-core/src/proto/backend.rs:136-146 | the mechanism loop reads names up to the empty one |
| `Coding.ParseNotices` | crates/halephant-core/src/proto/backend.rs:244-257 | the field loop reads tagged texts up to the zero tag |
| `Frontend.RegularBack` | crates/halephant-core/src/proto/frontend.rs:236-358 | every well-formed regular frontend message is read back from its encoding |
| `Frontend.InitialBack` | crates/halephant-core/src/proto/frontend.rs:207-290 | every well-formed startup-mode message is read back from its encoding |
| `Backend.MessageBack` | crates/halephant-core/src/proto/backend.rs:285-472 | every well-formed backend message is read back from its encoding |
| `Codec.WholeIsDecoded` | crates/halephant-core/src/proto/codec.rs:124-168 | a whole message in front is decoded and the bytes behind it are left |
| `Codec.PartIsNotDecoded` | crates/halephant-core/src/proto/codec.rs:124-168 | no proper prefix of an encoding is decoded or rejected |
| `Codec.DecodeIgnoresMore` | crates/halephant-core/src/proto/codec.rs:124-168 | a decoded message or an error does not depend on bytes behind the frame |
| `Codec.ChunksDoNotMatter` | crates/halephant-core/src/proto/codec.rs:40-68 | every byte stream, well-formed or not, gives the same messages, mode and failure in any chunks |
| `Codec.NothingEarlyNothingLate` | crates/halephant-core/src/proto/codec.rs:40-68 | of a stream of messages, any prefix in any chunks gives exactly the messages whose last byte has arrived |
| `Codec.StreamRoundTrip` | crates/halephant-core/src/proto/codec.rs:40-68 | any chunks of the encoding of a well-sequenced list give the list, and leave the buffer empty |
| `Codec.ConnectionIsDecoded` | crates/halephant-core/src/proto/codec.rs:40-68 | any number of SSL, GSS and cancel requests, one startup message, then any regular messages, in any chunks, from a new decoder: exactly these come out, the decoder is past startup and its buffer is empty |
| `Codec.RequestsAreDecoded` | crates/halephant-core/src/proto/codec.rs:40-68 | after such requests alone, in any chunks, the decoder is still in startup mode |
| `Codec.BackendIsDecoded` | crates/halephant-core/src/proto/codec.rs:101-117 | any list of backend messages, in any chunks, comes out as it is |
| `Layout.FrontendOnTheWire` | crates/halephant-core/src/proto/frontend.rs:263-358 | every well-formed message of a client is encoded as section 55.7 of the PostgreSQL documentation lays it out, field by field |
| `Layout.BackendOnTheWire` | crates/halephant-core/src/proto/backend.rs:326-456 | the same for every well-formed backend message |
| `Documented.DecodedIffDocumented` | crates/halephant-core/src/proto/codec.rs:124-168 | any bytes: a message is decoded from a canonical frame iff they begin with its documented form and it is well-formed and may come in that mode; the rest is what follows |
| `Documented.WaitsForTheLength` | crates/halephant-core/src/proto/codec.rs:124-168 | any bytes: the decoder waits exactly while the big-endian length has not come, or is at least 4 and more than what has come |
| `Utf8.ValidIffCharacters` | crates/halephant-core/src/proto/primitives.rs:25-35 | bytes are accepted as UTF-8 iff they are the encoding of a sequence of Unicode scalar values |
| `Utf8.TextIsReadIff` | crates/halephant-core/src/proto/primitives.rs:25-35 | a string is read iff the bytes are the encoding of characters other than NUL, a zero byte and the rest |
| `Coding.FrontendCodec.Decode` | crates/halephant-core/src/proto/codec.rs:44-67 | cuts the frame, parses it, and leaves startup mode after any message but SSL, GSS and cancel requests |
| `Coding.BackendCodec.Decode` | crates/halephant-core/src/proto/codec.rs:105-107 | the same for backend messages |
| `Coding.CutFrame` | crates/halephant-core/src/proto/codec.rs:124-168 | waits for a whole frame, rejects a length below 4, otherwise splits exactly the frame off |
| `Forwarding.ForwardingKeepsBytes` | crates/halephant-core/src/proto/codec.rs:40-117 | decoding and encoding again gives the same bytes iff the frame was canonical: no payload on a message without fields, NULLs written as -1 |
| `Forwarding.NullableWas` | crates/halephant-core/src/proto/primitives.rs:38-53 | a nullable value is written back as it was read iff its length was at least -1 |
| `Scanners.ScanDollarBody` | crates/halephant-core/src/sql/lexer.rs:253-287 | the one-counter matcher stops right behind the first occurrence of the tag and consumes everything if there is none; it equals trying every place in turn |
| `Scanners.MatchNext` | crates/halephant-core/src/sql/lexer.rs:266-286 | one character: reset on non-ASCII, restart at zero with the same character on a mismatch |
| `Scanners.NoBorder` | crates/halephant-core/src/sql/lexer.rs:246-252 | why the shortcut is right: no proper prefix of a tag has a non-empty border |
| `Scanners.ScanQuoted` | crates/halephant-core/src/sql/lexer.rs:115-127 | the identifier loop reads the quoted text |
| `Scanners.QuotedUndoesDoubled` | crates/halephant-core/src/sql/lexer.rs:112-129 | for every text, the scanner undoes the doubling of quotes |
| `Scanners.ScanComment` | crates/halephant-core/src/sql/lexer.rs:162-184 | the depth loop stops where the comment ends |
| `Scanners.CommentEndsWhereItCloses` | crates/halephant-core/src/sql/lexer.rs:160-185 | for every nesting, the scanner stops right behind the closing that matches the opening |
| `Scanners.SplitIsSeparate` | crates/halephant-core/src/sql/lexer.rs:160-185 | every text splits into characters, openings and closings without loss |
| `Lexer.CommentInFrontIsIgnored` | crates/halephant-core/src/sql/lexer.rs:94 | a well-nested block comment in front does not change the tokens |
| `Lexer.BlanksInFrontAreIgnored` | crates/halephant-core/src/sql/lexer.rs:136-157 | a blank, tab, line break or form feed in front does not change the tokens, nor does a line comment |
| `Lexer.ListenRoundTrip` | crates/halephant-core/src/listener/mod.rs:418 | for every channel string, lexing and parsing what the listener prints gives LISTEN, or UNLISTEN, of exactly that channel |
| `Lexer.DollarBodyIsHidden` | crates/halephant-core/src/sql/lexer.rs:214-289 | a dollar-quoted body is one token and what follows is lexed as if it stood alone |
| `Lexer.NoTagIsConsumed` | crates/halephant-core/src/sql/lexer.rs:217-231 | a dollar, tag characters and a character that cannot be in a tag are one token together |
| `Lexer.UnclosedBodyHidesAll` | crates/halephant-core/src/sql/lexer.rs:253-262 | without its closing tag a dollar-quoted body is one token to the end of the text |
| `Lexer.LiteralRoundTrip` | crates/halephant-core/src/sql/lexer.rs:194-208 | a string literal with doubled quotes is one token with the text, lowercased |
| `Lexer.UnclosedTextIsWhole` | crates/halephant-core/src/sql/lexer.rs:112-129 | a quoted identifier or literal without its closing quote is one token with the text to the end |
| `Lexer.UnclosedCommentHidesAll` | crates/halephant-core/src/sql/lexer.rs:160-185 | a block comment that is nowhere closed hides the rest |
| `Lexer.NumbersAreWhole` | crates/halephant-core/src/sql/lexer.rs:73-78 | a run of digits is one token |
| `Lexer.SignsAreTokens` | crates/halephant-core/src/sql/lexer.rs:80-92 | a star or a parenthesis is a token by itself, and any other character that begins nothing is one of no interest |
| `Lexer.Cursor.Advance` | crates/halephant-core/src/sql/parser.rs:63-67 | returns the next token and moves past it |
| `Lexer.Cursor.EatIdentifier` | crates/halephant-core/src/sql/parser.rs:82-91 | moves past a word or quoted identifier only |
| `Lexer.Cursor.ParseStatement` | crates/halephant-core/src/sql/parser.rs:98-159 | the cursor walk computes the statement of the tokens, for LISTEN and UNLISTEN |
| `Lexer.UnquotedNamesAreRead` | crates/halephant-core/src/sql/parser.rs:82-91 | LISTEN or UNLISTEN in any case, a blank and an unquoted name, whatever follows, is read as that of the name in lower case, UNLISTEN and a star as UNLISTEN of everything |
| `Settings.TrackedConn.TrackSetReset` | crates/halephant-core/src/proxy/transaction.rs:40-73 | SET adds, RESET removes, RESET ALL and DISCARD ALL clear |
| `Settings.TrackedConn.DrainDirty` | crates/halephant-core/src/connections/reset.rs:43-54 | the reset query: ROLLBACK iff not idle, one RESET for each dirty variable, the base reset; the dirty set is left empty |
| `Settings.ResetQuerySays` | crates/halephant-core/src/connections/reset.rs:43-54 | the reset query is ROLLBACK first iff the recorded status is not Idle, then one RESET for each dirty variable in the order drained, and the base reset last |
| `Settings.TrackedConn.AwaitReset` | crates/halephant-core/src/connections/reset.rs:58-87 | reads to the first ReadyForQuery or error and succeeds on an idle one only |
| `Settings.TrackedConn.NoteListen` | crates/halephant-core/src/proxy/transaction.rs:373-388 | in pin mode LISTEN pins and UNLISTEN * unpins |
| `Settings.TrackedConn.OnReady` | crates/halephant-core/src/proxy/transaction.rs:404-411 | records the status; the connection is released iff it is idle, not pinned and not held for a session |
| `Holds.HoldEndsIff` | crates/halephant-core/src/proxy/transaction.rs:373-411 | every run: reading a reply ends a hold iff it is ReadyForQuery(Idle) and LISTEN is multiplexed, or pins and the last of the LISTEN and UNLISTEN * that the client sent in this hold is not a LISTEN; never in session mode |
| `Settings.PooledConnectionsAreAtRest` | crates/halephant-core/src/connections/reset.rs:41-78 | every run of any number of holds: a connection in the pool has nothing under way, an empty dirty set, and recorded and real status Idle |
| `Holds.UnpinnedHoldsLeaveNothing` | crates/halephant-core/src/proxy/transaction.rs:40-73 | a hold in transaction mode that was never pinned, with every command read as what it is and every reset guarded, leaves no setting that was not there before, whatever failed, was rolled back (to a savepoint too), chained or pipelined; after holds of this kind only, the settings are those of startup; resets are guarded whenever none is behind a savepoint or COMMIT AND CHAIN that is behind a SET of what it resets and no RESET ALL is behind a SET of a setting it spares |
| `Holds.GuardIsExact` | crates/halephant-core/src/proxy/transaction.rs:60-70 | after a tracked query, whether it succeeds or fails, all settings that are, or that a rollback can make, other than at the start of the hold are tracked iff the query is guarded: no level to go back to has what it resets, and RESET ALL spares nothing that was SET |
| `Holds.HoldIsSafeIff` | crates/halephant-core/src/proxy/transaction.rs:404-411 | from any point of an unpinned hold with all replies read: every way to go on without a word about settings leaves nothing iff all those settings are tracked; otherwise RELEASE, ROLLBACK TO and COMMIT or ROLLBACK leave one |
| `Holds.SavepointResetLeaks` | crates/halephant-core/src/proxy/transaction.rs:60-64 | BEGIN, SET, SAVEPOINT, RESET, ROLLBACK TO, COMMIT in an unpinned hold of a new connection: it goes back to the pool with the setting |
| `Holds.ChainedResetLeaks` | crates/halephant-core/src/proxy/transaction.rs:60-64 | BEGIN, SET, COMMIT AND CHAIN, RESET, ROLLBACK: the same |
| `Holds.SparedSettingLeaks` | crates/halephant-core/src/proxy/transaction.rs:55-59 | BEGIN, SET of a setting that RESET ALL spares, RESET ALL, COMMIT: the same |
| `Settings.LeaksExactly` | crates/halephant-core/src/connections/reset.rs:41-78 | whatever the holds were, with savepoints and chains, in whatever order dirty_vars is drained: a setting survives a successful reset iff a SET was the last command on it to take effect and not the last one of this hold that the tracking read |
| `Holds.RolledBackResetLeaks` | crates/halephant-core/src/proxy/transaction.rs:60-64 | LISTEN, SET, BEGIN, RESET, ROLLBACK in pin mode, from a new connection: it goes back to the pool with the setting |
| `Holds.SessionSetLeaks` | crates/halephant-core/src/proxy/session.rs:65-77 | in session mode a single SET goes back to the pool |
| `Settings.PooledWithUnreadReplies` | crates/halephant-core/src/connections/reset.rs:58-75 | replies outstanding when the client leaves: the reset succeeds with replies still unread iff the first that ends anything is ReadyForQuery(Idle) |
| `Settings.OutstandingRepliesDecide` | crates/halephant-core/src/connections/reset.rs:58-75 | in every run, a reset with replies outstanding pools the connection with its own replies unread iff the first that ends anything is ReadyForQuery(Idle), and closes it otherwise |
| `StrayReplies.AnswersAreShifted` | crates/halephant-core/src/connections/reset.rs:58-75 | every run, pooled too early or not: in each hold the client is told first the answers that were due when it began, none of them its own, then its own in order; so what it takes for answer n is answer n less the number of stale ones |
| `StrayReplies.NothingStale` | crates/halephant-core/src/proxy/transaction.rs:404-411 | on a connection that owed nothing when the hold began, what the client is told is a prefix of the answers to its own queries |
| `StrayReplies.OwnAnswerIffNoStaleIdle` | crates/halephant-core/src/proxy/transaction.rs:404-411 | a client whose hold ends at the first ReadyForQuery(Idle) can be told an answer of its own iff none of the stale ones is idle; the last stale one is the answer to the reset |

## Left out

- Sockets, tasks, TLS, cancel forwarding, startup and authentication exchange: connecting, sending and receiving are steps that may happen at any time.
- SHA-256 and its truncation to 64 bits: the hash is a parameter; distinctness is a hypothesis on the statements of a run, and the unseparated hash input is modelled exactly.
- Pipelining past the Sync or Query that ends a transaction: in `Virtualization` a connection is released with nothing in flight, or, when its client has gone, once the reset has swallowed the replies left and none of them is a ReadyForQuery; what happens with an outstanding ReadyForQuery is in `PooledWithUnreadReplies`.
- Position of synthetic ParseComplete, CloseComplete and DEALLOCATE replies among real ones under pipelining: they are counted, not ordered.
- `Prepared.AbsorbMessage`: the transaction status it tells the client is the one it is given; that the caller gives the last one read from the server is not modelled.
- Bytes of forwarded messages in `Virtualization` and `Relay`: a message is its kind, target, name, statement and number; its encoding is the matter of the codec.
- Replies to Flush, CopyData, function calls and query rows: opaque; a Query has one reply that ends it.
- SQL-level PREPARE and EXECUTE: the proxy does not see their names.
- `Transparency.CacheSimulatesBackend`: error-free runs only, because a backend error may orphan statements; module ErrorRecovery proves what survives, exactly, on one connection. Reference counts and what is executed are proved with errors.
- `ErrorRecovery.RollbackIsSound`: a client that was told of an error sends nothing but Sync until everything under way is answered, because the backend may still be skipping; `ParseWhileShut` says exactly when a Parse sent then does no harm.
- `Transparency.RepliesAreTheClients`: error-free runs only; after an error the rest of the batch is answered by nothing.
- Waiters, their wake-ups, checkout time-outs and fairness: "full" is decided and the waiter enqueued under two locks, so no claim is made about lost wake-ups.
- The second try of a checkout with the primary as fallback is another pass over candidates, taken under its own lock.
- A checkout cancelled while it connects: every connect step finishes, with success or failure.
- Configuration reload, topology changes, address splitting, password files: configuration and topology are constants of a run.
- Wall clocks: one abstract clock that never goes back, read once per locked region; a connection's liveness check is a predicate chosen anew at each scavenge.
- `PoolManager.PoolManager.ScavengeIdle`: its result is an unbounded number, u32 in the source, and the wake-ups it leads to are left out with the waiters.
- `shortfalls`: lists what a refill should open; a refill may happen for any key at any time.
- Round-robin counter wrap-around at 2^64: it only shifts which of equally loaded candidates comes first, and the selection theorem holds for every counter value.
- Notification delivery, broadcast lag, error replies to LISTEN, and a listener pool replaced after its listener gave up: subscriptions only.
- `Primitives.ParseCounted`: a negative item count ends in a panic in the source and in an error here.
- Exact error values and positions of the parsers: success or failure only.
- Frames of 2^31 bytes and more: decoding covers them, the round trip is stated below that, where the length field is a non-negative Int32.
- SSL and GSS replies, which are single bytes outside the message framing.
- `Lexer.Cursor.ParseStatement`: statements other than LISTEN and UNLISTEN are one case.
- `Holds.UnpinnedHoldsLeaveNothing`: says nothing of holds in which a command is not read as what it is: in a Parse, SET TIME ZONE, SET ROLE, set_config, a quoted identifier as the value, a name with a dot. `Settings.LeaksExactly` covers them, with the reading as a parameter.
- `Settings.LeaksExactly`: one statement a query; a query of several statements, of which the tracking reads the first, is not modelled, nor a CALL or DO that ends transactions inside.
- Settings that change with others (session_authorization with role), and the text of RESET for quoted names: each setting is by itself, under the name the lexer gives it.
- A connection pooled with unread replies (`Stray`): `Settings` follows it no further; `StrayReplies` does, as a queue of answers with whatever status the backend gives each.
- SET LOCAL: its effect ends with the transaction and is not tracked.
- Temporary tables, cursors, advisory locks and sequence caches: the base reset is one statement without effect on settings.
- Admin API, metrics, spans, client registry: reporting only.
