# A verified model of the node agent's runtime

The node agent runs proxy inbounds on a machine on behalf of a panel. It moves a live proxy engine
from one topology to another, compiles outbound graphs into client chains, collects every user's
traffic, and keeps a few small protocols alive beside that. This project models the parts where the
behaviour is hardest to see from the code and proves what they promise, for every input, every
pattern of failures and every interleaving.

Three groups of results carry the weight.

**The transactional runtime.** `Engine.dfy` models the proxy engine: registered inbounds, sockets,
user registries, sessions under revoked credentials, replay namespaces, DNS generations and
counters. Any of its calls may fail; the failures are nondeterministic choices, so a fact proved
about a caller holds for every pattern of failures. Traffic may arrive before any call. `Steps`,
`Journal`, `Transaction`, `Incremental`, `Recovery`, `Draining`, `Publication` and `Runtime` model
the runtime on top of it, step by step and branch by branch; `Runs` draws the conclusions over whole
runs. The main results:

- A failed transaction that publishes the previous topology leaves the engine exactly on the plane
  it started from: tags, configs, registries, replay namespaces, no session under a candidate's
  credential (`Runtime.ShoesRuntime.FinishFailedTransaction`, `Runtime.ShoesRuntime.Apply`). The
  journal always leads back to the start, and each undo finds its tag, sockets and credentials free
  (`Journal.RollbackJournal` over `Journal.Rewinds`), so that with healthy I/O only a full receipt
  queue or a full table of replay namespaces can keep an apply from ending on a known topology.
- The incremental path and the full reload reach the same tags, configs and registries
  (`Transaction.ExecuteFullReload`, `Incremental.ExecuteIncremental`, `Runs.SameOutcome`).
- No byte is lost over any run of applies, rollbacks, recoveries, drains and closes, unless the
  rollback of a failed transaction drops a listener with a user whose removal had failed twice
  (`Runs.Run`, `Runs.Conserved`). What survives a rollback is never forgotten: its labels name
  everybody who may still have counters on a live listener (`Journal.SteppedTracked`,
  `Journal.RollbackJournal`), so that neither a recovery nor a close loses a byte, however often it
  fails (`Runtime.ShoesRuntime.RecoverIfNeeded`, `Runtime.ShoesRuntime.Close`). Bytes are booked
  only to the published owner of a tag or, for a new tag, to the tag itself (`BookedOnly` in the
  contracts), and every byte metered before a commit is booked to the old owner of a tag that goes
  away or changes hands (`Boundary`).
- In every reachable state exactly one of the published and the retained topology is set. A
  published one is what the engine runs, with resolvers of the current DNS generation, and a
  retained one can always be rebuilt (`Runs.PublishedIsClean`,
  `Runtime.ShoesRuntime.RecoverIfNeeded`).
- Over every interleaving of external applies, rule-set refreshes and close, a refresh republishes
  only the latest external topology, nothing is published once close has held the apply lock, and
  the two locks never deadlock: an unfinished task can run, or the holder of a lock can
  (`Watcher.CommittedFromLatest`, `Watcher.NoDeadlock`).

**The outbound compiler.** The memoised graph search accepts exactly the catalogs that are well
formed, resolve, are acyclic and have no path of more than 128 outbounds, and each memoised depth is
the longest path (`OutboundGraph.ReferenceGraphValidator.Validate`). On an accepted catalog every
projection is the plain recursive meaning of the outbound or the refusal of one of three budgets,
whatever the caches hold; which of the two is decided by the actions handed out before, and the
budget counts exactly their hops and rendered bytes
(`ProjectionBudget.ClientChainProjectionBudget.ClientAction`, `ProjectionBudget.ProjectAll`). The
emitted DNS block is closed (`DnsBlock.CompileDns`).

**Small state machines.** The traffic aggregator, the remote controller with its wake-ups, the
crash-safe cache replacement and the token bucket.

Three promises of the source turned out not to hold as stated; the model keeps the code and proves
exactly when it meets them.

- An apply error that reports `state_unchanged` is meant to say that no configuration step touched
  the engine (crates/node-agent/src/runtime.rs:122-130). Engine validation comes after a pending
  recovery (crates/node-agent/src/runtime.rs:832-869), so the report is false when the runtime had
  to recover first: recovery has rotated the DNS generation and rebuilt the listeners.
  `Runs.FalseReport` gives the case: from a retained topology, a candidate refused by engine
  validation. `Runtime.ShoesRuntime.Apply` proves that the report is right if and only if the call
  was turned away before recovery or the published topology was known when it arrived.
- The incremental path writes users in id order, after the departing users left
  (crates/node-agent/src/runtime.rs:1405-1458), so a credential that moves from a user that stays to
  a user with a smaller id is refused as a duplicate, although the same topology is accepted by a
  full reload. It happens exactly on an inbound that stays live, because its config and user mode do
  not change or because the running listener can take its new config over; an inbound that is
  replaced starts with the complete new registry. `Incremental.HandsOver` says that such a handover
  exists. `Incremental.ExecuteIncremental` never succeeds when it does, on any engine, and on an
  engine without faults, with capacity left (the receipt queue, the table of replay namespaces) and
  sockets that do not clash, it fails only when it does; `Runtime.ShoesRuntime.Apply` states the
  if-and-only-if for a whole apply. `Runs.SwappedCredentials` and `Runs.ExchangeByMoving` give two
  users exchanging credentials: refused, and accepted as soon as the inbound also moves to another
  port. What is a credential depends on the listener's protocols: TUIC users may exchange passwords
  (`Runs.ExchangedTuicPasswords`).
- A mismatch of the probe resolver must not become permanent until the process restarts
  (crates/node-agent/src/runtime.rs:2090-2095). The engine binds one probe resolver per DNS
  generation and documents that another one needs a rotation
  (crates/shoes-engine/src/lib.rs:626-628). A resolver is identified by the fingerprint of its own
  graph, or is the system's (crates/shoes-engine/src/lib.rs:1472-1485). The rollback of a full
  reload rotates and binds the previous topology's resolver, but the next attempt rotates only if
  something was ever committed (crates/node-agent/src/runtime.rs:884). So when the very first
  topology fails, the empty topology's resolver, the system's, stays bound, and every later topology
  with another one is refused, also by an engine without faults: `Runs.FirstTopologyStuck`.
  `Runs.FirstTopologyCorrected` gives the run: two inbounds on one socket are refused, and then the
  corrected topology is refused as well, unless its resolver is the system's, in which case it is
  accepted. `Runtime.ShoesRuntime.Apply` proves that before the first commit an accepted full reload
  with disjoint sockets and capacity left succeeds on such an engine if and only if no other probe
  resolver is bound.

## Model

| member | source | states |
|---|---|---|
| `Topology.SameUserIsEquality` | crates/node-agent/src/runtime.rs:2769-2777 | the user comparison of the diff misses no field of a record |
| `Incremental.DiffDeltas` | crates/node-agent/src/runtime.rs:2701-2767 | the changed entries of a diff are exactly the surviving inbounds that differ in config, user mode or users, once each |
| `Accounting.MergeAdds` | crates/node-agent/src/runtime.rs:423-446 | merging a receipt adds its bytes to its own user and nothing to any other |
| `Accounting.MergeKeepsOthers` | crates/node-agent/src/runtime.rs:423-446 | a merge leaves the records of every other identity as they were |
| `Accounting.FileShape` | crates/node-agent/src/runtime.rs:423-446 | one record per identity and hour, and at most one more identity in use, so further hours take no further keys |
| `Accounting.PendingTraffic.Reserve` | crates/node-agent/src/runtime.rs:358-376 | queued identities and reservations stay disjoint within the budget; full exactly when the budget is spent on others |
| `Accounting.PendingTraffic.Release` | crates/node-agent/src/runtime.rs:378-380 | gives one reservation back and nothing else |
| `Accounting.PendingTraffic.MergeReserved` | crates/node-agent/src/runtime.rs:382-396 | a receipt lands where room was reserved, the reservation is spent once, both assertions hold, an empty receipt takes no key |
| `Accounting.PendingTraffic.Drain` | crates/node-agent/src/runtime.rs:415-420 | everything queued leaves in one step |
| `EngineModel.Engine.AddInbound` | crates/shoes-engine/src/lib.rs:773-1040 | starts on free sockets in the leased or a fresh replay namespace, or leaves the plane as it was, where at most the system resolver was bound in a generation that had none; on a healthy engine only the plane or a full table of replay namespaces refuses |
| `EngineModel.Engine.UpdateInbound` | crates/shoes-engine/src/lib.rs:1073-1192 | swaps rules in place and brings the inbound up to the DNS generation, or leaves the plane as it was, where at most the system resolver was bound in a generation that had none; it answers that a reload is required only for a config the running listener cannot take over: other sockets, settings or credential kinds, or a listener that never reloads |
| `EngineModel.Engine.RemoveInboundHard` | crates/shoes-engine/src/lib.rs:1224-1276 | drops the listener and its registry; counters can be lost only if the registry still had users |
| `EngineModel.Engine.AddUser` | crates/shoes-engine/src/lib.rs:1351-1353 | upserts one record unless a key of the registry belongs to somebody else, where the listener decides what is a key; sessions of a replaced credential go on |
| `EngineModel.Engine.RemoveUser` | crates/shoes-engine/src/lib.rs:1355-1367 | returns the final counters once, fails unchanged, or leaves a receipt outstanding that a repeated call collects |
| `EngineModel.Engine.KickUser` | crates/shoes-engine/src/lib.rs:1369-1377 | closes the sessions of a registered user, whose registration stays |
| `EngineModel.Engine.ConfigureProbe` | crates/shoes-engine/src/lib.rs:626-641 | the resolver with the bound fingerprint is fine again; another one needs another DNS generation |
| `EngineModel.Engine.RotateDns` | crates/shoes-engine/src/lib.rs:595-607 | nothing is bound in the new generation and no live inbound was built in it |
| `EngineModel.Engine.TakeNonzeroTraffic` | crates/shoes-engine/src/lib.rs:1408-1413 | the returned snapshots are exactly the bytes that left the counters, and no registered user keeps any |
| `Steps.RemoveUserWithRetry` | crates/node-agent/src/runtime.rs:1155-1189 | an interrupted removal is retried once; a second failure is an outstanding receipt, anything else is unchanged |
| `Steps.RetireUser` | crates/node-agent/src/runtime.rs:1132-1153 | room is reserved before the counters are touched, and the reservation is spent or given back before returning |
| `Steps.FlushUser` | crates/node-agent/src/runtime.rs:1225-1243 | moves a live user's bytes to the queue under the given owner; every byte metered before is booked |
| `Steps.QueueTraffic` | crates/node-agent/src/runtime.rs:1146-1153 | bytes taken from a counter are queued under the owner that reserved room, and the account is balanced again |
| `Steps.BookReceipt` | crates/node-agent/src/runtime.rs:1146-1153 | a collected receipt keeps the account: every byte that left a counter is queued or delivered |
| `Steps.RestoreUsers` | crates/node-agent/src/runtime.rs:1761-1770 | re-adds departed users; without errors the registry is what it was |
| `Steps.EmptyRegistry` | crates/node-agent/src/runtime.rs:1697-1747 | every listed user leaves with its receipt, or a failure puts the departed ones back; a restored failure leaves the plane as it was |
| `Steps.StopInbound` | crates/node-agent/src/runtime.rs:1678-1759 | collects every user, then drops the listener; a restored failure leaves the plane as it was |
| `Journal.RewindsPush` | crates/node-agent/src/runtime.rs:581-610 | an undo that is ready and leads back one step extends a journal that leads back to the start |
| `Journal.ReplaceInbound` | crates/node-agent/src/runtime.rs:1621-1671 | replaces one listener in its own replay namespace; a restored failure leaves the plane as it was or the old generation running again in that namespace |
| `Journal.RollbackJournal` | crates/node-agent/src/runtime.rs:1872-2034 | newest first; without errors the engine is on the starting plane, otherwise every live tag is labelled with its owner, and the labels name everybody whose counters are still out |
| `Journal.SteppedTracked` | crates/node-agent/src/runtime.rs:1872-2034 | an undo, ready or not, done or failed, leaves everybody on every live tag named by its label, its published owner or an older entry |
| `Transaction.OwnsUncommitted` | crates/node-agent/src/runtime.rs:1115-1130 | before commit the bytes of a tag belong to its published owner, or to the tag itself where nothing was published; the owner is one the transaction may book to |
| `Transaction.StopPublished` | crates/node-agent/src/runtime.rs:1263-1283 | a stop is journalled so that undoing leads back to the start |
| `Transaction.StopAll` | crates/node-agent/src/runtime.rs:1355-1363 | stops the listed owners, holds their leases, and leaves no byte of theirs unbooked |
| `Transaction.StartAll` | crates/node-agent/src/runtime.rs:1364-1381 | starts exactly the listed candidates; with healthy I/O and free sockets only a full table of replay namespaces refuses one |
| `Transaction.ExecuteFullReload` | crates/node-agent/src/runtime.rs:1525-1592 | success is the desired topology with surviving replay namespaces, fresh resolvers and every earlier byte booked; with healthy I/O and disjoint sockets only a full receipt queue or a full table of replay namespaces refuses it |
| `Incremental.HotPhase` | crates/node-agent/src/runtime.rs:1289-1349 | every changed inbound that can stay live is updated in place; exactly the others are set aside, still as they were, for replacement |
| `Incremental.ReplacePhase` | crates/node-agent/src/runtime.rs:1351-1385 | every old owner releases its sockets before any candidate claims one, so sockets may be permuted among tags |
| `Incremental.RetireDeparting` | crates/node-agent/src/runtime.rs:1408-1445 | departing users leave with their receipts, each undoable |
| `Incremental.WriteUser` | crates/node-agent/src/runtime.rs:1447-1490 | one record is written and the sessions of its old credential are closed; undoable before and after the sessions are closed |
| `Incremental.WriteUsers` | crates/node-agent/src/runtime.rs:1447-1490 | upserts in order; a refusal on a healthy engine means a credential handover |
| `Incremental.ReconcileUsers` | crates/node-agent/src/runtime.rs:1405-1490 | the registry becomes the desired one; succeeds on a healthy engine unless capacity is exhausted or a credential is handed over |
| `Incremental.FlushChangedMetadata` | crates/node-agent/src/runtime.rs:1191-1246 | every byte metered before the step is queued under the old owner of each surviving inbound whose owner changes |
| `Incremental.ExecuteIncremental` | crates/node-agent/src/runtime.rs:1248-1515 | success is the same outcome as a full reload, with every earlier byte booked to the old owner where ownership ends; it never succeeds when an inbound that stays live hands a credential over, and on a healthy engine with disjoint sockets and capacity left it always does otherwise |
| `Recovery.CollectAll` | crates/node-agent/src/runtime.rs:2200-2223 | success leaves none of the listed users registered and none of their receipts outstanding |
| `Recovery.ForceStop` | crates/node-agent/src/runtime.rs:2178-2234 | the listener goes after the registered users and those its label names were collected; no byte is lost if the label names every outstanding receipt, and nobody new is left to collect if it stays |
| `Draining.CopyReceipts` | crates/node-agent/src/runtime.rs:2417-2421 | replaying a filed queue rebuilds it record by record |
| `Draining.MergeSweep` | crates/node-agent/src/runtime.rs:2429-2434 | the answer grows by exactly the swept bytes, booked to the inbound's owner |
| `Draining.SweepAll` | crates/node-agent/src/runtime.rs:2422-2446 | on a healthy engine every byte metered before is taken; a failed sweep leaves its counters for the next drain; the account stays balanced |
| `Draining.Deliver` | crates/node-agent/src/runtime.rs:2447-2451 | handing the answer over moves its bytes from queued to delivered |
| `Publication.RestorePrevious` | crates/node-agent/src/runtime.rs:1784-1832 | a fresh DNS generation, the journal, a refresh of what was restored: without errors the engine is on the starting plane and every resolver on the new generation |
| `Publication.RefreshAll` | crates/node-agent/src/runtime.rs:1812-1832 | every restored inbound is brought to the rollback's DNS generation without changing what it runs |
| `Publication.Execute` | crates/node-agent/src/runtime.rs:895-917 | binds the probe resolver where needed and takes one of the two paths |
| `Publication.StopEverything` | crates/node-agent/src/runtime.rs:2259-2279 | stops every listener under its labelled or published owner; succeeds exactly when none is left, and never loses a byte |
| `Runtime.ShoesRuntime.FinishFailedTransaction` | crates/node-agent/src/runtime.rs:1772-1870 | publishes the previous topology exactly when the engine is back on it; `rolled_back` and `state_unchanged` say what they mean |
| `Runtime.ShoesRuntime.CleanUp` | crates/node-agent/src/runtime.rs:2071-2079 | after every stop the published labels are exactly the live tags and still name everybody on them; no byte is lost |
| `Runtime.ShoesRuntime.Rebuild` | crates/node-agent/src/runtime.rs:2114-2151 | starts the retained topology under its leases, in tag order, each rebuilt listener labelled |
| `Runtime.ShoesRuntime.StartOver` | crates/node-agent/src/runtime.rs:2090-2151 | from an empty engine to the retained topology in a new DNS generation with its own probe resolver |
| `Runtime.ShoesRuntime.RecoverIfNeeded` | crates/node-agent/src/runtime.rs:2036-2170 | success leaves the engine on the retained topology; a failed attempt keeps topology and leases, and its labels are the live tags; neither loses a byte |
| `Runtime.ShoesRuntime.CaptureReplay` | crates/node-agent/src/runtime.rs:1085-1104 | one lease per published inbound, in its own replay namespace |
| `Runtime.ShoesRuntime.OpenTransaction` | crates/node-agent/src/runtime.rs:871-894 | leases every published replay namespace and rotates exactly before a full reload of a committed generation |
| `Runtime.ShoesRuntime.Transact` | crates/node-agent/src/runtime.rs:871-957 | commits the desired topology, or ends on the previous one or in recovery of it; says how often the DNS generation rotates, and exactly what refuses on a healthy engine with capacity left; a commit loses no byte |
| `Runtime.ShoesRuntime.Apply` | crates/node-agent/src/runtime.rs:791-957 | the whole transaction; when an unchanged state is reported and when rightly; on a healthy engine with capacity left an accepted candidate succeeds if and only if its sockets do not clash, no inbound that stays live hands a credential over and, before the first commit, no other probe resolver is bound; only a rollback can lose a byte |
| `Runtime.ShoesRuntime.DrainTraffic` | crates/node-agent/src/runtime.rs:2411-2451 | the answer is the queue and a sweep, one record per identity and hour; on a healthy engine every byte metered before the call has been delivered |
| `Runtime.ShoesRuntime.BeginClose` | crates/node-agent/src/runtime.rs:2504-2506 | every later candidate is turned away |
| `Runtime.ShoesRuntime.Close` | crates/node-agent/src/runtime.rs:2236-2309 | stops everything; fails only while a listener is left, and keeps the topology for the next close; no byte is lost |
| `Runs.FalseReport` | crates/node-agent/src/runtime.rs:832-869 | from a retained topology, a candidate refused by validation is reported as an unchanged state although the DNS generation has moved |
| `Runs.Conserved` | crates/node-agent/src/runtime.rs:2411-2451 | metered bytes are live, queued or delivered, for every user, in every state in which no listener was dropped with a user whose removal had failed twice |
| `Runs.PublishedIsClean` | crates/node-agent/src/runtime.rs:531-556 | a published topology runs with no session under a revoked credential, no receipt outstanding, fresh resolvers and its own probe resolver |
| `Runs.FirstTopologyStuck` | crates/node-agent/src/runtime.rs:884-910 | once the first full reload has failed, every topology whose probe resolver is not the empty topology's is refused |
| `Runs.FirstTopologyCorrected` | crates/node-agent/src/runtime.rs:871-957 | a fresh healthy runtime: two inbounds on one socket are refused; the correction is refused if its probe resolver is not the system's, and otherwise accepted while there is capacity |
| `Runs.SameOutcome` | crates/node-agent/src/runtime.rs:1517-1592 | the incremental path and the full reload agree on tags, configs and registries, and on the replay namespaces of surviving tags |
| `Runs.SwappedCredentials` | crates/node-agent/src/runtime.rs:1405-1458 | two users exchanging credentials: a valid topology with a handover exactly while the inbound keeps its port |
| `Runs.ExchangeByMoving` | crates/node-agent/src/runtime.rs:1289-1490 | on a healthy engine the exchange is refused where the inbound stays live, and accepted when the inbound moves to another port |
| `Runs.ExchangedTuicPasswords` | crates/shoes-engine/src/users.rs:2436-2468 | TUIC users that keep their uuids hand nothing over, whatever becomes of their passwords |
| `Runs.Run` | crates/node-agent/src/runtime.rs:2486-2571 | any sequence of applies, drains and closes: the topology stood for is the last accepted one, nothing is applied after close, bytes are conserved, and are lost only if a transaction was begun and failed |
| `Watcher.StepKeeps` | crates/node-agent/src/runtime.rs:732-767 | every atomic step of an external apply, a refresh or a close keeps the protocol's invariant |
| `Watcher.CommittedFromLatest` | crates/node-agent/src/runtime.rs:970-1055 | every refresh publishes the topology of the latest external apply; nothing is published after close held the apply lock |
| `Watcher.RefreshWhileCurrent` | crates/node-agent/src/runtime.rs:1024-1055 | a refresh publishes only while its generation is installed and it holds both locks |
| `Watcher.NoDeadlock` | crates/node-agent/src/runtime.rs:2236-2251 | any unfinished task can run, or the holder of one of the two locks can |
| `JsonText.CostIsText` | crates/node-agent/src/compile.rs:430-461 | the measured cost of a list of chains is the length of its rendered text |
| `JsonText.Inspect` | crates/node-agent/src/compile.rs:384-411 | hops, elements and element bytes of a list of chains |
| `OutboundGraph.ShortIsAcyclic` | crates/node-agent/src/compile.rs:929-1021 | bounded reference paths leave no room for a cycle |
| `OutboundGraph.ReferenceGraphValidator.Visit` | crates/node-agent/src/compile.rs:952-1020 | success memoises the longest path, whatever was visited before; each error names a real defect |
| `OutboundGraph.ReferenceGraphValidator.Validate` | crates/node-agent/src/compile.rs:944-950 | accepts exactly the catalogs that are well formed, resolve, are acyclic and at most 128 deep |
| `OutboundShape.ActiveIsTerminal` | crates/node-agent/src/compile.rs:1029-1094 | following selections step by step and by plain recursion reach a URLTest for the same outbounds |
| `OutboundShape.OutboundActionShapeValidator.ShapeOf` | crates/node-agent/src/compile.rs:1050-1093 | memoised shapes are what plain recursion finds |
| `OutboundShape.OutboundActionShapeValidator.Validate` | crates/node-agent/src/compile.rs:1042-1048 | accepts exactly the catalogs in which no candidate or detour is an active URLTest |
| `OutboundShape.ValidateCatalog` | crates/node-agent/src/compile.rs:638-657 | the three passes accept exactly the catalogs described by the declarative conditions |
| `OutboundAdapter.Adapter.Compile` | crates/node-agent/src/outbound_adapter.rs:284-348 | on a validated catalog the chain is the plain recursive one, whatever the selector cache holds; no cycle or depth error |
| `OutboundAdapter.Adapter.CompileSelector` | crates/node-agent/src/outbound_adapter.rs:628-720 | folds to the default or first member and caches only true choices |
| `OutboundAdapter.Adapter.CompileProxyChain` | crates/node-agent/src/outbound_adapter.rs:722-761 | the detour's chain, then the own hop |
| `OutboundAdapter.ImmediateSelection` | crates/node-agent/src/compile.rs:1109-1128 | the compiler's choice is the adapter's choice, and feeds its cache |
| `OutboundAdapter.CompressedOk` | crates/node-agent/src/compile.rs:1139-1144 | path compression stores true terminals |
| `OutboundAdapter.ResolveSelector` | crates/node-agent/src/compile.rs:1130-1177 | never refuses on a ranked catalog and finds the terminal of plain recursion |
| `ProjectionBudget.KeptDistinct` | crates/node-agent/src/compile.rs:1213-1257 | one candidate per real tag |
| `ProjectionBudget.KeptCovers` | crates/node-agent/src/compile.rs:1213-1257 | every member's real tag is still probed |
| `ProjectionBudget.IdentityKeepsSize` | crates/node-agent/src/compile.rs:860-875 | replacing the identity placeholder does not change the byte count |
| `ProjectionBudget.ClientChainProjectionBudget.Reserve` | crates/node-agent/src/compile.rs:481-514 | charged exactly when both limits allow it |
| `ProjectionBudget.ClientChainProjectionBudget.ReserveCopy` | crates/node-agent/src/compile.rs:1389-1403 | a copied action is charged what its text takes |
| `ProjectionBudget.ClientChainProjectionBudget.Prepare` | crates/node-agent/src/compile.rs:564-588 | a cached sample is the plain chain |
| `ProjectionBudget.ClientChainProjectionBudget.SelectCandidates` | crates/node-agent/src/compile.rs:1222-1257 | refused exactly when the group's distinct candidates do not fit |
| `ProjectionBudget.ClientChainProjectionBudget.GatherChains` | crates/node-agent/src/compile.rs:1273-1301 | gives up early only when the whole expansion would not fit |
| `ProjectionBudget.ClientChainProjectionBudget.CompileUrltest` | crates/node-agent/src/compile.rs:1179-1346 | the group's action or the exact refusal; a cached copy is charged again |
| `ProjectionBudget.ClientChainProjectionBudget.ClientAction` | crates/node-agent/src/compile.rs:597-630 | the plain meaning of the outbound or the refusal of one of the three budgets, and used equals everything handed out |
| `ProjectionBudget.ProjectAll` | crates/node-agent/src/compile.rs:638-657 | from validation to actions: each action is the plain meaning of its outbound, the list ends exactly at the first outbound that the budgets refuse after what was handed out before it, and the total stays within both limits |
| `DnsBlock.ProjectOutbounds` | crates/node-agent/src/compile.rs:2068-2139 | each outbound gets its server or a private profile of it; refused exactly for an unknown server or a taken name |
| `DnsBlock.AddVariants` | crates/node-agent/src/compile.rs:3093-3118 | private servers have distinct names and the profile they stand for |
| `DnsBlock.CompileRules` | crates/node-agent/src/compile.rs:3138-3209 | every rule names a server with the profile it asks for; refused exactly for an unknown server or a taken name |
| `DnsBlock.CompileDns` | crates/node-agent/src/compile.rs:3012-3219 | distinct server tags, and every name in the block and in the outbounds leads to the wanted profile; accepted exactly when references are known and names free |
| `Aggregator.SameHour` | crates/node-agent/src/traffic.rs:259-272 | the runtime's nanosecond hour and the aggregator's second-based hour are the same, also before the epoch |
| `Aggregator.MinuteKeepsHour` | crates/node-agent/src/traffic.rs:252-257 | flooring to the minute keeps the hour exactly when the minute does not begin before the first 64-bit second; clamped times keep theirs |
| `Aggregator.RestoreUndoesFlush` | crates/node-agent/src/traffic.rs:148-200 | a flush that is restored leaves every identity and hour with the bytes it had |
| `Aggregator.TrafficAggregator.Observe` | crates/node-agent/src/traffic.rs:120-137 | adds to one identity and hour; what came in and did not go out is resident, modulo 2^64 |
| `Aggregator.TrafficAggregator.Restore` | crates/node-agent/src/traffic.rs:148-170 | each report returns to its own hour |
| `Aggregator.TrafficAggregator.Flush` | crates/node-agent/src/traffic.rs:172-228 | reports exactly the counters that are due, once each, and keeps the others |
| `CachePublication.VerifySnapshot` | crates/node-agent/src/rule_set.rs:612-641 | whatever the sizes of the pieces read, equal contents are accepted and different ones are a collision |
| `CachePublication.CacheDirectory.Recover` | crates/node-agent/src/rule_set.rs:734-753 | recovery never changes which bytes are usable; its success leaves no backup, or one whose metadata could not be read |
| `CachePublication.CacheDirectory.PublishCache` | crates/node-agent/src/rule_set.rs:790-822 | wherever it stops, the usable bytes are the old ones or the whole new ones |
| `CachePublication.CacheDirectory.CommitCandidate` | crates/node-agent/src/rule_set.rs:671-729 | success is the candidate under its durable name, also when the metadata of a leftover backup could not be read; failure or a crash keeps the old bytes or the whole candidate |
| `CachePublication.CacheDirectory.Survive` | crates/node-agent/src/rule_set.rs:671-753 | any number of interrupted or misled commits and recoveries: the usable bytes are the original ones or one whole candidate, never older than a commit that succeeded, and a last recovery that could read the files puts them under the target's name |
| `Controller.RemoteController.SetPeriodic` | crates/node-agent/src/remote_control.rs:338-356 | the new setting, with a wake-up owed to every waiting stream |
| `Controller.RemoteController.Begin` | crates/node-agent/src/remote_control.rs:366-381 | an attempt starts exactly when the pull is enabled and the slot is free |
| `Controller.RemoteController.Finish` | crates/node-agent/src/remote_control.rs:383-430 | the slot that is emptied is the owner's own |
| `Controller.RemoteController.StepLease` | crates/node-agent/src/remote_control.rs:307-319 | the flag is raised after the gate is taken and lowered before it is freed, so it never outlives its lease |
| `Controller.RemoteController.StepStream` | crates/node-agent/src/remote_control.rs:961-1011 | every step of the scheduler loop keeps the invariant and fills or empties the slot only for itself |
| `Controller.RemoteController.Interleave` | crates/node-agent/src/remote_control.rs:307-430 | every interleaving of streams, setting changes, reloads and aborted tasks keeps the invariant |
| `Controller.Observed` | crates/node-agent/src/remote_control.rs:307-500 | one unfinished attempt, one live lease, and a next attempt exactly when one is due |
| `Controller.NoLostWakeup` | crates/node-agent/src/remote_control.rs:967-999 | a waiting stream that was not woken has nothing to do |
| `Limiter.BatchFitsBurst` | crates/acp-proto/src/analysis.rs:28-96 | under every configuration a full batch fits the burst |
| `Limiter.SendLimiter.Acquire` | crates/node-agent/src/analysis/stream.rs:34-58 | a refusal spends nothing, at most one sleep is needed, and an immediate refusal happens exactly when waiting is hopeless |
| `Limiter.WindowBound` | crates/node-agent/src/analysis/stream.rs:24-59 | in every window of time the granted bytes are at most the burst plus the rate times its length |
| `Limiter.BatchNeverTooLarge` | crates/node-agent/src/analysis/stream.rs:34-38 | whatever is in the bucket, a batch within the normalized limit is given up only if its deadline passes before an empty bucket would have filled enough |

## Left out

- Tags, ids, secrets and addresses are numbers in the runtime model: the code only compares and orders them. Tree maps of receipts are lists of records, so the order of a drain's answer is not modelled.
- The keys of a registry are the uuid, the password or the pair of id and naive password themselves: how each protocol hashes them is not modelled, nor that two naive pairs whose ids contain a colon can be the same text. An inbound's sockets are a set, so an inbound claiming one socket twice is not modelled.
- Why a running listener cannot take a config over (its groups, transport or QUIC settings) is in the `settings` and `fixed` fields of a listener: the comparison is made in the shoes crate, which is not part of this model.
- The registry's finalizer is not part of this model: a removal that failed twice leaves a receipt outstanding, and dropping its listener before a later call collects it loses its bytes (`lost`). Conservation holds until then.
- Nobody moves 2^64 bytes in one process lifetime: the engine model meters no byte beyond that, so the saturating additions of the receipt queue never saturate.
- Error branches that the contracts prove unreachable (an unknown member on a validated catalog, a lease of a tag that is not live) are not written out.
- The probe resolver's graph is a fingerprint given with the topology. Topologies with equal DNS client fingerprints and rule-set bytes are taken to compile to equal resolvers (`Coherent`): the two are hashes of everything a resolver is built from. The registry that binds it is not part of this model; binding it does not count as an engine change, and the pruning of URLTest groups after a commit is not modelled.
- A full table of replay namespaces may or may not refuse a new tag: which of its idle entries were pruned before is not modelled.
- Sessions appear only as the set of users that may have one under a credential taken from them; revoking a user also closes its sessions, which the model does not use.
- Parsing, normalization and engine validation are one verdict given to `Runtime.ShoesRuntime.Apply`; what normalization guarantees is a precondition on accepted topologies.
- Aggregator.TrafficAggregator.Observe: a time in the first, partial minute of the 64-bit range of seconds, where the source's multiplication overflows, is excluded; the same holds for Restore.
- Aggregator.TrafficAggregator.Flush: the order in which reports are sorted is not modelled.
- Controller.RemoteController.SetPeriodic: the cancellation token of a running attempt is not modelled; the attempt may end with any outcome at any time.
- DnsBlock.CompileDns: the digest that names a private server is an arbitrary injective function, and the budget charged for copied chains is in `ProjectionBudget`.
- ProjectionBudget.ClientChainProjectionBudget.CompileUrltest: the fingerprint is an arbitrary function to 64 characters; string escaping in rendered JSON and overflow of the platform's integers are not modelled.
- Catalog identities of outbounds are their tags, and the three protocols that can dial through a detour are one `Proxy` form whose hop is given; protocol field validation is not modelled.
- Limiter.SendLimiter.Acquire: time and tokens are real numbers; floating-point rounding is not modelled.
- Collecting prepared rule sets into one digest is not modelled: it would add easy members. The rename of a Unix system, which replaces atomically, needs no recovery and is not modelled; directory syncing is not either.
- The watcher's generation number does not wrap around.
- Transport, sessions, signal handling, command line, logging, telemetry, backoff, hashing and encoding, route-rule matching, rule-set downloads and freshness: outside the model.
