# TiCDC: a verified model of its ordering, durability and ownership protocols

TiCDC replicates row changes and DDLs of a TiDB cluster. Its correctness rests on a handful of protocols in
which several goroutines, an owner that may crash at any time and a storage that only keeps part of the state
have to agree on timestamps. This project models those protocols in Dafny and proves what they promise, for
every input, every interleaving and every run.

Objects that one goroutine updates in place are classes whose methods are proved equal to a function of the old
state. Code that several goroutines run at once is a step machine: a state, one step per atomic access, channel
operation or storage call, an invariant that every step keeps, and theorems over whole runs. Timers are
nondeterministic steps. Timestamps are unbounded naturals; the one place where the 64-bit maximum matters, an
empty minimum, spells it out.

| file | what it models |
|---|---|
| `DdlEvents.dfy`, `DdlBarrier.dfy`, `BarrierByFields.dfy` | DDL events, the barrier with its cut to 256 tables, and which tables it holds, said on the fields of the events |
| `DdlManager.dfy` | the DDL puller's queue, the DDL sink's queue and the owner's DDL manager |
| `OwnerProtocol.dfy`, `OwnerProgress.dfy` | whole runs of the owner: puller, ticks, sink goroutine, saved status, crashes, restarts; what becomes of one DDL |
| `Barriers.dfy`, `SyncPoint.dfy`, `Changefeed.dfy` | the cached barrier minimum, sync-point arithmetic, `handleBarrier` |
| `Matcher.dfy`, `RegionFeed.dfy`, `FeedRows.dfy` | prewrite/commit matching, one region feed with its resolved ts, and the rows it outputs field by field |
| `RegionTokens.dfy`, `RegionStops.dfy` | the shared kv client: where a locked region is, over streams, feed states and workers; deregistering a table |
| `PullerWakeup.dfy` | scheduling of resolved-ts advancing in the multiplexing puller |
| `SchemaStorage.dfy`, `SchemaRun.dfy` | the multi-version schema storage, its garbage collection, its racing writers and readers |
| `RedoLog.dfy`, `RedoMeta.dfy` | the redo log manager's flush protocol, and the redo meta files with crashes |
| `SplitSort.dfy` | splitting and sorting the updates of a transaction, and running the result on a table |
| `TableInfos.dfy` | column flags, handle choice, and building a table from columns |
| `TableRebuild.dfy`, `TableRoundTrip.dfy` | what a rebuild gives back of the columns it was given, and of a whole table with its virtual columns |
| `EventGroups.dfy`, `KafkaConsumer.dfy` | the Kafka consumer's row groups, table sinks and DDL order |
| `Sums.dfy`, `Chains.dfy`, `Prelude.dfy` | sums over sequences, used for counting; runs as chains of states; `Option` and the like |

## What the environment is taken to do

- The upstream's DDL jobs have strictly increasing `FinishedTS` and distinct nonzero IDs, and the events of a job
  carry its `FinishedTS` as `CommitTs`.
- The resolved ts that the DDL job puller passes on lies below every job it has still to pass on; it may pass on the
  last job again.
- A changefeed's resolved ts is a TSO, never zero.
- The scheduler answers a checkpoint between the current one and the `MinTableBarrierTs` it was given.
- `LockRange` hands out a region of a subscription only while that subscription does not hold it, as
  `regionIDToLockedRanges` in `cdc/kv/regionlock/region_range_lock.go` ensures.
- The frontier may answer any resolved ts; the downstream of a table sink flushes what it was given.
- The redo storage belongs to one changefeed; meta file names are never reused (they hold a UUID).
- A schema job that the storage accepts is the one whose content function `apply` answers; what it does to a
  schema is a parameter.
- TiDB's tables are well formed (`TableRoundTrip.WellFormed`): distinct IDs, one primary key whose columns are marked
  and not virtual.

Where code and comments differ the code is followed: `GetFlushedMeta` may be asked before the first flush and
answers zero; `Resolve` hands out rows with `CommitTs` equal to the resolved ts although its comment says "less
than"; `appendDDL` ignores a regressed DDL although its comment says it crashes.

## Model

| member | source | states |
|---|---|---|
| `DdlBarrier.RecordTables` | cdc/owner/ddl_manager.go:537-553 | every related table gets the smaller of its recorded ts and the DDL's, all others keep theirs |
| `DdlBarrier.SortByTs` | cdc/owner/ddl_manager.go:568-572 | the table barriers, sorted by ts: same tables with the same ts, none twice |
| `DdlBarrier.CollectTables` | cdc/owner/ddl_manager.go:557-567 | exactly the tables whose barrier does not exceed the global one, each once |
| `DdlBarrier.ComputeBarrier` | cdc/owner/ddl_manager.go:508-581 | the three bounds are the minima over the DDLs they range over, the list is a sorted full listing cut at 256 with the first table cut off as global bound |
| `DdlBarrier.CutTableHeldByGlobal` | cdc/owner/ddl_manager.go:573-576 | a table that the cut drops is held by the new global bound |
| `DdlBarrier.CutOnlyLowers` | cdc/owner/ddl_manager.go:573-576 | the cut never raises the global bound and keeps every listed table at or below it |
| `DdlBarrier.BarrierHoldsEveryTable` | cdc/owner/ddl_manager.go:508-581 | for any number of tables, no table may pass a next DDL related to it or global, and listed barriers never exceed the global one |
| `DdlBarrier.MinBelowAll` | cdc/owner/ddl_manager.go:508-581 | the minimum table barrier is below the global, redo and every listed barrier |
| `DdlBarrier.UncutBarrierIsExact` | cdc/owner/ddl_manager.go:508-581 | with fewer than 256 tables listed, a table is held by exactly the resolved ts, the global DDLs and the DDLs related to it |
| `BarrierByFields.NextDdlHoldsItsTables` | cdc/owner/ddl_manager.go:673-693 | the table of a next DDL, taken before the change if known, and every partition of it stay at or below its CommitTs; every table does for an action outside the 27 that touch only their own |
| `BarrierByFields.OthersDoNotHold` | cdc/owner/ddl_manager.go:58-86 | with fewer than 256 tables listed, a table stands at the least of the resolved ts and the DDLs that hold all tables or touch it: no other DDL holds it |
| `BarrierByFields.ListIsShort` | cdc/owner/ddl_manager.go:36-39 | at most 256 tables are listed |
| `BarrierByFields.RedoWaitsForNewTables` | cdc/owner/ddl_manager.go:88-97 | with redo on the redo bound is the least of the resolved ts and the DDLs of the eight actions that make a table; without, the resolved ts |
| `BarrierByFields.LoweredBarrierHolds` | cdc/owner/changefeed.go:958-974 | another barrier lowers every table's bound and the minimum to at most itself and changes nothing else |
| `DdlManager.DdlPuller.ReceiveEntry` | cdc/puller/ddl_puller.go:668-735 | a job is queued unless it repeats the last job's ID; the resolved ts only grows |
| `DdlManager.DdlPuller.PopFrontDDL` | cdc/puller/ddl_puller.go:754-763 | takes the first queued job with its finished ts, or answers the resolved ts |
| `DdlManager.DdlPuller.ResolvedTs` | cdc/puller/ddl_puller.go:776-784 | held back to the first queued job's finished ts |
| `DdlManager.DdlSink.EmitDDLEvent` | cdc/owner/ddl_sink.go:327-383 | answers whether the event is done; queues it only if not sent before and the channel has room |
| `DdlManager.NamedMembers` | cdc/owner/ddl_manager.go:311-325 | the kept events of a table are exactly its events, without creations of ineligible tables |
| `DdlManager.AddEventsAppends` | cdc/owner/ddl_manager.go:311-325 | draining a job appends to each table's pending list its kept events, in order, and touches no other list |
| `DdlManager.AddEventsKeepsWellFormed` | cdc/owner/ddl_manager.go:311-325 | draining keeps the executing DDL at the head of its table's list |
| `DdlManager.DrainAllHolds` | cdc/owner/ddl_manager.go:285-325 | after draining, what is pending is what was and every event of every job but the creations of ineligible tables |
| `DdlManager.NextIsHead` | cdc/owner/ddl_manager.go:477-494 | the next DDL is the head of its table's pending list |
| `DdlManager.DdlManagerImpl.HandleJob` | cdc/owner/ddl_manager.go:311-325 | the events of one job appended, dropped events left out |
| `DdlManager.DdlManagerImpl.GetNextDDL` | cdc/owner/ddl_manager.go:477-494 | the executing DDL, or a head with the least CommitTs, or none when no list has one; empty lists go |
| `DdlManager.DdlManagerImpl.CleanCache` | cdc/owner/ddl_manager.go:652-669 | removes the executing DDL from its list and remembers it as just sent |
| `DdlManager.DdlManagerImpl.ExecuteDDL` | cdc/owner/ddl_manager.go:445-474 | a skipped DDL is cleaned at once, any other is offered to the sink and cleaned when done |
| `DdlManager.DdlManagerImpl.AdvanceAndExecute` | cdc/owner/ddl_manager.go:345-390 | resolved ts capped by redo and never lowered, next DDL chosen, panic when the checkpoint passed it, execution only at its CommitTs |
| `DdlManager.DdlManagerImpl.GetAllTableNextDDL` | cdc/owner/ddl_manager.go:497-505 | exactly the heads of the pending lists |
| `DdlManager.DdlManagerImpl.TakeBarrier` | cdc/owner/ddl_manager.go:508-581 | the barrier over all heads and the DDL just sent, which is then forgotten |
| `DdlManager.DdlManagerImpl.Tick` | cdc/owner/ddl_manager.go:257-393 | before the bootstrap is out nothing is drained or executed; after, every queued job is drained in order, then the manager advances, then the barrier |
| `OwnerProtocol.NeverPanics` | cdc/owner/ddl_manager.go:362-370 | while every pending DDL is at or above the checkpoint, the "checkpointTs is greater than next ddl commitTs" panic is not reached |
| `OwnerProtocol.StartKeepsInv` | cdc/owner/changefeed.go:621-634 | a restart from the saved status starts the puller below every unfinished DDL |
| `OwnerProtocol.StepKeepsInv` | cdc/owner/changefeed.go:428-533 | every step of puller, tick, sink, store, crash and restart keeps the protocol's invariant |
| `OwnerProtocol.UnfinishedDdlIsNeverPassed` | cdc/owner/changefeed.go:511-533 | in every run with crashes, each DDL not executed or skipped has CommitTs >= saved MinTableBarrierTs >= saved CheckpointTs, no panic happened, and a restart pulls it again |
| `OwnerProtocol.NoDdlIsLost` | cdc/owner/ddl_manager.go:285-393 | while the owner lives, an unfinished DDL is in a pending list or still ahead of the drain loop |
| `OwnerProtocol.DdlsRunInOrder` | cdc/owner/ddl_manager.go:445-494 | DDLs reach the downstream in nondecreasing CommitTs order across restarts, the executing DDL heads its list, and an event enters the sink channel at most once per life |
| `OwnerProtocol.LeavesPendingOnlyWhenFinished` | cdc/owner/ddl_manager.go:652-669 | an event leaves the pending lists only when executed or skipped |
| `OwnerProgress.SkippedOnlyWhenSetAside` | cdc/owner/ddl_manager.go:427-443 | in any run an event is skipped only in its turn and only if the filter ignores it, or the changefeed is in BDR mode and the primary cluster did not issue it |
| `OwnerProgress.TurnIsTaken` | cdc/owner/ddl_manager.go:361-390 | when the checkpoint stands at a head, nothing is executing and redo allows it, the tick takes up a head at the checkpoint: skipped if to be set aside, else executing and in the sink's channel |
| `OwnerProgress.SinkExecutes` | cdc/owner/ddl_sink.go:237-266 | the sink takes the event from the channel, writes it downstream and then marks it done; nothing else executes events |
| `OwnerProgress.DoneIsCleared` | cdc/owner/ddl_manager.go:466-473 | a tick that finds the executing event done clears it, and does not count it as skipped |
| `OwnerProgress.RedoHoldsBack` | cdc/owner/ddl_manager.go:395-425 | with redo on and its checkpoint not at the owner's, or the DDL resolved ts below it, a tick changes neither lists nor executing event nor sink |
| `OwnerProgress.ResolvedTsFollowsPuller` | cdc/owner/ddl_manager.go:345-359 | the DDL resolved ts rises to the first queued job or the puller's resolved ts, with redo on not above what redo flushed, and never falls |
| `OwnerProgress.PullerCatchesUp` | cdc/puller/ddl_puller.go:718-727 | a resolved ts the puller receives is not lost |
| `OwnerProgress.DrainedEventsArePending` | cdc/owner/ddl_manager.go:311-325 | draining a job makes exactly its events pending, but the creations of ineligible tables |
| `OwnerProgress.TickHoldsItsTables` | cdc/owner/ddl_manager.go:508-581 | the barrier a tick hands on holds the tables of every head and of the event it has just cleared or skipped |
| `OwnerProgress.StatusFollowsTicks` | cdc/owner/changefeed.go:449-533 | what a tick asks to be saved: nothing if a table bound is below the checkpoint or the scheduler cannot proceed, else its checkpoint and the lowered minimum, which never falls |
| `OwnerProgress.RestartRepeatsOnlyAtBarrier` | cdc/owner/changefeed.go:621-634 | a restart pulls a finished event again only if the saved checkpoint equals the saved minimum barrier, and then only events at it |
| `Barriers.BarrierCache.Update` | cdc/owner/barrier.go:46-53 | the map updated, dirty exactly when the cached minimum may have moved |
| `Barriers.BarrierCache.Min` | cdc/owner/barrier.go:56-64 | the cached type with its ts, or a recomputed minimum, cached |
| `Barriers.BarrierCache.CalcMin` | cdc/owner/barrier.go:66-75 | a type that holds the least ts of the map, or the 64-bit maximum for an empty one |
| `Barriers.BarrierCache.Remove` | cdc/owner/barrier.go:77-80 | the type removed and the cache dirty |
| `Barriers.RunKeepsCoherence` | cdc/owner/barrier.go:46-80 | over any run that never asks an empty map, a clean cache names a minimum |
| `Barriers.CachedMinimumIsTrue` | cdc/owner/barrier.go:46-80 | every answer of such a run is the true minimum and its type holds it |
| `Barriers.MapIsRegistered` | cdc/owner/barrier.go:46-80 | over any run the map holds for each type what was last registered and not removed since |
| `Barriers.MinSafeIffNonEmpty` | cdc/owner/barrier.go:56-64 | on a coherent cache the answer is right and the cache stays coherent if and only if the map is not empty |
| `Barriers.EmptyMapPoisonsCache` | cdc/owner/barrier.go:56-64 | a run that asks an empty map twice later answers 0 although the map holds 5 |
| `SyncPoint.FirstIndexBounds` | cdc/owner/changefeed.go:637-647 | the chosen multiple is at or above the resolved ts and the one before is below it |
| `SyncPoint.FirstIsLeastMultiple` | cdc/owner/changefeed.go:637-647 | for any resolved ts, logical bits included, and any whole-millisecond interval the first barrier is the least multiple at or above it |
| `SyncPoint.NextIsNextMultiple` | cdc/owner/changefeed.go:941-945 | after a multiple the next barrier is the next multiple, strictly later |
| `SyncPoint.TsoLayout` | cdc/owner/changefeed.go:637-645 | a TSO is milliseconds shifted by 18 bits with a logical part, which the way back drops |
| `SyncPoint.FirstReachesIff` | cdc/owner/changefeed.go:637-647 | for every positive interval the first barrier reaches the resolved ts if and only if that has no logical part or is at least a millisecond short of the next multiple |
| `SyncPoint.FirstSkipsNone` | cdc/owner/changefeed.go:637-647 | for every positive interval the first barrier skips no multiple, cut to milliseconds, at or above the resolved ts |
| `SyncPoint.NextIsNextCutMultipleIff` | cdc/owner/changefeed.go:941-945 | after a multiple cut to milliseconds comes the next one, cut alike, if and only if the cut-off parts do not carry |
| `SyncPoint.FractionalIntervalFallsShort` | pkg/config/replica_config.go:262-268 | the accepted interval of 30 s and half a millisecond gives a first barrier before the resolved ts and a second one before the second multiple |
| `Changefeed.ChangefeedImpl.constructor` | cdc/owner/changefeed.go:636-648 | the first sync point and the finish barrier registered |
| `Changefeed.ChangefeedImpl.HandleBarrier` | cdc/owner/changefeed.go:929-979 | at its own barrier a sync point is written once and the next one registered, or the feed is finished; a failed sync point returns the error with the barrier untouched; else the global and the minimum table barrier become the smaller of themselves and the least own barrier, the rest stays |
| `Changefeed.HandleKeepsSchedule` | cdc/owner/changefeed.go:929-979 | one call keeps the written sync points consecutive multiples, and the barrier at the next unless it fails |
| `Changefeed.SyncPointsAreConsecutive` | cdc/owner/changefeed.go:929-979 | over any run, failures included, the sync points written are the consecutive multiples from the least one at or above the resolved ts |
| `Changefeed.AnswerIsLeast` | cdc/owner/changefeed.go:934-934 | over any run the least own barrier is the smaller of the next sync point and the target, and its type says which |
| `Changefeed.SyncPointWrittenIff` | cdc/owner/changefeed.go:941-950 | a call writes exactly the next sync point if and only if the checkpoint stands there, it is the barrier named and the sink takes it |
| `Changefeed.FinishedIff` | cdc/owner/changefeed.go:951-952 | the feed is finished if and only if at some call the checkpoint stood at the target and the finish barrier was named |
| `Matcher.MatcherImpl.PutPrewriteRow` | cdc/kv/matcher.go:44-66 | a valueless prewrite or one of an older generation never replaces a known one |
| `Matcher.MatcherImpl.MatchRow` | cdc/kv/matcher.go:69-87 | whether the commit matches, the row with the prewrite's value and old value, the prewrite forgotten |
| `Matcher.MatcherImpl.CacheCommitRow` | cdc/kv/matcher.go:89-92 | the commit appended to the cache |
| `Matcher.MatcherImpl.RollbackRow` | cdc/kv/matcher.go:119-121 | the prewrite forgotten |
| `Matcher.MatcherImpl.MatchCachedRow` | cdc/kv/matcher.go:94-117 | in-place compaction gives exactly the cached commits that match, filled in, in order; the cache is empty |
| `Matcher.MatcherImpl.MatchCachedRollbackRow` | cdc/kv/matcher.go:128-138 | every cached rollback applied and the cache empty |
| `Matcher.MatchAllLeavesOthers` | cdc/kv/matcher.go:94-117 | a key without a cached commit is left alone |
| `Matcher.MatchAllFindsOne` | cdc/kv/matcher.go:94-117 | a key with one cached commit and a prewrite yields exactly that commit with the prewrite's value |
| `RegionFeed.RegionFeedImpl.Initialize` | cdc/kv/shared_region_worker.go:264-279 | marks the feed initialized and emits the matched cached commits, stopping at the first bad one |
| `RegionFeed.RegionFeedImpl.CommitEntry` | cdc/kv/shared_region_worker.go:303-341 | an unmatched commit is cached before initialization and an error after; a stale one is dropped, one below the resolved ts an error |
| `RegionFeed.RegionFeedImpl.HandleEventEntry` | cdc/kv/shared_region_worker.go:235-351 | the entries handled in order up to the first error |
| `RegionFeed.RegionFeedImpl.ForwardResolvedTs` | cdc/kv/shared_region_worker.go:388-445 | forwarded only when initialized, not stopped and not fallen back |
| `RegionFeed.ResolvedPromise` | cdc/kv/shared_region_worker.go:235-351 | in any run of one feed, after a forwarded resolved ts no row at or below it is emitted, and the commit cache stays empty after initialization |
| `RegionFeed.ResolvedNeverFallsBack` | cdc/kv/region_state.go:165-175 | the region's resolved ts never decreases |
| `RegionFeed.StaleIsSeenInCache` | cdc/kv/matcher.go:94-117 | what INITIALIZED emits at or below a ts shows in the cache before: a commit at or below it, first of its key, with a prewrite, and nothing unknown up to it |
| `RegionFeed.EntryEmitsAboveResolved` | cdc/kv/shared_region_worker.go:255-348 | an entry's rows are all above the resolved ts if and only if it is not an INITIALIZED with such a commit in the cache |
| `RegionFeed.EntryEmitsAboveStart` | cdc/kv/shared_region_worker.go:255-348 | they are all above the table's start ts if and only if there is no such commit at or below it, and no COMMITTED entry between a lower resolved ts and it |
| `RegionFeed.StaleCommitEscapesCheck` | cdc/kv/shared_region_worker.go:268-277 | a commit below the table's start ts that was cached is emitted at INITIALIZED |
| `RegionFeed.EntryOfThisKey` | cdc/kv/shared_region_worker.go:255-348 | one entry of the key moves its state: value kept, commit cached or emitted once |
| `RegionFeed.HarmlessEntriesSucceed` | cdc/kv/shared_region_worker.go:255-348 | which entries cannot fail before INITIALIZED: all but commits of an unknown kind or not above the resolved ts |
| `RegionFeed.ProcessAllIsHandleEntries` | cdc/kv/shared_region_worker.go:188-217 | before INITIALIZED batching does not matter and resolved timestamps do nothing |
| `RegionFeed.OrderDoesNotMatter` | cdc/kv/shared_region_worker.go:255-348 | any interleaving, over any batches, of the final value's prewrite, the commit, heartbeats and earlier flushes before INITIALIZED, among entries that cannot fail, emits exactly one row: operation, key and timestamps of the commit, value and old value of that prewrite |
| `FeedRows.CommitAfterInitialized` | cdc/kv/shared_region_worker.go:303-341 | every case of a commit once initialized: the error without a prewrite, dropped, refused, or the row with the prewrite's value and old value; the prewrite is used up |
| `FeedRows.CommitBeforeInitialized` | cdc/kv/matcher.go:69-87 | before, it goes out only with a known value of no pipelined transaction, else it is cached |
| `FeedRows.CommittedEntry` | cdc/kv/shared_region_worker.go:281-299 | a COMMITTED entry is output with its own values unless not above the resolved ts or of an unknown operation |
| `FeedRows.OutOfSpanIsIgnored` | cdc/kv/shared_region_worker.go:250-254 | an entry outside the span changes nothing, INITIALIZED apart |
| `FeedRows.LatestPrewriteWins` | cdc/kv/matcher.go:44-66 | after INITIALIZED too, whatever the order of heartbeats, earlier flushes and the final prewrite, the commit yields one row with the final prewrite's values |
| `FeedRows.RollbackForgets` | cdc/kv/shared_region_worker.go:342-348 | a rollback forgets its prewrite at once when initialized, else is cached |
| `FeedRows.LeftAfterInitialized` | cdc/kv/matcher.go:94-138 | INITIALIZED leaves exactly the prewrites without a cached commit or rollback, and empties both caches |
| `FeedRows.ResolvedIsForwardedIff` | cdc/kv/shared_region_worker.go:388-445 | a resolved ts is output and remembered if and only if the feed runs, is initialized and it does not fall back |
| `FeedRows.BatchIsHandled` | cdc/kv/shared_region_worker.go:188-202 | a running feed handles a batch entry by entry and is removed if and only if that fails |
| `FeedRows.FeedEnds` | cdc/kv/shared_region_worker.go:168-217 | a store error removes the feed, a stream stops it, a stopped one is removed at its next event, all without output |
| `FeedRows.StoppedFeedIsSilent` | cdc/kv/shared_region_worker.go:188-194 | a stopped feed outputs nothing any more over any run |
| `RegionTokens.ClientConserves` | cdc/kv/shared_client.go:425-480 | locking, routing, broadcasting a stop and unlocking keep every locked region in one place |
| `RegionTokens.StreamConserves` | cdc/kv/shared_stream.go:313-393 | sending, skipping, signalling and giving back regions keep every locked region in one place |
| `RegionTokens.LocalConserves` | cdc/kv/shared_stream.go:66-88 | moving regions between a stream's queue, prefetch slot, hand and pending list loses none |
| `RegionTokens.WorkerConserves` | cdc/kv/shared_region_worker.go:168-217 | a worker that removes a feed state takes over its region until it reports it |
| `RegionTokens.TakesOwnState` | cdc/kv/shared_region_worker.go:182-185 | takeState after markRemoved finds the worker's own feed state or nothing |
| `RegionTokens.SetsFreshState` | cdc/kv/shared_stream.go:405-414 | setState never overwrites an entry, in any stream |
| `RegionTokens.StepKeepsInv` | cdc/kv/shared_stream.go:61-140 | every step of client, streams and workers keeps conservation, the links between entries and feeds, and single reporting |
| `RegionTokens.RegionInOnePlace` | cdc/kv/shared_client.go:626-681 | over any run a region is in exactly one place from lock to unlock, and in none otherwise |
| `RegionTokens.UnlocksOnlyLocked` | cdc/kv/shared_client.go:675-681 | UnlockRange is only called for a locked region, so its "not locked" panic is unreachable |
| `RegionTokens.ReportedAtMostOnce` | cdc/kv/region_state.go:114-146 | whatever stream and worker interleave, a feed state is reported at most once, after it was removed |
| `RegionTokens.NoFeedIsStranded` | cdc/kv/shared_stream.go:103-118 | a feed that is not removed is known to its stream or stopped with its worker notified if and only if its stream did not break while signalling a deregistered table, or its worker was notified otherwise |
| `RegionTokens.NothingStrandedWithoutBreak` | cdc/kv/shared_stream.go:349-356 | in a run in which no stream breaks there, every feed that is not removed is known or notified |
| `RegionTokens.OrphanIff` | cdc/kv/shared_stream.go:349-356 | nobody knows of a feed if and only if a breaking stream gave it up and no receiver, event or worker has it |
| `RegionTokens.OrphanIsForever` | cdc/kv/shared_stream.go:349-356 | such a feed is never removed and its region never unlocked |
| `RegionTokens.BrokenStreamStrandsFeed` | cdc/kv/shared_stream.go:349-356 | a run that ends with such a feed, its region locked |
| `RegionTokens.NothingIsOverwritten` | cdc/kv/shared_stream.go:66-88 | the "preFetchForConnecting should be nil" panic is unreachable and a request is only sent for a region without an entry |
| `RegionStops.StopReachesEveryStream` | cdc/kv/shared_client.go:515-519 | when the router is through with a stop task every stream has got it |
| `RegionStops.StopTaskClears` | cdc/kv/shared_stream.go:438-444 | handling it takes every state of the table out of the stream, and no other |
| `RegionStops.StreamNeverServesAgain` | cdc/kv/shared_stream.go:342-356 | a stream that has handled it never has a state of the table again |
| `RegionStops.StoppedTableGetsNoFeed` | cdc/kv/shared_stream.go:357-367 | once deregistered a table gets no new feed in any stream |
| `RegionStops.FailureEndsFeed` | cdc/kv/shared_region_worker.go:188-213 | a failing event, or any of a feed that is not running, stops the feed and sends its worker to remove it; no other event does |
| `PullerWakeup.StepKeepsTokens` | cdc/puller/multiplexing_puller.go:429-436 | a progress has exactly one schedule token while its flag is set, and none otherwise |
| `PullerWakeup.StepKeepsWake` | cdc/puller/multiplexing_puller.go:442-450 | cached events always have the flag set or a goroutine about to schedule or look again |
| `PullerWakeup.CachedEventsAreNoticed` | cdc/puller/multiplexing_puller.go:399-409 | no lost wake-up over any run |
| `PullerWakeup.AdvancersExcludeEachOther` | cdc/puller/multiplexing_puller.go:440-480 | at most one advancer works on a progress, and the progress is not in the channel meanwhile |
| `PullerWakeup.SentResolvedTsIncreases` | cdc/puller/multiplexing_puller.go:78-112 | the resolved ts given to the consumer strictly increases |
| `PullerWakeup.StoredIsSent` | cdc/puller/multiplexing_puller.go:78-112 | the stored resolved ts of a subscribed table is the last one sent, unless an advancer is just between storing and sending |
| `PullerWakeup.FrontierIsStored` | cdc/puller/multiplexing_puller.go:78-112 | an advancer is through with a frontier value only when the stored resolved ts is at least that |
| `PullerWakeup.EventsAreTakenInTurn` | cdc/puller/multiplexing_puller.go:440-480 | a cache changes only by appending one event, or by handing the first to an advancer |
| `PullerWakeup.AdvancerDrainsBatch` | cdc/puller/multiplexing_puller.go:440-480 | an advancer stops only when the cache is empty or its batch is done |
| `SchemaStorage.SchemaStorageImpl.Search` | cdc/entry/schema_storage.go:138-141 | binary search for the first snapshot newer than ts |
| `SchemaStorage.SchemaStorageImpl.GetSnapshot` | cdc/entry/schema_storage.go:122-149 | the newest snapshot not newer than ts, or which error: collected, unresolved, not found |
| `SchemaStorage.ReadIff` | cdc/entry/schema_storage.go:122-149 | each error if and only if its own condition; a found snapshot lies between gcTs and the resolved ts and is the newest not newer than ts |
| `SchemaStorage.SchemaStorageImpl.HandleDDLJob` | cdc/entry/schema_storage.go:191-241 | a job that is not done only resolves, an old one is ignored, a new one appends a snapshot, a refused one changes nothing |
| `SchemaStorage.HandledJobIsReadable` | cdc/entry/schema_storage.go:191-241 | a job that applies is readable at its finished ts right away; one that is not done only resolves; a refused one changes nothing |
| `SchemaStorage.SchemaStorageImpl.AdvanceResolvedTs` | cdc/entry/schema_storage.go:328-333 | the resolved ts only grows in one thread |
| `SchemaStorage.SchemaStorageImpl.DoGC` | cdc/entry/schema_storage.go:340-372 | keeps from the newest snapshot not newer than ts on |
| `SchemaStorage.GcPreservesAnswers` | cdc/entry/schema_storage.go:340-372 | collection changes no answer from the new oldest snapshot or from ts on, gcTs never exceeds ts, and only the newest snapshot not newer than ts stays of those |
| `SchemaRun.FoundIsReplay` | cdc/entry/schema_storage.go:122-149 | a found snapshot is the replay of exactly the accepted jobs up to its ts |
| `SchemaRun.LaterJobKeepsAnswers` | cdc/puller/ddl_puller.go:302-321 | a job above the puller's resolved ts changes no replay at or below it |
| `SchemaRun.ReadsAreStable` | cdc/entry/schema_storage.go:122-149 | an answer equals replaying the accepted jobs up to its ts, against the jobs accepted at any later point |
| `SchemaRun.ReadIsReplay` | cdc/entry/schema_storage.go:122-149 | a successful read at any instant equals the replay of the jobs up to its ts accepted then or at any later point |
| `SchemaRun.AcceptedIff` | cdc/puller/ddl_puller.go:302-325 | a job is accepted if and only if done, with a schema version, not filtered, after the puller's resolved ts and the last accepted job, and applicable to the replayed schema; the puller fails if only the last is not so |
| `SchemaRun.ResolvedReachesStorage` | cdc/entry/schema_storage.go:328-333 | what the puller or the owner passes on is below the storage's resolved ts already or stored next |
| `SchemaRun.ReaderIsAnswered` | cdc/entry/schema_storage.go:122-149 | a reader may look if and only if its ts is neither collected nor unresolved, and is answered from the oldest snapshot on |
| `SchemaRun.RowNeverMeetsCollectedSchema` | cdc/processor/processor.go:868-870 | with collection below the checkpoint, a row at or above it never reads a collected schema |
| `RedoLog.HandledIsWritten` | cdc/redo/manager.go:466-497 | when the write loop takes a resolved message every earlier event of the span is written |
| `RedoLog.FlushLogMakesDurable` | cdc/redo/manager.go:443-462 | what was written when FlushLog was called is durable when it returns |
| `RedoLog.StepOnlyAdds` | cdc/redo/manager.go:177-183 | no step takes back a written or durable event or lowers a flushed ts |
| `RedoLog.StepKeepsInv` | cdc/redo/manager.go:386-504 | every atomic access of emitters, write loop, flush goroutine and table changes keeps every unflushed ts written and every flushed ts durable |
| `RedoLog.ReportedTsIsDurable` | cdc/redo/manager.go:324-373 | a reported redo ts was given to AddTable/StartTable or is that of a resolved message with every event of the span buffered ahead of it durable |
| `RedoLog.ReportedTsNeverRegresses` | cdc/redo/manager.go:355-360 | while a table keeps its entry the reported redo ts never falls |
| `RedoLog.FlushReachesUnflushed` | cdc/redo/manager.go:386-416 | while a table keeps its entry, a flush that read its unflushed ts and posts it leaves a flushed ts of at least that |
| `RedoLog.MessagesAreTaken` | cdc/redo/manager.go:466-504 | the write loop writes every batch and makes a resolved ts the unflushed ts of its table |
| `RedoLog.FlushVisitsTables` | cdc/redo/manager.go:386-416 | a flush reads a table through its entry and posts to the entry it then has |
| `RedoLog.TablesComeAndGo` | cdc/redo/manager.go:324-384 | adding, starting and removing a table, and the flushed ts that is reported |
| `RedoMeta.ParseMeta` | cdc/redo/common/redo_meta.go:29-40 | the two independent maxima |
| `RedoMeta.StepKeepsCover` | cdc/redo/meta_manager.go:432-470 | no storage step, crash included, lets the recoverable checkpoint or resolved ts fall |
| `RedoMeta.StepKeepsMgr` | cdc/redo/meta_manager.go:216-288 | the last written meta file dominates all others and what is published is not above it |
| `RedoMeta.ReportedMetaSurvives` | cdc/redo/meta_manager.go:208-213 | after a crash at any step the maxima over surviving files are at least every reported value |
| `RedoMeta.RemovedLogsAreBelowCheckpoint` | cdc/redo/meta_manager.go:321-348 | a removed log file is one of the changefeed's own DDL or row logs, with a max CommitTs below the recoverable checkpoint |
| `RedoMeta.RemovableIff` | cdc/redo/meta_manager.go:321-348 | a collection can remove a stored file if and only if it is such a log below its checkpoint |
| `RedoMeta.CollectsIff` | cdc/redo/meta_manager.go:515-548 | a collection starts if and only if the manager runs, none is under way and the checkpoint has changed |
| `RedoMeta.UpdatesAreFlushed` | cdc/redo/meta_manager.go:384-470 | larger values are taken, a flush that finds one ahead writes both, replaces the previous file and publishes exactly what it wrote |
| `RedoMeta.RestartTakesMaxima` | cdc/redo/meta_manager.go:216-288 | a restart takes up from values not below any surviving file, each read from a file or its start ts |
| `RedoMeta.ReportsNeverRegress` | cdc/redo/meta_manager.go:427-430 | what a running manager reports is never below anything reported before, crashes included |
| `SplitSort.ShouldSplitUpdateEvent` | cdc/model/sink.go:1237-1257 | whether some key column prints differently before and after |
| `SplitSort.SortRows` | cdc/model/sink.go:419-431 | sorted delete < update < insert, a permutation |
| `SplitSort.TrySplitAndSort` | cdc/model/sink.go:1185-1225 | nil and empty events gone, key-changing updates split, sorted exactly when something was split |
| `SplitSort.NotSplitKeepsKeys` | cdc/model/sink.go:1237-1257 | an update that is not split keeps every handle and unique key |
| `SplitSort.SplitIff` | cdc/model/sink.go:1237-1257 | an update becomes a delete and an insert if and only if a handle or unique key column has data before and after and prints differently |
| `SplitSort.SameKeysAreNotSplit` | cdc/model/sink.go:1237-1257 | an update that keeps every key column is left whole |
| `SplitSort.OutputOrder` | cdc/model/sink.go:419-431 | after a split only deletes precede a delete and only inserts follow an insert |
| `SplitSort.SplitAllKeepsRows` | cdc/model/sink.go:1260-1293 | splitting neither adds nor loses an old or a new row |
| `SplitSort.OrderWorksIff` | cdc/model/sink.go:1185-1225 | running settled events in a given order gives the transaction's table if and only if no insert precedes the delete of a row holding one of its keys |
| `SplitSort.SplitAndSortPreservesMeaning` | cdc/model/sink.go:1185-1225 | with a split, running the output finds every old row, every insert finds its keys free, and the final table is the transaction's |
| `SplitSort.UnsplitOrderWorksIff` | cdc/model/sink.go:1185-1225 | without a split the original order works if and only if no insert precedes such a delete |
| `SplitSort.UnsplitInsertMeetsTakenKey` | cdc/model/sink.go:1221-1224 | a consistent transaction without a split whose insert meets a taken key |
| `TableInfos.FindHandleIndex` | cdc/model/schema_storage.go:203-230 | the first primary index, else the unique not-null one with fewest columns and smallest ID, else ineligible |
| `TableInfos.HandleMeans` | cdc/model/schema_storage.go:203-230 | the handle said on columns and indices: row ID or clustered primary key, first primary index, the shortest unique one on columns neither nullable nor virtual, or none |
| `TableInfos.FlagMeans` | cdc/model/schema_storage.go:232-287 | each flag if and only if the column or one of its indices says so |
| `TableInfos.InitColumnsFlag` | cdc/model/schema_storage.go:232-287 | every flag of every column, said outright in terms of the column and the indices it is in |
| `TableInfos.WrapTableInfo` | cdc/model/schema_storage.go:99-181 | handle, flags and the visible column offsets of each key |
| `TableInfos.BuildTableInfo` | cdc/model/sink.go:826-994 | panics exactly on a bad column, two handle indices without a primary key, or a primary key without its index; else the described table |
| `TableRebuild.OtherFlagsSurvive` | cdc/model/sink.go:826-994 | every flag but the handle survives the rebuild whatever the handle is |
| `TableRebuild.HandleBackIff` | cdc/model/sink.go:919-985 | without a primary key the handle comes back if and only if no entry of not-null columns is shorter than the handle's |
| `TableRebuild.NoHandleBackIff` | cdc/model/sink.go:919-985 | columns without a handle get none if and only if no entry is all not null |
| `TableRoundTrip.HandleIsPrimary` | cdc/model/schema_storage.go:203-287 | with a primary key the handle columns are exactly its columns |
| `TableRoundTrip.RebuildFailsIff` | cdc/model/sink.go:952-985 | the rebuild panics if and only if there is no primary key and two keys have a non-empty visible part within the handle columns |
| `TableRoundTrip.RebuildKeepsColumns` | cdc/model/sink.go:467-484 | whatever virtual columns there are, names, types, known charsets and collations, and every flag but the handle come back |
| `TableRoundTrip.RebuildKeepsHandleIff` | cdc/model/schema_storage.go:203-230 | otherwise handle and flags come back if and only if there is a primary key, or no key with virtual columns has a not-null visible part shorter than the handle (any such part without a handle); the same handle is then chosen |
| `TableRoundTrip.RebuildRoundTripIff` | cdc/model/sink.go:826-994 | and the very same columns if and only if besides every charset and collation was known |
| `TableRoundTrip.VirtualColumnMovesHandle` | cdc/model/schema_storage.go:163-174 | a well-formed table whose rebuild does not panic but moves the handle to a key that lost its virtual column |
| `TableRoundTrip.VirtualColumnPanics` | cdc/model/sink.go:952-966 | a well-formed table with UNIQUE (b) and UNIQUE (b, v), v virtual, whose rebuild panics |
| `EventGroups.SearchSplits` | cmd/kafka-consumer/event_group.go:61-66 | on sorted rows the binary search separates those up to ts from those above |
| `EventGroups.SearchIsExactIff` | cmd/kafka-consumer/event_group.go:61-66 | on any rows it splits exactly the rows up to ts from the others if and only if none above ts comes before one at or below it |
| `EventGroups.EventsGroup.Append` | cmd/kafka-consumer/event_group.go:44-48 | the row appended, the high watermark the larger ts |
| `EventGroups.EventsGroup.Resolve` | cmd/kafka-consumer/event_group.go:61-76 | hands out a prefix and keeps the rest; exactly the rows up to ts if and only if none above it comes before one of them |
| `KafkaConsumer.Writer.AppendDDL` | cmd/kafka-consumer/writer.go:194-216 | a DDL below the largest one, or that one again, is ignored |
| `KafkaConsumer.Writer.AppendRow2Group` | cmd/kafka-consumer/writer.go:450-503 | which rows are refused, by watermark, high watermark and protocol |
| `KafkaConsumer.Writer.HandleResolved` | cmd/kafka-consumer/writer.go:93-112 | the watermark only grows, panics on a newer offset falling back, and the groups are resolved |
| `KafkaConsumer.ResolveRowChangedEvents` | cmd/kafka-consumer/writer.go:414-431 | every group's resolved prefix moves to its table's sink, in order, whatever the map order |
| `KafkaConsumer.SyncFlush` | cmd/kafka-consumer/writer.go:505-527 | every sink of the partition flushed up to ts unless it was already |
| `KafkaConsumer.Writer.GetMinWatermark` | cmd/kafka-consumer/writer.go:231-240 | the least watermark of the partitions |
| `KafkaConsumer.Writer.Write` | cmd/kafka-consumer/writer.go:256-295 | each DDL up to the least watermark executes after flushing every partition to its CommitTs |
| `KafkaConsumer.StepKeepsInv` | cmd/kafka-consumer/writer.go:298-412 | every row, DDL, watermark and write keeps groups and sinks sorted, above their bounds and without loss |
| `KafkaConsumer.NoRowIsLost` | cmd/kafka-consumer/event_group.go:44-76 | for simple, open and canal-json the accepted rows are the flushed, sunk and grouped ones, in order, and groups stay sorted |
| `KafkaConsumer.RowsPrecedeDdl` | cmd/kafka-consumer/writer.go:256-295 | when a DDL executes every accepted row with a smaller CommitTs in every partition was flushed before |
| `KafkaConsumer.DdlsExecuteInOrder` | cmd/kafka-consumer/writer.go:194-216 | DDLs execute in nondecreasing CommitTs order |
| `KafkaConsumer.RowAcceptedIff` | cmd/kafka-consumer/writer.go:450-503 | over any run of simple, open or canal-json a row joins its table's accepted rows if and only if not below the watermark nor below any row accepted for the table; other tables keep theirs |
| `KafkaConsumer.OtherRowAcceptedIff` | cmd/kafka-consumer/writer.go:450-503 | other protocols take any row not below the watermark |
| `KafkaConsumer.WatermarkHandsOn` | cmd/kafka-consumer/writer.go:93-112 | the watermark becomes the larger, its offset the newer one's, and exactly the rows up to it move from group to sink |
| `KafkaConsumer.FlushIsExact` | cmd/kafka-consumer/writer.go:505-527 | flushing to a larger ts hands on exactly the rows up to it, in order |
| `KafkaConsumer.DdlQueuedIff` | cmd/kafka-consumer/writer.go:194-216 | a DDL is queued if and only if none before it is later and it is not the last one again |
| `KafkaConsumer.WriteExecutesIff` | cmd/kafka-consumer/writer.go:256-295 | exactly the queued DDLs that no partition's watermark is below execute, in order; after a resolved message every sink is told the least watermark |
| `KafkaConsumer.GroupStaysSortedIff` | cmd/kafka-consumer/writer.go:450-503 | for any protocol a sorted group stays sorted if and only if the row is refused, the group is empty, or the last row is not above it |
| `KafkaConsumer.ResolveIsExactIff` | cmd/kafka-consumer/writer.go:414-431 | for any protocol a watermark moves exactly the rows up to it to the sink if and only if the group has none above it before one at or below it |
| `KafkaConsumer.UnsortedGroupGivesTooMuch` | cmd/kafka-consumer/writer.go:472-502 | with another protocol such a group arises and a row above the resolved ts is handed to the sink |

## Left out

- Context cancellation and shutdown: a cancelled goroutine just stops; runs end there.
- The kv client, redo, puller and schema machines keep their shared state as values in a step machine instead of objects, so aliasing is modelled only where it matters (pointers to a removed table's redo entry, feed states held by workers).
- `RegionTokens` lets any worker take any queued event, which allows more runs than the code; back-pressure of full channels is not modelled there.
- DdlManager.DdlManagerImpl.Tick: leaves out writing drained events to the redo log, and lets nothing arrive during the tick; arrivals in between are steps of `OwnerProtocol`.
- The scheduler, sorter, sink manager, range lock, frontier and filters: only what is listed above is used of them.
- `advanceTableSpan`, region splitting and lock resolving in the kv client: they rest on the range lock.
- Row decoding, checksums and datum formatting in the mounter; the Kafka consumer's decoders, partition checks and bootstrap DDLs with an empty query.
- The nil columns that `BuildTiDBTableInfoImpl` accepts for tests, and every field of TableInfo that only serves row decoding.
- Writing drained DDL events to the redo log, and the bootstrap and checkpoint messages of the DDL sink.
- Removing a changefeed's redo logs (`deleteAllLogs`, `preCleanupExtStorage`).
- `TrySplitAndSortUpdateEvent` for MySQL or raw output, which returns the rows unchanged.
- Liveness: the wake-up and stranding results say who is in charge, not that goroutines are scheduled fairly.
- DM, sync-diff, HTTP and configuration code: no protocol of this kind.
