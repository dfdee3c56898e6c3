# Agent Patches: verified model

Agent Patches is a fleet of LLM-driven maintenance agents: an LLM gateway that queues and
accounts for requests, an agent process per host that schedules responsibilities, remembers
observations and keeps an incident ledger, and a central backend that notifies operators.
This project models the parts whose correctness depends on long histories or interleavings
and proves what they promise over all of them.

| file | component |
|---|---|
| `Gateway.dfy`, `GatewayInvariant.dfy`, `GatewayTheorems.dfy`, `GatewayHistory.dfy` | the gateway's queueing protocol, as a state machine over the atomic steps of handlers, dispatcher and forwards |
| `GatewayStats.dfy` | its statistics: pruned event slices, window scans, Save and Load |
| `SnapshotStore.dfy`, `RetentionTheorems.dfy`, `StoreTheorems.dfy` | the tiered snapshot store, key mode, and the cached size counter |
| `DirectoryScan.dfy`, `ScanTheorems.dfy` | the bounded best-first scan for the largest directories and files |
| `ConnectionLog.dfy` | the connection event log and its replay |
| `IncidentLedger.dfy`, `LedgerExamples.dfy` | the incident ledger, and runs in which its documentation fails |
| `AgentRun.dfy` | the tool-use loop |
| `Scheduler.dfy` | responsibility scheduling |
| `Notifier.dfy` | mail notifications |
| `Collections.dfy`, `Sums.dfy`, `Sorting.dfy` | options, sequences without repeats, sums over sequences and maps, sorting |

`dafny verify dfyconfig.toml` checks everything.

Concurrency is modelled by runs: any sequence of enabled atomic steps. Clocks, model
answers, tool outcomes, mail delivery, directory listing order, map iteration order and the
outcome of a gather are inputs, so a statement for all inputs covers every behaviour of
them. Times are integers. Objects that the program updates in place are classes whose
methods are tied to a step function on values; the theorems over whole runs are about that
function.

## Where code and documentation disagree

The model follows the code. Each of these has a lemma that shows the failing input or run,
named first, and one that says exactly when the promise holds or what holds instead.

- `DecrPending` should remove a request from the live registry, but the handler registers it
  only after the channel send, so a forward that finishes first leaves it listed for good
  (`RegistryCanLeak`; `RegistryLeakExactly`).
- The ghost counters are described as queue slots of departed clients; they also count
  requests already in flight and can be -1, and /stats subtracts them from the queue depth
  (`GhostCanExceedQueue`, `GhostCanBeNegative`; `GhostsExactly`, `ReportedDepth`).
- Five-minute resolution for the last hour is lost whenever writes under five minutes apart go
  on for five minutes, because each removes the one before; constant writing leaves a single
  snapshot (`LongBurstFails`, `DenseWritesKeepOne`; `FiveMinuteResolutionExactly`).
- Hourly snapshots for a week and daily ones for 90 days: buckets slide with the clock, so
  writes every five to thirty minutes leave nothing two hours old
  (`SteadyWritesLeaveTwoHours`; `TierCompleteExactly` for each tier).
- The size counter drifts when a nanosecond file name is reused (`SizeCounterCanDrift`;
  `SizeCounterDrift`).
- The scan is described as opening at most 50 directories; it explores at most 50 but
  reads every child of those before capping them (`ReadsUnbounded`; `ReadsAreExploredExactly`).
- The scan is described as descending into whichever directory looks largest; it serves two
  FIFO queues, those of at least 50 MiB first (`SmallerGoesFirstThere`;
  `ExploresLargestExactly`).
- Saving the ledger compacts the caller's array, so reopening an incident or logging an
  action on a resolved one can be answered with a different incident (`ReplyCanBeAnother`;
  `ReplyIsRightExactly`).
- `LogAction` is described for open incidents and accepts any (`LogActionOnResolved`;
  `LogActionFailsExactly`, `LogActionTouches`).
- A newly reported incident can be dropped at once while being answered as stored
  (`NewReportCanBeDropped`; `NewReportKeptExactly`).
- The daily summary compares the UTC date but the local time of day. Where UTC midnight comes
  later than the configured time it can go out twice on one local date, and then goes out at
  UTC midnight instead (`SummaryTwicePerLocalDate`, `SummaryAtUtcMidnight`); elsewhere it is
  once per local date unless the zone crosses UTC westward (`SummaryTwiceAcrossUtc`;
  `SummaryLocalDatesExactly`).

## Model

| member | source | states |
|---|---|---|
| `GatewayInvariant.InitInv` | llm-gateway/gateway.go:133-160 | the gateway starts in a state that satisfies the protocol invariant |
| `GatewayInvariant.StepKeepsInv` | llm-gateway/gateway.go:326-457 | every atomic step of a handler, the dispatcher or a forward keeps the invariant: flags match program counters, channels are the accepted requests not yet delivered, each counter is the sum of what the requests contributed |
| `GatewayInvariant.DoKeepsStructure` | llm-gateway/gateway.go:326-347 | a step of a handler or a forward leaves queues, dispatcher and semaphore accounting intact |
| `GatewayInvariant.DoKeepsCounters` | llm-gateway/stats.go:381-402 | counting, uncounting and ghost bookkeeping in any order keep every counter equal to the sum over requests |
| `GatewayInvariant.SendKeepsStructure` | llm-gateway/gateway.go:326-328 | an accepted request joins the end of exactly its own queue, which stays within capacity |
| `GatewayInvariant.RefuseKeepsInv` | llm-gateway/gateway.go:348-359 | a request answered 429 leaves no trace in queues or counters |
| `GatewayInvariant.HandOffKeepsStructure` | llm-gateway/gateway.go:410-418 | with capacity 0 a send goes straight to the blocked dispatcher and keeps order and exactly-once delivery |
| `GatewayInvariant.SpawnKeepsStructure` | llm-gateway/gateway.go:420-423 | the dispatcher passes its slot to the forward it starts |
| `GatewayTheorems.RunKeepsInv` | llm-gateway/gateway.go:326-457 | the invariant holds after every interleaving |
| `GatewayTheorems.Conservation` | llm-gateway/gateway.go:326-425 | in every reachable state a request is in its own queue, in the dispatcher's hand, in flight or finished, each exactly when its stage says so; len(sem) is the running forwards plus one exactly when the dispatcher holds an unspent slot, never above MaxConcurrency; queues never exceed capacity |
| `GatewayTheorems.FifoExactlyOnce` | llm-gateway/gateway.go:400-425 | per class, deliveries are a prefix of acceptances, the queue is the rest, and no request occurs twice |
| `GatewayTheorems.NormalsWhileWaiting` | llm-gateway/gateway.go:408-418 | while a given priority request waits, at most one normal request is taken, and only by a dispatcher that was already past its priority poll |
| `GatewayTheorems.BoundedOvertaking` | llm-gateway/gateway.go:393-425 | a priority request with k ahead of it still waits after at most k + 1 dequeues, so the (k+2)-th at the latest takes it |
| `GatewayTheorems.ExactlyOneDecrement` | llm-gateway/gateway.go:332-347 | in every run, whoever wins the compare-and-swap, an accepted request that is over had one IncrPending step, one DecrPending step by handler or forward, and as many ghost decrements as increments, one exactly when its client departed |
| `GatewayTheorems.RunCharges` | llm-gateway/gateway.go:326-457 | the account of a request is exactly the steps of a run that count, uncount or ghost it |
| `GatewayTheorems.DrainedCountersAreZero` | llm-gateway/gateway.go:431-457 | with nothing outstanding every pending counter, both ghost counters and both queues are empty |
| `GatewayTheorems.GhostsExactly` | llm-gateway/gateway.go:62-66 | in every state the ghost counter is the queued requests whose client departed, plus the departed clients already in flight, less the subtractions that came before their addition; it has its documented meaning if and only if the last two are equally many |
| `GatewayTheorems.ReportedDepth` | llm-gateway/stats.go:542-545 | the depth in /stats, clamped at zero, as a function of live queued requests, departed ones in flight and early subtractions, and exactly when it is the number of live queued requests |
| `GatewayTheorems.DrainedStatistics` | llm-gateway/gateway.go:437-443 | with nothing outstanding there is one outcome per accepted request and one record per accepted request whose forward did not see it cancelled |
| `GatewayHistory.RequestTellsItsRun` | llm-gateway/gateway.go:326-443 | over every run: a request is accepted if and only if its send or hand-over occurs, refused if and only if its 429 does, and forward takes it for cancelled if and only if the handler's mark came before forward's look |
| `GatewayHistory.DrainedCounts` | llm-gateway/gateway.go:434-443 | over every run that drains: outcomes are the requests sent or handed over, records those of them with no mark before the look, counted on the events of the run |
| `GatewayHistory.RequestsAreArrivals` | llm-gateway/gateway.go:297-323 | over every run there is one request per arrival, in order, with the host and class it arrived with |
| `GatewayHistory.ReturnsAfterClose` | llm-gateway/gateway.go:329-333 | a handler that returns on a completed response does so after forward closed it |
| `GatewayHistory.AdmissionExactly` | llm-gateway/gateway.go:326-359 | with a queue of positive capacity a request is sent if and only if its own class has room and answered 429 if and only if it has none |
| `GatewayTheorems.RegistryLeakExactly` | llm-gateway/stats.go:381-402 | over every run, a finished request stays in pendingMap if and only if its delete by forward came before its insert by the handler |
| `GatewayTheorems.StepRegisters` | llm-gateway/stats.go:381-402 | only the insert of IncrPending lists a request, once, and only a delete before it leaves the entry behind |
| `GatewayTheorems.EarlyIsOrder` | llm-gateway/stats.go:381-402 | the flag that marks such a delete says exactly that the delete came first in the run |
| `GatewayTheorems.StepDoesWork` | llm-gateway/gateway.go:326-457 | every step other than an arrival strictly decreases a natural measure |
| `GatewayTheorems.RunsAreFinite` | llm-gateway/gateway.go:326-457 | without arrivals a run is no longer than the work left |
| `GatewayTheorems.NotStuck` | llm-gateway/gateway.go:326-425 | no deadlock: while a request is unfinished some step other than an arrival or a client leaving is possible |
| `GatewayTheorems.MaximalRunsDrain` | llm-gateway/gateway.go:326-457 | from every reachable state every maximal run without arrivals finishes all requests with all counters zero |
| `GatewayTheorems.RegistryCanLeak` | llm-gateway/stats.go:395-402 | counterexample run: a finished request still in the registry that DecrPending should have cleared |
| `GatewayTheorems.GhostCanBeNegative` | llm-gateway/gateway.go:336-344 | counterexample run: a ghost counter at -1 |
| `GatewayTheorems.GhostCanExceedQueue` | llm-gateway/gateway.go:62-66 | counterexample run: a ghost counted although its request has left the queue |
| `GatewayStats.Prune` | llm-gateway/stats.go:459-468 | the loop drops exactly the leading events before the cutoff |
| `GatewayStats.WindowSums` | llm-gateway/stats.go:472-481 | the early-break reverse scan sums the longest suffix inside the window; on nondecreasing times that is the filter-sum over the whole slice |
| `GatewayStats.WindowAvg` | llm-gateway/stats.go:128-144 | the same for the averages, with division rounding toward zero |
| `GatewayStats.TruncDivMeans` | llm-gateway/stats.go:128-144 | the division leaves a remainder smaller than the divisor with the sign of the dividend |
| `GatewayStats.WindowAndTimingMean` | llm-gateway/stats.go:128-144 | a window includes its edge; the two averages are over wait and inference |
| `GatewayStats.ScanCountExact` | llm-gateway/stats.go:472-481 | the early break counts right if and only if no event inside the window precedes one outside it |
| `GatewayStats.SortedIsContiguous` | llm-gateway/stats.go:472-481 | nondecreasing record times guarantee that |
| `GatewayStats.ScanIsWindowSum` | llm-gateway/stats.go:447-456 | then the scanned suffix has the sum of everything inside the window |
| `GatewayStats.PrunedStandsFor` | llm-gateway/stats.go:459-468 | pruning keeps the slice a stand-in for the full log: only events older than 25 hours are missing |
| `GatewayStats.WindowRefinesFullLog` | llm-gateway/stats.go:66-88 | for every window up to 25 hours and every later time a stand-in answers as the unpruned log |
| `GatewayStats.SinceIsPruned` | llm-gateway/stats.go:895-973 | Load's filter and prune's prefix drop agree on sorted slices |
| `GatewayStats.SortedKeys` | llm-gateway/stats.go:987-1003 | the keys of the books, each once, in string order |
| `GatewayStats.WriteBooks` | llm-gateway/stats.go:1006-1046 | Save writes every book exactly once, in the order of its key |
| `GatewayStats.WindowCount` | llm-gateway/stats.go:79-88 | the error count by the same reverse scan: the number of events in the window on nondecreasing times |
| `GatewayStats.LogStandsForEverything` | llm-gateway/stats.go:57-75 | after any history of additions, resets and restarts an event log stands for everything added since the last reset |
| `GatewayStats.LogQueriesRefineHistory` | llm-gateway/stats.go:115-144 | window queries on the error, duration and outcome logs equal those on everything, for every later time and window up to 25 hours |
| `GatewayStats.ErrorTotals` | llm-gateway/stats.go:48-63 | the error total is the number of errors since the last reset, through restarts |
| `GatewayStats.KeepSince` | llm-gateway/stats.go:895-973 | Load keeps exactly the events not before its cutoff, in order |
| `GatewayStats.ReadBooks` | llm-gateway/stats.go:895-973 | Load writes the entries in order over the books that are there; what that means for each field is LoadedSurvive |
| `GatewayStats.SaveLoadRoundTrip` | llm-gateway/stats.go:895-1073 | Save then Load into an empty tracker is the restart step of the run laws |
| `GatewayStats.LoadedSurvive` | llm-gateway/stats.go:914-941 | Save then Load, field by field: the same keys, each book with its name, tokens, requests and last-seen time, none pending, and events that stand for the saved ones |
| `GatewayStats.ReopenedSurvive` | llm-gateway/stats.go:943-973 | each of the four logs comes back as itself: equal totals, and events that stand for the saved ones |
| `GatewayStats.SurvivorAnswersAlike` | llm-gateway/stats.go:66-88 | such a log answers every window query of up to 25 hours at every later time as the saved one did |
| `GatewayStats.SaveThenLoad` | llm-gateway/stats.go:895-1073 | both methods one after the other on a new tracker: all books and logs survive as above |
| `GatewayStats.BooksKeepTheirNames` | llm-gateway/stats.go:347-379 | over every history a book exists if and only if some operation opened it, and it has the name given then, through records, resets and restarts |
| `GatewayStats.ClearAll` | llm-gateway/stats.go:668-714 | Reset clears every book's counts and events and keeps names and pending counts |
| `GatewayStats.RecordKeepsBook` | llm-gateway/stats.go:407-430 | recording keeps a book in agreement with its full log |
| `GatewayStats.ReloadKeepsBook` | llm-gateway/stats.go:895-973 | a restart keeps it in agreement, with no pending requests |
| `GatewayStats.BooksMatchFullLog` | llm-gateway/stats.go:381-430 | after any history of records, pending changes, resets and restarts in which this book's own times do not go back, it agrees with its full log: totals, counts, last-seen, pending balance |
| `GatewayStats.WindowQueriesRefineHistory` | llm-gateway/stats.go:434-481 | over every such history, whatever the order of other books' times, and every later time, window queries up to 25 hours equal those on the full log |
| `GatewayStats.Tracker.constructor` | llm-gateway/stats.go:304-314 | a new tracker has no books, no registry entries and empty logs |
| `GatewayStats.Tracker.IncrPending` | llm-gateway/stats.go:381-393 | adds one to the host's balance, opening its book with the caller's name, and registers the request |
| `GatewayStats.Tracker.DecrPending` | llm-gateway/stats.go:397-402 | subtracts one from the host's balance, opening a book if need be, and removes the request from the registry |
| `GatewayStats.Tracker.RecordIncomingConnError` | llm-gateway/stats.go:320-322 | counts and logs one error |
| `GatewayStats.Tracker.RecordOutgoingConnError` | llm-gateway/stats.go:326-328 | counts and logs one error |
| `GatewayStats.Tracker.RecordDuration` | llm-gateway/stats.go:334-338 | logs the wait and inference times at completion |
| `GatewayStats.Tracker.RecordOutcome` | llm-gateway/stats.go:343-345 | logs one outcome |
| `GatewayStats.Tracker.Record` | llm-gateway/stats.go:407-430 | logs the request for the host and, when named, for the responsibility |
| `GatewayStats.Tracker.ResetStats` | llm-gateway/stats.go:668-714 | resets both sets of books and all logs; pending counts and the registry stay |
| `GatewayStats.Tracker.Save` | llm-gateway/stats.go:987-1073 | writes both sets of books, each book once and in key order, and all logs |
| `GatewayStats.Tracker.Load` | llm-gateway/stats.go:895-973 | reads both sets of books over what is there and replaces the logs by what is recent of the saved ones; LoadedSurvive and ReopenedSurvive say what that keeps |
| `SnapshotStore.Prune` | endpoint-server/memory/memory.go:495-561 | for any listing order: leaves exactly the files no older than 90 days that are newest in their (tier, bucket), and returns the bytes of the removed ones |
| `SnapshotStore.Delete` | endpoint-server/memory/memory.go:554-560 | the removal loop deletes exactly the listed files and adds up their sizes |
| `SnapshotStore.RetainedIdempotent` | endpoint-server/memory/memory.go:489-561 | pruning again at the same time removes nothing |
| `SnapshotStore.RetainedIsBounded` | endpoint-server/memory/memory.go:28-39 | at most 13 + 168 + 84 = 265 files are left |
| `SnapshotStore.SpacedWritesAreKept` | endpoint-server/memory/memory.go:28-36 | over every run from an empty domain: writes at least a tier's bucket apart are all kept for that tier's horizon |
| `RetentionTheorems.FiveMinuteResolutionExactly` | endpoint-server/memory/memory.go:28-34 | every write of the last hour has a snapshot from itself to less than five minutes later, after every write, if and only if no burst of writes under five minutes apart lasts five minutes |
| `RetentionTheorems.TierCompleteExactly` | endpoint-server/memory/memory.go:28-36 | for each of the three tiers: after every write every snapshot within the horizon is there if and only if no two writes within it ever share a bucket |
| `RetentionTheorems.LongBurstFails` | endpoint-server/memory/memory.go:495-561 | the first write of a burst of five minutes has no such snapshot at its end |
| `SnapshotStore.LastHourCompleteExactly` | endpoint-server/memory/memory.go:495-561 | every single snapshot of the last hour is there after every write if and only if consecutive writes are at least five minutes apart |
| `SnapshotStore.QuickWriteReplaces` | endpoint-server/memory/memory.go:495-561 | a write less than five minutes after another removes it |
| `SnapshotStore.DenseWritesKeepOne` | endpoint-server/memory/memory.go:495-561 | if every gap is under five minutes exactly the latest snapshot survives |
| `SnapshotStore.SteadyWritesLeaveTwoHours` | endpoint-server/memory/memory.go:28-36 | if every gap is at least five and under thirty minutes, no snapshot two hours old survives a write, so there is no hourly week and no daily quarter |
| `SnapshotStore.OnlyNewestOldIsLeft` | endpoint-server/memory/memory.go:495-561 | of the snapshots over an hour old only the newest is left in such a run |
| `SnapshotStore.NewestFile` | endpoint-server/memory/memory.go:459-487 | finds the file with the greatest positive stamp, or none when there is none |
| `SnapshotStore.ReadAfterWriteExactly` | endpoint-server/memory/memory.go:323-366 | a write is what is read back if and only if its stamp is positive and nothing is stamped later; a later-stamped file makes prune remove the new one |
| `SnapshotStore.KeyModeRefinesMap` | endpoint-server/memory/memory.go:242-303 | over every sequence of SetKey with a strictly increasing positive clock the domain reads as a plain map: last value per key, other keys untouched |
| `StoreTheorems.StoreRefinesMap` | endpoint-server/memory/memory.go:242-303 | over every run of the store, whatever happens to other domains and attributes, a domain changed by SetKey under a strictly increasing positive clock reads as the plain map |
| `StoreTheorems.GetKeyReadsLastSet` | endpoint-server/memory/memory.go:269-303 | so after such a run a key has the last value set for it |
| `StoreTheorems.ReplayLeavesOthers` | endpoint-server/memory/memory.go:269-283 | and a key never set has what it had before |
| `StoreTheorems.NoObjectNoFields` | endpoint-server/memory/memory.go:355-366 | a domain without a snapshot, or whose newest one is no object, has no keys |
| `StoreTheorems.SetFieldIsAfterSet` | endpoint-server/memory/memory.go:269-283 | SetKey changes its domain as the key-mode law says |
| `StoreTheorems.WriteBodyIsAfterWrite` | endpoint-server/memory/memory.go:323-351 | Write changes its domain as the retention laws say |
| `StoreTheorems.OtherDomainsStay` | endpoint-server/memory/memory.go:210-219 | no operation but Clear changes another domain |
| `StoreTheorems.ClearEmpties` | endpoint-server/memory/memory.go:127-149 | Clear leaves no snapshot, no attribute and a counter of zero |
| `StoreTheorems.DomainIsItsWrites` | endpoint-server/memory/memory.go:323-351 | over every run of the store an empty domain changed by Write holds exactly what retention leaves of its writes |
| `StoreTheorems.AttrsRefineMap` | endpoint-server/memory/memory.go:578-703 | over every run each attribute has the value last set unless deleted or cleared since |
| `StoreTheorems.RetainedMeans` | endpoint-server/memory/memory.go:495-561 | pruning keeps, unchanged, exactly what is at most 90 days old with nothing newer in its bucket |
| `StoreTheorems.BucketMeans` | endpoint-server/memory/memory.go:28-39 | two snapshots share a bucket if and only if they share five minutes of age within the hour, an hour within the week, or a day beyond |
| `SnapshotStore.WriteFileDrift` | endpoint-server/memory/memory.go:323-351 | one write changes counter minus true size by exactly the size of a file whose name it reuses |
| `SnapshotStore.SizeCounterDrift` | endpoint-server/memory/memory.go:113-115 | over every sequence of operations the counter exceeds the directory sum by exactly the bytes lost to reused names since the last Clear |
| `SnapshotStore.SizeCounterExact` | endpoint-server/memory/memory.go:346-349 | with names not reused the counter equals the directory sum |
| `SnapshotStore.SizeCounterCanDrift` | endpoint-server/memory/memory.go:323-351 | counterexample run: two writes under one name leave the counter too large by a file |
| `SnapshotStore.DirSize` | endpoint-server/memory/memory.go:68-82 | the walk adds up every file under the root |
| `SnapshotStore.Store.constructor` | endpoint-server/memory/memory.go:59-66 | the counter starts at the size found by a walk over the root |
| `SnapshotStore.Store.Write` | endpoint-server/memory/memory.go:210-219 | adds the snapshot, prunes, and moves the counter by the difference |
| `SnapshotStore.Store.ReadFields` | endpoint-server/memory/memory.go:355-366 | the newest snapshot's object, empty when there is none or it is no object |
| `SnapshotStore.Store.SetKey` | endpoint-server/memory/memory.go:269-283 | takes the SetKey step of the store, which StoreRefinesMap and GetKeyReadsLastSet explain over whole runs |
| `SnapshotStore.Store.GetKey` | endpoint-server/memory/memory.go:288-303 | the current value of the key, or none |
| `SnapshotStore.Store.AttrsSet` | endpoint-server/memory/memory.go:578-620 | replaces one attribute and moves the counter by the file's growth |
| `SnapshotStore.Store.AttrsDelete` | endpoint-server/memory/memory.go:624-661 | removes one attribute, or does nothing when it is missing |
| `SnapshotStore.Store.Clear` | endpoint-server/memory/memory.go:127-149 | removes everything and resets the counter |
| `DirectoryScan.DirSelfSize` | endpoint-server/skills/check_drives/largest.go:181-198 | the sum of the regular files directly inside, 0 when unreadable |
| `DirectoryScan.Propagate` | endpoint-server/skills/check_drives/largest.go:173-177 | the walk up the parents adds the size to every node on it |
| `DirectoryScan.AddUpAt` | endpoint-server/skills/check_drives/largest.go:173-177 | so exactly the ancestors-or-self of the start change, each by the size |
| `DirectoryScan.AddChildKeepsScan` | endpoint-server/skills/check_drives/largest.go:154-162 | keeping one more child preserves: every total is the sum of depth-1 sizes of the kept directories in its subtree, none twice |
| `DirectoryScan.UnopenedTotalIsInitial` | endpoint-server/skills/check_drives/largest.go:154-162 | a queued directory's total never changes: propagation reaches explored nodes only |
| `DirectoryScan.CandidateTotals` | endpoint-server/skills/check_drives/largest.go:94-170 | a total never exceeds the true recursive size and equals it if and only if no directory with files below was missed |
| `DirectoryScan.KeptAgainstTrue` | endpoint-server/skills/check_drives/largest.go:94-170 | the kept sum against the true size, both the bound and the exact condition |
| `DirectoryScan.PromoteSort` | endpoint-server/skills/check_drives/largest.go:105-113 | the stable sort yields the directories of at least 50 MiB in order, then the rest in order |
| `DirectoryScan.FrontOfSorted` | endpoint-server/skills/check_drives/largest.go:111-115 | taking the front of the sorted slice is serving a promoted FIFO queue before a second one |
| `ScanTheorems.ExploresLargestExactly` | endpoint-server/skills/check_drives/largest.go:87-93 | in every scan, a turn explores a directory that looks largest of all waiting if and only if it looks largest within the queue it is taken from |
| `ScanTheorems.FrontLooksLargestExactly` | endpoint-server/skills/check_drives/largest.go:105-115 | the same for the front of the work list |
| `ScanTheorems.FirstListedGoesFirst` | endpoint-server/skills/check_drives/largest.go:105-115 | of children of the root of at least 50 MiB the one listed first is explored first, whatever their sizes |
| `ScanTheorems.SmallerGoesFirst` | endpoint-server/skills/check_drives/largest.go:87-93 | so with two such children the smaller one is explored first if it is listed first |
| `ScanTheorems.SmallerGoesFirstThere` | endpoint-server/skills/check_drives/largest.go:87-93 | counterexample tree: every scan of it explores the smaller directory first |
| `DirectoryScan.SortedIsPermutation` | endpoint-server/skills/check_drives/largest.go:111-113 | sorting loses and repeats no directory |
| `DirectoryScan.ListDir` | endpoint-server/skills/check_drives/largest.go:125-146 | the subdirectories worth a node and the files of a directory, skipping pseudo filesystems and other devices, and one directory read per such subdirectory; FilesSeenMember and EligibleAreCandidates say which those are |
| `DirectoryScan.CapChildren` | endpoint-server/skills/check_drives/largest.go:148-153 | over the cap, the largest children are kept |
| `DirectoryScan.KeepChildren` | endpoint-server/skills/check_drives/largest.go:154-162 | keeps all children given, queues those to be recursed, and preserves the totals |
| `DirectoryScan.Explore` | endpoint-server/skills/check_drives/largest.go:118-162 | one directory: what it keeps is all its children, or the largest ones of more than the cap; its files are reported and the directories read are counted |
| `DirectoryScan.TurnKeepsLoop` | endpoint-server/skills/check_drives/largest.go:101-163 | one turn keeps the lists: distinct candidates and work list, two-queue order, frontier, and a history in which turn i keeps and queues the children of the i-th explored directory |
| `DirectoryScan.OneTurn` | endpoint-server/skills/check_drives/largest.go:101-163 | one turn of the loop keeps totals, lists and history and adds one explored directory with its kept children |
| `DirectoryScan.Scan` | endpoint-server/skills/check_drives/largest.go:94-165 | the loop explores at most 50 directories, each in the order two FIFO queues serve the kept children of those before it, with totals and frontier as stated; the directories read are the explored ones and all their children worth a node; it stops early only on cancellation |
| `ScanTheorems.ScanIsDetermined` | endpoint-server/skills/check_drives/largest.go:101-163 | unless some directory exceeds the cap, any two scans of a tree explore, keep and queue the same directories turn by turn |
| `ScanTheorems.ReadsAreExploredExactly` | endpoint-server/skills/check_drives/largest.go:138-153 | only the explored directories are read if and only if no readable one of them has a subdirectory worth a node |
| `ScanTheorems.ReadsUnbounded` | endpoint-server/skills/check_drives/largest.go:138-153 | children are read before the cap applies, so no number bounds the directories a completed scan reads |
| `DirectoryScan.TopN` | endpoint-server/skills/check_drives/largest.go:200-218 | n of the entries (or all), descending, nothing left over larger |
| `DirectoryScan.TopLargest` | endpoint-server/skills/check_drives/largest.go:94-170 | dirs are the largest of exactly the candidates with their totals, files the largest of exactly the regular files of the readable directories explored, each once, of a scan with all of the above; an error returns nothing |
| `DirectoryScan.FilesSeenMember` | endpoint-server/skills/check_drives/largest.go:142-146 | a file is seen with a size if and only if it is a regular entry of that size in a readable explored directory |
| `DirectoryScan.FilesSeenDistinct` | endpoint-server/skills/check_drives/largest.go:142-146 | and each is listed once |
| `DirectoryScan.SizedByMember` | endpoint-server/skills/check_drives/largest.go:200-210 | a directory is ranked with a size if and only if it is a candidate with that total |
| `ScanTheorems.CandidatesAreEligible` | endpoint-server/skills/check_drives/largest.go:125-162 | every candidate is a listed subdirectory of a readable explored one, on the same device and no pseudo filesystem |
| `ScanTheorems.EligibleAreCandidates` | endpoint-server/skills/check_drives/largest.go:125-162 | within the cap every such subdirectory is a candidate |
| `ScanTheorems.ExploredIsNotStatic` | endpoint-server/skills/check_drives/largest.go:154-162 | static system directories under the root are measured but never explored |
| `ScanTheorems.OwnSizeIsItsFiles` | endpoint-server/skills/check_drives/largest.go:181-198 | the size measured for a directory is that of its regular files together |
| `ScanTheorems.EveryDirectoryKept` | endpoint-server/skills/check_drives/largest.go:94-170 | without skips, caps or unreadable directories a finished scan has every directory as a candidate |
| `ScanTheorems.ExactWithoutObstacles` | endpoint-server/skills/check_drives/largest.go:94-170 | and every total is the true recursive size |
| `ConnectionLog.KeyTextIsIdentity` | endpoint-server/connmonitor/connmonitor.go:80-82 | two connections have one key text if and only if protocol, both addresses and both ports are equal, for protocols and local addresses without the separator |
| `ConnectionLog.KeyIsEndpoints` | endpoint-server/connmonitor/connmonitor.go:80-82 | the fields the log is keyed by are exactly protocol, addresses and ports of the connection |
| `ConnectionLog.NewEventMeans` | endpoint-server/connmonitor/connmonitor.go:86-142 | an event carries its connection, kind and time; its direction is outbound from port 32768, inbound below, unknown without a port |
| `ConnectionLog.KeyTextCanCollide` | endpoint-server/connmonitor/connmonitor.go:80-82 | with the separator inside a field different connections share a text |
| `ConnectionLog.ActiveConnections` | endpoint-server/connmonitor/connmonitor.go:334-364 | returns, for exactly the keys whose last event opened them, the latest opening event each, in the order in which the keys were first opened |
| `ConnectionLog.Diff` | endpoint-server/connmonitor/connmonitor.go:275-289 | exactly one new event per new key and per vanished key, with the connection of its snapshot and the time of the poll, each list ordered by port |
| `ConnectionLog.DiffReplay` | endpoint-server/connmonitor/connmonitor.go:275-289 | replaying a diff turns the old key set into the new one and leaves other keys alone |
| `ConnectionLog.OpensReplay` | endpoint-server/connmonitor/connmonitor.go:334-364 | appended opening events add their keys to the replay |
| `ConnectionLog.ClosesReplay` | endpoint-server/connmonitor/connmonitor.go:334-364 | appended closing events remove theirs |
| `ConnectionLog.SuffixReplay` | endpoint-server/connmonitor/connmonitor.go:334-364 | a suffix of a log replays to exactly the active keys with an opening event in the suffix |
| `ConnectionLog.StoredReplay` | endpoint-server/connmonitor/connmonitor.go:292-304 | the capped history never shows a closed connection and misses an active one exactly when all its opening events were cut |
| `ConnectionLog.PollKeepsReplay` | endpoint-server/connmonitor/connmonitor.go:239-271 | a poll keeps: the full log replays to the live snapshot plus keys inherited from the startup history and not observed since |
| `ConnectionLog.BootstrapReplay` | endpoint-server/connmonitor/connmonitor.go:239-271 | the first poll establishes it |
| `ConnectionLog.AnnounceAll` | endpoint-server/connmonitor/connmonitor.go:249-256 | exactly one event per connection of a snapshot, built from that connection and the time of the poll |
| `ConnectionLog.NewEvents` | endpoint-server/connmonitor/connmonitor.go:249-267 | the events of a poll: existing ones the first time, afterwards the judged diff; the log with them replays to the new snapshot |
| `ConnectionLog.LastOfLast` | endpoint-server/connmonitor/connmonitor.go:292-304 | cutting a cut log again is cutting the whole log |
| `ConnectionLog.JudgeAll` | endpoint-server/connmonitor/connmonitor.go:258-265 | flagging opened connections as unusual changes nothing else about their events |
| `ConnectionLog.JudgedMeans` | endpoint-server/connmonitor/connmonitor.go:258-265 | each opened event gets the verdict about itself and the history before the poll |
| `ConnectionLog.Monitor.constructor` | endpoint-server/connmonitor/connmonitor.go:164-178 | a monitor starts on the stored history with a positive limit, the default when unset |
| `ConnectionLog.Monitor.Index` | endpoint-server/connmonitor/connmonitor.go:239-247 | the snapshot indexed by key, the last of several entries with one key |
| `ConnectionLog.IndexedMeans` | endpoint-server/connmonitor/connmonitor.go:244-247 | a key is indexed if and only if some connection has it, with the last such connection |
| `ConnectionLog.IndexedHolds` | endpoint-server/connmonitor/connmonitor.go:244-247 | a connection is in the index if and only if one with its five fields was gathered |
| `ConnectionLog.Monitor.AppendEvents` | endpoint-server/connmonitor/connmonitor.go:292-304 | once an event is added the stored history is the last historyLimit events of the full log, never more; a longer history found at startup stays until then |
| `ConnectionLog.Monitor.Commit` | endpoint-server/connmonitor/connmonitor.go:268-270 | a poll's events are appended and its snapshot becomes the previous one |
| `ConnectionLog.Monitor.PollOnce` | endpoint-server/connmonitor/connmonitor.go:239-271 | opens exactly the connections whose five fields the previous snapshot lacks and closes exactly those that are gone, or announces all of the first; records those events, keeps history cap and replay; a failed gather changes nothing; started on an empty history the full log replays to exactly the live snapshot |
| `ConnectionLog.PollAnnounces` | endpoint-server/connmonitor/connmonitor.go:239-289 | the same stated for the events of a poll and one connection |
| `IncidentLedger.NormaliseFixesExactly` | endpoint-server/incidents/incidents.go:290-296 | normalising changes a fingerprint unless it has no white space and no capital; so it is idempotent |
| `IncidentLedger.NormaliseIgnoresPadding` | endpoint-server/incidents/incidents.go:290-296 | surrounding white space does not matter |
| `IncidentLedger.NormaliseIgnoresCase` | endpoint-server/incidents/incidents.go:290-296 | the case of letters does not matter |
| `IncidentLedger.NormaliseIsFields` | endpoint-server/incidents/incidents.go:290-296 | trimming before splitting into fields changes nothing |
| `IncidentLedger.NormaliseJoins` | endpoint-server/incidents/incidents.go:290-296 | texts with white space between them are joined by one dash, empty ones dropped |
| `IncidentLedger.NormaliseWord` | endpoint-server/incidents/incidents.go:290-296 | a text without white space is only lower-cased, letter by letter |
| `IncidentLedger.SavedOk` | endpoint-server/incidents/incidents.go:264-288 | saving keeps part of the list, nothing expired, at most 100; an unexpired entry goes only if 100 stay that come before it |
| `IncidentLedger.ExpiredMeans` | endpoint-server/incidents/incidents.go:264-273 | an entry expires if and only if it was resolved more than thirty days before the save |
| `IncidentLedger.LoadedOk` | endpoint-server/incidents/incidents.go:247-262 | loading orders the ledger open first, newest first, and loses nothing |
| `IncidentLedger.EditedOk` | endpoint-server/incidents/incidents.go:102-226 | an operation touches exactly the entry it names or adds one |
| `IncidentLedger.StepFrom` | endpoint-server/incidents/incidents.go:102-226 | every operation keeps a good ledger good; every entry afterwards is an old one followed or the one created |
| `IncidentLedger.RunKeepsLedger` | endpoint-server/incidents/incidents.go:102-226 | over every sequence of operations: distinct normalised nonempty fingerprints, at most 100 entries, resolved exactly when ResolvedAt is set |
| `IncidentLedger.DroppedOnlyWhen` | endpoint-server/incidents/incidents.go:264-288 | an operation loses an entry only by retention or because 100 entries that come before it stay |
| `IncidentLedger.OpenDroppedOnlyForOpen` | endpoint-server/incidents/incidents.go:275-285 | an open incident gives way only to 100 open ones seen at least as recently |
| `IncidentLedger.StoredIsStory` | endpoint-server/incidents/incidents.go:102-226 | every stored incident is what the operations since its creation say about its fingerprint, and it was on file all the while |
| `IncidentLedger.StoryMeans` | endpoint-server/incidents/incidents.go:102-226 | such a story counts the reports, keeps the first time, and is resolved exactly when no report follows the last resolution |
| `IncidentLedger.StorySeen` | endpoint-server/incidents/incidents.go:125-126 | LastSeen is the time of the last report or action, never of a resolution |
| `IncidentLedger.StoryText` | endpoint-server/incidents/incidents.go:133-141 | title, detail and severity are those of the last report that gave one |
| `IncidentLedger.StoryResolution` | endpoint-server/incidents/incidents.go:128-132 | a resolved incident has time and words of the first resolution after its last report, an open one has neither |
| `IncidentLedger.StoryActions` | endpoint-server/incidents/incidents.go:128-132 | the actions are those logged and one note per report that came while it was resolved |
| `IncidentLedger.StoredMeans` | endpoint-server/incidents/incidents.go:98-226 | over every run, field by field: TimesSeen the reports since creation, FirstSeen the creation, LastSeen the last report or action, title, detail and severity the last nonempty ones given, resolved if and only if no report followed the last resolution, with time and words of the first such resolution, and the actions and recurrences in order |
| `IncidentLedger.NewReportKeptExactly` | endpoint-server/incidents/incidents.go:148-162 | a first report is stored if and only if there are not already 100 open incidents all seen at that second or later |
| `IncidentLedger.SlotKeptExactly` | endpoint-server/incidents/incidents.go:265-273 | after the in-place compaction a slot still holds its entry if and only if nothing up to it expired or it lies beyond the kept ones |
| `IncidentLedger.ReplyIsRightExactly` | endpoint-server/incidents/incidents.go:142-145 | so the answer of Report, LogAction or Resolve is the incident it touched under exactly that condition |
| `IncidentLedger.OpenReplyIsRight` | endpoint-server/incidents/incidents.go:195-226 | touching an open incident answers with it, unless it is a resolution that its own save, reading a clock over thirty days later, drops with others moving up |
| `IncidentLedger.LogActionFailsExactly` | endpoint-server/incidents/incidents.go:165-193 | LogAction fails if and only if the fingerprint is not on file, whatever the status |
| `IncidentLedger.LogActionTouches` | endpoint-server/incidents/incidents.go:181-190 | it adds the note and keeps the status; the entry is on file afterwards if and only if it had not expired |
| `LedgerExamples.ReplyCanBeAnother` | endpoint-server/incidents/incidents.go:142-145 | counterexample run from an empty ledger: reporting b is answered with c |
| `LedgerExamples.LogActionOnResolved` | endpoint-server/incidents/incidents.go:165-193 | counterexample run: an action is logged on a resolved incident |
| `LedgerExamples.NewReportCanBeDropped` | endpoint-server/incidents/incidents.go:148-162 | counterexample run: the 101st first report of one second is answered as new and is not on file |
| `IncidentLedger.Store.constructor` | endpoint-server/incidents/incidents.go:69-71 | an empty ledger |
| `IncidentLedger.Store.Load` | endpoint-server/incidents/incidents.go:249-262 | a new array with the stable ordering of the stored list |
| `IncidentLedger.Store.Compact` | endpoint-server/incidents/incidents.go:267-273 | shifts the unexpired entries down in the caller's array and leaves its tail |
| `IncidentLedger.Store.Save` | endpoint-server/incidents/incidents.go:265-288 | stores the unexpired entries, the first 100 in order when there are more, and leaves the caller's array compacted |
| `IncidentLedger.Store.Refresh` | endpoint-server/incidents/incidents.go:124-141 | reopens, counts and refreshes the nonempty fields |
| `IncidentLedger.Store.Search` | endpoint-server/incidents/incidents.go:120-123 | the first entry filed under a fingerprint |
| `IncidentLedger.Store.Put` | endpoint-server/incidents/incidents.go:142-145 | saves the edited list and reads the slot back from the compacted array |
| `IncidentLedger.Store.Add` | endpoint-server/incidents/incidents.go:148-162 | saves the list with the new entry at its end |
| `IncidentLedger.Store.Report` | endpoint-server/incidents/incidents.go:102-163 | upsert: new ledger and answer are those of the step function, an empty fingerprint is refused |
| `IncidentLedger.Store.LogAction` | endpoint-server/incidents/incidents.go:167-193 | likewise; it does not ask whether the incident is open |
| `IncidentLedger.Store.Resolve` | endpoint-server/incidents/incidents.go:196-226 | likewise; resolving twice changes nothing |
| `AgentRun.Run` | endpoint-server/a2a/agent/agent.go:135-316 | whatever the model and the tools answer: at most MaxIter requests, each carrying every turn before it with each call answered rightly, and well formed; each signature executed at most once and only for known tools; no signature asked three times among the handled calls; the ending is exactly the case that applies |
| `AgentRun.ConversationWellFormed` | endpoint-server/a2a/agent/agent.go:165-168 | every request is system, user, then turns of the assistant each followed by one tool message per call, in order, with its id |
| `AgentRun.ExecutedOnce` | endpoint-server/a2a/agent/agent.go:244-310 | the executed calls have distinct signatures, belong to known tools, and cover every signature asked for |
| `AgentRun.ResultIsThatOfTheFirst` | endpoint-server/a2a/agent/agent.go:267-275 | a repeated call is answered with the sanitised result of the one execution, empty if that failed |
| `AgentRun.AnswerMeans` | endpoint-server/a2a/agent/agent.go:246-309 | an unknown tool is named; the first call with its signature gets the sanitised result or the error of its own execution; a repeat gets the sanitised result of the first, empty if that failed, and the nudge |
| `AgentRun.ConversationTells` | endpoint-server/a2a/agent/agent.go:241-310 | turn by turn, the message at each position of a request: the assistant's words and calls, then under its id the right answer to each call |
| `AgentRun.SignaturesCounted` | endpoint-server/a2a/agent/agent.go:253-255 | one execution per distinct signature asked of known tools |
| `AgentRun.SignatureIdentifies` | endpoint-server/a2a/agent/agent.go:253-255 | without a colon in tool names equal signatures mean equal tool and arguments |
| `AgentRun.FaithfulStep` | endpoint-server/a2a/agent/agent.go:253-309 | the two maps always say what the history of calls says |
| `AgentRun.HandleCall` | endpoint-server/a2a/agent/agent.go:245-310 | one call: unknown, first, second or third time, with the answer and the bookkeeping of each |
| `AgentRun.HandleCalls` | endpoint-server/a2a/agent/agent.go:244-310 | one assistant turn: one answer per call in order, or the stop at the first third call |
| `AgentRun.OneIteration` | endpoint-server/a2a/agent/agent.go:177-311 | one request: ends or appends one complete turn |
| `AgentRun.Iterate` | endpoint-server/a2a/agent/agent.go:177-316 | the loop over requests |
| `AgentRun.RunMeans` | endpoint-server/a2a/agent/agent.go:177-311 | what was sent is well formed with every call answered rightly and what was executed is distinct, over every run |
| `Scheduler.NewPlan` | endpoint-server/loop/responsibility.go:39-63 | accepts exactly a positive frequency or a time of day, not both; a frequency plan has that frequency and its first run the delay from now; a time of day is shifted by the delay's minutes, wraps at midnight, and has not run |
| `Scheduler.FiringsSpaced` | endpoint-server/loop/responsibility.go:68-85 | firings of a frequency responsibility are at least the frequency apart, whatever the clock does |
| `Scheduler.FiringRate` | endpoint-server/loop/responsibility.go:68-85 | an interval of length T holds at most T/freq + 1 of them |
| `Scheduler.FiringGap` | endpoint-server/loop/loop.go:138-161 | with ticks at most h apart the next firing comes less than freq + h after the last, at the first tick that is due |
| `Scheduler.FirstFiring` | endpoint-server/loop/responsibility.go:45-52 | the first firing comes less than h after it is due |
| `Scheduler.DailyFiresExactly` | endpoint-server/loop/responsibility.go:73-84 | a daily responsibility fires at a tick if and only if it is the first of its date in the right minute |
| `Scheduler.DailyOncePerDate` | endpoint-server/loop/responsibility.go:73-84 | at most once per date while dates do not go back |
| `Scheduler.RunsNeverOverlap` | endpoint-server/loop/loop.go:153-174 | over every interleaving of ticks and finishing runs at most one run is in flight, the schedule depends on ticks alone, and every firing starts a run or is skipped for one in flight |
| `Scheduler.FiringStartsExactly` | endpoint-server/loop/loop.go:153-174 | over every interleaving a tick that fires starts a run if and only if none is in flight and is skipped if and only if one is |
| `Scheduler.RunsConserved` | endpoint-server/loop/loop.go:153-174 | runs started are those finished and the one in flight |
| `Scheduler.Responsibility.constructor` | endpoint-server/loop/responsibility.go:39-63 | nothing running, the given plan |
| `Scheduler.Responsibility.IsDue` | endpoint-server/loop/responsibility.go:69-74 | reads the plan as Due does |
| `Scheduler.Responsibility.Schedule` | endpoint-server/loop/responsibility.go:79-85 | advances the plan past now and nothing else |
| `Scheduler.Responsibility.Finished` | endpoint-server/loop/loop.go:173-174 | the end of a run clears the flag and no overlap arises |
| `Scheduler.TickAll` | endpoint-server/loop/loop.go:153-169 | every responsibility takes its tick step: due ones are rescheduled, and started unless in flight |
| `Notifier.IssuesHandled` | central-backend/src/services/notifier.js:58-92 | per key, for duplicate ids too: attempted exactly when live and not remembered, delivered once exactly when the server accepts such a mail, remembered when delivered, forgotten when gone; other kinds untouched |
| `Notifier.ApprovalsHandled` | central-backend/src/services/notifier.js:98-135 | the same for the approval mail, at most one per poll |
| `Notifier.RemindersHandled` | central-backend/src/services/notifier.js:141-188 | the same for reminders, asked for only by high-importance or high-risk approvals past half of 48 or 24 hours |
| `Notifier.OverdueMeans` | central-backend/src/services/notifier.js:160-165 | a reminder is due from 24 hours on for high risk, from 12 on for high importance alone, never for others, at once when the time is no date; and stays due |
| `Notifier.PollHandles` | central-backend/src/services/notifier.js:46-52 | the same for a whole poll; whatever is remembered after it is live |
| `Notifier.RememberedExactly` | central-backend/src/services/notifier.js:58-135 | over every sequence of polls and failures a key is remembered if and only if it was delivered and has been live since |
| `Notifier.AttemptedExactly` | central-backend/src/services/notifier.js:84-90 | mail is attempted at every poll that wants it unless delivered and live since: failures are retried at every poll; one is delivered exactly when the server accepts it |
| `Notifier.MailsSeparated` | central-backend/src/services/notifier.js:3-9 | two delivered mails about a key are separated by a poll in which it was absent |
| `Notifier.SummaryExactly` | central-backend/src/services/notifier.js:194-207 | the summary is attempted at exactly the first poll of a UTC date that is late enough by local time |
| `Notifier.ClockMeans` | central-backend/src/services/notifier.js:194-207 | a poll is too early exactly while the local minute of the day is before the configured one; dates split the clocks into days |
| `Notifier.SummaryOncePerUtcDate` | central-backend/src/services/notifier.js:194-207 | at most once per UTC date while time does not go back |
| `Notifier.SummaryLocalDatesExactly` | central-backend/src/services/notifier.js:194-207 | where UTC midnight comes no later than the configured time locally, two summaries fall on different local dates if and only if the zone did not cross UTC westward by as much as the dates differ |
| `Notifier.SummaryOncePerLocalDate` | central-backend/src/services/notifier.js:10 | so at most once per local date unless the zone crosses UTC westward, daylight saving included |
| `Notifier.SummaryTwiceAcrossUtc` | central-backend/src/services/notifier.js:194-207 | counterexample: a zone going from UTC to UTC-1 gets two summaries on one local date |
| `Notifier.SummaryTwicePerLocalDate` | central-backend/src/services/notifier.js:194-207 | where UTC midnight comes later than the configured time locally, twice on one local date: at the configured time and again at UTC midnight |
| `Notifier.SummaryAtUtcMidnight` | central-backend/src/services/notifier.js:194-207 | there a UTC date whose first minute is polled has its one summary in that minute, not at the configured time |
| `Notifier.Service.constructor` | central-backend/src/services/notifier.js:25-43 | nothing remembered |
| `Notifier.Service.ForgetGone` | central-backend/src/services/notifier.js:62-67 | deletes exactly the keys of one kind that are not live |
| `Notifier.Service.CheckCriticalConcerns` | central-backend/src/services/notifier.js:58-92 | memory and mails are those of the check on values |
| `Notifier.Service.CheckPendingApprovals` | central-backend/src/services/notifier.js:98-135 | likewise; one mail for all new approvals |
| `Notifier.Service.CheckEscalations` | central-backend/src/services/notifier.js:141-188 | likewise, with the gating of reminders |
| `Notifier.Service.MaybeSendDailySummary` | central-backend/src/services/notifier.js:194-207 | marks the date before attempting, so a failed summary is not retried |
| `Notifier.Service.OnFleetUpdate` | central-backend/src/services/notifier.js:46-52 | the three checks and the summary; nothing when mail is disabled |
| `Sorting.StableSortOk` | endpoint-server/incidents/incidents.go:255-260 | a stable sort is an ordered permutation |
| `Sorting.StableSortKeepsAlike` | endpoint-server/incidents/incidents.go:255-260 | elements that compare equal keep their order |
| `Sorting.SortSlice` | endpoint-server/skills/check_drives/largest.go:200-218 | an unstable sort is some ordered permutation |

## Left out

- HTTP proxying, streaming, header copying, upstream model checks and the HTTP endpoints: input and output, or single lookups.
- JSON encoding, prompt and token extraction: stored values are opaque, sizes of encoded values are inputs.
- Filesystem and write failures, temporary files and renames, a nil backing store: operations on the store succeed.
- Gateway protocol: modelled on values as a state machine, because its state is shared by interleaving goroutines; memory effects weaker than sequential consistency are not modelled. /stats reads queue length and ghost counter one after the other; the model reads them in one state.
- Overflow of 64-bit counters and sums: integers are unbounded. File stamps are limited to 64 bits.
- Snapshot files whose names are not the canonical decimal form of their stamp (such as 007.json) or not numbers at all.
- ReadHistory, ReadNearest, Dump, AllKeys: plain readings of the same directory.
- GatewayStats.Tracker.Save: records made between a Save and a crash are not modelled.
- DirectoryScan.Propagate: nodes are numbers and totals a map, so aliasing of node objects is not captured; the filesystem does not change during a scan.
- ConnectionLog.KeyTextIsIdentity: a protocol or local address that contains the separator is excluded, since such texts do collide (KeyTextCanCollide); the log is keyed by the fields, which is the same thing for the others.
- Judging whether a connection is unusual, and the notifications and incidents that follow, are an arbitrary function.
- IncidentLedger.NormaliseIgnoresCase: lower-casing is ASCII only; other Unicode letters are left alone.
- IncidentLedger.NormaliseFixesExactly: for the same reason a capital outside ASCII counts as normal.
- Ledger times are integers ordered as their RFC 3339 texts are; texts written under different zone offsets, which compare differently, are not modelled.
- AgentRun.Run: local variables are passed as one value; tracing and the text of the closing note are not modelled; the sanitiser and the text of the nudge are parameters.
- Scheduler: NextRunAt and ScheduleLabel, which only display; parsing of durations and times of day.
- Notifier: mail texts; overlapping polls; a configured time that is not two numbers.
- Login monitoring, trend windows, the action policy, approvals, sessions and the user interface.
