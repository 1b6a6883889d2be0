# Verified models of the Orca control plane

Dafny models of the parts of Orca whose correctness depends on more than one function: the lease-based chunk queue
with the replicas, reclaim loops, watchdog and kills that act on it; output assembly; the durable webhook outbox;
quota reservations; the make-before-break reconciler; TP/PP packing; and the two histogram quantiles.

`dafny verify dfyconfig.toml` checks the whole project.

## How the model is laid out

- `ChunkQueue` is the queue of one job as a value: the pending list, the three sets and one hash per chunk, and what
  each operation does to them. The store lists a set in no fixed order, so every event carries the order in which its
  reclaim re-queues chunks; a run is then a sequence of events. Chunk and replica names are only compared, so they are
  numbers (0 is the empty replica name); times are reals.
- `ChunkManager` is the same queue as a class updated in place, with the Lua scripts as loops over the inflight
  members in arbitrary order; each method is proved to be one event of `ChunkQueue`.
- `QueueSafety`, `QueueRuns`, `QueueBounds` and `LeaseExclusivity` prove what every operation and every run keeps.
  `LateCompletion` is a run that shows what fails without the discipline the runners observe. `Runner` composes
  runners with the queue and proves what that discipline gives; `RunnerLoop` has the runner's two loops, and
  `LoopAndQueue` derives the runner's half of the discipline from them. `SecondContext` has runs of the composition.
- `FineQueue` is the queue at the granularity of single store commands. The coarse model is justified by the mutating
  callers being synchronous on one event loop; `FineQueue` does not need that, and `ForceMidPull` is one interleaving.
- `Assembly`, `Watchdog`, `Outbox` with `OutboxRuns`, `Quota`, `Reconciler`, `Packing` and `Histogram` are the others.

## Findings

- `complete_chunk` takes a chunk out of inflight and failed but never out of pending. `Safe` survives any completion,
  but the partition does not: it survives a step exactly when the step is not a completion of a pending or foreign
  chunk (`ExactNext`), and `LateCompletion` reaches `all_done` with a chunk still inflight and another both completed
  and failed, which assembly then skips.
- A runner that reports within one TTL of its last acknowledged pull or renewal, and is not force-reclaimed, always
  finds its chunk inflight and its own, or already completed. The second outcome is real: in `BothMayReport` one replica
  holds two contexts of one chunk and the second permitted report finds it completed. Both conditions are needed: a
  report after the TTL (`LateReportIsUntidy`) or after a kill (`KilledReportIsUntidy`), its flag unset, finds the chunk
  in pending. The flag is worth this much: while it is unset, the last answer the renewal thread got was an acceptance,
  so the TTL can be counted from any answer (`LoopReportIsTidy`); with it set that fails (`FlagIsNeeded`).
- At command granularity a force-reclaim can take back a chunk that a pull has added to inflight but not claimed, since
  the hash still names the former owner; `TokensExactly` gives the exact condition over runs and `HandedOutTwice` a run
  that hands the chunk to two clients. While all callers share one event loop the commands of a pull are not
  interleaved.
- One death noticed by both detectors does not always reach the outbox. With the watchdog first, exactly one row is
  written if and only if the replica held a chunk, or its job was over, or its log ended cleanly with chunks left: a
  running replica that holds nothing is taken to have finished, and the monitor then finds a terminal phase
  (`WatchdogThenMonitor`, `IdleDeathSwallowed`). With the monitor first, exactly one is written unless the log ended
  cleanly with the job done or its progress unreadable: the phase is then completed, which the scan skips, even if the
  replica held a chunk (`MonitorThenWatchdog`, `BusyDeathSwallowed`). In general the row is there if and only if some
  notice announced it (`AnnouncedExactly`).
- Reserving a live cluster name twice makes the quota counter exceed the table by the replaced row until a restart, so
  that a reservation that fits is refused (`ReservedTwice`); the excess is exactly the replaced vCPUs
  (`QuotaConserved`).
- `reserve_cluster` accepts a negative instance count, and then the counter can be driven past the baseline
  (`NegativeCount`: 12 vCPUs used of 8); after a reservation it stays within it over every continuation without negative
  reservations if and only if the reservation was refused or its own vCPUs are not negative (`StaysWithinIffSane`).
- The reconciler makes before it breaks within a cluster only. An object that moves between clusters is covered at
  every moment, whatever fails, exactly when its destination comes first in launcher order.
- The server and the runner disagree on the quantile of a histogram that has samples but no finite bucket (nothing
  against 0 ms), and at quantiles of 0 or less when the first bucket is empty; they agree on every other
  (`ServerAndRunnerAgree`; `AgreeExactly` if the counts are not even cumulative).
- The oracle's node count passes the topology check for every PP if and only if TP divides the GPUs per node
  (`OracleExact`). No shipped instance type is affected: they all have 1, 4 or 8 GPUs and the oracle's TP is a power of
  two (`OracleAlwaysAccepted`).

## Model

| member | source | states |
|---|---|---|
| ChunkManager.ChunkManager.constructor | orca_server/chunk_manager.py:191-239 | creating a queue leaves every chunk pending in submission order, with a fresh hash and nothing else |
| ChunkManager.ChunkManager.ReclaimExpired | orca_server/chunk_manager.py:53-90 | whatever order the members come in, exactly the expired chunks leave inflight; those with retries left are appended to pending, the rest join failed, every other chunk is unchanged, and the two counts are the growth of pending and, where no inflight chunk is in failed, of failed |
| ChunkManager.ChunkManager.ForceReclaimOwned | orca_server/chunk_manager.py:97-136 | the same, selecting by owner and ignoring leases; an empty list changes nothing |
| ChunkManager.ChunkManager.PullChunk | orca_server/chunk_manager.py:242-278 | a pull is the head of pending, after a passive reclaim when pending is empty and something is inflight, leased to the caller from the second clock reading; or nothing |
| ChunkManager.PullMeans | orca_server/chunk_manager.py:250-272 | the head of a non-empty pending list is handed out; nothing is only when nothing waits; what is handed out is inflight, owned by the caller, started and leased from the second clock reading |
| ChunkManager.PullReclaims | orca_server/chunk_manager.py:255-260 | with pending empty, an expired chunk fails, waits, or is the one handed out |
| ChunkManager.ChunkManager.RenewLease | orca_server/chunk_manager.py:280-294 | the lease is extended exactly when the chunk is inflight and owned by the caller |
| ChunkManager.ChunkManager.CompleteChunk | orca_server/chunk_manager.py:331-354 | a completion is accepted once, from anyone, wherever the chunk is, also for an unknown id: completed is one more, the chunk leaves inflight and failed, pending is untouched, and the progress returned has the new counts |
| ChunkManager.CompletionCounts | orca_server/chunk_manager.py:343-354 | the progress after a completion against the containers before it: completed one more, inflight and failed one less if the chunk was there, a second one changes nothing |
| ChunkManager.ChunkManager.GetProgress | orca_server/chunk_manager.py:356-375 | the size of each of the four containers under its own name, the total, and the end condition |
| ChunkManager.ChunkManager.ReplicaInflightCount | orca_server/chunk_manager.py:143-157 | the number of inflight chunks one replica owns |
| ChunkManager.ReclaimOneMore | orca_server/chunk_manager.py:65-87 | one iteration of either reclaim loop extends the set-level step by one chunk |
| QueueSafety.SafeNext | orca_server/chunk_manager.py:242-354 | under any events, with late, duplicate or foreign completions: no chunk is lost, pending has no duplicates, pending, inflight and failed are disjoint, status is inflight exactly for members of inflight, live chunks have retries left, waiting chunks have lease 0 |
| QueueSafety.ExactNext | orca_server/chunk_manager.py:340-352 | completed chunks stay out of the other three containers if and only if the event is not a completion of a pending or foreign chunk |
| QueueSafety.ExactProgress | orca_server/chunk_manager.py:356-375 | then the four containers partition the job, the counts add up, and `all_done` holds exactly when pending and inflight are empty |
| QueueSafety.DoneCountGrows | orca_server/chunk_manager.py:343-352 | completed plus failed never decreases, whatever arrives, so `all_done` is stable |
| QueueRuns.SafeRun | orca_server/chunk_manager.py:181-354 | the safety invariant holds in every reachable state |
| QueueRuns.AllDoneStable | orca_server/chunk_manager.py:374 | once true in a run, `all_done` stays true |
| QueueRuns.ExactRun | orca_server/chunk_manager.py:340-354 | the partition holds at every point of a run if and only if no completion in it finds its chunk pending or foreign |
| QueueRuns.ExactAccounting | orca_server/chunk_manager.py:362-375 | after any such run from a fresh job, the partition and the meaning of `all_done` |
| QueueRuns.TraceIsRun | orca_server/chunk_manager.py:181-354 | naming every intermediate state of a run gives the same final state |
| QueueRuns.FreshNext | orca_server/chunk_manager.py:216-250 | pending stays the never-pulled suffix of the submission order followed by re-queued chunks; a first hand-out is the next in order |
| QueueRuns.Fairness | orca_server/chunk_manager.py:216-237 | what a run hands out is a prefix of the submission order, or starts with all of it; after h hand-outs pending is the submission order from h on followed only by chunks handed out before |
| QueueBounds.BudgetNext | orca_server/chunk_manager.py:65-86 | per chunk, every event pays for the moves it makes out of a budget fixed by retries and completion |
| QueueBounds.BoundedWork | orca_server/chunk_manager.py:68-86 | no chunk is handed out more than max_retries times, and N chunks make at most N * (2 * max_retries + 1) moves in any run |
| QueueBounds.NoDeadlock | orca_server/chunk_manager.py:250-272 | while the accounts are exact and the job is not done, some chunk can move without spoiling them |
| QueueBounds.WorkEndsDone | orca_server/chunk_manager.py:65-86 | a run whose every event moves a chunk has at most N * (2 * max_retries + 1) events, and when no chunk can move any more the job is done |
| LeaseExclusivity.LeaseIsExclusive | orca_server/chunk_manager.py:262-294 | after a pull or renewal at t, up to and including t + TTL the chunk stays inflight with that owner and no pull returns it, unless it is completed or its owner is force-reclaimed |
| LeaseExclusivity.LeaseEndsExactly | orca_server/chunk_manager.py:67-68 | without a renewal, a reclaim during or after the lease takes the chunk if and only if its clock is past t + TTL |
| LateCompletion.LateRunStart | orca_server/chunk_manager.py:331-352 | a legal run from a fresh job up to a completion of a re-queued chunk |
| LateCompletion.LateRunEnd | orca_server/chunk_manager.py:242-278 | its continuation, without any completion |
| LateCompletion.DoneTooEarly | orca_server/chunk_manager.py:362-375 | it ends with `all_done` true, one chunk inflight, and the other both completed and failed |
| FineQueue.TokensDo | orca_server/chunk_manager.py:250-272 | every store command but a force-reclaim, in any interleaving, keeps a chunk in at most one hand or container, and its lease 0 until its pull writes one |
| FineQueue.TokensForce | orca_server/chunk_manager.py:111-131 | a force-reclaim keeps this if and only if it re-queues no chunk that a pull has added to inflight and not yet claimed |
| FineQueue.TokensExactly | orca_server/chunk_manager.py:111-131 | over any run of all the commands the tokens stay apart throughout if and only if every force-reclaim spares such chunks |
| FineQueue.OneTokenEach | orca_server/chunk_manager.py:68-83 | over every interleaved run without force-reclaims: at most one live token per chunk, nobody can renew a pending chunk, and a chunk still without a lease is never selected as expired |
| FineQueue.NothingLost | orca_server/chunk_manager.py:250-272 | in every interleaving of all the commands each chunk of the job is pending, popped, inflight, completed or failed |
| ForceMidPull.HandedOutTwice | orca_server/chunk_manager.py:111-131 | an interleaving in which a force-reclaim puts back a chunk a pull holds, and the next pull hands it to a second client |
| FineQueue.PullIsNext | orca_server/chunk_manager.py:250-272 | uninterrupted, a whole pull, with its passive reclaim and its three commands or without, is the one step of the coarse model |
| FineQueue.CompleteIsStep | orca_server/chunk_manager.py:340-352 | and the two of a completion are its one step |
| Runner.KnowsNext | templates/vllm_batch_runner_chunked.py:1217-1244 | while its TTL lasts and its replica is not killed, a context's chunk is held by its replica or completed, over any event |
| Runner.ReportHitsOwnChunk | templates/vllm_batch_runner_chunked.py:1686-1698 | a permitted report finds its chunk inflight and owned by the reporter exactly when it is not completed yet, and never pending |
| Runner.SecondContextFindsItCompleted | templates/vllm_batch_runner_chunked.py:1247-1293 | of two permitted contexts of one chunk the second report is still permitted and finds it completed |
| SecondContext.BothMayReport | templates/vllm_batch_runner_chunked.py:1217-1244 | a run from a fresh job that reaches two such contexts, and both reports |
| SecondContext.LateReportIsUntidy | templates/vllm_batch_runner_chunked.py:1686-1695 | a run after which a report with the flag unset would complete a pending chunk, the TTL being over |
| SecondContext.KilledReportIsUntidy | server.py:1605-1620 | a run in which the kill of a replica makes its report within the TTL, flag unset, complete a pending chunk |
| SecondContext.FlagIsNeeded | templates/vllm_batch_runner_chunked.py:1239-1242 | a run in which the last answer was a refusal and a report within the TTL of it would complete a pending chunk |
| Runner.GoodRun | templates/vllm_batch_runner_chunked.py:1579-1700 | every run of runners, lost responses, retried completions, expiry and kills keeps the accounts exact |
| Runner.RunnersKeepAccountsExact | templates/vllm_batch_runner_chunked.py:1645-1698 | so the exact partition and the meaning of `all_done` hold for runners and queue together |
| RunnerLoop.RenewLeaseLoop | templates/vllm_batch_runner_chunked.py:1226-1244 | the flag is set exactly when a renewal is refused before the thread is told to stop; errors never set it |
| RunnerLoop.ChunkLoop | templates/vllm_batch_runner_chunked.py:1579-1705 | only chunks whose flag is unset when the loop is done with them, and uploaded unless nothing was downloaded, are reported; the loop stops at the first turn that makes it leave |
| RunnerLoop.LeavesExactly | templates/vllm_batch_runner_chunked.py:1583-1626 | the loop leaves at a turn if and only if the queue is empty and the job done or nothing inflight, or the first idle signal since the last chunk is over 60 s old, or it is at least the tenth error in a stretch without a chunk |
| RunnerLoop.ReportedExactly | templates/vllm_batch_runner_chunked.py:1654-1695 | a chunk is reported if and only if some turn brought it with the flag unset throughout and its output uploaded or nothing to process |
| RunnerLoop.ReportedInOrder | templates/vllm_batch_runner_chunked.py:1690-1698 | reports come in the order of the turns that brought the chunks, one for each that may report |
| LoopAndQueue.FlagIsThread | templates/vllm_batch_runner_chunked.py:1239-1242 | over any run a context's flag is set if and only if one of its acknowledged renewals was refused by the queue |
| LoopAndQueue.UnsetMeansAccepted | templates/vllm_batch_runner_chunked.py:1239-1242 | over any run, with the flag unset the last answer heard was an acceptance |
| LoopAndQueue.RefusalMeans | templates/vllm_batch_runner_chunked.py:1645-1649 | a renewal that cannot be granted means the replica was killed, its TTL is over, or the chunk is completed, so skipping the chunk loses nothing |
| LoopAndQueue.LoopReportIsTidy | templates/vllm_batch_runner_chunked.py:1645-1698 | what the loop reports within the TTL of the last answer to its thread, its replica not killed, is permitted, and finds the chunk inflight and its own or completed |
| Assembly.AssembleOutput | server.py:1056-1089 | the combined file is the concatenation of the downloadable outputs of the non-failed chunks in submission order, with the others listed as failures |
| Assembly.FlattenMeans | server.py:1068-1087 | the combined file is laid out file after file, each whole and once |
| Assembly.KeptInOrder | server.py:1056-1070 | the chunks asked for are those not failed, in submission order |
| Assembly.AssemblyIsExact | server.py:1056-1089 | under exact accounts at `all_done`, assembly asks for each completed chunk once, in submission order, expects as many as completed, and misses none exactly when every output downloads |
| Assembly.AssemblyAfterLateCompletion | server.py:1058-1072 | after the late completion it asks for the chunk in progress instead of the completed one |
| Outbox.OutboxDB.Enqueue | orca_server/outbox.py:89-131 | a new key gets a row with this path and payload, due now, not attempted; a second enqueue of a key leaves the first row as it is |
| Outbox.OutboxDB.ClaimBatch | orca_server/outbox.py:137-154 | at most `limit` due rows, earliest first, and a due row is left out only if the batch is full of rows no later than it |
| Outbox.ClaimMeans | orca_server/outbox.py:146-150 | the same in terms of the columns delivered_at and next_attempt_at |
| Outbox.OutboxDB.MarkFailure | orca_server/outbox.py:165-192 | a failure counts an attempt and reschedules after the backoff |
| Outbox.OutboxDB.PruneDelivered | orca_server/outbox.py:214-223 | exactly the delivered rows older than the cutoff go, and are counted |
| Outbox.OutboxPublisher.DrainOnce | orca_server/outbox.py:309-334 | a pass claims once; a claimed row answered 200 to 299 is delivered at that time, any other has one more attempt and a later one scheduled, no other row changes, and the number delivered is the number of such answers |
| Outbox.SettledTreats | orca_server/outbox.py:315-333 | marking the first n rows treats each of them as it was answered and changes no other |
| Outbox.BackoffGrows | orca_server/outbox.py:181-182 | the backoff starts at 1 s, never shrinks, and is capped at 30 s |
| Outbox.FailureSchedule | orca_server/outbox.py:177-191 | the n-th failure in a row waits 1, 2, 4, 8, 16, then 30 s |
| OutboxRuns.AtLeastOnce | orca_server/outbox.py:111-163 | over every run, with enqueues and crashes at any point of a pass and lost answers: each enqueued event waits undelivered or was answered 2xx, and a receiver that dedups by id applies each event once, with the payload first enqueued |
| OutboxRuns.RowStep | orca_server/outbox.py:120-130 | over one operation a row, delivered or not, keeps payload, address and creation time, or is pruned, which happens only to a delivered one |
| OutboxRuns.RowsAreFixed | orca_server/outbox.py:156-192 | a row keeps its payload and address for as long as it is in the table, over any run |
| OutboxRuns.LeavesOnlyAcked | orca_server/outbox.py:214-223 | a row that has left the table was answered 2xx |
| OutboxRuns.OvertakeStep | orca_server/outbox.py:177-192 | one step of a pass, an enqueue or a prune: the rows ahead of a waiting row and those the current pass has taken grow together only by an enqueue at the instant the row fell due, and a pass that finishes without posting it has taken `limit` |
| OutboxRuns.BoundedOvertaking | orca_server/outbox.py:137-154 | a due row with k rows ahead is posted within floor((k + t) / limit) + 1 complete passes, whatever the answers and whatever is enqueued during or between them, where t counts rows enqueued at the very instant it falls due |
| OutboxRuns.NoTiesLater | orca_server/outbox.py:149 | t is 0 once that instant has passed |
| OutboxRuns.PassIsDrain | orca_server/outbox.py:309-334 | undisturbed, the steps of a pass do to the table what the publisher's drain does |
| Watchdog.ReplicaWatchdog.HandleDeadReplica | orca_server/watchdog.py:143-220 | a tracked replica is left alone, a graceful one is completed, any other is dead, announced and force-reclaimed; assembly is called exactly when that leaves the job done |
| Watchdog.ReplicaWatchdog.CheckReplica | orca_server/watchdog.py:80-109 | an untracked replica that failed, or runs silent for longer than the threshold and holds a chunk, is dead, tracked, announced and owns nothing; one that runs silent and holds nothing is completed and tracked; in every other case, and so for a heartbeat within the threshold, nothing changes; assembly is called for exactly when it was declared dead and the job is done |
| Watchdog.LookIsMeant | orca_server/watchdog.py:91-109 | the phases, heartbeats and running times for which the scan handles a replica are exactly these |
| Watchdog.ReplicaWatchdog.CheckJob | orca_server/watchdog.py:79-109 | after a scan every overdue replica is tracked and owns nothing if handled now, and every other is untouched; the outbox has one more row for each replica declared dead whose key was not there; assembly was called for exactly when some replica was and the job is done |
| Watchdog.ReplicaWatchdog.Heartbeat | server.py:694-709 | metrics from a replica end its tracking and put a dead or starting one back to running |
| Watchdog.MonitorReplica | orca_server/launcher.py:1390-1489 | for every exit the phase it leaves and whether it writes a row, and which; when it is gone the replica is terminal or its failure is in the outbox |
| Watchdog.KillReplicas | server.py:1605-1643 | terminal replicas are skipped, the others lose their chunks and get the phase |
| Watchdog.ForceReclaimSettles | orca_server/watchdog.py:202-204 | after a force-reclaim the replicas own nothing, each chunk they held has been taken back once, no other is touched, and repeating it changes nothing |
| Watchdog.HandledOwnsNothing | orca_server/watchdog.py:143-204 | the same for a replica the watchdog has handled, with its failure in the outbox unless it was graceful |
| Watchdog.NoticedOnce | orca_server/watchdog.py:178-204 | one death noticed any number of times by watchdog, monitor and kills in any order: at most one force-reclaim's effect and at most one new outbox row, the first |
| Watchdog.AnnouncedExactly | orca_server/watchdog.py:178-197 | and the row is there in the end if and only if it was there before or some notice announced it |
| Watchdog.WatchdogThenMonitor | orca_server/launcher.py:1390-1489 | for any exit of the monitor thread: exactly one row if the replica held a chunk, its job was over, or the log ended cleanly with chunks left; none otherwise |
| Watchdog.MonitorThenWatchdog | orca_server/watchdog.py:79-96 | the other way round: exactly one row unless the log ended cleanly with the job done or its progress unreadable, and then none |
| Watchdog.IdleDeathSwallowed | orca_server/watchdog.py:151-164 | the death of a replica that holds nothing, of which no row is written, and the same death in the other order |
| Watchdog.BusyDeathSwallowed | orca_server/launcher.py:1396-1427 | the death of a replica that holds a chunk and whose job's progress cannot be read: no row, and the chunk left to its lease |
| Watchdog.OwnsNothingRun | orca_server/watchdog.py:202-204 | a handled replica owns nothing after any queue run in which it does not pull |
| Quota.VPCQuotaTracker.constructor | quota/tracker.py:145-168 | opening the database replays its rows into the counters |
| Quota.VPCQuotaTracker.ReserveCluster | quota/tracker.py:170-202 | admitted exactly when the type is known and the vCPUs fit; the row replaces one of the same name and the counter goes up |
| Quota.VPCQuotaTracker.ReleaseCluster | quota/tracker.py:204-219 | the row goes and the counter with it; an unknown name changes nothing |
| Quota.VPCQuotaTracker.Reconcile | quota/tracker.py:221-230 | the loop releases every stale name once |
| Quota.ReconcileKeepsLive | quota/tracker.py:225-228 | after a reconcile the table holds exactly the reservations of live clusters |
| Quota.ReleaseEffect | quota/tracker.py:216-218 | the max(0, ...) never clips, so a release moves counter and table together |
| Quota.ReserveExact | quota/tracker.py:189-199 | a reservation keeps counter and table equal if and only if it is refused, its name is new, or the replaced row was empty |
| Quota.QuotaConserved | quota/tracker.py:162-228 | over every run without negative reservations, per key: persisted <= used <= baseline, and used exceeds persisted by exactly the vCPUs replaced since the last restart |
| Quota.StaysWithinIffSane | quota/tracker.py:182-199 | the counter stays within the baseline over every continuation without negative reservations if and only if the reservation was refused or its own vCPUs are not negative |
| Quota.NegativeCount | quota/tracker.py:182-199 | a count of -1, a reservation that fits because of it, and a release: 12 vCPUs used of 8 |
| Quota.ReservedTwice | quota/tracker.py:192-199 | one name reserved twice: the counter holds 8 vCPUs, the table 4, and a third reservation is refused until a restart |
| Reconciler.DynamoLauncher.Reconcile | src/tandemn_orca/launcher.py:143-164 | for every fault the exact cluster state and error |
| Reconciler.AppliedMeans | src/tandemn_orca/launcher.py:143-145 | applying writes every object with its own spec, the last one of each key, and touches nothing else |
| Reconciler.MakeBeforeBreak | src/tandemn_orca/launcher.py:143-148 | whatever fails, nothing has been deleted or every desired object is in place as desired, and only stale objects go |
| Reconciler.AfterStops | src/tandemn_orca/launcher.py:143-164 | for each outcome how far the cluster got, in terms of the objects: unchanged, a prefix written, all written and a prefix of the stale ones gone, or exactly the desired ones |
| Reconciler.DoneIsExact | src/tandemn_orca/launcher.py:143-148 | a reconcile that is done leaves exactly the desired objects, with their specs, from any partial state, and another changes nothing |
| Reconciler.MultiClusterLauncher.GroupRanks | src/tandemn_orca/launcher.py:196-201 | grouping fails exactly when a rank has no known cluster, and otherwise keeps rank order |
| Reconciler.GroupMeans | src/tandemn_orca/launcher.py:196-201 | a group is the objects of exactly the ranks of its cluster, in rank order, the default cluster going first |
| Reconciler.MultiClusterLauncher.Reconcile | src/tandemn_orca/launcher.py:193-211 | clusters before the failing one are exactly their own ranks' objects, later ones untouched; fault-free, all are exact, so a rank that moved is not left behind |
| Reconciler.MoveIsCoveredIffDestinationFirst | src/tandemn_orca/launcher.py:210-211 | a moved object exists somewhere at every moment of every pass, whatever fails inside any cluster, if and only if its destination precedes its source |
| Packing.ValidationIsExact | orca_server/launcher.py:104-128 | for a known type the check accepts exactly the configurations whose stages can be assigned wholly to nodes within their GPUs |
| Packing.VerdictMeans | orca_server/launcher.py:106-128 | an unknown type is let through, TP has to fit one node, and the number reported is the least that works |
| Packing.UserNodesLeast | server.py:2081-2082 | the user-specified count is the least that can be packed |
| Packing.OracleAgrees | placement/advisor/oracle.py:304-305 | the oracle's count is the same whenever TP divides the GPUs per node, and passes the check |
| Packing.OracleCounts | placement/advisor/oracle.py:304-305 | the oracle asks for the least positive number of nodes with enough GPUs in all |
| Packing.OracleAlwaysAccepted | placement/advisor/oracle.py:260-271 | for every TP the oracle enumerates and every node size in the instance table, its count passes |
| Packing.OracleExact | placement/advisor/oracle.py:304-305 | for a TP that fits a node, the oracle's count passes the check for every PP if and only if TP divides the GPUs per node |
| Packing.OracleTooSmall | placement/advisor/oracle.py:304-305 | otherwise the stages that fill as many nodes as a node has GPUs are given too few |
| Histogram.ServerQuantile | orca_server/monitoring.py:44-64 | for any quantile and any sorted buckets, the interpolated value in ms in the first bucket that reaches the target, the lower end of a flat one, the largest bound past all, or none |
| Histogram.RunnerQuantile | templates/vllm_batch_runner_chunked.py:182-205 | the same, but the upper end of a flat bucket, and 0 ms where the server has none for lack of finite buckets |
| Histogram.ReportsMean | orca_server/monitoring.py:50-64 | in the first bucket that reaches the target both report the point of the line through its ends; a flat bucket gives the server its lower and the runner its upper end; past all buckets both report the largest bound, the server only if it is positive |
| Histogram.ThreeQuarters | templates/vllm_batch_runner_chunked.py:203-204 | one histogram of which both report 1500 ms at 0.75 |
| Histogram.AgreeExactly | templates/vllm_batch_runner_chunked.py:192-205 | for any sorted buckets the two agree if and only if there are no samples, or the bucket reached rises or has no width, or none is reached and the largest bound is positive |
| Histogram.ValueInBucket | orca_server/monitoring.py:52-64 | the value lies in the bucket where the count first reaches the target, on the line through its two ends, or is the largest finite bound |
| Histogram.QuantileMonotone | orca_server/monitoring.py:50-60 | a larger quantile never reports less |
| Histogram.ServerAndRunnerAgree | templates/vllm_batch_runner_chunked.py:188-199 | on cumulative counts the two agree if and only if there are no samples, or there is a finite bucket and the quantile is positive or the first bucket not empty |

## Left out

- ReportHitsOwnChunk: assumes the report arrives within one TTL of the last acknowledged pull or renewal; the code
  checks only the flag, and `LateReportIsUntidy` shows what a later report can do.
- LoopReportIsTidy: likewise assumes the TTL, counted from the last answer, and that the replica was not killed.
- How long the runner's loop sleeps between turns, and the metrics it accumulates.
- Redis, SQLite, HTTP, S3, Kubernetes and the clock are the state they change, the answers they give and parameters;
  several jobs share no state, so one job is modelled.
- The chunk hash fields for paths and line counts, the job metadata, and `cleanup_job` with anything after it.
- A server crash between popping a chunk and adding it to inflight: the chunk is lost, and no model step does it.
- The assembly lock and its TTL, the upload, and the job status and metrics written after assembly.
- "Every transition to `all_done` starts assembly" does not hold in the code: a passive reclaim inside a pull and a kill
  can fail the last chunk without it.
- The outbox columns for event type, job and error text, JSON encoding and the envelope: the payload is opaque.
- Raw `reserve` and `release` of the quota tracker, which bypass the persisted table.
- Compilation of ranks to objects, router configuration, tunnels and teardown; a rank is the one object it compiles to.
- The floor-based node count for Koi alternatives, which the topology check can reject.
- Dashboards, metrics parsing, templates, throughput models and placement heuristics.
