# Checkpoints, goals and supervised writes

A Dafny model of the parts of the repository that must stay right when a step fails or the
host dies, and proofs about it. `dafny verify dfyconfig.toml` checks everything.

- **Restoring checkpoints.** `FileSystem` is a disk on which every step may fail and whose
  history is kept, so a contract can speak about every point at which the process may be
  killed. `Swap` moves originals aside and puts staged nodes in their places; `ArchiveRestore`
  and `LocalStateRestore` are the two file transactions built on it, with their flags and
  rollbacks. `Retention` prunes and deletes archives. `RecoveryLedger` is the append-only
  recovery ledger and the fold that reads it; `RestoreAttempts` counts attempts with refunds.
- **Supervised writes.** `SupervisedWrites` is a state machine: each step is one critical
  section or one step a write makes on its own, any sequence of steps is a run, and a crash
  clears memory. `ApprovalService` is the service itself, each method proved to do what the
  step says, and `Apply` the whole of one approved write.
- **Goals.** `GoalLog` has the one log, the two folds that read it, and which event may follow
  which history (`Legal`). `GoalStore` has the operations; each says exactly which events it
  appends and keeps the log legal. `GoalHistory`, `GoalActiveTime` and `UsageTotals` prove what
  every legal log satisfies. `GoalWatchdog` ties deliveries to approvals. `GoalRuns` calls the
  operations one after the other, a dead host being a store that another opens again, and so
  reaches the cases in which a property fails.
- **Two small algorithms.** `CorrectionHistory` compacts a conversation, `CompletionVerifier`
  polls the editor until two reads agree.

Time is an integer number of microseconds. Hashes are injective. A replace, an append or the
writing of a small state file happens as a whole or raises.

## Findings

Properties that do not hold as they stand.  Each has its exact condition and, where it takes a
particular history, a run that reaches it:

- An archive restore that has published everything raises, with nothing undone, exactly when a
  removal of a scratch file after that raises; and one that has put everything back reports the
  removal and not the cause exactly when a removal raises then (agent_checkpoint_recovery.py:2750-2756;
  `Transaction.Run`, outcomes `LeftoverScratch` and `LeftoverAfterRollback`).
- A write that names no project can have two dialog continuations in flight at once, exactly when
  they are for different projects (agent_approval_transactions.py:1997-2027; `ContinuationsApart`,
  and `GlobalParentAdmitsTwo` is the run from an empty host).
- The recovery line that must precede a write can be lost, and the handler then runs with no recovery
  to be seen, exactly when the ledger ended in part of a line, or when the line holds a character
  at which the reader breaks lines and the writer does not (agent_checkpoint_recovery.py:4192-4223;
  `OpeningIsShown`, `RecoveryBeforeWrite`, and `TornLineHidesRecovery` and `BrokenLineHidesRecovery`
  are the runs).  A ledger that ends within a character cannot be read at all: that hides nothing,
  for no write starts any more (`GarbledStopsWrites`).
- A start keeps its project's lock without a write exactly when it raises after it took the lock: the
  recoveries cannot be read, or the refusal because of one cannot be recorded.  Until the host is
  started again every write to the project but a continuation is refused
  (agent_approval_transactions.py:2035-2083; `LockLeaks`, `LeakedLockStays`, `LeakedLockRefuses`, and
  `LockLeaksReached` is the run).
- One occurrence advances its goal's schedule twice exactly when its result is recovered from its
  file after it had been continued with the schedule already advanced (agent_goal_store.py:1314-1344;
  `AdvancesOncePerOccurrence`, and `WokenTwice` is the run).
- A crash between a result file and the event that says so is repaired exactly for a running
  delivery that had not advanced its schedule and whose result reports the usage handed over with
  it.  An approved action that was applied is failed for good although its result is durable
  (agent_goal_store.py:1411-1432 and 1452-1491; `CrashEquivalence`, and `AppliedResultIsFailed` is the run).
- A second question in one occurrence can never be answered: the mark of the first answer stays
  when the delivery is blocked again, and the answer is dropped without an error
  (agent_goal_store.py:1950-1964 and 2264-2265; `AnsweredOnce`, `ResolveQuestion`, and
  `SecondAnswerIsLost` is the run).
- Attempts are bounded, runs are not.  A delivery has more runs than attempts exactly when the claims
  that used no retry after its first, together with the times it was begun straight out of failed or
  interrupted, outnumber the times it was in line and was not begun (agent_goal_store.py:939-964,
  1047-1052 and 1636-1692; `RunsAccounted` and `FreeClaimsAre`, `AttemptsBounded` bounds the attempts,
  and `BegunWithoutEnd` has as many runs as one likes at the first, through a dead host, an unreachable
  provider and a failure in any order).
- A watchdog pass is cut short exactly when an approved action was carried out whose delivery has
  moved on, and then every pass is (agent_goal_service.py:550-565, agent_goal_store.py:2198-2199;
  `Watchdog.Reconcile`, and `MovedOnRaises` is the run).
- A goal's usage is the sum over its deliveries exactly when what it had received before its last
  receipt is within the clamp, or one delivery had received all of that (agent_goal_store.py:128;
  `UsageConserved`, and `GoalForgetsUsage` is the run in which it is not).  That is for counters among
  the first forty ever reported; a later one is lost at every merge (`TotalsExact`).
- Restore attempts made by checkpoint alone are not checked against the attempt limit; the stored
  count passes it exactly when their failures fill what safety-backed attempts leave
  (agent_checkpoint_recovery.py:1484-1488; `RestoreAll`, and `UnbackedFailuresPassTheLimit` is the run).

## Model

| member | source | states |
|---|---|---|
| FileSystem.Disk.Replace | agent_checkpoint_recovery.py:2728-2735 | a rename moves one node and nothing else, or raises and changes nothing; the disk after it is recorded |
| FileSystem.Disk.RemoveTree | agent_checkpoint_recovery.py:2876-2883 | removing a tree removes it, or raises and leaves a part of it there |
| Swap.PublishOne | agent_checkpoint_recovery.py:2728-2735 | at every step the original is at its target or its backup, and the flags say which |
| Swap.PublishAll | agent_checkpoint_recovery.py:2728-2735 | success puts every staged node in place and every original at its backup; failure leaves the records describing the disk |
| Swap.KeptByRecords | agent_checkpoint_recovery.py:2736-2749 | records whose flags describe the disk account for every original node: at its target or its backup |
| ArchiveRestore.Transaction.StageAll | agent_checkpoint_recovery.py:2697-2727 | staging touches no original; afterwards each path either is right already or has its record |
| ArchiveRestore.Transaction.RollBack | agent_checkpoint_recovery.py:2736-2749 | undone in reverse order, no original is ever lost, and the failure list names exactly the records that could not be undone, each with its backup; each of them took one raised error of the undo, so nothing is left undone without one |
| ArchiveRestore.Transaction.PublishedNames | agent_checkpoint_recovery.py:2757-2758 | the two returned name lists are the paths restored from the archive and the paths deleted |
| ArchiveRestore.Transaction.Run | agent_checkpoint_recovery.py:2680-2758 | all or nothing under arbitrary step failures: restored means the scope equals the archive, all else unchanged and no scratch left; rolled back means the disk is as before; after a failed rollback exactly the named originals are away, each at the reserved backup named with it; which of these it is follows from whether everything was published and whether an error was raised in the undo or in the clean-up, as many in the undo as there are originals named; at every earlier point of the history each original is at its target or backup |
| LocalStateRestore.SiblingsPlan | agent_checkpoint_recovery.py:2901-2906 | the hidden staging and backup names of different roots never meet each other or a root |
| LocalStateRestore.Restore.StageAll | agent_checkpoint_recovery.py:2885-2983 | staging builds exactly the archived trees beside the roots and leaves every root alone |
| LocalStateRestore.Restore.Preflight | agent_checkpoint_recovery.py:3046-3073 | the last look moves nothing, and passes only when every root is a tree or missing, its backup name is free and its staging is there exactly if the archive has it; a refusal has a raised error or an ill-shaped scope for its reason |
| LocalStateRestore.Restore.RollBack | agent_checkpoint_recovery.py:2985-3044 | it fails exactly when an error was raised; the roots not put back and the staged trees left over are together as many as the errors, exactly these are named by a copy that exists, and an error always has one |
| LocalStateRestore.Restore.Run | agent_checkpoint_recovery.py:2885-3121 | at every step before the commit each root's old tree is at the root or at its backup; success has the archived trees in place and a plain failure leaves all roots as before; which outcome it is follows from how far it came and whether an error was raised after that, and what an uncleaned or failed one names is exactly what is left over, one path or root for each error |
| RecoveryLedger.ActiveUntilSettled | agent_checkpoint_recovery.py:4093-4112 | a recovery stays active, blocks its project and keeps its checkpoint protected through every extension that does not settle it |
| RecoveryLedger.ActiveIsListed | agent_checkpoint_recovery.py:4093-4112 | everything an active recovery refers to is protected |
| RecoveryLedger.SettledByLine | agent_approval_transactions.py:3336-3337 | a settling status ends a recovery whatever came before |
| RecoveryLedger.Coalesce | agent_checkpoint_recovery.py:4225-4246 | the dictionary built by the loop is the fold, for every id, with or without settled recoveries |
| Retention.SortedIsSorted | agent_checkpoint_recovery.py:836-836 | the order of age is an ordered permutation of the archives |
| Retention.NewestAre | agent_checkpoint_recovery.py:4127-4130 | the newest archives are as many as asked for or there are, and none of the others is newer |
| Retention.PolicyKeeps | agent_checkpoint_recovery.py:4093-4131 | what callers and active recoveries need and the two newest are kept from either limit; from the size limit alone exactly what is at most fifteen minutes old |
| Retention.PruneOne | agent_checkpoint_recovery.py:836-861 | one turn of the pruning loop keeps the account of what went, what stays and why |
| Retention.Prune | agent_checkpoint_recovery.py:804-883 | nothing protected goes, and every single deletion was called for when it was made; bytes and count are those of the survivors; an unmet count limit means all survivors are protected, an unmet size limit that all are size-protected; the oldest go first |
| Retention.CountLimitMet | agent_checkpoint_recovery.py:4113-4131 | with distinct ids, only recency protection and no failed deletion the count limit is always met |
| Retention.DeleteSelected | agent_checkpoint_recovery.py:548-590 | exactly the requested unprotected archives go, apart from those that could not be deleted; the protected ones are reported |
| RestoreAttempts.Restorer.PrepareAttempt | agent_checkpoint_recovery.py:1724-1824 | the attempt is counted and its safety checkpoint kept before anything is restored, earlier ones staying listed |
| RestoreAttempts.Restorer.RecordFailure | agent_checkpoint_recovery.py:1337-1379 | a counted failure counts once, a proven zero-effect failure refunds, and three of those in a row block automatic launch |
| RestoreAttempts.Restorer.RecordSuccess | agent_checkpoint_recovery.py:1398-1413 | a success ends the streak and unblocks, and clears no other counter |
| RestoreAttempts.Restorer.Restore | agent_checkpoint_recovery.py:1460-1511 | what an attempt comes to, exactly, from the history, the limit and what it meets; what that adds to the history, and that a zero-effect failure leaves the count unchanged; only a success closes the recovery |
| RestoreAttempts.Restorer.RestoreAll | agent_checkpoint_recovery.py:1460-1511 | over any sequence of attempts each comes to what those before it let it, and the stored count is the number of counted failures, successes and crashes; the part of safety-backed attempts stays within the limit, and the count passes it exactly when unlimited failures fill the rest |
| RestoreAttempts.TallyCounts | agent_checkpoint_recovery.py:1337-1379 | the tally of a history counts what the history shows, and no unlimited failure when all attempts were backed |
| RestoreAttempts.UnbackedFailuresPassTheLimit | agent_checkpoint_recovery.py:1484-1488 | any number of counted failures of attempts by checkpoint alone is stored under a limit of three |
| SupervisedWrites.OnceKept | agent_approval_transactions.py:1958-2127 | every step keeps: an approval that may still start has not started, in memory or on disk |
| SupervisedWrites.ExclusiveKept | agent_approval_transactions.py:975-1008 | every step keeps writes and reads apart and the lock table in line with the running writes |
| SupervisedWrites.WriteAheadKept | agent_approval_transactions.py:2316-2355 | every step keeps: an unsettled recovery is active for the checkpoint it was opened for, whose archive is there |
| SupervisedWrites.LoggedPruned | agent_checkpoint_recovery.py:548-568 | pruning and deleting what is unprotected leaves every unsettled recovery its archive |
| SupervisedWrites.RunSound | agent_approval_transactions.py:1938-2665 | the three invariants hold after every sequence of steps and crashes |
| SupervisedWrites.HandlerRunsAtMostOnce | agent_approval_transactions.py:1958-1965 | no run, whatever crashes it contains, enters the handler of one approval twice |
| SupervisedWrites.SnapshotHoldsThePending | agent_approval_transactions.py:1022-1127 | while restarts can read the snapshot it holds exactly the pending approvals, so a restart loses none and brings back no other |
| SupervisedWrites.MutualExclusion | agent_approval_transactions.py:1980-2050 | writes in flight and read leases are pairwise without conflict except a continuation and the write it continues; every other write holds its project's lock |
| SupervisedWrites.ContinuationsApart | agent_approval_transactions.py:1997-2027 | two continuations of one write are in flight together only for projects without conflict |
| SupervisedWrites.OneContinuation | agent_approval_transactions.py:2703-2719 | a write that names a project has at most one continuation that touches it |
| SupervisedWrites.GlobalParentAdmitsTwo | agent_approval_transactions.py:1997-2027 | a run from an empty host ends with a write that names no project and two continuations of it, for two projects, all in flight |
| SupervisedWrites.RecoveryBeforeWrite | agent_approval_transactions.py:2316-2355 | once a checkpointed handler is entered its recovery is active for its checkpoint, and the archive kept, at every later point of the run until a line settles it, unless its opening line was lost |
| SupervisedWrites.OpeningIsShown | agent_checkpoint_recovery.py:4192-4223 | a recovery that is opened is found afterwards exactly when the ledger can be read and ended with a whole line and the new line is not broken; its line is lost for good exactly in the last two cases |
| SupervisedWrites.TornLineHidesRecovery | agent_checkpoint_recovery.py:4192-4223 | a run in which a host dies in the middle of a line and the next one enters a checkpointed handler while the ledger shows no recovery |
| SupervisedWrites.BrokenLineHidesRecovery | agent_checkpoint_recovery.py:4192-4223 | a run without any fault in which a handler is entered while the ledger shows no recovery, because its line is read as two |
| SupervisedWrites.GarbledStopsWrites | agent_checkpoint_recovery.py:4192-4207 | once the ledger cannot be read no write starts, in this host or any later one |
| SupervisedWrites.SettlementDecides | agent_approval_transactions.py:2615-2644 | a recovery whose settling line is written whole stays active exactly when the outcome is unknown or still awaited; a line that is lost settles nothing |
| SupervisedWrites.UnsettledRecoveryBlocks | agent_approval_transactions.py:2052-2081 | meanwhile no conflicting write starts except the two recovery tools and a click that continues the very write |
| SupervisedWrites.LockLeaks | agent_approval_transactions.py:2035-2083 | over all steps, exactly when a project lock is left behind without a write |
| SupervisedWrites.LeakedLockRefuses | agent_approval_transactions.py:2033-2050 | a lock left behind refuses every start for its project but a continuation |
| SupervisedWrites.LockLeaksReached | agent_approval_transactions.py:2035-2055 | a run from an empty host in which one failed read leaves a lock behind |
| ApprovalService.Service.PersistPending | agent_approval_transactions.py:1090-1127 | the loop writes the pending approvals and only those, exactly unless there are too many or the write raises |
| ApprovalService.Service.Request | agent_approval_transactions.py:4176-4186 | a request that cannot be persisted is taken back as if never made, and only such a one |
| ApprovalService.Service.Decide | agent_approval_transactions.py:5401-5444 | a decision is taken exactly from pending or approved and when it is persisted; otherwise the old status is back |
| ApprovalService.Service.Revise | agent_approval_transactions.py:5467-5530 | changes are asked for exactly once per task, with a reason, of a pending linked approval, and only when that is persisted; whatever refuses leaves every approval as it was |
| ApprovalService.Service.Begin | agent_approval_transactions.py:1958-2127 | a start that cannot be recorded leaves approval, flight and lock exactly as they were; one that raises before it leaves the lock and nothing else |
| ApprovalService.Service.BeginExternal | agent_approval_transactions.py:4714-4794 | an external write is admitted exactly when the mode in force does not ask for more than it was prepared with, the recoveries can be read, and no read, recovery, flight or lock stands in its way |
| ApprovalService.Service.TakeLease | agent_approval_transactions.py:3313-3323 | a lease is granted exactly to a named reader whose project no write and no lease conflicts with |
| ApprovalService.Service.Protect | agent_approval_transactions.py:2316-2333 | the store is held from the checkpoint to the recovery line and free afterwards, whichever fails; it fails only by raising, and what it has then written is known |
| ApprovalService.Service.Finish | agent_approval_transactions.py:2410-2665 | the outcome is recorded and the recovery settled as the handler ended, or as a failure exactly when that raises; whichever step raises, the write is a run of the state machine, has left and gave back its lock |
| ApprovalService.Service.Apply | agent_approval_transactions.py:1938-2665 | a whole write, whatever raises or tears on its way, is a run of the state machine that keeps the invariants and leaves flights, leases and store as it found them, and the locks too unless the start raised after taking one, which is then the one left; begun, it takes one of the proper courses, raising as often as that says, and ends as it must: applied only if the handler was entered and succeeded, its recovery settled as applied only then, and both as the handler ended when nothing raises |
| ApprovalService.CourseEnds | agent_approval_transactions.py:2316-2665 | for every way the steps of a write can raise: how the approval ends, whether its handler was entered, and which of its lines the ledger shows |
| ApprovalService.LinesSay | agent_checkpoint_recovery.py:4225-4246 | the merged status of a write's recovery is that of the last of its lines in the ledger |
| ApprovalService.Service.Restart | agent_approval_transactions.py:1022-1071 | after a crash only what the snapshot holds is known, and nothing is in flight, locked or leased |
| UsageTotals.Bound | agent_goal_store.py:107-133 | the loop keeps the first forty keys with clamped values |
| UsageTotals.Merge | agent_goal_store.py:136-171 | the merging loop adds counters and keeps the larger peak, key by key, in insertion order |
| UsageTotals.MergedValues | agent_goal_store.py:136-171 | every counter among the first forty of the total is, in the merge, what the clamp leaves of the total plus the receipt, or the larger peak; every other is what the receipt says |
| UsageTotals.TotalsExact | agent_goal_store.py:107-171 | over any number of receipts with any number of counters, which counters a total has and what each is: among the first forty ever reported it is the sum of its receipts exactly when those before the last are within the clamp, a peak always; a later one is only what the last receipt says, and exact only if the others add nothing |
| UsageTotals.ExcessesAgree | agent_goal_store.py:128-128 | clamped one by one, parts lose what the whole loses exactly when it has nothing to lose or one part is the whole |
| GoalHistory.DeliveryRevision | agent_goal_store.py:442-450 | a delivery's revision is the number of its events |
| GoalHistory.GoalRevision | agent_goal_store.py:376-418 | a goal's revision is the number of its own events and of the delivery events that woke it, its wake count that of the latter |
| GoalHistory.SameRevision | agent_goal_store.py:691-693 | an unchanged revision proves that no such event came in between, and a changed one that some did |
| GoalHistory.AdvancesOncePerOccurrence | agent_goal_store.py:1307-1312 | an occurrence advances its schedule at most twice, and twice if and only if a result was recovered for it after its continuation |
| GoalHistory.WakeCount | agent_goal_store.py:385-405 | a goal's wake count is the number of occurrences that advanced it plus those recoveries |
| GoalHistory.AttemptsBounded | agent_goal_store.py:930-964 | the attempt is one more than the retries used and never exceeds the limit |
| GoalHistory.RunsAccounted | agent_goal_store.py:1024-1068 | in every legal log an occurrence has as many runs as its attempt, its free claims and its restarts, less the times it was in line and not begun; so when there are more runs than attempts |
| GoalHistory.FreeClaimsAre | agent_goal_store.py:930-964 | a claim after the first uses no retry only out of skipped or interrupted; a failed delivery always pays |
| GoalHistory.AnsweredOnce | agent_goal_store.py:2264-2290 | the mark of an answer is never taken away, so an occurrence is answered at most once however many questions it asks |
| GoalHistory.GoalKnown | agent_goal_store.py:409-415 | an occurrence belongs to the owner of its goal, who has a chat and never changes again |
| GoalHistory.OwnedWhenScheduled | agent_goal_store.py:420-424 | in every legal log a goal that is to be woken has a chat, so none is held back for want of an owner |
| GoalHistory.AddedOnce | agent_goal_store.py:971-1022 | an occurrence has one pending event in every legal log, and no second one |
| GoalHistory.ClaimedAgainOnlyAtRest | agent_goal_store.py:930-964 | in every legal log a delivery is claimed right after it was added, or again out of failed, interrupted or skipped while not closed |
| GoalHistory.ClosedStep | agent_goal_store.py:80-81 | a closed delivery can only be acknowledged, materialized or found corrupt, and advances nothing |
| GoalHistory.OnlyForward | agent_goal_store.py:821-844 | however the log goes on, the attempt never falls and a closed delivery stays closed |
| GoalHistory.FlagFollows | agent_goal_store.py:80-81 | the stored terminal flag is set only in a terminal status or on a failed delivery |
| GoalHistory.UsageGathers | agent_goal_store.py:380-384 | what a goal's receipts add up to is what the receipts of its occurrences add up to, for sums and peaks alike |
| GoalHistory.GoalTotal | agent_goal_store.py:136-171 | what the clamp and the limit of forty leave of everything a goal was ever charged with, counter by counter, and when that is all of it |
| GoalHistory.FewCounters | agent_goal_store.py:107-118 | a goal with at most forty counters has room for all of them, in its own total and in those of its occurrences |
| GoalHistory.UsageConserved | agent_goal_store.py:1070-1074 | for a counter that has its place in them, a goal's total is the sum of its occurrences' totals if and only if the counter is a peak, its receipts before the last are within the clamp, or one occurrence had received all of those |
| GoalActiveTime.LastActive | agent_goal_store.py:699-708 | a goal has a time of last activation exactly while it is active, and it is the beginning of the current interval |
| GoalActiveTime.StoredSeconds | agent_goal_store.py:653-660 | after n departures the stored seconds are at most the true active time and more than it minus n seconds; nothing is stored before the first |
| GoalStore.Store.UpdateGoal | agent_goal_store.py:677-745 | exactly when an update is refused - over, stale, a bad interval, or a wake without an owner - and otherwise the one event it appends, with the active time stored on leaving |
| GoalStore.Store.BindOwner | agent_goal_store.py:747-769 | a goal without a chat gets its owner once; naming another afterwards is a conflict |
| GoalStore.Store.ReportDone | agent_goal_store.py:618-645 | an active goal is finished by its owner with a reason, its active time stored; every refusal leaves the log as it was |
| GoalStore.Store.ReportStuck | agent_goal_store.py:618-675 | the same reason on three turns blocks the goal; a turn counts once, and another owner is refused |
| GoalStore.Store.RecoverIfNeeded | agent_goal_store.py:1314-1344 | a result found for an open delivery completes it with the time of the result and wakes the goal one interval after that, and only then is anything appended |
| GoalStore.Store.Wake | agent_goal_store.py:903-1022 | a goal is never woken before its time nor held back more than 45 seconds; a new occurrence is added and claimed once, in the name of the owner; an old one is claimed again only from failed, interrupted or skipped within its three attempts; another owner, a goal not due and a retry not due are refused |
| GoalStore.DueWhen | agent_goal_store.py:804-819 | the stagger holds a goal back by no more than 45 seconds and never wakes it early |
| GoalStore.Store.BeginDelivery | agent_goal_store.py:1024-1068 | what is started, answered from the result, or closed because its result is gone, and nothing else |
| GoalStore.Store.CompleteDelivery | agent_goal_store.py:1493-1518 | the result is durable before the event; only a running delivery is completed, and a recovered one not again; the schedule moves on unless it had, and a continued goal gets its own back |
| GoalStore.Store.FailLocked | agent_goal_store.py:1556-1618 | a failure with an attempt left is retried after one or two minutes and touches no schedule; any other closes the delivery and advances the schedule unless that was done, giving a continued goal its own back |
| GoalStore.Store.DenyByApproval | agent_goal_store.py:2120-2136 | the delivery that waits for the approval is denied for good, its schedule moving on unless it had, and no other is touched |
| GoalStore.Store.Find | agent_goal_store.py:2006-2016 | the delivery touched last among those that name the reference, if any does |
| GoalStore.Store.ResolveApproval | agent_goal_store.py:2184-2239 | an action that was carried out completes the delivery that waits and leaves its result, one that failed fails it for good and leaves none; one that has moved on is a conflict; nothing else changes |
| GoalStore.Store.ResolveQuestion | agent_goal_store.py:2241-2305 | an answer with a prompt counts once per occurrence, makes it retryable, and reschedules the goal exactly when the schedule had advanced; once answered, nothing changes any more |
| GoalStore.Store.EmitReminders | agent_goal_store.py:2344-2359 | every due question is reminded once and parked, every other delivery is as before |
| GoalStore.Store.ReconcileMissing | agent_goal_store.py:2023-2060 | exactly the deliveries that wait for an unknown approval are failed for good |
| GoalStore.Store.PhaseWatchdogs | agent_goal_store.py:1864-1897 | every overdue phase is named, put back for five seconds at no cost if it was only claimed, and drained otherwise; afterwards none is overdue, every other delivery is as before |
| GoalStore.Store.ReconcileStale | agent_goal_store.py:1357-1450 | each abandoned delivery by its status: one not begun is interrupted at no cost and due at once, one running is completed from its result or else interrupted at the cost of a retry, one draining is failed and retried while it has an attempt left, one applying is failed for good; a goal whose deliveries all go on later is untouched; afterwards every delivery in hand belongs to this process and no other was changed |
| GoalStore.DrainingRetries | agent_goal_store.py:1780-1791 | in every legal log a draining delivery may be retried, so only its attempts decide whether it is |
| GoalStore.Store.MarkMaterialized | agent_goal_store.py:2548-2575 | only a completed delivery of the expected revision is materialized, once, and in the chat of its owner |
| GoalStore.CrashEquivalence | agent_goal_store.py:1314-1491 | for every status a result can be written from: after a crash the startup pass gives the delivery and the goal an uninterrupted completion gives if and only if the delivery was running, had not advanced the schedule, and the result reports the usage; what it gives otherwise |
| GoalStore.RestartedEach | agent_goal_store.py:1370-1450 | in the startup pass each delivery is taken over by itself, whatever the pass did before it |
| GoalWatchdog.Watchdog.ReconcileApproval | agent_goal_service.py:460-502 | the delivery an approval is about is completed with a result when the action was carried out, failed for good when it failed, denied when it was refused, and as it was when it is over or draining; it raises exactly when the delivery has moved on |
| GoalWatchdog.Watchdog.Reconcile | agent_goal_service.py:538-581 | a pass raises exactly when an approved action was carried out whose delivery has moved on, for one-to-one approvals and for any others; for one-to-one approvals it says what becomes of every delivery and every result file, up to that decision or, without one, by the decisions, the lost approvals and the due questions; then nothing is left to do, and a pass with nothing to do appends nothing |
| GoalWatchdog.Watchdog.FinishDrains | agent_goal_service.py:538-553 | every drained phase is ended; it raises exactly when one of those named was not drained |
| GoalWatchdog.Watchdog.Startup | agent_goal_service.py:538-553 | a new process takes over, fails every overdue phase, for good if it was applying, and makes one pass that does to every other delivery and result file what a pass does: nothing is in hand afterwards, it raises exactly when an approved action was carried out whose delivery has moved on, and otherwise nothing is left to do |
| GoalWatchdog.OneEachStep | agent_goal_store.py:1902-1964 | every event keeps approvals and deliveries one to one, except one that ties its delivery to an approval another is tied to |
| GoalWatchdog.FreshOneEach | agent_goal_store.py:2006-2016 | they have been one to one all along if and only if no approval was asked for on behalf of two deliveries |
| GoalWatchdog.QuietWaits | agent_goal_service.py:538-581 | then every delivery that waits for an approval waits for a known one that, if linked, is still open |
| GoalRuns.WokenTwice | agent_goal_store.py:1314-1344 | a run of operations in which one occurrence wakes its goal twice |
| GoalRuns.AppliedResultIsFailed | agent_goal_store.py:1411-1432 | a run in which an applied action with a durable result is failed for good at the next start |
| GoalRuns.MovedOnRaises | agent_goal_store.py:2184-2199 | a run after which the watchdog raises at one and the same delivery pass after pass |
| GoalRuns.SecondAnswerIsLost | agent_goal_store.py:2241-2265 | a run in which the answer to a second question succeeds and the delivery goes on waiting for it |
| GoalRuns.BegunWithoutEnd | agent_goal_store.py:1024-1068 | for any sequence of dead hosts, unreachable providers and failures a run in which one occurrence is begun once more for each, all in its first attempt |
| GoalRuns.GoalForgetsUsage | agent_goal_store.py:107-171 | a run of three completed occurrences whose totals add up to more than the total of their goal |
| CorrectionHistory.Compact | agent_renderer_correction_history.py:8-67 | the nested loops compute the fold the theorems are about |
| CorrectionHistory.FailureDetailIs | agent_renderer_correction_history.py:44-46 | the failure detail is the text from the first mark up to the next semicolon, and empty without a mark |
| CorrectionHistory.DetailTwice | agent_renderer_correction_history.py:44-46 | the failure detail of a failure detail is itself |
| CorrectionHistory.CompactingTwice | agent_renderer_correction_history.py:8-67 | compacting a compacted history returns it unchanged |
| CorrectionHistory.CorrectionsFollow | agent_renderer_correction_history.py:55-66 | every retained success follows the failure it corrects: same tool, project and avatar, other paths; every retained failure is corrected later |
| CorrectionHistory.ConfirmedIsRetained | agent_renderer_correction_history.py:55-66 | whenever a success confirms a correction, it and the failure are in the final result, whatever follows |
| CorrectionHistory.CallsAndReceipts | agent_renderer_correction_history.py:47-54 | the output is calls each followed by its own receipt |
| CompletionVerifier.Finalize | agent_completion_verifier.py:102-163 | only two identical reads in a row, of an editor at rest and of everything there was, are judged, the first such pair is, and a pass means that project, process and every remaining error are the baseline's |
| CompletionVerifier.PassedIsSound | agent_completion_verifier.py:164-309 | in each of the three comparisons a pass leaves no error the baseline did not have |
| CompletionVerifier.PassedExactly | agent_completion_verifier.py:192-309 | exactly when a stable read of the same editor passes |

## Left out

- Swap.PublishAll: a temporary or hidden name that already exists in the archived scope is not distinguished from a step that failed.
- ArchiveRestore.Transaction.Run: size and CRC comparison is equality of content, and path checks (links, escaping the project) are left out.
- LocalStateRestore.Restore.Run: creating the parents of the roots and fsync are left out; a directory tree is staged member by member and moved as a whole.
- Retention.Prune: removing emptied parent directories and evidence files is left out.
- LocalStateRestore.Restore.RollBack: the list of backups that is named for want of any other path is left out; an error always has a path of its own.
- RestoreAttempts.Restorer.Restore: whether a failure is counted is an input, the evidence it is derived from is left out; a restore that names no active recovery has nothing to account for.
- SupervisedWrites.HandlerRunsAtMostOnce: approval and operation ids are fresh when issued, and a persisted snapshot is read back whole or not at all.
- ApprovalService.Service.Revise: whether the approval is linked to a task, whether its one revision is used and whether the reason is blank are inputs.
- SupervisedWrites.TornLineHidesRecovery: a torn line is one that cannot be parsed by itself; a whole last line that lacks only its line break is not told apart from it.
- SupervisedWrites.BrokenLineHidesRecovery: which characters break a line is left out; whether a line holds one is an input.
- SupervisedWrites.WriteAheadKept: an archive that a failing checkpoint leaves behind without returning its id is left out.
- ApprovalService.Service.Apply: arguments, permission policy, target attestation, verification and result assembly are left out; how the outcome of a write is judged is an input.
- UsageTotals.Bound: only integer counters are modelled; booleans, strings and floating-point counters are left out.
- UsageTotals.Merge: only integer counters are modelled; booleans, strings, floating-point counters and completeness flags are left out.
- GoalHistory.UsageConserved: for a counter that has lost its place in one of the totals, each of them is known (`GoalTotal`, `DeliveryTotal`), and how they compare is left out.
- GoalStore.Store.Wake: the hash behind the stagger is left out; the stagger is an input clamped as in the code.
- GoalStore.Store.ResolveQuestion: the prompt is checked and not stored.
- GoalStore.Store.UpdateGoal: titles, summaries and evidence are left out, and an interval that is not a number.
- GoalStore.Store.Find: update times follow the order of the log.
- GoalStore.Store.FailLocked: the classification of errors is reduced to whether they may be retried.
- GoalActiveTime.StoredSeconds: floating-point rounding is left out.
- GoalWatchdog.Watchdog.Reconcile: that nothing is left to do is stated for approvals named by at most one delivery each.
- CorrectionHistory.CompactingTwice: each call is answered at most once with at most one observation.
- CompletionVerifier.Finalize: capturing the baseline, normalising diagnostics and the texts of verdicts are left out.
- Notification acknowledgements, catch-up lists, provider warnings and run projections only copy fields and are left out; acknowledgements appear as events without effect.
- The public reminder operation that does not check the status is left out; reminders are sent by the guarded loop.
- Relocating archives, Git and ZIP handling, Unity calls, redaction, audit records and summaries are left out.
