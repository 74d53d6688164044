# Verification of the agent-flow controller runtime

agent-flow drives software tickets through a configured flow of agent stages and human gates. A controller keeps one
durable record per ticket, counts an agent attempt before it launches it, publishes results to the ticket, and rebuilds a
lost record from what it finds published. This project models that runtime in Dafny and proves what it is for.

Every protocol is modelled as steps over explicit state. The provider, the clock, permission answers, child processes and
crashes may do anything their interfaces allow. Where the program keeps mutable state there is a class whose methods are
proved to make the moves of the model, and where it loops there is a loop proved against a specification. Digests are
modelled by the values they are taken of, timestamps by integers, and times of the rate limiter by real numbers.

| file | models |
|---|---|
| `Basics.dfy`, `Flow.dfy`, `Execution.dfy` | shared vocabulary, flow definitions, the durable record |
| `FlowPaths.dfy`, `RecoveryEvidence.dfy`, `RecoveryShapes.dfy`, `RecoveryLedger.dfy`, `RecoverySearch.dfy` | recovery from published evidence: paths, the shapes of finished work, the search that retires it and its ledger |
| `RecoveryVerdict.dfy`, `RecoveryIteration.dfy` | what recovery may answer, and the answer |
| `LocalStore.dfy`, `ControlWriter.dfy`, `StoreRaces.dfy` | the revisioned store, its two writers, several processes at once |
| `Attempts.dfy`, `AttemptBudget.dfy`, `AttemptResets.dfy`, `AttemptRecoveries.dfy`, `AttemptCancels.dfy`, `AttemptLoop.dfy` | retry budgets under crashes, races, resets, recoveries and cancellation |
| `PreparedPublication.dfy`, `PreparedDelivery.dfy` | delivery of a prepared comment |
| `Scheduler.dfy`, `SchedulerInvariant.dfy`, `SchedulerOrder.dfy`, `SchedulerClosing.dfy`, `SchedulerClass.dfy` | the keyed coalescing scheduler |
| `Discovery.dfy`, `DiscoveryCoverage.dfy`, `ScanCalls.dfy`, `ControllerScan.dfy` | the discovery cursor on top of the schedulers |
| `Harness.dfy`, `HarnessOutcome.dfy`, `HarnessClass.dfy` | the life of one harness process and what its promise reports |
| `MigrationChain.dfy`, `Migrations.dfy`, `Ownership.dfy`, `RecoveryDecision.dfy` | receipt chains, stage selection, ownership and the recovery decision |
| `FlowMachine.dfy` | the flow machine and its semantic check |
| `JsonLines.dfy`, `Descendants.dfy`, `CostReport.dfy` | usage decoding, session closure, cost conservation |
| `RateLimiter.dfy`, `RuntimeManager.dfy` | call pacing and the runtime configuration |

## Findings

Some properties that the design suggests do not hold as they stand. Each is stated with the condition under which it does.

- Launches since the last budget reset can exceed the consumed count: an attempt that was counted, but not launched, when
  the reset is stored is launched afterwards uncounted. This is the only way (`AttemptResets.ResetIsSafeIffNothingPending`).
  Counted per epoch of the budget, launches never exceed it as long as no recovery stores a count behind the stored one
  (`AttemptBudget.LaunchesStayWithinBudget`).
- `recordRecovery` does not compare its replacement control state with the stored one. A replacement read before a later
  write undoes that write (`StoreRaces.RecoveryUndoesALaterWrite`). It loses nothing stored since it was read exactly when
  every request accepted in between left the control state as it found it
  (`StoreRaces.RecoveryLosesNothingIffNothingChanged`).
- Such a recovery can hand out retry budget again, any number of times
  (`AttemptRecoveries.StaleRecoveriesAllowAnyNumberOfLaunches`). The budget survives one, on every later run, exactly when
  the replacement's count covers what the newest epoch launched or still holds for launch
  (`AttemptRecoveries.RecoveryKeepsBudgetIffSpentIsCovered`).
- Repeating a recovery writes nothing, except when it replaces the control state by one whose sequence had to be realigned
  (`ControlWriter.RepeatWritesNothing`).
- Two overlapping deliveries can create two comments of one attempt (`PreparedPublication.TwoWorkersCanCreateTwice`). A
  delivery may read `ready` safely exactly when no other that did is short of its own `writing`
  (`PreparedPublication.LoadIsSafeIffUnrivalled`), and from any state no second comment can come without another load
  exactly when comments and workers that may still create one make at most one (`PreparedPublication.SafeIffOneMayCreate`).
- A prepared record stopped between `writing` and its request stays that way (`PreparedPublication.StrandedStays`).
- The elected owner is independent of list order exactly when the earliest eligible publication is unique
  (`Ownership.OrderIndependentIffLeastUnique`).

## Model

| member | source | states |
|---|---|---|
| `FlowPaths.UniqueSuccessPath` | src/runtime/reconcile.ts:1250-1282 | an answer exists exactly when there is exactly one labelled success path that first reaches the target over distinct states, and it is that path's publication kinds in order |
| `FlowPaths.PathsEnumerated` | src/runtime/reconcile.ts:1250-1282 | the enumeration behind the answer lists every success path, and each once |
| `FlowPaths.Drain` | src/runtime/reconcile.ts:1257-1281 | the queue loop ends on every flow, cyclic ones included, and collects the kinds of exactly the enumerated paths |
| `FlowPaths.SuccessfulPublicationPath` | src/runtime/reconcile.ts:1250-1282 | the queue algorithm answers what the path definition says, and fails only for an unknown activation route |
| `RecoveryLedger.NothingVanishes` | src/runtime/reconcile.ts:865-1157 | a publication that left the list belonged to a recorded block whose evidence shows a finished iteration, whose authors (for a result answered before downstream work, the one who answered) were read as allowed to write, and whose revised or answered results each have a reply before the next result by somebody read as allowed to |
| `RecoverySearch.Search.Retire` | src/runtime/reconcile.ts:865-1157 | cutting a block out keeps the order of the rest and enters the block in the ledger |
| `RecoverySearch.Search.MayWrite` | src/runtime/reconcile.ts:896-899 | every actor's permission is asked in order, and the answer is whether all may write |
| `RecoverySearch.Search.FailedCiAuthors` | src/runtime/reconcile.ts:875-895 | exactly when a failed check can be retired: the list begins with the results of the success path, of its kinds and attributable, a verified bug receipt follows, and behind it a comment unless the stage is the corrected one; with the author of each |
| `RecoverySearch.Search.RetireOneFailedCi` | src/runtime/reconcile.ts:874-903 | such a block goes, and recovery starts at the CI target, whenever it leads and nobody asked is refused; otherwise nothing changes |
| `RecoverySearch.Search.FollowHeadUpdate` | src/runtime/reconcile.ts:906-942 | recovery starts at the update target exactly when the receipt's head is gone and the stage repeats its review, and only a verification start retires anything |
| `RecoverySearch.Search.RetireRejection` | src/runtime/reconcile.ts:943-959 | a leading review that requests changes goes, together with the move to the rework stage, unless its author is refused; nothing else does |
| `RecoverySearch.Search.RetireGateRevisions` | src/runtime/reconcile.ts:964-1028 | when it retires nothing, no gate that the ticket passed or stands at has a revised result, or somebody was refused |
| `RecoverySearch.Search.RetireRevisionsOf` | src/runtime/reconcile.ts:994-1027 | every result counted as answered is a comment by a writer with a writer's reply before the next result; at the gate all of them go, downstream all but the last |
| `RecoverySearch.Search.RetireAnsweredResults` | src/runtime/reconcile.ts:1029-1053 | when it retires nothing, no result too many leads the list that was answered before downstream work, or somebody was refused |
| `RecoverySearch.Search.RetireCompletion` | src/runtime/reconcile.ts:1077-1124 | a completion goes, with its report and its rejection, exactly when a retry or a rejection superseded it, unless somebody is refused; the prefix before it stays |
| `RecoverySearch.Search.RetireDevelopment` | src/runtime/reconcile.ts:1054-1126 | when it retires nothing, no declared development stage has a superseded completion at the end of its prefix, or somebody was refused |
| `RecoverySearch.Search.RejectionAuthors` | src/runtime/reconcile.ts:1109-1118 | exactly when a review rejects the completion with its report on that very head, with the authors of both |
| `RecoverySearch.Search.RetireOldHead` | src/runtime/reconcile.ts:1139-1154 | an approval of a head that is not the linked one goes with the verification behind it, as one recorded block, unless somebody is refused; nothing else does |
| `RecoverySearch.Search.RetireOldHeads` | src/runtime/reconcile.ts:1127-1156 | when it retires nothing, no repeated verification still has such a pair at the end of its prefix, or somebody was refused |
| `RecoverySearch.Search.Run` | src/runtime/reconcile.ts:865-1157 | the retirement fixpoint ends on every flow and evidence, and fails only for a failed permission read or an unknown activation route; every cut had the shape it is recorded with, where it is recorded, every move of the start has its ground; with a migration and nobody refused nothing finished of any kind is left; without one nothing is touched; the answer is the path of the final start |
| `RecoveryIteration.MigratedGateAnswers` | src/runtime/reconcile.ts:780-810 | a migrated gate without its one retained result is ambiguous, with nothing published since it is ready, with anything but known comments ambiguous, else the newest is withheld and reassessed, with the cutoff of the one before it |
| `RecoveryVerdict.GateWithholdsNewest` | src/runtime/reconcile.ts:780-810 | at a migrated gate the only withheld key is the owner's newest later comment |
| `RecoveryIteration.MergeWait` | src/runtime/reconcile.ts:811-822 | a merge wait is answered at once exactly when a migrated change did not move, or without a migration the change is merged, and then ambiguous only unless it is the owner's only change |
| `RecoveryIteration.SearchIsOpened` | src/runtime/reconcile.ts:823-859 | the search begins with the owner's publications in order; in a documented flow without the reviews and consumed reports up to the newest rework of another head |
| `RecoveryIteration.Survivors` | src/runtime/reconcile.ts:1158-1179 | behind the search, reviews off the head go at a review stage, and on a migrated review path approvals of other heads whose authors may write; all else stays as often and in order |
| `RecoveryVerdict.CertifiedWithholds` | src/runtime/reconcile.ts:1198-1248 | a ready answer withholds the key of the newest survivor or none |
| `RecoveryVerdict.ObjectionMeaning` | src/runtime/reconcile.ts:1180-1247 | the reason of an ambiguous answer is true, and only the one about a review author's permission can be given for a stage that flow and evidence justify |
| `RecoveryIteration.ReassessCertified` | src/runtime/reconcile.ts:1198-1218 | a stage is reassessed exactly behind the one declared stage that leads here by a comment, with everything before that result in place; only a newest result that is no comment makes it ambiguous |
| `RecoveryIteration.Judge` | src/runtime/reconcile.ts:1180-1247 | `ready` exactly when flow and evidence justify the stage and no review author is refused: documentation is for the unmoved head, all is identified, and what the path requires is there with approvals of the linked head and at most the stage's own result behind it, or there is a stage to reassess; with the exact keys, cutoff and stage, and otherwise a true reason |
| `RecoveryIteration.SearchAndJudge` | src/runtime/reconcile.ts:823-1248 | every answer has its trail: where the search began, a balanced ledger of cuts and moves, nothing finished left, the exact survivors, and a verdict that is ready exactly when they justify the stage |
| `RecoveryIteration.RecoverIteration` | src/runtime/reconcile.ts:762-1248 | migrated gates and merge waits are answered as specified, everything else by search and verdict; an error is a failed permission read or an unknown activation route; every answer withholds at most one key, an ambiguous one none |
| `RecoveryIteration.SurvivorsKeepOrder` | src/runtime/reconcile.ts:823-1179 | what is judged keeps the publication order of what the search began with |
| `RecoveryIteration.EveryPublicationIsAccountedFor` | src/runtime/reconcile.ts:823-1179 | each publication of the owner is judged, or a rework consumed it, or it left in a finished and backed block, or it belonged to a head that is gone |
| `LocalStore.SaveRow` | src/runtime/local-store.ts:74-108 | exactly when a save is accepted; it raises the revision by one and aligns the control sequence, and a refused save changes nothing |
| `LocalStore.Database.Load` | src/runtime/local-store.ts:68-72 | a misaligned row is never handed out |
| `LocalStore.Database.Save` | src/runtime/local-store.ts:74-108 | one save touches one ticket and keeps every row aligned |
| `ControlWriter.WriteIsCompareAndSwap` | src/runtime/control-state.ts:46-68 | an update is accepted exactly when it succeeds the stored control state; the first one only where no row exists |
| `ControlWriter.RecoveryAlwaysAligns` | src/runtime/control-state.ts:70-113 | a recovery is refused only for another controller's row and always stores an aligned sequence |
| `ControlWriter.RepeatWritesNothing` | src/runtime/control-state.ts:86-103 | exactly when repeating a recovery writes nothing |
| `ControlWriter.NamedIsStored` | src/runtime/control-state.ts:87-113 | an accepted request stores the control state it names whatever was stored, up to the sequence, and keeps the stored one when it names none |
| `ControlWriter.RecoveryRecords` | src/runtime/control-state.ts:75-111 | an accepted recovery leaves the decision, owner, reason, sorted keys and migration it found, whatever the row said before |
| `ControlWriter.WriteKeepsTheRest` | src/runtime/control-state.ts:46-68 | an accepted update changes control state, writer and time, and of the rest only the keys it brings |
| `ControlWriter.Writer.Write` | src/runtime/control-state.ts:46-68 | the writer object makes the specified move on the store |
| `ControlWriter.Writer.RecordRecovery` | src/runtime/control-state.ts:70-113 | the recovery of the writer object makes the specified move on the store |
| `StoreRaces.SaveIsCompareAndSwap` | src/runtime/local-store.ts:87-98 | with other processes saving in between, an accepted save was computed from the row it replaced, and any other is refused |
| `StoreRaces.AcceptedWritesFormOneChain` | src/runtime/local-store.ts:74-108 | in every interleaving with crashes, write i was computed from what write i-1 left, has revision i, and a control sequence of i |
| `StoreRaces.UpdatesReplaceWhatTheyExpect` | src/runtime/control-state.ts:46-68 | an accepted update replaced the control state it expected, whatever happened around it |
| `StoreRaces.RecoveryLosesNothingIffNothingChanged` | src/runtime/control-state.ts:70-113 | over every interleaving, a recovery that stores the control state read at revision n loses none stored since exactly when every request accepted in between left it as it found it |
| `StoreRaces.LastChangeDecides` | src/runtime/control-state.ts:70-113 | what was stored last survives such a recovery exactly when the last change in between stored what had been read |
| `StoreRaces.RecoveryUndoesALaterWrite` | src/runtime/control-state.ts:87-113 | from every stored control state, a run in which a valid update is accepted and then undone |
| `AttemptBudget.StepKeeps` | src/runtime/attempt-runner.ts:139-499 | every step of every runner, crash and other writer, and every recovery that is not behind, keeps the ledger of counted and launched attempts |
| `AttemptBudget.StepIsSound` | src/runtime/attempt-runner.ts:139-499 | whatever recoveries store, every launch was counted before, none happens twice, and no two runners hold one attempt |
| `AttemptBudget.LaunchesStayWithinBudget` | src/runtime/attempt-runner.ts:353-452 | in every run whose recoveries are not behind, each budget epoch sees no more launches than its limit, the newest no more than the stored consumed count, which never exceeds the maximum |
| `AttemptBudget.LaunchFollowsItsCount` | src/runtime/attempt-runner.ts:362-452 | a launch was counted before and has not happened before |
| `AttemptBudget.CountedByOwnWrite` | src/runtime/attempt-runner.ts:356-363 | a runner counts an attempt only by its own accepted write of the successor control state |
| `AttemptBudget.StartContinuesItsSeries` | src/runtime/attempt-runner.ts:139-352 | a start takes a stored series of its own stage up where it stands and settles on a finished one; only another stage gets a budget of its own |
| `AttemptBudget.UnfinishedAttemptIsFailed` | src/runtime/attempt-runner.ts:139-352 | an attempt left unfinished is stored as failed and stays counted, and blocks the flow for its stage exactly when it was the last |
| `AttemptCancels.CancelledLaunchesNothingNew` | src/runtime/attempt-runner.ts:130-137 | in every run, a cancelled runner launches at most the attempt it had counted when it was cancelled |
| `AttemptResets.ResetIsSafeIffNothingPending` | src/runtime/reconcile.ts:1771-1780 | after a reset the launches that follow stay within the consumed count on every run exactly when no counted attempt was waiting for its launch |
| `AttemptResets.ResetCanLeaveALaunchUncounted` | src/runtime/attempt-runner.ts:356-452 | from every open series there is a run with a launch and a consumed count of zero |
| `AttemptRecoveries.BudgetHoldsIffCovered` | src/runtime/attempt-runner.ts:353-452 | from every sound state, the newest epoch's launches stay within the stored count on all its later runs exactly when the count covers what it launched or holds for launch |
| `AttemptRecoveries.RecoveryKeepsBudgetIffSpentIsCovered` | src/runtime/reconcile.ts:424-425 | so a recovery keeps the budget on all later runs exactly when its replacement's count covers that, as any count not behind the stored one does |
| `AttemptRecoveries.StaleRecoveriesAllowAnyNumberOfLaunches` | src/runtime/control-state.ts:87-113 | with stale replacements any number of launches fits one series of unchanged limit |
| `AttemptLoop.RunLoop` | src/runtime/attempt-runner.ts:353-499 | the retry loop leaves the specified control state and launches; from a control state that is not the stored one it launches nothing |
| `AttemptLoop.LoopSpendsWhatItMakes` | src/runtime/attempt-runner.ts:353-499 | each attempt costs one of the budget and exactly two writes, launches its own id at most once and is recorded as it ended; the flow ends blocked, to be resumed at its stage, exactly when the last attempt failed finally or used up the budget |
| `AttemptLoop.LoopIsARun` | src/runtime/attempt-runner.ts:353-499 | undisturbed, the loop is a run of the many-runner model with the same control state and launches |
| `PreparedPublication.AtMostOneComment` | src/runtime/prepared-publication.ts:117-165 | with crashes, lost answers, incomplete reads and overlapping deliveries, one attempt leaves at most one comment, provided none reads `ready` while another that did is short of its `writing`; and `delivered` means the comment exists |
| `PreparedPublication.SafeIffOneMayCreate` | src/runtime/prepared-publication.ts:117-165 | from every state, all runs without another load leave at most one comment of ours exactly when those there and the workers that may still create one are at most one |
| `PreparedPublication.LoadIsSafeIffUnrivalled` | src/runtime/prepared-publication.ts:119-147 | a delivery may read `ready` exactly when no other that read it so is short of its `writing` |
| `PreparedPublication.CreateOnlyAfterWriting` | src/runtime/prepared-publication.ts:145-150 | a create request leaves only while no comment of ours exists, behind a `writing` that nobody took back |
| `PreparedPublication.WritingPrecedesCreate` | src/runtime/prepared-publication.ts:145-150 | in every run a worker about to create wrote `writing` itself |
| `PreparedPublication.AloneWritingIsDurable` | src/runtime/prepared-publication.ts:145-150 | with one delivery at a time the record says `writing` whenever a create request leaves |
| `PreparedPublication.ReadyOnlyAfterRejection` | src/runtime/prepared-publication.ts:150-157 | `ready` comes back only from a worker whose request was rejected, with no comment created |
| `PreparedPublication.RestoringMeansRejected` | src/runtime/prepared-publication.ts:151-155 | such a worker had one of the definite client errors, and nothing was created |
| `PreparedPublication.LostAnswerIsRecovered` | src/runtime/prepared-publication.ts:127-164 | a comment whose answer was lost is found and delivered without creating another |
| `PreparedPublication.StrandedStays` | src/runtime/prepared-publication.ts:145-147 | a record stopped before its request left stays undelivered until its identifier appears |
| `PreparedPublication.TwoWorkersCanCreateTwice` | src/runtime/prepared-publication.ts:119-150 | two overlapping deliveries can create two comments |
| `PreparedDelivery.Ticket.Deliver` | src/runtime/prepared-publication.ts:117-165 | one delivery is a run of the machine by one worker, with exactly the specified outcome for everything it can see and be answered: it creates exactly when a ready, owned and active record has no comment yet, delivers exactly what is read back intact, and goes back to ready exactly on a definite client error |
| `PreparedDelivery.Ticket.Freeze` | src/runtime/prepared-publication.ts:38-41 | an existing record is left alone |
| `SchedulerInvariant.StepKeeps` | src/runtime/scheduler.ts:31-138 | every call and event keeps the invariant: active counts live claims, a key has at most two generations and the second waits behind a started first |
| `SchedulerInvariant.RunsDoNotOverlap` | src/runtime/scheduler.ts:95-117 | two runs of one key never overlap |
| `SchedulerInvariant.PendingMeansActive` | src/runtime/scheduler.ts:95-104 | queued work implies work in flight |
| `SchedulerInvariant.QuiescentMeansServed` | src/runtime/scheduler.ts:95-126 | with nothing in flight every accepted entry has settled exactly once |
| `SchedulerInvariant.SettlesAtMostOnce` | src/runtime/scheduler.ts:71-126 | an entry settles at most once and keeps its outcome |
| `SchedulerInvariant.LimitRespected` | src/runtime/scheduler.ts:95-104 | after every claim, also one that takes a place the same step freed, what is in flight is within the limit then in force |
| `SchedulerInvariant.LimitIsInForce` | src/runtime/scheduler.ts:65-70 | the limit in force is the last valid one set |
| `SchedulerInvariant.DrainsAreKept` | src/runtime/scheduler.ts:85-138 | every drain promise is resolved or waiting, and all are resolved once the scheduler is idle |
| `SchedulerOrder.ClaimsOldestFirst` | src/runtime/scheduler.ts:95-117 | whatever a step claims, no older entry that could have been claimed stays queued |
| `SchedulerOrder.RunKeepsOrder` | src/runtime/scheduler.ts:31-138 | in every run the queue holds entries in the order they were created |
| `SchedulerOrder.NothingEligibleWaits` | src/runtime/scheduler.ts:95-117 | no eligible entry waits while a place is free |
| `SchedulerInvariant.DrainOnlyWhenIdle` | src/runtime/scheduler.ts:85-88 | drain resolves only when nothing is queued or running |
| `SchedulerInvariant.ScheduleAnswersUnstarted` | src/runtime/scheduler.ts:44-63 | an accepted call is answered with an entry of its key that has not started |
| `SchedulerInvariant.SettlementNeedsItsStart` | src/runtime/scheduler.ts:44-63 | so it is followed by a run of its key that starts after the call, or by a close |
| `SchedulerClosing.CloseRejectsTheRest` | src/runtime/scheduler.ts:71-83 | closing rejects every entry that has not started, each once, and leaves the others alone |
| `SchedulerClosing.NothingBeginsAfterClose` | src/runtime/scheduler.ts:44-126 | in every run of a closed scheduler nothing is accepted, claimed or started |
| `SchedulerClass.Scheduler.Schedule` | src/runtime/scheduler.ts:44-63 | the object's call makes the specified move and keeps the invariant |
| `SchedulerClass.Scheduler.Close` | src/runtime/scheduler.ts:71-83 | closing rejects exactly what has not started |
| `SchedulerClass.Scheduler.Finish` | src/runtime/scheduler.ts:119-126 | finishing frees the key, pumps unless closed, and settles drains when idle |
| `DiscoveryCoverage.StepKeeps` | src/runtime/controller.ts:247-335 | every sweep, scan, reconcile, failure and stop keeps coverage, and none moves the cursor back |
| `DiscoveryCoverage.DoneCovers` | src/runtime/controller.ts:297-312 | when everything a scan waited for succeeded, its whole window is covered |
| `DiscoveryCoverage.NoDiscoveryGap` | src/runtime/controller.ts:151-335 | in every run, each update since the bootstrap began and before the cursor was reconciled, successfully, by a run that began after it |
| `DiscoveryCoverage.CursorFollowsScans` | src/runtime/controller.ts:297-312 | the cursor moves to the time of a scan's sweep when all the scan waited for has succeeded, and at no other step |
| `DiscoveryCoverage.SweepCarriesItsTime` | src/runtime/controller.ts:247-296 | a sweep is answered with a scan that has not started, its own with the time of the sweep or an earlier one |
| `DiscoveryCoverage.FoundAreAwaited` | src/runtime/controller.ts:297-312 | a scan waits for every ticket it found, and for no other |
| `ScanCalls.EveryScanMakesItsOwnCall` | src/runtime/controller.ts:297-303 | the repository call of a scan never joins another, so the tickets it finds come back to the scan that asked |
| `ScanCalls.CallsOfARepositoryDoNotOverlap` | src/runtime/controller.ts:136-140 | in every run a repository has at most one call in flight or waiting |
| `ControllerScan.DiscoverRepository` | src/runtime/controller.ts:314-335 | the paging loop collects every ticket once in order of discovery, up to the page behind which it is stopped |
| `ControllerScan.Controller.ReconcileRepository` | src/runtime/controller.ts:297-312 | what one scan schedules, and that the cursor moves exactly when all of it succeeded |
| `Harness.StepKeeps` | src/harness/process.ts:361-506 | every event, in any order, keeps the lifecycle invariant |
| `Harness.SettlesOnce` | src/harness/process.ts:399-414 | the promise settles once and keeps its outcome |
| `HarnessOutcome.Settling` | src/harness/process.ts:399-481 | which events settle a run, and with which exit, failure and time |
| `HarnessOutcome.DrainKeepsItsExit` | src/harness/process.ts:399-466 | the exit that draining ends with is the one it began with, reported by the exit event or found in the child |
| `HarnessOutcome.ResolvedIffUnfailing` | src/harness/process.ts:399-481 | over every run, the settled promise is resolved exactly when the log finished and nothing failed |
| `HarnessOutcome.OutcomeWasReported` | src/harness/process.ts:399-481 | over every run, a resolved exit was reported by the child, and only an error before the process started, with its binary there, is retryable |
| `HarnessOutcome.TimedOutIffTimerSentSigterm` | src/harness/process.ts:416-466 | over every run, it reports a timeout exactly when the SIGTERM that was sent came from the timeout timer |
| `Harness.UnsettledHasTimer` | src/harness/process.ts:375-466 | an unsettled run always has an armed timer |
| `Harness.SignalOrder` | src/harness/process.ts:416-462 | SIGTERM and SIGKILL at most once each, in order, the second after the grace period, none once an exit was observed |
| `Harness.TerminationFailureMeaning` | src/harness/process.ts:429-440 | an unconfirmed termination is reported only after SIGKILL went unanswered |
| `Harness.EveryRunSettlesByDeadline` | src/harness/process.ts:361-481 | with punctual timers every run settles within its timeout plus twelve seconds |
| `HarnessClass.HarnessRun.Terminate` | src/harness/process.ts:416-427 | asked twice or after an exit it sends nothing and waits for the streams to drain; otherwise exactly one SIGTERM goes out and the grace period begins; the lifecycle invariant is kept |
| `HarnessClass.HarnessRun.OnTerminal` | src/harness/process.ts:435-438 | the terminal timer's callback makes the specified move and keeps the invariant |
| `HarnessClass.HarnessRun.OnProcessError` | src/harness/process.ts:468-476 | the error callback makes the specified move and keeps the invariant |
| `MigrationChain.Walk` | src/runtime/migration-recovery.ts:136-273 | the loop answers what the specification walk answers, and ends on every receipt set |
| `MigrationChain.AcceptedIffOneLinearChain` | src/runtime/migration-recovery.ts:136-273 | accepted exactly when the receipts are one linear chain from the owner's pin that covers them all, in one workspace |
| `MigrationChain.ErrorMeaning` | src/runtime/migration-recovery.ts:136-273 | every error names what is wrong at the place where the receipts stop being one linear chain, by the first check that fails there |
| `MigrationChain.ChainIsWalked` | src/runtime/migration-recovery.ts:265-273 | receipts that only hang on one another leave a chain disconnected |
| `MigrationChain.OrderDoesNotMatter` | src/runtime/migration-recovery.ts:107-273 | the answer, error included, is the same for every order of the comments |
| `MigrationChain.CycleIsUnreachable` | src/runtime/migration-recovery.ts:145-148 | with unique comment ids the cycle error is never raised |
| `Migrations.RouteStages` | src/config/migrations.ts:91-108 | the loop ends and answers the route function |
| `Migrations.RouteIsTheSuccessRoute` | src/config/migrations.ts:91-108 | the answer is the one sequence of distinct declared stages by success edges up to an end or a repetition |
| `Migrations.UnchangedKeepsRoutes` | src/config/migrations.ts:126-130 | bundles of equal behaviour have equal routes |
| `Migrations.SelectMigration` | src/config/migrations.ts:149-229 | under validated rules every selection the method makes is safe in the sense of `SelectionIsSafe` |
| `Migrations.SelectionIsSafe` | src/config/migrations.ts:149-229 | with validated rules a selection is on the target route and a replay no later than the current or mapped stage, and keeps exactly the results its ground retains: all earlier unchanged ones, or those the rule lists on earlier target stages |
| `Migrations.SelectionSucceedsIff` | src/config/migrations.ts:149-229 | a selection succeeds exactly when an unchanged stage or one fitting rule is on offer and its destination is acceptable |
| `Migrations.UnchangedKeepsEverything` | src/config/migrations.ts:162-166 | without change and replay, the stage stays and all earlier results are kept |
| `Ownership.ElectedIsLeast` | src/provider/publication.ts:96-107 | the owner is an eligible publication that no eligible one precedes |
| `Ownership.OrderIndependentIffLeastUnique` | src/provider/publication.ts:96-107 | list order does not matter exactly when the earliest eligible publication is unique |
| `Ownership.UniqueKeysMakeOrderIrrelevant` | src/provider/publication.ts:96-107 | with unique keys the owner is the same for every order of the list |
| `Ownership.LaterPublicationsKeepTheOwner` | src/provider/publication.ts:96-107 | publications later than the owner do not change it |
| `Ownership.AnchoredMeaning` | src/provider/publication.ts:109-115 | no unanchored keys means each ineligible publication has an earlier owner of its controller and pin |
| `Ownership.ReassessMeaning` | src/runtime/recovery.ts:10-56 | what a controller that reassesses may rely on: it owns the work, with one pin, and no other controller published a change |
| `Ownership.AtMostOneControllerReassesses` | src/runtime/recovery.ts:10-56 | when one controller reassesses, every other finds the work foreign, and none reassesses on evidence grown by later publications |
| `Ownership.MigrationKeepsTheController` | src/runtime/recovery.ts:31-38 | with a migration, all that reassess are one controller |
| `RecoveryDecision.DecisionIs` | src/runtime/recovery.ts:10-64 | for every kind of answer, exactly the evidence that leads to it |
| `RecoveryDecision.DecisionNamesOwnerAndReason` | src/runtime/recovery.ts:10-64 | a decision names the owner unless the ticket alone decided it or nothing was ever published, and gives a reason exactly when it stops the work |
| `FlowMachine.Transition` | src/flow/compile.ts:50-81 | the method with its action loop answers the step function: a transition that fires moves to its target, or to the remembered state for a resume, hands on its actions, and remembers what the last deciding action says |
| `FlowMachine.StepMoves` | src/flow/compile.ts:50-81 | the same of the step function, for every flow, with an error exactly for an undeclared state |
| `FlowMachine.ValidateSemantics` | src/config/semantic.ts:129-189 | no errors exactly for valid flows |
| `FlowMachine.CheckTransition` | src/config/semantic.ts:159-186 | exactly which errors a transition raises |
| `FlowMachine.RunStaysDeclared` | src/flow/compile.ts:50-81 | in a valid flow every run stays among declared states and remembers only declared ones |
| `FlowMachine.FiresIff` | src/flow/compile.ts:50-64 | when a transition fires, and that otherwise nothing changes |
| `FlowMachine.FinalIsForever` | src/flow/compile.ts:30-40 | a final state is never left |
| `FlowMachine.PauseComesBack` | src/flow/compile.ts:66-80 | a pause that remembers returns to the exact state it left after any run that neither remembers nor clears |
| `JsonLines.ChunkingIsIrrelevant` | src/harness/usage.ts:27-45 | the full decoder state depends on the text only, not on its chunks |
| `JsonLines.DecoderRefinesWholeText` | src/harness/usage.ts:17-45 | for every chunking the records and the invalid flag are those of splitting the whole text; a line is skipped exactly when its bytes exceed the limit |
| `JsonLines.JsonLines.Consume` | src/harness/usage.ts:33-42 | the loop over parts feeds exactly the text, and the buffer never exceeds the limit |
| `Descendants.Include` | src/harness/usage.ts:228-234 | the sweeps end with exactly the descendants of the root |
| `Descendants.ExactlyTheDescendants` | src/harness/ccusage.ts:250-256 | a closed set of descendants with the root is all of them |
| `CostReport.Pigeonhole` | src/harness/ccusage.ts:63-84 | as many distinct expected ids as are expected are a permutation of them |
| `CostReport.DecodeCodexCostReport` | src/harness/ccusage.ts:61-128 | accepted exactly when the report is balanced: sessions cover the expected ids, every total is the sum of its parts; the returned totals are those sums |
| `CostReport.CheckModels` | src/harness/ccusage.ts:85-107 | a session passes exactly when its figures are the sums of its models' |
| `RateLimits.AtMostMaxCallsPerMinute` | src/runtime/rate-limiter.ts:53-66 | with fixed options every half-open minute sees at most the allowed number of starts |
| `RateLimits.StartsInOrder` | src/runtime/rate-limiter.ts:53-66 | starts happen in the order of enqueueing and none precedes the pause in force at its last check |
| `RateLimits.TurnStartsIff` | src/runtime/rate-limiter.ts:55-62 | exactly when the head of the queue starts, early wake-ups included |
| `RateLimits.ReserveHoldsBackgroundCalls` | src/runtime/rate-limiter.ts:46-51 | a background call joins the queue only above the quota reserve |
| `RateLimits.PauseHoldsCalls` | src/runtime/rate-limiter.ts:53-83 | on every run after a pause no call starts before it is over, and a shorter pause does not cut a longer one |
| `RateLimits.ObservationCounts` | src/runtime/rate-limiter.ts:68-93 | from an observation on, background calls are held back exactly while its quota is used up to the reserve and not yet reset; without a positive limit it changes nothing |
| `RateLimits.OptionsTakeEffect` | src/runtime/rate-limiter.ts:40-44 | on every run after valid options, calls keep the distance they ask for; invalid ones change nothing |
| `RateLimits.RateLimiter.Turn` | src/runtime/rate-limiter.ts:55-62 | the object's waiting loop makes the specified move |
| `RuntimeConfiguration.EffectiveConfigurationStaysFit` | src/config/runtime.ts:57-90 | over any reloads and binds the effective configuration satisfies every accepted catalog and keeps its restart-only fields |
| `RuntimeConfiguration.ReloadTakenOverIff` | src/config/runtime.ts:74-94 | exactly when a reload is taken over |
| `RuntimeConfiguration.BindAcceptedIff` | src/config/runtime.ts:57-66 | a catalog is bound exactly when the effective configuration satisfies it, and an agent then keeps what all its catalogs allow |
| `RuntimeConfiguration.RestartFieldsReported` | src/config/runtime.ts:74-94 | a reload reports exactly the restart-only fields that differ |
| `RuntimeConfiguration.RejectionChangesNothing` | src/config/runtime.ts:57-90 | a rejected reload or bind changes neither configuration nor bindings |
| `RuntimeConfiguration.BoundHarnessesShrink` | src/config/runtime.ts:57-66 | harness sets only shrink |
| `RuntimeConfiguration.RuntimeManager.BindCatalog` | src/config/runtime.ts:57-66 | the object's bind makes the specified all-or-nothing move |
| `RuntimeConfiguration.RuntimeManager.ExecutionFor` | src/config/runtime.ts:122-128 | the execution handed out is the configured one of the agent, from a current configuration, with a harness every bound catalog allows |

## Left out

- Provider adapters, HTTP, pagination inside a provider, git, SQLite, the file system and APM: the provider is an environment; an atomic file replace and a transactional save are assumptions.
- JSON, YAML, schema validation and XState: values are well-formed, and guard and action names outside the declared sets cannot occur.
- Provider stamps in discovery: assumed to be off by no more than the one-second overlap the program asks for.
- Deriving events from snapshots and receipts (src/runtime/derive-event.ts), clearing uncommitted receipts, label handling and the CI gate of a transition: case analyses over one value that add only easy members.
- Reading back decisions into receipts (src/runtime/receipts.ts), prompts, usage formatting, price tables, dashboards, health endpoints and secret redaction.
- The earlier control path through provider comments (src/runtime/reconcile.ts:1362-1476, src/runtime/control-state.ts:117-148).
- The legacy decision branches of `reconcile` and the migration commands that create receipts (src/runtime/migration.ts).
- The text of a prepared comment and the reasons for refusing one: the delivery model starts from a body.
- The order of promise callbacks within one turn of the event loop, and the order in which a closing scheduler rejects its entries.
- UTF-8 decoding of usage streams: the line decoder is modelled behind it.
- Rounding: costs and call spacing are exact; the token counts of an accepted report stay below the range where doubles round.
- Publication keys in recovery: modelled as parsed lists or opaque text, and their locale order by an arbitrary collation.
- AttemptBudget.LaunchesStayWithinBudget: counts per budget epoch and for recoveries that are not behind the stored count, because since the last reset, and with stale ones, it does not hold; see the findings.
- PreparedPublication.AtMostOneComment: for runs without rival loads of `ready`, because with them it does not hold; see the findings.
- Harness.EveryRunSettlesByDeadline: bounds the moment the run is settled; the promise then still waits for the log, whose end has no bound in the source.
- MigrationChain.Walk: the checks that concern one receipt alone (author, ownership, activation, request, permission, retained results) are given answers, in their place among the checks of the chain.
- AttemptLoop.RunLoop: the loop of a runner that is not cancelled and starts without an unfinished attempt; the rest of its steps are in `Attempts`.
- FlowMachine.ValidateSemantics: guard, action and package names are not checked, because undeclared ones cannot be written here.
- FlowMachine.CheckTransition: likewise leaves out errors for unknown guard and action names.
- RecoverySearch.Search.Run: says that nothing finished is left for a search in which nobody asked was refused; after a refusal it only says that what went was backed.
