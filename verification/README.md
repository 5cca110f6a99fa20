# kvdrain, modelled and proved

kvdrain evacuates a KubeVirt node. It takes a lease on the node, checks that everything on it can be moved,
cordons it, checks again, then observes the node in a loop: it evicts ordinary pods, asks KubeVirt to migrate
the virtual machine instances (VMIs), accounts for failed migrations, and stops when the node stayed quiet. On
the way out it may undo its own cordon, and it gives the lease back.

The centre of this project is a state machine of that drain (`Machine.dfy`). Each step makes one API call or
polls one flag, and everything that the outside decides arrives in the step's `Input`: snapshots, eviction
answers, lease and node replies, interrupts, the deadline, broken output. A run is the machine applied to an
arbitrary stream of inputs, so a statement about all streams is a statement about every cluster and every
timing. What a run does is kept in its history.

- `Coordinator.dfy` is the program itself: a class with the drain's fields, its loops, early returns and deferred
  clean-up. Its `Drain` terminates once the deadline is bound to pass, and ends exactly where the machine ends, so
  all results about runs are results about it.
- `Safety.dfy`, `Rounds.dfy`, `Guards.dfy`, `Outcome.dfy`, `Decisions.dfy`, `Accounts.dfy`, `Triggers.dfy`,
  `Pending.dfy`, `Success.dfy`, `Endings.dfy`: what holds over whole runs. Checks come before the cordon and before evictions; evictions are
  guarded; restores only undo the run's own cordon; success is sound; an interrupt is final; the ledgers equal the
  history; launcher evictions are bounded by the retry budget.
- `Meaning.dfy`: what the drain's tests and counts say of the objects, field by field and without those tests.
- `Progress.dfy`, `Witnesses.dfy`, `Stalling.dfy`, `ClosedLoop.dfy`: how fast a drain of co-operating VMIs ends, that
  such clusters exist, and runs that show where the drain promises less than one might think.
- `ApiServer.dfy`, `Client.dfy`, `Cluster.dfy`, `Scheduling.dfy`: the lease and the cordon's owner on the API server,
  the calls that change them, any number of runs, `uncordon` commands and other writers interleaved, with lost
  replies and runs that stop at any point, and what becomes of the node's scheduling.
- `Selection.dfy`, `Targets.dfy`, `NodeSelectors.dfy`, `Hotplug.dfy`, `Snapshots.dfy`, `Targeting.dfy`: how a snapshot
  is derived from the listed objects, and which pods a run's evictions therefore hit.
- `Watch.dfy`, `Reducer.dfy`, `Errors.dfy`: the migration watcher, the event filter, exit codes.
- `Kube.dfy`, `Common.dfy`, `Sorting.dfy`, `History.dfy`, `Moves.dfy`: vocabulary and shared lemmas.

Where the code and its documentation disagree, the model follows the code:

- The documentation says of exit code 124 that the node remains cordoned (line 128 of its `README.md`). It may be
  schedulable: because the run timed out before its cordon took effect, or because its checks right after the cordon
  failed and it undid the cordon. `Scheduling.TimeoutScheduling` says, on the server and as long as nobody else
  changes the node's scheduling, exactly when it is cordoned, counting requests whose replies were lost.
  `Scheduling.TimeoutCanRestore` and `Scheduling.TimeoutBeforeCordon` are executions where it is not.
- The documentation promises hotplug verification for every VMI UID observed during the run (line 115 of the same
  file). VMIs are tracked from the snapshot after the cordon on, so one that was only in the first snapshot is not
  verified: `Witnesses.EarlyLeaversGoUnverified`. `Success.VerifiesWhatItSawLater` gives the exact set that is verified.
- The final relist is not preflighted. `Witnesses.SucceedsWithStrayLauncher` is a drain that succeeds on a relist
  that preflight rejects, and `Success.QuietLeavesOnlyIgnored` says that only ignored pods are left exactly if it
  would have passed.
- The lease is taken before the first preflight.
- Node selectors are not read as the Kubernetes API documents them: terms without requirements and unknown operators
  hold of every node, `metadata.name` means the node's name among labels too, values are not counted, and numbers are
  read from the front of a text. `NodeSelectors` defines the documented reading on its own;
  `NodeSelectors.AgreesExactly` says when the two agree on a node, and `NodeSelectors.PlainAgrees` which selectors are
  safe on all nodes.
- A migration that already existed when the drain started and then fails does not free its VMI to be asked again
  (`Pending.FreedExactlyByNews`). So a drain need not make progress in general: `Stalling.BaselineFailureStalls` is a
  drain that stands still for as long as its deadline allows. `Progress.BoundedProgress` starts from a snapshot
  without active migrations.
- The watcher's histories are well formed, but its node filter works report by report, so that what it prints of a
  migration whose source changes can lack its end (`Watch.FilterCanHideTheEnd`) or its beginning, and is then not
  well formed (`Watch.FilterCanHideTheBeginning`). `Watch.FilteredHistory` says when the print is complete, and
  `Watch.ReportsWellFormedExactly` when it is well formed.

## Model

| member | source | states |
|---|---|---|
| Coordinator.Coordinator.Drain | internal/coordinator/coordinator.go:260-549 | the whole drain, with its deferred clean-up: it terminates, and ends in the state that the machine reaches on the same inputs; its history is lawful and checked, a nil result has a sound history, and no VMI's launcher was evicted more than retries + 1 times |
| Coordinator.RunsAreWarranted | internal/coordinator/coordinator.go:260-549 | what `Drain` promises holds of every finished run of the machine |
| Coordinator.Coordinator.Acquire | internal/coordinator/coordinator.go:261-292 | validate, check permissions, acquire the lease: proceed, or return at once with nothing to undo |
| Coordinator.Coordinator.LookFirst | internal/coordinator/coordinator.go:294-300 | first snapshot and preflight: same state as the machine's step, including failures |
| Coordinator.Coordinator.TakeBaseline | internal/coordinator/coordinator.go:301-323 | dry runs, list of migrations that already exist, interrupt poll; the cordon is ours exactly if the node was schedulable |
| Coordinator.Coordinator.CordonNode | internal/coordinator/coordinator.go:324-339 | the cordon; an interrupt right after it is followed by a rollback |
| Coordinator.Coordinator.LookAgain | internal/coordinator/coordinator.go:341-344 | second snapshot and preflight |
| Coordinator.Coordinator.RevalidateNode | internal/coordinator/coordinator.go:341-356 | repeated checks; a failure rolls our own cordon back before the error is classified |
| Coordinator.Coordinator.EvictSetup | internal/coordinator/coordinator.go:374-387 | pass over the pods before the loop; an interrupt only ends the pass |
| Coordinator.Coordinator.EvictPods | internal/coordinator/coordinator.go:462-472 | polls before each pod and evicts the eligible ones, in both passes |
| Coordinator.Coordinator.EvictNormal | internal/coordinator/coordinator.go:655-671 | one pod eviction: accepted, gone and budget answers are tolerated, anything else ends the run |
| Coordinator.Coordinator.StartLedgers | internal/coordinator/coordinator.go:389-406 | effective limit, VMIs tracked from the revalidated snapshot, VMIs that already migrate count as asked |
| Coordinator.Coordinator.PollLoop | internal/coordinator/coordinator.go:408-421 | output, then interrupt, then deadline: 130 if interrupted, else 124 |
| Coordinator.Coordinator.Look | internal/coordinator/coordinator.go:423-433 | snapshot, tracking, and the safety recheck that an interrupted run skips |
| Coordinator.Coordinator.AccountFailures | internal/coordinator/coordinator.go:435-459 | a VMI stops counting as asked exactly if a failed migration of its own, outside the baseline and not in the ledger, is listed; the budget check ends the run; an interrupted run goes straight to judging |
| Coordinator.Coordinator.StartPass | internal/coordinator/coordinator.go:474-474 | what is in flight before the trigger pass: the active entries, and the asked VMIs that are in none of them |
| Coordinator.Coordinator.TriggerVMIs | internal/coordinator/coordinator.go:474-490 | polls before each VMI, passes over the right ones, books each request |
| Coordinator.Coordinator.TriggerVMI | internal/coordinator/coordinator.go:630-643 | dry run, then real eviction: through, or leaving with the error |
| Coordinator.Coordinator.EvictLauncher | internal/coordinator/coordinator.go:637-653 | the real eviction must draw status 429 with KubeVirt's words for this VMI, and then the request is booked |
| Coordinator.Coordinator.ConfirmEvacuation | internal/kube/actions.go:158-180 | the dry run is sent only for an unblocked VMI with a verified budget, and passes only if it drew status 429 with KubeVirt's words for this VMI |
| Coordinator.Coordinator.ConfirmMigrations | internal/coordinator/coordinator.go:572-595 | dry-runs every VMI that is neither blocked nor migrating; any other answer makes the round fail |
| Coordinator.Coordinator.CountQuiet | internal/coordinator/coordinator.go:492-504 | an interrupted run without active migration leaves with 130; else a quiet snapshot adds one, and any other resets the count |
| Coordinator.Coordinator.Settle | internal/coordinator/coordinator.go:492-547 | end of an iteration: done with the right result, or back to the top |
| Coordinator.Coordinator.VerifyHotplug | internal/coordinator/coordinator.go:506-510 | the verdict of a verification round decides between failing, the final relist and going on |
| Coordinator.Coordinator.Relist | internal/coordinator/coordinator.go:511-533 | the final relist: success only when it is quiet, else start counting again |
| Coordinator.Coordinator.Pause | internal/coordinator/coordinator.go:535-547 | an interrupt during the pause is noticed |
| Coordinator.Coordinator.ObserveUntilDone | internal/coordinator/coordinator.go:407-548 | the loop follows the machine until it leaves, and terminates by the deadline |
| Coordinator.Coordinator.RestoreOnAbort | internal/coordinator/coordinator.go:358-372 | the deferred restore runs first, under its five conditions, and wraps the error when it or its report fails |
| Coordinator.Coordinator.Release | internal/coordinator/coordinator.go:283-292 | the deferred release runs last; its failure is reported only if nothing else failed |
| Coordinator.Coordinator.RollbackCordon | internal/coordinator/coordinator.go:808-812 | read the node, then one conditional patch for that version |
| Coordinator.Preflight | internal/coordinator/coordinator.go:698-724 | accepts exactly snapshots without blocked VMI and unsafe pod |
| Coordinator.AnyEligiblePods | internal/coordinator/coordinator.go:730-737 | some pod is eligible, a launcher or an attachment pod |
| Coordinator.OutstandingMigrations | internal/coordinator/coordinator.go:739-757 | the number of list entries that are active migrations, plus the number of listed VMIs that were asked and are in none of them; and the set of migrating VMIs |
| Coordinator.Active | internal/coordinator/coordinator.go:759-767 | number of active migrations |
| Coordinator.ActiveByVMI | internal/coordinator/coordinator.go:575-580 | the VMIs with an active migration |
| Coordinator.ObserveFailed | internal/coordinator/coordinator.go:769-790 | the ledger becomes its union with the listed failures outside the baseline, and exactly the failures new to it are returned, each once; what is returned failed and is not in the baseline, and every listed failure outside it is booked |
| Coordinator.NewlyFailedKeys | internal/coordinator/coordinator.go:436-438 | the VMIs freed by new failures are exactly those of the returned ones |
| Coordinator.TakeOff | internal/coordinator/coordinator.go:436-438 | exactly the VMIs of the new failures stop counting as asked |
| Coordinator.AlreadySeen | internal/coordinator/coordinator.go:783-785 | a listed failure is skipped exactly if it was in the ledger or listed before |
| Coordinator.MergeOneMore | internal/coordinator/coordinator.go:771-787 | one more listed migration changes one entry of the ledger, by one UID, or nothing |
| Coordinator.OverBudget | internal/coordinator/coordinator.go:451-455 | some VMI has more failures than the budget |
| Coordinator.TrackVMIs | internal/coordinator/coordinator.go:792-806 | the ledger of VMIs after one more snapshot |
| Coordinator.VerifyHotplugVolumes | internal/coordinator/coordinator.go:673-696 | an unusable answer breaks it; otherwise ready exactly when each tracked VMI is gone or fully attached, in any map order; attached means that a running pod on the VMI's node holds the volume |
| Coordinator.HasVerifiedPDB | internal/kube/actions.go:162-171 | some budget is KubeVirt's own and allows no disruption |
| Coordinator.OutboundMigrationLimit | internal/kube/actions.go:276-289 | first positive configured limit, or two |
| Coordinator.Ledgers | internal/coordinator/coordinator.go:389-404 | the limit, the tracked VMIs and the VMIs already migrating when observing starts |
| Safety.EveryEventAllowed | internal/coordinator/coordinator.go:260-549 | in every run, each event was allowed by the history before it: evictions hit pods and VMIs of the latest snapshot, which passed preflight after the cordon step; a launcher eviction directly follows an accepted dry run under a verified budget; a restore undoes our own cordon, before any eviction or on a vacated node when the run was asked to restore on abort; all of it between acquire and release |
| Rounds.ChecksComeFirst | internal/coordinator/coordinator.go:298-356 | with that, in every run: a cordon is sent only right after the first snapshot passed preflight, showed a schedulable node, and each of its VMIs was migrating or had an answered dry run; an eviction only after a second such round on a snapshot taken after the cordon step |
| Rounds.CheckedRun | internal/coordinator/coordinator.go:298-356 | the invariant behind it |
| Guards.LauncherEvictionGuard | internal/coordinator/coordinator.go:474-490 | in every run, directly before each launcher eviction stands a dry run of the same VMI answered with status 429 and a message that holds `Eviction triggered evacuation of VMI "namespace/name"`; the VMI is in the latest snapshot, which has no blocker, no active migration is its own, and one of its budgets is KubeVirt's and allows no disruption |
| Guards.PodEvictionGuard | internal/coordinator/coordinator.go:462-472 | in every run, each pod eviction hits a pod of the latest snapshot, which has no blocker, that is no launcher, no attachment pod and not ignored, and that the options let go |
| Guards.CordonGuard | internal/coordinator/coordinator.go:298-326 | in every run, each cordon follows a first snapshot of a schedulable node without blocker, each of whose VMIs migrates or drew those words |
| Guards.EvictionGuard | internal/coordinator/coordinator.go:341-356 | in every run, each eviction follows such a snapshot from after the cordon step |
| Meaning.EvacuationIs | internal/kube/actions.go:150-156 | an answer is KubeVirt's for a VMI if and only if its status is 429 and its message holds the quoted namespace and name of that VMI after KubeVirt's words |
| Meaning.AcceptedIsQuoted | internal/kube/actions.go:150-156 | an answer without quotation marks, like the API server's about a disruption budget, is never KubeVirt's |
| Meaning.AcceptedNamesOne | internal/kube/actions.go:150-156 | an answer that quotes one VMI is KubeVirt's answer for that VMI and no other |
| Meaning.ConfirmableIs | internal/kube/actions.go:158-171 | a launcher can be confirmed if and only if there is one and some budget over it is KubeVirt's and allows no disruption |
| Meaning.TolerableIs | internal/kube/actions.go:146-148 | a pod eviction is tolerated if and only if it is accepted, not found, or answered 429 with "disruption budget" in whatever case of letters |
| Meaning.PreflightIs | internal/coordinator/coordinator.go:698-724 | what preflight asks of each VMI and each pod, flag by flag |
| Meaning.EligibleIs | internal/coordinator/coordinator.go:726-728 | which pods are evicted, flag by flag |
| Meaning.QuietIs | internal/coordinator/coordinator.go:730-737 | which snapshots are quiet, flag by flag |
| Decisions.PodElected | internal/coordinator/coordinator.go:462-472 | in every run, a polled pod is evicted if and only if it is no launcher, no attachment pod, not ignored, not suspect, and the options let it go |
| Decisions.VMIElected | internal/coordinator/coordinator.go:474-490 | in every run, a polled VMI is asked if and only if the limit allows one more, it does not count as asked, no active migration names it, and it has a launcher |
| Safety.SafeRun | internal/coordinator/coordinator.go:260-549 | the invariant behind it, at every program point of every run |
| Safety.SafeTrigger | internal/coordinator/coordinator.go:474-490 | trigger steps keep it: no launcher eviction without the dry run just before it |
| Safety.SafeRestore | internal/coordinator/coordinator.go:360-372 | restore steps keep it: only our own cordon, and only at the two permitted moments |
| Safety.SafePods | internal/coordinator/coordinator.go:462-472 | pod steps keep it: only eligible pods of the latest, preflighted snapshot |
| Outcome.ConcludingRun | internal/coordinator/coordinator.go:492-533 | the quiet count always equals the run of quiet, preflighted snapshots at the end of the history, and a nil result needs three, a passed verification and a quiet relist, uninterrupted |
| Outcome.InterruptIsFinal | internal/coordinator/coordinator.go:374-378 | once the interrupt is noticed no further eviction of either kind is sent, and the run cannot return nil |
| Outcome.NoEvictionAfterInterrupt | internal/coordinator/coordinator.go:374-378 | the history after an interrupt is noticed holds no eviction of either kind |
| Decisions.PollDecides | internal/coordinator/coordinator.go:411-479 | an interrupt is noticed at the top of the loop, at every poll of a pass and in every pause: no eviction follows, and the run does not return nil |
| Decisions.EarlyInterruptDecides | internal/coordinator/coordinator.go:320-334 | an interrupt before the cordon prevents it, one right after it undoes it, and both exit with 130 |
| Decisions.InterruptedJudges | internal/coordinator/coordinator.go:492-504 | an interrupted run goes back to the top with no quiet count while some migration is active, else exits with 130, and restores nothing while VMIs are left |
| Decisions.InterruptedLooks | internal/coordinator/coordinator.go:423-460 | an interrupted run looks on past every blocker, evicts nothing more, and judges what it saw, or exits with 1 |
| Decisions.LeaseDecides | internal/kube/actions.go:86-115 | a run gets its first look if it creates the lease or finds it under its own name; else it ends without having done anything |
| Decisions.FailedCallDecides | internal/coordinator/coordinator.go:814-822 | a failed call, or an answer other than the one needed, makes the run exit with 124 past the deadline, else 130 if interrupted, else 1 |
| Decisions.FailedCheckDecides | internal/coordinator/coordinator.go:423-459 | broken output, a blocker and an unverifiable VMI make the run exit with 1 |
| Decisions.FailedReleaseDecides | internal/coordinator/coordinator.go:283-292 | a failed release turns nil into exit code 1 and changes no other result |
| Meaning.ContextCodeIs | internal/coordinator/coordinator.go:814-822 | the exit code of a failed call in terms of the two contexts |
| Meaning.OptionsAre | internal/coordinator/coordinator.go:559-570 | which options are refused |
| Outcome.CodingRun | internal/coordinator/error.go:21-36 | at every point: which exit codes are still possible and what has been restored |
| Success.SuccessIsSound | internal/coordinator/coordinator.go:500-533 | nil only if uninterrupted, with the last three loop snapshots without VMI, active migration, launcher or attachment pod, preflighted and holding ignored pods only; every VMI seen after the cordon gone, or each of its volumes in the spec, reported ready and attached by a running pod on the VMI's node; a quiet final relist; and the lease released or absent |
| Success.QuietLeavesOnlyIgnored | internal/coordinator/coordinator.go:698-737 | a quiet snapshot passes preflight if and only if it holds ignored pods only |
| Success.VerifiesWhatItSawLater | internal/coordinator/coordinator.go:396-399 | the final verification covers exactly the VMIs seen after the cordon step |
| Success.ExitCodes | internal/coordinator/error.go:21-36 | 0 for nil only, 2 exactly for a timeout below one or negative retries or parallelism, else 1, 124 or 130 |
| Success.SettledAbortExits130 | internal/coordinator/coordinator.go:358-372 | a settled abort exits with 130 through every further wrap |
| Endings.DeadlineDecides | internal/coordinator/coordinator.go:411-421 | at the top of the loop past the deadline the exit code is settled: 130 if an interrupt is known, else 124 |
| Endings.SettledAbortRestores | internal/coordinator/coordinator.go:358-372 | an interrupted run that is asked to, and that cordoned the node, does restore it once nothing is left, and then releases |
| Endings.LeasedRunsRelease | internal/coordinator/coordinator.go:283-292 | every run that acquired the lease ends through its release |
| Scheduling.TimeoutScheduling | internal/coordinator/coordinator.go:324-355 | at a run's end with exit code 124, as long as nobody else changed the node's scheduling, the node is unschedulable if and only if it was so at the start or the run's cordon took effect, and no rollback after failed checks took effect; effects count whether or not they were acknowledged |
| Scheduling.SchedulingExact | internal/kube/actions.go:39-72 | the same for every moment of every execution and every kind of rollback |
| Scheduling.OtherRollbacksInterrupt | internal/coordinator/coordinator.go:328-372 | a rollback for another reason makes the run exit with 130, acknowledged or not |
| Scheduling.TimeoutCanRestore | internal/coordinator/coordinator.go:348-355 | an execution in which a run cordons, times out, rolls back and exits with 124 with the node schedulable, and need not know it |
| Scheduling.TimeoutBeforeCordon | internal/coordinator/coordinator.go:294-297 | an execution in which a run exits with 124 and never cordoned |
| Scheduling.SoloExecution | internal/coordinator/coordinator.go:260-549 | a run on its own, with honest answers, is an execution |
| Endings.TimeoutRestoresExactly | internal/coordinator/coordinator.go:348-355 | what a run that exits 124 knows: its history holds an acknowledged restore if and only if its checks after the cordon failed and that rollback was acknowledged |
| Endings.TimeoutRestoresOnlyEarly | internal/coordinator/coordinator.go:348-355 | a run that exits 124 with an acknowledged restore evicted nothing and never reached the loop |
| Endings.RestoreOccasions | internal/coordinator/coordinator.go:358-372 | a run about to restore owns the cordon, and has either evicted nothing and not been interrupted, or is interrupted, settled and asked to restore |
| Endings.LateRestoreIsAbort | internal/coordinator/coordinator.go:358-372 | a restore after some eviction means that the run was interrupted, had settled and was asked to |
| Endings.RestoreSource | internal/coordinator/coordinator.go:360-372 | a restore is in the history exactly when a rollback was acknowledged |
| Errors.ExitCode | internal/coordinator/error.go:21-36 | the outermost coded error of the unwrap chain decides, whatever coded errors it holds; 0 without error, 1 without code |
| Accounts.TrackExact | internal/coordinator/coordinator.go:792-806 | tracking adds exactly the listed UIDs, and to each UID exactly its listed volumes |
| Accounts.TrackingRun | internal/coordinator/coordinator.go:396-427 | in every run, the tracked UIDs and volumes are the union over all snapshots after the cordon step |
| Accounts.TrackedUnderFirst | internal/coordinator/coordinator.go:792-806 | a VMI is tracked under the namespace and name of its first sighting |
| Triggers.MergeExact | internal/coordinator/coordinator.go:769-790 | a VMI's failures after a snapshot are those before plus those listed, whatever order or repetition |
| Triggers.NewFailureGrows | internal/coordinator/coordinator.go:769-790 | a VMI has a new failure if and only if its set of failures grows |
| Triggers.FailuresAre | internal/coordinator/coordinator.go:769-790 | the failures of a history, by the fields of the migrations that its loop snapshots list |
| Meaning.FailedUidsAre | internal/coordinator/coordinator.go:769-790 | the failures that one snapshot lists of a VMI: failed, outside the baseline, of that namespace and name |
| Meaning.NewlyFailedAre | internal/coordinator/coordinator.go:769-790 | a VMI is freed by a snapshot if and only if it lists such a failure that is not in the ledger |
| Triggers.LedgerRun | internal/coordinator/coordinator.go:435-490 | in every run, a VMI's failures are those its history showed, and its launcher evictions are at most those plus one pending |
| Triggers.LaunchesBounded | internal/coordinator/coordinator.go:435-490 | real launcher evictions of a VMI never exceed retries + 1 |
| Pending.MovingLaunchedLess | internal/coordinator/coordinator.go:400-404 | a VMI that already migrates when observing starts is launched at most `retries` times in the whole run |
| Triggers.FailuresExact | internal/coordinator/coordinator.go:312-319 | while observing, the ledger holds UID u for a VMI if and only if some loop snapshot listed a migration with UID u, of that namespace and VMI name, that failed and is not in the baseline |
| Triggers.BudgetDecides | internal/coordinator/coordinator.go:451-455 | the budget check ends the run if and only if some VMI has shown more such failures than the budget |
| Pending.AskedAgainOnlyAfterNews | internal/coordinator/coordinator.go:393-438 | a VMI that counts as asked is sent no launcher eviction until it shows a failure outside the baseline |
| Pending.FreedExactlyByNews | internal/coordinator/coordinator.go:435-440 | between two observations a VMI stops counting as asked if and only if the loop snapshots in between showed a new failed migration of it outside the baseline |
| Stalling.BaselineFailureStalls | internal/coordinator/coordinator.go:400-404 | for any positive n there is a run that makes n observations, sees its VMI stay with a failed migration of the baseline, never evicts anything, and times out |
| Triggers.InFlightAccounting | internal/coordinator/coordinator.go:473-490 | during a trigger pass the running count is the number of active entries plus that of asked VMIs in none of them; it stays within max(limit, start), and a VMI is evicted only below the limit with no request pending and no migration active |
| Triggers.OutstandingGrows | internal/coordinator/coordinator.go:739-757 | asking one more VMI raises the recomputed count by exactly one |
| Meaning.OutstandingIs | internal/coordinator/coordinator.go:739-757 | what is outstanding, by positions: active entries, and asked VMIs that are in no active entry |
| Meaning.CountActiveIs | internal/coordinator/coordinator.go:759-767 | the number of active migrations is that of positions with one |
| Meaning.NoneActiveIs | internal/coordinator/coordinator.go:759-767 | the count is zero if and only if no listed migration is active |
| Meaning.MigratingIs | internal/coordinator/coordinator.go:575-580 | a VMI migrates if and only if some active migration names it |
| Meaning.DiscoveredIs | internal/kube/actions.go:276-289 | the cluster's limit: that of the first configuration with a positive one, or two |
| Meaning.EffectiveIs | internal/coordinator/coordinator.go:389-392 | the operator's limit decides if and only if it is positive and below the cluster's |
| Progress.BoundedProgress | internal/coordinator/coordinator.go:389-533 | in a co-operative cluster a drain of n VMIs with effective limit L succeeds after exactly ceil(n / L) + 3 observations, having asked each VMI to move exactly once and no other, with 1 <= L <= the cluster's limit |
| Progress.Observation | internal/coordinator/coordinator.go:407-547 | one observation asks min(L, left) VMIs, or counts one more quiet snapshot when none is left |
| Progress.AskAll | internal/coordinator/coordinator.go:474-490 | a trigger pass asks the first L listed VMIs and no other |
| Progress.RoundsExact | internal/coordinator/coordinator.go:407-547 | the number of rounds in closed form |
| Progress.EffectiveBounds | internal/kube/actions.go:276-289 | the effective limit is at least one and never above the cluster's |
| Witnesses.CooperationExists | internal/coordinator/coordinator.go:407-548 | for any VMIs that can migrate, any answer about the limit and any quiet relist there is a co-operative cluster, so that the bound is not vacuous |
| Witnesses.FinalRelistIsNotRechecked | internal/coordinator/coordinator.go:511-519 | a drain succeeds on any quiet final relist, preflighted or not |
| Witnesses.QuietYetBlocked | internal/coordinator/coordinator.go:705-712 | a true snapshot of a node whose one pod looks like a launcher and hosts no VMI is quiet and fails preflight |
| Witnesses.SucceedsWithStrayLauncher | internal/coordinator/coordinator.go:511-519 | a drain succeeds although its final relist is such a snapshot |
| Witnesses.EarlyLeaversGoUnverified | internal/coordinator/coordinator.go:396-399 | a drain succeeds without verifying VMIs that only its first snapshot held |
| ApiServer.RollbackExact | internal/kube/actions.go:55-72 | the rollback's patch changes exactly an unchanged, unschedulable node of the expected UID owned by the run; otherwise nothing |
| ApiServer.CordonRollbackRoundTrip | internal/kube/actions.go:39-72 | cordon then undisturbed rollback restores a schedulable, unowned node |
| ApiServer.OwnedMeansCordoned | internal/kube/actions.go:28-72 | a node owned by a run was last cordoned by that run, or had the run written into the annotation by hand, up to writers that leave the annotation alone |
| ApiServer.ForgeryIsUndone | internal/kube/actions.go:55-72 | an owner written by hand is trusted: the rollback undoes a cordon that the run never made |
| Client.Client.AcquireDrainLease | internal/kube/actions.go:86-115 | create, or find the lease already naming this run; success means holding it, also after a lost reply |
| Client.Client.ReleaseDrainLease | internal/kube/actions.go:117-131 | deletes only the lease it read, which named this run; whatever others did in between stays |
| Client.Client.Cordon | internal/kube/actions.go:39-51 | unschedulable and owned, or unchanged; refused while another run owns the cordon |
| Client.Client.RollbackCordon | internal/kube/actions.go:55-72 | our own, unchanged cordon becomes schedulable and unowned, or nothing happens |
| Client.Client.SetUnschedulable | internal/kube/actions.go:28-35 | sets scheduling and drops the owner |
| Cluster.MutualExclusion | internal/kube/actions.go:86-131 | in every interleaving of any number of runs, with lost replies and crashes, two runs are never both between acquire and release, unless somebody edits the lease by hand |
| Cluster.MutationsUnderLease | internal/coordinator/coordinator.go:280-292 | every cordon, eviction and restore is sent by the lease holder while no other run is inside its span |
| Cluster.ReleaseDeletesOwn | internal/kube/actions.go:117-131 | even when others edit or delete leases, a run only deletes a lease that names it |
| Cluster.SuccessFreesLease | internal/kube/actions.go:117-131 | once a run returned nil no lease names it any more, unless somebody edits the lease by hand |
| Cluster.RollbackUndoesOwnCordon | internal/kube/actions.go:53-72 | a run makes the node schedulable only at the UID it first read and the version it just read, and the cordon it undoes is its own, or somebody wrote its name into the annotation by hand |
| Cluster.UncordonedStaysUntouched | internal/kube/actions.go:28-72 | in every execution, after an uncordon command no rollback of a run changes anything until that run's cordon takes effect again or somebody writes the run into the annotation by hand |
| Cluster.ReadsValidAlways | internal/kube/actions.go:117-130 | versions grow, and what a run read identifies the lease it may delete |
| Hotplug.HotplugState | internal/kube/snapshot.go:556-599 | expected is the number of names, ready never exceeds it, and they are equal if and only if every named volume is ready; then each is in the spec, reported "Ready", and attached by a listed pod that runs on the target |
| Hotplug.ReadyCountComplete | internal/kube/snapshot.go:576-597 | counting is complete exactly when every name is ready |
| Hotplug.ReadyNeeds | internal/kube/snapshot.go:576-597 | a volume counts as ready only if it is in the spec, some status entry of its name is "Ready", and a listed pod that this entry or the migration's target names runs on the target node |
| Hotplug.ReadyIs | internal/kube/snapshot.go:576-597 | on the VMI's own node, and for distinct UIDs and names, it counts if and only if: the pod with the attachment's UID, or without such a pod the one with its name |
| Selection.ClassifyPod | internal/kube/snapshot.go:210-237 | every flag of a pod's class, as an equivalence; launcher if and only if some listed VMI is hosted by it in that sense |
| Selection.LauncherFor | internal/kube/snapshot.go:448-456 | the first pod on the VMI's node that hosts it: listed in its active pods under that node, in its namespace, labelled with its UID, and controlled by it; none only if no listed pod is all that |
| Selection.LauncherIsClassified | internal/kube/snapshot.go:448-475 | the pod chosen as a VMI's launcher is classified as hosting that very VMI, and does by its own fields |
| Selection.LaunchersApart | internal/kube/snapshot.go:448-475 | two VMIs never share a launcher |
| Selection.LauncherLooksAreNeverEvicted | internal/kube/snapshot.go:477-489 | no option makes a pod that looks like a launcher an ordinary eviction target |
| Selection.PreflightPartitions | internal/coordinator/coordinator.go:698-728 | a preflighted snapshot splits into exempt pods and eviction targets |
| Selection.MatchingPDBs | internal/kube/snapshot.go:363-380 | the covering budgets, sorted by name, each marked as KubeVirt's own when its owner is the hosted VMI |
| Selection.OwnedIs | internal/kube/snapshot.go:473-476 | a pod hosts a VMI if and only if the VMI lists its UID as active on the pod's node, and namespace, label and controlling owner are the VMI's |
| Selection.HostedIs | internal/kube/snapshot.go:458-471 | a pod is verified if and only if it hosts some listed VMI, and then for one that it hosts |
| Selection.MarkedIs | internal/kube/snapshot.go:478-489 | what looks like a launcher: name prefix, labels, annotation or owner |
| Selection.ClassIs | internal/kube/snapshot.go:210-237 | the flags of a classified pod by the pod's and VMIs' fields |
| Selection.CoveringIs | internal/kube/snapshot.go:363-380 | the budgets over a pod: those of its namespace that select it, KubeVirt's own exactly if controlled by a VMI that the pod hosts |
| Targets.NodeSelectorMatches | internal/kube/snapshot.go:394-423 | an or of ands over labels and the node's name |
| Targets.RequirementMatches | internal/kube/snapshot.go:397-413 | one requirement, including unknown operators |
| NodeSelectors.AlikeExactly | internal/kube/snapshot.go:397-413 | the code's reading of a requirement on labels equals Kubernetes' if and only if: Kubernetes rejects it and the code rejects the node; or it is a number that both put on the same side; or it is not about the node's name; or the label of that name says the same |
| NodeSelectors.AlikeFieldExactly | internal/kube/snapshot.go:397-413 | a requirement on fields is read as by Kubernetes if and only if it compares the node's name with one value, or the code rejects the node |
| NodeSelectors.AgreesExactly | internal/kube/snapshot.go:394-423 | the code selects a node as Kubernetes does if and only if some term is met and read alike throughout, or there are terms misread for and against the node, or neither |
| NodeSelectors.PlainAgrees | internal/kube/snapshot.go:394-439 | selectors whose terms are not empty, well formed, not about the name as a label, and without numbers that are read differently are read as Kubernetes reads them, on every node |
| NodeSelectors.OneDiffers | internal/kube/snapshot.go:394-413 | every requirement that is not read alike makes a selector on which they differ |
| NodeSelectors.WaysToDiffer | internal/kube/snapshot.go:397-439 | the ways: the name taken for a label, `NotIn` without values, `Exists` with values, unknown operators, numbers that only the code reads |
| NodeSelectors.BlankDiffers | internal/kube/snapshot.go:395-420 | a term without requirements selects every node in the code and none in Kubernetes |
| Targets.ToleratesNode | internal/kube/snapshot.go:336-361 | every hard taint is excused by some toleration |
| Targets.EligibleTargets | internal/kube/snapshot.go:280-334 | the sorted names of the eligible nodes |
| Targets.TargetsExact | internal/kube/snapshot.go:280-334 | sorted, without repetition, and a name is in it if and only if that node is ready, schedulable, labelled, not the source, and meets selector, affinity, taints and volumes |
| Targets.TargetsStable | internal/kube/snapshot.go:309-333 | the order of the node list and the source's own cordon never change the answer |
| Targets.NodeEligibleIs | internal/kube/snapshot.go:309-330 | when a node is an eligible target, by the fields of node, VMI, launcher and volumes |
| Targets.NeedsAre | internal/kube/snapshot.go:292-308 | what a target must offer: the launcher's selector over the VMI's, and its affinity and tolerations if it has any, else the VMI's |
| Targets.ToleratesIs | internal/kube/snapshot.go:336-361 | a node is tolerated if and only if each of its taints with effect NoSchedule or NoExecute is excused |
| Targets.VolumesAllowIs | internal/kube/snapshot.go:314-327 | a node is reachable if and only if no bound volume of a claim of the VMI forbids it |
| Snapshots.TakeSnapshot | internal/kube/snapshot.go:80-207 | the snapshot depicts the listed objects: pods classified, VMIs sorted and described with launcher, budgets, volumes and blocker, migrations by source; it fails exactly when a listing does or expected volumes cannot be found out |
| Snapshots.DescribeVMI | internal/kube/snapshot.go:139-167 | a VMI is blocked unless it is live-migratable, has a migrating strategy and an eligible target |
| Snapshots.CollectAttachments | internal/kube/snapshot.go:115-129 | UIDs and names of the pods that attach volumes of any VMI |
| Snapshots.ClassifyAll | internal/kube/snapshot.go:130-138 | the pods of the node, each classified |
| Snapshots.ListMigrations | internal/kube/snapshot.go:169-188 | the migrations away from the node, with a source inferred from the annotation when the state has none |
| Snapshots.BlockedIs | internal/kube/snapshot.go:144-166 | a VMI is unblocked if and only if its condition LiveMigratable is "True", its strategy is LiveMigrate or LiveMigrateIfPossible, and some node is eligible |
| Snapshots.MigrationsFromIs | internal/kube/snapshot.go:169-188 | which migrations are listed, and that "Failed" alone failed, and all but "Succeeded" and "Failed" are active |
| Snapshots.AttachmentsAre | internal/kube/snapshot.go:115-129 | which UIDs and names are those of attachment pods |
| Targeting.PathsDisjoint | internal/kube/snapshot.go:210-237 | a VMI's launcher is no ordinary eviction target under any options |
| Targeting.BudgetIsItsOwn | internal/kube/snapshot.go:363-380 | the budget that lets a launcher be evicted belongs to that launcher's own VMI and allows no disruption |
| Targeting.EvictionsHitTheRightPods | internal/coordinator/coordinator.go:461-491 | in every run on depicted snapshots, normal evictions hit pods that host no VMI and do not look like launchers, and launcher evictions hit a pod that is active for the VMI on its node, in its namespace, with its UID as label and it as controller, under a budget that covers the pod, is controlled by the VMI and allows no disruption |
| Watch.Watcher.Relist | internal/coordinator/coordinator.go:139-173 | afterwards the cache is exactly the listed active migrations, and each UID got exactly the reports it should, including one terminal report for each that vanished |
| Watch.Watcher.MergeListed | internal/coordinator/coordinator.go:149-162 | the first loop of a relist, entry by entry |
| Watch.Watcher.ReportVanished | internal/coordinator/coordinator.go:163-172 | tracked migrations that are not listed are reported once as deleted and forgotten |
| Watch.Watcher.Handle | internal/coordinator/coordinator.go:207-230 | a change keeps the cache equal to the server's active migrations and histories well formed; it fails exactly when a report that is due cannot be written |
| Watch.Watcher.Follow | internal/coordinator/coordinator.go:184-232 | one stream, to where it ends: the cache is the server's active migrations at that point, and the reports are those its changes call for |
| Watch.Watcher.OneSession | internal/coordinator/coordinator.go:142-234 | one list and its stream: how it ends, what it says of each migration, what is tracked afterwards |
| Watch.Watcher.Watch | internal/coordinator/coordinator.go:135-235 | over any number of sessions: what it returns, never nil; what it says of each migration, report for report; every history is a prefix of (active+ terminal)*; without a filter that is what it reports, and with one its reports are well formed exactly when they are paired |
| Watch.Watcher.Emit | internal/coordinator/coordinator.go:246-258 | a migration is reported under its source, stated or inferred, unless the filter rejects it |
| Watch.FilteredHistory | internal/coordinator/coordinator.go:246-253 | under a node filter a migration is reported in full if and only if all that is said of it passes, and not at all if and only if nothing does |
| Watch.ReportsWellFormedExactly | internal/coordinator/coordinator.go:246-253 | the reports of a migration form a prefix of (active+ terminal)* if and only if each terminal one that passes follows a passing active one after the previous passing terminal one |
| Watch.FilterCanHideTheEnd | internal/coordinator/coordinator.go:246-253 | a migration that leaves the filter while active is reported as active and never as ended |
| Watch.FilterCanHideTheBeginning | internal/coordinator/coordinator.go:246-253 | a migration that enters the filter with its end is reported as ended and never as active, which is not well formed |
| Watch.LateSource | internal/coordinator/coordinator.go:247-253 | such a migration: first without any source, then with one |
| Watch.SaidByListIs | internal/coordinator/coordinator.go:149-172 | what a list says of each migration: listed and active, or ended and known; vanished and known, once, as deleted |
| Watch.SaidByChangeIs | internal/coordinator/coordinator.go:207-230 | what a change says: active as it is, ended if known, and a deletion of an active one as "Deleted" if known |
| Watch.StreamEndIs | internal/coordinator/coordinator.go:184-232 | a stream ends at its first stop, failure or unwritable report, with 130, a new session, or 1 |
| Watch.SessionEndIs | internal/coordinator/coordinator.go:142-234 | how a session ends: 130 or 1 if the list or the watch fails, 1 if a report cannot be written, else as its stream does, or goes on |
| Reducer.Reducer.Accept | internal/state/event.go:39-53 | key by key, what was accepted is the stutter-free form of what was offered |
| Reducer.KeySharedExactly | internal/state/event.go:42-45 | two events share a key if and only if they agree on type, node, and the object's kind, namespace and name, as long as no part contains a colon |
| Reducer.RecreatedShares | internal/state/event.go:42-45 | an object created anew under its name goes on in the old stream |
| Reducer.DestutterShape | internal/state/event.go:48-52 | the first event is kept, the last value survives, and no two neighbours are equal |
| Reducer.DestutterRuns | internal/state/event.go:48-52 | the kept events are the first ones of the runs of equal values, one per run and in order |
| Reducer.DestutterTwice | internal/state/event.go:48-52 | filtering what was filtered changes nothing |
| Reducer.ValueInjective | internal/state/event.go:46-47 | the compared value determines state, message and details when states and encoded details contain no NUL |

## Left out

- Permission checks are one input that succeeds or fails; what they check is not modelled.
- Event and diagnostic texts, transfer metrics, durations and the JSON encoding: errors are reduced to their exit code and wrapping, events to the fact that output broke or did not.
- Time: the deadline is a flag of each input, and termination is proved for streams in which it is set from some point on. It may also be unset again, which only adds runs.
- The interrupt is a flag polled where the code polls its context; an interrupt that arrives between a poll and the eviction after it cannot stop that eviction. The code cancels the request's context at that moment, which the model covers as an eviction that was refused.
- The hotplug lookups of one verification round are one input, and all of them are recorded; the code stops at the first unusable answer.
- Server-side apply ownership is reduced to: the cordon is refused while another run's owner annotation is there, and may be refused for any other reason.
- The lease's name (a SHA-256 of the node) and its duration: there is one lease object per node.
- Leases and nodes are objects of one node; other nodes do not interact with them.
- VM owner lookup: the effective eviction strategy and the expected volume names of a VMI are inputs (`Snapshots.Lookups`). The selector of a disruption budget is a predicate on labels.
- Number parsing in node selectors is an arbitrary partial function (`Targets.Numbers`).
- Grace periods and preconditions of pod evictions are in the history, but the API server's handling of pods is not modelled.
- Sorting migrations, target pods, status output, the `status` command, CLI parsing, rendering, installation scripts.
- Progress.BoundedProgress: only for a co-operative cluster; liveness without it is false of the code, as explained above.
- Watch.Watcher.Watch: the watch permission check is left out; the stream delivers the server's changes in order from the version that was listed; what a reconnect missed shows in the next list.
- Coordinator.Coordinator.EvictPods: an interrupt is noticed between pods, not during an eviction call.
