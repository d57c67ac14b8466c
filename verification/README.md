# restore-engine: a verified model

restore-engine orchestrates Proxmox restores from a shared Redis store: plan runs restore ordered groups of
guests, any number of workers claim jobs from one queue under one shared cap, and the tool may destroy a guest
only when it can prove that it provisioned it. This project models that logic and proves what it keeps, over
every run and under any interleaving of its steps. `dafny verify dfyconfig.toml` checks it.

| file | what it models |
|---|---|
| `PlanRuns.dfy` | the stored jobs, queue, runs and active set, and every atomic step on them as a function |
| `PlanRunSafety.dfy` | the invariant of the store and its preservation by every step |
| `PlanRunTheorems.dfy` | group barrier, meaning of COMPLETED and FAILED, VMIDs of a run, nothing is undone |
| `PlanRunTicks.dfy` | what one tick and one start do, said over jobs and rows alone |
| `PlanRunFrames.dfy` | what every step does to one job and one run, what it leaves alone, and the order of the queue |
| `PlanRunBatches.dfy` | the VMIDs and nodes an enqueue gives out, measured by the open jobs of each node |
| `PlanRunProgress.dfy` | the measure that bounds the ticks of a run |
| `PlanRunLimits.dfy` | where the promises end: stops, cancellations and drains beside a worker, failed start, overlapping ticks |
| `PlanRunRaces.dfy` | over all possible steps: what a request, a cancellation with a tick in flight and a forced teardown settle |
| `PlanEngine.dfy` | the same operations as the services run them, with their loops, each proved equal to its step |
| `Slots.dfy` | the INCR / check / DECR slot protocol of any number of workers |
| `Ownership.dfy`, `Teardown.dfy` | the ownership check on the config text, the DR reclaim loop, restores over a guest, plan-run teardown |
| `Worker.dfy` | one restore job from claim to terminal state, and the link from COMPLETED jobs to a clean teardown |
| `StampText.dfy` | the ownership markers in tags and description |
| `Allocator.dfy`, `Placement.dfy` | first-free VMID scan, greedy least-loaded placement |
| `Calendar.dfy`, `Timestamps.dfy`, `BackupRef.dfy` | epoch to text and back, string order as time order, cutoffs, backup ids |
| `Members.dfy`, `Inventory.dfy` | newest row per VMID, group resolution, grouped inventory |
| `Reports.dfy`, `Durations.dfy` | report retention, duration text |
| `Text.dfy`, `Numbers.dfy`, `Sets.dfy`, `Wrappers.dfy` | strings, digits, finite sets, optional values |

## Reading the model

- Job, run and claim ids are numbers; a fresh UUID is the next number of a counter.
- A Redis command or transaction, one run's share of a tick, an enqueue and an API call are each one atomic step.
  A worker's pop, its look at the cancel request and its first write to the job are three steps, because the code
  lets other steps in between. A reconcile is one step, and its count and its write are taken apart in
  `Slots.SplitReconcileIsRight`.
- A stop, a cancellation or a drain is a step of an undisturbed run while no worker stands in its way. That is no
  convenience: what happens otherwise is proved as well, over all possible steps, and listed below. A reachable state is one reached by undisturbed steps.
- What the outside answers (the VMIDs in use, how each lookup and delete ends and whether it did anything, whether a
  stamp works, what each round of waiting finds) is a parameter. A theorem holds for every answer unless it names the
  answers it needs. The cluster may change in any way between two steps.
- A delete sent to another node than the guest's removes nothing.
- Each operation is proved against definitions it does not use itself: when a tick waits and what it writes
  (`PlanRunTicks`), the one job or run a step touches (`PlanRunFrames`), how a job ends (`Worker.CompletedIff`,
  `Worker.CancelledIff`), which guest a teardown may take (`Teardown.ForeignGuestIsDestroyedIff`), which text marks a
  guest (`StampText.ManagedIff`), what a claim, an enqueue and a resolution give.
- A start saves a RUNNING record first and its rows last. Both outcomes are modelled: the start that succeeds, and
  the record left behind when the first enqueue raises.
- A tick and a pop are not held back by the pause flag; the worker checks it once per round, so a pop may follow it.
- Job hashes do not expire. Durations, sizes and scores are whole numbers.

## What turned out false

- A worker reads the cancel request and writes RESTORING later, over whatever state it finds (worker.py:119,
  worker.py:139). A stop or a cancellation in between reports the job CANCELLED and the worker reopens it and submits
  its restore. It still never ends COMPLETED, because the request stays set and is the first thing the wait looks at:
  a stopped job is kept from completing exactly if it was not yet RESTORING (`PlanRunRaces.StopPreventsCompletionIff`).
  Its state stays CANCELLED exactly if no worker stood between the two (`PlanRunLimits.StopHoldsIff`,
  `PlanRunLimits.CancelHoldsIff`).
- No lock keeps a tick and a cancellation apart. A tick that read the record before and saves after makes the
  cancelled run RUNNING again exactly if it moves on or enqueues, which a reachable run does
  (`PlanRunRaces.StaleTickReopensIff`, `PlanRunRaces.StaleTickExample`). So a cancellation is final, for the run and its
  jobs, exactly when neither a worker nor such a tick is under way (`PlanRunRaces.CancelStandsIff`).
- A teardown calls an entry ok when the text of any error says "not found" or the like (plans.py:2134-2140) and never
  looks at the cluster again. `completed` means that the targets are gone exactly if none was misreported
  (`Teardown.DoneMeansGoneIff`, `Teardown.MisreportExample`), and it is never retried.
- A forced teardown cancels the run and tears it down at once (main.py:1213-1216). It has the last word exactly if no
  job of the run was RESTORING or past its check (`PlanRunRaces.ForcedTeardownIsFinalIff`).
- `drain_pending_jobs` writes CANCELLED without a cancel request (queue_control.py:115-131). A job popped just before
  a drain is restored after being reported as cancelled. A drain is final exactly when no worker holds a PENDING job
  past its check or without a request (`PlanRunLimits.DrainHoldsIff`).
- A start whose first enqueue raises leaves a RUNNING record that the next tick marks COMPLETED without a single
  job (`PlanRunLimits.FailedStartCompletes`). COMPLETED means done exactly for starts that succeeded
  (`PlanRunTheorems.CompletedMeansDone`, `PlanRunLimits.CompletedWithoutRowsDidNothing`).
- Two ticks from one reading of a record enqueue a group twice exactly when it is the group to enqueue and both
  enqueues succeed (`PlanRunLimits.OverlapDoublesIff`, reached in `PlanRunLimits.OverlapExample`); several workers are
  a documented set-up (DOCKER.md:100), and no lock keeps their ticks apart.
- A worker that starts while another is between claim and RESTORING resets the counter under it and breaks the
  shared cap (`Slots.ReconcileBreaksCap`); a reconcile in one piece is right exactly when every live claim has a
  RESTORING job (`Slots.ReconcileIsRight`). It counts first and writes later, and one job that ends in between leaves
  the counter too high for good (`Slots.ReleaseSpoilsReconcile`, exactly in `Slots.SplitReconcileIsRight`). Jobs left
  RESTORING by dead workers keep counting: once they fill the limit no claim succeeds (`Slots.DeadRestoresBlockClaims`),
  and a claim after a reconcile succeeds exactly below the limit with them included (`Slots.ClaimAfterReconcile`).
- Normal restores are submitted with force (jobs.py:164, worker.py:133), so a guest that took the VMID after it was
  found free may be overwritten by the tool itself: `Teardown.HistoryIsSafe` has to allow for it.
- Foreign guests are said never to be destroyed (jobs.py:79-81). A teardown destroys an unmarked QEMU guest that
  took over a VMID exactly if the hash of one of the run's jobs names that VMID with a restore task, its start or a stamp
  (`Teardown.ForeignGuestIsDestroyedIff`), which it does exactly if that job submitted its restore
  (`Worker.SubmittedJobVouches`).
- A DR overwrite that is refused has already destroyed the marked guests before the refused one
  (`Ownership.ReclaimExact`).
- A group limited to a source loses the tags of a guest whose newest snapshot lies in another source; the exact
  condition is in `Members.FetchedTagsSuffice`.

## Model

| member | source | states |
|---|---|---|
| PlanRunSafety.StepKeeps | plans.py:1511-1644 | every step of ticks, starts, enqueues and workers, and every stop, cancellation and drain no worker stands in the way of, keeps the store invariant, and jobs only move forward |
| PlanRunSafety.TickKeeps | plans.py:1528-1642 | one run's tick, whichever branch it takes, keeps the invariant |
| PlanRunSafety.DecisionKeepsRun | plans.py:1592-1642 | closing or moving a run leaves every earlier group terminal, passed and enqueued |
| PlanRunSafety.LaunchKeeps | plans.py:1437-1498 | a start keeps the invariant, whether its first enqueue succeeds or raises |
| PlanRunSafety.AbandonKeeps | plans.py:2187-2212 | cancelling a run keeps the invariant while no worker is past the cancel check of one of its jobs |
| PlanRunSafety.StopKeeps | main.py:1529-1552 | stopping a job no worker has let pass keeps queue coherence and leaves terminal jobs alone |
| PlanRunSafety.SweepKeeps | queue_control.py:100-156 | a drain with no PENDING job in a worker's hand that could still pass keeps the invariant |
| PlanRunSafety.TakeKeeps | worker.py:717-722 | popping a job keeps every PENDING job queued or with a worker |
| PlanRunSafety.CheckKeeps | worker.py:114-121 | the cancel check closes a cancelled job and lets only a PENDING one pass |
| PlanRunSafety.WriteKeeps | worker.py:139 | the write that follows opens no terminal job, since what passed the check is still PENDING |
| PlanRunSafety.SettleKeeps | worker.py:470-478 | ending a job keeps the invariant |
| PlanRunSafety.SubmitKeeps | jobs.py:205-251 | an enqueue outside any run keeps the invariant |
| PlanRunSafety.TargetsGrow | plans.py:1319-1336 | recording a batch keeps the run's VMIDs strictly ascending and below the next start |
| PlanRunTheorems.GroupBarrier | plans.py:1592-1642 | in every reachable state, once a job of a group exists every job of every earlier group is terminal, and none failed if the run halts on errors |
| PlanRunTheorems.GroupEnqueuedOnce | plans.py:1548-1591 | the jobs ever created for a group are exactly those its run lists, each once, and they restore the group's rows one by one in order |
| PlanRunTheorems.CompletedMeansDone | plans.py:1621-1642 | once a start has succeeded and its run is COMPLETED, each group of the rows the start was given has been restored by one terminal job per row, none FAILED and one COMPLETED per non-empty group if the plan halts on errors |
| PlanRunTheorems.FailedMeansHalted | plans.py:1603-1610 | a FAILED run halts on errors, has a FAILED job, and has no open job |
| PlanRunTheorems.RunVmidsAreFresh | plans.py:1319-1336 | in normal mode the VMIDs of a run are distinct, lie at or above 100 and the plan's start, and grow from group to group, whatever the cluster does in between |
| PlanRunTheorems.RecordedTargetsAreJobs | plans.py:1319-1336 | the targets a run recorded for teardown are the VMIDs and nodes of its jobs, group by group |
| PlanRunTheorems.ActiveIsRunning | plans.py:1217-1228 | the active set is exactly the RUNNING runs in every reachable state |
| PlanRunTheorems.QueueCoherent | jobs.py:249-251 | queue entries are distinct PENDING jobs nobody has popped, and no PENDING job is lost |
| PlanRunTheorems.NothingIsUndone | plans.py:1528-1642 | along any run of steps terminal jobs and closed runs never change, a closed run never gets a job, no group gets jobs twice, and an open run keeps its rows |
| PlanRunTheorems.StepIsLater | plans.py:1528-1642 | one step only adds to what a run has enqueued and recorded, and takes its rows only by cancelling it |
| PlanRunTheorems.PauseHolds | queue_control.py:31-36 | only an explicit resume lifts a pause, whatever else happens |
| PlanRunTicks.TickWaitsIff | plans.py:1593-1599 | a tick of a group with jobs changes nothing exactly if one of them has not ended; a failure alone holds no run up |
| PlanRunTicks.TickJudges | plans.py:1601-1642 | once all have ended the run becomes FAILED if one failed and the plan halts on errors, else CANCELLED if one was cancelled and none completed, else moves to the next group with jobs or rows or is COMPLETED, and nothing else changes |
| PlanRunTicks.TickEnqueues | plans.py:1550-1591 | a group with rows only is left alone when its enqueue raises; otherwise each row becomes one PENDING job at the end of the queue, listed in row order with its target |
| PlanRunTicks.TickCompletes | plans.py:1535-1547 | without groups left the run is COMPLETED |
| PlanRunTicks.TickDropsClosed | plans.py:1529-1532 | a run that is not RUNNING is taken off the active set and nothing else changes |
| PlanRunTicks.StartIsRight | plans.py:1437-1498 | a start saves one more RUNNING run at the first group with rows, with all rows, that group's jobs and their targets |
| PlanRunTicks.FailedStartIsRight | plans.py:1451-1476 | a start whose enqueue raises leaves one more RUNNING run without rows, jobs or targets |
| PlanRunFrames.StepOnJob | main.py:1529-1552 | the exact state, request and place of every job after every step: only steps on it, the cancellation of its own run and a drain touch it |
| PlanRunFrames.CancelTouchesItsOwn | plans.py:2187-2212 | a cancellation cancels the PENDING jobs of the run, asks its RESTORING ones to stop, and leaves the jobs and records of all other runs, and their places on the queue, as they were |
| PlanRunFrames.StopTouchesOne | main.py:1529-1552 | stopping a job leaves every other job and every run as it was |
| PlanRunFrames.StepOnRun | plans.py:1217-1228 | a record and its membership in the active set change by the run's own ticks and cancellation only |
| PlanRunFrames.SparedJobStays | plans.py:2187-2212 | over any run of steps a job nobody addresses stays as it is |
| PlanRunFrames.QueueIsFirstInFirstOut | worker.py:717-722 | while a job is on the queue no worker has got one queued behind it, whatever was stopped, cancelled or enqueued meanwhile |
| PlanRunBatches.BatchVmidsAre | jobs.py:131-164 | the VMIDs of an enqueue are distinct; in normal mode the smallest free ones from 100 and from the start, in DR mode the source VMIDs, in use only under overwrite |
| PlanRunBatches.TickVmidsAre | plans.py:1560 | the VMIDs a tick gives are the smallest free ones from the run's next one up, or from the plan's start while there is none |
| PlanRunBatches.CandidatesAre | jobs.py:108-113 | the candidates are the stripped names that are not blank, the single node only without any |
| PlanRunBatches.EnqueueAddsOpen | jobs.py:205-251 | an enqueue raises the PENDING and RESTORING jobs of a node by those it placed there |
| PlanRunBatches.EnqueueIsBalanced | jobs.py:166-167 | counted in the store, a node that got a job ends with at most one open job more than any other candidate |
| PlanRunBatches.EnqueueIsBest | jobs.py:166-167 | no other way to spread the jobs leaves the busiest candidate with fewer open jobs |
| PlanRunProgress.MeasureStep | plans.py:1535-1642 | no step raises a run's measure, and a tick whose group is finished or is enqueued lowers it |
| PlanRunProgress.TickIsIdleIff | plans.py:1528-1642 | a tick of a RUNNING run changes nothing exactly if a listed job of its group has not ended or the enqueue raises |
| PlanRunProgress.TicksArePaid | plans.py:1535-1642 | over any run the productive ticks of a plan run never exceed the drop of its measure |
| PlanRunProgress.RunFinishes | plans.py:1511-1642 | a run over n groups is closed after at most 2n + 1 productive ticks |
| PlanRunLimits.StopHoldsIff | main.py:1529-1552 | a stop is final exactly when no worker stands between the cancel check and the write for that job |
| PlanRunLimits.CancelHoldsIff | plans.py:2187-2212 | a cancellation is final for the jobs of the run, ticks aside, exactly when no worker stands there for one of them |
| PlanRunLimits.StoppedJobIsReopened | worker.py:119-139 | from any reachable state with a popped job a worker can pass its check so that RESTORING overwrites a stop |
| PlanRunLimits.DrainHoldsIff | queue_control.py:115-131 | a drain is final exactly when no worker holds a PENDING job past its check or without a request |
| PlanRunLimits.DrainedJobIsRestored | worker.py:114-139 | in any reachable state a popped job without a request is drained and then restored |
| PlanRunLimits.DrainClearsPending | queue_control.py:100-156 | in any state a drain empties and pauses the queue, cancels every PENDING job, leaves every other as it was and gives a queued id without a hash a CANCELLED one |
| PlanRunLimits.FailedStartCompletes | plans.py:1451-1476 | a start whose first enqueue raised is marked COMPLETED by the next tick, with no job |
| PlanRunLimits.CompletedWithoutRowsDidNothing | plans.py:1535-1547 | a COMPLETED run that kept no rows never had a job: keeping them is exactly what COMPLETED needs to mean done |
| PlanRunLimits.OverlapDoublesIff | plans.py:1524-1591 | two ticks from one reading enqueue a group twice exactly when it is the group to enqueue and both enqueues succeed |
| PlanRunLimits.OverlapExample | plans.py:1524-1591 | a reachable run of two groups in which that happens |
| PlanRunLimits.OverlappingTicksEnqueueTwice | plans.py:1583-1587 | then every row of the group has two jobs and the record keeps the second batch only |
| PlanRunLimits.CancelIsFinal | plans.py:2165-2212 | after a cancellation no worker stands in the way of, along runs of atomic ticks, the run gets no job and each of its jobs is terminal or RESTORING under a request, for good |
| PlanRunRaces.RequestedNeverCompletes | worker.py:262-276 | whoever stands in the way, a job whose request came before RESTORING never ends COMPLETED |
| PlanRunRaces.StopPreventsCompletionIff | main.py:1529-1552 | a stop keeps an open job from completing exactly if the job was not yet RESTORING or had been asked before |
| PlanRunRaces.CancelPreventsCompletion | plans.py:2187-2209 | nor does any job a cancellation found PENDING ever complete |
| PlanRunRaces.StaleTickReopensIff | plans.py:1528-1642 | a tick that read the record before a cancellation reopens the run exactly if it moves on or enqueues |
| PlanRunRaces.StaleTickKeepsRecordIff | plans.py:1528-1642 | it leaves the cancelled record alone exactly if it waits or its enqueue raises |
| PlanRunRaces.CancelStandsIff | plans.py:2165-2214 | with at most one tick in flight a cancellation is final for run and jobs exactly when no worker stands in the way and the tick does not move on |
| PlanRunRaces.StaleTickExample | plans.py:1548-1591 | a reachable run that gets its next group after its cancellation |
| PlanRunRaces.ClosedRunGetsNoJob | plans.py:1528-1532 | with atomic ticks a closed run stays closed and gets no job, whatever else is possible |
| PlanRunRaces.ForcedTeardownIsFinalIff | main.py:1199-1216 | a run cancelled for a forced teardown does nothing more exactly if none of its jobs was RESTORING or past its check |
| PlanEngine.Store.AdvancePlanRuns | plans.py:1511-1644 | a tick is one step for each run active when it began, in some order, up to the first enqueue error |
| PlanEngine.Store.AdvanceRun | plans.py:1528-1642 | one round of the loop, its skip loops and branches, is exactly the run's step; it raises exactly when the enqueue does |
| PlanEngine.TickMeets | plans.py:1548-1642 | a tick raises exactly at a group with rows only whose enqueue fails, and counts the run as touched unless a listed job has not ended |
| PlanEngine.Store.JudgeGroup | plans.py:1592-1642 | the checks over the states of the current jobs decide as the step does |
| PlanEngine.Store.EnqueueGroupOf | plans.py:1548-1591 | the enqueue branch saves jobs, targets and index, or nothing |
| PlanEngine.Store.SkipEmptyGroups | plans.py:1535-1541 | the skip loop finds the first group with jobs or rows |
| PlanEngine.TickIsSound | plans.py:1511-1644 | a whole tick keeps the invariant, undoes nothing and leaves the active set exact |
| PlanEngine.Store.StartPlanRun | plans.py:1339-1498 | a start does nothing without rows, otherwise saves the shell and, exactly when the enqueue succeeds, the started run |
| PlanEngine.Store.CancelPlanRun | plans.py:2165-2214 | the nested loops cancel exactly the run's jobs, drop the PENDING ones from the queue, and count the jobs cancelled and the requests made |
| PlanEngine.CancelReports | plans.py:2184-2212 | the numbers it reports are the PENDING and the RESTORING jobs of the run |
| PlanEngine.Store.SavePlanRun | plans.py:1217-1228 | saving a run sets its record and its membership in the active set |
| PlanEngine.Store.RecordAssignedTargets | plans.py:1319-1336 | the loops append the pairs and set the next VMID past the largest non-zero one |
| PlanEngine.Store.EnqueueRestores | jobs.py:53-251 | an enqueue succeeds exactly under its stated conditions, the reclaim of a DR overwrite among them, allocates and places as specified, and otherwise leaves the store unchanged, but not what the reclaim removed |
| PlanEngine.CanEnqueueIff | jobs.py:108-198 | an enqueue succeeds exactly with a node, storages, the VMIDs in use and, in normal mode, enough free VMIDs, in DR mode distinct VMIDs whose guests, if any, may be overwritten and are cleared |
| PlanEngine.EnqueueTakesIff | jobs.py:173-198 | an enqueue takes marked QEMU guests of a DR overwrite only, and one that succeeds exactly those in use whose delete removes them |
| PlanEngine.Store.AllocateVmids | jobs.py:131-164 | normal mode takes the smallest free VMIDs, DR mode the source VMIDs, refusing duplicates and VMIDs in use |
| PlanEngine.Store.PushJobs | jobs.py:205-251 | one PENDING job per row, queued in row order |
| PlanEngine.Store.ActiveRestoreCountsByNode | jobs.py:34-50 | the counts are the numbers of PENDING and RESTORING jobs per node |
| PlanEngine.Store.StopJob | main.py:1529-1552 | stopping requests cancellation, dequeues, and cancels a PENDING job; terminal and unknown jobs are left |
| PlanEngine.Store.DrainPendingJobs | queue_control.py:100-156 | emptying the list and sweeping the hashes is one drain; the returned ids are those that read as PENDING, each once |
| PlanEngine.Store.PopJob | worker.py:717-722 | the first queued id goes to the worker's hand |
| PlanEngine.Store.CheckJob | worker.py:114-121 | the job goes on exactly if it has a hash and no cancel request, whatever its state says |
| PlanEngine.Store.WriteJob | worker.py:123-139 | RESTORING, or FAILED when reading the job raises, replaces the state found |
| PlanEngine.Store.WorkerTurn | worker.py:713-722 | claim, pop, job and release: the counter ends as it began on every path, and a job that ran is terminal |
| Slots.RunKeepsInv | concurrency.py:78-103 | under any interleaving of any number of workers, with reconciles only while every live claim has a RESTORING job, the counter equals the outstanding increments and no more slots are held than the largest limit used |
| Slots.ClaimRespectsLimit | concurrency.py:78-93 | a claim succeeds exactly when none or fewer than the limit are outstanding, and then at most the limit, or one, are held |
| Slots.NoClampStep | concurrency.py:96-103 | no release drives the counter below zero |
| Slots.RestoringStep | concurrency.py:34-51 | the scan counts a job from its RESTORING write to its end, and for good if its worker dies in between |
| Slots.ClaimCanBeGivenBack | worker.py:563-578 | from every state of a live claim its own worker can give it back, which takes exactly one off the counter |
| Slots.GivenBackOnce | worker.py:563-578 | in runs without a reconcile every increment is given back exactly once |
| Slots.ReconcileIsRight | concurrency.py:54-75 | a reconcile in one piece leaves the counter right exactly when every live claim has a RESTORING job |
| Slots.SplitReconcileIsRight | concurrency.py:34-75 | a reconcile that counts before other steps and writes after them is right exactly when the claims between states at the count and the increments since cancel out |
| Slots.ReleaseSpoilsReconcile | concurrency.py:34-75 | one job that ends between the count and the write leaves the counter wrong |
| Slots.ReconcileBreaksCap | concurrency.py:54-75 | with a limit of one, a reconcile at a bad moment lets two slots be held |
| Slots.ClaimAfterReconcile | concurrency.py:54-93 | after a reconcile, in any state, a claim succeeds exactly when fewer jobs than the limit are RESTORING |
| Slots.CrashIsRepairedIff | concurrency.py:54-75 | the counter a reconcile writes leaves a dead worker's claim out exactly when it had no RESTORING job |
| Slots.DeadRestoresBlockClaims | concurrency.py:34-51 | once jobs of dead workers fill the limit no claim succeeds, before or after a reconcile |
| Slots.DeadRestoresStay | concurrency.py:54-75 | no step gives the slot of a dead RESTORING job back |
| Slots.AcquireIsTwoCommands | concurrency.py:78-93 | undisturbed, a refused claim restores the counter |
| Slots.SlotCounter.TryAcquireSlot | concurrency.py:78-93 | the claim as one worker runs it |
| Slots.SlotCounter.ReleaseSlot | concurrency.py:96-103 | the release with its clamp at zero |
| Slots.SlotCounter.ReconcileSlots | concurrency.py:54-75 | the counter becomes the number of RESTORING jobs |
| Slots.CountRestoringJobs | concurrency.py:34-51 | the scan counts the RESTORING jobs |
| Ownership.DestroyedIff | pve_client.py:488-545 | a guest goes exactly if it is a QEMU guest, marked or vouched for, on a known node, and the delete works; no other guest changes |
| Ownership.DestroyReportsIff | pve_client.py:488-545 | the call succeeds exactly for a guest found absent or a delete that replies, and raises an error that says gone exactly if its lookup or its delete does |
| Ownership.DestroyAnswersIff | pve_client.py:504-545 | each refusal and each reason it returns, exactly when |
| Ownership.TextDecides | pve_client.py:447-545 | on the config text: a guest goes exactly if it is a QEMU guest on a known node, the calls work, and its tags or description name the tool or the caller vouches for it |
| Ownership.StampWrites | pve_client.py:460-485 | a stamped guest keeps its tags and lines in order, with the managed tag and the marker of its job and run |
| Ownership.ReclaimExact | jobs.py:173-198 | a DR reclaim succeeds exactly if every VMID is reclaimable, and removes exactly the marked guests it tried, also when refused |
| Ownership.RestoreSparesIff | pve_client.py:764-783 | with force as its documentation describes it, a restore spares a guest exactly if it stands elsewhere or force is off |
| Ownership.StampMarks | pve_client.py:460-485 | the tags and description a stamp writes make the guest pass the managed test and change nothing else that decides |
| Ownership.Cluster.IsManagedByTool | pve_client.py:447-457 | the managed test on the guest's text; an unreadable config is unmanaged |
| Ownership.Cluster.MarkManaged | pve_client.py:460-485 | both markers are written over the config found |
| Ownership.Cluster.DestroyOwned | pve_client.py:488-545 | the checks in the order they run |
| Ownership.Cluster.ReclaimForOverwrite | jobs.py:173-198 | the loop stops at the first VMID that cannot be reclaimed |
| Teardown.HistoryIsSafe | plans.py:2095-2143 | in any history on any cluster, a guest lost to a reclaim or a teardown was a QEMU guest, marked, or at a VMID that a job of the torn-down run names with a restore task, its start or a stamp; one lost to a restore stood at its VMID under force; a stamp loses none |
| Teardown.TeardownIsSafe | plans.py:2108-2143 | one teardown removes targets only, never a container, and only marked or vouched-for guests |
| Teardown.TargetExact | plans.py:2108-2143 | each target goes exactly if a delete is sent and removes it; its entry is ok exactly if the guest was seen absent or some call said it is gone |
| Teardown.DoneIff | plans.py:2134-2153 | the report is `completed` exactly if every target was seen absent or called gone by some call |
| Teardown.DoneMeansGoneIff | plans.py:2134-2153 | then no target is left in the cluster exactly if none that stood there was called gone without a delete removing it |
| Teardown.HonestEntry | plans.py:2134-2143 | with truthful answers an entry is ok exactly if its guest is gone |
| Teardown.MisreportExample | plans.py:2134-2140 | two answers after which a guest stays and the report is `completed` |
| Teardown.ForeignGuestIsDestroyedIff | plans.py:2095-2106 | an unmarked QEMU guest at a target is destroyed exactly if a job of the run names its VMID with a restore task, its start or a stamp |
| Teardown.UntouchedVmidIsSpared | plans.py:2095-2106 | where every job of the run stopped short of all three, no unmarked guest is touched, whatever the calls answer |
| Teardown.TargetsAreNamed | plans.py:2011-2049 | the targets are exactly the positive VMIDs the run recorded or a hash of its jobs names |
| Teardown.NodeIsFirst | plans.py:2011-2049 | the node of a target is the first non-blank one on offer |
| Teardown.StatusMeans | plans.py:2145-2153 | completed means that all entries are ok, failed that none is, partial that some are |
| Teardown.TeardownPlanRun | plans.py:2052-2162 | done once, refused while RUNNING, otherwise every collected target is tried with the run's provenance and the record is saved with these entries and the status they give |
| Teardown.CollectPlanRunTargets | plans.py:2011-2049 | the positive VMIDs named by the run or its jobs, ascending, once each, with the first non-blank node |
| Teardown.ProvenanceVmids | plans.py:2095-2106 | exactly the VMIDs of jobs that reached a restore task or a stamp |
| Worker.WaitForTask | pve_client.py:843-888 | the loop ends as the first deciding round says, a request before everything else |
| Worker.WaitEndsIff | pve_client.py:867-888 | waiting ends well exactly if some round finds the task stopped well and no round up to it finds a request, an error or another end |
| Worker.WaitStopsIff | pve_client.py:867-870 | waiting is ended by a request exactly if some round finds one and every round before goes on |
| Worker.AgentWaitIff | pve_client.py:354-366 | waiting for the guest agent ends with the first round that finds a request or an answer, the request first |
| Worker.CompletedIff | worker.py:114-479 | a job is COMPLETED exactly if it was not cancelled at its start and every step it needs succeeded; otherwise FAILED or CANCELLED |
| Worker.CancelledIff | worker.py:119-412 | a job is CANCELLED exactly if it was cancelled at its start, or every earlier step succeeded and a request was found while waiting for the restore, the start or the agent; every other job that does not complete is FAILED |
| Worker.AskedNeverCompletes | worker.py:262-276 | a request that came before the RESTORING write keeps the job from completing |
| Worker.StampFirstMeans | worker.py:263-320 | the stamp follows the end of the restore and precedes every explicit start or stop |
| Worker.JobRun.ProcessJob | worker.py:114-479 | every path ends in the stated outcome; a COMPLETED job has stamped its guest and touched no other |
| Worker.JobRun.RunJob | worker.py:563-578 | an exception means FAILED, so every job that began ends terminal |
| Worker.JobRun.StampGuest | worker.py:263-296 | three attempts; success exactly if one of them replied |
| Worker.JobRun.PowerGuest | worker.py:322-468 | start, agent wait and HTTP check, or making sure the guest is off |
| Worker.CompletedJobsAreMarked | worker.py:263-320 | after COMPLETED jobs a marked QEMU guest stands at each of their VMIDs and the rest of the cluster is as before |
| Worker.TargetsAreItsJobs | plans.py:2011-2049 | in a reachable state the collected targets are exactly the VMIDs of the run's jobs, each with a node |
| Worker.SubmittedJobVouches | plans.py:2095-2106 | a run lets a teardown destroy an unmarked guest exactly if one of its jobs for that VMID submitted its restore |
| Worker.CompletedRunTearsDown | plans.py:2011-2162 | a run in a reachable state whose jobs all COMPLETED is, every call working, torn down to exactly the cluster without its VMIDs, whatever it vouches for, and reports `completed` |
| StampText.TagsFromConfig | pve_client.py:425-444 | the loop yields the sanitised tags, without case-insensitive repeats, in order |
| StampText.ParsedTagsAreClean | pve_client.py:53-65 | parsed tags are sanitised and distinct |
| StampText.TagsRoundTrip | pve_client.py:425-444 | parsing a joined clean list returns the list |
| StampText.StampedTags | pve_client.py:460-485 | a stamp keeps the tags, adds the managed one at most once, and a second stamp changes nothing |
| StampText.StampedDescription | pve_client.py:474-484 | a stamp leaves the foreign lines in order, then the marker, and nothing else |
| StampText.StampsLeaveOneMarker | pve_client.py:460-485 | any number of stamps leaves exactly one marker line, the last one's |
| StampText.StampedIsManaged | pve_client.py:447-457 | a stamped guest passes the managed test |
| StampText.ManagedIff | pve_client.py:447-457 | a guest counts as managed exactly if a tag is `restore-engine` in any letter case or its description has `restore-engine:` in it |
| StampText.ParsedTagsAre | pve_client.py:53-65 | a tag is kept exactly if it is a piece of the text and neither blank nor a config key, a generation id or a UUID |
| StampText.MarkerTells | pve_client.py:473-476 | markers of different jobs or runs differ |
| Allocator.AllocateSequentialFreeVmids | pve_client.py:652-669 | the scan returns the count smallest free VMIDs from the start, adds exactly those, and fails exactly if the window has too few |
| Allocator.AllocationIsSmallest | pve_client.py:652-669 | the ids ascend, lie in the window, are free, and no free id from 100 and from the start up is passed over |
| Allocator.ScanIsWindow | pve_client.py:657-660 | the scan looks at exactly the ids from 100 and from the start up, as far as 5000 past the first, or 250 for each guest |
| Allocator.AllocationIsUnique | pve_client.py:652-669 | the inputs determine the allocation |
| Allocator.EnoughRoom | pve_client.py:652-669 | few enough ids in use guarantee success |
| Placement.AssignNodesLeastLoaded | pve_client.py:629-649 | every job goes to the node least loaded when it is placed; it fails exactly without candidates |
| Placement.GreedyIsBalanced | pve_client.py:629-649 | a node that received work ends at most one above every other |
| Placement.GreedyTakesFirstLeast | pve_client.py:641-648 | each job goes to a node with the least work when its turn comes, and on a tie to the one whose last place in the list comes first |
| Placement.GreedyMinimisesMaximum | pve_client.py:629-649 | no assignment has a lower highest load |
| Placement.GreedyMaximisesMinimum | pve_client.py:629-649 | no assignment has a higher lowest load |
| Placement.GreedyIsUnique | pve_client.py:629-649 | the inputs determine the placement, ties included |
| Placement.TotalIsConserved | jobs.py:166-167 | the total load of the candidate nodes, repeated names counted once, grows by exactly the number of jobs |
| Calendar.DateOfDayCounts | pbs_client.py:14-25 | the date of an epoch day is valid and lies exactly that many days after 1970, leap years included |
| Calendar.DayNumberInverse | pbs_wire.py:102-123 | every date from 1970 on is the date of its own day number |
| Calendar.DayNumberFormula | pbs_wire.py:117-120 | the day number of a date by the formula that shifts the year to March |
| Timestamps.IsoRoundTrip | pbs_client.py:14-25 | reading a printed timestamp returns the epoch, for 1970 to 9999 |
| Timestamps.ParseIsoIff | pbs_wire.py:115-120 | what is read as an epoch is exactly its printed text, with or without the UTC offset |
| Timestamps.StringOrderIsTimeOrder | main.py:644-653 | string order of printed timestamps is time order, both ways |
| Timestamps.DateCutoff | main.py:107-122 | a date cutoff admits exactly the snapshots up to the end of that UTC day |
| Timestamps.MinuteCutoff | main.py:107-122 | a minute cutoff admits exactly the snapshots up to the end of that UTC minute |
| Timestamps.ExactCutoff | main.py:107-122 | a full timestamp admits exactly the snapshots at or before it |
| Timestamps.EmptyCutoff | main.py:107-122 | an empty cutoff admits every snapshot |
| BackupRef.BackupIdRoundTrip | pbs_wire.py:102-123 | parsing a printed backup id returns source, VMID text and epoch |
| BackupRef.ParsesIff | pbs_wire.py:102-121 | which ids are read and as what: at least three non-empty parts after the first separator, the first `vm` in any letter case, the third a timestamp |
| BackupRef.NoSeparatorIff | pbs_wire.py:107-109 | an id is refused for its separator exactly if it has none |
| BackupRef.BackupIdsDistinct | pbs_client.py:174-185 | distinct snapshots have distinct backup ids |
| Members.LatestPerVmid | main.py:644-653 | the loop keeps the newest eligible row per VMID |
| Members.ScanFindsNewest | main.py:644-653 | the strictly-newer-wins scan finds the newest row of every VMID, the first listed on a tie |
| Members.NewestIsUnique | main.py:644-653 | there is only one such selection |
| Members.NewestIsLatestInTime | plans.py:621-634 | with printed timestamps the newest row by text is the latest in time under the cutoff |
| Members.VmidInRanges | plans.py:300-304 | the inclusive range test |
| Members.ResolveGroupRows | plans.py:597-686 | the result is strictly ascending and exactly the union of the selectors minus the exclusions over the newest rows |
| Members.ResolvedRowsAre | plans.py:597-686 | a resolved row is on offer, wanted and as new as any on offer for its VMID, and the newest on offer of each VMID is resolved if wanted |
| Members.MemberIff | plans.py:640-684 | membership by VMID, inclusive range, pattern or all tags up to letter case, minus both exclusions |
| Members.ResolutionIsUnique | plans.py:597-686 | the selectors' order does not matter |
| Members.FetchedTagsSuffice | main.py:992-1018 | fetching tags for the newest rows only gives the same members exactly when none is lost, and always when the group names no source |
| Members.FetchedTagsAgree | worker.py:591-632 | membership under fetched tags is membership under all tags unless the row's tags were not fetched |
| Members.SourceFilterLosesTags | worker.py:591-632 | a guest selected by tags whose newest snapshot lies in a source the group leaves out is resolved with all tags and not with the fetched ones |
| Members.SourceFilterExample | worker.py:591-632 | such a group and such snapshots exist |
| Inventory.GroupBackupsByVmid | backup_inventory.py:12-51 | one group per VMID, each stably sorted newest first |
| Inventory.SortIsStable | backup_inventory.py:12-51 | newest first, equal timestamps in list order |
| Inventory.SortKeeps | backup_inventory.py:12-51 | the sort keeps every row |
| Inventory.SortHeadIsScan | backup_inventory.py:12-51 | the head of a group's sort is the row the one-pass scan keeps, ties included |
| Inventory.ScanOfOneGuest | main.py:644-653 | scanning one guest's rows agrees with scanning all rows |
| Reports.ReportStore.SaveReport | reports.py:304-336 | a save stores the record, indexes it and trims to the limit |
| Reports.ReportStore.TrimReports | reports.py:339-356 | exactly the oldest entries over the limit go, from records and index alike |
| Reports.HistoryRetainsNewest | reports.py:304-356 | over any saves with non-decreasing scores index and records agree, the limit holds and nothing kept is older than anything trimmed |
| Reports.SavedReportSurvives | reports.py:304-356 | a report survives its own save exactly when fewer than the limit order after it |
| Reports.LaterClockKeepsReport | reports.py:304-336 | with a strictly later clock the saved report is kept |
| Durations.ParseDurationToken | progress_parse.py:100-117 | the loop sums the tokens found |
| Durations.DurationRoundTrip | reports.py:92-101 | parsing a formatted duration returns the same number of seconds |
| Durations.LooseDuration | progress_parse.py:100-117 | a number and a unit are read in either letter case and with any blanks before and between them |
| Durations.UnknownDurationRoundTrip | reports.py:92-101 | the placeholder reads as no duration |

## Left out

- Network and protocol I/O, TLS, the backup reader session and the HTTP API: their answers are parameters.
- Credentials, sessions, configuration editing, rendering, notifications, metrics, audit and dashboards.
- Readiness checks, schedules, assurance policy and report contents: finite case tables.
- Log parsing and throughput smoothing: patterns over external text and clamping of floats.
- Guest-name matching is an uninterpreted predicate; task-log paging depends on line numbers not visible here.
- The report written when a run closes, and the teardown it starts for drills: that teardown is the one modelled here.
- Expiry of job hashes while a run is RUNNING, and a tick in the middle of a start.
- Uniqueness of VMIDs across independent batches that are still PENDING: the code does not provide it.
- The branch of a tick for an un-enqueued group without rows (plans.py:1551-1556): the skip loop before it makes it unreachable.
- Parsing of list-valued tags, timestamps with other separators or offsets, and non-ASCII lower-casing.
- PlanRunSafety.StepKeeps: a stop, cancellation or drain beside a worker past its cancel check is no step of a run, because it breaks the invariant; `PlanRunLimits` gives the exact condition for each.
- PlanRunTheorems.NothingIsUndone: holds over the same runs of steps, for the same reason.
- PlanRunLimits.CancelIsFinal: a tick in flight is no step of these runs; `PlanRunRaces.CancelStandsIff` says exactly what it does.
- PlanEngine.Store.WriteJob: any failure between the cancel check and RESTORING is one flag.
- Slots.RunKeepsInv: a reconcile at any other moment is no step of these runs, because it breaks the counter; `Slots.SplitReconcileIsRight` gives the exact condition.
- Slots.GivenBackOnce: is about runs without a reconcile, and takes from the worker's program that one claim runs its commands in order; `PlanEngine.Store.WorkerTurn` runs that program.
- Ownership.RestoreSparesIff: what force does to a guest is the cluster's, taken from the documentation of the call (pve_client.py:770-772).
- Worker.JobRun.ProcessJob: wire sampling, progress updates and the best-effort host name check never change the outcome and are left out.
- Ownership.Cluster.DestroyOwned: the retries and the stop before a delete are folded into how the delete ends.
- Worker.CompletedRunTearsDown: the jobs of the run are taken one after another, in any order; jobs that overlap in time are not interleaved step by step.
