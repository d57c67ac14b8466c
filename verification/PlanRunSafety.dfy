/** What every step of the orchestration keeps. */
module PlanRunSafety {
  import opened Wrappers
  import opened Sets
  import opened PlanRuns
  import A = Allocator
  import P = Placement
  import T = Text

  // ----- the invariant -----

  /** Ids in use lie below the counters, and every job has a node. */
  ghost predicate Fresh(w: World) {
    (forall j :: j in w.jobs ==> j < w.nextJob && w.jobs[j].node != "") && forall id :: id in w.runs ==> id < w.nextRun
  }

  /** Queue entries are distinct PENDING jobs that no worker has popped. */
  ghost predicate QueueOk(w: World) {
    && Distinct(w.queue)
    && (forall j :: j in w.queue ==> j in w.jobs && w.jobs[j].state.Pending? && j !in w.inHand && j !in w.checked)
  }

  ghost predicate IsHeld(jobs: map<JobId, Job>, j: JobId) {
    j in jobs && (jobs[j].state.Pending? || (jobs[j].state.Cancelled? && jobs[j].cancelRequested))
  }

  ghost predicate IsChecked(w: World, j: JobId) {
    j in w.jobs && w.jobs[j].state.Pending? && j !in w.inHand
  }

  /** A popped job is PENDING or was cancelled with a request; one past the cancel check is PENDING; a PENDING
      job is queued, popped or past the check. */
  ghost predicate HandOk(w: World) {
    && (forall j :: j in w.inHand ==> IsHeld(w.jobs, j))
    && (forall j :: j in w.checked ==> IsChecked(w, j))
    && (forall j :: j in w.jobs && w.jobs[j].state.Pending? ==> j in w.queue || j in w.inHand || j in w.checked)
  }

  /** Job `j` is filed under group `i` of run `id`. */
  ghost predicate IsFiled(jobs: map<JobId, Job>, id: RunId, i: nat, j: JobId) {
    j in jobs && jobs[j].run == Some(id) && jobs[j].group == i
  }

  /** A job of a run stands in the run's record at its group. */
  ghost predicate JobsFiled(jobs: map<JobId, Job>, runs: map<RunId, Run>) {
    forall j :: j in jobs && jobs[j].run.Some? ==> IsRecorded(jobs[j], j, runs)
  }

  ghost predicate IsRecorded(job: Job, j: JobId, runs: map<RunId, Run>)
    requires job.run.Some?
  {
    var id := job.run.value;
    id in runs && job.group < |runs[id].jobs| && j in runs[id].jobs[job.group]
  }

  ghost predicate GroupFiled(jobs: map<JobId, Job>, id: RunId, i: nat, ids: seq<JobId>) {
    Distinct(ids) && forall j :: j in ids ==> IsFiled(jobs, id, i, j)
  }

  /** All jobs of a group ended in a way that lets the run go on. */
  ghost predicate Passed(jobs: map<JobId, Job>, halt: bool, ids: seq<JobId>) {
    var states := States(jobs, ids);
    && AllTerminal(states)
    && !(halt && Failed in states)
    && (Cancelled in states ==> Completed in states)
  }

  /** The source VMIDs that the listed jobs restore, in order. */
  function SourcesOf(jobs: map<JobId, Job>, ids: seq<JobId>): seq<int> {
    seq(|ids|, i requires 0 <= i < |ids| => if ids[i] in jobs then jobs[ids[i]].source else 0)
  }

  ghost predicate GroupOk(jobs: map<JobId, Job>, id: RunId, run: Run, i: nat)
    requires i < |run.jobs|
  {
    && GroupFiled(jobs, id, i, run.jobs[i])
    && (i > run.index ==> run.jobs[i] == [])
    && (i < run.index ==> Passed(jobs, run.settings.halt, run.jobs[i]))
    && (run.pending != [] ==> |run.pending| == |run.jobs|)
    && (run.pending != [] && run.jobs[i] != [] ==> SourcesOf(jobs, run.jobs[i]) == run.pending[i])
    && (run.pending != [] && i < run.index && run.pending[i] != [] ==> run.jobs[i] != [])
  }

  ghost predicate StatusOk(run: Run) {
    && run.index <= |run.jobs|
    && |run.jobs| > 0
    && (run.status.Running? ==> run.index < |run.jobs|)
    && (run.status.RunCompleted? ==> run.index == |run.jobs|)
    && (run.pending == [] && !run.status.RunCancelled? ==> forall i :: 0 <= i < |run.jobs| ==> run.jobs[i] == [])
  }

  /** The (VMID, node) pairs of the listed jobs, group by group. */
  function Placed(jobs: map<JobId, Job>, groups: seq<seq<JobId>>): seq<Target> {
    if groups == [] then []
    else Placed(jobs, groups[..|groups| - 1]) + TargetsOf(jobs, groups[|groups| - 1])
  }

  function TargetsOf(jobs: map<JobId, Job>, ids: seq<JobId>): seq<Target> {
    seq(|ids|, i requires 0 <= i < |ids| =>
      if ids[i] in jobs then Target(jobs[ids[i]].vmid, jobs[ids[i]].node) else Target(0, ""))
  }

  ghost predicate Ascending(targets: seq<Target>) {
    forall i, k :: 0 <= i < k < |targets| ==> targets[i].vmid < targets[k].vmid
  }

  /** The recorded targets are those of the run's jobs; in normal mode their VMIDs ascend, all from 100 and from the
      plan's start up and below the next start. */
  ghost predicate TargetsOk(jobs: map<JobId, Job>, run: Run) {
    && run.targets == Placed(jobs, run.jobs)
    && (run.settings.mode.Normal? ==> Ascending(run.targets))
    && (run.settings.mode.Normal? ==> AreAbove(run.targets, run.settings.vmidStart, run.nextVmid))
    && (run.nextVmid != 0 && run.settings.mode.Normal? ==> run.settings.vmidStart <= run.nextVmid)
  }

  ghost predicate AreAbove(targets: seq<Target>, start: int, next: int) {
    forall t :: t in targets ==> A.LOWEST_VMID <= t.vmid < next && start <= t.vmid
  }

  /** A FAILED run stopped at a group with a failure. */
  ghost predicate FailedOk(jobs: map<JobId, Job>, run: Run) {
    run.status.RunFailed? ==>
      && run.settings.halt
      && run.index < |run.jobs|
      && AllTerminal(States(jobs, run.jobs[run.index]))
      && Failed in States(jobs, run.jobs[run.index])
  }

  ghost predicate RunOk(jobs: map<JobId, Job>, id: RunId, run: Run) {
    && StatusOk(run)
    && FailedOk(jobs, run)
    && (forall i: nat :: i < |run.jobs| ==> GroupOk(jobs, id, run, i))
    && TargetsOk(jobs, run)
  }

  ghost predicate RunsOk(jobs: map<JobId, Job>, runs: map<RunId, Run>) {
    forall id :: id in runs ==> RunOk(jobs, id, runs[id])
  }

  ghost predicate ActiveOk(w: World) {
    forall id :: id in w.active <==> IsRunning(w, id)
  }

  ghost predicate Inv(w: World) {
    Fresh(w) && QueueOk(w) && HandOk(w) && JobsFiled(w.jobs, w.runs) && RunsOk(w.jobs, w.runs) && ActiveOk(w)
  }

  // ----- jobs only move forward -----

  ghost predicate SameJob(a: Job, b: Job) {
    && b.(state := a.state, cancelRequested := a.cancelRequested) == a
    && (IsTerminal(a.state) ==> b.state == a.state)
    && (a.state.Restoring? ==> !b.state.Pending?)
    && (a.cancelRequested ==> b.cancelRequested)
  }

  /** Jobs stay, keep their place and VMID, only move forward, and never leave a terminal state. */
  ghost predicate Keeps(before: map<JobId, Job>, after: map<JobId, Job>) {
    forall j :: j in before ==> j in after && SameJob(before[j], after[j])
  }

  lemma PassedIsStable(before: map<JobId, Job>, after: map<JobId, Job>, halt: bool, ids: seq<JobId>)
    requires Keeps(before, after) && Passed(before, halt, ids)
    requires forall j :: j in ids ==> j in before
    ensures Passed(after, halt, ids)
  {
    TerminalIsStable(before, after, ids);
  }

  lemma TerminalIsStable(before: map<JobId, Job>, after: map<JobId, Job>, ids: seq<JobId>)
    requires Keeps(before, after) && AllTerminal(States(before, ids))
    requires forall j :: j in ids ==> j in before
    ensures States(after, ids) == States(before, ids)
  {
    forall i | 0 <= i < |ids|
      ensures States(after, ids)[i] == States(before, ids)[i]
    {
      assert ids[i] in ids && States(before, ids)[i] in States(before, ids);
    }
  }

  lemma {:induction false} PlacedIsStable(before: map<JobId, Job>, after: map<JobId, Job>, groups: seq<seq<JobId>>)
    requires Keeps(before, after)
    requires forall i, j :: 0 <= i < |groups| && j in groups[i] ==> j in before
    ensures Placed(after, groups) == Placed(before, groups)
  {
    if groups != [] {
      var n := |groups| - 1;
      PlacedIsStable(before, after, groups[..n]);
      forall i | 0 <= i < |groups[n]|
        ensures groups[n][i] in before
      {
        assert groups[n][i] in groups[n];
      }
      assert TargetsOf(after, groups[n]) == TargetsOf(before, groups[n]);
    }
  }

  lemma SourcesAreStable(before: map<JobId, Job>, after: map<JobId, Job>, ids: seq<JobId>)
    requires Keeps(before, after) && forall j :: j in ids ==> j in before
    ensures SourcesOf(after, ids) == SourcesOf(before, ids)
  {
    forall i | 0 <= i < |ids|
      ensures SourcesOf(after, ids)[i] == SourcesOf(before, ids)[i]
    {
      assert ids[i] in ids;
    }
  }

  lemma GroupIsStable(before: map<JobId, Job>, after: map<JobId, Job>, id: RunId, run: Run, i: nat)
    requires Keeps(before, after) && i < |run.jobs| && GroupOk(before, id, run, i)
    ensures GroupOk(after, id, run, i)
  {
    SourcesAreStable(before, after, run.jobs[i]);
    if i < run.index {
      PassedIsStable(before, after, run.settings.halt, run.jobs[i]);
    }
  }

  lemma RunIsStable(before: map<JobId, Job>, after: map<JobId, Job>, id: RunId, run: Run)
    requires Keeps(before, after) && RunOk(before, id, run)
    ensures RunOk(after, id, run)
  {
    forall i: nat | i < |run.jobs|
      ensures GroupOk(after, id, run, i)
    {
      GroupIsStable(before, after, id, run, i);
    }
    MembersExist(before, id, run);
    PlacedIsStable(before, after, run.jobs);
    if run.status.RunFailed? {
      TerminalIsStable(before, after, run.jobs[run.index]);
    }
  }

  lemma MembersExist(jobs: map<JobId, Job>, id: RunId, run: Run)
    requires RunOk(jobs, id, run)
    ensures forall i, j :: 0 <= i < |run.jobs| && j in run.jobs[i] ==> j in jobs && IsFiled(jobs, id, i, j)
  {
    forall i, j | 0 <= i < |run.jobs| && j in run.jobs[i]
      ensures j in jobs && IsFiled(jobs, id, i, j)
    {
      assert GroupOk(jobs, id, run, i);
    }
  }

  lemma {:induction false} MembersAre(groups: seq<seq<JobId>>, j: JobId)
    ensures j in MemberIds(groups) <==> exists i :: 0 <= i < |groups| && j in groups[i]
  {
    if groups != [] {
      var front := groups[..|groups| - 1];
      MembersAre(front, j);
      assert forall i :: 0 <= i < |front| ==> front[i] == groups[i];
    }
  }

  lemma RunsAreStable(before: map<JobId, Job>, after: map<JobId, Job>, runs: map<RunId, Run>)
    requires Keeps(before, after) && RunsOk(before, runs)
    ensures RunsOk(after, runs)
  {
    forall id | id in runs
      ensures RunOk(after, id, runs[id])
    {
      RunIsStable(before, after, id, runs[id]);
    }
  }

  // ----- steps on single jobs and on the queue -----

  lemma {:induction false} WithoutHas(queue: seq<JobId>, gone: set<JobId>)
    ensures forall j :: j in Without(queue, gone) <==> j in queue && j !in gone
    ensures Distinct(queue) ==> Distinct(Without(queue, gone))
  {
    if queue != [] {
      var n := |queue| - 1;
      WithoutHas(queue[..n], gone);
      assert queue == queue[..n] + [queue[n]];
      if Distinct(queue) {
        assert Distinct(queue[..n]);
        assert queue[n] !in queue[..n];
      }
    }
  }

  /** A step that changes job states only keeps the records. */
  lemma JobStep(w: World, t: World)
    requires Inv(w) && Keeps(w.jobs, t.jobs) && t.jobs.Keys == w.jobs.Keys
    requires t.runs == w.runs && t.active == w.active && t.nextJob == w.nextJob && t.nextRun == w.nextRun
    ensures Fresh(t) && JobsFiled(t.jobs, t.runs) && RunsOk(t.jobs, t.runs) && ActiveOk(t)
  {
    RunsAreStable(w.jobs, t.jobs, w.runs);
    forall j | j in t.jobs && t.jobs[j].run.Some?
      ensures IsRecorded(t.jobs[j], j, t.runs)
    {
      assert SameJob(w.jobs[j], t.jobs[j]);
      assert IsRecorded(w.jobs[j], j, w.runs);
    }
  }

  /** Requesting cancellation of jobs that no worker has let pass, the PENDING ones leaving the queue. */
  lemma CancelKeeps(w: World, t: World, ids: set<JobId>)
    requires Inv(w) && t == w.(jobs := CancelIn(w.jobs, ids), queue := t.queue)
    requires Distinct(t.queue) && ids * w.checked == {}
    requires forall j :: j in t.queue <==> j in w.queue && j !in PendingIn(w.jobs, ids)
    ensures Inv(t) && Keeps(w.jobs, t.jobs)
  {
    forall j | j in t.inHand
      ensures IsHeld(t.jobs, j)
    {
      assert IsHeld(w.jobs, j);
    }
    forall j | j in t.checked
      ensures IsChecked(t, j)
    {
      assert IsChecked(w, j) && (j in ids ==> j in ids * w.checked);
    }
    assert t.jobs.Keys == w.jobs.Keys;
    JobStep(w, t);
  }

  lemma StopKeeps(w: World, j: JobId)
    requires Inv(w) && StopIsClear(w, j)
    ensures Inv(StopJob(w, j)) && Keeps(w.jobs, StopJob(w, j).jobs)
  {
    var t := StopJob(w, j);
    if t != w {
      WithoutHas(w.queue, {j});
      assert t.jobs == CancelIn(w.jobs, {j});
      CancelKeeps(w, t, {j});
    }
  }

  lemma SweepKeeps(w: World)
    requires Inv(w) && DrainIsClear(w)
    ensures Inv(Drain(w)) && Keeps(w.jobs, Drain(w).jobs)
  {
    var t := Drain(w);
    assert t.jobs.Keys == w.jobs.Keys;
    forall j | j in t.inHand
      ensures IsHeld(t.jobs, j)
    {
      assert IsHeld(w.jobs, j);
    }
    JobStep(w, t);
  }

  lemma TakeKeeps(w: World)
    requires Inv(w) && w.queue != []
    ensures Inv(Pop(w)) && Keeps(w.jobs, Pop(w).jobs)
  {
    var t := Pop(w);
    assert w.queue == [w.queue[0]] + t.queue;
    forall j | j in t.queue
      ensures j in t.jobs && t.jobs[j].state.Pending? && j !in t.inHand && j !in t.checked
    {
      assert j in w.queue;
    }
    assert w.queue[0] in w.queue;
    forall j | j in t.checked
      ensures IsChecked(t, j)
    {
      assert IsChecked(w, j);
    }
    JobStep(w, t);
  }

  /** Workers hold on to what they hold while one job moves. */
  lemma HandsStay(w: World, t: World, j: JobId)
    requires HandOk(w)
    requires t.inHand <= w.inHand && forall k :: k != j && k in t.checked ==> k in w.checked
    requires forall k :: k != j && k in w.jobs ==> k in t.jobs && t.jobs[k] == w.jobs[k]
    ensures forall k :: k != j && k in t.inHand ==> IsHeld(t.jobs, k)
    ensures forall k :: k != j && k in t.checked ==> IsChecked(t, k)
  {
    forall k | k != j && k in t.inHand
      ensures IsHeld(t.jobs, k)
    {
      assert IsHeld(w.jobs, k);
    }
    forall k | k != j && k in t.checked
      ensures IsChecked(t, k)
    {
      assert IsChecked(w, k);
    }
  }

  lemma CheckKeeps(w: World, j: JobId)
    requires Inv(w) && j in w.inHand
    ensures Inv(CheckCancel(w, j)) && Keeps(w.jobs, CheckCancel(w, j).jobs)
  {
    assert IsHeld(w.jobs, j);
    HandsStay(w, CheckCancel(w, j), j);
    JobStep(w, CheckCancel(w, j));
  }

  lemma WriteKeeps(w: World, j: JobId, ok: bool)
    requires Inv(w) && j in w.checked
    ensures j in w.jobs && Inv(WriteRestoring(w, j, ok)) && Keeps(w.jobs, WriteRestoring(w, j, ok).jobs)
  {
    assert IsChecked(w, j);
    HandsStay(w, WriteRestoring(w, j, ok), j);
    JobStep(w, WriteRestoring(w, j, ok));
  }

  lemma SettleKeeps(w: World, j: JobId, outcome: JobState)
    requires Inv(w) && j in w.jobs && w.jobs[j].state.Restoring? && IsTerminal(outcome)
    ensures Inv(Finish(w, j, outcome)) && Keeps(w.jobs, Finish(w, j, outcome).jobs)
  {
    var t := Finish(w, j, outcome);
    assert j !in w.checked by {
      assert j in w.checked ==> IsChecked(w, j);
    }
    assert j !in w.inHand by {
      assert j in w.inHand ==> IsHeld(w.jobs, j);
    }
    HandsStay(w, t, j);
    JobStep(w, t);
  }

  // ----- enqueueing -----

  lemma IdsHas(first: JobId, count: nat)
    ensures Distinct(Ids(first, count)) && forall j :: j in Ids(first, count) <==> first <= j < first + count
  {
    forall j: nat | first <= j < first + count
      ensures j in Ids(first, count)
    {
      assert Ids(first, count)[j - first] == j;
    }
  }

  lemma DistinctConcat(a: seq<JobId>, b: seq<JobId>)
    requires Distinct(a) && Distinct(b) && forall j :: j in a ==> j !in b
    ensures Distinct(a + b)
  {
    forall i, k | 0 <= i < k < |a + b|
      ensures (a + b)[i] != (a + b)[k]
    {
      if i < |a| <= k {
        assert a[i] in a && b[k - |a|] in b;
      }
    }
  }

  /** Every row has its VMID and a node with a name. */
  ghost predicate NodesKnown(b: Batch) {
    IsMatched(b) && forall n :: n in b.nodes ==> n != ""
  }

  lemma {:induction false} CleanHasNames(nodes: seq<string>)
    ensures forall n :: n in T.Clean(nodes) ==> n != ""
  {
    if nodes != [] {
      CleanHasNames(nodes[1..]);
    }
  }

  lemma BatchNodesKnown(jobs: map<JobId, Job>, s: Settings, start: int, rows: seq<int>, inUse: set<int>, b: Batch)
    requires IsBatch(jobs, s, start, rows, inUse, b)
    ensures NodesKnown(b)
  {
    P.GreedyIsAssignment(Candidates(s), ActiveCounts(jobs), b.nodes);
    CleanHasNames(s.nodes);
    CleanHasNames([s.node]);
  }

  lemma HandsBelow(w: World)
    requires Fresh(w) && HandOk(w)
    ensures forall j :: j in w.inHand || j in w.checked ==> j < w.nextJob
  {
    forall j | j in w.inHand || j in w.checked
      ensures j < w.nextJob
    {
      assert j in w.inHand ==> IsHeld(w.jobs, j);
      assert j in w.checked ==> IsChecked(w, j);
    }
  }

  lemma EnqueueIsFresh(w: World, run: Option<RunId>, group: nat, b: Batch)
    requires Fresh(w) && NodesKnown(b)
    ensures Fresh(Enqueue(w, run, group, b)) && Keeps(w.jobs, Enqueue(w, run, group, b).jobs)
  {
    var t := Enqueue(w, run, group, b);
    IdsHas(w.nextJob, |b.rows|);
    forall j | j in t.jobs
      ensures j < t.nextJob && t.jobs[j].node != ""
    {
      if j !in w.jobs {
        assert b.nodes[j - w.nextJob] in b.nodes;
      }
    }
  }

  lemma EnqueueKeepsQueue(w: World, run: Option<RunId>, group: nat, b: Batch)
    requires Fresh(w) && QueueOk(w) && HandOk(w) && NodesKnown(b)
    ensures var t := Enqueue(w, run, group, b);
            Fresh(t) && QueueOk(t) && HandOk(t) && Keeps(w.jobs, t.jobs)
  {
    var t := Enqueue(w, run, group, b);
    EnqueueIsFresh(w, run, group, b);
    IdsHas(w.nextJob, |b.rows|);
    DistinctConcat(w.queue, Ids(w.nextJob, |b.rows|));
    HandsBelow(w);
    forall j | j in t.queue
      ensures j in t.jobs && t.jobs[j].state.Pending? && j !in t.inHand && j !in t.checked
    {
      assert j in w.queue || j in Ids(w.nextJob, |b.rows|);
    }
    HandsStay(w, t, t.nextJob);
  }

  lemma SubmitKeeps(w: World, b: Batch)
    requires Inv(w) && NodesKnown(b)
    ensures Inv(Enqueue(w, None, 0, b)) && Keeps(w.jobs, Enqueue(w, None, 0, b).jobs)
  {
    var t := Enqueue(w, None, 0, b);
    EnqueueKeepsQueue(w, None, 0, b);
    RunsAreStable(w.jobs, t.jobs, w.runs);
    forall j | j in t.jobs && t.jobs[j].run.Some?
      ensures IsRecorded(t.jobs[j], j, t.runs)
    {
      assert j in w.jobs;
    }
  }

  /** Saving a good record of run `id`. */
  lemma SaveKeeps(w: World, id: RunId, run: Run)
    requires Fresh(w) && QueueOk(w) && HandOk(w) && ActiveOk(w)
    requires id < w.nextRun && RunOk(w.jobs, id, run)
    requires forall k :: k in w.runs && k != id ==> RunOk(w.jobs, k, w.runs[k])
    requires JobsFiled(w.jobs, w.runs[id := run])
    ensures Inv(SaveRun(w, id, run))
  {
  }

  lemma FiledUnderSameJobs(jobs: map<JobId, Job>, runs: map<RunId, Run>, id: RunId, run: Run)
    requires JobsFiled(jobs, runs) && id in runs && run.jobs == runs[id].jobs
    ensures JobsFiled(jobs, runs[id := run])
  {
    forall j | j in jobs && jobs[j].run.Some?
      ensures IsRecorded(jobs[j], j, runs[id := run])
    {
      assert IsRecorded(jobs[j], j, runs);
    }
  }

  // ----- cancelling a run -----

  lemma AbandonKeeps(w: World, id: RunId)
    requires Inv(w) && CancelIsClear(w, id)
    ensures Inv(CancelRun(w, id)) && Keeps(w.jobs, CancelRun(w, id).jobs)
  {
    if IsRunning(w, id) {
      var run := w.runs[id];
      var ids := MemberIds(run.jobs);
      var t := w.(jobs := CancelIn(w.jobs, ids), queue := Without(w.queue, PendingIn(w.jobs, ids)));
      WithoutHas(w.queue, PendingIn(w.jobs, ids));
      CancelKeeps(w, t, ids);
      var closed := run.(status := RunCancelled, pending := []);
      assert RunOk(t.jobs, id, run);
      forall i: nat | i < |closed.jobs|
        ensures GroupOk(t.jobs, id, closed, i)
      {
        assert GroupOk(t.jobs, id, run, i);
      }
      FiledUnderSameJobs(t.jobs, t.runs, id, closed);
      SaveKeeps(t, id, closed);
    }
  }

  // ----- a tick -----

  lemma IndexMoves(jobs: map<JobId, Job>, id: RunId, run: Run, k: nat)
    requires RunOk(jobs, id, run) && run.index <= k <= |run.jobs|
    requires forall m :: run.index <= m < k ==>
               Passed(jobs, run.settings.halt, run.jobs[m]) && (run.jobs[m] == [] ==> RowsAt(run, m) == [])
    ensures forall m: nat :: m < |run.jobs| ==> GroupOk(jobs, id, run.(index := k), m)
    ensures TargetsOk(jobs, run.(index := k))
  {
    forall m: nat | m < |run.jobs|
      ensures GroupOk(jobs, id, run.(index := k), m)
    {
      assert GroupOk(jobs, id, run, m);
    }
  }

  lemma EmptyGroupPasses(jobs: map<JobId, Job>, halt: bool, ids: seq<JobId>)
    requires ids == []
    ensures Passed(jobs, halt, ids)
  {
    assert States(jobs, ids) == [];
  }

  /** Whatever a tick decides without enqueueing leaves a good record. */
  lemma DecisionKeepsRun(jobs: map<JobId, Job>, id: RunId, run: Run)
    requires RunOk(jobs, id, run) && run.status.Running?
    ensures var d := Decide(jobs, run);
            (d.Close? ==> RunOk(jobs, id, run.(status := d.status, index := d.at))) &&
            (d.GoTo? ==> RunOk(jobs, id, run.(index := d.at)))
  {
    var i := FirstBusy(run, run.index);
    var d := Decide(jobs, run);
    if (d.Close? && d.status.RunCompleted?) || d.GoTo? {
      forall m | run.index <= m < d.at
        ensures Passed(jobs, run.settings.halt, run.jobs[m]) && (run.jobs[m] == [] ==> RowsAt(run, m) == [])
      {
        if m != i {
          EmptyGroupPasses(jobs, run.settings.halt, run.jobs[m]);
        }
      }
      IndexMoves(jobs, id, run, d.at);
    } else if d.Close? {
      IndexMoves(jobs, id, run, run.index);
      assert GroupOk(jobs, id, run, i);
    }
    assert d.Close? ==> forall m: nat :: m < |run.jobs| ==>
      (GroupOk(jobs, id, run.(index := d.at), m) ==> GroupOk(jobs, id, run.(status := d.status, index := d.at), m));
  }

  /** What the rest of the proof needs of a batch. */
  ghost predicate BatchFits(run: Run, at: nat, b: Batch) {
    && NodesKnown(b) && b.rows == RowsAt(run, at) != []
    && (run.settings.mode.Normal? ==> A.Increasing(b.vmids))
    && (run.settings.mode.Normal? ==> forall v :: v in b.vmids ==> A.LOWEST_VMID <= v && run.settings.vmidStart <= v)
    && (run.settings.mode.Normal? && run.nextVmid != 0 ==> forall v :: v in b.vmids ==> run.nextVmid <= v)
  }

  lemma BatchFitsRun(jobs: map<JobId, Job>, run: Run, at: nat, inUse: set<int>, b: Batch)
    requires RowsAt(run, at) != [] && TargetsOk(jobs, run)
    requires IsBatch(jobs, run.settings, StartVmid(run), RowsAt(run, at), inUse, b)
    ensures BatchFits(run, at, b)
  {
    BatchNodesKnown(jobs, run.settings, StartVmid(run), RowsAt(run, at), inUse, b);
    if run.settings.mode.Normal? {
      var start := StartVmid(run);
      forall v | v in b.vmids
        ensures A.ScanStart(start) <= v
      {
        assert v in A.Elements(b.vmids);
      }
    }
  }

  lemma {:induction false} PlacedAppend(jobs: map<JobId, Job>, groups: seq<seq<JobId>>, at: nat, ids: seq<JobId>)
    requires at < |groups| && forall k :: at <= k < |groups| ==> groups[k] == []
    ensures Placed(jobs, groups[at := ids]) == Placed(jobs, groups) + TargetsOf(jobs, ids)
  {
    var n := |groups| - 1;
    assert TargetsOf(jobs, []) == [];
    if at == n {
      assert groups[at := ids][..n] == groups[..n];
    } else {
      PlacedAppend(jobs, groups[..n], at, ids);
      assert groups[at := ids][..n] == groups[..n][at := ids];
    }
  }

  lemma {:induction false} LargestIsLast(targets: seq<Target>)
    requires Ascending(targets) && forall t :: t in targets ==> t.vmid > 0
    ensures Largest(targets) == if targets == [] then None else Some(targets[|targets| - 1].vmid)
  {
    if targets != [] {
      var n := |targets| - 1;
      LargestIsLast(targets[..n]);
      assert targets[n] in targets;
    }
  }

  lemma AscendingConcat(a: seq<Target>, b: seq<Target>, low: int)
    requires Ascending(a) && Ascending(b)
    requires forall t :: t in a ==> t.vmid < low
    requires a != [] ==> forall t :: t in b ==> low <= t.vmid
    ensures Ascending(a + b)
  {
    forall i, k | 0 <= i < k < |a + b|
      ensures (a + b)[i].vmid < (a + b)[k].vmid
    {
      if i < |a| <= k {
        assert a[i] in a && b[k - |a|] in b;
      }
    }
  }

  lemma ZipAscends(vmids: seq<int>, nodes: seq<string>)
    requires |vmids| == |nodes| && A.Increasing(vmids)
    ensures Ascending(Zip(vmids, nodes))
    ensures forall t :: t in Zip(vmids, nodes) ==> t.vmid in vmids
  {
  }

  lemma LastIsMost(targets: seq<Target>, x: Target)
    requires Ascending(targets) && x in targets
    ensures x.vmid <= targets[|targets| - 1].vmid
  {
    var i :| 0 <= i < |targets| && targets[i] == x;
  }

  lemma TargetsGrow(run: Run, at: nat, b: Batch)
    requires BatchFits(run, at, b) && run.settings.mode.Normal?
    requires Ascending(run.targets) && AreAbove(run.targets, run.settings.vmidStart, run.nextVmid)
    requires run.nextVmid != 0 ==> run.settings.vmidStart <= run.nextVmid
    ensures var t := RecordTargets(run, b);
            Ascending(t.targets) && AreAbove(t.targets, run.settings.vmidStart, t.nextVmid) &&
            run.settings.vmidStart <= t.nextVmid
  {
    var zip := Zip(b.vmids, b.nodes);
    var t := RecordTargets(run, b);
    ZipAscends(b.vmids, b.nodes);
    if run.targets != [] {
      assert run.targets[0] in run.targets;
    }
    AscendingConcat(run.targets, zip, run.nextVmid);
    forall x | x in t.targets
      ensures A.LOWEST_VMID <= x.vmid && run.settings.vmidStart <= x.vmid
    {
      assert x in run.targets || x in zip;
    }
    LargestIsLast(t.targets);
    assert t.targets[|t.targets| - 1] in t.targets;
    forall x | x in t.targets
      ensures x.vmid < t.nextVmid
    {
      LastIsMost(t.targets, x);
    }
  }

  /** The record a tick saves after enqueueing group `at`. */
  function Listed(w: World, run: Run, at: nat, b: Batch): Run
    requires IsMatched(b) && at < |run.jobs|
  {
    RecordTargets(run.(jobs := run.jobs[at := Ids(w.nextJob, |b.rows|)], index := at), b)
  }

  lemma NewTargets(w: World, run: Option<RunId>, at: nat, b: Batch)
    requires IsMatched(b)
    ensures TargetsOf(Enqueue(w, run, at, b).jobs, Ids(w.nextJob, |b.rows|)) == Zip(b.vmids, b.nodes)
  {
    var t, ids := Enqueue(w, run, at, b), Ids(w.nextJob, |b.rows|);
    forall i | 0 <= i < |ids|
      ensures TargetsOf(t.jobs, ids)[i] == Zip(b.vmids, b.nodes)[i]
    {
      assert ids[i] in ids;
    }
  }

  lemma NewSources(w: World, run: Option<RunId>, at: nat, b: Batch)
    requires IsMatched(b)
    ensures SourcesOf(Enqueue(w, run, at, b).jobs, Ids(w.nextJob, |b.rows|)) == b.rows
  {
    var t, ids := Enqueue(w, run, at, b), Ids(w.nextJob, |b.rows|);
    forall i | 0 <= i < |ids|
      ensures SourcesOf(t.jobs, ids)[i] == b.rows[i]
    {
      assert ids[i] in ids;
    }
  }

  lemma ListedTargets(w: World, id: RunId, run: Run, at: nat, b: Batch)
    requires Fresh(w) && RunOk(w.jobs, id, run) && BatchFits(run, at, b)
    requires at < |run.jobs| && forall k :: at <= k < |run.jobs| ==> run.jobs[k] == []
    ensures TargetsOk(Enqueue(w, Some(id), at, b).jobs, Listed(w, run, at, b))
  {
    var t := Enqueue(w, Some(id), at, b);
    IdsHas(w.nextJob, |b.rows|);
    RunIsStable(w.jobs, t.jobs, id, run);
    NewTargets(w, Some(id), at, b);
    PlacedAppend(t.jobs, run.jobs, at, Ids(w.nextJob, |b.rows|));
    if run.settings.mode.Normal? {
      TargetsGrow(run, at, b);
    }
  }

  lemma ListedGroup(w: World, id: RunId, run: Run, at: nat, b: Batch, i: nat)
    requires Fresh(w) && RunOk(w.jobs, id, run) && BatchFits(run, at, b)
    requires run.index <= at < |run.jobs| && i < |run.jobs|
    requires forall k :: run.index <= k < |run.jobs| ==> run.jobs[k] == []
    requires forall k :: run.index <= k < at ==> RowsAt(run, k) == []
    ensures GroupOk(Enqueue(w, Some(id), at, b).jobs, id, Listed(w, run, at, b), i)
  {
    var t := Enqueue(w, Some(id), at, b);
    IdsHas(w.nextJob, |b.rows|);
    GroupIsStable(w.jobs, t.jobs, id, run, i);
    NewSources(w, Some(id), at, b);
    if run.index <= i < at {
      assert RowsAt(run, i) == [];
      EmptyGroupPasses(t.jobs, run.settings.halt, run.jobs[i]);
    }
  }

  lemma ListedIsOk(w: World, id: RunId, run: Run, at: nat, b: Batch)
    requires Fresh(w) && RunOk(w.jobs, id, run) && BatchFits(run, at, b) && run.status.Running?
    requires run.index <= at < |run.jobs|
    requires forall k :: run.index <= k < |run.jobs| ==> run.jobs[k] == []
    requires forall k :: run.index <= k < at ==> RowsAt(run, k) == []
    ensures RunOk(Enqueue(w, Some(id), at, b).jobs, id, Listed(w, run, at, b))
  {
    ListedTargets(w, id, run, at, b);
    forall i: nat | i < |run.jobs|
      ensures GroupOk(Enqueue(w, Some(id), at, b).jobs, id, Listed(w, run, at, b), i)
    {
      ListedGroup(w, id, run, at, b, i);
    }
  }

  /** Enqueueing a group for run `id` and saving its new record. */
  lemma ListedKeeps(w: World, id: RunId, run: Run, at: nat, b: Batch, saved: Run)
    requires Fresh(w) && QueueOk(w) && HandOk(w) && ActiveOk(w) && id < w.nextRun
    requires RunsOk(w.jobs, w.runs) && JobsFiled(w.jobs, w.runs)
    requires NodesKnown(b) && RunOk(Enqueue(w, Some(id), at, b).jobs, id, saved)
    requires at < |run.jobs| && run.jobs[at] == [] && saved.jobs == run.jobs[at := Ids(w.nextJob, |b.rows|)]
    requires id in w.runs ==> w.runs[id].jobs == run.jobs
    ensures Inv(SaveRun(Enqueue(w, Some(id), at, b), id, saved))
    ensures Keeps(w.jobs, Enqueue(w, Some(id), at, b).jobs)
  {
    var t := Enqueue(w, Some(id), at, b);
    EnqueueKeepsQueue(w, Some(id), at, b);
    RunsAreStable(w.jobs, t.jobs, w.runs);
    IdsHas(w.nextJob, |b.rows|);
    forall j | j in t.jobs && t.jobs[j].run.Some?
      ensures IsRecorded(t.jobs[j], j, t.runs[id := saved])
    {
      if j in w.jobs {
        assert IsRecorded(w.jobs[j], j, w.runs);
      }
    }
    SaveKeeps(t, id, saved);
  }

  lemma MovedKeeps(w: World, id: RunId, next: Run)
    requires Inv(w) && id in w.runs && RunOk(w.jobs, id, next) && next.jobs == w.runs[id].jobs
    ensures Inv(SaveRun(w, id, next))
  {
    FiledUnderSameJobs(w.jobs, w.runs, id, next);
    SaveKeeps(w, id, next);
  }

  lemma NextGroupKeeps(w: World, id: RunId, at: nat, inUse: set<int>, b: Batch)
    requires Inv(w) && IsRunning(w, id) && Decide(w.jobs, w.runs[id]) == EnqueueGroup(at)
    requires IsBatch(w.jobs, w.runs[id].settings, StartVmid(w.runs[id]), RowsAt(w.runs[id], at), inUse, b)
    ensures var t := Advance(w, id, Some(b));
            Inv(t) && Keeps(w.jobs, t.jobs)
  {
    var run := w.runs[id];
    assert RunOk(w.jobs, id, run);
    BatchFitsRun(w.jobs, run, at, inUse, b);
    LaterGroupsEmpty(w.jobs, id, run, at);
    ListedIsOk(w, id, run, at, b);
    ListedKeeps(w, id, run, at, b, Listed(w, run, at, b));
  }

  lemma TickKeeps(w: World, id: RunId, inUse: set<int>, batch: Option<Batch>)
    requires Inv(w) && AdvanceBatchOk(w, id, inUse, batch)
    ensures Inv(Advance(w, id, batch)) && Keeps(w.jobs, Advance(w, id, batch).jobs)
  {
    if IsRunning(w, id) {
      var run := w.runs[id];
      assert RunOk(w.jobs, id, run);
      DecisionKeepsRun(w.jobs, id, run);
      match Decide(w.jobs, run)
      case Wait =>
      case Close(status, at) => MovedKeeps(w, id, run.(status := status, index := at));
      case GoTo(at) => MovedKeeps(w, id, run.(index := at));
      case EnqueueGroup(at) => if batch.Some? { NextGroupKeeps(w, id, at, inUse, batch.value); }
    }
  }

  lemma LaterGroupsEmpty(jobs: map<JobId, Job>, id: RunId, run: Run, at: nat)
    requires RunOk(jobs, id, run) && Decide(jobs, run) == EnqueueGroup(at)
    ensures run.index <= at < |run.jobs|
    ensures forall k :: run.index <= k < |run.jobs| ==> run.jobs[k] == []
    ensures forall k :: run.index <= k < at ==> RowsAt(run, k) == []
  {
    forall k | run.index <= k < |run.jobs|
      ensures run.jobs[k] == []
    {
      assert GroupOk(jobs, id, run, k);
    }
  }

  lemma {:induction false} PlacedNothing(jobs: map<JobId, Job>, groups: seq<seq<JobId>>)
    requires forall i :: 0 <= i < |groups| ==> groups[i] == []
    ensures Placed(jobs, groups) == []
  {
    if groups != [] {
      PlacedNothing(jobs, groups[..|groups| - 1]);
      assert TargetsOf(jobs, groups[|groups| - 1]) == [];
    }
  }

  /** A new record, with its rows or without. */
  lemma ShellIsOk(jobs: map<JobId, Job>, id: RunId, s: Settings, rows: seq<seq<int>>, pending: seq<seq<int>>)
    requires HasRows(rows) && (pending == [] || pending == rows)
    ensures RunOk(jobs, id, Shell(s, |rows|, FirstGroup(rows)).(pending := pending))
  {
    var run := Shell(s, |rows|, FirstGroup(rows)).(pending := pending);
    PlacedNothing(jobs, run.jobs);
    forall i: nat | i < |run.jobs|
      ensures GroupOk(jobs, id, run, i)
    {
      EmptyGroupPasses(jobs, s.halt, run.jobs[i]);
    }
  }

  lemma StartBatchFits(jobs: map<JobId, Job>, s: Settings, rows: seq<seq<int>>, inUse: set<int>, b: Batch)
    requires HasRows(rows) && IsBatch(jobs, s, s.vmidStart, rows[FirstGroup(rows)], inUse, b)
    ensures BatchFits(Shell(s, |rows|, FirstGroup(rows)).(pending := rows), FirstGroup(rows), b)
  {
    BatchNodesKnown(jobs, s, s.vmidStart, rows[FirstGroup(rows)], inUse, b);
    if s.mode.Normal? {
      forall v | v in b.vmids
        ensures A.ScanStart(s.vmidStart) <= v
      {
        assert v in A.Elements(b.vmids);
      }
    }
  }

  lemma NumberKeeps(w: World)
    requires Inv(w)
    ensures Inv(w.(nextRun := w.nextRun + 1))
  {
    var t := w.(nextRun := w.nextRun + 1);
    assert QueueOk(t) && HandOk(t);
    assert forall id :: IsRunning(t, id) <==> IsRunning(w, id);
  }

  /** The world once the shell of a new run is saved. */
  function ShellSaved(w: World, s: Settings, rows: seq<seq<int>>): World
    requires HasRows(rows)
  {
    SaveRun(w.(nextRun := w.nextRun + 1), w.nextRun, Shell(s, |rows|, FirstGroup(rows)))
  }

  lemma ShellKeeps(w: World, s: Settings, rows: seq<seq<int>>)
    requires Inv(w) && HasRows(rows)
    ensures Inv(ShellSaved(w, s, rows))
  {
    var id, shell := w.nextRun, Shell(s, |rows|, FirstGroup(rows));
    ShellIsOk(w.jobs, id, s, rows, []);
    assert shell.(pending := []) == shell;
    FiledWithNewRun(w, shell);
    NumberKeeps(w);
    SaveKeeps(w.(nextRun := id + 1), id, shell);
  }

  /** The record a successful start saves last. */
  function Started(run: Run, vmidStart: int): Run {
    if run.nextVmid == 0 then run.(nextVmid := vmidStart) else run
  }

  lemma StartedKeeps(w: World, saved: World, s: Settings, rows: seq<seq<int>>, inUse: set<int>, b: Batch)
    requires HasRows(rows) && IsBatch(w.jobs, s, s.vmidStart, rows[FirstGroup(rows)], inUse, b)
    requires Inv(saved) && saved == ShellSaved(w, s, rows)
    ensures var at := FirstGroup(rows);
            var listed := Listed(saved, Shell(s, |rows|, at).(pending := rows), at, b);
            var t := SaveRun(Enqueue(saved, Some(w.nextRun), at, b), w.nextRun, Started(listed, s.vmidStart));
            Inv(t) && Keeps(w.jobs, t.jobs)
  {
    var id, at := w.nextRun, FirstGroup(rows);
    var run := Shell(s, |rows|, at).(pending := rows);
    ShellIsOk(w.jobs, id, s, rows, rows);
    StartBatchFits(w.jobs, s, rows, inUse, b);
    ListedIsOk(saved, id, run, at, b);
    var listed := Listed(saved, run, at, b);
    StartedIsOk(Enqueue(saved, Some(id), at, b).jobs, id, listed, s.vmidStart);
    ListedKeeps(saved, id, run, at, b, Started(listed, s.vmidStart));
  }

  lemma StartIsTwoSaves(w: World, s: Settings, rows: seq<seq<int>>, b: Batch)
    requires HasRows(rows) && IsMatched(b)
    ensures var at, saved := FirstGroup(rows), ShellSaved(w, s, rows);
            var listed := Listed(saved, Shell(s, |rows|, at).(pending := rows), at, b);
            StartRun(w, s, rows, Some(b)) ==
            SaveRun(Enqueue(saved, Some(w.nextRun), at, b), w.nextRun, Started(listed, s.vmidStart))
  {
  }

  lemma LaunchKeeps(w: World, s: Settings, rows: seq<seq<int>>, inUse: set<int>, batch: Option<Batch>)
    requires Inv(w) && Enabled(w, Launch(s, rows, inUse, batch))
    ensures Inv(StartRun(w, s, rows, batch)) && Keeps(w.jobs, StartRun(w, s, rows, batch).jobs)
  {
    ShellKeeps(w, s, rows);
    match batch
    case None => assert StartRun(w, s, rows, None) == ShellSaved(w, s, rows);
    case Some(b) =>
      StartIsTwoSaves(w, s, rows, b);
      StartedKeeps(w, ShellSaved(w, s, rows), s, rows, inUse, b);
  }

  lemma FiledWithNewRun(w: World, run: Run)
    requires Inv(w)
    ensures JobsFiled(w.jobs, w.runs[w.nextRun := run])
  {
    forall j | j in w.jobs && w.jobs[j].run.Some?
      ensures IsRecorded(w.jobs[j], j, w.runs[w.nextRun := run])
    {
      assert IsRecorded(w.jobs[j], j, w.runs);
    }
  }

  lemma StartedIsOk(jobs: map<JobId, Job>, id: RunId, run: Run, start: int)
    requires RunOk(jobs, id, run) && start == run.settings.vmidStart
    ensures RunOk(jobs, id, Started(run, start))
  {
    if run.nextVmid == 0 {
      var started := run.(nextVmid := start);
      forall i: nat | i < |run.jobs|
        ensures GroupOk(jobs, id, started, i)
      {
        assert GroupOk(jobs, id, run, i);
      }
    }
  }

  /** Every enabled step keeps the invariant, and jobs only move forward. */
  lemma StepKeeps(w: World, e: Event)
    requires Inv(w) && Enabled(w, e)
    ensures Inv(Apply(w, e)) && Keeps(w.jobs, Apply(w, e).jobs)
  {
    match e
    case Launch(s, groups, inUse, batch) => LaunchKeeps(w, s, groups, inUse, batch);
    case Tick(id, inUse, batch) => TickKeeps(w, id, inUse, batch);
    case Abandon(id) => AbandonKeeps(w, id);
    case Submit(s, rows, inUse, b) =>
      BatchNodesKnown(w.jobs, s, s.vmidStart, rows, inUse, b);
      SubmitKeeps(w, b);
    case Stop(j) => StopKeeps(w, j);
    case Sweep => SweepKeeps(w);
    case Take => TakeKeeps(w);
    case Check(j) => CheckKeeps(w, j);
    case Write(j, ok) => WriteKeeps(w, j, ok);
    case Settle(j, outcome) => SettleKeeps(w, j, outcome);
    case SetPaused(on) => assert Inv(Apply(w, e));
  }
}
