/** What holds of plan runs in every reachable state, and that nothing is undone. */
module PlanRunTheorems {
  import opened Wrappers
  import opened Sets
  import opened PlanRuns
  import opened PlanRunSafety

  /** The state after some trace of enabled steps from an empty store. */
  ghost predicate Reached(trace: seq<Event>, w: World) {
    Execute(EMPTY, trace) == Some(w)
  }

  lemma {:induction false} ExecuteKeeps(w: World, trace: seq<Event>, t: World)
    requires Inv(w) && Execute(w, trace) == Some(t)
    ensures Inv(t) && Keeps(w.jobs, t.jobs)
  {
    if trace != [] {
      var mid := Execute(w, trace[..|trace| - 1]).value;
      ExecuteKeeps(w, trace[..|trace| - 1], mid);
      StepKeeps(mid, trace[|trace| - 1]);
    }
  }

  lemma ReachedIsGood(trace: seq<Event>, w: World)
    requires Reached(trace, w)
    ensures Inv(w)
  {
    ExecuteKeeps(EMPTY, trace, w);
  }

  // ----- the group barrier -----

  ghost predicate InGroup(w: World, j: JobId, id: RunId, i: nat) {
    j in w.jobs && w.jobs[j].run == Some(id) && w.jobs[j].group == i
  }

  /** If a job of group `k` of a run exists, every job of every earlier group is terminal, and none of those
      failed if the run halts on errors. */
  lemma GroupBarrier(trace: seq<Event>, w: World, id: RunId, a: JobId, i: nat, b: JobId, k: nat)
    requires Reached(trace, w)
    requires InGroup(w, a, id, i) && InGroup(w, b, id, k) && i < k
    ensures IsTerminal(w.jobs[a].state)
    ensures id in w.runs && (w.runs[id].settings.halt ==> !w.jobs[a].state.Failed?)
  {
    ReachedIsGood(trace, w);
    assert IsRecorded(w.jobs[a], a, w.runs) && IsRecorded(w.jobs[b], b, w.runs);
    var run := w.runs[id];
    assert RunOk(w.jobs, id, run) && GroupOk(w.jobs, id, run, i) && GroupOk(w.jobs, id, run, k);
    InStates(w.jobs, run.jobs[i], a);
  }

  lemma InStates(jobs: map<JobId, Job>, ids: seq<JobId>, j: JobId)
    requires j in ids
    ensures StateOf(jobs, j) in States(jobs, ids)
  {
    var p :| 0 <= p < |ids| && ids[p] == j;
    assert States(jobs, ids)[p] == StateOf(jobs, j);
  }

  lemma OfStates(jobs: map<JobId, Job>, ids: seq<JobId>, s: JobState) returns (j: JobId)
    requires s in States(jobs, ids)
    ensures j in ids && StateOf(jobs, j) == s
  {
    var p :| 0 <= p < |ids| && States(jobs, ids)[p] == s;
    j := ids[p];
  }

  // ----- every group is enqueued at most once -----

  function JobsInGroup(jobs: map<JobId, Job>, id: RunId, i: nat): set<JobId> {
    set j | j in jobs && jobs[j].run == Some(id) && jobs[j].group == i
  }

  lemma {:induction false} DistinctSize(ids: seq<JobId>)
    requires Distinct(ids)
    ensures |ElementsOf(ids)| == |ids|
  {
    if ids != [] {
      var n := |ids| - 1;
      DistinctSize(ids[..n]);
      assert ElementsOf(ids) == ElementsOf(ids[..n]) + {ids[n]};
      assert ids[n] !in ElementsOf(ids[..n]);
    }
  }

  /** In a good state, so in every reachable one: the jobs ever created for a group of a run are exactly those
      its record lists, each once; while the run keeps its rows there are none, or one for each row in order. */
  lemma GroupEnqueuedOnce(w: World, id: RunId, i: nat)
    requires Inv(w) && id in w.runs && i < |w.runs[id].jobs|
    ensures var run := w.runs[id];
            Distinct(run.jobs[i]) && JobsInGroup(w.jobs, id, i) == ElementsOf(run.jobs[i]) &&
            |JobsInGroup(w.jobs, id, i)| == |run.jobs[i]|
    ensures var run := w.runs[id];
            run.pending != [] && JobsInGroup(w.jobs, id, i) != {} ==>
              |run.pending| == |run.jobs| && SourcesOf(w.jobs, run.jobs[i]) == run.pending[i]
  {
    var run := w.runs[id];
    assert RunOk(w.jobs, id, run) && GroupOk(w.jobs, id, run, i);
    forall j | j in JobsInGroup(w.jobs, id, i)
      ensures j in run.jobs[i]
    {
      assert IsRecorded(w.jobs[j], j, w.runs);
    }
    assert forall j :: j in run.jobs[i] ==> IsFiled(w.jobs, id, i, j);
    assert JobsInGroup(w.jobs, id, i) == ElementsOf(run.jobs[i]);
    DistinctSize(run.jobs[i]);
  }

  // ----- what COMPLETED means -----

  /** The jobs of group `i` restore the given rows, one each in order, and ended well enough. */
  ghost predicate GroupDone(w: World, id: RunId, i: nat, halt: bool, rows: seq<int>) {
    && id in w.runs && i < |w.runs[id].jobs|
    && var ids := w.runs[id].jobs[i];
    && Distinct(ids) && JobsInGroup(w.jobs, id, i) == ElementsOf(ids)
    && SourcesOf(w.jobs, ids) == rows
    && (forall j :: j in ids ==> IsTerminal(StateOf(w.jobs, j)))
    && (halt ==> forall j :: j in ids ==> !StateOf(w.jobs, j).Failed?)
    && (halt && rows != [] ==> exists j :: j in ids && StateOf(w.jobs, j).Completed?)
  }

  /** A COMPLETED record that kept its rows. */
  lemma CompletedRecordIsDone(w: World, id: RunId, i: nat)
    requires Inv(w) && id in w.runs && w.runs[id].status.RunCompleted?
    requires w.runs[id].pending != [] && i < |w.runs[id].jobs|
    ensures |w.runs[id].pending| == |w.runs[id].jobs|
    ensures GroupDone(w, id, i, w.runs[id].settings.halt, w.runs[id].pending[i])
  {
    var run := w.runs[id];
    GroupEnqueuedOnce(w, id, i);
    assert RunOk(w.jobs, id, run) && GroupOk(w.jobs, id, run, i);
    forall j | j in run.jobs[i]
      ensures IsTerminal(StateOf(w.jobs, j)) && (run.settings.halt ==> !StateOf(w.jobs, j).Failed?)
    {
      InStates(w.jobs, run.jobs[i], j);
    }
    if run.jobs[i] == [] {
      assert SourcesOf(w.jobs, run.jobs[i]) == [];
    } else if run.settings.halt {
      InStates(w.jobs, run.jobs[i], run.jobs[i][0]);
      var j := OfStates(w.jobs, run.jobs[i], Completed);
    }
  }

  lemma StartKeepsRows(w: World, s: Settings, rows: seq<seq<int>>, b: Batch)
    requires HasRows(rows) && IsMatched(b)
    ensures var t := StartRun(w, s, rows, Some(b));
            w.nextRun in t.runs &&
            var run := t.runs[w.nextRun];
            run.pending == rows && |run.jobs| == |rows| && run.settings == s
  {
  }

  /** Once a start has succeeded and the run is COMPLETED, whatever happened in between, every group of rows the
      start was given has been restored by one terminal job per row, none of them FAILED and, for a non-empty
      group, one of them COMPLETED if the plan halts on errors. */
  lemma CompletedMeansDone(before: seq<Event>, w: World, s: Settings, rows: seq<seq<int>>, inUse: set<int>, b: Batch,
                           trace: seq<Event>, t: World, i: nat)
    requires Reached(before, w) && Enabled(w, Launch(s, rows, inUse, Some(b)))
    requires Execute(StartRun(w, s, rows, Some(b)), trace) == Some(t)
    requires w.nextRun in t.runs && t.runs[w.nextRun].status.RunCompleted? && i < |rows|
    ensures GroupDone(t, w.nextRun, i, s.halt, rows[i])
  {
    var started := StartRun(w, s, rows, Some(b));
    ReachedIsGood(before, w);
    LaunchKeeps(w, s, rows, inUse, Some(b));
    StartKeepsRows(w, s, rows, b);
    NothingIsUndone(started, trace, t);
    ExecuteKeeps(started, trace, t);
    assert RunLater(started.runs[w.nextRun], t.runs[w.nextRun]);
    CompletedRecordIsDone(t, w.nextRun, i);
  }

  /** A FAILED run halts on errors, has a failed job, and none of its jobs is still open. */
  lemma FailedMeansHalted(trace: seq<Event>, w: World, id: RunId)
    requires Reached(trace, w) && id in w.runs && w.runs[id].status.RunFailed?
    ensures w.runs[id].settings.halt
    ensures exists j :: j in w.jobs && w.jobs[j].run == Some(id) && w.jobs[j].state.Failed?
    ensures forall j :: j in w.jobs && w.jobs[j].run == Some(id) ==> IsTerminal(w.jobs[j].state)
  {
    ReachedIsGood(trace, w);
    var run := w.runs[id];
    assert RunOk(w.jobs, id, run) && GroupOk(w.jobs, id, run, run.index);
    var f := OfStates(w.jobs, run.jobs[run.index], Failed);
    assert w.jobs[f].run == Some(id) && w.jobs[f].state.Failed?;
    forall j | j in w.jobs && w.jobs[j].run == Some(id)
      ensures IsTerminal(w.jobs[j].state)
    {
      assert IsRecorded(w.jobs[j], j, w.runs) && GroupOk(w.jobs, id, run, w.jobs[j].group);
      InStates(w.jobs, run.jobs[w.jobs[j].group], j);
    }
  }

  // ----- VMIDs of one run -----

  function Offset(groups: seq<seq<JobId>>, i: nat): nat
    requires i <= |groups|
  {
    if i == 0 then 0 else Offset(groups, i - 1) + |groups[i - 1]|
  }

  lemma {:induction false} OffsetOfPrefix(groups: seq<seq<JobId>>, n: nat, i: nat)
    requires i <= n <= |groups|
    ensures Offset(groups[..n], i) == Offset(groups, i)
  {
    if i > 0 {
      OffsetOfPrefix(groups, n, i - 1);
    }
  }

  lemma {:induction false} OffsetGrows(groups: seq<seq<JobId>>, i: nat, k: nat)
    requires i < k <= |groups|
    ensures Offset(groups, i) + |groups[i]| <= Offset(groups, k)
    decreases k
  {
    if i < k - 1 {
      OffsetGrows(groups, i, k - 1);
    }
  }

  /** Where the job at position `p` of group `i` stands among the targets. */
  lemma {:induction false} PlacedAt(jobs: map<JobId, Job>, groups: seq<seq<JobId>>, i: nat, p: nat)
    requires i < |groups| && p < |groups[i]| && groups[i][p] in jobs
    ensures Offset(groups, i) + p < |Placed(jobs, groups)| == Offset(groups, |groups|)
    ensures Placed(jobs, groups)[Offset(groups, i) + p].vmid == jobs[groups[i][p]].vmid
  {
    var n := |groups| - 1;
    PlacedSize(jobs, groups);
    OffsetGrows(groups, i, |groups|);
    if i < n {
      PlacedAt(jobs, groups[..n], i, p);
      OffsetOfPrefix(groups, n, i);
    } else {
      PlacedSize(jobs, groups[..n]);
      OffsetOfPrefix(groups, n, n);
    }
  }

  lemma {:induction false} PlacedSize(jobs: map<JobId, Job>, groups: seq<seq<JobId>>)
    ensures |Placed(jobs, groups)| == Offset(groups, |groups|)
  {
    if groups != [] {
      var n := |groups| - 1;
      PlacedSize(jobs, groups[..n]);
      OffsetOfPrefix(groups, n, n);
    }
  }

  /** The targets a run recorded are the VMIDs and nodes of its jobs, group by group, none missing. */
  lemma RecordedTargetsAreJobs(trace: seq<Event>, w: World, id: RunId)
    requires Reached(trace, w) && id in w.runs
    ensures w.runs[id].targets == Placed(w.jobs, w.runs[id].jobs)
    ensures forall j :: j in w.jobs && w.jobs[j].run == Some(id) ==>
              exists t :: t in w.runs[id].targets && t.vmid == w.jobs[j].vmid
  {
    ReachedIsGood(trace, w);
    var run := w.runs[id];
    assert RunOk(w.jobs, id, run);
    forall j | j in w.jobs && w.jobs[j].run == Some(id)
      ensures exists t :: t in run.targets && t.vmid == w.jobs[j].vmid
    {
      var i := w.jobs[j].group;
      assert IsRecorded(w.jobs[j], j, w.runs);
      var p :| 0 <= p < |run.jobs[i]| && run.jobs[i][p] == j;
      PlacedAt(w.jobs, run.jobs, i, p);
      assert run.targets[Offset(run.jobs, i) + p] in run.targets;
    }
  }

  /** In normal mode the jobs of a run have distinct VMIDs, from 100 and from the plan's start up, and those of a later
      group are greater, whatever the cluster did between the groups. */
  lemma RunVmidsAreFresh(trace: seq<Event>, w: World, id: RunId, a: JobId, i: nat, b: JobId, k: nat)
    requires Reached(trace, w) && id in w.runs && w.runs[id].settings.mode.Normal?
    requires InGroup(w, a, id, i) && InGroup(w, b, id, k) && i <= k && a != b
    ensures w.jobs[a].vmid != w.jobs[b].vmid
    ensures i < k ==> w.jobs[a].vmid < w.jobs[b].vmid
    ensures w.jobs[a].vmid >= 100 && w.jobs[a].vmid >= w.runs[id].settings.vmidStart
  {
    RecordedTargetsAreJobs(trace, w, id);
    ReachedIsGood(trace, w);
    assert IsRecorded(w.jobs[a], a, w.runs) && IsRecorded(w.jobs[b], b, w.runs);
    assert RunOk(w.jobs, id, w.runs[id]);
    PlacedInOrder(w.jobs, w.runs[id].jobs, i, a, k, b);
  }

  lemma PlacedInOrder(jobs: map<JobId, Job>, groups: seq<seq<JobId>>, i: nat, a: JobId, k: nat, b: JobId)
    requires Ascending(Placed(jobs, groups)) && i <= k < |groups| && a != b
    requires a in groups[i] && b in groups[k] && a in jobs && b in jobs
    ensures jobs[a].vmid != jobs[b].vmid && (i < k ==> jobs[a].vmid < jobs[b].vmid)
  {
    var p :| 0 <= p < |groups[i]| && groups[i][p] == a;
    var q :| 0 <= q < |groups[k]| && groups[k][q] == b;
    PlacedAt(jobs, groups, i, p);
    PlacedAt(jobs, groups, k, q);
    if i < k {
      OffsetGrows(groups, i, k);
    }
  }

  /** The active set is exactly the RUNNING runs, in every reachable state. */
  lemma ActiveIsRunning(trace: seq<Event>, w: World, id: RunId)
    requires Reached(trace, w)
    ensures id in w.active <==> (id in w.runs && w.runs[id].status.Running?)
  {
    ReachedIsGood(trace, w);
  }

  /** Queue entries are distinct PENDING jobs; a PENDING job is queued or in a worker's hand. */
  lemma QueueCoherent(trace: seq<Event>, w: World)
    requires Reached(trace, w)
    ensures Distinct(w.queue)
    ensures forall j :: j in w.queue ==> j in w.jobs && w.jobs[j].state.Pending? && j !in w.inHand && j !in w.checked
    ensures forall j :: j in w.jobs && w.jobs[j].state.Pending? ==> j in w.queue || j in w.inHand || j in w.checked
  {
    ReachedIsGood(trace, w);
  }

  // ----- nothing is undone -----

  /** A closed run is frozen; an open one keeps its rows until cancelled, and the groups, targets and progress it
      has. */
  ghost predicate RunLater(a: Run, b: Run) {
    && (!a.status.Running? ==> b == a)
    && b.settings == a.settings
    && (b.status.RunCancelled? || b.pending == a.pending)
    && a.index <= b.index
    && a.targets <= b.targets
    && |b.jobs| == |a.jobs|
    && (forall i :: 0 <= i < |a.jobs| && a.jobs[i] != [] ==> b.jobs[i] == a.jobs[i])
  }

  /** A job created meanwhile for a run that existed: the run was RUNNING and the group had no jobs. */
  ghost predicate NewJobOk(w: World, job: Job) {
    job.run.Some? && job.run.value in w.runs ==>
      var run := w.runs[job.run.value];
      run.status.Running? && job.group < |run.jobs| && run.jobs[job.group] == []
  }

  ghost predicate Later(w: World, t: World) {
    && Keeps(w.jobs, t.jobs)
    && (forall id :: id in w.runs ==> id in t.runs && RunLater(w.runs[id], t.runs[id]))
    && (forall j :: j in t.jobs && j !in w.jobs ==> NewJobOk(w, t.jobs[j]))
  }

  /** Steps that create no job and change at most the record of one RUNNING run. */
  lemma SavedIsLater(w: World, t: World, id: RunId)
    requires Keeps(w.jobs, t.jobs) && t.jobs.Keys == w.jobs.Keys
    requires t.runs == w.runs || (IsRunning(w, id) && id in t.runs && t.runs == w.runs[id := t.runs[id]])
    requires t.runs != w.runs ==> RunLater(w.runs[id], t.runs[id])
    ensures Later(w, t)
  {
  }

  /** Steps that enqueue jobs, for no run, a new one, or an empty group of one RUNNING run. */
  lemma EnqueuedIsLater(w: World, t: World, run: Option<RunId>, group: nat, b: Batch)
    requires IsMatched(b) && Keeps(w.jobs, t.jobs)
    requires t.jobs == w.jobs + NewJobs(w.nextJob, run, group, b)
    requires forall id :: id in w.runs ==> id in t.runs && RunLater(w.runs[id], t.runs[id])
    requires run.Some? && run.value in w.runs ==>
               w.runs[run.value].status.Running? && group < |w.runs[run.value].jobs| && w.runs[run.value].jobs[group] == []
    ensures Later(w, t)
  {
    forall j | j in t.jobs && j !in w.jobs
      ensures NewJobOk(w, t.jobs[j])
    {
      assert j in Ids(w.nextJob, |b.rows|);
    }
  }

  lemma DecisionIsLater(w: World, id: RunId, next: Run)
    requires IsRunning(w, id) && |next.jobs| == |w.runs[id].jobs| && w.runs[id].index <= next.index
    requires next.(status := Running, index := w.runs[id].index) == w.runs[id]
    ensures Later(w, SaveRun(w, id, next))
  {
    SavedIsLater(w, SaveRun(w, id, next), id);
  }

  lemma ListedIsLater(w: World, id: RunId, at: nat, b: Batch)
    requires Inv(w) && IsRunning(w, id) && IsMatched(b)
    requires Decide(w.jobs, w.runs[id]) == EnqueueGroup(at)
    requires Keeps(w.jobs, Enqueue(w, Some(id), at, b).jobs)
    ensures Later(w, SaveRun(Enqueue(w, Some(id), at, b), id, Listed(w, w.runs[id], at, b)))
  {
    var run := w.runs[id];
    assert RunLater(run, Listed(w, run, at, b));
    EnqueuedIsLater(w, SaveRun(Enqueue(w, Some(id), at, b), id, Listed(w, run, at, b)), Some(id), at, b);
  }

  lemma TickIsLater(w: World, id: RunId, inUse: set<int>, batch: Option<Batch>)
    requires Inv(w) && AdvanceBatchOk(w, id, inUse, batch)
    ensures Later(w, Advance(w, id, batch))
  {
    TickKeeps(w, id, inUse, batch);
    if IsRunning(w, id) {
      var run := w.runs[id];
      match Decide(w.jobs, run)
      case Close(status, at) =>
        assert RunOk(w.jobs, id, run);
        DecisionIsLater(w, id, run.(status := status, index := at));
      case GoTo(at) => DecisionIsLater(w, id, run.(index := at));
      case EnqueueGroup(at) => if batch.Some? { ListedIsLater(w, id, at, batch.value); }
      case Wait =>
    }
  }

  lemma AbandonIsLater(w: World, id: RunId)
    requires Inv(w) && CancelIsClear(w, id)
    ensures Later(w, CancelRun(w, id))
  {
    AbandonKeeps(w, id);
    SavedIsLater(w, CancelRun(w, id), id);
  }

  lemma SweepIsLater(w: World)
    requires Inv(w) && DrainIsClear(w)
    ensures Later(w, Drain(w))
  {
    SweepKeeps(w);
    assert Drain(w).jobs.Keys == w.jobs.Keys;
    SavedIsLater(w, Drain(w), 0);
  }

  lemma LaunchIsLater(w: World, s: Settings, rows: seq<seq<int>>, inUse: set<int>, batch: Option<Batch>)
    requires Inv(w) && Enabled(w, Launch(s, rows, inUse, batch))
    ensures Later(w, StartRun(w, s, rows, batch))
  {
    LaunchKeeps(w, s, rows, inUse, batch);
    if batch.Some? {
      EnqueuedIsLater(w, StartRun(w, s, rows, batch), Some(w.nextRun), FirstGroup(rows), batch.value);
    }
  }

  predicate IsJobEvent(e: Event) {
    e.Stop? || e.Take? || e.Check? || e.Write? || e.Settle? || e.SetPaused?
  }

  lemma JobEventLeavesRuns(w: World, e: Event)
    requires Enabled(w, e) && IsJobEvent(e)
    ensures Apply(w, e).runs == w.runs && Apply(w, e).jobs.Keys == w.jobs.Keys
  {
  }

  lemma JobEventIsLater(w: World, e: Event)
    requires Inv(w) && Enabled(w, e) && IsJobEvent(e)
    ensures Later(w, Apply(w, e))
  {
    StepKeeps(w, e);
    JobEventLeavesRuns(w, e);
    var t := Apply(w, e);
    SavedIsLater(w, t, 0);
  }

  lemma StepIsLater(w: World, e: Event)
    requires Inv(w) && Enabled(w, e)
    ensures Later(w, Apply(w, e))
  {
    match e
    case Tick(id, inUse, batch) => TickIsLater(w, id, inUse, batch);
    case Launch(s, groups, inUse, batch) => LaunchIsLater(w, s, groups, inUse, batch);
    case Submit(s, rows, inUse, b) =>
      BatchNodesKnown(w.jobs, s, s.vmidStart, rows, inUse, b);
      SubmitKeeps(w, b);
      EnqueuedIsLater(w, Apply(w, e), None, 0, b);
    case Abandon(id) => AbandonIsLater(w, id);
    case Sweep => SweepIsLater(w);
    case _ => JobEventIsLater(w, e);
  }

  lemma LaterTransitive(a: World, b: World, c: World)
    requires Later(a, b) && Later(b, c)
    ensures Later(a, c)
  {
    forall j | j in c.jobs && j !in a.jobs
      ensures NewJobOk(a, c.jobs[j])
    {
      if j in b.jobs {
        assert SameJob(b.jobs[j], c.jobs[j]) && NewJobOk(a, b.jobs[j]);
      } else {
        assert NewJobOk(b, c.jobs[j]);
      }
    }
    forall id | id in a.runs
      ensures id in c.runs && RunLater(a.runs[id], c.runs[id])
    {
      assert RunLater(a.runs[id], b.runs[id]) && RunLater(b.runs[id], c.runs[id]);
    }
  }

  /** From any reachable state on: terminal jobs and closed runs never change again, no closed run gets a job,
      and no group of an open run gets jobs twice. */
  lemma {:induction false} NothingIsUndone(w: World, trace: seq<Event>, t: World)
    requires Inv(w) && Execute(w, trace) == Some(t)
    ensures Later(w, t)
  {
    if trace != [] {
      var mid := Execute(w, trace[..|trace| - 1]).value;
      NothingIsUndone(w, trace[..|trace| - 1], mid);
      ExecuteKeeps(w, trace[..|trace| - 1], mid);
      StepIsLater(mid, trace[|trace| - 1]);
      LaterTransitive(w, mid, t);
    }
  }

  lemma PausedStep(w: World, e: Event)
    requires Possible(w, e) && w.paused && e != SetPaused(false)
    ensures Apply(w, e).paused
  {
    match e
    case Tick(id, _, batch) => TickKeepsPause(w, id, batch);
    case Launch(s, groups, _, batch) => StartKeepsPause(w, s, groups, batch);
    case _ =>
  }

  lemma TickKeepsPause(w: World, id: RunId, batch: Option<Batch>)
    requires batch.Some? ==> IsMatched(batch.value)
    ensures Advance(w, id, batch).paused == w.paused
  {
  }

  lemma StartKeepsPause(w: World, s: Settings, rows: seq<seq<int>>, batch: Option<Batch>)
    requires HasRows(rows) && (batch.Some? ==> IsMatched(batch.value))
    ensures StartRun(w, s, rows, batch).paused == w.paused
  {
  }

  /** Only an explicit resume lifts a pause: no tick, start, cancellation, drain or worker step does. */
  lemma {:induction false} PauseHolds(w: World, trace: seq<Event>, t: World)
    requires Execute(w, trace) == Some(t) && w.paused
    requires SetPaused(false) !in trace
    ensures t.paused
  {
    if trace != [] {
      var front, e := trace[..|trace| - 1], trace[|trace| - 1];
      PauseHolds(w, front, Execute(w, front).value);
      assert e in trace;
      PausedStep(Execute(w, front).value, e);
    }
  }
}
