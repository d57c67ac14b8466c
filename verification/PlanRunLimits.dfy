/** Where the promises about runs and the queue end, and exactly when they hold. */
module PlanRunLimits {
  import opened Wrappers
  import opened Sets
  import opened PlanRuns
  import opened PlanRunSafety
  import opened PlanRunTheorems
  import P = Placement
  import T = Text

  // ----- stops, cancellations and drains while a worker stands at a job -----

  /** Whatever a worker past its cancel check writes next, nothing that is terminal in `t` is opened again. */
  ghost predicate WritesHold(t: World) {
    forall j, ok :: j in t.checked && j in t.jobs ==> Keeps(t.jobs, WriteRestoring(t, j, ok).jobs)
  }

  lemma WritesHoldInGoodState(t: World)
    requires Inv(t)
    ensures WritesHold(t)
  {
    forall j, ok | j in t.checked && j in t.jobs
      ensures Keeps(t.jobs, WriteRestoring(t, j, ok).jobs)
    {
      WriteKeeps(t, j, ok);
    }
  }

  lemma WriteReopens(t: World, j: JobId)
    requires j in t.checked && j in t.jobs && t.jobs[j].state.Cancelled?
    ensures !Keeps(t.jobs, WriteRestoring(t, j, true).jobs)
  {
    assert !SameJob(t.jobs[j], WriteRestoring(t, j, true).jobs[j]);
  }

  /** A stop is final exactly when no worker stands between the cancel check and the write for that job. */
  lemma StopHoldsIff(w: World, j: JobId)
    requires Inv(w)
    ensures WritesHold(StopJob(w, j)) <==> StopIsClear(w, j)
  {
    if StopIsClear(w, j) {
      StopKeeps(w, j);
      WritesHoldInGoodState(StopJob(w, j));
    } else {
      assert IsChecked(w, j);
      WriteReopens(StopJob(w, j), j);
    }
  }

  /** So is the cancellation of a run, for the jobs of the run. */
  lemma CancelHoldsIff(w: World, id: RunId)
    requires Inv(w)
    ensures WritesHold(CancelRun(w, id)) <==> CancelIsClear(w, id)
  {
    if CancelIsClear(w, id) {
      AbandonKeeps(w, id);
      WritesHoldInGoodState(CancelRun(w, id));
    } else {
      var j := AnElement(MemberIds(w.runs[id].jobs) * w.checked);
      assert IsChecked(w, j);
      WriteReopens(CancelRun(w, id), j);
    }
  }

  /** Whatever workers that had popped a job before the drain do next, nothing the drain closed is opened. */
  ghost predicate DrainHolds(w: World) {
    && WritesHold(Drain(w))
    && forall j, ok :: j in w.inHand ==> Keeps(Drain(w).jobs, Begin(Drain(w), j, ok).jobs)
  }

  /** A drain is final exactly when no worker holds a PENDING job past its cancel check or without a request. */
  lemma DrainHoldsIff(w: World)
    requires Inv(w)
    ensures DrainHolds(w) <==> DrainIsClear(w)
  {
    if DrainIsClear(w) {
      DrainIsFinal(w);
    } else if w.checked != {} {
      var j := AnElement(w.checked);
      assert IsChecked(w, j);
      WriteReopens(Drain(w), j);
    } else {
      var j :| j in w.inHand && StateOf(w.jobs, j).Pending? && !(j in w.jobs && w.jobs[j].cancelRequested);
      assert IsHeld(w.jobs, j);
      var t := Drain(w);
      assert t.jobs[j].state.Cancelled? && Begin(t, j, true).jobs[j].state.Restoring?;
      assert !SameJob(t.jobs[j], Begin(t, j, true).jobs[j]);
    }
  }

  lemma DrainIsFinal(w: World)
    requires Inv(w) && DrainIsClear(w)
    ensures DrainHolds(w)
  {
    var t := Drain(w);
    SweepKeeps(w);
    WritesHoldInGoodState(t);
    forall j, ok | j in w.inHand
      ensures Keeps(t.jobs, Begin(t, j, ok).jobs)
    {
      CheckKeeps(t, j);
      assert IsHeld(t.jobs, j) && !t.jobs[j].state.Pending?;
    }
  }

  lemma Extend(trace: seq<Event>, w: World, e: Event)
    requires Reached(trace, w) && Enabled(w, e)
    ensures Reached(trace + [e], Apply(w, e))
  {
    assert (trace + [e])[..|trace|] == trace;
  }

  /** From any reachable state with a PENDING job in a worker's hand and no cancel request, the worker can pass its
      check, and a stop that comes then writes CANCELLED, over which the worker writes RESTORING. `PlanRunRaces`
      proves that such a job never ends COMPLETED all the same. */
  lemma StoppedJobIsReopened(trace: seq<Event>, w: World, j: JobId) returns (longer: seq<Event>, t: World)
    requires Reached(trace, w) && j in w.inHand && j in w.jobs && !w.jobs[j].cancelRequested
    ensures Reached(longer, t) && j in t.jobs && j in StopJob(t, j).jobs
    ensures StopJob(t, j).jobs[j].state.Cancelled?
    ensures WriteRestoring(StopJob(t, j), j, true).jobs[j].state.Restoring?
  {
    ReachedIsGood(trace, w);
    assert IsHeld(w.jobs, j);
    Extend(trace, w, Check(j));
    longer, t := trace + [Check(j)], CheckCancel(w, j);
  }

  /** A job popped but not begun when the queue is drained is restored although the drain reported it cancelled. */
  lemma DrainedJobIsRestored(trace: seq<Event>, w: World, j: JobId)
    requires Reached(trace, w) && j in w.inHand && j in w.jobs && !w.jobs[j].cancelRequested
    ensures Drain(w).jobs[j].state.Cancelled? && Begin(Drain(w), j, true).jobs[j].state.Restoring?
  {
    ReachedIsGood(trace, w);
    assert IsHeld(w.jobs, j);
  }

  /** Whatever the state, a drain leaves the queue empty and paused, cancels every PENDING job and leaves every other
      as it was; an id that was queued without a hash gets a CANCELLED one. */
  lemma DrainClearsPending(w: World, j: JobId)
    ensures var t := Drain(w);
            t == w.(jobs := t.jobs, queue := [], paused := true) && (j in t.jobs <==> j in w.jobs || j in w.queue)
    ensures j in w.jobs ==>
              var after := Drain(w).jobs[j];
              if w.jobs[j].state.Pending? then after == w.jobs[j].(state := Cancelled) else after == w.jobs[j]
    ensures j in w.queue && j !in w.jobs ==> Drain(w).jobs[j].state.Cancelled? && Drain(w).jobs[j].run.None?
  {
    assert j in ElementsOf(w.queue) <==> j in w.queue;
  }

  // ----- starting a run -----

  /** A start whose first enqueue raised leaves a RUNNING record, and the next tick marks it COMPLETED although
      no job was ever created for it. */
  lemma FailedStartCompletes(w: World, s: Settings, rows: seq<seq<int>>, inUse: set<int>)
    requires Inv(w) && HasRows(rows)
    ensures var t := StartRun(w, s, rows, None);
            IsRunning(t, w.nextRun) &&
            var u := Advance(t, w.nextRun, None);
            u.runs[w.nextRun].status.RunCompleted? && forall i :: JobsInGroup(u.jobs, w.nextRun, i) == {}
  {
    var t := StartRun(w, s, rows, None);
    LaunchKeeps(w, s, rows, inUse, None);
    var run := t.runs[w.nextRun];
    assert FirstBusy(run, run.index) == |run.jobs|;
    var u := Advance(t, w.nextRun, None);
    forall i
      ensures JobsInGroup(u.jobs, w.nextRun, i) == {}
    {
      forall j | j in w.jobs
        ensures w.jobs[j].run != Some(w.nextRun)
      {
        assert w.jobs[j].run.Some? ==> IsRecorded(w.jobs[j], j, w.runs);
      }
    }
  }

  /** A COMPLETED run has done its work exactly if it kept its rows: without them it never had a job. */
  lemma CompletedWithoutRowsDidNothing(trace: seq<Event>, w: World, id: RunId, j: JobId)
    requires Reached(trace, w) && id in w.runs && w.runs[id].status.RunCompleted? && w.runs[id].pending == []
    ensures j in w.jobs ==> w.jobs[j].run != Some(id)
  {
    ReachedIsGood(trace, w);
    assert RunOk(w.jobs, id, w.runs[id]);
    assert j in w.jobs && w.jobs[j].run.Some? ==> IsRecorded(w.jobs[j], j, w.runs);
  }

  // ----- two workers ticking at once -----

  lemma GroupAfterBatch(jobs: map<JobId, Job>, added: map<JobId, Job>, id: RunId, i: nat)
    requires forall j :: j in jobs ==> j !in added
    ensures JobsInGroup(jobs + added, id, i) == JobsInGroup(jobs, id, i) + JobsInGroup(added, id, i)
    ensures JobsInGroup(jobs, id, i) !! JobsInGroup(added, id, i)
  {
  }

  lemma NewJobsInGroup(next: JobId, id: RunId, at: nat, b: Batch, i: nat)
    requires IsMatched(b)
    ensures |JobsInGroup(NewJobs(next, Some(id), at, b), id, i)| == if i == at then |b.rows| else 0
  {
    var added, ids := NewJobs(next, Some(id), at, b), Ids(next, |b.rows|);
    assert JobsInGroup(added, id, i) == if i == at then ElementsOf(ids) else {};
    IdsHas(next, |b.rows|);
    DistinctSize(ids);
  }

  lemma BatchAddsToGroup(jobs: map<JobId, Job>, next: JobId, id: RunId, at: nat, b: Batch, i: nat)
    requires IsMatched(b) && forall j :: j in jobs ==> j < next
    ensures |JobsInGroup(jobs + NewJobs(next, Some(id), at, b), id, i)| ==
            |JobsInGroup(jobs, id, i)| + (if i == at then |b.rows| else 0)
  {
    IdsHas(next, |b.rows|);
    GroupAfterBatch(jobs, NewJobs(next, Some(id), at, b), id, i);
    NewJobsInGroup(next, id, at, b, i);
  }

  lemma EmptyGroupHasNoJobs(w: World, id: RunId, at: nat)
    requires Inv(w) && id in w.runs && at < |w.runs[id].jobs| && w.runs[id].jobs[at] == []
    ensures JobsInGroup(w.jobs, id, at) == {}
  {
    forall j | j in w.jobs && w.jobs[j].run == Some(id)
      ensures w.jobs[j].group != at
    {
      assert IsRecorded(w.jobs[j], j, w.runs);
    }
  }

  /** One tick that enqueues, or does not, counted group by group. */
  lemma OneTickAdds(w: World, id: RunId, run: Run, at: nat, b: Option<Batch>, i: nat)
    requires Fresh(w) && Decide(w.jobs, run) == EnqueueGroup(at) && (b.Some? ==> NodesKnown(b.value))
    ensures var t := AdvanceFrom(w, id, run, b);
            && Fresh(w.(jobs := t.jobs, nextJob := t.nextJob))
            && |JobsInGroup(t.jobs, id, i)| ==
               |JobsInGroup(w.jobs, id, i)| + (if i == at && b.Some? then |b.value.rows| else 0)
  {
    if b.Some? {
      EnqueueIsFresh(w, Some(id), at, b.value);
      BatchAddsToGroup(w.jobs, w.nextJob, id, at, b.value, i);
    }
  }

  /** Both batches hold the rows of the group they are for. */
  ghost predicate IsForRun(w: World, run: Run, b: Option<Batch>) {
    b.Some? ==>
      NodesKnown(b.value) &&
      (Decide(w.jobs, run).EnqueueGroup? ==> b.value.rows == RowsAt(run, Decide(w.jobs, run).at))
  }

  /** The world after two ticks of run `id` from one reading of its record. */
  function TickTwice(w: World, id: RunId, a: Option<Batch>, b: Option<Batch>): World
    requires id in w.runs && (a.Some? ==> IsMatched(a.value)) && (b.Some? ==> IsMatched(b.value))
  {
    AdvanceFrom(AdvanceFrom(w, id, w.runs[id], a), id, w.runs[id], b)
  }

  /** Group `i` got new jobs and has more jobs than rows. */
  ghost predicate IsDoubled(w: World, t: World, id: RunId, i: nat)
    requires id in w.runs
  {
    |JobsInGroup(t.jobs, id, i)| > |JobsInGroup(w.jobs, id, i)| &&
    |JobsInGroup(t.jobs, id, i)| > |RowsAt(w.runs[id], i)|
  }

  function SizeIf(b: Option<Batch>): nat {
    if b.Some? then |b.value.rows| else 0
  }

  lemma TwoTicksAdd(w: World, id: RunId, at: nat, a: Option<Batch>, b: Option<Batch>, i: nat)
    requires Inv(w) && IsRunning(w, id) && IsForRun(w, w.runs[id], a) && IsForRun(w, w.runs[id], b)
    requires Decide(w.jobs, w.runs[id]) == EnqueueGroup(at)
    ensures |JobsInGroup(TickTwice(w, id, a, b).jobs, id, i)| ==
            if i == at then SizeIf(a) + SizeIf(b) else |JobsInGroup(w.jobs, id, i)|
    ensures JobsInGroup(w.jobs, id, at) == {}
  {
    var run := w.runs[id];
    var once := AdvanceFrom(w, id, run, a);
    assert RunOk(w.jobs, id, run);
    LaterGroupsEmpty(w.jobs, id, run, at);
    EmptyGroupHasNoJobs(w, id, at);
    DecisionIgnoresNewJobs(w, run, at, once.jobs);
    OneTickAdds(w, id, run, at, a, i);
    OneTickAdds(once, id, run, at, b, i);
  }

  /** Two ticks from one reading of a record enqueue a group twice exactly when that group is the one to enqueue
      and both enqueues succeed: a group is enqueued once only because ticks do not overlap. */
  lemma OverlapDoublesIff(w: World, id: RunId, a: Option<Batch>, b: Option<Batch>, i: nat)
    requires Inv(w) && IsRunning(w, id) && IsForRun(w, w.runs[id], a) && IsForRun(w, w.runs[id], b)
    ensures IsDoubled(w, TickTwice(w, id, a, b), id, i) <==>
            Decide(w.jobs, w.runs[id]) == EnqueueGroup(i) && a.Some? && b.Some?
  {
    var d := Decide(w.jobs, w.runs[id]);
    if d.EnqueueGroup? {
      TwoTicksAdd(w, id, d.at, a, b, i);
    }
  }

  // A run over two groups of one guest each, restored to their own VMIDs on the node `n`.

  function ExampleSettings(node: string): Settings {
    Settings(true, Dr, false, node, [node], 0)
  }

  function ExampleBatch(v: int, node: string): Batch {
    Batch([v], [v], [node])
  }

  lemma ExampleIsBatch(jobs: map<JobId, Job>, start: int, v: int, node: string)
    requires node != "" && T.Trimmed(node)
    ensures IsBatch(jobs, ExampleSettings(node), start, [v], {}, ExampleBatch(v, node))
  {
    T.StripTrimmed(node);
    var s := ExampleSettings(node);
    assert T.Clean([node]) == [node] by {
      assert [node][1..] == [];
    }
    var counts := ActiveCounts(jobs);
    assert P.IsPick([node], counts, [], node);
    assert [node][..0] == [];
    assert P.IsGreedy([node], counts, [node]);
  }

  lemma ExampleStarted(v: int, u: int, node: string) returns (w: World)
    requires node != "" && T.Trimmed(node)
    ensures Reached([Launch(ExampleSettings(node), [[v], [u]], {}, Some(ExampleBatch(v, node)))], w)
    ensures w.jobs == map[0 := Job(Pending, false, Some(0), 0, v, v, node)] && w.queue == [0]
    ensures w.inHand == {} && w.checked == {} && w.asked == {} && IsRunning(w, 0)
    ensures var run := w.runs[0];
            run.index == 0 && run.jobs == [[0], []] && run.pending == [[v], [u]] && run.settings == ExampleSettings(node)
  {
    var rows, s, b := [[v], [u]], ExampleSettings(node), ExampleBatch(v, node);
    assert rows[0] != [];
    ExampleIsBatch(EMPTY.jobs, s.vmidStart, v, node);
    w := StartRun(EMPTY, s, rows, Some(b));
    assert Enabled(EMPTY, Launch(s, rows, {}, Some(b)));
    Extend([], EMPTY, Launch(s, rows, {}, Some(b)));
    assert [] + [Launch(s, rows, {}, Some(b))] == [Launch(s, rows, {}, Some(b))];
    assert Ids(0, 1) == [0];
    assert Shell(s, 2, 0).jobs == [[], []];
  }

  /** The tick after the first group leaves the second one to enqueue. */
  lemma ExampleMovesOn(trace: seq<Event>, w: World, u: int) returns (t: World)
    requires Reached(trace, w) && IsRunning(w, 0) && 0 in w.jobs && w.jobs[0].state.Completed?
    requires var run := w.runs[0];
             run.index == 0 && run.jobs == [[0], []] && |run.pending| == 2 && run.pending[1] == [u]
    ensures Reached(trace + [Tick(0, {}, None)], t) && IsRunning(t, 0) && t.runs[0].settings == w.runs[0].settings
    ensures Decide(t.jobs, t.runs[0]) == EnqueueGroup(1) && RowsAt(t.runs[0], 1) == [u] && t.checked == w.checked
  {
    var run := w.runs[0];
    assert FirstBusy(run, 0) == 0 && FirstBusy(run, 1) == 1;
    assert States(w.jobs, run.jobs[0]) == [Completed];
    Extend(trace, w, Tick(0, {}, None));
    t := Advance(w, 0, None);
    assert FirstBusy(t.runs[0], 1) == 1;
  }

  /** A reachable state in which two ticks, each with a proper batch, double a group. */
  lemma OverlapExample(v: int, u: int, node: string) returns (trace: seq<Event>, w: World, b: Batch)
    requires node != "" && T.Trimmed(node)
    ensures Reached(trace, w) && IsRunning(w, 0) && Decide(w.jobs, w.runs[0]) == EnqueueGroup(1)
    ensures IsMatched(b) && w.checked == {}
    ensures var run, once := w.runs[0], AdvanceFrom(w, 0, w.runs[0], Some(b));
            IsBatch(w.jobs, run.settings, StartVmid(run), RowsAt(run, 1), {}, b) &&
            IsBatch(once.jobs, run.settings, StartVmid(run), RowsAt(run, 1), {}, b)
    ensures IsDoubled(w, TickTwice(w, 0, Some(b), Some(b)), 0, 1)
  {
    var start := ExampleStarted(v, u, node);
    trace := [Launch(ExampleSettings(node), [[v], [u]], {}, Some(ExampleBatch(v, node)))];
    var end := ExampleRestores(trace, start, v, node);
    trace := trace + [Take, Check(0), Write(0, true), Settle(0, Completed)];
    w := ExampleMovesOn(trace, end, u);
    trace := trace + [Tick(0, {}, None)];
    b := ExampleBatch(u, node);
    ExampleIsBatch(w.jobs, StartVmid(w.runs[0]), u, node);
    ExampleIsBatch(AdvanceFrom(w, 0, w.runs[0], Some(b)).jobs, StartVmid(w.runs[0]), u, node);
    ExampleDoubles(trace, w, b);
  }

  lemma ExampleDoubles(trace: seq<Event>, w: World, b: Batch)
    requires Reached(trace, w) && IsRunning(w, 0) && Decide(w.jobs, w.runs[0]) == EnqueueGroup(1)
    requires NodesKnown(b) && b.rows == RowsAt(w.runs[0], 1)
    ensures IsDoubled(w, TickTwice(w, 0, Some(b), Some(b)), 0, 1)
  {
    ReachedIsGood(trace, w);
    OverlapDoublesIff(w, 0, Some(b), Some(b), 1);
  }

  lemma ExampleRestores(trace: seq<Event>, w: World, v: int, node: string) returns (t: World)
    requires Reached(trace, w) && w.jobs == map[0 := Job(Pending, false, Some(0), 0, v, v, node)] && w.queue == [0]
    requires w.inHand == {} && w.checked == {} && w.asked == {}
    ensures Reached(trace + [Take, Check(0), Write(0, true), Settle(0, Completed)], t) && t.runs == w.runs
    ensures 0 in t.jobs && t.jobs[0].state.Completed? && t.checked == {}
  {
    var popped := Pop(w);
    Extend(trace, w, Take);
    var checked := CheckCancel(popped, 0);
    Extend(trace + [Take], popped, Check(0));
    var restoring := WriteRestoring(checked, 0, true);
    Extend(trace + [Take] + [Check(0)], checked, Write(0, true));
    t := Finish(restoring, 0, Completed);
    Extend(trace + [Take] + [Check(0)] + [Write(0, true)], restoring, Settle(0, Completed));
    assert trace + [Take, Check(0), Write(0, true), Settle(0, Completed)] ==
           trace + [Take] + [Check(0)] + [Write(0, true)] + [Settle(0, Completed)];
  }

  lemma OverlapRecordsOnce(w: World, id: RunId, at: nat, a: Batch, b: Batch)
    requires IsRunning(w, id) && Decide(w.jobs, w.runs[id]) == EnqueueGroup(at) && IsMatched(a) && IsMatched(b)
    ensures var run, t := w.runs[id], TickTwice(w, id, Some(a), Some(b));
            id in t.runs && t.runs[id].jobs == run.jobs[at := Ids(w.nextJob + |a.rows|, |b.rows|)]
  {
    DecisionIgnoresNewJobs(w, w.runs[id], at, AdvanceFrom(w, id, w.runs[id], Some(a)).jobs);
  }

  /** Then the group has every row twice, and the record keeps the second batch only. */
  lemma OverlappingTicksEnqueueTwice(w: World, id: RunId, at: nat, a: Batch, b: Batch)
    requires Inv(w) && IsRunning(w, id) && Decide(w.jobs, w.runs[id]) == EnqueueGroup(at)
    requires IsForRun(w, w.runs[id], Some(a)) && IsForRun(w, w.runs[id], Some(b))
    ensures |JobsInGroup(TickTwice(w, id, Some(a), Some(b)).jobs, id, at)| == 2 * |RowsAt(w.runs[id], at)|
    ensures var run, t := w.runs[id], TickTwice(w, id, Some(a), Some(b));
            id in t.runs && t.runs[id].jobs == run.jobs[at := Ids(w.nextJob + |a.rows|, |b.rows|)]
  {
    TwoTicksAdd(w, id, at, Some(a), Some(b), at);
    OverlapRecordsOnce(w, id, at, a, b);
  }

  lemma DecisionIgnoresNewJobs(w: World, run: Run, at: nat, jobs: map<JobId, Job>)
    requires Decide(w.jobs, run) == EnqueueGroup(at)
    ensures Decide(jobs, run) == EnqueueGroup(at)
  {
  }

  // ----- cancelling -----

  lemma ClosedGetsNoJob(c: World, t: World, id: RunId, j: JobId)
    requires Later(c, t) && id in c.runs && !c.runs[id].status.Running?
    requires j in t.jobs && t.jobs[j].run == Some(id)
    ensures j in c.jobs && SameJob(c.jobs[j], t.jobs[j])
    ensures id in t.runs && t.runs[id] == c.runs[id]
  {
    assert RunLater(c.runs[id], t.runs[id]);
  }

  lemma CancelReachesAll(w: World, id: RunId, j: JobId)
    requires Inv(w) && IsRunning(w, id) && j in w.jobs && w.jobs[j].run == Some(id)
    ensures var job := CancelRun(w, id).jobs[j];
            IsTerminal(job.state) || (job.state.Restoring? && job.cancelRequested)
  {
    assert IsRecorded(w.jobs[j], j, w.runs);
    MembersAre(w.runs[id].jobs, j);
  }

  /** After a cancellation the run never gets another job, and each of its jobs is, from then on, terminal or
      RESTORING under a cancel request. */
  lemma CancelIsFinal(w: World, id: RunId, trace: seq<Event>, t: World, j: JobId)
    requires Inv(w) && IsRunning(w, id) && CancelIsClear(w, id) && Execute(CancelRun(w, id), trace) == Some(t)
    requires j in t.jobs && t.jobs[j].run == Some(id)
    ensures j in w.jobs && j !in t.queue
    ensures IsTerminal(t.jobs[j].state) || (t.jobs[j].state.Restoring? && t.jobs[j].cancelRequested)
    ensures id in t.runs && t.runs[id].status.RunCancelled? && id !in t.active
  {
    var c := CancelRun(w, id);
    AbandonKeeps(w, id);
    NothingIsUndone(c, trace, t);
    ExecuteKeeps(c, trace, t);
    ClosedGetsNoJob(c, t, id, j);
    CancelReachesAll(w, id, j);
  }
}
