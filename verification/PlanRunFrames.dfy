/** What one step does to one job, and what it leaves alone: the store seen job by job. */
module PlanRunFrames {
  import opened Wrappers
  import opened Sets
  import opened PlanRuns
  import opened PlanRunSafety
  import opened PlanRunTheorems

  // ----- one job under one step -----

  /** The step stops the job, cancels the job's own run, or drains. */
  ghost predicate IsHit(w: World, e: Event, j: JobId)
    requires j in w.jobs
  {
    match e
    case Stop(k) => k == j
    case Abandon(id) => w.jobs[j].run == Some(id) && IsRunning(w, id)
    case Sweep => true
    case _ => false
  }

  ghost function NextState(job: Job, hit: bool, e: Event, j: JobId): JobState {
    match e
    case Write(k, ok) => if k != j then job.state else if ok then Restoring else Failed
    case Settle(k, outcome) => if k == j then outcome else job.state
    case Check(k) => if k == j && job.cancelRequested then Cancelled else job.state
    case _ => if hit && job.state.Pending? then Cancelled else job.state
  }

  /** A drain makes no request, and a job that has ended gets none. */
  ghost predicate IsAsked(job: Job, hit: bool, e: Event) {
    job.cancelRequested || (hit && !e.Sweep? && (job.state.Pending? || job.state.Restoring?))
  }

  ghost predicate IsTaken(w: World, e: Event, j: JobId) {
    e.Take? && w.queue != [] && w.queue[0] == j
  }

  /** Where the job stands after the step: queued, popped, past its check. */
  ghost predicate StandsRight(w: World, e: Event, t: World, j: JobId)
    requires j in w.jobs
  {
    && (j in t.queue <==> j in w.queue && !IsTaken(w, e, j) && !IsHit(w, e, j))
    && (j in t.inHand <==> IsTaken(w, e, j) || (j in w.inHand && !(e.Check? && e.j == j)))
    && (j in t.checked <==> (e.Check? && e.j == j && !w.jobs[j].cancelRequested) || (j in w.checked && !(e.Write? && e.j == j)))
  }

  ghost predicate IsStepOf(w: World, e: Event, t: World, j: JobId)
    requires j in w.jobs
  {
    var job := w.jobs[j];
    && j in t.jobs && StandsRight(w, e, t, j)
    && t.jobs[j] == job.(state := NextState(job, IsHit(w, e, j), e, j), cancelRequested := IsAsked(job, IsHit(w, e, j), e))
  }

  /** In a good state every step changes an existing job exactly so. In particular a job is touched only by steps on it,
      by the cancellation of its own run and by a drain. */
  lemma StepOnJob(w: World, e: Event, j: JobId)
    requires Inv(w) && Possible(w, e) && j in w.jobs
    ensures IsStepOf(w, e, Apply(w, e), j)
  {
    match e
    case Launch(_, _, _, _) => NewJobsLeaveOld(w, e, j);
    case Tick(_, _, _) => NewJobsLeaveOld(w, e, j);
    case Submit(_, _, _, _) => NewJobsLeaveOld(w, e, j);
    case Abandon(id) => CancelOnJob(w, id, j);
    case Stop(k) => StopOnJob(w, k, j);
    case Take => TakeOnJob(w, j);
    case Sweep => SweepOnJob(w, j);
    case Check(k) => CheckOnJob(w, k, j);
    case Write(k, ok) => WriteOnJob(w, k, ok, j);
    case Settle(_, _) =>
    case SetPaused(_) =>
  }

  lemma NewJobsLeaveOld(w: World, e: Event, j: JobId)
    requires Inv(w) && Possible(w, e) && j in w.jobs && (e.Launch? || e.Tick? || e.Submit?)
    ensures IsStepOf(w, e, Apply(w, e), j)
  {
    match e
    case Launch(s, groups, _, batch) => StartOnJob(w, s, groups, batch, j);
    case Tick(id, inUse, batch) => TickOnJob(w, id, batch, j);
    case Submit(_, _, _, b) => EnqueueOnJob(w, None, 0, b, j);
  }

  lemma StopOnJob(w: World, k: JobId, j: JobId)
    requires Inv(w) && j in w.jobs
    ensures IsStepOf(w, Stop(k), StopJob(w, k), j)
  {
    WithoutHas(w.queue, {k});
  }

  lemma SweepOnJob(w: World, j: JobId)
    requires Inv(w) && j in w.jobs
    ensures IsStepOf(w, Sweep, Drain(w), j)
  {
  }

  lemma CheckOnJob(w: World, k: JobId, j: JobId)
    requires Inv(w) && j in w.jobs && k in w.inHand
    ensures IsStepOf(w, Check(k), CheckCancel(w, k), j)
  {
    HandsAreIn(w, j);
    assert IsHeld(w.jobs, k);
  }

  lemma WriteOnJob(w: World, k: JobId, ok: bool, j: JobId)
    requires Inv(w) && j in w.jobs && k in w.checked && k in w.jobs
    ensures IsStepOf(w, Write(k, ok), WriteRestoring(w, k, ok), j)
  {
    HandsAreIn(w, j);
  }

  lemma HandsAreIn(w: World, j: JobId)
    requires Inv(w) && j in w.jobs
    ensures j in w.inHand ==> IsHeld(w.jobs, j)
    ensures j in w.checked ==> IsChecked(w, j)
  {
  }

  lemma TakeOnJob(w: World, j: JobId)
    requires Inv(w) && j in w.jobs && w.queue != []
    ensures j in Pop(w).queue <==> j in w.queue && w.queue[0] != j
  {
    assert w.queue == [w.queue[0]] + Pop(w).queue;
  }

  lemma EnqueueOnJob(w: World, run: Option<RunId>, group: nat, b: Batch, j: JobId)
    requires IsMatched(b) && j in w.jobs && j < w.nextJob
    ensures var t := Enqueue(w, run, group, b);
            j in t.jobs && t.jobs[j] == w.jobs[j] && (j in t.queue <==> j in w.queue)
  {
    IdsHas(w.nextJob, |b.rows|);
  }

  lemma StartOnJob(w: World, s: Settings, rows: seq<seq<int>>, batch: Option<Batch>, j: JobId)
    requires HasRows(rows) && (batch.Some? ==> IsMatched(batch.value)) && j in w.jobs && j < w.nextJob
    ensures var t := StartRun(w, s, rows, batch);
            && j in t.jobs && t.jobs[j] == w.jobs[j] && (j in t.queue <==> j in w.queue)
            && t.inHand == w.inHand && t.checked == w.checked && t.asked == w.asked && w.nextJob <= t.nextJob
  {
    if batch.Some? {
      IdsHas(w.nextJob, |batch.value.rows|);
    }
  }

  lemma TickOnJob(w: World, id: RunId, batch: Option<Batch>, j: JobId)
    requires (batch.Some? ==> IsMatched(batch.value)) && j in w.jobs && j < w.nextJob
    ensures var t := Advance(w, id, batch);
            && j in t.jobs && t.jobs[j] == w.jobs[j] && (j in t.queue <==> j in w.queue)
            && t.inHand == w.inHand && t.checked == w.checked && t.asked == w.asked && w.nextJob <= t.nextJob
  {
    if batch.Some? {
      IdsHas(w.nextJob, |batch.value.rows|);
    }
  }

  /** The ids a record lists are the jobs of the run. */
  lemma MembersAreItsJobs(w: World, id: RunId, j: JobId)
    requires Inv(w) && id in w.runs
    ensures j in MemberIds(w.runs[id].jobs) <==> j in w.jobs && w.jobs[j].run == Some(id)
  {
    var run := w.runs[id];
    assert RunOk(w.jobs, id, run);
    MembersExist(w.jobs, id, run);
    MembersAre(run.jobs, j);
    assert j in w.jobs && w.jobs[j].run == Some(id) ==> IsRecorded(w.jobs[j], j, w.runs);
  }

  lemma CancelOnJob(w: World, id: RunId, j: JobId)
    requires Inv(w) && j in w.jobs
    ensures var t, mine := CancelRun(w, id), IsRunning(w, id) && w.jobs[j].run == Some(id);
            && j in t.jobs && t.jobs[j] == (if mine then CancelOne(w.jobs[j]) else w.jobs[j])
            && (j in t.queue <==> j in w.queue && !mine)
            && t.inHand == w.inHand && t.checked == w.checked
  {
    if IsRunning(w, id) {
      MembersAreItsJobs(w, id, j);
      WithoutHas(w.queue, PendingIn(w.jobs, MemberIds(w.runs[id].jobs)));
    }
  }

  /** Cancelling a run: each of its PENDING jobs is CANCELLED under a request and off the queue, each RESTORING one is
      asked to stop, and every other job and every other run is as before, on the queue or not. */
  lemma CancelTouchesItsOwn(w: World, id: RunId, j: JobId)
    requires Inv(w) && IsRunning(w, id) && j in w.jobs
    ensures var t, a := CancelRun(w, id), w.jobs[j];
            && j in t.jobs
            && (a.run != Some(id) ==> t.jobs[j] == a && (j in t.queue <==> j in w.queue))
            && (a.run == Some(id) ==> j !in t.queue)
            && (a.run == Some(id) ==>
                  t.jobs[j] == if a.state.Pending? then a.(state := Cancelled, cancelRequested := true)
                               else if a.state.Restoring? then a.(cancelRequested := true) else a)
    ensures var t := CancelRun(w, id);
            && t.runs == w.runs[id := w.runs[id].(status := RunCancelled, pending := [])]
            && t.active == w.active - {id}
  {
    StepOnJob(w, Abandon(id), j);
    CancelOnJob(w, id, j);
  }

  /** So does stopping one job, with every other job and every run left alone. */
  lemma StopTouchesOne(w: World, k: JobId, j: JobId)
    requires Inv(w) && j in w.jobs
    ensures var t, a := StopJob(w, k), w.jobs[j];
            && j in t.jobs && t.runs == w.runs && t.active == w.active
            && (j != k ==> t.jobs[j] == a && (j in t.queue <==> j in w.queue))
            && (j == k ==> j !in t.queue)
            && (j == k ==>
                  t.jobs[j] == if a.state.Pending? then a.(state := Cancelled, cancelRequested := true)
                               else if a.state.Restoring? then a.(cancelRequested := true) else a)
  {
    StepOnJob(w, Stop(k), j);
    WithoutHas(w.queue, {k});
  }

  /** The record of a run and whether it is active change by its own ticks and its own cancellation only. */
  lemma StepOnRun(w: World, e: Event, id: RunId)
    requires Possible(w, e) && id in w.runs && id < w.nextRun
    requires !(e.Tick? && e.id == id) && !(e.Abandon? && e.id == id)
    ensures var t := Apply(w, e);
            id in t.runs && t.runs[id] == w.runs[id] && (id in t.active <==> id in w.active) && w.nextRun <= t.nextRun
  {
    match e
    case Launch(s, groups, _, batch) => assert id != w.nextRun;
    case Tick(k, _, batch) => TickOnRun(w, k, batch, id);
    case Abandon(k) =>
    case Submit(_, _, _, _) =>
    case _ => assert Apply(w, e).runs == w.runs;
  }

  lemma TickOnRun(w: World, k: RunId, batch: Option<Batch>, id: RunId)
    requires id in w.runs && k != id && (batch.Some? ==> IsMatched(batch.value))
    ensures var t := Advance(w, k, batch);
            id in t.runs && t.runs[id] == w.runs[id] && (id in t.active <==> id in w.active)
  {
  }

  // ----- whole runs of steps -----

  /** The step is not on this job, does not cancel this run and does not drain. */
  predicate Spares(e: Event, j: JobId, run: Option<RunId>) {
    match e
    case Stop(k) => k != j
    case Check(k) => k != j
    case Write(k, _) => k != j
    case Settle(k, _) => k != j
    case Abandon(id) => run != Some(id)
    case Sweep => false
    case _ => true
  }

  /** Whatever else happens, to other jobs and to other runs, a job nobody addresses stays as it is. */
  lemma {:induction false} SparedJobStays(w: World, trace: seq<Event>, t: World, j: JobId)
    requires Inv(w) && Execute(w, trace) == Some(t) && j in w.jobs
    requires forall e :: e in trace ==> Spares(e, j, w.jobs[j].run)
    ensures j in t.jobs && t.jobs[j] == w.jobs[j]
  {
    if trace != [] {
      var front, e := trace[..|trace| - 1], trace[|trace| - 1];
      var mid := Execute(w, front).value;
      assert forall x :: x in front ==> x in trace;
      SparedJobStays(w, front, mid, j);
      ExecuteKeeps(w, front, mid);
      StepOnJob(mid, e, j);
      assert e in trace;
    }
  }

  // ----- first in, first out -----

  /** `a` stands before `b`. */
  ghost predicate Precedes(queue: seq<JobId>, a: JobId, b: JobId) {
    exists i, k :: 0 <= i < k < |queue| && queue[i] == a && queue[k] == b
  }

  /** `b` waits behind `a`, or was stopped, cancelled or drained while it waited: no worker got it. */
  ghost predicate IsBehind(w: World, a: JobId, b: JobId) {
    && a in w.jobs && b in w.jobs && b !in w.inHand && b !in w.checked
    && (Precedes(w.queue, a, b) || (b !in w.queue && w.jobs[b].state.Cancelled?))
  }

  lemma {:induction false} WithoutKeepsOrder(queue: seq<JobId>, gone: set<JobId>, a: JobId, b: JobId)
    requires Precedes(queue, a, b) && a !in gone && b !in gone
    ensures Precedes(Without(queue, gone), a, b)
  {
    var n := |queue| - 1;
    var front, last := queue[..n], queue[n];
    var rest := Without(front, gone);
    var i, k :| 0 <= i < k < |queue| && queue[i] == a && queue[k] == b;
    WithoutHas(front, gone);
    if k < n {
      assert front[i] == a && front[k] == b;
      WithoutKeepsOrder(front, gone, a, b);
      var p, q :| 0 <= p < q < |rest| && rest[p] == a && rest[q] == b;
      assert Without(queue, gone)[p] == a && Without(queue, gone)[q] == b;
    } else {
      assert a in front by {
        assert front[i] == a;
      }
      var p :| 0 <= p < |rest| && rest[p] == a;
      assert Without(queue, gone) == rest + [b];
      assert Without(queue, gone)[p] == a && Without(queue, gone)[|rest|] == b;
    }
  }

  lemma LongerKeepsOrder(queue: seq<JobId>, longer: seq<JobId>, a: JobId, b: JobId)
    requires Precedes(queue, a, b) && queue <= longer
    ensures Precedes(longer, a, b)
  {
    var i, k :| 0 <= i < k < |queue| && queue[i] == a && queue[k] == b;
    assert longer[i] == a && longer[k] == b;
  }

  lemma TakeKeepsOrder(queue: seq<JobId>, a: JobId, b: JobId)
    requires Precedes(queue, a, b) && queue[0] != a
    ensures Precedes(queue[1..], a, b)
  {
    var i, k :| 0 <= i < k < |queue| && queue[i] == a && queue[k] == b;
    assert queue[1..][i - 1] == a && queue[1..][k - 1] == b;
  }

  lemma QueueGrows(w: World, e: Event)
    requires Possible(w, e) && !e.Abandon? && !e.Stop? && !e.Take? && !e.Sweep?
    ensures w.queue <= Apply(w, e).queue
  {
    if e.Tick? {
      TickQueue(w, e.id, e.batch);
    }
  }

  lemma TickQueue(w: World, id: RunId, batch: Option<Batch>)
    requires batch.Some? ==> IsMatched(batch.value)
    ensures w.queue <= Advance(w, id, batch).queue
  {
  }

  lemma BehindStep(w: World, e: Event, a: JobId, b: JobId)
    requires Inv(w) && Enabled(w, e) && IsBehind(w, a, b) && a in Apply(w, e).queue
    ensures IsBehind(Apply(w, e), a, b)
  {
    var t := Apply(w, e);
    StepOnJob(w, e, a);
    StepOnJob(w, e, b);
    if Precedes(w.queue, a, b) {
      var i, k :| 0 <= i < k < |w.queue| && w.queue[i] == a && w.queue[k] == b;
      assert w.queue[0] == b ==> k == 0;
      if b in t.queue {
        OrderStays(w, e, a, b);
      }
    }
  }

  lemma CancelKeepsOrder(w: World, id: RunId, a: JobId, b: JobId)
    requires Precedes(w.queue, a, b) && a in CancelRun(w, id).queue && b in CancelRun(w, id).queue
    ensures Precedes(CancelRun(w, id).queue, a, b)
  {
    if IsRunning(w, id) {
      var gone := PendingIn(w.jobs, MemberIds(w.runs[id].jobs));
      WithoutHas(w.queue, gone);
      WithoutKeepsOrder(w.queue, gone, a, b);
    }
  }

  lemma StopKeepsOrder(w: World, k: JobId, a: JobId, b: JobId)
    requires Precedes(w.queue, a, b) && a in StopJob(w, k).queue && b in StopJob(w, k).queue
    ensures Precedes(StopJob(w, k).queue, a, b)
  {
    WithoutHas(w.queue, {k});
    if StopJob(w, k) != w {
      WithoutKeepsOrder(w.queue, {k}, a, b);
    }
  }

  lemma PopKeepsOrder(w: World, a: JobId, b: JobId)
    requires Distinct(w.queue) && Precedes(w.queue, a, b) && a in Pop(w).queue
    ensures Precedes(Pop(w).queue, a, b)
  {
    assert w.queue == [w.queue[0]] + w.queue[1..];
    TakeKeepsOrder(w.queue, a, b);
  }

  lemma OrderStays(w: World, e: Event, a: JobId, b: JobId)
    requires Inv(w) && Possible(w, e) && Precedes(w.queue, a, b) && a in Apply(w, e).queue && b in Apply(w, e).queue
    ensures Precedes(Apply(w, e).queue, a, b)
  {
    match e
    case Abandon(id) => CancelKeepsOrder(w, id, a, b);
    case Stop(k) => StopKeepsOrder(w, k, a, b);
    case Take => PopKeepsOrder(w, a, b);
    case Sweep =>
    case _ =>
      QueueGrows(w, e);
      LongerKeepsOrder(w.queue, Apply(w, e).queue, a, b);
  }

  /** Workers get jobs in the order they were queued: while `a` is still on the queue, no job behind it has been
      popped, whatever stops, cancellations, ticks and drains came in between. */
  lemma {:induction false} QueueIsFirstInFirstOut(w: World, trace: seq<Event>, t: World, a: JobId, b: JobId)
    requires Inv(w) && Precedes(w.queue, a, b) && Execute(w, trace) == Some(t) && a in t.queue
    ensures IsBehind(t, a, b)
  {
    if trace == [] {
      assert a in w.queue && b in w.queue;
    } else {
      var front, e := trace[..|trace| - 1], trace[|trace| - 1];
      var mid := Execute(w, front).value;
      ExecuteKeeps(w, front, mid);
      assert a in w.queue;
      StepOnJob(mid, e, a);
      QueueIsFirstInFirstOut(w, front, mid, a, b);
      BehindStep(mid, e, a, b);
    }
  }
}
