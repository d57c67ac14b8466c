/** What stops and cancellations settle when workers and ticks are under way, over all possible steps. */
module PlanRunRaces {
  import opened Wrappers
  import opened Sets
  import opened PlanRuns
  import opened PlanRunSafety
  import opened PlanRunTheorems
  import opened PlanRunLimits
  import opened PlanRunFrames
  import T = Text

  // ----- a request that comes before RESTORING -----

  /** The job was asked to stop and has not completed; if it is RESTORING, the request came first. */
  ghost predicate RequestHeld(w: World, j: JobId) {
    && j in w.jobs && j < w.nextJob && w.jobs[j].cancelRequested && !w.jobs[j].state.Completed?
    && (w.jobs[j].state.Restoring? ==> j in w.asked)
  }

  lemma RequestStaysHeld(w: World, e: Event, j: JobId)
    requires Possible(w, e) && RequestHeld(w, j)
    ensures RequestHeld(Apply(w, e), j)
  {
    match e
    case Launch(s, groups, _, batch) => StartOnJob(w, s, groups, batch, j);
    case Tick(id, inUse, batch) => TickOnJob(w, id, batch, j);
    case Submit(_, _, _, b) => IdsHas(w.nextJob, |b.rows|);
    case _ =>
  }

  /** Whatever happens then, whoever stands in the way, it never ends COMPLETED. */
  lemma {:induction false} RequestedNeverCompletes(w: World, trace: seq<Event>, t: World, j: JobId)
    requires RequestHeld(w, j) && ExecuteAny(w, trace) == Some(t)
    ensures RequestHeld(t, j)
  {
    if trace != [] {
      var front := trace[..|trace| - 1];
      RequestedNeverCompletes(w, front, ExecuteAny(w, front).value, j);
      RequestStaysHeld(ExecuteAny(w, front).value, trace[|trace| - 1], j);
    }
  }

  ghost predicate NeverCompletes(w: World, j: JobId) {
    forall trace, t :: ExecuteAny(w, trace) == Some(t) ==> j in t.jobs && !t.jobs[j].state.Completed?
  }

  /** A stop of an open job keeps it from completing exactly if the job was not yet RESTORING, be it queued, popped
      or past its cancel check, or had been asked before. */
  lemma StopPreventsCompletionIff(w: World, j: JobId)
    requires Inv(w) && j in w.jobs && !IsTerminal(w.jobs[j].state)
    ensures NeverCompletes(StopJob(w, j), j) <==> w.jobs[j].state.Pending? || j in w.asked
  {
    var s := StopJob(w, j);
    if w.jobs[j].state.Pending? || j in w.asked {
      forall trace, t | ExecuteAny(s, trace) == Some(t)
        ensures j in t.jobs && !t.jobs[j].state.Completed?
      {
        RequestedNeverCompletes(s, trace, t, j);
      }
    } else {
      CanComplete(s, j);
    }
  }

  /** Nor does a job that a cancellation of its run found PENDING, wherever a worker stands. */
  lemma CancelPreventsCompletion(w: World, id: RunId, j: JobId)
    requires Inv(w) && IsRunning(w, id) && j in w.jobs && w.jobs[j].run == Some(id) && w.jobs[j].state.Pending?
    ensures NeverCompletes(CancelRun(w, id), j)
  {
    var c := CancelRun(w, id);
    assert IsRecorded(w.jobs[j], j, w.runs);
    MembersAre(w.runs[id].jobs, j);
    forall trace, t | ExecuteAny(c, trace) == Some(t)
      ensures j in t.jobs && !t.jobs[j].state.Completed?
    {
      RequestedNeverCompletes(c, trace, t, j);
    }
  }

  lemma CanComplete(w: World, j: JobId)
    requires j in w.jobs && w.jobs[j].state.Restoring? && j !in w.asked
    ensures !NeverCompletes(w, j)
  {
    var e := Settle(j, Completed);
    var t := Apply(w, e);
    OneStep(w, e);
    assert t.jobs[j].state.Completed?;
  }

  // ----- a tick that read the record before the cancellation -----

  /** What a tick that read the record `run` does to it after a cancellation wrote `c`. */
  function StaleTick(c: World, id: RunId, run: Run, b: Option<Batch>): World
    requires b.Some? ==> IsMatched(b.value)
  {
    AdvanceFrom(c, id, run, b)
  }

  predicate MovesOn(jobs: map<JobId, Job>, run: Run, b: Option<Batch>) {
    Decide(jobs, run).GoTo? || (Decide(jobs, run).EnqueueGroup? && b.Some?)
  }

  /** A tick in flight makes the cancelled run RUNNING again exactly if it moves the record on or enqueues. */
  lemma StaleTickReopensIff(w: World, id: RunId, b: Option<Batch>)
    requires Inv(w) && IsRunning(w, id) && (b.Some? ==> IsMatched(b.value))
    ensures var c, run := CancelRun(w, id), w.runs[id];
            IsRunning(StaleTick(c, id, run, b), id) <==> MovesOn(c.jobs, run, b)
  {
  }

  /** It leaves the record of the cancellation alone exactly if it waits or its enqueue raises; a tick that closes
      the run overwrites it as well, if only to bring back the rows. */
  lemma StaleTickKeepsRecordIff(w: World, id: RunId, b: Option<Batch>)
    requires Inv(w) && IsRunning(w, id) && (b.Some? ==> IsMatched(b.value))
    ensures var c, run := CancelRun(w, id), w.runs[id];
            var d := Decide(c.jobs, run);
            id in StaleTick(c, id, run, b).runs &&
            (StaleTick(c, id, run, b).runs[id] == c.runs[id] <==>
               d.Wait? || (d.EnqueueGroup? && b.None?) || (d == Close(RunCancelled, run.index) && run.pending == []))
  {
    assert RunOk(w.jobs, id, w.runs[id]);
  }

  /** A cancellation with at most one tick in flight is final, for the jobs of the run and for the run itself, exactly
      when no worker stands between the check and the write of one of its jobs and the tick does not move on. */
  lemma CancelStandsIff(w: World, id: RunId, inFlight: bool, b: Option<Batch>)
    requires Inv(w) && IsRunning(w, id) && (b.Some? ==> IsMatched(b.value))
    ensures var c, run := CancelRun(w, id), w.runs[id];
            WritesHold(c) && !IsRunning(if inFlight then StaleTick(c, id, run, b) else c, id) <==>
            CancelIsClear(w, id) && !(inFlight && MovesOn(c.jobs, run, b))
  {
    CancelHoldsIff(w, id);
    StaleTickReopensIff(w, id, b);
  }

  /** A reachable run, no worker in the way, that a tick in flight with a proper batch gives its next group after
      the cancellation. */
  lemma StaleTickExample(v: int, u: int, node: string) returns (trace: seq<Event>, w: World, b: Batch)
    requires node != "" && T.Trimmed(node)
    ensures Reached(trace, w) && IsRunning(w, 0) && CancelIsClear(w, 0) && IsMatched(b)
    ensures IsBatch(w.jobs, w.runs[0].settings, StartVmid(w.runs[0]), RowsAt(w.runs[0], 1), {}, b)
    ensures IsRunning(StaleTick(CancelRun(w, 0), 0, w.runs[0], Some(b)), 0)
  {
    trace, w, b := OverlapExample(v, u, node);
    EnqueueReopens(trace, w, 0, 1, b);
  }

  lemma EnqueueReopens(trace: seq<Event>, w: World, id: RunId, at: nat, b: Batch)
    requires Reached(trace, w) && IsRunning(w, id) && Decide(w.jobs, w.runs[id]) == EnqueueGroup(at) && IsMatched(b)
    ensures IsRunning(StaleTick(CancelRun(w, id), id, w.runs[id], Some(b)), id)
  {
    ReachedIsGood(trace, w);
    DecisionIgnoresNewJobs(w, w.runs[id], at, CancelRun(w, id).jobs);
    StaleTickReopensIff(w, id, Some(b));
  }

  // ----- tearing down while jobs of the run go on -----

  ghost predicate IsSettled(w: World, j: JobId) {
    && j in w.jobs && j < w.nextJob && IsTerminal(w.jobs[j].state) && j !in w.queue && j !in w.checked
    && (j in w.inHand ==> w.jobs[j].state.Cancelled? && w.jobs[j].cancelRequested)
  }

  lemma SettledStays(w: World, e: Event, j: JobId)
    requires Possible(w, e) && IsSettled(w, j)
    ensures IsSettled(Apply(w, e), j) && Apply(w, e).jobs[j].state == w.jobs[j].state
  {
    match e
    case Launch(s, groups, _, batch) => StartOnJob(w, s, groups, batch, j);
    case Tick(id, inUse, batch) => TickOnJob(w, id, batch, j);
    case Submit(_, _, _, b) => IdsHas(w.nextJob, |b.rows|);
    case Abandon(id) =>
      if IsRunning(w, id) {
        WithoutHas(w.queue, PendingIn(w.jobs, MemberIds(w.runs[id].jobs)));
      }
    case Stop(k) => WithoutHas(w.queue, {k});
    case _ =>
  }

  /** The run is closed and nothing of it is under way. */
  ghost predicate IsOver(w: World, id: RunId) {
    && IsClosed(w, id)
    && forall j :: j in w.jobs && w.jobs[j].run == Some(id) ==> IsSettled(w, j)
  }

  /** The run has the jobs it had, in the states they had. */
  ghost predicate IsStill(c: World, t: World, id: RunId) {
    forall j :: j in t.jobs && t.jobs[j].run == Some(id) ==>
      j in c.jobs && c.jobs[j].run == Some(id) && t.jobs[j].state == c.jobs[j].state
  }

  lemma OverStep(w: World, e: Event, id: RunId)
    requires Possible(w, e) && IsOver(w, id)
    ensures IsOver(Apply(w, e), id) && IsStill(w, Apply(w, e), id)
  {
    var t := Apply(w, e);
    ClosedRunStays(w, e, id);
    forall j | j in t.jobs && t.jobs[j].run == Some(id)
      ensures j in w.jobs && w.jobs[j].run == Some(id) && IsSettled(t, j) && t.jobs[j].state == w.jobs[j].state
    {
      NoNewJob(w, e, id, j);
      SettledStays(w, e, j);
    }
  }

  lemma ClosedRunStays(w: World, e: Event, id: RunId)
    requires Possible(w, e) && IsClosed(w, id)
    ensures IsClosed(Apply(w, e), id)
  {
    if !(e.Tick? && e.id == id) && !(e.Abandon? && e.id == id) {
      StepOnRun(w, e, id);
    }
  }

  predicate IsClosed(w: World, id: RunId) {
    id in w.runs && !w.runs[id].status.Running? && id < w.nextRun
  }

  /** The jobs of a run grow by a start or a tick of that run only. */
  lemma NoNewJob(w: World, e: Event, id: RunId, j: JobId)
    requires Possible(w, e) && IsClosed(w, id)
    requires j in Apply(w, e).jobs && Apply(w, e).jobs[j].run == Some(id)
    ensures j in w.jobs && w.jobs[j].run == Some(id)
  {
    match e
    case Launch(s, groups, _, batch) => StartAddsOwn(w, s, groups, batch, id, j);
    case Tick(k, _, batch) => TickAddsOwn(w, k, batch, id, j);
    case Submit(_, _, _, b) =>
    case _ =>
  }

  lemma StartAddsOwn(w: World, s: Settings, rows: seq<seq<int>>, batch: Option<Batch>, id: RunId, j: JobId)
    requires HasRows(rows) && (batch.Some? ==> IsMatched(batch.value)) && id != w.nextRun
    requires j in StartRun(w, s, rows, batch).jobs && StartRun(w, s, rows, batch).jobs[j].run == Some(id)
    ensures j in w.jobs && w.jobs[j].run == Some(id)
  {
  }

  lemma TickAddsOwn(w: World, k: RunId, batch: Option<Batch>, id: RunId, j: JobId)
    requires IsClosed(w, id) && (batch.Some? ==> IsMatched(batch.value))
    requires j in Advance(w, k, batch).jobs && Advance(w, k, batch).jobs[j].run == Some(id)
    ensures j in w.jobs && w.jobs[j].run == Some(id)
  {
  }

  lemma {:induction false} OverStays(w: World, trace: seq<Event>, t: World, id: RunId)
    requires IsOver(w, id) && ExecuteAny(w, trace) == Some(t)
    ensures IsOver(t, id) && IsStill(w, t, id)
  {
    if trace != [] {
      var front := trace[..|trace| - 1];
      var mid := ExecuteAny(w, front).value;
      OverStays(w, front, mid, id);
      OverStep(mid, trace[|trace| - 1], id);
    }
  }

  /** No job of the run is RESTORING or past its cancel check. */
  ghost predicate IsQuiet(w: World, id: RunId) {
    forall j :: j in w.jobs && w.jobs[j].run == Some(id) ==> !w.jobs[j].state.Restoring? && j !in w.checked
  }

  ghost predicate StaysStill(c: World, id: RunId) {
    forall trace, t :: ExecuteAny(c, trace) == Some(t) ==> IsStill(c, t, id)
  }

  /** A run cancelled to be torn down at once has done all it will ever do exactly if none of its jobs was RESTORING
      or past its cancel check. Otherwise a guest of the run can still appear after the report. */
  lemma ForcedTeardownIsFinalIff(w: World, id: RunId)
    requires Inv(w) && IsRunning(w, id)
    ensures StaysStill(CancelRun(w, id), id) <==> IsQuiet(w, id)
  {
    var c := CancelRun(w, id);
    if IsQuiet(w, id) {
      QuietIsOver(w, id);
      forall trace, t | ExecuteAny(c, trace) == Some(t)
        ensures IsStill(c, t, id)
      {
        OverStays(c, trace, t, id);
      }
    } else {
      var j :| j in w.jobs && w.jobs[j].run == Some(id) && (w.jobs[j].state.Restoring? || j in w.checked);
      BusyJobMoves(w, id, j);
    }
  }

  lemma QuietIsOver(w: World, id: RunId)
    requires Inv(w) && IsRunning(w, id) && IsQuiet(w, id)
    ensures IsOver(CancelRun(w, id), id)
  {
    var c := CancelRun(w, id);
    WithoutHas(w.queue, PendingIn(w.jobs, MemberIds(w.runs[id].jobs)));
    forall j | j in c.jobs && c.jobs[j].run == Some(id)
      ensures IsSettled(c, j)
    {
      assert IsRecorded(w.jobs[j], j, w.runs);
      MembersAre(w.runs[id].jobs, j);
      assert j in w.inHand ==> IsHeld(w.jobs, j);
    }
  }

  lemma OneStep(c: World, e: Event)
    requires Possible(c, e)
    ensures ExecuteAny(c, [e]) == Some(Apply(c, e))
  {
    assert [e][..0] == [];
  }

  lemma StepMoves(c: World, trace: seq<Event>, t: World, id: RunId, j: JobId)
    requires ExecuteAny(c, trace) == Some(t) && j in c.jobs && j in t.jobs && t.jobs[j].run == Some(id)
    requires t.jobs[j].state != c.jobs[j].state
    ensures !StaysStill(c, id)
  {
    assert !IsStill(c, t, id);
  }

  lemma BusyJobMoves(w: World, id: RunId, j: JobId)
    requires Inv(w) && IsRunning(w, id) && j in w.jobs && w.jobs[j].run == Some(id)
    requires w.jobs[j].state.Restoring? || j in w.checked
    ensures !StaysStill(CancelRun(w, id), id)
  {
    assert IsRecorded(w.jobs[j], j, w.runs);
    MembersAre(w.runs[id].jobs, j);
    assert j in w.checked ==> IsChecked(w, j);
    var c, e := CancelRun(w, id), if w.jobs[j].state.Restoring? then Settle(j, Failed) else Write(j, true);
    OneStep(c, e);
    StepMoves(c, [e], Apply(c, e), id, j);
  }

  /** A closed run stays closed and gets no further job in any run of possible steps; ticks are atomic here. */
  lemma {:induction false} ClosedRunGetsNoJob(w: World, trace: seq<Event>, t: World, id: RunId, j: JobId)
    requires IsClosed(w, id) && ExecuteAny(w, trace) == Some(t)
    ensures IsClosed(t, id)
    ensures j in t.jobs && t.jobs[j].run == Some(id) ==> j in w.jobs && w.jobs[j].run == Some(id)
  {
    if trace != [] {
      var front := trace[..|trace| - 1];
      var mid := ExecuteAny(w, front).value;
      ClosedRunGetsNoJob(w, front, mid, id, j);
      ClosedRunStays(mid, trace[|trace| - 1], id);
      if j in t.jobs && t.jobs[j].run == Some(id) {
        NoNewJob(mid, trace[|trace| - 1], id, j);
      }
    }
  }
}
