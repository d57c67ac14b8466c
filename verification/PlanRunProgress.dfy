/** How many ticks a plan run can take. */
module PlanRunProgress {
  import opened Wrappers
  import opened PlanRuns
  import opened PlanRunSafety
  import opened PlanRunTheorems
  import opened PlanRunTicks
  import opened PlanRunFrames

  /** Two steps for every group still ahead, one more for the current one while it is not enqueued. */
  function Measure(run: Run): int {
    if !run.status.Running? then 0
    else 2 * (|run.jobs| - run.index) + (if run.index < |run.jobs| && run.jobs[run.index] == [] then 1 else 0)
  }

  /** A tick of the run that finds no group left, a group whose jobs have all ended, or a group with rows only and a
      batch for it. */
  ghost predicate IsProductive(w: World, e: Event, id: RunId) {
    && e.Tick? && e.id == id && IsRunning(w, id)
    && var run := w.runs[id];
       exists i: nat :: IsNext(run, run.index, i) &&
                   (i == |run.jobs| || (if run.jobs[i] == [] then e.batch.Some? else AllEnded(w.jobs, run.jobs[i])))
  }

  lemma ProductiveMoves(w: World, e: Event, id: RunId)
    requires IsProductive(w, e, id)
    ensures !Decide(w.jobs, w.runs[id]).Wait? && (Decide(w.jobs, w.runs[id]).EnqueueGroup? ==> e.batch.Some?)
  {
    var run := w.runs[id];
    var i: nat :| IsNext(run, run.index, i) &&
             (i == |run.jobs| || (if run.jobs[i] == [] then e.batch.Some? else AllEnded(w.jobs, run.jobs[i])));
    NextIsUnique(run, run.index, i);
    if i < |run.jobs| {
      StatesSay(w.jobs, run.jobs[i]);
    }
  }

  /** Any other tick of the run leaves the store as it is: the run waits exactly for a job that has not ended, or for
      an enqueue that does not raise. */
  lemma TickIsIdleIff(w: World, id: RunId, inUse: set<int>, batch: Option<Batch>)
    requires Inv(w) && IsRunning(w, id) && AdvanceBatchOk(w, id, inUse, batch)
    ensures Advance(w, id, batch) == w <==> !IsProductive(w, Tick(id, inUse, batch), id)
  {
    var run := w.runs[id];
    assert RunOk(w.jobs, id, run);
    var i := FirstBusy(run, run.index);
    NextIsFound(run, run.index);
    forall k | IsNext(run, run.index, k)
      ensures k == i
    {
      NextIsUnique(run, run.index, k);
    }
    if IsProductive(w, Tick(id, inUse, batch), id) {
      TickMeasure(w, id, inUse, batch);
    } else if run.jobs[i] == [] {
      TickEnqueues(w, id, i, batch);
    } else {
      TickWaitsIff(w, id, i, batch);
    }
  }

  lemma ListedMeasure(w: World, id: RunId, run: Run, at: nat, inUse: set<int>, b: Batch)
    requires RunOk(w.jobs, id, run) && run.status.Running? && Decide(w.jobs, run) == EnqueueGroup(at)
    requires IsBatch(w.jobs, run.settings, StartVmid(run), RowsAt(run, at), inUse, b)
    ensures 0 <= Measure(Listed(w, run, at, b)) < Measure(run)
  {
    BatchFitsRun(w.jobs, run, at, inUse, b);
    LaterGroupsEmpty(w.jobs, id, run, at);
  }

  lemma DecisionMeasure(jobs: map<JobId, Job>, id: RunId, run: Run)
    requires RunOk(jobs, id, run) && run.status.Running?
    ensures var d := Decide(jobs, run);
            (d.GoTo? ==> 0 <= Measure(run.(index := d.at)) < Measure(run)) &&
            (d.Close? ==> Measure(run.(status := d.status, index := d.at)) == 0 < Measure(run))
  {
    var i := FirstBusy(run, run.index);
    if Decide(jobs, run).GoTo? {
      assert GroupOk(jobs, id, run, i);
    }
  }

  lemma TickMeasure(w: World, id: RunId, inUse: set<int>, batch: Option<Batch>)
    requires Inv(w) && IsRunning(w, id) && AdvanceBatchOk(w, id, inUse, batch)
    ensures id in Advance(w, id, batch).runs
    ensures var before, after := Measure(w.runs[id]), Measure(Advance(w, id, batch).runs[id]);
            0 <= after <= before && (IsProductive(w, Tick(id, inUse, batch), id) ==> after < before)
  {
    var run := w.runs[id];
    assert RunOk(w.jobs, id, run);
    DecisionMeasure(w.jobs, id, run);
    var d := Decide(w.jobs, run);
    if IsProductive(w, Tick(id, inUse, batch), id) {
      ProductiveMoves(w, Tick(id, inUse, batch), id);
    }
    if d.EnqueueGroup? && batch.Some? {
      ListedMeasure(w, id, run, d.at, inUse, batch.value);
    }
  }

  lemma OpenMeasure(w: World, id: RunId)
    requires Inv(w) && id in w.runs
    ensures Measure(w.runs[id]) >= if IsRunning(w, id) then 2 else 0
  {
    assert RunOk(w.jobs, id, w.runs[id]);
  }

  /** Only a tick of the run itself moves an open record on; a cancellation closes it. */
  lemma OtherStepsLeaveRun(w: World, e: Event, id: RunId)
    requires Inv(w) && Enabled(w, e) && id in w.runs && !(e.Tick? && e.id == id && IsRunning(w, id))
    ensures id in Apply(w, e).runs
    ensures Apply(w, e).runs[id] == w.runs[id] || !Apply(w, e).runs[id].status.Running?
  {
    if !(e.Tick? && e.id == id) && !(e.Abandon? && e.id == id) {
      StepOnRun(w, e, id);
    }
  }

  lemma MeasureStep(w: World, e: Event, id: RunId)
    requires Inv(w) && Enabled(w, e) && id in w.runs
    ensures id in Apply(w, e).runs
    ensures var before, after := Measure(w.runs[id]), Measure(Apply(w, e).runs[id]);
            0 <= after <= before && (IsProductive(w, e, id) ==> after < before)
  {
    if e.Tick? && e.id == id && IsRunning(w, id) {
      TickMeasure(w, id, e.inUse, e.batch);
    } else {
      OtherStepsLeaveRun(w, e, id);
      OpenMeasure(w, id);
    }
  }

  ghost function ProductiveTicks(w: World, trace: seq<Event>, id: RunId): nat {
    if trace == [] then 0
    else
      var front := trace[..|trace| - 1];
      ProductiveTicks(w, front, id) +
      (if Execute(w, front).Some? && IsProductive(Execute(w, front).value, trace[|trace| - 1], id) then 1 else 0)
  }

  /** Over any trace the productive ticks of a run are paid for by its measure. */
  lemma {:induction false} TicksArePaid(w: World, trace: seq<Event>, t: World, id: RunId)
    requires Inv(w) && id in w.runs && Execute(w, trace) == Some(t)
    ensures id in t.runs
    ensures ProductiveTicks(w, trace, id) + Measure(t.runs[id]) <= Measure(w.runs[id])
  {
    if trace != [] {
      var front := trace[..|trace| - 1];
      var mid := Execute(w, front).value;
      TicksArePaid(w, front, mid, id);
      ExecuteKeeps(w, front, mid);
      MeasureStep(mid, trace[|trace| - 1], id);
    }
  }

  lemma StartMeasure(w: World, s: Settings, rows: seq<seq<int>>, inUse: set<int>, batch: Option<Batch>)
    requires Enabled(w, Launch(s, rows, inUse, batch))
    ensures var t := StartRun(w, s, rows, batch);
            w.nextRun in t.runs && |t.runs[w.nextRun].jobs| == |rows| &&
            Measure(t.runs[w.nextRun]) <= 2 * |rows| + 1
  {
  }

  /** From its start a run over `n` groups is closed after at most 2n + 1 productive ticks, and while it is
      RUNNING it has had fewer than 2n. */
  lemma RunFinishes(w: World, s: Settings, rows: seq<seq<int>>, inUse: set<int>, batch: Option<Batch>,
                    trace: seq<Event>, t: World)
    requires Inv(w) && Enabled(w, Launch(s, rows, inUse, batch))
    requires Execute(StartRun(w, s, rows, batch), trace) == Some(t)
    ensures var ticks := ProductiveTicks(StartRun(w, s, rows, batch), trace, w.nextRun);
            ticks <= 2 * |rows| + 1 && (IsRunning(t, w.nextRun) ==> ticks < 2 * |rows|)
  {
    var started := StartRun(w, s, rows, batch);
    LaunchKeeps(w, s, rows, inUse, batch);
    StartMeasure(w, s, rows, inUse, batch);
    TicksArePaid(started, trace, t, w.nextRun);
    ExecuteKeeps(started, trace, t);
    OpenMeasure(t, w.nextRun);
  }
}
