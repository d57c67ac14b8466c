/** What one tick does to a run, said over its jobs and rows: when it waits, and what it writes when it does not. */
module PlanRunTicks {
  import opened Wrappers
  import opened Sets
  import opened PlanRuns
  import opened PlanRunSafety

  // ----- the group a tick looks at -----

  ghost predicate IsBare(run: Run, i: nat)
    requires i < |run.jobs|
  {
    run.jobs[i] == [] && (i < |run.pending| ==> run.pending[i] == [])
  }

  /** The first group from `from` on with jobs or rows, or the end. */
  ghost predicate IsNext(run: Run, from: nat, i: nat) {
    && from <= i <= |run.jobs|
    && (forall m :: from <= m < i ==> IsBare(run, m))
    && (i < |run.jobs| ==> !IsBare(run, i))
  }

  lemma NextIsUnique(run: Run, from: nat, i: nat)
    requires IsNext(run, from, i)
    ensures FirstBusy(run, from) == i
  {
    var k := FirstBusy(run, from);
    assert k < i ==> IsBare(run, k);
    assert i < |run.jobs| ==> run.jobs[i] != [] || RowsAt(run, i) != [];
  }

  // ----- a group that has jobs -----

  /** COMPLETED, FAILED or CANCELLED; a job whose hash is gone counts as PENDING. */
  ghost predicate HasEnded(jobs: map<JobId, Job>, j: JobId) {
    j in jobs && (jobs[j].state.Completed? || jobs[j].state.Failed? || jobs[j].state.Cancelled?)
  }

  ghost predicate AllEnded(jobs: map<JobId, Job>, ids: seq<JobId>) {
    forall j :: j in ids ==> HasEnded(jobs, j)
  }

  ghost predicate SomeIs(jobs: map<JobId, Job>, ids: seq<JobId>, s: JobState) {
    exists j :: j in ids && j in jobs && jobs[j].state == s
  }

  lemma StatesSay(jobs: map<JobId, Job>, ids: seq<JobId>)
    ensures AllTerminal(States(jobs, ids)) <==> AllEnded(jobs, ids)
    ensures forall s: JobState :: IsTerminal(s) ==> (s in States(jobs, ids) <==> SomeIs(jobs, ids, s))
  {
    var states := States(jobs, ids);
    forall j | j in ids
      ensures StateOf(jobs, j) in states
    {
      var p :| 0 <= p < |ids| && ids[p] == j;
      assert states[p] == StateOf(jobs, j);
    }
    forall s | s in states
      ensures exists j :: j in ids && StateOf(jobs, j) == s
    {
      var p :| 0 <= p < |ids| && states[p] == s;
      assert ids[p] in ids;
    }
  }

  /** A tick of a group with jobs leaves the whole store as it is exactly if one of them has not ended, and no batch
      it might be given matters. */
  lemma TickWaitsIff(w: World, id: RunId, i: nat, batch: Option<Batch>)
    requires Inv(w) && IsRunning(w, id) && (batch.Some? ==> IsMatched(batch.value))
    requires IsNext(w.runs[id], w.runs[id].index, i) && i < |w.runs[id].jobs| && w.runs[id].jobs[i] != []
    ensures Advance(w, id, batch) == w <==> !AllEnded(w.jobs, w.runs[id].jobs[i])
  {
    var run := w.runs[id];
    NextIsUnique(run, run.index, i);
    StatesSay(w.jobs, run.jobs[i]);
    assert RunOk(w.jobs, id, run);
    if AllEnded(w.jobs, run.jobs[i]) {
      assert Advance(w, id, batch).runs[id] != run;
    }
  }

  /** What the judged run becomes: FAILED if a job failed and the plan halts on errors, else CANCELLED if one was
      cancelled and none completed, else COMPLETED or moved to the next group with jobs or rows. */
  ghost predicate IsJudged(jobs: map<JobId, Job>, run: Run, i: nat, next: Run)
    requires i < |run.jobs|
  {
    if SomeIs(jobs, run.jobs[i], Failed) && run.settings.halt then next == run.(status := RunFailed)
    else if SomeIs(jobs, run.jobs[i], Cancelled) && !SomeIs(jobs, run.jobs[i], Completed) then
      next == run.(status := RunCancelled)
    else if IsNext(run, i + 1, |run.jobs|) then next == run.(status := RunCompleted, index := |run.jobs|)
    else IsNext(run, i + 1, next.index) && next == run.(index := next.index)
  }

  /** Once all of them have ended the tick writes the judged record and nothing else. */
  lemma TickJudges(w: World, id: RunId, i: nat, batch: Option<Batch>)
    requires Inv(w) && IsRunning(w, id) && (batch.Some? ==> IsMatched(batch.value))
    requires IsNext(w.runs[id], w.runs[id].index, i) && i < |w.runs[id].jobs| && w.runs[id].jobs[i] != []
    requires AllEnded(w.jobs, w.runs[id].jobs[i])
    ensures var t := Advance(w, id, batch);
            && id in t.runs && IsJudged(w.jobs, w.runs[id], i, t.runs[id])
            && t == w.(runs := w.runs[id := t.runs[id]],
                       active := if t.runs[id].status.Running? then w.active else w.active - {id})
  {
    var run := w.runs[id];
    NextIsUnique(run, run.index, i);
    StatesSay(w.jobs, run.jobs[i]);
    assert RunOk(w.jobs, id, run);
    JudgeIsRight(w.jobs, run, i);
    assert w.active + {id} == w.active;
  }

  lemma NextIsFound(run: Run, from: nat)
    requires from <= |run.jobs|
    ensures IsNext(run, from, FirstBusy(run, from))
  {
    var k := FirstBusy(run, from);
    forall m | from <= m < k
      ensures IsBare(run, m)
    {
      assert RowsAt(run, m) == [];
    }
  }

  lemma DecisionIs(jobs: map<JobId, Job>, run: Run, i: nat, failed: bool, cancelled: bool, completed: bool)
    requires i == FirstBusy(run, run.index) && i < |run.jobs| && run.jobs[i] != []
    requires AllTerminal(States(jobs, run.jobs[i]))
    requires failed == (Failed in States(jobs, run.jobs[i])) && cancelled == (Cancelled in States(jobs, run.jobs[i]))
    requires completed == (Completed in States(jobs, run.jobs[i]))
    ensures var k := FirstBusy(run, i + 1);
            Decide(jobs, run) ==
              if failed && run.settings.halt then Close(RunFailed, run.index)
              else if cancelled && !completed then Close(RunCancelled, run.index)
              else if k >= |run.jobs| then Close(RunCompleted, k) else GoTo(k)
  {
  }

  lemma JudgeIsRight(jobs: map<JobId, Job>, run: Run, i: nat)
    requires i == FirstBusy(run, run.index) && i < |run.jobs| && run.jobs[i] != []
    requires AllEnded(jobs, run.jobs[i])
    ensures var d := Decide(jobs, run);
            (d.Close? && IsJudged(jobs, run, i, run.(status := d.status, index := d.at))) ||
            (d.GoTo? && IsJudged(jobs, run, i, run.(index := d.at)))
  {
    StatesSay(jobs, run.jobs[i]);
    var ids := run.jobs[i];
    DecisionIs(jobs, run, i, SomeIs(jobs, ids, Failed), SomeIs(jobs, ids, Cancelled), SomeIs(jobs, ids, Completed));
    var k := FirstBusy(run, i + 1);
    NextIsFound(run, i + 1);
    if IsNext(run, i + 1, |run.jobs|) {
      NextIsUnique(run, i + 1, |run.jobs|);
    }
  }

  // ----- a group that has rows only, and the end -----

  /** Without groups left the run is COMPLETED. */
  lemma TickCompletes(w: World, id: RunId, batch: Option<Batch>)
    requires IsRunning(w, id) && (batch.Some? ==> IsMatched(batch.value))
    requires IsNext(w.runs[id], w.runs[id].index, |w.runs[id].jobs|)
    ensures Advance(w, id, batch) ==
            w.(runs := w.runs[id := w.runs[id].(status := RunCompleted, index := |w.runs[id].jobs|)],
               active := w.active - {id})
  {
    NextIsUnique(w.runs[id], w.runs[id].index, |w.runs[id].jobs|);
  }

  /** A run that is not RUNNING is taken off the active set, and that is all. */
  lemma TickDropsClosed(w: World, id: RunId, batch: Option<Batch>)
    requires !IsRunning(w, id) && (batch.Some? ==> IsMatched(batch.value))
    ensures Advance(w, id, batch) == w.(active := w.active - {id})
  {
  }

  /** Job `j` is the one that its row of the batch becomes, the ids counting from `first`. */
  ghost predicate IsJobOf(jobs: map<JobId, Job>, j: JobId, run: Option<RunId>, group: nat, b: Batch, first: JobId) {
    && IsMatched(b) && first <= j < first + |b.rows| && j in jobs
    && var job, k := jobs[j], j - first;
       && job.state.Pending? && !job.cancelRequested && job.run == run && job.group == group
       && job.source == b.rows[k] && job.vmid == b.vmids[k] && job.node == b.nodes[k]
  }

  /** There is one new job per row and nothing else differs. */
  ghost predicate IsFilled(jobs: map<JobId, Job>, more: map<JobId, Job>, run: Option<RunId>, group: nat, b: Batch,
                           first: JobId) {
    && (forall j :: j in more <==> j in jobs || first <= j < first + |b.rows|)
    && (forall j :: j in jobs ==> j in more && more[j] == jobs[j])
    && (forall j :: first <= j < first + |b.rows| ==> IsJobOf(more, j, run, group, b, first))
  }

  /** The new ids are appended in row order. */
  ghost predicate IsAppended(queue: seq<JobId>, longer: seq<JobId>, first: JobId, count: nat) {
    && |longer| == |queue| + count
    && (forall p :: 0 <= p < |queue| ==> longer[p] == queue[p])
    && (forall p :: |queue| <= p < |longer| ==> longer[p] == first + (p - |queue|))
  }

  ghost predicate IsEnqueued(w: World, t: World, run: Option<RunId>, group: nat, b: Batch) {
    && t.nextJob == w.nextJob + |b.rows|
    && IsFilled(w.jobs, t.jobs, run, group, b, w.nextJob)
    && IsAppended(w.queue, t.queue, w.nextJob, |b.rows|)
    && t.inHand == w.inHand && t.checked == w.checked && t.asked == w.asked && t.paused == w.paused
  }

  lemma EnqueueIsRight(w: World, run: Option<RunId>, group: nat, b: Batch)
    requires Fresh(w) && IsMatched(b)
    ensures IsEnqueued(w, Enqueue(w, run, group, b), run, group, b)
  {
    var t := Enqueue(w, run, group, b);
    IdsHas(w.nextJob, |b.rows|);
    forall j | w.nextJob <= j < w.nextJob + |b.rows|
      ensures IsJobOf(t.jobs, j, run, group, b, w.nextJob)
    {
      assert j in Ids(w.nextJob, |b.rows|);
    }
  }

  /** A record after its enqueue lists the new jobs under the group, stands at it and has their targets at the end. */
  ghost predicate IsListed(first: JobId, run: Run, i: nat, b: Batch, next: Run) {
    && IsMatched(b) && i < |run.jobs|
    && next == run.(index := i, jobs := next.jobs, targets := next.targets, nextVmid := next.nextVmid)
    && |next.jobs| == |run.jobs| && (forall m :: 0 <= m < |run.jobs| && m != i ==> next.jobs[m] == run.jobs[m])
    && IsAppended([], next.jobs[i], first, |b.rows|)
    && |next.targets| == |run.targets| + |b.rows|
    && (forall p :: 0 <= p < |run.targets| ==> next.targets[p] == run.targets[p])
    && (forall p :: |run.targets| <= p < |next.targets| ==>
          next.targets[p] == Target(b.vmids[p - |run.targets|], b.nodes[p - |run.targets|]))
    && IsPast(next.nextVmid, next.targets, run.nextVmid)
  }

  ghost predicate HasTarget(targets: seq<Target>, v: int) {
    exists t :: t in targets && t.vmid == v
  }

  /** One more than the largest VMID other than zero, or as before without any. */
  ghost predicate IsPast(next: int, targets: seq<Target>, before: int) {
    if forall t :: t in targets ==> t.vmid == 0 then next == before
    else next != 1 && HasTarget(targets, next - 1) && forall t :: t in targets && t.vmid != 0 ==> t.vmid < next
  }

  lemma {:induction false} LargestMeans(targets: seq<Target>)
    ensures var most := Largest(targets);
            if most.None? then forall t :: t in targets ==> t.vmid == 0
            else most.value != 0 && HasTarget(targets, most.value) &&
                 forall t :: t in targets && t.vmid != 0 ==> t.vmid <= most.value
  {
    if targets != [] {
      var front, last := targets[..|targets| - 1], targets[|targets| - 1];
      LargestMeans(front);
      assert forall t :: t in targets <==> t in front || t == last;
    }
  }

  lemma ListedIsRight(w: World, run: Run, i: nat, b: Batch)
    requires IsMatched(b) && i < |run.jobs|
    ensures IsListed(w.nextJob, run, i, b, Listed(w, run, i, b))
  {
    var next := Listed(w, run, i, b);
    LargestMeans(next.targets);
    if forall t :: t in next.targets ==> t.vmid == 0 {
      assert Largest(next.targets).None?;
    }
  }

  lemma AdvanceEnqueues(w: World, id: RunId, i: nat, b: Batch)
    requires IsRunning(w, id) && IsMatched(b) && id in w.active
    requires FirstBusy(w.runs[id], w.runs[id].index) == i < |w.runs[id].jobs| && w.runs[id].jobs[i] == []
    ensures Advance(w, id, Some(b)) == Enqueue(w, Some(id), i, b).(runs := w.runs[id := Listed(w, w.runs[id], i, b)])
  {
    assert w.active + {id} == w.active;
  }

  /** A tick of a group with rows and no jobs does nothing without a batch, and with one enqueues it, lists it and
      saves both. */
  lemma TickEnqueues(w: World, id: RunId, i: nat, batch: Option<Batch>)
    requires Inv(w) && IsRunning(w, id) && (batch.Some? ==> IsMatched(batch.value))
    requires IsNext(w.runs[id], w.runs[id].index, i) && i < |w.runs[id].jobs| && w.runs[id].jobs[i] == []
    ensures batch.None? ==> Advance(w, id, batch) == w
    ensures var t := Advance(w, id, batch);
            batch.Some? ==>
              && IsEnqueued(w, t, Some(id), i, batch.value)
              && id in t.runs && IsListed(w.nextJob, w.runs[id], i, batch.value, t.runs[id])
              && t.runs == w.runs[id := t.runs[id]] && t.active == w.active && t.nextRun == w.nextRun
  {
    NextIsUnique(w.runs[id], w.runs[id].index, i);
    if batch.Some? {
      EnqueueIsRight(w, Some(id), i, batch.value);
      ListedIsRight(w, w.runs[id], i, batch.value);
      AdvanceEnqueues(w, id, i, batch.value);
    }
  }

  // ----- a start -----

  /** `t` has one more run than `w`, RUNNING and active. */
  ghost predicate IsOpened(w: World, t: World) {
    && w.nextRun !in w.runs && t.nextRun == w.nextRun + 1
    && t.runs.Keys == w.runs.Keys + {w.nextRun} && (forall k :: k in w.runs ==> k in t.runs && t.runs[k] == w.runs[k])
    && t.active == w.active + {w.nextRun}
  }

  /** The record of a new run at group `i`: no jobs, no targets. */
  ghost predicate IsBlank(run: Run, s: Settings, groups: nat, i: nat, pending: seq<seq<int>>) {
    && run.settings == s && run.status.Running? && run.index == i && run.pending == pending
    && |run.jobs| == groups && (forall m :: 0 <= m < groups ==> run.jobs[m] == [])
    && run.nextVmid == 0 && run.targets == []
  }

  /** A start without a batch leaves a blank record without rows. */
  lemma FailedStartIsRight(w: World, s: Settings, rows: seq<seq<int>>, i: nat)
    requires Fresh(w) && i < |rows| && rows[i] != [] && forall m :: 0 <= m < i ==> rows[m] == []
    ensures HasRows(rows)
    ensures var t := StartRun(w, s, rows, None);
            && IsOpened(w, t) && IsBlank(t.runs[w.nextRun], s, |rows|, i, [])
            && t == w.(runs := t.runs, active := t.active, nextRun := t.nextRun)
  {
    FirstRowsAt(rows, i);
  }

  lemma {:induction false} FirstRowsAt(rows: seq<seq<int>>, i: nat)
    requires i < |rows| && rows[i] != [] && forall m :: 0 <= m < i ==> rows[m] == []
    ensures HasRows(rows) && FirstGroup(rows) == i
  {
  }

  /** A start with a batch for the first group that has rows enqueues it and saves a record with all rows, the group's
      jobs and the targets; the next VMID is the plan's start only if it would be zero. */
  lemma StartIsRight(w: World, s: Settings, rows: seq<seq<int>>, i: nat, b: Batch) returns (blank: Run, listed: Run)
    requires Fresh(w) && i < |rows| && rows[i] != [] && (forall m :: 0 <= m < i ==> rows[m] == []) && IsMatched(b)
    ensures HasRows(rows)
    ensures IsBlank(blank, s, |rows|, i, rows) && IsListed(w.nextJob, blank, i, b, listed)
    ensures var t := StartRun(w, s, rows, Some(b));
            && IsOpened(w, t) && IsEnqueued(w, t, Some(w.nextRun), i, b)
            && t.runs[w.nextRun] == listed.(nextVmid := if listed.nextVmid == 0 then s.vmidStart else listed.nextVmid)
  {
    FirstRowsAt(rows, i);
    blank := Shell(s, |rows|, i).(pending := rows);
    var saved := ShellSaved(w, s, rows);
    listed := Listed(saved, blank, i, b);
    ListedIsRight(saved, blank, i, b);
    EnqueueIsRight(w, Some(w.nextRun), i, b);
    StartOpens(w, s, rows, b, listed);
  }

  lemma EnqueueIgnoresRuns(w: World, t: World, run: Option<RunId>, group: nat, b: Batch)
    requires IsMatched(b) && t == w.(runs := t.runs, active := t.active, nextRun := t.nextRun)
    ensures Enqueue(t, run, group, b) == Enqueue(w, run, group, b).(runs := t.runs, active := t.active, nextRun := t.nextRun)
  {
  }

  lemma SavedTwiceOpens(w: World, e: World, shell: Run, run: Run)
    requires Fresh(w) && shell.status.Running? && run.status.Running?
    requires e.runs == w.runs[w.nextRun := shell] && e.active == w.active + {w.nextRun} && e.nextRun == w.nextRun + 1
    ensures var t := SaveRun(e, w.nextRun, run);
            IsOpened(w, t) && t.runs[w.nextRun] == run && t == e.(runs := t.runs)
  {
    assert e.active + {w.nextRun} == e.active;
  }

  lemma StartOpens(w: World, s: Settings, rows: seq<seq<int>>, b: Batch, listed: Run)
    requires Fresh(w) && HasRows(rows) && IsMatched(b)
    requires var i := FirstGroup(rows);
             listed == Listed(ShellSaved(w, s, rows), Shell(s, |rows|, i).(pending := rows), i, b)
    ensures var t, e := StartRun(w, s, rows, Some(b)), Enqueue(w, Some(w.nextRun), FirstGroup(rows), b);
            && IsOpened(w, t) && t.runs[w.nextRun] == Started(listed, s.vmidStart)
            && t == e.(runs := t.runs, active := t.active, nextRun := t.nextRun)
  {
    var i, saved := FirstGroup(rows), ShellSaved(w, s, rows);
    StartIsTwoSaves(w, s, rows, b);
    EnqueueIgnoresRuns(w, saved, Some(w.nextRun), i, b);
    SavedTwiceOpens(w, Enqueue(saved, Some(w.nextRun), i, b), Shell(s, |rows|, i), Started(listed, s.vmidStart));
  }
}
