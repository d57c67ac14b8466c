/** Ordered groups of restore jobs on one shared queue: the stored records and the atomic steps on them. */
module PlanRuns {
  import opened Wrappers
  import opened Sets
  import A = Allocator
  import P = Placement
  import T = Text

  type JobId = nat
  type RunId = nat

  datatype JobState = Pending | Restoring | Completed | Failed | Cancelled

  predicate IsTerminal(s: JobState) {
    s.Completed? || s.Failed? || s.Cancelled?
  }

  /** `source` is the VMID of the backup row the job restores, `vmid` the VMID it restores to. */
  datatype Job = Job(
    state: JobState,
    cancelRequested: bool,
    run: Option<RunId>,
    group: nat,
    source: int,
    vmid: int,
    node: string
  )

  datatype RunStatus = Running | RunCompleted | RunFailed | RunCancelled

  datatype Mode = Normal | Dr

  /** What a run takes from its plan and location. */
  datatype Settings = Settings(
    halt: bool,
    mode: Mode,
    overwrite: bool,
    node: string,
    nodes: seq<string>,
    vmidStart: int
  )

  datatype Target = Target(vmid: int, node: string)

  /** `pending` holds the source VMIDs of every group's rows, or nothing; `nextVmid` is 0 while absent. */
  datatype Run = Run(
    settings: Settings,
    status: RunStatus,
    index: nat,
    jobs: seq<seq<JobId>>,
    pending: seq<seq<int>>,
    nextVmid: int,
    targets: seq<Target>
  )

  /** The store; the ids workers have popped; those popped ids whose cancel request a worker has found unset but
      whose RESTORING it has not written yet; and those whose request was set by the time RESTORING was written.
      Fresh ids come from two counters. */
  datatype World = World(
    jobs: map<JobId, Job>,
    queue: seq<JobId>,
    inHand: set<JobId>,
    checked: set<JobId>,
    asked: set<JobId>,
    runs: map<RunId, Run>,
    active: set<RunId>,
    paused: bool,
    nextJob: JobId,
    nextRun: RunId
  )

  const EMPTY := World(map[], [], {}, {}, {}, map[], {}, false, 0, 0)

  // ----- enqueueing a batch -----

  /** The source VMIDs of the rows of one enqueue, and the VMIDs and nodes given to them. */
  datatype Batch = Batch(rows: seq<int>, vmids: seq<int>, nodes: seq<string>)

  predicate IsMatched(b: Batch) {
    |b.rows| == |b.vmids| == |b.nodes|
  }

  function Candidates(s: Settings): seq<string> {
    if T.Clean(s.nodes) != [] then T.Clean(s.nodes) else T.Clean([s.node])
  }

  predicate IsActive(job: Job, n: string) {
    (job.state.Pending? || job.state.Restoring?) && T.Strip(job.node) == n && n != ""
  }

  function JobsOn(jobs: map<JobId, Job>, n: string): set<JobId> {
    set j | j in jobs && IsActive(jobs[j], n)
  }

  function BusyNodes(jobs: map<JobId, Job>): set<string> {
    set j | j in jobs && IsActive(jobs[j], T.Strip(jobs[j].node)) :: T.Strip(jobs[j].node)
  }

  function ActiveCounts(jobs: map<JobId, Job>): map<string, int> {
    map n | n in BusyNodes(jobs) :: |JobsOn(jobs, n)|
  }

  function After(vmids: seq<int>, start: int): int {
    if vmids == [] then start else vmids[|vmids| - 1] + 1
  }

  /** In normal mode the smallest free VMIDs from `start`, in DR mode the source VMIDs, distinct and, without
      overwrite, unused; nodes chosen least-loaded over the active jobs. */
  ghost predicate IsBatch(jobs: map<JobId, Job>, s: Settings, start: int, rows: seq<int>, inUse: set<int>, b: Batch) {
    && b.rows == rows && IsMatched(b)
    && P.IsGreedy(Candidates(s), ActiveCounts(jobs), b.nodes)
    && match s.mode
       case Normal => A.IsAllocation(inUse, start, |rows|, A.Allocation(b.vmids, After(b.vmids, start)))
       case Dr => b.vmids == rows && Distinct(rows) && (s.overwrite || forall v :: v in rows ==> v !in inUse)
  }

  function Ids(first: JobId, count: nat): seq<JobId> {
    seq(count, i requires i >= 0 => first + i)
  }

  function NewJobs(first: JobId, run: Option<RunId>, group: nat, b: Batch): map<JobId, Job>
    requires IsMatched(b)
  {
    map j | j in Ids(first, |b.rows|) ::
      Job(Pending, false, run, group, b.rows[j - first], b.vmids[j - first], b.nodes[j - first])
  }

  /** One PENDING job per row, pushed on the queue in row order. */
  function Enqueue(w: World, run: Option<RunId>, group: nat, b: Batch): World
    requires IsMatched(b)
  {
    w.(jobs := w.jobs + NewJobs(w.nextJob, run, group, b),
       queue := w.queue + Ids(w.nextJob, |b.rows|),
       nextJob := w.nextJob + |b.rows|)
  }

  // ----- plan runs -----

  function SaveRun(w: World, id: RunId, run: Run): World {
    w.(runs := w.runs[id := run],
       active := if run.status.Running? then w.active + {id} else w.active - {id})
  }

  function Zip(vmids: seq<int>, nodes: seq<string>): seq<Target>
    requires |vmids| == |nodes|
  {
    seq(|vmids|, i requires 0 <= i < |vmids| => Target(vmids[i], nodes[i]))
  }

  /** The largest VMID, those equal to zero left out. */
  function Largest(targets: seq<Target>): Option<int> {
    if targets == [] then None
    else
      var most := Largest(targets[..|targets| - 1]);
      var v := targets[|targets| - 1].vmid;
      if v != 0 && (most.None? || v > most.value) then Some(v) else most
  }

  function RecordTargets(run: Run, b: Batch): Run
    requires IsMatched(b)
  {
    var targets := run.targets + Zip(b.vmids, b.nodes);
    run.(targets := targets,
         nextVmid := if Largest(targets).Some? then Largest(targets).value + 1 else run.nextVmid)
  }

  /** First group from `i` on with jobs or pending rows. */
  function FirstBusy(run: Run, i: nat): (k: nat)
    ensures i <= k && (i <= |run.jobs| ==> k <= |run.jobs|)
    ensures forall m :: i <= m < k && m < |run.jobs| ==> run.jobs[m] == [] && RowsAt(run, m) == []
    ensures k < |run.jobs| ==> run.jobs[k] != [] || RowsAt(run, k) != []
    decreases |run.jobs| - i
  {
    if i >= |run.jobs| || run.jobs[i] != [] || RowsAt(run, i) != [] then i else FirstBusy(run, i + 1)
  }

  function RowsAt(run: Run, i: nat): seq<int> {
    if i < |run.pending| then run.pending[i] else []
  }

  function Shell(s: Settings, groups: nat, index: nat): Run {
    Run(s, Running, index, seq(groups, _ => []), [], 0, [])
  }

  predicate HasRows(rows: seq<seq<int>>) {
    exists i :: 0 <= i < |rows| && rows[i] != []
  }

  function FirstGroup(rows: seq<seq<int>>): (i: nat)
    requires HasRows(rows)
    ensures i < |rows| && rows[i] != [] && forall k :: 0 <= k < i ==> rows[k] == []
  {
    if rows[0] != [] then 0
    else
      assert HasRows(rows[1..]) by { assert exists i :: 0 < i < |rows| && rows[i] != [] && rows[1..][i - 1] == rows[i]; }
      1 + FirstGroup(rows[1..])
  }

  /** The shell is saved before the first group is enqueued; rows and jobs are saved only if that succeeds. */
  function StartRun(w: World, s: Settings, rows: seq<seq<int>>, batch: Option<Batch>): World
    requires HasRows(rows)
    requires batch.Some? ==> IsMatched(batch.value)
  {
    var id, i := w.nextRun, FirstGroup(rows);
    var shell := Shell(s, |rows|, i);
    var saved := SaveRun(w, id, shell).(nextRun := id + 1);
    match batch
    case None => saved
    case Some(b) =>
      var run := RecordTargets(shell.(jobs := shell.jobs[i := Ids(w.nextJob, |b.rows|)], pending := rows), b);
      var started := if run.nextVmid == 0 then run.(nextVmid := s.vmidStart) else run;
      SaveRun(Enqueue(saved, Some(id), i, b), id, started)
  }

  function StateOf(jobs: map<JobId, Job>, j: JobId): JobState {
    if j in jobs then jobs[j].state else Pending
  }

  function States(jobs: map<JobId, Job>, ids: seq<JobId>): seq<JobState> {
    seq(|ids|, i requires 0 <= i < |ids| => StateOf(jobs, ids[i]))
  }

  predicate AllTerminal(states: seq<JobState>) {
    forall s :: s in states ==> IsTerminal(s)
  }

  /** What a tick decides for one RUNNING run. */
  datatype Move =
    | Close(status: RunStatus, at: nat)
    | EnqueueGroup(at: nat)
    | Wait
    | GoTo(at: nat)

  function Decide(jobs: map<JobId, Job>, run: Run): Move {
    var i := FirstBusy(run, run.index);
    if i >= |run.jobs| then Close(RunCompleted, i)
    else if run.jobs[i] == [] then EnqueueGroup(i)
    else
      var states := States(jobs, run.jobs[i]);
      if !AllTerminal(states) then Wait
      else if Failed in states && run.settings.halt then Close(RunFailed, run.index)
      else if Cancelled in states && Completed !in states then Close(RunCancelled, run.index)
      else
        var k := FirstBusy(run, i + 1);
        if k >= |run.jobs| then Close(RunCompleted, k) else GoTo(k)
  }

  function StartVmid(run: Run): int {
    if run.nextVmid != 0 then run.nextVmid else if run.settings.vmidStart != 0 then run.settings.vmidStart else 100
  }

  /** One tick of one run from the record `run` it read; without a batch the enqueue raised. */
  function AdvanceFrom(w: World, id: RunId, run: Run, batch: Option<Batch>): World
    requires batch.Some? ==> IsMatched(batch.value)
  {
    match Decide(w.jobs, run)
    case Close(status, at) => SaveRun(w, id, run.(status := status, index := at))
    case Wait => w
    case GoTo(at) => SaveRun(w, id, run.(index := at))
    case EnqueueGroup(at) =>
      match batch
      case None => w
      case Some(b) =>
        var listed := run.(jobs := run.jobs[at := Ids(w.nextJob, |b.rows|)], index := at);
        SaveRun(Enqueue(w, Some(id), at, b), id, RecordTargets(listed, b))
  }

  predicate IsRunning(w: World, id: RunId) {
    id in w.runs && w.runs[id].status.Running?
  }

  function Advance(w: World, id: RunId, batch: Option<Batch>): World
    requires batch.Some? ==> IsMatched(batch.value)
  {
    if IsRunning(w, id) then AdvanceFrom(w, id, w.runs[id], batch) else w.(active := w.active - {id})
  }

  function CancelOne(job: Job): Job {
    match job.state
    case Pending => job.(state := Cancelled, cancelRequested := true)
    case Restoring => job.(cancelRequested := true)
    case _ => job
  }

  function CancelIn(jobs: map<JobId, Job>, ids: set<JobId>): map<JobId, Job> {
    map j | j in jobs :: if j in ids then CancelOne(jobs[j]) else jobs[j]
  }

  function PendingIn(jobs: map<JobId, Job>, ids: set<JobId>): set<JobId> {
    set j | j in ids && j in jobs && jobs[j].state.Pending?
  }

  /** The queue with every occurrence of the given ids removed. */
  function Without(queue: seq<JobId>, gone: set<JobId>): seq<JobId> {
    if queue == [] then []
    else Without(queue[..|queue| - 1], gone) + (if queue[|queue| - 1] in gone then [] else [queue[|queue| - 1]])
  }

  function MemberIds(jobs: seq<seq<JobId>>): set<JobId> {
    if jobs == [] then {} else MemberIds(jobs[..|jobs| - 1]) + ElementsOf(jobs[|jobs| - 1])
  }

  function ElementsOf(ids: seq<JobId>): set<JobId> {
    set j | j in ids
  }

  function CancelRun(w: World, id: RunId): World {
    if !IsRunning(w, id) then w
    else
      var run := w.runs[id];
      var ids := MemberIds(run.jobs);
      SaveRun(w.(jobs := CancelIn(w.jobs, ids), queue := Without(w.queue, PendingIn(w.jobs, ids))),
              id, run.(status := RunCancelled, pending := []))
  }

  // ----- single jobs -----

  function StopJob(w: World, j: JobId): World {
    if j !in w.jobs || IsTerminal(w.jobs[j].state) then w
    else w.(jobs := w.jobs[j := CancelOne(w.jobs[j])], queue := Without(w.queue, {j}))
  }

  /** The hash a drain leaves for a queued id that had none. */
  const BARE := Job(Cancelled, false, None, 0, 0, 0, "")

  function DrainOne(job: Job): Job {
    if job.state.Pending? then job.(state := Cancelled) else job
  }

  function Drained(jobs: map<JobId, Job>, queued: set<JobId>): map<JobId, Job> {
    map j | j in jobs.Keys + queued :: if j in jobs then DrainOne(jobs[j]) else BARE
  }

  /** Every PENDING job is cancelled, on the queue or not, without a cancel request. */
  function Drain(w: World): World {
    w.(jobs := Drained(w.jobs, ElementsOf(w.queue)), queue := [], paused := true)
  }

  function Pop(w: World): World
    requires w.queue != []
  {
    w.(queue := w.queue[1..], inHand := w.inHand + {w.queue[0]})
  }

  /** A worker looks at the cancel request of a popped job. A cancelled job is closed, any other goes on. */
  function CheckCancel(w: World, j: JobId): World {
    var taken := w.(inHand := w.inHand - {j});
    if PassesCheck(w, j) then taken.(checked := w.checked + {j})
    else if j in w.jobs then taken.(jobs := w.jobs[j := w.jobs[j].(state := Cancelled)])
    else taken
  }

  predicate PassesCheck(w: World, j: JobId) {
    j in w.jobs && !w.jobs[j].cancelRequested
  }

  /** Then it writes RESTORING, or FAILED when the fields of the job raise, over whatever state is there. */
  function WriteRestoring(w: World, j: JobId, ok: bool): World
    requires j in w.jobs
  {
    w.(checked := w.checked - {j},
       asked := if ok && w.jobs[j].cancelRequested then w.asked + {j} else w.asked,
       jobs := w.jobs[j := w.jobs[j].(state := if ok then Restoring else Failed)])
  }

  /** Both steps with nothing in between. */
  function Begin(w: World, j: JobId, ok: bool): World {
    var t := CheckCancel(w, j);
    if PassesCheck(w, j) then WriteRestoring(t, j, ok) else t
  }

  function Finish(w: World, j: JobId, s: JobState): World
    requires j in w.jobs
  {
    w.(jobs := w.jobs[j := w.jobs[j].(state := s)])
  }

  // ----- the state machine -----

  datatype Event =
    | Launch(settings: Settings, groups: seq<seq<int>>, inUse: set<int>, batch: Option<Batch>)  // start_plan_run
    | Tick(id: RunId, inUse: set<int>, batch: Option<Batch>)                                    // advance, one run
    | Abandon(id: RunId)                                                                        // cancel_plan_run
    | Submit(settings: Settings, rows: seq<int>, inUse: set<int>, jobsFor: Batch)               // enqueue, no run
    | Stop(j: JobId)
    | Sweep                                                                                     // drain
    | Take                                                                                      // pop
    | Check(j: JobId)                                                                           // cancel request?
    | Write(j: JobId, ok: bool)                                                                 // RESTORING
    | Settle(j: JobId, outcome: JobState)                                                       // worker ends
    | SetPaused(on: bool)

  /** No worker stands between the check and the write of this job. */
  predicate StopIsClear(w: World, j: JobId) {
    j !in w.checked
  }

  predicate CancelIsClear(w: World, id: RunId) {
    IsRunning(w, id) ==> MemberIds(w.runs[id].jobs) * w.checked == {}
  }

  /** No worker holds a PENDING job that its cancel check would let pass, or has let pass. */
  predicate DrainIsClear(w: World) {
    w.checked == {} &&
    forall j :: j in w.inHand && StateOf(w.jobs, j).Pending? ==> j in w.jobs && w.jobs[j].cancelRequested
  }

  ghost predicate AdvanceBatchOk(w: World, id: RunId, inUse: set<int>, batch: Option<Batch>) {
    && (batch.Some? ==> IsMatched(batch.value))
    && (batch.Some? && IsRunning(w, id) && Decide(w.jobs, w.runs[id]).EnqueueGroup? ==>
          var run := w.runs[id];
          IsBatch(w.jobs, run.settings, StartVmid(run), RowsAt(run, Decide(w.jobs, run).at), inUse, batch.value))
  }

  /** What can happen at all. A job asked to stop before it was RESTORING cannot end COMPLETED: the first thing
      the worker does while waiting for the restore is to look at the request. */
  ghost predicate Possible(w: World, e: Event) {
    match e
    case Launch(s, groups, inUse, batch) =>
      HasRows(groups) &&
      (batch.Some? ==> IsBatch(w.jobs, s, s.vmidStart, groups[FirstGroup(groups)], inUse, batch.value))
    case Tick(id, inUse, batch) => AdvanceBatchOk(w, id, inUse, batch)
    case Abandon(_) => true
    case Submit(s, rows, inUse, b) => IsBatch(w.jobs, s, s.vmidStart, rows, inUse, b)
    case Stop(_) => true
    case Sweep => true
    case Take => w.queue != []
    case Check(j) => j in w.inHand
    case Write(j, _) => j in w.checked && j in w.jobs
    case Settle(j, outcome) =>
      j in w.jobs && w.jobs[j].state.Restoring? && IsTerminal(outcome) && (outcome.Completed? ==> j !in w.asked)
    case SetPaused(_) => true
  }

  /** No worker stands in the way of a stop, a cancellation or a drain. */
  predicate IsClear(w: World, e: Event) {
    match e
    case Abandon(id) => CancelIsClear(w, id)
    case Stop(j) => StopIsClear(w, j)
    case Sweep => DrainIsClear(w)
    case _ => true
  }

  /** The steps of undisturbed runs; `PlanRunLimits` proves what the others break and exactly when. */
  ghost predicate Enabled(w: World, e: Event) {
    Possible(w, e) && IsClear(w, e)
  }

  ghost function Apply(w: World, e: Event): World
    requires Possible(w, e)
  {
    match e
    case Launch(s, groups, _, batch) => StartRun(w, s, groups, batch)
    case Tick(id, _, batch) => Advance(w, id, batch)
    case Abandon(id) => CancelRun(w, id)
    case Submit(_, _, _, b) => Enqueue(w, None, 0, b)
    case Stop(j) => StopJob(w, j)
    case Sweep => Drain(w)
    case Take => Pop(w)
    case Check(j) => CheckCancel(w, j)
    case Write(j, ok) => WriteRestoring(w, j, ok)
    case Settle(j, outcome) => Finish(w, j, outcome)
    case SetPaused(on) => w.(paused := on)
  }

  /** The world after a trace of enabled steps. */
  ghost function Execute(w: World, trace: seq<Event>): Option<World> {
    if trace == [] then Some(w)
    else
      var mid := Execute(w, trace[..|trace| - 1]);
      if mid.Some? && Enabled(mid.value, trace[|trace| - 1]) then Some(Apply(mid.value, trace[|trace| - 1]))
      else None
  }

  /** The world after a trace of possible steps, whoever stands in the way. */
  ghost function ExecuteAny(w: World, trace: seq<Event>): Option<World> {
    if trace == [] then Some(w)
    else
      var mid := ExecuteAny(w, trace[..|trace| - 1]);
      if mid.Some? && Possible(mid.value, trace[|trace| - 1]) then Some(Apply(mid.value, trace[|trace| - 1]))
      else None
  }
}
