/** The operations on the shared store as the services run them, each proved equal to its step. */
module PlanEngine {
  import opened Wrappers
  import opened Sets
  import opened PlanRuns
  import opened PlanRunSafety
  import opened PlanRunTheorems
  import opened PlanRunTicks
  import opened PlanRunFrames
  import opened PlanRunBatches
  import A = Allocator
  import O = Ownership
  import P = Placement
  import Slots
  import T = Text

  /** What an enqueue learns from outside: the VMIDs listed as in use, whether every candidate node has a storage,
      and how the calls for each guest end. */
  datatype Env = Env(listing: Option<set<int>>, storageOk: bool, apiOf: int -> O.Api)

  /** The enqueue gets as far as reclaiming the guests that a DR overwrite replaces. */
  ghost predicate Reclaims(s: Settings, rows: seq<int>, env: Env) {
    && Candidates(s) != [] && env.storageOk && env.listing.Some?
    && s.mode.Dr? && s.overwrite && Distinct(rows)
  }

  function ReclaimFor(s: Settings, rows: seq<int>, env: Env, guests: O.Guests): O.Reclaimed
    requires Candidates(s) != [] && env.listing.Some?
  {
    O.Reclaim(guests, rows, env.listing.value, Candidates(s)[0], env.apiOf)
  }

  /** Exactly when an enqueue does not raise. */
  ghost predicate CanEnqueue(s: Settings, start: int, rows: seq<int>, env: Env, guests: O.Guests) {
    && Candidates(s) != [] && env.storageOk && env.listing.Some?
    && match s.mode
       case Normal =>
         |rows| < 1 || |A.Free(env.listing.value, A.ScanStart(start), A.ScanEnd(start, |rows|))| >= |rows|
       case Dr =>
         Distinct(rows) &&
         (if s.overwrite then ReclaimFor(s, rows, env, guests).ok else forall v :: v in rows ==> v !in env.listing.value)
  }

  /** An enqueue needs a node name that is not blank, a storage for every candidate and the VMIDs in use. In normal mode
      the window must hold a free VMID for each row. In DR mode the source VMIDs must be distinct, and each one in use
      needs overwrite, a marked QEMU guest with a readable config on a known node, and a delete that replies. */
  lemma CanEnqueueIff(s: Settings, start: int, rows: seq<int>, env: Env, guests: O.Guests)
    ensures CanEnqueue(s, start, rows, env, guests) <==>
            && ((exists i :: 0 <= i < |s.nodes| && T.Strip(s.nodes[i]) != "") || T.Strip(s.node) != "")
            && env.storageOk && env.listing.Some?
            && (s.mode.Normal? ==>
                  rows == [] || |A.Free(env.listing.value, A.ScanStart(start), A.ScanEnd(start, |rows|))| >= |rows|)
            && (s.mode.Dr? ==>
                  && (forall i, k :: 0 <= i < k < |rows| ==> rows[i] != rows[k])
                  && forall v :: v in rows && v in env.listing.value ==>
                       s.overwrite && IsCleared(guests, v, env.apiOf(v)))
  {
    HasCandidates(s);
    if s.mode.Dr? && s.overwrite && Candidates(s) != [] && env.listing.Some? && Distinct(rows) {
      CandidatesAre(s, Candidates(s)[0]);
      O.ReclaimExact(guests, rows, env.listing.value, Candidates(s)[0], env.apiOf, 0);
      assert forall v :: v in rows ==>
        (O.Reclaimable(guests, v, env.listing.value, Candidates(s)[0], env.apiOf) <==>
         v !in env.listing.value || IsCleared(guests, v, env.apiOf(v)));
    }
  }

  /** The guest at a VMID in use can be cleared away. */
  predicate IsCleared(guests: O.Guests, v: int, api: O.Api) {
    && v in guests && guests[v].kind.Qemu? && api.readable && guests[v].marked
    && api.nodeLookup.Replies? && api.lookup.Replies? && api.delete.answer.Replies?
  }

  lemma HasCandidates(s: Settings)
    ensures Candidates(s) != [] <==>
            (exists i :: 0 <= i < |s.nodes| && T.Strip(s.nodes[i]) != "") || T.Strip(s.node) != ""
  {
    if Candidates(s) != [] {
      CandidatesAre(s, Candidates(s)[0]);
    }
    if i :| 0 <= i < |s.nodes| && T.Strip(s.nodes[i]) != "" {
      CandidatesAre(s, T.Strip(s.nodes[i]));
    } else {
      CandidatesAre(s, T.Strip(s.node));
    }
  }

  ghost function AfterEnqueue(s: Settings, rows: seq<int>, env: Env, guests: O.Guests): O.Guests {
    if Reclaims(s, rows, env) then ReclaimFor(s, rows, env, guests).guests else guests
  }

  /** What an enqueue does to the guests. It takes only guests it may clear: those of a DR overwrite, in use, marked;
      and one that succeeds has taken exactly those whose delete removes them. */
  lemma EnqueueTakesIff(s: Settings, start: int, rows: seq<int>, env: Env, guests: O.Guests, v: int)
    ensures var after := AfterEnqueue(s, rows, env, guests);
            && (v in after ==> v in guests && after[v] == guests[v])
            && (v in guests && v !in after ==>
                  s.mode.Dr? && s.overwrite && v in rows && guests[v].kind.Qemu? && guests[v].marked)
            && (CanEnqueue(s, start, rows, env, guests) && v in guests ==>
                  (v !in after <==>
                     s.mode.Dr? && s.overwrite && v in rows && v in env.listing.value && env.apiOf(v).delete.removes))
  {
    if Reclaims(s, rows, env) {
      var fallback := Candidates(s)[0];
      O.ReclaimExact(guests, rows, env.listing.value, fallback, env.apiOf, v);
      if O.IsTried(guests, rows, v, env.listing.value, fallback, env.apiOf) {
        O.TriedIsMember(guests, rows, v, env.listing.value, fallback, env.apiOf);
      }
      if CanEnqueue(s, start, rows, env, guests) && v in rows && v in env.listing.value {
        AllAreTried(guests, rows, v, env.listing.value, fallback, env.apiOf);
      }
    }
  }

  lemma {:induction false} AllAreTried(guests: O.Guests, rows: seq<int>, v: int, inUse: set<int>, fallback: string,
                                       apiOf: int -> O.Api)
    requires v in rows && v in inUse && forall x :: x in rows ==> O.Reclaimable(guests, x, inUse, fallback, apiOf)
    ensures O.IsTried(guests, rows, v, inUse, fallback, apiOf)
  {
    if rows[0] != v {
      AllAreTried(guests, rows[1..], v, inUse, fallback, apiOf);
    }
  }

  lemma {:induction false} CleanTwice(nodes: seq<string>)
    ensures T.Clean(T.Clean(nodes)) == T.Clean(nodes)
  {
    if nodes != [] {
      CleanTwice(nodes[1..]);
      var name, rest := T.Strip(nodes[0]), T.Clean(nodes[1..]);
      T.StripTrimmed(nodes[0]);
      T.StripTrimmed(name);
      if name == "" {
        assert T.Clean(nodes) == rest;
      } else {
        assert ([name] + rest)[1..] == rest && ([name] + rest)[0] == name;
      }
    }
  }

  lemma CandidatesAreClean(s: Settings)
    ensures T.Clean(Candidates(s)) == Candidates(s)
  {
    CleanTwice(s.nodes);
    CleanTwice([s.node]);
  }

  lemma NewJobsHas(first: JobId, run: Option<RunId>, group: nat, b: Batch)
    requires IsMatched(b)
    ensures forall j :: j in NewJobs(first, run, group, b) <==> first <= j < first + |b.rows|
  {
    IdsHas(first, |b.rows|);
  }

  lemma UpdateAfterUnion<K, V>(a: map<K, V>, b: map<K, V>, k: K, v: V)
    ensures a + b[k := v] == (a + b)[k := v]
  {
  }

  /** The first rows of a batch. */
  function Prefix(b: Batch, i: nat): Batch
    requires IsMatched(b) && i <= |b.rows|
  {
    Batch(b.rows[..i], b.vmids[..i], b.nodes[..i])
  }

  function JobAt(run: Option<RunId>, group: nat, b: Batch, i: nat): Job
    requires IsMatched(b) && i < |b.rows|
  {
    Job(Pending, false, run, group, b.rows[i], b.vmids[i], b.nodes[i])
  }

  /** Pushing one more job extends the batch. */
  lemma NewJobsOneMore(jobs: map<JobId, Job>, first: JobId, run: Option<RunId>, group: nat, b: Batch, i: nat)
    requires IsMatched(b) && i < |b.rows|
    ensures jobs + NewJobs(first, run, group, Prefix(b, i + 1)) ==
            (jobs + NewJobs(first, run, group, Prefix(b, i)))[first + i := JobAt(run, group, b, i)]
    ensures Ids(first, i + 1) == Ids(first, i) + [first + i]
  {
    var less, more := NewJobs(first, run, group, Prefix(b, i)), NewJobs(first, run, group, Prefix(b, i + 1));
    NewJobsHas(first, run, group, Prefix(b, i));
    NewJobsHas(first, run, group, Prefix(b, i + 1));
    assert more == less[first + i := JobAt(run, group, b, i)];
    UpdateAfterUnion(jobs, less, first + i, JobAt(run, group, b, i));
  }

  function Pushed(w: World, job: Job): World {
    w.(jobs := w.jobs[w.nextJob := job], queue := w.queue + [w.nextJob], nextJob := w.nextJob + 1)
  }

  /** The first `i` jobs of the batch are pushed. */
  ghost predicate IsPushed(w: World, run: Option<RunId>, group: nat, b: Batch, i: nat, t: World)
    requires IsMatched(b) && i <= |b.rows|
  {
    t == w.(jobs := w.jobs + NewJobs(w.nextJob, run, group, Prefix(b, i)),
            queue := w.queue + Ids(w.nextJob, i), nextJob := w.nextJob + i)
  }

  lemma PushedNone(w: World, run: Option<RunId>, group: nat, b: Batch)
    requires IsMatched(b)
    ensures IsPushed(w, run, group, b, 0, w)
  {
    NewJobsHas(w.nextJob, run, group, Prefix(b, 0));
    assert w.jobs + NewJobs(w.nextJob, run, group, Prefix(b, 0)) == w.jobs;
    assert w.queue + Ids(w.nextJob, 0) == w.queue;
  }

  lemma PushedOneMore(w: World, run: Option<RunId>, group: nat, b: Batch, i: nat, t: World)
    requires IsMatched(b) && i < |b.rows| && IsPushed(w, run, group, b, i, t)
    ensures IsPushed(w, run, group, b, i + 1, Pushed(t, JobAt(run, group, b, i)))
    ensures Ids(w.nextJob, i + 1) == Ids(w.nextJob, i) + [t.nextJob]
  {
    NewJobsOneMore(w.jobs, w.nextJob, run, group, b, i);
    assert w.queue + Ids(w.nextJob, i + 1) == (w.queue + Ids(w.nextJob, i)) + [t.nextJob];
  }

  /** The jobs once the given popped ids have been cancelled. */
  function DrainedPart(jobs: map<JobId, Job>, popped: set<JobId>): map<JobId, Job> {
    map j | j in jobs.Keys + popped ::
      if j in jobs then (if j in popped then DrainOne(jobs[j]) else jobs[j]) else BARE
  }

  /** Ids a drain reports: those that read as PENDING. */
  function Reported(jobs: map<JobId, Job>, ids: set<JobId>): set<JobId> {
    set j | j in ids && StateOf(jobs, j).Pending?
  }

  class Store {
    const cluster: O.Cluster
    var jobs: map<JobId, Job>
    var queue: seq<JobId>
    var inHand: set<JobId>
    var checked: set<JobId>
    var asked: set<JobId>
    var runs: map<RunId, Run>
    var active: set<RunId>
    var paused: bool
    var nextJob: JobId
    var nextRun: RunId

    function State(): World
      reads this
    {
      World(jobs, queue, inHand, checked, asked, runs, active, paused, nextJob, nextRun)
    }

    constructor (cluster: O.Cluster)
      ensures State() == EMPTY && this.cluster == cluster
    {
      this.cluster := cluster;
      jobs, queue, inHand, checked, asked := map[], [], {}, {}, {};
      runs, active, paused, nextJob, nextRun := map[], {}, false, 0, 0;
    }

    // ----- enqueueing -----

    method ActiveRestoreCountsByNode() returns (counts: map<string, int>)
      ensures counts == ActiveCounts(jobs)
    {
      counts := map[];
      var todo := jobs.Keys;
      ghost var seen: map<JobId, Job> := map[];
      while todo != {}
        invariant todo <= jobs.Keys
        invariant seen == map j | j in jobs && j !in todo :: jobs[j]
        invariant IsCount(seen, counts)
        decreases todo
      {
        var j := Choose(todo);
        todo := todo - {j};
        var node := T.Strip(jobs[j].node);
        CountOneMore(seen, counts, j, jobs[j], node);
        seen := seen[j := jobs[j]];
        if (jobs[j].state.Pending? || jobs[j].state.Restoring?) && node != "" {
          counts := counts[node := (if node in counts then counts[node] else 0) + 1];
        }
      }
      assert seen == jobs;
      CountIsActive(jobs, counts);
    }

    /** One PENDING job per row, or nothing at all; what a reclaim removed stays removed. */
    method EnqueueRestores(s: Settings, start: int, rows: seq<int>, env: Env, run: Option<RunId>, group: nat)
      returns (r: Option<Batch>, ids: seq<JobId>)
      modifies this, cluster
      ensures r.Some? <==> CanEnqueue(s, start, rows, env, old(cluster.Seen()))
      ensures cluster.Seen() == AfterEnqueue(s, rows, env, old(cluster.Seen()))
      ensures r.None? ==> State() == old(State())
      ensures r.Some? ==> IsBatch(old(jobs), s, start, rows, env.listing.value, r.value)
      ensures r.Some? ==> State() == Enqueue(old(State()), run, group, r.value) && ids == Ids(old(nextJob), |rows|)
    {
      ids := [];
      var candidates := T.Clean(s.nodes);
      if candidates == [] {
        candidates := T.Clean([s.node]);
      }
      if candidates == [] || !env.storageOk || env.listing.None? {
        return None, ids;
      }
      var picked := AllocateVmids(s, start, rows, env.listing.value);
      if picked.None? {
        return None, ids;
      }
      var counts := ActiveRestoreCountsByNode();
      CandidatesAreClean(s);
      var nodes := P.AssignNodesLeastLoaded(candidates, |rows|, counts);
      if nodes.Failure? {
        return None, ids;
      }
      var ok := ReclaimIfNeeded(s, picked.value, env);
      if !ok {
        return None, ids;
      }
      var b := Batch(rows, picked.value, nodes.value);
      ids := PushJobs(run, group, b);
      return Some(b), ids;
    }

    method ReclaimIfNeeded(s: Settings, vmids: seq<int>, env: Env) returns (ok: bool)
      requires Candidates(s) != [] && env.listing.Some?
      modifies cluster
      ensures var d := ReclaimFor(s, vmids, env, old(cluster.Seen()));
              if s.mode.Dr? && s.overwrite then ok == d.ok && cluster.Seen() == d.guests
              else ok && cluster.Seen() == old(cluster.Seen())
    {
      if s.mode.Dr? && s.overwrite {
        ok := cluster.ReclaimForOverwrite(vmids, env.listing.value, Candidates(s)[0], env.apiOf);
      } else {
        ok := true;
      }
    }

    static method AllocateVmids(s: Settings, start: int, rows: seq<int>, inUse: set<int>)
      returns (vmids: Option<seq<int>>)
      ensures vmids.Some? <==>
              if s.mode.Normal? then
                |rows| < 1 || |A.Free(inUse, A.ScanStart(start), A.ScanEnd(start, |rows|))| >= |rows|
              else Distinct(rows) && (s.overwrite || forall v :: v in rows ==> v !in inUse)
      ensures vmids.Some? && s.mode.Normal? ==>
              A.IsAllocation(inUse, start, |rows|, A.Allocation(vmids.value, After(vmids.value, start)))
      ensures vmids.Some? && s.mode.Dr? ==> vmids.value == rows
      ensures vmids.Some? ==> |vmids.value| == |rows|
    {
      if s.mode.Normal? {
        var r, used := A.AllocateSequentialFreeVmids(inUse, start, |rows|);
        if r.Failure? {
          return None;
        }
        return Some(r.value.ids);
      }
      var out: seq<int> := [];
      var seen: set<int> := {};
      for i := 0 to |rows|
        invariant out == rows[..i]
        invariant Distinct(rows[..i])
        invariant seen == set v | v in rows[..i]
        invariant s.overwrite || forall v :: v in rows[..i] ==> v !in inUse
      {
        var v := rows[i];
        assert rows[..i + 1] == rows[..i] + [v];
        if v in seen {
          assert exists k :: 0 <= k < i && rows[k] == rows[i];
          return None;
        }
        seen := seen + {v};
        if v in inUse && !s.overwrite {
          return None;
        }
        out := out + [v];
      }
      assert rows[..|rows|] == rows;
      return Some(out);
    }

    method PushJob(job: Job) returns (j: JobId)
      modifies this
      ensures j == old(nextJob) && State() == Pushed(old(State()), job)
    {
      j := nextJob;
      nextJob := nextJob + 1;
      jobs := jobs[j := job];
      queue := queue + [j];
    }

    method PushJobs(run: Option<RunId>, group: nat, b: Batch) returns (ids: seq<JobId>)
      requires IsMatched(b)
      modifies this
      ensures State() == Enqueue(old(State()), run, group, b) && ids == Ids(old(nextJob), |b.rows|)
    {
      ids := [];
      ghost var w := State();
      PushedNone(w, run, group, b);
      for i := 0 to |b.rows|
        invariant IsPushed(w, run, group, b, i, State()) && ids == Ids(w.nextJob, i)
      {
        PushedOneMore(w, run, group, b, i, State());
        var j := PushJob(JobAt(run, group, b, i));
        ids := ids + [j];
      }
      assert Prefix(b, |b.rows|) == b;
    }

    // ----- plan runs -----

    method SavePlanRun(id: RunId, run: Run)
      modifies this
      ensures State() == SaveRun(old(State()), id, run)
    {
      runs := runs[id := run];
      if run.status.Running? {
        active := active + {id};
      } else {
        active := active - {id};
      }
    }

    static method RecordAssignedTargets(run: Run, b: Batch) returns (recorded: Run)
      requires IsMatched(b)
      ensures recorded == RecordTargets(run, b)
    {
      var targets := run.targets;
      for i := 0 to |b.vmids|
        invariant targets == run.targets + Zip(b.vmids[..i], b.nodes[..i])
      {
        targets := targets + [Target(b.vmids[i], b.nodes[i])];
      }
      assert b.vmids[..|b.vmids|] == b.vmids && b.nodes[..|b.vmids|] == b.nodes;
      var most := LargestVmid(targets);
      recorded := run.(targets := targets);
      if most.Some? {
        recorded := recorded.(nextVmid := most.value + 1);
      }
    }

    static method LargestVmid(targets: seq<Target>) returns (most: Option<int>)
      ensures most == Largest(targets)
    {
      most := None;
      for i := 0 to |targets|
        invariant most == Largest(targets[..i])
      {
        assert targets[..i + 1][..i] == targets[..i];
        if targets[i].vmid != 0 && (most.None? || targets[i].vmid > most.value) {
          most := Some(targets[i].vmid);
        }
      }
      assert targets[..|targets|] == targets;
    }

    /** Fails on a plan without rows; otherwise the shell stays even when the first enqueue raises. */
    method StartPlanRun(s: Settings, groups: nat, rows: seq<seq<int>>, env: Env)
      returns (ok: bool, ghost batch: Option<Batch>)
      modifies this, cluster
      ensures ok <==> groups == |rows| && HasRows(rows) &&
                      CanEnqueue(s, s.vmidStart, rows[FirstGroup(rows)], env, old(cluster.Seen()))
      ensures groups != |rows| || !HasRows(rows) ==> State() == old(State())
      ensures groups == |rows| && HasRows(rows) ==>
              && ok == batch.Some?
              && (ok ==> IsBatch(old(jobs), s, s.vmidStart, rows[FirstGroup(rows)], env.listing.value, batch.value))
              && State() == StartRun(old(State()), s, rows, batch)
    {
      batch := None;
      if groups != |rows| {
        return false, batch;
      }
      var start := FirstNonEmpty(rows);
      if start == |rows| {
        return false, batch;
      }
      var id := nextRun;
      nextRun := nextRun + 1;
      var shell := Shell(s, groups, start);
      SavePlanRun(id, shell);
      var r := StartFirstGroup(id, shell, start, rows, env);
      if r.Some? {
        StartIsTwoSaves(old(State()), s, rows, r.value);
      }
      return r.Some?, r;
    }

    /** Enqueues the first group of a saved shell and saves the started record, or nothing. */
    method StartFirstGroup(id: RunId, shell: Run, start: nat, rows: seq<seq<int>>, env: Env) returns (r: Option<Batch>)
      requires start < |rows| == |shell.jobs| && shell.index == start
      modifies this, cluster
      ensures r.Some? <==> CanEnqueue(shell.settings, shell.settings.vmidStart, rows[start], env, old(cluster.Seen()))
      ensures r.None? ==> State() == old(State())
      ensures r.Some? ==>
              IsBatch(old(jobs), shell.settings, shell.settings.vmidStart, rows[start], env.listing.value, r.value)
      ensures r.Some? ==>
              var w, b := old(State()), r.value;
              State() == SaveRun(Enqueue(w, Some(id), start, b), id,
                                 Started(Listed(w, shell.(pending := rows), start, b), shell.settings.vmidStart))
    {
      var s := shell.settings;
      var ids;
      r, ids := EnqueueRestores(s, s.vmidStart, rows[start], env, Some(id), start);
      if r.Some? {
        var run := shell.(jobs := shell.jobs[start := ids], pending := rows);
        run := RecordAssignedTargets(run, r.value);
        if run.nextVmid == 0 {
          run := run.(nextVmid := s.vmidStart);
        }
        SavePlanRun(id, run);
      }
    }

    static method FirstNonEmpty(rows: seq<seq<int>>) returns (start: nat)
      ensures start == if HasRows(rows) then FirstGroup(rows) else |rows|
    {
      start := 0;
      while start < |rows| && rows[start] == []
        invariant start <= |rows|
        invariant forall k :: 0 <= k < start ==> rows[k] == []
      {
        start := start + 1;
      }
      if start < |rows| {
        assert HasRows(rows);
        FirstGroupIs(rows, start);
      }
    }

    static method JobStates(jobs: map<JobId, Job>, ids: seq<JobId>) returns (states: seq<JobState>)
      ensures states == States(jobs, ids)
    {
      states := [];
      for i := 0 to |ids|
        invariant states == States(jobs, ids[..i])
      {
        states := states + [StateOf(jobs, ids[i])];
      }
      assert ids[..|ids|] == ids;
    }

    static method SkipEmptyGroups(run: Run, from: nat) returns (i: nat)
      ensures i == FirstBusy(run, from)
    {
      i := from;
      while i < |run.jobs| && run.jobs[i] == []
        invariant FirstBusy(run, i) == FirstBusy(run, from)
        decreases |run.jobs| - i
      {
        if i < |run.pending| && run.pending[i] != [] {
          break;
        }
        i := i + 1;
      }
    }

    /** The tick's enqueue branch. */
    method EnqueueGroupOf(id: RunId, run: Run, i: nat, env: Env) returns (batch: Option<Batch>)
      requires i < |run.jobs| && i < |run.pending|
      modifies this, cluster
      ensures batch.Some? <==> CanEnqueue(run.settings, StartVmid(run), run.pending[i], env, old(cluster.Seen()))
      ensures batch.None? ==> State() == old(State())
      ensures batch.Some? ==>
              IsBatch(old(jobs), run.settings, StartVmid(run), run.pending[i], env.listing.value, batch.value)
      ensures batch.Some? ==>
              var w, b := old(State()), batch.value;
              State() == SaveRun(Enqueue(w, Some(id), i, b), id, Listed(w, run, i, b))
    {
      var ids;
      batch, ids := EnqueueRestores(run.settings, StartVmid(run), run.pending[i], env, Some(id), i);
      if batch.Some? {
        var listed := RecordAssignedTargets(run.(jobs := run.jobs[i := ids], index := i), batch.value);
        SavePlanRun(id, listed);
      }
    }

    /** The tick's branches for a group whose jobs are listed. */
    method JudgeGroup(id: RunId, run: Run, i: nat) returns (touched: bool)
      requires i < |run.jobs| && run.jobs[i] != [] && i == FirstBusy(run, run.index)
      modifies this
      ensures State() == AdvanceFrom(old(State()), id, run, None)
      ensures touched <==> !Decide(old(jobs), run).Wait?
    {
      var states := JobStates(jobs, run.jobs[i]);
      if exists s :: s in states && !IsTerminal(s) {
        return false;
      }
      if Failed in states && run.settings.halt {
        SavePlanRun(id, run.(status := RunFailed));
        return true;
      }
      if Cancelled in states && Completed !in states && forall s :: s in states ==> s in {Cancelled, Failed} {
        SavePlanRun(id, run.(status := RunCancelled));
        return true;
      }
      var next := SkipEmptyGroups(run, i + 1);
      if next >= |run.jobs| {
        SavePlanRun(id, run.(status := RunCompleted, index := next));
      } else {
        SavePlanRun(id, run.(index := next));
      }
      return true;
    }

    /** One round of the tick's loop: `raised` is the enqueue error that ends the tick. */
    method AdvanceRun(id: RunId, env: Env) returns (touched: bool, raised: bool, ghost batch: Option<Batch>)
      modifies this, cluster
      ensures raised <==> TickRaises(old(State()), id, env, old(cluster.Seen()))
      ensures raised ==> batch.None? && State() == old(State())
      ensures AdvanceBatchOk(old(State()), id, Listing(env), batch)
      ensures State() == Advance(old(State()), id, batch)
      ensures touched <==> !raised && IsMove(old(State()), id)
    {
      batch := None;
      if id !in runs || !runs[id].status.Running? {
        active := active - {id};
        return false, false, batch;
      }
      var run := runs[id];
      var i := SkipEmptyGroups(run, run.index);
      if i >= |run.jobs| {
        SavePlanRun(id, run.(status := RunCompleted, index := i));
        return true, false, batch;
      }
      if run.jobs[i] == [] {
        var r := EnqueueGroupOf(id, run, i, env);
        return r.Some?, r.None?, r;
      }
      touched := JudgeGroup(id, run, i);
      return touched, false, batch;
    }

    /** One tick over the runs active when it began, in any order, up to the first enqueue error. */
    method AdvancePlanRuns(envOf: RunId -> Env)
      returns (touched: nat, raised: bool, ghost steps: seq<Event>, ghost left: set<RunId>)
      modifies this, cluster
      ensures IsTick(old(State()), left, steps, State())
      ensures raised <==> left != {}
      ensures touched == Touches(old(State()), steps)
    {
      touched, raised, steps, left := 0, false, [], {};
      ghost var w := State();
      var todo := active;
      while todo != {}
        invariant w == old(State()) && IsTick(w, todo, steps, State())
        invariant touched == Touches(w, steps)
        decreases todo
      {
        var id := Choose(todo);
        ghost var before := State();
        var t, failed, batch := AdvanceRun(id, envOf(id));
        if failed {
          return touched, true, steps, todo;
        }
        TickOneMore(w, todo, steps, before, Tick(id, Listing(envOf(id)), batch));
        steps := steps + [Tick(id, Listing(envOf(id)), batch)];
        todo := todo - {id};
        if t {
          touched := touched + 1;
        }
      }
      left := {};
    }

    /** Also counts the jobs it cancelled and the requests it made. */
    method CancelPlanRun(id: RunId) returns (found: bool, cancelled: nat, requested: nat)
      modifies this
      ensures found <==> id in old(runs)
      ensures State() == CancelRun(old(State()), id)
      ensures !IsRunning(old(State()), id) ==> cancelled == requested == 0
      ensures IsRunning(old(State()), id) ==>
              cancelled == |PendingIn(old(jobs), MemberIds(old(runs)[id].jobs))| &&
              requested == RestoringInGroups(old(jobs), old(runs)[id].jobs)
    {
      cancelled, requested := 0, 0;
      if id !in runs {
        return false, cancelled, requested;
      }
      if !runs[id].status.Running? {
        return true, cancelled, requested;
      }
      var run := runs[id];
      cancelled, requested := CancelGroups(run.jobs);
      SavePlanRun(id, run.(status := RunCancelled, pending := []));
      return true, cancelled, requested;
    }

    method CancelGroups(groups: seq<seq<JobId>>) returns (cancelled: nat, requested: nat)
      modifies this
      ensures Cancelling(old(State()), State(), MemberIds(groups))
      ensures cancelled == |PendingIn(old(jobs), MemberIds(groups))|
      ensures requested == RestoringInGroups(old(jobs), groups)
    {
      cancelled, requested := 0, 0;
      ghost var w := State();
      NothingCancelled(w);
      for g := 0 to |groups|
        invariant Cancelling(w, State(), MemberIds(groups[..g]))
        invariant cancelled == |PendingIn(w.jobs, MemberIds(groups[..g]))|
        invariant requested == RestoringInGroups(w.jobs, groups[..g])
      {
        assert groups[..g + 1][..g] == groups[..g];
        var c, r := CancelGroup(groups[g], w, MemberIds(groups[..g]));
        cancelled, requested := cancelled + c, requested + r;
      }
      assert groups[..|groups|] == groups;
    }

    method CancelGroup(ids: seq<JobId>, ghost w: World, ghost earlier: set<JobId>) returns (cancelled: nat, requested: nat)
      requires Cancelling(w, State(), earlier)
      modifies this
      ensures Cancelling(w, State(), earlier + ElementsOf(ids))
      ensures |PendingIn(w.jobs, earlier)| + cancelled == |PendingIn(w.jobs, earlier + ElementsOf(ids))|
      ensures requested == RestoringIn(w.jobs, ids)
    {
      cancelled, requested := 0, 0;
      ghost var done := earlier;
      for k := 0 to |ids|
        invariant done == earlier + ElementsOf(ids[..k]) && Cancelling(w, State(), done)
        invariant |PendingIn(w.jobs, earlier)| + cancelled == |PendingIn(w.jobs, done)|
        invariant requested == RestoringIn(w.jobs, ids[..k])
      {
        assert ids[..k + 1][..k] == ids[..k];
        CancelOneMore(w, State(), done, ids[k]);
        CancelCounts(w, State(), done, ids[k]);
        var was := CancelMember(ids[k]);
        if was.Pending? {
          cancelled := cancelled + 1;
        } else if was.Restoring? {
          requested := requested + 1;
        }
        done := done + {ids[k]};
      }
      assert ids[..|ids|] == ids;
    }

    /** PENDING jobs are cancelled and leave the queue; RESTORING ones are asked to stop. Returns the state found;
        a job without a hash is passed over like a closed one. */
    method CancelMember(j: JobId) returns (was: JobState)
      modifies this
      ensures State() == CancelStep(old(State()), j)
      ensures was == if j in old(jobs) then old(jobs)[j].state else Cancelled
    {
      was := Cancelled;
      if j in jobs {
        was := jobs[j].state;
        if was.Pending? {
          jobs := jobs[j := jobs[j].(state := Cancelled, cancelRequested := true)];
          queue := Without(queue, {j});
        } else if was.Restoring? {
          jobs := jobs[j := jobs[j].(cancelRequested := true)];
        }
      }
    }

    // ----- single jobs -----

    method StopJob(j: JobId) returns (found: bool)
      modifies this
      ensures found <==> j in old(jobs)
      ensures State() == PlanRuns.StopJob(old(State()), j)
    {
      if j !in jobs {
        return false;
      }
      if IsTerminal(jobs[j].state) {
        return true;
      }
      jobs := jobs[j := jobs[j].(cancelRequested := true)];
      queue := Without(queue, {j});
      if jobs[j].state.Pending? {
        jobs := jobs[j := jobs[j].(state := Cancelled)];
      }
      return true;
    }

    method SetQueuePaused(on: bool)
      modifies this
      ensures State() == old(State()).(paused := on)
    {
      paused := on;
    }

    /** Pops the whole list, cancelling what reads as PENDING. */
    method EmptyList() returns (ids: seq<JobId>)
      modifies this
      ensures State() == old(State()).(jobs := DrainedPart(old(jobs), ElementsOf(old(queue))), queue := [])
      ensures Distinct(ids) && ElementsOf(ids) == Reported(old(jobs), ElementsOf(old(queue)))
    {
      ids := [];
      ghost var popped: set<JobId> := {};
      while queue != []
        invariant popped + ElementsOf(queue) == ElementsOf(old(queue))
        invariant State() == old(State()).(jobs := DrainedPart(old(jobs), popped), queue := queue)
        invariant Distinct(ids) && ElementsOf(ids) == Reported(old(jobs), popped)
        decreases |queue|
      {
        var j := queue[0];
        HeadAndTail(queue);
        queue := queue[1..];
        DrainOneMore(old(jobs), popped, j);
        popped := popped + {j};
        var cancelled := CancelIfPending(j);
        if cancelled {
          AddDistinct(ids, j);
          ids := ids + [j];
        }
      }
    }

    /** Writes CANCELLED over a state that reads as PENDING, making the hash if there is none. */
    method CancelIfPending(j: JobId) returns (cancelled: bool)
      modifies this
      ensures cancelled <==> StateOf(old(jobs), j).Pending?
      ensures State() == old(State()).(jobs := DrainStep(old(jobs), j))
    {
      cancelled := StateOf(jobs, j).Pending?;
      if cancelled {
        jobs := jobs[j := if j in jobs then jobs[j].(state := Cancelled) else BARE];
      }
    }

    /** Cancels every hash still PENDING and reports it unless already reported. */
    method SweepHashes(reported: seq<JobId>) returns (ids: seq<JobId>)
      requires Distinct(reported)
      modifies this
      ensures State() == old(State()).(jobs := DrainedPart(old(jobs), old(jobs).Keys))
      ensures Distinct(ids) && ElementsOf(ids) == ElementsOf(reported) + Reported(old(jobs), old(jobs).Keys)
    {
      ids := reported;
      var todo := jobs.Keys;
      ghost var done: set<JobId> := {};
      while todo != {}
        invariant todo + done == old(jobs).Keys && todo !! done
        invariant State() == old(State()).(jobs := DrainedPart(old(jobs), done))
        invariant Distinct(ids) && ElementsOf(ids) == ElementsOf(reported) + Reported(old(jobs), done)
        decreases todo
      {
        var j := Choose(todo);
        DrainOneMore(old(jobs), done, j);
        todo := todo - {j};
        done := done + {j};
        var cancelled := CancelIfPending(j);
        if cancelled {
          AddDistinct(ids, j);
          if j !in ids {
            ids := ids + [j];
          }
        }
      }
    }

    /** The ids it returns are those that read as PENDING, each once. */
    method DrainPendingJobs() returns (ids: seq<JobId>)
      modifies this
      ensures State() == Drain(old(State()))
      ensures Distinct(ids)
      ensures ElementsOf(ids) == Reported(old(jobs), old(jobs.Keys) + ElementsOf(old(queue)))
    {
      SetQueuePaused(true);
      var popped := EmptyList();
      ids := SweepHashes(popped);
      DrainedTwice(old(jobs), ElementsOf(old(queue)));
    }

    // ----- the worker's side -----

    method PopJob() returns (j: Option<JobId>)
      modifies this
      ensures old(queue) == [] ==> j.None? && State() == old(State())
      ensures old(queue) != [] ==> j == Some(old(queue)[0]) && State() == Pop(old(State()))
    {
      if queue == [] {
        return None;
      }
      j := Some(queue[0]);
      inHand := inHand + {queue[0]};
      queue := queue[1..];
    }

    /** The head of a worker's job; true when the job goes on. */
    method CheckJob(j: JobId) returns (goesOn: bool)
      modifies this
      ensures State() == CheckCancel(old(State()), j)
      ensures goesOn <==> PassesCheck(old(State()), j)
    {
      inHand := inHand - {j};
      if j !in jobs {
        return false;
      }
      if jobs[j].cancelRequested {
        jobs := jobs[j := jobs[j].(state := Cancelled)];
        return false;
      }
      checked := checked + {j};
      return true;
    }

    /** Then RESTORING is written, or FAILED when reading the job's fields raises, whatever the state says now. */
    method WriteJob(j: JobId, ok: bool)
      requires j in jobs
      modifies this
      ensures State() == WriteRestoring(old(State()), j, ok)
    {
      checked := checked - {j};
      if ok {
        asked := if jobs[j].cancelRequested then asked + {j} else asked;
        jobs := jobs[j := jobs[j].(state := Restoring)];
      } else {
        jobs := jobs[j := jobs[j].(state := Failed)];
      }
    }

    method FinishJob(j: JobId, outcome: JobState)
      requires j in jobs
      modifies this
      ensures State() == Finish(old(State()), j, outcome)
    {
      jobs := jobs[j := jobs[j].(state := outcome)];
    }

    /** One turn of a worker, nobody interfering: claim a slot, pop a job, run it to its outcome, give the slot back.
        The slot comes back once on every path, and a job that was run is terminal. */
    method WorkerTurn(slots: Slots.SlotCounter, limit: int, ok: bool, outcome: JobState) returns (ran: Option<JobId>)
      requires slots.value >= 0 && IsTerminal(outcome)
      modifies this, slots
      ensures slots.value == old(slots.value)
      ensures ran.Some? <==> (old(slots.value) < 1 || old(slots.value) < limit) && old(queue) != []
      ensures State() == if ran.Some? then RunTurn(Pop(old(State())), old(queue)[0], ok, outcome) else old(State())
      ensures ran.Some? ==> ran.value == old(queue)[0] && (ran.value in jobs ==> IsTerminal(jobs[ran.value].state))
    {
      var claimed := slots.TryAcquireSlot(limit);
      if !claimed {
        return None;
      }
      ran := PopJob();
      if ran.None? {
        slots.ReleaseSlot();
        return;
      }
      var goesOn := CheckJob(ran.value);
      if goesOn {
        WriteJob(ran.value, ok);
        if ok {
          FinishJob(ran.value, outcome);
        }
      }
      slots.ReleaseSlot();
    }
  }

  /** A popped job run to its end without interference. */
  function RunTurn(w: World, j: JobId, ok: bool, outcome: JobState): World {
    var t := Begin(w, j, ok);
    if PassesCheck(w, j) && ok then Finish(t, j, outcome) else t
  }

  // ----- what the loops rest on -----

  lemma FirstGroupIs(rows: seq<seq<int>>, i: nat)
    requires i < |rows| && rows[i] != [] && HasRows(rows) && forall k :: 0 <= k < i ==> rows[k] == []
    ensures FirstGroup(rows) == i
  {
  }

  function Listing(env: Env): set<int> {
    if env.listing.Some? then env.listing.value else {}
  }

  /** The tick of run `id` reaches an enqueue that raises. */
  ghost predicate TickRaises(w: World, id: RunId, env: Env, guests: O.Guests) {
    IsRunning(w, id) &&
    var run := w.runs[id];
    Decide(w.jobs, run).EnqueueGroup? &&
    !CanEnqueue(run.settings, StartVmid(run), RowsAt(run, Decide(w.jobs, run).at), env, guests)
  }

  function TicksOf(steps: seq<Event>): set<RunId> {
    if steps == [] then {}
    else
      var e := steps[|steps| - 1];
      TicksOf(steps[..|steps| - 1]) + (if e.Tick? then {e.id} else {})
  }

  ghost predicate OnlyTicks(steps: seq<Event>) {
    forall e :: e in steps ==> e.Tick?
  }

  /** `steps` led from `w` to `t`: one tick for each run active in `w` except those still to do. */
  ghost predicate IsTick(w: World, todo: set<RunId>, steps: seq<Event>, t: World) {
    && todo <= w.active && TicksOf(steps) == w.active - todo && |steps| == |TicksOf(steps)|
    && OnlyTicks(steps) && Execute(w, steps) == Some(t)
  }

  /** A tick of run `id` is not a mere wait. */
  predicate IsMove(w: World, id: RunId) {
    IsRunning(w, id) && !Decide(w.jobs, w.runs[id]).Wait?
  }

  /** A tick raises exactly at a group with rows only whose enqueue fails, and moves its run exactly unless that group
      has jobs and one of them has not ended. */
  lemma TickMeets(w: World, id: RunId, i: nat, env: Env, guests: O.Guests)
    requires Inv(w) && IsRunning(w, id) && IsNext(w.runs[id], w.runs[id].index, i)
    ensures var run := w.runs[id];
            && (TickRaises(w, id, env, guests) <==>
                  i < |run.jobs| && run.jobs[i] == [] &&
                  !CanEnqueue(run.settings, StartVmid(run), RowsAt(run, i), env, guests))
            && (IsMove(w, id) <==> i == |run.jobs| || run.jobs[i] == [] || AllEnded(w.jobs, run.jobs[i]))
  {
    var run := w.runs[id];
    NextIsUnique(run, run.index, i);
    if i < |run.jobs| {
      StatesSay(w.jobs, run.jobs[i]);
    }
  }

  ghost function Touches(w: World, steps: seq<Event>): nat {
    if steps == [] then 0
    else
      var front, e := steps[..|steps| - 1], steps[|steps| - 1];
      Touches(w, front) + (if Execute(w, front).Some? && e.Tick? && IsMove(Execute(w, front).value, e.id) then 1 else 0)
  }

  lemma TickOneMore(w: World, todo: set<RunId>, steps: seq<Event>, mid: World, e: Event)
    requires IsTick(w, todo, steps, mid) && e.Tick? && e.id in todo && Enabled(mid, e)
    ensures IsTick(w, todo - {e.id}, steps + [e], Apply(mid, e))
    ensures Touches(w, steps + [e]) == Touches(w, steps) + (if IsMove(mid, e.id) then 1 else 0)
  {
    assert (steps + [e])[..|steps|] == steps;
    assert TicksOf(steps + [e]) == TicksOf(steps) + {e.id};
    assert w.active - (todo - {e.id}) == (w.active - todo) + {e.id};
  }

  /** A whole tick keeps the invariant, undoes nothing, and leaves the active set exactly the RUNNING runs. */
  lemma TickIsSound(w: World, left: set<RunId>, steps: seq<Event>, t: World)
    requires Inv(w) && IsTick(w, left, steps, t)
    ensures Inv(t) && Later(w, t)
    ensures forall id :: id in t.active <==> IsRunning(t, id)
  {
    ExecuteKeeps(w, steps, t);
    NothingIsUndone(w, steps, t);
  }

  /** `t` is `w` with the jobs of `ids` cancelled. */
  ghost predicate Cancelling(w: World, t: World, ids: set<JobId>) {
    t == w.(jobs := CancelIn(w.jobs, ids), queue := Without(w.queue, PendingIn(w.jobs, ids)))
  }

  lemma {:induction false} WithoutTwice(queue: seq<JobId>, a: set<JobId>, b: set<JobId>)
    ensures Without(Without(queue, a), b) == Without(queue, a + b)
  {
    if queue != [] {
      var n := |queue| - 1;
      WithoutTwice(queue[..n], a, b);
      var rest := Without(queue[..n], a);
      if queue[n] in a {
        assert Without(queue, a) == rest;
      } else {
        assert (rest + [queue[n]])[..|rest|] == rest;
      }
    }
  }

  lemma {:induction false} WithoutNothing(queue: seq<JobId>)
    ensures Without(queue, {}) == queue
  {
    if queue != [] {
      WithoutNothing(queue[..|queue| - 1]);
    }
  }

  lemma NothingCancelled(w: World)
    ensures Cancelling(w, w, {})
  {
    WithoutNothing(w.queue);
    assert PendingIn(w.jobs, {}) == {};
  }

  function CancelStep(w: World, j: JobId): World {
    if j !in w.jobs then w
    else
      w.(jobs := w.jobs[j := CancelOne(w.jobs[j])],
         queue := if w.jobs[j].state.Pending? then Without(w.queue, {j}) else w.queue)
  }

  lemma CancelOneMore(w: World, t: World, ids: set<JobId>, j: JobId)
    requires Cancelling(w, t, ids)
    ensures Cancelling(w, CancelStep(t, j), ids + {j})
  {
    WithoutTwice(w.queue, PendingIn(w.jobs, ids), {j});
    assert CancelIn(w.jobs, ids + {j}) == CancelStep(t, j).jobs;
    if j in t.jobs && t.jobs[j].state.Pending? {
      assert PendingIn(w.jobs, ids + {j}) == PendingIn(w.jobs, ids) + {j};
    } else {
      assert PendingIn(w.jobs, ids + {j}) == PendingIn(w.jobs, ids);
    }
  }

  /** The listed jobs that are RESTORING, and those of several groups. */
  function RestoringIn(jobs: map<JobId, Job>, ids: seq<JobId>): nat {
    if ids == [] then 0
    else
      var j := ids[|ids| - 1];
      RestoringIn(jobs, ids[..|ids| - 1]) + (if j in jobs && jobs[j].state.Restoring? then 1 else 0)
  }

  function RestoringInGroups(jobs: map<JobId, Job>, groups: seq<seq<JobId>>): nat {
    if groups == [] then 0
    else RestoringInGroups(jobs, groups[..|groups| - 1]) + RestoringIn(jobs, groups[|groups| - 1])
  }

  function RestoringAmong(jobs: map<JobId, Job>, ids: seq<JobId>): set<JobId> {
    set j | j in ids && j in jobs && jobs[j].state.Restoring?
  }

  lemma RestoringOneMore(jobs: map<JobId, Job>, ids: seq<JobId>, j: JobId)
    requires j !in ids
    ensures RestoringAmong(jobs, ids + [j]) ==
            RestoringAmong(jobs, ids) + (if j in jobs && jobs[j].state.Restoring? then {j} else {})
    ensures j !in RestoringAmong(jobs, ids)
  {
  }

  lemma {:induction false} RestoringCounted(jobs: map<JobId, Job>, ids: seq<JobId>)
    requires Distinct(ids)
    ensures RestoringIn(jobs, ids) == |RestoringAmong(jobs, ids)|
  {
    if ids != [] {
      var n := |ids| - 1;
      RestoringCounted(jobs, ids[..n]);
      RestoringOneMore(jobs, ids[..n], ids[n]);
      assert ids == ids[..n] + [ids[n]];
    }
  }

  /** The RESTORING jobs of a run below group `n`. */
  function RestoringBelow(jobs: map<JobId, Job>, id: RunId, n: nat): set<JobId> {
    set j | j in jobs && jobs[j].run == Some(id) && jobs[j].group < n && jobs[j].state.Restoring?
  }

  lemma RestoringOneGroup(w: World, id: RunId, n: nat)
    requires Inv(w) && id in w.runs && n < |w.runs[id].jobs|
    ensures var here := RestoringAmong(w.jobs, w.runs[id].jobs[n]);
            && RestoringBelow(w.jobs, id, n + 1) == RestoringBelow(w.jobs, id, n) + here
            && RestoringBelow(w.jobs, id, n) !! here && Distinct(w.runs[id].jobs[n])
  {
    var ids := w.runs[id].jobs[n];
    GroupEnqueuedOnce(w, id, n);
    forall j
      ensures j in ids <==> j in w.jobs && w.jobs[j].run == Some(id) && w.jobs[j].group == n
    {
      assert j in ids <==> j in ElementsOf(ids);
    }
  }

  lemma {:induction false} RestoringInPrefix(w: World, id: RunId, n: nat)
    requires Inv(w) && id in w.runs && n <= |w.runs[id].jobs|
    ensures RestoringInGroups(w.jobs, w.runs[id].jobs[..n]) == |RestoringBelow(w.jobs, id, n)|
  {
    var groups := w.runs[id].jobs;
    if n == 0 {
      assert RestoringBelow(w.jobs, id, 0) == {};
    } else {
      RestoringInPrefix(w, id, n - 1);
      assert groups[..n][..n - 1] == groups[..n - 1];
      RestoringOneGroup(w, id, n - 1);
      RestoringCounted(w.jobs, groups[n - 1]);
    }
  }

  /** The two numbers a cancellation returns are how many jobs of the run were PENDING and how many RESTORING. */
  lemma CancelReports(w: World, id: RunId)
    requires Inv(w) && id in w.runs
    ensures |PendingIn(w.jobs, MemberIds(w.runs[id].jobs))| ==
            |set j | j in w.jobs && w.jobs[j].run == Some(id) && w.jobs[j].state.Pending?|
    ensures RestoringInGroups(w.jobs, w.runs[id].jobs) ==
            |set j | j in w.jobs && w.jobs[j].run == Some(id) && w.jobs[j].state.Restoring?|
  {
    var groups := w.runs[id].jobs;
    RestoringInPrefix(w, id, |groups|);
    assert groups[..|groups|] == groups;
    forall j | j in w.jobs
      ensures j in MemberIds(groups) <==> w.jobs[j].run == Some(id)
      ensures w.jobs[j].run == Some(id) ==> w.jobs[j].group < |groups|
    {
      MembersAreItsJobs(w, id, j);
      assert w.jobs[j].run == Some(id) ==> IsRecorded(w.jobs[j], j, w.runs);
    }
    assert PendingIn(w.jobs, MemberIds(groups)) ==
           set j | j in w.jobs && w.jobs[j].run == Some(id) && w.jobs[j].state.Pending?;
    assert RestoringBelow(w.jobs, id, |groups|) ==
           set j | j in w.jobs && w.jobs[j].run == Some(id) && w.jobs[j].state.Restoring?;
  }

  lemma CancelCounts(w: World, t: World, done: set<JobId>, j: JobId)
    requires Cancelling(w, t, done)
    ensures var was := if j in t.jobs then t.jobs[j].state else Cancelled;
            && |PendingIn(w.jobs, done + {j})| == |PendingIn(w.jobs, done)| + (if was.Pending? then 1 else 0)
            && (was.Restoring? <==> j in w.jobs && w.jobs[j].state.Restoring?)
  {
    var before, after := PendingIn(w.jobs, done), PendingIn(w.jobs, done + {j});
    if j in w.jobs && w.jobs[j].state.Pending? && j !in done {
      assert after == before + {j};
    } else {
      assert after == before;
    }
  }

  lemma HeadAndTail(queue: seq<JobId>)
    requires queue != []
    ensures ElementsOf(queue) == {queue[0]} + ElementsOf(queue[1..])
  {
    assert queue == [queue[0]] + queue[1..];
  }

  lemma AddDistinct(ids: seq<JobId>, j: JobId)
    requires Distinct(ids)
    ensures ElementsOf(ids + [j]) == ElementsOf(ids) + {j}
    ensures j !in ElementsOf(ids) ==> Distinct(ids + [j])
    ensures j in ElementsOf(ids) <==> j in ids
  {
  }

  function DrainStep(jobs: map<JobId, Job>, j: JobId): map<JobId, Job> {
    if StateOf(jobs, j).Pending? then jobs[j := if j in jobs then jobs[j].(state := Cancelled) else BARE] else jobs
  }

  lemma DrainOneMore(jobs: map<JobId, Job>, popped: set<JobId>, j: JobId)
    ensures DrainedPart(jobs, popped + {j}) == DrainStep(DrainedPart(jobs, popped), j)
    ensures var pending := StateOf(DrainedPart(jobs, popped), j).Pending?;
            Reported(jobs, popped + {j}) == Reported(jobs, popped) + (if pending then {j} else {}) &&
            (pending ==> j !in Reported(jobs, popped))
  {
    var part := DrainedPart(jobs, popped);
    if j in popped {
      assert popped + {j} == popped;
      assert !StateOf(part, j).Pending?;
    } else {
      assert StateOf(part, j) == StateOf(jobs, j);
    }
  }

  /** Emptying the list and then sweeping every hash is one drain. */
  lemma DrainedTwice(jobs: map<JobId, Job>, popped: set<JobId>)
    ensures var found := DrainedPart(jobs, popped);
            DrainedPart(found, found.Keys) == Drained(jobs, popped) &&
            Reported(jobs, popped) + Reported(found, found.Keys) == Reported(jobs, jobs.Keys + popped)
  {
    var found := DrainedPart(jobs, popped);
    var all := DrainedPart(found, found.Keys);
    assert all.Keys == jobs.Keys + popped;
    forall j
      ensures j in Reported(jobs, popped) + Reported(found, found.Keys) <==> j in Reported(jobs, jobs.Keys + popped)
    {
      assert j in popped ==> !StateOf(found, j).Pending?;
      assert j !in popped ==> StateOf(found, j) == StateOf(jobs, j);
    }
  }

  /** The active jobs of every node, nodes without any left out. */
  ghost predicate IsCount(jobs: map<JobId, Job>, counts: map<string, int>) {
    forall n :: (n in counts <==> JobsOn(jobs, n) != {}) && (n in counts ==> counts[n] == |JobsOn(jobs, n)|)
  }

  lemma JobsOnOneMore(seen: map<JobId, Job>, j: JobId, job: Job, n: string)
    requires j !in seen
    ensures JobsOn(seen[j := job], n) == JobsOn(seen, n) + (if IsActive(job, n) then {j} else {})
    ensures j !in JobsOn(seen, n)
  {
  }

  lemma CountOneMore(seen: map<JobId, Job>, counts: map<string, int>, j: JobId, job: Job, node: string)
    requires j !in seen && IsCount(seen, counts) && node == T.Strip(job.node)
    ensures IsCount(seen[j := job],
                    if IsActive(job, node) then counts[node := (if node in counts then counts[node] else 0) + 1] else counts)
  {
    var more := seen[j := job];
    var after := if IsActive(job, node) then counts[node := (if node in counts then counts[node] else 0) + 1] else counts;
    forall n
      ensures (n in after <==> JobsOn(more, n) != {}) && (n in after ==> after[n] == |JobsOn(more, n)|)
    {
      JobsOnOneMore(seen, j, job, n);
      if IsActive(job, n) {
        assert j in JobsOn(more, n);
      }
    }
  }

  lemma CountIsActive(jobs: map<JobId, Job>, counts: map<string, int>)
    requires IsCount(jobs, counts)
    ensures counts == ActiveCounts(jobs)
  {
    forall n
      ensures n in counts <==> n in BusyNodes(jobs)
    {
      if n in counts {
        var j := AnElement(JobsOn(jobs, n));
        assert IsActive(jobs[j], T.Strip(jobs[j].node)) && T.Strip(jobs[j].node) == n;
      }
      if n in BusyNodes(jobs) {
        var j :| j in jobs && IsActive(jobs[j], T.Strip(jobs[j].node)) && T.Strip(jobs[j].node) == n;
        assert j in JobsOn(jobs, n);
      }
    }
  }
}
