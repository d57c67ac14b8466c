/** What an enqueue gives its jobs: the VMIDs, and the nodes measured by the open jobs of each before and after. */
module PlanRunBatches {
  import opened Wrappers
  import opened Sets
  import opened PlanRuns
  import opened PlanRunSafety
  import A = Allocator
  import P = Placement
  import T = Text

  /** In normal mode the VMIDs are free ones from 100 and from the start up, ascending; in DR mode they are the source
      VMIDs, and one in use only under overwrite. In both they are distinct. */
  lemma BatchVmidsAre(jobs: map<JobId, Job>, s: Settings, start: int, rows: seq<int>, inUse: set<int>, b: Batch)
    requires IsBatch(jobs, s, start, rows, inUse, b)
    ensures |b.vmids| == |rows| && forall i, k :: 0 <= i < k < |b.vmids| ==> b.vmids[i] != b.vmids[k]
    ensures s.mode.Normal? ==> forall v :: v in b.vmids ==> v !in inUse && v >= 100 && v >= start
    ensures s.mode.Normal? ==> forall v, u :: v in b.vmids && 100 <= u < v && start <= u && u !in inUse ==> u in b.vmids
    ensures s.mode.Dr? ==> b.vmids == rows && (!s.overwrite ==> forall v :: v in rows ==> v !in inUse)
  {
    if s.mode.Normal? && rows != [] {
      var a := A.Allocation(b.vmids, After(b.vmids, start));
      forall v | v in b.vmids
        ensures v !in inUse && v >= 100 && v >= start
        ensures forall u :: 100 <= u < v && start <= u && u !in inUse ==> u in b.vmids
      {
        assert v in A.Elements(b.vmids);
        forall u | 100 <= u < v && start <= u && u !in inUse
          ensures u in b.vmids
        {
          if u !in b.vmids {
            A.AllocationIsSmallest(inUse, start, |rows|, a, u);
          }
        }
      }
    }
  }

  /** In normal mode a tick gives the smallest free VMIDs from 100 up, from the run's next one up, and while it has none
      from the plan's start up. */
  lemma TickVmidsAre(jobs: map<JobId, Job>, run: Run, rows: seq<int>, inUse: set<int>, b: Batch, v: int, u: int)
    requires IsBatch(jobs, run.settings, StartVmid(run), rows, inUse, b) && run.settings.mode.Normal? && v in b.vmids
    ensures 100 <= v && run.nextVmid <= v && (run.nextVmid == 0 ==> run.settings.vmidStart <= v) && v !in inUse
    ensures 100 <= u < v && run.nextVmid <= u && (run.nextVmid == 0 ==> run.settings.vmidStart <= u) && u !in inUse ==>
              u in b.vmids
  {
    BatchVmidsAre(jobs, run.settings, StartVmid(run), rows, inUse, b);
  }

  /** The PENDING and RESTORING jobs whose node is `n` once stripped. */
  function OpenOn(jobs: map<JobId, Job>, n: string): set<JobId> {
    set j | j in jobs && (jobs[j].state.Pending? || jobs[j].state.Restoring?) && T.Strip(jobs[j].node) == n
  }

  lemma ActiveIsOpen(jobs: map<JobId, Job>, n: string)
    requires n != ""
    ensures P.Initial(ActiveCounts(jobs), n) == |OpenOn(jobs, n)|
  {
    assert OpenOn(jobs, n) == JobsOn(jobs, n);
    assert forall j :: j in OpenOn(jobs, n) ==> T.Strip(jobs[j].node) in BusyNodes(jobs);
  }

  /** The nodes an enqueue may use: the stripped names of the list that are not blank, or else the single node. */
  lemma CandidatesAre(s: Settings, n: string)
    ensures n in Candidates(s) <==>
            n != "" &&
            ((exists i :: 0 <= i < |s.nodes| && T.Strip(s.nodes[i]) == n) ||
             ((forall i :: 0 <= i < |s.nodes| ==> T.Strip(s.nodes[i]) == "") && T.Strip(s.node) == n))
  {
    T.CleanMeans(s.nodes, n);
    T.CleanMeans([s.node], n);
    if T.Clean(s.nodes) == [] {
      forall i | 0 <= i < |s.nodes|
        ensures T.Strip(s.nodes[i]) == ""
      {
        T.CleanMeans(s.nodes, T.Strip(s.nodes[i]));
      }
    } else {
      T.CleanMeans(s.nodes, T.Clean(s.nodes)[0]);
    }
    assert [s.node][0] == s.node;
  }

  predicate IsOn(nodes: seq<string>, first: JobId, j: JobId, n: string) {
    first <= j < first + |nodes| && nodes[j - first] == n
  }

  /** The new jobs placed on `n`, the ids counting from `first`. */
  function PlacedOn(nodes: seq<string>, first: JobId, n: string): set<JobId> {
    set j | first <= j < first + |nodes| && IsOn(nodes, first, j, n)
  }

  lemma {:induction false} PlacesCounted(nodes: seq<string>, first: JobId, n: string)
    ensures |PlacedOn(nodes, first, n)| == multiset(nodes)[n]
  {
    if nodes == [] {
      assert PlacedOn(nodes, first, n) == {};
    } else {
      var k := |nodes| - 1;
      PlacesCounted(nodes[..k], first, n);
      assert nodes == nodes[..k] + [nodes[k]];
      assert PlacedOn(nodes, first, n) == PlacedOn(nodes[..k], first, n) + (if nodes[k] == n then {first + k} else {});
    }
  }

  lemma CandidatesTrimmed(s: Settings, n: string)
    requires n in Candidates(s)
    ensures n != "" && T.Strip(n) == n
  {
    CandidatesAre(s, n);
    if i :| 0 <= i < |s.nodes| && T.Strip(s.nodes[i]) == n {
      T.StripTrimmed(s.nodes[i]);
    } else {
      T.StripTrimmed(s.node);
    }
    T.StripTrimmed(n);
  }

  lemma OpenOfBoth(a: map<JobId, Job>, b: map<JobId, Job>, n: string)
    requires forall j :: j in a ==> j !in b
    ensures |OpenOn(a + b, n)| == |OpenOn(a, n)| + |OpenOn(b, n)|
  {
    assert OpenOn(a + b, n) == OpenOn(a, n) + OpenOn(b, n);
    assert OpenOn(a, n) !! OpenOn(b, n);
  }

  lemma OpenOfNew(first: JobId, run: Option<RunId>, group: nat, b: Batch, n: string)
    requires IsMatched(b) && forall k :: 0 <= k < |b.nodes| ==> T.Strip(b.nodes[k]) == b.nodes[k]
    ensures OpenOn(NewJobs(first, run, group, b), n) == PlacedOn(b.nodes, first, n)
  {
    IdsHas(first, |b.rows|);
  }

  /** An enqueue adds to the open jobs of a node the jobs it placed there, and nothing else changes for it. */
  lemma EnqueueAddsOpen(w: World, run: Option<RunId>, group: nat, s: Settings, start: int, rows: seq<int>,
                        inUse: set<int>, b: Batch, n: string)
    requires Fresh(w) && IsBatch(w.jobs, s, start, rows, inUse, b)
    ensures |OpenOn(Enqueue(w, run, group, b).jobs, n)| == |OpenOn(w.jobs, n)| + multiset(b.nodes)[n]
  {
    IdsHas(w.nextJob, |b.rows|);
    P.GreedyIsAssignment(Candidates(s), ActiveCounts(w.jobs), b.nodes);
    forall k | 0 <= k < |b.nodes|
      ensures T.Strip(b.nodes[k]) == b.nodes[k]
    {
      assert b.nodes[k] in b.nodes;
      CandidatesTrimmed(s, b.nodes[k]);
    }
    OpenOfBoth(w.jobs, NewJobs(w.nextJob, run, group, b), n);
    OpenOfNew(w.nextJob, run, group, b, n);
    PlacesCounted(b.nodes, w.nextJob, n);
  }

  /** After an enqueue a node that got one of its jobs has at most one open job more than any other candidate. */
  lemma EnqueueIsBalanced(w: World, run: Option<RunId>, group: nat, s: Settings, start: int, rows: seq<int>,
                          inUse: set<int>, b: Batch, a: string, c: string)
    requires Fresh(w) && IsBatch(w.jobs, s, start, rows, inUse, b) && a in b.nodes && c in Candidates(s)
    ensures var t := Enqueue(w, run, group, b);
            a in Candidates(s) && |OpenOn(t.jobs, a)| <= |OpenOn(t.jobs, c)| + 1
  {
    P.GreedyIsAssignment(Candidates(s), ActiveCounts(w.jobs), b.nodes);
    CandidatesTrimmed(s, a);
    CandidatesTrimmed(s, c);
    P.GreedyIsBalanced(Candidates(s), ActiveCounts(w.jobs), b.nodes, a, c);
    OpenIsLoad(w, run, group, s, start, rows, inUse, b, a);
    OpenIsLoad(w, run, group, s, start, rows, inUse, b, c);
  }

  lemma OpenIsLoad(w: World, run: Option<RunId>, group: nat, s: Settings, start: int, rows: seq<int>,
                   inUse: set<int>, b: Batch, n: string)
    requires Fresh(w) && IsBatch(w.jobs, s, start, rows, inUse, b) && n != ""
    ensures |OpenOn(Enqueue(w, run, group, b).jobs, n)| == P.Load(ActiveCounts(w.jobs), b.nodes, n)
  {
    EnqueueAddsOpen(w, run, group, s, start, rows, inUse, b, n);
    ActiveIsOpen(w.jobs, n);
  }

  /** And no other way to spread the jobs over the candidates would leave the busiest of them with fewer open jobs. */
  lemma EnqueueIsBest(w: World, run: Option<RunId>, group: nat, s: Settings, start: int, rows: seq<int>,
                      inUse: set<int>, b: Batch, other: seq<string>, bound: int, n: string)
    requires Fresh(w) && IsBatch(w.jobs, s, start, rows, inUse, b) && n in Candidates(s)
    requires |other| == |rows| && forall m :: m in other ==> m in Candidates(s)
    requires forall m :: m in Candidates(s) ==> |OpenOn(w.jobs, m)| + multiset(other)[m] <= bound
    ensures |OpenOn(Enqueue(w, run, group, b).jobs, n)| <= bound
  {
    var active := ActiveCounts(w.jobs);
    forall m | m in Candidates(s)
      ensures P.Load(active, other, m) <= bound
    {
      CandidatesTrimmed(s, m);
      ActiveIsOpen(w.jobs, m);
    }
    P.GreedyMinimisesMaximum(Candidates(s), active, b.nodes, other, bound);
    CandidatesTrimmed(s, n);
    OpenIsLoad(w, run, group, s, start, rows, inUse, b, n);
  }
}
