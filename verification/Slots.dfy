/** The shared concurrency counter: any number of workers claim and release restore slots through single
    Redis commands, which interleave freely. */
module Slots {
  import opened Sets
  import opened Wrappers

  /** One attempt of some worker to claim a slot. */
  type Claim = nat

  /** Where a claim stands. A lost claim still counts until its rollback, a won one until its release. */
  datatype Place =
    | Rolling    // over the limit, DECR still to come
    | Waiting    // slot held, no job RESTORING yet
    | Restoring  // slot held, job RESTORING
    | Closing    // slot held, job finished, release still to come
    | Clamping   // released below zero, SET 0 still to come
    | LostSlot   // worker died with a counted increment and no RESTORING job
    | LostJob    // worker died and left its job RESTORING
    | Gone       // given back, or forgotten by a reconcile

  datatype State = State(counter: int, at: map<Claim, Place>)

  datatype Event =
    | Incr(c: Claim, limit: int)
    | RollBack(c: Claim)
    | Begin(c: Claim)
    | Finish(c: Claim)
    | Release(c: Claim)
    | Clamp(c: Claim)
    | Crash(c: Claim)
    | Reconcile

  const INITIAL := State(0, map[])

  function Cap(limit: int): int {
    if limit < 1 then 1 else limit
  }

  predicate IsAt(s: State, c: Claim, places: set<Place>) {
    c in s.at && s.at[c] in places
  }

  predicate Enabled(s: State, e: Event) {
    match e
    case Incr(c, _) => c !in s.at
    case RollBack(c) => IsAt(s, c, {Rolling})
    case Begin(c) => IsAt(s, c, {Waiting})
    case Finish(c) => IsAt(s, c, {Restoring})
    case Release(c) => IsAt(s, c, {Waiting, Closing})
    case Clamp(c) => IsAt(s, c, {Clamping})
    case Crash(c) => IsAt(s, c, {Rolling, Waiting, Restoring, Closing})
    case Reconcile => true
  }

  function Move(s: State, delta: int, c: Claim, place: Place): State {
    State(s.counter + delta, s.at[c := place])
  }

  function Apply(s: State, e: Event): State
    requires Enabled(s, e)
  {
    match e
    case Incr(c, limit) => Move(s, 1, c, if s.counter + 1 > Cap(limit) then Rolling else Waiting)
    case RollBack(c) => Move(s, -1, c, Gone)
    case Begin(c) => Move(s, 0, c, Restoring)
    case Finish(c) => Move(s, 0, c, Closing)
    case Release(c) => Move(s, -1, c, if s.counter - 1 < 0 then Clamping else Gone)
    case Clamp(c) => State(0, s.at[c := Gone])
    case Crash(c) => Move(s, 0, c, if s.at[c].Restoring? then LostJob else LostSlot)
    case Reconcile => PutCount(s, |JobsRestoring(s)|)
  }

  /** The SET at the end of a reconcile: whatever was counted, slots of dead workers are forgotten. */
  function PutCount(s: State, n: int): State {
    State(n, map c | c in s.at :: if s.at[c].LostSlot? then Gone else s.at[c])
  }

  /** Claims whose job is RESTORING, whether its worker lives or not: all a reconcile can see. */
  function JobsRestoring(s: State): set<Claim> {
    set c | c in s.at && (s.at[c].Restoring? || s.at[c].LostJob?)
  }

  function Held(s: State): set<Claim> {
    set c | c in s.at && (s.at[c].Waiting? || s.at[c].Restoring? || s.at[c].Closing?)
  }

  /** Increments not yet taken back. */
  function Outstanding(s: State): set<Claim> {
    set c | c in s.at && !s.at[c].Clamping? && !s.at[c].Gone?
  }

  /** The counter is exactly the held slots, the increments being rolled back and what dead workers left
      behind; nobody is about to clamp. */
  predicate Inv(s: State) {
    s.counter == |Outstanding(s)| && forall c :: c in s.at ==> !s.at[c].Clamping?
  }

  /** Every live claim has a RESTORING job. */
  predicate AllRestoring(s: State) {
    forall c :: c in s.at ==> !s.at[c].Rolling? && !s.at[c].Waiting? && !s.at[c].Closing?
  }

  /** What each kind of step does to the outstanding increments. */
  lemma OutstandingStep(s: State, e: Event)
    requires Inv(s) && Enabled(s, e) && !e.Reconcile?
    ensures Outstanding(Apply(s, e)) ==
            if e.Incr? then Outstanding(s) + {e.c}
            else if e.RollBack? || e.Release? then Outstanding(s) - {e.c}
            else Outstanding(s)
  {
    if e.RollBack? || e.Release? {
      SubsetSize({e.c}, Outstanding(s));
    }
  }

  /** A release always finds its own increment counted, so it never drives the counter below zero. */
  lemma NoClampStep(s: State, e: Event)
    requires Inv(s) && Enabled(s, e)
    ensures forall c :: c in Apply(s, e).at ==> !Apply(s, e).at[c].Clamping?
  {
    if e.Release? {
      SubsetSize({e.c}, Outstanding(s));
    }
  }

  lemma CounterStep(s: State, e: Event)
    requires Inv(s) && Enabled(s, e) && !e.Reconcile?
    ensures Apply(s, e).counter == |Outstanding(Apply(s, e))|
  {
    OutstandingStep(s, e);
    match e
    case Incr(c, _) => SizeWithAndWithout(Outstanding(s), c);
    case RollBack(c) => SizeWithAndWithout(Outstanding(s), c);
    case Release(c) => SizeWithAndWithout(Outstanding(s), c);
    case _ =>
  }

  lemma StepKeepsInv(s: State, e: Event)
    requires Inv(s) && Enabled(s, e) && (e.Reconcile? ==> AllRestoring(s))
    ensures Inv(Apply(s, e))
  {
    NoClampStep(s, e);
    if e.Reconcile? {
      assert Outstanding(Apply(s, e)) == JobsRestoring(s);
    } else {
      CounterStep(s, e);
    }
  }

  /** A reconcile leaves the counter right exactly when no live claim is between states. */
  lemma ReconcileIsRight(s: State)
    requires Inv(s)
    ensures Inv(Apply(s, Reconcile)) <==> AllRestoring(s)
  {
    var t := Apply(s, Reconcile);
    if AllRestoring(s) {
      StepKeepsInv(s, Reconcile);
    } else {
      var c :| c in s.at && (s.at[c].Rolling? || s.at[c].Waiting? || s.at[c].Closing?);
      assert c in Outstanding(t) && c !in JobsRestoring(s);
      SubsetSize(JobsRestoring(s), Outstanding(t));
    }
  }

  // A reconcile counts jobs first and writes the counter later, while other claims move on.

  function Live(s: State): set<Claim> {
    set c | c in s.at && !s.at[c].Clamping? && !s.at[c].Gone? && !s.at[c].LostSlot?
  }

  /** Live claims without a RESTORING job. */
  function Between(s: State): set<Claim> {
    set c | c in s.at && (s.at[c].Rolling? || s.at[c].Waiting? || s.at[c].Closing?)
  }

  /** What a step adds to the live claims. */
  function Delta(s: State, e: Event): int
    requires Enabled(s, e)
  {
    match e
    case Incr(_, _) => 1
    case RollBack(_) => -1
    case Release(_) => -1
    case Crash(c) => if s.at[c].Restoring? then 0 else -1
    case _ => 0
  }

  lemma LiveStep(s: State, e: Event)
    requires Enabled(s, e)
    ensures |Live(Apply(s, e))| == |Live(s)| + Delta(s, e)
  {
    var t := Apply(s, e);
    match e
    case Incr(c, _) => LiveLoses(t, s, c);
    case RollBack(c) => LiveLoses(s, t, c);
    case Release(c) => LiveLoses(s, t, c);
    case Crash(c) =>
      if s.at[c].Restoring? {
        LiveStays(s, e);
      } else {
        LiveLoses(s, t, c);
      }
    case _ => LiveStays(s, e);
  }

  lemma LiveStays(s: State, e: Event)
    requires Enabled(s, e) && (e.Begin? || e.Finish? || e.Clamp? || e.Reconcile? || (e.Crash? && s.at[e.c].Restoring?))
    ensures Live(Apply(s, e)) == Live(s)
  {
  }

  lemma LiveLoses(s: State, t: State, c: Claim)
    requires c in Live(s) && c !in Live(t)
    requires forall k :: k != c ==> (k in Live(t) <==> k in Live(s))
    ensures |Live(t)| == |Live(s)| - 1
  {
    assert Live(t) == Live(s) - {c};
    SizeWithAndWithout(Live(s), c);
  }

  function Execute(s: State, trace: seq<Event>): (t: Option<State>) {
    if trace == [] then Some(s)
    else
      var mid := Execute(s, trace[..|trace| - 1]);
      if mid.Some? && Enabled(mid.value, trace[|trace| - 1]) then Some(Apply(mid.value, trace[|trace| - 1])) else None
  }

  /** The increments made minus those given back or lost to dead workers along a trace. */
  function Balance(s: State, trace: seq<Event>): int {
    if trace == [] then 0
    else
      var mid, e := Execute(s, trace[..|trace| - 1]), trace[|trace| - 1];
      Balance(s, trace[..|trace| - 1]) + (if mid.Some? && Enabled(mid.value, e) then Delta(mid.value, e) else 0)
  }

  lemma {:induction false} LiveAfter(s: State, trace: seq<Event>, u: State)
    requires Execute(s, trace) == Some(u)
    ensures |Live(u)| == |Live(s)| + Balance(s, trace)
  {
    if trace != [] {
      var front := trace[..|trace| - 1];
      LiveAfter(s, front, Execute(s, front).value);
      LiveStep(Execute(s, front).value, trace[|trace| - 1]);
    }
  }

  /** A reconcile that counts in `s` and writes in `u` leaves the counter right exactly when the live claims that had
      no RESTORING job at the count are made up for by what was given back since. */
  lemma SplitReconcileIsRight(s: State, trace: seq<Event>, u: State)
    requires Execute(s, trace) == Some(u) && Inv(u)
    ensures Inv(PutCount(u, |JobsRestoring(s)|)) <==> |Between(s)| + Balance(s, trace) == 0
  {
    LiveAfter(s, trace, u);
    PutCountIsRight(u, |JobsRestoring(s)|);
    LiveParts(s);
  }

  lemma PutCountIsRight(u: State, n: int)
    requires Inv(u)
    ensures Inv(PutCount(u, n)) <==> n == |Live(u)|
  {
    assert Outstanding(PutCount(u, n)) == Live(u);
  }

  lemma LiveParts(s: State)
    ensures |Live(s)| == |JobsRestoring(s)| + |Between(s)|
  {
    assert Live(s) == JobsRestoring(s) + Between(s);
    assert JobsRestoring(s) !! Between(s);
  }

  /** One job that finishes and gives its slot back between the count and the write is enough: the counter stays one
      too high from then on. */
  lemma ReleaseSpoilsReconcile(s: State, c: Claim)
    requires Inv(s) && AllRestoring(s) && IsAt(s, c, {Restoring})
    ensures var trace := [Finish(c), Release(c)];
            Execute(s, trace).Some? && !Inv(PutCount(Execute(s, trace).value, |JobsRestoring(s)|))
  {
    var done := Apply(s, Finish(c));
    var u := Apply(done, Release(c));
    StepKeepsInv(s, Finish(c));
    StepKeepsInv(done, Release(c));
    assert [Finish(c)][..0] == [] && [Finish(c), Release(c)][..1] == [Finish(c)];
    assert Execute(s, [Finish(c)]) == Some(done);
    assert Balance(s, [Finish(c)]) == 0;
    assert Between(s) == {};
    SplitReconcileIsRight(s, [Finish(c), Release(c)], u);
  }

  /** A claim succeeds exactly when no increment or fewer than `limit` are outstanding, and then at most `limit`
      slots are held, or one under a limit below one, whatever limits other claims used. */
  lemma ClaimRespectsLimit(s: State, c: Claim, limit: int)
    requires Inv(s) && Enabled(s, Incr(c, limit))
    ensures var t := Apply(s, Incr(c, limit));
            (c in Held(t) <==> s.counter < 1 || s.counter < limit) &&
            (c in Held(t) ==> |Held(t)| <= (if limit < 1 then 1 else limit))
  {
    var t := Apply(s, Incr(c, limit));
    StepKeepsInv(s, Incr(c, limit));
    SubsetSize(Held(t), Outstanding(t));
  }

  /** Only a successful claim adds a held slot. */
  lemma HeldStep(s: State, e: Event)
    requires Enabled(s, e)
    ensures Held(Apply(s, e)) <= Held(s) + (if e.Incr? then {e.c} else {})
    ensures |Held(Apply(s, e))| <= |Held(s)| || (e.Incr? && e.c in Held(Apply(s, e)))
  {
    var t := Apply(s, e);
    if !(e.Incr? && e.c in Held(t)) {
      SubsetSize(Held(t), Held(s));
    }
  }

  /** A job counts from its Begin to its Finish, and for good if its worker dies in between. */
  lemma RestoringStep(s: State, e: Event)
    requires Enabled(s, e)
    ensures JobsRestoring(Apply(s, e)) ==
            if e.Begin? then JobsRestoring(s) + {e.c} else if e.Finish? then JobsRestoring(s) - {e.c} else JobsRestoring(s)
  {
  }

  /** Whatever a live claim is at, its worker can give it back by itself, which takes exactly one off the counter. */
  lemma ClaimCanBeGivenBack(s: State, c: Claim) returns (trace: seq<Event>)
    requires Inv(s) && c in Live(s) && !s.at[c].LostJob?
    ensures forall e :: e in trace ==> e in {RollBack(c), Finish(c), Release(c)}
    ensures Execute(s, trace) == Some(State(s.counter - 1, s.at[c := Gone]))
  {
    SubsetSize({c}, Outstanding(s));
    assert s.counter >= 1;
    if s.at[c].Rolling? {
      trace := [RollBack(c)];
      assert trace[..0] == [];
    } else if s.at[c].Restoring? {
      trace := [Finish(c), Release(c)];
      assert [Finish(c)][..0] == [] && trace[..1] == [Finish(c)];
      assert Execute(s, [Finish(c)]) == Some(Apply(s, Finish(c)));
      assert s.at[c := Closing][c := Gone] == s.at[c := Gone];
    } else {
      trace := [Release(c)];
      assert trace[..0] == [];
    }
  }

  // ----- whole runs -----

  ghost predicate IsStep(before: State, e: Event, after: State) {
    Enabled(before, e) && Apply(before, e) == after && (e.Reconcile? ==> AllRestoring(before))
  }

  function Front(trace: seq<Event>): (r: seq<Event>)
    requires trace != []
    ensures |r| == |trace| - 1 && forall e :: e in r ==> e in trace
  {
    trace[..|trace| - 1]
  }

  ghost predicate IsRun(trace: seq<Event>, s: State) {
    if trace == [] then s == INITIAL
    else exists before :: IsRun(Front(trace), before) && IsStep(before, trace[|trace| - 1], s)
  }

  lemma LastStep(trace: seq<Event>, s: State) returns (before: State)
    requires IsRun(trace, s) && trace != []
    ensures IsRun(Front(trace), before) && IsStep(before, trace[|trace| - 1], s)
  {
    before :| IsRun(Front(trace), before) && IsStep(before, trace[|trace| - 1], s);
  }

  ghost predicate LimitsAtMost(trace: seq<Event>, bound: int) {
    1 <= bound && forall e :: e in trace && e.Incr? ==> e.limit <= bound
  }

  /** In every reachable state the counter is exact and no more slots are held than the largest limit allowed;
      the clamp at zero never fires. */
  lemma {:induction false} RunKeepsInv(trace: seq<Event>, s: State, bound: nat)
    requires IsRun(trace, s) && LimitsAtMost(trace, bound)
    ensures Inv(s) && |Held(s)| <= bound
  {
    if trace == [] {
      assert Held(s) == {} && Outstanding(s) == {};
    } else {
      var e := trace[|trace| - 1];
      var before := LastStep(trace, s);
      RunKeepsInv(Front(trace), before, bound);
      StepKeepsInv(before, e);
      HeldStep(before, e);
      if e.Incr? {
        assert e in trace;
        ClaimRespectsLimit(before, e.c, e.limit);
      }
    }
  }

  function TimesGivenBack(trace: seq<Event>, c: Claim): nat {
    if trace == [] then 0
    else
      TimesGivenBack(Front(trace), c) +
      (if trace[|trace| - 1] == Release(c) || trace[|trace| - 1] == RollBack(c) then 1 else 0)
  }

  /** An increment no longer outstanding was taken back exactly once, any other never. Reconciles, which forget
      the slots of dead workers, are the only other way out. */
  lemma {:induction false} GivenBackOnce(trace: seq<Event>, s: State, c: Claim)
    requires IsRun(trace, s) && forall e :: e in trace ==> !e.Reconcile?
    ensures TimesGivenBack(trace, c) == if c in s.at && c !in Outstanding(s) then 1 else 0
  {
    if trace != [] {
      var e := trace[|trace| - 1];
      var before := LastStep(trace, s);
      assert e in trace;
      GivenBackOnce(Front(trace), before, c);
      NoClamp(Front(trace), before);
    }
  }

  lemma {:induction false} NoClamp(trace: seq<Event>, s: State)
    requires IsRun(trace, s)
    ensures Inv(s)
  {
    if trace == [] {
      assert Outstanding(s) == {};
    } else {
      var before := LastStep(trace, s);
      NoClamp(Front(trace), before);
      StepKeepsInv(before, trace[|trace| - 1]);
    }
  }

  // ----- where the promises of a shared cap and of recovery after a crash end -----

  /** A worker that starts while another holds a slot without a RESTORING job resets the counter under it:
      with a limit of one, two slots end up held, and the later releases drive the counter below zero. */
  lemma ReconcileBreaksCap(a: State, b: State, c: State, d: State)
    requires a == Apply(INITIAL, Incr(0, 1))
    requires b == Apply(a, Reconcile)
    requires Enabled(b, Incr(1, 1)) && c == Apply(b, Incr(1, 1))
    requires Enabled(c, Release(0)) && d == Apply(c, Release(0))
    ensures !AllRestoring(a) && Held(c) == {0, 1}
    ensures Enabled(d, Release(1)) && Apply(d, Release(1)).at[1].Clamping?
  {
    assert JobsRestoring(a) == {};
    assert a.at[0].Waiting?;
  }

  function LostJobs(s: State): set<Claim> {
    set c | c in s.at && s.at[c].LostJob?
  }

  /** After a reconcile, in any state at all, a claim succeeds exactly when fewer jobs than the limit are
      RESTORING, those of dead workers included. */
  lemma ClaimAfterReconcile(s: State, c: Claim, limit: int)
    requires Enabled(s, Incr(c, limit))
    ensures var t := Apply(s, Reconcile);
            Enabled(t, Incr(c, limit)) && (c in Held(Apply(t, Incr(c, limit))) <==> |JobsRestoring(s)| < 1 || |JobsRestoring(s)| < limit)
  {
    var t := Apply(s, Reconcile);
    assert c in Held(Apply(t, Incr(c, limit))) <==> Apply(t, Incr(c, limit)).at[c].Waiting?;
  }

  /** A reconcile stops counting a dead worker's claim exactly when the worker had no RESTORING job. */
  lemma CrashIsRepairedIff(s: State, c: Claim)
    requires c in s.at && (s.at[c].LostSlot? || s.at[c].LostJob?)
    ensures c !in Outstanding(Apply(s, Reconcile)) <==> s.at[c].LostSlot?
    ensures Apply(s, Reconcile).counter == |JobsRestoring(s) - {c}| + (if s.at[c].LostSlot? then 0 else 1)
  {
    var t := Apply(s, Reconcile);
    SizeWithAndWithout(JobsRestoring(s), c);
    assert c !in JobsRestoring(s) ==> JobsRestoring(s) - {c} == JobsRestoring(s);
    assert c in t.at && t.at[c] == if s.at[c].LostSlot? then Gone else s.at[c];
  }

  /** So once jobs of dead workers fill the limit no later claim succeeds, before or after a reconcile. */
  lemma DeadRestoresBlockClaims(s: State, c: Claim, limit: int)
    requires Inv(s) && LostJobs(s) != {} && |LostJobs(s)| >= limit && Enabled(s, Incr(c, limit))
    ensures c !in Held(Apply(s, Incr(c, limit)))
    ensures var t := Apply(s, Reconcile);
            LostJobs(t) == LostJobs(s) && Enabled(t, Incr(c, limit)) && c !in Held(Apply(t, Incr(c, limit)))
  {
    SubsetSize(LostJobs(s), Outstanding(s));
    SubsetSize(LostJobs(s), JobsRestoring(s));
    ClaimAfterReconcile(s, c, limit);
  }

  lemma DeadRestoresStay(s: State, e: Event)
    requires Enabled(s, e)
    ensures LostJobs(s) <= LostJobs(Apply(s, e))
  {
  }

  // ----- the commands of one worker, run without interference -----

  datatype JobState = JobPending | JobRestoring | JobDone

  class SlotCounter {
    var value: int

    constructor ()
      ensures value == 0
    {
      value := 0;
    }

    method Incr() returns (n: int)
      modifies this
      ensures value == n == old(value) + 1
    {
      value := value + 1;
      n := value;
    }

    method Decr() returns (n: int)
      modifies this
      ensures value == n == old(value) - 1
    {
      value := value - 1;
      n := value;
    }

    method TryAcquireSlot(limit: int) returns (ok: bool)
      modifies this
      ensures ok <==> old(value) < 1 || old(value) < limit
      ensures value == old(value) + (if ok then 1 else 0)
    {
      var cap := Cap(limit);
      var n := Incr();
      if n > cap {
        n := Decr();
        return false;
      }
      return true;
    }

    method ReleaseSlot()
      modifies this
      ensures value == if old(value) <= 0 then 0 else old(value) - 1
    {
      var n := Decr();
      if n < 0 {
        value := 0;
      }
    }

    method ReconcileSlots(jobs: map<nat, JobState>) returns (restoring: nat)
      modifies this
      ensures value == restoring == |set j | j in jobs && jobs[j].JobRestoring?|
    {
      restoring := CountRestoringJobs(jobs);
      value := restoring;
    }
  }

  method CountRestoringJobs(jobs: map<nat, JobState>) returns (n: nat)
    ensures n == |set j | j in jobs && jobs[j].JobRestoring?|
  {
    n := 0;
    var todo := jobs.Keys;
    ghost var counted: set<nat> := {};
    while todo != {}
      invariant todo <= jobs.Keys
      invariant counted == set j | j in jobs && j !in todo && jobs[j].JobRestoring?
      invariant n == |counted|
      decreases todo
    {
      var j := Choose(todo);
      if jobs[j].JobRestoring? {
        n := n + 1;
        counted := counted + {j};
      }
      todo := todo - {j};
    }
    assert counted == set j | j in jobs && jobs[j].JobRestoring?;
  }

  /** Run without interference, a claim is an increment and, when over the limit, its rollback. */
  lemma AcquireIsTwoCommands(s: State, c: Claim, limit: int)
    requires Inv(s) && Enabled(s, Incr(c, limit))
    ensures var t := Apply(s, Incr(c, limit));
            if s.counter < 1 || s.counter < limit then t.at[c].Waiting? && t.counter == s.counter + 1
            else Enabled(t, RollBack(c)) && Apply(t, RollBack(c)) == State(s.counter, s.at[c := Gone])
  {
    var t := Apply(s, Incr(c, limit));
    assert t.at[c := Gone] == s.at[c := Gone];
  }
}
