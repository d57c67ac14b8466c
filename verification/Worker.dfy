/** One restore job from claim to terminal state: every external step may fail, be cancelled or succeed. */
module Worker {
  import opened Wrappers
  import opened Ownership
  import PR = PlanRuns
  import Th = PlanRunTheorems
  import Sf = PlanRunSafety
  import TD = Teardown

  /** The fields of the job that decide which steps run. */
  datatype JobSpec = JobSpec(
    jobId: string,
    runId: string,
    vmid: int,
    node: string,
    force: bool,
    hasArchive: bool,
    liveRestore: bool,
    powerOn: bool,
    agentWait: nat,
    isolate: bool,
    httpCheck: bool
  )

  /** How waiting ends: normally, by a cancel request, or with an error or timeout. */
  datatype Wait = Ended | Stopped | Raised

  /** What one round of waiting for a task finds: a cancel request, looked at first; then the task still running,
      stopped well, stopped badly, or the call raising. */
  datatype Poll = Poll(cancel: bool, task: TaskState)

  datatype TaskState = TaskRuns | TaskOk | TaskBad | CallRaises

  /** The first round that is not a wait for the next one decides; running out of rounds is the timeout. */
  function WaitOf(polls: seq<Poll>): Wait {
    if polls == [] then Raised
    else if polls[0].cancel then Stopped
    else
      match polls[0].task
      case TaskRuns => WaitOf(polls[1..])
      case TaskOk => Ended
      case TaskBad => Raised
      case CallRaises => Raised
  }

  predicate GoesOn(p: Poll) {
    !p.cancel && p.task.TaskRuns?
  }

  /** Waiting ends well exactly if some round finds the task stopped well, and neither it nor any round before found
      a request, an error or another end. */
  lemma {:induction false} WaitEndsIff(polls: seq<Poll>)
    ensures WaitOf(polls).Ended? <==>
            exists k :: 0 <= k < |polls| && !polls[k].cancel && polls[k].task.TaskOk? &&
                        forall i :: 0 <= i < k ==> GoesOn(polls[i])
  {
    if polls != [] {
      WaitEndsIff(polls[1..]);
      if GoesOn(polls[0]) {
        if WaitOf(polls).Ended? {
          var k :| 0 <= k < |polls[1..]| && !polls[1..][k].cancel && polls[1..][k].task.TaskOk? &&
                   forall i :: 0 <= i < k ==> GoesOn(polls[1..][i]);
          assert polls[k + 1] == polls[1..][k];
          assert forall i :: 0 < i < k + 1 ==> polls[i] == polls[1..][i - 1];
        }
        forall k | 0 <= k < |polls| && !polls[k].cancel && polls[k].task.TaskOk? &&
                   forall i :: 0 <= i < k ==> GoesOn(polls[i])
          ensures WaitOf(polls).Ended?
        {
          assert polls[1..][k - 1] == polls[k];
          assert forall i :: 0 <= i < k - 1 ==> polls[1..][i] == polls[i + 1];
        }
      } else {
        assert !polls[0].cancel && polls[0].task.TaskOk? <==> WaitOf(polls).Ended?;
      }
    }
  }

  method WaitForTask(polls: seq<Poll>) returns (w: Wait)
    ensures w == WaitOf(polls)
  {
    for i := 0 to |polls|
      invariant WaitOf(polls[i..]) == WaitOf(polls)
    {
      assert polls[i..][0] == polls[i] && polls[i..][1..] == polls[i + 1..];
      if polls[i].cancel {
        return Stopped;
      }
      match polls[i].task
      case TaskRuns =>
      case TaskOk => return Ended;
      case TaskBad => return Raised;
      case CallRaises => return Raised;
    }
    return Raised;
  }

  /** Waiting is ended by a request exactly if some round finds one and every round before it goes on. */
  lemma {:induction false} WaitStopsIff(polls: seq<Poll>)
    ensures WaitOf(polls).Stopped? <==>
            exists k :: 0 <= k < |polls| && polls[k].cancel && forall i :: 0 <= i < k ==> GoesOn(polls[i])
  {
    if polls != [] {
      var rest := polls[1..];
      WaitStopsIff(rest);
      if WaitOf(polls).Stopped? && !polls[0].cancel {
        var k :| 0 <= k < |rest| && rest[k].cancel && forall i :: 0 <= i < k ==> GoesOn(rest[i]);
        assert polls[k + 1].cancel && forall i :: 0 < i < k + 1 ==> polls[i] == rest[i - 1];
      }
      forall k | 0 <= k < |polls| && polls[k].cancel && forall i :: 0 <= i < k ==> GoesOn(polls[i])
        ensures WaitOf(polls).Stopped?
      {
        if k > 0 {
          assert GoesOn(polls[0]) && rest[k - 1] == polls[k];
          assert forall i :: 0 <= i < k - 1 ==> rest[i] == polls[i + 1];
        }
      }
    }
  }

  /** What one round of waiting for the guest agent finds: a cancel request, looked at first; then whether it answers. */
  datatype Ping = Ping(cancel: bool, answers: bool)

  /** Silence until the last round is the timeout. */
  function AgentWait(pings: seq<Ping>): Wait {
    if pings == [] then Raised
    else if pings[0].cancel then Stopped
    else if pings[0].answers then Ended
    else AgentWait(pings[1..])
  }

  predicate IsSilent(p: Ping) {
    !p.cancel && !p.answers
  }

  /** Every round before the `k`-th was silent. */
  ghost predicate SilentUntil(pings: seq<Ping>, k: nat) {
    k < |pings| && forall i :: 0 <= i < k ==> IsSilent(pings[i])
  }

  /** The first round that is not silent decides, its request before its answer. */
  lemma {:induction false} AgentWaitIff(pings: seq<Ping>)
    ensures AgentWait(pings).Ended? <==> exists k: nat :: SilentUntil(pings, k) && !pings[k].cancel && pings[k].answers
    ensures AgentWait(pings).Stopped? <==> exists k: nat :: SilentUntil(pings, k) && pings[k].cancel
  {
    if pings != [] {
      var rest := pings[1..];
      AgentWaitIff(rest);
      if IsSilent(pings[0]) {
        forall k: nat | SilentUntil(rest, k)
          ensures SilentUntil(pings, k + 1) && pings[k + 1] == rest[k]
        {
          assert forall i :: 0 < i < k + 1 ==> pings[i] == rest[i - 1];
        }
        forall k: nat | SilentUntil(pings, k)
          ensures k > 0 ==> SilentUntil(rest, k - 1) && pings[k] == rest[k - 1]
        {
          assert forall i :: 0 <= i < k - 1 ==> rest[i] == pings[i + 1];
        }
      } else {
        assert SilentUntil(pings, 0);
        assert forall k: nat :: SilentUntil(pings, k) ==> k == 0 || IsSilent(pings[0]);
      }
    }
  }

  method WaitForAgent(pings: seq<Ping>) returns (w: Wait)
    ensures w == AgentWait(pings)
  {
    for i := 0 to |pings|
      invariant AgentWait(pings[i..]) == AgentWait(pings)
    {
      assert pings[i..][0] == pings[i] && pings[i..][1..] == pings[i + 1..];
      if pings[i].cancel {
        return Stopped;
      }
      if pings[i].answers {
        return Ended;
      }
    }
    return Raised;
  }

  /** One attempt to stamp; a lost reply has stamped but raises. */
  datatype Attempt = Stamps | LostReply | Refused

  datatype Start = StartRaised | NoTask | Task(polls: seq<Poll>)

  /** What the outside does at each step: whether a request was there at the check, or came between the check and
      the RESTORING write; `left` is the guest at the VMID when the restore task is over. */
  datatype Script = Script(
    cancelled: bool,
    asked: bool,
    submits: bool,
    restore: seq<Poll>,
    left: Option<Vm>,
    stamp: int -> Attempt,
    isolates: bool,
    start: Start,
    agent: seq<Ping>,
    http: bool
  )

  /** A restore task that ended normally has left a QEMU guest on the node, and without force had a free VMID. A
      request once made is never taken back, so the first round of waiting finds it. */
  predicate IsScript(spec: JobSpec, script: Script, before: Guests) {
    && (script.asked && script.restore != [] ==> script.restore[0].cancel)
    && (WaitOf(script.restore).Ended? ==>
          script.left.Some? && script.left.value.kind.Qemu? && script.left.value.node == spec.node &&
          (spec.force || spec.vmid !in before))
  }

  // ----- the outcome, step by step -----

  datatype Check = Pass | Cancel | Fail

  function Then(c: Check, rest: PR.JobState): PR.JobState {
    match c
    case Pass => rest
    case Cancel => PR.Cancelled
    case Fail => PR.Failed
  }

  function OkIf(b: bool): Check {
    if b then Pass else Fail
  }

  function Waited(w: Wait): Check {
    match w
    case Ended => Pass
    case Stopped => Cancel
    case Raised => Fail
  }

  function StartCheck(s: Start): Check {
    match s
    case StartRaised => Fail
    case NoTask => Pass
    case Task(polls) => Waited(WaitOf(polls))
  }

  predicate StampsInTime(stamp: int -> Attempt) {
    stamp(1).Stamps? || stamp(2).Stamps? || stamp(3).Stamps?
  }

  predicate IsPoweredOn(spec: JobSpec) {
    spec.powerOn || spec.liveRestore || spec.agentWait > 0
  }

  function Outcome(spec: JobSpec, script: Script): PR.JobState {
    if script.cancelled then PR.Cancelled
    else
      Then(OkIf(spec.hasArchive), Then(OkIf(script.submits), Then(Waited(WaitOf(script.restore)),
        Then(OkIf(StampsInTime(script.stamp)), Then(OkIf(!spec.isolate || script.isolates), PowerOutcome(spec, script))))))
  }

  function PowerOutcome(spec: JobSpec, script: Script): PR.JobState {
    if !IsPoweredOn(spec) then PR.Completed
    else
      Then(if spec.liveRestore then Pass else StartCheck(script.start),
        Then(if spec.agentWait > 0 then Waited(AgentWait(script.agent)) else Pass,
          Then(OkIf(!spec.httpCheck || script.http), PR.Completed)))
  }

  /** Some round finds the task stopped well, and every round before it goes on. */
  ghost predicate EndsWell(polls: seq<Poll>) {
    exists k :: 0 <= k < |polls| && !polls[k].cancel && polls[k].task.TaskOk? && forall i :: 0 <= i < k ==> GoesOn(polls[i])
  }

  /** Some round finds a request, and every round before it goes on. */
  ghost predicate IsInterrupted(polls: seq<Poll>) {
    exists k :: 0 <= k < |polls| && polls[k].cancel && forall i :: 0 <= i < k ==> GoesOn(polls[i])
  }

  /** The guest is left running: asked for, started by the restore itself, or needed for the agent. */
  predicate WantsPower(spec: JobSpec) {
    spec.powerOn || spec.liveRestore || spec.agentWait > 0
  }

  /** The restore ended well, one of three stamps replied, and the network was isolated if that was asked for. */
  ghost predicate IsRestoredAndStamped(spec: JobSpec, script: Script) {
    && spec.hasArchive && script.submits && EndsWell(script.restore)
    && (exists a :: 1 <= a <= 3 && script.stamp(a).Stamps?)
    && (spec.isolate ==> script.isolates)
  }

  ghost predicate StartsWell(spec: JobSpec, script: Script) {
    spec.liveRestore || script.start.NoTask? || (script.start.Task? && EndsWell(script.start.polls))
  }

  /** A job is COMPLETED exactly if it was not cancelled at the start and every step it needs succeeded. */
  lemma CompletedIff(spec: JobSpec, script: Script)
    ensures Outcome(spec, script).Completed? <==>
            && !script.cancelled && IsRestoredAndStamped(spec, script)
            && (WantsPower(spec) ==>
                  && StartsWell(spec, script)
                  && (spec.agentWait > 0 ==>
                        exists k: nat :: SilentUntil(script.agent, k) && !script.agent[k].cancel && script.agent[k].answers)
                  && (spec.httpCheck ==> script.http))
    ensures PR.IsTerminal(Outcome(spec, script))
  {
    StepsDecide(spec, script);
  }

  /** It is CANCELLED exactly if it was cancelled at its start, or every earlier step succeeded and a request was
      found while waiting for the restore, for the start or for the agent. So every other job that does not complete
      is FAILED. */
  lemma CancelledIff(spec: JobSpec, script: Script)
    ensures Outcome(spec, script).Cancelled? <==>
            || script.cancelled
            || (spec.hasArchive && script.submits && IsInterrupted(script.restore))
            || (IsRestoredAndStamped(spec, script) && WantsPower(spec) &&
                ((!spec.liveRestore && script.start.Task? && IsInterrupted(script.start.polls)) ||
                 (StartsWell(spec, script) && spec.agentWait > 0 &&
                  exists k: nat :: SilentUntil(script.agent, k) && script.agent[k].cancel)))
  {
    StepsDecide(spec, script);
  }

  /** What the waits and the stamp loop come to. */
  lemma StepsDecide(spec: JobSpec, script: Script)
    ensures WaitOf(script.restore).Ended? <==> EndsWell(script.restore)
    ensures WaitOf(script.restore).Stopped? <==> IsInterrupted(script.restore)
    ensures script.start.Task? ==> (WaitOf(script.start.polls).Ended? <==> EndsWell(script.start.polls))
    ensures script.start.Task? ==> (WaitOf(script.start.polls).Stopped? <==> IsInterrupted(script.start.polls))
    ensures AgentWait(script.agent).Ended? <==>
            exists k: nat :: SilentUntil(script.agent, k) && !script.agent[k].cancel && script.agent[k].answers
    ensures AgentWait(script.agent).Stopped? <==> exists k: nat :: SilentUntil(script.agent, k) && script.agent[k].cancel
    ensures StampsInTime(script.stamp) <==> exists a :: 1 <= a <= 3 && script.stamp(a).Stamps?
  {
    WaitEndsIff(script.restore);
    WaitStopsIff(script.restore);
    if script.start.Task? {
      WaitEndsIff(script.start.polls);
      WaitStopsIff(script.start.polls);
    }
    AgentWaitIff(script.agent);
    if StampsInTime(script.stamp) {
      var a := if script.stamp(1).Stamps? then 1 else if script.stamp(2).Stamps? then 2 else 3;
      assert script.stamp(a).Stamps?;
    }
  }

  /** A request that came before the RESTORING write keeps the job from completing. */
  lemma AskedNeverCompletes(spec: JobSpec, script: Script, before: Guests)
    requires IsScript(spec, script, before) && script.asked
    ensures !Outcome(spec, script).Completed?
  {
    CompletedIff(spec, script);
  }

  // ----- what the job did, in order -----

  datatype Deed = Submitted | RestoreEnded | Marked | Isolated | Started | AgentOk | HttpOk | PoweredOff

  /** The stamp follows the end of the restore and precedes any explicit start or stop. */
  ghost predicate StampFirst(log: seq<Deed>) {
    log == [] ||
    (var front, last := log[..|log| - 1], log[|log| - 1];
     && StampFirst(front)
     && (last.Marked? ==> RestoreEnded in front)
     && (last.Started? || last.PoweredOff? ==> Marked in front))
  }

  lemma {:induction false} StampFirstMeans(log: seq<Deed>, i: nat)
    requires StampFirst(log) && i < |log|
    ensures log[i].Started? || log[i].PoweredOff? ==> Marked in log[..i]
    ensures log[i].Marked? ==> RestoreEnded in log[..i]
  {
    var n := |log| - 1;
    if i < n {
      StampFirstMeans(log[..n], i);
      assert log[..n][..i] == log[..i];
    }
  }

  /** What a job does to the cluster: its VMID at most, nothing if that is taken and force is off, and once COMPLETED
      a marked QEMU guest stands there. */
  ghost predicate JobEffect(before: Guests, after: Guests, spec: JobSpec, outcome: PR.JobState) {
    && (forall v :: v != spec.vmid ==> (v in after <==> v in before) && (v in after ==> after[v] == before[v]))
    && (!spec.force && spec.vmid in before ==> after == before)
    && (outcome.Completed? ==>
          spec.vmid in after && after[spec.vmid].kind.Qemu? && after[spec.vmid].marked &&
          after[spec.vmid].node == spec.node)
  }

  /** What the restore task alone does. */
  ghost predicate IsRestoredAt(before: Guests, after: Guests, spec: JobSpec, ended: bool) {
    && (forall v :: v != spec.vmid ==> (v in after <==> v in before) && (v in after ==> after[v] == before[v]))
    && (!spec.force && spec.vmid in before ==> after == before)
    && (ended ==>
          spec.vmid in after && after[spec.vmid].kind.Qemu? && after[spec.vmid].node == spec.node &&
          (spec.force || spec.vmid !in before))
  }

  /** At most the mark of one guest was set, and it was if `sure`. */
  ghost predicate IsMarkedOrSame(before: Guests, after: Guests, v: int, sure: bool) {
    v in before && ((after == before && !sure) || after == WithMark(before, v))
  }

  lemma MarkTwice(before: Guests, between: Guests, v: int)
    requires IsMarkedOrSame(before, between, v, false)
    ensures v in between && WithMark(between, v) == WithMark(before, v)
  {
  }

  class JobRun {
    var state: PR.JobState
    var upid: bool
    var marked: bool
    var log: seq<Deed>

    constructor ()
      ensures state.Pending? && !upid && !marked && log == []
    {
      state, upid, marked, log := PR.Pending, false, false, [];
    }

    /** What a teardown later reads of the job; the task id and the start time of a restore are written together. */
    function Hash(spec: JobSpec): TD.JobHash
      reads this
    {
      TD.JobHash(Some(spec.vmid), spec.node, upid, upid, marked)
    }

    method Note(d: Deed)
      requires StampFirst(log)
      requires d.Marked? ==> RestoreEnded in log
      requires d.Started? || d.PoweredOff? ==> Marked in log
      modifies this`log
      ensures log == old(log) + [d] && StampFirst(log)
    {
      log := log + [d];
    }

    /** One attempt: whether it stamped does not depend on whether the reply came through. */
    static method TryStamp(spec: JobSpec, attempt: Attempt, cluster: Cluster) returns (ok: bool)
      requires spec.vmid in cluster.Seen()
      modifies cluster
      ensures ok <==> attempt.Stamps?
      ensures cluster.Seen() ==
              if attempt.Refused? then old(cluster.Seen()) else WithMark(old(cluster.Seen()), spec.vmid)
    {
      if attempt.Refused? {
        return false;
      }
      cluster.MarkManaged(spec.vmid, spec.jobId, spec.runId);
      return attempt.Stamps?;
    }

    /** Up to three attempts; gives up only when none replied with success. */
    static method TryThrice(spec: JobSpec, stamp: int -> Attempt, cluster: Cluster) returns (ok: bool)
      requires spec.vmid in cluster.Seen()
      modifies cluster
      ensures ok <==> StampsInTime(stamp)
      ensures IsMarkedOrSame(old(cluster.Seen()), cluster.Seen(), spec.vmid, ok)
    {
      ok := false;
      ghost var seen := cluster.Seen();
      for attempt := 1 to 4
        invariant !ok && forall a :: 1 <= a < attempt ==> !stamp(a).Stamps?
        invariant IsMarkedOrSame(seen, cluster.Seen(), spec.vmid, ok)
      {
        MarkTwice(seen, cluster.Seen(), spec.vmid);
        ok := TryStamp(spec, stamp(attempt), cluster);
        if ok {
          break;
        }
      }
    }

    method StampGuest(spec: JobSpec, stamp: int -> Attempt, cluster: Cluster) returns (ok: bool)
      requires spec.vmid in cluster.Seen() && StampFirst(log) && RestoreEnded in log && !marked
      modifies this`marked, this`log, cluster
      ensures ok <==> StampsInTime(stamp)
      ensures ok <==> marked
      ensures StampFirst(log) && old(log) <= log && (ok ==> Marked in log)
      ensures IsMarkedOrSame(old(cluster.Seen()), cluster.Seen(), spec.vmid, ok)
    {
      ok := TryThrice(spec, stamp, cluster);
      if ok {
        marked := true;
        Note(Marked);
      }
    }

    /** Submits the restore and waits for it; the check says how that went. */
    method RestoreGuest(spec: JobSpec, script: Script, cluster: Cluster) returns (c: Check)
      requires IsScript(spec, script, cluster.Seen()) && log == [] && !upid
      modifies this`upid, this`log, cluster
      ensures c == if !script.submits then Fail else Waited(WaitOf(script.restore))
      ensures upid <==> script.submits
      ensures !upid ==> cluster.Seen() == old(cluster.Seen())
      ensures StampFirst(log) && (c.Pass? ==> RestoreEnded in log)
      ensures IsRestoredAt(old(cluster.Seen()), cluster.Seen(), spec, c.Pass?)
    {
      if !script.submits {
        return Fail;
      }
      upid := true;
      Note(Submitted);
      cluster.Restore(spec.vmid, spec.force, script.left);
      var w := WaitForTask(script.restore);
      if w.Ended? {
        Note(RestoreEnded);
      }
      return Waited(w);
    }

    /** Runs the steps; true when an exception left the function. */
    method ProcessJob(spec: JobSpec, script: Script, cluster: Cluster) returns (raised: bool)
      requires IsScript(spec, script, cluster.Seen()) && log == [] && !upid && !marked
      modifies this, cluster
      ensures raised <==> Outcome(spec, script).Failed?
      ensures !raised ==> state == Outcome(spec, script)
      ensures JobEffect(old(cluster.Seen()), cluster.Seen(), spec, Outcome(spec, script))
      ensures StampFirst(log) && (Outcome(spec, script).Completed? ==> marked && Marked in log)
      ensures upid <==> !script.cancelled && spec.hasArchive && script.submits
      ensures marked ==> upid && WaitOf(script.restore).Ended? && StampsInTime(script.stamp)
      ensures !upid ==> cluster.Seen() == old(cluster.Seen())
    {
      if script.cancelled {
        state := PR.Cancelled;
        return false;
      }
      if !spec.hasArchive {
        return true;
      }
      state := PR.Restoring;
      var c := RestoreGuest(spec, script, cluster);
      if c.Cancel? {
        state := PR.Cancelled;
        return false;
      }
      if c.Fail? {
        return true;
      }
      var ok := StampGuest(spec, script.stamp, cluster);
      if !ok {
        return true;
      }
      if spec.isolate {
        if !script.isolates {
          return true;
        }
        Note(Isolated);
      }
      raised := PowerGuest(spec, script);
    }

    /** Starting, waiting for the agent, the HTTP check; or making sure the guest is off. */
    method PowerGuest(spec: JobSpec, script: Script) returns (raised: bool)
      requires StampFirst(log) && Marked in log
      modifies this`state, this`log
      ensures raised <==> PowerOutcome(spec, script).Failed?
      ensures !raised ==> state == PowerOutcome(spec, script)
      ensures StampFirst(log) && old(log) <= log
    {
      if IsPoweredOn(spec) {
        if !spec.liveRestore {
          if script.start.StartRaised? {
            return true;
          }
          Note(Started);
          if script.start.Task? {
            var w := WaitForTask(script.start.polls);
            if w.Raised? {
              return true;
            }
            if w.Stopped? {
              state := PR.Cancelled;
              return false;
            }
          }
        }
        if spec.agentWait > 0 {
          var w := WaitForAgent(script.agent);
          if w.Stopped? {
            state := PR.Cancelled;
            return false;
          }
          if w.Raised? {
            return true;
          }
          Note(AgentOk);
        }
        if spec.httpCheck {
          if !script.http {
            return true;
          }
          Note(HttpOk);
        }
      } else {
        Note(PoweredOff);
      }
      state := PR.Completed;
      return false;
    }

    /** The worker thread around a job: an exception means FAILED. */
    method RunJob(spec: JobSpec, script: Script, cluster: Cluster)
      requires IsScript(spec, script, cluster.Seen()) && log == [] && !upid && !marked
      modifies this, cluster
      ensures state == Outcome(spec, script) && PR.IsTerminal(state)
      ensures JobEffect(old(cluster.Seen()), cluster.Seen(), spec, state)
      ensures StampFirst(log) && (state.Completed? ==> marked && Marked in log)
      ensures cluster.Seen() != old(cluster.Seen()) ==> upid
      ensures IsHashAfter(Hash(spec), spec, script)
    {
      var raised := ProcessJob(spec, script, cluster);
      if raised {
        state := PR.Failed;
      }
      CompletedIff(spec, script);
    }
  }

  /** The hash shows a restore exactly if the job submitted one. */
  predicate IsHashAfter(h: TD.JobHash, spec: JobSpec, script: Script) {
    && h.vmid == Some(spec.vmid)
    && (h.upid || h.started || h.stamped <==> !script.cancelled && spec.hasArchive && script.submits)
  }

  /** A run lets a teardown destroy an unmarked QEMU guest on a target exactly if one of its jobs for that VMID was not
      cancelled at its start, had an archive and submitted its restore: a job that did less never costs anybody a guest. */
  lemma SubmittedJobVouches(guests: Guests, run: PR.Run, hashes: TD.Hashes, specs: map<PR.JobId, JobSpec>,
                            scripts: map<PR.JobId, Script>, targets: seq<TD.Target>, provenance: set<int>,
                            apiOf: int -> Api, t: TD.Target)
    requires TD.IsPrepared(run, hashes, targets, provenance) && t in targets && t.node != ""
    requires hashes.Keys == specs.Keys == scripts.Keys
    requires forall j :: j in hashes ==> IsHashAfter(hashes[j], specs[j], scripts[j])
    requires t.vmid in guests && guests[t.vmid].kind.Qemu? && !guests[t.vmid].marked
    requires apiOf(t.vmid).lookup.Replies? && apiOf(t.vmid).delete.removes
    ensures t.vmid !in TD.TearAll(guests, targets, provenance, apiOf).guests <==>
            exists i, j :: 0 <= i < |run.jobs| && j in run.jobs[i] && j in specs && specs[j].vmid == t.vmid &&
                           !scripts[j].cancelled && specs[j].hasArchive && scripts[j].submits
  {
    TD.ForeignGuestIsDestroyedIff(guests, run, hashes, targets, provenance, apiOf, t);
    assert forall j :: j in hashes <==> j in specs;
    assert forall j :: j in hashes <==> j in scripts;
    assert forall j :: j in hashes ==> IsHashAfter(hashes[j], specs[j], scripts[j]);
  }

  // ----- from COMPLETED jobs to a clean teardown -----

  /** Between consecutive states one job runs, and nothing else touches the cluster. */
  ghost predicate IsJobHistory(states: seq<Guests>, specs: seq<JobSpec>) {
    |states| == |specs| + 1 &&
    forall i :: 0 <= i < |specs| ==> JobEffect(states[i], states[i + 1], specs[i], PR.Completed)
  }

  predicate IsRestored(specs: seq<JobSpec>, v: int) {
    exists i :: 0 <= i < |specs| && specs[i].vmid == v
  }

  /** After COMPLETED jobs a marked QEMU guest stands at each of their VMIDs, and the rest is as before. */
  lemma {:induction false} CompletedJobsAreMarked(states: seq<Guests>, specs: seq<JobSpec>, v: int)
    requires IsJobHistory(states, specs)
    ensures var first, last := states[0], states[|specs|];
            if IsRestored(specs, v) then v in last && last[v].kind.Qemu? && last[v].marked
            else (v in last <==> v in first) && (v in last ==> last[v] == first[v])
  {
    if specs != [] {
      var n := |specs| - 1;
      assert JobEffect(states[n], states[n + 1], specs[n], PR.Completed);
      CompletedJobsAreMarked(states[..n + 1], specs[..n], v);
      if v != specs[n].vmid {
        RestoredBefore(specs, v);
      }
    }
  }

  lemma RestoredBefore(specs: seq<JobSpec>, v: int)
    requires specs != [] && specs[|specs| - 1].vmid != v
    ensures IsRestored(specs, v) <==> IsRestored(specs[..|specs| - 1], v)
  {
    var front := specs[..|specs| - 1];
    if IsRestored(specs, v) {
      var i :| 0 <= i < |specs| && specs[i].vmid == v;
      assert front[i].vmid == v;
    }
    if IsRestored(front, v) {
      var i :| 0 <= i < |front| && front[i].vmid == v;
      assert specs[i].vmid == v;
    }
  }

  /** Marked targets on known nodes all go, whatever the run vouches for, and only they. */
  lemma MarkedTargetsGo(guests: Guests, targets: seq<TD.Target>, provenance: set<int>, apiOf: int -> Api)
    requires TD.DistinctVmids(targets)
    requires forall t :: t in targets ==> IsReady(guests, t, apiOf)
    ensures var torn := TD.TearAll(guests, targets, provenance, apiOf);
            TD.StatusOf(torn.entries).Done? &&
            forall v :: (v in torn.guests <==> v in guests && !TD.HasVmid(targets, v)) &&
                        (v in torn.guests ==> torn.guests[v] == guests[v])
  {
    var torn := TD.TearAll(guests, targets, provenance, apiOf);
    forall i | 0 <= i < |targets|
      ensures TD.IsReportedOk(guests, targets[i], provenance, apiOf) && targets[i].vmid !in torn.guests
    {
      assert IsReady(guests, targets[i], apiOf);
      TD.TargetExact(guests, targets, provenance, apiOf, i);
    }
    TD.DoneIff(guests, targets, provenance, apiOf);
    forall v
      ensures (v in torn.guests <==> v in guests && !TD.HasVmid(targets, v)) &&
              (v in torn.guests ==> torn.guests[v] == guests[v])
    {
      TD.TeardownLeavesSame(guests, targets, provenance, apiOf, v);
      if TD.HasVmid(targets, v) {
        var i :| 0 <= i < |targets| && targets[i].vmid == v;
      } else {
        TD.TearAllLeavesOthers(guests, targets, provenance, apiOf, v);
      }
    }
  }

  predicate IsReady(guests: Guests, t: TD.Target, apiOf: int -> Api) {
    t.node != "" && t.vmid in guests && guests[t.vmid].kind.Qemu? && guests[t.vmid].marked &&
    apiOf(t.vmid) == WORKING
  }

  // ----- which targets a run offers -----

  /** The pair is the VMID and node of a job of the run. */
  ghost predicate IsJobTarget(w: PR.World, id: PR.RunId, t: TD.Target) {
    t.node != "" && exists j :: j in w.jobs && w.jobs[j].run == Some(id) && t == PR.Target(w.jobs[j].vmid, w.jobs[j].node)
  }

  /** The hashes say of every job of the run where it was restored to. */
  ghost predicate HashesAgree(w: PR.World, id: PR.RunId, hashes: TD.Hashes) {
    forall j :: j in w.jobs && w.jobs[j].run == Some(id) ==>
      j in hashes && hashes[j].vmid == Some(w.jobs[j].vmid) && hashes[j].node == w.jobs[j].node
  }

  lemma {:induction false} PlacedAreJobs(w: PR.World, id: PR.RunId, groups: seq<seq<PR.JobId>>)
    requires Sf.Fresh(w)
    requires forall i, j :: 0 <= i < |groups| && j in groups[i] ==> j in w.jobs && w.jobs[j].run == Some(id)
    ensures forall t :: t in Sf.Placed(w.jobs, groups) ==> IsJobTarget(w, id, t)
  {
    if groups != [] {
      var n := |groups| - 1;
      PlacedAreJobs(w, id, groups[..n]);
      forall t | t in Sf.TargetsOf(w.jobs, groups[n])
        ensures IsJobTarget(w, id, t)
      {
        var i :| 0 <= i < |groups[n]| && Sf.TargetsOf(w.jobs, groups[n])[i] == t;
        assert groups[n][i] in groups[n];
      }
    }
  }

  lemma {:induction false} HashTargetsAreJobs(w: PR.World, id: PR.RunId, hashes: TD.Hashes, groups: seq<seq<PR.JobId>>)
    requires Sf.Fresh(w) && HashesAgree(w, id, hashes)
    requires forall i, j :: 0 <= i < |groups| && j in groups[i] ==> j in w.jobs && w.jobs[j].run == Some(id)
    ensures forall t :: t in TD.GroupTargets(hashes, groups) ==> IsJobTarget(w, id, t)
  {
    if groups != [] {
      var n := |groups| - 1;
      HashTargetsAreJobs(w, id, hashes, groups[..n]);
      forall t | t in TD.HashTargets(hashes, groups[n])
        ensures IsJobTarget(w, id, t)
      {
        var i :| 0 <= i < |groups[n]| && TD.HashTargets(hashes, groups[n])[i] == t;
        assert groups[n][i] in groups[n];
      }
    }
  }

  lemma OffersAreJobs(trace: seq<PR.Event>, w: PR.World, id: PR.RunId, hashes: TD.Hashes)
    requires Th.Reached(trace, w) && id in w.runs && HashesAgree(w, id, hashes)
    ensures forall t :: t in TD.Offers(w.runs[id], hashes) ==> IsJobTarget(w, id, t)
  {
    var run := w.runs[id];
    Th.RecordedTargetsAreJobs(trace, w, id);
    ListedAreJobs(trace, w, id);
    PlacedAreJobs(w, id, run.jobs);
    HashTargetsAreJobs(w, id, hashes, run.jobs);
  }

  lemma ListedAreJobs(trace: seq<PR.Event>, w: PR.World, id: PR.RunId)
    requires Th.Reached(trace, w) && id in w.runs
    ensures Sf.Fresh(w)
    ensures forall i, j :: 0 <= i < |w.runs[id].jobs| && j in w.runs[id].jobs[i] ==> j in w.jobs && w.jobs[j].run == Some(id)
  {
    Th.ReachedIsGood(trace, w);
    assert Sf.RunOk(w.jobs, id, w.runs[id]);
    Sf.MembersExist(w.jobs, id, w.runs[id]);
  }

  /** With no blank node on offer the node of a VMID is one that was offered for it. */
  lemma {:induction false} NodeIsOffered(offers: seq<TD.Target>, v: int)
    requires forall t :: t in offers ==> t.node != ""
    ensures TD.IsOffered(offers, v) ==> TD.NodeFor(offers, v) != ""
  {
    if offers != [] {
      NodeIsOffered(offers[..|offers| - 1], v);
    }
  }

  /** The jobs of the run, in the order they ran, with their specs: each COMPLETED and restored to its VMID and node. */
  ghost predicate AreItsJobs(w: PR.World, id: PR.RunId, ids: seq<PR.JobId>, specs: seq<JobSpec>) {
    && |ids| == |specs|
    && (forall j :: j in w.jobs && w.jobs[j].run == Some(id) ==> j in ids)
    && forall i :: 0 <= i < |ids| ==> IsItsJob(w, id, ids[i], specs[i])
  }

  ghost predicate IsItsJob(w: PR.World, id: PR.RunId, j: PR.JobId, spec: JobSpec) {
    && j in w.jobs && w.jobs[j].run == Some(id) && w.jobs[j].state.Completed?
    && spec.vmid == w.jobs[j].vmid && spec.node == w.jobs[j].node
  }

  /** A run's own VMIDs are positive: always in normal mode, in DR mode when the source VMIDs are. */
  ghost predicate VmidsPositive(w: PR.World, id: PR.RunId)
    requires id in w.runs
  {
    w.runs[id].settings.mode.Normal? || forall j :: j in w.jobs && w.jobs[j].run == Some(id) ==> w.jobs[j].vmid > 0
  }

  /** The collected targets are exactly the VMIDs of the run's jobs, each with a node. */
  lemma TargetsAreItsJobs(trace: seq<PR.Event>, w: PR.World, id: PR.RunId, ids: seq<PR.JobId>, specs: seq<JobSpec>,
                          hashes: TD.Hashes, targets: seq<TD.Target>)
    requires Th.Reached(trace, w) && id in w.runs && VmidsPositive(w, id)
    requires AreItsJobs(w, id, ids, specs) && HashesAgree(w, id, hashes)
    requires TD.IsTargets(TD.Offers(w.runs[id], hashes), targets)
    ensures forall t :: t in targets ==> t.node != "" && IsRestored(specs, t.vmid)
    ensures forall v :: IsRestored(specs, v) ==> TD.HasVmid(targets, v)
  {
    var run := w.runs[id];
    var offers := TD.Offers(run, hashes);
    OffersAreJobs(trace, w, id, hashes);
    forall t | t in targets
      ensures t.node != "" && IsRestored(specs, t.vmid)
    {
      NodeIsOffered(offers, t.vmid);
      TD.OfferedIsMember(offers, t.vmid);
      var o :| o in offers && o.vmid == t.vmid;
      assert IsJobTarget(w, id, o);
      var j :| j in w.jobs && w.jobs[j].run == Some(id) && o == PR.Target(w.jobs[j].vmid, w.jobs[j].node);
      var i :| 0 <= i < |ids| && ids[i] == j;
      assert IsItsJob(w, id, ids[i], specs[i]);
    }
    forall v | IsRestored(specs, v)
      ensures TD.HasVmid(targets, v)
    {
      var i :| 0 <= i < |specs| && specs[i].vmid == v;
      assert IsItsJob(w, id, ids[i], specs[i]);
      JobIsTargeted(trace, w, id, ids[i], hashes, targets);
    }
  }

  lemma JobIsTargeted(trace: seq<PR.Event>, w: PR.World, id: PR.RunId, j: PR.JobId, hashes: TD.Hashes,
                      targets: seq<TD.Target>)
    requires Th.Reached(trace, w) && id in w.runs && VmidsPositive(w, id)
    requires j in w.jobs && w.jobs[j].run == Some(id)
    requires TD.IsTargets(TD.Offers(w.runs[id], hashes), targets)
    ensures TD.HasVmid(targets, w.jobs[j].vmid)
  {
    var run, v := w.runs[id], w.jobs[j].vmid;
    Th.RecordedTargetsAreJobs(trace, w, id);
    Th.ReachedIsGood(trace, w);
    assert Sf.RunOk(w.jobs, id, run);
    var t :| t in run.targets && t.vmid == v;
    assert t in TD.Offers(run, hashes);
    TD.OfferedIsMember(TD.Offers(run, hashes), v);
    var found := PR.Target(v, TD.NodeFor(TD.Offers(run, hashes), v));
    assert found in targets;
    var k :| 0 <= k < |targets| && targets[k] == found;
  }

  /** When all jobs of a run in a reachable state are COMPLETED, ran one after the other and nobody else touched the
      cluster, tearing the run down removes exactly the guests at the run's VMIDs, needs the run to vouch for none of
      them, and reports `completed`. */
  lemma CompletedRunTearsDown(trace: seq<PR.Event>, w: PR.World, id: PR.RunId, ids: seq<PR.JobId>, specs: seq<JobSpec>,
                              states: seq<Guests>, hashes: TD.Hashes, targets: seq<TD.Target>, provenance: set<int>,
                              apiOf: int -> Api)
    requires Th.Reached(trace, w) && id in w.runs && VmidsPositive(w, id)
    requires AreItsJobs(w, id, ids, specs) && HashesAgree(w, id, hashes) && IsJobHistory(states, specs)
    requires TD.IsTargets(TD.Offers(w.runs[id], hashes), targets)
    requires forall v :: IsRestored(specs, v) ==> apiOf(v) == WORKING
    ensures var torn := TD.TearAll(states[|specs|], targets, provenance, apiOf);
            TD.StatusOf(torn.entries).Done? &&
            forall v :: (v in torn.guests <==> v in states[0] && !IsRestored(specs, v)) &&
                        (v in torn.guests ==> torn.guests[v] == states[0][v])
  {
    var last := states[|specs|];
    TargetsAreItsJobs(trace, w, id, ids, specs, hashes, targets);
    forall t | t in targets
      ensures IsReady(last, t, apiOf)
    {
      CompletedJobsAreMarked(states, specs, t.vmid);
    }
    MarkedTargetsGo(last, targets, provenance, apiOf);
    forall v
      ensures TD.HasVmid(targets, v) <==> IsRestored(specs, v)
      ensures !IsRestored(specs, v) ==> (v in last <==> v in states[0]) && (v in last ==> last[v] == states[0][v])
      ensures IsRestored(specs, v) ==> v in last
    {
      CompletedJobsAreMarked(states, specs, v);
      if TD.HasVmid(targets, v) {
        var i :| 0 <= i < |targets| && targets[i].vmid == v;
        assert targets[i] in targets;
      }
    }
  }
}
