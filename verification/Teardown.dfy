/** Tearing down a plan run: which guests it targets, which of them it destroys, and what it reports. */
module Teardown {
  import opened Wrappers
  import opened Sets
  import opened Ownership
  import PR = PlanRuns
  import Sf = PlanRunSafety
  import M = Members

  type Target = PR.Target
  type JobId = PR.JobId

  /** The fields of a job hash a teardown looks at; `vmid` is missing when the text is no number. */
  datatype JobHash = JobHash(vmid: Option<int>, node: string, upid: bool, started: bool, stamped: bool)

  type Hashes = map<JobId, JobHash>

  // ----- collecting the targets -----

  function HashTarget(hashes: Hashes, j: JobId): Target {
    if j in hashes && hashes[j].vmid.Some? then PR.Target(hashes[j].vmid.value, hashes[j].node) else PR.Target(0, "")
  }

  function HashTargets(hashes: Hashes, ids: seq<JobId>): seq<Target> {
    seq(|ids|, i requires 0 <= i < |ids| => HashTarget(hashes, ids[i]))
  }

  function GroupTargets(hashes: Hashes, groups: seq<seq<JobId>>): seq<Target> {
    if groups == [] then []
    else GroupTargets(hashes, groups[..|groups| - 1]) + HashTargets(hashes, groups[|groups| - 1])
  }

  /** Everything that names a VMID of the run, in the order it is read. */
  function Offers(run: PR.Run, hashes: Hashes): seq<Target> {
    run.targets + GroupTargets(hashes, run.jobs)
  }

  predicate IsOffered(offers: seq<Target>, v: int) {
    offers != [] && (offers[|offers| - 1].vmid == v || IsOffered(offers[..|offers| - 1], v))
  }

  /** The first non-blank node offered for a VMID. */
  function NodeFor(offers: seq<Target>, v: int): string {
    if offers == [] then ""
    else
      var earlier := NodeFor(offers[..|offers| - 1], v);
      var last := offers[|offers| - 1];
      if earlier == "" && last.vmid == v then last.node else earlier
  }

  ghost predicate IsDict(offers: seq<Target>, byVmid: map<int, string>) {
    forall v :: (v in byVmid <==> v > 0 && IsOffered(offers, v)) && (v in byVmid ==> byVmid[v] == NodeFor(offers, v))
  }

  /** The positive VMIDs offered, ascending, each once, with their first non-blank node. */
  ghost predicate IsTargets(offers: seq<Target>, targets: seq<Target>) {
    && (forall i, k :: 0 <= i < k < |targets| ==> targets[i].vmid < targets[k].vmid)
    && (forall t :: t in targets ==> t.vmid > 0 && IsOffered(offers, t.vmid) && t.node == NodeFor(offers, t.vmid))
    && (forall v :: v > 0 && IsOffered(offers, v) ==> PR.Target(v, NodeFor(offers, v)) in targets)
  }

  function Noted(byVmid: map<int, string>, t: Target): map<int, string> {
    if t.vmid > 0 && (t.vmid !in byVmid || (t.node != "" && byVmid[t.vmid] == "")) then byVmid[t.vmid := t.node]
    else byVmid
  }

  lemma NoteOne(offers: seq<Target>, byVmid: map<int, string>, t: Target)
    requires IsDict(offers, byVmid)
    ensures IsDict(offers + [t], Noted(byVmid, t))
  {
    assert (offers + [t])[..|offers|] == offers;
    if t.vmid !in byVmid && t.vmid > 0 {
      NoNode(offers, t.vmid);
    }
  }

  lemma {:induction false} NoNode(offers: seq<Target>, v: int)
    requires !IsOffered(offers, v)
    ensures NodeFor(offers, v) == ""
  {
    if offers != [] {
      NoNode(offers[..|offers| - 1], v);
    }
  }

  method CollectPlanRunTargets(run: PR.Run, hashes: Hashes) returns (targets: seq<Target>)
    ensures IsTargets(Offers(run, hashes), targets)
  {
    var byVmid: map<int, string> := map[];
    for i := 0 to |run.targets|
      invariant IsDict(run.targets[..i], byVmid)
    {
      assert run.targets[..i + 1] == run.targets[..i] + [run.targets[i]];
      NoteOne(run.targets[..i], byVmid, run.targets[i]);
      byVmid := Noted(byVmid, run.targets[i]);
    }
    assert run.targets[..|run.targets|] == run.targets;
    assert run.targets + GroupTargets(hashes, run.jobs[..0]) == run.targets;
    for g := 0 to |run.jobs|
      invariant IsDict(run.targets + GroupTargets(hashes, run.jobs[..g]), byVmid)
    {
      ghost var sofar := run.targets + GroupTargets(hashes, run.jobs[..g]);
      byVmid := NoteGroup(hashes, run.jobs[g], byVmid, sofar);
      assert run.jobs[..g + 1][..g] == run.jobs[..g];
      assert run.targets + GroupTargets(hashes, run.jobs[..g + 1]) == sofar + HashTargets(hashes, run.jobs[g]);
    }
    assert run.jobs[..|run.jobs|] == run.jobs;
    targets := SortedItems(Offers(run, hashes), byVmid);
  }

  method NoteGroup(hashes: Hashes, ids: seq<JobId>, noted: map<int, string>, ghost sofar: seq<Target>)
    returns (byVmid: map<int, string>)
    requires IsDict(sofar, noted)
    ensures IsDict(sofar + HashTargets(hashes, ids), byVmid)
  {
    byVmid := noted;
    assert sofar + HashTargets(hashes, ids[..0]) == sofar;
    for k := 0 to |ids|
      invariant IsDict(sofar + HashTargets(hashes, ids[..k]), byVmid)
    {
      var t := HashTarget(hashes, ids[k]);
      assert sofar + HashTargets(hashes, ids[..k + 1]) == sofar + HashTargets(hashes, ids[..k]) + [t];
      NoteOne(sofar + HashTargets(hashes, ids[..k]), byVmid, t);
      byVmid := Noted(byVmid, t);
    }
    assert ids[..|ids|] == ids;
  }

  method SortedItems(ghost offers: seq<Target>, byVmid: map<int, string>) returns (targets: seq<Target>)
    requires IsDict(offers, byVmid)
    ensures IsTargets(offers, targets)
  {
    targets := [];
    var left := byVmid.Keys;
    while left != {}
      invariant left <= byVmid.Keys
      invariant forall i, k :: 0 <= i < k < |targets| ==> targets[i].vmid < targets[k].vmid
      invariant forall t, v :: t in targets && v in left ==> t.vmid < v
      invariant forall t :: t in targets ==> t.vmid in byVmid && t.node == byVmid[t.vmid]
      invariant forall v :: v in byVmid && v !in left ==> PR.Target(v, byVmid[v]) in targets
      decreases left
    {
      var v := M.Smallest(left);
      targets := targets + [PR.Target(v, byVmid[v])];
      left := left - {v};
    }
  }

  lemma {:induction false} OfferedIsMember(offers: seq<Target>, v: int)
    ensures IsOffered(offers, v) <==> exists t :: t in offers && t.vmid == v
  {
    if offers != [] {
      var front, last := offers[..|offers| - 1], offers[|offers| - 1];
      OfferedIsMember(front, v);
      assert forall t :: t in offers <==> t in front || t == last;
    }
  }

  lemma {:induction false} GroupOffers(hashes: Hashes, groups: seq<seq<JobId>>, t: Target)
    ensures t in GroupTargets(hashes, groups) <==>
            exists i, j :: 0 <= i < |groups| && j in groups[i] && t == HashTarget(hashes, j)
  {
    if groups != [] {
      var n := |groups| - 1;
      var ids := groups[n];
      GroupOffers(hashes, groups[..n], t);
      if t in HashTargets(hashes, ids) {
        var k :| 0 <= k < |ids| && HashTargets(hashes, ids)[k] == t;
        assert ids[k] in groups[n];
      }
      forall i, j | 0 <= i < |groups| && j in groups[i] && t == HashTarget(hashes, j)
        ensures t in GroupTargets(hashes, groups)
      {
        if i < n {
          assert groups[..n][i] == groups[i];
        } else {
          var k :| 0 <= k < |ids| && ids[k] == j;
          assert HashTargets(hashes, ids)[k] == t;
        }
      }
    }
  }

  /** The hash of a listed job of the run names this VMID. */
  ghost predicate IsNamedBy(run: PR.Run, hashes: Hashes, v: int) {
    exists i, j :: 0 <= i < |run.jobs| && j in run.jobs[i] && j in hashes && hashes[j].vmid == Some(v)
  }

  /** The targets are exactly the positive VMIDs that the run recorded or the hash of one of its jobs names. */
  lemma TargetsAreNamed(run: PR.Run, hashes: Hashes, targets: seq<Target>, v: int)
    requires IsTargets(Offers(run, hashes), targets)
    ensures HasVmid(targets, v) <==>
            v > 0 && ((exists t :: t in run.targets && t.vmid == v) || IsNamedBy(run, hashes, v))
  {
    var offers, jobs := Offers(run, hashes), GroupTargets(hashes, run.jobs);
    OfferedIsMember(offers, v);
    if HasVmid(targets, v) {
      var t :| t in offers && t.vmid == v;
      if t !in run.targets {
        GroupOffers(hashes, run.jobs, t);
      }
    }
    if v > 0 && IsNamedBy(run, hashes, v) {
      var i, j :| 0 <= i < |run.jobs| && j in run.jobs[i] && j in hashes && hashes[j].vmid == Some(v);
      GroupOffers(hashes, run.jobs, HashTarget(hashes, j));
    }
    if v > 0 && IsOffered(offers, v) {
      var k :| 0 <= k < |targets| && targets[k] == PR.Target(v, NodeFor(offers, v));
      assert targets[k].vmid == v;
    }
  }

  /** The node of a target is that of the first offer for its VMID that has one. */
  lemma {:induction false} NodeIsFirst(offers: seq<Target>, v: int)
    ensures var node := NodeFor(offers, v);
            if node == "" then forall t :: t in offers && t.vmid == v ==> t.node == ""
            else exists p :: 0 <= p < |offers| && offers[p] == PR.Target(v, node) &&
                             forall q :: 0 <= q < p && offers[q].vmid == v ==> offers[q].node == ""
  {
    if offers != [] {
      var n := |offers| - 1;
      var front := offers[..n];
      NodeIsFirst(front, v);
      assert forall t :: t in offers <==> t in front || t == offers[n];
      if NodeFor(front, v) != "" {
        var p :| 0 <= p < n && front[p] == PR.Target(v, NodeFor(front, v)) &&
                 forall q :: 0 <= q < p && front[q].vmid == v ==> front[q].node == "";
        assert offers[p] == front[p] && forall q :: 0 <= q < p ==> offers[q] == front[q];
      } else if NodeFor(offers, v) != "" {
        assert offers[n] == PR.Target(v, NodeFor(offers, v));
        assert forall q :: 0 <= q < n ==> offers[q] in front;
      }
    }
  }

  // ----- restore provenance -----

  /** The job got as far as a restore task, or its guest was stamped. */
  predicate Touched(h: JobHash) {
    h.upid || h.started || h.stamped
  }

  ghost predicate Vouches(hashes: Hashes, j: JobId, v: int) {
    j in hashes && Touched(hashes[j]) && hashes[j].vmid == Some(v)
  }

  ghost predicate HasProvenance(hashes: Hashes, groups: seq<seq<JobId>>, v: int) {
    exists j :: j in PR.MemberIds(groups) && Vouches(hashes, j, v)
  }

  /** A listed job of the run whose hash names this VMID has a task id or a start time of a restore, or the stamp. */
  ghost predicate IsRestoredTo(run: PR.Run, hashes: Hashes, v: int) {
    exists i, j :: 0 <= i < |run.jobs| && j in run.jobs[i] && j in hashes && hashes[j].vmid == Some(v) &&
                   (hashes[j].upid || hashes[j].started || hashes[j].stamped)
  }

  lemma ProvenanceMeans(run: PR.Run, hashes: Hashes, v: int)
    ensures HasProvenance(hashes, run.jobs, v) <==> IsRestoredTo(run, hashes, v)
  {
    if HasProvenance(hashes, run.jobs, v) {
      var j :| j in PR.MemberIds(run.jobs) && Vouches(hashes, j, v);
      Sf.MembersAre(run.jobs, j);
    }
    if IsRestoredTo(run, hashes, v) {
      var i, j :| 0 <= i < |run.jobs| && j in run.jobs[i] && j in hashes && hashes[j].vmid == Some(v) &&
                  (hashes[j].upid || hashes[j].started || hashes[j].stamped);
      Sf.MembersAre(run.jobs, j);
      assert Vouches(hashes, j, v);
    }
  }

  method ProvenanceVmids(hashes: Hashes, groups: seq<seq<JobId>>) returns (vmids: set<int>)
    ensures forall v :: v in vmids <==> HasProvenance(hashes, groups, v)
  {
    vmids := {};
    ghost var read: set<JobId> := {};
    for g := 0 to |groups|
      invariant read == PR.MemberIds(groups[..g])
      invariant forall v :: v in vmids <==> exists j :: j in read && Vouches(hashes, j, v)
    {
      var ids := groups[g];
      assert groups[..g + 1][..g] == groups[..g];
      ghost var before := read;
      for k := 0 to |ids|
        invariant read == before + PR.ElementsOf(ids[..k])
        invariant forall v :: v in vmids <==> exists j :: j in read && Vouches(hashes, j, v)
      {
        var j := ids[k];
        ghost var known, earlier := vmids, read;
        read := read + {j};
        if j in hashes && Touched(hashes[j]) && hashes[j].vmid.Some? {
          vmids := vmids + {hashes[j].vmid.value};
        }
        VouchOneMore(hashes, earlier, j, known, vmids);
      }
      assert ids[..|ids|] == ids;
    }
    assert groups[..|groups|] == groups;
  }

  lemma VouchOneMore(hashes: Hashes, read: set<JobId>, j: JobId, known: set<int>, vmids: set<int>)
    requires forall v :: v in known <==> exists k :: k in read && Vouches(hashes, k, v)
    requires vmids == known + (if j in hashes && Touched(hashes[j]) && hashes[j].vmid.Some? then {hashes[j].vmid.value} else {})
    ensures forall v :: v in vmids <==> exists k :: k in read + {j} && Vouches(hashes, k, v)
  {
    forall v
      ensures v in vmids <==> exists k :: k in read + {j} && Vouches(hashes, k, v)
    {
      if v in vmids && v !in known {
        assert Vouches(hashes, j, v) && j in read + {j};
      }
      if v in known {
        var k :| k in read && Vouches(hashes, k, v);
        assert k in read + {j};
      }
    }
  }

  // ----- destroying the targets -----

  datatype Entry = Entry(vmid: int, node: string, ok: bool, refusal: Option<Refusal>)

  function FindQemuNode(guests: Guests, vmid: int): string {
    if vmid in guests && guests[vmid].kind.Qemu? then guests[vmid].node else ""
  }

  function NodeUsed(guests: Guests, t: Target): string {
    if t.node != "" then t.node else FindQemuNode(guests, t.vmid)
  }

  datatype Torn = Torn(entries: seq<Entry>, guests: Guests)

  /** An error whose text says the guest is gone counts as success, whichever call raised it. */
  function TearOne(guests: Guests, t: Target, provenance: set<int>, api: Api): (Entry, Guests) {
    if t.node == "" && !api.nodeLookup.Replies? then
      (Entry(t.vmid, "", api.nodeLookup.SaysGone?, Some(ApiError(api.nodeLookup.SaysGone?))), guests)
    else
      var node := NodeUsed(guests, t);
      if node == "" then (Entry(t.vmid, node, false, Some(NodeUnknown)), guests)
      else
        var d := Destroy(guests, t.vmid, node, t.vmid in provenance, api);
        match d.result
        case Success(_) => (Entry(t.vmid, node, true, None), d.guests)
        case Failure(why) => (Entry(t.vmid, node, why.ApiError? && why.gone, Some(why)), d.guests)
  }

  function TearAll(guests: Guests, targets: seq<Target>, provenance: set<int>, apiOf: int -> Api): Torn {
    if targets == [] then Torn([], guests)
    else
      var n := |targets| - 1;
      var before := TearAll(guests, targets[..n], provenance, apiOf);
      var (e, after) := TearOne(before.guests, targets[n], provenance, apiOf(targets[n].vmid));
      Torn(before.entries + [e], after)
  }

  /** The node of the target is known, from the record or from a lookup. */
  predicate CanAsk(guests: Guests, t: Target, api: Api) {
    t.node != "" ||
    (api.nodeLookup.Replies? && t.vmid in guests && guests[t.vmid].kind.Qemu? && guests[t.vmid].node != "")
  }

  /** Judged on the guests found at the start, a delete is sent. */
  predicate IsSent(guests: Guests, t: Target, provenance: set<int>, api: Api) {
    && CanAsk(guests, t, api) && api.lookup.Replies? && t.vmid in guests && guests[t.vmid].kind.Qemu?
    && ((api.readable && guests[t.vmid].marked) || t.vmid in provenance)
  }

  predicate Goes(guests: Guests, t: Target, provenance: set<int>, api: Api) {
    IsSent(guests, t, provenance, api) && api.delete.removes
  }

  /** The lookup saw that there is no guest. */
  predicate IsSeenAbsent(guests: Guests, t: Target, api: Api) {
    CanAsk(guests, t, api) && api.lookup.Replies? && t.vmid !in guests
  }

  /** Some call said that the guest is gone: an error text of a lookup or of the delete, or the delete's reply. */
  predicate IsCalledGone(guests: Guests, t: Target, provenance: set<int>, api: Api) {
    || (t.node == "" && api.nodeLookup.SaysGone?)
    || (CanAsk(guests, t, api) && api.lookup.SaysGone?)
    || (IsSent(guests, t, provenance, api) && !api.delete.answer.Raises?)
  }

  predicate HasVmid(targets: seq<Target>, v: int) {
    exists i :: 0 <= i < |targets| && targets[i].vmid == v
  }

  ghost predicate DistinctVmids(targets: seq<Target>) {
    forall i, k :: 0 <= i < k < |targets| ==> targets[i].vmid != targets[k].vmid
  }

  lemma TearOneExact(guests: Guests, t: Target, provenance: set<int>, api: Api, v: int)
    ensures var (e, after) := TearOne(guests, t, provenance, api);
            && (v in after <==> v in guests && !(v == t.vmid && Goes(guests, t, provenance, api)))
            && (v in after ==> after[v] == guests[v])
            && (e.ok <==> IsSeenAbsent(guests, t, api) || IsCalledGone(guests, t, provenance, api))
            && e.vmid == t.vmid
  {
    DestroyedIff(guests, t.vmid, NodeUsed(guests, t), t.vmid in provenance, api, v);
    DestroyReportsIff(guests, t.vmid, NodeUsed(guests, t), t.vmid in provenance, api);
  }

  lemma {:induction false} TearAllLeavesOthers(guests: Guests, targets: seq<Target>, provenance: set<int>,
                                               apiOf: int -> Api, v: int)
    requires !HasVmid(targets, v)
    ensures var after := TearAll(guests, targets, provenance, apiOf).guests;
            (v in after <==> v in guests) && (v in after ==> after[v] == guests[v])
  {
    if targets != [] {
      var n := |targets| - 1;
      forall i | 0 <= i < n
        ensures targets[..n][i].vmid != v
      {
        assert targets[..n][i] == targets[i];
      }
      TearAllLeavesOthers(guests, targets[..n], provenance, apiOf, v);
      TearOneExact(TearAll(guests, targets[..n], provenance, apiOf).guests, targets[n], provenance,
                   apiOf(targets[n].vmid), v);
    }
  }

  /** Each target's guest goes exactly if a delete is sent, judged on the guests found at the start, and removes it;
      its entry says ok exactly if the guest was seen to be absent or some call said it is gone. */
  lemma {:induction false} TargetExact(guests: Guests, targets: seq<Target>, provenance: set<int>, apiOf: int -> Api,
                                       i: nat)
    requires DistinctVmids(targets) && i < |targets|
    ensures var r, t := TearAll(guests, targets, provenance, apiOf), targets[i];
            && |r.entries| == |targets| && r.entries[i].vmid == t.vmid
            && (t.vmid in r.guests <==> t.vmid in guests && !Goes(guests, t, provenance, apiOf(t.vmid)))
            && (r.entries[i].ok <==>
                  IsSeenAbsent(guests, t, apiOf(t.vmid)) || IsCalledGone(guests, t, provenance, apiOf(t.vmid)))
  {
    var n := |targets| - 1;
    var front, t := targets[..n], targets[i];
    var before := TearAll(guests, front, provenance, apiOf);
    EntriesCount(guests, front, provenance, apiOf);
    TearOneExact(before.guests, targets[n], provenance, apiOf(targets[n].vmid), t.vmid);
    if i < n {
      TargetExact(guests, front, provenance, apiOf, i);
    } else {
      TearAllLeavesOthers(guests, front, provenance, apiOf, t.vmid);
    }
  }

  lemma {:induction false} EntriesCount(guests: Guests, targets: seq<Target>, provenance: set<int>, apiOf: int -> Api)
    ensures |TearAll(guests, targets, provenance, apiOf).entries| == |targets|
  {
    if targets != [] {
      EntriesCount(guests, targets[..|targets| - 1], provenance, apiOf);
    }
  }

  /** Whatever a teardown removes was a QEMU guest that carried the marker, or stood at a VMID the run vouches
      for; everything else is as it was. No container is ever removed. */
  lemma TeardownIsSafe(guests: Guests, targets: seq<Target>, provenance: set<int>, apiOf: int -> Api, v: int)
    requires DistinctVmids(targets) && v in guests
    ensures var after := TearAll(guests, targets, provenance, apiOf).guests;
            v !in after ==> HasVmid(targets, v) && guests[v].kind.Qemu? && (guests[v].marked || v in provenance)
  {
    if HasVmid(targets, v) {
      var i :| 0 <= i < |targets| && targets[i].vmid == v;
      TargetExact(guests, targets, provenance, apiOf, i);
    } else {
      TearAllLeavesOthers(guests, targets, provenance, apiOf, v);
    }
  }

  // ----- the report -----

  datatype Status = NotDone | Done | Failed | Partial

  function CountOk(entries: seq<Entry>): (n: nat)
    ensures n <= |entries|
    ensures n == |entries| <==> forall e :: e in entries ==> e.ok
  {
    if entries == [] then 0
    else
      var front, last := entries[..|entries| - 1], entries[|entries| - 1];
      assert forall e :: e in entries <==> e in front || e == last;
      CountOk(front) + (if last.ok then 1 else 0)
  }

  function StatusOf(entries: seq<Entry>): Status {
    if CountOk(entries) == |entries| then Done else if CountOk(entries) == 0 then Failed else Partial
  }

  /** `completed` means that every entry is ok, `failed` that there are entries and none is, `partial` that some are. */
  lemma {:induction false} StatusMeans(entries: seq<Entry>)
    ensures StatusOf(entries).Done? <==> forall e :: e in entries ==> e.ok
    ensures StatusOf(entries).Failed? <==> entries != [] && forall e :: e in entries ==> !e.ok
    ensures StatusOf(entries).Partial? <==> (exists e :: e in entries && e.ok) && exists e :: e in entries && !e.ok
  {
    NoneOk(entries);
    if entries != [] {
      assert entries[0] in entries;
    }
  }

  lemma {:induction false} NoneOk(entries: seq<Entry>)
    ensures CountOk(entries) == 0 <==> forall e :: e in entries ==> !e.ok
  {
    if entries != [] {
      var front, last := entries[..|entries| - 1], entries[|entries| - 1];
      NoneOk(front);
      assert forall e :: e in entries <==> e in front || e == last;
    }
  }

  /** A teardown reports `completed` exactly if for every target the lookup saw no guest or some call said it is
      gone: what is left in the cluster is never looked at. */
  lemma DoneIff(guests: Guests, targets: seq<Target>, provenance: set<int>, apiOf: int -> Api)
    requires DistinctVmids(targets)
    ensures var r := TearAll(guests, targets, provenance, apiOf);
            StatusOf(r.entries).Done? <==>
              forall i :: 0 <= i < |targets| ==> IsReportedOk(guests, targets[i], provenance, apiOf)
  {
    var r := TearAll(guests, targets, provenance, apiOf);
    EntriesCount(guests, targets, provenance, apiOf);
    forall i | 0 <= i < |targets|
      ensures r.entries[i].ok <==> IsReportedOk(guests, targets[i], provenance, apiOf)
    {
      TargetExact(guests, targets, provenance, apiOf, i);
    }
    if StatusOf(r.entries).Done? {
      forall i | 0 <= i < |targets|
        ensures IsReportedOk(guests, targets[i], provenance, apiOf)
      {
        assert r.entries[i] in r.entries;
      }
    }
  }

  predicate IsReportedOk(guests: Guests, t: Target, provenance: set<int>, apiOf: int -> Api) {
    IsSeenAbsent(guests, t, apiOf(t.vmid)) || IsCalledGone(guests, t, provenance, apiOf(t.vmid))
  }

  /** A call said that the guest is gone, and it was there and no delete removed it. */
  predicate IsMisreported(guests: Guests, t: Target, provenance: set<int>, apiOf: int -> Api) {
    t.vmid in guests && IsCalledGone(guests, t, provenance, apiOf(t.vmid)) && !Goes(guests, t, provenance, apiOf(t.vmid))
  }

  /** A `completed` report means that the targets are gone exactly if none of them was misreported; the report is
      never looked at again, so a misreported guest stays. */
  lemma DoneMeansGoneIff(guests: Guests, targets: seq<Target>, provenance: set<int>, apiOf: int -> Api)
    requires DistinctVmids(targets) && StatusOf(TearAll(guests, targets, provenance, apiOf).entries).Done?
    ensures (forall i :: 0 <= i < |targets| ==> targets[i].vmid !in TearAll(guests, targets, provenance, apiOf).guests)
            <==> (forall i :: 0 <= i < |targets| ==> !IsMisreported(guests, targets[i], provenance, apiOf))
  {
    DoneIff(guests, targets, provenance, apiOf);
    forall i | 0 <= i < |targets|
      ensures targets[i].vmid in TearAll(guests, targets, provenance, apiOf).guests <==>
              IsMisreported(guests, targets[i], provenance, apiOf)
    {
      assert IsReportedOk(guests, targets[i], provenance, apiOf);
      TargetExact(guests, targets, provenance, apiOf, i);
    }
  }

  /** What the calls for the target say is true: no lookup calls a present guest gone, and a delete removes the guest
      exactly if it does not raise. */
  predicate IsHonest(guests: Guests, t: Target, api: Api) {
    && (t.vmid in guests ==> !api.nodeLookup.SaysGone? && !api.lookup.SaysGone?)
    && (api.delete.removes <==> !api.delete.answer.Raises?)
  }

  /** With honest answers a guest found at the start is gone exactly if its entry says ok. */
  lemma HonestEntry(guests: Guests, targets: seq<Target>, provenance: set<int>, apiOf: int -> Api, i: nat)
    requires DistinctVmids(targets) && i < |targets| && IsHonest(guests, targets[i], apiOf(targets[i].vmid))
    requires targets[i].vmid in guests
    ensures var r := TearAll(guests, targets, provenance, apiOf);
            i < |r.entries| && (r.entries[i].ok <==> targets[i].vmid !in r.guests)
  {
    TargetExact(guests, targets, provenance, apiOf, i);
  }

  /** Two replies after which a guest stays in the cluster and the teardown is `completed` for good: the lookup
      answers with a text such as "not found", or the delete does. */
  lemma MisreportExample(g: Guest, t: Target, api: Api)
    requires g.kind.Qemu? && g.marked && g.node != "" && t.node != ""
    requires api == WORKING.(lookup := SaysGone) || api == WORKING.(delete := Delete(false, SaysGone))
    ensures var torn := TearAll(map[t.vmid := g], [t], {}, _ => api);
            StatusOf(torn.entries).Done? && t.vmid in torn.guests
  {
    var guests: Guests := map[t.vmid := g];
    assert IsReportedOk(guests, t, {}, _ => api);
    DoneIff(guests, [t], {}, _ => api);
    TargetExact(guests, [t], {}, _ => api, 0);
  }

  /** What `TeardownPlanRun` works with: the collected targets and the VMIDs the run vouches for. */
  ghost predicate IsPrepared(run: PR.Run, hashes: Hashes, targets: seq<Target>, provenance: set<int>) {
    IsTargets(Offers(run, hashes), targets) && forall v :: v in provenance <==> HasProvenance(hashes, run.jobs, v)
  }

  /** The documented promise that foreign guests are never destroyed ends here: an unmarked guest that took over
      the VMID of a target is destroyed exactly if the hash of one of the run's jobs names the VMID and shows a restore
      task, its start or a stamp. */
  lemma ForeignGuestIsDestroyedIff(guests: Guests, run: PR.Run, hashes: Hashes, targets: seq<Target>, provenance: set<int>,
                                   apiOf: int -> Api, t: Target)
    requires IsPrepared(run, hashes, targets, provenance) && t in targets
    requires t.vmid in guests && guests[t.vmid].kind.Qemu? && !guests[t.vmid].marked
    requires t.node != "" || (apiOf(t.vmid).nodeLookup.Replies? && guests[t.vmid].node != "")
    requires apiOf(t.vmid).lookup.Replies? && apiOf(t.vmid).delete.removes
    ensures t.vmid !in TearAll(guests, targets, provenance, apiOf).guests <==> IsRestoredTo(run, hashes, t.vmid)
  {
    var i :| 0 <= i < |targets| && targets[i] == t;
    TargetExact(guests, targets, provenance, apiOf, i);
    ProvenanceMeans(run, hashes, t.vmid);
  }

  /** Whatever the calls answer: where no job of the run got as far as a restore task or a stamp, no unmarked guest is
      touched. */
  lemma UntouchedVmidIsSpared(guests: Guests, run: PR.Run, hashes: Hashes, targets: seq<Target>, provenance: set<int>,
                              apiOf: int -> Api, v: int)
    requires IsPrepared(run, hashes, targets, provenance) && v in guests && !guests[v].marked
    requires forall i, j :: 0 <= i < |run.jobs| && j in run.jobs[i] && j in hashes && hashes[j].vmid == Some(v) ==>
               !hashes[j].upid && !hashes[j].started && !hashes[j].stamped
    ensures var after := TearAll(guests, targets, provenance, apiOf).guests;
            v in after && after[v] == guests[v]
  {
    ProvenanceMeans(run, hashes, v);
    TeardownIsSafe(guests, targets, provenance, apiOf, v);
    TeardownLeavesSame(guests, targets, provenance, apiOf, v);
  }

  datatype Outcome =
    | Already
    | StillRunning
    | CannotConnect
    | Report

  /** The run record with its teardown fields. */
  datatype Record = Record(run: PR.Run, status: Status, results: seq<Entry>)

  method TeardownPlanRun(cluster: Cluster, record: Record, hashes: Hashes, connects: bool, apiOf: int -> Api)
    returns (r: Outcome, saved: Record, ghost targets: seq<Target>, ghost provenance: set<int>)
    modifies cluster
    ensures record.status.Done? ==> r.Already?
    ensures !record.status.Done? ==> (r.StillRunning? <==> record.run.status.Running?)
    ensures !record.status.Done? && !record.run.status.Running? ==>
            IsTargets(Offers(record.run, hashes), targets) && (r.CannotConnect? <==> targets != [] && !connects)
    ensures !r.Report? ==> cluster.Seen() == old(cluster.Seen()) && saved == record
    ensures r.Report? ==> forall v :: v in provenance <==> HasProvenance(hashes, record.run.jobs, v)
    ensures r.Report? ==>
            Torn(saved.results, cluster.Seen()) == TearAll(old(cluster.Seen()), targets, provenance, apiOf) &&
            saved == Record(record.run, StatusOf(saved.results), saved.results)
  {
    saved, targets, provenance := record, [], {};
    if record.status.Done? {
      return Already, saved, targets, provenance;
    }
    if record.run.status.Running? {
      return StillRunning, saved, targets, provenance;
    }
    var todo := CollectPlanRunTargets(record.run, hashes);
    targets := todo;
    if todo != [] && !connects {
      return CannotConnect, saved, targets, provenance;
    }
    var vouched := ProvenanceVmids(hashes, record.run.jobs);
    provenance := vouched;
    var entries, okCount := TearTargets(cluster, todo, vouched, apiOf);
    var status;
    if |entries| == 0 || okCount == |entries| {
      status := Done;
    } else if okCount == 0 {
      status := Failed;
    } else {
      status := Partial;
    }
    saved := record.(status := status, results := entries);
    return Report, saved, targets, provenance;
  }

  method TearTargets(cluster: Cluster, targets: seq<Target>, provenance: set<int>, apiOf: int -> Api)
    returns (entries: seq<Entry>, okCount: nat)
    modifies cluster
    ensures Torn(entries, cluster.Seen()) == TearAll(old(cluster.Seen()), targets, provenance, apiOf)
    ensures okCount == CountOk(entries)
  {
    entries, okCount := [], 0;
    for i := 0 to |targets|
      invariant Torn(entries, cluster.Seen()) == TearAll(old(cluster.Seen()), targets[..i], provenance, apiOf)
      invariant okCount == CountOk(entries)
    {
      assert targets[..i + 1][..i] == targets[..i];
      var e := TearTarget(cluster, targets[i], provenance, apiOf(targets[i].vmid));
      assert (entries + [e])[..|entries|] == entries;
      entries := entries + [e];
      if e.ok {
        okCount := okCount + 1;
      }
    }
    assert targets[..|targets|] == targets;
  }

  method QemuNodeOf(cluster: Cluster, vmid: int) returns (node: string)
    ensures node == FindQemuNode(cluster.Seen(), vmid)
  {
    if vmid in cluster.vms && cluster.vms[vmid].kind.Qemu? {
      return cluster.vms[vmid].node;
    }
    return "";
  }

  method TearTarget(cluster: Cluster, t: Target, provenance: set<int>, api: Api) returns (e: Entry)
    modifies cluster
    ensures (e, cluster.Seen()) == TearOne(old(cluster.Seen()), t, provenance, api)
  {
    var node := t.node;
    if node == "" {
      if !api.nodeLookup.Replies? {
        return Entry(t.vmid, "", api.nodeLookup.SaysGone?, Some(ApiError(api.nodeLookup.SaysGone?)));
      }
      node := QemuNodeOf(cluster, t.vmid);
    }
    if node == "" {
      return Entry(t.vmid, node, false, Some(NodeUnknown));
    }
    var r := cluster.DestroyOwned(t.vmid, node, t.vmid in provenance, api);
    if r.Success? {
      return Entry(t.vmid, node, true, None);
    }
    return Entry(t.vmid, node, r.error.ApiError? && r.error.gone, Some(r.error));
  }

  // ----- whole histories -----

  /** What happens to a cluster: anything at all by others; and by the tool a DR overwrite, a teardown, a restore
      task that leaves `left` at its VMID, and the stamp after it. */
  datatype Action =
    | Others(after: Guests)
    | Overwrite(vmids: seq<int>, inUse: set<int>, fallback: string, overwriteApi: int -> Api)
    | TearDown(run: PR.Run, hashes: Hashes, targets: seq<Target>, provenance: set<int>, teardownApi: int -> Api)
    | Restore(vmid: int, force: bool, left: Option<Guest>)
    | Stamp(stamped: int)

  ghost predicate IsAllowed(a: Action) {
    match a
    case Overwrite(vmids, _, _, _) => Distinct(vmids)
    case TearDown(run, hashes, targets, provenance, _) => IsPrepared(run, hashes, targets, provenance)
    case _ => true
  }

  function After(guests: Guests, a: Action): Guests {
    match a
    case Others(after) => after
    case Overwrite(vmids, inUse, fallback, apiOf) => Reclaim(guests, vmids, inUse, fallback, apiOf).guests
    case TearDown(_, _, targets, provenance, apiOf) => TearAll(guests, targets, provenance, apiOf).guests
    case Restore(vmid, force, left) => RestoreEffect(guests, vmid, force, left)
    case Stamp(vmid) => if vmid in guests then WithMark(guests, vmid) else guests
  }

  function AfterAll(guests: Guests, actions: seq<Action>): Guests {
    if actions == [] then guests
    else After(AfterAll(guests, actions[..|actions| - 1]), actions[|actions| - 1])
  }

  /** The guest at the VMID is gone or another one; its mark alone does not count. */
  predicate IsLost(before: Guests, after: Guests, v: int) {
    v in before && (v !in after || after[v].(marked := before[v].marked) != before[v])
  }

  /** What a step of the tool may cost. A restore costs at most the guest at its own VMID, and only under force. A
      reclaim or a teardown costs only QEMU guests that carry the marker, or stand at a VMID that a job of the
      torn-down run restored to. A stamp costs nothing. */
  ghost predicate MayLose(before: Guests, a: Action, v: int)
    requires v in before
  {
    match a
    case Others(_) => true
    case Restore(vmid, force, _) => v == vmid && force
    case Overwrite(_, _, _, _) => before[v].kind.Qemu? && before[v].marked
    case TearDown(run, hashes, _, _, _) =>
      before[v].kind.Qemu? && (before[v].marked || IsRestoredTo(run, hashes, v))
    case Stamp(_) => false
  }

  /** In any history from any cluster, every guest that is lost in a step was one that step may cost. */
  lemma HistoryIsSafe(guests: Guests, actions: seq<Action>, i: nat, v: int)
    requires forall a :: a in actions ==> IsAllowed(a)
    requires i < |actions|
    requires IsLost(AfterAll(guests, actions[..i]), AfterAll(guests, actions[..i + 1]), v)
    ensures MayLose(AfterAll(guests, actions[..i]), actions[i], v)
  {
    var before, a := AfterAll(guests, actions[..i]), actions[i];
    assert actions[..i + 1][..i] == actions[..i] && actions[..i + 1][i] == a;
    assert IsAllowed(a);
    match a
    case Overwrite(vmids, inUse, fallback, apiOf) => ReclaimExact(before, vmids, inUse, fallback, apiOf, v);
    case TearDown(run, hashes, targets, provenance, apiOf) =>
      TeardownIsSafe(before, targets, provenance, apiOf, v);
      ProvenanceMeans(run, hashes, v);
      TeardownLeavesSame(before, targets, provenance, apiOf, v);
    case _ =>
  }

  lemma {:induction false} TeardownLeavesSame(guests: Guests, targets: seq<Target>, provenance: set<int>,
                                              apiOf: int -> Api, v: int)
    ensures var after := TearAll(guests, targets, provenance, apiOf).guests;
            v in after ==> v in guests && after[v] == guests[v]
  {
    if targets != [] {
      var n := |targets| - 1;
      TeardownLeavesSame(guests, targets[..n], provenance, apiOf, v);
      TearOneExact(TearAll(guests, targets[..n], provenance, apiOf).guests, targets[n], provenance,
                   apiOf(targets[n].vmid), v);
    }
  }
}
