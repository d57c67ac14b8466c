/** Which guests may be destroyed: the ownership check in front of every delete, and the reclaim loop of a DR
    overwrite. */
module Ownership {
  import opened Wrappers
  import opened Sets
  import S = StampText
  import T = Text

  datatype Kind = Qemu | Lxc | Other

  /** A guest of the cluster with its config text. */
  datatype Vm = Vm(kind: Kind, node: string, tags: Option<string>, description: string)

  type Vms = map<int, Vm>

  /** What decides about a guest: `marked` is the managed test on its tags and description. */
  datatype Guest = Guest(kind: Kind, node: string, marked: bool)

  /** The guests of the cluster by VMID. */
  type Guests = map<int, Guest>

  /** How a call ends: with a reply, with an error whose text says the guest is gone, or with another error. */
  datatype Answer = Replies | SaysGone | Raises

  /** Whether a delete removes the guest and how it ends have nothing to do with each other. */
  datatype Delete = Delete(removes: bool, answer: Answer)

  /** What the cluster answers for one guest: to the caller's own lookup, to the lookup before a delete, to a read of
      the config, and to the delete. */
  datatype Api = Api(nodeLookup: Answer, lookup: Answer, readable: bool, delete: Delete)

  /** Every call does what it says. */
  const WORKING := Api(Replies, Replies, true, Delete(true, Replies))

  /** The managed test as run: an unreadable config counts as unmanaged. */
  predicate SeenManaged(guests: Guests, vmid: int, api: Api) {
    vmid in guests && guests[vmid].kind.Qemu? && api.readable && guests[vmid].marked
  }

  datatype Ruling = Absent | Managed | RunProvenance

  datatype Refusal = IsContainer | Unsupported | Foreign | NodeUnknown | ApiError(gone: bool)

  datatype Destruction = Destruction(result: Result<Ruling, Refusal>, guests: Guests)

  /** A delete removes the guest only if it is sent to the guest's node, where that is known. */
  function CallDelete(guests: Guests, vmid: int, node: string, ruling: Ruling, api: Api): Destruction {
    if node == "" then Destruction(Failure(NodeUnknown), guests)
    else
      var there := vmid in guests && (guests[vmid].node == "" || guests[vmid].node == node);
      var after := if api.delete.removes && there then guests - {vmid} else guests;
      match api.delete.answer
      case Replies => Destruction(Success(ruling), after)
      case SaysGone => Destruction(Failure(ApiError(true)), after)
      case Raises => Destruction(Failure(ApiError(false)), after)
  }

  /** The checks in the order they run; the guest's own node wins over the caller's. */
  function Destroy(guests: Guests, vmid: int, node: string, provenance: bool, api: Api): Destruction {
    if !api.lookup.Replies? then Destruction(Failure(ApiError(api.lookup.SaysGone?)), guests)
    else if vmid !in guests then Destruction(Success(Absent), guests)
    else
      var g := guests[vmid];
      if g.kind.Lxc? then Destruction(Failure(IsContainer), guests)
      else if g.kind.Other? then Destruction(Failure(Unsupported), guests)
      else
        var at := if g.node != "" then g.node else node;
        if SeenManaged(guests, vmid, api) then CallDelete(guests, vmid, at, Managed, api)
        else if provenance then CallDelete(guests, vmid, at, RunProvenance, api)
        else Destruction(Failure(Foreign), guests)
  }

  /** The lookup finds a QEMU that carries the marker or that the caller vouches for, on a known node. */
  predicate MayDestroy(guests: Guests, vmid: int, node: string, provenance: bool, api: Api) {
    && api.lookup.Replies? && vmid in guests && guests[vmid].kind.Qemu?
    && ((api.readable && guests[vmid].marked) || provenance)
    && (guests[vmid].node != "" || node != "")
  }

  /** A guest goes exactly if it may be destroyed and the delete removes it; no other guest changes. */
  lemma DestroyedIff(guests: Guests, vmid: int, node: string, provenance: bool, api: Api, v: int)
    ensures var after := Destroy(guests, vmid, node, provenance, api).guests;
            && (v in after <==>
                  v in guests && !(v == vmid && MayDestroy(guests, vmid, node, provenance, api) && api.delete.removes))
            && (v in after ==> after[v] == guests[v])
  {
  }

  /** It reports success exactly if the guest was found absent, or may be destroyed and the delete replies; and an
      error that says gone exactly if the lookup or that delete says so. */
  lemma DestroyReportsIff(guests: Guests, vmid: int, node: string, provenance: bool, api: Api)
    ensures var r, may := Destroy(guests, vmid, node, provenance, api).result, MayDestroy(guests, vmid, node, provenance, api);
            && (r.Success? <==> api.lookup.Replies? && (vmid !in guests || (may && api.delete.answer.Replies?)))
            && (r == Failure(ApiError(true)) <==> api.lookup.SaysGone? || (may && api.delete.answer.SaysGone?))
  {
  }

  /** Why it refuses: a container, another kind, a foreign guest, or a guest of its own on no known node; and on what
      ground it deletes. */
  lemma DestroyAnswersIff(guests: Guests, vmid: int, node: string, provenance: bool, api: Api)
    ensures var r := Destroy(guests, vmid, node, provenance, api).result;
            var found := api.lookup.Replies? && vmid in guests;
            && (r == Failure(IsContainer) <==> found && guests[vmid].kind.Lxc?)
            && (r == Failure(Unsupported) <==> found && guests[vmid].kind.Other?)
            && (r == Failure(Foreign) <==>
                  found && guests[vmid].kind.Qemu? && !provenance && !(api.readable && guests[vmid].marked))
            && (r == Failure(NodeUnknown) <==>
                  found && guests[vmid].kind.Qemu? && (provenance || (api.readable && guests[vmid].marked)) &&
                  guests[vmid].node == "" && node == "")
            && (r == Success(Absent) <==> api.lookup.Replies? && vmid !in guests)
            && (r == Success(Managed) <==>
                  found && guests[vmid].kind.Qemu? && api.readable && guests[vmid].marked &&
                  (guests[vmid].node != "" || node != "") && api.delete.answer.Replies?)
            && (r == Success(RunProvenance) <==>
                  found && guests[vmid].kind.Qemu? && provenance && !(api.readable && guests[vmid].marked) &&
                  (guests[vmid].node != "" || node != "") && api.delete.answer.Replies?)
  {
  }

  // ----- reclaiming before a DR overwrite -----

  /** One in-use VMID of the batch; `fallback` is the first candidate node. */
  function ReclaimOne(guests: Guests, vmid: int, fallback: string, api: Api): Destruction {
    if !api.nodeLookup.Replies? then Destruction(Failure(ApiError(api.nodeLookup.SaysGone?)), guests)
    else if vmid in guests && guests[vmid].kind.Lxc? then Destruction(Failure(IsContainer), guests)
    else
      var node := if vmid in guests && guests[vmid].node != "" then guests[vmid].node else fallback;
      if node == "" then Destruction(Failure(NodeUnknown), guests)
      else if !SeenManaged(guests, vmid, api) then Destruction(Failure(Foreign), guests)
      else Destroy(guests, vmid, node, false, api)
  }

  datatype Reclaimed = Reclaimed(ok: bool, guests: Guests)

  /** The loop stops at the first VMID that cannot be reclaimed. */
  function Reclaim(guests: Guests, vmids: seq<int>, inUse: set<int>, fallback: string, apiOf: int -> Api): Reclaimed {
    if vmids == [] then Reclaimed(true, guests)
    else if vmids[0] !in inUse then Reclaim(guests, vmids[1..], inUse, fallback, apiOf)
    else
      var d := ReclaimOne(guests, vmids[0], fallback, apiOf(vmids[0]));
      if d.result.Success? then Reclaim(d.guests, vmids[1..], inUse, fallback, apiOf)
      else Reclaimed(false, d.guests)
  }

  /** A VMID of the batch stands in nobody's way or can be cleared. */
  predicate Reclaimable(guests: Guests, v: int, inUse: set<int>, fallback: string, apiOf: int -> Api) {
    v !in inUse || (IsReclaimTried(guests, v, fallback, apiOf(v)) && apiOf(v).delete.answer.Replies?)
  }

  /** The reclaim of this VMID gets as far as the delete. */
  predicate IsReclaimTried(guests: Guests, v: int, fallback: string, api: Api) {
    && v in guests && guests[v].kind.Qemu? && api.readable && guests[v].marked
    && (guests[v].node != "" || fallback != "") && api.nodeLookup.Replies? && api.lookup.Replies?
  }

  /** Every VMID before `v` in the batch could be reclaimed. */
  predicate IsTried(guests: Guests, vmids: seq<int>, v: int, inUse: set<int>, fallback: string, apiOf: int -> Api) {
    vmids != [] && v in inUse &&
    (vmids[0] == v ||
     (Reclaimable(guests, vmids[0], inUse, fallback, apiOf) && IsTried(guests, vmids[1..], v, inUse, fallback, apiOf)))
  }

  lemma {:induction false} TriedIsMember(guests: Guests, vmids: seq<int>, v: int, inUse: set<int>, fallback: string,
                                         apiOf: int -> Api)
    requires IsTried(guests, vmids, v, inUse, fallback, apiOf)
    ensures v in vmids
  {
    if vmids[0] != v {
      TriedIsMember(guests, vmids[1..], v, inUse, fallback, apiOf);
    }
  }

  /** Removing a VMID that the rest of the batch does not mention changes nothing for the rest. */
  lemma {:induction false} TriedWithout(guests: Guests, gone: int, vmids: seq<int>, v: int, inUse: set<int>,
                                        fallback: string, apiOf: int -> Api)
    requires gone !in vmids
    ensures IsTried(guests - {gone}, vmids, v, inUse, fallback, apiOf) ==
            IsTried(guests, vmids, v, inUse, fallback, apiOf)
  {
    if vmids != [] {
      TriedWithout(guests, gone, vmids[1..], v, inUse, fallback, apiOf);
    }
  }

  /** A reclaim succeeds exactly if every VMID of the batch is reclaimable, and whether it does or not the guests
      gone are exactly the marked ones it tried whose delete removed them: never an unmarked guest or an LXC, but a
      refused batch leaves the guests before the refusal destroyed. */
  lemma {:induction false} ReclaimExact(guests: Guests, vmids: seq<int>, inUse: set<int>, fallback: string,
                                        apiOf: int -> Api, v: int)
    requires Distinct(vmids)
    ensures var r := Reclaim(guests, vmids, inUse, fallback, apiOf);
            && (r.ok <==> forall x :: x in vmids ==> Reclaimable(guests, x, inUse, fallback, apiOf))
            && (v in r.guests <==>
                  v in guests && !(IsTried(guests, vmids, v, inUse, fallback, apiOf) &&
                                   IsReclaimTried(guests, v, fallback, apiOf(v)) && apiOf(v).delete.removes))
            && (v in r.guests ==> r.guests[v] == guests[v])
  {
    if vmids != [] {
      var first, rest := vmids[0], vmids[1..];
      assert first !in rest;
      if first !in inUse {
        ReclaimExact(guests, rest, inUse, fallback, apiOf, v);
      } else {
        var d := ReclaimOne(guests, first, fallback, apiOf(first));
        if d.result.Success? {
          assert d.guests == (if apiOf(first).delete.removes then guests - {first} else guests);
          assert Reclaimable(guests, first, inUse, fallback, apiOf);
          ReclaimExact(d.guests, rest, inUse, fallback, apiOf, v);
          TriedWithout(guests, first, rest, v, inUse, fallback, apiOf);
          if v == first && IsTried(guests, rest, v, inUse, fallback, apiOf) {
            TriedIsMember(guests, rest, v, inUse, fallback, apiOf);
          }
          assert forall x :: x in rest ==>
            (Reclaimable(d.guests, x, inUse, fallback, apiOf) <==> Reclaimable(guests, x, inUse, fallback, apiOf));
        } else {
          assert !Reclaimable(guests, first, inUse, fallback, apiOf);
        }
      }
    }
  }

  // ----- restores -----

  /** What a restore task does to its VMID. Without `force` it fails on a VMID in use; otherwise `left` is what
      stands there when the task is over. */
  function RestoreEffect(guests: Guests, vmid: int, force: bool, left: Option<Guest>): Guests {
    if vmid in guests && !force then guests
    else if left.Some? then guests[vmid := left.value]
    else guests - {vmid}
  }

  /** A restore spares a guest whatever the task does exactly if the guest stands elsewhere or force is off. So a
      forced restore spares every guest exactly if nobody took its VMID since it was found free. */
  lemma RestoreSparesIff(guests: Guests, vmid: int, force: bool, v: int)
    requires v in guests
    ensures (forall left :: var after := RestoreEffect(guests, vmid, force, left); v in after && after[v] == guests[v])
            <==> v != vmid || !force
  {
    if v == vmid && force {
      assert v !in RestoreEffect(guests, vmid, force, None);
    }
  }

  // ----- the cluster as the services change it -----

  function Sight(vm: Vm): Guest {
    Guest(vm.kind, vm.node, S.IsManagedText(vm.tags, vm.description))
  }

  function Sights(vms: Vms): Guests {
    map v | v in vms :: Sight(vms[v])
  }

  lemma SightsWithout(vms: Vms, v: int)
    ensures Sights(vms - {v}) == Sights(vms) - {v}
  {
  }

  lemma SightsWith(vms: Vms, v: int, vm: Vm)
    ensures Sights(vms[v := vm]) == Sights(vms)[v := Sight(vm)]
  {
  }

  function Stamped(vm: Vm, jobId: string, runId: string): Vm {
    vm.(tags := Some(S.StampTags(vm.tags)), description := S.StampDescription(vm.description, S.Marker(jobId, runId)))
  }

  function WithMark(guests: Guests, vmid: int): Guests
    requires vmid in guests
  {
    guests[vmid := guests[vmid].(marked := true)]
  }

  /** The stamp text makes the guest pass the managed test and changes nothing else that decides about it. */
  lemma StampMarks(vms: Vms, vmid: int, jobId: string, runId: string)
    requires vmid in vms
    ensures Sights(vms[vmid := Stamped(vms[vmid], jobId, runId)]) == WithMark(Sights(vms), vmid)
  {
    var vm := vms[vmid];
    S.StampedIsManaged(vm.tags, Stamped(vm, jobId, runId).description);
    SightsWith(vms, vmid, Stamped(vm, jobId, runId));
  }

  /** On the config text itself: a guest goes exactly if it is a QEMU guest on a known node, the calls work, and its tags
      or its description name the tool or the caller vouches for it. */
  lemma TextDecides(vms: Vms, vmid: int, node: string, provenance: bool, api: Api)
    requires vmid in vms
    ensures var vm := vms[vmid];
            vmid !in Destroy(Sights(vms), vmid, node, provenance, api).guests <==>
              && vm.kind.Qemu? && (vm.node != "" || node != "") && api.lookup.Replies? && api.delete.removes
              && (provenance ||
                  (api.readable &&
                   ((vm.tags.Some? && exists i :: 0 <= i < |S.Pieces(vm.tags.value)| &&
                                                  T.Lower(T.Strip(S.Pieces(vm.tags.value)[i])) == "restore-engine") ||
                    exists a, b :: a + "restore-engine:" + b == vm.description)))
  {
    S.ManagedIff(vms[vmid].tags, vms[vmid].description);
    DestroyedIff(Sights(vms), vmid, node, provenance, api, vmid);
  }

  /** What a stamp leaves: the guest's own tags and the managed one, its own lines in order and then the marker. */
  lemma StampWrites(vm: Vm, jobId: string, runId: string)
    requires '\n' !in jobId && '\n' !in runId
    ensures var after := Stamped(vm, jobId, runId);
            && after.kind == vm.kind && after.node == vm.node && after.tags.Some?
            && S.ParseTags(after.tags.value) == S.MarkedTags(if vm.tags.None? then [] else S.ParseTags(vm.tags.value))
            && S.VisibleLines(after.description) ==
               S.Unmarked(S.VisibleLines(vm.description)) + [T.Strip(S.Marker(jobId, runId))]
  {
    S.StampedTags(vm.tags);
    S.StampedDescription(vm.description, jobId, runId);
  }

  class Cluster {
    var vms: Vms

    function Seen(): Guests
      reads this
    {
      Sights(vms)
    }

    constructor (initial: Vms)
      ensures vms == initial
    {
      vms := initial;
    }

    /** The managed test: an unreadable config counts as unmanaged, and only a QEMU guest has one. */
    method IsManagedByTool(vmid: int, api: Api) returns (managed: bool)
      ensures managed == SeenManaged(Seen(), vmid, api)
    {
      if !api.readable || vmid !in vms || !vms[vmid].kind.Qemu? {
        return false;
      }
      return S.IsManagedText(vms[vmid].tags, vms[vmid].description);
    }

    /** The low-level delete; it raises without a node. */
    method DeleteGuest(vmid: int, node: string, ruling: Ruling, api: Api) returns (r: Result<Ruling, Refusal>)
      modifies this
      ensures Destruction(r, Seen()) == CallDelete(old(Seen()), vmid, node, ruling, api)
    {
      if node == "" {
        return Failure(NodeUnknown);
      }
      if api.delete.removes && vmid in vms && (vms[vmid].node == "" || vms[vmid].node == node) {
        SightsWithout(vms, vmid);
        vms := vms - {vmid};
      }
      if !api.delete.answer.Replies? {
        return Failure(ApiError(api.delete.answer.SaysGone?));
      }
      return Success(ruling);
    }

    method DestroyOwned(vmid: int, node: string, provenance: bool, api: Api) returns (r: Result<Ruling, Refusal>)
      modifies this
      ensures Destruction(r, Seen()) == Destroy(old(Seen()), vmid, node, provenance, api)
    {
      if !api.lookup.Replies? {
        return Failure(ApiError(api.lookup.SaysGone?));
      }
      if vmid !in vms {
        return Success(Absent);
      }
      if vms[vmid].kind.Lxc? {
        return Failure(IsContainer);
      }
      if vms[vmid].kind.Other? {
        return Failure(Unsupported);
      }
      var at := if vms[vmid].node != "" then vms[vmid].node else node;
      var managed := IsManagedByTool(vmid, api);
      if managed {
        r := DeleteGuest(vmid, at, Managed, api);
        return;
      }
      if provenance {
        r := DeleteGuest(vmid, at, RunProvenance, api);
        return;
      }
      return Failure(Foreign);
    }

    method ReclaimForOverwrite(vmids: seq<int>, inUse: set<int>, fallback: string, apiOf: int -> Api)
      returns (ok: bool)
      modifies this
      ensures Reclaimed(ok, Seen()) == Reclaim(old(Seen()), vmids, inUse, fallback, apiOf)
    {
      var i := 0;
      while i < |vmids|
        invariant i <= |vmids|
        invariant Reclaim(Seen(), vmids[i..], inUse, fallback, apiOf) == Reclaim(old(Seen()), vmids, inUse, fallback, apiOf)
      {
        var v := vmids[i];
        assert vmids[i..][0] == v && vmids[i..][1..] == vmids[i + 1..];
        i := i + 1;
        if v in inUse {
          var ok := ReclaimVmid(v, fallback, apiOf(v));
          if !ok {
            return false;
          }
        }
      }
      return true;
    }

    method ReclaimVmid(v: int, fallback: string, api: Api) returns (ok: bool)
      modifies this
      ensures var d := ReclaimOne(old(Seen()), v, fallback, api);
              ok == d.result.Success? && Seen() == d.guests
    {
      if !api.nodeLookup.Replies? || (v in vms && vms[v].kind.Lxc?) {
        return false;
      }
      var node := if v in vms && vms[v].node != "" then vms[v].node else fallback;
      if node == "" {
        return false;
      }
      var managed := IsManagedByTool(v, api);
      if !managed {
        return false;
      }
      var r := DestroyOwned(v, node, false, api);
      return r.Success?;
    }

    method Restore(vmid: int, force: bool, left: Option<Vm>)
      modifies this
      ensures Seen() == RestoreEffect(old(Seen()), vmid, force, if left.Some? then Some(Sight(left.value)) else None)
    {
      if vmid in vms && !force {
        return;
      }
      if left.Some? {
        SightsWith(vms, vmid, left.value);
        vms := vms[vmid := left.value];
      } else {
        SightsWithout(vms, vmid);
        vms := vms - {vmid};
      }
    }

    /** Both markers are written over the guest's config. */
    method MarkManaged(vmid: int, jobId: string, runId: string)
      requires vmid in vms
      modifies this
      ensures vms == old(vms)[vmid := Stamped(old(vms)[vmid], jobId, runId)]
      ensures Seen() == WithMark(old(Seen()), vmid)
    {
      StampMarks(vms, vmid, jobId, runId);
      var tags := S.StampTags(vms[vmid].tags);
      var description := S.StampDescription(vms[vmid].description, S.Marker(jobId, runId));
      vms := vms[vmid := vms[vmid].(tags := Some(tags), description := description)];
    }
  }
}
