/** First-free scan for guest VMIDs inside a bounded window. */
module Allocator {
  import opened Sets
  import opened Wrappers

  datatype AllocError = Exhausted(desiredStart: int, upper: int)

  datatype Allocation = Allocation(ids: seq<int>, next: int)

  const LOWEST_VMID := 100

  function ScanStart(desiredStart: int): int {
    if desiredStart < LOWEST_VMID then LOWEST_VMID else desiredStart
  }

  /** Last id the scan looks at, inclusive. */
  function ScanEnd(desiredStart: int, count: int): int {
    ScanStart(desiredStart) + (if count * 250 < 5000 then 5000 else count * 250)
  }

  ghost function Free(inUse: set<int>, lo: int, hi: int): set<int> {
    set v | lo <= v <= hi && v !in inUse
  }

  /** Every id of the window, used or not. */
  ghost function Window(lo: int, hi: int): set<int> {
    Free({}, lo, hi)
  }

  ghost function Elements(ids: seq<int>): set<int> {
    set v | v in ids
  }

  ghost predicate Increasing(ids: seq<int>) {
    forall i, j :: 0 <= i < j < |ids| ==> ids[i] < ids[j]
  }

  /** The ids are the `count` smallest free ones at or above the start, and none lies past the window. */
  ghost predicate IsAllocation(inUse: set<int>, desiredStart: int, count: int, a: Allocation) {
    if count < 1 then a == Allocation([], desiredStart)
    else
      && |a.ids| == count
      && Increasing(a.ids)
      && a.next == a.ids[count - 1] + 1 <= ScanEnd(desiredStart, count) + 1
      && Elements(a.ids) == Free(inUse, ScanStart(desiredStart), a.ids[count - 1])
  }

  lemma {:induction false} IncreasingIsDistinct(ids: seq<int>)
    requires Increasing(ids)
    ensures |Elements(ids)| == |ids|
  {
    if ids != [] {
      var n := |ids| - 1;
      IncreasingIsDistinct(ids[..n]);
      assert Elements(ids) == Elements(ids[..n]) + {ids[n]};
      assert forall v :: v in ids[..n] ==> v < ids[n];
    }
  }

  /** Takes a copy of the ids in use, as its caller does, and returns it with the allocated ids added. */
  method AllocateSequentialFreeVmids(inUse: set<int>, desiredStart: int, count: int)
    returns (r: Result<Allocation, AllocError>, used: set<int>)
    ensures r.Success? <==>
            count < 1 || |Free(inUse, ScanStart(desiredStart), ScanEnd(desiredStart, count))| >= count
    ensures r.Success? ==> IsAllocation(inUse, desiredStart, count, r.value)
    ensures r.Success? ==> used == inUse + Elements(r.value.ids)
    ensures r.Failure? ==> r.error == Exhausted(desiredStart, ScanEnd(desiredStart, count))
  {
    used := inUse;
    if count < 1 {
      return Success(Allocation([], desiredStart)), used;
    }
    var out := [];
    var start := ScanStart(desiredStart);
    var v, upper := start, ScanEnd(desiredStart, count);
    while |out| < count && v <= upper
      invariant start <= v <= upper + 1
      invariant |out| <= count
      invariant Scanned(inUse, start, v, out)
      invariant used == inUse + Elements(out)
      decreases upper - v
    {
      ScanStep(inUse, start, v, out);
      if v !in used {
        out := out + [v];
        used := used + {v};
      }
      v := v + 1;
    }
    ScanResult(inUse, start, v, out);
    SubsetSize(Elements(out), Free(inUse, start, upper));
    if |out| < count {
      return Failure(Exhausted(desiredStart, upper)), used;
    }
    return Success(Allocation(out, out[|out| - 1] + 1)), used;
  }

  /** `out` holds the free ids of the window below `v`, in order. */
  ghost predicate Scanned(inUse: set<int>, start: int, v: int, out: seq<int>) {
    Increasing(out) && Elements(out) == Free(inUse, start, v - 1)
  }

  lemma ScanStep(inUse: set<int>, start: int, v: int, out: seq<int>)
    requires Scanned(inUse, start, v, out) && start <= v
    ensures v !in Elements(out)
    ensures v in inUse ==> Scanned(inUse, start, v + 1, out)
    ensures v !in inUse ==> Scanned(inUse, start, v + 1, out + [v]) && Elements(out + [v]) == Elements(out) + {v}
  {
    assert forall i :: 0 <= i < |out| ==> out[i] in Elements(out);
    assert Elements(out + [v]) == Elements(out) + {v};
  }

  lemma ScanResult(inUse: set<int>, start: int, v: int, out: seq<int>)
    requires Scanned(inUse, start, v, out)
    ensures |Elements(out)| == |out|
    ensures out != [] ==> out[|out| - 1] < v && Elements(out) == Free(inUse, start, out[|out| - 1])
  {
    IncreasingIsDistinct(out);
    if out != [] {
      var last := out[|out| - 1];
      assert last in Elements(out);
      assert forall x :: x in Elements(out) ==> x <= last;
    }
  }

  /** The ids a scan may give: not below 100 or the start, and at most 5000 or, for larger batches, 250 ids for each
      guest past that. */
  predicate InWindow(v: int, desiredStart: int, count: int) {
    && 100 <= v && desiredStart <= v
    && (v <= 5100 || v <= 100 + 250 * count || v <= desiredStart + 5000 || v <= desiredStart + 250 * count)
  }

  lemma ScanIsWindow(inUse: set<int>, desiredStart: int, count: int, v: int)
    ensures v in Free(inUse, ScanStart(desiredStart), ScanEnd(desiredStart, count)) <==>
            InWindow(v, desiredStart, count) && v !in inUse
  {
  }

  /** The ids are free ids of the window, in increasing order, and no free id below one of them is passed over. */
  lemma AllocationIsSmallest(inUse: set<int>, desiredStart: int, count: int, a: Allocation, v: int)
    requires count >= 1 && IsAllocation(inUse, desiredStart, count, a)
    requires v !in inUse && 100 <= v && desiredStart <= v && v !in a.ids
    ensures forall x :: x in a.ids ==> x < v && x !in inUse && InWindow(x, desiredStart, count)
    ensures forall i, k :: 0 <= i < k < |a.ids| ==> a.ids[i] < a.ids[k]
  {
    var last := a.ids[count - 1];
    assert v !in Elements(a.ids);
    assert v !in Free(inUse, ScanStart(desiredStart), last);
    forall x | x in a.ids
      ensures x < v && x !in inUse && InWindow(x, desiredStart, count)
    {
      assert x in Elements(a.ids);
    }
  }

  /** The inputs determine the allocation. */
  lemma AllocationIsUnique(inUse: set<int>, desiredStart: int, count: int, a: Allocation, b: Allocation)
    requires IsAllocation(inUse, desiredStart, count, a) && IsAllocation(inUse, desiredStart, count, b)
    ensures a == b
  {
    if count >= 1 {
      var lastA, lastB := a.ids[count - 1], b.ids[count - 1];
      IncreasingIsDistinct(a.ids);
      IncreasingIsDistinct(b.ids);
      var lo := ScanStart(desiredStart);
      var freeA, freeB := Free(inUse, lo, lastA), Free(inUse, lo, lastB);
      assert lastA in Elements(a.ids) && lastB in Elements(b.ids);
      if lastA < lastB {
        SubsetSize(freeA, freeB);
      } else if lastB < lastA {
        SubsetSize(freeB, freeA);
      }
      SameElements(a.ids, b.ids);
    }
  }

  lemma {:induction false} SameElements(a: seq<int>, b: seq<int>)
    requires Increasing(a) && Increasing(b) && Elements(a) == Elements(b) && |a| == |b|
    ensures a == b
  {
    if a != [] {
      var n := |a| - 1;
      assert a[n] in Elements(b) && b[n] in Elements(a);
      assert a[n] == b[n];
      assert Elements(a[..n]) == Elements(a) - {a[n]};
      assert Elements(b[..n]) == Elements(b) - {b[n]};
      SameElements(a[..n], b[..n]);
      assert a == a[..n] + [a[n]] && b == b[..n] + [b[n]];
    }
  }

  lemma {:induction false} WindowSize(lo: int, hi: int)
    requires lo <= hi + 1
    ensures |Window(lo, hi)| == hi - lo + 1
    decreases hi - lo
  {
    if lo <= hi {
      WindowSize(lo, hi - 1);
      assert Window(lo, hi) == Window(lo, hi - 1) + {hi};
    } else {
      assert Window(lo, hi) == {};
    }
  }

  /** Pigeonhole: enough unused room in the window guarantees success. */
  lemma EnoughRoom(inUse: set<int>, desiredStart: int, count: int)
    requires count >= 1
    ensures var lo, hi := ScanStart(desiredStart), ScanEnd(desiredStart, count);
            |Free(inUse, lo, hi)| == hi - lo + 1 - |inUse * Window(lo, hi)|
    ensures |inUse| <= 5000 - count ==>
            |Free(inUse, ScanStart(desiredStart), ScanEnd(desiredStart, count))| >= count
  {
    var lo, hi := ScanStart(desiredStart), ScanEnd(desiredStart, count);
    WindowSize(lo, hi);
    var taken := inUse * Window(lo, hi);
    assert Window(lo, hi) == Free(inUse, lo, hi) + taken;
    SubsetSize(taken, inUse);
  }
}
