/** Greedy least-loaded placement of restore jobs on nodes. */
module Placement {
  import opened Wrappers
  import opened Text

  type Node = string

  datatype PlacementError = NoNode

  function Initial(active: map<Node, int>, n: Node): int {
    if n in active then active[n] else 0
  }

  /** Load of a node once the jobs in `placed` are placed. */
  function Load(active: map<Node, int>, placed: seq<Node>, n: Node): int {
    Initial(active, n) + multiset(placed)[n]
  }

  /** Position that breaks ties: a repeated node counts at its last position. */
  function Rank(nodes: seq<Node>, n: Node): (i: nat)
    requires n in nodes
    ensures i < |nodes| && nodes[i] == n
  {
    if nodes[|nodes| - 1] == n then |nodes| - 1 else Rank(nodes[..|nodes| - 1], n)
  }

  predicate Before(nodes: seq<Node>, active: map<Node, int>, placed: seq<Node>, a: Node, b: Node)
    requires a in nodes && b in nodes
  {
    Load(active, placed, a) < Load(active, placed, b) ||
    (Load(active, placed, a) == Load(active, placed, b) && Rank(nodes, a) <= Rank(nodes, b))
  }

  /** `pick` is least loaded after `placed`, ties going to the earliest rank. */
  ghost predicate IsPick(nodes: seq<Node>, active: map<Node, int>, placed: seq<Node>, pick: Node) {
    pick in nodes && forall n :: n in nodes ==> Before(nodes, active, placed, pick, n)
  }

  /** Every job went to the node that was least loaded when it was placed. */
  ghost predicate IsGreedy(nodes: seq<Node>, active: map<Node, int>, placed: seq<Node>) {
    placed == [] ||
    (IsGreedy(nodes, active, placed[..|placed| - 1]) &&
     IsPick(nodes, active, placed[..|placed| - 1], placed[|placed| - 1]))
  }

  method AssignNodesLeastLoaded(candidates: seq<string>, count: int, active: map<Node, int>)
    returns (r: Result<seq<Node>, PlacementError>)
    ensures r.Failure? <==> Clean(candidates) == []
    ensures r.Success? ==> |r.value| == (if count < 1 then 0 else count)
    ensures r.Success? ==> IsGreedy(Clean(candidates), active, r.value)
  {
    var nodes := Clean(candidates);
    if nodes == [] {
      return Failure(NoNode);
    }
    if count < 1 {
      return Success([]);
    }
    var counts := map n | n in nodes :: Initial(active, n);
    var placed: seq<Node> := [];
    for i := 0 to count
      invariant |placed| == i
      invariant Counted(nodes, active, placed, counts)
      invariant IsGreedy(nodes, active, placed)
    {
      var pick := LeastLoaded(nodes, counts, active, placed);
      PlaceOne(nodes, active, placed, counts, pick);
      placed := placed + [pick];
      counts := counts[pick := counts[pick] + 1];
    }
    return Success(placed);
  }

  ghost predicate Counted(nodes: seq<Node>, active: map<Node, int>, placed: seq<Node>, counts: map<Node, int>) {
    forall n :: n in nodes ==> n in counts && counts[n] == Load(active, placed, n)
  }

  lemma PlaceOne(nodes: seq<Node>, active: map<Node, int>, placed: seq<Node>, counts: map<Node, int>, pick: Node)
    requires Counted(nodes, active, placed, counts) && IsGreedy(nodes, active, placed)
    requires IsPick(nodes, active, placed, pick)
    ensures Counted(nodes, active, placed + [pick], counts[pick := counts[pick] + 1])
    ensures IsGreedy(nodes, active, placed + [pick])
  {
    assert (placed + [pick])[..|placed|] == placed;
    assert multiset(placed + [pick]) == multiset(placed)[pick := multiset(placed)[pick] + 1];
  }

  /** `min(nodes, key=...)` over the current counts. */
  method LeastLoaded(nodes: seq<Node>, counts: map<Node, int>, ghost active: map<Node, int>, ghost placed: seq<Node>)
    returns (pick: Node)
    requires nodes != [] && Counted(nodes, active, placed, counts)
    ensures IsPick(nodes, active, placed, pick)
  {
    pick := nodes[0];
    for i := 0 to |nodes|
      invariant pick in nodes
      invariant forall j :: 0 <= j < i ==> Before(nodes, active, placed, pick, nodes[j])
    {
      var n := nodes[i];
      if counts[n] < counts[pick] || (counts[n] == counts[pick] && Rank(nodes, n) < Rank(nodes, pick)) {
        pick := n;
      }
    }
  }

  /** What a node had at the start plus the jobs it was given. */
  function LoadAfter(active: map<Node, int>, given: seq<Node>, n: Node): int {
    multiset(given)[n] + (if n in active then active[n] else 0)
  }

  /** The node of every job had, when its turn came, no more to do than any other; and of those with as little to do it
      is the one whose last place in the list comes first. */
  lemma {:induction false} GreedyTakesFirstLeast(nodes: seq<Node>, active: map<Node, int>, placed: seq<Node>, i: nat, n: Node)
    requires IsGreedy(nodes, active, placed) && i < |placed| && n in nodes && n != placed[i]
    ensures LoadAfter(active, placed[..i], placed[i]) <= LoadAfter(active, placed[..i], n)
    ensures LoadAfter(active, placed[..i], placed[i]) == LoadAfter(active, placed[..i], n) ==>
            exists p :: 0 <= p < |nodes| && nodes[p] == n && forall q :: p <= q < |nodes| ==> nodes[q] != placed[i]
  {
    var k := |placed| - 1;
    if i < k {
      assert placed[..k][..i] == placed[..i];
      GreedyTakesFirstLeast(nodes, active, placed[..k], i, n);
    } else {
      assert Before(nodes, active, placed[..k], placed[k], n);
      RankIsLast(nodes, placed[k]);
      assert nodes[Rank(nodes, n)] == n;
    }
  }

  lemma {:induction false} RankIsLast(nodes: seq<Node>, n: Node)
    requires n in nodes
    ensures forall q :: Rank(nodes, n) < q < |nodes| ==> nodes[q] != n
  {
    var k := |nodes| - 1;
    if nodes[k] != n {
      RankIsLast(nodes[..k], n);
      assert forall q :: 0 <= q < k ==> nodes[..k][q] == nodes[q];
    }
  }

  /** A node that received a job ends at most one above every other node. */
  lemma {:induction false} GreedyIsBalanced(nodes: seq<Node>, active: map<Node, int>, placed: seq<Node>, a: Node, b: Node)
    requires IsGreedy(nodes, active, placed)
    requires a in placed && b in nodes
    ensures Load(active, placed, a) <= Load(active, placed, b) + 1
  {
    var k := |placed| - 1;
    var before := placed[..k];
    assert placed == before + [placed[k]];
    if a == placed[k] {
      assert Before(nodes, active, before, a, b);
    } else {
      GreedyIsBalanced(nodes, active, before, a, b);
    }
  }

  ghost predicate IsAssignment(nodes: seq<Node>, count: nat, placed: seq<Node>) {
    |placed| == count && forall n :: n in placed ==> n in nodes
  }

  lemma {:induction false} GreedyIsAssignment(nodes: seq<Node>, active: map<Node, int>, placed: seq<Node>)
    requires IsGreedy(nodes, active, placed)
    ensures IsAssignment(nodes, |placed|, placed)
  {
    if placed != [] {
      var k := |placed| - 1;
      GreedyIsAssignment(nodes, active, placed[..k]);
      assert placed == placed[..k] + [placed[k]];
    }
  }

  /** Two assignments of the same number of jobs cannot differ in one direction only. */
  lemma SameTotal(a: seq<Node>, b: seq<Node>, n: Node)
    requires |a| == |b|
    requires forall m :: multiset(a)[m] <= multiset(b)[m]
    ensures multiset(a)[n] == multiset(b)[n]
  {
    var x, y := multiset(a), multiset(b);
    assert y == x + (y - x);
  }

  /** The highest load is as low as any assignment can make it. */
  lemma GreedyMinimisesMaximum(nodes: seq<Node>, active: map<Node, int>, greedy: seq<Node>, other: seq<Node>, bound: int)
    requires IsGreedy(nodes, active, greedy) && IsAssignment(nodes, |greedy|, other)
    requires forall n :: n in nodes ==> Load(active, other, n) <= bound
    ensures forall n :: n in nodes ==> Load(active, greedy, n) <= bound
  {
    forall n | n in nodes
      ensures Load(active, greedy, n) <= bound
    {
      if Load(active, greedy, n) > bound {
        assert n in greedy;
        forall m
          ensures multiset(other)[m] <= multiset(greedy)[m]
        {
          if m in nodes {
            GreedyIsBalanced(nodes, active, greedy, n, m);
          }
        }
        SameTotal(other, greedy, n);
        assert false;
      }
    }
  }

  /** The lowest load is as high as any assignment can make it. */
  lemma GreedyMaximisesMinimum(nodes: seq<Node>, active: map<Node, int>, greedy: seq<Node>, other: seq<Node>, bound: int)
    requires IsGreedy(nodes, active, greedy) && IsAssignment(nodes, |greedy|, other)
    requires forall n :: n in nodes ==> Load(active, other, n) >= bound
    ensures forall n :: n in nodes ==> Load(active, greedy, n) >= bound
  {
    GreedyIsAssignment(nodes, active, greedy);
    forall n | n in nodes
      ensures Load(active, greedy, n) >= bound
    {
      if Load(active, greedy, n) < bound {
        forall m
          ensures multiset(greedy)[m] <= multiset(other)[m]
        {
          if m in greedy {
            GreedyIsBalanced(nodes, active, greedy, m, n);
          }
        }
        SameTotal(greedy, other, n);
        assert false;
      }
    }
  }

  /** The inputs determine the placement. */
  lemma {:induction false} GreedyIsUnique(nodes: seq<Node>, active: map<Node, int>, a: seq<Node>, b: seq<Node>)
    requires IsGreedy(nodes, active, a) && IsGreedy(nodes, active, b) && |a| == |b|
    ensures a == b
  {
    if a != [] {
      var k := |a| - 1;
      GreedyIsUnique(nodes, active, a[..k], b[..k]);
      assert IsPick(nodes, active, a[..k], a[k]) && IsPick(nodes, active, a[..k], b[k]);
      assert Before(nodes, active, a[..k], a[k], b[k]) && Before(nodes, active, a[..k], b[k], a[k]);
      assert a == a[..k] + [a[k]] && b == b[..k] + [b[k]];
    }
  }

  /** The load of the nodes that occur in the list, each counted once. */
  function Total(active: map<Node, int>, placed: seq<Node>, nodes: seq<Node>): int {
    if nodes == [] then 0
    else
      var front, last := nodes[..|nodes| - 1], nodes[|nodes| - 1];
      Total(active, placed, front) + (if last in front then 0 else Load(active, placed, last))
  }

  lemma {:induction false} PlacingAddsOne(active: map<Node, int>, placed: seq<Node>, pick: Node, nodes: seq<Node>)
    ensures Total(active, placed + [pick], nodes) == Total(active, placed, nodes) + (if pick in nodes then 1 else 0)
  {
    if nodes != [] {
      var n := |nodes| - 1;
      PlacingAddsOne(active, placed, pick, nodes[..n]);
      assert nodes == nodes[..n] + [nodes[n]];
      assert multiset(placed + [pick]) == multiset(placed) + multiset{pick};
    }
  }

  /** Placing jobs raises the total load of the candidate nodes by exactly one each. */
  lemma {:induction false} TotalIsConserved(active: map<Node, int>, placed: seq<Node>, nodes: seq<Node>)
    requires IsAssignment(nodes, |placed|, placed)
    ensures Total(active, placed, nodes) == Total(active, [], nodes) + |placed|
  {
    if placed != [] {
      var k := |placed| - 1;
      assert placed == placed[..k] + [placed[k]];
      TotalIsConserved(active, placed[..k], nodes);
      PlacingAddsOne(active, placed[..k], placed[k], nodes);
    }
  }
}
