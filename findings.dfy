/** Two places where the all-rounds loops do something their authors
    evidently did not intend, each shown on a three-vertex graph with the
    sentinel 0, and the corrected behaviour: stop at the first round whose
    selected cost is the sentinel, as `dijkstra_from_src_with_path` already
    does. */
module Findings {
  import opened AdjacencyMatrix
  import opened ShortestPath
  import opened ShortestPathProperties
  import opened QueryProperties

  // ---------------------------------------------------------------------
  // The corrected queries

  /** The single-target cost when the loop stops at the first sentinel
      selection: the cost of the round that selects `dst`, if that round
      comes before any sentinel selection; the sentinel otherwise. */
  function CostFixed(m: Matrix, src: nat, dst: nat): (c: nat)
    requires Runnable(m, src)
  {
    var ps := Picks(m, src);
    if Hit(ps, dst, 0) < Break(ps, m.inf, 0) then ps[Hit(ps, dst, 0)].1 else m.inf
  }

  /** The all-targets cost vector when the loop stops at the first sentinel
      selection. */
  function FromSrcFixed(m: Matrix, src: nat): (out: seq<nat>)
    requires Runnable(m, src)
  {
    var ps := Picks(m, src);
    Record(ps, m.N(), m.inf, Break(ps, m.inf, 0))
  }

  /** A real corrected cost is the cost `dijkstra` returns, and (without a
      self-loop at the source) the weight of the walk `dijkstra_with_path`
      returns. */
  lemma {:induction false} CostFixedSound(m: Matrix, src: nat, dst: nat)
    requires Runnable(m, src) && NoSelfLoop(m, src) && dst < m.N() && CostFixed(m, src, dst) != m.inf
    ensures CostFixed(m, src, dst) == Cost(m, src, dst)
    ensures IsWalk(m, CostPath(m, src, dst), src, dst)
    ensures Weight(m, CostPath(m, src, dst)) == CostFixed(m, src, dst)
  {
    CostPathSound(m, src, dst);
  }

  /** Without a self-loop at the source, a vertex no walk reaches gets the
      sentinel from the corrected query. */
  lemma {:induction false} CostFixedUnreachable(m: Matrix, src: nat, dst: nat)
    requires Runnable(m, src) && NoSelfLoop(m, src) && dst < m.N()
    requires forall p :: !IsWalk(m, p, src, dst)
    ensures CostFixed(m, src, dst) == m.inf
  {
    if CostFixed(m, src, dst) != m.inf {
      CostFixedSound(m, src, dst);
    }
  }

  /** The corrected cost vector holds at each vertex the corrected
      single-target cost. */
  lemma {:induction false} FromSrcFixedMatchesCost(m: Matrix, src: nat)
    requires Runnable(m, src)
    ensures |FromSrcFixed(m, src)| == m.N()
    ensures forall v :: 0 <= v < m.N() ==> FromSrcFixed(m, src)[v] == CostFixed(m, src, v)
  {
    var ps, n := Picks(m, src), m.N();
    var b := Break(ps, m.inf, 0);
    var out := FromSrcFixed(m, src);
    RecordAt(ps, n, m.inf, b);
    forall v | 0 <= v < n
      ensures out[v] == CostFixed(m, src, v)
    {
      var h := Hit(ps, v, 0);
      if h < b {
        forall q | h < q < b
          ensures ps[q].0 != v
        {
          assert ps[q].1 != m.inf;
          PickedOnce(m, src, h, q);
        }
      } else {
        assert forall q :: 0 <= q < b ==> ps[q].0 != v;
      }
    }
  }

  // ---------------------------------------------------------------------
  // Finding 1: `dijkstra_from_src` overwrites a recorded cost

  /** Three vertices, one edge 0 - 2 of weight 5, sentinel 0. */
  const OneEdge: Matrix := Matrix([[0, 0, 5], [0, 0, 0], [5, 0, 0]], 0)

  /** Round 1 settles vertex 2 at cost 5; round 2 finds no real distance,
      falls back to the last vertex, 2 again, with the sentinel, and
      `dijkstra_from_src` writes that sentinel over the 5 it recorded. */
  lemma {:induction false} FromSrcOverwrites()
    ensures Runnable(OneEdge, 0)
    ensures Cost(OneEdge, 0, 2) == 5 && IsWalk(OneEdge, [2, 0], 0, 2) && Weight(OneEdge, [2, 0]) == 5
    ensures FromSrcCosts(OneEdge, 0)[2] == 0 == OneEdge.inf
    ensures FromSrcFixed(OneEdge, 0)[2] == 5
  {
    var m := OneEdge;
    assert Runnable(m, 0);
    assert Run(m, 0, 0).distance == [0, 0, 5];
    assert Pick(m, 0, 0) == (2, 5);
    assert Run(m, 0, 1).distance == [0, 0, 0];
    assert Pick(m, 0, 1) == (2, 0);
    var ps := Picks(m, 0);
    assert ps == [(2, 5), (2, 0)];
    assert Hit(ps, 2, 0) == 0 && Break(ps, 0, 0) == 1;
    assert IsWalk(m, [2, 0], 0, 2) by {
      assert EdgeAt(m, [2, 0], 0);
    }
  }

  // ---------------------------------------------------------------------
  // Finding 2: an unreachable vertex gets a real cost

  /** Three vertices, one edge 1 - 2 of weight 7, sentinel 0: vertex 1 is
      not reachable from vertex 0. */
  const FarEdge: Matrix := Matrix([[0, 0, 0], [0, 0, 7], [0, 7, 0]], 0)

  /** Every vertex of a walk that starts at vertex 1 of `FarEdge` is 1 or
      2. */
  lemma {:induction false} FarEdgeStaysFar(p: seq<nat>, k: nat)
    requires |p| >= 1 && IsWalk(FarEdge, p, p[|p| - 1], 1) && k < |p|
    ensures p[k] == 1 || p[k] == 2
    decreases k
  {
    if k > 0 {
      FarEdgeStaysFar(p, k - 1);
      assert EdgeAt(FarEdge, p, k - 1);
    }
  }

  /** Round 1 finds no real distance and falls back to vertex 2 with the
      sentinel cost 0; relaxing from it gives vertex 1 the cost 0 + 7, so
      `dijkstra` returns 7 and `dijkstra_with_path` the path [1, 2, 0],
      though no walk joins 0 to 1. The corrected query returns the
      sentinel. */
  lemma {:induction false} UnreachableGetsCost()
    ensures Runnable(FarEdge, 0) && NoSelfLoop(FarEdge, 0)
    ensures forall p :: !IsWalk(FarEdge, p, 0, 1)
    ensures Cost(FarEdge, 0, 1) == 7 && CostPath(FarEdge, 0, 1) == [1, 2, 0]
    ensures CostFixed(FarEdge, 0, 1) == FarEdge.inf
  {
    var m := FarEdge;
    assert Runnable(m, 0);
    forall p | IsWalk(m, p, 0, 1)
      ensures false
    {
      FarEdgeStaysFar(p, |p| - 1);
    }
    assert Run(m, 0, 0).distance == [0, 0, 0];
    assert Pick(m, 0, 0) == (2, 0);
    assert Run(m, 0, 1).distance == [0, 7, 0];
    assert Run(m, 0, 1).path == [0, 2, 0];
    assert Pick(m, 0, 1) == (1, 7);
    var ps := Picks(m, 0);
    assert ps == [(2, 0), (1, 7)];
    assert Hit(ps, 1, 0) == 1 && Break(ps, 0, 0) == 0;
    assert Run(m, 0, 2).path == [0, 2, 0];
    RunInv(m, 0, 2);
    var rk := Ranks(m, 0, 2);
    assert Rebuild([0, 2, 0], 0, 0, rk) == [0];
    assert Rebuild([0, 2, 0], 0, 2, rk) == [2, 0];
    assert Rebuild([0, 2, 0], 0, 1, rk) == [1, 2, 0];
  }
}
