/** What the four entry points return, in terms of the rounds: each entry
    of the all-targets report is the single-target cost and path of its
    vertex, the all-targets cost vector agrees with the single-target cost
    when every round selects a real cost, and (when the source has no
    self-loop) every path they rebuild before the first sentinel selection
    is a walk whose weight is the cost reported with it. */
module QueryProperties {
  import opened AdjacencyMatrix
  import opened ShortestPath
  import opened ShortestPathProperties

  /** `Hit` finds the first round from `r` on that selects `v`. */
  lemma {:induction false} HitAt(ps: seq<(nat, nat)>, v: nat, r: nat, h: nat)
    requires r <= h < |ps| && ps[h].0 == v
    requires forall q :: r <= q < h ==> ps[q].0 != v
    ensures Hit(ps, v, r) == h
    decreases h - r
  {
    if r < h {
      HitAt(ps, v, r + 1, h);
    }
  }

  /** Every round before the first sentinel selection selects a real cost. */
  lemma {:induction false} RealBeforeBreak(m: Matrix, src: nat, q: nat)
    requires Runnable(m, src) && q < Break(Picks(m, src), m.inf, 0)
    ensures forall p :: 0 <= p <= q ==> RealPick(m, src, p)
  {
    var ps := Picks(m, src);
    forall p | 0 <= p <= q
      ensures RealPick(m, src, p)
    {
      assert ps[p].1 != m.inf;
    }
  }

  /** The round that first selects `dst` selects it at the cost the
      single-target entry points return, and its state holds the path they
      return. */
  lemma {:induction false} CostAtHit(m: Matrix, src: nat, dst: nat, h: nat)
    requires Runnable(m, src) && dst < m.N() && h == Hit(Picks(m, src), dst, 0) && h < m.N() - 1
    ensures Pick(m, src, h).0 == dst
    ensures Cost(m, src, dst) == Entry(m, src, h).0
    ensures CostPath(m, src, dst) == Entry(m, src, h).1
  {
    var r := h + 1;
    assert RoundsTo(m, src, dst) == r;
    EntryAt(m, src, h, r);
  }

  /** When `dst` is selected before any round selects the sentinel cost,
      `dijkstra` and `dijkstra_with_path` return a real cost, and (when the
      source has no self-loop) the returned path is a walk from `src` to
      `dst` whose weight is that cost. */
  lemma {:induction false} CostPathSound(m: Matrix, src: nat, dst: nat)
    requires Runnable(m, src) && NoSelfLoop(m, src) && dst < m.N()
    requires Hit(Picks(m, src), dst, 0) < Break(Picks(m, src), m.inf, 0)
    ensures Cost(m, src, dst) != m.inf
    ensures IsWalk(m, CostPath(m, src, dst), src, dst)
    ensures Weight(m, CostPath(m, src, dst)) == Cost(m, src, dst)
  {
    var h := Hit(Picks(m, src), dst, 0);
    CostAtHit(m, src, dst, h);
    RealBeforeBreak(m, src, h);
    SettledWalk(m, src, h);
  }

  /** When every round selects a real cost, `dijkstra_from_src` holds at
      each vertex exactly what `dijkstra` returns for that vertex. */
  lemma {:induction false} FromSrcMatchesCost(m: Matrix, src: nat)
    requires Runnable(m, src) && Break(Picks(m, src), m.inf, 0) == m.N() - 1
    ensures |FromSrcCosts(m, src)| == m.N()
    ensures forall v :: 0 <= v < m.N() ==> FromSrcCosts(m, src)[v] == Cost(m, src, v)
  {
    var ps, n := Picks(m, src), m.N();
    var out := FromSrcCosts(m, src);
    RecordAt(ps, n, m.inf, n - 1);
    forall v | 0 <= v < n
      ensures out[v] == Cost(m, src, v)
    {
      var h := Hit(ps, v, 0);
      if h < |ps| {
        forall q | h < q < |ps|
          ensures ps[q].0 != v
        {
          assert ps[q].1 != m.inf;
          PickedOnce(m, src, h, q);
        }
      }
    }
  }

  /** Entry `q` of `dijkstra_from_src_with_path`, `e`, is the entry round
      `q + 1` pushes: that round selected a real cost, and `e` holds it with
      a path from the selected vertex back to `src`. */
  lemma {:induction false} ReportAt(m: Matrix, src: nat, q: nat, e: (nat, seq<nat>))
    requires Runnable(m, src) && q < |Report(m, src)| && e == Report(m, src)[q]
    ensures e == Entry(m, src, q) && RealPick(m, src, q) && e.0 == Pick(m, src, q).1
    ensures |e.1| >= 1 && e.1[0] == Pick(m, src, q).0 && e.1[|e.1| - 1] == src
  {
    var ps := Picks(m, src);
    assert ps[q].1 != m.inf;
    EntryShape(m, src, q, e);
  }

  /** The entry of round `q`'s pick: its cost, and a path from the picked
      vertex back to `src`. */
  lemma {:induction false} EntryShape(m: Matrix, src: nat, q: nat, e: (nat, seq<nat>))
    requires Runnable(m, src) && e == Entry(m, src, q)
    ensures e.0 == Pick(m, src, q).1
    ensures |e.1| >= 1 && e.1[0] == Pick(m, src, q).0 && e.1[|e.1| - 1] == src
  {
    var r := q + 1;
    EntryAt(m, src, q, r);
  }

  /** The entries `dijkstra_from_src_with_path` pushes: at most `n - 1`,
      each with a real cost and a path from the vertex its round selected
      back to `src`. */
  lemma {:induction false} ReportShape(m: Matrix, src: nat)
    requires Runnable(m, src)
    ensures |Report(m, src)| <= m.N() - 1
    ensures forall q :: 0 <= q < |Report(m, src)| ==>
              Report(m, src)[q].0 != m.inf &&
              |Report(m, src)[q].1| >= 1 && Report(m, src)[q].1[0] == Pick(m, src, q).0 &&
              Report(m, src)[q].1[|Report(m, src)[q].1| - 1] == src
  {
    forall q | 0 <= q < |Report(m, src)|
      ensures Report(m, src)[q].0 != m.inf
      ensures |Report(m, src)[q].1| >= 1 && Report(m, src)[q].1[0] == Pick(m, src, q).0
      ensures Report(m, src)[q].1[|Report(m, src)[q].1| - 1] == src
    {
      ReportAt(m, src, q, Report(m, src)[q]);
    }
  }

  /** The costs `dijkstra_from_src_with_path` pushes come out in
      non-decreasing order, and no vertex is reported twice. */
  lemma {:induction false} ReportOrdered(m: Matrix, src: nat)
    requires Runnable(m, src)
    ensures forall q, r :: 0 <= q < r < |Report(m, src)| ==>
              Report(m, src)[q].0 <= Report(m, src)[r].0 && Report(m, src)[q].1[0] != Report(m, src)[r].1[0]
  {
    forall q, r | 0 <= q < r < |Report(m, src)|
      ensures Report(m, src)[q].0 <= Report(m, src)[r].0 && Report(m, src)[q].1[0] != Report(m, src)[r].1[0]
    {
      ReportAt(m, src, q, Report(m, src)[q]);
      ReportAt(m, src, r, Report(m, src)[r]);
      RealBeforeBreak(m, src, r);
      PicksSorted(m, src, q, r);
      PickedOnce(m, src, q, r);
    }
  }

  /** Each entry of `dijkstra_from_src_with_path` is what the single-target
      entry points return for the vertex it reports: the same cost, and the
      same path. */
  lemma {:induction false} ReportMatchesCost(m: Matrix, src: nat, q: nat)
    requires Runnable(m, src) && q < |Report(m, src)|
    ensures var v := Pick(m, src, q).0;
            Report(m, src)[q] == (Cost(m, src, v), CostPath(m, src, v))
  {
    var ps, v := Picks(m, src), Pick(m, src, q).0;
    forall p | 0 <= p < q
      ensures ps[p].0 != v
    {
      assert ps[q].1 != m.inf;
      PickedOnce(m, src, p, q);
    }
    HitAt(ps, v, 0, q);
    CostAtHit(m, src, v, q);
  }

  /** When the source has no self-loop, every path
      `dijkstra_from_src_with_path` pushes is a walk from `src` to the
      vertex it reports, whose weight is the cost pushed with it. */
  lemma {:induction false} ReportSound(m: Matrix, src: nat)
    requires Runnable(m, src) && NoSelfLoop(m, src)
    ensures forall q :: 0 <= q < |Report(m, src)| ==>
              IsWalk(m, Report(m, src)[q].1, src, Pick(m, src, q).0) &&
              Weight(m, Report(m, src)[q].1) == Report(m, src)[q].0
  {
    forall q | 0 <= q < |Report(m, src)|
      ensures IsWalk(m, Report(m, src)[q].1, src, Pick(m, src, q).0)
      ensures Weight(m, Report(m, src)[q].1) == Report(m, src)[q].0
    {
      RealBeforeBreak(m, src, q);
      SettledWalk(m, src, q);
    }
  }

  // ---------------------------------------------------------------------
  // The loops of the entry points, round by round

  /** The round that first selects `dst` fixes the single-target cost. */
  lemma {:induction false} CostFound(m: Matrix, src: nat, dst: nat, r: nat)
    requires Runnable(m, src) && r < m.N() - 1 && Pick(m, src, r).0 == dst
    requires forall q :: 0 <= q < r ==> Pick(m, src, q).0 != dst
    ensures Cost(m, src, dst) == Pick(m, src, r).1 && RoundsTo(m, src, dst) == r + 1
  {
    var ps := Picks(m, src);
    HitAt(ps, dst, 0, r);
  }

  /** ... and the single-target path, read in the state after that
      round. */
  lemma {:induction false} CostPathFound(m: Matrix, src: nat, dst: nat, r: nat, r': nat)
    requires Runnable(m, src) && dst < m.N() && r < m.N() - 1 && r' == r + 1 && Pick(m, src, r).0 == dst
    requires forall q :: 0 <= q < r ==> Pick(m, src, q).0 != dst
    ensures Inv(m, src, r') && CostPath(m, src, dst) == Rebuild(Run(m, src, r').path, src, dst, Ranks(m, src, r'))
  {
    var ps := Picks(m, src);
    HitAt(ps, dst, 0, r);
    assert RoundsTo(m, src, dst) == r';
    RunInv(m, src, r');
  }

  /** When no round selects `dst`, the single-target cost is the sentinel
      and the path is read in the state after the last round. */
  lemma {:induction false} CostMissed(m: Matrix, src: nat, dst: nat, r: nat)
    requires Runnable(m, src) && r == m.N() - 1
    requires forall q :: 0 <= q < r ==> Pick(m, src, q).0 != dst
    ensures Cost(m, src, dst) == m.inf && RoundsTo(m, src, dst) == r
    ensures dst < m.N() ==> Inv(m, src, r) && CostPath(m, src, dst) == Rebuild(Run(m, src, r).path, src, dst, Ranks(m, src, r))
  {
    var ps := Picks(m, src);
    if Hit(ps, dst, 0) < |ps| {
      assert false;
    }
    RunInv(m, src, r);
  }

  /** One more round writes its selected cost into the all-targets
      vector. */
  lemma {:induction false} RecordStep(ps: seq<(nat, nat)>, n: nat, inf: nat, r: nat, r': nat)
    requires r' == r + 1 && r' <= |ps| && forall q :: 0 <= q < |ps| ==> ps[q].0 < n
    ensures Record(ps, n, inf, r') == Record(ps, n, inf, r)[ps[r].0 := ps[r].1]
  {
  }

  /** `Break` finds the first round from `r` on that selects the sentinel
      cost. */
  lemma {:induction false} BreakAt(ps: seq<(nat, nat)>, inf: nat, r: nat, b: nat)
    requires r <= b <= |ps| && (b < |ps| ==> ps[b].1 == inf)
    requires forall q :: r <= q < b ==> ps[q].1 != inf
    ensures Break(ps, inf, r) == b
    decreases b - r
  {
    if r < b {
      BreakAt(ps, inf, r + 1, b);
    }
  }

  /** One more round that selects a real cost appends its entry. */
  lemma {:induction false} ReportStep(m: Matrix, src: nat, r: nat, r': nat, out: seq<(nat, seq<nat>)>, e: (nat, seq<nat>))
    requires Runnable(m, src) && r' == r + 1 && Pick(m, src, r).1 != m.inf && e == Entry(m, src, r)
    requires forall q :: 0 <= q < r ==> Pick(m, src, q).1 != m.inf
    requires |out| == r && forall q :: 0 <= q < r ==> out[q] == Entry(m, src, q)
    ensures forall q :: 0 <= q < r' ==> Pick(m, src, q).1 != m.inf
    ensures |out + [e]| == r' && forall q :: 0 <= q < r' ==> (out + [e])[q] == Entry(m, src, q)
  {
    forall q | 0 <= q < r'
      ensures Pick(m, src, q).1 != m.inf && (out + [e])[q] == Entry(m, src, q)
    {
      if q < r {
        assert (out + [e])[q] == out[q];
      } else {
        assert q == r;
      }
    }
  }

  /** The all-targets report is the entries of the rounds before the first
      sentinel selection. */
  lemma {:induction false} ReportUpTo(m: Matrix, src: nat, b: nat, out: seq<(nat, seq<nat>)>)
    requires Runnable(m, src) && b <= m.N() - 1 && (b < m.N() - 1 ==> Pick(m, src, b).1 == m.inf)
    requires forall q :: 0 <= q < b ==> Pick(m, src, q).1 != m.inf
    requires |out| == b && forall q :: 0 <= q < b ==> out[q] == Entry(m, src, q)
    ensures out == Report(m, src)
    ensures RoundsReported(m, src) == if b < m.N() - 1 then b + 1 else b
  {
    BreakAt(Picks(m, src), m.inf, 0, b);
  }
}
