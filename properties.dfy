/** What the rounds of the engine guarantee: a round that selects a real
    cost never selects a vertex an earlier round selected, while every
    selection is real the selected costs come out in non-decreasing order,
    and (when the source has no self-loop) the path rebuilt for a real
    selected cost, after real selections only, is a walk of real edges
    whose weight is that cost. */
module ShortestPathProperties {
  import opened AdjacencyMatrix
  import opened ShortestPath

  // ---------------------------------------------------------------------
  // Settled vertices

  /** A visited vertex whose distance is cleared stays so in the next
      round. */
  lemma {:induction false} StepKeepsSettled(m: Matrix, src: nat, p: nat, r: nat, v: nat)
    requires Runnable(m, src) && r == p + 1 && v < m.N()
    requires Run(m, src, p).visited[v] && Run(m, src, p).distance[v] == m.inf
    ensures Run(m, src, r).visited[v] && Run(m, src, r).distance[v] == m.inf
  {
    StepShape(m, src, p, r);
  }

  /** The vertex a round selects is visited, with a cleared distance, in
      the state that round leaves. */
  lemma {:induction false} SelectedSettled(m: Matrix, src: nat, p: nat, r: nat)
    requires Runnable(m, src) && r == p + 1
    ensures Run(m, src, r).visited[Pick(m, src, p).0]
    ensures Run(m, src, r).distance[Pick(m, src, p).0] == m.inf
  {
    StepShape(m, src, p, r);
    var s, cur := Run(m, src, p), Pick(m, src, p);
    assert !Improves(m, cur, s.visited[cur.0 := true], s.distance[cur.0 := m.inf], cur.0);
  }

  /** The vertex a round selects is visited, with a cleared distance, in
      every later state. */
  lemma {:induction false} SelectedStaysSettled(m: Matrix, src: nat, q: nat, r: nat)
    requires Runnable(m, src) && q < r
    ensures Run(m, src, r).visited[Pick(m, src, q).0]
    ensures Run(m, src, r).distance[Pick(m, src, q).0] == m.inf
    decreases r - q
  {
    var p := r - 1;
    if p == q {
      SelectedSettled(m, src, p, r);
    } else {
      SelectedStaysSettled(m, src, q, p);
      StepKeepsSettled(m, src, p, r, Pick(m, src, q).0);
    }
  }

  /** No vertex is selected twice with a real cost: a later round that
      selects a real cost selects a different vertex. */
  lemma {:induction false} PickedOnce(m: Matrix, src: nat, q: nat, r: nat)
    requires Runnable(m, src) && q < r && Pick(m, src, r).1 != m.inf
    ensures Pick(m, src, r).0 != Pick(m, src, q).0
  {
    SelectedStaysSettled(m, src, q, r);
  }

  // ---------------------------------------------------------------------
  // Order of selection

  /** After a round that selects a real cost, every real distance left is
      at least that cost. */
  lemma {:induction false} FiniteAbovePick(m: Matrix, src: nat, p: nat, r: nat)
    requires Runnable(m, src) && r == p + 1 && Pick(m, src, p).1 != m.inf
    ensures forall v :: 0 <= v < m.N() && Run(m, src, r).distance[v] != m.inf ==>
              Pick(m, src, p).1 <= Run(m, src, r).distance[v]
  {
    StepShape(m, src, p, r);
    var s, cur := Run(m, src, p), Pick(m, src, p);
    var visited, distance := s.visited[cur.0 := true], s.distance[cur.0 := m.inf];
    forall v | 0 <= v < m.N() && Run(m, src, r).distance[v] != m.inf
      ensures cur.1 <= Run(m, src, r).distance[v]
    {
      if !Improves(m, cur, visited, distance, v) {
        assert distance[v] == s.distance[v];
      }
    }
  }

  /** Consecutive real selected costs do not decrease. */
  lemma {:induction false} PickStepOrdered(m: Matrix, src: nat, p: nat, r: nat)
    requires Runnable(m, src) && r == p + 1 && Pick(m, src, p).1 != m.inf && Pick(m, src, r).1 != m.inf
    ensures Pick(m, src, p).1 <= Pick(m, src, r).1
  {
    FiniteAbovePick(m, src, p, r);
  }

  /** Round `p + 1` selects a real cost. */
  predicate RealPick(m: Matrix, src: nat, p: nat)
    requires Runnable(m, src)
  {
    Pick(m, src, p).1 != m.inf
  }

  /** While every selected cost is real, the costs come out sorted. */
  lemma {:induction false} PicksSorted(m: Matrix, src: nat, q: nat, r: nat)
    requires Runnable(m, src) && q <= r
    requires forall p :: q <= p <= r ==> RealPick(m, src, p)
    ensures Pick(m, src, q).1 <= Pick(m, src, r).1
    decreases r - q
  {
    if q < r {
      var p := r - 1;
      assert RealPick(m, src, p) && RealPick(m, src, r);
      PicksSorted(m, src, q, p);
      PickStepOrdered(m, src, p, r);
    }
  }

  // ---------------------------------------------------------------------
  // Path soundness

  /** The source has no self-loop: its own distance starts at the
      sentinel, so it is never selected with a real cost. */
  predicate NoSelfLoop(m: Matrix, src: nat)
    requires Runnable(m, src)
  {
    m.W(src, src) == m.inf
  }

  /** The cost at which each vertex was settled in the first `r` rounds (0
      for the source and for vertices not settled yet). */
  ghost function Settled(m: Matrix, src: nat, r: nat): (c: seq<nat>)
    requires Runnable(m, src)
    ensures |c| == m.N()
  {
    if r == 0 then seq(m.N(), v => 0)
    else
      var p := Pick(m, src, r - 1);
      Settled(m, src, r - 1)[p.0 := p.1]
  }

  /** What the rounds keep at one vertex while they select real costs: a
      visited vertex holds the sentinel, a vertex reached but not visited
      holds its predecessor's settled cost plus the edge from it, and a
      visited vertex other than the source was settled at its
      predecessor's settled cost plus that edge. */
  ghost predicate SoundAt(m: Matrix, src: nat, r: nat, v: nat)
    requires Runnable(m, src) && Inv(m, src, r) && v < m.N()
  {
    var s, c := Run(m, src, r), Settled(m, src, r);
    (s.visited[v] ==> s.distance[v] == m.inf) &&
    (!s.visited[v] && s.distance[v] != m.inf ==>
       m.W(s.path[v], v) != m.inf && s.distance[v] == c[s.path[v]] + m.W(s.path[v], v)) &&
    (s.visited[v] && v != src ==>
       m.W(s.path[v], v) != m.inf && c[v] == c[s.path[v]] + m.W(s.path[v], v))
  }

  ghost predicate Sound(m: Matrix, src: nat, r: nat)
    requires Runnable(m, src)
  {
    Inv(m, src, r) && Settled(m, src, r)[src] == 0 &&
    forall v :: 0 <= v < m.N() ==> SoundAt(m, src, r, v)
  }

  /** The settled costs after round `r` in terms of those after round
      `p`, the round before it. */
  lemma {:induction false} SettledStep(m: Matrix, src: nat, p: nat, r: nat)
    requires Runnable(m, src) && r == p + 1
    ensures Settled(m, src, r) == Settled(m, src, p)[Pick(m, src, p).0 := Pick(m, src, p).1]
  {
  }

  lemma {:induction false} SoundInit(m: Matrix, src: nat)
    requires Runnable(m, src) && NoSelfLoop(m, src)
    ensures Sound(m, src, 0)
  {
    RunInv(m, src, 0);
    forall v | 0 <= v < m.N()
      ensures SoundAt(m, src, 0, v)
    {
    }
  }

  lemma {:induction false} SoundStep(m: Matrix, src: nat, p: nat, r: nat)
    requires Runnable(m, src) && NoSelfLoop(m, src) && r == p + 1 && Sound(m, src, p)
    requires Pick(m, src, p).1 != m.inf
    ensures Sound(m, src, r)
  {
    StepInv(m, src, p, r);
    StepShape(m, src, p, r);
    SettledStep(m, src, p, r);
    var n := m.N();
    var s, c := Run(m, src, p), Settled(m, src, p);
    var s', c' := Run(m, src, r), Settled(m, src, r);
    var cur := Pick(m, src, p);
    var k := cur.0;
    var visited, distance := s.visited[k := true], s.distance[k := m.inf];
    assert SoundAt(m, src, p, k);
    assert !s.visited[k];
    forall v | 0 <= v < n
      ensures SoundAt(m, src, r, v)
    {
      assert SoundAt(m, src, p, v);
      if !Improves(m, cur, visited, distance, v) {
        assert s'.path[v] == s.path[v] && s.visited[s.path[v]];
      }
    }
  }

  lemma {:induction false} SoundRun(m: Matrix, src: nat, r: nat)
    requires Runnable(m, src) && NoSelfLoop(m, src)
    requires forall q :: 0 <= q < r ==> RealPick(m, src, q)
    ensures Sound(m, src, r)
    decreases r
  {
    if r == 0 {
      SoundInit(m, src);
    } else {
      var p := r - 1;
      assert RealPick(m, src, p);
      SoundRun(m, src, p);
      SoundStep(m, src, p, r);
    }
  }

  /** Putting a vertex in front of a walk along a real edge into the
      walk's first vertex gives a walk one edge longer. */
  lemma {:induction false} WalkCons(m: Matrix, v: nat, rest: seq<nat>, src: nat)
    requires m.Square() && v < m.N() && |rest| >= 1 && IsWalk(m, rest, src, rest[0])
    requires m.W(rest[0], v) != m.inf
    ensures IsWalk(m, [v] + rest, src, v)
    ensures Weight(m, [v] + rest) == m.W(rest[0], v) + Weight(m, rest)
  {
    var p := [v] + rest;
    assert p[1..] == rest;
    forall k | 0 <= k < |p| - 1
      ensures EdgeAt(m, p, k)
    {
      if k > 0 {
        assert EdgeAt(m, rest, k - 1);
        assert p[k + 1] == rest[k] && p[k] == rest[k - 1];
      }
    }
  }

  /** Along the predecessors, every visited vertex other than the source
      is reached from its visited predecessor by a real edge, at its
      predecessor's cost plus that edge. */
  predicate ChainSound(m: Matrix, src: nat, path: seq<nat>, visited: seq<bool>, c: seq<nat>)
    requires m.Square()
  {
    |path| == |visited| == |c| == m.N() && src < m.N() && c[src] == 0 &&
    forall u :: 0 <= u < m.N() && visited[u] && u != src ==>
      path[u] < m.N() && visited[path[u]] && m.W(path[u], u) != m.inf && c[u] == c[path[u]] + m.W(path[u], u)
  }

  /** The predecessor chain of a visited vertex in a sound chain is a walk
      of real edges from the source whose weight is the vertex's cost. */
  lemma {:induction false} ChainWalk(m: Matrix, src: nat, path: seq<nat>, rank: seq<nat>, visited: seq<bool>, c: seq<nat>, v: nat)
    requires m.Square() && ChainSound(m, src, path, visited, c) && Ranked(path, src, rank)
    requires v < m.N() && visited[v]
    ensures var p := Rebuild(path, src, v, rank); IsWalk(m, p, src, v) && Weight(m, p) == c[v]
    decreases rank[v]
  {
    if v != src {
      var u := path[v];
      ChainWalk(m, src, path, rank, visited, c, u);
      RebuildStep(path, src, v, rank);
      WalkCons(m, v, Rebuild(path, src, u, rank), src);
    }
  }

  /** In a sound state, the predecessor chain of a visited vertex is a walk
      of real edges from the source whose weight is the vertex's settled
      cost. */
  lemma {:induction false} VisitedWalk(m: Matrix, src: nat, r: nat, v: nat)
    requires Runnable(m, src) && Sound(m, src, r) && v < m.N() && Run(m, src, r).visited[v]
    ensures var p := Rebuild(Run(m, src, r).path, src, v, Ranks(m, src, r));
            IsWalk(m, p, src, v) && Weight(m, p) == Settled(m, src, r)[v]
  {
    var s, rk, c := Run(m, src, r), Ranks(m, src, r), Settled(m, src, r);
    forall u | 0 <= u < m.N() && s.visited[u] && u != src
      ensures s.path[u] < m.N() && s.visited[s.path[u]] && m.W(s.path[u], u) != m.inf && c[u] == c[s.path[u]] + m.W(s.path[u], u)
    {
      assert SoundAt(m, src, r, u);
    }
    ChainWalk(m, src, s.path, rk, s.visited, c, v);
  }

  /** The entry round `r` pushes, with `r` the round after `q`. */
  lemma {:induction false} EntryAt(m: Matrix, src: nat, q: nat, r: nat)
    requires Runnable(m, src) && r == q + 1
    ensures Inv(m, src, r) &&
            Entry(m, src, q) == (Pick(m, src, q).1, Rebuild(Run(m, src, r).path, src, Pick(m, src, q).0, Ranks(m, src, r)))
  {
    RunInv(m, src, r);
    RoundAfter(m, src, q, r);
  }

  /** Names the state after round `q + 1` by the variable `r`, so that the
      callers reason about `Run` and `Ranks` at a plain argument; it has no
      content of its own and keeps the solver's work small. */
  lemma {:induction false} RoundAfter(m: Matrix, src: nat, q: nat, r: nat)
    requires Runnable(m, src) && r == q + 1
    ensures Run(m, src, r) == Run(m, src, q + 1) && Ranks(m, src, r) == Ranks(m, src, q + 1)
  {
  }

  /** The entry pushed for a round that selects a real cost, when every
      round before it selected a real cost too, is a walk from the source
      to the selected vertex whose weight is the selected cost. */
  lemma {:induction false} SettledWalk(m: Matrix, src: nat, q: nat)
    requires Runnable(m, src) && NoSelfLoop(m, src)
    requires forall p :: 0 <= p <= q ==> RealPick(m, src, p)
    ensures IsWalk(m, Entry(m, src, q).1, src, Pick(m, src, q).0)
    ensures Weight(m, Entry(m, src, q).1) == Entry(m, src, q).0
  {
    var r := q + 1;
    EntryAt(m, src, q, r);
    SoundRun(m, src, r);
    SelectedSettled(m, src, q, r);
    SettledStep(m, src, q, r);
    VisitedWalk(m, src, r, Pick(m, src, q).0);
  }
}
