/** The shortest-path engine as a state machine over values. A query starts
    from `Init`, and each of its rounds does what one iteration of the
    source's loops does: select a vertex as
    `visits` does, mark it visited and clear its distance, then relax every
    edge leaving it. `Run(m, src, r)` is the scratch state after `r` rounds
    and `Pick(m, src, r)` is the (vertex, cost) pair that round `r + 1`
    selects. The four query entry points are functions of these. */
module ShortestPath {
  import opened AdjacencyMatrix

  /** The first `n` cells of the three scratch arrays of a query. */
  datatype Scratch = Scratch(visited: seq<bool>, distance: seq<nat>, path: seq<nat>)

  predicate Sized(s: Scratch, n: nat) {
    |s.visited| == n && |s.distance| == n && |s.path| == n
  }

  /** A matrix a query can run on. */
  predicate Runnable(m: Matrix, src: nat) {
    m.Square() && src < m.N()
  }

  // ---------------------------------------------------------------------
  // Initialisation

  /** Only the source is visited, the distances are the source's row, and
      every predecessor is the source. */
  function Init(m: Matrix, src: nat): (s: Scratch)
    requires Runnable(m, src)
    ensures Sized(s, m.N())
  {
    Scratch(seq(m.N(), v => v == src), m.rows[src], seq(m.N(), v => src))
  }

  // ---------------------------------------------------------------------
  // Selection

  /** The pair `visits` holds after scanning `d[..j]`. It starts at
      `(0, d[0])` and moves to `(i, d[i])` when the pair it holds has the
      sentinel cost, or when `d[i]` is a real cost below it. */
  function Scan(d: seq<nat>, inf: nat, j: nat): (r: (nat, nat))
    requires 1 <= j <= |d|
    ensures r.0 < j && r.1 == d[r.0]
  {
    if j == 1 then (0, d[0])
    else
      var min := Scan(d, inf, j - 1);
      if min.1 == inf || (d[j - 1] != inf && d[j - 1] < min.1) then (j - 1, d[j - 1]) else min
  }

  /** After `j` cells the scan holds the sentinel only when all of them
      hold it (and then it sits on the last one); otherwise it holds the
      least real cost, and every earlier cell is the sentinel or dearer. */
  lemma {:induction false} ScanBest(d: seq<nat>, inf: nat, j: nat)
    requires 1 <= j <= |d|
    ensures var r := Scan(d, inf, j);
            (r.1 == inf ==> r.0 == j - 1 && forall i :: 0 <= i < j ==> d[i] == inf) &&
            (r.1 != inf ==>
               (forall i :: 0 <= i < j && d[i] != inf ==> r.1 <= d[i]) &&
               (forall i :: 0 <= i < r.0 ==> d[i] == inf || r.1 < d[i]))
    decreases j
  {
    if j > 1 {
      var p := j - 1;
      ScanBest(d, inf, p);
    }
  }

  /** The pair `visits` selects: the lowest vertex holding the least real
      cost, or the last vertex (with the sentinel) when no cost is real. */
  function Select(d: seq<nat>, inf: nat): (r: (nat, nat))
    requires |d| >= 1
    ensures r.0 < |d| && r.1 == d[r.0]
    ensures r.1 == inf ==> r.0 == |d| - 1 && forall i :: 0 <= i < |d| ==> d[i] == inf
    ensures r.1 != inf ==>
              (forall i :: 0 <= i < |d| && d[i] != inf ==> r.1 <= d[i]) &&
              (forall i :: 0 <= i < r.0 ==> d[i] == inf || r.1 < d[i])
  {
    ScanBest(d, inf, |d|);
    Scan(d, inf, |d|)
  }

  // ---------------------------------------------------------------------
  // Relaxation

  /** Relaxing the edge from the selected vertex `cur.0` (reached at cost
      `cur.1`) lowers the distance of `i`: `i` is not visited, the edge is
      real, and `i` is either unreached or reached at a higher cost. */
  predicate Improves(m: Matrix, cur: (nat, nat), visited: seq<bool>, d: seq<nat>, i: nat)
    requires m.Square() && cur.0 < m.N() && |visited| == |d| == m.N() && i < m.N()
  {
    !visited[i] && m.W(cur.0, i) != m.inf && (d[i] == m.inf || d[i] > cur.1 + m.W(cur.0, i))
  }

  /** The distances after relaxing every edge leaving `cur.0`. */
  function Relax(m: Matrix, cur: (nat, nat), visited: seq<bool>, d: seq<nat>): (r: seq<nat>)
    requires m.Square() && cur.0 < m.N() && |visited| == |d| == m.N()
    ensures |r| == |d|
  {
    seq(|d|, i requires 0 <= i < |d| =>
      if Improves(m, cur, visited, d, i) then cur.1 + m.W(cur.0, i) else d[i])
  }

  /** The predecessors after the same relaxation: every vertex whose
      distance `Relax` lowers now points at `cur.0`. */
  function Repoint(m: Matrix, cur: (nat, nat), visited: seq<bool>, d: seq<nat>, path: seq<nat>): (r: seq<nat>)
    requires m.Square() && cur.0 < m.N() && |visited| == |d| == |path| == m.N()
    ensures |r| == |path|
  {
    seq(|path|, i requires 0 <= i < |path| =>
      if Improves(m, cur, visited, d, i) then cur.0 else path[i])
  }

  // ---------------------------------------------------------------------
  // Rounds

  /** The second half of a round, once `cur` is selected: mark it visited,
      clear its distance, then relax every edge leaving it. */
  function Settle(m: Matrix, s: Scratch, cur: (nat, nat)): (r: Scratch)
    requires m.Square() && Sized(s, m.N()) && cur.0 < m.N()
    ensures Sized(r, m.N())
  {
    var visited := s.visited[cur.0 := true];
    var distance := s.distance[cur.0 := m.inf];
    Scratch(visited, Relax(m, cur, visited, distance), Repoint(m, cur, visited, distance, s.path))
  }

  /** The scratch state after `r` rounds. */
  function Run(m: Matrix, src: nat, r: nat): (s: Scratch)
    requires Runnable(m, src)
    ensures Sized(s, m.N())
    decreases r, 0
  {
    if r == 0 then Init(m, src) else Settle(m, Run(m, src, r - 1), Pick(m, src, r - 1))
  }

  /** The pair selected by round `r + 1`. */
  function Pick(m: Matrix, src: nat, r: nat): (p: (nat, nat))
    requires Runnable(m, src)
    ensures p.0 < m.N()
    decreases r, 1
  {
    Select(Run(m, src, r).distance, m.inf)
  }

  // ---------------------------------------------------------------------
  // Predecessor chains

  /** The rank of each vertex after `r` rounds: the round that first visited
      it (0 for the source), or `r + 1` for a vertex not visited yet. */
  function Ranks(m: Matrix, src: nat, r: nat): (rk: seq<nat>)
    requires Runnable(m, src)
    ensures |rk| == m.N()
  {
    if r == 0 then seq(m.N(), v => if v == src then 0 else 1)
    else
      var prev, s := Ranks(m, src, r - 1), Run(m, src, r);
      seq(m.N(), v requires 0 <= v < m.N() => if s.visited[v] then prev[v] else r + 1)
  }

  /** Every predecessor chain descends in rank until it reaches `src`, so
      following it from any vertex ends at `src`. */
  predicate Ranked(path: seq<nat>, src: nat, rank: seq<nat>) {
    |rank| == |path| && src < |path| &&
    forall v :: 0 <= v < |path| && v != src ==> path[v] < |path| && rank[path[v]] < rank[v]
  }

  /** Entry `k` of `p` is not the source and entry `k + 1` is its
      predecessor. */
  predicate Link(path: seq<nat>, src: nat, p: seq<nat>, k: nat)
    requires k + 1 < |p| && p[k] < |path|
  {
    p[k] != src && p[k + 1] == path[p[k]]
  }

  /** The vertices met walking predecessors from `v` back to `src`, both
      included. */
  function Rebuild(path: seq<nat>, src: nat, v: nat, rank: seq<nat>): (p: seq<nat>)
    requires Ranked(path, src, rank) && v < |path|
    ensures |p| >= 1 && p[0] == v && p[|p| - 1] == src
    decreases rank[v]
  {
    if v == src then [v] else [v] + Rebuild(path, src, path[v], rank)
  }

  /** Every vertex of the walk is a vertex, and each one but the last is
      followed by its predecessor. */
  lemma {:induction false} RebuildLinks(path: seq<nat>, src: nat, v: nat, rank: seq<nat>)
    requires Ranked(path, src, rank) && v < |path|
    ensures forall k :: 0 <= k < |Rebuild(path, src, v, rank)| ==> Rebuild(path, src, v, rank)[k] < |path|
    ensures forall k :: 0 <= k < |Rebuild(path, src, v, rank)| - 1 ==> Link(path, src, Rebuild(path, src, v, rank), k)
    decreases rank[v]
  {
    if v != src {
      var u := path[v];
      RebuildLinks(path, src, u, rank);
      var rest := Rebuild(path, src, u, rank);
      var p := [v] + rest;
      assert Rebuild(path, src, v, rank) == p;
      forall k | 0 <= k < |p|
        ensures p[k] < |path|
      {
        if k > 0 {
          assert p[k] == rest[k - 1];
        }
      }
      forall k | 0 <= k < |p| - 1
        ensures Link(path, src, p, k)
      {
        if k > 0 {
          assert Link(path, src, rest, k - 1);
          assert p[k] == rest[k - 1] && p[k + 1] == rest[k];
        }
      }
    }
  }

  /** One step of a predecessor chain: it moves to a lower rank and puts
      `v` in front of the rest of the chain. */
  lemma {:induction false} RebuildStep(path: seq<nat>, src: nat, v: nat, rank: seq<nat>)
    requires Ranked(path, src, rank) && v < |path| && v != src
    ensures path[v] < |path| && rank[path[v]] < rank[v]
    ensures Rebuild(path, src, v, rank) == [v] + Rebuild(path, src, path[v], rank)
  {
  }

  /** One step of the walk `rebuild_path` takes: when `pre` followed by the
      walk from `v` is the walk from `dst`, so is `pre + [v]` followed by
      the walk from `v`'s predecessor. */
  lemma {:induction false} RebuildAdvance(path: seq<nat>, src: nat, dst: nat, rank: seq<nat>,
                                          pre: seq<nat>, v: nat, next: nat)
    requires Ranked(path, src, rank) && dst < |path| && v < |path| && v != src && next == path[v]
    requires pre + Rebuild(path, src, v, rank) == Rebuild(path, src, dst, rank)
    ensures next < |path| && rank[next] < rank[v]
    ensures (pre + [v]) + Rebuild(path, src, next, rank) == Rebuild(path, src, dst, rank)
  {
    RebuildStep(path, src, v, rank);
    var rest := Rebuild(path, src, next, rank);
    assert (pre + [v]) + rest == pre + ([v] + rest);
  }

  /** `p` lists a walk backwards: it starts at `dst`, ends at `src`, and
      each of its vertices is reached from the next one by a real edge. */
  predicate IsWalk(m: Matrix, p: seq<nat>, src: nat, dst: nat)
    requires m.Square()
  {
    |p| >= 1 && p[0] == dst && p[|p| - 1] == src &&
    (forall k :: 0 <= k < |p| ==> p[k] < m.N()) &&
    forall k :: 0 <= k < |p| - 1 ==> EdgeAt(m, p, k)
  }

  /** Entry `k` of `p` is reached from entry `k + 1` by a real edge. */
  predicate EdgeAt(m: Matrix, p: seq<nat>, k: nat)
    requires m.Square() && k + 1 < |p| && p[k] < m.N() && p[k + 1] < m.N()
  {
    m.W(p[k + 1], p[k]) != m.inf
  }

  /** The total weight of the edges of a walk listed backwards. */
  function Weight(m: Matrix, p: seq<nat>): nat
    requires m.Square() && forall k :: 0 <= k < |p| ==> p[k] < m.N()
  {
    if |p| <= 1 then 0 else m.W(p[1], p[0]) + Weight(m, p[1..])
  }

  /** What every round keeps: the source stays visited, every predecessor is
      a visited vertex, and ranks descend along predecessors. */
  ghost predicate Inv(m: Matrix, src: nat, r: nat)
    requires Runnable(m, src)
  {
    var s, rk := Run(m, src, r), Ranks(m, src, r);
    s.visited[src] &&
    (forall v :: 0 <= v < m.N() ==> s.path[v] < m.N() && s.visited[s.path[v]]) &&
    (forall v :: 0 <= v < m.N() ==> if s.visited[v] then rk[v] <= r else rk[v] == r + 1) &&
    Ranked(s.path, src, rk)
  }

  lemma {:induction false} RunInv(m: Matrix, src: nat, r: nat)
    requires Runnable(m, src)
    ensures Inv(m, src, r)
    decreases r
  {
    if r > 0 {
      var p := r - 1;
      RunInv(m, src, p);
      StepInv(m, src, p, r);
    }
  }

  /** Round `r` spelled out in terms of the state after round `p`, the
      round before it. */
  lemma {:induction false} StepShape(m: Matrix, src: nat, p: nat, r: nat)
    requires Runnable(m, src) && r == p + 1
    ensures var s, cur := Run(m, src, p), Pick(m, src, p);
            var visited, distance := s.visited[cur.0 := true], s.distance[cur.0 := m.inf];
            cur == Select(s.distance, m.inf) &&
            Run(m, src, r) == Scratch(visited, Relax(m, cur, visited, distance),
                                      Repoint(m, cur, visited, distance, s.path))
  {
  }

  /** The ranks after round `r` in terms of the ranks after round `p`, the
      round before it. */
  lemma {:induction false} RanksStep(m: Matrix, src: nat, p: nat, r: nat)
    requires Runnable(m, src) && r == p + 1
    ensures forall v :: 0 <= v < m.N() ==>
              Ranks(m, src, r)[v] == if Run(m, src, r).visited[v] then Ranks(m, src, p)[v] else r + 1
  {
  }

  lemma {:induction false} StepInv(m: Matrix, src: nat, p: nat, r: nat)
    requires Runnable(m, src) && r == p + 1 && Inv(m, src, p)
    ensures Inv(m, src, r)
  {
    StepShape(m, src, p, r);
    RanksStep(m, src, p, r);
    var n := m.N();
    var s, rk := Run(m, src, p), Ranks(m, src, p);
    var s', rk' := Run(m, src, r), Ranks(m, src, r);
    var cur := Pick(m, src, p);
    var k := cur.0;
    var visited := s.visited[k := true];
    var distance := s.distance[k := m.inf];
    forall v | 0 <= v < n
      ensures s'.path[v] < n && s'.visited[s'.path[v]]
      ensures if s'.visited[v] then rk'[v] <= r else rk'[v] == r + 1
      ensures v != src ==> rk'[s'.path[v]] < rk'[v]
    {
      var u := s.path[v];
      if Improves(m, cur, visited, distance, v) {
        assert s'.path[v] == k;
      } else {
        assert s'.path[v] == u;
        assert rk'[u] == rk[u] < r;
        if v != src {
          assert rk[u] < rk[v];
        }
      }
    }
  }

  // ---------------------------------------------------------------------
  // The four entry points

  /** The pairs selected by the `n - 1` rounds every entry point is
      bounded by. */
  function Picks(m: Matrix, src: nat): (ps: seq<(nat, nat)>)
    requires Runnable(m, src)
    ensures |ps| == m.N() - 1
    ensures forall q :: 0 <= q < |ps| ==> ps[q] == Pick(m, src, q)
  {
    seq(m.N() - 1, (q: int) requires 0 <= q => Pick(m, src, q))
  }

  /** The first round from `r` on whose selected vertex is `v`; `|ps|` when
      there is none. */
  function Hit(ps: seq<(nat, nat)>, v: nat, r: nat): (h: nat)
    requires r <= |ps|
    ensures r <= h <= |ps|
    ensures h < |ps| ==> ps[h].0 == v
    ensures forall q :: r <= q < h ==> ps[q].0 != v
    decreases |ps| - r
  {
    if r == |ps| || ps[r].0 == v then r else Hit(ps, v, r + 1)
  }

  /** The first round from `r` on whose selected cost is the sentinel;
      `|ps|` when there is none. */
  function Break(ps: seq<(nat, nat)>, inf: nat, r: nat): (b: nat)
    requires r <= |ps|
    ensures r <= b <= |ps|
    ensures b < |ps| ==> ps[b].1 == inf
    ensures forall q :: r <= q < b ==> ps[q].1 != inf
    decreases |ps| - r
  {
    if r == |ps| || ps[r].1 == inf then r else Break(ps, inf, r + 1)
  }

  /** A vector of `n` sentinels into which each of the first `r` rounds
      writes its selected cost at its selected vertex: each vertex holds the
      cost of the last round that selected it, or the sentinel. */
  function Record(ps: seq<(nat, nat)>, n: nat, inf: nat, r: nat): (out: seq<nat>)
    requires r <= |ps| && forall q :: 0 <= q < |ps| ==> ps[q].0 < n
    ensures |out| == n
  {
    if r == 0 then seq(n, v => inf)
    else Record(ps, n, inf, r - 1)[ps[r - 1].0 := ps[r - 1].1]
  }

  /** What `Record` holds at each vertex. */
  lemma {:induction false} RecordAt(ps: seq<(nat, nat)>, n: nat, inf: nat, r: nat)
    requires r <= |ps| && forall q :: 0 <= q < |ps| ==> ps[q].0 < n
    ensures forall v :: 0 <= v < n && (forall q :: 0 <= q < r ==> ps[q].0 != v) ==> Record(ps, n, inf, r)[v] == inf
    ensures forall v, q :: (0 <= v < n && 0 <= q < r && ps[q].0 == v &&
              (forall q' :: q < q' < r ==> ps[q'].0 != v)) ==> Record(ps, n, inf, r)[v] == ps[q].1
    decreases r
  {
    if r > 0 {
      var p := r - 1;
      RecordAt(ps, n, inf, p);
    }
  }

  /** How many rounds the single-target loop runs before it returns. */
  function RoundsTo(m: Matrix, src: nat, dst: nat): nat
    requires Runnable(m, src)
  {
    var ps := Picks(m, src);
    var h := Hit(ps, dst, 0);
    if h < |ps| then h + 1 else |ps|
  }

  /** The cost `dijkstra` and `dijkstra_with_path` return: the cost selected
      by the first round that selects `dst`, and the sentinel when none of
      the `n - 1` rounds does. */
  function Cost(m: Matrix, src: nat, dst: nat): (c: nat)
    requires Runnable(m, src)
    ensures c == m.inf || exists q :: 0 <= q < m.N() - 1 && Pick(m, src, q) == (dst, c)
    ensures dst >= m.N() ==> c == m.inf
  {
    var ps := Picks(m, src);
    var h := Hit(ps, dst, 0);
    if h < |ps| then assert Pick(m, src, h) == (dst, ps[h].1); ps[h].1 else m.inf
  }

  /** The path `dijkstra_with_path` returns: the predecessor chain from
      `dst` in the predecessors the loop leaves when it returns. */
  function CostPath(m: Matrix, src: nat, dst: nat): (p: seq<nat>)
    requires Runnable(m, src) && dst < m.N()
    ensures |p| >= 1 && p[0] == dst && p[|p| - 1] == src
  {
    var r := RoundsTo(m, src, dst);
    RunInv(m, src, r);
    Rebuild(Run(m, src, r).path, src, dst, Ranks(m, src, r))
  }

  /** The vector `dijkstra_from_src` returns. */
  function FromSrcCosts(m: Matrix, src: nat): (out: seq<nat>)
    requires Runnable(m, src)
    ensures |out| == m.N()
  {
    Record(Picks(m, src), m.N(), m.inf, m.N() - 1)
  }

  /** The picks `FromSrcCosts` records, and the round count at which the
      record is the returned vector. It only unfolds the definition, with
      the round count as the variable `r`, to keep the solver's work in
      `DijkstraFromSrc` small. */
  lemma {:induction false} FromSrcCostsAt(m: Matrix, src: nat, ps: seq<(nat, nat)>, r: nat)
    requires Runnable(m, src) && ps == Picks(m, src) && r == m.N() - 1
    ensures |ps| == r && forall q :: 0 <= q < |ps| ==> ps[q].0 < m.N()
    ensures FromSrcCosts(m, src) == Record(ps, m.N(), m.inf, r)
  {
  }

  /** How many rounds the all-targets-with-path loop runs, and so the
      state it leaves: up to and
      including the first round that selects the sentinel cost. */
  function RoundsReported(m: Matrix, src: nat): nat
    requires Runnable(m, src)
  {
    var ps := Picks(m, src);
    var b := Break(ps, m.inf, 0);
    if b < |ps| then b + 1 else |ps|
  }

  /** The entry round `q + 1` pushes: the selected cost, and the path from
      the selected vertex back to the source in the predecessors after that
      round. */
  function Entry(m: Matrix, src: nat, q: nat): (e: (nat, seq<nat>))
    requires Runnable(m, src)
    ensures |e.1| >= 1 && e.1[0] == Pick(m, src, q).0 && e.1[|e.1| - 1] == src
  {
    var p, r := Pick(m, src, q), q + 1;
    RunInv(m, src, r);
    (p.1, Rebuild(Run(m, src, r).path, src, p.0, Ranks(m, src, r)))
  }

  /** The vector `dijkstra_from_src_with_path` returns: one entry per round
      before the first round that selects the sentinel cost. */
  function Report(m: Matrix, src: nat): (out: seq<(nat, seq<nat>)>)
    requires Runnable(m, src)
    ensures |out| <= m.N() - 1
  {
    seq(Break(Picks(m, src), m.inf, 0), (q: int) requires 0 <= q => Entry(m, src, q))
  }
}
