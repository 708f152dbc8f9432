/** The `Graph` the source defines: a weight buffer it borrows and updates
    in place, a vertex count and a sentinel, with the matrix accessors, the
    scratch-array routines and the four query entry points as methods. The
    scratch arrays belong to the caller; every routine here works on their
    first `n` cells, which is the slice every entry point hands on. Each
    method is proved to do what the round functions of `ShortestPath`
    describe. */
module Structure {
  import opened AdjacencyMatrix
  import opened ShortestPath
  import opened ShortestPathProperties
  import opened QueryProperties

  datatype Option<T> = None | Some(value: T)

  /** What `dijkstra_check` returns. */
  datatype Outcome = Ok | Err(msg: string)

  class Graph {
    /** The row-major weight buffer, the vertex count and the sentinel. */
    const data: array<nat>
    const n: nat
    const inf: nat

    /** `from_inner`: the buffer is taken as it is, without a check of its
        length. */
    constructor FromInner(data: array<nat>, n: nat, inf: nat)
      ensures this.data == data && this.n == n && this.inf == inf
    {
      this.data := data;
      this.n := n;
      this.inf := inf;
    }

    /** The buffer holds at least the `n * n` cells the matrix is read
        from. */
    ghost predicate Holds()
      reads this
    {
      Offset(n, n) <= data.Length
    }

    /** The matrix the buffer holds. */
    ghost function Model(): (m: Matrix)
      reads this, data
      requires Holds()
      ensures m.Square() && m.N() == n && m.inf == inf
    {
      FromBuffer(data[..], n, inf)
    }

    /** `neighbors(i)`: row `i` of the buffer. */
    function Neighbors(i: nat): (row: seq<nat>)
      reads this, data
      requires Holds() && i < n
      ensures row == Model().rows[i] && |row| == n
      ensures forall j :: 0 <= j < n ==> Offset(i, n) + j < data.Length && row[j] == data[Offset(i, n) + j]
    {
      CellInSquare(i, 0, n);
      data[Offset(i, n)..Offset(i + 1, n)]
    }

    /** `edge(i, j)`: cell `i * n + j` of the buffer. */
    function Edge(i: nat, j: nat): (w: nat)
      reads this, data
      requires Holds() && i < n && j < n
      ensures Offset(i, n) + j < data.Length && w == data[Offset(i, n) + j]
      ensures w == Model().W(i, j)
    {
      FromBufferW(data[..], n, inf, i, j);
      data[Offset(i, n) + j]
    }

    /** `set_edge(i, j, w)`: writes cell `i * n + j`, then cell
        `j * n + i`. */
    method SetEdge(i: nat, j: nat, w: nat)
      requires Holds() && i < n && j < n
      modifies data
      ensures Holds() && Model() == old(Model()).SetEdge(i, j, w)
      ensures data[Offset(n, n)..] == old(data[Offset(n, n)..])
    {
      CellBound(i, j, n);
      CellBound(j, i, n);
      ghost var cells := data[..];
      data[Offset(i, n) + j] := w;
      data[Offset(j, n) + i] := w;
      ghost var written: seq<nat> := cells[Offset(i, n) + j := w];
      assert data[..] == written[Offset(j, n) + i := w];
      FromBufferSetEdge(cells, n, inf, i, j, w);
    }

    // -------------------------------------------------------------------
    // Scratch routines

    /** Clears the first `n` visited flags; the `iter_mut` loop of both
        init routines. */
    method ClearVisited(visited: array<bool>)
      requires n <= visited.Length
      modifies visited
      ensures visited[..n] == seq(n, v => false)
      ensures visited[n..] == old(visited[n..])
    {
      for v := 0 to n
        invariant forall k :: 0 <= k < v ==> !visited[k]
        invariant forall k :: n <= k < visited.Length ==> visited[k] == old(visited[k])
      {
        visited[v] := false;
      }
    }

    /** Sets the first `n` predecessors to `src`. */
    method FillPath(src: nat, path: array<nat>)
      requires n <= path.Length
      modifies path
      ensures path[..n] == seq(n, v => src)
      ensures path[n..] == old(path[n..])
    {
      for v := 0 to n
        invariant forall k :: 0 <= k < v ==> path[k] == src
        invariant forall k :: n <= k < path.Length ==> path[k] == old(path[k])
      {
        path[v] := src;
      }
    }

    /** `copy_from_slice` of row `src` into the first `n` distances. */
    method CopyRow(src: nat, distance: array<nat>)
      requires Holds() && src < n && n <= distance.Length && distance != data
      modifies distance
      ensures distance[..n] == Model().rows[src]
      ensures distance[n..] == old(distance[n..])
    {
      var row := Neighbors(src);
      forall k | 0 <= k < n {
        distance[k] := row[k];
      }
      assert distance[..n] == row;
    }

    /** `dijkstra_init`: only `src` is visited, and the distances are row
        `src`. */
    method DijkstraInit(src: nat, visited: array<bool>, distance: array<nat>)
      requires Holds() && src < n && n <= visited.Length && n <= distance.Length && distance != data
      modifies visited, distance
      ensures visited[..n] == Init(Model(), src).visited
      ensures distance[..n] == Init(Model(), src).distance
      ensures visited[n..] == old(visited[n..])
      ensures distance[n..] == old(distance[n..])
    {
      ClearVisited(visited);
      CopyRow(src, distance);
      visited[src] := true;
      assert visited[..n] == Init(Model(), src).visited;
    }

    /** `dijkstra_with_path_init`: the same, and every predecessor is
        `src`. */
    method DijkstraWithPathInit(src: nat, path: array<nat>, visited: array<bool>, distance: array<nat>)
      requires Holds() && src < n && n <= path.Length && n <= visited.Length && n <= distance.Length
      requires distance != data && path != data && path != distance
      modifies path, visited, distance
      ensures Init(Model(), src) == Scratch(visited[..n], distance[..n], path[..n])
      ensures visited[n..] == old(visited[n..])
      ensures distance[n..] == old(distance[n..])
      ensures path[n..] == old(path[n..])
    {
      ClearVisited(visited);
      FillPath(src, path);
      CopyRow(src, distance);
      visited[src] := true;
      assert visited[..n] == Init(Model(), src).visited;
    }

    /** `visits`: selects as `Select` does over the first `n` distances,
        marks the selected vertex visited and clears its distance. It never
        reads `visited`. */
    method Visits(visited: array<bool>, distance: array<nat>) returns (cur: (nat, nat))
      requires 1 <= n <= visited.Length && n <= distance.Length
      modifies visited, distance
      ensures cur == Select(old(distance[..n]), inf)
      ensures visited[..n] == old(visited[..n])[cur.0 := true]
      ensures distance[..n] == old(distance[..n])[cur.0 := inf]
      ensures visited[n..] == old(visited[n..]) && distance[n..] == old(distance[n..])
    {
      ghost var d := distance[..n];
      var min := (0, distance[0]);
      for j := 1 to n
        modifies {}
        invariant min == Scan(d, inf, j)
      {
        var e := (j, distance[j]);
        if min.1 == inf || (e.1 != inf && e.1 < min.1) {
          min := e;
        }
      }
      visited[min.0] := true;
      distance[min.0] := inf;
      cur := min;
    }

    /** `update_distance`: relaxes every edge leaving `cur.0`. */
    method UpdateDistance(cur: (nat, nat), visited: array<bool>, distance: array<nat>)
      requires Holds() && cur.0 < n && n <= visited.Length && n <= distance.Length && distance != data
      modifies distance
      ensures distance[..n] == Relax(Model(), cur, visited[..n], old(distance[..n]))
      ensures distance[n..] == old(distance[n..])
    {
      ghost var m, vis, d := Model(), visited[..n], distance[..n];
      ghost var relaxed := Relax(m, cur, vis, d);
      for i := 0 to n
        invariant forall k :: 0 <= k < i ==> distance[k] == relaxed[k]
        invariant forall k :: i <= k < distance.Length ==> distance[k] == old(distance[k])
      {
        var edge := Edge(cur.0, i);
        assert visited[i] == vis[i] && distance[i] == d[i];
        if !visited[i] {
          var newDist := cur.1 + edge;
          if edge != inf && (distance[i] == inf || distance[i] > newDist) {
            distance[i] := newDist;
          }
        }
      }
      assert distance[..n] == relaxed;
    }

    /** `update_distance_with_path`: the same relaxation, and every vertex
        whose distance it lowers now points at `cur.0`. */
    method UpdateDistanceWithPath(cur: (nat, nat), path: array<nat>, visited: array<bool>, distance: array<nat>)
      requires Holds() && cur.0 < n && n <= path.Length && n <= visited.Length && n <= distance.Length
      requires distance != data && path != data && path != distance
      modifies path, distance
      ensures distance[..n] == Relax(Model(), cur, visited[..n], old(distance[..n]))
      ensures path[..n] == Repoint(Model(), cur, visited[..n], old(distance[..n]), old(path[..n]))
      ensures distance[n..] == old(distance[n..]) && path[n..] == old(path[n..])
    {
      ghost var m, vis, d, pth := Model(), visited[..n], distance[..n], path[..n];
      ghost var relaxed, repointed := Relax(m, cur, vis, d), Repoint(m, cur, vis, d, pth);
      for i := 0 to n
        invariant forall k :: 0 <= k < i ==> distance[k] == relaxed[k] && path[k] == repointed[k]
        invariant forall k :: i <= k < distance.Length ==> distance[k] == old(distance[k])
        invariant forall k :: i <= k < path.Length ==> path[k] == old(path[k])
      {
        var edge := Edge(cur.0, i);
        assert visited[i] == vis[i] && distance[i] == d[i] && path[i] == pth[i];
        if !visited[i] {
          var newDist := cur.1 + edge;
          if edge != inf && (distance[i] == inf || distance[i] > newDist) {
            distance[i] := newDist;
            path[i] := cur.0;
          }
        }
      }
      assert distance[..n] == relaxed;
      assert path[..n] == repointed;
    }

    /** `rebuild_path`: follows predecessors from `dst` until it reaches
        `src`. The ghost `rank` is what makes the walk end. */
    method RebuildPath(src: nat, dst: nat, path: array<nat>, ghost rank: seq<nat>) returns (p: seq<nat>)
      requires n <= path.Length && dst < n && Ranked(path[..n], src, rank)
      ensures p == Rebuild(path[..n], src, dst, rank)
    {
      ghost var pth := path[..n];
      ghost var pre: seq<nat> := [];
      var last: nat := dst;
      p := [last];
      while last != src
        invariant |pth| == |rank| == n && last < n && p == pre + [last]
        invariant pre + Rebuild(pth, src, last, rank) == Rebuild(pth, src, dst, rank)
        decreases rank[last]
      {
        var next := path[last];
        RebuildAdvance(pth, src, dst, rank, pre, last, next);
        pre := pre + [last];
        p := p + [next];
        last := next;
      }
    }

    // -------------------------------------------------------------------
    // Entry points

    /** One iteration of the loop of `dijkstra` and `dijkstra_from_src`:
        `visits`, then `update_distance`. After round `r` it leaves the
        state after round `r'`, and it selects what round `r'` selects. */
    method Round(src: nat, ghost r: nat, ghost r': nat, visited: array<bool>, distance: array<nat>)
      returns (cur: (nat, nat))
      requires Holds() && src < n && n <= visited.Length && n <= distance.Length && distance != data
      requires r' == r + 1
      requires visited[..n] == Run(Model(), src, r).visited && distance[..n] == Run(Model(), src, r).distance
      modifies visited, distance
      ensures cur == Pick(Model(), src, r)
      ensures visited[..n] == Run(Model(), src, r').visited && distance[..n] == Run(Model(), src, r').distance
      ensures visited[n..] == old(visited[n..]) && distance[n..] == old(distance[n..])
    {
      ghost var m := Model();
      cur := Visits(visited, distance);
      UpdateDistance(cur, visited, distance);
      StepShape(m, src, r, r');
    }

    /** One iteration of the loop of `dijkstra_with_path` and
        `dijkstra_from_src_with_path`: `visits`, then
        `update_distance_with_path`. */
    method RoundWithPath(src: nat, ghost r: nat, ghost r': nat, path: array<nat>, visited: array<bool>, distance: array<nat>)
      returns (cur: (nat, nat))
      requires Holds() && src < n && n <= path.Length && n <= visited.Length && n <= distance.Length
      requires distance != data && path != data && path != distance
      requires r' == r + 1
      requires Scratch(visited[..n], distance[..n], path[..n]) == Run(Model(), src, r)
      modifies path, visited, distance
      ensures cur == Pick(Model(), src, r)
      ensures Scratch(visited[..n], distance[..n], path[..n]) == Run(Model(), src, r')
      ensures visited[n..] == old(visited[n..]) && distance[n..] == old(distance[n..]) && path[n..] == old(path[n..])
    {
      ghost var m := Model();
      cur := Visits(visited, distance);
      UpdateDistanceWithPath(cur, path, visited, distance);
      StepShape(m, src, r, r');
    }

    /** `dijkstra`: the cost of the first round that selects `dst`, or the
        sentinel after `n - 1` rounds. */
    method Dijkstra(src: nat, dst: nat, visited: array<bool>, distance: array<nat>) returns (c: nat, ghost rounds: nat)
      requires Holds() && src < n && n <= visited.Length && n <= distance.Length && distance != data
      modifies visited, distance
      ensures c == Cost(Model(), src, dst) && rounds == RoundsTo(Model(), src, dst)
      ensures visited[..n] == Run(Model(), src, rounds).visited && distance[..n] == Run(Model(), src, rounds).distance
      ensures visited[n..] == old(visited[n..]) && distance[n..] == old(distance[n..])
    {
      ghost var m := Model();
      DijkstraInit(src, visited, distance);
      var r: nat := 0;
      while r < n - 1
        invariant r <= n - 1 && Model() == m
        invariant visited[..n] == Run(m, src, r).visited && distance[..n] == Run(m, src, r).distance
        invariant visited[n..] == old(visited[n..]) && distance[n..] == old(distance[n..])
        invariant forall q :: 0 <= q < r ==> Pick(m, src, q).0 != dst
      {
        var r' := r + 1;
        var cur := Round(src, r, r', visited, distance);
        if cur.0 == dst {
          CostFound(m, src, dst, r);
          return cur.1, r';
        }
        forall q | 0 <= q < r'
          ensures Pick(m, src, q).0 != dst
        {
          if q == r {
            assert Pick(m, src, q) == cur;
          }
        }
        r := r';
      }
      CostMissed(m, src, dst, r);
      return inf, r;
    }

    /** `dijkstra_with_path`: the same cost, and the predecessor chain from
        `dst` in the predecessors the loop leaves when it returns. */
    method DijkstraWithPath(src: nat, dst: nat, path: array<nat>, visited: array<bool>, distance: array<nat>)
      returns (c: nat, p: seq<nat>, ghost rounds: nat)
      requires Holds() && src < n && dst < n && n <= path.Length && n <= visited.Length && n <= distance.Length
      requires distance != data && path != data && path != distance
      modifies path, visited, distance
      ensures c == Cost(Model(), src, dst) && p == CostPath(Model(), src, dst) && rounds == RoundsTo(Model(), src, dst)
      ensures Scratch(visited[..n], distance[..n], path[..n]) == Run(Model(), src, rounds)
      ensures visited[n..] == old(visited[n..]) && distance[n..] == old(distance[n..]) && path[n..] == old(path[n..])
    {
      ghost var m := Model();
      DijkstraWithPathInit(src, path, visited, distance);
      var r: nat := 0;
      while r < n - 1
        invariant r <= n - 1 && Model() == m
        invariant Scratch(visited[..n], distance[..n], path[..n]) == Run(m, src, r)
        invariant visited[n..] == old(visited[n..]) && distance[n..] == old(distance[n..]) && path[n..] == old(path[n..])
        invariant forall q :: 0 <= q < r ==> Pick(m, src, q).0 != dst
      {
        var r' := r + 1;
        var cur := RoundWithPath(src, r, r', path, visited, distance);
        if cur.0 == dst {
          CostFound(m, src, dst, r);
          CostPathFound(m, src, dst, r, r');
          p := RebuildPath(src, dst, path, Ranks(m, src, r'));
          return cur.1, p, r';
        }
        forall q | 0 <= q < r'
          ensures Pick(m, src, q).0 != dst
        {
          if q == r {
            assert Pick(m, src, q) == cur;
          }
        }
        r := r';
      }
      CostMissed(m, src, dst, r);
      p := RebuildPath(src, dst, path, Ranks(m, src, r));
      return inf, p, r;
    }

    /** `dijkstra_from_src`: a vector of sentinels into which each of the
        `n - 1` rounds writes its selected cost at its selected vertex. */
    method DijkstraFromSrc(src: nat, visited: array<bool>, distance: array<nat>) returns (output: seq<nat>)
      requires Holds() && src < n && n <= visited.Length && n <= distance.Length && distance != data
      modifies visited, distance
      ensures output == FromSrcCosts(Model(), src)
      ensures visited[..n] == Run(Model(), src, n - 1).visited && distance[..n] == Run(Model(), src, n - 1).distance
      ensures visited[n..] == old(visited[n..]) && distance[n..] == old(distance[n..])
    {
      ghost var m := Model();
      ghost var ps := Picks(m, src);
      FromSrcCostsAt(m, src, ps, n - 1);
      output := seq(n, v => inf);
      DijkstraInit(src, visited, distance);
      var r: nat := 0;
      while r < n - 1
        invariant r <= n - 1 && Model() == m
        invariant visited[..n] == Run(m, src, r).visited && distance[..n] == Run(m, src, r).distance
        invariant visited[n..] == old(visited[n..]) && distance[n..] == old(distance[n..])
        invariant output == Record(ps, n, inf, r)
      {
        var r' := r + 1;
        var cur := Round(src, r, r', visited, distance);
        RecordStep(ps, n, inf, r, r');
        assert ps[r] == cur;
        output := output[cur.0 := cur.1];
        r := r';
      }
      FromSrcCostsAt(m, src, ps, r);
    }

    /** `dijkstra_from_src_with_path`: one (cost, path) entry per round,
        stopping at the first round that selects the sentinel cost. */
    method DijkstraFromSrcWithPath(src: nat, path: array<nat>, visited: array<bool>, distance: array<nat>)
      returns (output: seq<(nat, seq<nat>)>, ghost rounds: nat)
      requires Holds() && src < n && n <= path.Length && n <= visited.Length && n <= distance.Length
      requires distance != data && path != data && path != distance
      modifies path, visited, distance
      ensures output == Report(Model(), src) && rounds == RoundsReported(Model(), src)
      ensures Scratch(visited[..n], distance[..n], path[..n]) == Run(Model(), src, rounds)
      ensures visited[n..] == old(visited[n..]) && distance[n..] == old(distance[n..]) && path[n..] == old(path[n..])
    {
      ghost var m := Model();
      output := [];
      DijkstraWithPathInit(src, path, visited, distance);
      var r: nat := 0;
      while r < n - 1
        invariant r <= n - 1 && Model() == m
        invariant Scratch(visited[..n], distance[..n], path[..n]) == Run(m, src, r)
        invariant visited[n..] == old(visited[n..]) && distance[n..] == old(distance[n..]) && path[n..] == old(path[n..])
        invariant forall q :: 0 <= q < r ==> Pick(m, src, q).1 != inf
        invariant |output| == r && forall q :: 0 <= q < r ==> output[q] == Entry(m, src, q)
      {
        var r' := r + 1;
        var cur := RoundWithPath(src, r, r', path, visited, distance);
        if cur.1 == inf {
          ReportUpTo(m, src, r, output);
          return output, r';
        }
        EntryAt(m, src, r, r');
        var p := RebuildPath(src, cur.0, path, Ranks(m, src, r'));
        ReportStep(m, src, r, r', output, (cur.1, p));
        output := output + [(cur.1, p)];
        r := r';
      }
      ReportUpTo(m, src, r, output);
      rounds := r;
    }

    // -------------------------------------------------------------------
    // Validation

    /** `dijkstra_check`: the first of the conditions the entry points rely
        on that fails, in the order the source tests them, or `Ok`. */
    function Check(src: nat, dst: Option<nat>, pathLength: Option<nat>, visitedLength: nat, distanceLength: nat): (o: Outcome)
      reads this
      ensures o == Ok <==> data.Length == n * n && src < n && (dst.Some? ==> dst.value < n) &&
                           (pathLength.Some? ==> pathLength.value >= n) && visitedLength >= n && distanceLength >= n
      ensures data.Length != n * n ==> o == Err("graph_error: self.len().")
      ensures data.Length == n * n && src >= n ==> o == Err("graph_error: src out of scope.")
      ensures data.Length == n * n && src < n && dst.Some? && dst.value >= n ==> o == Err("graph_error: dst out of scope.")
      ensures data.Length == n * n && src < n && (dst.Some? ==> dst.value < n) && pathLength.Some? && pathLength.value < n
              ==> o == Err("graph_error: path.len().")
      ensures data.Length == n * n && src < n && (dst.Some? ==> dst.value < n) && (pathLength.Some? ==> pathLength.value >= n) &&
              visitedLength < n
              ==> o == Err("graph_error: visited.len().")
      ensures data.Length == n * n && src < n && (dst.Some? ==> dst.value < n) && (pathLength.Some? ==> pathLength.value >= n) &&
              visitedLength >= n && distanceLength < n
              ==> o == Err("graph_error: distance.len().")
      ensures o == Ok ==> Holds()
    {
      OffsetIsProduct(n, n);
      if data.Length != n * n then Err("graph_error: self.len().")
      else if src >= n then Err("graph_error: src out of scope.")
      else if dst.Some? && dst.value >= n then Err("graph_error: dst out of scope.")
      else if pathLength.Some? && pathLength.value < n then Err("graph_error: path.len().")
      else if visitedLength < n then Err("graph_error: visited.len().")
      else if distanceLength < n then Err("graph_error: distance.len().")
      else Ok
    }
  }
}
