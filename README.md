# Dense-graph Dijkstra over an adjacency matrix

This project is a Dafny model of `dijkstra/src/structure.rs`. That file is a
small Rust library that keeps an undirected weighted graph as an adjacency
matrix. The matrix is a flat buffer of `n * n` weights stored row by row. A
sentinel value `infinite` means "no edge", and in the engine it also means
"not reached yet". The library answers shortest-path queries with a
Dijkstra-style loop over scratch arrays that the caller owns.

The model has four layers:

- `AdjacencyMatrix` (`matrix.dfy`) reads the buffer as a value `Matrix`.
  - Cell `i * n + j` is weight `(i, j)`.
  - Writing an edge stores its weight both ways round.
- `ShortestPath` (`engine.dfy`) is the engine as a state machine over values.
  - `Init` is what `dijkstra_init` and `dijkstra_with_path_init` leave.
  - `Select` is the pair `visits` returns.
  - `Relax` and `Repoint` are what `update_distance` and `update_distance_with_path` do.
  - `Rebuild` is the walk `rebuild_path` produces.
  - `Run(m, src, r)` is the scratch state after `r` rounds. `Pick(m, src, r)` is the pair that round `r + 1` selects.
  - The four entry points are specified by `Cost`, `CostPath`, `FromSrcCosts` and `Report`.
- `ShortestPathProperties` (`properties.dfy`) and `QueryProperties` (`queries.dfy`) prove what the rounds and the queries guarantee:
  - a round that selects a real cost never selects a vertex that an earlier round selected (a later sentinel selection can);
  - while every selection is real, the selected costs come out in non-decreasing order;
  - in every state the rounds reach, every predecessor chain ends at the source;
  - when the source has no self-loop and every earlier selection was real, the path rebuilt for a real selected cost is a walk of real edges whose weight is that cost;
  - each entry of the all-targets report is what `dijkstra` and `dijkstra_with_path` return for its vertex; `dijkstra_from_src` agrees with `dijkstra` only when every round selects a real cost.
- `Structure` (`structure.dfy`) is the source's `Graph` as a class.
  - Its state is the buffer (`data: array<nat>`), the vertex count and the sentinel.
  - It has the accessors, `set_edge` as a method that writes two cells, and the scratch routines and entry points as methods with their loops.
  - The scratch arrays are the caller's `array`s.
  - Each method's postcondition ties its result and the new array contents to the functions of `ShortestPath`. For example, `Dijkstra` returns `Cost(Model(), src, dst)`.
  - `dijkstra_check` is the function `Check`.

`Findings` (`findings.dfy`) holds two behaviours of the all-rounds loops that
their authors evidently did not intend (see "## Findings"). Each comes with a
concrete three-vertex counterexample and a corrected query that is proved
sound.

The source's own sample graph uses the sentinel `INFINITE = 0`
(`dijkstra/src/main.rs`). An edge weight of 0 therefore reads as "no edge",
and a selected cost equal to the sentinel can still be added to, which is
where the second finding comes from. The first finding does not depend on the
sentinel's value: the fallback pair's sentinel cost is written over a cost
already recorded. The model keeps the sentinel as a parameter
`inf` and assumes nothing about its value.

## Model

| member | source | states |
|---|---|---|
| `AdjacencyMatrix.FromBuffer` | dijkstra/src/structure.rs:254-258 | the matrix a buffer of at least `n * n` cells holds: `n` rows of `n` weights, row `i` being the cells from `i * n`, with the graph's sentinel |
| `AdjacencyMatrix.Matrix.SetEdge` | dijkstra/src/structure.rs:233-237 | the matrix with weight `w` stored at (i, j) and at (j, i); `SetEdgeW` states what it holds |
| `AdjacencyMatrix.FromBufferW` | dijkstra/src/structure.rs:14-17 | weight (i, j) of the matrix a buffer holds is the buffer's cell `i * n + j`, which lies inside the first `n * n` cells (`Offset(n, n)`) |
| `AdjacencyMatrix.RowAtCell` | dijkstra/src/structure.rs:9-12 | entry `j` of row `i` (the slice `i * n .. (i + 1) * n`) is cell `i * n + j` |
| `AdjacencyMatrix.CellEq` | dijkstra/src/structure.rs:14-17 | two vertex pairs address the same cell exactly when they are the same pair, so the row-major layout never aliases two weights |
| `AdjacencyMatrix.OffsetIsProduct` | dijkstra/src/structure.rs:9-17 | the row offset the model uses is `i * n`, as in the source's index arithmetic |
| `AdjacencyMatrix.BufferWrite` | dijkstra/src/structure.rs:233-237 | after the two writes of `set_edge`, cell (a, b) holds the new weight when (a, b) is (i, j) or (j, i) and its old value otherwise |
| `AdjacencyMatrix.FromBufferSetEdge` | dijkstra/src/structure.rs:233-237 | writing both cells into the buffer is writing the edge into the matrix the buffer holds |
| `AdjacencyMatrix.SetEdgeW` | dijkstra/src/structure.rs:233-237 | weight (a, b) after an edge is written is the new weight for (i, j) and (j, i) and the old weight elsewhere, and the matrix stays square |
| `AdjacencyMatrix.SetEdgeProperties` | dijkstra/src/structure.rs:233-237 | after `set_edge` the weight is stored both ways round, every other weight is unchanged, and a symmetric matrix stays symmetric |
| `ShortestPath.Init` | dijkstra/src/structure.rs:19-42 | the scratch state both init routines leave: only `src` visited, the distances row `src`, every predecessor `src` |
| `ShortestPath.Scan` | dijkstra/src/structure.rs:47-52 | the pair the scan of `visits` holds after `j` cells: one of those cells with its distance; `ScanBest` states which |
| `ShortestPath.Relax` | dijkstra/src/structure.rs:58-75 | the distances after relaxing every edge from `cur.0`: an unvisited vertex whose edge is real and whose distance is the sentinel or above `cur.1 + edge` gets `cur.1 + edge` |
| `ShortestPath.Repoint` | dijkstra/src/structure.rs:77-103 | the predecessors after the same relaxation: each vertex whose distance it lowers points at `cur.0` |
| `ShortestPath.Settle` | dijkstra/src/structure.rs:53-54 | one round after its selection: the selected vertex visited with its distance cleared, then `Relax` and `Repoint` |
| `ShortestPath.Run` | dijkstra/src/structure.rs:123-125 | the scratch state after `r` rounds of selecting and relaxing, from `Init` |
| `ShortestPath.Pick` | dijkstra/src/structure.rs:124 | the pair `visits` selects in round `r + 1`: `Select` of the distances after `r` rounds, a vertex of the graph |
| `ShortestPath.Record` | dijkstra/src/structure.rs:160-167 | the output vector after `r` rounds of `output[cur.0] = cur.1` from all sentinels; `RecordAt` states what it holds |
| `ShortestPath.Cost` | dijkstra/src/structure.rs:117-131 | what `dijkstra` returns: the cost of the first round that selects `dst`, or the sentinel; it is the sentinel or the cost at which some round selects `dst`, and always the sentinel when `dst` is not a vertex; `CostFound` and `CostMissed` tie it to the loop |
| `ShortestPath.CostPath` | dijkstra/src/structure.rs:149-153 | what `dijkstra_with_path` returns as path: the predecessor walk after `RoundsTo` rounds, which starts at `dst` and ends at `src`; `CostPathSound` states when it is a real walk |
| `ShortestPath.FromSrcCosts` | dijkstra/src/structure.rs:155-169 | what `dijkstra_from_src` returns: `Record` after all `n - 1` rounds, one cost per vertex; `FromSrcMatchesCost` relates it to `Cost` |
| `ShortestPath.Entry` | dijkstra/src/structure.rs:188 | the entry round `q + 1` pushes: its selected cost and the walk rebuilt in the state it leaves, which starts at the selected vertex and ends at `src` |
| `ShortestPath.Report` | dijkstra/src/structure.rs:181-190 | what `dijkstra_from_src_with_path` returns: the entries of the rounds before the first sentinel selection, at most `n - 1` of them; `ReportShape`, `ReportOrdered`, `ReportMatchesCost` and `ReportSound` state its properties |
| `ShortestPath.Select` | dijkstra/src/structure.rs:44-56 | the pair `visits` selects is the lowest vertex holding the least real distance; when no distance is real it is the last vertex, with the sentinel |
| `ShortestPath.ScanBest` | dijkstra/src/structure.rs:47-52 | after scanning `j` cells the held pair is the sentinel only if all of them are (and then it sits on the last one), otherwise the least real cost, first occurrence kept |
| `ShortestPath.Rebuild` | dijkstra/src/structure.rs:105-116 | the rebuilt path starts at `dst` and ends at `src` |
| `ShortestPath.RebuildLinks` | dijkstra/src/structure.rs:105-116 | every vertex of the rebuilt path is a vertex, and each vertex but the last is followed by its predecessor |
| `ShortestPath.RebuildStep` | dijkstra/src/structure.rs:111-114 | unfolding helper for `Rebuild`: one step of the predecessor walk moves to a strictly lower rank, so the walk terminates, and it prepends the vertex to the rest of the walk |
| `ShortestPath.RebuildAdvance` | dijkstra/src/structure.rs:111-114 | the loop of `rebuild_path` keeps "the pushed prefix followed by the walk from the last vertex is the walk from `dst`" |
| `ShortestPath.RunInv` | dijkstra/src/structure.rs:77-103 | in every state the rounds reach, the source is visited, every predecessor is a visited vertex, and ranks descend along predecessors, so `rebuild_path` terminates on every state the entry points hand it |
| `ShortestPath.StepInv` | dijkstra/src/structure.rs:77-103 | one round of `visits` and `update_distance_with_path` preserves that invariant |
| `ShortestPath.StepShape` | dijkstra/src/structure.rs:124-125 | unfolding helper for `Run`: a round is `visits` followed by relaxing every edge from the selected vertex through the visited flags and the cleared distance `visits` leaves |
| `ShortestPath.RanksStep` | dijkstra/src/structure.rs:77-103 | unfolding helper for `Ranks`: a vertex keeps its rank once visited, and an unvisited vertex ranks after the current round |
| `ShortestPath.Hit` | dijkstra/src/structure.rs:123-129 | the first round from `r` on that selects `v`, and no earlier round selects it |
| `ShortestPath.Break` | dijkstra/src/structure.rs:184-189 | the first round from `r` on that selects the sentinel cost, and every earlier round selects a real one |
| `ShortestPath.RecordAt` | dijkstra/src/structure.rs:160-167 | a vertex no round selects keeps the initial sentinel, and a selected vertex holds the cost of the last round that selected it |
| `ShortestPathProperties.SelectedSettled` | dijkstra/src/structure.rs:53-54 | the selected vertex is visited, with its distance cleared, after its round |
| `ShortestPathProperties.SelectedStaysSettled` | dijkstra/src/structure.rs:58-75 | a selected vertex stays visited with a cleared distance in every later state, because relaxation skips visited vertices |
| `ShortestPathProperties.StepKeepsSettled` | dijkstra/src/structure.rs:68-72 | a visited vertex with a cleared distance keeps both through one more round |
| `ShortestPathProperties.PickedOnce` | dijkstra/src/structure.rs:44-75 | a later round that selects a real cost selects a different vertex than any earlier round |
| `ShortestPathProperties.FiniteAbovePick` | dijkstra/src/structure.rs:44-75 | after a round that selects a real cost, every real distance left is at least that cost |
| `ShortestPathProperties.PickStepOrdered` | dijkstra/src/structure.rs:44-75 | consecutive real selected costs do not decrease |
| `ShortestPathProperties.PicksSorted` | dijkstra/src/structure.rs:44-75 | while every selected cost is real, the selected costs come out in non-decreasing order |
| `ShortestPathProperties.SettledStep` | dijkstra/src/structure.rs:53-54 | unfolding helper for `Settled`: the settled costs after a round are those before it with the selected vertex set to the selected cost |
| `ShortestPathProperties.SoundInit` | dijkstra/src/structure.rs:27-42 | with no self-loop at the source, the initial state is sound: each reached vertex holds its predecessor's cost plus the edge from it |
| `ShortestPathProperties.SoundStep` | dijkstra/src/structure.rs:77-103 | with no self-loop at the source, a round that selects a real cost keeps the state sound: distances, predecessors and settled costs stay consistent along real edges |
| `ShortestPathProperties.SoundRun` | dijkstra/src/structure.rs:170-191 | with no self-loop at the source, every state reached while the selected costs are real is sound |
| `ShortestPathProperties.WalkCons` | dijkstra/src/structure.rs:105-116 | prepending a vertex along a real edge to a walk gives a walk whose weight grows by that edge |
| `ShortestPathProperties.ChainWalk` | dijkstra/src/structure.rs:105-116 | in a sound predecessor chain, the rebuilt path of a visited vertex is a walk of real edges from the source whose weight is the vertex's cost |
| `ShortestPathProperties.VisitedWalk` | dijkstra/src/structure.rs:105-116 | in a sound state, the rebuilt path of every visited vertex is a walk from the source whose weight is its settled cost |
| `ShortestPathProperties.EntryAt` | dijkstra/src/structure.rs:188 | unfolding helper for `Entry`: the entry a round pushes is its selected cost with the path rebuilt in the state that round leaves |
| `ShortestPathProperties.SettledWalk` | dijkstra/src/structure.rs:184-189 | with no self-loop at the source, the entry pushed for a real selection is a walk from the source to the selected vertex whose weight is the pushed cost |
| `QueryProperties.RealBeforeBreak` | dijkstra/src/structure.rs:187 | every round before the first sentinel selection selects a real cost |
| `QueryProperties.CostAtHit` | dijkstra/src/structure.rs:123-128 | the round that first selects `dst` selects it at the returned cost, and its state holds the returned path |
| `QueryProperties.CostPathSound` | dijkstra/src/structure.rs:132-154 | when `dst` is selected before any sentinel selection and the source has no self-loop, the returned cost is real and the returned path is a walk from `src` to `dst` of exactly that weight |
| `QueryProperties.FromSrcMatchesCost` | dijkstra/src/structure.rs:155-169 | when every round selects a real cost, `dijkstra_from_src` holds at each vertex exactly what `dijkstra` returns for it |
| `QueryProperties.ReportAt` | dijkstra/src/structure.rs:184-189 | entry `q` of `dijkstra_from_src_with_path` comes from a real selection and is its cost with a path from the selected vertex back to `src` |
| `QueryProperties.EntryShape` | dijkstra/src/structure.rs:188 | a pushed entry is the selected cost and a path that starts at the selected vertex and ends at `src` |
| `QueryProperties.ReportShape` | dijkstra/src/structure.rs:170-191 | `dijkstra_from_src_with_path` pushes at most `n - 1` entries, each with a real cost and a path from its vertex back to `src` |
| `QueryProperties.ReportOrdered` | dijkstra/src/structure.rs:170-191 | the pushed costs are in non-decreasing order and no vertex is reported twice |
| `QueryProperties.ReportMatchesCost` | dijkstra/src/structure.rs:117-191 | each pushed entry is exactly the (cost, path) that `dijkstra` and `dijkstra_with_path` return for its vertex |
| `QueryProperties.ReportSound` | dijkstra/src/structure.rs:170-191 | with no self-loop at the source, every pushed path is a walk from `src` to its vertex whose weight is the pushed cost |
| `QueryProperties.CostFound` | dijkstra/src/structure.rs:126-128 | returning at the first round that selects `dst` returns the query's cost, after `RoundsTo` rounds |
| `QueryProperties.CostPathFound` | dijkstra/src/structure.rs:149-151 | rebuilding at that round returns the query's path |
| `QueryProperties.CostMissed` | dijkstra/src/structure.rs:130 | when no round selects `dst`, the cost is the sentinel, all `n - 1` rounds run and the path is rebuilt in the last state |
| `QueryProperties.RecordStep` | dijkstra/src/structure.rs:166 | unfolding helper for `Record`: one more round writes its selected cost at its selected vertex of the output vector |
| `QueryProperties.BreakAt` | dijkstra/src/structure.rs:187 | the first sentinel selection is the unique round with the sentinel and real costs before it |
| `QueryProperties.ReportStep` | dijkstra/src/structure.rs:188 | pushing the entry of one more real selection keeps the output equal to the entries of the rounds so far |
| `QueryProperties.ReportUpTo` | dijkstra/src/structure.rs:184-190 | breaking at the first sentinel selection, or running all `n - 1` rounds, returns exactly the report, after `RoundsReported` rounds |
| `Findings.FromSrcOverwrites` | dijkstra/src/structure.rs:163-167 | on one edge 0 - 2 of weight 5 with sentinel 0, `dijkstra(0, 2)` is 5 along a real walk, but `dijkstra_from_src` holds the sentinel at vertex 2, and the corrected vector holds 5 |
| `Findings.UnreachableGetsCost` | dijkstra/src/structure.rs:123-129 | on one edge 1 - 2 of weight 7 with sentinel 0, no walk joins 0 to 1, yet `dijkstra(0, 1)` is 7 with path [1, 2, 0], and the corrected query gives the sentinel |
| `Findings.CostFixedSound` | dijkstra/src/structure.rs:117-154 | with no self-loop at the source, a real cost from the query that stops at the first sentinel selection equals `dijkstra`'s cost and is the weight of a real walk from `src` to `dst` |
| `Findings.CostFixedUnreachable` | dijkstra/src/structure.rs:117-131 | with no self-loop at the source, the corrected query gives the sentinel to every vertex no walk reaches |
| `Findings.FromSrcFixedMatchesCost` | dijkstra/src/structure.rs:155-169 | the corrected all-targets vector holds at each vertex the corrected single-target cost |
| `Structure.Graph.FromInner` | dijkstra/src/structure.rs:261-267 | `from_inner` stores the buffer, the vertex count and the sentinel as given, without checking the buffer's length |
| `Structure.Graph.Model` | dijkstra/src/structure.rs:254-258 | the buffer, read row by row, is an `n` by `n` matrix with the graph's sentinel |
| `Structure.Graph.Neighbors` | dijkstra/src/structure.rs:9-12 | `neighbors(i)` is row `i` of the matrix, `n` long, entry `j` being cell `i * n + j` |
| `Structure.Graph.Edge` | dijkstra/src/structure.rs:14-17 | `edge(i, j)` is cell `i * n + j`, weight (i, j) of the matrix |
| `Structure.Graph.SetEdge` | dijkstra/src/structure.rs:233-237 | after the two writes, the buffer holds the matrix with the edge written both ways round, and the buffer cells from `n * n` on are unchanged |
| `Structure.Graph.ClearVisited` | dijkstra/src/structure.rs:20-22 | the first `n` visited flags are cleared, the rest untouched |
| `Structure.Graph.FillPath` | dijkstra/src/structure.rs:37-39 | every one of the first `n` predecessors is `src`, the rest untouched |
| `Structure.Graph.CopyRow` | dijkstra/src/structure.rs:23 | the first `n` distances are row `src` of the matrix, the rest untouched |
| `Structure.Graph.DijkstraInit` | dijkstra/src/structure.rs:19-25 | only `src` is visited and the distances are row `src`: the visited flags and distances of `Init` |
| `Structure.Graph.DijkstraWithPathInit` | dijkstra/src/structure.rs:27-42 | the same, with every predecessor `src`: the whole scratch state `Init` |
| `Structure.Graph.Visits` | dijkstra/src/structure.rs:44-56 | returns `Select` of the distances, marks that vertex visited and clears its distance, and changes nothing else |
| `Structure.Graph.UpdateDistance` | dijkstra/src/structure.rs:58-75 | the first `n` distances become `Relax` of the old ones, and the rest are untouched |
| `Structure.Graph.UpdateDistanceWithPath` | dijkstra/src/structure.rs:77-103 | the distances become `Relax` and the predecessors `Repoint` of the old state, both computed from the old distances |
| `Structure.Graph.RebuildPath` | dijkstra/src/structure.rs:105-116 | returns the predecessor walk `Rebuild` from `dst` back to `src` |
| `Structure.Graph.Round` | dijkstra/src/structure.rs:124-125 | `visits` then `update_distance` take the state after `r` rounds to the state after `r + 1`, selecting `Pick(r)`; cells from `n` on are unchanged |
| `Structure.Graph.RoundWithPath` | dijkstra/src/structure.rs:147-148 | the same for `update_distance_with_path` over the whole scratch state; cells from `n` on are unchanged |
| `Structure.Graph.Dijkstra` | dijkstra/src/structure.rs:117-131 | returns `Cost`: the cost of the first round that selects `dst`, or the sentinel when none of the `n - 1` rounds does; leaves the first `n` flags and distances in the state after `RoundsTo` rounds and the cells from `n` on unchanged |
| `Structure.Graph.DijkstraWithPath` | dijkstra/src/structure.rs:132-154 | returns `Cost` and `CostPath`: the path rebuilt in the state where the loop stops; leaves the first `n` cells of the scratch state in the state after `RoundsTo` rounds and the cells from `n` on unchanged |
| `Structure.Graph.DijkstraFromSrc` | dijkstra/src/structure.rs:155-169 | returns `FromSrcCosts`: each vertex holds the cost of the last round that selected it, or the sentinel; leaves the first `n` flags and distances in the state after all `n - 1` rounds and the cells from `n` on unchanged |
| `Structure.Graph.DijkstraFromSrcWithPath` | dijkstra/src/structure.rs:170-191 | returns `Report`: one (cost, path) entry per round before the first sentinel selection; leaves the first `n` cells of the scratch state in the state after `RoundsReported` rounds (up to and including the first sentinel selection) and the cells from `n` on unchanged |
| `Structure.Graph.Check` | dijkstra/src/structure.rs:192-225 | `Ok` exactly when the buffer has `n * n` cells, `src` and `dst` are vertices and every slice has at least `n` cells; otherwise the first failing condition's message, in the source's order; `Ok` gives the buffer the entry points need |

## Left out

- `Structure.Graph.Dijkstra`, `Structure.Graph.DijkstraWithPath`: the model proves neither global optimality nor that an unreachable vertex gets the sentinel. Neither holds of the code as written (see "## Findings"). What is proved is that the returned path is a real walk of the returned weight whenever `dst` is selected before the first sentinel selection (`QueryProperties.CostPathSound`).
- `QueryProperties.CostPathSound`, `QueryProperties.ReportSound`, `Findings.CostFixedSound`, `Findings.CostFixedUnreachable`, `ShortestPathProperties.SoundStep`, `ShortestPathProperties.SoundRun`: these assume the source has no self-loop (the weight `(src, src)` is the sentinel). With a self-loop of weight `w`, `dijkstra_init` copies `w` into the source's own distance. `visits` does not read `visited`, so a round can select the source at cost `w` instead of 0. The predecessor of the source is never re-pointed, because relaxation skips visited vertices, and the source is settled and reported at cost `w` with the one-vertex path `[src]`, which weighs 0. When no relaxation produces a distance equal to the sentinel (always so with the sentinel 0 of `main.rs`, since a real edge is then positive), relaxing from the source changes no distance, because each unvisited neighbour already holds at most its edge weight from the source, and the source's own entry is all that breaks. With a nonzero sentinel a relaxation can produce the sentinel, and relaxing from the source then treats that neighbour as unreached and re-points it. For example, take the matrix `[[4,7,2,5],[7,5,3,5],[2,3,5,5],[5,5,5,5]]` with sentinel 5 and `src = 0`. Round 1 selects `(2, 2)` and sets vertex 1's distance to `2 + 3 = 5`, the sentinel. Round 2 selects the source at `(0, 4)` and sets vertex 1 to `4 + 7 = 11` with predecessor 0. So the report holds `(11, [1, 0])`, though the walk `[1, 0]` weighs 7.
- `QueryProperties.FromSrcMatchesCost`: this assumes every round selects a real cost. Without that, Finding 1 shows that the two entry points disagree.
- Generic weights `T` with `PartialOrd` and `Add` are modelled as `nat` with integer order and unbounded addition. The `u16` overflow of `cur.1 + edge` in `main.rs` is not modelled.
- Panics become `requires` clauses. These are out-of-range indexing, `nb_vertex - 1` for an empty graph, and `rebuild_path` indexing `path` with `dst >= n`. So the model requires `src < n`, `1 <= n` in `visits`, `dst < n` in `dijkstra_with_path`, and buffers and slices of at least `n * n` and `n` cells. `dijkstra` with `dst >= n` is modelled: it runs all rounds and returns the sentinel.
- `Structure.Graph.RebuildPath`: this requires that the predecessors descend in rank. A predecessor cycle on the walk from `dst` would make the source loop forever; a cycle elsewhere does no harm. `Ranked` asks every chain to descend, not only the one from `dst`, so it is stronger than a standalone call of `rebuild_path` needs. `ShortestPath.RunInv` proves that the requirement holds in every state the entry points reach.
- Each scratch slice is modelled as an `array` of which only the first `n` cells are used. Every entry point slices to `[..nb_vertex]`, so the init loops and `visits` only ever see `n` cells. The model clears and scans those `n` cells and leaves the rest unchanged, and every entry point states that its cells from `n` on are unchanged. `DijkstraInit`, `DijkstraWithPathInit` and `Visits` are therefore the calls the entry points make on an `n`-cell slice. A caller that passed a longer slice straight to those routines would see different behaviour: `dijkstra_init` would clear every flag, `copy_from_slice` would panic unless the distance slice has exactly `n` cells, and `visits` would scan the whole slice.
- The borrow checker's guarantee that the buffer and the scratch slices are distinct is stated as `requires` that the arrays differ.
- The accessors `inner`, `nb_vertex`, `infinite` and `inner_mut` (`dijkstra/src/structure.rs:4-7`, `271-287`) are the `const` fields `data`, `n` and `inf`. `inner_mut` is the `modifies data` of `SetEdge`.
- `dijkstra_check` receives the lengths of `path`, `visited` and `distance` rather than the slices, because it reads nothing else of them.
- `Round`, `RoundWithPath`, `ClearVisited`, `FillPath` and `CopyRow` are not functions of the source. They are the loop bodies and the `iter_mut` / `copy_from_slice` loops of the source as separate methods, so that each proof stays small.
- `neighbors_mut` (`dijkstra/src/structure.rs:238-241`) is not modelled; it only returns a mutable borrow of a row.
- The `Debug` impl (`dijkstra/src/structure.rs:244-252`) is not modelled, because it is output formatting.
- `dijkstra/src/main.rs` (the sample graph built with `set_edge` and the printing of the four queries' results) is not part of this model. `Vec::with_capacity` capacities are not modelled.
- The entry points keep the behaviour of the code as written. Only `Findings` uses the corrected queries.

## Findings

| source | as written | input that shows it | evidently intended | confidence | as-written member | corrected member |
|---|---|---|---|---|---|---|
| dijkstra/src/structure.rs:163-167 | `dijkstra_from_src` writes `output[cur.0] = cur.1` in every one of the `n - 1` rounds. When no distance is real, `visits` falls back to the last vertex with the sentinel cost, and that write overwrites a cost recorded earlier | `n = 3`, sentinel 0, one edge 0 - 2 of weight 5, `src = 0`: `dijkstra(0, 2)` returns 5, but `dijkstra_from_src(0)[2]` is 0 (the sentinel) | stop at the first round whose selected cost is the sentinel, as `dijkstra_from_src_with_path` does, so that each vertex keeps the cost it was settled at | not executed | `Findings.FromSrcOverwrites` | `Findings.FromSrcFixedMatchesCost` |
| dijkstra/src/structure.rs:123-129 | `dijkstra` keeps looping after `visits` has fallen back to a sentinel selection. `update_distance` then relaxes from that vertex with `cur.1` equal to the sentinel, which gives unreachable vertices a real cost | `n = 3`, sentinel 0, one edge 1 - 2 of weight 7, `src = 0`: `dijkstra(0, 1)` returns 7 and `dijkstra_with_path` returns the path [1, 2, 0], though no walk joins 0 and 1 | return the sentinel for a vertex that is not selected before the first sentinel selection | not executed | `Findings.UnreachableGetsCost` | `Findings.CostFixedUnreachable` |
