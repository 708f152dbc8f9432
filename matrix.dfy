/** The weight matrix of a dense graph, as a value. The source keeps it as a
    flat buffer of `n * n` cells stored row by row, with a sentinel `inf`
    that means "no edge" (and, in the shortest-path engine, "not reached
    yet"); `FromBuffer` reads such a buffer as rows. */
module AdjacencyMatrix {

  /** `Offset(i, n)` is `i * n`, the first cell of row `i`, written as a
      sum of rows so that the solver reasons about it without
      multiplying. */
  function Offset(i: nat, n: nat): nat {
    if i == 0 then 0 else Offset(i - 1, n) + n
  }

  lemma {:induction false} OffsetIsProduct(i: nat, n: nat)
    ensures Offset(i, n) == i * n
  {
    if i > 0 {
      OffsetIsProduct(i - 1, n);
      assert i * n == (i - 1) * n + n;
    }
  }

  /** Rows further down start further on. */
  lemma {:induction false} OffsetMono(i: nat, k: nat, n: nat)
    requires i <= k
    ensures Offset(i, n) <= Offset(k, n)
  {
    if i < k {
      OffsetMono(i, k - 1, n);
    }
  }

  /** Cell `j` of row `i` lies in row `i` and inside the square. */
  lemma {:induction false} CellInSquare(i: nat, j: nat, n: nat)
    requires i < n && j < n
    ensures Offset(i, n) + j < Offset(i + 1, n) <= Offset(n, n)
  {
    OffsetMono(i + 1, n, n);
  }

  /** Cell `j` of row `i` lies inside the square. */
  lemma {:induction false} CellBound(i: nat, j: nat, n: nat)
    requires i < n && j < n
    ensures Offset(i, n) + j < Offset(n, n)
  {
    CellInSquare(i, j, n);
  }

  /** A row that comes before another ends where the later one starts, or
      earlier. */
  lemma {:induction false} OffsetStrict(a: nat, i: nat, n: nat)
    ensures a < i ==> Offset(a + 1, n) <= Offset(i, n)
  {
    if a < i {
      OffsetMono(a + 1, i, n);
    }
  }

  /** Two vertex pairs never share a cell. */
  lemma {:induction false} CellInjective(a: nat, b: nat, i: nat, j: nat, n: nat)
    requires b < n && j < n
    requires Offset(a, n) + b == Offset(i, n) + j
    ensures a == i && b == j
  {
    OffsetStrict(a, i, n);
    OffsetStrict(i, a, n);
  }

  datatype Matrix = Matrix(rows: seq<seq<nat>>, inf: nat) {

    /** The number of vertices. */
    function N(): nat {
      |rows|
    }

    /** Every row has one weight per vertex. */
    predicate Square() {
      forall i :: 0 <= i < |rows| ==> |rows[i]| == |rows|
    }

    /** The weight of the edge from `i` to `j`; `inf` when there is none. */
    function W(i: nat, j: nat): nat
      requires Square() && i < N() && j < N()
    {
      rows[i][j]
    }

    /** The matrix is the same read either way round. */
    ghost predicate Symmetric()
      requires Square()
    {
      forall i, j :: 0 <= i < N() && 0 <= j < N() ==> W(i, j) == W(j, i)
    }

    /** The matrix after writing `w` to (i, j) and then to (j, i). */
    function SetEdge(i: nat, j: nat, w: nat): Matrix
      requires Square() && i < N() && j < N()
    {
      var ri: seq<nat> := rows[i][j := w];
      var r: seq<seq<nat>> := rows[i := ri];
      var rj: seq<nat> := r[j][i := w];
      Matrix(r[j := rj], inf)
    }
  }

  /** The row-by-row reading of the first `n * n` cells of a buffer. */
  function FromBuffer(cells: seq<nat>, n: nat, inf: nat): (m: Matrix)
    requires Offset(n, n) <= |cells|
    ensures m.Square() && m.N() == n && m.inf == inf
    ensures forall i :: 0 <= i < n ==> m.rows[i] == RowAt(cells, n, i)
  {
    Matrix(seq(n, i requires 0 <= i < n => RowAt(cells, n, i)), inf)
  }

  /** Weight (i, j) of the matrix a buffer holds is cell `i * n + j`. */
  lemma {:induction false} FromBufferW(cells: seq<nat>, n: nat, inf: nat, i: nat, j: nat)
    requires Offset(n, n) <= |cells| && i < n && j < n
    ensures Offset(i, n) + j < Offset(n, n) && FromBuffer(cells, n, inf).W(i, j) == cells[Offset(i, n) + j]
  {
    CellBound(i, j, n);
    RowAtCell(cells, n, i, j);
  }

  /** Row `i` of a row-major buffer. */
  function RowAt(cells: seq<nat>, n: nat, i: nat): (row: seq<nat>)
    requires Offset(n, n) <= |cells| && i < n
    ensures |row| == n
  {
    CellInSquare(i, 0, n);
    cells[Offset(i, n)..Offset(i + 1, n)]
  }

  /** Entry `j` of row `i` is cell `i * n + j`. */
  lemma {:induction false} RowAtCell(cells: seq<nat>, n: nat, i: nat, j: nat)
    requires Offset(n, n) <= |cells| && i < n && j < n
    ensures Offset(i, n) + j < |cells| && RowAt(cells, n, i)[j] == cells[Offset(i, n) + j]
  {
    CellInSquare(i, j, n);
  }

  /** Writing both cells of an edge into the buffer is writing the edge into
      the matrix it holds. */
  lemma {:induction false} FromBufferSetEdge(cells: seq<nat>, n: nat, inf: nat, i: nat, j: nat, w: nat)
    requires Offset(n, n) <= |cells| && i < n && j < n
    ensures Offset(i, n) + j < |cells| && Offset(j, n) + i < |cells|
    ensures FromBuffer(cells[Offset(i, n) + j := w][Offset(j, n) + i := w], n, inf)
         == FromBuffer(cells, n, inf).SetEdge(i, j, w)
  {
    CellInSquare(i, j, n);
    CellInSquare(j, i, n);
    var cells': seq<nat> := cells[Offset(i, n) + j := w][Offset(j, n) + i := w];
    var lhs, rhs := FromBuffer(cells', n, inf), FromBuffer(cells, n, inf).SetEdge(i, j, w);
    forall a | 0 <= a < n
      ensures lhs.rows[a] == rhs.rows[a]
    {
      SetEdgeRow(cells, n, inf, i, j, w, a);
    }
    assert lhs.rows == rhs.rows;
  }

  /** Row `a` of the matrix after both cells of an edge are written. */
  lemma {:induction false} SetEdgeRow(cells: seq<nat>, n: nat, inf: nat, i: nat, j: nat, w: nat, a: nat)
    requires Offset(n, n) <= |cells| && i < n && j < n && a < n
    ensures Offset(i, n) + j < |cells| && Offset(j, n) + i < |cells|
    ensures FromBuffer(cells[Offset(i, n) + j := w][Offset(j, n) + i := w], n, inf).rows[a]
         == FromBuffer(cells, n, inf).SetEdge(i, j, w).rows[a]
  {
    CellInSquare(i, j, n);
    CellInSquare(j, i, n);
    var cells': seq<nat> := cells[Offset(i, n) + j := w][Offset(j, n) + i := w];
    var lhs, rhs := FromBuffer(cells', n, inf), FromBuffer(cells, n, inf).SetEdge(i, j, w);
    SetEdgeW(FromBuffer(cells, n, inf), i, j, w, a, 0);
    var left, right := lhs.rows[a], rhs.rows[a];
    forall b | 0 <= b < n
      ensures left[b] == right[b]
    {
      SetEdgeCell(cells, cells', n, inf, i, j, w, a, b);
    }
    SameEntries(left, right);
  }

  /** One cell of the row compared by `SetEdgeRow`. */
  lemma {:induction false} SetEdgeCell(cells: seq<nat>, cells': seq<nat>, n: nat, inf: nat, i: nat, j: nat, w: nat, a: nat, b: nat)
    requires Offset(n, n) <= |cells| && i < n && j < n && a < n && b < n
    requires Offset(i, n) + j < |cells| && Offset(j, n) + i < |cells|
    requires cells' == cells[Offset(i, n) + j := w][Offset(j, n) + i := w]
    ensures FromBuffer(cells', n, inf).W(a, b) == FromBuffer(cells, n, inf).SetEdge(i, j, w).W(a, b)
  {
    FromBufferW(cells', n, inf, a, b);
    FromBufferW(cells, n, inf, a, b);
    SetEdgeW(FromBuffer(cells, n, inf), i, j, w, a, b);
    BufferWrite(cells, n, i, j, w, a, b);
  }

  lemma SameEntries(s: seq<nat>, t: seq<nat>)
    requires |s| == |t| && forall k :: 0 <= k < |s| ==> s[k] == t[k]
    ensures s == t
  {
  }

  /** Two vertex pairs share a cell exactly when they are the same pair. */
  lemma {:induction false} CellEq(a: nat, b: nat, i: nat, j: nat, n: nat)
    requires b < n && j < n
    ensures Offset(a, n) + b == Offset(i, n) + j <==> a == i && b == j
  {
    if Offset(a, n) + b == Offset(i, n) + j {
      CellInjective(a, b, i, j, n);
    }
  }

  /** The cell of (a, b) after both cells of the edge (i, j) are written. */
  lemma {:induction false} BufferWrite(cells: seq<nat>, n: nat, i: nat, j: nat, w: nat, a: nat, b: nat)
    requires Offset(n, n) <= |cells| && i < n && j < n && a < n && b < n
    ensures Offset(i, n) + j < |cells| && Offset(j, n) + i < |cells| && Offset(a, n) + b < |cells|
    ensures cells[Offset(i, n) + j := w][Offset(j, n) + i := w][Offset(a, n) + b]
         == if (a == i && b == j) || (a == j && b == i) then w else cells[Offset(a, n) + b]
  {
    CellBound(i, j, n);
    CellBound(j, i, n);
    CellBound(a, b, n);
    var p, q, c := Offset(i, n) + j, Offset(j, n) + i, Offset(a, n) + b;
    if a == i && b == j {
      assert c == p;
      WriteTwice(cells, p, q, c, w);
    } else if a == j && b == i {
      assert c == q;
      WriteTwice(cells, p, q, c, w);
    } else {
      CellEq(a, b, i, j, n);
      CellEq(a, b, j, i, n);
      assert c != p && c != q;
      WriteTwice(cells, p, q, c, w);
    }
  }

  lemma {:induction false} WriteTwice(s: seq<nat>, p: nat, q: nat, c: nat, w: nat)
    requires p < |s| && q < |s| && c < |s|
    ensures s[p := w][q := w][c] == if c == p || c == q then w else s[c]
  {
  }

  /** One weight of a matrix after an edge is written. */
  lemma {:induction false} SetEdgeW(m: Matrix, i: nat, j: nat, w: nat, a: nat, b: nat)
    requires m.Square() && i < m.N() && j < m.N() && a < m.N() && b < m.N()
    ensures m.SetEdge(i, j, w).Square() && m.SetEdge(i, j, w).N() == m.N()
    ensures m.SetEdge(i, j, w).W(a, b) == if (a == i && b == j) || (a == j && b == i) then w else m.W(a, b)
  {
  }

  /** Writing an edge stores its weight both ways round, leaves every other
      weight as it was, and keeps a symmetric matrix symmetric. */
  lemma {:induction false} SetEdgeProperties(m: Matrix, i: nat, j: nat, w: nat)
    requires m.Square() && i < m.N() && j < m.N()
    ensures m.SetEdge(i, j, w).Square() && m.SetEdge(i, j, w).N() == m.N()
    ensures m.SetEdge(i, j, w).W(i, j) == w && m.SetEdge(i, j, w).W(j, i) == w
    ensures forall a, b :: 0 <= a < m.N() && 0 <= b < m.N() && !(a == i && b == j) && !(a == j && b == i)
              ==> m.SetEdge(i, j, w).W(a, b) == m.W(a, b)
    ensures m.Symmetric() ==> m.SetEdge(i, j, w).Symmetric()
  {
  }
}
