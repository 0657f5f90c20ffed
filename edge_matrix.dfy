// Edge matrices of the graphics tree (src/graphics/matrix/dim2.rs): a 4-column
// point matrix in which every two consecutive rows are the two ends of one
// edge, each point carried as [x, y, z, 1].
module EdgeMatrices {
  import opened Matrices
  import opened SeqFacts

  /** The eight values one edge [x0, y0, z0, x1, y1, z1] appends: both ends with w = 1. */
  function EdgeRows(edge: seq<real>): (rows: seq<real>)
    requires |edge| == 6
    ensures |rows| == 8
    ensures rows[3] == 1.0 && rows[7] == 1.0
  {
    edge[0..3] + [1.0] + edge[3..6] + [1.0]
  }

  /** The value after append_edge. */
  function EdgeAppended(m: Mat, edge: seq<real>): Mat
    requires |edge| == 6
  {
    Mat(m.nrows + 2, m.ncols, m.data + EdgeRows(edge))
  }

  /** The value a matrix reaches from `m` by appending the given edges in order. */
  function EdgesAppended(m: Mat, edges: seq<seq<real>>): Mat
    requires forall k :: 0 <= k < |edges| ==> |edges[k]| == 6
  {
    if |edges| == 0 then m else EdgeAppended(EdgesAppended(m, edges[..|edges| - 1]), edges[|edges| - 1])
  }

  /** new_edge_matrix: no rows, four columns, no data. */
  method NewEdgeMatrix() returns (m: Matrix)
    ensures fresh(m) && m.Valid() && m.Value() == Mat(0, 4, [])
  {
    m := new Matrix(0, 4, []);
  }

  /**
   * append_edge asserts six values, then pushes both ends with w = 1; the
   * rows already present stay as they were.
   */
  method AppendEdge(m: Matrix, edge: seq<real>)
    requires |edge| == 6
    modifies m
    ensures m.Value() == EdgeAppended(old(m.Value()), edge)
    ensures old(m.Valid()) && m.ncols == 4 ==> m.Valid()
  {
    m.data := m.data + edge[0..3];
    m.data := m.data + [1.0];
    m.data := m.data + edge[3..6];
    m.data := m.data + [1.0];
    m.nrows := m.nrows + 2;
    assert m.data == old(m.data) + EdgeRows(edge);
  }

  /**
   * Appending edges to a well-shaped 4-column matrix adds two rows per edge,
   * keeps every row already present, and keeps the matrix well shaped.
   */
  lemma {:induction false} EdgesAppendedShape(m: Mat, edges: seq<seq<real>>)
    requires Shaped(m) && m.ncols == 4
    requires forall k :: 0 <= k < |edges| ==> |edges[k]| == 6
    ensures Shaped(EdgesAppended(m, edges)) && EdgesAppended(m, edges).ncols == 4
    ensures EdgesAppended(m, edges).nrows == m.nrows + 2 * |edges|
    ensures |EdgesAppended(m, edges).data| >= |m.data|
    ensures EdgesAppended(m, edges).data[..|m.data|] == m.data
  {
    if |edges| > 0 {
      var front := edges[..|edges| - 1];
      EdgesAppendedShape(m, front);
      var p := EdgesAppended(m, front);
      assert (p.data + EdgeRows(edges[|edges| - 1]))[..|m.data|] == p.data[..|m.data|];
    }
  }

  /** A matrix built from new_edge_matrix by append_edge alone has an even number of rows. */
  lemma EdgeMatrixRowsEven(edges: seq<seq<real>>)
    requires forall k :: 0 <= k < |edges| ==> |edges[k]| == 6
    ensures EdgesAppended(Mat(0, 4, []), edges).nrows % 2 == 0
    ensures Shaped(EdgesAppended(Mat(0, 4, []), edges))
  {
    EdgesAppendedShape(Mat(0, 4, []), edges);
  }

  /** Edge k of the built matrix sits in rows 2k and 2k + 1. */
  lemma {:induction false} EdgeRowsAt(m: Mat, edges: seq<seq<real>>, k: nat)
    requires Shaped(m) && m.ncols == 4
    requires forall j :: 0 <= j < |edges| ==> |edges[j]| == 6
    requires k < |edges|
    ensures |m.data| + 8 * k + 8 <= |EdgesAppended(m, edges).data|
    ensures EdgesAppended(m, edges).data[|m.data| + 8 * k .. |m.data| + 8 * k + 8] == EdgeRows(edges[k])
  {
    var n := |edges|;
    var front := edges[..n - 1];
    EdgesAppendedShape(m, front);
    var p := EdgesAppended(m, front);
    assert |p.data| == |m.data| + 8 * (n - 1);
    var t := EdgeRows(edges[n - 1]);
    var whole := EdgesAppended(m, edges).data;
    assert whole == p.data + t;
    var i := |m.data| + 8 * k;
    if k < n - 1 {
      EdgeRowsAt(m, front, k);
      assert front[k] == edges[k];
      SliceOfFront(p.data, t, i, i + 8);
    } else {
      assert i == |p.data| && |t| == 8;
      SliceOfBack(p.data, t, i, i + 8);
    }
  }

  /** Appending the single edge [1, 2, 4, 5, 6, 7] to a new edge matrix. */
  lemma AppendEdgeExample(e: seq<real>)
    requires e == [1.0, 2.0, 4.0, 5.0, 6.0, 7.0]
    ensures EdgesAppended(Mat(0, 4, []), [e]) == Mat(2, 4, [1.0, 2.0, 4.0, 1.0, 5.0, 6.0, 7.0, 1.0])
  {
    assert [e][..0] == [];
  }
}
