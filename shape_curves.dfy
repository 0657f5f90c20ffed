// The curve builders of src/matrix/parametrics.rs: a parametric curve is
// sampled by the iterator of src/graphics/parametrics.rs and every two
// consecutive samples become one edge of an edge matrix, on the plane z.
module ParametricShapes {
  import opened FloatModel
  import opened Matrices
  import opened EdgeMatrices
  import opened Parametrics
  import opened Curves

  /** The edge from sample a to sample b, both on the plane z. */
  function EdgeBetween(a: (real, real), b: (real, real), z: real): (e: seq<real>)
    ensures |e| == 6
  {
    [a.0, a.1, z, b.0, b.1, z]
  }

  /** The edges windows(2) makes of the samples: n points give max(n - 1, 0) edges. */
  function Chain(pts: seq<(real, real)>, z: real): (edges: seq<seq<real>>)
    ensures |edges| == IntMax(|pts| - 1, 0)
    ensures forall k :: 0 <= k < |edges| ==> |edges[k]| == 6
  {
    if |pts| <= 1 then []
    else seq(|pts| - 1, k requires 0 <= k < |pts| - 1 => EdgeBetween(pts[k], pts[k + 1], z))
  }

  /** The points a chain of edges passes through: every start, then the last end. */
  function Visited(edges: seq<seq<real>>): (pts: seq<(real, real)>)
    requires forall k :: 0 <= k < |edges| ==> |edges[k]| == 6
    requires |edges| >= 1
    ensures |pts| == |edges| + 1
  {
    seq(|edges| + 1, k requires 0 <= k <= |edges| =>
      if k < |edges| then (edges[k][0], edges[k][1]) else (edges[k - 1][3], edges[k - 1][4]))
  }

  /** Walking the chain gives the samples back, in order: no point is lost or moved. */
  lemma ChainVisitsSamples(pts: seq<(real, real)>, z: real)
    requires |pts| >= 2
    ensures Visited(Chain(pts, z)) == pts
  {
  }

  /** Consecutive edges link up: edge k ends where edge k + 1 starts. */
  lemma ChainLinks(pts: seq<(real, real)>, z: real, k: nat)
    requires k + 1 < |Chain(pts, z)|
    ensures Chain(pts, z)[k][3..6] == Chain(pts, z)[k + 1][0..3]
  {
  }

  /** Every point of every edge lies on the plane z. */
  lemma ChainOnPlane(pts: seq<(real, real)>, z: real, k: nat)
    requires k < |Chain(pts, z)|
    ensures Chain(pts, z)[k][2] == z && Chain(pts, z)[k][5] == z
  {
  }

  /**
   * add_parametric: collects the samples of the curve, then appends one edge
   * per consecutive pair; rows already in the matrix are kept.
   */
  method AddParametric(m: Matrix, p: Parametric, z: real, step: real)
    requires step > 0.0
    modifies m
    ensures m.Value() == EdgesAppended(old(m.Value()), Chain(SamplePoints(p, step), z))
    ensures old(m.Valid()) && m.ncols == 4 ==> m.Valid()
  {
    ghost var m0 := m.Value();
    var it := new ParametricIter(p, step);
    var points := Collect(it);
    ghost var edges := Chain(points, z);
    var i := 0;
    while i + 1 < |points|
      invariant i <= |edges|
      invariant m.Value() == EdgesAppended(m0, edges[..i])
      invariant old(m.Valid()) && m.ncols == 4 ==> m.Valid()
    {
      var (x0, y0) := points[i];
      var (x1, y1) := points[i + 1];
      AppendEdge(m, [x0, y0, z, x1, y1, z]);
      assert edges[..i + 1][..i] == edges[..i];
      i := i + 1;
    }
    assert edges[..i] == edges;
  }

  /** The edges add_parametric appends: two rows per edge, one edge fewer than the samples. */
  lemma AddParametricRows(m: Mat, p: Parametric, z: real, step: real)
    requires Shaped(m) && m.ncols == 4 && step > 0.0
    ensures EdgesAppended(m, Chain(SamplePoints(p, step), z)).nrows
         == m.nrows + 2 * (SampleCount(step) - 1)
  {
    EdgesAppendedShape(m, Chain(SamplePoints(p, step), z));
  }

  /** The circle of add_circle: t in [0, 1] runs once round, 360 t degrees. */
  function Circle(lib: Libm, centre: (real, real, real), radius: real): Parametric {
    Parametric(t => radius * lib.cosDeg(t * 2.0 * 180.0) + centre.0,
               t => radius * lib.sinDeg(t * 2.0 * 180.0) + centre.1)
  }

  /** add_circle: the circle at the centre's depth, sampled with step 0.001. */
  method AddCircle(m: Matrix, lib: Libm, centre: (real, real, real), radius: real)
    modifies m
    ensures m.Value() == EdgesAppended(old(m.Value()), Chain(SamplePoints(Circle(lib, centre, radius), 0.001), centre.2))
    ensures old(m.Valid()) && m.ncols == 4 ==> m.Valid()
  {
    AddParametric(m, Circle(lib, centre, radius), centre.2, 0.001);
  }

  /** The cubic Bezier curve of add_bezier3, one coefficient set per axis. */
  function Bezier(p0: (real, real), p1: (real, real), p2: (real, real), p3: (real, real)): Parametric {
    var kx := Bezier3Coef(p0.0, p1.0, p2.0, p3.0);
    var ky := Bezier3Coef(p0.1, p1.1, p2.1, p3.1);
    Parametric(t => Eval(kx, t), t => Eval(ky, t))
  }

  /** add_bezier3: the curve on the plane z = 0, sampled with step 0.001. */
  method AddBezier3(m: Matrix, p0: (real, real), p1: (real, real), p2: (real, real), p3: (real, real))
    modifies m
    ensures m.Value() == EdgesAppended(old(m.Value()), Chain(SamplePoints(Bezier(p0, p1, p2, p3), 0.001), 0.0))
    ensures old(m.Valid()) && m.ncols == 4 ==> m.Valid()
  {
    AddParametric(m, Bezier(p0, p1, p2, p3), 0.0, 0.001);
  }

  /** The cubic Hermite curve of add_hermite3, one coefficient set per axis. */
  function Hermite(p0: (real, real), p1: (real, real), r0: (real, real), r1: (real, real)): Parametric {
    var kx := Hermite3Coef(p0.0, p1.0, r0.0, r1.0);
    var ky := Hermite3Coef(p0.1, p1.1, r0.1, r1.1);
    Parametric(t => Eval(kx, t), t => Eval(ky, t))
  }

  /** add_hermite3: the curve on the plane z = 0, sampled with step 0.0001. */
  method AddHermite3(m: Matrix, p0: (real, real), p1: (real, real), r0: (real, real), r1: (real, real))
    modifies m
    ensures m.Value() == EdgesAppended(old(m.Value()), Chain(SamplePoints(Hermite(p0, p1, r0, r1), 0.0001), 0.0))
    ensures old(m.Valid()) && m.ncols == 4 ==> m.Valid()
  {
    AddParametric(m, Hermite(p0, p1, r0, r1), 0.0, 0.0001);
  }

  /**
   * A step that divides 1 exactly, 1 / n, samples t = 0 and t = 1: the
   * samples run from the curve's start to its end, n + 1 of them.
   */
  lemma {:induction false} SamplesSpanCurve(p: Parametric, step: real, n: nat)
    requires n >= 1 && step == 1.0 / n as real
    ensures |SamplePoints(p, step)| == n + 1
    ensures SamplePoints(p, step)[0] == PointAt(p, 0.0)
    ensures SamplePoints(p, step)[n] == PointAt(p, 1.0)
  {
    assert 1.0 / step == n as real;
    SamplesUpToAt(p, step, n + 1, 0);
    SamplesUpToAt(p, step, n + 1, n);
    assert Time(n, step) == 1.0;
  }

  /** The edges add_bezier3 draws run from p0 to p3, a thousand of them. */
  lemma BezierDrawnEndToEnd(p0: (real, real), p1: (real, real), p2: (real, real), p3: (real, real), step: real)
    requires step == 0.001
    ensures |Chain(SamplePoints(Bezier(p0, p1, p2, p3), step), 0.0)| == 1000
    ensures Visited(Chain(SamplePoints(Bezier(p0, p1, p2, p3), step), 0.0))[0] == p0
    ensures Visited(Chain(SamplePoints(Bezier(p0, p1, p2, p3), step), 0.0))[1000] == p3
  {
    var b := Bezier(p0, p1, p2, p3);
    SamplesSpanCurve(b, step, 1000);
    ChainVisitsSamples(SamplePoints(b, step), 0.0);
  }

  /** The edges add_hermite3 draws run from p0 to p1, ten thousand of them. */
  lemma HermiteDrawnEndToEnd(p0: (real, real), p1: (real, real), r0: (real, real), r1: (real, real), step: real)
    requires step == 0.0001
    ensures |Chain(SamplePoints(Hermite(p0, p1, r0, r1), step), 0.0)| == 10000
    ensures Visited(Chain(SamplePoints(Hermite(p0, p1, r0, r1), step), 0.0))[0] == p0
    ensures Visited(Chain(SamplePoints(Hermite(p0, p1, r0, r1), step), 0.0))[10000] == p1
  {
    var h := Hermite(p0, p1, r0, r1);
    SamplesSpanCurve(h, step, 10000);
    ChainVisitsSamples(SamplePoints(h, step), 0.0);
  }

  /** add_circle draws a thousand edges, all at the centre's depth. */
  lemma CircleEdges(lib: Libm, centre: (real, real, real), radius: real, step: real, k: nat)
    requires step == 0.001 && k < 1000
    ensures |Chain(SamplePoints(Circle(lib, centre, radius), step), centre.2)| == 1000
    ensures Chain(SamplePoints(Circle(lib, centre, radius), step), centre.2)[k][2] == centre.2
    ensures Chain(SamplePoints(Circle(lib, centre, radius), step), centre.2)[k][5] == centre.2
  {
    SamplesSpanCurve(Circle(lib, centre, radius), step, 1000);
    ChainOnPlane(SamplePoints(Circle(lib, centre, radius), step), centre.2, k);
  }
}
