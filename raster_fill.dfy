// The matrix walkers and the scanline fill of the Canvas trait's default
// methods (src/graphics/canvas/mod.rs): render_edge_matrix draws a line per
// pair of rows, render_polygon_matrix culls each triangle of three rows
// against the view vector and fills the rest with horizontal scanlines.
// The running edge positions are advanced by exact addition here. The
// lighting call get_color_from_norm is a function the caller supplies.
module RasterFill {
  import opened FloatModel
  import opened Colors
  import opened Vector
  import opened GfxVector
  import opened Matrices
  import opened RasterLine
  import opened SeqFacts

  /** The point of row r: its first three columns. */
  function RowPoint(m: Mat, r: nat): Point3
    requires Shaped(m) && r < m.nrows && m.ncols >= 3
  {
    (At(m, r, 0), At(m, r, 1), At(m, r, 2))
  }

  /** iter_by_row as the engine reads it: the first three columns of every row, in order. */
  function Points(m: Mat): (pts: seq<Point3>)
    requires Shaped(m) && (m.nrows > 0 ==> m.ncols >= 3)
    ensures |pts| == m.nrows
    ensures forall r :: 0 <= r < m.nrows ==> pts[r] == RowPoint(m, r)
  {
    seq(m.nrows, r requires 0 <= r < m.nrows => RowPoint(m, r))
  }

  /** The plot calls of an edge list: one line per pair of points, in order; a lone last point draws nothing. */
  function EdgePixels(pts: seq<Point3>, color: RGB): seq<PlotCall>
  {
    if |pts| < 2 then []
    else EdgePixels(pts[..|pts| - 2], color) + LinePixels(pts[|pts| - 2], pts[|pts| - 1], color)
  }

  /**
   * render_edge_matrix: rows are taken two at a time and joined by
   * draw_line, in order. An odd row count panics.
   */
  method RenderEdgeMatrix(c: Canvas, m: Mat, color: RGB)
    requires Shaped(m) && m.nrows % 2 == 0 && (m.nrows > 0 ==> m.ncols >= 3)
    modifies c
    ensures c.plots == old(c.plots) + EdgePixels(Points(m), color)
  {
    DrawEdges(c, Points(m), color);
  }

  /** The loop of render_edge_matrix over the rows' points, two at a time. */
  method DrawEdges(c: Canvas, pts: seq<Point3>, color: RGB)
    requires |pts| % 2 == 0
    modifies c
    ensures c.plots == old(c.plots) + EdgePixels(pts, color)
  {
    ghost var total := |pts| / 2;
    assert |pts| == 2 * total;
    var r := 0;
    ghost var n := 0;
    while r < |pts|
      invariant r == 2 * n && n <= total
      invariant c.plots == old(c.plots) + EdgePixels(pts[..r], color)
    {
      c.DrawLine(pts[r], pts[r + 1], color);
      EdgePixelsAppend(pts[..r], pts[r], pts[r + 1], color);
      TakeTwo(pts, r);
      AppendAssoc(old(c.plots), EdgePixels(pts[..r], color), LinePixels(pts[r], pts[r + 1], color));
      r, n := r + 2, n + 1;
    }
    assert pts[..r] == pts;
  }

  /**
   * Appending the edge p-q to an edge list (add_edge) adds exactly the line
   * from p to q to what the list renders, after everything drawn before.
   */
  lemma EdgePixelsAppend(pts: seq<Point3>, p: Point3, q: Point3, color: RGB)
    ensures EdgePixels(pts + [p, q], color) == EdgePixels(pts, color) + LinePixels(p, q, color)
  {
    var s := pts + [p, q];
    assert s[..|s| - 2] == pts;
  }

  // ---------------------------------------------------------------- scanlines

  /** The column where a scanline starts or stops: `x.ceil() as i64`. */
  function Column64(x: real): int {
    SaturateI64(Ceil(x))
  }

  /** The ends of a scanline, the left one first. */
  function LeftRight(p0: Point3, p1: Point3): (Point3, Point3) {
    if p0.0 > p1.0 then (p1, p0) else (p0, p1)
  }

  /** The depth increment per column; no column is drawn when the ends share x. */
  function ScanZInc(a: Point3, b: Point3): real {
    if b.0 == a.0 then 0.0 else (b.2 - a.2) / (b.0 - a.0)
  }

  /** n columns from xs on, on one row, the depth moving by zinc per column. */
  function ScanRun(xs: int, n: nat, row: int, zstart: real, zinc: real, color: RGB): (px: seq<PlotCall>)
    ensures |px| == n
  {
    seq(n, k requires 0 <= k < n => PlotCall(WrapI32(xs + k), row, ZAt(zstart, zinc, k), color))
  }

  /** The depth at the first drawn column, ceil(xl): the left depth moved on by the part column skipped. */
  function ScanStart(a: Point3, b: Point3): real {
    a.2 + (Ceil(a.0) as real - a.0) * ScanZInc(a, b)
  }

  /**
   * The plot calls of draw_scanline: the columns ceil(xl) up to but not
   * including ceil(xr), on row ceil(y), the depth starting at the value the
   * segment has at ceil(xl).
   */
  function ScanlinePixels(p0: Point3, p1: Point3, color: RGB): (px: seq<PlotCall>)
  {
    var a, b := LeftRight(p0, p1).0, LeftRight(p0, p1).1;
    ScanRun(Column64(a.0), IntMax(Column64(b.0) - Column64(a.0), 0), WrapI32(Column64(a.1)),
            ScanStart(a, b), ScanZInc(a, b), color)
  }

  /**
   * Away from the integer limits, the scanline's pixels are the integer
   * columns x with xl <= x < ceil(xr), in increasing order, all on row
   * ceil(y).
   */
  lemma ScanlineColumns(p0: Point3, p1: Point3, color: RGB, k: nat)
    requires p0.1 == p1.1
    requires I32Min <= Ceil(p0.0) <= I32Max && I32Min <= Ceil(p1.0) <= I32Max
    requires I32Min <= Ceil(p0.1) <= I32Max
    ensures var a, b := LeftRight(p0, p1).0, LeftRight(p0, p1).1;
      |ScanlinePixels(p0, p1, color)| == IntMax(Ceil(b.0) - Ceil(a.0), 0)
      && (k < |ScanlinePixels(p0, p1, color)| ==>
            var p := ScanlinePixels(p0, p1, color)[k];
            p.x == Ceil(a.0) + k && a.0 <= p.x as real && p.x < Ceil(b.0) && p.y == Ceil(p0.1))
  {
    var a, b := LeftRight(p0, p1).0, LeftRight(p0, p1).1;
    assert Column64(a.0) == Ceil(a.0) && Column64(b.0) == Ceil(b.0) && Column64(a.1) == Ceil(p0.1);
    if k < |ScanlinePixels(p0, p1, color)| {
      assert ScanlinePixels(p0, p1, color)[k].x == WrapI32(Ceil(a.0) + k);
    }
  }

  /**
   * Each pixel carries the depth of the segment at its own column: the
   * depth moves along the line through both ends of the scanline.
   */
  lemma ScanlineDepth(p0: Point3, p1: Point3, color: RGB, k: nat)
    requires p0.1 == p1.1
    requires I32Min <= Ceil(p0.0) <= I32Max && I32Min <= Ceil(p1.0) <= I32Max
    requires k < |ScanlinePixels(p0, p1, color)|
    ensures var a, b := LeftRight(p0, p1).0, LeftRight(p0, p1).1;
      var p := ScanlinePixels(p0, p1, color)[k];
      p.z == a.2 + (p.x as real - a.0) * ScanZInc(a, b)
      && ScanZInc(a, b) * (b.0 - a.0) == b.2 - a.2
  {
    var a, b := LeftRight(p0, p1).0, LeftRight(p0, p1).1;
    var zinc := ScanZInc(a, b);
    var off := Ceil(a.0) as real - a.0;
    assert Column64(a.0) == Ceil(a.0) && Column64(b.0) == Ceil(b.0);
    assert k < Ceil(b.0) - Ceil(a.0);
    var p := ScanlinePixels(p0, p1, color)[k];
    assert p.x == Ceil(a.0) + k && p.z == ZAt(ScanStart(a, b), zinc, k);
    DepthAlongRow(a.0, a.2, zinc, Ceil(a.0), k);
    if b.0 != a.0 {
      DivTimes(b.2 - a.2, b.0 - a.0);
    }
  }

  /** Stepping from the first column on k columns gives the depth of the line at that column. */
  lemma DepthAlongRow(x0: real, z0: real, zinc: real, first: int, k: nat)
    ensures ZAt(z0 + (first as real - x0) * zinc, zinc, k) == z0 + ((first + k) as real - x0) * zinc
  {
    var off := first as real - x0;
    assert (off + k as real) * zinc == off * zinc + k as real * zinc;
  }

  /** draw_scanline: asserts a horizontal scanline, orders its ends, and plots its columns. */
  method DrawScanline(c: Canvas, p0: Point3, p1: Point3, color: RGB)
    requires p0.1 == p1.1
    modifies c
    ensures c.plots == old(c.plots) + ScanlinePixels(p0, p1, color)
  {
    var a, b := LeftRight(p0, p1).0, LeftRight(p0, p1).1;
    var row := Column64(a.1);
    var zinc := ScanZInc(a, b);
    var z := ScanStart(a, b);
    var xs, xe := Column64(a.0), Column64(b.0);
    ghost var run := ScanRun(xs, IntMax(xe - xs, 0), WrapI32(row), z, zinc, color);
    assert run == ScanlinePixels(p0, p1, color);
    ghost var zstart := z;
    var x := xs;
    while x < xe
      invariant xs <= x && (x <= xe || x == xs)
      invariant z == ZAt(zstart, zinc, x - xs)
      invariant c.plots == old(c.plots) + run[..x - xs]
    {
      c.Plot(WrapI32(x), WrapI32(row), z, color);
      assert run[..x - xs + 1] == run[..x - xs] + [run[x - xs]];
      NextZ(zstart, zinc, x - xs);
      z := z + zinc;
      x := x + 1;
    }
    assert run[..x - xs] == run;
  }

  // ---------------------------------------------------------------- triangles

  /** The lighting configuration: the view vector and get_color_from_norm. */
  datatype LightConfig = LightConfig(view: Vec3, colorFromNorm: Vec3 -> RGB)

  /** The surface normal (v1 - v0) x (v2 - v0). */
  function Normal(v0: Vec3, v1: Vec3, v2: Vec3): Vec3 {
    Cross(Sub(v1, v0), Sub(v2, v0))
  }

  /** A triangle is drawn when its normal points towards the viewer. */
  predicate Facing(lib: Libm, light: LightConfig, v0: Vec3, v1: Vec3, v2: Vec3) {
    Dot(Normal(v0, v1, v2), Norm(lib, light.view)) > 0.0
  }

  /** The cull test as written, with the graphics tree's dot product. */
  predicate FacingAsWritten(lib: Libm, light: LightConfig, v0: Vec3, v1: Vec3, v2: Vec3) {
    DotAsWritten(Normal(v0, v1, v2), Norm(lib, light.view)) > 0.0
  }

  /**
   * A triangle whose normal (0, 0, -0.5) points away from the viewer on the
   * z axis: the dot as written gives 0.5 and draws it, the dot product gives
   * -0.5 and culls it.
   */
  lemma CullAsWrittenDrawsBackFace(lib: Libm, light: LightConfig, v0: Vec3, v1: Vec3, v2: Vec3)
    requires v0 == Vec3(0.0, 0.0, 0.0) && v1 == Vec3(0.0, 0.5, 0.0) && v2 == Vec3(1.0, 0.0, 0.0)
    requires light.view == Vec3(0.0, 0.0, 1.0) && Mag(lib, light.view) == 1.0
    ensures Normal(v0, v1, v2) == Vec3(0.0, 0.0, -0.5)
    ensures FacingAsWritten(lib, light, v0, v1, v2)
    ensures !Facing(lib, light, v0, v1, v2)
  {
    var n := Normal(v0, v1, v2);
    assert Sub(v1, v0) == v1 && Sub(v2, v0) == v2;
    assert n == Vec3(0.0, 0.0, -0.5);
    var u := Norm(lib, light.view);
    assert u == Div(light.view, 1.0) == light.view;
    assert Dot(n, u) == -0.5;
    assert DotAsWritten(n, u) == 0.5;
  }

  /** sort_by on y, stable: equal heights keep their original order. */
  function Sort3(v0: Vec3, v1: Vec3, v2: Vec3): (r: (Vec3, Vec3, Vec3))
    ensures r.0.y <= r.1.y <= r.2.y
    ensures multiset{r.0, r.1, r.2} == multiset{v0, v1, v2}
  {
    if v0.y <= v1.y then
      if v1.y <= v2.y then (v0, v1, v2)
      else if v0.y <= v2.y then (v0, v2, v1)
      else (v2, v0, v1)
    else
      if v0.y <= v2.y then (v1, v0, v2)
      else if v1.y <= v2.y then (v1, v2, v0)
      else (v2, v1, v0)
  }

  /** A triangle edge as the fill walks it: a position, a depth, and their change per row. */
  datatype Walker = Walker(x: real, z: real, dx: real, dz: real)

  /** The change per unit of y from a to b; no row is walked when they share y. */
  function Slope(a: Vec3, b: Vec3): Vec3 {
    if b.y == a.y then ZEROS else Div(Sub(b, a), b.y - a.y)
  }

  /** The edge from v with slope d, moved up to the first whole row at or above v. */
  function Start(v: Vec3, d: Vec3): Walker {
    var off := Ceil(v.y) as real - v.y;
    Walker(v.x + off * d.x, v.z + off * d.z, d.x, d.z)
  }

  /** The walker n rows further on. */
  function Advance(w: Walker, n: nat): Walker {
    Walker(w.x + n as real * w.dx, w.z + n as real * w.dz, w.dx, w.dz)
  }

  /** Where the walker is on its j-th row, at height y. */
  function WalkerPoint(w: Walker, j: nat, y: int): Point3 {
    (w.x + j as real * w.dx, y as real, w.z + j as real * w.dz)
  }

  /** n scanlines between two walkers, from row y0 up. */
  function Spans(l: Walker, r: Walker, y0: int, n: nat): (s: seq<(Point3, Point3)>)
    ensures |s| == n
    ensures forall j :: 0 <= j < n ==> s[j] == (WalkerPoint(l, j, y0 + j), WalkerPoint(r, j, y0 + j))
    ensures forall j :: 0 <= j < n ==> s[j].0.1 == s[j].1.1 == (y0 + j) as real
  {
    seq(n, j requires 0 <= j < n => (WalkerPoint(l, j, y0 + j), WalkerPoint(r, j, y0 + j)))
  }

  /**
   * The scanlines of a triangle sorted bottom to top. With a flat bottom
   * the two edges to the top vertex bound every row; otherwise the long
   * edge vb-vt is paired with vb-vm below ceil(vm.y) and with vm-vt above.
   */
  function TriangleSpans(vb: Vec3, vm: Vec3, vt: Vec3): (s: seq<(Point3, Point3)>)
    ensures forall j :: 0 <= j < |s| ==> s[j].0.1 == s[j].1.1
  {
    var cb, cm, ct := Column64(vb.y), Column64(vm.y), Column64(vt.y);
    if vb.y == vm.y then
      Spans(Start(vb, Slope(vb, vt)), Start(vm, Slope(vm, vt)), cb, IntMax(ct - cb, 0))
    else
      var long := Start(vb, Slope(vb, vt));
      var n1 := IntMax(cm - cb, 0);
      Spans(long, Start(vb, Slope(vb, vm)), cb, n1)
        + Spans(Advance(long, n1), Start(vm, Slope(vm, vt)), cm, IntMax(ct - cm, 0))
  }

  /** A triangle sorted by height fills exactly the rows ceil(vb.y) up to, not including, ceil(vt.y). */
  lemma TriangleRows(vb: Vec3, vm: Vec3, vt: Vec3, j: nat)
    requires vb.y <= vm.y <= vt.y
    ensures |TriangleSpans(vb, vm, vt)| == IntMax(Column64(vt.y) - Column64(vb.y), 0)
    ensures j < |TriangleSpans(vb, vm, vt)| ==> TriangleSpans(vb, vm, vt)[j].0.1 == (Column64(vb.y) + j) as real
  {
    CeilMonotone(vb.y, vm.y);
    CeilMonotone(vm.y, vt.y);
    SaturateI64Monotone(Ceil(vb.y), Ceil(vm.y));
    SaturateI64Monotone(Ceil(vm.y), Ceil(vt.y));
  }

  /** The plot calls of a run of scanlines, one after the other. */
  function ScanPixels(spans: seq<(Point3, Point3)>, color: RGB): seq<PlotCall>
    requires forall j :: 0 <= j < |spans| ==> spans[j].0.1 == spans[j].1.1
  {
    if |spans| == 0 then []
    else ScanPixels(spans[..|spans| - 1], color) + ScanlinePixels(spans[|spans| - 1].0, spans[|spans| - 1].1, color)
  }

  lemma {:induction false} ScanPixelsAppend(a: seq<(Point3, Point3)>, b: seq<(Point3, Point3)>, color: RGB)
    requires forall j :: 0 <= j < |a| ==> a[j].0.1 == a[j].1.1
    requires forall j :: 0 <= j < |b| ==> b[j].0.1 == b[j].1.1
    ensures ScanPixels(a + b, color) == ScanPixels(a, color) + ScanPixels(b, color)
  {
    if |b| == 0 {
      assert a + b == a;
    } else {
      var b', last := b[..|b| - 1], b[|b| - 1];
      ScanPixelsAppend(a, b', color);
      assert (a + b)[..|a + b| - 1] == a + b';
      assert (a + b)[|a + b| - 1] == last;
      assert forall j :: 0 <= j < |a + b| ==> (a + b)[j] == if j < |a| then a[j] else b[j - |a|];
      var row := ScanlinePixels(last.0, last.1, color);
      assert ScanPixels(a + b, color) == ScanPixels(a + b', color) + row;
      assert ScanPixels(b, color) == ScanPixels(b', color) + row;
      AppendAssoc(ScanPixels(a, color), ScanPixels(b', color), row);
    }
  }

  /** Extending a prefix of the scanlines by one appends that scanline's pixels. */
  lemma ScanPixelsSnoc(spans: seq<(Point3, Point3)>, k: nat, color: RGB)
    requires k < |spans| && forall j :: 0 <= j < |spans| ==> spans[j].0.1 == spans[j].1.1
    ensures ScanPixels(spans[..k + 1], color) == ScanPixels(spans[..k], color) + ScanlinePixels(spans[k].0, spans[k].1, color)
  {
    assert spans[..k + 1][..k] == spans[..k];
    assert spans[..k + 1][k] == spans[k];
  }

  /** Every pixel of a fill has the fill's colour. */
  lemma {:induction false} ScanPixelsColour(spans: seq<(Point3, Point3)>, color: RGB)
    requires forall j :: 0 <= j < |spans| ==> spans[j].0.1 == spans[j].1.1
    ensures forall p :: p in ScanPixels(spans, color) ==> p.color == color
  {
    if |spans| > 0 {
      ScanPixelsColour(spans[..|spans| - 1], color);
    }
  }

  /** The plot calls for one triangle: nothing when culled, else its scanlines in one colour. */
  function TrianglePixels(lib: Libm, light: LightConfig, p0: Point3, p1: Point3, p2: Point3): seq<PlotCall> {
    var v0, v1, v2 := FromPt(p0), FromPt(p1), FromPt(p2);
    if !Facing(lib, light, v0, v1, v2) then []
    else
      var (vb, vm, vt) := Sort3(v0, v1, v2);
      ScanPixels(TriangleSpans(vb, vm, vt), light.colorFromNorm(Normal(v0, v1, v2)))
  }

  /** A culled triangle draws nothing; a drawn one is all in the colour of its normal. */
  lemma TriangleOneColour(lib: Libm, light: LightConfig, p0: Point3, p1: Point3, p2: Point3)
    ensures var v0, v1, v2 := FromPt(p0), FromPt(p1), FromPt(p2);
      (!Facing(lib, light, v0, v1, v2) ==> TrianglePixels(lib, light, p0, p1, p2) == [])
      && forall p :: p in TrianglePixels(lib, light, p0, p1, p2) ==> p.color == light.colorFromNorm(Normal(v0, v1, v2))
  {
    var v0, v1, v2 := FromPt(p0), FromPt(p1), FromPt(p2);
    if Facing(lib, light, v0, v1, v2) {
      var (vb, vm, vt) := Sort3(v0, v1, v2);
      ScanPixelsColour(TriangleSpans(vb, vm, vt), light.colorFromNorm(Normal(v0, v1, v2)));
    }
  }

  /** The plot calls of a polygon list: one triangle per three points, in order; one or two left over draw nothing. */
  function PolygonPixels(lib: Libm, light: LightConfig, pts: seq<Point3>): seq<PlotCall>
  {
    if |pts| < 3 then [] else
      PolygonPixels(lib, light, pts[..|pts| - 3])
      + TrianglePixels(lib, light, pts[|pts| - 3], pts[|pts| - 2], pts[|pts| - 1])
  }

  /**
   * Appending a triangle to a polygon list (add_polygon) adds exactly that
   * triangle's pixels, after everything drawn before.
   */
  lemma PolygonPixelsAppend(lib: Libm, light: LightConfig, pts: seq<Point3>, p0: Point3, p1: Point3, p2: Point3)
    ensures PolygonPixels(lib, light, pts + [p0, p1, p2])
         == PolygonPixels(lib, light, pts) + TrianglePixels(lib, light, p0, p1, p2)
  {
    var s := pts + [p0, p1, p2];
    assert s[..|s| - 3] == pts;
  }

  /**
   * The scanline fill of one sorted triangle, with the running edge
   * positions of the source: x0 and z0 on the long edge throughout, x1 and
   * z1 on the lower short edge, x2 and z2 on the upper one.
   */
  method FillTriangle(c: Canvas, vb: Vec3, vm: Vec3, vt: Vec3, color: RGB)
    requires vb.y <= vm.y <= vt.y
    modifies c
    ensures c.plots == old(c.plots) + ScanPixels(TriangleSpans(vb, vm, vt), color)
  {
    var cb, cm, ct := Column64(vb.y), Column64(vm.y), Column64(vt.y);
    if vb.y == vm.y {
      var d0, d1 := Slope(vb, vt), Slope(vm, vt);
      assert TriangleSpans(vb, vm, vt) == Spans(Start(vb, d0), Start(vm, d1), cb, IntMax(ct - cb, 0));
      SpanLoop(c, Start(vb, d0), Start(vm, d1), cb, ct, color);
    } else {
      var dv, dbottom, dtop := Slope(vb, vt), Slope(vb, vm), Slope(vm, vt);
      var long := Start(vb, dv);
      CeilMonotone(vb.y, vm.y);
      SaturateI64Monotone(Ceil(vb.y), Ceil(vm.y));
      ghost var lower := Spans(long, Start(vb, dbottom), cb, cm - cb);
      ghost var upper := Spans(Advance(long, cm - cb), Start(vm, dtop), cm, IntMax(ct - cm, 0));
      assert TriangleSpans(vb, vm, vt) == lower + upper;
      SpanLoop(c, long, Start(vb, dbottom), cb, cm, color);
      SpanLoop(c, Advance(long, cm - cb), Start(vm, dtop), cm, ct, color);
      ScanPixelsAppend(lower, upper, color);
      AppendAssoc(old(c.plots), ScanPixels(lower, color), ScanPixels(upper, color));
    }
  }

  /**
   * One of the fill's loops: rows y0 up to, not including, y1, the left end
   * on walker l and the right end on walker r, both moved on after each row.
   */
  method SpanLoop(c: Canvas, l: Walker, r: Walker, y0: int, y1: int, color: RGB)
    modifies c
    ensures c.plots == old(c.plots) + ScanPixels(Spans(l, r, y0, IntMax(y1 - y0, 0)), color)
  {
    ghost var spans := Spans(l, r, y0, IntMax(y1 - y0, 0));
    var xa, za, xb, zb := l.x, l.z, r.x, r.z;
    var y := y0;
    while y < y1
      invariant y0 <= y && (y <= y1 || y == y0)
      invariant WalkerPoint(l, y - y0, y) == (xa, y as real, za)
      invariant WalkerPoint(r, y - y0, y) == (xb, y as real, zb)
      invariant c.plots == old(c.plots) + ScanPixels(spans[..y - y0], color)
    {
      ghost var before := c.plots;
      DrawScanline(c, (xa, y as real, za), (xb, y as real, zb), color);
      SpanStep(l, r, y0, y, spans, xa, za, xb, zb, color, old(c.plots), before, c.plots);
      xa, za := xa + l.dx, za + l.dz;
      xb, zb := xb + r.dx, zb + r.dz;
      y := y + 1;
    }
    assert spans[..y - y0] == spans;
  }

  /** One row of a fill loop: the row's scanline extends the plotted prefix, and both walkers move on. */
  lemma SpanStep(l: Walker, r: Walker, y0: int, y: int, spans: seq<(Point3, Point3)>, xa: real, za: real, xb: real, zb: real,
                 color: RGB, base: seq<PlotCall>, before: seq<PlotCall>, after: seq<PlotCall>)
    requires y0 <= y && y - y0 < |spans| && forall j :: 0 <= j < |spans| ==> spans[j] == (WalkerPoint(l, j, y0 + j), WalkerPoint(r, j, y0 + j))
    requires forall j :: 0 <= j < |spans| ==> spans[j].0.1 == spans[j].1.1
    requires WalkerPoint(l, y - y0, y) == (xa, y as real, za) && WalkerPoint(r, y - y0, y) == (xb, y as real, zb)
    requires before == base + ScanPixels(spans[..y - y0], color)
    requires after == before + ScanlinePixels((xa, y as real, za), (xb, y as real, zb), color)
    ensures after == base + ScanPixels(spans[..y - y0 + 1], color)
    ensures WalkerPoint(l, y + 1 - y0, y + 1) == (xa + l.dx, (y + 1) as real, za + l.dz)
    ensures WalkerPoint(r, y + 1 - y0, y + 1) == (xb + r.dx, (y + 1) as real, zb + r.dz)
  {
    assert spans[y - y0] == ((xa, y as real, za), (xb, y as real, zb));
    ScanPixelsSnoc(spans, y - y0, color);
    AppendAssoc(base, ScanPixels(spans[..y - y0], color), ScanlinePixels(spans[y - y0].0, spans[y - y0].1, color));
    WalkerNext(l, y - y0, y);
    WalkerNext(r, y - y0, y);
  }

  lemma WalkerNext(w: Walker, j: nat, y: int)
    ensures WalkerPoint(w, j + 1, y + 1)
         == (WalkerPoint(w, j, y).0 + w.dx, (y + 1) as real, WalkerPoint(w, j, y).2 + w.dz)
  {
    var a, b := WalkerPoint(w, j + 1, y + 1), WalkerPoint(w, j, y);
    assert (j + 1) as real * w.dx == j as real * w.dx + w.dx;
    assert (j + 1) as real * w.dz == j as real * w.dz + w.dz;
    assert a.0 == b.0 + w.dx;
    assert a.2 == b.2 + w.dz;
  }

  /**
   * render_polygon_matrix: rows three at a time; a triangle facing away from
   * the viewer is skipped, any other is filled in the colour the light gives
   * its normal. A row count that is not a multiple of three panics.
   */
  method RenderPolygonMatrix(c: Canvas, m: Mat, lib: Libm, light: LightConfig)
    requires Shaped(m) && m.nrows % 3 == 0 && (m.nrows > 0 ==> m.ncols >= 3)
    modifies c
    ensures c.plots == old(c.plots) + PolygonPixels(lib, light, Points(m))
  {
    DrawPolygons(c, Points(m), lib, light);
  }

  /** The loop of render_polygon_matrix over the rows' points, three at a time. */
  method DrawPolygons(c: Canvas, pts: seq<Point3>, lib: Libm, light: LightConfig)
    requires |pts| % 3 == 0
    modifies c
    ensures c.plots == old(c.plots) + PolygonPixels(lib, light, pts)
  {
    ghost var total := |pts| / 3;
    assert |pts| == 3 * total;
    var r := 0;
    ghost var n := 0;
    while r < |pts|
      invariant r == 3 * n && n <= total
      invariant c.plots == old(c.plots) + PolygonPixels(lib, light, pts[..r])
    {
      ghost var before := c.plots;
      RenderTriangle(c, pts[r], pts[r + 1], pts[r + 2], lib, light);
      PolygonStep(lib, light, pts, r, old(c.plots), before, c.plots);
      r, n := r + 3, n + 1;
    }
    assert pts[..r] == pts;
  }

  lemma PolygonStep(lib: Libm, light: LightConfig, pts: seq<Point3>, r: nat,
                    start: seq<PlotCall>, before: seq<PlotCall>, after: seq<PlotCall>)
    requires r + 3 <= |pts|
    requires before == start + PolygonPixels(lib, light, pts[..r])
    requires after == before + TrianglePixels(lib, light, pts[r], pts[r + 1], pts[r + 2])
    ensures after == start + PolygonPixels(lib, light, pts[..r + 3])
  {
    PolygonPixelsAppend(lib, light, pts[..r], pts[r], pts[r + 1], pts[r + 2]);
    TakeThree(pts, r);
    AppendAssoc(start, PolygonPixels(lib, light, pts[..r]), TrianglePixels(lib, light, pts[r], pts[r + 1], pts[r + 2]));
  }

  /** One pass of render_polygon_matrix's loop: cull the triangle or fill it in the colour of its normal. */
  method RenderTriangle(c: Canvas, p0: Point3, p1: Point3, p2: Point3, lib: Libm, light: LightConfig)
    modifies c
    ensures c.plots == old(c.plots) + TrianglePixels(lib, light, p0, p1, p2)
  {
    var v0, v1, v2 := FromPt(p0), FromPt(p1), FromPt(p2);
    var normal := Normal(v0, v1, v2);
    var viewn := Norm(lib, light.view);
    if Dot(normal, viewn) > 0.0 {
      var color := light.colorFromNorm(normal);
      var (vb, vm, vt) := Sort3(v0, v1, v2);
      FillTriangle(c, vb, vm, vt, color);
    }
  }
}
