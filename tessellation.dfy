// Polygon matrices and the shape tessellators of the library tree
// (src/matrix/dim3.rs). A polygon matrix has four columns and every three
// consecutive rows are the vertices of one triangle, each as [x, y, z, 1].
// The library's Matrix type is the same row-major matrix as the graphics
// tree's, so it is the Matrices.Matrix class here.
module Tessellation {
  import opened FloatModel
  import opened Matrices
  import opened Vector

  /** Three vertices, in the order append_polygon receives them. */
  datatype Triangle = Triangle(a: Vec3, b: Vec3, c: Vec3)

  /** A triangle given by the positions of its vertices in a point list. */
  datatype Face = Face(i: nat, j: nat, k: nat)

  /** The twelve values append_polygon pushes: each vertex followed by w = 1. */
  function PolygonRows(t: Triangle): (rows: seq<real>)
    ensures |rows| == 12
  {
    [t.a.x, t.a.y, t.a.z, 1.0, t.b.x, t.b.y, t.b.z, 1.0, t.c.x, t.c.y, t.c.z, 1.0]
  }

  /** The values pushed for a sequence of triangles, in order. */
  function TrianglesRows(ts: seq<Triangle>): (rows: seq<real>)
    ensures |rows| == 12 * |ts|
  {
    if |ts| == 0 then [] else TrianglesRows(ts[..|ts| - 1]) + PolygonRows(ts[|ts| - 1])
  }

  /** The value a matrix reaches from `m` by appending the given triangles in order. */
  function TrianglesAppended(m: Mat, ts: seq<Triangle>): Mat {
    Mat(m.nrows + 3 * |ts|, m.ncols, m.data + TrianglesRows(ts))
  }

  /** The value after one append_polygon. */
  function PolygonAppended(m: Mat, t: Triangle): Mat {
    Mat(m.nrows + 3, m.ncols, m.data + PolygonRows(t))
  }

  /** One append_polygon appends a run of one triangle. */
  lemma PolygonAppendedIsRun(m: Mat, t: Triangle)
    ensures PolygonAppended(m, t) == TrianglesAppended(m, [t])
  {
    assert [t][..0] == [];
  }

  /** new_polygon_matrix: no rows, four columns, no data. */
  method NewPolygonMatrix() returns (m: Matrix)
    ensures fresh(m) && m.Valid() && m.Value() == Mat(0, 4, [])
  {
    m := new Matrix(0, 4, []);
  }

  /** append_polygon: three rows, in the order given, each with w = 1. */
  method AppendPolygon(m: Matrix, p0: Vec3, p1: Vec3, p2: Vec3)
    modifies m
    ensures m.Value() == PolygonAppended(old(m.Value()), Triangle(p0, p1, p2))
    ensures old(m.Valid()) && m.ncols == 4 ==> m.Valid()
  {
    m.data := m.data + [p0.x, p0.y, p0.z, 1.0, p1.x, p1.y, p1.z, 1.0, p2.x, p2.y, p2.z, 1.0];
    m.nrows := m.nrows + 3;
  }

  /** The rows pushed for two runs of triangles are those of the whole run. */
  lemma {:induction false} TrianglesRowsConcat(ts: seq<Triangle>, us: seq<Triangle>)
    ensures TrianglesRows(ts + us) == TrianglesRows(ts) + TrianglesRows(us)
  {
    if |us| == 0 {
      assert ts + us == ts;
    } else {
      var front := us[..|us| - 1];
      TrianglesRowsConcat(ts, front);
      assert (ts + us)[..|ts + us| - 1] == ts + front;
      assert (ts + us)[|ts + us| - 1] == us[|us| - 1];
    }
  }

  /** Appending two runs of triangles one after the other appends the whole run. */
  lemma AppendedConcat(m: Mat, ts: seq<Triangle>, us: seq<Triangle>)
    ensures TrianglesAppended(TrianglesAppended(m, ts), us) == TrianglesAppended(m, ts + us)
  {
    TrianglesRowsConcat(ts, us);
  }

  /** Appending triangle k after the first k of a run appends the first k + 1. */
  lemma AppendNext(m: Mat, ts: seq<Triangle>, k: nat)
    requires k < |ts|
    ensures TrianglesAppended(TrianglesAppended(m, ts[..k]), [ts[k]]) == TrianglesAppended(m, ts[..k + 1])
  {
    AppendedConcat(m, ts[..k], [ts[k]]);
    assert ts[..k] + [ts[k]] == ts[..k + 1];
  }

  /** Twelve single appends, one per triangle of a twelve-triangle run, append the run. */
  lemma TwelveAppends(m: Mat, ts: seq<Triangle>, t0: Triangle, t1: Triangle, t2: Triangle, t3: Triangle, t4: Triangle, t5: Triangle, t6: Triangle, t7: Triangle, t8: Triangle, t9: Triangle, t10: Triangle, t11: Triangle)
    requires ts == [t0, t1, t2, t3, t4, t5, t6, t7, t8, t9, t10, t11]
    ensures PolygonAppended(PolygonAppended(PolygonAppended(PolygonAppended(PolygonAppended(PolygonAppended(PolygonAppended(PolygonAppended(PolygonAppended(PolygonAppended(PolygonAppended(PolygonAppended(m, t0), t1), t2), t3), t4), t5), t6), t7), t8), t9), t10), t11)
         == TrianglesAppended(m, ts)
  {
    assert m == TrianglesAppended(m, ts[..0]);
    PolygonAppendedIsRun(TrianglesAppended(m, ts[..0]), ts[0]);
    AppendNext(m, ts, 0);
    PolygonAppendedIsRun(TrianglesAppended(m, ts[..1]), ts[1]);
    AppendNext(m, ts, 1);
    PolygonAppendedIsRun(TrianglesAppended(m, ts[..2]), ts[2]);
    AppendNext(m, ts, 2);
    PolygonAppendedIsRun(TrianglesAppended(m, ts[..3]), ts[3]);
    AppendNext(m, ts, 3);
    PolygonAppendedIsRun(TrianglesAppended(m, ts[..4]), ts[4]);
    AppendNext(m, ts, 4);
    PolygonAppendedIsRun(TrianglesAppended(m, ts[..5]), ts[5]);
    AppendNext(m, ts, 5);
    PolygonAppendedIsRun(TrianglesAppended(m, ts[..6]), ts[6]);
    AppendNext(m, ts, 6);
    PolygonAppendedIsRun(TrianglesAppended(m, ts[..7]), ts[7]);
    AppendNext(m, ts, 7);
    PolygonAppendedIsRun(TrianglesAppended(m, ts[..8]), ts[8]);
    AppendNext(m, ts, 8);
    PolygonAppendedIsRun(TrianglesAppended(m, ts[..9]), ts[9]);
    AppendNext(m, ts, 9);
    PolygonAppendedIsRun(TrianglesAppended(m, ts[..10]), ts[10]);
    AppendNext(m, ts, 10);
    PolygonAppendedIsRun(TrianglesAppended(m, ts[..11]), ts[11]);
    AppendNext(m, ts, 11);
    assert ts[..12] == ts;
  }

  /**
   * Appending triangles to a well-shaped four-column matrix adds three rows
   * per triangle, keeps it well shaped and leaves the rows already present
   * as they were.
   */
  lemma TrianglesAppendedShape(m: Mat, ts: seq<Triangle>)
    requires Shaped(m) && m.ncols == 4
    ensures Shaped(TrianglesAppended(m, ts)) && TrianglesAppended(m, ts).ncols == 4
    ensures TrianglesAppended(m, ts).nrows == m.nrows + 3 * |ts|
    ensures TrianglesAppended(m, ts).data[..|m.data|] == m.data
  {
  }

  /** Triangle k of the run occupies rows nrows + 3k .. nrows + 3k + 2 of the result. */
  lemma TriangleRowsAt(m: Mat, ts: seq<Triangle>, k: nat)
    requires k < |ts|
    ensures |m.data| + 12 * k + 12 <= |TrianglesAppended(m, ts).data|
    ensures TrianglesAppended(m, ts).data[|m.data| + 12 * k .. |m.data| + 12 * k + 12] == PolygonRows(ts[k])
  {
    var before, rest := ts[..k], ts[k + 1..];
    assert ts == before + [ts[k]] + rest;
    TrianglesRowsConcat(before + [ts[k]], rest);
    TrianglesRowsConcat(before, [ts[k]]);
    assert [ts[k]][..0] == [];
    var a, b, c := m.data + TrianglesRows(before), PolygonRows(ts[k]), TrianglesRows(rest);
    assert TrianglesAppended(m, ts).data == a + b + c;
    MiddleSlice(a, b, c);
  }

  lemma MiddleSlice(a: seq<real>, b: seq<real>, c: seq<real>)
    ensures (a + b + c)[|a|..|a| + |b|] == b
  {
  }

  // ---------------------------------------------------------------- box

  /** One of the eight corners {x, x + dx} x {y, y - dy} x {z, z - dz}. */
  predicate IsBoxCorner(p: Vec3, corner: Vec3, dx: real, dy: real, dz: real) {
    (p.x == corner.x || p.x == corner.x + dx)
    && (p.y == corner.y || p.y == corner.y - dy)
    && (p.z == corner.z || p.z == corner.z - dz)
  }

  /**
   * The twelve triangles add_box appends: front, right, back, left, top and
   * bottom, two per face, over the corners p1 .. p8.
   */
  function BoxTriangles(corner: Vec3, dx: real, dy: real, dz: real): (ts: seq<Triangle>)
    ensures |ts| == 12
  {
    var (x, y, z) := (corner.x, corner.y, corner.z);
    var p1, p2, p3, p4 := Vec3(x, y, z), Vec3(x, y - dy, z), Vec3(x + dx, y, z), Vec3(x + dx, y - dy, z);
    var p5, p6, p7, p8 := Vec3(x, y, z - dz), Vec3(x, y - dy, z - dz), Vec3(x + dx, y, z - dz), Vec3(x + dx, y - dy, z - dz);
    [Triangle(p1, p2, p3), Triangle(p3, p2, p4),
     Triangle(p3, p4, p8), Triangle(p3, p8, p7),
     Triangle(p7, p8, p6), Triangle(p7, p6, p5),
     Triangle(p5, p6, p2), Triangle(p5, p2, p1),
     Triangle(p7, p1, p3), Triangle(p7, p5, p1),
     Triangle(p6, p4, p2), Triangle(p6, p8, p4)]
  }

  /** add_box: twelve append_polygon calls, 36 rows, whatever the signs of dx, dy, dz. */
  method AddBox(m: Matrix, corner: Vec3, dx: real, dy: real, dz: real)
    modifies m
    ensures m.Value() == TrianglesAppended(old(m.Value()), BoxTriangles(corner, dx, dy, dz))
    ensures old(m.Valid()) && m.ncols == 4 ==> m.Valid()
  {
    var (x, y, z) := (corner.x, corner.y, corner.z);
    var p1 := Vec3(x, y, z);
    var p2 := Vec3(x, y - dy, z);
    var p3 := Vec3(x + dx, y, z);
    var p4 := Vec3(x + dx, y - dy, z);
    var p5 := Vec3(x, y, z - dz);
    var p6 := Vec3(x, y - dy, z - dz);
    var p7 := Vec3(x + dx, y, z - dz);
    var p8 := Vec3(x + dx, y - dy, z - dz);
    ghost var m0 := m.Value();
    ghost var ts := BoxTriangles(corner, dx, dy, dz);
    // front
    AppendPolygon(m, p1, p2, p3);
    AppendPolygon(m, p3, p2, p4);
    // right
    AppendPolygon(m, p3, p4, p8);
    AppendPolygon(m, p3, p8, p7);
    // back
    AppendPolygon(m, p7, p8, p6);
    AppendPolygon(m, p7, p6, p5);
    // left
    AppendPolygon(m, p5, p6, p2);
    AppendPolygon(m, p5, p2, p1);
    // top
    AppendPolygon(m, p7, p1, p3);
    AppendPolygon(m, p7, p5, p1);
    // bottom
    AppendPolygon(m, p6, p4, p2);
    AppendPolygon(m, p6, p8, p4);
    TwelveAppends(m0, ts,
      Triangle(p1, p2, p3),
      Triangle(p3, p2, p4),
      Triangle(p3, p4, p8),
      Triangle(p3, p8, p7),
      Triangle(p7, p8, p6),
      Triangle(p7, p6, p5),
      Triangle(p5, p6, p2),
      Triangle(p5, p2, p1),
      Triangle(p7, p1, p3),
      Triangle(p7, p5, p1),
      Triangle(p6, p4, p2),
      Triangle(p6, p8, p4));
  }

  /** Every vertex add_box appends is one of the box's eight corners. */
  lemma BoxVerticesAreCorners(corner: Vec3, dx: real, dy: real, dz: real, k: nat)
    requires k < 12
    ensures IsBoxCorner(BoxTriangles(corner, dx, dy, dz)[k].a, corner, dx, dy, dz)
    ensures IsBoxCorner(BoxTriangles(corner, dx, dy, dz)[k].b, corner, dx, dy, dz)
    ensures IsBoxCorner(BoxTriangles(corner, dx, dy, dz)[k].c, corner, dx, dy, dz)
  {
  }

  /** The normal of a triangle by the right-hand rule over its vertex order. */
  function Normal(t: Triangle): Vec3 {
    Cross(Sub(t.b, t.a), Sub(t.c, t.a))
  }

  /** The centre of the box add_box spans. */
  function BoxCentre(corner: Vec3, dx: real, dy: real, dz: real): Vec3 {
    Vec3(corner.x + dx / 2.0, corner.y - dy / 2.0, corner.z - dz / 2.0)
  }

  /**
   * For a box of positive extent, every triangle add_box appends is wound
   * counter-clockwise seen from outside: its normal points away from the
   * centre of the box.
   */
  lemma BoxFacesOutward(corner: Vec3, dx: real, dy: real, dz: real, k: nat)
    requires dx > 0.0 && dy > 0.0 && dz > 0.0 && k < 12
    ensures Dot(Normal(BoxTriangles(corner, dx, dy, dz)[k]),
                Sub(BoxTriangles(corner, dx, dy, dz)[k].a, BoxCentre(corner, dx, dy, dz))) > 0.0
  {
    var t := BoxTriangles(corner, dx, dy, dz)[k];
    var n := Normal(t);
    var d := Sub(t.a, BoxCentre(corner, dx, dy, dz));
    var v := dx * dy * dz / 2.0;
    assert dx * dy > 0.0 && dy * dz > 0.0 && dx * dz > 0.0;
    assert v > 0.0;
    assert Dot(n, d) == v;
  }

  // ------------------------------------------------------ sphere and torus

  /** Every face names a point of a list of `count` points. */
  predicate FacesWithin(fs: seq<Face>, count: nat) {
    forall n :: 0 <= n < |fs| ==> fs[n].i < count && fs[n].j < count && fs[n].k < count
  }

  /** No face names the same point twice. */
  predicate FacesDistinct(fs: seq<Face>) {
    forall n :: 0 <= n < |fs| ==> fs[n].i != fs[n].j && fs[n].j != fs[n].k && fs[n].i != fs[n].k
  }

  /** Both properties carry over to a concatenation. */
  lemma FacesConcat(fs: seq<Face>, gs: seq<Face>, count: nat)
    requires FacesWithin(fs, count) && FacesDistinct(fs) && FacesWithin(gs, count) && FacesDistinct(gs)
    ensures FacesWithin(fs + gs, count) && FacesDistinct(fs + gs)
  {
    assert forall k :: 0 <= k < |fs + gs| ==> (fs + gs)[k] == if k < |fs| then fs[k] else gs[k - |fs|];
  }

  /** The triangles the faces name in a point list. */
  function Resolve(ps: seq<Vec3>, fs: seq<Face>): (ts: seq<Triangle>)
    requires FacesWithin(fs, |ps|)
    ensures |ts| == |fs|
  {
    seq(|fs|, n requires 0 <= n < |fs| => Triangle(ps[fs[n].i], ps[fs[n].j], ps[fs[n].k]))
  }

  /** Resolving two runs of faces resolves each run in turn. */
  lemma ResolveConcat(ps: seq<Vec3>, fs: seq<Face>, gs: seq<Face>)
    requires FacesWithin(fs, |ps|) && FacesWithin(gs, |ps|)
    ensures FacesWithin(fs + gs, |ps|)
    ensures Resolve(ps, fs + gs) == Resolve(ps, fs) + Resolve(ps, gs)
  {
    assert forall n :: 0 <= n < |fs + gs| ==> (fs + gs)[n] == if n < |fs| then fs[n] else gs[n - |fs|];
  }

  /** Two append_polygon calls append a run of two triangles. */
  lemma TwoAppends(m: Mat, t0: Triangle, t1: Triangle)
    ensures PolygonAppended(PolygonAppended(m, t0), t1) == TrianglesAppended(m, [t0, t1])
  {
    PolygonAppendedIsRun(m, t0);
    PolygonAppendedIsRun(TrianglesAppended(m, [t0]), t1);
    AppendedConcat(m, [t0], [t1]);
    assert [t0] + [t1] == [t0, t1];
  }

  /**
   * Point (rot, cir) of add_sphere: meridian rot at rot * 360 / 24 degrees,
   * position cir at cir * 180 / 24 degrees along the half circle.
   */
  function SpherePoint(lib: Libm, centre: Vec3, radius: real, rot: nat, cir: nat): Vec3 {
    var rotc := rot as real * 2.0 * 180.0 / 24.0;
    var circ := cir as real * 180.0 / 24.0;
    Vec3(radius * lib.cosDeg(circ) + centre.x,
         radius * lib.sinDeg(circ) * lib.cosDeg(rotc) + centre.y,
         radius * lib.sinDeg(circ) * lib.sinDeg(rotc) + centre.z)
  }

  /** Entry k of add_sphere's point list: meridian k / 25, position k % 25. */
  function SpherePointAt(lib: Libm, centre: Vec3, radius: real, k: nat): Vec3 {
    var (rot, cir) := IndexToRc(k, 25);
    SpherePoint(lib, centre, radius, rot, cir)
  }

  /** The 24 x 25 points add_sphere samples, meridian by meridian. */
  function SpherePoints(lib: Libm, centre: Vec3, radius: real): (ps: seq<Vec3>)
    ensures |ps| == 600
  {
    seq(600, k requires 0 <= k < 600 => SpherePointAt(lib, centre, radius, k))
  }

  /** The point list holds point (rot, cir) at rot * 25 + cir. */
  lemma SpherePointsLayout(lib: Libm, centre: Vec3, radius: real, rot: nat, cir: nat)
    requires rot < 24 && cir < 25
    ensures Index(25, rot, cir) < |SpherePoints(lib, centre, radius)|
    ensures SpherePoints(lib, centre, radius)[Index(25, rot, cir)] == SpherePoint(lib, centre, radius, rot, cir)
  {
    IndexInRange(24, 25, rot, cir);
    RcOfIndex(25, rot, cir);
  }

  /**
   * The faces add_sphere emits for point i of its 600: one at the start of a
   * half circle, none at its end, two anywhere else.
   */
  function SphereFacesAt(i: nat): seq<Face> {
    var rem := i % 25;
    if rem == 0 then [Face(i, i + 1, (i + 26) % 600)]
    else if rem != 24 then [Face(i, i + 1, (i + 26) % 600), Face(i, (i + 26) % 600, (i + 25) % 600)]
    else []
  }

  /** The faces emitted for the first n points, in order. */
  function SphereFaces(n: nat): seq<Face> {
    if n == 0 then [] else SphereFaces(n - 1) + SphereFacesAt(n - 1)
  }

  /**
   * The faces of a sphere point name three different points of the 600, and
   * i + 1, which is not reduced, is used only where it stays in range.
   */
  lemma SphereFacesAtWellFormed(i: nat)
    requires i < 600
    ensures FacesWithin(SphereFacesAt(i), 600) && FacesDistinct(SphereFacesAt(i))
    ensures i % 25 != 24 ==> i + 1 < 600
  {
    var q, r := i / 25, i % 25;
    assert i == 25 * q + r;
    assert q < 24;
  }

  /** Every face of a whole sphere is in range and names three different points. */
  lemma {:induction false} SphereFacesWellFormed(n: nat)
    requires n <= 600
    ensures FacesWithin(SphereFaces(n), 600) && FacesDistinct(SphereFaces(n))
  {
    if n > 0 {
      SphereFacesWellFormed(n - 1);
      SphereFacesAtWellFormed(n - 1);
      var fs, gs := SphereFaces(n - 1), SphereFacesAt(n - 1);
      assert forall k :: 0 <= k < |fs + gs| ==> (fs + gs)[k] == if k < |fs| then fs[k] else gs[k - |fs|];
    }
  }

  /**
   * The faces of the first n points: 47 per completed half circle (1 + 2 * 23),
   * and 2r - 1 for the first r > 0 points of the next.
   */
  lemma {:induction false} SphereFaceCount(n: nat)
    ensures |SphereFaces(n)| == 47 * (n / 25) + (if n % 25 == 0 then 0 else 2 * (n % 25) - 1)
  {
    if n > 0 {
      SphereFaceCount(n - 1);
      var q, r := (n - 1) / 25, (n - 1) % 25;
      assert n - 1 == 25 * q + r;
      if r == 24 {
        DivModUnique(n, 25, q + 1, 0);
      } else {
        DivModUnique(n, 25, q, r + 1);
      }
    }
  }

  /** The triangles add_sphere appends for its point list. */
  function SphereMesh(lib: Libm, centre: Vec3, radius: real): seq<Triangle> {
    var ps := SpherePoints(lib, centre, radius);
    SphereFacesWellFormed(|ps|);
    Resolve(ps, SphereFaces(|ps|))
  }

  /** add_sphere appends 1128 triangles (24 half circles of 47), 3384 rows. */
  lemma SphereTriangleCount(lib: Libm, centre: Vec3, radius: real)
    ensures |SphereMesh(lib, centre, radius)| == 1128
  {
    SphereFaceCount(|SpherePoints(lib, centre, radius)|);
  }

  /** The last half circle closes onto the first: its third vertex wraps to meridian 0. */
  lemma SphereSeam(i: nat)
    requires 575 <= i < 599 && i % 25 != 24
    ensures SphereFacesAt(i)[0].k == i - 574 && SphereFacesAt(i)[0].k < 25
  {
  }

  /** The first half of add_sphere: 24 half circles of 25 points, meridian by meridian. */
  method SampleSphere(lib: Libm, centre: Vec3, radius: real) returns (points: seq<Vec3>)
    ensures points == SpherePoints(lib, centre, radius)
  {
    var steps := 24;
    points := [];
    var rot := 0;
    while rot < steps
      invariant 0 <= rot <= 24 && |points| == 25 * rot
      invariant forall k :: 0 <= k < |points| ==> points[k] == SpherePointAt(lib, centre, radius, k)
    {
      var rotc := rot as real * 2.0 * 180.0 / 24.0;
      var cir := 0;
      while cir <= steps
        invariant 0 <= cir <= 25 && |points| == 25 * rot + cir
        invariant forall k :: 0 <= k < |points| ==> points[k] == SpherePointAt(lib, centre, radius, k)
      {
        var circ := cir as real * 180.0 / 24.0;
        var x := radius * lib.cosDeg(circ) + centre.x;
        var y := radius * lib.sinDeg(circ) * lib.cosDeg(rotc) + centre.y;
        var z := radius * lib.sinDeg(circ) * lib.sinDeg(rotc) + centre.z;
        RcOfIndex(25, rot, cir);
        points := points + [Vec3(x, y, z)];
        cir := cir + 1;
      }
      rot := rot + 1;
    }
  }

  /** The triangles of sphere point i, resolved in a list of 600 points. */
  lemma SphereFacesAtResolved(ps: seq<Vec3>, i: nat)
    requires |ps| == 600 && i < 600
    ensures FacesWithin(SphereFacesAt(i), 600) && (i % 25 != 24 ==> i + 1 < 600)
    ensures i % 25 == 0 ==>
      Resolve(ps, SphereFacesAt(i)) == [Triangle(ps[i], ps[i + 1], ps[(i + 26) % 600])]
    ensures i % 25 != 0 && i % 25 != 24 ==>
      Resolve(ps, SphereFacesAt(i))
      == [Triangle(ps[i], ps[i + 1], ps[(i + 26) % 600]), Triangle(ps[i], ps[(i + 26) % 600], ps[(i + 25) % 600])]
    ensures i % 25 == 24 ==> Resolve(ps, SphereFacesAt(i)) == []
  {
    SphereFacesAtWellFormed(i);
  }

  /** One pass of add_sphere's walk: the triangles of point i, appended. */
  method AppendSphereFacesAt(m: Matrix, points: seq<Vec3>, i: nat)
    requires |points| == 600 && i < 600
    modifies m
    ensures m.Value() == TrianglesAppended(old(m.Value()), Resolve(points, SphereFacesAt(i)))
    ensures old(m.Valid()) && m.ncols == 4 ==> m.Valid()
  {
    var pps := 25;
    var rem := i % pps;
    SphereFacesAtResolved(points, i);
    ghost var before := m.Value();
    if rem == 0 {
      AppendPolygon(m, points[i], points[i + 1], points[(i + pps + 1) % |points|]);
      PolygonAppendedIsRun(before, Triangle(points[i], points[i + 1], points[(i + pps + 1) % |points|]));
    } else if rem != pps - 1 {
      var index := (i + pps + 1) % |points|;
      AppendPolygon(m, points[i], points[i + 1], points[index]);
      AppendPolygon(m, points[i], points[index], points[(i + pps) % |points|]);
      TwoAppends(before, Triangle(points[i], points[i + 1], points[index]),
        Triangle(points[i], points[index], points[(i + pps) % |points|]));
    } else {
      assert [] == Resolve(points, SphereFacesAt(i));
      assert TrianglesAppended(before, []) == before;
    }
  }

  /**
   * add_sphere: samples the points, then walks them appending the triangles
   * of each.
   */
  method AddSphere(m: Matrix, lib: Libm, centre: Vec3, radius: real)
    modifies m
    ensures m.Value() == TrianglesAppended(old(m.Value()), SphereMesh(lib, centre, radius))
    ensures old(m.Valid()) && m.ncols == 4 ==> m.Valid()
  {
    var points := SampleSphere(lib, centre, radius);
    ghost var m0 := m.Value();
    var i := 0;
    while i < |points|
      invariant 0 <= i <= |points| && points == SpherePoints(lib, centre, radius)
      invariant FacesWithin(SphereFaces(i), |points|)
      invariant m.Value() == TrianglesAppended(m0, Resolve(points, SphereFaces(i)))
      invariant old(m.Valid()) && m0.ncols == 4 ==> m.Valid()
    {
      SphereFacesAtResolved(points, i);
      AppendSphereFacesAt(m, points, i);
      ResolveConcat(points, SphereFaces(i), SphereFacesAt(i));
      AppendedConcat(m0, Resolve(points, SphereFaces(i)), Resolve(points, SphereFacesAt(i)));
      i := i + 1;
    }

  }

  /**
   * Point (t, c) of add_torus: cross-section angle t * 360 / 30 degrees,
   * revolution angle c * 360 / 30 degrees; radius1 is the tube's radius and
   * radius2 the distance from the centre to the tube.
   */
  function TorusPoint(lib: Libm, centre: Vec3, radius1: real, radius2: real, t: nat, c: nat): Vec3 {
    var torusAngle := t as real * 2.0 * 180.0 / 30.0;
    var circAngle := c as real * 2.0 * 180.0 / 30.0;
    var reach := radius1 * lib.cosDeg(torusAngle) + radius2;
    Vec3(lib.cosDeg(circAngle) * reach + centre.x,
         radius1 * lib.sinDeg(torusAngle) + centre.y,
         -lib.sinDeg(circAngle) * reach + centre.z)
  }

  /** Entry k of add_torus's point list: cross-section angle k / 31, revolution angle k % 31. */
  function TorusPointAt(lib: Libm, centre: Vec3, radius1: real, radius2: real, k: nat): Vec3 {
    var (t, c) := IndexToRc(k, 31);
    TorusPoint(lib, centre, radius1, radius2, t, c)
  }

  /** The 30 x 31 points add_torus samples. */
  function TorusPoints(lib: Libm, centre: Vec3, radius1: real, radius2: real): (ps: seq<Vec3>)
    ensures |ps| == 930
  {
    seq(930, k requires 0 <= k < 930 => TorusPointAt(lib, centre, radius1, radius2, k))
  }

  /** The point list holds point (t, c) at t * 31 + c. */
  lemma TorusPointsLayout(lib: Libm, centre: Vec3, radius1: real, radius2: real, t: nat, c: nat)
    requires t < 30 && c < 31
    ensures Index(31, t, c) < |TorusPoints(lib, centre, radius1, radius2)|
    ensures TorusPoints(lib, centre, radius1, radius2)[Index(31, t, c)] == TorusPoint(lib, centre, radius1, radius2, t, c)
  {
    IndexInRange(30, 31, t, c);
    RcOfIndex(31, t, c);
  }

  /** The two faces add_torus emits for point i of its 930; every index wraps. */
  function TorusFacesAt(i: nat): seq<Face> {
    [Face(i, (i + 1) % 930, (i + 31) % 930), Face(i, (i + 31) % 930, (i + 30) % 930)]
  }

  /** The faces emitted for the first n points, in order. */
  function TorusFaces(n: nat): seq<Face> {
    if n == 0 then [] else TorusFaces(n - 1) + TorusFacesAt(n - 1)
  }

  /** The faces of the first n points: exactly two per point. */
  lemma {:induction false} TorusFaceCount(n: nat)
    ensures |TorusFaces(n)| == 2 * n
  {
    if n > 0 {
      TorusFaceCount(n - 1);
    }
  }

  /** Every face of a whole torus is in range and names three different points. */
  lemma {:induction false} TorusFacesWellFormed(n: nat)
    requires n <= 930
    ensures FacesWithin(TorusFaces(n), 930) && FacesDistinct(TorusFaces(n))
  {
    if n > 0 {
      TorusFacesWellFormed(n - 1);
      TorusFacesAtWellFormed(n - 1);
      FacesConcat(TorusFaces(n - 1), TorusFacesAt(n - 1), 930);
    }
  }

  /** The two faces of torus point i are in range and name three different points each. */
  lemma TorusFacesAtWellFormed(i: nat)
    requires i < 930
    ensures FacesWithin(TorusFacesAt(i), 930) && FacesDistinct(TorusFacesAt(i))
  {
  }

  /** The triangles add_torus appends for its point list. */
  function TorusMesh(lib: Libm, centre: Vec3, radius1: real, radius2: real): seq<Triangle> {
    var ps := TorusPoints(lib, centre, radius1, radius2);
    TorusFacesWellFormed(|ps|);
    Resolve(ps, TorusFaces(|ps|))
  }

  /** add_torus appends 1860 triangles, two per point, 5580 rows. */
  lemma TorusTriangleCount(lib: Libm, centre: Vec3, radius1: real, radius2: real)
    ensures |TorusMesh(lib, centre, radius1, radius2)| == 1860
  {
    TorusFaceCount(|TorusPoints(lib, centre, radius1, radius2)|);
  }

  /** The last ring closes onto the first: from point 899 on, i + 31 wraps to the start. */
  lemma TorusSeam(i: nat)
    requires 899 <= i < 930
    ensures TorusFacesAt(i)[0].k == i - 899
  {
  }

  /** Entry t * 31 + c of the point list is point (t, c). */
  lemma TorusPointAtRc(lib: Libm, centre: Vec3, radius1: real, radius2: real, t: nat, c: nat)
    requires c < 31
    ensures TorusPointAt(lib, centre, radius1, radius2, 31 * t + c) == TorusPoint(lib, centre, radius1, radius2, t, c)
  {
    RcOfIndex(31, t, c);
    assert IndexToRc(31 * t + c, 31) == (t, c);
  }

  /** One point of add_torus's sampling loop, at revolution step c of the ring at torusAngle. */
  method SampleTorusPoint(lib: Libm, centre: Vec3, radius1: real, radius2: real, torusAngle: real, ghost t: nat, c: nat)
    returns (p: Vec3)
    requires torusAngle == t as real * 2.0 * 180.0 / 30.0
    ensures p == TorusPoint(lib, centre, radius1, radius2, t, c)
  {
    var circAngle := c as real * 2.0 * 180.0 / 30.0;
    var x := lib.cosDeg(circAngle) * (radius1 * lib.cosDeg(torusAngle) + radius2) + centre.x;
    var y := radius1 * lib.sinDeg(torusAngle) + centre.y;
    var z := -lib.sinDeg(circAngle) * (radius1 * lib.cosDeg(torusAngle) + radius2) + centre.z;
    p := Vec3(x, y, z);
  }

  /** The first half of add_torus: 30 rings of 31 points. */
  method SampleTorus(lib: Libm, centre: Vec3, radius1: real, radius2: real) returns (points: seq<Vec3>)
    ensures points == TorusPoints(lib, centre, radius1, radius2)
  {
    var steps := 30;
    points := [];
    var t := 0;
    while t < steps
      invariant 0 <= t <= 30 && |points| == 31 * t
      invariant forall k :: 0 <= k < |points| ==> points[k] == TorusPointAt(lib, centre, radius1, radius2, k)
    {
      var torusAngle := t as real * 2.0 * 180.0 / 30.0;
      var c := 0;
      while c <= steps
        invariant 0 <= c <= 31 && |points| == 31 * t + c
        invariant forall k :: 0 <= k < |points| ==> points[k] == TorusPointAt(lib, centre, radius1, radius2, k)
      {
        var p := SampleTorusPoint(lib, centre, radius1, radius2, torusAngle, t, c);
        TorusPointAtRc(lib, centre, radius1, radius2, t, c);
        points := points + [p];
        c := c + 1;
      }
      t := t + 1;
    }
  }

  /** The triangles of torus point i, resolved in a list of 930 points. */
  lemma TorusFacesAtResolved(ps: seq<Vec3>, i: nat)
    requires |ps| == 930 && i < 930
    ensures FacesWithin(TorusFacesAt(i), 930)
    ensures Resolve(ps, TorusFacesAt(i))
      == [Triangle(ps[i], ps[(i + 1) % 930], ps[(i + 31) % 930]), Triangle(ps[i], ps[(i + 31) % 930], ps[(i + 30) % 930])]
  {
  }

  /** One pass of add_torus's walk: the two triangles of point i, appended. */
  method AppendTorusFacesAt(m: Matrix, points: seq<Vec3>, i: nat)
    requires |points| == 930 && i < 930
    modifies m
    ensures m.Value() == TrianglesAppended(old(m.Value()), Resolve(points, TorusFacesAt(i)))
    ensures old(m.Valid()) && m.ncols == 4 ==> m.Valid()
  {
    var steps := 30;
    var index := (i + steps + 1) % |points|;
    TorusFacesAtResolved(points, i);
    ghost var before := m.Value();
    AppendPolygon(m, points[i], points[(i + 1) % |points|], points[index]);
    AppendPolygon(m, points[i], points[index], points[(i + steps) % |points|]);
    TwoAppends(before, Triangle(points[i], points[(i + 1) % |points|], points[index]),
      Triangle(points[i], points[index], points[(i + steps) % |points|]));
  }

  /** add_torus: samples the points, then appends two triangles per point. */
  method AddTorus(m: Matrix, lib: Libm, centre: Vec3, radius1: real, radius2: real)
    modifies m
    ensures m.Value() == TrianglesAppended(old(m.Value()), TorusMesh(lib, centre, radius1, radius2))
    ensures old(m.Valid()) && m.ncols == 4 ==> m.Valid()
  {
    var points := SampleTorus(lib, centre, radius1, radius2);
    ghost var m0 := m.Value();
    var i := 0;
    while i < |points|
      invariant 0 <= i <= |points| && points == TorusPoints(lib, centre, radius1, radius2)
      invariant FacesWithin(TorusFaces(i), |points|)
      invariant m.Value() == TrianglesAppended(m0, Resolve(points, TorusFaces(i)))
      invariant old(m.Valid()) && m0.ncols == 4 ==> m.Valid()
    {
      TorusFacesAtResolved(points, i);
      AppendTorusFacesAt(m, points, i);
      ResolveConcat(points, TorusFaces(i), TorusFacesAt(i));
      AppendedConcat(m0, Resolve(points, TorusFaces(i)), Resolve(points, TorusFacesAt(i)));
      i := i + 1;
    }

  }
}
