// The line drawing of the Canvas trait's default methods
// (src/graphics/canvas/mod.rs). A canvas supplies `plot`; the model's
// canvas records each plot call in order, so what draw_line does is the
// list of calls it makes. The endpoint coordinates are rounded half away
// from zero and saturated into i32; the i32 arithmetic on them is unbounded
// here.
module RasterLine {
  import opened FloatModel
  import opened Colors
  import Matrices

  /** One call plot(x, y, z, color). */
  datatype PlotCall = PlotCall(x: int, y: int, z: real, color: RGB)

  type Point3 = (real, real, real)

  function Abs(n: int): nat {
    if n < 0 then -n else n
  }

  /** An endpoint coordinate as draw_line uses it: `v.round() as i32`. */
  function Snap(v: real): int {
    SaturateI32(Round(v))
  }

  lemma SnapMonotone(a: real, b: real)
    requires a <= b
    ensures Snap(a) <= Snap(b)
  {
    if a >= 0.0 {
      assert (a + 0.5).Floor <= (b + 0.5).Floor;
    } else if b < 0.0 {
      assert (-b + 0.5).Floor <= (-a + 0.5).Floor;
    }
  }

  /** The endpoints after the swap that makes the walk go left to right, and the rounding. */
  datatype Ends = Ends(x0: int, y0: int, z0: real, x1: int, y1: int, z1: real)

  function LineEnds(p0: Point3, p1: Point3): (e: Ends)
    ensures e.x0 <= e.x1
    ensures p0.0 <= p1.0 ==> e == Ends(Snap(p0.0), Snap(p0.1), p0.2, Snap(p1.0), Snap(p1.1), p1.2)
    ensures p0.0 > p1.0 ==> e == Ends(Snap(p1.0), Snap(p1.1), p1.2, Snap(p0.0), Snap(p0.1), p0.2)
  {
    var (a, b) := if p0.0 > p1.0 then (p1, p0) else (p0, p1);
    SnapMonotone(a.0, b.0);
    Ends(Snap(a.0), Snap(a.1), a.2, Snap(b.0), Snap(b.1), b.2)
  }

  /**
   * How far a Bresenham walk has moved along its minor axis at step k, when
   * the minor axis advances `minor` while the major axis advances `major`:
   * k * minor / major rounded to the nearest integer, halves rounded down.
   */
  function Offset(minor: nat, major: nat, k: nat): nat
    requires major > 0
  {
    (2 * minor * k + major - 1) / (2 * major)
  }

  /** The decision variable d at step k after m moves along the minor axis. */
  function Decision(minor: int, major: int, k: int, m: int): int {
    2 * minor * (k + 1) - major - 2 * major * m
  }

  /** The coordinate m steps of size inc away from start. */
  function Along(start: int, inc: int, m: int): int {
    start + inc * m
  }

  lemma AlongNext(start: int, inc: int, m: int)
    ensures Along(start, inc, m + 1) == Along(start, inc, m) + inc
  {
  }

  /** The depth carried to step k: z0 plus k increments. */
  function ZAt(z0: real, zinc: real, k: nat): real {
    z0 + k as real * zinc
  }

  /** n pixels along a row, x0, x0 + 1, ... */
  function Row(x0: int, y: int, n: nat, z0: real, zinc: real, color: RGB): (px: seq<PlotCall>)
    ensures |px| == n
  {
    seq(n, k requires 0 <= k < n => PlotCall(x0 + k, y, ZAt(z0, zinc, k), color))
  }

  /** n pixels up a column, y0, y0 + 1, ... */
  function Column(x: int, y0: int, n: nat, z0: real, zinc: real, color: RGB): (px: seq<PlotCall>)
    ensures |px| == n
  {
    seq(n, k requires 0 <= k < n => PlotCall(x, y0 + k, ZAt(z0, zinc, k), color))
  }

  /** A shallow walk: one pixel per column, the row moving by Offset in direction yinc. */
  function Shallow(x0: int, y0: int, yinc: int, dx: nat, ady: nat, z0: real, zinc: real, color: RGB): (px: seq<PlotCall>)
    requires dx > 0
    ensures |px| == dx + 1
  {
    seq(dx + 1, k requires 0 <= k <= dx =>
      PlotCall(x0 + k, Along(y0, yinc, Offset(ady, dx, k)), ZAt(z0, zinc, k), color))
  }

  /** A steep walk from (xs, ys): one pixel per row, the column moving by Offset in direction xinc. */
  function Steep(xs: int, ys: int, xinc: int, dx: nat, ady: nat, z0: real, zinc: real, color: RGB): (px: seq<PlotCall>)
    requires ady > 0
    ensures |px| == ady + 1
  {
    seq(ady + 1, k requires 0 <= k <= ady =>
      PlotCall(Along(xs, xinc, Offset(dx, ady, k)), ys + k, ZAt(z0, zinc, k), color))
  }

  /**
   * The plot calls draw_line makes, case by case: a horizontal run, a
   * vertical run from the lower row up (always starting with z0), a shallow
   * walk from the left end, a steep walk upwards from the left end, or a
   * steep walk upwards from the right end when the line falls.
   */
  function LinePixels(p0: Point3, p1: Point3, color: RGB): seq<PlotCall> {
    EndsPixels(LineEnds(p0, p1), color)
  }

  /** The walk between ends already ordered and rounded. */
  function EndsPixels(e: Ends, color: RGB): seq<PlotCall>
    requires e.x0 <= e.x1
  {
    var dy, dx, dz := e.y1 - e.y0, e.x1 - e.x0, e.z1 - e.z0;
    if dy == 0 then
      Row(e.x0, e.y0, dx + 1, e.z0, if dx == 0 then 0.0 else dz / dx as real, color)
    else if dx == 0 then
      Column(e.x0, IntMin(e.y0, e.y1), Abs(dy) + 1, e.z0, dz / dy as real, color)
    else if Abs(dy) < dx then
      Shallow(e.x0, e.y0, if dy > 0 then 1 else -1, dx, Abs(dy), e.z0, dz / dx as real, color)
    else if dy > 0 then
      Steep(e.x0, e.y0, 1, dx, dy, e.z0, dz / dy as real, color)
    else
      Steep(e.x1, e.y1, -1, dx, -dy, e.z0, dz / dy as real, color)
  }

  /** One step of the walk: the offset moves on exactly when d is positive. */
  lemma OffsetStep(minor: nat, major: nat, k: nat)
    requires 0 < major && minor <= major
    ensures Offset(minor, major, k + 1)
         == Offset(minor, major, k) + (if Decision(minor, major, k, Offset(minor, major, k)) > 0 then 1 else 0)
  {
    var big := 2 * major;
    var n := 2 * minor * k + major - 1;
    var m := n / big;
    var r := n % big;
    assert Offset(minor, major, k) == m;
    assert n == m * big + r && 0 <= r < big;
    assert 2 * minor * (k + 1) == 2 * minor * k + 2 * minor;
    assert 2 * major * m == m * big;
    assert Decision(minor, major, k, m) == r + 2 * minor - big + 1;
    assert Offset(minor, major, k + 1) == (n + 2 * minor) / big;
    if r + 2 * minor >= big {
      assert (m + 1) * big == m * big + big;
      Matrices.DivModUnique(n + 2 * minor, big, m + 1, r + 2 * minor - big);
    } else {
      Matrices.DivModUnique(n + 2 * minor, big, m, r + 2 * minor);
    }
  }

  /** One iteration of either walk, as the loop bodies take it. */
  lemma WalkStep(minor: nat, major: nat, k: nat, start: int, inc: int)
    requires 0 < major && minor <= major
    ensures var m := Offset(minor, major, k);
      var d := Decision(minor, major, k, m);
      (d > 0 ==> Offset(minor, major, k + 1) == m + 1
                 && Decision(minor, major, k + 1, m + 1) == d - 2 * major + 2 * minor
                 && Along(start, inc, m + 1) == Along(start, inc, m) + inc)
      && (d <= 0 ==> Offset(minor, major, k + 1) == m && Decision(minor, major, k + 1, m) == d + 2 * minor)
  {
    OffsetStep(minor, major, k);
    DecisionStep(minor, major, k, Offset(minor, major, k));
    AlongNext(start, inc, Offset(minor, major, k));
  }

  /** How d changes from one step to the next, with and without a move. */
  lemma DecisionStep(minor: int, major: int, k: int, m: int)
    ensures Decision(minor, major, k + 1, m) == Decision(minor, major, k, m) + 2 * minor
    ensures Decision(minor, major, k + 1, m + 1) == Decision(minor, major, k, m) + 2 * minor - 2 * major
  {
  }

  lemma NextZ(z0: real, zinc: real, k: nat)
    ensures ZAt(z0, zinc, k + 1) == ZAt(z0, zinc, k) + zinc
  {
  }

  /** The walk starts on the axis and ends exactly `minor` away: it reaches the far endpoint. */
  lemma OffsetEnds(minor: nat, major: nat)
    requires 0 < major && minor <= major
    ensures Offset(minor, major, 0) == 0
    ensures Offset(minor, major, major) == minor
  {
    Matrices.DivModUnique(major - 1, 2 * major, 0, major - 1);
    Matrices.DivModUnique(2 * minor * major + major - 1, 2 * major, minor, major - 1);
  }

  /**
   * Every offset is the nearest integer to k * minor / major: the pixel is
   * within half a pixel of the ideal line.
   */
  lemma OffsetNearest(minor: nat, major: nat, k: nat)
    requires 0 < major
    ensures var dev := 2 * (minor as int) * k - 2 * (major as int) * Offset(minor, major, k);
      -(major as int) < dev <= major
  {
    var n := 2 * minor * k + major - 1;
    var m := Offset(minor, major, k);
    assert n == m * (2 * major) + n % (2 * major);
  }

  /** Between two steps the offset stays or moves by one. */
  lemma OffsetMovesByAtMostOne(minor: nat, major: nat, k: nat)
    requires 0 < major && minor <= major
    ensures Offset(minor, major, k) <= Offset(minor, major, k + 1) <= Offset(minor, major, k) + 1
  {
    OffsetStep(minor, major, k);
  }

  /**
   * The loop as the source writes it, with any starting d: the minor-axis
   * offsets of n steps, moving on whenever d is positive.
   */
  function Walk(d: int, m: int, minor: int, major: int, n: nat): (ms: seq<int>)
    ensures |ms| == n
    decreases n
  {
    if n == 0 then []
    else if d > 0 then [m] + Walk(d - 2 * major + 2 * minor, m + 1, minor, major, n - 1)
    else [m] + Walk(d + 2 * minor, m, minor, major, n - 1)
  }

  /**
   * Started from d = 2 minor - major the loop produces the offsets of
   * Offset, from any step k on.
   */
  lemma {:induction false} WalkIsOffset(minor: nat, major: nat, k: nat, n: nat, j: nat)
    requires 0 < major && minor <= major && j < n
    decreases n
    ensures Walk(Decision(minor, major, k, Offset(minor, major, k)), Offset(minor, major, k), minor, major, n)[j]
         == Offset(minor, major, k + j)
  {
    var m := Offset(minor, major, k);
    var d := Decision(minor, major, k, m);
    if j > 0 {
      OffsetStep(minor, major, k);
      DecisionStep(minor, major, k, m);
      WalkIsOffset(minor, major, k + 1, n - 1, j - 1);
      assert k + 1 + (j - 1) == k + j;
    }
  }

  /**
   * The decision variable with which draw_line starts the shallow walk (and,
   * with the roles of x and y exchanged, the steep walk):
   * 2 dy - dx, where dy is the signed difference. For a falling line it is
   * -2 |dy| - dx, not the 2 |dy| - dx the walk needs.
   */
  function ShallowStartAsWritten(dy: int, dx: int): int {
    2 * dy - dx
  }

  /** The steep walk starts from 2 dx - dy, again with the signed dy. */
  function SteepStartAsWritten(dy: int, dx: int): int {
    2 * dx - dy
  }

  /**
   * The line from (0, 0) to (2, -1): as written the rows are 0, 0, 0 and the
   * last pixel misses the endpoint's row -1; the corrected walk ends on it.
   */
  lemma ShallowFallingAsWrittenMissesEnd()
    ensures Walk(ShallowStartAsWritten(-1, 2), 0, 1, 2, 3) == [0, 0, 0]
    ensures Walk(2 * 1 - 2, 0, 1, 2, 3) == [0, 0, 1]
  {
  }

  /**
   * The line from (0, 0) to (1, -2), walked from (1, -2) upwards: as written
   * the column moves at every row and reaches -1, outside the line's columns
   * [0, 1]; the corrected walk ends on (0, 0).
   */
  lemma SteepFallingAsWrittenOvershoots()
    ensures Walk(SteepStartAsWritten(-2, 1), 0, 1, 2, 3) == [0, 1, 2]
    ensures Walk(2 * 1 - 2, 0, 1, 2, 3) == [0, 0, 1]
  {
  }

  /** One pixel per step along the longer axis, both ends included. */
  lemma LinePixelCount(e: Ends, color: RGB)
    requires e.x0 <= e.x1
    ensures |EndsPixels(e, color)| == IntMax(e.x1 - e.x0, Abs(e.y1 - e.y0)) + 1
  {
  }

  /**
   * The first and the last pixel are the two rounded endpoints, and the
   * first carries z0. A vertical line starts at its lower row.
   */
  lemma LineEndpoints(e: Ends, color: RGB)
    requires e.x0 <= e.x1
    ensures var px := EndsPixels(e, color);
      |px| >= 1 && px[0].z == e.z0
      && {(px[0].x, px[0].y), (px[|px| - 1].x, px[|px| - 1].y)} == {(e.x0, e.y0), (e.x1, e.y1)}
    ensures e.x0 == e.x1 ==> EndsPixels(e, color)[0].y == IntMin(e.y0, e.y1)
  {
    var dy, dx := e.y1 - e.y0, e.x1 - e.x0;
    if dy != 0 && dx != 0 {
      if Abs(dy) < dx {
        OffsetEnds(Abs(dy), dx);
      } else {
        OffsetEnds(dx, Abs(dy));
      }
    }
  }

  /**
   * Consecutive pixels are neighbours (they differ by at most one in each
   * coordinate), and each step moves one column right or one row up.
   */
  lemma LineConnected(e: Ends, color: RGB, k: nat)
    requires e.x0 <= e.x1 && k + 1 < |EndsPixels(e, color)|
    ensures var px := EndsPixels(e, color);
      Abs(px[k + 1].x - px[k].x) <= 1 && Abs(px[k + 1].y - px[k].y) <= 1
      && (px[k + 1].x == px[k].x + 1 || px[k + 1].y == px[k].y + 1)
  {
    var dy, dx := e.y1 - e.y0, e.x1 - e.x0;
    if dy != 0 && dx != 0 {
      if Abs(dy) < dx {
        OffsetMovesByAtMostOne(Abs(dy), dx, k);
      } else {
        OffsetMovesByAtMostOne(dx, Abs(dy), k);
      }
    }
  }

  /**
   * Every pixel lies within half a pixel of the segment between the rounded
   * endpoints, measured along the shorter axis:
   * |dx (y - y0) - dy (x - x0)| <= max(dx, |dy|) / 2.
   */
  lemma LineNearSegment(e: Ends, color: RGB, k: nat)
    requires e.x0 <= e.x1 && k < |EndsPixels(e, color)|
    ensures var p := EndsPixels(e, color)[k];
      var dy, dx := e.y1 - e.y0, e.x1 - e.x0;
      Abs(2 * dx * (p.y - e.y0) - 2 * dy * (p.x - e.x0)) <= IntMax(dx, Abs(dy))
  {
    var dy, dx := e.y1 - e.y0, e.x1 - e.x0;
    if dy != 0 && dx != 0 {
      if Abs(dy) < dx {
        NearShallow(e, color, k);
      } else {
        NearSteep(e, color, k);
      }
    }
  }

  lemma NearShallow(e: Ends, color: RGB, k: nat)
    requires e.x0 < e.x1 && e.y1 != e.y0 && Abs(e.y1 - e.y0) < e.x1 - e.x0 && k <= e.x1 - e.x0
    ensures var p := EndsPixels(e, color)[k];
      var dy, dx := e.y1 - e.y0, e.x1 - e.x0;
      Abs(2 * dx * (p.y - e.y0) - 2 * dy * (p.x - e.x0)) <= dx
  {
    var dy, dx := e.y1 - e.y0, e.x1 - e.x0;
    var p := EndsPixels(e, color)[k];
    var m: int := Offset(Abs(dy), dx, k);
    OffsetNearest(Abs(dy), dx, k);
    if dy > 0 {
      assert p.x - e.x0 == k && p.y - e.y0 == m;
      Mirror(dx, dy, k, m);
    } else {
      assert p.x - e.x0 == k && p.y - e.y0 == -m;
      Mirror(dx, -dy, k, m);
    }
  }

  lemma NearSteep(e: Ends, color: RGB, k: nat)
    requires e.x0 < e.x1 && e.y1 != e.y0 && Abs(e.y1 - e.y0) >= e.x1 - e.x0 && k <= Abs(e.y1 - e.y0)
    ensures var p := EndsPixels(e, color)[k];
      var dy, dx := e.y1 - e.y0, e.x1 - e.x0;
      Abs(2 * dx * (p.y - e.y0) - 2 * dy * (p.x - e.x0)) <= Abs(dy)
  {
    var dy, dx := e.y1 - e.y0, e.x1 - e.x0;
    var p := EndsPixels(e, color)[k];
    var m: int := Offset(dx, Abs(dy), k);
    OffsetNearest(dx, Abs(dy), k);
    if dy > 0 {
      assert p.x - e.x0 == m && p.y - e.y0 == k;
      Mirror(dy, dx, m, k);
    } else {
      assert p.x - e.x0 == dx - m && p.y - e.y0 == k + dy;
      Reflect(dx, dy, k, m);
    }
  }

  lemma Mirror(a: int, b: int, k: int, m: int)
    ensures 2 * a * m - 2 * b * k == -(2 * b * k - 2 * a * m)
    ensures 2 * a * -m - 2 * -b * k == 2 * b * k - 2 * a * m
  {
  }

  lemma Reflect(dx: int, dy: int, k: int, m: int)
    ensures 2 * dx * (k + dy) - 2 * dy * (dx - m) == 2 * dx * k - 2 * -dy * m
  {
  }

  class Canvas {
    /** Every plot call made so far, oldest first. */
    var plots: seq<PlotCall>

    constructor ()
      ensures plots == []
    {
      plots := [];
    }

    method Plot(x: int, y: int, z: real, color: RGB)
      modifies this
      ensures plots == old(plots) + [PlotCall(x, y, z, color)]
    {
      plots := plots + [PlotCall(x, y, z, color)];
    }

    /** The horizontal case: x runs over x0..=x1 on row y0. */
    method HorizontalRun(x0: int, x1: int, y0: int, z0: real, zinc: real, color: RGB)
      requires x0 <= x1
      modifies this
      ensures plots == old(plots) + Row(x0, y0, x1 - x0 + 1, z0, zinc, color)
    {
      ghost var run := Row(x0, y0, x1 - x0 + 1, z0, zinc, color);
      var z := z0;
      var x := x0;
      while x <= x1
        invariant x0 <= x <= x1 + 1
        invariant z == ZAt(z0, zinc, x - x0)
        invariant plots == old(plots) + run[..x - x0]
      {
        Plot(x, y0, z, color);
        assert run[..x - x0 + 1] == run[..x - x0] + [run[x - x0]];
        NextZ(z0, zinc, x - x0);
        z := z + zinc;
        x := x + 1;
      }
      assert run[..x - x0] == run;
    }

    /** The vertical case: y runs over ylo..=yhi in column x0. */
    method VerticalRun(x0: int, ylo: int, yhi: int, z0: real, zinc: real, color: RGB)
      requires ylo <= yhi
      modifies this
      ensures plots == old(plots) + Column(x0, ylo, yhi - ylo + 1, z0, zinc, color)
    {
      ghost var run := Column(x0, ylo, yhi - ylo + 1, z0, zinc, color);
      var z := z0;
      var y := ylo;
      while y <= yhi
        invariant ylo <= y <= yhi + 1
        invariant z == ZAt(z0, zinc, y - ylo)
        invariant plots == old(plots) + run[..y - ylo]
      {
        Plot(x0, y, z, color);
        assert run[..y - ylo + 1] == run[..y - ylo] + [run[y - ylo]];
        NextZ(z0, zinc, y - ylo);
        z := z + zinc;
        y := y + 1;
      }
      assert run[..y - ylo] == run;
    }

    /**
     * The shallow case (octants 1 and 8): x runs over x0..=x1 and y moves
     * by yinc whenever d is positive. d starts at 2 |dy| - dx.
     */
    method ShallowRun(x0: int, x1: int, y0: int, yinc: int, ady: nat, z0: real, zinc: real, color: RGB)
      requires x0 < x1 && ady < x1 - x0
      modifies this
      ensures plots == old(plots) + Shallow(x0, y0, yinc, x1 - x0, ady, z0, zinc, color)
    {
      ghost var dx := x1 - x0;
      ghost var run := Shallow(x0, y0, yinc, dx, ady, z0, zinc, color);
      var ndx := -(x1 - x0);
      var d := 2 * ady + ndx;
      var x, y, z := x0, y0, z0;
      while x <= x1
        invariant x0 <= x <= x1 + 1
        invariant y == Along(y0, yinc, Offset(ady, dx, x - x0))
        invariant d == Decision(ady, dx, x - x0, Offset(ady, dx, x - x0))
        invariant z == ZAt(z0, zinc, x - x0)
        invariant plots == old(plots) + run[..x - x0]
      {
        Plot(x, y, z, color);
        assert run[..x - x0 + 1] == run[..x - x0] + [run[x - x0]];
        WalkStep(ady, dx, x - x0, y0, yinc);
        NextZ(z0, zinc, x - x0);
        if d > 0 {
          y := y + yinc;
          d := d + 2 * ndx;
        }
        d := d + 2 * ady;
        z := z + zinc;
        x := x + 1;
      }
      assert run[..x - x0] == run;
    }

    /**
     * The steep case (octants 2 and 7): y runs over ystart..=yend from column
     * xs, and x moves by xinc whenever d is positive. d starts at 2 dx - |dy|.
     */
    method SteepRun(xs: int, ystart: int, yend: int, xinc: int, dx: nat, z0: real, zinc: real, color: RGB)
      requires ystart < yend && 0 < dx <= yend - ystart
      modifies this
      ensures plots == old(plots) + Steep(xs, ystart, xinc, dx, yend - ystart, z0, zinc, color)
    {
      var ady := yend - ystart;
      ghost var run := Steep(xs, ystart, xinc, dx, ady, z0, zinc, color);
      var d := 2 * dx - ady;
      var x, y, z := xs, ystart, z0;
      while y <= yend
        invariant ystart <= y <= yend + 1
        invariant x == Along(xs, xinc, Offset(dx, ady, y - ystart))
        invariant d == Decision(dx, ady, y - ystart, Offset(dx, ady, y - ystart))
        invariant z == ZAt(z0, zinc, y - ystart)
        invariant plots == old(plots) + run[..y - ystart]
      {
        Plot(x, y, z, color);
        assert run[..y - ystart + 1] == run[..y - ystart] + [run[y - ystart]];
        WalkStep(dx, ady, y - ystart, xs, xinc);
        NextZ(z0, zinc, y - ystart);
        if d > 0 {
          x := x + xinc;
          d := d - 2 * ady;
        }
        d := d + 2 * dx;
        z := z + zinc;
        y := y + 1;
      }
      assert run[..y - ystart] == run;
    }

    /**
     * draw_line: swaps the ends so that x grows, rounds them, then takes the
     * horizontal, vertical, shallow or steep case.
     */
    method DrawLine(p0: Point3, p1: Point3, color: RGB)
      modifies this
      ensures plots == old(plots) + LinePixels(p0, p1, color)
    {
      var (a, b) := if p0.0 > p1.0 then (p1, p0) else (p0, p1);
      var x0, y0, z0, x1, y1, z1 := Snap(a.0), Snap(a.1), a.2, Snap(b.0), Snap(b.1), b.2;
      SnapMonotone(a.0, b.0);
      DrawRounded(x0, y0, z0, x1, y1, z1, color);
    }

    /** The rest of draw_line, once the ends are ordered and rounded. */
    method DrawRounded(x0: int, y0: int, z0: real, x1: int, y1: int, z1: real, color: RGB)
      requires x0 <= x1
      modifies this
      ensures plots == old(plots) + EndsPixels(Ends(x0, y0, z0, x1, y1, z1), color)
    {
      var dy, ndx := y1 - y0, -(x1 - x0);
      var dz := z1 - z0;
      ghost var e := Ends(x0, y0, z0, x1, y1, z1);
      if dy == 0 {
        var zinc := if ndx == 0 then 0.0 else dz / (-ndx) as real;
        assert EndsPixels(e, color) == Row(x0, y0, x1 - x0 + 1, z0, zinc, color);
        HorizontalRun(x0, x1, y0, z0, zinc, color);
      } else if ndx == 0 {
        var (ylo, yhi) := if y0 < y1 then (y0, y1) else (y1, y0);
        assert EndsPixels(e, color) == Column(x0, ylo, yhi - ylo + 1, z0, dz / dy as real, color);
        VerticalRun(x0, ylo, yhi, z0, dz / dy as real, color);
      } else if Abs(y1 - y0) < Abs(x1 - x0) {
        var yinc := if dy > 0 then 1 else -1;
        assert EndsPixels(e, color) == Shallow(x0, y0, yinc, x1 - x0, Abs(dy), z0, dz / (-ndx) as real, color);
        ShallowRun(x0, x1, y0, yinc, Abs(dy), z0, dz / (-ndx) as real, color);
      } else if dy > 0 {
        assert EndsPixels(e, color) == Steep(x0, y0, 1, -ndx, y1 - y0, z0, dz / (y1 - y0) as real, color);
        SteepRun(x0, y0, y1, 1, -ndx, z0, dz / (y1 - y0) as real, color);
      } else {
        assert EndsPixels(e, color) == Steep(x0 - ndx, y1, -1, -ndx, y0 - y1, z0, dz / (y1 - y0) as real, color);
        SteepRun(x0 - ndx, y1, y0, -1, -ndx, z0, dz / (y1 - y0) as real, color);
      }
    }
  }
}
