// The curve helpers of src/graphics/utils.rs: the per-axis coefficients of
// cubic Bezier and Hermite curves, written a t^3 + b t^2 + c t + d, and the
// linear range mapper.
module Curves {
  /** The coefficients (a, b, c, d) of one axis of a cubic curve. */
  datatype Cubic = Cubic(a: real, b: real, c: real, d: real)

  /** a t^3 + b t^2 + c t + d, as the curve closures evaluate it. */
  function Eval(k: Cubic, t: real): real {
    k.a * t * t * t + k.b * t * t + k.c * t + k.d
  }

  /** The slope of the cubic at t. */
  function Slope(k: Cubic, t: real): real {
    3.0 * k.a * t * t + 2.0 * k.b * t + k.c
  }

  /**
   * compute_bezier3_coef: the curve starts at p0, ends at p3, and leaves p0
   * towards p1 with slope 3 (p1 - p0).
   */
  function Bezier3Coef(p0: real, p1: real, p2: real, p3: real): (k: Cubic)
    ensures Eval(k, 0.0) == p0 && Eval(k, 1.0) == p3
    ensures Slope(k, 0.0) == 3.0 * (p1 - p0) && Slope(k, 1.0) == 3.0 * (p3 - p2)
  {
    Cubic(-p0 + 3.0 * (p1 - p2) + p3, 3.0 * p0 - 6.0 * p1 + 3.0 * p2, 3.0 * (-p0 + p1), p0)
  }

  /** The Bernstein form of the cubic Bezier curve over p0 .. p3. */
  function Bernstein(p0: real, p1: real, p2: real, p3: real, t: real): real {
    var s := 1.0 - t;
    s * s * s * p0 + 3.0 * s * s * t * p1 + 3.0 * s * t * t * p2 + t * t * t * p3
  }

  /** The coefficients describe the Bezier curve itself, at every t. */
  lemma Bezier3IsBernstein(p0: real, p1: real, p2: real, p3: real, t: real)
    ensures Eval(Bezier3Coef(p0, p1, p2, p3), t) == Bernstein(p0, p1, p2, p3, t)
  {
    var s := 1.0 - t;
    assert s * s == 1.0 - 2.0 * t + t * t;
    assert s * s * s == 1.0 - 3.0 * t + 3.0 * t * t - t * t * t;
    assert s * s * t == t - 2.0 * t * t + t * t * t;
    assert s * t * t == t * t - t * t * t;
  }

  /**
   * compute_hermite3_coef: the curve runs from p0 to p1, leaving p0 with
   * slope r0 and arriving at p1 with slope r1.
   */
  function Hermite3Coef(p0: real, p1: real, r0: real, r1: real): (k: Cubic)
    ensures Eval(k, 0.0) == p0 && Eval(k, 1.0) == p1
    ensures Slope(k, 0.0) == r0 && Slope(k, 1.0) == r1
  {
    Cubic(2.0 * (p0 - p1) + r0 + r1, 3.0 * (-p0 + p1) - 2.0 * r0 - r1, r0, p0)
  }

  /**
   * Those four conditions fix the Hermite cubic: any cubic meeting them has
   * the coefficients compute_hermite3_coef returns.
   */
  lemma {:induction false} HermiteUnique(p0: real, p1: real, r0: real, r1: real, k: Cubic)
    requires Eval(k, 0.0) == p0 && Eval(k, 1.0) == p1
    requires Slope(k, 0.0) == r0 && Slope(k, 1.0) == r1
    ensures k == Hermite3Coef(p0, p1, r0, r1)
  {
    assert k.d == p0 && k.c == r0;
    assert k.a + k.b == p1 - p0 - r0;
    assert 3.0 * k.a + 2.0 * k.b == r1 - r0;
  }

  /** mapper: the closure's value at x, a line through (instart, outstart) and (inend, outend). */
  function Mapper(instart: real, inend: real, outstart: real, outend: real, x: real): real
    requires inend != instart
  {
    var slope := (outend - outstart) / (inend - instart);
    outstart + slope * (x - instart)
  }

  /** mapper sends the ends of the input range to the ends of the output range. */
  lemma MapperEnds(instart: real, inend: real, outstart: real, outend: real)
    requires inend != instart
    ensures Mapper(instart, inend, outstart, outend, instart) == outstart
    ensures Mapper(instart, inend, outstart, outend, inend) == outend
  {
    var slope := (outend - outstart) / (inend - instart);
    assert slope * (inend - instart) == outend - outstart;
  }

  /** mapper is affine: it keeps weighted averages of its inputs. */
  lemma MapperAffine(instart: real, inend: real, outstart: real, outend: real, x: real, y: real, w: real)
    requires inend != instart
    ensures Mapper(instart, inend, outstart, outend, w * x + (1.0 - w) * y)
         == w * Mapper(instart, inend, outstart, outend, x) + (1.0 - w) * Mapper(instart, inend, outstart, outend, y)
  {
    var slope := (outend - outstart) / (inend - instart);
    assert slope * (w * x + (1.0 - w) * y - instart)
        == w * (slope * (x - instart)) + (1.0 - w) * (slope * (y - instart));
  }
}
