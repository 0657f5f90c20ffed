// Three-component f64 vectors of the library tree (src/vector.rs) and the
// conversions between them and RGB colours.
module Vector {
  import opened FloatModel
  import opened Colors

  datatype Vec3 = Vec3(x: real, y: real, z: real)

  const ZEROS: Vec3 := Vec3(0.0, 0.0, 0.0)

  /** Vec3::from_pt */
  function FromPt(p: (real, real, real)): (v: Vec3)
    ensures v.x == p.0 && v.y == p.1 && v.z == p.2
  {
    Vec3(p.0, p.1, p.2)
  }

  /** Vec3::dot, which is also `Vec3 * Vec3`. */
  function Dot(a: Vec3, b: Vec3): real {
    a.x * b.x + a.y * b.y + a.z * b.z
  }

  /** Vec3::mul_across: the componentwise product. */
  function MulAcross(a: Vec3, b: Vec3): Vec3 {
    Vec3(a.x * b.x, a.y * b.y, a.z * b.z)
  }

  /** Vec3::cross */
  function Cross(a: Vec3, b: Vec3): Vec3 {
    Vec3(a.y * b.z - a.z * b.y, a.z * b.x - a.x * b.z, a.x * b.y - a.y * b.x)
  }

  /** Vec3 + Vec3 */
  function Add(a: Vec3, b: Vec3): Vec3 {
    Vec3(a.x + b.x, a.y + b.y, a.z + b.z)
  }

  /** Vec3 - Vec3 */
  function Sub(a: Vec3, b: Vec3): Vec3 {
    Vec3(a.x - b.x, a.y - b.y, a.z - b.z)
  }

  /** Vec3 * f64 */
  function Scale(v: Vec3, k: real): Vec3 {
    Vec3(v.x * k, v.y * k, v.z * k)
  }

  /** Vec3 * i32: each component times f64::from(k), which is exact. */
  function ScaleI32(v: Vec3, k: int): (r: Vec3)
    requires I32Min <= k <= I32Max
  {
    Vec3(v.x * k as real, v.y * k as real, v.z * k as real)
  }

  /** i32 * Vec3, defined by the source as `rhs * self`. */
  function I32Scale(k: int, v: Vec3): Vec3
    requires I32Min <= k <= I32Max
  {
    ScaleI32(v, k)
  }

  /** Vec3 / f64. The divisor must be non-zero: reals have no infinity or NaN. */
  function Div(v: Vec3, k: real): Vec3
    requires k != 0.0
  {
    Vec3(v.x / k, v.y / k, v.z / k)
  }

  /** Vec3::mag, with the square root supplied by the caller. */
  function Mag(m: Libm, v: Vec3): real {
    m.sqrt(Dot(v, v))
  }

  /**
   * Vec3::norm: v / mag. A zero magnitude, where f64 division gives NaN
   * components, yields the zero vector here.
   */
  function Norm(m: Libm, v: Vec3): (r: Vec3)
    ensures Mag(m, v) == 0.0 ==> r == ZEROS
  {
    if Mag(m, v) == 0.0 then ZEROS else Div(v, Mag(m, v))
  }

  /** f64::max(min).min(max) on one component. */
  function Clamp(a: real, lo: real, hi: real): real {
    RealMin(RealMax(a, lo), hi)
  }

  /** Vec3::limit */
  function Limit(v: Vec3, lo: real, hi: real): (r: Vec3)
    ensures lo <= hi ==> lo <= r.x <= hi && lo <= r.y <= hi && lo <= r.z <= hi
  {
    Vec3(Clamp(v.x, lo, hi), Clamp(v.y, lo, hi), Clamp(v.z, lo, hi))
  }

  /** Vec3::limit_max */
  function LimitMax(v: Vec3, hi: real): (r: Vec3)
    ensures r.x <= hi && r.y <= hi && r.z <= hi
    ensures r.x == v.x || r.x == hi
    ensures r.y == v.y || r.y == hi
    ensures r.z == v.z || r.z == hi
  {
    Vec3(RealMin(v.x, hi), RealMin(v.y, hi), RealMin(v.z, hi))
  }

  /** From<RGB> for Vec3 */
  function FromRgb(c: RGB): (v: Vec3)
    ensures v.x == c.red as real && v.y == c.green as real && v.z == c.blue as real
  {
    Vec3(c.red as real, c.green as real, c.blue as real)
  }

  /** One channel of From<Vec3> for RGB: clamp to [0, 255], then `as u16`. */
  function ToChannel(a: real): (r: U16)
    ensures 0 <= r <= 255
    ensures 0.0 <= a <= 255.0 ==> r == a.Floor
  {
    CastU16(Clamp(a, 0.0, 255.0))
  }

  /** From<Vec3> for RGB */
  function ToRgb(v: Vec3): (c: RGB)
    ensures c.red <= 255 && c.green <= 255 && c.blue <= 255
  {
    RGB(ToChannel(v.x), ToChannel(v.y), ToChannel(v.z))
  }

  /** Converting a colour with 8-bit channels to a vector and back is the identity. */
  lemma RgbRoundTrip(c: RGB)
    requires c.red <= 255 && c.green <= 255 && c.blue <= 255
    ensures ToRgb(FromRgb(c)) == c
  {
  }

  /** A colour above 255 in a channel comes back saturated at 255. */
  lemma RgbRoundTripSaturates(c: RGB)
    requires c.red > 255
    ensures ToRgb(FromRgb(c)).red == 255
  {
  }

  /** The dot product is symmetric. */
  lemma DotSymmetric(a: Vec3, b: Vec3)
    ensures Dot(a, b) == Dot(b, a)
  {
  }

  /**
   * A vector dotted with itself is the sum of its squared components, so it
   * is never negative.
   */
  lemma DotSelfNonNegative(v: Vec3)
    ensures Dot(v, v) >= 0.0
  {
    SquareNonNegative(v.x);
    SquareNonNegative(v.y);
    SquareNonNegative(v.z);
  }

  lemma SquareNonNegative(a: real)
    ensures a * a >= 0.0
  {
    if a < 0.0 {
      PositiveSquare(-a);
      assert a * a == (-a) * (-a);
    } else if a > 0.0 {
      PositiveSquare(a);
    }
  }

  lemma PositiveSquare(a: real)
    requires a > 0.0
    ensures a * a > 0.0
  {
  }

  /** The cross product is orthogonal to both its operands. */
  lemma CrossOrthogonal(a: Vec3, b: Vec3)
    ensures Dot(Cross(a, b), a) == 0.0
    ensures Dot(Cross(a, b), b) == 0.0
  {
  }

  /** The cross product is antisymmetric. */
  lemma CrossAntisymmetric(a: Vec3, b: Vec3)
    ensures Cross(a, b) == Scale(Cross(b, a), -1.0)
  {
  }

  /** Vec3 * i32 is Vec3 * (k as f64), and i32 * Vec3 is the same vector. */
  lemma ScaleI32IsScale(v: Vec3, k: int)
    requires I32Min <= k <= I32Max
    ensures ScaleI32(v, k) == Scale(v, k as real)
    ensures I32Scale(k, v) == ScaleI32(v, k)
  {
  }

  /** limit leaves a vector already inside [lo, hi] unchanged. */
  lemma LimitKeepsInRange(v: Vec3, lo: real, hi: real)
    requires lo <= v.x <= hi && lo <= v.y <= hi && lo <= v.z <= hi
    ensures Limit(v, lo, hi) == v
  {
  }

  /** limit is idempotent. */
  lemma LimitIdempotent(v: Vec3, lo: real, hi: real)
    requires lo <= hi
    ensures Limit(Limit(v, lo, hi), lo, hi) == Limit(v, lo, hi)
  {
    LimitKeepsInRange(Limit(v, lo, hi), lo, hi);
  }

  /** Addition and subtraction are inverse. */
  lemma AddSubInverse(a: Vec3, b: Vec3)
    ensures Sub(Add(a, b), b) == a
  {
  }

  /** Division undoes scaling. */
  lemma DivUndoesScale(v: Vec3, k: real)
    requires k != 0.0
    ensures Div(Scale(v, k), k) == v
  {
  }
}
