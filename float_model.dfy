// How the engine's f64 and integer-cast arithmetic is read in this model.
//
// An f64 is a `real`: exact arithmetic, no rounding error, no NaN and no
// infinity. floor, ceil, round, truncation and the float remainder are exact
// operations on the real line, so they are defined here. The transcendental
// functions the engine calls (sqrt, sin, cos, powf) are not: they travel as
// the fields of a `Libm` value that callers pass in, and nothing is assumed
// about them.
module FloatModel {
  const I32Min: int := -0x8000_0000
  const I32Max: int := 0x7fff_ffff
  const U16Max: int := 0xffff
  const I64Min: int := -0x8000_0000_0000_0000
  const I64Max: int := 0x7fff_ffff_ffff_ffff

  /** The library functions the engine calls; trigonometry takes degrees. */
  datatype Libm = Libm(
    sqrt: real -> real,
    sinDeg: real -> real,
    cosDeg: real -> real,
    powf: (real, real) -> real)

  function Floor(x: real): (r: int)
    ensures r as real <= x < r as real + 1.0
  {
    x.Floor
  }

  /** f64::ceil */
  function Ceil(x: real): (r: int)
    ensures x <= r as real < x + 1.0
  {
    -((-x).Floor)
  }

  /** f64::round: halfway cases go away from zero. */
  function Round(x: real): (r: int)
    ensures x - 0.5 <= r as real <= x + 0.5
    ensures x >= 0.0 ==> r >= 0
    ensures x <= 0.0 ==> r <= 0
  {
    if x >= 0.0 then (x + 0.5).Floor else -((-x + 0.5).Floor)
  }

  /** f64::trunc: drops the fraction, towards zero. */
  function Trunc(x: real): (r: int)
    ensures x >= 0.0 ==> r as real <= x < r as real + 1.0
    ensures x < 0.0 ==> r as real - 1.0 < x <= r as real
  {
    if x >= 0.0 then x.Floor else -((-x).Floor)
  }

  /** f64::max for operands that are not NaN. */
  function RealMax(a: real, b: real): (r: real)
    ensures r >= a && r >= b && (r == a || r == b)
  {
    if a >= b then a else b
  }

  /** f64::min for operands that are not NaN. */
  function RealMin(a: real, b: real): (r: real)
    ensures r <= a && r <= b && (r == a || r == b)
  {
    if a <= b then a else b
  }

  function IntMax(a: int, b: int): (r: int)
    ensures r >= a && r >= b && (r == a || r == b)
  {
    if a >= b then a else b
  }

  function IntMin(a: int, b: int): (r: int)
    ensures r <= a && r <= b && (r == a || r == b)
  {
    if a <= b then a else b
  }

  /** `x as u16` for an f64: truncates towards zero and saturates at both ends. */
  function CastU16(x: real): (r: int)
    ensures 0 <= r <= U16Max
    ensures 0.0 <= x < U16Max as real ==> r == x.Floor
  {
    if x <= 0.0 then 0 else if x >= U16Max as real then U16Max else x.Floor
  }

  /** `x as i32` for an integer-valued f64: saturates at both ends. */
  function SaturateI32(n: int): (r: int)
    ensures I32Min <= r <= I32Max
    ensures I32Min <= n <= I32Max ==> r == n
  {
    if n < I32Min then I32Min else if n > I32Max then I32Max else n
  }

  /** `x as i64` for an integer-valued f64: saturates at both ends. */
  function SaturateI64(n: int): (r: int)
    ensures I64Min <= r <= I64Max
    ensures I64Min <= n <= I64Max ==> r == n
  {
    if n < I64Min then I64Min else if n > I64Max then I64Max else n
  }

  lemma SaturateI64Monotone(a: int, b: int)
    requires a <= b
    ensures SaturateI64(a) <= SaturateI64(b)
  {
  }

  /** `n as i32` for a wider integer: keeps the low 32 bits, two's complement. */
  function WrapI32(n: int): (r: int)
    ensures I32Min <= r <= I32Max
    ensures I32Min <= n <= I32Max ==> r == n
  {
    (n - I32Min) % 0x1_0000_0000 + I32Min
  }

  lemma CeilMonotone(a: real, b: real)
    requires a <= b
    ensures Ceil(a) <= Ceil(b)
  {
  }

  /** Rust's integer `/` by a positive divisor: the quotient is truncated towards zero. */
  function DivT(a: int, b: int): (q: int)
    requires b > 0
    ensures a >= 0 ==> q == a / b
    ensures a < 0 ==> q == -((-a) / b)
  {
    if a >= 0 then a / b else -((-a) / b)
  }

  /** Rust's integer `%` by a positive divisor: the remainder takes the sign of the dividend. */
  function RemT(a: int, b: int): (r: int)
    requires b > 0
    ensures a >= 0 ==> 0 <= r < b
    ensures a < 0 ==> -b < r <= 0
    ensures DivT(a, b) * b + r == a
  {
    if a >= 0 then a % b else -((-a) % b)
  }

  /** f64 `%` (fmod): a - b * trunc(a / b); the result takes the sign of a. */
  function FRem(a: real, b: real): real
    requires b != 0.0
  {
    a - b * Trunc(a / b) as real
  }

  lemma MulStrictlyMonotone(k: real, x: real, y: real)
    requires k > 0.0
    ensures x <= y ==> k * x <= k * y
    ensures x < y ==> k * x < k * y
  {
  }

  /** Real division undone by multiplication. */
  lemma DivTimes(a: real, b: real)
    requires b != 0.0
    ensures (a / b) * b == a
  {
  }

  lemma DivMonotone(x: real, y: real, p: real)
    requires p > 0.0 && x <= y
    ensures x / p <= y / p
  {
    var qx, qy := x / p, y / p;
    assert p * qx == x && p * qy == y;
    if qx > qy { MulStrictlyMonotone(p, qy, qx); }
  }

  lemma ScaleWithinUnit(k: real, x: real)
    ensures 0.0 <= k <= 1.0 && 0.0 <= x ==> 0.0 <= k * x <= x
  {
    if 0.0 <= k <= 1.0 && x > 0.0 { MulStrictlyMonotone(x, k, 1.0); MulStrictlyMonotone(x, 0.0, k); }
  }
}
