// The transformation builders of src/graphics/matrix/transform.rs. The engine
// keeps points as the rows of a point matrix, so a transform is applied as
// `points x T`: the translation sits in the bottom row, and a rotation's
// matrix is the transpose of the usual column-vector one.
module Transforms {
  import opened FloatModel
  import opened Matrices

  /** mv(dx, dy, dz): the identity with (dx, dy, dz) in row 3, columns 0 to 2. */
  function MoveMat(dx: real, dy: real, dz: real): (t: Mat)
    ensures Shaped(t) && t.nrows == 4 && t.ncols == 4
  {
    Mat(4, 4, [1.0, 0.0, 0.0, 0.0,
               0.0, 1.0, 0.0, 0.0,
               0.0, 0.0, 1.0, 0.0,
               dx,  dy,  dz,  1.0])
  }

  /** scale(sx, sy, sz): the identity with the diagonal (sx, sy, sz, 1). */
  function ScaleMat(sx: real, sy: real, sz: real): (t: Mat)
    ensures Shaped(t) && t.nrows == 4 && t.ncols == 4
  {
    Mat(4, 4, [sx,  0.0, 0.0, 0.0,
               0.0, sy,  0.0, 0.0,
               0.0, 0.0, sz,  0.0,
               0.0, 0.0, 0.0, 1.0])
  }

  /** rotatex(angle_deg): x is kept, the (y, z) block turns. */
  function RotXMat(lib: Libm, deg: real): (t: Mat)
    ensures Shaped(t) && t.nrows == 4 && t.ncols == 4
  {
    RotXOf(lib.cosDeg(deg), lib.sinDeg(deg))
  }

  /** The matrix of rotatex for an angle with cosine c and sine s. */
  function RotXOf(c: real, s: real): (t: Mat)
    ensures Shaped(t) && t.nrows == 4 && t.ncols == 4
  {
    Mat(4, 4, [1.0, 0.0, 0.0, 0.0,
               0.0, c,   s,   0.0,
               0.0, -s,  c,   0.0,
               0.0, 0.0, 0.0, 1.0])
  }

  /** rotatey(angle_deg): y is kept, the (x, z) block turns. */
  function RotYMat(lib: Libm, deg: real): (t: Mat)
    ensures Shaped(t) && t.nrows == 4 && t.ncols == 4
  {
    RotYOf(lib.cosDeg(deg), lib.sinDeg(deg))
  }

  /** The matrix of rotatey for an angle with cosine c and sine s. */
  function RotYOf(c: real, s: real): (t: Mat)
    ensures Shaped(t) && t.nrows == 4 && t.ncols == 4
  {
    Mat(4, 4, [c,   0.0, -s,  0.0,
               0.0, 1.0, 0.0, 0.0,
               s,   0.0, c,   0.0,
               0.0, 0.0, 0.0, 1.0])
  }

  /** rotatez(angle_deg): z is kept, the (x, y) block turns. */
  function RotZMat(lib: Libm, deg: real): (t: Mat)
    ensures Shaped(t) && t.nrows == 4 && t.ncols == 4
  {
    RotZOf(lib.cosDeg(deg), lib.sinDeg(deg))
  }

  /** The matrix of rotatez for an angle with cosine c and sine s. */
  function RotZOf(c: real, s: real): (t: Mat)
    ensures Shaped(t) && t.nrows == 4 && t.ncols == 4
  {
    Mat(4, 4, [c,   s,   0.0, 0.0,
               -s,  c,   0.0, 0.0,
               0.0, 0.0, 1.0, 0.0,
               0.0, 0.0, 0.0, 1.0])
  }

  /** The fold over two four-entry sequences, written out. */
  lemma ZipSumOfFour(a: seq<real>, b: seq<real>)
    requires |a| == 4 && |b| == 4
    ensures ZipSum(a, b) == a[0] * b[0] + a[1] * b[1] + a[2] * b[2] + a[3] * b[3]
  {
    assert a[..3][..2] == a[..2] && b[..3][..2] == b[..2];
    assert a[..2][..1] == a[..1] && b[..2][..1] == b[..1];
    assert a[..1][..0] == [] && b[..1][..0] == [];
    assert ZipSum(a[..1], b[..1]) == a[0] * b[0];
    assert ZipSum(a[..2], b[..2]) == ZipSum(a[..1], b[..1]) + a[1] * b[1];
    assert ZipSum(a[..3], b[..3]) == ZipSum(a[..2], b[..2]) + a[2] * b[2];
  }

  /** Column c of a four-row matrix, as a sequence of its data. */
  lemma ColumnOfFour(b: Mat, c: nat)
    requires Shaped(b) && b.nrows == 4 && c < b.ncols
    ensures 3 * b.ncols + c < |b.data|
    ensures ColIter(b, c) == [b.data[c], b.data[b.ncols + c], b.data[2 * b.ncols + c], b.data[3 * b.ncols + c]]
  {
    IndexInRange(4, b.ncols, 3, c);
    ColFromStep(b, c, 0);
    ColFromStep(b, c, 1);
    ColFromStep(b, c, 2);
    ColFromStep(b, c, 3);
    SkipStepFromRow(b, c, 4);
    assert ColIter(b, c) == ColFrom(b, c, 0);
  }

  /** Column c of `[x, y, z, w] x t`: the point's entries weighted by that column. */
  function Combo(p: Mat, t: Mat, c: nat): real
    requires |p.data| == 4 && |t.data| == 16 && c < 4
  {
    p.data[0] * t.data[c] + p.data[1] * t.data[4 + c] + p.data[2] * t.data[8 + c] + p.data[3] * t.data[12 + c]
  }

  /** Entry c of a point [x, y, z, w] times a 4x4 transform. */
  lemma PointTimesAt(p: Mat, t: Mat, c: nat)
    requires Shaped(p) && p.nrows == 1 && p.ncols == 4
    requires Shaped(t) && t.nrows == 4 && t.ncols == 4 && c < 4
    ensures MatMul(p, t).data[c] == Combo(p, t, c)
  {
    ColumnOfFour(t, c);
    MatMulAt(p, t, 0, c);
    assert RowIter(p, 0) == p.data;
    ZipSumOfFour(RowIter(p, 0), ColIter(t, c));
  }

  /** A point [x, y, z, w] times a 4x4 transform, column by column. */
  lemma PointTimes(p: Mat, t: Mat)
    requires Shaped(p) && p.nrows == 1 && p.ncols == 4
    requires Shaped(t) && t.nrows == 4 && t.ncols == 4
    ensures MatMul(p, t) == Mat(1, 4, [Combo(p, t, 0), Combo(p, t, 1), Combo(p, t, 2), Combo(p, t, 3)])
  {
    PointTimesAt(p, t, 0);
    PointTimesAt(p, t, 1);
    PointTimesAt(p, t, 2);
    PointTimesAt(p, t, 3);
    FourEntries(MatMul(p, t).data, Combo(p, t, 0), Combo(p, t, 1), Combo(p, t, 2), Combo(p, t, 3));
  }

  /** The point (x, y, z) as a one-row point matrix with w = 1. */
  function PointRow(x: real, y: real, z: real): (p: Mat)
    ensures Shaped(p) && p.nrows == 1 && p.ncols == 4
  {
    Mat(1, 4, [x, y, z, 1.0])
  }

  /** A point times mv(dx, dy, dz) is the point moved by (dx, dy, dz). */
  lemma MoveTranslates(x: real, y: real, z: real, dx: real, dy: real, dz: real)
    ensures MatMul(PointRow(x, y, z), MoveMat(dx, dy, dz)) == PointRow(x + dx, y + dy, z + dz)
  {
    PointTimes(PointRow(x, y, z), MoveMat(dx, dy, dz));
  }

  /** Moving by (dx, dy, dz) and then by (-dx, -dy, -dz) gives the point back. */
  lemma MoveUndone(x: real, y: real, z: real, dx: real, dy: real, dz: real)
    ensures MatMul(MatMul(PointRow(x, y, z), MoveMat(dx, dy, dz)), MoveMat(-dx, -dy, -dz)) == PointRow(x, y, z)
  {
    MoveTranslates(x, y, z, dx, dy, dz);
    MoveTranslates(x + dx, y + dy, z + dz, -dx, -dy, -dz);
  }

  /** A point times scale(sx, sy, sz) has each coordinate scaled, and w stays 1. */
  lemma ScaleScales(x: real, y: real, z: real, sx: real, sy: real, sz: real)
    ensures MatMul(PointRow(x, y, z), ScaleMat(sx, sy, sz)) == PointRow(sx * x, sy * y, sz * z)
  {
    var p, t := PointRow(x, y, z), ScaleMat(sx, sy, sz);
    PointTimes(p, t);
    assert Combo(p, t, 0) == sx * x && Combo(p, t, 1) == sy * y;
    assert Combo(p, t, 2) == sz * z && Combo(p, t, 3) == 1.0;
  }

  /** The columns of a point times a transform whose entries are given as plain values. */
  lemma CombosOf(p: Mat, t: Mat, x: real, y: real, z: real, e: seq<real>)
    requires p == Mat(1, 4, [x, y, z, 1.0]) && |e| == 16 && t == Mat(4, 4, e)
    ensures Combo(p, t, 0) == x * e[0] + y * e[4] + z * e[8] + e[12]
    ensures Combo(p, t, 1) == x * e[1] + y * e[5] + z * e[9] + e[13]
    ensures Combo(p, t, 2) == x * e[2] + y * e[6] + z * e[10] + e[14]
    ensures Combo(p, t, 3) == x * e[3] + y * e[7] + z * e[11] + e[15]
  {
  }

  /** A point times a transform whose columns are known and whose last column keeps w = 1. */
  lemma PointTimesValues(p: Mat, t: Mat, v0: real, v1: real, v2: real)
    requires Shaped(p) && p.nrows == 1 && p.ncols == 4
    requires Shaped(t) && t.nrows == 4 && t.ncols == 4
    requires Combo(p, t, 0) == v0 && Combo(p, t, 1) == v1 && Combo(p, t, 2) == v2 && Combo(p, t, 3) == 1.0
    ensures MatMul(p, t) == PointRow(v0, v1, v2)
  {
    PointTimes(p, t);
  }

  /** rotatex keeps x and w; y and z turn by the angle. */
  lemma RotXTurns(lib: Libm, deg: real, c: real, s: real, x: real, y: real, z: real)
    requires c == lib.cosDeg(deg) && s == lib.sinDeg(deg)
    ensures MatMul(PointRow(x, y, z), RotXMat(lib, deg)) == PointRow(x, y * c - z * s, y * s + z * c)
  {
    assert RotXMat(lib, deg) == RotXOf(c, s);
    RotXColumns(c, s, x, y, z);
    PointTimesValues(PointRow(x, y, z), RotXOf(c, s), x, y * c - z * s, y * s + z * c);
  }

  lemma RotXColumns(c: real, s: real, x: real, y: real, z: real)
    ensures Combo(PointRow(x, y, z), RotXOf(c, s), 0) == x
    ensures Combo(PointRow(x, y, z), RotXOf(c, s), 1) == y * c - z * s
    ensures Combo(PointRow(x, y, z), RotXOf(c, s), 2) == y * s + z * c
    ensures Combo(PointRow(x, y, z), RotXOf(c, s), 3) == 1.0
  {
    var t := RotXOf(c, s);
    CombosOf(PointRow(x, y, z), t, x, y, z, t.data);
  }

  /** rotatey keeps y and w; z and x turn by the angle. */
  lemma RotYTurns(lib: Libm, deg: real, c: real, s: real, x: real, y: real, z: real)
    requires c == lib.cosDeg(deg) && s == lib.sinDeg(deg)
    ensures MatMul(PointRow(x, y, z), RotYMat(lib, deg)) == PointRow(x * c + z * s, y, z * c - x * s)
  {
    assert RotYMat(lib, deg) == RotYOf(c, s);
    RotYColumns(c, s, x, y, z);
    PointTimesValues(PointRow(x, y, z), RotYOf(c, s), x * c + z * s, y, z * c - x * s);
  }

  lemma RotYColumns(c: real, s: real, x: real, y: real, z: real)
    ensures Combo(PointRow(x, y, z), RotYOf(c, s), 0) == x * c + z * s
    ensures Combo(PointRow(x, y, z), RotYOf(c, s), 1) == y
    ensures Combo(PointRow(x, y, z), RotYOf(c, s), 2) == z * c - x * s
    ensures Combo(PointRow(x, y, z), RotYOf(c, s), 3) == 1.0
  {
    var t := RotYOf(c, s);
    CombosOf(PointRow(x, y, z), t, x, y, z, t.data);
  }

  /** rotatez keeps z and w; x and y turn by the angle. */
  lemma RotZTurns(lib: Libm, deg: real, c: real, s: real, x: real, y: real, z: real)
    requires c == lib.cosDeg(deg) && s == lib.sinDeg(deg)
    ensures MatMul(PointRow(x, y, z), RotZMat(lib, deg)) == PointRow(x * c - y * s, x * s + y * c, z)
  {
    assert RotZMat(lib, deg) == RotZOf(c, s);
    RotZColumns(c, s, x, y, z);
    PointTimesValues(PointRow(x, y, z), RotZOf(c, s), x * c - y * s, x * s + y * c, z);
  }

  lemma RotZColumns(c: real, s: real, x: real, y: real, z: real)
    ensures Combo(PointRow(x, y, z), RotZOf(c, s), 0) == x * c - y * s
    ensures Combo(PointRow(x, y, z), RotZOf(c, s), 1) == x * s + y * c
    ensures Combo(PointRow(x, y, z), RotZOf(c, s), 2) == z
    ensures Combo(PointRow(x, y, z), RotZOf(c, s), 3) == 1.0
  {
    var t := RotZOf(c, s);
    CombosOf(PointRow(x, y, z), t, x, y, z, t.data);
  }

  /** The test of rotatez: the point (1, 0, 0) lands on (cos a, sin a, 0). */
  lemma RotZOfUnitX(lib: Libm, deg: real, c: real, s: real, x: real, y: real, z: real)
    requires c == lib.cosDeg(deg) && s == lib.sinDeg(deg)
    requires x == 1.0 && y == 0.0 && z == 0.0
    ensures MatMul(PointRow(x, y, z), RotZMat(lib, deg)) == PointRow(c, s, z)
  {
    RotZTurns(lib, deg, c, s, x, y, z);
    assert x * c - y * s == c && x * s + y * c == s;
  }

  /** Where cos^2 + sin^2 = 1 holds for the angle, rotatez keeps the distance from the z axis. */
  lemma RotZKeepsLength(lib: Libm, deg: real, x: real, y: real, z: real)
    requires lib.cosDeg(deg) * lib.cosDeg(deg) + lib.sinDeg(deg) * lib.sinDeg(deg) == 1.0
    ensures var q := MatMul(PointRow(x, y, z), RotZMat(lib, deg)).data;
            q[0] * q[0] + q[1] * q[1] == x * x + y * y
  {
    var c, s := lib.cosDeg(deg), lib.sinDeg(deg);
    RotZTurns(lib, deg, c, s, x, y, z);
    assert (x * c - y * s) * (x * c - y * s) + (x * s + y * c) * (x * s + y * c)
        == (x * x + y * y) * (c * c + s * s);
  }

  /** The sixteen entries of ident(4). */
  lemma IdentFourData(m: Mat)
    requires m == IdentMat(4)
    ensures m.data == [1.0, 0.0, 0.0, 0.0, 0.0, 1.0, 0.0, 0.0, 0.0, 0.0, 1.0, 0.0, 0.0, 0.0, 0.0, 1.0]
  {
    forall r, c | 0 <= r < 4 && 0 <= c < 4
      ensures m.data[Index(4, r, c)] == if r == c then 1.0 else 0.0
    {
      PatternEntry(16, 4, r, c);
    }
    assert m.data[0] == 1.0 && m.data[5] == 1.0 && m.data[10] == 1.0 && m.data[15] == 1.0;
  }

  /** mv: ident(4), then set(3, 0, dx), set(3, 1, dy), set(3, 2, dz). */
  method Mv(dx: real, dy: real, dz: real) returns (m: Matrix)
    ensures fresh(m) && m.Valid() && m.Value() == MoveMat(dx, dy, dz)
  {
    m := Ident(4);
    IdentFourData(m.Value());
    m.Set(3, 0, dx);
    m.Set(3, 1, dy);
    m.Set(3, 2, dz);
  }

  /** scale: ident(4), then set(0, 0, sx), set(1, 1, sy), set(2, 2, sz). */
  method Scale(sx: real, sy: real, sz: real) returns (m: Matrix)
    ensures fresh(m) && m.Valid() && m.Value() == ScaleMat(sx, sy, sz)
  {
    m := Ident(4);
    IdentFourData(m.Value());
    m.Set(0, 0, sx);
    m.Set(1, 1, sy);
    m.Set(2, 2, sz);
  }

  /** Every row's w, the entry in column 3, is nonzero. */
  predicate NonzeroW(m: Mat)
    requires Shaped(m) && m.ncols >= 4
  {
    forall r :: 0 <= r < m.nrows ==> At(m, r, 3) != 0.0
  }

  /** Entry (r, c) after perspective_divide: x, y, z divided by w, w set to 1, the rest kept. */
  function DividedAt(m: Mat, r: nat, c: nat): real
    requires Shaped(m) && m.ncols >= 4 && NonzeroW(m) && r < m.nrows && c < m.ncols
  {
    if c < 3 then At(m, r, c) / At(m, r, 3) else if c == 3 then 1.0 else At(m, r, c)
  }

  /** The value after perspective_divide. */
  function PerspectiveDivided(m: Mat): (d: Mat)
    requires Shaped(m) && m.ncols >= 4 && NonzeroW(m)
    ensures Shaped(d) && d.nrows == m.nrows && d.ncols == m.ncols
  {
    Mat(m.nrows, m.ncols, seq(|m.data|, k requires 0 <= k < |m.data| =>
      RowOfPosition(k, m.nrows, m.ncols);
      DividedAt(m, IndexToRc(k, m.ncols).0, IndexToRc(k, m.ncols).1)))
  }

  /** Cell (r, c) of the divided matrix. */
  lemma PerspectiveDividedAt(m: Mat, r: nat, c: nat)
    requires Shaped(m) && m.ncols >= 4 && NonzeroW(m) && r < m.nrows && c < m.ncols
    ensures At(PerspectiveDivided(m), r, c) == DividedAt(m, r, c)
  {
    IndexInRange(m.nrows, m.ncols, r, c);
    RcOfIndex(m.ncols, r, c);
  }

  /**
   * After perspective_divide every point has w = 1 and its x, y, z are the
   * old ones over the old w; the row count is unchanged.
   */
  lemma PerspectiveDivideNormalises(m: Mat, r: nat)
    requires Shaped(m) && m.ncols >= 4 && NonzeroW(m) && r < m.nrows
    ensures PerspectiveDivided(m).nrows == m.nrows
    ensures At(PerspectiveDivided(m), r, 3) == 1.0
    ensures forall c :: 0 <= c < 3 ==> At(PerspectiveDivided(m), r, c) * At(m, r, 3) == At(m, r, c)
  {
    PerspectiveDividedAt(m, r, 3);
    forall c | 0 <= c < 3
      ensures At(PerspectiveDivided(m), r, c) * At(m, r, 3) == At(m, r, c)
    {
      PerspectiveDividedAt(m, r, c);
    }
  }

  /** Dividing a second time changes nothing: every w is already 1. */
  lemma PerspectiveDivideIdempotent(m: Mat)
    requires Shaped(m) && m.ncols >= 4 && NonzeroW(m)
    ensures NonzeroW(PerspectiveDivided(m))
    ensures PerspectiveDivided(PerspectiveDivided(m)) == PerspectiveDivided(m)
  {
    var d := PerspectiveDivided(m);
    forall r | 0 <= r < d.nrows
      ensures At(d, r, 3) == 1.0
    {
      PerspectiveDividedAt(m, r, 3);
    }
    var dd := PerspectiveDivided(d);
    forall r, c | 0 <= r < d.nrows && 0 <= c < d.ncols
      ensures At(dd, r, c) == At(d, r, c)
    {
      PerspectiveDividedAt(d, r, c);
    }
    MatEqual(dd, d);
  }

  /** The cell a row-major position holds, once the row's start is known. */
  lemma PositionInRow(ncols: nat, r: nat, k: nat)
    requires r * ncols <= k < r * ncols + ncols
    ensures ncols > 0 && IndexToRc(k, ncols) == (r, k - r * ncols)
  {
    RcOfIndex(ncols, r, k - r * ncols);
  }

  /** perspective_divide: every row [x, y, z, w, ...] becomes [x/w, y/w, z/w, 1, ...], in place. */
  method PerspectiveDivide(m: Matrix)
    requires m.Valid() && m.ncols >= 4 && NonzeroW(m.Value())
    modifies m
    ensures m.Valid() && m.Value() == PerspectiveDivided(old(m.Value()))
  {
    ghost var m0 := m.Value();
    ghost var target := PerspectiveDivided(m0).data;
    var r := 0;
    while r < m.nrows
      invariant r <= m.nrows
      invariant m.nrows == m0.nrows && m.ncols == m0.ncols && |m.data| == |m0.data|
      invariant forall k :: 0 <= k < |m.data| ==>
        m.data[k] == if k < r * m.ncols then target[k] else m0.data[k]
    {
      RowInRange(m.nrows, m.ncols, r);
      var base := r * m.ncols;
      var x, y, z, w := m.data[base], m.data[base + 1], m.data[base + 2], m.data[base + 3];
      assert w == At(m0, r, 3);
      m.data := m.data[base := x / w][base + 1 := y / w][base + 2 := z / w][base + 3 := 1.0];
      forall k | base <= k < base + m.ncols
        ensures m.data[k] == target[k]
      {
        PositionInRow(m.ncols, r, k);
        PerspectiveDividedAt(m0, r, k - base);
      }
      NextRowStart(m.ncols, 0, r);
      r := r + 1;
    }
    assert m.data == target;
  }
}
