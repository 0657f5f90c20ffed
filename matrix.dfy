// The row-major point matrix of the graphics tree
// (src/graphics/matrix/mod.rs). Each row is one point. `Mat` is the value of
// a matrix and carries the specification; `Matrix` is the object whose
// methods update it in place.
module Matrices {
  import opened Wrappers

  /** The value of a matrix: its shape and its row-major data. */
  datatype Mat = Mat(nrows: nat, ncols: nat, data: seq<real>)

  /** The invariant that every constructor asserts: nrows * ncols == data.len(). */
  predicate Shaped(m: Mat) {
    |m.data| == m.nrows * m.ncols
  }

  /** Matrix::index: the row-major position of (row, col). */
  function Index(ncols: nat, row: nat, col: nat): nat {
    row * ncols + col
  }

  lemma MulLeMono(a: int, b: int, n: int)
    requires n >= 0 && a <= b
    ensures a * n <= b * n
  {
    assert b * n - a * n == (b - a) * n;
  }

  lemma MultipleBounds(d: int, n: int)
    requires n > 0
    ensures d >= 1 ==> d * n >= n
    ensures d <= -1 ==> d * n <= -n
  {
    if d >= 1 {
      MulLeMono(1, d, n);
    } else if d <= -1 {
      MulLeMono(d, -1, n);
    }
  }

  /** Euclidean division has one quotient and one remainder. */
  lemma DivModUnique(k: int, n: int, q: int, r: int)
    requires n > 0 && 0 <= r < n && k == q * n + r
    ensures k / n == q && k % n == r
  {
    var d := k / n - q;
    assert d * n == k / n * n - q * n;
    MultipleBounds(d, n);
  }

  lemma IndexInRange(nrows: nat, ncols: nat, row: nat, col: nat)
    requires row < nrows && col < ncols
    ensures Index(ncols, row, col) < nrows * ncols
  {
    MulLeMono(row + 1, nrows, ncols);
    assert (row + 1) * ncols == row * ncols + ncols;
  }

  /** Matrix::index_to_rc: the (row, col) of a row-major position. */
  function IndexToRc(i: nat, ncols: nat): (rc: (nat, nat))
    requires ncols > 0
    ensures rc.1 < ncols && Index(ncols, rc.0, rc.1) == i
  {
    (i / ncols, i % ncols)
  }

  /** index_to_rc undoes index. */
  lemma RcOfIndex(ncols: nat, row: nat, col: nat)
    requires col < ncols
    ensures Index(ncols, row, col) / ncols == row
    ensures Index(ncols, row, col) % ncols == col
  {
    DivModUnique(row * ncols + col, ncols, row, col);
  }

  lemma ZeroColumns(nrows: nat, ncols: nat)
    requires ncols == 0
    ensures nrows * ncols == 0
  {
  }

  /** A position inside nrows * ncols lies in a row below nrows. */
  lemma RowOfPosition(k: nat, nrows: nat, ncols: nat)
    requires k < nrows * ncols
    ensures ncols > 0 && IndexToRc(k, ncols).0 < nrows
  {
    if ncols == 0 {
      ZeroColumns(nrows, ncols);
      assert false;
    } else {
      var q := k / ncols;
      assert k == q * ncols + k % ncols;
      if q >= nrows {
        MulLeMono(nrows, q, ncols);
      }
    }
  }

  /** The entry at (row, col) of a well-shaped matrix. */
  function At(m: Mat, row: nat, col: nat): real
    requires Shaped(m) && row < m.nrows && col < m.ncols
  {
    IndexInRange(m.nrows, m.ncols, row, col);
    m.data[Index(m.ncols, row, col)]
  }

  /** Matrix::new and Matrix::new_clone_vec assert the shape. */
  function NewMat(nrows: nat, ncols: nat, data: seq<real>): (m: Mat)
    requires nrows * ncols == |data|
    ensures Shaped(m) && m.nrows == nrows && m.ncols == ncols && m.data == data
  {
    Mat(nrows, ncols, data)
  }

  /** The outcome of Matrix::get as written, which can index past the data. */
  datatype Lookup = Missing | Found(value: real) | IndexPanic

  /** Matrix::get as written: the guard uses `>` where `>=` was meant. */
  function GetAsWritten(m: Mat, row: nat, col: nat): Lookup {
    if row > m.nrows || col > m.ncols then Missing
    else if Index(m.ncols, row, col) < |m.data| then Found(m.data[Index(m.ncols, row, col)])
    else IndexPanic
  }

  /** Matrix::get with the intended guard: Some exactly for the cells of the matrix. */
  function Get(m: Mat, row: nat, col: nat): (r: Option<real>)
    requires Shaped(m)
    ensures r.Some? <==> row < m.nrows && col < m.ncols
    ensures r.Some? ==> r.value == At(m, row, col)
  {
    if row >= m.nrows || col >= m.ncols then None else Some(At(m, row, col))
  }

  /** Inside the matrix the guard as written and the intended guard agree. */
  lemma GetAsWrittenInside(m: Mat, row: nat, col: nat)
    requires Shaped(m) && row < m.nrows && col < m.ncols
    ensures GetAsWritten(m, row, col) == Found(At(m, row, col))
  {
    IndexInRange(m.nrows, m.ncols, row, col);
  }

  /**
   * On the 2x2 matrix [a, b; c, d] the guard as written answers get(0, 2)
   * with the cell (1, 0) and panics on get(2, 0); the intended guard
   * answers None to both.
   */
  lemma GetAsWrittenOffByOne(a: real, b: real, c: real, d: real)
    ensures GetAsWritten(Mat(2, 2, [a, b, c, d]), 0, 2) == Found(c)
    ensures GetAsWritten(Mat(2, 2, [a, b, c, d]), 2, 0) == IndexPanic
    ensures Get(Mat(2, 2, [a, b, c, d]), 0, 2) == None
    ensures Get(Mat(2, 2, [a, b, c, d]), 2, 0) == None
  {
  }

  /** The value after Matrix::set: one cell replaced. */
  function SetAt(m: Mat, row: nat, col: nat, v: real): (r: Mat)
    requires Shaped(m) && row < m.nrows && col < m.ncols
    ensures Shaped(r) && r.nrows == m.nrows && r.ncols == m.ncols
  {
    IndexInRange(m.nrows, m.ncols, row, col);
    Mat(m.nrows, m.ncols, m.data[Index(m.ncols, row, col) := v])
  }

  /** set changes the cell it names and no other. */
  lemma SetAtChangesOneCell(m: Mat, row: nat, col: nat, v: real, i: nat, j: nat)
    requires Shaped(m) && row < m.nrows && col < m.ncols && i < m.nrows && j < m.ncols
    ensures At(SetAt(m, row, col, v), i, j) == if i == row && j == col then v else At(m, i, j)
  {
    IndexInRange(m.nrows, m.ncols, row, col);
    IndexInRange(m.nrows, m.ncols, i, j);
    if i != row || j != col {
      RcOfIndex(m.ncols, row, col);
      RcOfIndex(m.ncols, i, j);
    }
  }

  lemma RowInRange(nrows: nat, ncols: nat, r: nat)
    requires r < nrows
    ensures r * ncols + ncols <= nrows * ncols
  {
    MulLeMono(r + 1, nrows, ncols);
    assert (r + 1) * ncols == r * ncols + ncols;
  }

  /** Matrix::row_iter: the slice of row r. */
  function RowIter(m: Mat, r: nat): (s: seq<real>)
    requires Shaped(m) && r < m.nrows
    ensures |s| == m.ncols
  {
    RowInRange(m.nrows, m.ncols, r);
    m.data[r * m.ncols .. r * m.ncols + m.ncols]
  }

  /** `iter().skip(start).step_by(step)` over a sequence. */
  function SkipStep(s: seq<real>, start: nat, step: nat): seq<real>
    requires step > 0
    decreases |s| - start
  {
    if start >= |s| then [] else [s[start]] + SkipStep(s, start + step, step)
  }

  /** Matrix::col_iter; step_by(0) panics, so a matrix with columns is required. */
  function ColIter(m: Mat, c: nat): seq<real>
    requires m.ncols > 0
  {
    SkipStep(m.data, c, m.ncols)
  }

  /** Row r of a matrix, entry by entry. */
  lemma RowIterAt(m: Mat, r: nat, k: nat)
    requires Shaped(m) && r < m.nrows && k < m.ncols
    ensures RowIter(m, r)[k] == At(m, r, k)
  {
    RowInRange(m.nrows, m.ncols, r);
  }

  /** col_iter(c) of a well-shaped matrix walks down column c. */
  lemma ColIterIsColumn(m: Mat, c: nat)
    requires Shaped(m) && c < m.ncols
    ensures |ColIter(m, c)| == m.nrows
    ensures forall k :: 0 <= k < m.nrows ==> ColIter(m, c)[k] == At(m, k, c)
  {
    SkipStepFromRow(m, c, 0);
    assert ColIter(m, c) == ColFrom(m, c, 0);
  }

  /** The column iterator started at row j: `skip(j * ncols + c).step_by(ncols)`. */
  function ColFrom(m: Mat, c: nat, j: nat): seq<real>
    requires m.ncols > 0
  {
    SkipStep(m.data, j * m.ncols + c, m.ncols)
  }

  lemma {:induction false} SkipStepFromRow(m: Mat, c: nat, j: nat)
    requires Shaped(m) && c < m.ncols && j <= m.nrows
    ensures |ColFrom(m, c, j)| == m.nrows - j
    ensures forall k :: 0 <= k < m.nrows - j ==> ColFrom(m, c, j)[k] == At(m, j + k, c)
    decreases m.nrows - j
  {
    if j == m.nrows {
      assert j * m.ncols + c >= |m.data|;
    } else {
      IndexInRange(m.nrows, m.ncols, j, c);
      NextRowStart(m.ncols, c, j);
      SkipStepFromRow(m, c, j + 1);
      ColFromStep(m, c, j);
    }
  }

  lemma NextRowStart(ncols: nat, c: nat, j: nat)
    ensures (j + 1) * ncols + c == j * ncols + c + ncols
  {
  }

  /** One step of the column iterator: the entry of row j, then the rest from row j + 1. */
  lemma ColFromStep(m: Mat, c: nat, j: nat)
    requires Shaped(m) && c < m.ncols && j < m.nrows
    ensures Index(m.ncols, j, c) < |m.data|
    ensures ColFrom(m, c, j) == [m.data[Index(m.ncols, j, c)]] + ColFrom(m, c, j + 1)
  {
    IndexInRange(m.nrows, m.ncols, j, c);
    NextRowStart(m.ncols, c, j);
  }

  /** Matrix::iter_by_row: `chunks(ncols)`, the rows in order. */
  function Rows(m: Mat): (rows: seq<seq<real>>)
    requires Shaped(m) && m.ncols > 0
    ensures |rows| == m.nrows
    ensures forall r :: 0 <= r < m.nrows ==> rows[r] == RowIter(m, r)
  {
    seq(m.nrows, r requires 0 <= r < m.nrows => RowIter(m, r))
  }

  /**
   * The closure of the fold `|sum, (a, b)| sum + a * b` over `zip`, which
   * stops at the shorter sequence. Written from the back so that the sum is
   * built in the same left-to-right order as the fold.
   */
  function ZipSum(a: seq<real>, b: seq<real>): real
    decreases |a| + |b|
  {
    if |a| == 0 || |b| == 0 then 0.0
    else if |a| > |b| then ZipSum(a[..|b|], b)
    else if |b| > |a| then ZipSum(a, b[..|a|])
    else ZipSum(a[..|a| - 1], b[..|b| - 1]) + a[|a| - 1] * b[|b| - 1]
  }

  /** The fold does not care which sequence comes first. */
  lemma {:induction false} ZipSumSymmetric(a: seq<real>, b: seq<real>)
    ensures ZipSum(a, b) == ZipSum(b, a)
    decreases |a| + |b|
  {
    if |a| == 0 || |b| == 0 {
    } else if |a| > |b| {
      ZipSumSymmetric(a[..|b|], b);
    } else if |b| > |a| {
      ZipSumSymmetric(a, b[..|a|]);
    } else {
      ZipSumSymmetric(a[..|a| - 1], b[..|b| - 1]);
    }
  }

  /** Against the j-th unit vector the fold picks out a[j]. */
  lemma {:induction false} ZipSumUnit(a: seq<real>, e: seq<real>, j: nat)
    requires |a| == |e| && j < |e|
    requires forall k :: 0 <= k < |e| ==> e[k] == if k == j then 1.0 else 0.0
    ensures ZipSum(a, e) == a[j]
    decreases |a|
  {
    var n := |a|;
    if j == n - 1 {
      ZipSumZero(a[..n - 1], e[..n - 1]);
    } else {
      ZipSumUnit(a[..n - 1], e[..n - 1], j);
    }
  }

  lemma {:induction false} ZipSumZero(a: seq<real>, e: seq<real>)
    requires |a| == |e|
    requires forall k :: 0 <= k < |e| ==> e[k] == 0.0
    ensures ZipSum(a, e) == 0.0
    decreases |a|
  {
    if |a| > 0 {
      ZipSumZero(a[..|a| - 1], e[..|e| - 1]);
    }
  }

  /** Entry k of the product: the fold of row r with column c, for (r, c) = index_to_rc(k). */
  function MulEntry(a: Mat, b: Mat, k: nat): real
    requires Shaped(a) && Shaped(b) && a.ncols == b.nrows
    requires k < a.nrows * b.ncols
  {
    RowOfPosition(k, a.nrows, b.ncols);
    var rc := IndexToRc(k, b.ncols);
    ZipSum(RowIter(a, rc.0), ColIter(b, rc.1))
  }

  /** The value of `a._mul(b)`. */
  function MatMul(a: Mat, b: Mat): (p: Mat)
    requires Shaped(a) && Shaped(b) && a.ncols == b.nrows
    ensures Shaped(p) && p.nrows == a.nrows && p.ncols == b.ncols
  {
    Mat(a.nrows, b.ncols, seq(a.nrows * b.ncols, k requires 0 <= k < a.nrows * b.ncols => MulEntry(a, b, k)))
  }

  /** Each entry of the product is the sum over the shared dimension of row times column. */
  lemma MatMulAt(a: Mat, b: Mat, r: nat, c: nat)
    requires Shaped(a) && Shaped(b) && a.ncols == b.nrows && r < a.nrows && c < b.ncols
    ensures At(MatMul(a, b), r, c) == ZipSum(RowIter(a, r), ColIter(b, c))
  {
    IndexInRange(a.nrows, b.ncols, r, c);
    RcOfIndex(b.ncols, r, c);
  }

  /** Two well-shaped matrices of one shape that agree everywhere are equal. */
  lemma MatEqual(p: Mat, q: Mat)
    requires Shaped(p) && Shaped(q) && p.nrows == q.nrows && p.ncols == q.ncols
    requires forall r, c :: 0 <= r < p.nrows && 0 <= c < p.ncols ==> At(p, r, c) == At(q, r, c)
    ensures p == q
  {
    forall k | 0 <= k < |p.data|
      ensures p.data[k] == q.data[k]
    {
      RowOfPosition(k, p.nrows, p.ncols);
      var (r, c) := IndexToRc(k, p.ncols);
      assert k == Index(p.ncols, r, c);
      assert At(p, r, c) == At(q, r, c);
    }
  }

  /** The value of Matrix::ident(n): ones on the diagonal, zeros elsewhere. */
  function IdentMat(n: nat): (m: Mat)
    ensures Shaped(m) && m.nrows == n && m.ncols == n
  {
    Mat(n, n, IdentPattern(n * n, n))
  }

  /**
   * The data `to_ident` writes into a buffer of the given length with ncols
   * columns: 1 where index_to_rc gives row == col, 0 elsewhere.
   */
  function IdentPattern(len: nat, ncols: nat): (s: seq<real>)
    ensures |s| == len
  {
    seq(len, k requires 0 <= k < len => if OnDiagonal(k, ncols) then 1.0 else 0.0)
  }

  /** Whether index_to_rc puts position k on the diagonal. */
  predicate OnDiagonal(k: nat, ncols: nat) {
    ncols > 0 && IndexToRc(k, ncols).0 == IndexToRc(k, ncols).1
  }

  lemma IdentAt(n: nat, r: nat, c: nat)
    requires r < n && c < n
    ensures At(IdentMat(n), r, c) == if r == c then 1.0 else 0.0
  {
    IndexInRange(n, n, r, c);
    RcOfIndex(n, r, c);
  }

  /** Multiplying by the identity on the left changes nothing. */
  lemma IdentMulLeft(m: Mat)
    requires Shaped(m)
    ensures MatMul(IdentMat(m.nrows), m) == m
  {
    var n := m.nrows;
    var p := MatMul(IdentMat(n), m);
    forall r, c | 0 <= r < n && 0 <= c < m.ncols
      ensures At(p, r, c) == At(m, r, c)
    {
      MatMulAt(IdentMat(n), m, r, c);
      ColIterIsColumn(m, c);
      var row := RowIter(IdentMat(n), r);
      forall k | 0 <= k < n
        ensures row[k] == if k == r then 1.0 else 0.0
      {
        RowIterAt(IdentMat(n), r, k);
        IdentAt(n, r, k);
      }
      ZipSumSymmetric(row, ColIter(m, c));
      ZipSumUnit(ColIter(m, c), row, r);
    }
    MatEqual(p, m);
  }

  /** Multiplying by the identity on the right changes nothing. */
  lemma IdentMulRight(m: Mat)
    requires Shaped(m)
    ensures MatMul(m, IdentMat(m.ncols)) == m
  {
    var n := m.ncols;
    var p := MatMul(m, IdentMat(n));
    forall r, c | 0 <= r < m.nrows && 0 <= c < n
      ensures At(p, r, c) == At(m, r, c)
    {
      MatMulAt(m, IdentMat(n), r, c);
      ColIterIsColumn(IdentMat(n), c);
      var col := ColIter(IdentMat(n), c);
      forall k | 0 <= k < n
        ensures col[k] == if k == c then 1.0 else 0.0
      {
        IdentAt(n, k, c);
      }
      RowIterAt(m, r, c);
      ZipSumUnit(RowIter(m, r), col, c);
    }
    MatEqual(p, m);
  }

  /** Entry k of `self.transposed_mul(other)`: column c of self against row r of other, for (r, c) = index_to_rc(k). */
  function TransposedEntry(s: Mat, o: Mat, k: nat): real
    requires Shaped(s) && Shaped(o) && s.ncols > 0
    requires k < o.nrows * s.nrows
  {
    RowOfPosition(k, o.nrows, s.nrows);
    var rc := IndexToRc(k, s.nrows);
    ZipSum(ColIter(s, rc.1), RowIter(o, rc.0))
  }

  /** The value of `s.transposed_mul(o)`, which asserts s.nrows == o.ncols. */
  function TransposedMul(s: Mat, o: Mat): (p: Mat)
    requires Shaped(s) && Shaped(o) && s.nrows == o.ncols && s.ncols > 0
    ensures Shaped(p) && p.nrows == o.nrows && p.ncols == s.nrows
  {
    Mat(o.nrows, s.nrows, seq(o.nrows * s.nrows, k requires 0 <= k < o.nrows * s.nrows => TransposedEntry(s, o, k)))
  }

  /** For a square s, s.transposed_mul(o) is the product o * s. */
  lemma TransposedMulIsSwappedMul(s: Mat, o: Mat)
    requires Shaped(s) && Shaped(o) && s.nrows == o.ncols && s.nrows == s.ncols && s.ncols > 0
    ensures TransposedMul(s, o) == MatMul(o, s)
  {
    var p, q := TransposedMul(s, o), MatMul(o, s);
    forall r, c | 0 <= r < p.nrows && 0 <= c < p.ncols
      ensures At(p, r, c) == At(q, r, c)
    {
      IndexInRange(p.nrows, p.ncols, r, c);
      RcOfIndex(p.ncols, r, c);
      MatMulAt(o, s, r, c);
      ZipSumSymmetric(ColIter(s, c), RowIter(o, r));
    }
    MatEqual(p, q);
  }

  /** The fold over two three-entry sequences, written out. */
  lemma ZipSumOfThree(a: seq<real>, b: seq<real>)
    requires |a| == 3 && |b| == 3
    ensures ZipSum(a, b) == a[0] * b[0] + a[1] * b[1] + a[2] * b[2]
  {
    assert a[..2][..1] == a[..1] && b[..2][..1] == b[..1];
    assert a[..1][..0] == [] && b[..1][..0] == [];
    assert ZipSum(a[..1], b[..1]) == a[0] * b[0];
    assert ZipSum(a[..2], b[..2]) == ZipSum(a[..1], b[..1]) + a[1] * b[1];
  }

  /** Column c of a three-row matrix, as a sequence of its data. */
  lemma ColumnOfThree(b: Mat, c: nat)
    requires Shaped(b) && b.nrows == 3 && c < b.ncols
    ensures 2 * b.ncols + c < |b.data|
    ensures ColIter(b, c) == [b.data[c], b.data[b.ncols + c], b.data[2 * b.ncols + c]]
  {
    IndexInRange(3, b.ncols, 2, c);
    ColFromStep(b, c, 0);
    ColFromStep(b, c, 1);
    ColFromStep(b, c, 2);
    SkipStepFromRow(b, c, 3);
    assert ColIter(b, c) == ColFrom(b, c, 0);
  }

  /** A cell of a product whose shared dimension is three, in terms of the row-major data. */
  lemma ProductCell(a: Mat, b: Mat, r: nat, c: nat)
    requires Shaped(a) && Shaped(b) && a.ncols == 3 && b.nrows == 3 && r < a.nrows && c < b.ncols
    ensures 3 * r + 2 < |a.data| && 2 * b.ncols + c < |b.data|
    ensures Index(b.ncols, r, c) < |MatMul(a, b).data|
    ensures MatMul(a, b).data[Index(b.ncols, r, c)]
         == a.data[3 * r] * b.data[c] + a.data[3 * r + 1] * b.data[b.ncols + c]
          + a.data[3 * r + 2] * b.data[2 * b.ncols + c]
  {
    ColumnOfThree(b, c);
    RowInRange(a.nrows, 3, r);
    IndexInRange(a.nrows, b.ncols, r, c);
    MatMulAt(a, b, r, c);
    ZipSumOfThree(RowIter(a, r), ColIter(b, c));
  }

  /** A four-entry sequence is the display of its entries. */
  lemma FourEntries(s: seq<real>, e0: real, e1: real, e2: real, e3: real)
    requires |s| == 4 && s[0] == e0 && s[1] == e1 && s[2] == e2 && s[3] == e3
    ensures s == [e0, e1, e2, e3]
  {
  }

  /** The top row of a 2x3 times 3x2 product. */
  lemma ProductTwoByTwoTop(a: Mat, b: Mat)
    requires Shaped(a) && Shaped(b) && a.nrows == 2 && a.ncols == 3 && b.nrows == 3 && b.ncols == 2
    ensures MatMul(a, b).data[0] == a.data[0] * b.data[0] + a.data[1] * b.data[2] + a.data[2] * b.data[4]
    ensures MatMul(a, b).data[1] == a.data[0] * b.data[1] + a.data[1] * b.data[3] + a.data[2] * b.data[5]
  {
    ProductCell(a, b, 0, 0);
    ProductCell(a, b, 0, 1);
  }

  /** The bottom row of a 2x3 times 3x2 product. */
  lemma ProductTwoByTwoBottom(a: Mat, b: Mat)
    requires Shaped(a) && Shaped(b) && a.nrows == 2 && a.ncols == 3 && b.nrows == 3 && b.ncols == 2
    ensures MatMul(a, b).data[2] == a.data[3] * b.data[0] + a.data[4] * b.data[2] + a.data[5] * b.data[4]
    ensures MatMul(a, b).data[3] == a.data[3] * b.data[1] + a.data[4] * b.data[3] + a.data[5] * b.data[5]
  {
    ProductCell(a, b, 1, 0);
    ProductCell(a, b, 1, 1);
  }

  /** The test multiply_with_method: a 2x3 times a 3x2 matrix. */
  lemma MulExample(a: Mat, b: Mat)
    requires a == Mat(2, 3, [1.0, 2.0, 3.0, 4.0, 5.0, 6.0])
    requires b == Mat(3, 2, [7.0, 8.0, 9.0, 10.0, 11.0, 12.0])
    ensures Shaped(a) && Shaped(b) && a.ncols == b.nrows
    ensures MatMul(a, b) == Mat(2, 2, [58.0, 64.0, 139.0, 154.0])
  {
    TwoByTwoValues(a, b, 58.0, 64.0, 139.0, 154.0);
  }

  /** A 2x3 times 3x2 product whose four sums are known. */
  lemma TwoByTwoValues(a: Mat, b: Mat, v0: real, v1: real, v2: real, v3: real)
    requires Shaped(a) && Shaped(b) && a.nrows == 2 && a.ncols == 3 && b.nrows == 3 && b.ncols == 2
    requires v0 == a.data[0] * b.data[0] + a.data[1] * b.data[2] + a.data[2] * b.data[4]
    requires v1 == a.data[0] * b.data[1] + a.data[1] * b.data[3] + a.data[2] * b.data[5]
    requires v2 == a.data[3] * b.data[0] + a.data[4] * b.data[2] + a.data[5] * b.data[4]
    requires v3 == a.data[3] * b.data[1] + a.data[4] * b.data[3] + a.data[5] * b.data[5]
    ensures MatMul(a, b) == Mat(2, 2, [v0, v1, v2, v3])
  {
    ProductTwoByTwoTop(a, b);
    ProductTwoByTwoBottom(a, b);
    FourEntries(MatMul(a, b).data, v0, v1, v2, v3);
  }

  /** The left half of a 1x3 times 3x4 product. */
  lemma ProductRowLeft(a: Mat, b: Mat)
    requires Shaped(a) && Shaped(b) && a.nrows == 1 && a.ncols == 3 && b.nrows == 3 && b.ncols == 4
    ensures MatMul(a, b).data[0] == a.data[0] * b.data[0] + a.data[1] * b.data[4] + a.data[2] * b.data[8]
    ensures MatMul(a, b).data[1] == a.data[0] * b.data[1] + a.data[1] * b.data[5] + a.data[2] * b.data[9]
  {
    ProductCell(a, b, 0, 0);
    ProductCell(a, b, 0, 1);
  }

  /** The right half of a 1x3 times 3x4 product. */
  lemma ProductRowRight(a: Mat, b: Mat)
    requires Shaped(a) && Shaped(b) && a.nrows == 1 && a.ncols == 3 && b.nrows == 3 && b.ncols == 4
    ensures MatMul(a, b).data[2] == a.data[0] * b.data[2] + a.data[1] * b.data[6] + a.data[2] * b.data[10]
    ensures MatMul(a, b).data[3] == a.data[0] * b.data[3] + a.data[1] * b.data[7] + a.data[2] * b.data[11]
  {
    ProductCell(a, b, 0, 2);
    ProductCell(a, b, 0, 3);
  }

  /** The test multiple_and_mutate_b: a 1x3 row times a 3x4 matrix. */
  lemma MulRowExample(a: Mat, b: Mat)
    requires a == Mat(1, 3, [3.0, 4.0, 2.0])
    requires b == Mat(3, 4, [13.0, 9.0, 7.0, 15.0, 8.0, 7.0, 4.0, 6.0, 6.0, 4.0, 0.0, 3.0])
    ensures Shaped(a) && Shaped(b) && a.ncols == b.nrows
    ensures MatMul(a, b) == Mat(1, 4, [83.0, 63.0, 37.0, 75.0])
  {
    RowByFourValues(a, b, 83.0, 63.0, 37.0, 75.0);
  }

  /** A 1x3 times 3x4 product whose four sums are known. */
  lemma RowByFourValues(a: Mat, b: Mat, v0: real, v1: real, v2: real, v3: real)
    requires Shaped(a) && Shaped(b) && a.nrows == 1 && a.ncols == 3 && b.nrows == 3 && b.ncols == 4
    requires v0 == a.data[0] * b.data[0] + a.data[1] * b.data[4] + a.data[2] * b.data[8]
    requires v1 == a.data[0] * b.data[1] + a.data[1] * b.data[5] + a.data[2] * b.data[9]
    requires v2 == a.data[0] * b.data[2] + a.data[1] * b.data[6] + a.data[2] * b.data[10]
    requires v3 == a.data[0] * b.data[3] + a.data[1] * b.data[7] + a.data[2] * b.data[11]
    ensures MatMul(a, b) == Mat(1, 4, [v0, v1, v2, v3])
  {
    ProductRowLeft(a, b);
    ProductRowRight(a, b);
    FourEntries(MatMul(a, b).data, v0, v1, v2, v3);
  }

  /** Entry (r, c) of the to_ident pattern is 1 exactly on the diagonal. */
  lemma PatternEntry(len: nat, n: nat, r: nat, c: nat)
    requires c < n && Index(n, r, c) < len
    ensures IdentPattern(len, n)[Index(n, r, c)] == if r == c then 1.0 else 0.0
  {
    RcOfIndex(n, r, c);
  }

  /** Row r of the 3x3 identity pattern: a 1 in column r, 0 in the other columns c0 and c1. */
  lemma IdentThreeRow(r: nat, c0: nat, c1: nat)
    requires r < 3 && c0 < 3 && c1 < 3 && c0 != r && c1 != r
    ensures IdentPattern(9, 3)[3 * r + r] == 1.0
    ensures IdentPattern(9, 3)[3 * r + c0] == 0.0
    ensures IdentPattern(9, 3)[3 * r + c1] == 0.0
  {
    PatternEntry(9, 3, r, r);
    PatternEntry(9, 3, r, c0);
    PatternEntry(9, 3, r, c1);
  }

  /** The nine entries of the 3x3 identity pattern. */
  lemma IdentThreeRows(s: seq<real>)
    requires s == IdentPattern(9, 3)
    ensures s[0] == 1.0 && s[1] == 0.0 && s[2] == 0.0
    ensures s[3] == 0.0 && s[4] == 1.0 && s[5] == 0.0
    ensures s[6] == 0.0 && s[7] == 0.0 && s[8] == 1.0
  {
    IdentThreeRow(0, 1, 2);
    IdentThreeRow(1, 0, 2);
    IdentThreeRow(2, 0, 1);
  }

  /** A nine-entry sequence is the display of its entries. */
  lemma NineEntries(s: seq<real>, e: seq<real>)
    requires |s| == 9 && |e| == 9
    requires s[0] == e[0] && s[1] == e[1] && s[2] == e[2] && s[3] == e[3] && s[4] == e[4]
    requires s[5] == e[5] && s[6] == e[6] && s[7] == e[7] && s[8] == e[8]
    ensures s == e
  {
  }

  /** The test test_new_ident: ident(3). */
  lemma IdentThreeExample(m: Mat)
    requires m == IdentMat(3)
    ensures m == Mat(3, 3, [1.0, 0.0, 0.0, 0.0, 1.0, 0.0, 0.0, 0.0, 1.0])
  {
    IdentThreeRows(m.data);
    NineEntries(m.data, [1.0, 0.0, 0.0, 0.0, 1.0, 0.0, 0.0, 0.0, 1.0]);
  }

  /** The test test_new_ident: the 1x1 edge case. */
  lemma IdentOneExample()
    ensures IdentMat(1) == Mat(1, 1, [1.0])
  {
    PatternEntry(1, 1, 0, 0);
  }

  /** to_ident on a square matrix, whatever its entries, yields ident of that size. */
  lemma ToIdentOfSquare(m: Mat)
    requires Shaped(m) && m.nrows == m.ncols
    ensures Mat(m.nrows, m.ncols, IdentPattern(|m.data|, m.ncols)) == IdentMat(m.nrows)
    ensures forall r, c :: 0 <= r < m.nrows && 0 <= c < m.ncols ==>
      At(Mat(m.nrows, m.ncols, IdentPattern(|m.data|, m.ncols)), r, c) == if r == c then 1.0 else 0.0
  {
    forall r, c | 0 <= r < m.nrows && 0 <= c < m.ncols
      ensures At(IdentMat(m.nrows), r, c) == if r == c then 1.0 else 0.0
    {
      IdentAt(m.nrows, r, c);
    }
  }

  /** Matrix objects: the value above, updated in place by the methods below. */
  class Matrix {
    var nrows: nat
    var ncols: nat
    var data: seq<real>

    predicate Valid()
      reads this
    {
      |data| == nrows * ncols
    }

    function Value(): Mat
      reads this
    {
      Mat(nrows, ncols, data)
    }

    /** Matrix::new and Matrix::new_clone_vec. */
    constructor (nrows: nat, ncols: nat, data: seq<real>)
      requires nrows * ncols == |data|
      ensures Valid() && Value() == Mat(nrows, ncols, data)
    {
      this.nrows := nrows;
      this.ncols := ncols;
      this.data := data;
    }

    /** Matrix::set asserts the cell is inside the matrix. */
    method Set(row: nat, col: nat, v: real)
      requires Valid() && row < nrows && col < ncols
      modifies this
      ensures Valid() && Value() == SetAt(old(Value()), row, col, v)
    {
      IndexInRange(nrows, ncols, row, col);
      data := data[Index(ncols, row, col) := v];
    }

    /** Matrix::clear: no rows, no data, the same number of columns. */
    method Clear()
      modifies this
      ensures Valid() && Value() == Mat(0, old(ncols), [])
    {
      nrows := 0;
      data := [];
    }

    /** Matrix::append_row asserts the row has ncols entries. */
    method AppendRow(row: seq<real>)
      requires Valid() && |row| == ncols
      modifies this
      ensures Valid() && Value() == Mat(old(nrows) + 1, ncols, old(data) + row)
    {
      data := data + row;
      nrows := nrows + 1;
    }

    /** Matrix::to_ident: overwrites every entry in place, whatever the shape. */
    method ToIdent()
      requires Valid()
      modifies this
      ensures Valid() && Value() == Mat(old(nrows), old(ncols), IdentPattern(old(|data|), old(ncols)))
    {
      var i := 0;
      while i < |data|
        invariant 0 <= i <= |data| == old(|data|)
        invariant nrows == old(nrows) && ncols == old(ncols)
        invariant data[..i] == IdentPattern(|data|, ncols)[..i]
      {
        var d := if OnDiagonal(i, ncols) then 1.0 else 0.0;
        data := data[i := d];
        i := i + 1;
      }
      assert data == data[..i];
    }

    /** `self._mul(other)`: a new matrix filled entry by entry. */
    method Mul(other: Matrix) returns (p: Matrix)
      requires Valid() && other.Valid() && ncols == other.nrows
      ensures fresh(p) && p.Valid() && p.Value() == MatMul(Value(), other.Value())
    {
      var a, b := Value(), other.Value();
      var frows, fcols := nrows, other.ncols;
      var fdata: seq<real> := seq(frows * fcols, _ => 0.0);
      var i := 0;
      while i < |fdata|
        invariant 0 <= i <= |fdata| == frows * fcols
        invariant forall k :: 0 <= k < i ==> fdata[k] == MulEntry(a, b, k)
      {
        RowOfPosition(i, frows, fcols);
        var (r, c) := IndexToRc(i, fcols);
        fdata := fdata[i := ZipSum(RowIter(a, r), ColIter(b, c))];
        i := i + 1;
      }
      p := new Matrix(frows, fcols, fdata);
    }

    /** `self.transposed_mul(other)`. */
    method TransposedMulBy(other: Matrix) returns (p: Matrix)
      requires Valid() && other.Valid() && nrows == other.ncols && ncols > 0
      ensures fresh(p) && p.Valid() && p.Value() == TransposedMul(Value(), other.Value())
    {
      var s, o := Value(), other.Value();
      var frows, fcols := other.nrows, nrows;
      var fdata: seq<real> := seq(frows * fcols, _ => 0.0);
      var i := 0;
      while i < |fdata|
        invariant 0 <= i <= |fdata| == frows * fcols
        invariant forall k :: 0 <= k < i ==> fdata[k] == TransposedEntry(s, o, k)
      {
        RowOfPosition(i, frows, fcols);
        var (r, c) := IndexToRc(i, fcols);
        fdata := fdata[i := ZipSum(ColIter(s, c), RowIter(o, r))];
        i := i + 1;
      }
      p := new Matrix(frows, fcols, fdata);
    }
  }

  /** Matrix::mul_mut_b: b becomes a * b. The borrow rules keep a and b apart. */
  method MulMutB(a: Matrix, b: Matrix)
    requires a != b && a.Valid() && b.Valid() && a.ncols == b.nrows
    modifies b
    ensures b.Valid() && b.Value() == MatMul(old(a.Value()), old(b.Value()))
  {
    var p := a.Mul(b);
    b.nrows, b.ncols, b.data := p.nrows, p.ncols, p.data;
  }

  lemma ZeroAt(nrows: nat, ncols: nat, r: nat, c: nat)
    requires r < nrows && c < ncols
    ensures At(Mat(nrows, ncols, seq(nrows * ncols, _ => 0.0)), r, c) == 0.0
  {
    IndexInRange(nrows, ncols, r, c);
  }

  /** Matrix::ident(size): a zero matrix with set(i, i, 1.0) for every i. */
  method Ident(size: nat) returns (m: Matrix)
    ensures fresh(m) && m.Valid() && m.Value() == IdentMat(size)
  {
    m := new Matrix(size, size, seq(size * size, _ => 0.0));
    forall r, c | 0 <= r < size && 0 <= c < size
      ensures At(m.Value(), r, c) == 0.0
    {
      ZeroAt(size, size, r, c);
    }
    var i := 0;
    while i < size
      invariant 0 <= i <= size
      invariant m.Valid() && m.nrows == size && m.ncols == size
      invariant forall r, c :: 0 <= r < size && 0 <= c < size ==>
        At(m.Value(), r, c) == if r == c && r < i then 1.0 else 0.0
    {
      ghost var before := m.Value();
      m.Set(i, i, 1.0);
      forall r, c | 0 <= r < size && 0 <= c < size
        ensures At(m.Value(), r, c) == if r == c && r < i + 1 then 1.0 else 0.0
      {
        SetAtChangesOneCell(before, i, i, 1.0, r, c);
      }
      i := i + 1;
    }
    forall r, c | 0 <= r < size && 0 <= c < size
      ensures At(m.Value(), r, c) == At(IdentMat(size), r, c)
    {
      IdentAt(size, r, c);
    }
    MatEqual(m.Value(), IdentMat(size));
  }
}
