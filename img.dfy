// The raster buffer of the library tree (src/img.rs): a PPMImg holds a
// flat, row-major array of colours and a parallel depth buffer of the same
// length. Coordinates are addressed with optional wrap-around on each axis
// and an optional flip of y; `plot` keeps the nearer of two fragments;
// `clear` repaints everything; a worklist flood fill paints a bounded
// region; and the image serialises to the Netpbm PPM formats P6 and P3.
module Img {
  import opened Wrappers
  import opened FloatModel
  import opened Colors
  import Matrices
  import opened SeqFacts

  const U32Max: int := 0xffff_ffff

  /** An f64 depth as the buffer stores it: negative infinity or a finite value. */
  datatype Depth = NegInf | Finite(z: real)

  /** `stored < z` for a finite z. */
  predicate Below(d: Depth, z: real) {
    d.NegInf? || d.z < z
  }

  /** The order of depths: negative infinity below every finite value. */
  predicate DepthLe(a: Depth, b: Depth) {
    a.NegInf? || (b.Finite? && a.z <= b.z)
  }

  /** The addressing configuration of an image: its size and its three flags. */
  datatype Geometry = Geometry(width: int, height: int, xWrap: bool, yWrap: bool, invertY: bool)

  /**
   * What `index` demands: both sides convert to i32, and an axis that
   * wraps takes a remainder by its size, which must not be zero.
   */
  predicate Addressable(g: Geometry) {
    0 <= g.width <= I32Max && 0 <= g.height <= I32Max
    && (g.xWrap ==> g.width > 0) && (g.yWrap ==> g.height > 0)
  }

  /** A coordinate pair survives the range test: each axis is in range or wraps. */
  predicate Reachable(g: Geometry, x: int, y: int) {
    (g.xWrap || 0 <= x < g.width) && (g.yWrap || 0 <= y < g.height)
  }

  /**
   * One axis of `index`: a coordinate at or past n takes the remainder,
   * a negative one takes the remainder and adds n unless it is zero, and
   * an in-range one is kept. The result is the Euclidean remainder.
   */
  function WrapAxis(v: int, n: int): (r: int)
    requires n > 0
    ensures 0 <= r < n
    ensures 0 <= v < n ==> r == v
  {
    if v >= n then RemT(v, n)
    else if v < 0 then
      var t := RemT(v, n);
      if t != 0 then t + n else t
    else v
  }

  /** The wrapped coordinate is the Euclidean remainder: it differs from v by a whole number of n. */
  lemma WrapAxisIsMod(v: int, n: int)
    requires n > 0
    ensures WrapAxis(v, n) == v % n
  {
    if v < 0 {
      var u := -v;
      var q, m := u / n, u % n;
      assert u == q * n + m;
      if m != 0 {
        assert (-q - 1) * n == -(q * n) - n;
        Matrices.DivModUnique(v, n, -q - 1, n - m);
      } else {
        assert (-q) * n == -(q * n);
        Matrices.DivModUnique(v, n, -q, 0);
      }
    }
  }

  /** The row a reachable y lands on, flipped as `invert_y` is written: with the width. */
  function RowAsWritten(g: Geometry, y: int): int
    requires Addressable(g) && (g.yWrap || 0 <= y < g.height)
  {
    var r := if g.yWrap then WrapAxis(y, g.height) else y;
    if g.invertY then g.width - r - 1 else r
  }

  /** `index` as written: the flip uses the width. */
  function IndexAsWritten(g: Geometry, x: int, y: int): (r: Option<int>)
    requires Addressable(g)
    ensures r.Some? <==> Reachable(g, x, y)
  {
    if !Reachable(g, x, y) then None
    else
      var col := if g.xWrap then WrapAxis(x, g.width) else x;
      Some(RowAsWritten(g, y) * g.width + col)
  }

  /** The row a reachable y lands on, counted from the other end when `invert_y` is set. */
  function Row(g: Geometry, y: int): (r: int)
    requires Addressable(g) && (g.yWrap || 0 <= y < g.height)
    ensures 0 <= r < g.height
  {
    var r := if g.yWrap then WrapAxis(y, g.height) else y;
    if g.invertY then g.height - r - 1 else r
  }

  /** The buffer position of an in-range row and column. */
  function Cell(g: Geometry, row: int, col: int): int {
    row * g.width + col
  }

  /** `index` with the flip made over the height, as the flag intends. */
  function Index(g: Geometry, x: int, y: int): (r: Option<int>)
    requires Addressable(g)
    ensures r.Some? <==> Reachable(g, x, y)
  {
    if !Reachable(g, x, y) then None
    else
      var col := if g.xWrap then WrapAxis(x, g.width) else x;
      Some(Cell(g, Row(g, y), col))
  }

  lemma CellInRange(g: Geometry, row: int, col: int)
    requires 0 <= row < g.height && 0 <= col < g.width
    ensures 0 <= Cell(g, row, col) < g.width * g.height
  {
    Matrices.MulLeMono(row + 1, g.height, g.width);
    Matrices.MulLeMono(0, row, g.width);
    assert (row + 1) * g.width == row * g.width + g.width;
    assert g.height * g.width == g.width * g.height;
  }

  /** Every position `index` returns lies inside the width * height buffer. */
  lemma IndexInBuffer(g: Geometry, x: int, y: int)
    requires Addressable(g) && Reachable(g, x, y)
    ensures 0 <= Index(g, x, y).value < g.width * g.height
  {
    var col := if g.xWrap then WrapAxis(x, g.width) else x;
    CellInRange(g, Row(g, y), col);
  }

  /** Without the flip, an in-range pair addresses y * width + x. */
  lemma IndexRowMajor(g: Geometry, x: int, y: int)
    requires Addressable(g) && !g.invertY && 0 <= x < g.width && 0 <= y < g.height
    ensures Index(g, x, y) == Some(y * g.width + x)
  {
  }

  /** With wrap-around, a coordinate and its shift by a whole width or height address the same cell. */
  lemma IndexPeriodic(g: Geometry, x: int, y: int, i: int, j: int)
    requires Addressable(g) && g.xWrap && g.yWrap
    ensures Index(g, x + i * g.width, y + j * g.height) == Index(g, x, y)
  {
    WrapAxisPeriodic(x, g.width, i);
    WrapAxisPeriodic(y, g.height, j);
  }

  lemma WrapAxisPeriodic(v: int, n: int, i: int)
    requires n > 0
    ensures WrapAxis(v + i * n, n) == WrapAxis(v, n)
  {
    WrapAxisIsMod(v, n);
    WrapAxisIsMod(v + i * n, n);
    ModPeriodic(v, n, i);
  }

  lemma ModPeriodic(v: int, n: int, i: int)
    requires n > 0
    ensures (v + i * n) % n == v % n
  {
    var q, m := v / n, v % n;
    assert v == q * n + m;
    assert (q + i) * n == q * n + i * n;
    Matrices.DivModUnique(v + i * n, n, q + i, m);
  }

  /** Two in-range cells of a buffer are the same only for the same row and column. */
  lemma CellInjective(g: Geometry, r0: int, c0: int, r1: int, c1: int)
    requires 0 <= c0 < g.width && 0 <= c1 < g.width
    requires Cell(g, r0, c0) == Cell(g, r1, c1)
    ensures r0 == r1 && c0 == c1
  {
    Matrices.DivModUnique(Cell(g, r0, c0), g.width, r0, c0);
    Matrices.DivModUnique(Cell(g, r1, c1), g.width, r1, c1);
  }

  /** Without wrap-around, distinct coordinates never share a buffer position. */
  lemma IndexInjective(g: Geometry, x0: int, y0: int, x1: int, y1: int)
    requires Addressable(g) && !g.xWrap && !g.yWrap
    requires Reachable(g, x0, y0) && Reachable(g, x1, y1)
    requires Index(g, x0, y0) == Index(g, x1, y1)
    ensures x0 == x1 && y0 == y1
  {
    CellInjective(g, Row(g, y0), x0, Row(g, y1), x1);
  }

  /**
   * The flip written with the width leaves the buffer: a 2-wide, 1-high
   * image maps (0, 0) to position 2, past its two cells, and a 1-wide,
   * 2-high image maps (0, 1) to -1, which the conversion to usize rejects.
   */
  lemma InvertYAsWrittenLeavesBuffer(wide: Geometry, tall: Geometry)
    requires wide == Geometry(2, 1, false, false, true)
    requires tall == Geometry(1, 2, false, false, true)
    ensures IndexAsWritten(wide, 0, 0) == Some(2) && 2 >= wide.width * wide.height
    ensures IndexAsWritten(tall, 0, 1) == Some(-1)
    ensures Index(wide, 0, 0) == Some(0) && Index(tall, 0, 1) == Some(0)
  {
  }

  /** The flip as written agrees with the intended one on square images. */
  lemma IndexAsWrittenSquare(g: Geometry, x: int, y: int)
    requires Addressable(g) && g.width == g.height
    ensures IndexAsWritten(g, x, y) == Index(g, x, y)
  {
  }

  // ---------------------------------------------------------------- plotting

  /**
   * The effect of one plot at buffer position `at`: a fragment nearer than
   * the stored depth replaces both the colour and the depth; an equal or
   * farther one, or no position, leaves both buffers alone.
   */
  function PlotOnto(data: seq<RGB>, zbuf: seq<Depth>, at: Option<int>, z: real, color: RGB): (r: (seq<RGB>, seq<Depth>))
    requires |data| == |zbuf| && (at.Some? ==> 0 <= at.value < |zbuf|)
    ensures |r.0| == |data| && |r.1| == |zbuf|
  {
    if at.Some? && Below(zbuf[at.value], z) then (data[at.value := color], zbuf[at.value := Finite(z)])
    else (data, zbuf)
  }

  /**
   * The depth test: no stored depth ever decreases, only the addressed
   * cell can change, and it takes the new colour exactly when the new
   * depth is strictly greater than the stored one.
   */
  lemma PlotKeepsNearest(data: seq<RGB>, zbuf: seq<Depth>, i: int, z: real, color: RGB)
    requires |data| == |zbuf| && 0 <= i < |zbuf|
    ensures var r := PlotOnto(data, zbuf, Some(i), z, color);
      (forall k :: 0 <= k < |zbuf| ==> DepthLe(zbuf[k], r.1[k]))
      && (forall k :: 0 <= k < |zbuf| && k != i ==> r.0[k] == data[k] && r.1[k] == zbuf[k])
      && (Below(zbuf[i], z) ==> r.0[i] == color && r.1[i] == Finite(z))
      && (!Below(zbuf[i], z) ==> r == (data, zbuf))
  {
  }

  /** A fragment at exactly the stored depth loses: the earlier pixel is kept. */
  lemma PlotEqualDepthKeeps(data: seq<RGB>, zbuf: seq<Depth>, i: int, color: RGB)
    requires |data| == |zbuf| && 0 <= i < |zbuf| && zbuf[i].Finite?
    ensures PlotOnto(data, zbuf, Some(i), zbuf[i].z, color) == (data, zbuf)
  {
  }

  /** A cleared cell accepts any finite fragment. */
  lemma PlotOnCleared(data: seq<RGB>, zbuf: seq<Depth>, i: int, z: real, color: RGB)
    requires |data| == |zbuf| && 0 <= i < |zbuf| && zbuf[i] == NegInf
    ensures PlotOnto(data, zbuf, Some(i), z, color).0[i] == color
  {
  }

  // ---------------------------------------------------------------- serialisation

  type Byte = b: int | 0 <= b < 256

  /** The decimal digit character of d. */
  function DigitChar(d: int): (c: char)
    requires 0 <= d < 10
    ensures '0' <= c <= '9' && c as int - '0' as int == d
  {
    ['0', '1', '2', '3', '4', '5', '6', '7', '8', '9'][d]
  }

  predicate AllDigits(s: string) {
    forall i :: 0 <= i < |s| ==> '0' <= s[i] <= '9'
  }

  /** `{}` of an unsigned integer: its decimal digits, most significant first. */
  function Decimal(n: nat): (s: string)
    ensures |s| >= 1 && AllDigits(s)
  {
    if n < 10 then [DigitChar(n)] else Decimal(n / 10) + [DigitChar(n % 10)]
  }

  /** The value of a string of decimal digits. */
  function DecimalValue(s: string): nat
    requires AllDigits(s)
  {
    if |s| == 0 then 0 else DecimalValue(s[..|s| - 1]) * 10 + (s[|s| - 1] as int - '0' as int)
  }

  /** Reading the digits back gives the number: the header fields are unambiguous. */
  lemma {:induction false} DecimalRoundTrip(n: nat)
    ensures DecimalValue(Decimal(n)) == n
  {
    if n >= 10 {
      var s := Decimal(n);
      DecimalRoundTrip(n / 10);
      assert s[..|s| - 1] == Decimal(n / 10);
    }
  }

  /** A leading zero appears only in the number zero itself. */
  lemma {:induction false} DecimalNoLeadingZero(n: nat)
    ensures Decimal(n)[0] == '0' <==> n == 0
  {
    if n >= 10 {
      DecimalNoLeadingZero(n / 10);
    }
  }

  /** The bytes of an ASCII string. */
  function Ascii(s: string): (b: seq<Byte>)
    requires forall i :: 0 <= i < |s| ==> s[i] as int < 256
    ensures |b| == |s| && forall i :: 0 <= i < |s| ==> b[i] == s[i] as int
  {
    seq(|s|, i requires 0 <= i < |s| => s[i] as int)
  }

  /** The second line of both formats: width, height and maximum value. */
  function SizeLine(width: nat, height: nat, depth: nat): string {
    Decimal(width) + " " + Decimal(height) + " " + Decimal(depth) + "\n"
  }

  /** One channel as `write_bin_to_buf` emits it: `as u8` below 256, else two big-endian bytes. */
  function Channel(v: U16, wide: bool): (b: seq<Byte>)
    ensures |b| == if wide then 2 else 1
  {
    if wide then [v / 256, v % 256] else [v % 256]
  }

  function PixelBytes(c: RGB, wide: bool): (b: seq<Byte>)
    ensures |b| == if wide then 6 else 3
  {
    Channel(c.red, wide) + Channel(c.green, wide) + Channel(c.blue, wide)
  }

  /** The raster of a P6 file: every pixel's three channels, in buffer order. */
  function Raster(data: seq<RGB>, wide: bool): seq<Byte> {
    if |data| == 0 then [] else Raster(data[..|data| - 1], wide) + PixelBytes(data[|data| - 1], wide)
  }

  /** The two header lines of a P6 stream, as bytes. */
  function P6Header(width: nat, height: nat, depth: U16): seq<Byte> {
    var header := "P6\n" + SizeLine(width, height, depth);
    assert forall i :: 0 <= i < |header| ==> header[i] as int < 256 by {
      assert AllDigits(Decimal(width)) && AllDigits(Decimal(height)) && AllDigits(Decimal(depth));
    }
    Ascii(header)
  }

  /** The whole P6 stream. */
  function BinaryPpm(width: nat, height: nat, depth: U16, data: seq<RGB>): seq<Byte> {
    P6Header(width, height, depth) + Raster(data, depth >= 256)
  }

  /** The bytes per pixel. */
  function Stride(wide: bool): nat {
    if wide then 6 else 3
  }

  /** A raster holds stride bytes per pixel. */
  lemma {:induction false} RasterLength(data: seq<RGB>, wide: bool)
    ensures |Raster(data, wide)| == Stride(wide) * |data|
  {
    if |data| > 0 {
      RasterLength(data[..|data| - 1], wide);
      assert Stride(wide) * |data| == Stride(wide) * (|data| - 1) + Stride(wide);
    }
  }

  /** Pixel k of the buffer occupies bytes stride * k up to stride * (k + 1) of the raster. */
  lemma {:induction false} RasterLayout(data: seq<RGB>, wide: bool, k: int)
    requires 0 <= k < |data|
    ensures |Raster(data, wide)| == Stride(wide) * |data|
    ensures Raster(data, wide)[Stride(wide) * k .. Stride(wide) * (k + 1)] == PixelBytes(data[k], wide)
  {
    var n, s := |data|, Stride(wide);
    var prefix := data[..n - 1];
    RasterLength(data, wide);
    RasterLength(prefix, wide);
    var a, b := Raster(prefix, wide), PixelBytes(data[n - 1], wide);
    assert Raster(data, wide) == a + b;
    var lo, hi := s * k, s * (k + 1);
    assert hi == lo + s;
    if k < n - 1 {
      RasterLayout(prefix, wide, k);
      Matrices.MulLeMono(k + 1, n - 1, s);
      SliceOfFront(a, b, lo, hi);
    } else {
      assert lo == |a|;
      SliceOfBack(a, b, lo, hi);
    }
  }

  /** A channel read back from the raster: two bytes big-endian, or one byte. */
  function ReadChannel(b: seq<Byte>, wide: bool): int
    requires |b| == if wide then 2 else 1
  {
    if wide then b[0] as int * 256 + b[1] as int else b[0] as int
  }

  /**
   * With two bytes per channel every colour survives the raster; with one
   * byte, every colour whose channels are below 256 does.
   */
  lemma PixelRoundTrip(c: RGB, wide: bool)
    requires !wide ==> c.red < 256 && c.green < 256 && c.blue < 256
    ensures var b := PixelBytes(c, wide); var w := if wide then 2 else 1;
      ReadChannel(b[..w], wide) == c.red
      && ReadChannel(b[w .. 2 * w], wide) == c.green
      && ReadChannel(b[2 * w ..], wide) == c.blue
  {
    var w := if wide then 2 else 1;
    var b := PixelBytes(c, wide);
    assert b[..w] == Channel(c.red, wide);
    assert b[w .. 2 * w] == Channel(c.green, wide);
    assert b[2 * w ..] == Channel(c.blue, wide);
  }

  /** One pixel line of a P3 file. */
  function AsciiPixel(c: RGB): string {
    Decimal(c.red) + " " + Decimal(c.green) + " " + Decimal(c.blue) + "\n"
  }

  function AsciiRaster(data: seq<RGB>): string {
    if |data| == 0 then [] else AsciiRaster(data[..|data| - 1]) + AsciiPixel(data[|data| - 1])
  }

  /** The whole P3 text. */
  function AsciiPpm(width: nat, height: nat, depth: U16, data: seq<RGB>): string {
    "P3\n" + SizeLine(width, height, depth) + AsciiRaster(data)
  }

  function CountNewlines(s: string): nat {
    if |s| == 0 then 0 else CountNewlines(s[..|s| - 1]) + (if s[|s| - 1] == '\n' then 1 else 0)
  }

  lemma {:induction false} CountNewlinesAppend(a: string, b: string)
    ensures CountNewlines(a + b) == CountNewlines(a) + CountNewlines(b)
  {
    if |b| > 0 {
      CountNewlinesAppend(a, b[..|b| - 1]);
      assert (a + b)[..|a + b| - 1] == a + b[..|b| - 1];
    } else {
      assert a + b == a;
    }
  }

  lemma {:induction false} DigitsHaveNoNewline(s: string)
    requires AllDigits(s)
    ensures CountNewlines(s) == 0
  {
    if |s| > 0 {
      DigitsHaveNoNewline(s[..|s| - 1]);
    }
  }

  /** A P3 file is two header lines and then exactly one line per pixel. */
  lemma {:induction false} AsciiLineCount(data: seq<RGB>)
    ensures CountNewlines(AsciiRaster(data)) == |data|
  {
    if |data| > 0 {
      var c := data[|data| - 1];
      AsciiLineCount(data[..|data| - 1]);
      CountNewlinesAppend(AsciiRaster(data[..|data| - 1]), AsciiPixel(c));
      DigitsHaveNoNewline(Decimal(c.red));
      DigitsHaveNoNewline(Decimal(c.green));
      DigitsHaveNoNewline(Decimal(c.blue));
      var r, g, b := Decimal(c.red), Decimal(c.green), Decimal(c.blue);
      CountNewlinesAppend(r + " " + g + " " + b, "\n");
      CountNewlinesAppend(r + " " + g + " ", b);
      CountNewlinesAppend(r + " " + g, " ");
      CountNewlinesAppend(r + " ", g);
      CountNewlinesAppend(r, " ");
    }
  }

  // ---------------------------------------------------------------- flood fill

  /** Where an in-range pair sits in the buffer. */
  function Pos(g: Geometry, x: int, y: int): (i: int)
    requires Addressable(g) && Reachable(g, x, y)
    ensures 0 <= i < g.width * g.height
  {
    IndexInBuffer(g, x, y);
    Index(g, x, y).value
  }

  /** A pixel the fill would still repaint: neither the bound colour nor its own fill colour. */
  predicate Unsettled(g: Geometry, d: seq<RGB>, x: int, y: int, fill: (real, real) -> RGB, bound: RGB)
    requires Addressable(g) && Reachable(g, x, y) && |d| == g.width * g.height
  {
    d[Pos(g, x, y)] != bound && d[Pos(g, x, y)] != fill(x as real, y as real)
  }

  /** The in-range pixels the fill could still repaint: each repaint removes one. */
  ghost function Pending(g: Geometry, d: seq<RGB>, fill: (real, real) -> RGB, bound: RGB): set<(int, int)>
    requires Addressable(g) && !g.xWrap && !g.yWrap && |d| == g.width * g.height
  {
    set x, y | 0 <= x < g.width && 0 <= y < g.height && Unsettled(g, d, x, y, fill, bound) :: (x, y)
  }

  /** Repainting one unsettled pixel with its fill colour settles it and no other. */
  lemma PendingAfterRepaint(g: Geometry, d: seq<RGB>, x: int, y: int, fill: (real, real) -> RGB, bound: RGB)
    requires Addressable(g) && !g.xWrap && !g.yWrap && |d| == g.width * g.height
    requires Reachable(g, x, y) && Unsettled(g, d, x, y, fill, bound)
    ensures (x, y) in Pending(g, d, fill, bound)
    ensures Pending(g, d[Pos(g, x, y) := fill(x as real, y as real)], fill, bound)
         == Pending(g, d, fill, bound) - {(x, y)}
  {
    var d' := d[Pos(g, x, y) := fill(x as real, y as real)];
    forall qx, qy | 0 <= qx < g.width && 0 <= qy < g.height
      ensures Unsettled(g, d', qx, qy, fill, bound) <==> Unsettled(g, d, qx, qy, fill, bound) && (qx, qy) != (x, y)
    {
      if Pos(g, qx, qy) == Pos(g, x, y) {
        IndexInjective(g, qx, qy, x, y);
      }
    }
    var p', p := Pending(g, d', fill, bound), Pending(g, d, fill, bound);
    assert forall e :: e in p' <==> e in p - {(x, y)};
  }

  /** Every in-range pixel of d is either as it was in orig or painted with its own fill colour. */
  ghost predicate OnlyFilledFrom(g: Geometry, d: seq<RGB>, orig: seq<RGB>, fill: (real, real) -> RGB)
    requires Addressable(g) && |d| == |orig| == g.width * g.height
  {
    forall px, py :: 0 <= px < g.width && 0 <= py < g.height ==>
      d[Pos(g, px, py)] == orig[Pos(g, px, py)] || d[Pos(g, px, py)] == fill(px as real, py as real)
  }

  /** Every cell that was in the bound colour still is. */
  predicate KeepsBound(orig: seq<RGB>, d: seq<RGB>, bound: RGB) {
    |orig| == |d| && forall k :: 0 <= k < |d| && orig[k] == bound ==> d[k] == bound
  }

  /** The seed, when inside the image, is in the bound colour or in its own fill colour. */
  predicate SeedSettled(g: Geometry, d: seq<RGB>, sx: int, sy: int, fill: (real, real) -> RGB, bound: RGB)
    requires Addressable(g) && |d| == g.width * g.height
  {
    Reachable(g, sx, sy) ==> d[Pos(g, sx, sy)] == bound || d[Pos(g, sx, sy)] == fill(sx as real, sy as real)
  }

  /**
   * Painting pixel (x, y), which is not in the bound colour, with its fill
   * colour keeps every in-range pixel either at its original colour or at
   * its own fill colour, keeps every bound-coloured cell, and keeps the
   * seed settled once it is.
   */
  lemma RepaintKeeps(g: Geometry, d: seq<RGB>, orig: seq<RGB>, x: int, y: int, sx: int, sy: int,
                     fill: (real, real) -> RGB, bound: RGB)
    requires Addressable(g) && !g.xWrap && !g.yWrap && |d| == |orig| == g.width * g.height
    requires Reachable(g, x, y) && d[Pos(g, x, y)] != bound
    requires OnlyFilledFrom(g, d, orig, fill) && KeepsBound(orig, d, bound)
    ensures var d' := d[Pos(g, x, y) := fill(x as real, y as real)];
      OnlyFilledFrom(g, d', orig, fill) && KeepsBound(orig, d', bound)
      && (SeedSettled(g, d, sx, sy, fill, bound) ==> SeedSettled(g, d', sx, sy, fill, bound))
  {
    var d' := d[Pos(g, x, y) := fill(x as real, y as real)];
    forall px, py | 0 <= px < g.width && 0 <= py < g.height
      ensures d'[Pos(g, px, py)] == orig[Pos(g, px, py)] || d'[Pos(g, px, py)] == fill(px as real, py as real)
    {
      if Pos(g, px, py) == Pos(g, x, y) {
        IndexInjective(g, px, py, x, y);
      }
    }
    if Reachable(g, sx, sy) && Pos(g, sx, sy) == Pos(g, x, y) {
      IndexInjective(g, sx, sy, x, y);
    }
  }

  /** The four neighbours of (x, y), in the order the fill pushes them. */
  function Neighbours(x: int, y: int): seq<(int, int)> {
    [(x + 1, y), (x, y + 1), (x - 1, y), (x, y - 1)]
  }

  /**
   * One turn of the fill loop on image d: the last point is popped. A point
   * outside the image is dropped; an inside point in the bound colour or
   * already in its fill colour is dropped too; any other is painted with its
   * fill colour and its four neighbours are pushed. The flag says whether the
   * turn reaches the worklist-length assertion, which the two `continue`s of
   * the inside drops skip. Each turn settles a pixel or shortens the list.
   */
  ghost function FillStep(g: Geometry, d: seq<RGB>, points: seq<(int, int)>, fill: (real, real) -> RGB, bound: RGB)
    : (r: (seq<RGB>, seq<(int, int)>, bool))
    requires Addressable(g) && !g.xWrap && !g.yWrap && |d| == g.width * g.height && |points| > 0
    ensures |r.0| == |d|
    ensures |Pending(g, r.0, fill, bound)| < |Pending(g, d, fill, bound)| || (r.0 == d && |r.1| < |points|)
  {
    var (x, y) := points[|points| - 1];
    var rest := points[..|points| - 1];
    if !Reachable(g, x, y) then (d, rest, true)
    else if !Unsettled(g, d, x, y, fill, bound) then (d, rest, false)
    else
      PendingAfterRepaint(g, d, x, y, fill, bound);
      (d[Pos(g, x, y) := fill(x as real, y as real)], rest + Neighbours(x, y), true)
  }

  /**
   * The fill run to its end from image d and worklist points: it ends with
   * `true` once the worklist is empty, and with `false`, on the image as it
   * then stands, at the first checked turn that leaves more than
   * width * height points on the list.
   */
  ghost function FillFrom(g: Geometry, d: seq<RGB>, points: seq<(int, int)>, fill: (real, real) -> RGB, bound: RGB)
    : (r: (seq<RGB>, bool))
    requires Addressable(g) && !g.xWrap && !g.yWrap && |d| == g.width * g.height
    ensures |r.0| == |d|
    decreases |Pending(g, d, fill, bound)|, |points|
  {
    if |points| == 0 then (d, true)
    else
      var (d', next, checked) := FillStep(g, d, points, fill, bound);
      if checked && |next| > g.width * g.height then (d', false)
      else FillFrom(g, d', next, fill, bound)
  }

  /** (x, y) lies inside the image and was, before the fill, neither the bound colour nor its own fill colour. */
  predicate Open(g: Geometry, orig: seq<RGB>, x: int, y: int, fill: (real, real) -> RGB, bound: RGB)
    requires Addressable(g) && |orig| == g.width * g.height
  {
    Reachable(g, x, y) && Unsettled(g, orig, x, y, fill, bound)
  }

  /** (x, y) lies inside the image and its colour in d differs from the one in orig. */
  predicate Changed(g: Geometry, orig: seq<RGB>, d: seq<RGB>, x: int, y: int)
    requires Addressable(g) && |d| == |orig| == g.width * g.height
  {
    Reachable(g, x, y) && d[Pos(g, x, y)] != orig[Pos(g, x, y)]
  }

  /** A non-empty run of open pixels, each a neighbour of the one before. */
  ghost predicate OpenPath(g: Geometry, orig: seq<RGB>, path: seq<(int, int)>, fill: (real, real) -> RGB, bound: RGB)
    requires Addressable(g) && |orig| == g.width * g.height
  {
    |path| > 0
    && (forall i :: 0 <= i < |path| ==> Open(g, orig, path[i].0, path[i].1, fill, bound))
    && (forall i :: 0 < i < |path| ==> path[i] in Neighbours(path[i - 1].0, path[i - 1].1))
  }

  /** (x, y) is 4-connected to the seed (sx, sy) through open pixels. */
  ghost predicate InRegion(g: Geometry, orig: seq<RGB>, sx: int, sy: int, x: int, y: int,
                           fill: (real, real) -> RGB, bound: RGB)
    requires Addressable(g) && |orig| == g.width * g.height
  {
    Reachable(g, x, y)
    && exists path :: OpenPath(g, orig, path, fill, bound) && path[0] == (sx, sy) && path[|path| - 1] == (x, y)
  }

  /** Every open neighbour of a changed pixel is changed too or still on the worklist. */
  ghost predicate Closed(g: Geometry, orig: seq<RGB>, d: seq<RGB>, points: seq<(int, int)>,
                         fill: (real, real) -> RGB, bound: RGB)
    requires Addressable(g) && |d| == |orig| == g.width * g.height
  {
    forall px, py, nx, ny ::
      (Changed(g, orig, d, px, py) && (nx, ny) in Neighbours(px, py) && Open(g, orig, nx, ny, fill, bound))
      ==> (Changed(g, orig, d, nx, ny) || (nx, ny) in points)
  }

  /** Every point on the worklist is the seed or a neighbour of a changed pixel. */
  ghost predicate Frontier(g: Geometry, orig: seq<RGB>, d: seq<RGB>, points: seq<(int, int)>, sx: int, sy: int)
    requires Addressable(g) && |d| == |orig| == g.width * g.height
  {
    forall i :: 0 <= i < |points| ==>
      (points[i] == (sx, sy) || exists px, py :: Changed(g, orig, d, px, py) && points[i] in Neighbours(px, py))
  }

  /** Every changed pixel is 4-connected to the seed through open pixels. */
  ghost predicate ChangedInRegion(g: Geometry, orig: seq<RGB>, d: seq<RGB>, sx: int, sy: int,
                                  fill: (real, real) -> RGB, bound: RGB)
    requires Addressable(g) && |d| == |orig| == g.width * g.height
  {
    forall x, y :: Changed(g, orig, d, x, y) ==> InRegion(g, orig, sx, sy, x, y, fill, bound)
  }

  /** What holds of the image and the worklist between turns of the fill. */
  ghost predicate FillInvariant(g: Geometry, orig: seq<RGB>, d: seq<RGB>, points: seq<(int, int)>,
                                sx: int, sy: int, fill: (real, real) -> RGB, bound: RGB)
    requires Addressable(g) && |d| == |orig| == g.width * g.height
  {
    KeepsBound(orig, d, bound) && OnlyFilledFrom(g, d, orig, fill) && Closed(g, orig, d, points, fill, bound)
    && Frontier(g, orig, d, points, sx, sy) && ChangedInRegion(g, orig, d, sx, sy, fill, bound)
  }

  /** An open neighbour of a pixel in the region is in the region. */
  lemma RegionGrows(g: Geometry, orig: seq<RGB>, sx: int, sy: int, px: int, py: int, x: int, y: int,
                    fill: (real, real) -> RGB, bound: RGB)
    requires Addressable(g) && |orig| == g.width * g.height
    requires InRegion(g, orig, sx, sy, px, py, fill, bound)
    requires (x, y) in Neighbours(px, py) && Open(g, orig, x, y, fill, bound)
    ensures InRegion(g, orig, sx, sy, x, y, fill, bound)
  {
    var path :| OpenPath(g, orig, path, fill, bound) && path[0] == (sx, sy) && path[|path| - 1] == (px, py);
    var longer := path + [(x, y)];
    assert longer[|longer| - 1] == (x, y);
    assert OpenPath(g, orig, longer, fill, bound);
  }

  /** Painting an unsettled inside pixel with its fill colour changes that pixel and no other. */
  lemma ChangedAfterPaint(g: Geometry, orig: seq<RGB>, d: seq<RGB>, x: int, y: int,
                          fill: (real, real) -> RGB, bound: RGB)
    requires Addressable(g) && !g.xWrap && !g.yWrap && |d| == |orig| == g.width * g.height
    requires Reachable(g, x, y) && Unsettled(g, d, x, y, fill, bound) && OnlyFilledFrom(g, d, orig, fill)
    ensures Open(g, orig, x, y, fill, bound) && !Changed(g, orig, d, x, y)
    ensures var d' := d[Pos(g, x, y) := fill(x as real, y as real)];
      forall px, py :: Changed(g, orig, d', px, py) <==> Changed(g, orig, d, px, py) || (px, py) == (x, y)
  {
    var d' := d[Pos(g, x, y) := fill(x as real, y as real)];
    forall px, py | Reachable(g, px, py) && Pos(g, px, py) == Pos(g, x, y)
      ensures (px, py) == (x, y)
    {
      IndexInjective(g, px, py, x, y);
    }
  }

  /** After a paint, the open neighbours of every changed pixel are changed or on the new worklist. */
  lemma ClosedAfterPaint(g: Geometry, orig: seq<RGB>, d: seq<RGB>, d': seq<RGB>, rest: seq<(int, int)>, x: int, y: int,
                         fill: (real, real) -> RGB, bound: RGB)
    requires Addressable(g) && |d| == |d'| == |orig| == g.width * g.height
    requires forall px, py :: Changed(g, orig, d', px, py) <==> Changed(g, orig, d, px, py) || (px, py) == (x, y)
    requires Closed(g, orig, d, rest + [(x, y)], fill, bound)
    ensures Closed(g, orig, d', rest + Neighbours(x, y), fill, bound)
  {
    var points, next := rest + [(x, y)], rest + Neighbours(x, y);
    forall px, py, nx, ny | Changed(g, orig, d', px, py) && (nx, ny) in Neighbours(px, py) && Open(g, orig, nx, ny, fill, bound)
      ensures Changed(g, orig, d', nx, ny) || (nx, ny) in next
    {
      if (px, py) != (x, y) && !Changed(g, orig, d, nx, ny) && (nx, ny) != (x, y) {
        assert (nx, ny) in points;
      }
    }
  }

  /** After a paint, every worklist point is the seed or a neighbour of a changed pixel. */
  lemma FrontierAfterPaint(g: Geometry, orig: seq<RGB>, d: seq<RGB>, d': seq<RGB>, rest: seq<(int, int)>, x: int, y: int,
                           sx: int, sy: int)
    requires Addressable(g) && |d| == |d'| == |orig| == g.width * g.height
    requires forall px, py :: Changed(g, orig, d', px, py) <==> Changed(g, orig, d, px, py) || (px, py) == (x, y)
    requires Frontier(g, orig, d, rest + [(x, y)], sx, sy)
    ensures Frontier(g, orig, d', rest + Neighbours(x, y), sx, sy)
  {
    var points, next := rest + [(x, y)], rest + Neighbours(x, y);
    forall i | 0 <= i < |next|
      ensures next[i] == (sx, sy) || exists px, py :: Changed(g, orig, d', px, py) && next[i] in Neighbours(px, py)
    {
      if i < |rest| {
        assert next[i] == points[i];
      } else {
        assert next[i] in Neighbours(x, y);
      }
    }
  }

  /** After a paint of the worklist's last point, every changed pixel is still in the seed's region. */
  lemma RegionAfterPaint(g: Geometry, orig: seq<RGB>, d: seq<RGB>, d': seq<RGB>, rest: seq<(int, int)>, x: int, y: int,
                         sx: int, sy: int, fill: (real, real) -> RGB, bound: RGB)
    requires Addressable(g) && |d| == |d'| == |orig| == g.width * g.height
    requires Open(g, orig, x, y, fill, bound)
    requires forall px, py :: Changed(g, orig, d', px, py) <==> Changed(g, orig, d, px, py) || (px, py) == (x, y)
    requires Frontier(g, orig, d, rest + [(x, y)], sx, sy) && ChangedInRegion(g, orig, d, sx, sy, fill, bound)
    ensures ChangedInRegion(g, orig, d', sx, sy, fill, bound)
  {
    var points := rest + [(x, y)];
    assert points[|points| - 1] == (x, y);
    if (x, y) != (sx, sy) {
      var px, py :| Changed(g, orig, d, px, py) && (x, y) in Neighbours(px, py);
      RegionGrows(g, orig, sx, sy, px, py, x, y, fill, bound);
    } else {
      assert OpenPath(g, orig, [(x, y)], fill, bound);
    }
  }

  /**
   * Painting the last point of the worklist, an inside pixel that is
   * unsettled, and pushing its neighbours keeps the fill invariant, and
   * leaves the seed settled.
   */
  lemma PaintKeeps(g: Geometry, orig: seq<RGB>, d: seq<RGB>, rest: seq<(int, int)>, x: int, y: int,
                   sx: int, sy: int, fill: (real, real) -> RGB, bound: RGB)
    requires Addressable(g) && !g.xWrap && !g.yWrap && |d| == |orig| == g.width * g.height
    requires Reachable(g, x, y) && Unsettled(g, d, x, y, fill, bound)
    requires FillInvariant(g, orig, d, rest + [(x, y)], sx, sy, fill, bound)
    requires rest + [(x, y)] == [(sx, sy)] || SeedSettled(g, d, sx, sy, fill, bound)
    ensures var d' := d[Pos(g, x, y) := fill(x as real, y as real)];
      FillInvariant(g, orig, d', rest + Neighbours(x, y), sx, sy, fill, bound)
      && SeedSettled(g, d', sx, sy, fill, bound)
  {
    var d' := d[Pos(g, x, y) := fill(x as real, y as real)];
    RepaintKeeps(g, d, orig, x, y, sx, sy, fill, bound);
    ChangedAfterPaint(g, orig, d, x, y, fill, bound);
    ClosedAfterPaint(g, orig, d, d', rest, x, y, fill, bound);
    FrontierAfterPaint(g, orig, d, d', rest, x, y, sx, sy);
    RegionAfterPaint(g, orig, d, d', rest, x, y, sx, sy, fill, bound);
    if rest + [(x, y)] == [(sx, sy)] {
      assert (rest + [(x, y)])[|rest|] == (x, y) == (sx, sy);
    }
  }

  /**
   * Dropping the last point of the worklist, one outside the image or an
   * inside pixel already settled, keeps the fill invariant, and leaves the
   * seed settled.
   */
  lemma DropKeeps(g: Geometry, orig: seq<RGB>, d: seq<RGB>, rest: seq<(int, int)>, x: int, y: int,
                  sx: int, sy: int, fill: (real, real) -> RGB, bound: RGB)
    requires Addressable(g) && !g.xWrap && !g.yWrap && |d| == |orig| == g.width * g.height
    requires !Reachable(g, x, y) || !Unsettled(g, d, x, y, fill, bound)
    requires FillInvariant(g, orig, d, rest + [(x, y)], sx, sy, fill, bound)
    requires rest + [(x, y)] == [(sx, sy)] || SeedSettled(g, d, sx, sy, fill, bound)
    ensures FillInvariant(g, orig, d, rest, sx, sy, fill, bound) && SeedSettled(g, d, sx, sy, fill, bound)
  {
    var points := rest + [(x, y)];
    forall nx, ny | Open(g, orig, nx, ny, fill, bound) && (nx, ny) in points && !Changed(g, orig, d, nx, ny)
      ensures (nx, ny) in rest
    {
      if (nx, ny) == (x, y) {
        assert false;
      }
    }
    forall i | 0 <= i < |rest|
      ensures rest[i] == (sx, sy) || exists px, py :: Changed(g, orig, d, px, py) && rest[i] in Neighbours(px, py)
    {
      assert rest[i] == points[i];
    }
    if points == [(sx, sy)] {
      assert (x, y) == (sx, sy);
    }
  }

  /** One turn of the fill keeps the fill invariant and leaves the seed settled. */
  lemma FillStepKeeps(g: Geometry, orig: seq<RGB>, d: seq<RGB>, points: seq<(int, int)>,
                      sx: int, sy: int, fill: (real, real) -> RGB, bound: RGB)
    requires Addressable(g) && !g.xWrap && !g.yWrap && |d| == |orig| == g.width * g.height && |points| > 0
    requires FillInvariant(g, orig, d, points, sx, sy, fill, bound)
    requires points == [(sx, sy)] || SeedSettled(g, d, sx, sy, fill, bound)
    ensures var (d', next, _) := FillStep(g, d, points, fill, bound);
      FillInvariant(g, orig, d', next, sx, sy, fill, bound) && SeedSettled(g, d', sx, sy, fill, bound)
  {
    var (x, y) := points[|points| - 1];
    var rest := points[..|points| - 1];
    assert points == rest + [(x, y)];
    if Reachable(g, x, y) && Unsettled(g, d, x, y, fill, bound) {
      PaintKeeps(g, orig, d, rest, x, y, sx, sy, fill, bound);
    } else {
      DropKeeps(g, orig, d, rest, x, y, sx, sy, fill, bound);
    }
  }

  /**
   * Running the fill to its end from a state that keeps the invariant: bound
   * cells stay, every pixel is as it was or in its fill colour, the seed is
   * settled, every changed pixel lies in the seed's region, and, when no
   * checked turn overflowed, every open neighbour of a changed pixel is changed.
   */
  lemma {:induction false} FillFromSound(g: Geometry, orig: seq<RGB>, d: seq<RGB>, points: seq<(int, int)>,
                                         sx: int, sy: int, fill: (real, real) -> RGB, bound: RGB)
    requires Addressable(g) && !g.xWrap && !g.yWrap && |d| == |orig| == g.width * g.height
    requires FillInvariant(g, orig, d, points, sx, sy, fill, bound)
    requires points == [(sx, sy)] || SeedSettled(g, d, sx, sy, fill, bound)
    ensures var (d', ok) := FillFrom(g, d, points, fill, bound);
      KeepsBound(orig, d', bound) && OnlyFilledFrom(g, d', orig, fill) && SeedSettled(g, d', sx, sy, fill, bound)
      && ChangedInRegion(g, orig, d', sx, sy, fill, bound) && (ok ==> Closed(g, orig, d', [], fill, bound))
    decreases |Pending(g, d, fill, bound)|, |points|
  {
    if |points| > 0 {
      var (d', next, checked) := FillStep(g, d, points, fill, bound);
      FillStepKeeps(g, orig, d, points, sx, sy, fill, bound);
      if !checked || |next| <= g.width * g.height {
        FillFromSound(g, orig, d', next, sx, sy, fill, bound);
      }
    }
  }

  /** With every open neighbour of a changed pixel changed, a changed start changes a whole open path. */
  lemma {:induction false} PathChanged(g: Geometry, orig: seq<RGB>, d: seq<RGB>, path: seq<(int, int)>,
                                       fill: (real, real) -> RGB, bound: RGB)
    requires Addressable(g) && |d| == |orig| == g.width * g.height
    requires OpenPath(g, orig, path, fill, bound) && Closed(g, orig, d, [], fill, bound)
    requires Changed(g, orig, d, path[0].0, path[0].1)
    ensures Changed(g, orig, d, path[|path| - 1].0, path[|path| - 1].1)
    decreases |path|
  {
    if |path| > 1 {
      var front := path[..|path| - 1];
      assert OpenPath(g, orig, front, fill, bound);
      PathChanged(g, orig, d, front, fill, bound);
      assert path[|path| - 1] in Neighbours(front[|front| - 1].0, front[|front| - 1].1);
      assert Open(g, orig, path[|path| - 1].0, path[|path| - 1].1, fill, bound);
    }
  }

  /**
   * The flood fill from (sx, sy): bound-coloured cells keep their colour,
   * every pixel ends as it was or in its own fill colour, the seed ends
   * settled, no pixel outside the seed's open region changes, and, when the
   * worklist assertion never fails, every pixel of that region ends in its
   * fill colour.
   */
  lemma FillPaintsRegion(g: Geometry, orig: seq<RGB>, sx: int, sy: int, fill: (real, real) -> RGB, bound: RGB)
    requires Addressable(g) && !g.xWrap && !g.yWrap && |orig| == g.width * g.height
    ensures var (d, ok) := FillFrom(g, orig, [(sx, sy)], fill, bound);
      KeepsBound(orig, d, bound) && OnlyFilledFrom(g, d, orig, fill) && SeedSettled(g, d, sx, sy, fill, bound)
      && (forall x, y :: Reachable(g, x, y) && !InRegion(g, orig, sx, sy, x, y, fill, bound)
            ==> d[Pos(g, x, y)] == orig[Pos(g, x, y)])
      && (ok ==> forall x, y :: (InRegion(g, orig, sx, sy, x, y, fill, bound)
                                 ==> d[Pos(g, x, y)] == fill(x as real, y as real)))
  {
    FillFromSound(g, orig, orig, [(sx, sy)], sx, sy, fill, bound);
    var (d, ok) := FillFrom(g, orig, [(sx, sy)], fill, bound);
    if ok {
      forall x, y | InRegion(g, orig, sx, sy, x, y, fill, bound)
        ensures d[Pos(g, x, y)] == fill(x as real, y as real)
      {
        var path :| OpenPath(g, orig, path, fill, bound) && path[0] == (sx, sy) && path[|path| - 1] == (x, y);
        assert Open(g, orig, sx, sy, fill, bound);
        PathChanged(g, orig, d, path, fill, bound);
      }
    }
  }

  /**
   * The worklist assertion fails on ordinary input: on a 2 x 2 image of one
   * colour, seeded at (0, 0) with an unused fill and bound colour, the fourth
   * turn paints (0, 1) and leaves five points, one more than the four cells.
   */
  lemma SmallFillOverflows(c: RGB, f: RGB, b: RGB)
    requires c != f && c != b
    ensures FillFrom(Geometry(2, 2, false, false, false), [c, c, c, c], [(0, 0)], (_, _) => f, b)
         == ([f, c, f, c], false)
  {
    var g := Geometry(2, 2, false, false, false);
    var fill: (real, real) -> RGB := (_, _) => f;
    var p1 := [(1, 0), (0, 1), (-1, 0), (0, -1)];
    assert Pos(g, 0, 0) == 0 && Pos(g, 0, 1) == 2;
    assert [c, c, c, c][0 := f] == [f, c, c, c];
    assert [f, c, c, c][2 := f] == [f, c, f, c];
    assert [] + Neighbours(0, 0) == p1;
    var p2, p3, p4 := [(1, 0), (0, 1), (-1, 0)], [(1, 0), (0, 1)], [(1, 0)] + Neighbours(0, 1);
    assert p1[..3] == p2 && p2[..2] == p3 && p3[..1] == [(1, 0)];
    assert FillStep(g, [c, c, c, c], [(0, 0)], fill, b) == ([f, c, c, c], p1, true);
    assert FillStep(g, [f, c, c, c], p1, fill, b) == ([f, c, c, c], p2, true);
    assert FillStep(g, [f, c, c, c], p2, fill, b) == ([f, c, c, c], p3, true);
    assert FillStep(g, [f, c, c, c], p3, fill, b) == ([f, c, f, c], p4, true);
    assert FillFrom(g, [f, c, c, c], p3, fill, b) == ([f, c, f, c], false);
    assert FillFrom(g, [f, c, c, c], p2, fill, b) == FillFrom(g, [f, c, c, c], p3, fill, b);
    assert FillFrom(g, [f, c, c, c], p1, fill, b) == FillFrom(g, [f, c, c, c], p2, fill, b);
  }

  // ---------------------------------------------------------------- the image

  class PPMImg {
    var height: nat
    var width: nat
    var depth: U16
    var xWrap: bool
    var yWrap: bool
    var invertY: bool
    var data: array<RGB>
    var zbuf: array<Depth>

    /** Both buffers hold width * height cells, and that product fits a u32. */
    ghost predicate Valid()
      reads this
    {
      data.Length == width * height && zbuf.Length == width * height && width * height <= U32Max
    }

    function Geom(): Geometry
      reads this
    {
      Geometry(width, height, xWrap, yWrap, invertY)
    }

    /** PPMImg::with_bg: every pixel bg, every depth negative infinity, no flag set. */
    constructor WithBg(height: nat, width: nat, depth: U16, bg: RGB)
      requires width * height <= U32Max
      ensures Valid()
      ensures this.height == height && this.width == width && this.depth == depth
      ensures !xWrap && !yWrap && !invertY
      ensures data[..] == seq(width * height, _ => bg)
      ensures zbuf[..] == seq(width * height, _ => NegInf)
      ensures fresh(data) && fresh(zbuf)
    {
      this.height, this.width, this.depth := height, width, depth;
      xWrap, yWrap, invertY := false, false, false;
      data := new RGB[width * height](_ => bg);
      zbuf := new Depth[width * height](_ => NegInf);
    }

    /** PPMImg::new: with_bg on black. */
    constructor New(height: nat, width: nat, depth: U16)
      requires width * height <= U32Max
      ensures Valid()
      ensures this.height == height && this.width == width && this.depth == depth
      ensures !xWrap && !yWrap && !invertY
      ensures data[..] == seq(width * height, _ => Gray(0))
      ensures zbuf[..] == seq(width * height, _ => NegInf)
      ensures fresh(data) && fresh(zbuf)
    {
      this.height, this.width, this.depth := height, width, depth;
      xWrap, yWrap, invertY := false, false, false;
      data := new RGB[width * height](_ => Gray(0));
      zbuf := new Depth[width * height](_ => NegInf);
    }

    /** PartialEq: dimensions, depth and colours; the depth buffer and the flags do not count. */
    predicate Same(other: PPMImg)
      reads this, other, data, other.data
    {
      height == other.height && width == other.width && depth == other.depth && data[..] == other.data[..]
    }

    /**
     * plot: the origin moves to the lower left (row height - 1 - y); a
     * fragment is kept only where `index` finds a cell whose stored depth
     * is strictly below z.
     */
    method Plot(x: int, y: int, z: real, color: RGB)
      requires Valid() && Addressable(Geom())
      requires I32Min <= height - 1 - y <= I32Max
      modifies data, zbuf
      ensures var at := Index(Geom(), x, height - 1 - y);
        (at.Some? ==> 0 <= at.value < data.Length)
        && (data[..], zbuf[..]) == PlotOnto(old(data[..]), old(zbuf[..]), at, z, color)
    {
      var row := height - 1 - y;
      var at := Index(Geom(), x, row);
      if at.Some? {
        IndexInBuffer(Geom(), x, row);
        var i := at.value;
        if Below(zbuf[i], z) {
          data[i] := color;
          zbuf[i] := Finite(z);
        }
      }
    }

    /** clear: every pixel takes the colour and the depth buffer is replaced by a fresh one at negative infinity. */
    method Clear(color: RGB)
      requires Valid()
      modifies this, data
      ensures Valid() && data == old(data) && fresh(zbuf)
      ensures height == old(height) && width == old(width) && depth == old(depth)
      ensures xWrap == old(xWrap) && yWrap == old(yWrap) && invertY == old(invertY)
      ensures data[..] == seq(width * height, _ => color)
      ensures zbuf[..] == seq(width * height, _ => NegInf)
    {
      var i := 0;
      while i < data.Length
        invariant 0 <= i <= data.Length
        invariant forall k :: 0 <= k < i ==> data[k] == color
        invariant height == old(height) && width == old(width) && depth == old(depth) && data == old(data)
        invariant xWrap == old(xWrap) && yWrap == old(yWrap) && invertY == old(invertY)
      {
        data[i] := color;
        i := i + 1;
      }
      var cells := width * height;
      assert cells == data.Length;
      zbuf := new Depth[cells](_ => NegInf);
    }

    /** Every in-range pixel is either as it was or painted with its own fill colour. */
    ghost predicate OnlyFilled(before: seq<RGB>, fill: (real, real) -> RGB)
      requires Valid() && Addressable(Geom()) && |before| == data.Length
      reads this, data
    {
      OnlyFilledFrom(Geom(), data[..], before, fill)
    }

    /**
     * bound4_fill_with_fn: a worklist flood fill from (x, y). A popped
     * point outside the image, in the bound colour, or already in its fill
     * colour is dropped; any other is painted and its four neighbours are
     * pushed. The worklist length is asserted to stay within width * height
     * after every turn but the two inside drops; `ok` is false where that
     * assertion fails, with the image as it then stands. The result is
     * `FillFrom` from the seed; pixels outside the seed's open region never
     * change, and without a failed assertion the whole region is filled.
     * Only colours change, never depths.
     */
    method Bound4Fill(x: int, y: int, fill: (real, real) -> RGB, bound: RGB) returns (ok: bool)
      requires Valid() && Addressable(Geom()) && !xWrap && !yWrap
      modifies data
      ensures (data[..], ok) == FillFrom(Geom(), old(data[..]), [(x, y)], fill, bound)
      ensures KeepsBound(old(data[..]), data[..], bound)
      ensures OnlyFilled(old(data[..]), fill)
      ensures SeedSettled(Geom(), data[..], x, y, fill, bound)
      ensures forall px, py :: Reachable(Geom(), px, py) && !InRegion(Geom(), old(data[..]), x, y, px, py, fill, bound)
                ==> data[..][Pos(Geom(), px, py)] == old(data[..])[Pos(Geom(), px, py)]
      ensures ok ==> forall px, py :: (InRegion(Geom(), old(data[..]), x, y, px, py, fill, bound)
                                       ==> data[..][Pos(Geom(), px, py)] == fill(px as real, py as real))
    {
      var g := Geom();
      FillPaintsRegion(g, data[..], x, y, fill, bound);
      var points := [(x, y)];
      ok := true;
      while |points| > 0
        invariant FillFrom(g, data[..], points, fill, bound) == FillFrom(g, old(data[..]), [(x, y)], fill, bound)
        decreases |Pending(g, data[..], fill, bound)|, |points|
      {
        var checked;
        points, checked := FillTurn(points, fill, bound);
        if checked && |points| > width * height {
          ok := false;
          return;
        }
      }
    }

    /**
     * One turn of the fill loop: pop the last point; an inside pixel in the
     * bound colour or already in its fill colour ends the turn before the
     * length assertion (`checked` false); any other inside pixel is painted
     * and its four neighbours pushed.
     */
    method FillTurn(points: seq<(int, int)>, fill: (real, real) -> RGB, bound: RGB)
      returns (next: seq<(int, int)>, checked: bool)
      requires Valid() && Addressable(Geom()) && !xWrap && !yWrap && |points| > 0
      modifies data
      ensures (data[..], next, checked) == FillStep(Geom(), old(data[..]), points, fill, bound)
    {
      var g := Geom();
      var (px, py) := points[|points| - 1];
      next, checked := points[..|points| - 1], true;
      var at := Index(g, px, py);
      if at.Some? {
        var i := Pos(g, px, py);
        var color := data[i];
        if color == bound {
          checked := false;
          return;
        }
        var fcolor := fill(px as real, py as real);
        if color == fcolor {
          checked := false;
          return;
        }
        data[i] := fcolor;
        next := next + Neighbours(px, py);
      }
    }

    /** write_bin_to_buf: the P6 header, then every pixel's channels in buffer order. */
    method WriteBinary() returns (out: seq<Byte>)
      requires Valid()
      ensures out == BinaryPpm(width, height, depth, data[..])
    {
      out := P6Header(width, height, depth);
      var wide := depth >= 256;
      ghost var start := out;
      var i := 0;
      while i < data.Length
        invariant 0 <= i <= data.Length
        invariant out == start + Raster(data[..i], wide)
      {
        TakeOne(data[..], i);
        AppendAssoc(start, Raster(data[..i], wide), PixelBytes(data[i], wide));
        var red, green, blue := Channel(data[i].red, wide), Channel(data[i].green, wide), Channel(data[i].blue, wide);
        AppendAssoc(out, red + green, blue);
        AppendAssoc(out, red, green);
        out := out + red + green + blue;
        i := i + 1;
      }
      assert data[..i] == data[..];
    }

    /** write_ascii's format: the P3 header, then one line of three decimal channels per pixel. */
    method WriteAscii() returns (out: string)
      requires Valid()
      ensures out == AsciiPpm(width, height, depth, data[..])
    {
      out := "P3\n" + SizeLine(width, height, depth);
      ghost var start := out;
      var i := 0;
      while i < data.Length
        invariant 0 <= i <= data.Length
        invariant out == start + AsciiRaster(data[..i])
      {
        TakeOne(data[..], i);
        AppendAssoc(start, AsciiRaster(data[..i]), AsciiPixel(data[i]));
        out := out + AsciiPixel(data[i]);
        i := i + 1;
      }
      assert data[..i] == data[..];
    }
  }
}
