// Colours of the library tree (src/colors.rs): 16-bit RGB triples, the
// HSL-to-RGB conversion and the rounding helpers fmax2/fmin2/fmin3.
module Colors {
  import opened Wrappers
  import opened FloatModel

  type U16 = x: int | 0 <= x <= 0xffff

  /** One pixel colour; every channel is a u16. */
  datatype RGB = RGB(red: U16, green: U16, blue: U16)

  const WHITE: RGB := RGB(255, 255, 255)
  const BLACK: RGB := RGB(0, 0, 0)

  predicate IsGray(c: RGB) {
    c.red == c.green == c.blue
  }

  /** RGB::gray: the grey of the given level. */
  function Gray(depth: U16): (c: RGB)
    ensures IsGray(c) && c.red == depth
  {
    RGB(depth, depth, depth)
  }

  /** Hue, saturation and lightness, each meant to lie in [0, 1]. */
  datatype HSL = HSL(h: real, s: real, l: real)

  /** The hue in whole degrees: `(h * 360).round() as i32`. */
  function HueDegrees(c: HSL): int {
    SaturateI32(Round(c.h * 360.0))
  }

  /** Sector position k = (n + hue / 30) % 12 of channel n, in i32 arithmetic. */
  function Sector(n: int, hue: int): int {
    RemT(n + DivT(hue, 30), 12)
  }

  /** max(-1, min(k - 3, 9 - k, 1)): how far channel n is pulled from the lightness. */
  function SectorWeight(k: int): (w: int)
    ensures -1 <= w <= 1
  {
    IntMax(-1, IntMin(IntMin(k - 3, 9 - k), 1))
  }

  /** The chroma half-width a = s * min(l, 1 - l) of the conversion. */
  function Chroma(c: HSL): (a: real)
    ensures 0.0 <= c.s <= 1.0 && 0.0 <= c.l <= 1.0 ==> 0.0 <= a <= c.l && a <= 1.0 - c.l
    ensures c.s == 0.0 ==> a == 0.0
  {
    var m := RealMin(c.l, 1.0 - c.l);
    ScaleWithinUnit(c.s, m);
    c.s * m
  }

  /** The lightness l pulled by a times the weight w. */
  function Pulled(l: real, a: real, w: real): real {
    l - a * w
  }

  /** The closure f(n) of the conversion. */
  function HslChannel(c: HSL, n: int): real {
    Pulled(c.l, Chroma(c), SectorWeight(Sector(n, HueDegrees(c))) as real)
  }

  /** The conversion asserts that every channel rounds to 0 or 1. */
  predicate RoundsToBit(v: real) {
    var r := SaturateI32(Round(v));
    r == 0 || r == 1
  }

  /**
   * From<HSL> for RGB. None stands for the panic of the three asserts;
   * red, green and blue are channels 0, 8 and 4.
   */
  function HslToRgb(c: HSL): Option<RGB> {
    ChannelsToRgb(HslChannel(c, 0), HslChannel(c, 8), HslChannel(c, 4))
  }

  /** The last step of the conversion: check the three channels, then scale them by 255. */
  function ChannelsToRgb(r: real, g: real, b: real): Option<RGB> {
    if RoundsToBit(r) && RoundsToBit(g) && RoundsToBit(b) then
      Some(RGB(CastU16(r * 255.0), CastU16(g * 255.0), CastU16(b * 255.0)))
    else
      None
  }

  /**
   * For a hue in [0, 1] and the channels 0, 4 and 8 actually used, the
   * sector index lies in [0, 11].
   */
  lemma SectorInRange(c: HSL, n: int)
    requires 0.0 <= c.h <= 1.0 && (n == 0 || n == 4 || n == 8)
    ensures 0 <= Sector(n, HueDegrees(c)) <= 11
  {
    assert 0.0 <= c.h * 360.0 <= 360.0;
  }

  /** A channel of an HSL colour inside the unit cube lies in [0, 1]. */
  lemma HslChannelInUnit(c: HSL, n: int)
    requires 0.0 <= c.s <= 1.0 && 0.0 <= c.l <= 1.0
    ensures 0.0 <= HslChannel(c, n) <= 1.0
  {
    PulledWithinUnit(c.l, Chroma(c), SectorWeight(Sector(n, HueDegrees(c))));
  }

  lemma PulledWithinUnit(l: real, a: real, w: int)
    requires 0.0 <= a <= l <= 1.0 && a <= 1.0 - l && -1 <= w <= 1
    ensures 0.0 <= Pulled(l, a, w as real) <= 1.0
  {
    if w == 1 {
      assert a * w as real == a;
    } else if w == 0 {
      assert a * w as real == 0.0;
    } else {
      assert a * w as real == -a;
    }
  }

  /**
   * Every colour whose saturation and lightness lie in [0, 1] converts
   * without tripping the asserts, and every channel ends up in [0, 255].
   */
  lemma HslToRgbTotalOnUnitCube(c: HSL)
    requires 0.0 <= c.s <= 1.0 && 0.0 <= c.l <= 1.0
    ensures HslToRgb(c).Some?
    ensures HslToRgb(c).value.red <= 255
    ensures HslToRgb(c).value.green <= 255
    ensures HslToRgb(c).value.blue <= 255
  {
    HslChannelInUnit(c, 0);
    HslChannelInUnit(c, 8);
    HslChannelInUnit(c, 4);
    UnitToByte(HslChannel(c, 0));
    UnitToByte(HslChannel(c, 8));
    UnitToByte(HslChannel(c, 4));
  }

  lemma UnitToByte(v: real)
    requires 0.0 <= v <= 1.0
    ensures RoundsToBit(v)
    ensures CastU16(v * 255.0) <= 255
  {
    MulStrictlyMonotone(255.0, v, 1.0);
  }

  /** With no saturation every channel equals the lightness: a grey. */
  lemma HslUnsaturatedIsGray(c: HSL)
    requires c.s == 0.0 && 0.0 <= c.l <= 1.0
    ensures HslToRgb(c) == Some(Gray(CastU16(c.l * 255.0)))
  {
    UnpulledChannel(c, 0);
    UnpulledChannel(c, 8);
    UnpulledChannel(c, 4);
    ConversionOfChannels(c, c.l, c.l, c.l);
    UnitToByte(c.l);
  }

  lemma UnpulledChannel(c: HSL, n: int)
    requires c.s == 0.0
    ensures HslChannel(c, n) == c.l
  {
    var w := SectorWeight(Sector(n, HueDegrees(c))) as real;
    assert Chroma(c) * w == 0.0;
  }

  /** A full turn of hue at full saturation and half lightness is pure red. */
  lemma HslRedExample()
    ensures HslToRgb(HSL(1.0, 1.0, 0.5)) == Some(RGB(255, 0, 0))
  {
    var c := HSL(1.0, 1.0, 0.5);
    HalfLightChannel(c, 0, 360, 0, -1);
    HalfLightChannel(c, 8, 360, 8, 1);
    HalfLightChannel(c, 4, 360, 4, 1);
    ConversionOfChannels(c, 1.0, 0.0, 0.0);
    BitsToRgb();
  }

  /** A third of the way round the hue circle is pure green. */
  lemma HslGreenExample()
    ensures HslToRgb(HSL(1.0 / 3.0, 1.0, 0.5)) == Some(RGB(0, 255, 0))
  {
    var c := HSL(1.0 / 3.0, 1.0, 0.5);
    HalfLightChannel(c, 0, 120, 4, 1);
    HalfLightChannel(c, 8, 120, 0, -1);
    HalfLightChannel(c, 4, 120, 8, 1);
    ConversionOfChannels(c, 0.0, 1.0, 0.0);
    BitsToRgb();
  }

  /**
   * At full saturation and half lightness, channel n of a colour whose hue
   * rounds to `hue` degrees is (1 - w) / 2 for the weight w of its sector k.
   */
  lemma HalfLightChannel(c: HSL, n: int, hue: int, k: int, w: int)
    requires c.s == 1.0 && c.l == 0.5
    requires c.h * 360.0 == hue as real && I32Min <= hue <= I32Max
    requires Sector(n, hue) == k && SectorWeight(k) == w
    ensures HslChannel(c, n) == 0.5 - 0.5 * w as real
  {
    RoundOfWhole(hue);
    assert Chroma(c) == 0.5;
  }

  lemma ConversionOfChannels(c: HSL, r: real, g: real, b: real)
    requires HslChannel(c, 0) == r && HslChannel(c, 8) == g && HslChannel(c, 4) == b
    ensures HslToRgb(c) == ChannelsToRgb(r, g, b)
  {
  }

  /** Channels that are exactly 0 or 1 become 0 or 255. */
  lemma BitsToRgb()
    ensures ChannelsToRgb(1.0, 0.0, 0.0) == Some(RGB(255, 0, 0))
    ensures ChannelsToRgb(0.0, 1.0, 0.0) == Some(RGB(0, 255, 0))
  {
    RoundOfWhole(1);
    RoundOfWhole(0);
  }

  /** `(x * prec).round() as i32`. */
  function ScaledRound(x: real, prec: int): int {
    SaturateI32(Round(x * prec as real))
  }

  /** fmax2: the larger of a and b after rounding both to 1/prec steps. */
  function FMax2(a: real, b: real, prec: int): real
    requires prec != 0
  {
    IntMax(ScaledRound(a, prec), ScaledRound(b, prec)) as real / prec as real
  }

  /** fmin2: the smaller of a and b after rounding both to 1/prec steps. */
  function FMin2(a: real, b: real, prec: int): real
    requires prec != 0
  {
    IntMin(ScaledRound(a, prec), ScaledRound(b, prec)) as real / prec as real
  }

  /** fmin3: fmin2 applied twice. */
  function FMin3(a: real, b: real, c: real, prec: int): real
    requires prec != 0
  {
    FMin2(FMin2(a, b, prec), c, prec)
  }

  lemma RoundOfWhole(n: int)
    ensures Round(n as real) == n
  {
  }

  /** For a positive precision fmin2 never exceeds fmax2. */
  lemma FMin2AtMostFMax2(a: real, b: real, prec: int)
    requires prec > 0
    ensures FMin2(a, b, prec) <= FMax2(a, b, prec)
  {
    var lo := IntMin(ScaledRound(a, prec), ScaledRound(b, prec)) as real;
    var hi := IntMax(ScaledRound(a, prec), ScaledRound(b, prec)) as real;
    var p := prec as real;
    DivMonotone(lo, hi, p);
  }

  /**
   * On values that already lie on the 1/prec grid (with numerators that fit
   * an i32), fmin2 is the plain minimum.
   */
  lemma FMin2OfGridValues(na: int, nb: int, prec: int)
    requires prec > 0
    requires I32Min <= na <= I32Max && I32Min <= nb <= I32Max
    ensures FMin2(na as real / prec as real, nb as real / prec as real, prec)
         == RealMin(na as real / prec as real, nb as real / prec as real)
  {
    GridRound(na, prec);
    GridRound(nb, prec);
    MinCommutesWithDiv(na, nb, prec as real);
  }

  lemma MinCommutesWithDiv(na: int, nb: int, p: real)
    requires p > 0.0
    ensures IntMin(na, nb) as real / p == RealMin(na as real / p, nb as real / p)
  {
    if na <= nb {
      DivMonotone(na as real, nb as real, p);
    } else {
      DivMonotone(nb as real, na as real, p);
    }
  }

  lemma GridRound(n: int, prec: int)
    requires prec > 0 && I32Min <= n <= I32Max
    ensures ScaledRound(n as real / prec as real, prec) == n
  {
    var p := prec as real;
    assert n as real / p * p == n as real;
    RoundOfWhole(n);
  }
}
