// Colours of the older graphics tree (src/graphics/colors.rs). The RGB
// struct, gray and new are the same as in the library tree and are reused;
// the HSL conversion differs in that it routes min(l, 1 - l) and the sector
// weight through the three-decimal rounding helper.
module GfxColors {
  import opened Wrappers
  import opened FloatModel
  import opened Colors

  /** fmin2(l, 1 - l, 1000): min(l, 1 - l) rounded to thousandths. */
  function GfxMinLightness(c: HSL): real {
    FMin2(c.l, 1.0 - c.l, 1000)
  }

  /** The chroma half-width a = s * fmin2(l, 1 - l, 1000). */
  function GfxChroma(c: HSL): real {
    c.s * GfxMinLightness(c)
  }

  /** fmax2(-1, min(min(k - 3, 9 - k), 1), 1000). */
  function GfxSectorWeight(k: int): real {
    FMax2(-1.0, IntMin(IntMin(k - 3, 9 - k), 1) as real, 1000)
  }

  /** The closure f(n) of the graphics conversion. */
  function GfxHslChannel(c: HSL, n: int): real {
    Pulled(c.l, GfxChroma(c), GfxSectorWeight(Sector(n, HueDegrees(c))))
  }

  /** From<HSL> for RGB of the graphics tree; None stands for the panic of its asserts. */
  function GfxHslToRgb(c: HSL): Option<RGB> {
    ChannelsToRgb(GfxHslChannel(c, 0), GfxHslChannel(c, 8), GfxHslChannel(c, 4))
  }

  /**
   * Rounding the weight to three decimals changes nothing: the graphics
   * weight is the library weight max(-1, min(k - 3, 9 - k, 1)) for every k,
   * including the sectors where the inner minimum is far below -1.
   */
  lemma GfxSectorWeightIsSectorWeight(k: int)
    ensures GfxSectorWeight(k) == SectorWeight(k) as real
  {
    var m := IntMin(IntMin(k - 3, 9 - k), 1);
    WholeThousandths(-1);
    if m >= -1 {
      WholeThousandths(m);
    } else {
      WholeThousandthsBelow(m);
    }
  }

  lemma WholeThousandths(n: int)
    requires I32Min <= n * 1000 <= I32Max
    ensures ScaledRound(n as real, 1000) == n * 1000
  {
    assert n as real * 1000.0 == (n * 1000) as real;
    RoundOfWhole(n * 1000);
  }

  lemma WholeThousandthsBelow(n: int)
    requires n < -1
    ensures ScaledRound(n as real, 1000) < -1000
  {
    assert n as real * 1000.0 == (n * 1000) as real;
    RoundOfWhole(n * 1000);
  }

  /**
   * Whenever the two trees compute the same chroma (for instance when
   * fmin2(l, 1 - l, 1000) is exact, which FMin2OfGridValues shows for every
   * lightness on the thousandths grid), the graphics conversion agrees with
   * the library conversion, panics included.
   */
  lemma GfxHslToRgbAgreesWithSameChroma(c: HSL)
    requires GfxChroma(c) == Chroma(c)
    ensures GfxHslToRgb(c) == HslToRgb(c)
  {
    GfxChannelAgrees(c, 0);
    GfxChannelAgrees(c, 8);
    GfxChannelAgrees(c, 4);
  }

  lemma GfxChannelAgrees(c: HSL, n: int)
    requires GfxChroma(c) == Chroma(c)
    ensures GfxHslChannel(c, n) == HslChannel(c, n)
  {
    GfxSectorWeightIsSectorWeight(Sector(n, HueDegrees(c)));
  }

  /** fmin2 on equal arguments is fmax2 on them. */
  lemma FMin2EqualsFMax2OnEqualArguments(a: real, prec: int)
    requires prec != 0
    ensures FMin2(a, a, prec) == FMax2(a, a, prec)
  {
  }
}
