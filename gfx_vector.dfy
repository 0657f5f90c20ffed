// The older Vec3 of the graphics tree (src/graphics/vector.rs). Its cross
// product and its +, - and / are those of the library Vec3 and are reused;
// its dot product differs: it adds the third components instead of
// multiplying them.
module GfxVector {
  import opened Vector

  /** Vec3::dot and Vec3::_dot of the graphics tree, as written: a0 b0 + a1 b1 + a2 + b2. */
  function DotAsWritten(a: Vec3, b: Vec3): real {
    a.x * b.x + a.y * b.y + a.z + b.z
  }

  /** `Vec3 * Vec3` of the graphics tree is its dot. */
  function MulAsWritten(a: Vec3, b: Vec3): real {
    DotAsWritten(a, b)
  }

  /** The dot as written is still symmetric. */
  lemma DotAsWrittenSymmetric(a: Vec3, b: Vec3)
    ensures DotAsWritten(a, b) == DotAsWritten(b, a)
  {
  }

  /**
   * It differs from the dot product exactly by a2 + b2 - a2 b2, so it agrees
   * with Vector.Dot only when that term vanishes.
   */
  lemma DotAsWrittenDefect(a: Vec3, b: Vec3)
    ensures DotAsWritten(a, b) - Dot(a, b) == a.z + b.z - a.z * b.z
  {
  }

  /** The unit z vector with itself: the true dot is 1, the dot as written is 2. */
  lemma DotAsWrittenCounterexample()
    ensures Dot(Vec3(0.0, 0.0, 1.0), Vec3(0.0, 0.0, 1.0)) == 1.0
    ensures DotAsWritten(Vec3(0.0, 0.0, 1.0), Vec3(0.0, 0.0, 1.0)) == 2.0
  {
  }

  /**
   * The dot as written of the negative unit z vector with itself is -2,
   * where Vector.DotSelfNonNegative holds for the true dot.
   */
  lemma DotAsWrittenSelfNegative()
    ensures DotAsWritten(Vec3(0.0, 0.0, -1.0), Vec3(0.0, 0.0, -1.0)) == -2.0
  {
  }
}
