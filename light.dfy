// Lighting (src/light.rs): light sources, material constants, and the
// additive shading loop that turns them into one colour per surface.
// Square roots and powf come from the caller's Libm and are uninterpreted.
module Lighting {
  import opened Wrappers
  import opened FloatModel
  import opened Colors
  import opened Vector
  import opened MdlTypes
  import opened SeqFacts

  /** A light: ambient, or a point source with a distance falloff. */
  datatype Light =
    | Ambient(ambient: RGB)
    | Point(color: RGB, location: Vec3, fatt: real -> real)

  /** Material constants: ambient, diffuse and specular reflection, intensities, shininess. */
  datatype LightProps = LightProps(ka: Vec3, kd: Vec3, ks: Vec3, intensities: Vec3, ns: real)

  /** LightProps::DEFAULT_PROPS */
  const DEFAULT_PROPS: LightProps :=
    LightProps(Vec3(0.3, 0.3, 0.3), Vec3(0.5, 0.5, 0.5), Vec3(0.5, 0.5, 0.5), ZEROS, 10.0)

  /** The shininess every `constants` declaration gets. */
  const DefaultShininess: real := 10.0

  /** From<ObjConst> for LightProps. */
  function FromObjConst(oc: ObjConst): (p: LightProps)
    ensures p.ka == Vec3(oc.kar, oc.kag, oc.kab)
    ensures p.kd == Vec3(oc.kdr, oc.kdg, oc.kdb)
    ensures p.ks == Vec3(oc.ksr, oc.ksg, oc.ksb)
    ensures oc.ir.None? ==> p.intensities.x == 0.0
    ensures oc.ig.None? ==> p.intensities.y == 0.0
    ensures oc.ib.None? ==> p.intensities.z == 0.0
    ensures oc.ir.Some? ==> p.intensities.x == oc.ir.value
    ensures oc.ig.Some? ==> p.intensities.y == oc.ig.value
    ensures oc.ib.Some? ==> p.intensities.z == oc.ib.value
    ensures p.ns == DefaultShininess
  {
    LightProps(
      Vec3(oc.kar, oc.kag, oc.kab),
      Vec3(oc.kdr, oc.kdg, oc.kdb),
      Vec3(oc.ksr, oc.ksg, oc.ksb),
      Vec3(UnwrapOrZero(oc.ir), UnwrapOrZero(oc.ig), UnwrapOrZero(oc.ib)),
      DefaultShininess)
  }

  function UnwrapOrZero(o: Option<real>): real {
    if o.Some? then o.value else 0.0
  }

  // ---------------------------------------------------------------- falloff

  /** fatt::no_effect: distance does not matter. */
  function NoEffect(distance: real): (r: real)
    ensures r == 1.0
  {
    1.0
  }

  /** fatt::invlinear: 10 / d. */
  function InvLinear(distance: real): (r: real)
    requires distance != 0.0
    ensures r * distance == 10.0
  {
    10.0 / distance
  }

  /** fatt::invsq: 10000 / d². */
  function InvSq(distance: real): (r: real)
    requires distance != 0.0
    ensures r * (distance * distance) == 10000.0
  {
    10000.0 / (distance * distance)
  }

  /** Doubling the distance quarters the inverse-square falloff and halves the inverse-linear one. */
  lemma FalloffAtDoubleDistance(d: real)
    requires d != 0.0
    ensures InvLinear(2.0 * d) * 2.0 == InvLinear(d)
    ensures InvSq(2.0 * d) * 4.0 == InvSq(d)
  {
    var l, l2 := InvLinear(d), InvLinear(2.0 * d);
    assert l2 * (2.0 * d) == l * d;
    var s, s2 := InvSq(d), InvSq(2.0 * d);
    assert s2 * (4.0 * (d * d)) == s * (d * d);
  }

  /** default_lights: one ambient light and two point lights without falloff. */
  function DefaultLights(): (ls: seq<Light>)
    ensures |ls| == 3 && ls[0].Ambient? && ls[1].Point? && ls[2].Point?
  {
    [ Ambient(RGB(100, 100, 50)),
      Point(RGB(252, 219, 3), Vec3(250.0, 500.0, 0.0), NoEffect),
      Point(RGB(44, 156, 73), Vec3(250.0, 0.0, 0.0), NoEffect) ]
  }

  /** No default light dims with distance. */
  lemma DefaultLightsHaveNoFalloff(d: real)
    ensures forall l | l in DefaultLights() && l.Point? :: l.fatt(d) == 1.0
  {
    var ls := DefaultLights();
    assert ls[1].fatt(d) == NoEffect(d) && ls[2].fatt(d) == NoEffect(d);
  }

  // ---------------------------------------------------------------- shading

  /** The cosine term of a point light, clamped at zero. */
  function NDotDir(normaln: Vec3, dirvecn: Vec3): (r: real)
    ensures r >= 0.0
    ensures Dot(normaln, dirvecn) >= 0.0 ==> r == Dot(normaln, dirvecn)
  {
    RealMax(Dot(normaln, dirvecn), 0.0)
  }

  /** The diffuse reflection of a point light. */
  function Diffuse(props: LightProps, color: RGB, ndotdir: real): Vec3 {
    Scale(MulAcross(FromRgb(color), props.kd), ndotdir)
  }

  /** The specular reflection of a point light: (2 n (n·d) - d) · v, clamped at zero, to the power ns. */
  function Specular(lib: Libm, props: LightProps, color: RGB, normaln: Vec3, dirvecn: Vec3, viewn: Vec3, ndotdir: real): Vec3 {
    var reflected := Sub(Scale(I32Scale(2, normaln), ndotdir), dirvecn);
    Scale(MulAcross(FromRgb(color), props.ks), lib.powf(RealMax(Dot(reflected, viewn), 0.0), props.ns))
  }

  /** What a point light adds before the per-light clamp, given its falloff factor f. */
  function PointContribution(lib: Libm, props: LightProps, color: RGB, location: Vec3, normaln: Vec3, viewn: Vec3, loc: Vec3, f: real): Vec3 {
    var dirvecn := Norm(lib, Sub(location, loc));
    var ndotdir := NDotDir(normaln, dirvecn);
    Scale(Add(Limit(Diffuse(props, color, ndotdir), 0.0, 255.0),
              LimitMax(Specular(lib, props, color, normaln, dirvecn, viewn, ndotdir), 255.0)),
          f)
  }

  /** What one light adds before the per-light clamp, given the normalised normal and view. */
  function Contribution(lib: Libm, props: LightProps, light: Light, normaln: Vec3, viewn: Vec3, loc: Vec3): Vec3 {
    match light
    case Ambient(a) => MulAcross(props.ka, FromRgb(a))
    case Point(color, location, fatt) =>
      PointContribution(lib, props, color, location, normaln, viewn, loc, fatt(Mag(lib, Sub(location, loc))))
  }

  /** One iteration of the loop: add the contribution clamped to [0, 255], then cap the sum at 255. */
  function Step(acc: Vec3, contribution: Vec3): Vec3 {
    LimitMax(Add(acc, Limit(contribution, 0.0, 255.0)), 255.0)
  }

  /** The accumulator after the given lights, in order. */
  function Accumulated(lib: Libm, props: LightProps, lights: seq<Light>, normaln: Vec3, viewn: Vec3, loc: Vec3): Vec3 {
    if |lights| == 0 then ZEROS
    else
      Step(Accumulated(lib, props, lights[..|lights| - 1], normaln, viewn, loc),
           Contribution(lib, props, lights[|lights| - 1], normaln, viewn, loc))
  }

  /** The accumulated colour of a surface, before conversion to RGB. */
  function Shade(lib: Libm, props: LightProps, lights: seq<Light>, normal: Vec3, view: Vec3, loc: Vec3): Vec3 {
    Accumulated(lib, props, lights, Norm(lib, normal), Norm(lib, view), loc)
  }

  predicate InUnitRange(v: Vec3) {
    0.0 <= v.x <= 255.0 && 0.0 <= v.y <= 255.0 && 0.0 <= v.z <= 255.0
  }

  /** Each step keeps the accumulator inside [0, 255] on every channel. */
  lemma StepInRange(acc: Vec3, contribution: Vec3)
    requires InUnitRange(acc)
    ensures InUnitRange(Step(acc, contribution))
  {
  }

  /** The accumulator never leaves [0, 255], whatever the lights. */
  lemma {:induction false} AccumulatedInRange(lib: Libm, props: LightProps, lights: seq<Light>, normaln: Vec3, viewn: Vec3, loc: Vec3)
    ensures InUnitRange(Accumulated(lib, props, lights, normaln, viewn, loc))
  {
    if |lights| > 0 {
      AccumulatedInRange(lib, props, lights[..|lights| - 1], normaln, viewn, loc);
      StepInRange(Accumulated(lib, props, lights[..|lights| - 1], normaln, viewn, loc),
                  Contribution(lib, props, lights[|lights| - 1], normaln, viewn, loc));
    }
  }

  /** Each converted channel is the whole part of the accumulated value, which never saturates. */
  lemma ShadeChannels(lib: Libm, props: LightProps, lights: seq<Light>, normal: Vec3, view: Vec3, loc: Vec3)
    ensures var v := Shade(lib, props, lights, normal, view, loc);
      var c := ToRgb(v);
      c.red == v.x.Floor && c.green == v.y.Floor && c.blue == v.z.Floor
  {
    AccumulatedInRange(lib, props, lights, Norm(lib, normal), Norm(lib, view), loc);
  }

  /** An ambient light's contribution does not depend on the normal, the view or the location. */
  lemma AmbientIgnoresGeometry(lib: Libm, props: LightProps, a: RGB, n1: Vec3, v1: Vec3, l1: Vec3, n2: Vec3, v2: Vec3, l2: Vec3)
    ensures Contribution(lib, props, Ambient(a), n1, v1, l1) == Contribution(lib, props, Ambient(a), n2, v2, l2)
  {
  }

  /** A black ambient light changes nothing, wherever it sits in the list. */
  lemma BlackAmbientIsNeutral(lib: Libm, props: LightProps, lights: seq<Light>, normaln: Vec3, viewn: Vec3, loc: Vec3)
    ensures Accumulated(lib, props, lights + [Ambient(BLACK)], normaln, viewn, loc)
         == Accumulated(lib, props, lights, normaln, viewn, loc)
  {
    var ls := lights + [Ambient(BLACK)];
    assert ls[..|ls| - 1] == lights;
    AccumulatedInRange(lib, props, lights, normaln, viewn, loc);
    var acc := Accumulated(lib, props, lights, normaln, viewn, loc);
    assert Contribution(lib, props, Ambient(BLACK), normaln, viewn, loc) == ZEROS;
    assert Step(acc, ZEROS) == acc;
  }

  /** A point light facing away from the surface reflects no diffuse light. */
  lemma DiffuseVanishesWhenFacingAway(props: LightProps, color: RGB, normaln: Vec3, dirvecn: Vec3)
    requires Dot(normaln, dirvecn) <= 0.0
    ensures Diffuse(props, color, NDotDir(normaln, dirvecn)) == ZEROS
  {
  }

  /**
   * With a non-negative falloff, a point light adds at most 255 of clamped
   * diffuse plus 255 of capped specular, scaled by the falloff.
   */
  lemma PointContributionBounded(lib: Libm, props: LightProps, color: RGB, location: Vec3, normaln: Vec3, viewn: Vec3, loc: Vec3, f: real)
    requires f >= 0.0
    ensures var c := PointContribution(lib, props, color, location, normaln, viewn, loc, f);
      c.x <= 510.0 * f && c.y <= 510.0 * f && c.z <= 510.0 * f
  {
    var dirvecn := Norm(lib, Sub(location, loc));
    var ndotdir := NDotDir(normaln, dirvecn);
    ClampedSumBounded(Diffuse(props, color, ndotdir), Specular(lib, props, color, normaln, dirvecn, viewn, ndotdir), f);
  }

  /** Clamped diffuse plus capped specular, scaled by a non-negative f, is at most 510 f per channel. */
  lemma ClampedSumBounded(diffuse: Vec3, specular: Vec3, f: real)
    requires f >= 0.0
    ensures var c := Scale(Add(Limit(diffuse, 0.0, 255.0), LimitMax(specular, 255.0)), f);
      c.x <= 510.0 * f && c.y <= 510.0 * f && c.z <= 510.0 * f
  {
    var s := Add(Limit(diffuse, 0.0, 255.0), LimitMax(specular, 255.0));
    ScaleAtMost(s.x, f);
    ScaleAtMost(s.y, f);
    ScaleAtMost(s.z, f);
  }

  lemma ScaleAtMost(a: real, f: real)
    requires a <= 510.0 && f >= 0.0
    ensures a * f <= 510.0 * f
  {
  }

  /** The lights shipped as defaults, seen through DEFAULT_PROPS, start from an ambient (30, 30, 15). */
  lemma DefaultAmbientShade(lib: Libm, normaln: Vec3, viewn: Vec3, loc: Vec3)
    ensures Accumulated(lib, DEFAULT_PROPS, DefaultLights()[..1], normaln, viewn, loc) == Vec3(30.0, 30.0, 15.0)
  {
    var ls := DefaultLights()[..1];
    assert ls[..0] == [];
    assert Contribution(lib, DEFAULT_PROPS, ls[0], normaln, viewn, loc) == Vec3(30.0, 30.0, 15.0);
  }

  /**
   * compute_color: the shading loop over the lights, in order, converted to
   * RGB at the end. No lights give black.
   */
  method ComputeColor(lib: Libm, props: LightProps, lights: seq<Light>, normal: Vec3, view: Vec3, loc: Vec3)
    returns (c: RGB)
    ensures c == ToRgb(Shade(lib, props, lights, normal, view, loc))
    ensures |lights| == 0 ==> c == BLACK
  {
    var color := ZEROS;
    var normaln := Norm(lib, normal);
    var viewn := Norm(lib, view);
    for i := 0 to |lights|
      invariant color == Accumulated(lib, props, lights[..i], normaln, viewn, loc)
    {
      TakeOne(lights, i);
      color := Step(color, Contribution(lib, props, lights[i], normaln, viewn, loc));
    }
    assert lights[..|lights|] == lights;
    c := ToRgb(color);
  }

  /**
   * Light::transform_by: an ambient light stays as it is; a point light
   * moves its location through the given point transform and keeps its
   * colour and falloff.
   */
  function TransformLight(l: Light, move: Vec3 -> Vec3): (r: Light)
    ensures l.Ambient? ==> r == l
    ensures l.Point? ==> r.Point? && r.color == l.color && r.fatt == l.fatt && r.location == move(l.location)
  {
    match l
    case Ambient(_) => l
    case Point(color, location, fatt) => Point(color, move(location), fatt)
  }

  /** Transforming lights never changes what an ambient light contributes. */
  lemma TransformKeepsAmbientContribution(lib: Libm, props: LightProps, l: Light, move: Vec3 -> Vec3, normaln: Vec3, viewn: Vec3, loc: Vec3)
    requires l.Ambient?
    ensures Contribution(lib, props, TransformLight(l, move), normaln, viewn, loc)
         == Contribution(lib, props, l, normaln, viewn, loc)
  {
  }
}
