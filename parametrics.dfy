// Parametric curves of src/graphics/parametrics.rs: a pair of functions of
// t, and an iterator that samples them at t = 0, step, 2 step, ... for as
// long as t has not passed 1. Time advances by exact addition here; the
// rounding of repeated f64 additions is not modelled.
module Parametrics {
  import opened Wrappers
  import opened FloatModel

  /** Parametric::new: x and y as functions of t. */
  datatype Parametric = Parametric(x: real -> real, y: real -> real)

  /** Parametric::point_at */
  function PointAt(p: Parametric, t: real): (real, real) {
    (p.x(t), p.y(t))
  }

  /** How many points the iterator yields for a step: every k with k * step <= 1. */
  function SampleCount(step: real): (n: nat)
    requires step > 0.0
    ensures n >= 1
  {
    Floor(1.0 / step) + 1
  }

  /** The k-th time the iterator samples: t starts at 0 and grows by step. */
  function Time(k: nat, step: real): real {
    k as real * step
  }

  /** The points at times 0, step, ..., (n - 1) step. */
  function SamplesUpTo(p: Parametric, step: real, n: nat): (ps: seq<(real, real)>)
    ensures |ps| == n
  {
    if n == 0 then [] else SamplesUpTo(p, step, n - 1) + [PointAt(p, Time(n - 1, step))]
  }

  /** Entry k of the samples is the point at time k * step. */
  lemma {:induction false} SamplesUpToAt(p: Parametric, step: real, n: nat, k: nat)
    requires k < n
    ensures SamplesUpTo(p, step, n)[k] == PointAt(p, Time(k, step))
  {
    var front := SamplesUpTo(p, step, n - 1);
    assert SamplesUpTo(p, step, n) == front + [PointAt(p, Time(n - 1, step))];
    if k < n - 1 {
      SamplesUpToAt(p, step, n - 1, k);
      assert SamplesUpTo(p, step, n)[k] == front[k];
    } else {
      assert k == n - 1;
    }
  }

  /** Everything points_iter(step) yields, in order. */
  function SamplePoints(p: Parametric, step: real): (ps: seq<(real, real)>)
    requires step > 0.0
  {
    SamplesUpTo(p, step, SampleCount(step))
  }

  /** A time k * step is sampled exactly when it has not passed 1. */
  lemma SampledExactly(step: real, k: nat)
    requires step > 0.0
    ensures k < SampleCount(step) <==> Time(k, step) <= 1.0
  {
    var f := Floor(1.0 / step);
    if k < SampleCount(step) {
      MulMonotone(step, k as real, 1.0 / step);
    } else {
      MulMonotone(step, f as real + 1.0, k as real);
      MulMonotone(step, 1.0 / step, f as real + 1.0);
    }
  }

  lemma MulMonotone(step: real, a: real, b: real)
    requires step > 0.0 && a <= b
    ensures a * step <= b * step && (a < b ==> a * step < b * step)
  {
  }

  lemma NextTime(k: nat, step: real)
    ensures Time(k + 1, step) == Time(k, step) + step
  {
  }

  /** The first point yielded is point_at(0). */
  lemma FirstSampleIsStart(p: Parametric, step: real)
    requires step > 0.0
    ensures |SamplePoints(p, step)| >= 1 && SamplePoints(p, step)[0] == PointAt(p, 0.0)
  {
    SamplesUpToAt(p, step, SampleCount(step), 0);
  }

  /** ParametricIter: the curve, the next time to sample, and the step. */
  class ParametricIter {
    const parametric: Parametric
    var t: real
    const step: real

    /** ParametricIter::new asserts a positive step and starts at t = 0. */
    constructor (parametric: Parametric, step: real)
      requires step > 0.0
      ensures this.parametric == parametric && this.step == step && t == 0.0
    {
      this.parametric := parametric;
      this.step := step;
      t := 0.0;
    }

    /**
     * next: once t has passed 1 the iterator is exhausted and stays so;
     * otherwise it yields the point at t and moves t on by one step.
     */
    method Next() returns (r: Option<(real, real)>)
      modifies this
      ensures old(t) > 1.0 ==> r == None && t == old(t)
      ensures old(t) <= 1.0 ==> r == Some(PointAt(parametric, old(t))) && t == old(t) + step
    {
      if t > 1.0 {
        r := None;
      } else {
        var oldT := t;
        t := t + step;
        r := Some(PointAt(parametric, oldT));
      }
    }
  }

  /**
   * points_iter(step).collect(): drains a fresh iterator. The points are
   * those of SamplePoints, and the iterator ends exhausted.
   */
  method Collect(it: ParametricIter) returns (points: seq<(real, real)>)
    requires it.t == 0.0 && it.step > 0.0
    modifies it
    ensures points == SamplePoints(it.parametric, it.step)
    ensures it.t > 1.0
  {
    ghost var p, step := it.parametric, it.step;
    points := [];
    var done := false;
    ghost var k: nat := 0;
    while !done
      invariant it.parametric == p && it.step == step && step > 0.0
      invariant it.t == Time(k, step)
      invariant done ==> it.t > 1.0 && k == SampleCount(step)
      invariant !done ==> k <= SampleCount(step)
      invariant points == SamplesUpTo(p, step, k)
      decreases SampleCount(step) - k, if done then 0 else 1
    {
      var r := it.Next();
      SampledExactly(step, k);
      NextTime(k, step);
      if r.None? {
        done := true;
      } else {
        points := points + [r.value];
        k := k + 1;
      }
    }
  }
}
