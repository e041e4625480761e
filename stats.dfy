/** The arithmetic both aggregators share: LINQ's Average over a non-empty sequence, clamping,
    the pass count of an inclusive bounce loop, and the frame-to-frame smoothing of the average
    ray length (MathHelper.Lerp with blend 0.25, applied only once a previous value above
    float.Epsilon exists). */
module Stats {

  /** Sum of a sequence of reals, accumulated front to back. */
  function SumReals(xs: seq<real>): real
  {
    if xs == [] then 0.0 else SumReals(xs[..|xs| - 1]) + xs[|xs| - 1]
  }

  /** Enumerable.Average: the sum divided by the count. The caller guarantees a non-empty
      sequence (LINQ throws on an empty one). */
  function Average(xs: seq<real>): real
    requires |xs| > 0
  {
    SumReals(xs) / (|xs| as real)
  }

  lemma {:induction false} SumBounds(xs: seq<real>, lo: real, hi: real)
    requires forall i :: 0 <= i < |xs| ==> lo <= xs[i] <= hi
    ensures (|xs| as real) * lo <= SumReals(xs) <= (|xs| as real) * hi
  {
    if xs != [] {
      var init := xs[..|xs| - 1];
      assert forall i :: 0 <= i < |init| ==> init[i] == xs[i];
      SumBounds(init, lo, hi);
      assert (|xs| as real) * lo == (|init| as real) * lo + lo;
      assert (|xs| as real) * hi == (|init| as real) * hi + hi;
    }
  }

  /** The average lies between any bounds that hold of every element. */
  lemma AverageBounds(xs: seq<real>, lo: real, hi: real)
    requires |xs| > 0
    requires forall i :: 0 <= i < |xs| ==> lo <= xs[i] <= hi
    ensures lo <= Average(xs) <= hi
  {
    SumBounds(xs, lo, hi);
    var n := |xs| as real;
    assert n * lo <= SumReals(xs) <= n * hi;
    assert SumReals(xs) / n >= lo by {
      assert SumReals(xs) / n * n == SumReals(xs);
    }
    assert SumReals(xs) / n <= hi by {
      assert SumReals(xs) / n * n == SumReals(xs);
    }
  }

  lemma {:induction false} SumNonNegative(xs: seq<real>)
    requires forall i :: 0 <= i < |xs| ==> xs[i] >= 0.0
    ensures SumReals(xs) >= 0.0
  {
    if xs != [] {
      var init := xs[..|xs| - 1];
      assert forall i :: 0 <= i < |init| ==> init[i] == xs[i];
      SumNonNegative(init);
    }
  }

  /** The average of values that are never negative is never negative (no upper bound needed). */
  lemma AverageNonNegative(xs: seq<real>)
    requires |xs| > 0
    requires forall i :: 0 <= i < |xs| ==> xs[i] >= 0.0
    ensures Average(xs) >= 0.0
  {
    SumNonNegative(xs);
  }

  /** Math.Clamp and MathHelper.Clamp; the bounds must be ordered (Math.Clamp throws otherwise). */
  function Clamp(x: real, lo: real, hi: real): (r: real)
    requires lo <= hi
    ensures lo <= r <= hi
    ensures lo <= x <= hi ==> r == x
    ensures x < lo ==> r == lo
    ensures x > hi ==> r == hi
  {
    if x < lo then lo else if x > hi then hi else x
  }

  /** How many passes a loop `for i := 0; i <= max; i++` makes. */
  function Passes(max: int): nat
  {
    if max < 0 then 0 else max + 1
  }

  /** float.Epsilon, the smallest positive single-precision value, 2^-149. */
  const FloatEpsilon: real := 1.0 / 713623846352979940529142984724747568191373312.0

  const SmoothingBlend: real := 0.25

  /** MathHelper.Lerp. */
  function Lerp(a: real, b: real, blend: real): real
  {
    a + (b - a) * blend
  }

  /** The smoothed magnitude stored for the next pass: blended a quarter of the way from the
      previous value towards the new average, or the new average itself on the first pass. */
  function SmoothMagnitude(prev: real, avg: real): (r: real)
  {
    if prev > FloatEpsilon then Lerp(prev, avg, SmoothingBlend) else avg
  }

  /** Smoothing moves a quarter of the way from a stored value towards the new average, so the
      result lies between the two; with nothing stored the new average is taken as is. */
  lemma SmoothMagnitudeBetween(prev: real, avg: real)
    ensures prev > FloatEpsilon ==> SmoothMagnitude(prev, avg) - avg == 0.75 * (prev - avg)
    ensures prev <= FloatEpsilon ==> SmoothMagnitude(prev, avg) == avg
    ensures prev > FloatEpsilon ==>
              (prev <= SmoothMagnitude(prev, avg) <= avg) || (avg <= SmoothMagnitude(prev, avg) <= prev)
  {
  }

  /** The stored value after `passes` aggregation passes that all saw the raw average `m`. */
  function SmoothRepeatedly(prev: real, m: real, passes: nat): real
  {
    if passes == 0 then prev else SmoothMagnitude(SmoothRepeatedly(prev, m, passes - 1), m)
  }

  function Pow(b: real, n: nat): real
  {
    if n == 0 then 1.0 else b * Pow(b, n - 1)
  }

  /** Smoothing converges geometrically: each pass removes a quarter of the remaining gap. */
  lemma {:induction false} SmoothingConverges(prev: real, m: real, passes: nat)
    requires prev > FloatEpsilon && m > FloatEpsilon
    ensures SmoothRepeatedly(prev, m, passes) > FloatEpsilon
    ensures SmoothRepeatedly(prev, m, passes) - m == Pow(0.75, passes) * (prev - m)
  {
    if passes > 0 {
      SmoothingConverges(prev, m, passes - 1);
      var s := SmoothRepeatedly(prev, m, passes - 1);
      assert SmoothRepeatedly(prev, m, passes) - m == 0.75 * (s - m);
      calc {
        0.75 * (s - m);
        0.75 * (Pow(0.75, passes - 1) * (prev - m));
        (0.75 * Pow(0.75, passes - 1)) * (prev - m);
      }
    }
  }

  /** On the first pass (nothing stored yet) the raw average is taken as is, and from then on a
      constant raw average is a fixed point. */
  lemma {:induction false} SmoothingFromNothing(m: real, passes: nat)
    requires passes >= 1
    ensures SmoothRepeatedly(0.0, m, passes) == m
  {
    if passes > 1 {
      SmoothingFromNothing(m, passes - 1);
    }
  }
}
