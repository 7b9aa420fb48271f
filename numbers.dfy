/** Scalar helpers: linear interpolation and the frame-rate independent
    smoothing factor used by every velocity update. */
module Numbers {
  import opened JsMath

  /** Linear interpolation from `a` (at t = 0) to `b` (at t = 1). */
  function Lerp(a: real, b: real, t: real): (r: real)
    ensures t == 0.0 ==> r == a
    ensures t == 1.0 ==> r == b
    ensures a == b ==> r == a
  {
    a + (b - a) * t
  }

  /** For a parameter in [0, 1] the interpolant lies between the two ends. */
  lemma LerpBetween(a: real, b: real, t: real)
    requires 0.0 <= t <= 1.0
    ensures Min(a, b) <= Lerp(a, b, t) <= Max(a, b)
  {
    var c := b - a;
    ScaleBetween(c, t);
    assert Lerp(a, b, t) == a + c * t;
  }

  /** The interpolant is affine in t, without clamping: it moves from `a` by
      t times the gap, for every t. */
  lemma LerpAffine(a: real, b: real, t: real)
    ensures Lerp(a, b, t) - a == t * (b - a)
  {
  }

  /** The gap left to `b` after interpolating by t is a fraction 1 - t of the
      original gap. */
  lemma LerpRemainingGap(a: real, b: real, t: real)
    ensures b - Lerp(a, b, t) == (1.0 - t) * (b - a)
  {
  }

  /** `1 - exp(-k * dt)`: the fraction of the remaining gap to close in a
      frame of length `dt` at rate `k`. */
  function ExpLerpFactor(lib: MathLib, k: real, dt: real): (f: real)
    ensures ExpAtZero(lib) && (k == 0.0 || dt == 0.0) ==> f == 0.0
    ensures ExpDecays(lib) && k * dt >= 0.0 ==> 0.0 <= f < 1.0
  {
    assert -k * dt == -(k * dt);
    1.0 - Exp(lib, -k * dt)
  }
}
