/** Easing curves mapping animation progress in [0, 1] to interpolation
    parameter. */
module Easing {
  import opened JsMath

  function Linear(t: real): real {
    t
  }

  /** The smoothstep polynomial t^2 (3 - 2t). */
  function EaseInOutBezier(t: real): (r: real)
    ensures 0.0 <= t <= 1.0 ==> 0.0 <= r <= 1.0
  {
    var r := t * t * (3.0 - 2.0 * t);
    if 0.0 <= t <= 1.0 then
      UnitProduct(t, t);
      assert 0.0 <= r by {
        ScaleBetween(3.0 - 2.0 * t, 1.0);
        MulLeftMono(3.0 - 2.0 * t, 0.0, t * t);
      }
      assert r <= 1.0 by {
        var u := 1.0 - t;
        UnitProduct(u, u);
        MulLeftMono(1.0 + 2.0 * t, 0.0, u * u);
        calc {
          1.0 - r;
          u * u * (1.0 + 2.0 * t);
          (1.0 + 2.0 * t) * (u * u);
        >=
          0.0;
        }
      }
      r
    else
      r
  }

  /** The curve is point-symmetric about (1/2, 1/2). */
  lemma BezierSymmetric(t: real)
    ensures EaseInOutBezier(1.0 - t) == 1.0 - EaseInOutBezier(t)
  {
    calc {
      EaseInOutBezier(1.0 - t);
      (1.0 - t) * (1.0 - t) * (1.0 + 2.0 * t);
      1.0 - t * t * (3.0 - 2.0 * t);
    }
  }

  /** A cubic ease-in for the first half, mirrored for the second. */
  function EaseInOutCubic(lib: MathLib, t: real): (r: real)
    ensures CubeAt(lib, -2.0 * t + 2.0) && 0.0 <= t <= 1.0 ==> 0.0 <= r <= 1.0
  {
    if t < 0.5 then
      assert 0.0 <= t ==> 0.0 <= 4.0 * t * t * t <= 1.0 by {
        if 0.0 <= t {
          UnitProduct(t, t);
          UnitProduct(t * t, t);
        }
      }
      4.0 * t * t * t
    else
      var x := -2.0 * t + 2.0;
      assert CubeAt(lib, x) && 0.0 <= x <= 1.0 ==> 0.0 <= Pow(lib, x, 3.0) <= 1.0 by {
        if CubeAt(lib, x) && 0.0 <= x <= 1.0 {
          UnitProduct(x, x);
          UnitProduct(x * x, x);
        }
      }
      1.0 - Pow(lib, x, 3.0) / 2.0
  }

  /** Every easing starts at 0 and ends at 1; both in-out curves pass through
      1/2 halfway, where the two halves of the cubic meet. */
  lemma EasingEndpoints(lib: MathLib)
    requires CubeAt(lib, 0.0) && CubeAt(lib, 1.0)
    ensures Linear(0.0) == 0.0 && Linear(1.0) == 1.0
    ensures EaseInOutBezier(0.0) == 0.0 && EaseInOutBezier(1.0) == 1.0
    ensures EaseInOutBezier(0.5) == 0.5
    ensures EaseInOutCubic(lib, 0.0) == 0.0 && EaseInOutCubic(lib, 1.0) == 1.0
    ensures EaseInOutCubic(lib, 0.5) == 0.5 == 4.0 * 0.5 * 0.5 * 0.5
  {
  }
}
