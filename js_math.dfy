/** The parts of JavaScript's `Math` and number semantics the model relies on.
    The transcendental functions are not computed here: they are fields of a
    `MathLib` record passed to every operation that calls them, and the
    properties a proof needs are stated as predicates over that record. */
module JsMath {

  /** `Math.cos`, `Math.sin`, `Math.exp`, `Math.pow` and `Math.sqrt`. */
  datatype MathLib = MathLib(
    cos: real -> real,
    sin: real -> real,
    exp: real -> real,
    pow: (real, real) -> real,
    sqrt: real -> real)

  /** `Math.PI`, the double closest to pi. */
  const PI: real := 3.141592653589793
  const TAU: real := 2.0 * PI

  function Cos(lib: MathLib, x: real): real {
    lib.cos(x)
  }

  function Sin(lib: MathLib, x: real): real {
    lib.sin(x)
  }

  function Exp(lib: MathLib, x: real): real {
    lib.exp(x)
  }

  function Pow(lib: MathLib, base: real, exponent: real): real {
    lib.pow(base, exponent)
  }

  function Sqrt(lib: MathLib, x: real): real {
    lib.sqrt(x)
  }

  /** exp(0) = 1. */
  ghost predicate ExpAtZero(lib: MathLib) {
    Exp(lib, 0.0) == 1.0
  }

  /** exp is positive and at most 1 on non-positive arguments. */
  ghost predicate ExpDecays(lib: MathLib) {
    forall x :: x <= 0.0 ==> 0.0 < Exp(lib, x) <= 1.0
  }

  /** sqrt(x) is the non-negative square root of x, when x is not negative. */
  ghost predicate RootAt(lib: MathLib, x: real) {
    x >= 0.0 ==> Sqrt(lib, x) >= 0.0 && Sqrt(lib, x) * Sqrt(lib, x) == x
  }

  /** pow(2, x) > 0 for every x. */
  ghost predicate PowOfTwoPositive(lib: MathLib) {
    forall x :: Pow(lib, 2.0, x) > 0.0
  }

  /** pow(x, 3) = x * x * x at one point. */
  ghost predicate CubeAt(lib: MathLib, x: real) {
    Pow(lib, x, 3.0) == x * x * x
  }

  function Abs(x: real): real {
    if x < 0.0 then -x else x
  }

  /** `Math.min` on two numbers. */
  function Min(a: real, b: real): real {
    if a <= b then a else b
  }

  /** `Math.max` on two numbers. */
  function Max(a: real, b: real): real {
    if a >= b then a else b
  }

  /** `Math.round`: the nearest integer, halves rounded towards +infinity. */
  function Round(x: real): (r: real)
    ensures r == r.Floor as real
    ensures x - 0.5 < r <= x + 0.5
  {
    (x + 0.5).Floor as real
  }

  /** Truncation towards zero. */
  function Trunc(x: real): (r: int)
    ensures x >= 0.0 ==> r as real <= x < r as real + 1.0
    ensures x < 0.0 ==> r as real - 1.0 < x <= r as real
  {
    if x >= 0.0 then x.Floor else -((-x).Floor)
  }

  /** JavaScript's `%` on numbers: the remainder of the division truncated
      towards zero, so it carries the sign of the dividend `a`. */
  function TruncRem(a: real, b: real): real
    requires b != 0.0
  {
    a - b * (Trunc(a / b) as real)
  }

  /** Multiplying by a positive number keeps the order. */
  lemma MulLeftMono(b: real, x: real, y: real)
    requires b > 0.0
    ensures x <= y ==> b * x <= b * y
    ensures x < y ==> b * x < b * y
  {
  }

  /** A product of two numbers in [0, 1] lies in [0, 1] and below each factor. */
  lemma UnitProduct(x: real, y: real)
    requires 0.0 <= x <= 1.0 && 0.0 <= y <= 1.0
    ensures 0.0 <= x * y <= x && x * y <= y
  {
    if x > 0.0 {
      MulLeftMono(x, 0.0, y);
      MulLeftMono(x, y, 1.0);
    }
    if y > 0.0 {
      MulLeftMono(y, x, 1.0);
      assert y * x == x * y;
    }
  }

  /** Scaling a number by a factor in [0, 1] moves it towards zero. */
  lemma ScaleBetween(c: real, t: real)
    requires 0.0 <= t <= 1.0
    ensures c >= 0.0 ==> 0.0 <= c * t <= c
    ensures c < 0.0 ==> c <= c * t <= 0.0
  {
    if t > 0.0 {
      MulLeftMono(t, c, 0.0);
      MulLeftMono(t, 0.0, c);
      assert t * c == c * t;
      if c != 0.0 {
        MulLeftMono(if c > 0.0 then c else -c, t, 1.0);
      }
    }
  }

  /** For a positive divisor the remainder lies strictly between -b and b and
      has the sign of the dividend. */
  lemma TruncRemBounds(a: real, b: real)
    requires b > 0.0
    ensures a >= 0.0 ==> 0.0 <= TruncRem(a, b) < b
    ensures a < 0.0 ==> -b < TruncRem(a, b) <= 0.0
  {
    var q := a / b;
    var t := Trunc(q) as real;
    assert b * q == a;
    assert TruncRem(a, b) == a - b * t;
    if a >= 0.0 {
      if q < 0.0 {
        MulLeftMono(b, q, 0.0);
      }
      assert q >= 0.0;
      assert t <= q < t + 1.0;
      MulLeftMono(b, t, q);
      MulLeftMono(b, q, t + 1.0);
      calc {
        a;
        b * q;
      <
        b * (t + 1.0);
        b * t + b;
      }
    } else {
      if q >= 0.0 {
        MulLeftMono(b, 0.0, q);
      }
      assert q < 0.0;
      assert t - 1.0 < q <= t;
      MulLeftMono(b, t - 1.0, q);
      MulLeftMono(b, q, t);
      calc {
        a;
        b * q;
      >
        b * (t - 1.0);
        b * t - b;
      }
    }
  }

  /** A dividend already strictly inside (-b, b) is its own remainder. */
  lemma TruncRemSmall(a: real, b: real)
    requires b > 0.0 && -b < a < b
    ensures TruncRem(a, b) == a
  {
    var q := a / b;
    assert b * q == a;
    if q >= 1.0 {
      MulLeftMono(b, 1.0, q);
      assert false;
    }
    if q <= -1.0 {
      MulLeftMono(b, q, -1.0);
      assert false;
    }
    assert Trunc(q) == 0;
  }

  /** Squaring is strictly increasing on non-negative numbers. */
  lemma SquareStrictMono(x: real, y: real)
    requires 0.0 <= x < y
    ensures x * x < y * y
  {
    MulLeftMono(y, x, y);
    if x > 0.0 {
      MulLeftMono(x, x, y);
      assert x * y == y * x;
    } else {
      calc {
        x * x;
        0.0;
        y * 0.0;
        < y * y;
      }
    }
  }

  /** The square root of a square is the non-negative base. */
  lemma SqrtOfSquare(lib: MathLib, y: real, sq: real)
    requires y >= 0.0 && sq == y * y && RootAt(lib, sq)
    ensures Sqrt(lib, sq) == y
  {
    SquareNonNegative(y);
    var s := Sqrt(lib, sq);
    assert s >= 0.0 && s * s == y * y;
    if s < y {
      SquareStrictMono(s, y);
    } else if y < s {
      SquareStrictMono(y, s);
    }
  }

  /** A square is never negative. */
  lemma SquareNonNegative(l: real)
    ensures l * l >= 0.0
  {
    if l != 0.0 {
      SquarePositive(l);
    }
  }

  /** The square of a nonzero number is positive. */
  lemma SquarePositive(l: real)
    requires l != 0.0
    ensures l * l > 0.0
  {
    if l > 0.0 {
      MulLeftMono(l, 0.0, l);
    } else {
      MulLeftMono(-l, 0.0, -l);
      assert (-l) * (-l) == l * l;
    }
  }

  /** A square root that is positive has a positive radicand and vice versa. */
  lemma SqrtPositive(lib: MathLib, y: real)
    requires y >= 0.0 && RootAt(lib, y)
    ensures Sqrt(lib, y) > 0.0 <==> y > 0.0
  {
    if Sqrt(lib, y) != 0.0 {
      SquarePositive(Sqrt(lib, y));
      calc {
        y;
        Sqrt(lib, y) * Sqrt(lib, y);
      >
        0.0;
      }
    }
  }

  /** sqrt(1) = 1. */
  lemma SqrtOne(lib: MathLib)
    requires RootAt(lib, 1.0)
    ensures Sqrt(lib, 1.0) == 1.0
  {
    SqrtOfSquare(lib, 1.0, 1.0);
  }

  /** sqrt(0) = 0. */
  lemma SqrtZero(lib: MathLib)
    requires RootAt(lib, 0.0)
    ensures Sqrt(lib, 0.0) == 0.0
  {
    SqrtOfSquare(lib, 0.0, 0.0);
  }

  /** sqrt(c * c * y) = |c| * sqrt(y). */
  lemma SqrtScale(lib: MathLib, c: real, y: real, sq: real)
    requires y >= 0.0 && sq == c * c * y && RootAt(lib, y) && RootAt(lib, sq)
    ensures sq >= 0.0
    ensures Sqrt(lib, sq) == Abs(c) * Sqrt(lib, y)
  {
    SquareNonNegative(c);
    ProductNonNegative(c * c, y);
    ProductNonNegative(Abs(c), Sqrt(lib, y));
    calc {
      (Abs(c) * Sqrt(lib, y)) * (Abs(c) * Sqrt(lib, y));
      (Abs(c) * Abs(c)) * (Sqrt(lib, y) * Sqrt(lib, y));
      { assert Abs(c) * Abs(c) == c * c; }
      (c * c) * y;
    }
    SqrtOfSquare(lib, Abs(c) * Sqrt(lib, y), sq);
  }

  /** A square is positive exactly when its root is nonzero. */
  lemma SquarePositiveIff(l: real, sq: real)
    requires sq == l * l
    ensures sq >= 0.0
    ensures sq > 0.0 <==> l != 0.0
  {
    if l != 0.0 {
      SquarePositive(l);
      calc {
        sq;
      == l * l;
      > 0.0;
      }
    } else {
      calc {
        sq;
      == l * l;
      == 0.0 * 0.0;
      == 0.0;
      }
    }
  }

  /** A sum of two squares is non-negative, and positive exactly when one
      of the roots is nonzero. */
  lemma SumOfSquares(a: real, b: real, sum: real)
    requires sum == a * a + b * b
    ensures sum >= 0.0
    ensures sum > 0.0 <==> a != 0.0 || b != 0.0
  {
    SquarePositiveIff(a, a * a);
    AddSquare(a * a, b, sum);
  }

  /** The same for three squares. */
  lemma SumOfThreeSquares(a: real, b: real, c: real, sum: real)
    requires sum == a * a + b * b + c * c
    ensures sum >= 0.0
    ensures sum > 0.0 <==> a != 0.0 || b != 0.0 || c != 0.0
  {
    SumOfSquares(a, b, a * a + b * b);
    AddSquare(a * a + b * b, c, sum);
  }

  /** The same for six squares. */
  lemma SumOfSixSquares(a: real, b: real, c: real, d: real, e: real, f: real, sum: real)
    requires sum == a * a + b * b + c * c + d * d + e * e + f * f
    ensures sum >= 0.0
    ensures sum > 0.0 <==> a != 0.0 || b != 0.0 || c != 0.0 || d != 0.0 || e != 0.0 || f != 0.0
  {
    SumOfThreeSquares(a, b, c, a * a + b * b + c * c);
    AddSquare(a * a + b * b + c * c, d, a * a + b * b + c * c + d * d);
    AddSquare(a * a + b * b + c * c + d * d, e, a * a + b * b + c * c + d * d + e * e);
    AddSquare(a * a + b * b + c * c + d * d + e * e, f, sum);
  }

  /** Adding a square to a non-negative sum keeps it non-negative, and the
      result is positive exactly when the sum or the new term is. */
  lemma AddSquare(s: real, a: real, sum: real)
    requires s >= 0.0 && sum == s + a * a
    ensures sum >= 0.0
    ensures sum > 0.0 <==> s > 0.0 || a != 0.0
  {
    if a != 0.0 {
      SquarePositive(a);
      calc {
        sum;
      == s + a * a;
      > s;
      >= 0.0;
      }
    } else {
      calc {
        sum;
      == s + a * a;
      == s + 0.0 * 0.0;
      == s;
      }
    }
  }

  /** The product of two non-negative numbers is non-negative. */
  lemma ProductNonNegative(x: real, y: real)
    requires x >= 0.0 && y >= 0.0
    ensures x * y >= 0.0
  {
    if x > 0.0 {
      MulLeftMono(x, 0.0, y);
    }
  }

  /** A product of two nonzero numbers is nonzero. */
  lemma ProductNonZero(x: real, y: real)
    requires x != 0.0 && y != 0.0
    ensures x * y != 0.0
  {
  }

  /** Equal arguments give equal square roots. */
  lemma SqrtEq(lib: MathLib, a: real, b: real)
    requires a == b
    ensures Sqrt(lib, a) == Sqrt(lib, b)
  {
  }

  /** The squared reciprocal of a length cancels its square. */
  lemma ReciprocalSquares(sq: real, l: real)
    requires l > 0.0 && l * l == sq
    ensures (1.0 / l) * (1.0 / l) * sq == 1.0
  {
    var c := 1.0 / l;
    assert c * l == 1.0;
    calc {
      c * c * sq;
      c * c * (l * l);
      (c * l) * (c * l);
      1.0;
    }
  }

  /** Scaling by the reciprocal of a positive length gives a factor whose
      product with that length is 1. */
  lemma ReciprocalScale(l: real)
    requires l > 0.0
    ensures 1.0 / l > 0.0 && Abs(1.0 / l) * l == 1.0
  {
  }
}
