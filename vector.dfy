/** The older vector module: a two-dimensional vector identical to the one in
    `Vector2`, and a three-dimensional vector with distance and
    move-towards. */
module LegacyVector {
  import opened JsMath
  import V2 = Vector2

  datatype Vec3 = Vec3(x: real, y: real, z: real) {

    /** A copy with the same components. */
    function Clone(): (r: Vec3)
      ensures r.x == x && r.y == y && r.z == z
    {
      Vec3(x, y, z)
    }

    function Add(other: Vec3): Vec3 {
      Vec3(x + other.x, y + other.y, z + other.z)
    }

    function Subtract(other: Vec3): Vec3 {
      Vec3(x - other.x, y - other.y, z - other.z)
    }

    function Multiply(scalar: real): Vec3 {
      Vec3(x * scalar, y * scalar, z * scalar)
    }

    /** The radicand of the length. */
    function SquaredLength(): real {
      x * x + y * y + z * z
    }

    function Length(lib: MathLib): real {
      Sqrt(lib, SquaredLength())
    }

    /** The unit vector in the same direction, or the zero vector when the
        length is not positive. */
    function Normalize(lib: MathLib): (r: Vec3)
      ensures !(Length(lib) > 0.0) ==> r == Vec3(0.0, 0.0, 0.0)
      ensures Length(lib) > 0.0 ==> r == Multiply(1.0 / Length(lib))
    {
      var len := Length(lib);
      if len > 0.0 then Vec3(x / len, y / len, z / len) else Vec3(0.0, 0.0, 0.0)
    }

    /** The radicand of the distance; `a ** 2` is the exact square here. */
    function SquaredDistanceTo(other: Vec3): real {
      (x - other.x) * (x - other.x) + (y - other.y) * (y - other.y)
        + (z - other.z) * (z - other.z)
    }

    /** Euclidean distance. */
    function DistanceTo(lib: MathLib, other: Vec3): real {
      Sqrt(lib, SquaredDistanceTo(other))
    }

    /** Linear interpolation towards `other`. */
    function Mix(other: Vec3, t: real): (r: Vec3)
      ensures t == 0.0 ==> r == this
      ensures t == 1.0 ==> r == other
    {
      Vec3(x + (other.x - x) * t, y + (other.y - y) * t, z + (other.z - z) * t)
    }

    /** A step of at most `maxDistance` towards `target`; no step at all when
        the difference has length 0. */
    function MoveTowards(lib: MathLib, target: Vec3, maxDistance: real): Vec3 {
      var diff := target.Subtract(this);
      if diff.Length(lib) == 0.0 then
        this
      else
        Add(diff.Normalize(lib).Multiply(Min(maxDistance, DistanceTo(lib, target))))
    }

    /** The first two components. */
    function Xy(): (r: V2.Vec2)
      ensures r.x == x && r.y == y
    {
      V2.New(x, y)
    }

    /** The components in the order x, y, z. */
    function ToArray(): (r: seq<real>)
      ensures |r| == 3 && r[0] == x && r[1] == y && r[2] == z
    {
      [x, y, z]
    }
  }

  /** The constructor; omitted components default to 0. */
  function New(x: real := 0.0, y: real := 0.0, z: real := 0.0): (v: Vec3)
    ensures v.x == x && v.y == y && v.z == z
  {
    Vec3(x, y, z)
  }

  function From(x: real, y: real, z: real): Vec3 {
    New(x, y, z)
  }

  function Zero(): Vec3 {
    New()
  }

  /** The two-dimensional constructor fills omitted components with 0. */
  lemma Vec2Defaults(x: real)
    ensures V2.New() == V2.Zero()
    ensures V2.New(x) == V2.Vec2(x, 0.0)
  {
  }

  /** The three-dimensional constructor fills omitted components with 0. */
  lemma Vec3Defaults(x: real, y: real)
    ensures New() == Zero() == Vec3(0.0, 0.0, 0.0)
    ensures New(x) == Vec3(x, 0.0, 0.0)
    ensures New(x, y) == Vec3(x, y, 0.0)
  {
  }

  /** Subtracting what was added restores the vector. */
  lemma AddSubtract(a: Vec3, b: Vec3)
    ensures a.Add(b).Subtract(b) == a
  {
  }

  /** The squared length is zero exactly for the zero vector. */
  lemma SquaredLengthPositive(v: Vec3)
    ensures v.SquaredLength() >= 0.0
    ensures v.SquaredLength() > 0.0 <==> v != Zero()
  {
    SumOfThreeSquares(v.x, v.y, v.z, v.SquaredLength());
  }

  /** Normalising the zero vector yields the zero vector, whatever `sqrt(0)`
      is. */
  lemma NormalizeZero(lib: MathLib)
    ensures Zero().Normalize(lib) == Zero()
  {
  }

  /** The distance to `target` is the length of the difference vector. */
  lemma DistanceIsDifferenceLength(lib: MathLib, v: Vec3, target: Vec3)
    ensures v.DistanceTo(lib, target) == target.Subtract(v).Length(lib)
  {
    var d := target.Subtract(v);
    assert v.SquaredDistanceTo(target) == d.SquaredLength();
    SqrtEq(lib, v.SquaredDistanceTo(target), d.SquaredLength());
  }

  /** Scaling the zero vector gives the zero vector. */
  lemma MultiplyZero(s: real)
    ensures Zero().Multiply(s) == Zero()
  {
  }

  /** The difference of a vector with itself is the zero vector. */
  lemma SubtractSelf(v: Vec3)
    ensures v.Subtract(v) == Zero()
  {
  }

  /** The zero vector has length 0 when sqrt(0) = 0. */
  lemma ZeroLength(lib: MathLib)
    requires RootAt(lib, 0.0)
    ensures Zero().Length(lib) == 0.0
  {
    SqrtZero(lib);
    SqrtEq(lib, Zero().SquaredLength(), 0.0);
  }

  /** Moving towards the point itself stays put. */
  lemma MoveTowardsSelf(lib: MathLib, v: Vec3, maxDistance: real)
    requires RootAt(lib, 0.0)
    ensures v.MoveTowards(lib, v, maxDistance) == v
  {
    SubtractSelf(v);
    ZeroLength(lib);
  }

  /** Scaling by s scales the squared length by s * s. */
  lemma MultiplySquaredLength(v: Vec3, s: real)
    ensures v.Multiply(s).SquaredLength() == s * s * v.SquaredLength()
  {
  }

  /** Scaling by s scales the length by |s|. */
  lemma MultiplyLength(lib: MathLib, v: Vec3, s: real)
    requires RootAt(lib, v.SquaredLength()) && RootAt(lib, v.Multiply(s).SquaredLength())
    ensures v.Multiply(s).Length(lib) == Abs(s) * v.Length(lib)
  {
    SquaredLengthPositive(v);
    MultiplySquaredLength(v, s);
    SqrtScale(lib, s, v.SquaredLength(), v.Multiply(s).SquaredLength());
  }

  /** A nonzero vector has positive length. */
  lemma LengthPositive(lib: MathLib, v: Vec3)
    requires RootAt(lib, v.SquaredLength()) && v != Zero()
    ensures v.Length(lib) > 0.0
  {
    SquaredLengthPositive(v);
    SqrtPositive(lib, v.SquaredLength());
  }

  /** A nonzero vector normalises to squared length 1. */
  lemma NormalizeSquaredLength(lib: MathLib, v: Vec3)
    requires RootAt(lib, v.SquaredLength()) && v != Zero()
    ensures v.Normalize(lib).SquaredLength() == 1.0
  {
    LengthPositive(lib, v);
    var c := 1.0 / v.Length(lib);
    ReciprocalSquares(v.SquaredLength(), v.Length(lib));
    MultiplySquaredLength(v, c);
  }

  /** A nonzero vector normalises to unit length. */
  lemma NormalizeUnit(lib: MathLib, v: Vec3)
    requires RootAt(lib, v.SquaredLength()) && RootAt(lib, 1.0) && v != Zero()
    ensures v.Normalize(lib).Length(lib) == 1.0
  {
    NormalizeSquaredLength(lib, v);
    SqrtEq(lib, v.Normalize(lib).SquaredLength(), 1.0);
    SqrtOne(lib);
  }

  /** Adding a vector and then subtracting the start leaves the added vector. */
  lemma AddThenSubtract(v: Vec3, w: Vec3)
    ensures v.Add(w).Subtract(v) == w
  {
  }

  /** Scaling twice is scaling by the product. */
  lemma MultiplyMultiply(v: Vec3, a: real, b: real)
    ensures v.Multiply(a).Multiply(b) == v.Multiply(a * b)
  {
  }

  /** Away from the target, the step is the unit direction scaled by the
      capped distance. */
  lemma MoveTowardsUnfold(lib: MathLib, v: Vec3, target: Vec3, maxDistance: real)
    requires target != v && RootAt(lib, target.Subtract(v).SquaredLength())
    ensures v.MoveTowards(lib, target, maxDistance).Subtract(v)
      == target.Subtract(v).Normalize(lib).Multiply(Min(maxDistance, v.DistanceTo(lib, target)))
  {
    var diff := target.Subtract(v);
    assert diff != Zero();
    LengthPositive(lib, diff);
    AddThenSubtract(v, diff.Normalize(lib).Multiply(Min(maxDistance, v.DistanceTo(lib, target))));
  }

  /** `moveTowards` steps along `target - this`, by the fraction
      min(maxDistance, distance) / distance of the difference. */
  lemma MoveTowardsDirection(lib: MathLib, v: Vec3, target: Vec3, maxDistance: real)
    requires target != v && RootAt(lib, target.Subtract(v).SquaredLength())
    ensures v.DistanceTo(lib, target) > 0.0
    ensures v.MoveTowards(lib, target, maxDistance).Subtract(v)
      == target.Subtract(v).Multiply(Min(maxDistance, v.DistanceTo(lib, target)) / v.DistanceTo(lib, target))
  {
    var diff := target.Subtract(v);
    var len := diff.Length(lib);
    var m := Min(maxDistance, v.DistanceTo(lib, target));
    assert diff != Zero();
    DistanceIsDifferenceLength(lib, v, target);
    LengthPositive(lib, diff);
    MoveTowardsUnfold(lib, v, target, maxDistance);
    assert diff.Normalize(lib) == diff.Multiply(1.0 / len);
    ScaleByRatio(diff, len, m);
  }

  /** Scaling by `1 / len` and then by `m` is scaling by `m / len`. */
  lemma ScaleByRatio(v: Vec3, len: real, m: real)
    requires len != 0.0
    ensures v.Multiply(1.0 / len).Multiply(m) == v.Multiply(m / len)
  {
    MultiplyMultiply(v, 1.0 / len, m);
    assert (1.0 / len) * m == m / len;
  }

  /** `moveTowards` moves a distance of |min(maxDistance, distance)|. */
  lemma MoveTowardsDistance(lib: MathLib, v: Vec3, target: Vec3, maxDistance: real)
    requires target != v
    requires RootAt(lib, target.Subtract(v).SquaredLength()) && RootAt(lib, 1.0)
    requires RootAt(lib, v.MoveTowards(lib, target, maxDistance).Subtract(v).SquaredLength())
    ensures v.MoveTowards(lib, target, maxDistance).Subtract(v).Length(lib)
      == Abs(Min(maxDistance, v.DistanceTo(lib, target)))
  {
    var diff := target.Subtract(v);
    var m := Min(maxDistance, v.DistanceTo(lib, target));
    var n := diff.Normalize(lib);
    assert diff != Zero();
    MoveTowardsUnfold(lib, v, target, maxDistance);
    NormalizeSquaredLength(lib, diff);
    calc {
      v.MoveTowards(lib, target, maxDistance).Subtract(v).Length(lib);
      n.Multiply(m).Length(lib);
      { MultiplyLength(lib, n, m); }
      Abs(m) * n.Length(lib);
      { NormalizeUnit(lib, diff); }
      Abs(m) * 1.0;
      Abs(m);
    }
  }

  /** A step cap at least the distance lands exactly on the target. */
  lemma MoveTowardsArrives(lib: MathLib, v: Vec3, target: Vec3, maxDistance: real)
    requires RootAt(lib, target.Subtract(v).SquaredLength()) && RootAt(lib, 0.0)
    requires maxDistance >= v.DistanceTo(lib, target)
    ensures v.MoveTowards(lib, target, maxDistance) == target
  {
    if target == v {
      MoveTowardsSelf(lib, v, maxDistance);
    } else {
      var dist := v.DistanceTo(lib, target);
      MoveTowardsDirection(lib, v, target, maxDistance);
      assert Min(maxDistance, dist) / dist == 1.0;
      assert target.Subtract(v).Multiply(1.0) == target.Subtract(v);
    }
  }
}
