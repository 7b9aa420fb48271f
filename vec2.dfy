/** Immutable two-dimensional vectors (the `Vec2` used for key-driven
    movement directions). */
module Vector2 {
  import opened Wrappers
  import opened JsMath
  import opened JsValues

  datatype Vec2 = Vec2(x: real, y: real) {

    /** A copy with the same components. */
    function Clone(): (r: Vec2)
      ensures r.x == x && r.y == y
    {
      Vec2(x, y)
    }

    function Add(other: Vec2): Vec2 {
      Vec2(x + other.x, y + other.y)
    }

    function Subtract(other: Vec2): Vec2 {
      Vec2(x - other.x, y - other.y)
    }

    function Multiply(scalar: real): Vec2 {
      Vec2(x * scalar, y * scalar)
    }

    /** x * x + y * y, the radicand of the length. */
    function SquaredLength(): real {
      x * x + y * y
    }

    /** Euclidean length. */
    function Length(lib: MathLib): real {
      Sqrt(lib, SquaredLength())
    }

    /** The unit vector in the same direction, or the zero vector when the
        length is not positive. */
    function Normalize(lib: MathLib): (r: Vec2)
      ensures !(Length(lib) > 0.0) ==> r == Vec2(0.0, 0.0)
      ensures Length(lib) > 0.0 ==> r == Multiply(1.0 / Length(lib))
    {
      var len := Length(lib);
      if len > 0.0 then Vec2(x / len, y / len) else Vec2(0.0, 0.0)
    }

    /** Linear interpolation towards `other`. */
    function Mix(other: Vec2, t: real): (r: Vec2)
      ensures t == 0.0 ==> r == this
      ensures t == 1.0 ==> r == other
    {
      Vec2(x + (other.x - x) * t, y + (other.y - y) * t)
    }

    /** The components in the order x, y. */
    function ToArray(): (r: seq<real>)
      ensures |r| == 2 && r[0] == x && r[1] == y
    {
      [x, y]
    }
  }

  /** The constructor; omitted components default to 0. */
  function New(x: real := 0.0, y: real := 0.0): (v: Vec2)
    ensures v.x == x && v.y == y
  {
    Vec2(x, y)
  }

  function From(x: real, y: real): Vec2 {
    New(x, y)
  }

  function Zero(): Vec2 {
    New(0.0, 0.0)
  }

  /** Accepts exactly an array of two finite numbers. */
  function FromMaybeArray(a: Value): (r: Result<Vec2>)
    ensures r.Ok? <==> a.Array? && |a.items| == 2 && AllFiniteNumbers(a.items)
    ensures r.Ok? ==> r.value.ToArray() == Reals(a.items)
    ensures r.Err? ==> r.message == "Invalid Vec2 array"
  {
    if !a.Array? || |a.items| != 2 || !AllFiniteNumbers(a.items) then
      Err("Invalid Vec2 array")
    else
      Ok(New(a.items[0].n.r, a.items[1].n.r))
  }

  /** Parsing the array form of a vector gives the vector back. */
  lemma FromMaybeArrayToArray(v: Vec2)
    ensures FromMaybeArray(NumberArray(v.ToArray())) == Ok(v)
  {
    RealsOfNumberArray(v.ToArray());
  }

  /** Subtracting what was added restores the vector. */
  lemma AddSubtract(v: Vec2, w: Vec2)
    ensures v.Add(w).Subtract(w) == v
  {
  }

  /** Scaling by s scales the squared length by s * s. */
  lemma MultiplySquaredLength(v: Vec2, s: real)
    ensures v.Multiply(s).SquaredLength() == s * s * v.SquaredLength()
  {
  }

  /** The squared length is zero exactly for the zero vector. */
  lemma SquaredLengthPositive(v: Vec2)
    ensures v.SquaredLength() >= 0.0
    ensures v.SquaredLength() > 0.0 <==> v != Zero()
  {
    SumOfSquares(v.x, v.y, v.SquaredLength());
  }

  /** Scaling by s scales the length by |s|. */
  lemma MultiplyLength(lib: MathLib, v: Vec2, s: real)
    requires RootAt(lib, v.SquaredLength()) && RootAt(lib, v.Multiply(s).SquaredLength())
    ensures v.Multiply(s).Length(lib) == Abs(s) * v.Length(lib)
  {
    SquaredLengthPositive(v);
    MultiplySquaredLength(v, s);
    SqrtScale(lib, s, v.SquaredLength(), v.Multiply(s).SquaredLength());
  }

  /** Normalising the zero vector yields the zero vector, whatever `sqrt(0)`
      is: the components divide to 0 or the length test fails. */
  lemma NormalizeZero(lib: MathLib)
    ensures Zero().Normalize(lib) == Zero()
  {
  }

  /** A nonzero vector normalises to unit length; the zero vector to itself. */
  lemma NormalizeUnit(lib: MathLib, v: Vec2)
    requires RootAt(lib, v.SquaredLength()) && RootAt(lib, 1.0)
    ensures v != Zero() ==> v.Normalize(lib).Length(lib) == 1.0
    ensures v == Zero() ==> v.Normalize(lib) == Zero()
  {
    SquaredLengthPositive(v);
    SqrtPositive(lib, v.SquaredLength());
    if v != Zero() {
      var c := 1.0 / v.Length(lib);
      ReciprocalSquares(v.SquaredLength(), v.Length(lib));
      MultiplySquaredLength(v, c);
      calc {
        v.Normalize(lib).Length(lib);
        v.Multiply(c).Length(lib);
        Sqrt(lib, v.Multiply(c).SquaredLength());
        { SqrtEq(lib, v.Multiply(c).SquaredLength(), 1.0); }
        Sqrt(lib, 1.0);
        { SqrtOne(lib); }
        1.0;
      }
    }
  }

  /** A nonzero vector normalises to one whose squared length is 1. */
  lemma NormalizeSquaredUnit(lib: MathLib, v: Vec2)
    requires RootAt(lib, v.SquaredLength()) && v != Zero()
    ensures v.Normalize(lib).SquaredLength() == 1.0
  {
    SquaredLengthPositive(v);
    SqrtPositive(lib, v.SquaredLength());
    ReciprocalSquares(v.SquaredLength(), v.Length(lib));
    MultiplySquaredLength(v, 1.0 / v.Length(lib));
  }
}
