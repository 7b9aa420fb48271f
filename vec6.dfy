/** Immutable six-dimensional vectors: the position and the axes of the
    camera. The components are named x, y, z, w, v, u, in that order. */
module Vector6 {
  import opened Wrappers
  import opened JsMath
  import opened JsValues

  /** An axis index, 0 (x) to 5 (u). */
  type Axis = i: int | 0 <= i < 6

  const X_INDEX: Axis := 0
  const Y_INDEX: Axis := 1
  const Z_INDEX: Axis := 2
  const W_INDEX: Axis := 3
  const V_INDEX: Axis := 4
  const U_INDEX: Axis := 5

  datatype Vec6 = Vec6(x: real, y: real, z: real, w: real, v: real, u: real) {

    /** The component on axis `i`. */
    function Component(i: Axis): real {
      match i
      case 0 => x
      case 1 => y
      case 2 => z
      case 3 => w
      case 4 => v
      case 5 => u
    }

    /** The components in the order x, y, z, w, v, u. */
    function ToArray(): (r: seq<real>)
      ensures |r| == 6
      ensures forall i: Axis :: r[i] == Component(i)
    {
      [x, y, z, w, v, u]
    }

    function Add(o: Vec6): Vec6 {
      Vec6(x + o.x, y + o.y, z + o.z, w + o.w, v + o.v, u + o.u)
    }

    function Subtract(o: Vec6): Vec6 {
      Vec6(x - o.x, y - o.y, z - o.z, w - o.w, v - o.v, u - o.u)
    }

    function Scale(s: real): Vec6 {
      Vec6(x * s, y * s, z * s, w * s, v * s, u * s)
    }

    /** Componentwise linear interpolation towards `o`. */
    function Mix(o: Vec6, t: real): (r: Vec6)
      ensures t == 0.0 ==> r == this
      ensures t == 1.0 ==> r == o
    {
      Vec6(x + (o.x - x) * t, y + (o.y - y) * t, z + (o.z - z) * t,
        w + (o.w - w) * t, v + (o.v - v) * t, u + (o.u - u) * t)
    }

    /** `lerp`, taken to be the same interpolation as `mix`. */
    function Lerp(o: Vec6, t: real): (r: Vec6)
      ensures t == 0.0 ==> r == this
      ensures t == 1.0 ==> r == o
    {
      Mix(o, t)
    }

    function Dot(o: Vec6): real {
      x * o.x + y * o.y + z * o.z + w * o.w + v * o.v + u * o.u
    }

    function Length(lib: MathLib): real {
      Sqrt(lib, Dot(this))
    }

    /** The vector scaled by the reciprocal of its length, or the zero
        vector when that length is exactly 0. */
    function Normalize(lib: MathLib): (r: Vec6)
      ensures Length(lib) == 0.0 ==> r == Zero()
      ensures Length(lib) != 0.0 ==> r == Scale(1.0 / Length(lib))
    {
      var mag := Length(lib);
      if mag == 0.0 then Vec6(0.0, 0.0, 0.0, 0.0, 0.0, 0.0) else Scale(1.0 / mag)
    }

    /** `isZero`, taken to be: every component is 0. */
    predicate IsZero() {
      x == 0.0 && y == 0.0 && z == 0.0 && w == 0.0 && v == 0.0 && u == 0.0
    }

    /** `equals`, taken to be exact equality of the six components. */
    predicate Equals(o: Vec6) {
      x == o.x && y == o.y && z == o.z && w == o.w && v == o.v && u == o.u
    }
  }

  function Zero(): Vec6 {
    Vec6(0.0, 0.0, 0.0, 0.0, 0.0, 0.0)
  }

  /** The unit vector along axis `i` (`Vec6.X()` ... `Vec6.U()`, taken to be
      the standard basis). */
  function Basis(i: Axis): Vec6 {
    Vec6(if i == 0 then 1.0 else 0.0, if i == 1 then 1.0 else 0.0,
      if i == 2 then 1.0 else 0.0, if i == 3 then 1.0 else 0.0,
      if i == 4 then 1.0 else 0.0, if i == 5 then 1.0 else 0.0)
  }

  /** The negated unit vector along axis `i` (`Vec6.NEG_X()` ...). */
  function NegBasis(i: Axis): Vec6 {
    Vec6(if i == 0 then -1.0 else 0.0, if i == 1 then -1.0 else 0.0,
      if i == 2 then -1.0 else 0.0, if i == 3 then -1.0 else 0.0,
      if i == 4 then -1.0 else 0.0, if i == 5 then -1.0 else 0.0)
  }

  /** The signed basis vectors are +-1 on their own axis and 0 elsewhere. */
  lemma BasisComponents(i: Axis)
    ensures forall j: Axis :: Basis(i).Component(j) == if j == i then 1.0 else 0.0
    ensures forall j: Axis :: NegBasis(i).Component(j) == if j == i then -1.0 else 0.0
  {
  }

  /** Accepts exactly an array of six finite numbers. */
  function FromMaybeArray(a: Value): (r: Result<Vec6>)
    ensures r.Ok? <==> a.Array? && |a.items| == 6 && AllFiniteNumbers(a.items)
    ensures r.Ok? ==> r.value.ToArray() == Reals(a.items)
    ensures r.Err? ==> r.message == "Invalid Vec6 array"
  {
    if !a.Array? || |a.items| != 6 || !AllFiniteNumbers(a.items) then
      Err("Invalid Vec6 array")
    else
      Ok(Vec6(a.items[0].n.r, a.items[1].n.r, a.items[2].n.r,
        a.items[3].n.r, a.items[4].n.r, a.items[5].n.r))
  }

  /** A JavaScript number that equals one of the six axis indices. */
  predicate IsAxisIndex(index: Num) {
    index.Finite? && index.r == index.r.Floor as real && 0 <= index.r.Floor < 6
  }

  /** `fromIndex`: the `switch` compares the number with the six axis
      indices by `===`; every other number, fractional, infinite or NaN, is
      rejected. */
  function FromIndex(index: Num): (r: Result<Vec6>)
    ensures IsAxisIndex(index) ==> r == Ok(Basis(index.r.Floor))
    ensures !IsAxisIndex(index) ==> r == Err("Invalid index")
  {
    match index
    case Finite(x) =>
      if x == 0.0 then Ok(Vec6(1.0, 0.0, 0.0, 0.0, 0.0, 0.0))
      else if x == 1.0 then Ok(Vec6(0.0, 1.0, 0.0, 0.0, 0.0, 0.0))
      else if x == 2.0 then Ok(Vec6(0.0, 0.0, 1.0, 0.0, 0.0, 0.0))
      else if x == 3.0 then Ok(Vec6(0.0, 0.0, 0.0, 1.0, 0.0, 0.0))
      else if x == 4.0 then Ok(Vec6(0.0, 0.0, 0.0, 0.0, 1.0, 0.0))
      else if x == 5.0 then Ok(Vec6(0.0, 0.0, 0.0, 0.0, 0.0, 1.0))
      else Err("Invalid index")
    case _ => Err("Invalid index")
  }

  /** A fractional index and NaN are both rejected. */
  lemma FromIndexRejects()
    ensures FromIndex(Finite(1.5)) == Err("Invalid index")
    ensures FromIndex(NaN) == Err("Invalid index")
    ensures FromIndex(Finite(6.0)) == Err("Invalid index")
  {
  }

  /** Parsing the array form of a vector gives the vector back. */
  lemma FromMaybeArrayToArray(p: Vec6)
    ensures FromMaybeArray(NumberArray(p.ToArray())) == Ok(p)
  {
    RealsOfNumberArray(p.ToArray());
  }

  lemma AddCommutative(a: Vec6, b: Vec6)
    ensures a.Add(b) == b.Add(a)
  {
  }

  /** Subtracting what was added restores the vector. */
  lemma AddSubtract(a: Vec6, b: Vec6)
    ensures a.Add(b).Subtract(b) == a
  {
  }

  /** Scaling distributes over a sum of factors. */
  lemma ScaleSum(p: Vec6, a: real, b: real)
    ensures p.Scale(a + b) == p.Scale(a).Add(p.Scale(b))
  {
  }

  lemma AddAssociative(p: Vec6, q: Vec6, r: Vec6)
    ensures p.Add(q).Add(r) == p.Add(q.Add(r))
  {
  }

  lemma DotSymmetric(a: Vec6, b: Vec6)
    ensures a.Dot(b) == b.Dot(a)
  {
  }

  /** `dot(p, p)` is never negative, and is 0 only for the zero vector. */
  lemma DotSelf(p: Vec6)
    ensures p.Dot(p) >= 0.0
    ensures p.Dot(p) > 0.0 <==> p != Zero()
  {
    SumOfSixSquares(p.x, p.y, p.z, p.w, p.v, p.u, p.Dot(p));
  }

  /** Scaling by 1 is the identity and scaling by 0 gives the zero vector. */
  lemma ScaleOneZero(p: Vec6)
    ensures p.Scale(1.0) == p
    ensures p.Scale(0.0) == Zero()
  {
  }

  /** Normalising the zero vector gives the zero vector, whatever `sqrt(0)`
      is. */
  lemma NormalizeZero(lib: MathLib)
    ensures Zero().Normalize(lib) == Zero()
  {
  }

  /** Scaling by s scales the dot product with itself by s * s. */
  lemma ScaleDot(p: Vec6, s: real)
    ensures p.Scale(s).Dot(p.Scale(s)) == s * s * p.Dot(p)
  {
  }

  /** The dot product of `a·h + b·w` with itself, expanded. */
  lemma CombinationDot(h: Vec6, w: Vec6, a: real, b: real)
    ensures var c := h.Scale(a).Add(w.Scale(b));
      c.Dot(c) == a * a * h.Dot(h) + 2.0 * a * b * h.Dot(w) + b * b * w.Dot(w)
  {
    var c := h.Scale(a).Add(w.Scale(b));
    DotAdd(h.Scale(a), w.Scale(b), c);
    DotScale(h, c, a);
    DotScale(w, c, b);
    DotSymmetric(h, c);
    DotSymmetric(w, c);
    DotAdd(h.Scale(a), w.Scale(b), h);
    DotAdd(h.Scale(a), w.Scale(b), w);
    DotScale(h, h, a);
    DotScale(w, h, b);
    DotScale(h, w, a);
    DotScale(w, w, b);
    DotSymmetric(h, w);
    ExpandSquare(a, b, h.Dot(h), h.Dot(w), w.Dot(w), c.Dot(h), c.Dot(w), c.Dot(c));
  }

  lemma ExpandSquare(a: real, b: real, hh: real, hw: real, ww: real, hc: real, wc: real, cc: real)
    requires cc == a * hc + b * wc
    requires hc == a * hh + b * hw && wc == a * hw + b * ww
    ensures cc == a * a * hh + 2.0 * a * b * hw + b * b * ww
  {
  }

  lemma DotAdd(p: Vec6, q: Vec6, r: Vec6)
    ensures p.Add(q).Dot(r) == p.Dot(r) + q.Dot(r)
  {
  }

  lemma DotScale(p: Vec6, r: Vec6, s: real)
    ensures p.Scale(s).Dot(r) == s * p.Dot(r)
  {
  }

  /** Two orthonormal vectors combine as the plane's own axes do: `a·h + b·w`
      has squared length `a² + b²`. */
  lemma OrthonormalCombination(h: Vec6, w: Vec6, a: real, b: real)
    requires h.Dot(h) == 1.0 && w.Dot(w) == 1.0 && h.Dot(w) == 0.0
    ensures var c := h.Scale(a).Add(w.Scale(b)); c.Dot(c) == a * a + b * b
  {
    CombinationDot(h, w, a, b);
  }

  /** At speed `s`, a unit combination `a·h + b·w` (`a² + b² = 1`) of two
      orthonormal vectors has squared length `s²`. */
  lemma UnitCombinationSpeed(h: Vec6, w: Vec6, a: real, b: real, s: real)
    requires h.Dot(h) == 1.0 && w.Dot(w) == 1.0 && h.Dot(w) == 0.0
    requires a * a + b * b == 1.0
    ensures var t := h.Scale(a).Add(w.Scale(b)).Scale(s); t.Dot(t) == s * s
  {
    var c := h.Scale(a).Add(w.Scale(b));
    OrthonormalCombination(h, w, a, b);
    ScaleDot(c, s);
  }

  /** Signed basis vectors along two different axes are orthonormal. */
  lemma SignedBasisOrthonormal(p: Vec6, q: Vec6, i: Axis, j: Axis)
    requires p == Basis(i) || p == NegBasis(i)
    requires q == Basis(j) || q == NegBasis(j)
    requires i != j
    ensures p.Dot(p) == 1.0 && q.Dot(q) == 1.0 && p.Dot(q) == 0.0
  {
    SignedBasisUnit(p, i);
    SignedBasisUnit(q, j);
    SignedBasisCross(p, q, i, j);
  }

  lemma SignedBasisCross(p: Vec6, q: Vec6, i: Axis, j: Axis)
    requires p == Basis(i) || p == NegBasis(i)
    requires q == Basis(j) || q == NegBasis(j)
    requires i != j
    ensures p.Dot(q) == 0.0
  {
    var s: real := if p == Basis(i) then 1.0 else -1.0;
    assert p == Basis(i).Scale(s);
    var t: real := if q == Basis(j) then 1.0 else -1.0;
    assert q == Basis(j).Scale(t);
    DotScale(Basis(i), q, s);
    DotSymmetric(Basis(i), q);
    DotScale(Basis(j), Basis(i), t);
    assert Basis(j).Dot(Basis(i)) == 0.0;
  }

  lemma SignedBasisUnit(p: Vec6, i: Axis)
    requires p == Basis(i) || p == NegBasis(i)
    ensures p.Dot(p) == 1.0
  {
  }

  /** A nonzero vector normalises to squared length 1 and to length 1. */
  lemma NormalizeUnit(lib: MathLib, p: Vec6)
    requires RootAt(lib, p.Dot(p)) && RootAt(lib, 1.0) && p != Zero()
    ensures p.Normalize(lib).Dot(p.Normalize(lib)) == 1.0
    ensures p.Normalize(lib).Length(lib) == 1.0
  {
    DotSelf(p);
    SqrtPositive(lib, p.Dot(p));
    var c := 1.0 / p.Length(lib);
    ReciprocalSquares(p.Dot(p), p.Length(lib));
    ScaleDot(p, c);
    SqrtEq(lib, p.Normalize(lib).Dot(p.Normalize(lib)), 1.0);
    SqrtOne(lib);
  }
}
