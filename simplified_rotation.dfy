/** The simplified orientation: three rotation angles, one per pair of
    planes, from which the full orientation matrix is rebuilt. */
module SimplifiedRotations {
  import opened Wrappers
  import opened JsMath
  import opened JsValues
  import opened Vector6
  import opened Matrix6
  import Numbers

  /** The three angles, in radians. */
  datatype Angles = Angles(juliaWise: real, exponentWise: real, juliaToExponentWise: real) {

    /** `equals`: exact equality of all three angles. */
    predicate Equals(other: Angles) {
      juliaWise == other.juliaWise && exponentWise == other.exponentWise &&
      juliaToExponentWise == other.juliaToExponentWise
    }

    /** `lerp`: each angle interpolated on its own, with no shortest-arc
        correction. */
    function Lerp(target: Angles, t: real): Angles {
      Angles(Numbers.Lerp(juliaWise, target.juliaWise, t),
        Numbers.Lerp(exponentWise, target.exponentWise, t),
        Numbers.Lerp(juliaToExponentWise, target.juliaToExponentWise, t))
    }

    /** The angles after `normalize`. */
    function Normalized(): Angles {
      Angles(WrapAngle(juliaWise), WrapAngle(exponentWise), WrapAngle(juliaToExponentWise))
    }
  }

  /** `((angle + PI) % (2 * PI)) - PI` with JavaScript's sign-keeping `%`. */
  function WrapAngle(angle: real): real {
    TruncRem(angle + PI, 2.0 * PI) - PI
  }

  /** An angle of at least -PI is wrapped into [-PI, PI). */
  lemma WrapAngleRange(angle: real)
    requires angle >= -PI
    ensures -PI <= WrapAngle(angle) < PI
  {
    TruncRemBounds(angle + PI, 2.0 * PI);
  }

  /** An angle a little below -PI is left as it is, so it stays below -PI:
      the remainder keeps the sign of the dividend. */
  lemma WrapAngleBelowRange(angle: real)
    requires -3.0 * PI < angle < -PI
    ensures WrapAngle(angle) == angle && WrapAngle(angle) < -PI
  {
    TruncRemSmall(angle + PI, 2.0 * PI);
  }

  /** The angle moved by n whole turns. */
  function Turned(angle: real, n: int): real {
    angle + (n as real) * (2.0 * PI)
  }

  /** Wrapping shifts an angle by a whole number of turns. */
  lemma WrapAngleTurns(angle: real)
    ensures exists n: int :: WrapAngle(angle) == Turned(angle, n)
  {
    var n := -Trunc((angle + PI) / (2.0 * PI));
    assert WrapAngle(angle) == Turned(angle, n);
  }

  /** Wrapping twice is wrapping once, for every angle. */
  lemma WrapAngleIdempotent(angle: real)
    ensures WrapAngle(WrapAngle(angle)) == WrapAngle(angle)
  {
    var r := TruncRem(angle + PI, 2.0 * PI);
    TruncRemBounds(angle + PI, 2.0 * PI);
    assert WrapAngle(angle) + PI == r;
    TruncRemSmall(r, 2.0 * PI);
  }

  /** `normalize` is idempotent. */
  lemma NormalizedIdempotent(a: Angles)
    ensures a.Normalized().Normalized() == a.Normalized()
  {
    WrapAngleIdempotent(a.juliaWise);
    WrapAngleIdempotent(a.exponentWise);
    WrapAngleIdempotent(a.juliaToExponentWise);
  }

  /** `normalize` moves each angle by whole turns. */
  lemma NormalizedTurns(a: Angles)
    ensures exists n: int :: a.Normalized().juliaWise == Turned(a.juliaWise, n)
    ensures exists n: int :: a.Normalized().exponentWise == Turned(a.exponentWise, n)
    ensures exists n: int :: a.Normalized().juliaToExponentWise == Turned(a.juliaToExponentWise, n)
  {
    WrapAngleTurns(a.juliaWise);
    WrapAngleTurns(a.exponentWise);
    WrapAngleTurns(a.juliaToExponentWise);
  }

  /** `equals` is reflexive and symmetric, and agrees with equality. */
  lemma EqualsIsEquality(a: Angles, b: Angles)
    ensures a.Equals(a)
    ensures a.Equals(b) <==> b.Equals(a)
    ensures a.Equals(b) <==> a == b
  {
  }

  /** `lerp` at 0 gives the start and at 1 the target. */
  lemma LerpEndpoints(a: Angles, target: Angles)
    ensures a.Lerp(target, 0.0) == a
    ensures a.Lerp(target, 1.0) == target
  {
  }

  /** The orientation the angles stand for: the product, in this order, of
      the (z, w -> v, u), (x, y -> v, u) and (x, y -> z, w) plane mappings. */
  function AnglesMatrix(statics: Mat6Statics, a: Angles): Matrix {
    MatMul(MatMul(statics.createPlaneMapping(Z_INDEX, W_INDEX, V_INDEX, U_INDEX, a.juliaToExponentWise),
        statics.createPlaneMapping(X_INDEX, Y_INDEX, V_INDEX, U_INDEX, a.exponentWise)),
      statics.createPlaneMapping(X_INDEX, Y_INDEX, Z_INDEX, W_INDEX, a.juliaWise))
  }

  /** `fromMaybeObject`: a truthy object is accepted unless one of the three
      angle fields holds a non-finite number, and a field that is not a number
      reads as 0. */
  function FromMaybeObject(obj: Value): (r: Result<Angles>)
    ensures !Truthy(obj) || !TypeofObject(obj) ==> r == Err("Invalid SimplifiedRotation object")
    ensures r.Ok? <==> (Truthy(obj) && TypeofObject(obj) && AngleField(obj, "juliaWise")
                        && AngleField(obj, "exponentWise") && AngleField(obj, "juliaToExponentWise"))
    ensures r.Ok? ==> r.value.juliaWise == FieldOrZero(obj, "juliaWise")
    ensures r.Ok? ==> r.value.exponentWise == FieldOrZero(obj, "exponentWise")
    ensures r.Ok? ==> r.value.juliaToExponentWise == FieldOrZero(obj, "juliaToExponentWise")
  {
    if !Truthy(obj) || !TypeofObject(obj) then
      Err("Invalid SimplifiedRotation object")
    else if !AngleField(obj, "juliaWise") || !AngleField(obj, "exponentWise")
      || !AngleField(obj, "juliaToExponentWise") then
      Err("Non-finite SimplifiedRotation angle")
    else
      Ok(Angles(FieldOrZero(obj, "juliaWise"), FieldOrZero(obj, "exponentWise"),
        FieldOrZero(obj, "juliaToExponentWise")))
  }

  /** A field the model can hold as an angle: absent or not a number (read as
      0), or a finite number. */
  predicate AngleField(obj: Value, key: string) {
    !TypeofNumber(Get(obj, key)) || Get(obj, key).n.Finite?
  }

  /** The field's value when it is a finite number, else 0. */
  function FieldOrZero(obj: Value, key: string): real {
    var f := Get(obj, key);
    if f.Number? && f.n.Finite? then f.n.r else 0.0
  }

  /** An object whose fields are absent or not numbers gives three zero
      angles; one that is not an object, or is null, is rejected. */
  lemma FromMaybeObjectCases(obj: Value)
    ensures obj == Null || !TypeofObject(obj) ==> FromMaybeObject(obj).Err?
    ensures TypeofObject(obj) && obj != Null && !TypeofNumber(Get(obj, "juliaWise"))
      && !TypeofNumber(Get(obj, "exponentWise")) && !TypeofNumber(Get(obj, "juliaToExponentWise"))
      ==> FromMaybeObject(obj) == Ok(Angles(0.0, 0.0, 0.0))
  {
  }

  /** A stored copy of the angles with the matrix computed from them. */
  datatype Memo = Memo(angles: Angles, matrix: Matrix)

  /** A simplified rotation whose angles are changed in place, with a
      one-entry cache of its matrix. */
  class SimplifiedRotation {
    var juliaWise: real
    var exponentWise: real
    var juliaToExponentWise: real
    var memo: Option<Memo>
    /** The plane-mapping helper the matrix is built with. */
    const statics: Mat6Statics

    /** The cache always holds the matrix of the angles stored with it. */
    ghost predicate Valid()
      reads this`memo
    {
      memo.Some? ==> memo.value.matrix == AnglesMatrix(statics, memo.value.angles)
    }

    function Current(): Angles
      reads this`juliaWise, this`exponentWise, this`juliaToExponentWise
    {
      Angles(juliaWise, exponentWise, juliaToExponentWise)
    }

    constructor (statics: Mat6Statics, params: Angles)
      ensures Valid() && this.statics == statics
      ensures Current() == params && memo == None
    {
      this.statics := statics;
      juliaWise := params.juliaWise;
      exponentWise := params.exponentWise;
      juliaToExponentWise := params.juliaToExponentWise;
      memo := None;
    }

    /** `toMatrix`: the matrix of the current angles, taken from the cache
        when the cached angles equal the current ones. */
    method ToMatrix() returns (r: Matrix)
      requires Valid()
      modifies this`memo
      ensures Valid()
      ensures r == AnglesMatrix(statics, Current())
      ensures memo == Some(Memo(Current(), r))
      ensures old(memo).Some? && old(memo).value.angles.Equals(Current()) ==>
        memo == old(memo)
    {
      if memo.Some? && Current().Equals(memo.value.angles) {
        return memo.value.matrix;
      }
      r := AnglesMatrix(statics, Current());
      memo := Some(Memo(Current(), r));
    }

    /** Installs other angles in this object (how the model carries out an
        assignment of another rotation to a field holding this one). */
    method SetAngles(a: Angles)
      modifies this`juliaWise, this`exponentWise, this`juliaToExponentWise
      ensures Current() == a
    {
      juliaWise := a.juliaWise;
      exponentWise := a.exponentWise;
      juliaToExponentWise := a.juliaToExponentWise;
    }

    /** `normalize`: wraps each angle; the cache is left alone. */
    method Normalize()
      modifies this`juliaWise, this`exponentWise, this`juliaToExponentWise
      ensures Current() == old(Current()).Normalized()
    {
      juliaWise := WrapAngle(juliaWise);
      exponentWise := WrapAngle(exponentWise);
      juliaToExponentWise := WrapAngle(juliaToExponentWise);
    }
  }
}
