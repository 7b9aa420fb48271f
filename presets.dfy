/** Presets: snapshots of the explorer's position, zoom, radius and
    orientation, their JSON form, and applying them to the live state. */
module Presets {
  import opened Wrappers
  import opened JsValues
  import opened Vector6
  import opened Matrix6
  import opened SimplifiedRotations
  import opened MandelbrotState

  /** A preset. Every field may be absent; the orientation is held either
      as simplified angles or as a matrix. */
  datatype Preset = Preset(
    position: Option<Vec6>,
    orientationMatrix: Option<Matrix>,
    simplifiedRotation: Option<Angles>,
    zoom: Option<Num>,
    escapeRadius: Option<Num>)

  /** `new Preset({})`. */
  const EMPTY: Preset := Preset(None, None, None, None, None)

  // ---- fromMaybeJSON ----

  /** The `position` key, when present, parsed as a `Vec6`. */
  function ParsePosition(json: Value): (r: Result<Option<Vec6>>)
    ensures !HasProperty(json, "position") ==> r == Ok(None)
    ensures HasProperty(json, "position") ==>
      (r.Ok? <==> Vector6.FromMaybeArray(Get(json, "position")).Ok?)
    ensures r.Ok? && r.value.Some? ==> Vector6.FromMaybeArray(Get(json, "position")) == Ok(r.value.value)
  {
    if !HasProperty(json, "position") then Ok(None)
    else
      var p :- Vector6.FromMaybeArray(Get(json, "position"));
      Ok(Some(p))
  }

  /** The `orientationMatrix` key, when present, parsed as 36 entries. */
  function ParseMatrix(json: Value): (r: Result<Option<Matrix>>)
    ensures !HasProperty(json, "orientationMatrix") ==> r == Ok(None)
    ensures HasProperty(json, "orientationMatrix") ==>
      (r.Ok? <==> EntriesFromMaybeArray(Get(json, "orientationMatrix")).Ok?)
    ensures r.Ok? && r.value.Some? ==> EntriesFromMaybeArray(Get(json, "orientationMatrix")) == Ok(r.value.value)
  {
    if !HasProperty(json, "orientationMatrix") then Ok(None)
    else
      var m :- EntriesFromMaybeArray(Get(json, "orientationMatrix"));
      Ok(Some(m))
  }

  /** The `simplifiedRotation` key, when present, parsed as angles. */
  function ParseAngles(json: Value): (r: Result<Option<Angles>>)
    ensures !HasProperty(json, "simplifiedRotation") ==> r == Ok(None)
    ensures HasProperty(json, "simplifiedRotation") ==>
      (r.Ok? <==> FromMaybeObject(Get(json, "simplifiedRotation")).Ok?)
    ensures r.Ok? && r.value.Some? ==> FromMaybeObject(Get(json, "simplifiedRotation")) == Ok(r.value.value)
  {
    if !HasProperty(json, "simplifiedRotation") then Ok(None)
    else
      var a :- FromMaybeObject(Get(json, "simplifiedRotation"));
      Ok(Some(a))
  }

  /** `new Number(v).valueOf()` of the key, when present. */
  function ParseZoom(json: Value, textToNumber: Value -> Num): (r: Option<Num>)
    ensures r.Some? <==> HasProperty(json, "zoom")
    ensures r.Some? && Get(json, "zoom").Number? ==> r.value == Get(json, "zoom").n
  {
    if HasProperty(json, "zoom") then Some(ToNumber(Get(json, "zoom"), textToNumber)) else None
  }

  /** The radius, when present: the string "Infinity" is infinity, anything
      else goes through `Number`. */
  function ParseRadius(json: Value, textToNumber: Value -> Num): (r: Option<Num>)
    ensures r.Some? <==> HasProperty(json, "escapeRadius")
    ensures r.Some? && Get(json, "escapeRadius") == Str("Infinity") ==> r.value == PosInfinity
    ensures r.Some? && Get(json, "escapeRadius").Number? ==> r.value == Get(json, "escapeRadius").n
  {
    if !HasProperty(json, "escapeRadius") then None
    else if Get(json, "escapeRadius") == Str("Infinity") then Some(PosInfinity)
    else Some(ToNumber(Get(json, "escapeRadius"), textToNumber))
  }

  /** `fromMaybeJSON`: anything but a non-null object is rejected; each key
      that is present is parsed, the first parser to fail (position, then
      matrix, then rotation) gives the error, and absent keys stay absent.
      The conversion of text to a number is the parameter `textToNumber`. */
  function FromMaybeJSON(json: Value, textToNumber: Value -> Num): (r: Result<Preset>)
    ensures !Truthy(json) || !TypeofObject(json) ==> r == Err("Invalid JSON object")
    ensures r.Ok? ==> Truthy(json) && TypeofObject(json)
    ensures r.Ok? ==> (r.value.position.Some? <==> HasProperty(json, "position"))
    ensures r.Ok? ==> (r.value.orientationMatrix.Some? <==> HasProperty(json, "orientationMatrix"))
    ensures r.Ok? ==> (r.value.simplifiedRotation.Some? <==> HasProperty(json, "simplifiedRotation"))
    ensures r.Ok? ==> (r.value.zoom.Some? <==> HasProperty(json, "zoom"))
    ensures r.Ok? ==> (r.value.escapeRadius.Some? <==> HasProperty(json, "escapeRadius"))
    ensures (Truthy(json) && TypeofObject(json) && HasProperty(json, "position")
      && Vector6.FromMaybeArray(Get(json, "position")).Err?) ==> r == Err("Invalid Vec6 array")
  {
    if !Truthy(json) || !TypeofObject(json) then Err("Invalid JSON object")
    else
      var position :- ParsePosition(json);
      var matrix :- ParseMatrix(json);
      var angles :- ParseAngles(json);
      Ok(Preset(position, matrix, angles, ParseZoom(json, textToNumber), ParseRadius(json, textToNumber)))
  }

  // ---- toJSON ----

  /** The three angles as a plain object (the own fields of a
      `SimplifiedRotation`). */
  function AnglesValue(a: Angles): Value {
    Object(map["juliaWise" := Number(Finite(a.juliaWise)),
      "exponentWise" := Number(Finite(a.exponentWise)),
      "juliaToExponentWise" := Number(Finite(a.juliaToExponentWise))])
  }

  /** The JSON form of the radius: infinity becomes the string "Infinity". */
  function RadiusValue(e: Num): (v: Value)
    ensures e == PosInfinity ==> v == Str("Infinity")
    ensures e != PosInfinity ==> v == Number(e)
  {
    if e == PosInfinity then Str("Infinity") else Number(e)
  }

  /** `toJSON`: one key per present field, and at most one orientation key,
      the simplified rotation winning over the matrix. */
  function ToJSON(p: Preset): (r: Value)
    ensures r.Object?
    ensures "position" in r.fields <==> p.position.Some?
    ensures "zoom" in r.fields <==> p.zoom.Some?
    ensures "escapeRadius" in r.fields <==> p.escapeRadius.Some?
    ensures "simplifiedRotation" in r.fields <==> p.simplifiedRotation.Some?
    ensures "orientationMatrix" in r.fields <==> p.simplifiedRotation.None? && p.orientationMatrix.Some?
    ensures !("simplifiedRotation" in r.fields && "orientationMatrix" in r.fields)
    ensures p.escapeRadius == Some(PosInfinity) ==> r.fields["escapeRadius"] == Str("Infinity")
  {
    var m0: map<string, Value> := map[];
    var m1 := if p.position.Some? then m0["position" := NumberArray(p.position.value.ToArray())] else m0;
    var m2 := if p.zoom.Some? then m1["zoom" := Number(p.zoom.value)] else m1;
    var m3 := if p.escapeRadius.Some? then m2["escapeRadius" := RadiusValue(p.escapeRadius.value)] else m2;
    var m4 :=
      if p.simplifiedRotation.Some? then m3["simplifiedRotation" := AnglesValue(p.simplifiedRotation.value)]
      else if p.orientationMatrix.Some? then m3["orientationMatrix" := NumberArray(p.orientationMatrix.value)]
      else m3;
    Object(m4)
  }

  /** What survives the JSON form: a matrix next to simplified angles is
      dropped. */
  function Encoded(p: Preset): Preset {
    if p.simplifiedRotation.Some? then p.(orientationMatrix := None) else p
  }

  /** Reading back a preset's JSON form gives the preset, less a matrix
      shadowed by simplified angles; an infinite radius comes back as
      infinity. */
  lemma FromToJSON(p: Preset, textToNumber: Value -> Num)
    ensures FromMaybeJSON(ToJSON(p), textToNumber) == Ok(Encoded(p))
  {
    PositionRoundTrip(p);
    OrientationRoundTrip(p);
    NumbersRoundTrip(p, textToNumber);
  }

  /** The position key reads back as the preset's position. */
  lemma PositionRoundTrip(p: Preset)
    ensures ParsePosition(ToJSON(p)) == Ok(p.position)
  {
    if p.position.Some? {
      assert Get(ToJSON(p), "position") == NumberArray(p.position.value.ToArray());
      FromMaybeArrayToArray(p.position.value);
    }
  }

  /** The orientation keys read back as the angles, and as the matrix only
      when no angles shadow it. */
  lemma OrientationRoundTrip(p: Preset)
    ensures ParseAngles(ToJSON(p)) == Ok(p.simplifiedRotation)
    ensures ParseMatrix(ToJSON(p)) == Ok(Encoded(p).orientationMatrix)
  {
    var json := ToJSON(p);
    if p.simplifiedRotation.Some? {
      var a := p.simplifiedRotation.value;
      assert Get(json, "simplifiedRotation") == AnglesValue(a);
      assert FromMaybeObject(AnglesValue(a)) == Ok(a);
    } else if p.orientationMatrix.Some? {
      assert Get(json, "orientationMatrix") == NumberArray(p.orientationMatrix.value);
      EntriesFromMaybeArrayToArray(p.orientationMatrix.value);
    }
  }

  /** Zoom and radius read back unchanged, infinity included. */
  lemma NumbersRoundTrip(p: Preset, textToNumber: Value -> Num)
    ensures ParseZoom(ToJSON(p), textToNumber) == p.zoom
    ensures ParseRadius(ToJSON(p), textToNumber) == p.escapeRadius
  {
    var json := ToJSON(p);
    if p.escapeRadius.Some? {
      assert Get(json, "escapeRadius") == RadiusValue(p.escapeRadius.value);
    }
  }

  /** Encoding is idempotent on what survives it. */
  lemma EncodedTwice(p: Preset)
    ensures Encoded(Encoded(p)) == Encoded(p)
    ensures ToJSON(Encoded(p)) == ToJSON(p)
  {
  }

  // ---- fromState, isApplied, apply ----

  /** `fromState`: the state's position, zoom and radius, and its simplified
      angles when those are active, else its matrix. */
  function FromState(s: Mandelbrot6DState): (p: Preset)
    reads s`position, s`zoom, s`escapeRadius, s`simplifiedRotationActive, s`orientationMatrix
    reads s.simplifiedRotation`juliaWise, s.simplifiedRotation`exponentWise
    reads s.simplifiedRotation`juliaToExponentWise
    ensures p.simplifiedRotation.Some? <==> s.simplifiedRotationActive
    ensures p.orientationMatrix.Some? <==> !s.simplifiedRotationActive
  {
    Preset(Some(s.position),
      if s.simplifiedRotationActive then None else Some(s.orientationMatrix),
      if s.simplifiedRotationActive then Some(s.simplifiedRotation.Current()) else None,
      Some(Finite(s.zoom)),
      Some(s.escapeRadius))
  }

  /** `isApplied`: each present field agrees with the state under `===`
      (so a NaN never agrees), and a present orientation agrees together
      with the kind of orientation the state is using. */
  predicate IsApplied(p: Preset, s: Mandelbrot6DState)
    reads s`position, s`zoom, s`escapeRadius, s`simplifiedRotationActive, s`orientationMatrix
    reads s.simplifiedRotation`juliaWise, s.simplifiedRotation`exponentWise
    reads s.simplifiedRotation`juliaToExponentWise
  {
    if p.position.Some? && !s.position.Equals(p.position.value) then false
    else if p.zoom.Some? && !NumStrictEquals(Finite(s.zoom), p.zoom.value) then false
    else if p.escapeRadius.Some? && !NumStrictEquals(s.escapeRadius, p.escapeRadius.value) then false
    else if p.simplifiedRotation.Some? then
      s.simplifiedRotationActive && s.simplifiedRotation.Current().Equals(p.simplifiedRotation.value)
    else if p.orientationMatrix.Some? then
      !s.simplifiedRotationActive && MatrixEquals(s.orientationMatrix, p.orientationMatrix.value)
    else true
  }

  /** No NaN among the numbers of a preset (NaN is never `===` itself). */
  predicate NoNaN(p: Preset) {
    (p.zoom.Some? ==> !p.zoom.value.NaN?) && (p.escapeRadius.Some? ==> !p.escapeRadius.value.NaN?)
  }

  /** A snapshot of a state whose radius is a number is applied to it. */
  lemma FromStateIsApplied(s: Mandelbrot6DState)
    requires !s.escapeRadius.NaN?
    ensures IsApplied(FromState(s), s)
  {
    EqualsIsEquality(s.simplifiedRotation.Current(), s.simplifiedRotation.Current());
  }

  /** A preset whose zoom is present but not a finite number can never be
      applied to a state, whose zoom is finite. */
  lemma NonFiniteZoomNeverApplied(p: Preset, s: Mandelbrot6DState)
    requires p.zoom.Some? && !p.zoom.value.Finite?
    ensures !IsApplied(p, s)
  {
  }

  /** `apply`: copies each present field to the state. Simplified angles
      switch the state to them and rebuild its matrix from them; a matrix
      alone switches the state to it; with neither, the orientation is left
      alone. Afterwards the preset is applied, unless it holds a NaN. */
  method Apply(p: Preset, s: Mandelbrot6DState)
    requires s.Valid()
    requires p.zoom.Some? ==> p.zoom.value.Finite?
    modifies s`position, s`zoom, s`escapeRadius, s`simplifiedRotationActive, s`orientationMatrix
    modifies s.simplifiedRotation`juliaWise, s.simplifiedRotation`exponentWise
    modifies s.simplifiedRotation`juliaToExponentWise, s.simplifiedRotation`memo
    ensures s.Valid()
    ensures s.position == (if p.position.Some? then p.position.value else old(s.position))
    ensures s.zoom == (if p.zoom.Some? then p.zoom.value.r else old(s.zoom))
    ensures s.escapeRadius == (if p.escapeRadius.Some? then p.escapeRadius.value else old(s.escapeRadius))
    ensures p.simplifiedRotation.Some? ==>
      && s.simplifiedRotationActive
      && s.simplifiedRotation.Current() == p.simplifiedRotation.value
      && s.orientationMatrix == AnglesMatrix(s.statics, p.simplifiedRotation.value)
    ensures p.simplifiedRotation.None? && p.orientationMatrix.Some? ==>
      && !s.simplifiedRotationActive
      && s.orientationMatrix == p.orientationMatrix.value
      && s.simplifiedRotation.Current() == old(s.simplifiedRotation.Current())
    ensures p.simplifiedRotation.None? && p.orientationMatrix.None? ==>
      && s.simplifiedRotationActive == old(s.simplifiedRotationActive)
      && s.orientationMatrix == old(s.orientationMatrix)
      && s.simplifiedRotation.Current() == old(s.simplifiedRotation.Current())
    ensures NoNaN(p) ==> IsApplied(p, s)
  {
    if p.position.Some? {
      s.position := p.position.value;
    }
    if p.zoom.Some? {
      s.zoom := p.zoom.value.r;
    }
    if p.escapeRadius.Some? {
      s.escapeRadius := p.escapeRadius.value;
    }
    if p.simplifiedRotation.Some? {
      s.simplifiedRotationActive := true;
      s.simplifiedRotation.SetAngles(p.simplifiedRotation.value);
      s.orientationMatrix := s.simplifiedRotation.ToMatrix();
      EqualsIsEquality(p.simplifiedRotation.value, p.simplifiedRotation.value);
    } else if p.orientationMatrix.Some? {
      s.simplifiedRotationActive := false;
      s.orientationMatrix := p.orientationMatrix.value;
    }
  }

  // ---- lerp ----

  /** `a + (b - a) * t` on numbers, with the special values. */
  function NumLerp(a: Num, b: Num, t: real): (r: Num)
    ensures a.Finite? && b.Finite? ==> r == Finite(a.r + (b.r - a.r) * t)
  {
    NumAdd(a, NumMul(NumSub(b, a), Finite(t)))
  }

  /** `x || Infinity`: zero and NaN become infinity. */
  function OrInfinity(x: Num): (r: Num)
    ensures x.Truthy() ==> r == x
    ensures !x.Truthy() ==> r == PosInfinity
  {
    if x.Truthy() then x else PosInfinity
  }

  /** `lerp`: at `t >= 1` the target itself; otherwise a fresh preset with
      each field interpolated where both presets have it, an interpolated
      radius of 0 (or NaN) replaced by infinity, and never a matrix. */
  function Lerp(p: Preset, target: Preset, t: real): (r: Preset)
    ensures t >= 1.0 ==> r == target
    ensures t < 1.0 ==> r.orientationMatrix.None?
    ensures t < 1.0 ==> (r.position.Some? <==> p.position.Some? && target.position.Some?)
    ensures t < 1.0 ==> (r.zoom.Some? <==> p.zoom.Some? && target.zoom.Some?)
    ensures t < 1.0 ==> (r.escapeRadius.Some? <==> p.escapeRadius.Some? && target.escapeRadius.Some?)
    ensures t < 1.0 ==> (r.simplifiedRotation.Some? <==> p.simplifiedRotation.Some? && target.simplifiedRotation.Some?)
    ensures t < 1.0 && r.escapeRadius.Some? ==> r.escapeRadius.value.Truthy()
  {
    if t >= 1.0 then target
    else
      Preset(
        if p.position.Some? && target.position.Some? then Some(p.position.value.Lerp(target.position.value, t)) else None,
        None,
        if p.simplifiedRotation.Some? && target.simplifiedRotation.Some? then
          Some(p.simplifiedRotation.value.Lerp(target.simplifiedRotation.value, t))
        else None,
        if p.zoom.Some? && target.zoom.Some? then Some(NumLerp(p.zoom.value, target.zoom.value, t)) else None,
        if p.escapeRadius.Some? && target.escapeRadius.Some? then
          Some(OrInfinity(NumLerp(p.escapeRadius.value, target.escapeRadius.value, t)))
        else None)
  }

  /** At `t = 0` the fields both presets share come from the start preset
      (numbers finite, radius nonzero), and a matrix is dropped. */
  lemma LerpAtZero(p: Preset, target: Preset)
    requires p.zoom.Some? && target.zoom.Some? ==> p.zoom.value.Finite? && target.zoom.value.Finite?
    requires p.escapeRadius.Some? && target.escapeRadius.Some? ==>
      p.escapeRadius.value.Finite? && target.escapeRadius.value.Finite? && p.escapeRadius.value.r != 0.0
    ensures var r := Lerp(p, target, 0.0);
      && (r.position.Some? ==> r.position == p.position)
      && (r.zoom.Some? ==> r.zoom == p.zoom)
      && (r.escapeRadius.Some? ==> r.escapeRadius == p.escapeRadius)
      && (r.simplifiedRotation.Some? ==> r.simplifiedRotation == p.simplifiedRotation)
  {
    if p.simplifiedRotation.Some? && target.simplifiedRotation.Some? {
      LerpEndpoints(p.simplifiedRotation.value, target.simplifiedRotation.value);
    }
  }

  /** Two finite radii that interpolate to exactly 0 give an infinite
      radius. */
  lemma LerpZeroRadius(p: Preset, target: Preset, t: real)
    requires t < 1.0 && p.escapeRadius.Some? && target.escapeRadius.Some?
    requires p.escapeRadius.value.Finite? && target.escapeRadius.value.Finite?
    requires p.escapeRadius.value.r + (target.escapeRadius.value.r - p.escapeRadius.value.r) * t == 0.0
    ensures Lerp(p, target, t).escapeRadius == Some(PosInfinity)
  {
  }
}
