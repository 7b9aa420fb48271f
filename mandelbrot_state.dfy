/** The explorer's live camera state and the behaviours that drive it each
    frame: the state itself, the timed preset transition and the keyboard
    camera controller. */
module MandelbrotState {
  import opened Wrappers
  import opened JsMath
  import opened JsValues
  import opened Numbers
  import opened Vector6
  import opened Matrix6
  import opened PlaneMappings
  import opened SimplifiedRotations
  import opened InputModes
  import opened CardinalSnap
  import Easing

  datatype IndicatorSetting = Always | Never | WhenToolSelected

  const RIGHT_VECTOR: Vec6 := Vec6(1.0, 0.0, 0.0, 0.0, 0.0, 0.0)
  const UP_VECTOR: Vec6 := Vec6(0.0, 1.0, 0.0, 0.0, 0.0, 0.0)
  /** Velocities smaller than this, with a zero target, are set to zero. */
  const MARGIN: real := 0.02
  /** The starting position and zoom, those of the identity Mandelbrot preset. */
  const INITIAL_POSITION: Vec6 := Vec6(0.0, 0.0, 0.0, 0.0, 2.0, 0.0)
  const INITIAL_ZOOM: real := -2.2

  // ---------------------------------------------------------------------
  // Frame arithmetic shared by the state and the camera controller

  /** Seconds since the previous frame; 0 on the first frame. */
  function DeltaTime(lastTime: real, currentTime: real): (dt: real)
    ensures lastTime == 0.0 ==> dt == 0.0
    ensures lastTime != 0.0 ==> dt * 1000.0 == currentTime - lastTime
  {
    if lastTime == 0.0 then 0.0 else (currentTime - lastTime) / 1000.0
  }

  /** The three smoothed velocities. */
  datatype Velocities = Velocities(velocity: Vec6, zoomVelocity: real, rotationVelocity: RotationVelocity)

  /** The movement with every target scaled by the speed scale (the three
      in-place updates of the movement object's targets). */
  function ScaleMovement(m: Movement, speedScale: real): Movement {
    m.(targetVelocity := m.targetVelocity.Scale(speedScale),
      targetZoomVelocity := m.targetZoomVelocity * speedScale,
      targetRotationVelocity := m.targetRotationVelocity.(amount := m.targetRotationVelocity.amount * speedScale))
  }

  /** Options whose three speeds are scaled by the speed scale, as the camera
      controller uses them. */
  function ScaleOptions(options: InputModeOptions, speedScale: real): InputModeOptions {
    options.(moveSpeed := options.moveSpeed * speedScale,
      zoomSpeed := options.zoomSpeed * speedScale,
      rotateSpeed := options.rotateSpeed * speedScale)
  }

  /** Exponential smoothing of each velocity towards its target. */
  function Smoothed(lib: MathLib, v: Velocities, m: Movement, springScale: real, dt: real): Velocities
    requires springScale != 0.0
  {
    var velocityLerp := ExpLerpFactor(lib, m.velocityLerp / springScale, dt);
    var rotationVelocityLerp := ExpLerpFactor(lib, m.rotationalVelocityLerp / springScale, dt);
    Velocities(v.velocity.Lerp(m.targetVelocity, velocityLerp),
      Numbers.Lerp(v.zoomVelocity, m.targetZoomVelocity, velocityLerp),
      RotationVelocity(m.targetRotationVelocity.planeMappings,
        Numbers.Lerp(v.rotationVelocity.amount, m.targetRotationVelocity.amount, rotationVelocityLerp)))
  }

  /** A zero frame time leaves every velocity as it was; only the plane
      mappings follow the target. */
  lemma SmoothedZeroTime(lib: MathLib, v: Velocities, m: Movement, springScale: real)
    requires ExpAtZero(lib) && springScale != 0.0
    ensures Smoothed(lib, v, m, springScale, 0.0) ==
      Velocities(v.velocity, v.zoomVelocity,
        RotationVelocity(m.targetRotationVelocity.planeMappings, v.rotationVelocity.amount))
  {
  }

  /** With a nonnegative rate, each smoothed scalar lies between its old value
      and its target, and the gap to the target shrinks by the factor. */
  lemma SmoothedBetween(lib: MathLib, v: Velocities, m: Movement, springScale: real, dt: real)
    requires ExpDecays(lib) && springScale != 0.0
    requires m.velocityLerp / springScale * dt >= 0.0
    requires m.rotationalVelocityLerp / springScale * dt >= 0.0
    ensures var s := Smoothed(lib, v, m, springScale, dt);
      && Min(v.zoomVelocity, m.targetZoomVelocity) <= s.zoomVelocity <= Max(v.zoomVelocity, m.targetZoomVelocity)
      && Min(v.rotationVelocity.amount, m.targetRotationVelocity.amount) <= s.rotationVelocity.amount
      && s.rotationVelocity.amount <= Max(v.rotationVelocity.amount, m.targetRotationVelocity.amount)
      && m.targetZoomVelocity - s.zoomVelocity ==
        (1.0 - ExpLerpFactor(lib, m.velocityLerp / springScale, dt)) * (m.targetZoomVelocity - v.zoomVelocity)
  {
    var f := ExpLerpFactor(lib, m.velocityLerp / springScale, dt);
    var g := ExpLerpFactor(lib, m.rotationalVelocityLerp / springScale, dt);
    LerpBetween(v.zoomVelocity, m.targetZoomVelocity, f);
    LerpBetween(v.rotationVelocity.amount, m.targetRotationVelocity.amount, g);
    LerpRemainingGap(v.zoomVelocity, m.targetZoomVelocity, f);
  }

  /** The deadzone: a velocity below the margin whose target is zero becomes
      exactly zero; the three velocities are treated independently. */
  function Deadzoned(lib: MathLib, v: Velocities, m: Movement): Velocities {
    Velocities(
      if v.velocity.Length(lib) < MARGIN && m.targetVelocity.IsZero() then Vector6.Zero() else v.velocity,
      if Abs(v.zoomVelocity) < MARGIN && m.targetZoomVelocity == 0.0 then 0.0 else v.zoomVelocity,
      v.rotationVelocity.(amount :=
        if Abs(v.rotationVelocity.amount) < MARGIN && m.targetRotationVelocity.amount == 0.0 then 0.0
        else v.rotationVelocity.amount))
  }

  /** Each velocity is zero after the deadzone exactly when it was zero or it
      was below the margin with a zero target; otherwise it is kept. Applying
      the deadzone twice is applying it once. */
  lemma DeadzoneCases(lib: MathLib, v: Velocities, m: Movement)
    ensures var d := Deadzoned(lib, v, m);
      && (d.zoomVelocity == 0.0 <==>
        (v.zoomVelocity == 0.0 || (Abs(v.zoomVelocity) < MARGIN && m.targetZoomVelocity == 0.0)))
      && (d.rotationVelocity.amount == 0.0 <==>
        (v.rotationVelocity.amount == 0.0
          || (Abs(v.rotationVelocity.amount) < MARGIN && m.targetRotationVelocity.amount == 0.0)))
      && (d.velocity == Vector6.Zero() <==>
        (v.velocity == Vector6.Zero() || (v.velocity.Length(lib) < MARGIN && m.targetVelocity.IsZero())))
      && (m.targetZoomVelocity != 0.0 ==> d.zoomVelocity == v.zoomVelocity)
      && (!m.targetVelocity.IsZero() ==> d.velocity == v.velocity)
      && d.rotationVelocity.planeMappings == v.rotationVelocity.planeMappings
      && Deadzoned(lib, d, m) == d
  {
  }

  /** What the velocities move: the position, the zoom, the orientation
      matrix and the simplified angles. */
  datatype Pose = Pose(position: Vec6, zoom: real, orientation: Matrix, angles: Angles)

  /** The pose after a frame of `dt` seconds at velocities `v`: the zoom
      moves by the zoom velocity, the position by the velocity scaled down by
      the zoom level, and the orientation and angles turn by the rotation
      velocity. */
  function Moved(statics: Mat6Statics, p: Pose, v: Velocities, dt: real, zoomLevel: real, local: bool): Pose
    requires zoomLevel != 0.0
  {
    Pose(p.position.Add(v.velocity.Scale(dt / zoomLevel)), p.zoom + v.zoomVelocity * dt,
      RotatedOrientation(statics, p.orientation, v.rotationVelocity.planeMappings, Turn(v, dt), local),
      RotatedAngles(p.angles, v.rotationVelocity.planeMappings, Turn(v, dt)))
  }

  /** The angle turned in a frame of `dt` seconds. */
  function Turn(v: Velocities, dt: real): real {
    v.rotationVelocity.amount * dt
  }

  /** The four parts of `Moved`, one by one. */
  lemma MovedParts(statics: Mat6Statics, p: Pose, v: Velocities, dt: real, zoomLevel: real, local: bool)
    requires zoomLevel != 0.0
    ensures var q := Moved(statics, p, v, dt, zoomLevel, local);
      && q.position == p.position.Add(v.velocity.Scale(dt / zoomLevel))
      && q.zoom == p.zoom + v.zoomVelocity * dt
      && q.orientation == RotatedOrientation(statics, p.orientation, v.rotationVelocity.planeMappings, Turn(v, dt), local)
      && q.angles == RotatedAngles(p.angles, v.rotationVelocity.planeMappings, Turn(v, dt))
  {
  }

  /** The position and the zoom move linearly in time: two frames at the same
      velocities and zoom level move them as one frame of the summed length. */
  lemma MovedComposes(statics: Mat6Statics, p: Pose, v: Velocities, dt1: real, dt2: real,
    zoomLevel: real, local: bool)
    requires zoomLevel != 0.0
    ensures var q := Moved(statics, Moved(statics, p, v, dt1, zoomLevel, local), v, dt2, zoomLevel, local);
      var r := Moved(statics, p, v, dt1 + dt2, zoomLevel, local);
      q.position == r.position && q.zoom == r.zoom
  {
    var a, b := dt1 / zoomLevel, dt2 / zoomLevel;
    QuotientSum(dt1, dt2, zoomLevel);
    var m := Moved(statics, p, v, dt1, zoomLevel, local);
    var q := Moved(statics, m, v, dt2, zoomLevel, local);
    var r := Moved(statics, p, v, dt1 + dt2, zoomLevel, local);
    assert q.position == p.position.Add(v.velocity.Scale(a)).Add(v.velocity.Scale(b));
    assert r.position == p.position.Add(v.velocity.Scale(a + b));
    Vector6.ScaleSum(v.velocity, a, b);
    Vector6.AddAssociative(p.position, v.velocity.Scale(a), v.velocity.Scale(b));
    ProductSum(v.zoomVelocity, dt1, dt2);
  }

  lemma QuotientSum(x: real, y: real, z: real)
    requires z != 0.0
    ensures (x + y) / z == x / z + y / z
  {
  }

  lemma ProductSum(c: real, x: real, y: real)
    ensures c * (x + y) == c * x + c * y
  {
  }

  /** A frame of zero length leaves the pose where it was. */
  lemma MovedZeroTime(statics: Mat6Statics, p: Pose, v: Velocities, zoomLevel: real, local: bool)
    requires zoomLevel != 0.0
    ensures Moved(statics, p, v, 0.0, zoomLevel, local) == p
  {
    assert v.velocity.Scale(0.0 / zoomLevel) == Vector6.Zero();
    assert p.position.Add(Vector6.Zero()) == p.position;
  }

  /** Zero velocities leave the pose where it was. */
  lemma MovedAtRest(statics: Mat6Statics, p: Pose, mappings: seq<PlaneMapping>, dt: real, zoomLevel: real,
    local: bool)
    requires zoomLevel != 0.0
    ensures Moved(statics, p, Velocities(Vector6.Zero(), 0.0, RotationVelocity(mappings, 0.0)), dt, zoomLevel,
      local) == p
  {
    assert Vector6.Zero().Scale(dt / zoomLevel) == Vector6.Zero();
    assert p.position.Add(Vector6.Zero()) == p.position;
  }

  // ---------------------------------------------------------------------
  // Rotation by plane mappings

  /** The rotation one mapping contributes: about the fixed axis pair, or, on
      local planes, about the images of the two axes under the orientation
      before the call. Both use the full amount. */
  function RotationFor(statics: Mat6Statics, mapping: PlaneMapping, amount: real, local: bool,
    oldMat: Matrix): Matrix
  {
    if !local then statics.rotationFromAxisIndices(mapping.axis1, mapping.axis2, amount)
    else statics.rotationFromAxes(MulVec(oldMat, Basis(mapping.axis1)),
      MulVec(oldMat, Basis(mapping.axis2)), amount)
  }

  /** `current` with the rotations of `mappings` multiplied on from the left,
      first mapping first. */
  function Rotated(statics: Mat6Statics, mappings: seq<PlaneMapping>, amount: real, local: bool,
    oldMat: Matrix, current: Matrix): Matrix
    decreases |mappings|
  {
    if |mappings| == 0 then current
    else Rotated(statics, mappings[1..], amount, local, oldMat,
      MatMul(RotationFor(statics, mappings[0], amount, local, oldMat), current))
  }

  /** A single mapping is one left multiplication. */
  lemma RotatedOne(statics: Mat6Statics, mapping: PlaneMapping, amount: real, local: bool, m: Matrix)
    ensures Rotated(statics, [mapping], amount, local, m, m) ==
      MatMul(RotationFor(statics, mapping, amount, local, m), m)
  {
    assert [mapping][1..] == [];
  }

  /** The mappings of `mappings` whose axis pair is in `table`. */
  function Count(mappings: seq<PlaneMapping>, table: seq<PlaneMapping>): (n: nat)
    ensures n <= |mappings|
    decreases |mappings|
  {
    if |mappings| == 0 then 0
    else
      var last := mappings[|mappings| - 1];
      Count(mappings[..|mappings| - 1], table) + if Contains(table, last.axis1, last.axis2) then 1 else 0
  }

  /** The angles after crediting `share` once per matching mapping. */
  function Credited(a: Angles, mappings: seq<PlaneMapping>, share: real): Angles {
    Angles(Shares(a.juliaWise, share, Count(mappings, MandelbrotToJulia)),
      Shares(a.exponentWise, share, Count(mappings, MandelbrotToExponent)),
      Shares(a.juliaToExponentWise, share, Count(mappings, PlaneMappings.JuliaToExponent)))
  }

  /** `x` plus `n` shares. */
  function Shares(x: real, share: real, n: nat): real {
    x + share * (n as real)
  }

  /** A full table counts twice for itself and never for another table. */
  lemma CountTables()
    ensures Count(MandelbrotToJulia, MandelbrotToJulia) == 2
    ensures Count(MandelbrotToJulia, MandelbrotToExponent) == 0
    ensures Count(MandelbrotToJulia, PlaneMappings.JuliaToExponent) == 0
    ensures Count(MandelbrotToExponent, MandelbrotToJulia) == 0
    ensures Count(MandelbrotToExponent, MandelbrotToExponent) == 2
    ensures Count(MandelbrotToExponent, PlaneMappings.JuliaToExponent) == 0
    ensures Count(PlaneMappings.JuliaToExponent, MandelbrotToJulia) == 0
    ensures Count(PlaneMappings.JuliaToExponent, MandelbrotToExponent) == 0
    ensures Count(PlaneMappings.JuliaToExponent, PlaneMappings.JuliaToExponent) == 2
  {
    CountPair(MandelbrotToJulia);
    CountPair(MandelbrotToExponent);
    CountPair(PlaneMappings.JuliaToExponent);
    TablesWellFormed();
    ContainsExactly(0, 2);
    ContainsExactly(1, 3);
    ContainsExactly(0, 4);
    ContainsExactly(1, 5);
    ContainsExactly(2, 4);
    ContainsExactly(3, 5);
  }

  /** The count over a two-element list, written out. */
  lemma CountPair(ms: seq<PlaneMapping>)
    requires |ms| == 2
    ensures forall table: seq<PlaneMapping> ::
      Count(ms, table) ==
        (if Contains(table, ms[0].axis1, ms[0].axis2) then 1 else 0) +
        (if Contains(table, ms[1].axis1, ms[1].axis2) then 1 else 0)
  {
    assert ms[..1][..0] == [];
    assert ms[..1] == [ms[0]];
  }

  /** Rotating by a full table raises that table's angle by exactly the amount
      and leaves the other two angles alone. */
  lemma CreditFullTable(a: Angles, amount: real)
    ensures Credited(a, MandelbrotToJulia, amount / 2.0) == a.(juliaWise := a.juliaWise + amount)
    ensures Credited(a, MandelbrotToExponent, amount / 2.0) == a.(exponentWise := a.exponentWise + amount)
    ensures Credited(a, PlaneMappings.JuliaToExponent, amount / 2.0) ==
      a.(juliaToExponentWise := a.juliaToExponentWise + amount)
  {
    CountTables();
  }

  /** An empty list of mappings credits nothing. */
  lemma CreditNothing(a: Angles, share: real)
    ensures Credited(a, [], share) == a
  {
  }

  // ---------------------------------------------------------------------
  // Indicator and iteration settings

  /** `maxIterationsComputed`: the rounded zoom-dependent count clamped to
      [iterationsMin, iterationsMax], the minimum winning a conflict. */
  function MaxIterations(iterationsBase: real, iterationsPerZoom: real, iterationsMin: real,
    iterationsMax: real, zoom: real): (r: real)
    ensures r >= iterationsMin
    ensures iterationsMin <= iterationsMax ==> r <= iterationsMax
    ensures iterationsMin <= iterationsMax ==>
      (iterationsMin < r < iterationsMax ==> r == Round(iterationsBase + zoom * iterationsPerZoom))
  {
    var value := Round(iterationsBase + zoom * iterationsPerZoom);
    Max(iterationsMin, Min(iterationsMax, value))
  }

  /** `#indicatorEffectiveSize`: hidden (0) when never shown or when shown
      only with a tool that cannot move that plane; else scaled by the zoom
      level, with JavaScript division. */
  function IndicatorEffectiveSize(indicatorSize: real, setting: IndicatorSetting, canMovePlane: bool,
    zoomLevel: real): (r: Num)
    ensures setting == Never ==> r == Finite(0.0)
    ensures setting == WhenToolSelected && !canMovePlane ==> r == Finite(0.0)
    ensures setting == Always || (setting == WhenToolSelected && canMovePlane) ==>
      r == RealDivide(indicatorSize, zoomLevel)
  {
    if setting == Never then Finite(0.0)
    else if setting == WhenToolSelected && !canMovePlane then Finite(0.0)
    else RealDivide(indicatorSize, zoomLevel)
  }

  // ---------------------------------------------------------------------
  // Behaviours

  /** An entry of the behaviour list. */
  datatype Behavior = LerpBehavior(lerp: MandelbrotLerp) | CameraBehavior(camera: CameraController) {
    function Obj(): object {
      match this
      case LerpBehavior(l) => l
      case CameraBehavior(c) => c
    }

    /** The transition this entry holds, if any. */
    function LerpSet(): set<MandelbrotLerp> {
      if LerpBehavior? then {lerp} else {}
    }

    /** The camera controller this entry holds, if any. */
    function CameraSet(): set<CameraController> {
      if CameraBehavior? then {camera} else {}
    }

    /** `shouldRemove`; the camera controller has none, which reads as false. */
    predicate ShouldRemove()
      reads LerpSet()`shouldRemove
    {
      LerpBehavior? && lerp.shouldRemove
    }
  }

  /** The transitions of a behaviour list. */
  function Lerps(bs: seq<Behavior>): set<MandelbrotLerp> {
    set i | 0 <= i < |bs| && bs[i].LerpBehavior? :: bs[i].lerp
  }

  /** The camera controllers of a behaviour list. */
  function Cameras(bs: seq<Behavior>): set<CameraController> {
    set i | 0 <= i < |bs| && bs[i].CameraBehavior? :: bs[i].camera
  }

  /** Every behaviour object appears once in the list. */
  predicate BehaviorsDistinct(bs: seq<Behavior>) {
    forall i, j :: 0 <= i < j < |bs| ==> bs[i].Obj() != bs[j].Obj()
  }

  /** What a behaviour's `update` needs: a transition with a nonzero
      duration, a camera controller with a nonzero spring scale. */
  predicate Runnable(b: Behavior)
    reads b.CameraSet()`springScale
  {
    match b
    case LerpBehavior(l) => l.duration != 0.0
    case CameraBehavior(c) => c.springScale != 0.0
  }

  /** `behaviors.filter(b => !b.shouldRemove)`. */
  function Survivors(bs: seq<Behavior>): seq<Behavior>
    reads Lerps(bs)`shouldRemove
    decreases |bs|
  {
    if |bs| == 0 then []
    else
      assert Lerps(bs[1..]) <= Lerps(bs) by {
        forall l | l in Lerps(bs[1..]) ensures l in Lerps(bs) {
          var i :| 0 <= i < |bs[1..]| && bs[1..][i].LerpBehavior? && bs[1..][i].lerp == l;
          assert bs[i + 1].LerpBehavior? && bs[i + 1].lerp == l;
        }
      }
      assert bs[0].LerpSet() <= Lerps(bs);
      (if bs[0].ShouldRemove() then [] else [bs[0]]) + Survivors(bs[1..])
  }

  /** The survivors are exactly the entries not to be removed, in their
      original order: filtering distributes over concatenation. */
  lemma {:induction false} SurvivorsSpec(bs: seq<Behavior>)
    ensures forall b :: b in Survivors(bs) <==> b in bs && !b.ShouldRemove()
    ensures |Survivors(bs)| <= |bs|
    decreases |bs|
  {
    if |bs| > 0 {
      SurvivorsSpec(bs[1..]);
      assert forall b :: b in bs <==> b == bs[0] || b in bs[1..];
    }
  }

  /** Filtering the concatenation of two lists is concatenating their
      filtered lists, so survivors keep their relative order. */
  lemma {:induction false} SurvivorsAppend(a: seq<Behavior>, b: seq<Behavior>)
    ensures Survivors(a + b) == Survivors(a) + Survivors(b)
    decreases |a|
  {
    if |a| == 0 {
      assert a + b == b;
    } else {
      assert (a + b)[0] == a[0];
      assert (a + b)[1..] == a[1..] + b;
      SurvivorsAppend(a[1..], b);
    }
  }

  /** A timed transition between two camera presets. */
  datatype LerpOrientation = MatrixOrientation(matrix: Matrix) | AnglesOrientation(angles: Angles)

  /** One end of a transition: the camera preset's position, zoom and
      orientation (a matrix when the preset has an `orientationMatrix`
      property, else the simplified angles). */
  datatype LerpEndpoint = LerpEndpoint(position: Vec6, zoom: real, orientation: LerpOrientation)

  /** The fraction of the transition elapsed, capped at 1. */
  function Progress(elapsedTime: real, duration: real): real
    requires duration != 0.0
  {
    Min(elapsedTime / duration, 1.0)
  }

  /** With the default easing, once the elapsed time reaches the duration the
      eased parameter is 1, so the transition finishes. */
  lemma BezierFinishes(elapsedTime: real, duration: real)
    requires duration > 0.0 && elapsedTime >= duration
    ensures Easing.EaseInOutBezier(Progress(elapsedTime, duration)) >= 1.0
  {
    assert elapsedTime / duration >= 1.0;
    assert Progress(elapsedTime, duration) == 1.0;
  }

  class MandelbrotLerp {
    const start: LerpEndpoint
    const end: LerpEndpoint
    const duration: real
    var elapsedTime: real
    var shouldRemove: bool
    const easing: real -> real

    constructor (start: LerpEndpoint, end: LerpEndpoint, duration: real, easing: real -> real)
      requires duration != 0.0
      ensures this.start == start && this.end == end && this.duration == duration
      ensures this.easing == easing
      ensures elapsedTime == 0.0 && !shouldRemove
    {
      this.start := start;
      this.end := end;
      this.duration := duration;
      this.easing := easing;
      elapsedTime := 0.0;
      shouldRemove := false;
    }

    /** One frame of the transition. */
    method Update(state: Mandelbrot6DState, deltaTime: real)
      requires duration != 0.0
      modifies this`elapsedTime, this`shouldRemove, state`position, state`zoom, state`orientationMatrix
      modifies state.simplifiedRotation`juliaWise, state.simplifiedRotation`exponentWise
      modifies state.simplifiedRotation`juliaToExponentWise
      ensures elapsedTime == old(elapsedTime) + deltaTime
      ensures old(shouldRemove) ==> shouldRemove
      ensures easing(Progress(elapsedTime, duration)) >= 1.0 ==>
        && shouldRemove
        && state.position == end.position && state.zoom == end.zoom
        && (end.orientation.MatrixOrientation? ==>
          state.orientationMatrix == end.orientation.matrix
          && state.simplifiedRotation.Current() == old(state.simplifiedRotation.Current()))
        && (end.orientation.AnglesOrientation? ==>
          state.orientationMatrix == old(state.orientationMatrix)
          && state.simplifiedRotation.Current() == end.orientation.angles)
      ensures var t := easing(Progress(elapsedTime, duration));
        t < 1.0 ==>
        && shouldRemove == old(shouldRemove)
        && state.position == start.position.Lerp(end.position, t)
        && state.zoom == Numbers.Lerp(start.zoom, end.zoom, t)
        && state.orientationMatrix == old(state.orientationMatrix)
        && (start.orientation.AnglesOrientation? && end.orientation.AnglesOrientation? ==>
          state.simplifiedRotation.Current() == start.orientation.angles.Lerp(end.orientation.angles, t))
        && (start.orientation.MatrixOrientation? || end.orientation.MatrixOrientation? ==>
          state.simplifiedRotation.Current() == old(state.simplifiedRotation.Current()))
    {
      elapsedTime := elapsedTime + deltaTime;
      var t := easing(Min(elapsedTime / duration, 1.0));
      assert t == easing(Progress(elapsedTime, duration));
      if t >= 1.0 {
        shouldRemove := true;
        state.position := end.position;
        state.zoom := end.zoom;
        match end.orientation {
          case MatrixOrientation(m) =>
            state.orientationMatrix := m;
          case AnglesOrientation(a) =>
            state.simplifiedRotation.SetAngles(a);
        }
        return;
      }
      state.position := start.position.Lerp(end.position, t);
      // MandelbrotLerp.ts writes this out as `start.zoom + (end.zoom - start.zoom) * t`
      state.zoom := Numbers.Lerp(start.zoom, end.zoom, t);
      if start.orientation.MatrixOrientation? || end.orientation.MatrixOrientation? {
        return;
      }
      state.simplifiedRotation.SetAngles(start.orientation.angles.Lerp(end.orientation.angles, t));
    }
  }

  /** The keyboard camera controller, run as a behaviour: it keeps its own
      velocities and moves the state. */
  class CameraController {
    var options: InputModeOptions
    var velocity: Vec6
    var zoomVelocity: real
    var rotationVelocity: RotationVelocity
    var speedScale: real
    var springScale: real
    var moveOnLocalAxes: bool
    var rotateOnLocalPlanes: bool

    constructor (options: InputModeOptions)
      ensures this.options == options
      ensures velocity == Vector6.Zero() && zoomVelocity == 0.0 && rotationVelocity == RotationVelocity([], 0.0)
      ensures speedScale == 1.0 && springScale == 1.0 && moveOnLocalAxes && !rotateOnLocalPlanes
    {
      this.options := options;
      velocity := Vector6.Zero();
      zoomVelocity := 0.0;
      rotationVelocity := RotationVelocity([], 0.0);
      speedScale := 1.0;
      springScale := 1.0;
      moveOnLocalAxes := true;
      rotateOnLocalPlanes := false;
    }

    /** `canMoveJulia`: the controller's axes are exactly z and w, which
        rules out moving the exponent plane. */
    function CanMoveJulia(): (r: bool)
      reads this
      ensures r <==> options.horizontalAxis.Equals(Basis(Z_INDEX)) && options.verticalAxis.Equals(Basis(W_INDEX))
      ensures r ==> !CanMoveExponent()
    {
      CanMoveExclusive(options);
      InputModes.CanMoveJulia(options)
    }

    /** `canMoveExponent`: the controller's axes are exactly v and u, which
        rules out moving the Julia plane. */
    function CanMoveExponent(): (r: bool)
      reads this
      ensures r <==> options.horizontalAxis.Equals(Basis(V_INDEX)) && options.verticalAxis.Equals(Basis(U_INDEX))
      ensures r ==> !InputModes.CanMoveJulia(options)
    {
      CanMoveExclusive(options);
      InputModes.CanMoveExponent(options)
    }

    function Current(): Velocities
      reads this`velocity, this`zoomVelocity, this`rotationVelocity
    {
      Velocities(velocity, zoomVelocity, rotationVelocity)
    }

    /** The targets of one frame: the input mode's movement with the three
        speeds multiplied by this controller's speed scale. */
    function Targets(lib: MathLib, orientation: Matrix, keys: Keys): Movement
      reads this`options, this`speedScale, this`moveOnLocalAxes
    {
      MovementOf(lib, ScaleOptions(options, speedScale), orientation, moveOnLocalAxes, keys)
    }

    /** One frame: smooth the velocities, move the state, apply the deadzone. */
    method Update(lib: MathLib, keys: Keys, state: Mandelbrot6DState, deltaTime: real)
      requires springScale != 0.0 && state.zoomLevel != 0.0
      modifies this`velocity, this`zoomVelocity, this`rotationVelocity
      modifies state`zoom, state`position, state`orientationMatrix
      modifies state.simplifiedRotation`juliaWise, state.simplifiedRotation`exponentWise
      modifies state.simplifiedRotation`juliaToExponentWise
      ensures var m := old(Targets(lib, state.orientationMatrix, keys));
        var s := Smoothed(lib, old(Current()), m, springScale, deltaTime);
        && Current() == Deadzoned(lib, s, m)
        && state.CurrentPose() ==
          Moved(state.statics, old(state.CurrentPose()), s, deltaTime, state.zoomLevel, rotateOnLocalPlanes)
    {
      ghost var v0 := Current();
      var m := ComputeMovement(lib, ScaleOptions(options, speedScale), state.orientationMatrix, moveOnLocalAxes, keys);
      assert m == Targets(lib, state.orientationMatrix, keys);
      MovementOptions(lib, ScaleOptions(options, speedScale), state.orientationMatrix, moveOnLocalAxes, keys);
      Smooth(lib, m, deltaTime);
      var s := Current();
      assert s == Smoothed(lib, v0, m, springScale, deltaTime);
      MoveState(state, s, deltaTime);
      Deadzone(lib, m);
      assert Current() == Deadzoned(lib, s, m);
    }

    /** Accelerates the three velocities towards the targets. */
    method Smooth(lib: MathLib, m: Movement, deltaTime: real)
      requires springScale != 0.0
      requires m.velocityLerp == options.velocityLerp
      requires m.rotationalVelocityLerp == options.rotationalVelocityLerp
      requires m.targetRotationVelocity.planeMappings == options.rotationPlaneMappings
      modifies this`velocity, this`zoomVelocity, this`rotationVelocity
      ensures Current() == Smoothed(lib, old(Current()), m, springScale, deltaTime)
    {
      var velocityLerp := ExpLerpFactor(lib, options.velocityLerp / springScale, deltaTime);
      var rotationVelocityLerp := ExpLerpFactor(lib, options.rotationalVelocityLerp / springScale, deltaTime);
      velocity := velocity.Lerp(m.targetVelocity, velocityLerp);
      zoomVelocity := Numbers.Lerp(zoomVelocity, m.targetZoomVelocity, velocityLerp);
      rotationVelocity := RotationVelocity(options.rotationPlaneMappings,
        Numbers.Lerp(rotationVelocity.amount, m.targetRotationVelocity.amount, rotationVelocityLerp));
    }

    /** Applies the smoothed velocities to the state's zoom, position and
        orientation. */
    method MoveState(state: Mandelbrot6DState, s: Velocities, deltaTime: real)
      requires state.zoomLevel != 0.0
      modifies state`zoom, state`position, state`orientationMatrix
      modifies state.simplifiedRotation`juliaWise, state.simplifiedRotation`exponentWise
      modifies state.simplifiedRotation`juliaToExponentWise
      ensures state.CurrentPose() ==
        Moved(state.statics, old(state.CurrentPose()), s, deltaTime, state.zoomLevel, rotateOnLocalPlanes)
    {
      MovedParts(state.statics, state.CurrentPose(), s, deltaTime, state.zoomLevel, rotateOnLocalPlanes);
      state.zoom := state.zoom + s.zoomVelocity * deltaTime;
      var scaledVelocity := s.velocity.Scale(deltaTime / state.zoomLevel);
      state.position := state.position.Add(scaledVelocity);
      var amount := s.rotationVelocity.amount * deltaTime;
      assert amount == Turn(s, deltaTime);
      state.RotateByPlaneMappings(s.rotationVelocity.planeMappings, amount, rotateOnLocalPlanes);
    }

    /** Zeroes each velocity that is below the margin with a zero target. */
    method Deadzone(lib: MathLib, m: Movement)
      modifies this`velocity, this`zoomVelocity, this`rotationVelocity
      ensures Current() == Deadzoned(lib, old(Current()), m)
    {
      if velocity.Length(lib) < MARGIN && m.targetVelocity.IsZero() {
        velocity := Vector6.Zero();
      }
      if Abs(zoomVelocity) < MARGIN && m.targetZoomVelocity == 0.0 {
        zoomVelocity := 0.0;
      }
      if Abs(rotationVelocity.amount) < MARGIN && m.targetRotationVelocity.amount == 0.0 {
        rotationVelocity := rotationVelocity.(amount := 0.0);
      }
    }

    /** `clearVelocities`: zero velocities, plane mappings kept. */
    method ClearVelocities()
      modifies this`velocity, this`zoomVelocity, this`rotationVelocity
      ensures velocity == Vector6.Zero() && zoomVelocity == 0.0
      ensures rotationVelocity == old(rotationVelocity).(amount := 0.0)
    {
      velocity := Vector6.Zero();
      zoomVelocity := 0.0;
      rotationVelocity := rotationVelocity.(amount := 0.0);
    }
  }

  // ---------------------------------------------------------------------
  // The state

  class Mandelbrot6DState {
    /** The plane-mapping helpers of the matrix library. */
    const statics: Mat6Statics
    var inputMode: InputMode
    var position: Vec6
    var relativePosition: Vec6
    var velocity: Vec6
    var upVector: Vec6
    var rightVector: Vec6
    var zoomLevel: real
    var zoom: real
    var zoomVelocity: real
    var rotationVelocity: RotationVelocity
    var zIndicatorSize: real
    var eIndicatorSize: real
    var zIndicatorSetting: IndicatorSetting
    var eIndicatorSetting: IndicatorSetting
    var speedScale: real
    var springScale: real
    var iterationsBase: real
    var iterationsPerZoom: real
    var iterationsMin: real
    var iterationsMax: real
    /** The escape radius (declared `bailoutRadius`, read as `escapeRadius`). */
    var escapeRadius: Num
    var orientationMatrix: Matrix
    var moveOnLocalAxes: bool
    var rotateOnLocalAxes: bool
    var simplifiedRotationActive: bool
    /** The state's simplified rotation; assigning another rotation to the
        field is modelled as installing its angles here. */
    const simplifiedRotation: SimplifiedRotation
    var behaviors: seq<Behavior>
    var lastTime: real

    /** The rotation object is built from the same helpers and its cache is
        consistent. */
    ghost predicate Valid()
      reads simplifiedRotation`memo
    {
      simplifiedRotation.Valid() && simplifiedRotation.statics == statics
    }

    constructor (statics: Mat6Statics)
      ensures Valid() && this.statics == statics && fresh(simplifiedRotation) && fresh(inputMode)
      ensures inputMode.options == Regular()
      ensures position == INITIAL_POSITION && relativePosition == INITIAL_POSITION
      ensures velocity == Vector6.Zero() && upVector == UP_VECTOR && rightVector == RIGHT_VECTOR
      ensures zoomLevel == 0.0 && zoom == INITIAL_ZOOM && zoomVelocity == 0.0
      ensures rotationVelocity == RotationVelocity([], 0.0)
      ensures zIndicatorSize == 0.0025 && eIndicatorSize == 0.0025
      ensures zIndicatorSetting == WhenToolSelected && eIndicatorSetting == WhenToolSelected
      ensures speedScale == 1.0 && springScale == 1.0
      ensures iterationsBase == 100.0 && iterationsPerZoom == 50.0
      ensures iterationsMin == 100.0 && iterationsMax == 5000.0
      ensures escapeRadius == PosInfinity
      ensures orientationMatrix == IdentityEntries()
      ensures moveOnLocalAxes && !rotateOnLocalAxes && simplifiedRotationActive
      ensures simplifiedRotation.Current() == Angles(0.0, 0.0, 0.0)
      ensures behaviors == [] && lastTime == 0.0
    {
      this.statics := statics;
      inputMode := new InputMode(Regular());
      position := INITIAL_POSITION;
      relativePosition := INITIAL_POSITION;
      velocity := Vector6.Zero();
      upVector := UP_VECTOR;
      rightVector := RIGHT_VECTOR;
      zoomLevel := 0.0;
      zoom := INITIAL_ZOOM;
      zoomVelocity := 0.0;
      rotationVelocity := RotationVelocity([], 0.0);
      zIndicatorSize := 0.0025;
      eIndicatorSize := 0.0025;
      zIndicatorSetting := WhenToolSelected;
      eIndicatorSetting := WhenToolSelected;
      speedScale := 1.0;
      springScale := 1.0;
      iterationsBase := 100.0;
      iterationsPerZoom := 50.0;
      iterationsMin := 100.0;
      iterationsMax := 5000.0;
      escapeRadius := PosInfinity;
      orientationMatrix := IdentityEntries();
      moveOnLocalAxes := true;
      rotateOnLocalAxes := false;
      simplifiedRotationActive := true;
      simplifiedRotation := new SimplifiedRotation(statics, Angles(0.0, 0.0, 0.0));
      behaviors := [];
      lastTime := 0.0;
    }

    /** `maxIterationsComputed`: the iteration count for the current zoom,
        kept within the configured bounds. */
    function MaxIterationsComputed(): (r: real)
      reads this
      ensures r >= iterationsMin
      ensures iterationsMin <= iterationsMax ==> r <= iterationsMax
      ensures iterationsMin <= iterationsMax ==>
        (iterationsMin < r < iterationsMax ==> r == Round(iterationsBase + zoom * iterationsPerZoom))
    {
      var value := Round(iterationsBase + zoom * iterationsPerZoom);
      MaxIterations(iterationsBase, iterationsPerZoom, iterationsMin, iterationsMax, zoom)
    }

    /** `zIndicatorEffectiveSize`: the Julia-plane indicator, shown when
        selected only while the Julia tool is in use. */
    function ZIndicatorEffectiveSize(): (r: Num)
      reads this, inputMode
      ensures zIndicatorSetting == Never ==> r == Finite(0.0)
      ensures zIndicatorSetting == WhenToolSelected ==>
        (r == Finite(0.0) || InputModes.CanMoveJulia(inputMode.options))
      ensures zIndicatorSetting == WhenToolSelected && inputMode.options == Regular() ==> r == Finite(0.0)
      ensures zIndicatorSetting == WhenToolSelected && inputMode.options == Julia() ==>
        r == RealDivide(zIndicatorSize, zoomLevel)
      ensures zIndicatorSetting == Always ==> r == RealDivide(zIndicatorSize, zoomLevel)
    {
      CanMoveTables();
      IndicatorEffectiveSize(zIndicatorSize, zIndicatorSetting, InputModes.CanMoveJulia(inputMode.options), zoomLevel)
    }

    /** `eIndicatorEffectiveSize`: the exponent-plane indicator, shown when
        selected only while an exponent tool is in use. */
    function EIndicatorEffectiveSize(): (r: Num)
      reads this, inputMode
      ensures eIndicatorSetting == Never ==> r == Finite(0.0)
      ensures eIndicatorSetting == WhenToolSelected ==>
        (r == Finite(0.0) || InputModes.CanMoveExponent(inputMode.options))
      ensures eIndicatorSetting == WhenToolSelected && (inputMode.options == Regular() || inputMode.options == Julia()) ==>
        r == Finite(0.0)
      ensures (eIndicatorSetting == WhenToolSelected &&
        (inputMode.options == Exponent() || inputMode.options == InputModes.JuliaToExponent())) ==>
        r == RealDivide(eIndicatorSize, zoomLevel)
      ensures eIndicatorSetting == Always ==> r == RealDivide(eIndicatorSize, zoomLevel)
    {
      CanMoveTables();
      IndicatorEffectiveSize(eIndicatorSize, eIndicatorSetting, InputModes.CanMoveExponent(inputMode.options), zoomLevel)
    }

    function CurrentPose(): Pose
      reads this`position, this`zoom, this`orientationMatrix
      reads simplifiedRotation`juliaWise, simplifiedRotation`exponentWise, simplifiedRotation`juliaToExponentWise
    {
      Pose(position, zoom, orientationMatrix, simplifiedRotation.Current())
    }

    function CurrentVelocities(): Velocities
      reads this`velocity, this`zoomVelocity, this`rotationVelocity
    {
      Velocities(velocity, zoomVelocity, rotationVelocity)
    }

    /** The targets of this frame: the input mode's movement with every
        target scaled by the speed scale. */
    function FrameTargets(lib: MathLib, keys: Keys): Movement
      reads this`inputMode, this`orientationMatrix, this`moveOnLocalAxes, this`speedScale, inputMode`options
    {
      ScaleMovement(MovementOf(lib, inputMode.options, orientationMatrix, moveOnLocalAxes, keys), speedScale)
    }

    /** `rotateByPlaneMappings`. */
    method RotateByPlaneMappings(mappings: seq<PlaneMapping>, amount: real, local: bool)
      modifies this`orientationMatrix
      modifies simplifiedRotation`juliaWise, simplifiedRotation`exponentWise
      modifies simplifiedRotation`juliaToExponentWise
      ensures orientationMatrix == RotatedOrientation(statics, old(orientationMatrix), mappings, amount, local)
      ensures simplifiedRotation.Current() == RotatedAngles(old(simplifiedRotation.Current()), mappings, amount)
    {
      if amount == 0.0 || |mappings| == 0 {
        return;
      }
      var normalizedAmount := amount / (|mappings| as real);
      var oldMat := orientationMatrix;
      var i := 0;
      assert mappings[0..] == mappings;
      while i < |mappings|
        invariant 0 <= i <= |mappings|
        invariant Rotated(statics, mappings[i..], amount, local, oldMat, orientationMatrix)
          == Rotated(statics, mappings, amount, local, oldMat, oldMat)
        invariant simplifiedRotation.Current() ==
          Credited(old(simplifiedRotation.Current()), mappings[..i], normalizedAmount)
      {
        var mapping := mappings[i];
        assert mappings[i..][0] == mapping && mappings[i..][1..] == mappings[i + 1..];
        CreditStep(old(simplifiedRotation.Current()), mappings, i, normalizedAmount);
        RotateStep(mapping, amount, normalizedAmount, local, oldMat);
        i := i + 1;
      }
      assert mappings[..i] == mappings;
    }

    /** `update`: one frame of the explorer. The state's own velocities are
        smoothed towards the input mode's targets and applied, the
        behaviours run in order and the finished ones are dropped, and the
        orientation, the snapped screen axes and the relative position are
        derived last. */
    method Update(lib: MathLib, keys: Keys, currentTime: real)
      requires Valid() && springScale != 0.0 && PowOfTwoPositive(lib)
      requires BehaviorsDistinct(behaviors)
      requires forall j :: 0 <= j < |behaviors| ==> Runnable(behaviors[j])
      modifies this`lastTime, this`velocity, this`zoomVelocity, this`rotationVelocity, this`zoom
      modifies this`zoomLevel, this`position, this`orientationMatrix, this`behaviors
      modifies this`rightVector, this`upVector, this`relativePosition
      modifies simplifiedRotation`juliaWise, simplifiedRotation`exponentWise
      modifies simplifiedRotation`juliaToExponentWise, simplifiedRotation`memo
      modifies Lerps(behaviors)`elapsedTime, Lerps(behaviors)`shouldRemove
      modifies Cameras(behaviors)`velocity, Cameras(behaviors)`zoomVelocity, Cameras(behaviors)`rotationVelocity
      ensures Valid() && lastTime == currentTime && zoomLevel > 0.0
      ensures var m := old(FrameTargets(lib, keys));
        var s := Smoothed(lib, old(CurrentVelocities()), m, old(springScale), DeltaTime(old(lastTime), currentTime));
        CurrentVelocities() == Deadzoned(lib, s, m)
      ensures simplifiedRotationActive ==>
        && simplifiedRotation.Current().Normalized() == simplifiedRotation.Current()
        && orientationMatrix == AnglesMatrix(statics, simplifiedRotation.Current())
      ensures rightVector == SnapToCardinalDirection(MulVec(orientationMatrix, RIGHT_VECTOR))
      ensures upVector == SnapToCardinalDirection(MulVec(orientationMatrix, UP_VECTOR))
      ensures relativePosition == statics.multiplyTransposeVec6(orientationMatrix, position)
    {
      var deltaTime, m := Advance(lib, keys, currentTime);
      Finish(lib, keys, deltaTime);
    }

    /** The second half of `update`: the behaviours, then the derived
        orientation, screen axes and relative position. */
    method Finish(lib: MathLib, keys: Keys, deltaTime: real)
      requires Valid() && zoomLevel != 0.0 && BehaviorsDistinct(behaviors)
      requires forall j :: 0 <= j < |behaviors| ==> Runnable(behaviors[j])
      modifies this`position, this`zoom, this`orientationMatrix, this`behaviors
      modifies this`rightVector, this`upVector, this`relativePosition
      modifies simplifiedRotation`juliaWise, simplifiedRotation`exponentWise
      modifies simplifiedRotation`juliaToExponentWise, simplifiedRotation`memo
      modifies Lerps(behaviors)`elapsedTime, Lerps(behaviors)`shouldRemove
      modifies Cameras(behaviors)`velocity, Cameras(behaviors)`zoomVelocity, Cameras(behaviors)`rotationVelocity
      ensures Valid()
      ensures CurrentVelocities() == old(CurrentVelocities()) && zoomLevel == old(zoomLevel)
      ensures lastTime == old(lastTime)
      ensures simplifiedRotationActive ==>
        && simplifiedRotation.Current().Normalized() == simplifiedRotation.Current()
        && orientationMatrix == AnglesMatrix(statics, simplifiedRotation.Current())
      ensures rightVector == SnapToCardinalDirection(MulVec(orientationMatrix, RIGHT_VECTOR))
      ensures upVector == SnapToCardinalDirection(MulVec(orientationMatrix, UP_VECTOR))
      ensures relativePosition == statics.multiplyTransposeVec6(orientationMatrix, position)
    {
      Settle(lib, keys, deltaTime);
      Derive();
    }

    /** The behaviours of `update`: each runs for the frame, in order, and
        the finished ones are dropped. */
    method Settle(lib: MathLib, keys: Keys, deltaTime: real)
      requires zoomLevel != 0.0 && BehaviorsDistinct(behaviors)
      requires forall j :: 0 <= j < |behaviors| ==> Runnable(behaviors[j])
      modifies this`position, this`zoom, this`orientationMatrix, this`behaviors
      modifies simplifiedRotation`juliaWise, simplifiedRotation`exponentWise
      modifies simplifiedRotation`juliaToExponentWise
      modifies Lerps(behaviors)`elapsedTime, Lerps(behaviors)`shouldRemove
      modifies Cameras(behaviors)`velocity, Cameras(behaviors)`zoomVelocity, Cameras(behaviors)`rotationVelocity
      ensures behaviors == Survivors(old(behaviors))
      ensures var bs := old(behaviors);
        forall j :: 0 <= j < |bs| && bs[j].LerpBehavior? ==>
          bs[j].lerp.elapsedTime == old(bs[j].lerp.elapsedTime) + deltaTime
      ensures old(behaviors) == [] ==> CurrentPose() == old(CurrentPose())
      ensures CurrentVelocities() == old(CurrentVelocities()) && zoomLevel == old(zoomLevel)
      ensures simplifiedRotation.memo == old(simplifiedRotation.memo)
    {
      RunBehaviors(lib, keys, deltaTime);
      behaviors := Survivors(behaviors);
    }

    /** The last part of `update`: with the simplified rotation active its
        angles are normalized and the orientation is rebuilt from them; the
        snapped screen axes and the relative position follow the
        orientation. */
    method Derive()
      requires Valid()
      modifies this`orientationMatrix, this`rightVector, this`upVector, this`relativePosition
      modifies simplifiedRotation`juliaWise, simplifiedRotation`exponentWise
      modifies simplifiedRotation`juliaToExponentWise, simplifiedRotation`memo
      ensures Valid()
      ensures simplifiedRotationActive ==>
        && simplifiedRotation.Current() == old(simplifiedRotation.Current()).Normalized()
        && simplifiedRotation.Current().Normalized() == simplifiedRotation.Current()
        && orientationMatrix == AnglesMatrix(statics, simplifiedRotation.Current())
      ensures !simplifiedRotationActive ==>
        simplifiedRotation.Current() == old(simplifiedRotation.Current()) && orientationMatrix == old(orientationMatrix)
      ensures rightVector == SnapToCardinalDirection(MulVec(orientationMatrix, RIGHT_VECTOR))
      ensures upVector == SnapToCardinalDirection(MulVec(orientationMatrix, UP_VECTOR))
      ensures relativePosition == statics.multiplyTransposeVec6(orientationMatrix, position)
      ensures CurrentVelocities() == old(CurrentVelocities()) && zoomLevel == old(zoomLevel)
      ensures behaviors == old(behaviors) && lastTime == old(lastTime)
    {
      NormalizeOrientation();
      DeriveAxes();
    }

    /** With the simplified rotation active, normalizes its angles and
        rebuilds the orientation from them. */
    method NormalizeOrientation()
      requires Valid()
      modifies this`orientationMatrix
      modifies simplifiedRotation`juliaWise, simplifiedRotation`exponentWise
      modifies simplifiedRotation`juliaToExponentWise, simplifiedRotation`memo
      ensures Valid()
      ensures simplifiedRotationActive ==>
        && simplifiedRotation.Current() == old(simplifiedRotation.Current()).Normalized()
        && simplifiedRotation.Current().Normalized() == simplifiedRotation.Current()
        && orientationMatrix == AnglesMatrix(statics, simplifiedRotation.Current())
      ensures !simplifiedRotationActive ==>
        simplifiedRotation.Current() == old(simplifiedRotation.Current()) && orientationMatrix == old(orientationMatrix)
    {
      if simplifiedRotationActive {
        NormalizedIdempotent(simplifiedRotation.Current());
        simplifiedRotation.Normalize();
        orientationMatrix := simplifiedRotation.ToMatrix();
      }
    }

    /** The snapped screen axes and the relative position, from the
        orientation. */
    method DeriveAxes()
      modifies this`rightVector, this`upVector, this`relativePosition
      ensures rightVector == SnapToCardinalDirection(MulVec(orientationMatrix, RIGHT_VECTOR))
      ensures upVector == SnapToCardinalDirection(MulVec(orientationMatrix, UP_VECTOR))
      ensures relativePosition == statics.multiplyTransposeVec6(orientationMatrix, position)
    {
      rightVector := SnapToCardinalDirection(MulVec(orientationMatrix, RIGHT_VECTOR));
      upVector := SnapToCardinalDirection(MulVec(orientationMatrix, UP_VECTOR));
      relativePosition := statics.multiplyTransposeVec6(orientationMatrix, position);
    }

    /** The first half of `update`: the frame time, the targets, the smoothed
        velocities applied to the pose, and the deadzone. */
    method Advance(lib: MathLib, keys: Keys, currentTime: real) returns (deltaTime: real, m: Movement)
      requires springScale != 0.0 && PowOfTwoPositive(lib)
      modifies this`lastTime, this`velocity, this`zoomVelocity, this`rotationVelocity, this`zoom
      modifies this`zoomLevel, this`position, this`orientationMatrix
      modifies simplifiedRotation`juliaWise, simplifiedRotation`exponentWise
      modifies simplifiedRotation`juliaToExponentWise
      ensures deltaTime == DeltaTime(old(lastTime), currentTime) && lastTime == currentTime
      ensures m == old(FrameTargets(lib, keys))
      ensures behaviors == old(behaviors) && simplifiedRotation.memo == old(simplifiedRotation.memo)
      ensures var s := Smoothed(lib, old(CurrentVelocities()), m, old(springScale), deltaTime);
        && CurrentVelocities() == Deadzoned(lib, s, m)
        && zoomLevel == Pow(lib, 2.0, zoom) && zoomLevel > 0.0
        && CurrentPose() == Moved(statics, old(CurrentPose()), s, deltaTime, zoomLevel, rotateOnLocalAxes)
    {
      deltaTime, m := Accelerate(lib, keys, currentTime);
      Move(lib, m, deltaTime);
    }

    /** The frame time, the input mode's targets, and the velocities
        smoothed towards them; the pose is not touched yet. */
    method Accelerate(lib: MathLib, keys: Keys, currentTime: real) returns (deltaTime: real, m: Movement)
      requires springScale != 0.0
      modifies this`lastTime, this`velocity, this`zoomVelocity, this`rotationVelocity
      ensures deltaTime == DeltaTime(old(lastTime), currentTime) && lastTime == currentTime
      ensures m == old(FrameTargets(lib, keys))
      ensures CurrentVelocities() == Smoothed(lib, old(CurrentVelocities()), m, springScale, deltaTime)
      ensures CurrentPose() == old(CurrentPose()) && zoomLevel == old(zoomLevel)
    {
      deltaTime := if lastTime == 0.0 then 0.0 else (currentTime - lastTime) / 1000.0;
      lastTime := currentTime;

      m := FrameMovement(lib, keys);
      SmoothVelocities(lib, m, deltaTime);
    }

    /** The state's velocities applied to the pose, then the deadzone. */
    method Move(lib: MathLib, m: Movement, deltaTime: real)
      requires PowOfTwoPositive(lib)
      modifies this`velocity, this`zoomVelocity, this`rotationVelocity, this`zoom
      modifies this`zoomLevel, this`position, this`orientationMatrix
      modifies simplifiedRotation`juliaWise, simplifiedRotation`exponentWise
      modifies simplifiedRotation`juliaToExponentWise
      ensures CurrentVelocities() == Deadzoned(lib, old(CurrentVelocities()), m)
      ensures zoomLevel == Pow(lib, 2.0, zoom) && zoomLevel > 0.0
      ensures CurrentPose() == Moved(statics, old(CurrentPose()), old(CurrentVelocities()), deltaTime, zoomLevel, rotateOnLocalAxes)
      ensures behaviors == old(behaviors) && simplifiedRotation.memo == old(simplifiedRotation.memo)
    {
      ApplyVelocities(lib, CurrentVelocities(), deltaTime);
      DeadzoneVelocities(lib, m);
    }

    /** The input mode's movement with every target scaled by the speed
        scale. */
    method FrameMovement(lib: MathLib, keys: Keys) returns (m: Movement)
      ensures m == FrameTargets(lib, keys)
    {
      m := inputMode.GetMovement(lib, orientationMatrix, moveOnLocalAxes, keys);
      m := ScaleMovement(m, speedScale);
    }

    /** Moves the pose by the velocities `v` (the state's own, read at the
        call); the zoom level follows the new zoom before the position
        moves. */
    method ApplyVelocities(lib: MathLib, v: Velocities, deltaTime: real)
      requires PowOfTwoPositive(lib)
      modifies this`zoom, this`zoomLevel, this`position, this`orientationMatrix
      modifies simplifiedRotation`juliaWise, simplifiedRotation`exponentWise
      modifies simplifiedRotation`juliaToExponentWise
      ensures zoomLevel == Pow(lib, 2.0, zoom) && zoomLevel > 0.0
      ensures CurrentPose() == Moved(statics, old(CurrentPose()), v, deltaTime, zoomLevel, rotateOnLocalAxes)
      ensures behaviors == old(behaviors) && simplifiedRotation.memo == old(simplifiedRotation.memo)
      ensures CurrentVelocities() == old(CurrentVelocities())
    {
      ghost var p := CurrentPose();
      Translate(lib, v, deltaTime);
      MovedParts(statics, p, v, deltaTime, zoomLevel, rotateOnLocalAxes);
      var amount := v.rotationVelocity.amount * deltaTime;
      assert amount == Turn(v, deltaTime);
      RotateByPlaneMappings(v.rotationVelocity.planeMappings, amount, rotateOnLocalAxes);
    }

    /** The zoom and position steps of `ApplyVelocities`. */
    method Translate(lib: MathLib, v: Velocities, deltaTime: real)
      requires PowOfTwoPositive(lib)
      modifies this`zoom, this`zoomLevel, this`position
      ensures zoom == old(zoom) + v.zoomVelocity * deltaTime
      ensures zoomLevel == Pow(lib, 2.0, zoom) && zoomLevel > 0.0
      ensures position == old(position).Add(v.velocity.Scale(deltaTime / zoomLevel))
    {
      zoom := zoom + v.zoomVelocity * deltaTime;
      zoomLevel := Pow(lib, 2.0, zoom);
      var scaledVelocity := v.velocity.Scale(deltaTime / zoomLevel);
      position := position.Add(scaledVelocity);
    }

    /** Accelerates the state's velocities towards the targets. */
    method SmoothVelocities(lib: MathLib, m: Movement, deltaTime: real)
      requires springScale != 0.0
      modifies this`velocity, this`zoomVelocity, this`rotationVelocity
      ensures CurrentVelocities() == Smoothed(lib, old(CurrentVelocities()), m, springScale, deltaTime)
      ensures behaviors == old(behaviors) && simplifiedRotation.memo == old(simplifiedRotation.memo)
    {
      var velocityLerp := ExpLerpFactor(lib, m.velocityLerp / springScale, deltaTime);
      var rotationVelocityLerp := ExpLerpFactor(lib, m.rotationalVelocityLerp / springScale, deltaTime);
      velocity := velocity.Lerp(m.targetVelocity, velocityLerp);
      zoomVelocity := Numbers.Lerp(zoomVelocity, m.targetZoomVelocity, velocityLerp);
      rotationVelocity := RotationVelocity(m.targetRotationVelocity.planeMappings,
        Numbers.Lerp(rotationVelocity.amount, m.targetRotationVelocity.amount, rotationVelocityLerp));
    }

    /** Zeroes each of the state's velocities that is below the margin with
        a zero target. */
    method DeadzoneVelocities(lib: MathLib, m: Movement)
      modifies this`velocity, this`zoomVelocity, this`rotationVelocity
      ensures CurrentVelocities() == Deadzoned(lib, old(CurrentVelocities()), m)
      ensures behaviors == old(behaviors) && simplifiedRotation.memo == old(simplifiedRotation.memo)
      ensures CurrentPose() == old(CurrentPose()) && zoomLevel == old(zoomLevel)
    {
      if velocity.Length(lib) < MARGIN && m.targetVelocity.IsZero() {
        velocity := Vector6.Zero();
      }
      if Abs(zoomVelocity) < MARGIN && m.targetZoomVelocity == 0.0 {
        zoomVelocity := 0.0;
      }
      if Abs(rotationVelocity.amount) < MARGIN && m.targetRotationVelocity.amount == 0.0 {
        rotationVelocity := rotationVelocity.(amount := 0.0);
      }
    }

    /** `for (const behavior of this.behaviors) behavior.update(...)`: each
        transition advances by the frame time, and with no behaviours the
        pose is left alone. */
    method RunBehaviors(lib: MathLib, keys: Keys, deltaTime: real)
      requires zoomLevel != 0.0 && BehaviorsDistinct(behaviors)
      requires forall j :: 0 <= j < |behaviors| ==> Runnable(behaviors[j])
      modifies this`position, this`zoom, this`orientationMatrix
      modifies simplifiedRotation`juliaWise, simplifiedRotation`exponentWise
      modifies simplifiedRotation`juliaToExponentWise
      modifies Lerps(behaviors)`elapsedTime, Lerps(behaviors)`shouldRemove
      modifies Cameras(behaviors)`velocity, Cameras(behaviors)`zoomVelocity, Cameras(behaviors)`rotationVelocity
      ensures forall j :: 0 <= j < |behaviors| && behaviors[j].LerpBehavior? ==>
        && behaviors[j].lerp.elapsedTime == old(behaviors[j].lerp.elapsedTime) + deltaTime
        && (old(behaviors[j].lerp.shouldRemove) ==> behaviors[j].lerp.shouldRemove)
      ensures behaviors == [] ==> CurrentPose() == old(CurrentPose())
    {
      var i := 0;
      while i < |behaviors|
        invariant 0 <= i <= |behaviors|
        invariant forall j :: 0 <= j < |behaviors| ==> Runnable(behaviors[j])
        invariant forall j :: 0 <= j < i && behaviors[j].LerpBehavior? ==>
          && behaviors[j].lerp.elapsedTime == old(behaviors[j].lerp.elapsedTime) + deltaTime
          && (old(behaviors[j].lerp.shouldRemove) ==> behaviors[j].lerp.shouldRemove)
        invariant forall j :: i <= j < |behaviors| && behaviors[j].LerpBehavior? ==>
          && behaviors[j].lerp.elapsedTime == old(behaviors[j].lerp.elapsedTime)
          && behaviors[j].lerp.shouldRemove == old(behaviors[j].lerp.shouldRemove)
        invariant i == 0 ==> CurrentPose() == old(CurrentPose())
      {
        var b := behaviors[i];
        assert b.LerpSet() <= Lerps(behaviors) && b.CameraSet() <= Cameras(behaviors);
        RunBehavior(lib, keys, b, deltaTime);
        i := i + 1;
      }
    }

    /** `behavior.update(...)` for one entry of the list. */
    method RunBehavior(lib: MathLib, keys: Keys, b: Behavior, deltaTime: real)
      requires zoomLevel != 0.0 && Runnable(b)
      modifies this`position, this`zoom, this`orientationMatrix
      modifies simplifiedRotation`juliaWise, simplifiedRotation`exponentWise
      modifies simplifiedRotation`juliaToExponentWise
      modifies b.LerpSet()`elapsedTime, b.LerpSet()`shouldRemove
      modifies b.CameraSet()`velocity, b.CameraSet()`zoomVelocity, b.CameraSet()`rotationVelocity
      ensures Runnable(b)
      ensures b.LerpBehavior? ==> b.lerp.elapsedTime == old(b.lerp.elapsedTime) + deltaTime
      ensures b.LerpBehavior? ==> old(b.lerp.shouldRemove) ==> b.lerp.shouldRemove
    {
      match b {
        case LerpBehavior(l) =>
          l.Update(this, deltaTime);
        case CameraBehavior(c) =>
          c.Update(lib, keys, this, deltaTime);
      }
    }

    /** One pass of the loop of `rotateByPlaneMappings`: the mapping's
        rotation is multiplied on from the left and its table's angle gets
        the share. */
    method RotateStep(mapping: PlaneMapping, amount: real, normalizedAmount: real, local: bool, oldMat: Matrix)
      modifies this`orientationMatrix
      modifies simplifiedRotation`juliaWise, simplifiedRotation`exponentWise
      modifies simplifiedRotation`juliaToExponentWise
      ensures orientationMatrix == MatMul(RotationFor(statics, mapping, amount, local, oldMat), old(orientationMatrix))
      ensures simplifiedRotation.Current() == Credit(old(simplifiedRotation.Current()), mapping, normalizedAmount)
    {
      var rotationMatrix: Matrix;
      if !local {
        rotationMatrix := statics.rotationFromAxisIndices(mapping.axis1, mapping.axis2, amount);
      } else {
        var e1 := FromIndex(Finite(mapping.axis1 as real));
        var e2 := FromIndex(Finite(mapping.axis2 as real));
        rotationMatrix := statics.rotationFromAxes(MulVec(oldMat, e1.value), MulVec(oldMat, e2.value), amount);
      }
      orientationMatrix := MatMul(rotationMatrix, orientationMatrix);

      var isJuliaWise := Contains(MandelbrotToJulia, mapping.axis1, mapping.axis2);
      var isExponentWise := Contains(MandelbrotToExponent, mapping.axis1, mapping.axis2);
      var isJuliaToExponentWise := Contains(PlaneMappings.JuliaToExponent, mapping.axis1, mapping.axis2);
      if isJuliaWise {
        simplifiedRotation.juliaWise := simplifiedRotation.juliaWise + normalizedAmount;
      }
      if isExponentWise {
        simplifiedRotation.exponentWise := simplifiedRotation.exponentWise + normalizedAmount;
      }
      if isJuliaToExponentWise {
        simplifiedRotation.juliaToExponentWise := simplifiedRotation.juliaToExponentWise + normalizedAmount;
      }
    }

    /** `clearVelocities`: zero velocities, plane mappings kept. */
    method ClearVelocities()
      modifies this`velocity, this`zoomVelocity, this`rotationVelocity
      ensures velocity == Vector6.Zero() && zoomVelocity == 0.0
      ensures rotationVelocity == old(rotationVelocity).(amount := 0.0)
    {
      velocity := Vector6.Zero();
      zoomVelocity := 0.0;
      rotationVelocity := rotationVelocity.(amount := 0.0);
    }
  }

  /** The orientation `rotateByPlaneMappings` makes from `oldMat`: unchanged
      for a zero amount or no mappings. */
  function RotatedOrientation(statics: Mat6Statics, oldMat: Matrix, mappings: seq<PlaneMapping>,
    amount: real, local: bool): Matrix
  {
    if amount == 0.0 || |mappings| == 0 then oldMat else Rotated(statics, mappings, amount, local, oldMat, oldMat)
  }

  /** The angles `rotateByPlaneMappings` makes: each mapping credits an equal
      share of the amount to the angle of its table. */
  function RotatedAngles(oldAngles: Angles, mappings: seq<PlaneMapping>, amount: real): Angles {
    if amount == 0.0 || |mappings| == 0 then oldAngles
    else Credited(oldAngles, mappings, amount / (|mappings| as real))
  }

  /** Rotating by one of the three tables turns that table's angle by the
      whole amount and leaves the other two angles alone. */
  lemma RotatedAnglesTables(a: Angles, amount: real)
    ensures RotatedAngles(a, MandelbrotToJulia, amount) == a.(juliaWise := a.juliaWise + amount)
    ensures RotatedAngles(a, MandelbrotToExponent, amount) == a.(exponentWise := a.exponentWise + amount)
    ensures RotatedAngles(a, PlaneMappings.JuliaToExponent, amount) ==
      a.(juliaToExponentWise := a.juliaToExponentWise + amount)
  {
    CreditFullTable(a, amount);
  }

  /** The credit of one mapping: the share goes to the angle of each table
      holding its axis pair. */
  function Credit(a: Angles, m: PlaneMapping, share: real): Angles {
    Angles(a.juliaWise + (if Contains(MandelbrotToJulia, m.axis1, m.axis2) then share else 0.0),
      a.exponentWise + (if Contains(MandelbrotToExponent, m.axis1, m.axis2) then share else 0.0),
      a.juliaToExponentWise + (if Contains(PlaneMappings.JuliaToExponent, m.axis1, m.axis2) then share else 0.0))
  }

  /** Crediting a prefix one mapping longer is crediting that mapping once
      more. */
  lemma CreditStep(a: Angles, mappings: seq<PlaneMapping>, i: nat, share: real)
    requires i < |mappings|
    ensures Credited(a, mappings[..i + 1], share) == Credit(Credited(a, mappings[..i], share), mappings[i], share)
  {
    var m := mappings[i];
    var c := Credited(a, mappings[..i], share);
    var d := Credited(a, mappings[..i + 1], share);
    var e := Credit(c, m, share);
    CreditField(a.juliaWise, share, mappings, i, MandelbrotToJulia);
    CreditField(a.exponentWise, share, mappings, i, MandelbrotToExponent);
    CreditField(a.juliaToExponentWise, share, mappings, i, PlaneMappings.JuliaToExponent);
  }

  /** One angle of `CreditStep`. */
  lemma CreditField(x: real, share: real, mappings: seq<PlaneMapping>, i: nat, table: seq<PlaneMapping>)
    requires i < |mappings|
    ensures Shares(x, share, Count(mappings[..i + 1], table)) ==
      Shares(x, share, Count(mappings[..i], table)) +
        if Contains(table, mappings[i].axis1, mappings[i].axis2) then share else 0.0
  {
    CountStep(mappings, i, table);
    ShareStep(share, Count(mappings[..i], table), Count(mappings[..i + 1], table),
      Contains(table, mappings[i].axis1, mappings[i].axis2));
  }

  /** Counting one more mapping. */
  lemma CountStep(mappings: seq<PlaneMapping>, i: nat, table: seq<PlaneMapping>)
    requires i < |mappings|
    ensures Count(mappings[..i + 1], table) ==
      Count(mappings[..i], table) + if Contains(table, mappings[i].axis1, mappings[i].axis2) then 1 else 0
  {
    assert mappings[..i + 1][..i] == mappings[..i];
    assert mappings[..i + 1][i] == mappings[i];
  }

  /** One more share of a counted total. */
  lemma ShareStep(share: real, n: nat, next: nat, hit: bool)
    requires next == n + if hit then 1 else 0
    ensures share * (next as real) == share * (n as real) + if hit then share else 0.0
  {
  }
}
