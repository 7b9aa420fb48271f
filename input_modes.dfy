/** Input modes: which axes and plane rotations the movement keys drive,
    and how one frame's key snapshot becomes target velocities. */
module InputModes {
  import opened JsMath
  import opened Vector2
  import opened Vector6
  import opened Matrix6
  import opened PlaneMappings
  import opened CardinalSnap

  /** The rotation speed shared by every mode. */
  const ROTATE_SPEED: real := 0.2
  /** The rotational smoothing rate shared by every mode. */
  const ROTATIONAL_VELOCITY_LERP: real := 10.0

  datatype InputModeOptions = InputModeOptions(
    horizontalAxis: Vec6,
    verticalAxis: Vec6,
    rotationPlaneMappings: seq<PlaneMapping>,
    moveSpeed: real,
    velocityLerp: real,
    rotateSpeed: real,
    rotationalVelocityLerp: real,
    zoomSpeed: real)

  /** Moves in the x/y plane and zooms. */
  function Regular(): InputModeOptions {
    InputModeOptions(Basis(X_INDEX), Basis(Y_INDEX), [], 0.6, 5.0,
      ROTATE_SPEED, ROTATIONAL_VELOCITY_LERP, -2.0)
  }

  /** Moves in the z/w plane and rotates Mandelbrot towards Julia. */
  function Julia(): InputModeOptions {
    InputModeOptions(Basis(Z_INDEX), Basis(W_INDEX), MandelbrotToJulia, 0.3, 10.0,
      ROTATE_SPEED, ROTATIONAL_VELOCITY_LERP, 0.0)
  }

  /** `X`: moves in the v/u plane and rotates Mandelbrot towards the exponent. */
  function Exponent(): InputModeOptions {
    InputModeOptions(Basis(V_INDEX), Basis(U_INDEX), MandelbrotToExponent, 0.3, 10.0,
      ROTATE_SPEED, ROTATIONAL_VELOCITY_LERP, 0.0)
  }

  /** `JULIA_TO_X`: moves in the v/u plane and rotates Julia towards the
      exponent. */
  function JuliaToExponent(): InputModeOptions {
    InputModeOptions(Basis(V_INDEX), Basis(U_INDEX), PlaneMappings.JuliaToExponent, 0.3, 10.0,
      ROTATE_SPEED, ROTATIONAL_VELOCITY_LERP, 0.0)
  }

  /** The movement tool can move the Julia plane: its axes are exactly z and w. */
  predicate CanMoveJulia(options: InputModeOptions) {
    options.horizontalAxis.Equals(Basis(Z_INDEX)) && options.verticalAxis.Equals(Basis(W_INDEX))
  }

  /** The movement tool can move the exponent plane: its axes are exactly v and u. */
  predicate CanMoveExponent(options: InputModeOptions) {
    options.horizontalAxis.Equals(Basis(V_INDEX)) && options.verticalAxis.Equals(Basis(U_INDEX))
  }

  /** Which plane each of the four tables can move. */
  lemma CanMoveTables()
    ensures !CanMoveJulia(Regular()) && !CanMoveExponent(Regular())
    ensures CanMoveJulia(Julia()) && !CanMoveExponent(Julia())
    ensures !CanMoveJulia(Exponent()) && CanMoveExponent(Exponent())
    ensures !CanMoveJulia(JuliaToExponent()) && CanMoveExponent(JuliaToExponent())
  {
    assert Basis(X_INDEX).x == 1.0 && Basis(Z_INDEX).x == 0.0 && Basis(V_INDEX).x == 0.0;
    assert Basis(Z_INDEX).z == 1.0 && Basis(V_INDEX).z == 0.0;
  }

  /** The two movement tools exclude each other, whatever the options. */
  lemma CanMoveExclusive(options: InputModeOptions)
    ensures !(CanMoveJulia(options) && CanMoveExponent(options))
  {
    if CanMoveJulia(options) {
      assert options.horizontalAxis.z == Basis(Z_INDEX).z == 1.0;
      assert Basis(V_INDEX).z == 0.0;
    }
  }

  /** The six movement keys held during one frame. */
  datatype Keys = Keys(left: bool, right: bool, up: bool, down: bool, sneaking: bool, jumping: bool)

  datatype RotationVelocity = RotationVelocity(planeMappings: seq<PlaneMapping>, amount: real)

  /** What `getMovement` returns. */
  datatype Movement = Movement(
    targetVelocity: Vec6,
    targetZoomVelocity: real,
    targetRotationVelocity: RotationVelocity,
    rotationPlanes: seq<PlaneMapping>,
    velocityLerp: real,
    rotationalVelocityLerp: real)

  /** 1 for a key held, 0 for a key released. */
  function Bit(b: bool): real {
    if b then 1.0 else 0.0
  }

  /** The direction before normalisation: right minus left, up minus down. */
  function KeyDirection(keys: Keys): Vec2 {
    Vec2(Bit(keys.right) - Bit(keys.left), Bit(keys.up) - Bit(keys.down))
  }

  /** The secondary (zoom or rotate) input: jumping minus sneaking. */
  function Secondary(keys: Keys): real {
    Bit(keys.jumping) - Bit(keys.sneaking)
  }

  /** Opposite keys cancel, and each coordinate is -1, 0 or 1. */
  lemma KeyDirectionValues(keys: Keys)
    ensures KeyDirection(keys).x in {-1.0, 0.0, 1.0} && KeyDirection(keys).y in {-1.0, 0.0, 1.0}
    ensures KeyDirection(keys).x == 0.0 <==> keys.left == keys.right
    ensures KeyDirection(keys).y == 0.0 <==> keys.up == keys.down
    ensures KeyDirection(keys).x == 1.0 <==> keys.right && !keys.left
    ensures KeyDirection(keys).y == 1.0 <==> keys.up && !keys.down
  {
  }

  /** Jumping raises and sneaking lowers the secondary input; both cancel. */
  lemma SecondaryValues(keys: Keys)
    ensures Secondary(keys) in {-1.0, 0.0, 1.0}
    ensures Secondary(keys) > 0.0 <==> keys.jumping && !keys.sneaking
    ensures Secondary(keys) < 0.0 <==> keys.sneaking && !keys.jumping
  {
  }

  /** The key tests with their `+=` and `-=` steps, in source order. */
  method ReadKeys(keys: Keys) returns (moveDirection: Vec2, secondaryMovement: real)
    ensures moveDirection == KeyDirection(keys)
    ensures secondaryMovement == Secondary(keys)
  {
    moveDirection := Vec2(0.0, 0.0);
    secondaryMovement := 0.0;
    if keys.left {
      moveDirection := moveDirection.(x := moveDirection.x - 1.0);
    }
    if keys.right {
      moveDirection := moveDirection.(x := moveDirection.x + 1.0);
    }
    if keys.up {
      moveDirection := moveDirection.(y := moveDirection.y + 1.0);
    }
    if keys.down {
      moveDirection := moveDirection.(y := moveDirection.y - 1.0);
    }
    if keys.sneaking {
      secondaryMovement := secondaryMovement - 1.0;
    }
    if keys.jumping {
      secondaryMovement := secondaryMovement + 1.0;
    }
  }

  /** The direction actually used: a nonzero one normalised, a zero one kept. */
  function MoveDirection(lib: MathLib, keys: Keys): Vec2 {
    NormalizedDirection(lib, KeyDirection(keys))
  }

  /** The `length() > 0` guard around `normalize`. */
  function NormalizedDirection(lib: MathLib, d: Vec2): Vec2 {
    if d.Length(lib) > 0.0 then d.Normalize(lib) else d
  }

  /** A nonzero direction becomes a unit one, and only the zero direction
      becomes zero. */
  lemma NormalizedDirectionUnit(lib: MathLib, d: Vec2)
    requires RootAt(lib, d.SquaredLength()) && RootAt(lib, 1.0)
    ensures d != Vector2.Zero() ==> NormalizedDirection(lib, d).Length(lib) == 1.0
    ensures d == Vector2.Zero() <==> NormalizedDirection(lib, d) == Vector2.Zero()
  {
    Vector2.NormalizeZero(lib);
    if d != Vector2.Zero() {
      Vector2.SquaredLengthPositive(d);
      SqrtPositive(lib, d.SquaredLength());
      Vector2.NormalizeUnit(lib, d);
      var len := d.Length(lib);
      assert NormalizedDirection(lib, d) == d.Multiply(1.0 / len);
      assert 1.0 / len > 0.0;
      if d.x != 0.0 {
        ProductNonZero(d.x, 1.0 / len);
      } else {
        ProductNonZero(d.y, 1.0 / len);
      }
    }
  }

  /** A key held in a direction gives a unit direction; no net direction
      gives the zero direction. */
  lemma MoveDirectionUnit(lib: MathLib, keys: Keys)
    requires RootAt(lib, KeyDirection(keys).SquaredLength()) && RootAt(lib, 1.0)
    ensures (keys.left != keys.right || keys.up != keys.down) ==>
      MoveDirection(lib, keys).Length(lib) == 1.0
    ensures (keys.left == keys.right && keys.up == keys.down) <==>
      MoveDirection(lib, keys) == Vector2.Zero()
  {
    NormalizedDirectionUnit(lib, KeyDirection(keys));
  }

  /** The axis movement uses: the option's own axis, or its image under the
      orientation when moving on local axes, snapped to a cardinal direction. */
  function AxisUsed(orientation: Matrix, local: bool, axis: Vec6): Vec6 {
    SnapToCardinalDirection(if local then MulVec(orientation, axis) else axis)
  }

  /** The movement of one frame, as a value. */
  function MovementOf(lib: MathLib, options: InputModeOptions, orientation: Matrix,
    moveOnLocalAxes: bool, keys: Keys): Movement
  {
    MovementFrom(options, AxisUsed(orientation, moveOnLocalAxes, options.horizontalAxis),
      AxisUsed(orientation, moveOnLocalAxes, options.verticalAxis),
      MoveDirection(lib, keys), Secondary(keys))
  }

  /** The movement for given axes, direction and secondary input. */
  function MovementFrom(options: InputModeOptions, h: Vec6, v: Vec6, d: Vec2, secondary: real): Movement {
    Movement(h.Scale(d.x).Add(v.Scale(d.y)).Scale(options.moveSpeed),
      secondary * options.zoomSpeed,
      RotationVelocity(options.rotationPlaneMappings, secondary * options.rotateSpeed),
      options.rotationPlaneMappings, options.velocityLerp, options.rotationalVelocityLerp)
  }

  /** With no net direction the target velocity is zero, whatever the axes,
      speed and orientation. */
  lemma NoDirectionNoVelocity(lib: MathLib, options: InputModeOptions, orientation: Matrix,
    local: bool, keys: Keys)
    requires keys.left == keys.right && keys.up == keys.down
    ensures MovementOf(lib, options, orientation, local, keys).targetVelocity == Vector6.Zero()
  {
    var h := AxisUsed(orientation, local, options.horizontalAxis);
    var v := AxisUsed(orientation, local, options.verticalAxis);
    var d := MoveDirection(lib, keys);
    assert MovementOf(lib, options, orientation, local, keys) == MovementFrom(options, h, v, d, Secondary(keys));
    assert KeyDirection(keys) == Vector2.Zero();
    Vector2.NormalizeZero(lib);
    assert d == Vector2.Zero();
    ZeroDirectionVelocity(options, h, v, Secondary(keys));
  }

  /** The zero direction moves along no axis. */
  lemma ZeroDirectionVelocity(options: InputModeOptions, h: Vec6, v: Vec6, secondary: real)
    ensures MovementFrom(options, h, v, Vector2.Zero(), secondary).targetVelocity == Vector6.Zero()
  {
  }

  /** The secondary input drives zoom and rotation by the mode's speeds. */
  lemma MovementTargets(lib: MathLib, options: InputModeOptions, orientation: Matrix,
    local: bool, keys: Keys)
    ensures MovementOf(lib, options, orientation, local, keys).targetZoomVelocity ==
      Secondary(keys) * options.zoomSpeed
    ensures MovementOf(lib, options, orientation, local, keys).targetRotationVelocity.amount ==
      Secondary(keys) * options.rotateSpeed
  {
    var h := AxisUsed(orientation, local, options.horizontalAxis);
    var v := AxisUsed(orientation, local, options.verticalAxis);
    var d := MoveDirection(lib, keys);
    assert MovementOf(lib, options, orientation, local, keys) == MovementFrom(options, h, v, d, Secondary(keys));
  }

  /** The plane mappings and smoothing rates are the mode's own. */
  lemma MovementOptions(lib: MathLib, options: InputModeOptions, orientation: Matrix,
    local: bool, keys: Keys)
    ensures MovementOf(lib, options, orientation, local, keys).targetRotationVelocity.planeMappings ==
      options.rotationPlaneMappings
    ensures MovementOf(lib, options, orientation, local, keys).rotationPlanes ==
      options.rotationPlaneMappings
    ensures MovementOf(lib, options, orientation, local, keys).velocityLerp == options.velocityLerp
    ensures MovementOf(lib, options, orientation, local, keys).rotationalVelocityLerp ==
      options.rotationalVelocityLerp
  {
  }

  /** Off local axes, the four tables move along their own axes unchanged:
      each is a basis vector, which snapping keeps. */
  lemma TableAxesOffLocal(orientation: Matrix)
    ensures AxisUsed(orientation, false, Regular().horizontalAxis) == Basis(X_INDEX)
    ensures AxisUsed(orientation, false, Regular().verticalAxis) == Basis(Y_INDEX)
    ensures AxisUsed(orientation, false, Julia().horizontalAxis) == Basis(Z_INDEX)
    ensures AxisUsed(orientation, false, Julia().verticalAxis) == Basis(W_INDEX)
    ensures AxisUsed(orientation, false, Exponent().horizontalAxis) == Basis(V_INDEX)
    ensures AxisUsed(orientation, false, Exponent().verticalAxis) == Basis(U_INDEX)
    ensures AxisUsed(orientation, false, JuliaToExponent().horizontalAxis) == Basis(V_INDEX)
    ensures AxisUsed(orientation, false, JuliaToExponent().verticalAxis) == Basis(U_INDEX)
  {
  }

  /** On orthonormal axes, a direction key held and not cancelled moves at
      exactly the mode's speed, diagonals included: the normalisation makes
      the direction a unit one, and the axes keep its length. */
  lemma MovementSpeed(lib: MathLib, options: InputModeOptions, orientation: Matrix,
    local: bool, keys: Keys)
    requires RootAt(lib, KeyDirection(keys).SquaredLength()) && RootAt(lib, 1.0)
    requires keys.left != keys.right || keys.up != keys.down
    requires var h, v := AxisUsed(orientation, local, options.horizontalAxis),
        AxisUsed(orientation, local, options.verticalAxis);
      h.Dot(h) == 1.0 && v.Dot(v) == 1.0 && h.Dot(v) == 0.0
    ensures var t := MovementOf(lib, options, orientation, local, keys).targetVelocity;
      t.Dot(t) == options.moveSpeed * options.moveSpeed
  {
    var h := AxisUsed(orientation, local, options.horizontalAxis);
    var v := AxisUsed(orientation, local, options.verticalAxis);
    var d := MoveDirection(lib, keys);
    assert MovementOf(lib, options, orientation, local, keys) == MovementFrom(options, h, v, d, Secondary(keys));
    MoveDirectionSquaredUnit(lib, keys);
    OrthonormalSpeed(options, h, v, d, Secondary(keys));
  }

  /** A direction key held and not cancelled gives a direction of squared
      length 1. */
  lemma MoveDirectionSquaredUnit(lib: MathLib, keys: Keys)
    requires RootAt(lib, KeyDirection(keys).SquaredLength()) && RootAt(lib, 1.0)
    requires keys.left != keys.right || keys.up != keys.down
    ensures MoveDirection(lib, keys).SquaredLength() == 1.0
  {
    var k := KeyDirection(keys);
    assert k != Vector2.Zero();
    Vector2.SquaredLengthPositive(k);
    SqrtPositive(lib, k.SquaredLength());
    Vector2.NormalizeSquaredUnit(lib, k);
  }

  /** On orthonormal axes a unit direction gives a target velocity whose
      squared length is the speed's square. */
  lemma OrthonormalSpeed(options: InputModeOptions, h: Vec6, v: Vec6, d: Vec2, secondary: real)
    requires h.Dot(h) == 1.0 && v.Dot(v) == 1.0 && h.Dot(v) == 0.0
    requires d.SquaredLength() == 1.0
    ensures var t := MovementFrom(options, h, v, d, secondary).targetVelocity;
      t.Dot(t) == options.moveSpeed * options.moveSpeed
  {
    UnitCombinationSpeed(h, v, d.x, d.y, options.moveSpeed);
  }

  /** Off local axes, every one of the four modes moves at its own speed
      whenever a direction key is held and not cancelled. */
  lemma TableMovementSpeed(lib: MathLib, options: InputModeOptions, orientation: Matrix, keys: Keys)
    requires options == Regular() || options == Julia() || options == Exponent() || options == JuliaToExponent()
    requires RootAt(lib, KeyDirection(keys).SquaredLength()) && RootAt(lib, 1.0)
    requires keys.left != keys.right || keys.up != keys.down
    ensures var t := MovementOf(lib, options, orientation, false, keys).targetVelocity;
      t.Dot(t) == options.moveSpeed * options.moveSpeed
  {
    TableAxesOffLocal(orientation);
    var h := AxisUsed(orientation, false, options.horizontalAxis);
    var v := AxisUsed(orientation, false, options.verticalAxis);
    if options == Regular() {
      SignedBasisOrthonormal(h, v, X_INDEX, Y_INDEX);
    } else if options == Julia() {
      SignedBasisOrthonormal(h, v, Z_INDEX, W_INDEX);
    } else {
      SignedBasisOrthonormal(h, v, V_INDEX, U_INDEX);
    }
    MovementSpeed(lib, options, orientation, false, keys);
  }

  /** Jumping and sneaking drive zoom and rotation at the mode's own speeds,
      in opposite senses, and together (or neither) drive nothing. */
  lemma SecondaryTargets(lib: MathLib, options: InputModeOptions, orientation: Matrix,
    local: bool, keys: Keys)
    ensures var m := MovementOf(lib, options, orientation, local, keys);
      keys.jumping == keys.sneaking ==>
        m.targetZoomVelocity == 0.0 && m.targetRotationVelocity.amount == 0.0
    ensures var m := MovementOf(lib, options, orientation, local, keys);
      keys.jumping && !keys.sneaking ==>
        m.targetZoomVelocity == options.zoomSpeed && m.targetRotationVelocity.amount == options.rotateSpeed
    ensures var m := MovementOf(lib, options, orientation, local, keys);
      keys.sneaking && !keys.jumping ==>
        m.targetZoomVelocity == -options.zoomSpeed && m.targetRotationVelocity.amount == -options.rotateSpeed
  {
    MovementTargets(lib, options, orientation, local, keys);
    SecondaryValues(keys);
  }

  /** On local axes under the identity orientation, the axes used are the
      option axes snapped, as off local axes. */
  lemma IdentityOrientationAxes(axis: Vec6)
    ensures AxisUsed(IdentityEntries(), true, axis) == AxisUsed(IdentityEntries(), false, axis)
  {
    MulVecIdentity(axis);
  }

  /** The movement of one frame under `options`: the key handling of
      `getMovement`, as a step-by-step computation. */
  method ComputeMovement(lib: MathLib, options: InputModeOptions, orientation: Matrix,
    moveOnLocalAxes: bool, keys: Keys) returns (m: Movement)
    ensures m == MovementOf(lib, options, orientation, moveOnLocalAxes, keys)
  {
    var moveDirection, secondaryMovement := ReadKeys(keys);
    if moveDirection.Length(lib) > 0.0 {
      moveDirection := moveDirection.Normalize(lib);
    }
    assert moveDirection == MoveDirection(lib, keys);
    var horizontalAxis := SnapToCardinalDirection(
      if moveOnLocalAxes then MulVec(orientation, options.horizontalAxis) else options.horizontalAxis);
    var verticalAxis := SnapToCardinalDirection(
      if moveOnLocalAxes then MulVec(orientation, options.verticalAxis) else options.verticalAxis);
    assert horizontalAxis == AxisUsed(orientation, moveOnLocalAxes, options.horizontalAxis);
    assert verticalAxis == AxisUsed(orientation, moveOnLocalAxes, options.verticalAxis);
    m := MovementFrom(options, horizontalAxis, verticalAxis, moveDirection, secondaryMovement);
  }

  /** An input mode: the options of the movement tool in use. */
  class InputMode {
    var options: InputModeOptions

    constructor (options: InputModeOptions)
      ensures this.options == options
    {
      this.options := options;
    }

    /** `getMovement`, given the state's orientation and local-axes flag and
        the frame's key snapshot. */
    method GetMovement(lib: MathLib, orientation: Matrix, moveOnLocalAxes: bool, keys: Keys)
      returns (m: Movement)
      ensures m == MovementOf(lib, options, orientation, moveOnLocalAxes, keys)
    {
      m := ComputeMovement(lib, options, orientation, moveOnLocalAxes, keys);
    }
  }
}
