# A verified model of the 6-D Mandelbrot/Julia explorer's camera core

This project models, in Dafny, the camera and state logic of TheCymaera's
six-dimensional Mandelbrot/Julia explorer, and proves properties of it. The
explorer treats the Mandelbrot set, the Julia sets and the exponent of
`z^e + c` as one 6-D space over the axes x, y (the Mandelbrot plane), z, w
(the Julia plane) and v, u (the exponent plane). A camera flies through that
space.

The model covers:

- **The linear-algebra kernel.** `Vec2`, the legacy `Vec2`/`Vec3` of
  `Vector.ts`, `Vec6`, and `Mat6`. `Mat6` is a class over a column-major
  `array<real>` of 36 entries; its `identity`, `multiply` and
  `multiplyVec6` are loops over that buffer, and `set` is one write into it.
- **Scalar helpers.** `lerp`, `expLerpFactor` and the easing curves.
- **The orientation bookkeeping.** The three plane-mapping tables; the
  `SimplifiedRotation` class with its three angles, `wrapAngle`-based
  `normalize` and memoised `toMatrix`; and the state's
  `rotateByPlaneMappings`.
- **The per-frame state machine.** `Mandelbrot6DState.update` runs, in order:
  - delta time;
  - the input targets of `InputMode.getMovement`;
  - exponential smoothing;
  - integration of zoom, position and rotation;
  - the deadzone;
  - the behaviour list (`MandelbrotLerp` and `CameraController`), then its
    compaction;
  - re-deriving the orientation from the simplified angles;
  - the cardinal snapping of the right and up vectors.
- **Presets.** Decoding and encoding their JSON form, snapshotting the state,
  `apply`/`isApplied`, and `lerp`.
- **Two utilities.** The one-level shader `#include_shader(...)`
  preprocessor, and `deepEquals`.

Numbers are exact `real`s. Where the code depends on IEEE special values,
they are written out as the datatype `JsValues.Num`:
`Finite(r) | PosInfinity | NegInfinity | NaN`. Those places are an infinite
escape radius, `x || Infinity`, `===` on NaN, and division by a zero zoom
level.

`Math.cos/sin/exp/pow/sqrt` are the fields of a `MathLib` record passed as
a parameter. A property that needs one of them states the fact it relies
on as a precondition, for example:

- `ExpAtZero`: exp(0) = 1;
- `ExpDecays`: 0 < exp(x) ≤ 1 for x ≤ 0;
- `RootAt(lib, x)`: sqrt(x)·sqrt(x) = x;
- `PowOfTwoPositive`: 2^x > 0;
- `CubeAt`: pow(x, 3) = x·x·x.

JavaScript values of type `unknown` are the datatype `JsValues.Value`:
`undefined`, `null`, booleans, numbers, strings, arrays, and plain objects as
maps from key to value. A thrown `Error` is an `Err(message)` of
`Wrappers.Result`, with the source's message.

Modules follow the source files:

| Dafny file | module | source |
|---|---|---|
| numbers.dfy | `Numbers` | src/math/utilities.ts |
| easing.dfy | `Easing` | src/math/easing.ts |
| vec2.dfy | `Vector2` | src/math/Vec2.ts |
| vector.dfy | `LegacyVector` | src/math/Vector.ts |
| vec6.dfy | `Vector6` | src/math/Vec6.ts |
| mat6.dfy | `Matrix6` | src/math/Mat6.ts |
| plane_mapping.dfy | `PlaneMappings` | src/mandelbrot/PlaneMapping.ts |
| simplified_rotation.dfy | `SimplifiedRotations` | src/mandelbrot/SimplifiedRotation.svelte.ts |
| cardinal.dfy | `CardinalSnap` | `snapToCardinalDirection` of src/mandelbrot/MandelbrotState.svelte.ts |
| input_modes.dfy | `InputModes` | src/mandelbrot/inputModes.svelte.ts |
| mandelbrot_state.dfy | `MandelbrotState` | src/mandelbrot/MandelbrotState.svelte.ts, CameraController.svelte.ts, MandelbrotLerp.ts |
| presets.dfy | `Presets` | src/mandelbrot/Preset.ts |
| shader.dfy | `ShaderPreprocessor` | src/utilities/shaderPreprocessor.ts |
| deep_equals.dfy | `DeepEquals` | src/utilities/deepEquals.ts |

`wrappers.dfy`, `js_math.dfy` and `js_values.dfy` hold the shared pieces:

- `Option`/`Result`;
- the `MathLib` record, `Math.round`, truncated `%`, and small arithmetic
  lemmas;
- the JavaScript value model.

`MandelbrotLerp` and `CameraController` share one module with the state.
They write to the state and the state runs them, and Dafny modules cannot
import each other in a cycle.

## Model

| member | source | states |
|---|---|---|
| Numbers.Lerp | src/math/utilities.ts:11-13 | `lerp(a,b,0) = a`, `lerp(a,b,1) = b`, and `lerp(a,a,t) = a` for every `t` |
| Numbers.LerpBetween | src/math/utilities.ts:11-13 | for `t` in [0, 1] the result lies between `a` and `b` |
| Numbers.LerpAffine | src/math/utilities.ts:12 | `lerp(a,b,t) - a = t·(b - a)`, with no clamping of `t` |
| Numbers.LerpRemainingGap | src/math/utilities.ts:12 | the gap left to `b` is `(1 - t)·(b - a)` |
| Numbers.ExpLerpFactor | src/math/utilities.ts:4-6 | given exp(0) = 1, the factor is 0 when the rate or the time is 0; given that exp decays, it lies in [0, 1) whenever `rate·dt ≥ 0` |
| Easing.EasingEndpoints | src/math/easing.ts:1-11 | `linear` maps 0 to 0 and 1 to 1; `easeInOutBezier` and `easeInOutCubic` give 0 at 0, 1 at 1 and 0.5 at 0.5, where both branches of the cubic meet |
| Easing.EaseInOutBezier | src/math/easing.ts:5-7 | maps [0, 1] into [0, 1] |
| Easing.BezierSymmetric | src/math/easing.ts:6 | `easeInOutBezier(1 - t) = 1 - easeInOutBezier(t)` |
| Easing.EaseInOutCubic | src/math/easing.ts:9-11 | maps [0, 1] into [0, 1], given pow(x, 3) = x³ at the point used |
| Vector2.New | src/math/Vec2.ts:5 | the constructor takes the components given, and 0 for those omitted |
| Vector2.FromMaybeArray | src/math/Vec2.ts:11-17 | accepts exactly an array of two finite numbers, yields them in order, and otherwise fails with "Invalid Vec2 array" |
| Vector2.FromMaybeArrayToArray | src/math/Vec2.ts:11-17 | parsing `toArray()` of any vector gives the vector back |
| Vector2.Vec2.ToArray | src/math/Vec2.ts:55-57 | the array is `[x, y]` |
| Vector2.Vec2.Clone | src/math/Vec2.ts:23-25 | the clone has the same components |
| Vector2.AddSubtract | src/math/Vec2.ts:27-33 | `v.add(w).subtract(w) = v` |
| Vector2.MultiplySquaredLength | src/math/Vec2.ts:35-37 | scaling by `s` scales the squared length by `s²` |
| Vector2.MultiplyLength | src/math/Vec2.ts:35-41 | scaling by `s` scales the length by `abs(s)` |
| Vector2.SquaredLengthPositive | src/math/Vec2.ts:39-41 | the squared length is never negative, and is 0 only for the zero vector |
| Vector2.Vec2.Normalize | src/math/Vec2.ts:43-46 | a vector of length 0 gives the zero vector; any other is divided by its length |
| Vector2.NormalizeZero | src/math/Vec2.ts:43-46 | the zero vector normalises to itself, with no division by 0 |
| Vector2.NormalizeUnit | src/math/Vec2.ts:43-46 | a nonzero vector normalises to length 1 |
| Vector2.Vec2.Mix | src/math/Vec2.ts:48-53 | `mix(o, 0)` is the vector itself and `mix(o, 1)` is `o` |
| LegacyVector.Vec2Defaults | src/math/Vector.ts:5 | the legacy 2-D constructor fills omitted components with 0 |
| LegacyVector.New | src/math/Vector.ts:56 | the 3-D constructor takes the components given, and 0 for those omitted |
| LegacyVector.Vec3Defaults | src/math/Vector.ts:56-64 | `new Vec3()`, `new Vec3(x)` and `new Vec3(x, y)` fill the rest with 0, and `new Vec3()` is `zero()` |
| LegacyVector.Vec3.Clone | src/math/Vector.ts:66-68 | the clone has the same components |
| LegacyVector.AddSubtract | src/math/Vector.ts:70-76 | `a.add(b).subtract(b) = a` |
| LegacyVector.AddThenSubtract | src/math/Vector.ts:70-76 | `v.add(w).subtract(v) = w` |
| LegacyVector.SubtractSelf | src/math/Vector.ts:74-76 | `v.subtract(v)` is the zero vector |
| LegacyVector.MultiplyZero | src/math/Vector.ts:78-80 | scaling the zero vector gives the zero vector |
| LegacyVector.MultiplyMultiply | src/math/Vector.ts:78-80 | scaling by `a` and then by `b` is scaling by `a·b` |
| LegacyVector.MultiplySquaredLength | src/math/Vector.ts:78-84 | scaling by `s` scales the squared length by `s²` |
| LegacyVector.MultiplyLength | src/math/Vector.ts:78-84 | scaling by `s` scales the length by `abs(s)` |
| LegacyVector.SquaredLengthPositive | src/math/Vector.ts:82-84 | the squared length is never negative, and is 0 only for the zero vector |
| LegacyVector.ZeroLength | src/math/Vector.ts:82-84 | the zero vector has length 0, given sqrt(0) = 0 |
| LegacyVector.LengthPositive | src/math/Vector.ts:82-84 | a nonzero vector has positive length |
| LegacyVector.Vec3.Normalize | src/math/Vector.ts:86-89 | a vector of length 0 gives the zero vector; any other is divided by its length |
| LegacyVector.NormalizeZero | src/math/Vector.ts:86-89 | the zero vector normalises to itself |
| LegacyVector.NormalizeSquaredLength | src/math/Vector.ts:86-89 | a nonzero vector normalises to squared length 1 |
| LegacyVector.NormalizeUnit | src/math/Vector.ts:86-89 | a nonzero vector normalises to length 1 |
| LegacyVector.Vec3.DistanceTo | src/math/Vector.ts:91-97 | `distanceTo` |
| LegacyVector.DistanceIsDifferenceLength | src/math/Vector.ts:91-97 | `distanceTo(t)` is the length of `t - v` |
| LegacyVector.Vec3.Mix | src/math/Vector.ts:99-105 | `mix(o, 0)` is the vector itself and `mix(o, 1)` is `o` |
| LegacyVector.Vec3.MoveTowards | src/math/Vector.ts:107-113 | `moveTowards`: the capped step towards the target, landing on it when the cap reaches it; stated by the lemmas below |
| LegacyVector.MoveTowardsSelf | src/math/Vector.ts:107-110 | moving towards the point itself returns the point, whatever the step cap |
| LegacyVector.MoveTowardsDirection | src/math/Vector.ts:107-113 | for a distinct target, the step is `target - v` scaled by `min(maxDistance, distance) / distance` |
| LegacyVector.MoveTowardsDistance | src/math/Vector.ts:107-113 | the step has length `abs(min(maxDistance, distance))` |
| LegacyVector.MoveTowardsArrives | src/math/Vector.ts:107-113 | a step cap of at least the distance lands exactly on the target |
| LegacyVector.Vec3.Xy | src/math/Vector.ts:115-117 | keeps x and y and drops z |
| LegacyVector.Vec3.ToArray | src/math/Vector.ts:119-121 | the array is `[x, y, z]` |
| Vector6.FromMaybeArray | src/math/Vec6.ts:18-24 | accepts exactly an array of six finite numbers, yields them in order, and otherwise fails with "Invalid Vec6 array" |
| Vector6.FromMaybeArrayToArray | src/math/Vec6.ts:18-28 | parsing `toArray()` of any vector gives the vector back |
| Vector6.Vec6.ToArray | src/math/Vec6.ts:26-28 | six entries, in the order x, y, z, w, v, u |
| Vector6.AddCommutative | src/math/Vec6.ts:30-39 | `a.add(b) = b.add(a)` |
| Vector6.AddSubtract | src/math/Vec6.ts:30-39 | `a.add(b).subtract(b) = a` |
| Vector6.Vec6.Mix | src/math/Vec6.ts:41-50 | `mix(o, 0)` is the vector itself and `mix(o, 1)` is `o` |
| Vector6.Vec6.Lerp | src/mandelbrot/MandelbrotLerp.ts:38 | `lerp`, used by the transition, meets its ends at 0 and 1 |
| Vector6.DotSymmetric | src/math/Vec6.ts:52-55 | `a.dot(b) = b.dot(a)` |
| Vector6.DotSelf | src/math/Vec6.ts:52-55 | `p.dot(p) ≥ 0`, and it is 0 only for the zero vector |
| Vector6.ScaleDot | src/math/Vec6.ts:52-55 | scaling by `s` scales `p.dot(p)` by `s²` |
| Vector6.Vec6.Normalize | src/math/Vec6.ts:61-65 | a vector of length 0 gives the zero vector; any other is divided by its length |
| Vector6.NormalizeZero | src/math/Vec6.ts:61-65 | the zero vector normalises to itself |
| Vector6.NormalizeUnit | src/math/Vec6.ts:57-65 | a nonzero vector normalises to squared length 1 and to length 1 |
| Vector6.ScaleOneZero | src/math/Vec6.ts:67-76 | `scale(1)` is the identity and `scale(0)` is the zero vector |
| Vector6.BasisComponents | src/math/Vec6.ts:96-106 | the signed basis vectors are ±1 on their own axis and 0 elsewhere |
| Vector6.FromIndex | src/math/Vec6.ts:89-106 | a number equal to one of the indices 0 to 5 gives that axis's basis vector; any other number, fractional, infinite or NaN, fails with "Invalid index" |
| Vector6.FromIndexRejects | src/math/Vec6.ts:96-106 | 1.5, 6 and NaN are all rejected |
| Matrix6.SlotOfAxes | src/math/Mat6.ts:48-57 | every storage slot k in 0..35 is the slot `j·6 + i` of exactly the pair `(k % 6, k / 6)` |
| Matrix6.SlotInjective | src/math/Mat6.ts:48-57 | the column-major layout `j·6 + i` sends distinct pairs to distinct slots in 0..35 |
| Matrix6.Mat6.Identity | src/math/Mat6.ts:10-21 | `new Mat6()` holds the identity |
| Matrix6.Mat6.FromValues | src/math/Mat6.ts:10-21 | `new Mat6(values)` with 36 values holds those values in order |
| Matrix6.Mat6.New | src/math/Mat6.ts:10-21 | the constructor succeeds exactly when no values or exactly 36 values are given, giving the identity or the values; otherwise it fails with "Mat6 constructor requires exactly 36 values" |
| Matrix6.EntriesFromMaybeArray | src/math/Mat6.ts:23-28 | accepts exactly an array of 36 finite numbers and keeps them in order; otherwise fails with "Invalid Mat6 array" |
| Matrix6.EntriesFromMaybeArrayToArray | src/math/Mat6.ts:23-32 | parsing `toArray()` of any matrix gives its entries back |
| Matrix6.Mat6.FromMaybeArray | src/math/Mat6.ts:23-32 | a fresh matrix whose `toArray()` is the accepted array, with the same error otherwise |
| Matrix6.IdentityAt | src/math/Mat6.ts:37-43 | the identity has 1 on the diagonal and 0 elsewhere |
| Matrix6.Mat6.SetIdentity | src/math/Mat6.ts:37-43 | `identity()` overwrites the buffer with the identity and returns the same object |
| Matrix6.Mat6.Get | src/math/Mat6.ts:48-50 | for i, j in 0..5, `get(i, j)` reads row i, column j |
| Matrix6.WriteAt | src/math/Mat6.ts:55-57 | after writing x at (i, j), entry (i, j) reads x and every other entry is unchanged |
| Matrix6.Mat6.Set | src/math/Mat6.ts:55-57 | the buffer becomes the old entries with slot `j·6 + i` replaced |
| Matrix6.MulVec | src/math/Mat6.ts:62-81 | the matrix-vector product `multiplyVec6` computes |
| Matrix6.MulVecIdentity | src/math/Mat6.ts:62-81 | the identity times any vector is that vector |
| Matrix6.Mat6.MultiplyVec6 | src/math/Mat6.ts:62-81 | the double loop computes the matrix-vector product `Σj m(i, j)·p[j]` |
| Matrix6.MatMul | src/math/Mat6.ts:86-98 | entry (i, j) of the product is `Σk a(i, k)·b(k, j)` |
| Matrix6.MatMulIdentity | src/math/Mat6.ts:86-98 | the identity is a left and a right neutral element of the product |
| Matrix6.Mat6.Multiply | src/math/Mat6.ts:86-98 | the triple loop fills a fresh matrix with the product of this and `other` |
| Matrix6.PlaneRotation | src/math/Mat6.ts:106-118 | the entries `createPlaneRotation` writes |
| Matrix6.PlaneRotationAt | src/math/Mat6.ts:106-118 | for a1 ≠ a2 the rotation is the identity except cos at (a1, a1) and (a2, a2), -sin at (a1, a2) and sin at (a2, a1) |
| Matrix6.Mat6.CreatePlaneRotation | src/math/Mat6.ts:106-118 | a fresh matrix holding that plane rotation for cos(angle) and sin(angle) |
| Matrix6.Mat6.Clone | src/math/Mat6.ts:123-125 | a fresh matrix on a fresh buffer with the same entries |
| Matrix6.CloneThenSet | src/math/Mat6.ts:123-125 | a `set` on a clone changes the clone only; the original keeps its entries |
| PlaneMappings.TablesWellFormed | src/mandelbrot/PlaneMapping.ts:9-22 | each table has two mappings with four distinct axes, the lower axis first |
| PlaneMappings.ContainsExactly | src/mandelbrot/PlaneMapping.ts:9-22 | the tables are exactly [(0,2),(1,3)], [(0,4),(1,5)] and [(2,4),(3,5)] |
| PlaneMappings.TablesDisjoint | src/mandelbrot/PlaneMapping.ts:9-22 | an axis pair belongs to at most one table |
| PlaneMappings.ContainsOwn | src/mandelbrot/MandelbrotState.svelte.ts:119-121 | the `some(...)` test finds each of a table's own mappings |
| SimplifiedRotations.SimplifiedRotation.constructor | src/mandelbrot/SimplifiedRotation.svelte.ts:18-22 | the angles are the given ones, with an empty cache |
| SimplifiedRotations.FromMaybeObject | src/mandelbrot/SimplifiedRotation.svelte.ts:24-33 | a falsy value or a non-object fails with "Invalid SimplifiedRotation object"; a truthy object is accepted exactly when none of the three angle fields holds a non-finite number; each angle is then its field when that is a number, and 0 otherwise |
| SimplifiedRotations.FromMaybeObjectCases | src/mandelbrot/SimplifiedRotation.svelte.ts:24-33 | `null` and non-objects fail; an object with no numeric fields gives three zero angles |
| SimplifiedRotations.SimplifiedRotation.ToMatrix | src/mandelbrot/SimplifiedRotation.svelte.ts:36-48 | the result is always the product (z,w → v,u)·(x,y → v,u)·(x,y → z,w) of the current angles; the cache then holds those angles; a cache holding equal angles is kept as it was |
| SimplifiedRotations.Angles.Equals | src/mandelbrot/SimplifiedRotation.svelte.ts:50-54 | `equals`: the three angles compared with `===` |
| SimplifiedRotations.Angles.Lerp | src/mandelbrot/SimplifiedRotation.svelte.ts:56-62 | `lerp`: each angle interpolated separately |
| SimplifiedRotations.Angles.Normalized | src/mandelbrot/SimplifiedRotation.svelte.ts:64-68 | the angles `normalize` leaves behind, each wrapped |
| SimplifiedRotations.AnglesMatrix | src/mandelbrot/SimplifiedRotation.svelte.ts:36-48 | the matrix `toMatrix` computes, the product of the three plane mappings in source order |
| SimplifiedRotations.EqualsIsEquality | src/mandelbrot/SimplifiedRotation.svelte.ts:50-54 | `equals` is exact equality of the three angles, so it is reflexive and symmetric |
| SimplifiedRotations.LerpEndpoints | src/mandelbrot/SimplifiedRotation.svelte.ts:56-62 | `lerp(target, 0)` is the start and `lerp(target, 1)` is the target, angle by angle, with no shortest-arc handling |
| SimplifiedRotations.SimplifiedRotation.Normalize | src/mandelbrot/SimplifiedRotation.svelte.ts:64-68 | each stored angle is replaced by its wrapped value, and the cache is left alone |
| SimplifiedRotations.NormalizedTurns | src/mandelbrot/SimplifiedRotation.svelte.ts:64-73 | `normalize` changes each angle by a whole number of turns of 2π |
| SimplifiedRotations.NormalizedIdempotent | src/mandelbrot/SimplifiedRotation.svelte.ts:64-73 | normalising twice is normalising once |
| SimplifiedRotations.WrapAngle | src/mandelbrot/SimplifiedRotation.svelte.ts:71-73 | `wrapAngle`, with JavaScript's truncating `%`; stated by the four lemmas below |
| SimplifiedRotations.WrapAngleRange | src/mandelbrot/SimplifiedRotation.svelte.ts:71-73 | an angle of at least -π is wrapped into [-π, π) |
| SimplifiedRotations.WrapAngleBelowRange | src/mandelbrot/SimplifiedRotation.svelte.ts:71-73 | because `%` keeps the sign of the dividend, an angle in (-3π, -π) comes back unchanged, still below -π |
| SimplifiedRotations.WrapAngleTurns | src/mandelbrot/SimplifiedRotation.svelte.ts:71-73 | wrapping shifts any angle by a whole number of turns |
| SimplifiedRotations.WrapAngleIdempotent | src/mandelbrot/SimplifiedRotation.svelte.ts:71-73 | wrapping twice is wrapping once, for every angle |
| SimplifiedRotations.SimplifiedRotation.SetAngles | src/mandelbrot/MandelbrotLerp.ts:33 | the rotation object takes the given angles |
| CardinalSnap.SnapToCardinalDirection | src/mandelbrot/MandelbrotState.svelte.ts:211-225 | `snapToCardinalDirection`: the twelve tests in source order; its meaning is stated by the lemmas below |
| CardinalSnap.SnapIsSearch | src/mandelbrot/MandelbrotState.svelte.ts:211-225 | the twelve tests, written out, are a search over the axes from x to u |
| CardinalSnap.SnapFirstUp | src/mandelbrot/MandelbrotState.svelte.ts:211-225 | if no earlier axis snaps and axis i is above `1 - threshold`, the result is the basis vector of i |
| CardinalSnap.SnapFirstDown | src/mandelbrot/MandelbrotState.svelte.ts:211-225 | if no earlier axis snaps and axis i is below `-1 + threshold` only, the result is the negated basis vector of i |
| CardinalSnap.SnapNone | src/mandelbrot/MandelbrotState.svelte.ts:224 | when no component is near ±1, the input comes back unchanged |
| CardinalSnap.SnapResult | src/mandelbrot/MandelbrotState.svelte.ts:211-225 | the result is the input or a signed basis vector |
| CardinalSnap.SnapBasis | src/mandelbrot/MandelbrotState.svelte.ts:211-225 | for a threshold in (0, 1], each signed basis vector snaps to itself |
| CardinalSnap.SnapSignedUnit | src/mandelbrot/MandelbrotState.svelte.ts:211-225 | any vector that is ±1 on one axis and 0 elsewhere snaps to itself |
| CardinalSnap.SnapIdempotent | src/mandelbrot/MandelbrotState.svelte.ts:211-225 | for a threshold in (0, 1], snapping twice is snapping once |
| InputModes.CanMoveJulia | src/mandelbrot/inputModes.svelte.ts:76-78 | `canMoveJulia`: the axes are exactly z and w |
| InputModes.CanMoveExponent | src/mandelbrot/inputModes.svelte.ts:80-82 | `canMoveExponent`: the axes are exactly v and u |
| InputModes.CanMoveTables | src/mandelbrot/inputModes.svelte.ts:18-82 | REGULAR moves neither plane, JULIA moves the Julia plane, and EXPONENT and JULIA_TO_EXPONENT move the exponent plane |
| InputModes.CanMoveExclusive | src/mandelbrot/inputModes.svelte.ts:76-82 | no options can move both the Julia and the exponent plane |
| InputModes.InputMode.constructor | src/mandelbrot/inputModes.svelte.ts:72-74 | the mode holds the given options |
| InputModes.KeyDirectionValues | src/mandelbrot/inputModes.svelte.ts:89-93 | opposite keys cancel; x is `right - left` and y is `up - down`, each in {-1, 0, 1} |
| InputModes.SecondaryValues | src/mandelbrot/inputModes.svelte.ts:95-96 | the secondary input is `jumping - sneaking`, in {-1, 0, 1} |
| InputModes.ReadKeys | src/mandelbrot/inputModes.svelte.ts:86-96 | the `+=`/`-=` steps compute the key direction and the secondary input above |
| InputModes.NormalizedDirectionUnit | src/mandelbrot/inputModes.svelte.ts:99-101 | a nonzero direction becomes unit length; only the zero direction stays zero |
| InputModes.MoveDirectionUnit | src/mandelbrot/inputModes.svelte.ts:89-101 | with a movement key held and not cancelled, the direction has length 1; otherwise it is zero |
| InputModes.TableAxesOffLocal | src/mandelbrot/inputModes.svelte.ts:103-109 | off local axes, the snapped axes of REGULAR, JULIA, EXPONENT and JULIA_TO_EXPONENT are (x, y), (z, w), (v, u) and (v, u) |
| InputModes.IdentityOrientationAxes | src/mandelbrot/inputModes.svelte.ts:103-109 | under the identity orientation, local and fixed axes agree |
| InputModes.NoDirectionNoVelocity | src/mandelbrot/inputModes.svelte.ts:111-114 | with no movement key, or cancelling keys, the target velocity is zero |
| InputModes.ZeroDirectionVelocity | src/mandelbrot/inputModes.svelte.ts:111-114 | the zero direction gives a zero target velocity, whatever the axes |
| InputModes.MoveDirectionSquaredUnit | src/mandelbrot/inputModes.svelte.ts:89-101 | with a movement key held and not cancelled, diagonals included, the normalised direction has squared length 1 |
| InputModes.OrthonormalSpeed | src/mandelbrot/inputModes.svelte.ts:111-114 | on orthonormal axes a unit direction gives a target velocity of squared length `moveSpeed²` |
| InputModes.MovementSpeed | src/mandelbrot/inputModes.svelte.ts:99-114 | whenever the snapped axes are orthonormal and a movement key is held and not cancelled, the target velocity's squared length is `moveSpeed²`: diagonal movement is no faster than straight movement |
| InputModes.TableMovementSpeed | src/mandelbrot/inputModes.svelte.ts:18-114 | off local axes, each of the four modes moves at exactly its own speed (0.6 or 0.3) whenever a movement key is held and not cancelled |
| InputModes.SecondaryTargets | src/mandelbrot/inputModes.svelte.ts:95-117 | with jump and sneak both held or both released, the target zoom velocity and rotation amount are 0; jump alone gives `zoomSpeed` and `rotateSpeed`; sneak alone gives their negations |
| InputModes.MovementOf | src/mandelbrot/inputModes.svelte.ts:84-130 | the movement `getMovement` builds, specified by the lemmas above and computed by the methods below |
| InputModes.ComputeMovement | src/mandelbrot/inputModes.svelte.ts:84-130 | the imperative movement computation returns the movement specified above |
| InputModes.InputMode.GetMovement | src/mandelbrot/inputModes.svelte.ts:84-130 | `getMovement` returns the movement for the mode's own options |
| MandelbrotState.DeltaTime | src/mandelbrot/MandelbrotState.svelte.ts:140 | 0 on the first frame (`lastTime` 0); otherwise `(currentTime - lastTime)/1000` |
| MandelbrotState.Smoothed | src/mandelbrot/MandelbrotState.svelte.ts:150-157 | the velocities after exponential smoothing towards the targets |
| MandelbrotState.SmoothedZeroTime | src/mandelbrot/MandelbrotState.svelte.ts:150-157 | given exp(0) = 1, a zero frame time leaves every velocity as it was, and only the plane mappings follow the target |
| MandelbrotState.SmoothedBetween | src/mandelbrot/MandelbrotState.svelte.ts:150-157 | given that exp decays, each smoothed speed lies between its old value and its target, and the zoom gap shrinks by `1 - factor` |
| MandelbrotState.Deadzoned | src/mandelbrot/MandelbrotState.svelte.ts:168-178 | the velocities after the deadzone |
| MandelbrotState.DeadzoneCases | src/mandelbrot/MandelbrotState.svelte.ts:168-178 | each velocity is zero afterwards exactly when it was zero or below 0.02 with a zero target; a nonzero target keeps the velocity; the plane mappings are kept; applying the deadzone twice is applying it once |
| MandelbrotState.Moved | src/mandelbrot/MandelbrotState.svelte.ts:160-166 | the pose after one frame of movement |
| MandelbrotState.MovedZeroTime | src/mandelbrot/CameraController.svelte.ts:143-149 | a frame of zero length leaves position, zoom, orientation and angles unchanged |
| MandelbrotState.MovedAtRest | src/mandelbrot/MandelbrotState.svelte.ts:160-166 | zero velocities leave the pose unchanged |
| MandelbrotState.MovedComposes | src/mandelbrot/MandelbrotState.svelte.ts:160-164 | at fixed velocities and zoom level, two frames of `dt1` and `dt2` move the position and the zoom exactly as one frame of `dt1 + dt2` |
| MandelbrotState.RotatedOne | src/mandelbrot/MandelbrotState.svelte.ts:105-116 | a single mapping multiplies its rotation, built with the full amount, onto the orientation from the left |
| MandelbrotState.Count | src/mandelbrot/MandelbrotState.svelte.ts:119-131 | the number of mappings whose pair lies in a table is at most the number of mappings |
| MandelbrotState.CountTables | src/mandelbrot/MandelbrotState.svelte.ts:119-121 | each full table counts 2 for itself and 0 for the other two tables |
| MandelbrotState.CountPair | src/mandelbrot/MandelbrotState.svelte.ts:119-131 | the count over a two-mapping list is the sum of the two membership tests |
| MandelbrotState.CreditFullTable | src/mandelbrot/MandelbrotState.svelte.ts:104-131 | crediting half the amount per mapping of a full table raises its angle by exactly the amount, and the other angles stay |
| MandelbrotState.CreditNothing | src/mandelbrot/MandelbrotState.svelte.ts:119-131 | an empty list of mappings credits nothing |
| MandelbrotState.RotatedOrientation | src/mandelbrot/MandelbrotState.svelte.ts:101-132 | the orientation `rotateByPlaneMappings` leaves: unchanged for a zero amount or no mappings, else one left multiplication per mapping |
| MandelbrotState.RotatedAngles | src/mandelbrot/MandelbrotState.svelte.ts:101-132 | the angles `rotateByPlaneMappings` leaves: each mapping credits `amount/count` to the angle of its table |
| MandelbrotState.RotatedAnglesTables | src/mandelbrot/MandelbrotState.svelte.ts:101-132 | rotating by any of the three tables turns that table's angle by the whole amount and leaves the other two alone |
| MandelbrotState.Mandelbrot6DState.RotateStep | src/mandelbrot/MandelbrotState.svelte.ts:106-131 | one loop pass multiplies the mapping's rotation onto the orientation from the left, and credits `normalizedAmount` to the angle of its table |
| MandelbrotState.Mandelbrot6DState.RotateByPlaneMappings | src/mandelbrot/MandelbrotState.svelte.ts:101-132 | the orientation is left-multiplied, in order, by one rotation per mapping, each built with the full amount and, on local axes, from the pre-call orientation; each angle gains `amount/count` once per mapping of its table; a zero amount or an empty list changes nothing |
| MandelbrotState.MaxIterations | src/mandelbrot/MandelbrotState.svelte.ts:93-96 | the result is at least `iterationsMin` and, when min ≤ max, at most `iterationsMax`; strictly between them it is `round(base + zoom·perZoom)` |
| MandelbrotState.IndicatorEffectiveSize | src/mandelbrot/MandelbrotState.svelte.ts:204-208 | 0 for Never, and 0 for WhenToolSelected when the tool cannot move the plane; otherwise `size / zoomLevel`, with a zero zoom level giving Infinity or NaN |
| MandelbrotState.SurvivorsSpec | src/mandelbrot/MandelbrotState.svelte.ts:184 | the filtered list holds exactly the behaviours not marked for removal, and is no longer than the original |
| MandelbrotState.SurvivorsAppend | src/mandelbrot/MandelbrotState.svelte.ts:184 | filtering distributes over concatenation, so survivors keep their order |
| MandelbrotState.Mandelbrot6DState.constructor | src/mandelbrot/MandelbrotState.svelte.ts:22-83 | the initial state: REGULAR mode; position (0,0,0,0,2,0) and zoom -2.2 of the identity Mandelbrot preset; zoom level 0; zero velocities; indicators 0.0025, shown when the tool is selected; iterations 100, 50, 100 and 5000; infinite radius; identity orientation; local moves, fixed-axis rotation and simplified rotation on; zero angles; no behaviours; `lastTime` 0 |
| MandelbrotState.Mandelbrot6DState.Update | src/mandelbrot/MandelbrotState.svelte.ts:138-196 | `lastTime` becomes the current time; the velocities are the deadzoned smoothing towards the speed-scaled targets over the frame's delta time; with simplified rotation active, the angles are normalised and the orientation is their matrix; the right and up vectors are the snapped images of x and y; the relative position is the transposed orientation times the position |
| MandelbrotState.Mandelbrot6DState.Advance | src/mandelbrot/MandelbrotState.svelte.ts:140-178 | delta time, smoothing, movement and deadzone in that order; the zoom level becomes `pow(2, zoom)`, which is positive |
| MandelbrotState.Mandelbrot6DState.Accelerate | src/mandelbrot/MandelbrotState.svelte.ts:140-157 | the delta time of the frame and the speed-scaled targets; the velocities are smoothed and the pose is untouched |
| MandelbrotState.Mandelbrot6DState.FrameMovement | src/mandelbrot/MandelbrotState.svelte.ts:144-147 | the input mode's movement with its three targets scaled by `speedScale` |
| MandelbrotState.Mandelbrot6DState.SmoothVelocities | src/mandelbrot/MandelbrotState.svelte.ts:150-157 | each velocity moves towards its target by the factor `expLerpFactor(rate/springScale, dt)` |
| MandelbrotState.Mandelbrot6DState.Move | src/mandelbrot/MandelbrotState.svelte.ts:160-178 | the pose moves by the smoothed velocities, then the deadzone is applied |
| MandelbrotState.Mandelbrot6DState.ApplyVelocities | src/mandelbrot/MandelbrotState.svelte.ts:160-166 | the pose moves by the velocities over `dt`, at the new zoom level |
| MandelbrotState.Mandelbrot6DState.Translate | src/mandelbrot/MandelbrotState.svelte.ts:160-164 | zoom gains `zoomVelocity·dt`; the zoom level becomes `pow(2, zoom)`; position gains `velocity·dt/zoomLevel` |
| MandelbrotState.Mandelbrot6DState.DeadzoneVelocities | src/mandelbrot/MandelbrotState.svelte.ts:168-178 | the velocities become their deadzoned values and the pose is untouched |
| MandelbrotState.Mandelbrot6DState.Finish | src/mandelbrot/MandelbrotState.svelte.ts:181-195 | behaviours, then orientation and axes; the velocities, zoom level and `lastTime` are untouched |
| MandelbrotState.Mandelbrot6DState.Settle | src/mandelbrot/MandelbrotState.svelte.ts:181-184 | every transition in the list advanced its elapsed time by `dt`; the list becomes its survivors, in order; with no behaviours the pose is unchanged |
| MandelbrotState.Mandelbrot6DState.RunBehaviors | src/mandelbrot/MandelbrotState.svelte.ts:181-183 | each behaviour is updated once, in order: every transition's elapsed time grows by `dt`, and a removal mark is never cleared |
| MandelbrotState.Mandelbrot6DState.RunBehavior | src/mandelbrot/MandelbrotState.svelte.ts:182 | one behaviour's `update`; a transition gains `dt` of elapsed time |
| MandelbrotState.Mandelbrot6DState.Derive | src/mandelbrot/MandelbrotState.svelte.ts:187-195 | with simplified rotation active, the angles are normalised and the orientation is their matrix, and otherwise both are untouched; the right, up and relative vectors are recomputed |
| MandelbrotState.Mandelbrot6DState.NormalizeOrientation | src/mandelbrot/MandelbrotState.svelte.ts:187-190 | with simplified rotation active, the angles are normalised (a fixed point of `normalize`) and the orientation is `toMatrix()` of them; otherwise nothing changes |
| MandelbrotState.Mandelbrot6DState.DeriveAxes | src/mandelbrot/MandelbrotState.svelte.ts:193-195 | right = snap(orientation·x), up = snap(orientation·y), relative position = transposed orientation times position |
| MandelbrotState.Mandelbrot6DState.ClearVelocities | src/mandelbrot/MandelbrotState.svelte.ts:198-202 | the three velocities become zero and the plane mappings are kept |
| MandelbrotState.Mandelbrot6DState.ZIndicatorEffectiveSize | src/mandelbrot/MandelbrotState.svelte.ts:84-86 | Never hides the z indicator; WhenToolSelected hides it in REGULAR mode and shows it, as `size / zoomLevel`, in JULIA mode; Always shows it |
| MandelbrotState.Mandelbrot6DState.EIndicatorEffectiveSize | src/mandelbrot/MandelbrotState.svelte.ts:88-90 | Never hides the exponent indicator; WhenToolSelected hides it in REGULAR and JULIA mode and shows it, as `size / zoomLevel`, in EXPONENT and JULIA_TO_EXPONENT mode; Always shows it |
| MandelbrotState.Mandelbrot6DState.MaxIterationsComputed | src/mandelbrot/MandelbrotState.svelte.ts:92-95 | the state's iteration count is at least `iterationsMin`, at most `iterationsMax` when min ≤ max, and strictly between them `round(base + zoom·perZoom)` |
| MandelbrotState.BezierFinishes | src/mandelbrot/MandelbrotLerp.ts:24-27 | with the default easing, once the elapsed time reaches the duration the eased parameter is 1, so the transition finishes |
| MandelbrotState.MandelbrotLerp.constructor | src/mandelbrot/MandelbrotLerp.ts:10-20 | start, end, duration and easing as given; no elapsed time; not marked for removal |
| MandelbrotState.MandelbrotLerp.Update | src/mandelbrot/MandelbrotLerp.ts:22-47 | elapsed time grows by `dt`; for `t = easing(min(elapsed/duration, 1))` at least 1, the transition is marked for removal, and position, zoom and the end's own kind of orientation are installed; below 1, position and zoom are interpolated by `t`, and the angles only when neither end has a matrix; the matrix is left alone; a removal mark is never cleared |
| MandelbrotState.CameraController.constructor | src/mandelbrot/CameraController.svelte.ts:70-88 | the given options, zero velocities, speed and spring scales 1, local moves on, and rotation on fixed planes |
| MandelbrotState.CameraController.Update | src/mandelbrot/CameraController.svelte.ts:98-162 | the controller's velocities are the deadzoned smoothing towards its speed-scaled targets; the state's pose moves by the smoothed velocities over `dt` at the state's unchanged zoom level |
| MandelbrotState.CameraController.Smooth | src/mandelbrot/CameraController.svelte.ts:133-141 | each velocity moves towards its target by `expLerpFactor(rate/springScale, dt)`; the plane mappings become the options' |
| MandelbrotState.CameraController.MoveState | src/mandelbrot/CameraController.svelte.ts:143-149 | the state's zoom, position, orientation and angles move by the smoothed velocities |
| MandelbrotState.CameraController.Deadzone | src/mandelbrot/CameraController.svelte.ts:151-161 | each velocity below 0.02 with a zero target becomes zero, independently |
| MandelbrotState.CameraController.ClearVelocities | src/mandelbrot/CameraController.svelte.ts:164-168 | the three velocities become zero and the plane mappings are kept |
| MandelbrotState.CameraController.CanMoveJulia | src/mandelbrot/CameraController.svelte.ts:90-92 | true exactly when the controller's axes equal z and w; then it cannot move the exponent plane |
| MandelbrotState.CameraController.CanMoveExponent | src/mandelbrot/CameraController.svelte.ts:94-96 | true exactly when the controller's axes equal v and u; then it cannot move the Julia plane |
| Presets.ParsePosition | src/mandelbrot/Preset.ts:30 | an absent `position` key gives no position; a present one must parse as a `Vec6`, or its error is the result |
| Presets.ParseZoom | src/mandelbrot/Preset.ts:31 | a zoom exactly when the key is present; a number is taken as it is |
| Presets.ParseMatrix | src/mandelbrot/Preset.ts:32 | an absent `orientationMatrix` key gives no matrix; a present one must parse as 36 finite numbers |
| Presets.ParseAngles | src/mandelbrot/Preset.ts:33 | an absent `simplifiedRotation` key gives no angles; a present one must pass `fromMaybeObject` |
| Presets.ParseRadius | src/mandelbrot/Preset.ts:34-36 | a radius exactly when the key is present; the string "Infinity" gives infinity; a number is taken as it is |
| Presets.FromMaybeJSON | src/mandelbrot/Preset.ts:26-38 | a falsy value or a non-object fails with "Invalid JSON object"; each field is present exactly when its key is; a bad position fails with the `Vec6` error |
| Presets.RadiusValue | src/mandelbrot/Preset.ts:57-59 | an infinite radius is written as the string "Infinity", and any other as its number |
| Presets.ToJSON | src/mandelbrot/Preset.ts:53-66 | one key per present field; at most one orientation key, the simplified rotation winning over the matrix; an infinite radius appears as "Infinity" |
| Presets.FromToJSON | src/mandelbrot/Preset.ts:26-66 | decoding the JSON form of any preset gives the preset back, less a matrix hidden by simplified angles, with infinity restored |
| Presets.PositionRoundTrip | src/mandelbrot/Preset.ts:30-55 | the position key reads back as the preset's position |
| Presets.OrientationRoundTrip | src/mandelbrot/Preset.ts:32-64 | the orientation keys read back as the angles, and as the matrix only when no angles hide it |
| Presets.NumbersRoundTrip | src/mandelbrot/Preset.ts:31-59 | zoom and radius read back unchanged, infinity included |
| Presets.EncodedTwice | src/mandelbrot/Preset.ts:53-66 | what survives the JSON form survives it again, with the same JSON |
| Presets.FromState | src/mandelbrot/Preset.ts:40-51 | the snapshot holds simplified angles exactly when the state's simplified rotation is active, and the matrix exactly when it is not |
| Presets.IsApplied | src/mandelbrot/Preset.ts:82-93 | `isApplied`: every present field equals the state's under `===`, with the simplified angles deciding before the matrix; used by the lemmas below |
| Presets.FromStateIsApplied | src/mandelbrot/Preset.ts:40-93 | a snapshot of a state whose radius is not NaN is applied to that state |
| Presets.NonFiniteZoomNeverApplied | src/mandelbrot/Preset.ts:84 | a preset with a non-finite zoom never counts as applied, the state's zoom being a finite number |
| Presets.Apply | src/mandelbrot/Preset.ts:68-80 | each present field is copied and each absent one kept; angles switch simplified rotation on and set the orientation to their matrix; a lone matrix switches it off and installs the matrix; neither leaves the orientation untouched; afterwards a NaN-free preset is applied |
| Presets.NumLerp | src/mandelbrot/Preset.ts:105-109 | on finite numbers, `a + (b - a)·t` |
| Presets.OrInfinity | src/mandelbrot/Preset.ts:109 | `x \|\| Infinity`: truthy numbers are kept, and 0 and NaN become infinity |
| Presets.Lerp | src/mandelbrot/Preset.ts:95-119 | for `t ≥ 1` the target itself; below 1, a field is present exactly when both presets have it, there is never a matrix, and the radius is never 0 or NaN |
| Presets.LerpAtZero | src/mandelbrot/Preset.ts:95-119 | at `t = 0`, with finite zooms and finite radii whose start is nonzero, every interpolated field equals the start's |
| Presets.LerpZeroRadius | src/mandelbrot/Preset.ts:109 | an interpolated radius of 0 becomes infinity |
| ShaderPreprocessor.FindQuote | src/utilities/shaderPreprocessor.ts:3 | the closing quote found is the first one after the opening |
| ShaderPreprocessor.MatchAt | src/utilities/shaderPreprocessor.ts:3 | a match spells `#include_shader(` with a quote, a non-empty path free of that quote, the same quote and `)`, and then consumes one `;` if there is one |
| ShaderPreprocessor.MatchAtComplete | src/utilities/shaderPreprocessor.ts:3-8 | every well-formed directive is matched, with its unquoted path |
| ShaderPreprocessor.EmptyPathNotMatched | src/utilities/shaderPreprocessor.ts:3 | an empty quoted path is not a directive |
| ShaderPreprocessor.Preprocess | src/utilities/shaderPreprocessor.ts:5-15 | a failure is always "Shader include not found: p" for a path p the loader lacks |
| ShaderPreprocessor.NoDirectiveUnchanged | src/utilities/shaderPreprocessor.ts:3-15 | text with no `#include_shader(` in it is returned unchanged |
| ShaderPreprocessor.PlainPrefixCopied | src/utilities/shaderPreprocessor.ts:5-15 | text before the first `#` is copied through as it is |
| ShaderPreprocessor.IncludeFound | src/utilities/shaderPreprocessor.ts:7-14 | a directive whose file is found becomes its begin/end marker block, and the rest is processed after it, past an optional `;` |
| ShaderPreprocessor.IncludeMissing | src/utilities/shaderPreprocessor.ts:8-12 | a directive whose file is missing fails with "Shader include not found: p", whatever follows |
| ShaderPreprocessor.SingleInclude | src/utilities/shaderPreprocessor.ts:6-14 | one level only: a lone directive becomes exactly its file's block, even when the file holds directives itself |
| ShaderPreprocessor.PreprocessFromPath | src/utilities/shaderPreprocessor.ts:20-26 | a missing entry fails with "Shader entry not found: p"; otherwise the result is `preprocessShader` of the entry |
| DeepEquals.IsRecord | src/utilities/deepEquals.ts:1-3 | `isRecord`: `typeof` object and not `null` |
| DeepEquals.DeepEquals | src/utilities/deepEquals.ts:5-19 | `deepEquals`: the key-count test, then the first record's keys one by one, else `===`; its meaning is stated by the lemmas below |
| DeepEquals.IsRecordCases | src/utilities/deepEquals.ts:1-3 | `isRecord` holds exactly for arrays and plain objects, the non-null objects |
| DeepEquals.NotRecordIsStrict | src/utilities/deepEquals.ts:6-18 | when either side is not a record, the result is `a === b` |
| DeepEquals.KeyCountsDiffer | src/utilities/deepEquals.ts:9 | records with different key counts are unequal |
| DeepEquals.ObjectsKeyByKey | src/utilities/deepEquals.ts:11-15 | with equal key counts, two objects are equal exactly when every key of the first matches the second's value there |
| DeepEquals.DeepEqualsReflexive | src/utilities/deepEquals.ts:5-19 | every value containing no NaN is deep-equal to itself |
| DeepEquals.NaNNotEqual | src/utilities/deepEquals.ts:18 | NaN is not deep-equal to itself |
| DeepEquals.NotSymmetric | src/utilities/deepEquals.ts:11-15 | only the first object's keys are read, so `{a: undefined}` equals `{b: 1}` but not the other way round |
| DeepEquals.ArrayMatchesIndexObject | src/utilities/deepEquals.ts:6-15 | an array and a plain object with the same index keys compare equal |
| JsMath.Round | src/mandelbrot/MandelbrotState.svelte.ts:94 | `Math.round(x)` is an integer within one half of x, halves going up, so it is `floor(x + 0.5)` |
| JsMath.Trunc | src/mandelbrot/SimplifiedRotation.svelte.ts:72 | truncation towards zero, the quotient behind JavaScript's `%` |
| JsValues.RealDivide | src/mandelbrot/MandelbrotState.svelte.ts:207 | division by a nonzero number is exact; dividing by 0 gives an infinity, or NaN for 0/0 |
| JsValues.NumAdd | src/mandelbrot/Preset.ts:105-109 | IEEE addition: exact on finite numbers, and NaN whenever an operand is NaN |
| JsValues.NumMul | src/mandelbrot/Preset.ts:105-109 | IEEE multiplication: exact on finite numbers, and NaN whenever an operand is NaN |
| JsValues.ToNumber | src/mandelbrot/Preset.ts:31-35 | `new Number(v).valueOf()` keeps a number as it is |
| JsValues.IndexKey | src/utilities/deepEquals.ts:7-12 | an array index's property key is its decimal digits |
| JsValues.IndexKeyInjective | src/utilities/deepEquals.ts:7-12 | distinct indices have distinct keys |
| JsValues.GetIndex | src/utilities/deepEquals.ts:12 | reading an array by an index's key gives that element |

## Left out

- Assumptions about helpers outside the shown files:
  - The shown code calls some helpers that it does not define: `Mat6.createPlaneMapping`, `Mat6.rotationFromAxisIndices`, `Mat6.rotationFromAxes` and `multiplyTransposeVec6`.
  - These are fields of the `Matrix6.Mat6Statics` record, passed as a parameter, and nothing is proved about them.
  - Other helpers that are not shown are given the obvious definitions, which are assumptions:
    - `Mat6.equals` is exact equality;
    - static `Mat6.identity()` is the identity;
    - `Vec6.X()` … `Vec6.U()` and `NEG_X()` … are the signed basis vectors;
    - `Vec6.lerp` is `mix`;
    - `Vec6.equals` is componentwise equality;
    - `isZero` is "every component 0".
  - The imported module `../math/numbers` is taken to be src/math/utilities.ts. Its `lerp` and `expLerpFactor` match that file by name and shape.
- Floating point: the model uses exact reals, with no rounding.
  - `Math.cos/sin/exp/pow/sqrt` are parameters. Only the axioms named in a member's precondition are assumed, so nothing rests on their numeric behaviour.
  - No claim is made that computed rotation matrices are orthogonal.
- The keyboard (keyMap.ts, InputMap.svelte.ts) is read through `window` listeners, which are not modelled. The six key flags are a per-frame snapshot parameter, `InputModes.Keys`.
- Rendering, WebGL, shader compilation, the shader validation script, Svelte reactivity (`$state`) and app mounting are not part of this model.
- The constant preset tables (presets.ts, orientationPresets.ts) and the legacy tables (inputModes.ts, movementPresets.ts, MovementType.ts) are not part of this model. Only the identity preset's position and zoom (src/mandelbrot/presets.ts:24-25) are used, as the state's initial values.
- `animationOffset`, `animationProgress`, `smoothingEnabled` and `smoothingRadius` are not modelled: the core code never reads them.
- Unused entry points:
  - `Preset.fromJSON` only forwards to `fromMaybeJSON`.
  - `Vec2.from`/`zero` and the legacy `from`/`zero` are modelled as `New`/`Zero`.
- Radius naming. The state declares `bailoutRadius` (src/mandelbrot/MandelbrotState.svelte.ts:63), while `Preset` reads and writes `state.escapeRadius`.
  - The model gives the state one field, `escapeRadius`, initialised to infinity, and reads and writes it.
  - The code does not rename a legacy `escapeRadius` key to `bailoutRadius` on decoding; the model follows the code.
  - In the source, a fresh state never assigns `escapeRadius`: it reads as `undefined`. So the source's `fromState`, `toJSON` and `isApplied` see `undefined` for the radius of a state no preset has set, where the model sees Infinity.
- The `Preset` constructor is not a separate member. It copies exactly the fields present in its typed parameter, since every `Vec6`, `Mat6` and `SimplifiedRotation` object is truthy. `Presets.Preset` with `Option` fields is that result, and `Presets.EMPTY` is `new Preset({})`.
- Aliasing between presets and the state:
  - Mat6 values in the state, presets and transitions are modelled as values (`Matrix6.Matrix`), since the core never mutates a shared matrix.
  - A preset holds its angles as values. Assigning a preset's `SimplifiedRotation` object to the state is modelled by copying its angles into the state's object (`SimplifiedRotation.SetAngles`), so later in-place changes are not shared.
- `SimplifiedRotations.FromMaybeObject`: a field holding a non-finite number (Infinity, NaN) is refused with an error, because angles are reals. The source would keep it.
- `Presets.Apply` requires a present zoom to be finite, since the state's zoom is a real. `Presets.Apply` promises `isApplied` only for NaN-free presets: NaN is never `===` to itself, so the source's `isApplied` is false after applying a NaN.
- `MandelbrotState.MandelbrotLerp.constructor` and `MandelbrotState.MandelbrotLerp.Update` require a nonzero duration. Dividing by a zero duration (Infinity or NaN progress) is not modelled.
- `MandelbrotState.Mandelbrot6DState.Update` and `MandelbrotState.CameraController.Update` require a nonzero `springScale`, and `CameraController.Update` a nonzero zoom level. Dividing by 0 there is not modelled.
- `MandelbrotState.Mandelbrot6DState.Update` requires the objects in the behaviour list to be distinct. Its contract does not restate three facts, which `Mandelbrot6DState.Settle` states for the same step:
  - the survivor filter;
  - the elapsed time each transition gains;
  - that the pose is unchanged with no behaviours.
- `MandelbrotState.Mandelbrot6DState.RunBehavior`: a transition's effect on the state is stated by `MandelbrotLerp.Update`, and a camera controller's by `CameraController.Update`. `RunBehavior` itself promises only the elapsed time and the removal mark.
- `Mat6.get` outside 0..5 reads `undefined` or another slot. `Matrix6.Mat6.Get` states only the in-range case.
- `deepEquals` on records compares structure only. Object identity, prototypes, symbol keys and functions are not modelled, and `===` between two records is taken as never reached.
- JavaScript strings are sequences of UTF-16 code units, modelled as `char`. The shader pattern is matched character by character rather than with a regular expression engine.
- Vector.ts's legacy `Vec2` has the same members and bodies as Vec2.ts, except `fromMaybeArray`, which only Vec2.ts has. It is modelled once, by `Vector2.Vec2`, and only its defaults get their own lemma, `LegacyVector.Vec2Defaults`.
