# Fly-through camera

A model of the `Camera` class of `PGProyect/Camera.h`, the free-flying camera of
a small OpenGL/GLUT model viewer. The camera holds a position, two Euler angles
in degrees (yaw and pitch), the basis `front`/`right`/`up` derived from them, a
world up vector fixed at construction, and a zoom (the field of view, in
degrees). Three input handlers change it:

- `ProcessKeyboard` steps the position along `front` or `right` by
  `speed * deltaTime`;
- `ProcessMouseMovement` turns by the sensitivity-scaled mouse offsets, clamps
  pitch to [-89, 89] when asked, and recomputes the basis;
- `ProcessMouseScroll` zooms by the scroll offset and saturates the zoom to
  [1, 45].

Files:

- `vectors.dfy` (module `Vectors`): `Vec3` over the reals with sum, difference,
  scaling, dot and cross product, and the algebraic facts about them the proofs
  use (the cross product is perpendicular to its arguments, Lagrange's identity).
- `numerics.dfy` (module `Numerics`): the floating-point library the camera
  calls. `cos`, `sin` and the inverse square root behind `glm::normalize` are
  fields of a `MathLib` value handed to the camera at construction, so no
  numeric value is fixed for them. `Normalize(v)` is `v * inverseSqrt(v·v)`,
  which is how glm defines it. Two facts about the real functions are named
  requirements of the lemmas that need them: sin² + cos² = 1
  (`Pythagorean`), and that the inverse square root of a positive s is the
  positive k with k² · s = 1 (`ExactInverseSqrt`). The orthonormality lemmas
  (`RightDefined`, `BasisOrthonormal`) also require a third: that the cosine
  of the pitch is not zero.
- `camera.dfy` (module `Cameras`): the constants of `Camera.h`, the
  specification functions (`CameraVectors`, `Moved`, `ClampPitch`,
  `LookedPitch`, `ScrolledZoom`), the lemmas about them, and the class
  `Camera` with mutable fields and one member (a method, or a function for
  the getters) per member function of the source except `GetViewMatrix`. Its object invariant `Valid()` is: the zoom lies in [1, 45] and the
  basis is the one derived from the current yaw, pitch and world up vector.
  Every constructor establishes it and every method keeps it. The pitch bound
  is not part of it: a constructor takes the pitch as given, and
  `ProcessMouseMovement(x, y, false)` does not clamp.

`worldUp`, `movementSpeed` and `mouseSensitivity` are assigned only by the
constructors in the source, so the class declares them `const`.
`movementSpeed` is stored but never read: `ProcessKeyboard` uses its `speed`
argument.

What is proved, beyond each method's exact new state and frame:

- the basis is pairwise perpendicular for ANY trigonometry, because `right`
  and `up` are scaled cross products;
- with the two requirements above, normalizing leaves the view direction
  unchanged, so `front` is exactly (cos yaw · cos pitch, sin pitch,
  sin yaw · cos pitch), and normalizing never reverses a non-zero vector;
- it is orthonormal whenever the cosine of the pitch is not zero, the world
  up vector is the default (0, 1, 0), and the math library satisfies
  sin² + cos² = 1 and has an exact inverse square root. This covers every
  pitch the ±89 clamp of `ProcessMouseMovement` lets through, and also the
  unclamped pitches a constructor or an unconstrained look can set, as long
  as their cosine is not zero;
- the zoom stays in [1, 45] after any scroll. A scroll within range is exact,
  past either end it saturates, and the new zoom never increases as the offset grows;
- keyboard steps are undone by the opposite step, are frame-rate independent
  (two frames equal one frame of the summed time), and strafing changes
  neither height nor depth along the view direction.

The model follows `Camera.h` as written. That class has no map bounds, no
day/night mode and no exclusion zone, so none of these is modelled. The zoom code
subtracts the offset only when the zoom is already in [1, 45]; `ScrolledZoom`
keeps that guard.

## Model

| member | source | states |
|---|---|---|
| `Numerics.Radians` | PGProyect/Camera.h:145-147 | degrees become radians by the factor π/180: dividing the result by the factor gives the degrees back, and the sign is kept |
| `Numerics.Normalize` | PGProyect/Camera.h:148-151 | glm's normalize, v · inverseSqrt(v·v): the result is parallel to v (its cross product with v is zero) |
| `Numerics.NormalizeUnit` | PGProyect/Camera.h:148-151 | normalizing a non-zero vector with an exact inverse square root gives a vector of length 1 |
| `Numerics.NormalizeSameSense` | PGProyect/Camera.h:148-151 | with an exact, positive inverse square root, the normalized vector has a positive dot product with the original: it points the same way, not against it |
| `Numerics.NormalizeFixesUnit` | PGProyect/Camera.h:148 | with an exact, positive inverse square root, normalizing a unit vector returns it unchanged |
| `Cameras.ViewDirection` | PGProyect/Camera.h:144-147 | the direction before normalizing: its height is sin pitch, whatever the yaw, and its horizontal part (x, z) is parallel to (cos yaw, sin yaw) |
| `Cameras.CameraVectors` | PGProyect/Camera.h:144-151 | the basis derived from yaw, pitch and worldUp; for any cos, sin and inverse square root, right ⟂ front, right ⟂ worldUp, up ⟂ right and up ⟂ front |
| `Cameras.ViewDirectionIsUnit` | PGProyect/Camera.h:144-147 | with sin² + cos² = 1 the un-normalized view direction already has length 1, for every yaw and pitch |
| `Cameras.FrontIsViewDirection` | PGProyect/Camera.h:144-148 | with sin² + cos² = 1 and an exact, positive inverse square root, front equals the un-normalized view direction for every yaw, pitch and world up |
| `Cameras.FrontIsUnit` | PGProyect/Camera.h:144-148 | with real trigonometry and an exact inverse square root, front is a unit vector |
| `Cameras.FrontHeight` | PGProyect/Camera.h:146-148 | with the same requirements, the height of front is exactly sin pitch, whatever the yaw |
| `Cameras.RightBeforeNormalizing` | PGProyect/Camera.h:150 | with the default world up, the squared length of front × worldUp is cos² pitch, so right is undefined exactly when cos pitch is 0 |
| `Cameras.RightDefined` | PGProyect/Camera.h:150 | with the default world up, front × worldUp is a non-zero vector whenever cos pitch ≠ 0, so normalizing it is defined |
| `Cameras.BasisOrthonormal` | PGProyect/Camera.h:142-152 | when cos pitch ≠ 0 and world up is (0, 1, 0), front, right and up are unit length and pairwise perpendicular |
| `Cameras.Moved` | PGProyect/Camera.h:50-70 | the step from the old to the new position is parallel to front (FORWARD, BACKWARD) or to right (LEFT, RIGHT), with signed length +velocity for FORWARD and RIGHT and −velocity for BACKWARD and LEFT, measured along that axis |
| `Cameras.MoveUndone` | PGProyect/Camera.h:48-71 | a step in one direction followed by a step of the same velocity in the opposite direction returns to the starting position |
| `Cameras.MoveSplitsOverFrames` | PGProyect/Camera.h:48-71 | two steps at one speed over dt1 and dt2 reach the same position as one step over dt1 + dt2 |
| `Cameras.StrafeKeepsHeightAndDepth` | PGProyect/Camera.h:62-70 | a LEFT or RIGHT step changes neither the component along worldUp nor the component along front |
| `Cameras.ClampPitch` | PGProyect/Camera.h:82-93 | the clamped pitch lies in [-89, 89], equals the input when that is in range, and is 89 above it and -89 below it |
| `Cameras.LookedPitch` | PGProyect/Camera.h:76-93 | with constrainPitch the new pitch is the clamp of pitch + sensitivity · yOffset (so it lies in [-89, 89]); without it the pitch moves by exactly sensitivity · yOffset |
| `Cameras.ScrolledZoom` | PGProyect/Camera.h:98-106 | for any starting zoom and any offset, the zoom after a scroll lies in [1, 45] |
| `Cameras.ScrollExactOrSaturated` | PGProyect/Camera.h:100-105 | from a zoom in [1, 45], the new zoom is zoom − y when that is in [1, 45], 1 when it is below and 45 when it is above |
| `Cameras.ScrollOutOfRangeIgnoresOffset` | PGProyect/Camera.h:100-106 | from a zoom outside [1, 45] the offset is ignored and the zoom is saturated to the nearer end |
| `Cameras.ScrollAntitone` | PGProyect/Camera.h:98-106 | a larger scroll offset never gives a larger zoom |
| `Cameras.Camera.constructor` | PGProyect/Camera.h:25-32 | stores position, world up, yaw and pitch as given (pitch unclamped), sets zoom 45, speed 6, sensitivity 0.25, and derives the basis; the invariant holds |
| `Cameras.Camera.FromComponents` | PGProyect/Camera.h:34-41 | the same from scalar components: position (posX, posY, posZ), world up (upX, upY, upZ) |
| `Cameras.Camera.ProcessKeyboard` | PGProyect/Camera.h:48-71 | the position becomes position ± front·v or position ± right·v with v = speed · deltaTime, by direction; only the position changes |
| `Cameras.Camera.ProcessMouseMovement` | PGProyect/Camera.h:74-96 | yaw grows by sensitivity · xOffset unbounded; pitch moves by sensitivity · yOffset and is clamped to [-89, 89] only when constrainPitch; the basis is recomputed from the new angles |
| `Cameras.Camera.ProcessMouseScroll` | PGProyect/Camera.h:98-106 | the zoom becomes `ScrolledZoom` of the old zoom and the offset, so it lies in [1, 45]; only the zoom changes |
| `Cameras.Camera.GetZoom` | PGProyect/Camera.h:108-111 | returns the zoom, which lies in [1, 45] |
| `Cameras.Camera.GetPosition` | PGProyect/Camera.h:113-116 | returns the position without changing anything |
| `Cameras.Camera.GetFront` | PGProyect/Camera.h:118-121 | returns the front vector, which is the one derived from the current yaw and pitch |
| `Cameras.Camera.GetUp` | PGProyect/Camera.h:123-126 | returns the up vector derived from the current orientation, which is perpendicular to the front vector |
| `Cameras.Camera.UpdateCameraVectors` | PGProyect/Camera.h:142-152 | front, right and up become the basis derived from yaw, pitch and worldUp; nothing else changes |

## Left out

- Floating point: every `GLfloat` is a real, so rounding, overflow and NaN are
  not modelled (for example, yaw grows without bound and never loses precision).
- The values of `cos`, `sin` and of the inverse square root inside
  `glm::normalize` are not fixed; they are the parameters of a `MathLib`. The
  degrees-to-radians factor of `glm::radians` is glm's decimal literal for
  π/180.
- Cameras.BasisOrthonormal: unit length of the basis is proved only for the
  default world up vector (0, 1, 0), under stated requirements on the math
  library, and for a pitch whose cosine is not zero. That the ±89 clamp makes
  the cosine non-zero is a fact about the real cosine, which the model leaves
  abstract, so it is a hypothesis of the lemma rather than a consequence.
- Numerics.Normalize of the zero vector: glm's `normalize` gives NaN components
  (the inverse square root of 0 is infinite, and 0 times infinity is NaN),
  while the model's gives the zero vector. This happens to right and up when
  front × worldUp is zero: with world up (0, 0, 0) (possible through
  `FromComponents`) or with a world up parallel to front. There the model's
  right and up are zero and the orthogonality facts hold of them, where the
  program's are NaN. In the model alone, a pitch whose abstract cosine is 0
  also gives a zero right and up for the default world up; with glm's
  factor no pitch in degrees has a real cosine of exactly 0.
- The example that a camera built with yaw -90 and pitch 0 looks along
  (0, 0, -1): by `FrontIsViewDirection` front is
  (cos y · cos 0, sin 0, sin y · cos 0) for y = `Radians(-90)`, with the sign
  fixed by the positive inverse square root, but the model fixes no values of
  `cos` and `sin`, not even cos 0 = 1 and sin 0 = 0. With glm's decimal
  factor, y is also not exactly -π/2, so even the real cosine is only close
  to 0 there.
- `GetViewMatrix` (PGProyect/Camera.h:43-46): a direct call to `glm::lookAt`,
  which is not part of this model.
- `PGProyect/Main.cpp`: the GLUT window, the input callbacks, the frame timing,
  the OBJ loader (through the Assimp importer) and the draw calls are I/O and
  foreign libraries. Its calls to `ProcessKeyboard` pass two arguments where
  the class takes three; the model follows the class's signature.
- Map bounds, day/night offsets and the exclusion zone: not present in
  `Camera.h`.
