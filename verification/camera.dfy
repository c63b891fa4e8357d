/** The fly-through camera of Camera.h: a position, Euler angles in degrees
    (yaw and pitch), the basis front/right/up derived from them, a fixed world
    up vector and a zoom (field of view, in degrees). Scalars are reals; the
    trigonometry is the abstract `MathLib` of module Numerics. */
module Cameras {
  import opened Vectors
  import opened Numerics

  /** Camera_Movement: the four keyboard directions. */
  datatype Movement = Forward | Backward | Left | Right

  // Defaults of Camera.h (YAW, PITCH, SPEED, SENSITIVTY, ZOOM).
  const DefaultYaw: real := -90.0
  const DefaultPitch: real := 0.0
  const DefaultSpeed: real := 6.0
  const DefaultSensitivity: real := 0.25
  const DefaultZoom: real := 45.0

  /** Limits applied by ProcessMouseMovement and ProcessMouseScroll. */
  const MaxPitch: real := 89.0
  const MinZoom: real := 1.0
  const MaxZoom: real := 45.0

  /** The world up vector the first constructor uses when none is given. */
  const DefaultWorldUp: Vec3 := Vec3(0.0, 1.0, 0.0)

  datatype Basis = Basis(front: Vec3, right: Vec3, up: Vec3)

  /** The look direction before normalization, from yaw and pitch in degrees. */
  function ViewDirection(m: MathLib, yaw: real, pitch: real): (d: Vec3)
    ensures d.y == m.sin(Radians(pitch))
    ensures d.x * m.sin(Radians(yaw)) == d.z * m.cos(Radians(yaw))
  {
    Vec3(m.cos(Radians(yaw)) * m.cos(Radians(pitch)),
         m.sin(Radians(pitch)),
         m.sin(Radians(yaw)) * m.cos(Radians(pitch)))
  }

  /** The basis updateCameraVectors derives: front is the normalized view
      direction, right = normalize(front × worldUp), up = normalize(right × front).
      Whatever the trigonometry returns, the basis is pairwise perpendicular,
      and right is perpendicular to the world up vector, because right and up
      are scaled cross products. */
  function CameraVectors(m: MathLib, yaw: real, pitch: real, worldUp: Vec3): (b: Basis)
    ensures Dot(b.right, b.front) == 0.0 && Dot(b.right, worldUp) == 0.0
    ensures Dot(b.up, b.right) == 0.0 && Dot(b.up, b.front) == 0.0
  {
    var front := Normalize(m, ViewDirection(m, yaw, pitch));
    var across := Cross(front, worldUp);
    var right := Normalize(m, across);
    var above := Cross(right, front);
    CrossOrthogonal(front, worldUp);
    DotScale(across, m.inverseSqrt(Dot(across, across)), front);
    DotScale(across, m.inverseSqrt(Dot(across, across)), worldUp);
    CrossOrthogonal(right, front);
    DotScale(above, m.inverseSqrt(Dot(above, above)), right);
    DotScale(above, m.inverseSqrt(Dot(above, above)), front);
    Basis(front, right, Normalize(m, above))
  }

  /** With real trigonometry the view direction already has unit length. */
  lemma ViewDirectionIsUnit(m: MathLib, yaw: real, pitch: real)
    requires Pythagorean(m)
    ensures Dot(ViewDirection(m, yaw, pitch), ViewDirection(m, yaw, pitch)) == 1.0
  {
    var d := ViewDirection(m, yaw, pitch);
    var cy, sy := m.cos(Radians(yaw)), m.sin(Radians(yaw));
    var cp, sp := m.cos(Radians(pitch)), m.sin(Radians(pitch));
    assert Dot(d, d) == cp * cp * (sy * sy + cy * cy) + sp * sp;
    assert sy * sy + cy * cy == 1.0;
    assert sp * sp + cp * cp == 1.0;
  }

  /** With real trigonometry and an exact inverse square root, normalizing
      changes nothing: front is the view direction itself, for every yaw, pitch
      and world up vector. */
  lemma FrontIsViewDirection(m: MathLib, yaw: real, pitch: real, worldUp: Vec3)
    requires Pythagorean(m) && ExactInverseSqrt(m)
    ensures CameraVectors(m, yaw, pitch, worldUp).front == ViewDirection(m, yaw, pitch)
  {
    ViewDirectionIsUnit(m, yaw, pitch);
    NormalizeFixesUnit(m, ViewDirection(m, yaw, pitch));
  }

  /** With real trigonometry and an exact inverse square root, front is a
      unit vector for every yaw, pitch and world up vector. */
  lemma FrontIsUnit(m: MathLib, yaw: real, pitch: real, worldUp: Vec3)
    requires Pythagorean(m) && ExactInverseSqrt(m)
    ensures Dot(CameraVectors(m, yaw, pitch, worldUp).front,
                CameraVectors(m, yaw, pitch, worldUp).front) == 1.0
  {
    ViewDirectionIsUnit(m, yaw, pitch);
    NormalizeUnit(m, ViewDirection(m, yaw, pitch));
  }

  /** With real trigonometry and an exact inverse square root, the height of
      front is sin pitch, whatever the yaw. */
  lemma FrontHeight(m: MathLib, yaw: real, pitch: real, worldUp: Vec3)
    requires Pythagorean(m) && ExactInverseSqrt(m)
    ensures CameraVectors(m, yaw, pitch, worldUp).front.y == m.sin(Radians(pitch))
  {
    FrontIsViewDirection(m, yaw, pitch, worldUp);
  }

  /** For the default world up vector, |front × worldUp|² = cos² pitch: the
      cross product that defines right vanishes only when cos pitch does. */
  lemma RightBeforeNormalizing(m: MathLib, yaw: real, pitch: real)
    requires Pythagorean(m) && ExactInverseSqrt(m)
    ensures var f := CameraVectors(m, yaw, pitch, DefaultWorldUp).front;
      Dot(Cross(f, DefaultWorldUp), Cross(f, DefaultWorldUp))
        == m.cos(Radians(pitch)) * m.cos(Radians(pitch))
  {
    var f := CameraVectors(m, yaw, pitch, DefaultWorldUp).front;
    var d := ViewDirection(m, yaw, pitch);
    var cy, sy := m.cos(Radians(yaw)), m.sin(Radians(yaw));
    var cp := m.cos(Radians(pitch));
    var across := Vec3(-(sy * cp), 0.0, cy * cp);
    calc {
      Dot(Cross(f, DefaultWorldUp), Cross(f, DefaultWorldUp));
    == { FrontIsViewDirection(m, yaw, pitch, DefaultWorldUp); }
      Dot(Cross(d, DefaultWorldUp), Cross(d, DefaultWorldUp));
    == { assert Cross(d, DefaultWorldUp) == across; }
      Dot(across, across);
    == { assert sy * sy + cy * cy == 1.0; ScaledUnitCircle(cp, sy, cy); }
      cp * cp;
    }
  }

  lemma ScaledUnitCircle(c: real, a: real, b: real)
    requires a * a + b * b == 1.0
    ensures Dot(Vec3(-(a * c), 0.0, b * c), Vec3(-(a * c), 0.0, b * c)) == c * c
  {
    calc {
      Dot(Vec3(-(a * c), 0.0, b * c), Vec3(-(a * c), 0.0, b * c));
      (-(a * c)) * (-(a * c)) + 0.0 * 0.0 + (b * c) * (b * c);
      (a * a + b * b) * (c * c);
      c * c;
    }
  }

  /** When cos pitch is not zero, front × worldUp is a non-zero vector for the
      default world up, so right can be normalized. */
  lemma RightDefined(m: MathLib, yaw: real, pitch: real)
    requires Pythagorean(m) && ExactInverseSqrt(m)
    requires m.cos(Radians(pitch)) != 0.0
    ensures var f := CameraVectors(m, yaw, pitch, DefaultWorldUp).front;
      Dot(Cross(f, DefaultWorldUp), Cross(f, DefaultWorldUp)) > 0.0
  {
    var f := CameraVectors(m, yaw, pitch, DefaultWorldUp).front;
    RightBeforeNormalizing(m, yaw, pitch);
    PositiveAsNonZeroSquare(Dot(Cross(f, DefaultWorldUp), Cross(f, DefaultWorldUp)), m.cos(Radians(pitch)));
  }

  /** The basis is orthonormal whenever cos pitch is not zero, for the default
      world up vector and a math library whose sine, cosine and inverse square
      root satisfy sin² + cos² = 1 and (1/√s)² · s = 1 with 1/√s > 0. */
  lemma BasisOrthonormal(m: MathLib, yaw: real, pitch: real)
    requires Pythagorean(m) && ExactInverseSqrt(m)
    requires m.cos(Radians(pitch)) != 0.0
    ensures var b := CameraVectors(m, yaw, pitch, DefaultWorldUp);
      Dot(b.front, b.front) == 1.0 && Dot(b.right, b.right) == 1.0 && Dot(b.up, b.up) == 1.0 &&
      Dot(b.right, b.front) == 0.0 && Dot(b.up, b.right) == 0.0 && Dot(b.up, b.front) == 0.0
  {
    var b := CameraVectors(m, yaw, pitch, DefaultWorldUp);
    FrontIsUnit(m, yaw, pitch, DefaultWorldUp);
    RightDefined(m, yaw, pitch);
    NormalizeUnit(m, Cross(b.front, DefaultWorldUp));
    // up: |right × front|² = |right|²|front|² − (right·front)² = 1
    Lagrange(b.right, b.front);
    NormalizeUnit(m, Cross(b.right, b.front));
  }

  lemma NonZeroSquare(a: real)
    requires a != 0.0
    ensures a * a > 0.0
  {
    if a < 0.0 {
      assert a * a == (-a) * (-a);
    }
  }

  lemma PositiveAsNonZeroSquare(x: real, a: real)
    requires x == a * a && a != 0.0
    ensures x > 0.0
  {
    NonZeroSquare(a);
    calc {
      0.0;
    <  a * a;
    == x;
    }
  }

  /** The position ProcessKeyboard produces: a step of length `velocity`
      along front (Forward), against front (Backward), against right (Left) or
      along right (Right). */
  function Moved(position: Vec3, front: Vec3, right: Vec3, direction: Movement, velocity: real): (p: Vec3)
    ensures var step := Sub(p, position);
      var axis := if direction == Forward || direction == Backward then front else right;
      var sign := if direction == Forward || direction == Right then 1.0 else -1.0;
      Cross(step, axis) == Vec3(0.0, 0.0, 0.0) && Dot(step, axis) == sign * velocity * Dot(axis, axis)
  {
    match direction
    case Forward => Add(position, Scale(front, velocity))
    case Backward => Sub(position, Scale(front, velocity))
    case Left => Sub(position, Scale(right, velocity))
    case Right => Add(position, Scale(right, velocity))
  }

  function Opposite(direction: Movement): (r: Movement)
    ensures (direction == Forward <==> r == Backward) && (direction == Backward <==> r == Forward)
    ensures (direction == Left <==> r == Right) && (direction == Right <==> r == Left)
  {
    match direction
    case Forward => Backward
    case Backward => Forward
    case Left => Right
    case Right => Left
  }

  /** A step in one direction is undone by a step of the same velocity in the
      opposite direction. */
  lemma MoveUndone(position: Vec3, front: Vec3, right: Vec3, direction: Movement, velocity: real)
    ensures Moved(Moved(position, front, right, direction, velocity), front, right, Opposite(direction), velocity) == position
  {
  }

  /** Movement is frame-rate independent: two frames of `dt1` and `dt2` at the
      same speed reach the same place as one frame of `dt1 + dt2`. */
  lemma MoveSplitsOverFrames(position: Vec3, front: Vec3, right: Vec3, direction: Movement, speed: real, dt1: real, dt2: real)
    ensures Moved(Moved(position, front, right, direction, speed * dt1), front, right, direction, speed * dt2)
         == Moved(position, front, right, direction, speed * (dt1 + dt2))
  {
  }

  /** Strafing (Left or Right) with the derived basis changes neither the
      height along the world up vector nor the depth along the view direction. */
  lemma StrafeKeepsHeightAndDepth(m: MathLib, yaw: real, pitch: real, worldUp: Vec3,
                                  position: Vec3, direction: Movement, velocity: real)
    requires direction == Left || direction == Right
    ensures var b := CameraVectors(m, yaw, pitch, worldUp);
      var p := Moved(position, b.front, b.right, direction, velocity);
      Dot(p, worldUp) == Dot(position, worldUp) && Dot(p, b.front) == Dot(position, b.front)
  {
    var b := CameraVectors(m, yaw, pitch, worldUp);
    DotScale(b.right, velocity, worldUp);
    DotScale(b.right, velocity, b.front);
  }

  /** The pitch clamp of ProcessMouseMovement: above 89 becomes 89, below -89
      becomes -89, anything in between is kept. */
  function ClampPitch(pitch: real): (r: real)
    ensures -MaxPitch <= r <= MaxPitch
    ensures -MaxPitch <= pitch <= MaxPitch ==> r == pitch
    ensures pitch > MaxPitch ==> r == MaxPitch
    ensures pitch < -MaxPitch ==> r == -MaxPitch
  {
    var p := if pitch > MaxPitch then MaxPitch else pitch;
    if p < -MaxPitch then -MaxPitch else p
  }

  /** The pitch after a mouse movement of `yOffset` at `sensitivity`. */
  function LookedPitch(pitch: real, sensitivity: real, yOffset: real, constrainPitch: bool): (r: real)
    ensures constrainPitch ==> r == ClampPitch(pitch + sensitivity * yOffset)
    ensures constrainPitch ==> -MaxPitch <= r <= MaxPitch
    ensures !constrainPitch ==> r - pitch == sensitivity * yOffset
  {
    if constrainPitch then ClampPitch(pitch + sensitivity * yOffset) else pitch + yOffset * sensitivity
  }

  /** The zoom after ProcessMouseScroll(yOffset): the offset is subtracted only
      when the zoom is already in [1, 45], then the result is saturated to
      [1, 45]. Whatever the starting zoom and offset, the result is in range. */
  function ScrolledZoom(zoom: real, yOffset: real): (r: real)
    ensures MinZoom <= r <= MaxZoom
  {
    var stepped := if MinZoom <= zoom <= MaxZoom then zoom - yOffset else zoom;
    var floored := if stepped <= MinZoom then MinZoom else stepped;
    if floored >= MaxZoom then MaxZoom else floored
  }

  /** Scrolling within range is exact; past either end it saturates. */
  lemma ScrollExactOrSaturated(zoom: real, yOffset: real)
    requires MinZoom <= zoom <= MaxZoom
    ensures MinZoom <= zoom - yOffset <= MaxZoom ==> ScrolledZoom(zoom, yOffset) == zoom - yOffset
    ensures zoom - yOffset < MinZoom ==> ScrolledZoom(zoom, yOffset) == MinZoom
    ensures zoom - yOffset > MaxZoom ==> ScrolledZoom(zoom, yOffset) == MaxZoom
  {
  }

  /** A zoom outside [1, 45] ignores the offset and is only saturated. */
  lemma ScrollOutOfRangeIgnoresOffset(zoom: real, yOffset: real, otherOffset: real)
    requires !(MinZoom <= zoom <= MaxZoom)
    ensures ScrolledZoom(zoom, yOffset) == ScrolledZoom(zoom, otherOffset)
    ensures ScrolledZoom(zoom, yOffset) == if zoom < MinZoom then MinZoom else MaxZoom
  {
  }

  /** Scrolling further forward never zooms out: the new zoom is
      anti-monotone in the offset. */
  lemma ScrollAntitone(zoom: real, y1: real, y2: real)
    requires y1 <= y2
    ensures ScrolledZoom(zoom, y2) <= ScrolledZoom(zoom, y1)
  {
  }

  /** Camera: the state of Camera.h. `worldUp`, `movementSpeed` and
      `mouseSensitivity` are set once by a constructor and never reassigned,
      so they are constants here; `math` is the trigonometry the camera's
      basis computation calls. */
  class Camera {
    var position: Vec3
    var front: Vec3
    var up: Vec3
    var right: Vec3
    const worldUp: Vec3

    var yaw: real
    var pitch: real

    const movementSpeed: real
    const mouseSensitivity: real
    var zoom: real

    const math: MathLib

    /** The object invariant: the zoom is in [1, 45] and the basis is the one
        derived from the current yaw, pitch and world up. */
    ghost predicate Valid()
      reads this
    {
      MinZoom <= zoom <= MaxZoom &&
      Basis(front, right, up) == CameraVectors(math, yaw, pitch, worldUp)
    }

    /** Camera(position, up, yaw, pitch), with the defaults of Camera.h. The
        pitch is taken as given, without clamping. */
    constructor (math: MathLib, position: Vec3 := Vec3(0.0, 0.0, 0.0), up: Vec3 := DefaultWorldUp,
                 yaw: real := DefaultYaw, pitch: real := DefaultPitch)
      ensures Valid()
      ensures this.position == position && worldUp == up && this.yaw == yaw && this.pitch == pitch
      ensures zoom == DefaultZoom && movementSpeed == DefaultSpeed && mouseSensitivity == DefaultSensitivity
      ensures this.math == math
    {
      this.math := math;
      front := Vec3(0.0, 0.0, -1.0);
      movementSpeed := DefaultSpeed;
      mouseSensitivity := DefaultSensitivity;
      zoom := DefaultZoom;
      this.position := position;
      worldUp := up;
      this.yaw := yaw;
      this.pitch := pitch;
      new;
      UpdateCameraVectors();
    }

    /** Camera(posX, posY, posZ, upX, upY, upZ, yaw, pitch). */
    constructor FromComponents(math: MathLib, posX: real, posY: real, posZ: real,
                               upX: real, upY: real, upZ: real, yaw: real, pitch: real)
      ensures Valid()
      ensures position == Vec3(posX, posY, posZ) && worldUp == Vec3(upX, upY, upZ)
      ensures this.yaw == yaw && this.pitch == pitch
      ensures zoom == DefaultZoom && movementSpeed == DefaultSpeed && mouseSensitivity == DefaultSensitivity
      ensures this.math == math
    {
      this.math := math;
      front := Vec3(0.0, 0.0, -1.0);
      movementSpeed := DefaultSpeed;
      mouseSensitivity := DefaultSensitivity;
      zoom := DefaultZoom;
      position := Vec3(posX, posY, posZ);
      worldUp := Vec3(upX, upY, upZ);
      this.yaw := yaw;
      this.pitch := pitch;
      new;
      UpdateCameraVectors();
    }

    /** Moves `speed * deltaTime` along the basis; the `movementSpeed` field
        plays no part. Only the position changes. */
    method ProcessKeyboard(direction: Movement, deltaTime: real, speed: real)
      requires Valid()
      modifies this`position
      ensures Valid()
      ensures position == Moved(old(position), front, right, direction, speed * deltaTime)
    {
      var velocity := speed * deltaTime;
      if direction == Forward {
        position := Add(position, Scale(front, velocity));
      }
      if direction == Backward {
        position := Sub(position, Scale(front, velocity));
      }
      if direction == Left {
        position := Sub(position, Scale(right, velocity));
      }
      if direction == Right {
        position := Add(position, Scale(right, velocity));
      }
    }

    /** Turns by the sensitivity-scaled offsets. Yaw is neither wrapped nor
        bounded; pitch is clamped to [-89, 89] only when `constrainPitch`
        holds. The basis is then recomputed. */
    method ProcessMouseMovement(xOffset: real, yOffset: real, constrainPitch: bool := true)
      requires Valid()
      modifies this`yaw, this`pitch, this`front, this`right, this`up
      ensures Valid()
      ensures yaw == old(yaw) + mouseSensitivity * xOffset
      ensures pitch == LookedPitch(old(pitch), mouseSensitivity, yOffset, constrainPitch)
      ensures constrainPitch ==> -MaxPitch <= pitch <= MaxPitch
      ensures !constrainPitch ==> pitch == old(pitch) + mouseSensitivity * yOffset
    {
      var dx := xOffset * mouseSensitivity;
      var dy := yOffset * mouseSensitivity;
      yaw := yaw + dx;
      pitch := pitch + dy;
      if constrainPitch {
        if pitch > MaxPitch {
          pitch := MaxPitch;
        }
        if pitch < -MaxPitch {
          pitch := -MaxPitch;
        }
      }
      UpdateCameraVectors();
    }

    /** Zooms by `yOffset`, saturating to [1, 45]. Only the zoom changes. */
    method ProcessMouseScroll(yOffset: real)
      requires Valid()
      modifies this`zoom
      ensures Valid()
      ensures zoom == ScrolledZoom(old(zoom), yOffset)
      ensures MinZoom <= zoom <= MaxZoom
    {
      if MinZoom <= zoom <= MaxZoom {
        zoom := zoom - yOffset;
      }
      if zoom <= MinZoom {
        zoom := MinZoom;
      }
      if zoom >= MaxZoom {
        zoom := MaxZoom;
      }
    }

    function GetZoom(): (z: real)
      requires Valid()
      reads this
      ensures MinZoom <= z <= MaxZoom && z == zoom
    {
      zoom
    }

    function GetPosition(): (p: Vec3)
      reads this
      ensures p == position
    {
      position
    }

    /** The view direction derived from the current yaw and pitch. */
    function GetFront(): (f: Vec3)
      requires Valid()
      reads this
      ensures f == CameraVectors(math, yaw, pitch, worldUp).front
    {
      front
    }

    /** The camera's up vector: derived from the current orientation and
        perpendicular to the view direction. */
    function GetUp(): (u: Vec3)
      requires Valid()
      reads this
      ensures u == CameraVectors(math, yaw, pitch, worldUp).up
      ensures Dot(u, GetFront()) == 0.0
    {
      up
    }

    /** Recomputes front, right and up from yaw, pitch and worldUp. */
    method UpdateCameraVectors()
      modifies this`front, this`right, this`up
      ensures Basis(front, right, up) == CameraVectors(math, yaw, pitch, worldUp)
    {
      var direction := ViewDirection(math, yaw, pitch);
      var newFront := Normalize(math, direction);
      var newRight := Normalize(math, Cross(newFront, worldUp));
      var newUp := Normalize(math, Cross(newRight, newFront));
      front, right, up := newFront, newRight, newUp;
    }
  }
}
