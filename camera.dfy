/** The free-fly camera of solaris_1/Camera.h: position, Euler angles, derived basis,
    keyboard movement and mouse look. */
module CameraModel {
  import opened Vectors

  /** Camera_Movement, in the order of its enumerators. */
  datatype Movement = Forward | Backward | Left | Right

  // Default camera values
  const YAW: real := -90.0
  const PITCH: real := 0.0
  const SPEED: real := 6.0
  const SENSITIVITY: real := 0.25
  const ZOOM: real := 45.0

  /** Pitch bound applied when `constrainPitch` is requested. */
  const PITCH_LIMIT: real := 89.0

  const DefaultPosition: Vec3 := Vec3(0.0, 0.0, 0.0)
  const DefaultWorldUp: Vec3 := Vec3(0.0, 1.0, 0.0)

  /** The three vectors updateCameraVectors derives. */
  datatype Basis = Basis(front: Vec3, right: Vec3, up: Vec3)

  /** The trigonometric basis computation (cos/sin of yaw and pitch, normalize, cross
      with world-up). It lives in the glm library, so the camera receives it as a
      value of this type: yaw, pitch, world-up to basis. */
  type BasisFunction = (real, real, Vec3) -> Basis

  /** Where ProcessKeyboard moves a point for one direction and a velocity. */
  function Moved(p: Vec3, front: Vec3, right: Vec3, d: Movement, velocity: real): Vec3 {
    match d
    case Forward => Add(p, Scale(front, velocity))
    case Backward => Sub(p, Scale(front, velocity))
    case Left => Sub(p, Scale(right, velocity))
    case Right => Add(p, Scale(right, velocity))
  }

  /** The direction that undoes `d`. */
  function Opposite(d: Movement): Movement {
    match d
    case Forward => Backward
    case Backward => Forward
    case Left => Right
    case Right => Left
  }

  /** Over the reals, a move followed by the opposite move with the same velocity
      returns to the starting point. */
  lemma OppositeRestores(p: Vec3, front: Vec3, right: Vec3, d: Movement, velocity: real)
    ensures Moved(Moved(p, front, right, d, velocity), front, right, Opposite(d), velocity) == p
  {
    match d
    case Forward => SubUndoesAdd(p, Scale(front, velocity));
    case Backward => SubUndoesAdd(p, Scale(front, velocity));
    case Left => SubUndoesAdd(p, Scale(right, velocity));
    case Right => SubUndoesAdd(p, Scale(right, velocity));
  }

  /** Movement is frame-rate independent: two steps of `dt1` and `dt2` at a given speed
      land where one step of `dt1 + dt2` does. */
  lemma StepsAdd(p: Vec3, front: Vec3, right: Vec3, d: Movement, speed: real, dt1: real, dt2: real)
    ensures Moved(Moved(p, front, right, d, speed * dt1), front, right, d, speed * dt2)
         == Moved(p, front, right, d, speed * (dt1 + dt2))
  {
    assert speed * dt1 + speed * dt2 == speed * (dt1 + dt2);
    match d
    case Forward => ScaleSplits(p, front, speed * dt1, speed * dt2);
    case Backward => ScaleSplits(p, front, speed * dt1, speed * dt2);
    case Left => ScaleSplits(p, right, speed * dt1, speed * dt2);
    case Right => ScaleSplits(p, right, speed * dt1, speed * dt2);
  }

  class Camera {
    // Camera attributes
    var position: Vec3
    var front: Vec3
    var up: Vec3
    var right: Vec3
    var worldUp: Vec3
    // Euler angles, in degrees
    var yaw: real
    var pitch: real
    // Camera options: set by the constructors and never written again
    const movementSpeed: real
    const mouseSensitivity: real
    const zoom: real

    /** The library computation behind updateCameraVectors. */
    const basisOf: BasisFunction

    /** The basis is the one derived from the current orientation, and the options
        keep the values the constructors give them. */
    ghost predicate Valid()
      reads this
    {
      && front == basisOf(yaw, pitch, worldUp).front
      && right == basisOf(yaw, pitch, worldUp).right
      && up == basisOf(yaw, pitch, worldUp).up
      && movementSpeed == SPEED
      && mouseSensitivity == SENSITIVITY
      && zoom == ZOOM
    }

    /** Camera(position, up, yaw, pitch), every argument optional. */
    constructor (basisOf: BasisFunction, position: Vec3 := DefaultPosition, up: Vec3 := DefaultWorldUp,
                 yaw: real := YAW, pitch: real := PITCH)
      ensures Valid()
      ensures this.basisOf == basisOf
      ensures this.position == position && worldUp == up
      ensures this.yaw == yaw && this.pitch == pitch
      ensures movementSpeed == SPEED && mouseSensitivity == SENSITIVITY && zoom == ZOOM
    {
      this.basisOf := basisOf;
      front := Vec3(0.0, 0.0, -1.0);
      movementSpeed := SPEED;
      mouseSensitivity := SENSITIVITY;
      zoom := ZOOM;
      this.position := position;
      worldUp := up;
      this.yaw := yaw;
      this.pitch := pitch;
      this.up := Zero3;
      right := Zero3;
      new;
      UpdateCameraVectors();
    }

    /** Camera(posX, posY, posZ, upX, upY, upZ, yaw, pitch). */
    constructor FromComponents(basisOf: BasisFunction, posX: real, posY: real, posZ: real,
                               upX: real, upY: real, upZ: real, yaw: real, pitch: real)
      ensures Valid()
      ensures this.basisOf == basisOf
      ensures position == Vec3(posX, posY, posZ) && worldUp == Vec3(upX, upY, upZ)
      ensures this.yaw == yaw && this.pitch == pitch
      ensures movementSpeed == SPEED && mouseSensitivity == SENSITIVITY && zoom == ZOOM
    {
      this.basisOf := basisOf;
      front := Vec3(0.0, 0.0, -1.0);
      movementSpeed := SPEED;
      mouseSensitivity := SENSITIVITY;
      zoom := ZOOM;
      position := Vec3(posX, posY, posZ);
      worldUp := Vec3(upX, upY, upZ);
      this.yaw := yaw;
      this.pitch := pitch;
      up := Zero3;
      right := Zero3;
      new;
      UpdateCameraVectors();
    }

    /** The opaque basis step: rewrites front, right and up from yaw, pitch and world-up,
        and nothing else. */
    method UpdateCameraVectors()
      modifies this`front, this`right, this`up
      ensures front == basisOf(yaw, pitch, worldUp).front
      ensures right == basisOf(yaw, pitch, worldUp).right
      ensures up == basisOf(yaw, pitch, worldUp).up
    {
      var b := basisOf(yaw, pitch, worldUp);
      front := b.front;
      right := b.right;
      up := b.up;
    }

    /** Moves the position along front (Forward/Backward) or right (Left/Right) by
        movementSpeed * deltaTime; nothing but the position changes. */
    method ProcessKeyboard(direction: Movement, deltaTime: real)
      requires Valid()
      modifies this`position
      ensures Valid()
      ensures position == Moved(old(position), front, right, direction, movementSpeed * deltaTime)
    {
      var velocity := movementSpeed * deltaTime;
      if direction == Forward {
        position := Add(position, Scale(front, velocity));
      }
      if direction == Backward {
        position := Sub(position, Scale(front, velocity));
      }
      if direction == Left {
        position := Sub(position, Scale(right, velocity));
      }
      if direction == Right {
        position := Add(position, Scale(right, velocity));
      }
    }

    /** Mouse look: scales the offsets by the sensitivity, accumulates them into yaw
        (unbounded) and pitch (clamped to [-89, 89] when constrainPitch holds), then
        recomputes the basis. The position never changes. */
    method ProcessMouseMovement(xOffset: real, yOffset: real, constrainPitch: bool := true)
      requires Valid()
      modifies this`yaw, this`pitch, this`front, this`right, this`up
      ensures Valid()
      ensures yaw == old(yaw) + xOffset * mouseSensitivity
      ensures !constrainPitch ==> pitch == old(pitch) + yOffset * mouseSensitivity
      ensures constrainPitch ==> -PITCH_LIMIT <= pitch <= PITCH_LIMIT
      ensures constrainPitch && -PITCH_LIMIT <= old(pitch) + yOffset * mouseSensitivity <= PITCH_LIMIT
              ==> pitch == old(pitch) + yOffset * mouseSensitivity
      ensures constrainPitch && old(pitch) + yOffset * mouseSensitivity > PITCH_LIMIT ==> pitch == PITCH_LIMIT
      ensures constrainPitch && old(pitch) + yOffset * mouseSensitivity < -PITCH_LIMIT ==> pitch == -PITCH_LIMIT
      // zero offsets leave orientation and basis as they were, unless the clamp pulls an
      // out-of-range pitch back
      ensures xOffset == 0.0 && yOffset == 0.0 && (!constrainPitch || -PITCH_LIMIT <= old(pitch) <= PITCH_LIMIT)
              ==> yaw == old(yaw) && pitch == old(pitch) && front == old(front) && right == old(right) && up == old(up)
      ensures GetPosition() == old(GetPosition())
    {
      var dx := xOffset * mouseSensitivity;
      var dy := yOffset * mouseSensitivity;

      yaw := yaw + dx;
      pitch := pitch + dy;

      if constrainPitch {
        if pitch > PITCH_LIMIT {
          pitch := PITCH_LIMIT;
        }
        if pitch < -PITCH_LIMIT {
          pitch := -PITCH_LIMIT;
        }
      }

      UpdateCameraVectors();
    }

    /** The scroll handler is empty: it changes nothing, so the zoom stays at its default. */
    method ProcessMouseScroll(yOffset: real)
      requires Valid()
      ensures Valid() && zoom == ZOOM
      ensures GetPosition() == old(GetPosition())
    {
    }

    /** The zoom is the constant default for the camera's whole life. */
    function GetZoom(): (z: real)
      reads this
      requires Valid()
      ensures z == ZOOM
    {
      zoom
    }

    /** The current position. Of the camera's methods only ProcessKeyboard has the
        position in its frame, so mouse look, scrolling and the basis step leave what
        GetPosition returns unchanged. */
    function GetPosition(): (p: Vec3)
      reads this
      ensures p == position
    {
      position
    }

    /** The front vector is the one the basis computation derives from yaw and pitch. */
    function GetFront(): (f: Vec3)
      reads this
      requires Valid()
      ensures f == basisOf(yaw, pitch, worldUp).front
    {
      front
    }
  }
}
