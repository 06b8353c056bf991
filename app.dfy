/** The input handling of solaris_1/main.cpp: the global key table written by the key
    callback, the first-mouse state machine that turns cursor positions into look
    offsets, and the per-frame dispatch of held keys to camera movement. The globals
    are gathered into one application context. */
module App {
  import opened Vectors
  import opened CameraModel

  // Window dimensions
  const WIDTH: nat := 800
  const HEIGHT: nat := 600

  /** Size of the key table; key codes outside [0, KEY_COUNT) are not recorded. */
  const KEY_COUNT: nat := 1024

  // GLFW action codes
  const GLFW_RELEASE: int := 0
  const GLFW_PRESS: int := 1

  // GLFW key codes
  const KEY_A: int := 65
  const KEY_D: int := 68
  const KEY_S: int := 83
  const KEY_W: int := 87
  const KEY_ESCAPE: int := 256
  const KEY_RIGHT: int := 262
  const KEY_LEFT: int := 263
  const KEY_DOWN: int := 264
  const KEY_UP: int := 265

  /** The key table after one key event: a PRESS of a key in range records it as held, a
      RELEASE as not held; any other action, or a key out of range, changes nothing, and
      no other entry ever changes. */
  function KeyTableAfter(table: seq<bool>, key: int, action: int): (r: seq<bool>)
    requires |table| == KEY_COUNT
    ensures |r| == |table|
    ensures forall k :: 0 <= k < |table| && k != key ==> r[k] == table[k]
    ensures 0 <= key < KEY_COUNT && action == GLFW_PRESS ==> r[key]
    ensures 0 <= key < KEY_COUNT && action == GLFW_RELEASE ==> !r[key]
    ensures !(0 <= key < KEY_COUNT) || (action != GLFW_PRESS && action != GLFW_RELEASE) ==> r == table
  {
    if 0 <= key < KEY_COUNT then
      if action == GLFW_PRESS then table[key := true]
      else if action == GLFW_RELEASE then table[key := false]
      else table
    else table
  }

  /** Position of a direction in the order DoMovement tests them. */
  function Rank(d: Movement): nat {
    match d
    case Forward => 0
    case Backward => 1
    case Left => 2
    case Right => 3
  }

  /** The directions DoMovement issues for a key table, in the order it issues them. Each
      direction is bound to two keys; opposing directions are checked independently. */
  function HeldDirections(keys: seq<bool>): (r: seq<Movement>)
    requires |keys| == KEY_COUNT
    ensures Forward in r <==> keys[KEY_W] || keys[KEY_UP]
    ensures Backward in r <==> keys[KEY_S] || keys[KEY_DOWN]
    ensures Left in r <==> keys[KEY_A] || keys[KEY_LEFT]
    ensures Right in r <==> keys[KEY_D] || keys[KEY_RIGHT]
    // each direction at most once, in the order Forward, Backward, Left, Right
    ensures InTestOrder(r)
  {
    var forward := Issue([], keys[KEY_W] || keys[KEY_UP], Forward);
    var backward := Issue(forward, keys[KEY_S] || keys[KEY_DOWN], Backward);
    var left := Issue(backward, keys[KEY_A] || keys[KEY_LEFT], Left);
    Issue(left, keys[KEY_D] || keys[KEY_RIGHT], Right)
  }

  /** Strictly increasing in Rank: no direction twice, and in the order they are checked. */
  predicate InTestOrder(ds: seq<Movement>) {
    forall i, j :: 0 <= i < j < |ds| ==> Rank(ds[i]) < Rank(ds[j])
  }

  predicate RanksBelow(ds: seq<Movement>, n: nat) {
    forall i :: 0 <= i < |ds| ==> Rank(ds[i]) < n
  }

  /** The directions issued so far, followed by `d` when its test succeeded. Only
      directions checked earlier can have been issued before `d`. */
  function Issue(issued: seq<Movement>, held: bool, d: Movement): (r: seq<Movement>)
    requires InTestOrder(issued) && RanksBelow(issued, Rank(d))
    ensures d in r <==> held
    ensures forall x :: x != d ==> (x in r <==> x in issued)
    ensures InTestOrder(r) && RanksBelow(r, Rank(d) + 1)
  {
    if held then issued + [d] else issued
  }

  /** Where a point ends after the moves `ds`, taken in order with one velocity. */
  function MoveAll(p: Vec3, front: Vec3, right: Vec3, ds: seq<Movement>, velocity: real): Vec3
    decreases ds
  {
    if ds == [] then p else MoveAll(Moved(p, front, right, ds[0], velocity), front, right, ds[1..], velocity)
  }

  lemma {:induction false} MoveAllSnoc(p: Vec3, front: Vec3, right: Vec3, ds: seq<Movement>, d: Movement, velocity: real)
    ensures MoveAll(p, front, right, ds + [d], velocity)
         == Moved(MoveAll(p, front, right, ds, velocity), front, right, d, velocity)
    decreases ds
  {
    if ds != [] {
      assert (ds + [d])[1..] == ds[1..] + [d];
      MoveAllSnoc(Moved(p, front, right, ds[0], velocity), front, right, ds[1..], d, velocity);
    }
  }

  /** One checked direction: moved when its test succeeded, left in place otherwise. */
  function MovedIf(p: Vec3, front: Vec3, right: Vec3, held: bool, d: Movement, velocity: real): Vec3 {
    if held then Moved(p, front, right, d, velocity) else p
  }

  /** One step of DoMovement: a direction whose test succeeded adds one move. */
  lemma MoveAllIssue(p: Vec3, front: Vec3, right: Vec3, issued: seq<Movement>, held: bool, d: Movement, velocity: real)
    requires InTestOrder(issued) && RanksBelow(issued, Rank(d))
    ensures MoveAll(p, front, right, Issue(issued, held, d), velocity)
         == MovedIf(MoveAll(p, front, right, issued, velocity), front, right, held, d, velocity)
  {
    if held {
      MoveAllSnoc(p, front, right, issued, d, velocity);
    }
  }

  /** The four tests of DoMovement, taken one after the other, move the camera exactly by
      the directions HeldDirections lists. */
  lemma HeldMovesCompose(keys: seq<bool>, p0: Vec3, p1: Vec3, p2: Vec3, p3: Vec3, p4: Vec3,
                         front: Vec3, right: Vec3, velocity: real)
    requires |keys| == KEY_COUNT
    requires p1 == MovedIf(p0, front, right, keys[KEY_W] || keys[KEY_UP], Forward, velocity)
    requires p2 == MovedIf(p1, front, right, keys[KEY_S] || keys[KEY_DOWN], Backward, velocity)
    requires p3 == MovedIf(p2, front, right, keys[KEY_A] || keys[KEY_LEFT], Left, velocity)
    requires p4 == MovedIf(p3, front, right, keys[KEY_D] || keys[KEY_RIGHT], Right, velocity)
    ensures p4 == MoveAll(p0, front, right, HeldDirections(keys), velocity)
  {
    var i1 := Issue([], keys[KEY_W] || keys[KEY_UP], Forward);
    MoveAllIssue(p0, front, right, [], keys[KEY_W] || keys[KEY_UP], Forward, velocity);
    assert MoveAll(p0, front, right, i1, velocity) == p1;
    var i2 := Issue(i1, keys[KEY_S] || keys[KEY_DOWN], Backward);
    MoveAllIssue(p0, front, right, i1, keys[KEY_S] || keys[KEY_DOWN], Backward, velocity);
    assert MoveAll(p0, front, right, i2, velocity) == p2;
    var i3 := Issue(i2, keys[KEY_A] || keys[KEY_LEFT], Left);
    MoveAllIssue(p0, front, right, i2, keys[KEY_A] || keys[KEY_LEFT], Left, velocity);
    assert MoveAll(p0, front, right, i3, velocity) == p3;
    MoveAllIssue(p0, front, right, i3, keys[KEY_D] || keys[KEY_RIGHT], Right, velocity);
  }

  /** Opposing directions both fire and cancel: when, on each axis, the keys of both
      directions or of neither are held, one frame's moves leave the position where it
      was, over the reals. */
  lemma {:induction false} OpposingKeysCancel(keys: seq<bool>, p: Vec3, front: Vec3, right: Vec3, velocity: real)
    requires |keys| == KEY_COUNT
    requires (keys[KEY_W] || keys[KEY_UP]) == (keys[KEY_S] || keys[KEY_DOWN])
    requires (keys[KEY_A] || keys[KEY_LEFT]) == (keys[KEY_D] || keys[KEY_RIGHT])
    ensures MoveAll(p, front, right, HeldDirections(keys), velocity) == p
  {
    var p1 := MovedIf(p, front, right, keys[KEY_W] || keys[KEY_UP], Forward, velocity);
    var p2 := MovedIf(p1, front, right, keys[KEY_S] || keys[KEY_DOWN], Backward, velocity);
    var p3 := MovedIf(p2, front, right, keys[KEY_A] || keys[KEY_LEFT], Left, velocity);
    var p4 := MovedIf(p3, front, right, keys[KEY_D] || keys[KEY_RIGHT], Right, velocity);
    HeldMovesCompose(keys, p, p1, p2, p3, p4, front, right, velocity);
    OppositeRestores(p, front, right, Forward, velocity);
    OppositeRestores(p2, front, right, Left, velocity);
  }

  /** The globals of main.cpp: the camera, the key table, the mouse state and the
      window's close-requested flag. */
  class AppState {
    const keys: array<bool>
    const camera: Camera
    var firstMouse: bool
    var lastX: real
    var lastY: real
    var windowShouldClose: bool

    ghost predicate Valid()
      reads this, camera
    {
      keys.Length == KEY_COUNT && camera.Valid()
    }

    /** Program start: the camera at (0, 0, 3) with default orientation, no key held, the
        next mouse event the first. lastY starts at WIDTH / 2 as in the source; the first
        mouse event overwrites it. */
    constructor (basisOf: BasisFunction)
      ensures Valid() && fresh(keys) && fresh(camera)
      ensures forall k :: 0 <= k < keys.Length ==> !keys[k]
      ensures camera.position == Vec3(0.0, 0.0, 3.0) && camera.worldUp == DefaultWorldUp
      ensures camera.yaw == YAW && camera.pitch == PITCH
      ensures firstMouse && !windowShouldClose
      ensures lastX == WIDTH as real / 2.0 && lastY == WIDTH as real / 2.0
    {
      keys := new bool[KEY_COUNT](_ => false);
      camera := new Camera(basisOf, Vec3(0.0, 0.0, 3.0));
      lastX := WIDTH as real / 2.0;
      lastY := WIDTH as real / 2.0;
      firstMouse := true;
      windowShouldClose := false;
    }

    /** ESCAPE pressed requests the window to close; a key in range is recorded as held
        on PRESS and as released on RELEASE. */
    method KeyCallback(key: int, scan: int, action: int, mode: int)
      requires Valid()
      modifies keys, this`windowShouldClose
      ensures Valid()
      ensures keys[..] == KeyTableAfter(old(keys[..]), key, action)
      ensures windowShouldClose == (old(windowShouldClose) || (key == KEY_ESCAPE && action == GLFW_PRESS))
    {
      if key == KEY_ESCAPE && action == GLFW_PRESS {
        windowShouldClose := true;
      }

      if 0 <= key < KEY_COUNT {
        if GLFW_PRESS == action {
          keys[key] := true;
        } else if GLFW_RELEASE == action {
          keys[key] := false;
        }
      }
    }

    /** One test of DoMovement: moves the camera in direction `d` when `key` or
        `alternative` is held. */
    method MoveIfHeld(key: int, alternative: int, d: Movement, deltaTime: real)
      requires Valid() && 0 <= key < KEY_COUNT && 0 <= alternative < KEY_COUNT
      modifies camera`position
      ensures Valid()
      ensures camera.position
           == MovedIf(old(camera.position), camera.front, camera.right, keys[key] || keys[alternative], d,
                      camera.movementSpeed * deltaTime)
    {
      if keys[key] || keys[alternative] {
        camera.ProcessKeyboard(d, deltaTime);
      }
    }

    /** Moves the camera once for every direction one of whose two keys is held, in the
        order Forward, Backward, Left, Right. */
    method DoMovement(deltaTime: real)
      requires Valid()
      modifies camera`position
      ensures Valid()
      ensures camera.position
           == MoveAll(old(camera.position), camera.front, camera.right, HeldDirections(keys[..]),
                      camera.movementSpeed * deltaTime)
    {
      ghost var p0 := camera.position;
      MoveIfHeld(KEY_W, KEY_UP, Forward, deltaTime);
      ghost var p1 := camera.position;
      MoveIfHeld(KEY_S, KEY_DOWN, Backward, deltaTime);
      ghost var p2 := camera.position;
      MoveIfHeld(KEY_A, KEY_LEFT, Left, deltaTime);
      ghost var p3 := camera.position;
      MoveIfHeld(KEY_D, KEY_RIGHT, Right, deltaTime);
      HeldMovesCompose(keys[..], p0, p1, p2, p3, camera.position, camera.front, camera.right,
                       camera.movementSpeed * deltaTime);
    }

    /** Turns an absolute cursor position into look offsets (zero on the first event, y
        inverted), remembers the position and passes the offsets to the camera with the
        pitch constrained. */
    method MouseCallback(xPos: real, yPos: real) returns (xOffset: real, yOffset: real)
      requires Valid()
      modifies this`firstMouse, this`lastX, this`lastY
      modifies camera`yaw, camera`pitch, camera`front, camera`right, camera`up
      ensures Valid()
      ensures !firstMouse && lastX == xPos && lastY == yPos
      ensures old(firstMouse) ==> xOffset == 0.0 && yOffset == 0.0
      ensures !old(firstMouse) ==> xOffset == xPos - old(lastX) && yOffset == old(lastY) - yPos
      ensures camera.yaw == old(camera.yaw) + xOffset * SENSITIVITY
      ensures -PITCH_LIMIT <= camera.pitch <= PITCH_LIMIT
      ensures -PITCH_LIMIT <= old(camera.pitch) + yOffset * SENSITIVITY <= PITCH_LIMIT
              ==> camera.pitch == old(camera.pitch) + yOffset * SENSITIVITY
      ensures old(camera.pitch) + yOffset * SENSITIVITY > PITCH_LIMIT ==> camera.pitch == PITCH_LIMIT
      ensures old(camera.pitch) + yOffset * SENSITIVITY < -PITCH_LIMIT ==> camera.pitch == -PITCH_LIMIT
      ensures camera.position == old(camera.position)
    {
      if firstMouse {
        lastX := xPos;
        lastY := yPos;
        firstMouse := false;
      }

      xOffset := xPos - lastX;
      yOffset := lastY - yPos;

      lastX := xPos;
      lastY := yPos;

      camera.ProcessMouseMovement(xOffset, yOffset);
    }
  }
}
