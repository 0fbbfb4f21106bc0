/**
 * The input handling that lessons 01, 04 and 05 share word for word: the
 * camera global with the cursor tracking of mouse_callback, scroll_callback,
 * the per-frame timing, and the WASD and bracket-key blocks of processInput.
 * Each lesson keeps these globals in one Viewer object.
 */
module HostInput {
  import opened VectorMath
  import opened CameraModel
  import CameraProperties

  const SCR_WIDTH: nat := 800
  const SCR_HEIGHT: nat := 600

  /** The keys the lessons poll with glfwGetKey. */
  datatype Key =
    | Escape | KeyX | KeyF | Key1 | Key2 | Key3 | Key4 | KeyG
    | KeyW | KeyS | KeyA | KeyD | LeftBracket | RightBracket
    | Comma | Period | ArrowUp | ArrowDown | ArrowLeft | ArrowRight

  /** The keys that read GLFW_PRESS in one frame; every other key reads GLFW_RELEASE. */
  type KeyState = set<Key>

  /** The cursor-tracking globals of mouse_callback. */
  datatype Cursor = Cursor(firstMouse: bool, lastX: real, lastY: real)

  datatype Offsets = Offsets(dx: real, dy: real)

  /** One cursor position reported to mouse_callback. */
  datatype Sample = Sample(x: real, y: real)

  /**
   * The offsets mouse_callback hands to the camera: the first event seeds the
   * last position with the current one, so it yields no movement; the y offset
   * is reversed because window y grows downwards.
   */
  function CursorOffsets(c: Cursor, xpos: real, ypos: real): (o: Offsets)
    ensures c.firstMouse ==> o == Offsets(0.0, 0.0)
    ensures !c.firstMouse ==> o == Offsets(xpos - c.lastX, c.lastY - ypos)
  {
    var seeded := if c.firstMouse then Cursor(false, xpos, ypos) else c;
    Offsets(xpos - seeded.lastX, seeded.lastY - ypos)
  }

  /** The summed offsets of a sequence of cursor events, oldest first. */
  function TotalOffsets(c: Cursor, events: seq<Sample>): Offsets
    decreases |events|
  {
    if events == [] then Offsets(0.0, 0.0)
    else
      var o := CursorOffsets(c, events[0].x, events[0].y);
      var rest := TotalOffsets(Cursor(false, events[0].x, events[0].y), events[1..]);
      Offsets(o.dx + rest.dx, o.dy + rest.dy)
  }

  /**
   * The offsets telescope: over any run of events the summed offsets are the
   * displacement from the first sample (or from the remembered one) to the last,
   * with no jump for the first event.
   */
  lemma {:induction false} OffsetsTelescope(c: Cursor, events: seq<Sample>)
    requires events != []
    ensures var start := if c.firstMouse then events[0] else Sample(c.lastX, c.lastY);
            var last := events[|events| - 1];
            TotalOffsets(c, events) == Offsets(last.x - start.x, start.y - last.y)
    decreases |events|
  {
    if |events| > 1 {
      OffsetsTelescope(Cursor(false, events[0].x, events[0].y), events[1..]);
    }
  }

  /** The order of the WASD checks in processInput. */
  function Rank(m: Movement): nat {
    match m
    case FORWARD => 0
    case BACKWARD => 1
    case LEFT => 2
    case RIGHT => 3
  }

  /** The call one `if (glfwGetKey(...) == GLFW_PRESS)` line of the WASD block issues. */
  function Held(keys: KeyState, k: Key, m: Movement): seq<Movement> {
    if k in keys then [m] else []
  }

  /** The ProcessKeyboard calls the WASD block issues, in order. */
  function WasdMoves(keys: KeyState): (moves: seq<Movement>)
    ensures (FORWARD in moves <==> KeyW in keys) && (BACKWARD in moves <==> KeyS in keys)
    ensures (LEFT in moves <==> KeyA in keys) && (RIGHT in moves <==> KeyD in keys)
    ensures forall i :: 0 < i < |moves| ==> Rank(moves[i - 1]) < Rank(moves[i])
  {
    Held(keys, KeyW, FORWARD) + Held(keys, KeyS, BACKWARD) + Held(keys, KeyA, LEFT) + Held(keys, KeyD, RIGHT)
  }

  /** The net number of steps a pair of opposing keys issues: 1, -1, or 0 for both or neither. */
  function Net(keys: KeyState, plus: Key, minus: Key): real {
    (if plus in keys then 1.0 else 0.0) - (if minus in keys then 1.0 else 0.0)
  }

  /**
   * The position after the WASD block: each held key moves the camera once, in
   * W, S, A, D order. Net, the camera moves by (W - S) forward strides and
   * (D - A) sideways strides.
   */
  function WasdMoved(position: Vec3, keys: KeyState, s: Strides): (p: Vec3)
    ensures p == Add(position, Add(Scale(s.ahead, Net(keys, KeyW, KeyS)), Scale(s.aside, Net(keys, KeyD, KeyA))))
  {
    var afterW := if KeyW in keys then Moved(position, FORWARD, s) else position;
    var afterS := if KeyS in keys then Moved(afterW, BACKWARD, s) else afterW;
    var afterA := if KeyA in keys then Moved(afterS, LEFT, s) else afterS;
    var afterD := if KeyD in keys then Moved(afterA, RIGHT, s) else afterA;
    AheadThenBack(position, KeyW in keys, KeyS in keys, s.ahead, Net(keys, KeyW, KeyS));
    BackThenAhead(afterS, KeyA in keys, KeyD in keys, s.aside, Net(keys, KeyD, KeyA));
    afterD
  }

  /** An optional step by `v` followed by an optional step by `-v` nets `k` steps by `v`. */
  lemma AheadThenBack(p: Vec3, ahead: bool, back: bool, v: Vec3, k: real)
    requires k == (if ahead then 1.0 else 0.0) - (if back then 1.0 else 0.0)
    ensures (var a := if ahead then Add(p, v) else p; if back then Sub(a, v) else a) == Add(p, Scale(v, k))
  {
  }

  /** An optional step by `-v` followed by an optional step by `v` nets `k` steps by `v`. */
  lemma BackThenAhead(p: Vec3, back: bool, ahead: bool, v: Vec3, k: real)
    requires k == (if ahead then 1.0 else 0.0) - (if back then 1.0 else 0.0)
    ensures (var a := if back then Sub(p, v) else p; if ahead then Add(a, v) else a) == Add(p, Scale(v, k))
  {
  }

  /** Appending one possibly-issued call to a walk. */
  lemma WalkHeld(position: Vec3, done: seq<Movement>, held: bool, m: Movement, s: Strides)
    ensures Walk(position, done + (if held then [m] else []), s)
         == if held then Moved(Walk(position, done, s), m, s)
            else Walk(position, done, s)
  {
    if held {
      assert (done + [m])[..|done|] == done;
    } else {
      assert done + [] == done;
    }
  }

  /** The WASD block is the walk along WasdMoves(keys). */
  lemma WasdMovedIsWalk(position: Vec3, keys: KeyState, s: Strides)
    ensures WasdMoved(position, keys, s) == Walk(position, WasdMoves(keys), s)
  {
    var w := Held(keys, KeyW, FORWARD);
    var ws := w + Held(keys, KeyS, BACKWARD);
    var wsa := ws + Held(keys, KeyA, LEFT);
    assert Walk(position, [], s) == position;
    WalkHeld(position, [], KeyW in keys, FORWARD, s);
    assert [] + w == w;
    WalkHeld(position, w, KeyS in keys, BACKWARD, s);
    WalkHeld(position, ws, KeyA in keys, LEFT, s);
    WalkHeld(position, wsa, KeyD in keys, RIGHT, s);
  }

  /** WasdMoved, one held-key check at a time. */
  lemma WasdMovedSteps(p0: Vec3, p1: Vec3, p2: Vec3, p3: Vec3, p4: Vec3, keys: KeyState, s: Strides)
    requires p1 == if KeyW in keys then Moved(p0, FORWARD, s) else p0
    requires p2 == if KeyS in keys then Moved(p1, BACKWARD, s) else p1
    requires p3 == if KeyA in keys then Moved(p2, LEFT, s) else p2
    requires p4 == if KeyD in keys then Moved(p3, RIGHT, s) else p3
    ensures p4 == WasdMoved(p0, keys, s)
  {
  }

  /** The camera mode after the bracket-key block: the right bracket is checked last and wins. */
  function SwitchedMode(mode: Mode, keys: KeyState): (m: Mode)
    ensures RightBracket in keys ==> m == FPS
    ensures LeftBracket in keys && RightBracket !in keys ==> m == FLY
    ensures LeftBracket !in keys && RightBracket !in keys ==> m == mode
  {
    var afterLeft := if LeftBracket in keys && mode != FLY then FLY else mode;
    if RightBracket in keys && afterLeft != FPS then FPS else afterLeft
  }

  /** Holding W with S, and A with D, leaves the camera where it was (over the reals). */
  lemma OpposingKeysCancel(position: Vec3, keys: KeyState, s: Strides)
    requires (KeyW in keys <==> KeyS in keys) && (KeyA in keys <==> KeyD in keys)
    ensures WasdMoved(position, keys, s) == position
  {
    CameraProperties.OppositeStepsCancel(position, s);
    var afterS := if KeyW in keys then Moved(Moved(position, FORWARD, s), BACKWARD, s) else position;
    assert afterS == position;
    CameraProperties.OppositeStepsCancel(afterS, s);
  }

  /** The globals every lesson declares for its camera, cursor and frame timing. */
  class Viewer {
    const camera: Camera
    var lastX: real
    var lastY: real
    var firstMouse: bool
    var deltaTime: real
    var lastFrame: real

    ghost function CursorState(): Cursor
      reads this
    {
      Cursor(firstMouse, lastX, lastY)
    }

    /**
     * The state every lesson starts in: `Camera camera(glm::vec3(0.0, 0.0, 3.0))`
     * with the camera defaults and its basis derived, the cursor awaiting its
     * first event at the screen centre, and the frame timing at 0.
     */
    ghost predicate AtStart(geo: Geometry)
      reads this, camera
    {
      && camera.geo == geo
      && camera.Position == Vec3(0.0, 0.0, 3.0) && camera.WorldUp == Vec3(0.0, 1.0, 0.0)
      && camera.Yaw == YAW && camera.Pitch == PITCH && camera.BasisDerived()
      && camera.MovementSpeed == SPEED && camera.MouseSensitivity == SENSITIVITY
      && camera.Zoom == ZOOM && camera.mode == FLY
      && CursorState() == Cursor(true, 400.0, 300.0)
      && deltaTime == 0.0 && lastFrame == 0.0
    }

    /** `Camera camera(glm::vec3(0.0, 0.0, 3.0))` and the cursor starting at the screen centre. */
    constructor (geo: Geometry)
      ensures fresh(camera) && AtStart(geo)
    {
      camera := new Camera(geo, Vec3(0.0, 0.0, 3.0));
      lastX := SCR_WIDTH as real / 2.0;
      lastY := SCR_HEIGHT as real / 2.0;
      firstMouse := true;
      deltaTime := 0.0;
      lastFrame := 0.0;
    }

    /** The per-frame time logic at the top of the render loop; `currentFrame` is glfwGetTime(). */
    method NextFrame(currentFrame: real)
      modifies this`deltaTime, this`lastFrame
      ensures deltaTime == currentFrame - old(lastFrame) && lastFrame == currentFrame
      ensures currentFrame >= old(lastFrame) ==> deltaTime >= 0.0
    {
      deltaTime := currentFrame - lastFrame;
      lastFrame := currentFrame;
    }

    method MouseCallback(xpos: real, ypos: real)
      modifies this`lastX, this`lastY, this`firstMouse
      modifies camera`Yaw, camera`Pitch, camera`Front, camera`Right, camera`Up
      ensures CursorState() == Cursor(false, xpos, ypos)
      ensures var o := CursorOffsets(old(CursorState()), xpos, ypos);
              camera.Yaw == old(camera.Yaw) + o.dx * camera.MouseSensitivity &&
              camera.Pitch == LookPitch(old(camera.Pitch), o.dy, camera.MouseSensitivity, true)
      ensures -MAX_PITCH <= camera.Pitch <= MAX_PITCH && camera.BasisDerived()
    {
      if firstMouse {
        firstMouse := false;
        lastX := xpos;
        lastY := ypos;
      }
      var xoffset := xpos - lastX;
      var yoffset := lastY - ypos;
      lastX := xpos;
      lastY := ypos;
      assert Offsets(xoffset, yoffset) == CursorOffsets(old(CursorState()), xpos, ypos);
      camera.ProcessMouseMovement(xoffset, yoffset);
    }

    /** Only the vertical scroll offset reaches the camera. */
    method ScrollCallback(xoffset: real, yoffset: real)
      modifies camera`Zoom
      ensures camera.Zoom == ScrolledZoom(old(camera.Zoom), yoffset)
    {
      camera.ProcessMouseScroll(yoffset);
    }

    /** This frame's strides of the camera. */
    ghost function FrameStrides(): Strides
      reads this`deltaTime, camera`mode, camera`Front, camera`Right, camera`MovementSpeed
    {
      StridesFor(camera.mode, camera.Front, camera.Right, camera.MovementSpeed * deltaTime)
    }

    /** One line of the WASD block: a ProcessKeyboard call when its key is held. */
    method MoveIfHeld(held: bool, direction: Movement)
      modifies camera`Position
      ensures camera.Position == if held then Moved(old(camera.Position), direction, FrameStrides()) else old(camera.Position)
    {
      if held {
        camera.ProcessKeyboard(direction, deltaTime);
      }
    }

    /** The WASD block: one ProcessKeyboard call per held key, with this frame's deltaTime. */
    method MoveCamera(keys: KeyState)
      modifies camera`Position
      ensures camera.Position == WasdMoved(old(camera.Position), keys, FrameStrides())
    {
      ghost var p0 := camera.Position;
      MoveIfHeld(KeyW in keys, FORWARD);
      ghost var p1 := camera.Position;
      MoveIfHeld(KeyS in keys, BACKWARD);
      ghost var p2 := camera.Position;
      MoveIfHeld(KeyA in keys, LEFT);
      ghost var p3 := camera.Position;
      MoveIfHeld(KeyD in keys, RIGHT);
      WasdMovedSteps(p0, p1, p2, p3, camera.Position, keys, FrameStrides());
    }

    /** The bracket-key block: '[' selects FLY, ']' selects FPS. */
    method SwitchCameraMode(keys: KeyState)
      modifies camera`mode
      ensures camera.mode == SwitchedMode(old(camera.mode), keys)
    {
      if LeftBracket in keys {
        if camera.mode != FLY {
          camera.mode := FLY;
        }
      }
      if RightBracket in keys {
        if camera.mode != FPS {
          camera.mode := FPS;
        }
      }
    }
  }
}
