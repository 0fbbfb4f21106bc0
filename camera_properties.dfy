/**
 * Properties of the camera's update functions that relate several calls:
 * ground-locked walking, opposite keys cancelling, and the zoom range being
 * kept by any sequence of scroll events.
 */
module CameraProperties {
  import opened VectorMath
  import opened CameraModel

  /** One ProcessKeyboard call: its direction and the front, right and velocity in force then. */
  datatype KeyStep = KeyStep(direction: Movement, front: Vec3, right: Vec3, velocity: real)

  /**
   * The position after the ProcessKeyboard calls `steps`, oldest first, in mode
   * `mode`. Each call brings its own front, right and velocity, since the mouse
   * and deltaTime change them between frames.
   */
  function Stepped(position: Vec3, mode: Mode, steps: seq<KeyStep>): Vec3
    decreases |steps|
  {
    if steps == [] then position
    else
      var last := steps[|steps| - 1];
      Moved(Stepped(position, mode, steps[..|steps| - 1]), last.direction,
            StridesFor(mode, last.front, last.right, last.velocity))
  }

  /** In FPS mode no sequence of keyboard steps changes the camera's height. */
  lemma {:induction false} FpsWalkKeepsHeight(position: Vec3, steps: seq<KeyStep>)
    ensures Stepped(position, FPS, steps).y == position.y
    decreases |steps|
  {
    if steps != [] {
      FpsWalkKeepsHeight(position, steps[..|steps| - 1]);
    }
  }

  /** The directions of `steps`, in order. */
  function Directions(steps: seq<KeyStep>): (d: seq<Movement>)
    ensures |d| == |steps| && forall i :: 0 <= i < |steps| ==> d[i] == steps[i].direction
  {
    seq(|steps|, i requires 0 <= i < |steps| => steps[i].direction)
  }

  /**
   * Steps that share one front, right and velocity (one frame's WASD block)
   * move the camera as the walk along their directions with that frame's strides.
   */
  lemma {:induction false} OneFrameStepsWalk(position: Vec3, mode: Mode, steps: seq<KeyStep>, front: Vec3, right: Vec3, velocity: real)
    requires forall i :: 0 <= i < |steps| ==> steps[i].front == front && steps[i].right == right && steps[i].velocity == velocity
    ensures Stepped(position, mode, steps) == Walk(position, Directions(steps), StridesFor(mode, front, right, velocity))
    decreases |steps|
  {
    if steps != [] {
      var init := steps[..|steps| - 1];
      assert Directions(steps)[..|steps| - 1] == Directions(init);
      OneFrameStepsWalk(position, mode, init, front, right, velocity);
    }
  }

  /** In either mode, a step and its opposite in the same frame restore the position. */
  lemma OppositeStepsCancel(position: Vec3, s: Strides)
    ensures Moved(Moved(position, FORWARD, s), BACKWARD, s) == position
    ensures Moved(Moved(position, BACKWARD, s), FORWARD, s) == position
    ensures Moved(Moved(position, RIGHT, s), LEFT, s) == position
    ensures Moved(Moved(position, LEFT, s), RIGHT, s) == position
  {
  }

  /** The zoom after a sequence of scroll events, oldest first. */
  function ScrolledZoomAll(zoom: real, yoffsets: seq<real>): real
    decreases |yoffsets|
  {
    if yoffsets == [] then zoom else ScrolledZoomAll(ScrolledZoom(zoom, yoffsets[0]), yoffsets[1..])
  }

  /** After at least one scroll event, or from an in-range start, the zoom is in [1, 45]. */
  lemma {:induction false} ZoomStaysInRange(zoom: real, yoffsets: seq<real>)
    requires yoffsets != [] || MIN_ZOOM <= zoom <= MAX_ZOOM
    ensures MIN_ZOOM <= ScrolledZoomAll(zoom, yoffsets) <= MAX_ZOOM
    decreases |yoffsets|
  {
    if yoffsets != [] {
      ZoomStaysInRange(ScrolledZoom(zoom, yoffsets[0]), yoffsets[1..]);
    }
  }
}
