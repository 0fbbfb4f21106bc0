/**
 * Lesson 04 (lighting maps): the keys that move the orbiting lamp (its height,
 * its orbit radius and its angular speed, the last two kept within bounds), and
 * the schedule that decides which way the four cubes spin.
 */
module LightingMaps {
  import opened VectorMath
  import opened CameraModel
  import opened HostInput

  /** lighterSpeed: the rate, per second, of the height and radius keys. */
  const LIGHTER_SPEED: real := 0.5
  /** The angular-speed keys change degreesPerSecond by 36 per second. */
  const SPEED_STEP: real := 36.0
  const MIN_RADIUS: real := 0.5
  const MAX_RADIUS: real := 10.0
  const MIN_SPEED: real := 1.0
  const MAX_SPEED: real := 360.0

  /** std::min(a, b): `b` when `b < a`, otherwise `a`. */
  function StdMin(a: real, b: real): (m: real)
    ensures m <= a && m <= b && (m == a || m == b)
  {
    if b < a then b else a
  }

  /** std::max(a, b): `b` when `a < b`, otherwise `a`. */
  function StdMax(a: real, b: real): (m: real)
    ensures m >= a && m >= b && (m == a || m == b)
  {
    if a < b then b else a
  }

  /** The lamp state the keys of processInput change. */
  datatype Lamp = Lamp(pos: Vec3, radius: real, speed: real)

  /** The lamp at start-up: lightPos (1.2, 1, 2), lighterRadius 5, degreesPerSecond 36. */
  const INITIAL_LAMP: Lamp := Lamp(Vec3(1.2, 1.0, 2.0), 5.0, 36.0)

  /** The radius and angular-speed ranges the arrow keys keep. */
  predicate InRanges(lamp: Lamp) {
    MIN_RADIUS <= lamp.radius <= MAX_RADIUS && MIN_SPEED <= lamp.speed <= MAX_SPEED
  }

  /** The UP key: grow the radius, capped at 10. */
  function RaisedRadius(radius: real, deltaTime: real): (r: real)
    ensures r <= MAX_RADIUS
    ensures radius + LIGHTER_SPEED * deltaTime <= MAX_RADIUS ==> r == radius + LIGHTER_SPEED * deltaTime
    ensures radius + LIGHTER_SPEED * deltaTime > MAX_RADIUS ==> r == MAX_RADIUS
  {
    StdMin(radius + LIGHTER_SPEED * deltaTime, MAX_RADIUS)
  }

  /** The DOWN key: shrink the radius, floored at 0.5. */
  function LoweredRadius(radius: real, deltaTime: real): (r: real)
    ensures r >= MIN_RADIUS
    ensures radius - LIGHTER_SPEED * deltaTime >= MIN_RADIUS ==> r == radius - LIGHTER_SPEED * deltaTime
    ensures radius - LIGHTER_SPEED * deltaTime < MIN_RADIUS ==> r == MIN_RADIUS
  {
    StdMax(radius - LIGHTER_SPEED * deltaTime, MIN_RADIUS)
  }

  /** The LEFT key: slow the orbit, floored at 1 degree per second. */
  function SlowedDown(speed: real, deltaTime: real): (s: real)
    ensures s >= MIN_SPEED
    ensures speed - SPEED_STEP * deltaTime >= MIN_SPEED ==> s == speed - SPEED_STEP * deltaTime
    ensures speed - SPEED_STEP * deltaTime < MIN_SPEED ==> s == MIN_SPEED
  {
    StdMax(speed - SPEED_STEP * deltaTime, MIN_SPEED)
  }

  /** The RIGHT key: speed the orbit up, capped at 360 degrees per second. */
  function SpedUp(speed: real, deltaTime: real): (s: real)
    ensures s <= MAX_SPEED
    ensures speed + SPEED_STEP * deltaTime <= MAX_SPEED ==> s == speed + SPEED_STEP * deltaTime
    ensures speed + SPEED_STEP * deltaTime > MAX_SPEED ==> s == MAX_SPEED
  {
    StdMin(speed + SPEED_STEP * deltaTime, MAX_SPEED)
  }

  /** The lamp height after COMMA (down) and PERIOD (up): no bound either way. */
  function HeightInput(y: real, keys: KeyState, deltaTime: real): (h: real)
    ensures h == y - (if Comma in keys then LIGHTER_SPEED * deltaTime else 0.0)
                   + (if Period in keys then LIGHTER_SPEED * deltaTime else 0.0)
  {
    var y1 := if Comma in keys then y - LIGHTER_SPEED * deltaTime else y;
    if Period in keys then y1 + LIGHTER_SPEED * deltaTime else y1
  }

  /** The orbit radius after UP and then DOWN. */
  function RadiusInput(radius: real, keys: KeyState, deltaTime: real): (r: real)
    ensures ArrowUp !in keys && ArrowDown !in keys ==> r == radius
    ensures ArrowDown in keys ==> r >= MIN_RADIUS
    ensures ArrowUp in keys && ArrowDown !in keys ==> r <= MAX_RADIUS
  {
    var r1 := if ArrowUp in keys then RaisedRadius(radius, deltaTime) else radius;
    if ArrowDown in keys then LoweredRadius(r1, deltaTime) else r1
  }

  /** The angular speed after LEFT and then RIGHT. */
  function SpeedInput(speed: real, keys: KeyState, deltaTime: real): (s: real)
    ensures ArrowLeft !in keys && ArrowRight !in keys ==> s == speed
    ensures ArrowRight in keys ==> s <= MAX_SPEED
    ensures ArrowLeft in keys && ArrowRight !in keys ==> s >= MIN_SPEED
  {
    var s1 := if ArrowLeft in keys then SlowedDown(speed, deltaTime) else speed;
    if ArrowRight in keys then SpedUp(s1, deltaTime) else s1
  }

  /**
   * The lamp after the lamp keys of one processInput call, checked in the
   * source's order: COMMA, PERIOD, UP, DOWN, LEFT, RIGHT. Only the height of
   * the position is theirs; x and z belong to the orbit.
   */
  function LampInput(lamp: Lamp, keys: KeyState, deltaTime: real): (r: Lamp)
    ensures r.pos.x == lamp.pos.x && r.pos.z == lamp.pos.z
  {
    Lamp(lamp.pos.(y := HeightInput(lamp.pos.y, keys, deltaTime)),
         RadiusInput(lamp.radius, keys, deltaTime),
         SpeedInput(lamp.speed, keys, deltaTime))
  }

  /**
   * With a non-negative frame time, one processInput call keeps the radius in
   * [0.5, 10] and the angular speed in [1, 360], whatever keys are held.
   */
  lemma LampInputKeepsRanges(lamp: Lamp, keys: KeyState, deltaTime: real)
    requires deltaTime >= 0.0 && InRanges(lamp)
    ensures InRanges(LampInput(lamp, keys, deltaTime))
  {
    var r1 := if ArrowUp in keys then RaisedRadius(lamp.radius, deltaTime) else lamp.radius;
    assert MIN_RADIUS <= r1 <= MAX_RADIUS;
    assert MIN_RADIUS <= RadiusInput(lamp.radius, keys, deltaTime) <= MAX_RADIUS;
    var s1 := if ArrowLeft in keys then SlowedDown(lamp.speed, deltaTime) else lamp.speed;
    assert MIN_SPEED <= s1 <= MAX_SPEED;
    assert MIN_SPEED <= SpeedInput(lamp.speed, keys, deltaTime) <= MAX_SPEED;
  }

  /** One iteration of the render loop as far as the lamp keys see it. */
  datatype Frame = Frame(keys: KeyState, deltaTime: real)

  /** The lamp after a run of frames, oldest first. */
  function LampAfter(lamp: Lamp, frames: seq<Frame>): Lamp
    decreases |frames|
  {
    if frames == [] then lamp
    else LampAfter(LampInput(lamp, frames[0].keys, frames[0].deltaTime), frames[1..])
  }

  /** The ranges are an invariant of the render loop while the clock does not run backwards. */
  lemma {:induction false} LampRangesInvariant(lamp: Lamp, frames: seq<Frame>)
    requires InRanges(lamp)
    requires forall i :: 0 <= i < |frames| ==> frames[i].deltaTime >= 0.0
    ensures InRanges(LampAfter(lamp, frames))
    decreases |frames|
  {
    if frames != [] {
      LampInputKeepsRanges(lamp, frames[0].keys, frames[0].deltaTime);
      LampRangesInvariant(LampInput(lamp, frames[0].keys, frames[0].deltaTime), frames[1..]);
    }
  }

  /** Over any run of frames the lamp's x and z (set by the orbit, not by keys) are untouched. */
  lemma {:induction false} LampKeysKeepOrbitPlane(lamp: Lamp, frames: seq<Frame>)
    ensures LampAfter(lamp, frames).pos.x == lamp.pos.x && LampAfter(lamp, frames).pos.z == lamp.pos.z
    decreases |frames|
  {
    if frames != [] {
      LampKeysKeepOrbitPlane(LampInput(lamp, frames[0].keys, frames[0].deltaTime), frames[1..]);
    }
  }

  const START_TIME: real := 3.0
  const TURNS_FOR: real := 3.0
  /** The four cubes of the scene, at the corners of a square in the y = 0 plane. */
  const CUBE_POS: seq<Vec3> := [Vec3(1.0, 0.0, 1.0), Vec3(-1.0, 0.0, 1.0), Vec3(-1.0, 0.0, -1.0), Vec3(1.0, 0.0, -1.0)]

  /** The per-frame values of the rotation schedule. */
  datatype Schedule = Schedule(relativeTime: real, numOfRotation: int, whoRotates: int, direction: int, angleDegrees: real)

  /**
   * The rotation schedule of one frame: nothing turns before second 3; then every
   * 3 seconds a new turn starts, the axis cycling through x, y, z, and each turn
   * sweeps one full revolution.
   */
  function RotationSchedule(currentFrame: real): (s: Schedule)
    ensures s.relativeTime >= 0.0
    ensures currentFrame >= START_TIME ==> s.relativeTime == currentFrame - START_TIME
    ensures currentFrame <= START_TIME ==> s.relativeTime == 0.0
    ensures s.numOfRotation >= 0
    ensures s.numOfRotation as real * TURNS_FOR <= s.relativeTime < (s.numOfRotation + 1) as real * TURNS_FOR
    ensures 0 <= s.whoRotates < |CUBE_POS| && s.whoRotates == s.numOfRotation % |CUBE_POS|
    ensures 0 <= s.direction < 3 && s.direction == s.numOfRotation % 3
    ensures 360.0 * s.numOfRotation as real <= s.angleDegrees < 360.0 * (s.numOfRotation + 1) as real
  {
    var relativeTime := StdMax(currentFrame - START_TIME, 0.0);
    var numOfRotation := (relativeTime / TURNS_FOR).Floor;
    Schedule(relativeTime, numOfRotation, numOfRotation % |CUBE_POS|, numOfRotation % 3,
             relativeTime * 360.0 / TURNS_FOR)
  }

  /** Three seconds later, the schedule has moved on by exactly one turn and one axis. */
  lemma ScheduleAdvances(currentFrame: real)
    requires currentFrame >= START_TIME
    ensures var s := RotationSchedule(currentFrame);
            var t := RotationSchedule(currentFrame + TURNS_FOR);
            t.numOfRotation == s.numOfRotation + 1 &&
            t.direction == (s.direction + 1) % 3 &&
            t.whoRotates == (s.whoRotates + 1) % |CUBE_POS|
  {
    var s := RotationSchedule(currentFrame);
    var t := RotationSchedule(currentFrame + TURNS_FOR);
    var n, m := s.numOfRotation, t.numOfRotation;
    assert t.relativeTime == s.relativeTime + TURNS_FOR;
    assert n < m by {
      assert (n + 1) as real * TURNS_FOR <= t.relativeTime < (m + 1) as real * TURNS_FOR;
    }
    assert m < n + 2 by {
      assert m as real * TURNS_FOR <= t.relativeTime < (n + 2) as real * TURNS_FOR;
    }
  }

  /**
   * The axis `dir` cube `pos` turns about: zero except at index `direction`,
   * which holds -z, -x*z or x for direction 0, 1 or 2.
   */
  function RotationAxis(direction: nat, pos: Vec3): (dir: Vec3)
    requires direction < 3
    ensures forall i :: 0 <= i < 3 && i != direction ==> Component(dir, i) == 0.0
    ensures direction == 0 ==> dir.x == -pos.z
    ensures direction == 1 ==> dir.y == -pos.x * pos.z
    ensures direction == 2 ==> dir.z == pos.x
  {
    if direction == 0 then WithComponent(Zero3, direction, -pos.z)
    else if direction == 2 then WithComponent(Zero3, direction, pos.x)
    else WithComponent(Zero3, direction, -pos.x * pos.z)
  }

  /** For every cube and every axis choice the rotation axis is a non-zero multiple of a unit axis. */
  lemma CubeAxesNonZero(direction: nat, i: nat)
    requires direction < 3 && i < |CUBE_POS|
    ensures RotationAxis(direction, CUBE_POS[i]) != Zero3
    ensures Component(RotationAxis(direction, CUBE_POS[i]), direction) == 1.0
         || Component(RotationAxis(direction, CUBE_POS[i]), direction) == -1.0
  {
    var pos := CUBE_POS[i];
    assert pos.x == 1.0 || pos.x == -1.0;
    assert pos.z == 1.0 || pos.z == -1.0;
    assert pos.x * pos.z == 1.0 || pos.x * pos.z == -1.0;
    var dir := RotationAxis(direction, pos);
    assert Component(dir, direction) == 1.0 || Component(dir, direction) == -1.0;
  }

  /** The render loop over the cubes: the axis each cube is rotated about this frame. */
  method CubeAxes(direction: nat) returns (axes: seq<Vec3>)
    requires direction < 3
    ensures |axes| == |CUBE_POS|
    ensures forall i :: 0 <= i < |axes| ==> axes[i] == RotationAxis(direction, CUBE_POS[i]) && axes[i] != Zero3
  {
    axes := [];
    var i := 0;
    while i < |CUBE_POS|
      invariant 0 <= i <= |CUBE_POS| && |axes| == i
      invariant forall k :: 0 <= k < i ==> axes[k] == RotationAxis(direction, CUBE_POS[k]) && axes[k] != Zero3
    {
      var pos := CUBE_POS[i];
      var dir := Zero3;
      if direction == 0 {
        dir := WithComponent(dir, direction, -pos.z);
      } else if direction == 2 {
        dir := WithComponent(dir, direction, pos.x);
      } else {
        dir := WithComponent(dir, direction, -pos.x * pos.z);
      }
      assert dir == RotationAxis(direction, pos);
      CubeAxesNonZero(direction, i);
      axes := axes + [dir];
      i := i + 1;
    }
  }

  /** The globals of lesson 04 that its input handling touches. */
  class LightingMapsApp {
    const viewer: Viewer
    var lightPos: Vec3
    var lighterRadius: real
    var degreesPerSecond: real

    ghost function LampState(): Lamp
      reads this
    {
      Lamp(lightPos, lighterRadius, degreesPerSecond)
    }

    constructor (geo: Geometry)
      ensures fresh(viewer) && fresh(viewer.camera) && viewer.AtStart(geo)
      ensures LampState() == INITIAL_LAMP && InRanges(LampState())
    {
      viewer := new Viewer(geo);
      lightPos := Vec3(1.2, 1.0, 2.0);
      lighterRadius := 5.0;
      degreesPerSecond := 36.0;
    }

    /**
     * processInput: the lamp keys, then the WASD block, then the bracket keys.
     * The movement uses the mode in force before the brackets are read.
     */
    method ProcessInput(keys: KeyState)
      modifies this`lightPos, this`lighterRadius, this`degreesPerSecond
      modifies viewer.camera`Position, viewer.camera`mode
      ensures LampState() == LampInput(old(LampState()), keys, viewer.deltaTime)
      ensures viewer.camera.Position == WasdMoved(old(viewer.camera.Position), keys, old(viewer.FrameStrides()))
      ensures viewer.camera.mode == SwitchedMode(old(viewer.camera.mode), keys)
    {
      MoveLamp(keys);
      viewer.MoveCamera(keys);
      viewer.SwitchCameraMode(keys);
    }

    /** The lamp keys of processInput: COMMA, PERIOD, UP, DOWN, LEFT, RIGHT, in that order. */
    method MoveLamp(keys: KeyState)
      modifies this`lightPos, this`lighterRadius, this`degreesPerSecond
      ensures LampState() == LampInput(old(LampState()), keys, viewer.deltaTime)
    {
      MoveLampHeight(keys);
      ResizeOrbit(keys);
      ChangeOrbitSpeed(keys);
    }

    /** COMMA and PERIOD: the lamp's height. */
    method MoveLampHeight(keys: KeyState)
      modifies this`lightPos
      ensures lightPos == old(lightPos).(y := HeightInput(old(lightPos.y), keys, viewer.deltaTime))
    {
      if Comma in keys {
        lightPos := lightPos.(y := lightPos.y - LIGHTER_SPEED * viewer.deltaTime);
      }
      if Period in keys {
        lightPos := lightPos.(y := lightPos.y + LIGHTER_SPEED * viewer.deltaTime);
      }
    }

    /** UP and DOWN: the orbit radius. */
    method ResizeOrbit(keys: KeyState)
      modifies this`lighterRadius
      ensures lighterRadius == RadiusInput(old(lighterRadius), keys, viewer.deltaTime)
    {
      if ArrowUp in keys {
        lighterRadius := lighterRadius + LIGHTER_SPEED * viewer.deltaTime;
        lighterRadius := StdMin(lighterRadius, MAX_RADIUS);
      }
      if ArrowDown in keys {
        lighterRadius := lighterRadius - LIGHTER_SPEED * viewer.deltaTime;
        lighterRadius := StdMax(lighterRadius, MIN_RADIUS);
      }
    }

    /** LEFT and RIGHT: the orbit's angular speed. */
    method ChangeOrbitSpeed(keys: KeyState)
      modifies this`degreesPerSecond
      ensures degreesPerSecond == SpeedInput(old(degreesPerSecond), keys, viewer.deltaTime)
    {
      if ArrowLeft in keys {
        var value := degreesPerSecond - SPEED_STEP * viewer.deltaTime;
        degreesPerSecond := StdMax(value, MIN_SPEED);
      }
      if ArrowRight in keys {
        var value := degreesPerSecond + SPEED_STEP * viewer.deltaTime;
        degreesPerSecond := StdMin(value, MAX_SPEED);
      }
    }
  }
}
