/**
 * The free-fly / FPS camera of utils/camera.hpp: Euler angles, a derived
 * front/right/up basis, keyboard movement that is ground-locked in FPS mode,
 * mouse look with a clamped pitch and scroll zoom with a clamped zoom.
 */
module CameraModel {
  import opened VectorMath

  // CameraDefaults
  const YAW: real := -90.0
  const PITCH: real := 0.0
  const SPEED: real := 2.5
  const SENSITIVITY: real := 0.1
  const ZOOM: real := 45.0

  /** The bounds ProcessMouseMovement and ProcessMouseScroll clamp to. */
  const MAX_PITCH: real := 89.0
  const MIN_ZOOM: real := 1.0
  const MAX_ZOOM: real := 45.0

  datatype Movement = FORWARD | BACKWARD | LEFT | RIGHT

  datatype Mode = FLY | FPS

  datatype Basis = Basis(front: Vec3, right: Vec3, up: Vec3)

  /**
   * The numerics updateVectors relies on and this model leaves abstract:
   * `euler(yaw, pitch)` is (cos yaw cos pitch, sin pitch, sin yaw cos pitch)
   * for angles in degrees, `normalize` is glm::normalize.
   */
  datatype Geometry = Geometry(euler: (real, real) -> Vec3, normalize: Normalizer)

  /** The basis updateVectors derives: front first, then right from front, then up. */
  function DerivedBasis(geo: Geometry, yaw: real, pitch: real, worldUp: Vec3): (b: Basis)
    ensures b.right == geo.normalize(Cross(b.front, worldUp))
    ensures b.up == geo.normalize(Cross(b.right, b.front))
  {
    var front := geo.normalize(geo.euler(yaw, pitch));
    var right := geo.normalize(Cross(front, worldUp));
    Basis(front, right, geo.normalize(Cross(right, front)))
  }

  /**
   * The Front the scalar constructor leaves, (0, 0, -1), is not the derived one
   * once the yaw differs from the default -90: at yaw 0 and pitch 0 the camera
   * looks along +x, for any trigonometry that gets cos 0 = 1 and sin 0 = 0.
   */
  lemma ScalarFrontIsStale(geo: Geometry, worldUp: Vec3)
    requires geo.euler(0.0, 0.0) == Vec3(1.0, 0.0, 0.0)
    requires geo.normalize(Vec3(1.0, 0.0, 0.0)) == Vec3(1.0, 0.0, 0.0)
    ensures DerivedBasis(geo, 0.0, 0.0, worldUp).front != Vec3(0.0, 0.0, -1.0)
  {
  }

  /** A reference saturating clamp of `v` into `[lo, hi]`. */
  function Clamp(v: real, lo: real, hi: real): (r: real)
    requires lo <= hi
    ensures lo <= r <= hi
    ensures lo <= v <= hi ==> r == v
    ensures v < lo ==> r == lo
    ensures v > hi ==> r == hi
  {
    if v < lo then lo else if v > hi then hi else v
  }

  /**
   * The matrix ProcessKeyboard multiplies every movement vector by: the
   * identity, with entry [1][1] zeroed in FPS mode.
   */
  function ModeModifier(mode: Mode): Mat3 {
    if mode == FPS then Identity3.(c1 := Identity3.c1.(y := 0.0)) else Identity3
  }

  /** A movement vector as FPS mode lets it act: with its vertical component dropped. */
  function Grounded(mode: Mode, v: Vec3): Vec3 {
    if mode == FPS then v.(y := 0.0) else v
  }

  /** Multiplying by the mode modifier grounds the vector in FPS mode and keeps it in FLY mode. */
  lemma ModifierApplied(mode: Mode, v: Vec3)
    ensures MulVec(ModeModifier(mode), v) == Grounded(mode, v)
  {
    if mode == FPS {
      assert MulVec(ModeModifier(mode), v) == v.(y := 0.0);
    }
  }

  /**
   * The two displacements one ProcessKeyboard call can apply in a frame:
   * velocity times the front and right vectors, each passed through the
   * mode modifier first.
   */
  datatype Strides = Strides(ahead: Vec3, aside: Vec3)

  /** The strides of ProcessKeyboard for a mode, basis and velocity (MovementSpeed * deltaTime). */
  function StridesFor(mode: Mode, front: Vec3, right: Vec3, velocity: real): (s: Strides)
    ensures mode == FPS ==> s.ahead.y == 0.0 && s.aside.y == 0.0
    ensures mode == FPS ==> s.ahead.x == front.x * velocity && s.ahead.z == front.z * velocity
    ensures mode == FPS ==> s.aside.x == right.x * velocity && s.aside.z == right.z * velocity
    ensures mode == FLY ==> s == Strides(Scale(front, velocity), Scale(right, velocity))
  {
    Strides(Scale(Grounded(mode, front), velocity), Scale(Grounded(mode, right), velocity))
  }

  /**
   * Where one ProcessKeyboard step in `direction` moves `position`: FORWARD and
   * BACKWARD displace it by the forward stride one way or the other, RIGHT and
   * LEFT by the sideways stride.
   */
  function Moved(position: Vec3, direction: Movement, s: Strides): Vec3 {
    match direction
    case FORWARD => Add(position, s.ahead)
    case BACKWARD => Sub(position, s.ahead)
    case RIGHT => Add(position, s.aside)
    case LEFT => Sub(position, s.aside)
  }

  /** The position after the steps `moves`, in order, with the same strides. */
  function Walk(position: Vec3, moves: seq<Movement>, s: Strides): Vec3
    decreases |moves|
  {
    if moves == [] then position
    else Moved(Walk(position, moves[..|moves| - 1], s), moves[|moves| - 1], s)
  }

  /** The zoom after ProcessMouseScroll(yoffset). */
  function ScrolledZoom(zoom: real, yoffset: real): (z: real)
    ensures MIN_ZOOM <= z <= MAX_ZOOM
    ensures z == Clamp(zoom - yoffset, MIN_ZOOM, MAX_ZOOM)
  {
    var z0 := zoom - yoffset;
    var z1 := if z0 < MIN_ZOOM then MIN_ZOOM else z0;
    if z1 > MAX_ZOOM then MAX_ZOOM else z1
  }

  /** The pitch after ProcessMouseMovement(_, yoffset, constrainPitch). */
  function LookPitch(pitch: real, yoffset: real, sensitivity: real, constrainPitch: bool): (p: real)
    ensures constrainPitch ==> p == Clamp(pitch + yoffset * sensitivity, -MAX_PITCH, MAX_PITCH)
    ensures !constrainPitch ==> p == pitch + yoffset * sensitivity
  {
    var p0 := pitch + yoffset * sensitivity;
    if constrainPitch then
      var p1 := if p0 > MAX_PITCH then MAX_PITCH else p0;
      if p1 < -MAX_PITCH then -MAX_PITCH else p1
    else p0
  }

  class Camera {
    // camera attributes
    var Position: Vec3
    var Front: Vec3
    var Up: Vec3
    var Right: Vec3
    var WorldUp: Vec3
    // Euler angles, in degrees
    var Yaw: real
    var Pitch: real
    // camera options
    var MovementSpeed: real
    var MouseSensitivity: real
    var Zoom: real
    var mode: Mode
    /** The trigonometry and normalisation updateVectors uses. */
    const geo: Geometry

    /** Front, Right and Up are what updateVectors derives from the current angles. */
    ghost predicate BasisDerived()
      reads this
    {
      Basis(Front, Right, Up) == DerivedBasis(geo, Yaw, Pitch, WorldUp)
    }

    /** The constructor with vectors: it derives the basis immediately. */
    constructor (geo: Geometry, position: Vec3 := Vec3(0.0, 0.0, 0.0), up: Vec3 := Vec3(0.0, 1.0, 0.0),
                 yaw: real := YAW, pitch: real := PITCH)
      ensures this.geo == geo
      ensures Position == position && WorldUp == up && Yaw == yaw && Pitch == pitch
      ensures MovementSpeed == SPEED && MouseSensitivity == SENSITIVITY && Zoom == ZOOM && mode == FLY
      ensures BasisDerived()
    {
      this.geo := geo;
      Position := position;
      Front := Vec3(0.0, 0.0, -1.0);
      WorldUp := up;
      Yaw := yaw;
      Pitch := pitch;
      MovementSpeed := SPEED;
      MouseSensitivity := SENSITIVITY;
      Zoom := ZOOM;
      mode := FLY;
      new;
      UpdateVectors();
    }

    /**
     * The constructor with scalars: it does not call updateVectors, so Front keeps
     * its initial (0, 0, -1) and Right and Up are never assigned; the contract
     * accordingly says nothing about them.
     */
    constructor FromScalars(geo: Geometry, posX: real, posY: real, posZ: real,
                            upX: real, upY: real, upZ: real, yaw: real, pitch: real)
      ensures this.geo == geo
      ensures Position == Vec3(posX, posY, posZ) && WorldUp == Vec3(upX, upY, upZ)
      ensures Yaw == yaw && Pitch == pitch
      ensures Front == Vec3(0.0, 0.0, -1.0)
      ensures MovementSpeed == SPEED && MouseSensitivity == SENSITIVITY && Zoom == ZOOM && mode == FLY
    {
      this.geo := geo;
      Position := Vec3(posX, posY, posZ);
      Front := Vec3(0.0, 0.0, -1.0);
      WorldUp := Vec3(upX, upY, upZ);
      Yaw := yaw;
      Pitch := pitch;
      MovementSpeed := SPEED;
      MouseSensitivity := SENSITIVITY;
      Zoom := ZOOM;
      mode := FLY;
    }

    /**
     * The scalar constructor as evidently intended, deriving the basis like the
     * vector constructor does.
     */
    constructor FromScalarsDerived(geo: Geometry, posX: real, posY: real, posZ: real,
                                   upX: real, upY: real, upZ: real, yaw: real, pitch: real)
      ensures this.geo == geo
      ensures Position == Vec3(posX, posY, posZ) && WorldUp == Vec3(upX, upY, upZ)
      ensures Yaw == yaw && Pitch == pitch
      ensures MovementSpeed == SPEED && MouseSensitivity == SENSITIVITY && Zoom == ZOOM && mode == FLY
      ensures BasisDerived()
    {
      this.geo := geo;
      Position := Vec3(posX, posY, posZ);
      Front := Vec3(0.0, 0.0, -1.0);
      WorldUp := Vec3(upX, upY, upZ);
      Yaw := yaw;
      Pitch := pitch;
      MovementSpeed := SPEED;
      MouseSensitivity := SENSITIVITY;
      Zoom := ZOOM;
      mode := FLY;
      new;
      UpdateVectors();
    }

    /** The view matrix: lookAt from Position towards Position + Front; it puts the eye at the origin. */
    method GetViewMatrix() returns (view: Mat4)
      ensures view == LookAt(Position, Add(Position, Front), Up, geo.normalize)
      ensures MulVec4(view, Point(Position)) == Vec4(0.0, 0.0, 0.0, 1.0)
    {
      view := LookAt(Position, Add(Position, Front), Up, geo.normalize);
    }

    method ProcessKeyboard(direction: Movement, deltaTime: real)
      modifies this`Position
      ensures Position == Moved(old(Position), direction, StridesFor(mode, Front, Right, MovementSpeed * deltaTime))
    {
      var velocity := MovementSpeed * deltaTime;
      var modeModifier := Identity3;
      if mode == FPS {
        modeModifier := modeModifier.(c1 := modeModifier.c1.(y := 0.0));
      }
      assert modeModifier == ModeModifier(mode);
      ModifierApplied(mode, Front);
      ModifierApplied(mode, Right);
      assert StridesFor(mode, Front, Right, velocity)
          == Strides(Scale(MulVec(modeModifier, Front), velocity), Scale(MulVec(modeModifier, Right), velocity));
      match direction {
        case FORWARD =>
          Position := Add(Position, Scale(MulVec(modeModifier, Front), velocity));
        case BACKWARD =>
          Position := Sub(Position, Scale(MulVec(modeModifier, Front), velocity));
        case RIGHT =>
          Position := Add(Position, Scale(MulVec(modeModifier, Right), velocity));
        case LEFT =>
          Position := Sub(Position, Scale(MulVec(modeModifier, Right), velocity));
      }
    }

    method ProcessMouseMovement(xoffset: real, yoffset: real, constrainPitch: bool := true)
      modifies this`Yaw, this`Pitch, this`Front, this`Right, this`Up
      ensures Yaw == old(Yaw) + xoffset * MouseSensitivity
      ensures Pitch == LookPitch(old(Pitch), yoffset, MouseSensitivity, constrainPitch)
      ensures constrainPitch ==> -MAX_PITCH <= Pitch <= MAX_PITCH
      ensures BasisDerived()
    {
      var xo := xoffset * MouseSensitivity;
      var yo := yoffset * MouseSensitivity;
      var pitch := Pitch + yo;
      if constrainPitch {
        if pitch > MAX_PITCH { pitch := MAX_PITCH; }
        if pitch < -MAX_PITCH { pitch := -MAX_PITCH; }
      }
      assert pitch == LookPitch(Pitch, yoffset, MouseSensitivity, constrainPitch);
      Yaw, Pitch := Yaw + xo, pitch;
      UpdateVectors();
    }

    method ProcessMouseScroll(yoffset: real)
      modifies this`Zoom
      ensures Zoom == ScrolledZoom(old(Zoom), yoffset)
      ensures MIN_ZOOM <= Zoom <= MAX_ZOOM
    {
      Zoom := Zoom - yoffset;
      if Zoom < MIN_ZOOM { Zoom := MIN_ZOOM; }
      if Zoom > MAX_ZOOM { Zoom := MAX_ZOOM; }
    }

    /** Re-derives Front, Right and Up from Yaw, Pitch and WorldUp. */
    method UpdateVectors()
      modifies this`Front, this`Right, this`Up
      ensures BasisDerived()
    {
      var front := geo.euler(Yaw, Pitch);
      Front := geo.normalize(front);
      Right := geo.normalize(Cross(Front, WorldUp));
      Up := geo.normalize(Cross(Right, Front));
    }
  }
}
