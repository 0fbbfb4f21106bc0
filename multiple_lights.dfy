/**
 * Lesson 05 (multiple lights): four point lights and a flashlight switched by
 * edge-triggered keys (a key toggles its light once per press, however long it
 * is held), the glow restart key, and the per-frame choice of which lights are
 * drawn and which light colours reach the shader.
 */
module MultipleLights {
  import opened VectorMath
  import opened CameraModel
  import opened HostInput

  const POINT_LIGHTS: nat := 4
  const GLOW_DURATION: real := 3.0

  /**
   * A key-driven toggle: `held` remembers whether the key was down at the last
   * poll (sLightBtnState, btnFPressed) and `on` is the light it switches
   * (sLightState, flashlightOn).
   */
  datatype Latch = Latch(held: bool, on: bool)

  /**
   * One poll of the key: a press on a key not yet held flips the light and marks
   * the key held, a press on a held key does nothing, a release unmarks the key.
   */
  function Poll(latch: Latch, pressed: bool): (r: Latch)
    ensures r.held == pressed
    ensures r.on == (latch.on != (pressed && !latch.held))
  {
    if pressed then
      if latch.held == false then Latch(true, !latch.on) else latch
    else
      latch.(held := false)
  }

  /** The latch after a run of polls, oldest first. */
  function PollAll(latch: Latch, presses: seq<bool>): Latch
    decreases |presses|
  {
    if presses == [] then latch else PollAll(Poll(latch, presses[0]), presses[1..])
  }

  /** The number of rising edges, key up to key down, in a run of polls that starts with the key `held` or not. */
  function Presses(held: bool, presses: seq<bool>): nat
    decreases |presses|
  {
    if presses == [] then 0
    else (if presses[0] && !held then 1 else 0) + Presses(presses[0], presses[1..])
  }

  /** The light is flipped once per rising edge, so its state records their parity. */
  lemma {:induction false} LatchCountsPresses(latch: Latch, presses: seq<bool>)
    ensures PollAll(latch, presses).on == (latch.on != (Presses(latch.held, presses) % 2 == 1))
    ensures presses != [] ==> PollAll(latch, presses).held == presses[|presses| - 1]
    ensures presses == [] ==> PollAll(latch, presses) == latch
    decreases |presses|
  {
    if presses != [] {
      LatchCountsPresses(Poll(latch, presses[0]), presses[1..]);
      if |presses| > 1 {
        assert presses[1..][|presses[1..]| - 1] == presses[|presses| - 1];
      }
    }
  }

  /** `n` consecutive polls with the key down. */
  function Holding(n: nat): (s: seq<bool>)
    ensures |s| == n && forall i :: 0 <= i < n ==> s[i]
  {
    if n == 0 then [] else [true] + Holding(n - 1)
  }

  /** Holding a key down for any number of frames toggles its light once, at the first frame. */
  lemma {:induction false} HoldingTogglesOnce(latch: Latch, n: nat)
    requires n >= 1
    ensures PollAll(latch, Holding(n)) == Poll(latch, true)
    decreases n
  {
    if n > 1 {
      assert Holding(n)[1..] == Holding(n - 1);
      HoldingTogglesOnce(Poll(latch, true), n - 1);
      assert Poll(Poll(latch, true), true) == Poll(latch, true);
    } else {
      assert Holding(n)[1..] == [];
    }
  }

  /** Press, release and press again: the light is back where it started. */
  lemma PressReleasePress(latch: Latch)
    requires !latch.held
    ensures PollAll(latch, [true, false, true]) == Latch(true, latch.on)
  {
    LatchCountsPresses(latch, [true, false, true]);
  }

  /** The colours one light sends to the shader. */
  datatype LightColors = LightColors(ambient: Vec3, diffuse: Vec3, specular: Vec3)

  /** lightColor, white throughout. */
  const LIGHT_COLOR: Vec3 := Vec3(1.0, 1.0, 1.0)

  const DARK: LightColors := LightColors(Zero3, Zero3, Zero3)

  /** glm's component-wise vector product. */
  function Modulate(a: Vec3, b: Vec3): Vec3 {
    Vec3(a.x * b.x, a.y * b.y, a.z * b.z)
  }

  /** A grey of intensity `k`, glm::vec3(k). */
  function Grey(k: real): Vec3 {
    Vec3(k, k, k)
  }

  /**
   * The ambient, diffuse and specular uniforms of a point light: the light colour
   * scaled by 0.2 and 0.5 and plain white when on, all zero when off.
   */
  function PointLightColors(on: bool): (c: LightColors)
    ensures c == DARK <==> !on
    ensures on ==> c == LightColors(Grey(0.2), Grey(0.5), Grey(1.0))
  {
    if on then LightColors(Modulate(LIGHT_COLOR, Grey(0.2)), Modulate(LIGHT_COLOR, Grey(0.5)), Vec3(1.0, 1.0, 1.0))
    else DARK
  }

  /** The flashlight's uniforms: a dim ambient and full diffuse and specular when on, zero when off. */
  function SpotLightColors(flashlightOn: bool): (c: LightColors)
    ensures c == DARK <==> !flashlightOn
    ensures flashlightOn ==> c == LightColors(Grey(0.1), Grey(1.0), Grey(1.0))
  {
    if flashlightOn then LightColors(Grey(0.1), Grey(1.0), Vec3(1.0, 1.0, 1.0))
    else LightColors(Grey(0.0), Grey(0.0), Grey(0.0))
  }

  /** The digit printed on a key, or 0 for a key that is not one of 1 to 4. */
  function Digit(k: Key): nat {
    match k
    case Key1 => 1
    case Key2 => 2
    case Key3 => 3
    case Key4 => 4
    case _ => 0
  }

  /** The key that switches point light `indx`: keys 1 to 4 for lights 0 to 3, one key per light. */
  function LightKey(indx: nat): (k: Key)
    requires indx < POINT_LIGHTS
    ensures Digit(k) == indx + 1
  {
    if indx == 0 then Key1 else if indx == 1 then Key2 else if indx == 2 then Key3 else Key4
  }

  /** What processLight does: its work, or the std::out_of_range that `.at` throws. */
  datatype Outcome = Done | OutOfRange

  /** The globals of lesson 05 that its input handling and light loops touch. */
  class MultipleLightsApp {
    const viewer: Viewer
    var flashlightOn: bool
    var btnFPressed: bool
    var glowStart: real
    const sLightState: array<bool>
    const sLightBtnState: array<bool>

    /** Both light arrays hold four entries and are distinct. */
    ghost predicate Valid() {
      sLightState.Length == POINT_LIGHTS && sLightBtnState.Length == POINT_LIGHTS && sLightState != sLightBtnState
    }

    ghost function LightLatch(indx: nat): Latch
      requires Valid() && indx < POINT_LIGHTS
      reads sLightState, sLightBtnState
    {
      Latch(sLightBtnState[indx], sLightState[indx])
    }

    ghost function Flashlight(): Latch
      reads this`btnFPressed, this`flashlightOn
    {
      Latch(btnFPressed, flashlightOn)
    }

    constructor (geo: Geometry)
      ensures Valid() && fresh(sLightState) && fresh(sLightBtnState)
      ensures fresh(viewer) && fresh(viewer.camera) && viewer.AtStart(geo)
      ensures sLightState[..] == [false, false, false, true] && sLightBtnState[..] == [false, false, false, false]
      ensures Flashlight() == Latch(false, false) && glowStart == -2.0 * GLOW_DURATION
    {
      viewer := new Viewer(geo);
      flashlightOn := false;
      btnFPressed := false;
      glowStart := -2.0 * GLOW_DURATION;
      sLightState := new bool[POINT_LIGHTS](i => i == 3);
      sLightBtnState := new bool[POINT_LIGHTS](i => false);
    }

    /**
     * processLight(indx, isOn): poll light `indx`'s key. Only entry `indx` of the
     * two arrays can change; an index past the arrays changes nothing.
     */
    method ProcessLight(indx: nat, isOn: bool) returns (outcome: Outcome)
      requires Valid()
      modifies sLightState, sLightBtnState
      ensures indx >= POINT_LIGHTS ==> outcome == OutOfRange && unchanged(sLightState, sLightBtnState)
      ensures indx < POINT_LIGHTS ==> outcome == Done && LightLatch(indx) == Poll(old(LightLatch(indx)), isOn)
      ensures forall j :: 0 <= j < POINT_LIGHTS && j != indx ==> LightLatch(j) == old(LightLatch(j))
    {
      if indx >= sLightBtnState.Length {
        return OutOfRange;
      }
      if isOn {
        if sLightBtnState[indx] == false {
          sLightBtnState[indx] := true;
          sLightState[indx] := !sLightState[indx];
        }
      } else {
        sLightBtnState[indx] := false;
      }
      return Done;
    }

    /** The two lines of processInput for one light key: a press polls with true, a release with false. */
    method PollLightKey(indx: nat, keys: KeyState)
      requires Valid() && indx < POINT_LIGHTS
      modifies sLightState, sLightBtnState
      ensures LightLatch(indx) == Poll(old(LightLatch(indx)), LightKey(indx) in keys)
      ensures forall j :: 0 <= j < POINT_LIGHTS && j != indx ==> LightLatch(j) == old(LightLatch(j))
    {
      var outcome;
      if LightKey(indx) in keys {
        outcome := ProcessLight(indx, true);
      }
      if LightKey(indx) !in keys {
        outcome := ProcessLight(indx, false);
      }
    }

    /** The four light-key lines of processInput, keys 1 to 4 in order. */
    method PollLightKeys(keys: KeyState)
      requires Valid()
      modifies sLightState, sLightBtnState
      ensures forall i :: 0 <= i < POINT_LIGHTS ==> LightLatch(i) == Poll(old(LightLatch(i)), LightKey(i) in keys)
    {
      PollLightKey(0, keys);
      PollLightKey(1, keys);
      PollLightKey(2, keys);
      PollLightKey(3, keys);
    }

    /** The flashlight lines of processInput: the F key polled by hand, as processLight polls a light. */
    method PollFlashlight(keys: KeyState)
      modifies this`flashlightOn, this`btnFPressed
      ensures Flashlight() == Poll(old(Flashlight()), KeyF in keys)
    {
      if KeyF in keys {
        if btnFPressed == false {
          btnFPressed := true;
          flashlightOn := !flashlightOn;
        }
      }
      if KeyF !in keys {
        btnFPressed := false;
      }
    }

    /**
     * processInput: the flashlight, the four light keys, the glow restart, the
     * WASD block and the bracket keys, in that order.
     */
    method ProcessInput(keys: KeyState)
      requires Valid()
      modifies this`flashlightOn, this`btnFPressed, this`glowStart, sLightState, sLightBtnState
      modifies viewer.camera`Position, viewer.camera`mode
      ensures Flashlight() == Poll(old(Flashlight()), KeyF in keys)
      ensures forall i :: 0 <= i < POINT_LIGHTS ==> LightLatch(i) == Poll(old(LightLatch(i)), LightKey(i) in keys)
      ensures glowStart == if KeyG in keys then viewer.lastFrame else old(glowStart)
      ensures viewer.camera.Position == WasdMoved(old(viewer.camera.Position), keys, old(viewer.FrameStrides()))
      ensures viewer.camera.mode == SwitchedMode(old(viewer.camera.mode), keys)
    {
      PollFlashlight(keys);
      PollLightKeys(keys);
      if KeyG in keys {
        glowStart := viewer.lastFrame;
      }
      viewer.MoveCamera(keys);
      viewer.SwitchCameraMode(keys);
    }

    /** The light-cube loop of the render loop: the indices of the point lights drawn, in order. */
    method LitLights() returns (drawn: seq<nat>)
      requires Valid()
      ensures forall i: nat :: i in drawn <==> i < POINT_LIGHTS && sLightState[i]
      ensures forall a, b :: 0 <= a < b < |drawn| ==> drawn[a] < drawn[b]
    {
      drawn := [];
      var indx := 0;
      while indx < POINT_LIGHTS
        invariant 0 <= indx <= POINT_LIGHTS
        invariant forall i: nat :: i in drawn <==> i < indx && sLightState[i]
        invariant forall a, b :: 0 <= a < b < |drawn| ==> drawn[a] < drawn[b]
        invariant forall a :: 0 <= a < |drawn| ==> drawn[a] < indx
      {
        if sLightState[indx] == false {
          indx := indx + 1;
          continue;
        }
        drawn := drawn + [indx];
        indx := indx + 1;
      }
    }

    /** The point-light uniform loop of the render loop: the colours sent for each light. */
    method PointLightUniforms() returns (colors: seq<LightColors>)
      requires Valid()
      ensures |colors| == POINT_LIGHTS
      ensures forall i :: 0 <= i < POINT_LIGHTS ==> colors[i] == PointLightColors(sLightState[i])
      ensures forall i :: 0 <= i < POINT_LIGHTS ==> (colors[i] == DARK <==> !sLightState[i])
    {
      colors := [];
      var i := 0;
      while i < POINT_LIGHTS
        invariant 0 <= i <= POINT_LIGHTS && |colors| == i
        invariant forall k :: 0 <= k < i ==> colors[k] == PointLightColors(sLightState[k])
      {
        var ambientColor := Modulate(LIGHT_COLOR, Grey(0.2));
        var diffuseColor := Modulate(LIGHT_COLOR, Grey(0.5));
        if sLightState[i] {
          colors := colors + [LightColors(ambientColor, diffuseColor, Vec3(1.0, 1.0, 1.0))];
        } else {
          colors := colors + [LightColors(Grey(0.0), Grey(0.0), Grey(0.0))];
        }
        i := i + 1;
      }
    }
  }
}
