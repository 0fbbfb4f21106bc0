# Camera and lesson input model

This project models the reusable camera of a set of OpenGL lessons and the
input handling that the lessons wrap around it. Everything is verified in Dafny.

- **The camera** (`utils/camera.hpp`) holds:
  - a position;
  - Euler angles (yaw, pitch) in degrees;
  - a front/right/up basis derived from those angles;
  - a movement speed, a mouse sensitivity and a zoom;
  - a FLY/FPS mode.

  Keyboard steps move the position along the front or right vector. In FPS mode
  a step drops the vertical component, so walking never changes the height.
  Mouse movement turns the camera, with the pitch clamped to [-89, 89]. Scrolling
  changes the zoom, clamped to [1, 45]. The view matrix is glm's right-handed
  `lookAt` from the position towards position + front.
- **The lessons' globals** (`01_colors`, `04_lighting-maps`, `05_multiple-lights`)
  each become a class whose fields are the lesson's globals.
  - All three lessons share a block of code that behaves identically, line for line:
    - the camera;
    - the cursor tracking of `mouse_callback`, whose first event seeds the last
      position and so yields no movement;
    - `scroll_callback`;
    - the WASD block;
    - the bracket keys that pick FLY or FPS.

    That block is modelled once, as `HostInput.Viewer`, which each lesson
    class holds.
  - Lesson 04 adds the lamp keys:
    - the height moves freely;
    - the orbit radius stays in [0.5, 10];
    - the angular speed stays in [1, 360].

    It also adds the schedule that spins its four cubes: every 3 seconds the
    rotation axis cycles through x, y and z.
  - Lesson 05 adds:
    - four point lights and a flashlight, each switched by an edge-triggered
      key that toggles once per press however long it is held;
    - the glow restart key;
    - the loops that pick which light cubes are drawn and which light colours
      reach the shader.

Scalars are exact reals.

The cosine/sine formula and `glm::normalize` inside `updateVectors` need
trigonometry and a square root. They are a `Geometry` value (two function values)
passed to the camera's constructors. Every contract about the basis is stated in
terms of that value. `glm::cross` and the `lookAt` entries are computed exactly.

Two consequences of the code are worth stating:
- In FPS mode the movement vector loses its world y component, whatever
  `WorldUp` is. Walking therefore keeps the y coordinate, not the component
  along `WorldUp`.
- The basis is stated to be what `updateVectors` derives. Unit length and
  orthogonality are not claimed (see Left out).

Modules: `VectorMath` (vectors, matrices, `lookAt`), `CameraModel` (the
`Camera` class and the functions that specify it), `CameraProperties`
(multi-call properties), `HostInput` (the shared `Viewer`), `ColorsLesson`,
`LightingMaps`, `MultipleLights`.

## Model

| member | source | states |
|---|---|---|
| VectorMath.LookAt | utils/camera.hpp:84-87 | the lookAt view matrix sends the eye (the camera position) to the origin |
| CameraModel.DerivedBasis | utils/camera.hpp:139-149 | right is the normalised cross of front and world up; up is the normalised cross of right and front |
| CameraModel.ScalarFrontIsStale | utils/camera.hpp:69-81 | the (0, 0, -1) front that the scalar constructor leaves differs from the derived front at yaw 0, pitch 0 |
| CameraModel.ModeModifier | utils/camera.hpp:93-95 | the matrix every movement vector is multiplied by: the identity, with entry [1][1] zeroed in FPS mode (its effect is ModifierApplied) |
| CameraModel.ModifierApplied | utils/camera.hpp:93-95 | multiplying by the mode modifier zeroes the y component in FPS mode and leaves the vector alone in FLY mode |
| CameraModel.Moved | utils/camera.hpp:96-110 | one step: FORWARD and BACKWARD add or subtract the forward stride, RIGHT and LEFT the sideways stride (OppositeStepsCancel relates each to its opposite) |
| CameraModel.StridesFor | utils/camera.hpp:92-95 | a step's displacement is velocity times front or right; in FPS mode its y component is 0 and x, z are kept |
| CameraModel.ScrolledZoom | utils/camera.hpp:132-137 | the new zoom is `zoom - yoffset` clamped to [1, 45]; it is always in range |
| CameraModel.LookPitch | utils/camera.hpp:113-126 | the new pitch is `pitch + yoffset*sensitivity`, clamped to [-89, 89] exactly when constrainPitch holds |
| CameraModel.Camera.constructor | utils/camera.hpp:51-66 | it keeps position, up, yaw and pitch; it sets speed 2.5, sensitivity 0.1, zoom 45 and mode FLY; it derives the basis |
| CameraModel.Camera.FromScalars | utils/camera.hpp:69-81 | it sets position and up from the scalars, keeps yaw and pitch and the defaults, and leaves Front = (0, 0, -1); Right and Up are never set |
| CameraModel.Camera.FromScalarsDerived | utils/camera.hpp:69-81 | the scalar constructor with the basis derived, as the vector constructor does it |
| CameraModel.Camera.GetViewMatrix | utils/camera.hpp:84-87 | it returns lookAt(Position, Position + Front, Up), which maps Position to the origin; no field changes |
| CameraModel.Camera.ProcessKeyboard | utils/camera.hpp:90-111 | only Position changes, by one step of the frame's strides in the given direction |
| CameraModel.Camera.ProcessMouseMovement | utils/camera.hpp:113-130 | yaw grows by `xoffset*sensitivity` without bound; pitch follows LookPitch and is in [-89, 89] when constrained; the basis is re-derived; position, zoom, mode and world up are untouched |
| CameraModel.Camera.ProcessMouseScroll | utils/camera.hpp:132-137 | only Zoom changes, to ScrolledZoom of the old zoom, within [1, 45] |
| CameraModel.Camera.UpdateVectors | utils/camera.hpp:139-149 | Front, Right and Up become the basis derived from Yaw, Pitch and WorldUp |
| CameraProperties.OneFrameStepsWalk | utils/camera.hpp:90-111 | keyboard calls that share one front, right and velocity move the camera as the walk along their directions with that one frame's strides |
| CameraProperties.FpsWalkKeepsHeight | utils/camera.hpp:93-109 | in FPS mode no sequence of keyboard steps changes the height, even when front, right and deltaTime change between steps |
| CameraProperties.OppositeStepsCancel | utils/camera.hpp:98-109 | FORWARD then BACKWARD, and RIGHT then LEFT (either order), with the same strides restore the position |
| CameraProperties.ZoomStaysInRange | utils/camera.hpp:132-137 | after any non-empty sequence of scroll events, or from an in-range zoom, the zoom is in [1, 45] |
| HostInput.CursorOffsets | 01_colors/main.cpp:276-295 | the first event yields zero offsets; later ones yield `xpos - lastX` and the reversed `lastY - ypos` |
| HostInput.OffsetsTelescope | 01_colors/main.cpp:281-292 | over any run of events the summed offsets are the displacement from the first (or the remembered) position to the last, with y reversed |
| HostInput.WasdMoves | 01_colors/main.cpp:251-254 | each of W, S, A, D issues its own direction's step exactly when held, in W, S, A, D order |
| HostInput.WasdMoved | 01_colors/main.cpp:251-254 | the four WASD lines in source order; net, the camera moves by (W - S) forward strides and (D - A) sideways strides, each key counting 1 when held |
| HostInput.WasdMovedIsWalk | 01_colors/main.cpp:251-254 | the WASD block moves the camera as the walk along WasdMoves does |
| HostInput.OpposingKeysCancel | 01_colors/main.cpp:251-254 | holding W with S and A with D leaves the position unchanged |
| HostInput.SwitchedMode | 01_colors/main.cpp:257-272 | a held right bracket selects FPS, even with the left bracket held; a left bracket alone selects FLY; neither leaves the mode |
| HostInput.Viewer.constructor | 05_multiple-lights/main.cpp:44-51 | AtStart: the camera sits at (0, 0, 3) with yaw -90, pitch 0, speed 2.5, sensitivity 0.1, zoom 45, FLY and its basis derived; the cursor awaits its first event at the screen centre (400, 300); deltaTime and lastFrame are 0 |
| HostInput.Viewer.NextFrame | 05_multiple-lights/main.cpp:181-184 | deltaTime is the time since the last frame, non-negative for a monotone clock, and lastFrame advances |
| HostInput.Viewer.MouseCallback | 05_multiple-lights/main.cpp:435-454 | the cursor state becomes (not first, xpos, ypos), and the camera turns by CursorOffsets of the old cursor state with the pitch constrained |
| HostInput.Viewer.ScrollCallback | 05_multiple-lights/main.cpp:456-459 | only the y offset reaches the camera; the zoom becomes ScrolledZoom of the old zoom |
| HostInput.Viewer.MoveIfHeld | 05_multiple-lights/main.cpp:410 | one WASD line: the camera steps once if the key is held and stays put otherwise |
| HostInput.Viewer.MoveCamera | 05_multiple-lights/main.cpp:410-413 | the camera's position becomes WasdMoved of the old position with the frame's strides; nothing else changes |
| HostInput.Viewer.SwitchCameraMode | 05_multiple-lights/main.cpp:416-431 | only the camera's mode changes, to SwitchedMode of the old one |
| ColorsLesson.ColorsApp.constructor | 01_colors/main.cpp:53-65 | the viewer is AtStart (camera defaults at (0, 0, 3) with its basis derived, cursor at the centre awaiting its first event, timing 0); the light is white at (1.2, 1, 2) |
| ColorsLesson.ColorsApp.ProcessInput | 01_colors/main.cpp:223-274 | only position and mode change: WASD uses the mode held before the brackets are read, then the brackets switch the mode |
| LightingMaps.RaisedRadius | 04_lighting-maps/main.cpp:318-322 | UP grows the radius by `0.5*dt`, capped at 10 |
| LightingMaps.LoweredRadius | 04_lighting-maps/main.cpp:323-327 | DOWN shrinks the radius by `0.5*dt`, floored at 0.5 |
| LightingMaps.SlowedDown | 04_lighting-maps/main.cpp:328-332 | LEFT lowers the angular speed by `36*dt`, floored at 1 |
| LightingMaps.SpedUp | 04_lighting-maps/main.cpp:333-337 | RIGHT raises the angular speed by `36*dt`, capped at 360 |
| LightingMaps.HeightInput | 04_lighting-maps/main.cpp:310-317 | COMMA lowers and PERIOD raises the lamp height by `0.5*dt` each, with no bound; both together cancel |
| LightingMaps.RadiusInput | 04_lighting-maps/main.cpp:318-327 | the radius changes only with UP or DOWN; after DOWN it is at least 0.5, after UP alone at most 10 |
| LightingMaps.SpeedInput | 04_lighting-maps/main.cpp:328-337 | the angular speed changes only with LEFT or RIGHT; after RIGHT it is at most 360, after LEFT alone at least 1 |
| LightingMaps.LampInput | 04_lighting-maps/main.cpp:310-337 | the lamp keys change the height, radius and speed and never the lamp's x and z |
| LightingMaps.LampInputKeepsRanges | 04_lighting-maps/main.cpp:318-337 | with dt >= 0, one frame keeps the radius in [0.5, 10] and the speed in [1, 360] |
| LightingMaps.LampRangesInvariant | 04_lighting-maps/main.cpp:318-337 | with non-negative frame times the two ranges hold after any run of frames |
| LightingMaps.LampKeysKeepOrbitPlane | 04_lighting-maps/main.cpp:310-317 | no run of frames changes the lamp's x or z through the keys |
| LightingMaps.RotationSchedule | 04_lighting-maps/main.cpp:234-242 | relativeTime >= 0 and is 0 before second 3; numOfRotation >= 0 is the number of whole 3-second turns; whoRotates is in [0, 4); direction is in {0, 1, 2}; each turn sweeps exactly one revolution |
| LightingMaps.ScheduleAdvances | 04_lighting-maps/main.cpp:234-241 | after second 3, three seconds later the turn count is one higher, and direction and whoRotates have each moved on by one |
| LightingMaps.RotationAxis | 04_lighting-maps/main.cpp:250-263 | the axis is zero except at index `direction`, which holds -z, -x*z or x |
| LightingMaps.CubeAxesNonZero | 04_lighting-maps/main.cpp:193-198 | for all four cubes and every direction, the axis is a unit axis or its negation, never zero |
| LightingMaps.CubeAxes | 04_lighting-maps/main.cpp:244-266 | the cube loop yields one RotationAxis per cube, in order, each non-zero |
| LightingMaps.LightingMapsApp.constructor | 04_lighting-maps/main.cpp:40-55 | the viewer is AtStart; the lamp starts at (1.2, 1, 2) with radius 5 and speed 36, inside its ranges |
| LightingMaps.LightingMapsApp.MoveLamp | 04_lighting-maps/main.cpp:310-337 | the lamp fields become LampInput of the old lamp for the held keys and the frame's deltaTime |
| LightingMaps.LightingMapsApp.MoveLampHeight | 04_lighting-maps/main.cpp:310-317 | only lightPos.y changes, to HeightInput of the old height |
| LightingMaps.LightingMapsApp.ResizeOrbit | 04_lighting-maps/main.cpp:318-327 | only lighterRadius changes, to RadiusInput of the old radius |
| LightingMaps.LightingMapsApp.ChangeOrbitSpeed | 04_lighting-maps/main.cpp:328-337 | only degreesPerSecond changes, to SpeedInput of the old speed |
| LightingMaps.LightingMapsApp.ProcessInput | 04_lighting-maps/main.cpp:292-364 | the lamp follows LampInput; the camera moves by WASD with the pre-bracket mode; then the brackets switch the mode |
| MultipleLights.Poll | 05_multiple-lights/main.cpp:348-366 | after a poll, held is the key state; the light flips exactly when a press meets a key not yet held |
| MultipleLights.LatchCountsPresses | 05_multiple-lights/main.cpp:383-392 | over any run of polls the light has flipped once per rising edge of the key, and held is the last key state |
| MultipleLights.HoldingTogglesOnce | 05_multiple-lights/main.cpp:353-361 | holding a key for any number of frames is the same as pressing it for one |
| MultipleLights.PressReleasePress | 05_multiple-lights/main.cpp:383-392 | press, release and press again leave the light as it was, with the key held |
| MultipleLights.PointLightColors | 05_multiple-lights/main.cpp:267-278 | a light sends all-zero colours exactly when it is off; when on, ambient 0.2, diffuse 0.5 and white specular |
| MultipleLights.LightKey | 05_multiple-lights/main.cpp:394-404 | light 0 to 3 is switched by the key labelled 1 to 4, one key per light |
| MultipleLights.SpotLightColors | 05_multiple-lights/main.cpp:290-301 | the flashlight sends all-zero colours exactly when it is off; when on, ambient grey 0.1, diffuse grey 1.0 and white specular |
| MultipleLights.MultipleLightsApp.constructor | 05_multiple-lights/main.cpp:44-62 | the viewer is AtStart; the lights start as {off, off, off, on}, no key held, the flashlight off, glowStart = -6 |
| MultipleLights.MultipleLightsApp.ProcessLight | 05_multiple-lights/main.cpp:348-366 | for an index below 4 the entry polls as Poll; no other entry changes; a larger index (`.at` throwing) changes nothing |
| MultipleLights.MultipleLightsApp.PollLightKey | 05_multiple-lights/main.cpp:394-404 | a light key polls its light with the key's state; the other lights are untouched |
| MultipleLights.MultipleLightsApp.PollLightKeys | 05_multiple-lights/main.cpp:394-404 | every light is polled with its own key's state |
| MultipleLights.MultipleLightsApp.PollFlashlight | 05_multiple-lights/main.cpp:383-392 | the F key drives the flashlight through the same Poll |
| MultipleLights.MultipleLightsApp.ProcessInput | 05_multiple-lights/main.cpp:370-433 | the flashlight and each light are polled with their keys; G restarts the glow at lastFrame; WASD moves with the pre-bracket mode; the brackets switch it |
| MultipleLights.MultipleLightsApp.LitLights | 05_multiple-lights/main.cpp:207-219 | the light cubes drawn are exactly the lights that are on, in increasing order |
| MultipleLights.MultipleLightsApp.PointLightUniforms | 05_multiple-lights/main.cpp:255-279 | one colour set per light, each PointLightColors of its state, all-zero exactly for the lights that are off |

## Findings

| source | as written | input that shows it | evidently intended | confidence | as-written member | corrected member |
|---|---|---|---|---|---|---|
| utils/camera.hpp:69-81 | the scalar constructor never calls `updateVectors`, so Front stays (0, 0, -1) and Right and Up are never assigned | `Camera(0, 0, 0, 0, 1, 0, 0, 0)`: yaw 0 faces +x, but Front is (0, 0, -1) and Right/Up are indeterminate until the first mouse event | derive the basis as the vector constructor does | high; not executed | CameraModel.ScalarFrontIsStale | CameraModel.Camera.FromScalarsDerived |

## Left out

- OpenGL and GLFW calls are not modelled: window and context setup, buffers, draw calls, polygon mode (the X key), ESC, the framebuffer callback and texture loading. Shader code (`utils/shader.cpp`, `utils/shader.hpp`) and `std::cout` logging are also left out. The draw loops are modelled by what they select: the lights drawn, the colours and the axes.
- Trigonometry and `glm::normalize` are left abstract: they are the `Geometry` function values. Unit length and orthonormality of the basis are therefore not claimed.
- The projection matrix is not modelled.
- Floating-point rounding and the float/double conversions are not modelled: every scalar is an exact real.
- The `int(floor(...))` of the rotation schedule is an exact floor. Its overflow for very large times is not modelled.
- Time-driven animation is left out because it is trigonometric numerics with nothing to verify:
  - the lamp's orbit (`currentAngle`, the sine/cosine position at 04_lighting-maps/main.cpp:174-176);
  - `textShift`, `glow` and `amplitude`;
  - the cube angles in lesson 05;
  - the rotation matrices built from the axes.
- `glfwGetTime` becomes the `currentFrame` parameter of `NextFrame` and `RotationSchedule`. A frame's key state is the set of keys reading GLFW_PRESS, and every other key reads GLFW_RELEASE.
- The render loop as a whole is not modelled. Runs of frames appear only as sequences: lamp frames, key polls and cursor events.
- CameraModel.Camera.ProcessKeyboard: its contract groups `(modifier * Front) * velocity` as one displacement per frame (the `Strides` value). Over the reals this is the same value.
