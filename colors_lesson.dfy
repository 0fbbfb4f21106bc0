/**
 * Lesson 01 (colors): a lit cube seen through the camera. Its input handling
 * is the shared one: WASD movement, the bracket-key mode switch, and the
 * mouse and scroll callbacks, which are the Viewer's. COMMA and PERIOD are
 * polled but do nothing.
 */
module ColorsLesson {
  import opened VectorMath
  import opened CameraModel
  import opened HostInput

  /** The globals of lesson 01. */
  class ColorsApp {
    const viewer: Viewer
    const lightColor: Vec3
    const lightPos: Vec3

    constructor (geo: Geometry)
      ensures fresh(viewer) && fresh(viewer.camera) && viewer.AtStart(geo)
      ensures lightColor == Vec3(1.0, 1.0, 1.0) && lightPos == Vec3(1.2, 1.0, 2.0)
    {
      viewer := new Viewer(geo);
      lightColor := Vec3(1.0, 1.0, 1.0);
      lightPos := Vec3(1.2, 1.0, 2.0);
    }

    /**
     * processInput: the WASD block, then the bracket keys. Only the camera's
     * position and mode can change, and the movement of this frame uses the
     * mode in force before the brackets are read.
     */
    method ProcessInput(keys: KeyState)
      modifies viewer.camera`Position, viewer.camera`mode
      ensures viewer.camera.Position == WasdMoved(old(viewer.camera.Position), keys, old(viewer.FrameStrides()))
      ensures viewer.camera.mode == SwitchedMode(old(viewer.camera.mode), keys)
    {
      viewer.MoveCamera(keys);
      viewer.SwitchCameraMode(keys);
    }
  }
}
