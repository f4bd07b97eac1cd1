/**
 * The mouse and scroll callbacks of src/main.cpp and the global state they
 * update: yaw, pitch, the last cursor position, the first-mouse latch, the
 * field of view and the camera front vector. The trigonometry that turns
 * yaw and pitch into cameraFront is not modelled: cameraFront becomes
 * arbitrary after a mouse event.
 */
module WindowInput {
  import opened Geometry

  const ScreenWidth: real := 1600.0
  const ScreenHeight: real := 800.0
  /** The `sensitivity` that mouse_callback scales cursor motion by. */
  const CursorSensitivity: real := 0.1
  const MinFov: real := 1.0
  const MaxFov: real := 90.0

  class InputGlobals {
    var yaw: real
    var pitch: real
    var lastX: real
    var lastY: real
    var firstMouse: bool
    var fov: real
    var cameraFront: Vec3

    /** What the callbacks keep: pitch within ±89 degrees, fov within [1, 90]. */
    ghost predicate Valid()
      reads this
    {
      -PitchLimit <= pitch <= PitchLimit && MinFov <= fov <= MaxFov
    }

    /** The globals' initial values. */
    constructor ()
      ensures yaw == -90.0 && pitch == 0.0
      ensures lastX == ScreenWidth / 2.0 && lastY == ScreenHeight / 2.0
      ensures firstMouse && fov == 45.0 && cameraFront == Vec3(0.0, 0.0, -1.0)
      ensures Valid()
    {
      yaw := -90.0;
      pitch := 0.0;
      lastX := ScreenWidth / 2.0;
      lastY := ScreenHeight / 2.0;
      firstMouse := true;
      fov := 45.0;
      cameraFront := Vec3(0.0, 0.0, -1.0);
    }

    /**
     * mouse_callback: the first event only records the cursor (offsets 0);
     * later ones turn by the cursor's motion times 0.1, y reversed, and pitch
     * is clamped to [-89, 89].
     */
    method MouseCallback(xpos: real, ypos: real)
      modifies this
      ensures !firstMouse && lastX == xpos && lastY == ypos
      ensures old(firstMouse) ==> yaw == old(yaw)
      ensures !old(firstMouse) ==> yaw == old(yaw) + (xpos - old(lastX)) * CursorSensitivity
      ensures var raw := if old(firstMouse) then old(pitch) else old(pitch) + (old(lastY) - ypos) * CursorSensitivity;
        if raw > PitchLimit then pitch == PitchLimit
        else if raw < -PitchLimit then pitch == -PitchLimit
        else pitch == raw
      ensures -PitchLimit <= pitch <= PitchLimit
      ensures fov == old(fov)
      ensures old(Valid()) ==> Valid()
    {
      if firstMouse {
        lastX := xpos;
        lastY := ypos;
        firstMouse := false;
      }

      var xoffset := xpos - lastX;
      var yoffset := lastY - ypos;
      lastX := xpos;
      lastY := ypos;

      var sensitivity := CursorSensitivity;
      xoffset := xoffset * sensitivity;
      yoffset := yoffset * sensitivity;

      yaw := yaw + xoffset;
      pitch := pitch + yoffset;

      if pitch > PitchLimit {
        pitch := PitchLimit;
      }
      if pitch < -PitchLimit {
        pitch := -PitchLimit;
      }

      cameraFront := *;
    }

    /** scroll_callback: fov decreases by the vertical offset and is clamped to [1, 90]. */
    method ScrollCallback(xoffset: real, yoffset: real)
      modifies this
      ensures MinFov <= fov <= MaxFov
      ensures var raw := old(fov) - yoffset;
        if raw < MinFov then fov == MinFov
        else if raw > MaxFov then fov == MaxFov
        else fov == raw
      ensures yaw == old(yaw) && pitch == old(pitch) && lastX == old(lastX) && lastY == old(lastY)
      ensures firstMouse == old(firstMouse) && cameraFront == old(cameraFront)
      ensures old(Valid()) ==> Valid()
    {
      fov := fov - yoffset;
      if fov < MinFov {
        fov := MinFov;
      }
      if fov > MaxFov {
        fov := MaxFov;
      }
    }
  }

  /** In exact arithmetic the very first mouse event never turns the camera, wherever the cursor is. */
  method FirstMouseEventDoesNotTurn(g: InputGlobals, xpos: real, ypos: real)
    requires g.firstMouse && g.Valid()
    modifies g
    ensures g.yaw == old(g.yaw) && g.pitch == old(g.pitch)
    ensures !g.firstMouse
  {
    g.MouseCallback(xpos, ypos);
  }
}
