/**
 * The free-look camera of camera/camera.cpp: a record of position, basis
 * vectors, Euler angles and settings that the input handlers update in place.
 * The trigonometry that rebuilds Front, Right and Up from Yaw and Pitch is
 * not modelled: those three vectors become arbitrary after it runs.
 */
module CameraState {
  import opened Geometry

  const CameraSpeed: real := 2.5
  const CameraSensitivity: real := 0.1
  /** The default zoom, which is also the widest zoom scrolling allows. */
  const CameraZoom: real := 45.0
  const MinZoom: real := 1.0

  datatype CameraMovement = CameraForward | CameraBackward | CameraLeft | CameraRight

  /** Where one keyboard step moves the camera: along ±front or ±right by `velocity`. */
  function Moved(position: Vec3, front: Vec3, right: Vec3, direction: CameraMovement, velocity: real): Vec3 {
    match direction
    case CameraForward => Add3(position, Scale3(front, velocity))
    case CameraBackward => Sub3(position, Scale3(front, velocity))
    case CameraLeft => Sub3(position, Scale3(right, velocity))
    case CameraRight => Add3(position, Scale3(right, velocity))
  }

  /** Opposite steps of the same length cancel. */
  lemma OppositeMovesCancel(position: Vec3, front: Vec3, right: Vec3, velocity: real)
    ensures Moved(Moved(position, front, right, CameraForward, velocity), front, right, CameraBackward, velocity) == position
    ensures Moved(Moved(position, front, right, CameraBackward, velocity), front, right, CameraForward, velocity) == position
    ensures Moved(Moved(position, front, right, CameraLeft, velocity), front, right, CameraRight, velocity) == position
    ensures Moved(Moved(position, front, right, CameraRight, velocity), front, right, CameraLeft, velocity) == position
  {
  }

  class Camera {
    var Position: Vec3
    var Front: Vec3
    var Up: Vec3
    var Right: Vec3
    var WorldUp: Vec3
    var Yaw: real
    var Pitch: real
    var MovementSpeed: real
    var MouseSensitivity: real
    var Zoom: real

    ghost predicate ZoomInRange()
      reads this
    {
      MinZoom <= Zoom <= CameraZoom
    }

    /** camera_create: copies the arguments, sets the default settings, then rebuilds the basis. */
    constructor Create(position: Vec3, up: Vec3, yaw: real, pitch: real)
      ensures Position == position && WorldUp == up && Yaw == yaw && Pitch == pitch
      ensures MovementSpeed == CameraSpeed && MouseSensitivity == CameraSensitivity && Zoom == CameraZoom
      ensures ZoomInRange()
    {
      Position := position;
      WorldUp := up;
      Yaw := yaw;
      Pitch := pitch;
      Front := Vec3(0.0, 0.0, -1.0);
      Up := Zero3;
      Right := Zero3;
      MovementSpeed := CameraSpeed;
      MouseSensitivity := CameraSensitivity;
      Zoom := CameraZoom;
      new;
      UpdateVectors();
    }

    /** camera_update_vectors: recomputes Front, Right and Up (left abstract) and nothing else. */
    method UpdateVectors()
      modifies this
      ensures Position == old(Position) && WorldUp == old(WorldUp)
      ensures Yaw == old(Yaw) && Pitch == old(Pitch)
      ensures MovementSpeed == old(MovementSpeed) && MouseSensitivity == old(MouseSensitivity)
      ensures Zoom == old(Zoom)
    {
      Front := *;
      Right := *;
      Up := *;
    }

    /** camera_process_keyboard: moves Position by MovementSpeed * deltaTime; nothing else changes. */
    method ProcessKeyboard(direction: CameraMovement, deltaTime: real)
      modifies this
      ensures Position == Moved(old(Position), Front, Right, direction, MovementSpeed * deltaTime)
      ensures Front == old(Front) && Up == old(Up) && Right == old(Right) && WorldUp == old(WorldUp)
      ensures Yaw == old(Yaw) && Pitch == old(Pitch)
      ensures MovementSpeed == old(MovementSpeed) && MouseSensitivity == old(MouseSensitivity)
      ensures Zoom == old(Zoom)
    {
      var velocity := MovementSpeed * deltaTime;
      if direction == CameraForward {
        Position := Add3(Position, Scale3(Front, velocity));
      }
      if direction == CameraBackward {
        Position := Sub3(Position, Scale3(Front, velocity));
      }
      if direction == CameraLeft {
        Position := Sub3(Position, Scale3(Right, velocity));
      }
      if direction == CameraRight {
        Position := Add3(Position, Scale3(Right, velocity));
      }
    }

    /**
     * camera_process_mouse: turns by the offsets scaled by MouseSensitivity,
     * clamping Pitch to [-89, 89] unless the caller passes constrainPitch =
     * false, then rebuilds the basis.
     */
    method ProcessMouse(xoffset: real, yoffset: real, constrainPitch: bool := true)
      modifies this
      ensures Yaw == old(Yaw) + xoffset * old(MouseSensitivity)
      ensures var raw := old(Pitch) + yoffset * old(MouseSensitivity);
        if !constrainPitch then Pitch == raw
        else if raw > PitchLimit then Pitch == PitchLimit
        else if raw < -PitchLimit then Pitch == -PitchLimit
        else Pitch == raw
      ensures constrainPitch ==> -PitchLimit <= Pitch <= PitchLimit
      ensures Position == old(Position) && WorldUp == old(WorldUp)
      ensures MovementSpeed == old(MovementSpeed) && MouseSensitivity == old(MouseSensitivity)
      ensures Zoom == old(Zoom)
    {
      var x := xoffset * MouseSensitivity;
      var y := yoffset * MouseSensitivity;
      Yaw := Yaw + x;
      Pitch := Pitch + y;
      if constrainPitch {
        if Pitch > PitchLimit {
          Pitch := PitchLimit;
        }
        if Pitch < -PitchLimit {
          Pitch := -PitchLimit;
        }
      }
      UpdateVectors();
    }

    /** camera_process_scroll: Zoom decreases by the offset and is clamped to [1, 45]. */
    method ProcessScroll(yoffset: real)
      modifies this
      ensures ZoomInRange()
      ensures var raw := old(Zoom) - yoffset;
        if raw < MinZoom then Zoom == MinZoom
        else if raw > CameraZoom then Zoom == CameraZoom
        else Zoom == raw
      ensures Position == old(Position) && Front == old(Front) && Up == old(Up) && Right == old(Right)
      ensures WorldUp == old(WorldUp) && Yaw == old(Yaw) && Pitch == old(Pitch)
      ensures MovementSpeed == old(MovementSpeed) && MouseSensitivity == old(MouseSensitivity)
    {
      Zoom := Zoom - yoffset;
      if Zoom < MinZoom {
        Zoom := MinZoom;
      }
      if Zoom > CameraZoom {
        Zoom := CameraZoom;
      }
    }
  }

  /** A caller that leaves constrainPitch at its default never tilts the camera past the pitch limit. */
  method TurnWithDefaultConstraint(cam: Camera, xoffset: real, yoffset: real)
    modifies cam
    ensures -PitchLimit <= cam.Pitch <= PitchLimit
    ensures cam.Position == old(cam.Position) && cam.Zoom == old(cam.Zoom)
  {
    cam.ProcessMouse(xoffset, yoffset);
  }

  /** A forward step followed by a backward step of the same duration returns the camera to where it was. */
  method ForwardThenBackward(cam: Camera, deltaTime: real)
    modifies cam
    ensures cam.Position == old(cam.Position)
    ensures cam.Front == old(cam.Front) && cam.Right == old(cam.Right)
  {
    cam.ProcessKeyboard(CameraForward, deltaTime);
    cam.ProcessKeyboard(CameraBackward, deltaTime);
    OppositeMovesCancel(old(cam.Position), cam.Front, cam.Right, cam.MovementSpeed * deltaTime);
  }
}
