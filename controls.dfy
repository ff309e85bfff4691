/**
 * The look-only controller: a yaw object carrying a pitch object carrying
 * the camera. Its "mousemove" handler turns the rig while the pointer is
 * locked; its per-frame update does nothing.
 */
module Controls {
  import opened Look

  class Controls {
    /** `yawObject.rotation.y`. */
    var yaw: real
    /** `pitchObject.rotation.z`. */
    var pitch: real
    /** Radians per pixel of pointer movement. */
    const sensitivity: real

    ghost predicate Valid()
      reads this
    {
      PitchInRange(pitch)
    }

    /** A fresh rig: both Object3D rotations start at zero. */
    constructor ()
      ensures Valid()
      ensures yaw == 0.0 && pitch == 0.0 && sensitivity == 0.001
    {
      yaw, pitch := 0.0, 0.0;
      sensitivity := 0.001;
    }

    /** The "mousemove" handler; `locked` says whether the pointer is locked to the canvas. */
    method OnMouseMove(locked: bool, event: MouseMove)
      requires Valid()
      modifies this
      ensures Valid()
      ensures Orientation(yaw, pitch) == Turn(old(Orientation(yaw, pitch)), locked, event, sensitivity)
    {
      if locked {
        var movementX := OrZero(event.movementX);
        var movementY := OrZero(event.movementY);
        yaw := yaw - movementX * sensitivity;
        pitch := pitch - movementY * sensitivity;
        pitch := ClampPitch(pitch);
      }
    }

    /** The per-frame update, which has nothing to do. */
    method Update()
      ensures yaw == old(yaw) && pitch == old(pitch)
    {
    }
  }
}
