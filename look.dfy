/**
 * The pointer-look handler that both controllers install on "mousemove":
 * while the pointer is locked to the canvas, horizontal movement turns the
 * yaw object and vertical movement tilts the pitch object, whose angle is
 * then clamped to [-pi/2, pi/2].
 */
module Look {
  import opened Wrappers
  import opened ThreeMath

  /** The two fields of a MouseEvent the handler reads; either may be missing. */
  datatype MouseMove = MouseMove(movementX: Option<real>, movementY: Option<real>)

  /** `yawObject.rotation.y` and `pitchObject.rotation.z`. */
  datatype Orientation = Orientation(yaw: real, pitch: real)

  /** One "mousemove" event together with whether the pointer was locked to the canvas. */
  datatype PointerEvent = PointerEvent(locked: bool, move: MouseMove)

  /** `event.movementX || 0`: a missing movement reads as 0 (a zero one is 0 already). */
  function OrZero(m: Option<real>): (r: real)
    ensures m.None? ==> r == 0.0
    ensures m.Some? ==> r == m.value
  {
    match m
    case None => 0.0
    case Some(v) => v
  }

  predicate PitchInRange(p: real) {
    -HalfPi <= p <= HalfPi
  }

  /** `Math.max(-PI_2, Math.min(PI_2, z))`. */
  function ClampPitch(p: real): (r: real)
    ensures PitchInRange(r)
    ensures PitchInRange(p) ==> r == p
    ensures p < -HalfPi ==> r == -HalfPi
    ensures HalfPi < p ==> r == HalfPi
  {
    Clamp(p, -HalfPi, HalfPi)
  }

  /** Clamping an already clamped pitch gives the same pitch. */
  lemma ClampPitchIdempotent(p: real)
    ensures ClampPitch(ClampPitch(p)) == ClampPitch(p)
  {
  }

  /** The orientation after the handler has run once. */
  function Turn(o: Orientation, locked: bool, e: MouseMove, sensitivity: real): (r: Orientation)
    ensures !locked ==> r == o
    ensures locked ==> r.yaw == o.yaw - OrZero(e.movementX) * sensitivity
    ensures locked ==> PitchInRange(r.pitch)
    ensures PitchInRange(o.pitch) ==> PitchInRange(r.pitch)
    ensures locked && PitchInRange(o.pitch - OrZero(e.movementY) * sensitivity) ==>
              r.pitch == o.pitch - OrZero(e.movementY) * sensitivity
    ensures OrZero(e.movementX) == 0.0 && OrZero(e.movementY) == 0.0 && PitchInRange(o.pitch) ==> r == o
  {
    if locked then
      Orientation(o.yaw - OrZero(e.movementX) * sensitivity,
                  ClampPitch(o.pitch - OrZero(e.movementY) * sensitivity))
    else
      o
  }

  /** The orientation after a sequence of events, handled in order. */
  function Replay(o: Orientation, events: seq<PointerEvent>, sensitivity: real): Orientation
    decreases |events|
  {
    if events == [] then o
    else Replay(Turn(o, events[0].locked, events[0].move, sensitivity), events[1..], sensitivity)
  }

  /** The total horizontal movement of the events that arrived while the pointer was locked. */
  function LockedMovementX(events: seq<PointerEvent>): real
    decreases |events|
  {
    if events == [] then 0.0
    else (if events[0].locked then OrZero(events[0].move.movementX) else 0.0) + LockedMovementX(events[1..])
  }

  /** A pitch in range stays in range, whatever events arrive. */
  lemma {:induction false} ReplayKeepsPitchInRange(o: Orientation, events: seq<PointerEvent>, sensitivity: real)
    requires PitchInRange(o.pitch)
    ensures PitchInRange(Replay(o, events, sensitivity).pitch)
    decreases |events|
  {
    if events != [] {
      ReplayKeepsPitchInRange(Turn(o, events[0].locked, events[0].move, sensitivity), events[1..], sensitivity);
    }
  }

  /** The yaw change of each locked event, added up. */
  function LockedYawChange(events: seq<PointerEvent>, sensitivity: real): real
    decreases |events|
  {
    if events == [] then 0.0
    else (if events[0].locked then OrZero(events[0].move.movementX) * sensitivity else 0.0)
         + LockedYawChange(events[1..], sensitivity)
  }

  /** Yaw is never clamped: it accumulates every locked horizontal movement, scaled by the sensitivity. */
  lemma ReplayYaw(o: Orientation, events: seq<PointerEvent>, sensitivity: real)
    ensures Replay(o, events, sensitivity).yaw == o.yaw - LockedMovementX(events) * sensitivity
  {
    ReplayYawChange(o, events, sensitivity);
    YawChangeIsScaled(events, sensitivity);
  }

  lemma {:induction false} ReplayYawChange(o: Orientation, events: seq<PointerEvent>, sensitivity: real)
    ensures Replay(o, events, sensitivity).yaw == o.yaw - LockedYawChange(events, sensitivity)
    decreases |events|
  {
    if events != [] {
      var o' := Turn(o, events[0].locked, events[0].move, sensitivity);
      ReplayYawChange(o', events[1..], sensitivity);
    }
  }

  lemma {:induction false} YawChangeIsScaled(events: seq<PointerEvent>, sensitivity: real)
    ensures LockedYawChange(events, sensitivity) == LockedMovementX(events) * sensitivity
    decreases |events|
  {
    if events != [] {
      var dx := if events[0].locked then OrZero(events[0].move.movementX) else 0.0;
      YawChangeIsScaled(events[1..], sensitivity);
      Distribute(dx, LockedMovementX(events[1..]), sensitivity);
    }
  }

  lemma Distribute(a: real, b: real, c: real)
    ensures (a + b) * c == a * c + b * c
  {
  }

  /** Events that arrive while the pointer is not locked change nothing. */
  lemma {:induction false} ReplayUnlockedIsIdentity(o: Orientation, events: seq<PointerEvent>, sensitivity: real)
    requires forall i :: 0 <= i < |events| ==> !events[i].locked
    ensures Replay(o, events, sensitivity) == o
    decreases |events|
  {
    if events != [] {
      ReplayUnlockedIsIdentity(o, events[1..], sensitivity);
    }
  }
}
