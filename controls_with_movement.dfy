/**
 * The first-person controller with locomotion: a held-key record filled by
 * "keydown"/"keyup", the same pointer-look handler as the look-only
 * controller, and a per-frame update that clamps the rig to the room,
 * steers a smoothed, damped planar velocity toward the W/A/S/D direction
 * and moves the rig by it.
 */
module ControlsWithMovement {
  import opened ThreeMath
  import opened Look

  const MoveSpeed: real := 1.0
  /** The lerp fraction applied once per update, whatever the frame time. */
  const Acceleration: real := 0.002
  /** The per-second decay base; the update scales velocity by Damping^deltaTime. */
  const Damping: real := 0.9

  /** The room rectangle the rig's x and z are clamped to. */
  const XMin: real := -6.2
  const XMax: real := 8.2
  const ZMin: real := -7.3
  const ZMax: real := 7.3

  // ---------------------------------------------------------------- keys

  predicate IsUpper(c: char) {
    'A' <= c <= 'Z'
  }

  function LowerChar(c: char): char {
    if IsUpper(c) then (c as int - 'A' as int + 'a' as int) as char else c
  }

  /** `String.prototype.toLowerCase` on the ASCII letters. */
  function ToLower(s: string): (r: string)
    ensures |r| == |s|
    ensures forall i :: 0 <= i < |r| ==> !IsUpper(r[i])
    ensures forall i :: 0 <= i < |s| && !IsUpper(s[i]) ==> r[i] == s[i]
    ensures forall i :: 0 <= i < |s| && IsUpper(s[i]) ==> r[i] as int == s[i] as int + 32
  {
    seq(|s|, i requires 0 <= i < |s| => LowerChar(s[i]))
  }

  /** Lower-casing twice is lower-casing once. */
  lemma ToLowerIdempotent(s: string)
    ensures ToLower(ToLower(s)) == ToLower(s)
  {
  }

  /** A movement key pressed with or without Shift (or Caps Lock) names the same entry. */
  lemma MoveKeysIgnoreCase()
    ensures ToLower("W") == "w" && ToLower("A") == "a" && ToLower("S") == "s" && ToLower("D") == "d"
  {
  }

  /** `keysPressed[key.toLowerCase()] = down`. */
  function WithKey(keys: map<string, bool>, key: string, down: bool): (r: map<string, bool>)
    ensures ToLower(key) in r && r[ToLower(key)] == down
    ensures r.Keys == keys.Keys + {ToLower(key)}
    ensures forall k :: k in keys && k != ToLower(key) ==> r[k] == keys[k]
  {
    keys[ToLower(key) := down]
  }

  /** `keysPressed[k]` is truthy: present and true. */
  predicate Held(keys: map<string, bool>, k: string) {
    k in keys && keys[k]
  }

  /** A release undoes a press of the same key, in either case. */
  lemma ReleaseAfterPress(keys: map<string, bool>, pressed: string, released: string)
    requires ToLower(pressed) == ToLower(released)
    ensures !Held(WithKey(WithKey(keys, pressed, true), released, false), ToLower(pressed))
    ensures forall k :: k != ToLower(pressed) ==>
              (Held(WithKey(WithKey(keys, pressed, true), released, false), k) <==> Held(keys, k))
  {
  }

  // ---------------------------------------------------------- locomotion

  function Unit(b: bool): real {
    if b then 1.0 else 0.0
  }

  /**
   * The rig-local direction before normalisation: W/S on x, D/A on z.
   * Opposing keys cancel.
   */
  function TargetDirection(keys: map<string, bool>): (d: Vec3)
    ensures d.y == 0.0
    ensures d.x == 1.0 <==> Held(keys, "w") && !Held(keys, "s")
    ensures d.x == -1.0 <==> Held(keys, "s") && !Held(keys, "w")
    ensures d.x == 0.0 <==> (Held(keys, "w") <==> Held(keys, "s"))
    ensures d.z == 1.0 <==> Held(keys, "d") && !Held(keys, "a")
    ensures d.z == -1.0 <==> Held(keys, "a") && !Held(keys, "d")
    ensures d.z == 0.0 <==> (Held(keys, "d") <==> Held(keys, "a"))
  {
    Vec3(Unit(Held(keys, "w")) - Unit(Held(keys, "s")), 0.0, Unit(Held(keys, "d")) - Unit(Held(keys, "a")))
  }

  predicate NoMoveKeys(keys: map<string, bool>) {
    !Held(keys, "w") && !Held(keys, "a") && !Held(keys, "s") && !Held(keys, "d")
  }

  predicate InArena(p: Vec3) {
    XMin <= p.x <= XMax && ZMin <= p.z <= ZMax
  }

  /** The two MathUtils.clamp calls on the rig's x and z. */
  function ClampToArena(p: Vec3): (r: Vec3)
    ensures InArena(r) && r.y == p.y
    ensures InArena(p) ==> r == p
    ensures XMin <= p.x <= XMax ==> r.x == p.x
    ensures ZMin <= p.z <= ZMax ==> r.z == p.z
  {
    Vec3(Clamp(p.x, XMin, XMax), p.y, Clamp(p.z, ZMin, ZMax))
  }

  /**
   * `Math.pow(Damping, deltaTime)`, known only by the facts the update
   * relies on: positive, exactly 1 for a zero step, below 1 for a forward
   * step, above 1 for a backward one.
   */
  predicate DampingPower(deltaTime: real, decay: real) {
    && 0.0 < decay
    && (deltaTime == 0.0 ==> decay == 1.0)
    && (deltaTime > 0.0 ==> decay < 1.0)
    && (deltaTime < 0.0 ==> decay > 1.0)
  }

  /**
   * `normalize()` followed by `applyQuaternion(yawObject.quaternion)`, as
   * a function of the yaw and the local direction. Both map the zero
   * vector to itself; nothing else about them is used.
   */
  ghost predicate FixesZero(orient: (real, Vec3) -> Vec3) {
    forall yaw :: orient(yaw, Zero) == Zero
  }

  /**
   * One component of the velocity update: the lerp toward the target
   * component, then the decay.
   */
  function Smooth(v: real, target: real, decay: real): (r: real)
    ensures target == 0.0 && 0.0 < decay <= 1.0 ==> Abs(r) <= Abs(v)
    ensures target == 0.0 && v == 0.0 ==> r == 0.0
    ensures target == v && decay == 1.0 ==> r == v
  {
    var r := (v + (target - v) * Acceleration) * decay;
    if target == 0.0 && 0.0 < decay <= 1.0 then
      assert r == v * ((1.0 - Acceleration) * decay);
      ScaleByFraction(v, (1.0 - Acceleration) * decay);
      r
    else
      r
  }

  /**
   * `velocity.lerp(target, Acceleration).multiplyScalar(decay)`: a level
   * velocity toward a level target stays level, an idle step never speeds
   * up any component, and a velocity already at its target is kept at
   * decay 1.
   */
  function VelocityStep(v: Vec3, target: Vec3, decay: real): (r: Vec3)
    ensures r == Scale(Lerp(v, target, Acceleration), decay)
    ensures target.y == 0.0 && v.y == 0.0 ==> r.y == 0.0
    ensures target == Zero && 0.0 < decay <= 1.0 ==>
              Abs(r.x) <= Abs(v.x) && Abs(r.y) <= Abs(v.y) && Abs(r.z) <= Abs(v.z)
    ensures target == v && decay == 1.0 ==> r == v
  {
    Vec3(Smooth(v.x, target.x, decay), Smooth(v.y, target.y, decay), Smooth(v.z, target.z, decay))
  }

  /** The rig's position and velocity, the state one update changes. */
  datatype Rig = Rig(position: Vec3, velocity: Vec3)

  /** One call of `update(deltaTime)` on the rig, with the yaw it reads. */
  function Locomotion(rig: Rig, keys: map<string, bool>, yaw: real, deltaTime: real, decay: real,
                      orient: (real, Vec3) -> Vec3): (r: Rig)
    ensures InArena(Sub(r.position, Scale(r.velocity, deltaTime)))
    ensures Sub(r.position, Scale(r.velocity, deltaTime)) == ClampToArena(rig.position)
    ensures rig.velocity.y == 0.0 ==> r.velocity.y == 0.0 && r.position.y == rig.position.y
    ensures deltaTime == 0.0 ==> r.position == ClampToArena(rig.position)
    ensures NoMoveKeys(keys) && orient(yaw, Zero) == Zero && 0.0 < decay <= 1.0 ==>
              Abs(r.velocity.x) <= Abs(rig.velocity.x) && Abs(r.velocity.y) <= Abs(rig.velocity.y)
              && Abs(r.velocity.z) <= Abs(rig.velocity.z)
  {
    var p := ClampToArena(rig.position);
    var target := orient(yaw, TargetDirection(keys)).(y := 0.0);
    var v := VelocityStep(rig.velocity, Scale(target, MoveSpeed), decay);
    Rig(Add(p, Scale(v, deltaTime)), v)
  }

  /** The steps `Locomotion` is made of, as the method performs them one by one. */
  lemma LocomotionSteps(rig: Rig, keys: map<string, bool>, yaw: real, deltaTime: real, decay: real,
                        orient: (real, Vec3) -> Vec3, clamped: Vec3, target: Vec3, v: Vec3)
    requires clamped == ClampToArena(rig.position)
    requires target == orient(yaw, TargetDirection(keys)).(y := 0.0)
    requires v == Scale(Lerp(rig.velocity, Scale(target, MoveSpeed), Acceleration), decay)
    ensures Locomotion(rig, keys, yaw, deltaTime, decay, orient) == Rig(Add(clamped, Scale(v, deltaTime)), v)
    ensures rig.velocity.y == 0.0 ==> v.y == 0.0
  {
  }

  /** One frame as the render loop drives it: the held keys, the yaw, the step. */
  datatype Frame = Frame(keys: map<string, bool>, yaw: real, deltaTime: real, decay: real)

  function Run(rig: Rig, frames: seq<Frame>, orient: (real, Vec3) -> Vec3): Rig
    decreases |frames|
  {
    if frames == [] then rig
    else
      var f := frames[0];
      Run(Locomotion(rig, f.keys, f.yaw, f.deltaTime, f.decay, orient), frames[1..], orient)
  }

  /** Locomotion is planar: a rig with no vertical velocity never changes height. */
  lemma {:induction false} RunStaysPlanar(rig: Rig, frames: seq<Frame>, orient: (real, Vec3) -> Vec3)
    requires rig.velocity.y == 0.0
    ensures Run(rig, frames, orient).velocity.y == 0.0
    ensures Run(rig, frames, orient).position.y == rig.position.y
    decreases |frames|
  {
    if frames != [] {
      var f := frames[0];
      RunStaysPlanar(Locomotion(rig, f.keys, f.yaw, f.deltaTime, f.decay, orient), frames[1..], orient);
    }
  }

  /** Frames with no movement key held and a forward (or zero) step never speed the rig up on any axis. */
  lemma {:induction false} IdleRunNeverSpeedsUp(rig: Rig, frames: seq<Frame>, orient: (real, Vec3) -> Vec3)
    requires FixesZero(orient)
    requires forall i :: 0 <= i < |frames| ==>
               NoMoveKeys(frames[i].keys) && 0.0 <= frames[i].deltaTime && DampingPower(frames[i].deltaTime, frames[i].decay)
    ensures Abs(Run(rig, frames, orient).velocity.x) <= Abs(rig.velocity.x)
    ensures Abs(Run(rig, frames, orient).velocity.y) <= Abs(rig.velocity.y)
    ensures Abs(Run(rig, frames, orient).velocity.z) <= Abs(rig.velocity.z)
    decreases |frames|
  {
    if frames != [] {
      var f := frames[0];
      assert orient(f.yaw, Zero) == Zero;
      var next := Locomotion(rig, f.keys, f.yaw, f.deltaTime, f.decay, orient);
      IdleRunNeverSpeedsUp(next, frames[1..], orient);
    }
  }

  /**
   * A zero step does not leave the velocity alone: the lerp runs once per
   * call whatever the frame time, so with no movement key held every rig's
   * velocity still shrinks by the fraction Acceleration.
   */
  lemma ZeroStepStillSmoothsVelocity(rig: Rig, keys: map<string, bool>, yaw: real, orient: (real, Vec3) -> Vec3)
    requires FixesZero(orient) && NoMoveKeys(keys)
    ensures Locomotion(rig, keys, yaw, 0.0, 1.0, orient).velocity == Scale(rig.velocity, 1.0 - Acceleration)
  {
    assert orient(yaw, Zero) == Zero;
    assert TargetDirection(keys) == Zero;
  }

  /**
   * The clamp runs before the move, so with no movement key held a rig at
   * or beyond the x wall moving outward ends a forward step outside the
   * room; the next update pulls it back.
   */
  lemma UpdateCanEndOutsideArena(rig: Rig, keys: map<string, bool>, yaw: real, deltaTime: real, decay: real,
                                 orient: (real, Vec3) -> Vec3)
    requires FixesZero(orient) && NoMoveKeys(keys)
    requires rig.position.x >= XMax && rig.velocity.x > 0.0
    requires deltaTime > 0.0 && DampingPower(deltaTime, decay)
    ensures !InArena(Locomotion(rig, keys, yaw, deltaTime, decay, orient).position)
  {
    assert orient(yaw, Zero) == Zero;
    assert TargetDirection(keys) == Zero;
    assert Locomotion(rig, keys, yaw, deltaTime, decay, orient).velocity.x > 0.0;
  }

  // ---------------------------------------------------------- the class

  class Controls {
    /** `keysPressed`, keyed by lower-cased `KeyboardEvent.key`. */
    var keysPressed: map<string, bool>
    /** `yawObject.rotation.y`. */
    var yaw: real
    /** `pitchObject.rotation.z`. */
    var pitch: real
    /** `yawObject.position`. */
    var position: Vec3
    var velocity: Vec3
    /** Radians per pixel; the sensitivity slider rescales it. */
    var sensitivity: real

    ghost predicate Valid()
      reads this
    {
      PitchInRange(pitch) && velocity.y == 0.0
    }

    constructor ()
      ensures Valid()
      ensures keysPressed == map[] && yaw == 0.0 && pitch == 0.0
      ensures position == Zero && velocity == Zero && sensitivity == 0.0002
    {
      keysPressed := map[];
      yaw, pitch := 0.0, 0.0;
      position, velocity := Zero, Zero;
      sensitivity := 0.0002;
    }

    /** The "keydown" listener. */
    method OnKeyDown(key: string)
      modifies this`keysPressed
      ensures keysPressed == WithKey(old(keysPressed), key, true)
    {
      keysPressed := keysPressed[ToLower(key) := true];
    }

    /** The "keyup" listener. */
    method OnKeyUp(key: string)
      modifies this`keysPressed
      ensures keysPressed == WithKey(old(keysPressed), key, false)
    {
      keysPressed := keysPressed[ToLower(key) := false];
    }

    /** The "mousemove" handler; `locked` says whether the pointer is locked to the canvas. */
    method OnMouseMove(locked: bool, event: MouseMove)
      requires Valid()
      modifies this`yaw, this`pitch
      ensures Valid()
      ensures Orientation(yaw, pitch) == Turn(old(Orientation(yaw, pitch)), locked, event, sensitivity)
    {
      if locked {
        var movementX := OrZero(event.movementX);
        var movementY := OrZero(event.movementY);
        yaw := yaw - movementX * sensitivity;
        pitch := pitch - movementY * sensitivity;
        pitch := ClampPitch(pitch);
      }
    }

    /**
     * `update(deltaTime)`. `decay` stands for `Math.pow(damping, deltaTime)`
     * and `orient` for normalising the direction and rotating it by the yaw.
     */
    method Update(deltaTime: real, decay: real, orient: (real, Vec3) -> Vec3)
      requires Valid()
      requires DampingPower(deltaTime, decay)
      modifies this`position, this`velocity
      ensures Valid()
      ensures Rig(position, velocity)
              == Locomotion(old(Rig(position, velocity)), keysPressed, yaw, deltaTime, decay, orient)
    {
      var targetDirection := Zero;
      if Held(keysPressed, "a") { targetDirection := targetDirection.(z := targetDirection.z - 1.0); }
      if Held(keysPressed, "d") { targetDirection := targetDirection.(z := targetDirection.z + 1.0); }
      if Held(keysPressed, "s") { targetDirection := targetDirection.(x := targetDirection.x - 1.0); }
      if Held(keysPressed, "w") { targetDirection := targetDirection.(x := targetDirection.x + 1.0); }
      assert targetDirection == TargetDirection(keysPressed);

      ghost var rig := Rig(position, velocity);
      var p, v := position, velocity;

      p := p.(x := Clamp(p.x, XMin, XMax));
      p := p.(z := Clamp(p.z, ZMin, ZMax));

      targetDirection := orient(yaw, targetDirection);
      targetDirection := targetDirection.(y := 0.0);
      v := Lerp(v, Scale(targetDirection, MoveSpeed), Acceleration);
      v := Scale(v, decay);
      LocomotionSteps(rig, keysPressed, yaw, deltaTime, decay, orient, p, targetDirection, v);

      p := Add(p, Scale(v, deltaTime));
      position, velocity := p, v;
    }
  }
}
