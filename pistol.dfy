/**
 * Weapon sway: each frame the pistol's x offset moves, at a rate of ten per
 * second, toward five times the camera's yaw change since the last frame,
 * and the yaw is remembered for the next frame.
 */
module Pistol {
  import opened ThreeMath

  /** Offset per radian of yaw change. */
  const SwayGain: real := 5.0
  /** Approach rate, per second. */
  const Smoothing: real := 10.0

  /** `r` lies between `a` and `b`, in either order. */
  predicate Between(r: real, a: real, b: real) {
    (a <= r <= b) || (b <= r <= a)
  }

  /**
   * The new `position.x` after `update(delta, camera)` on a pistol at `x`
   * that last saw yaw `prevYaw`, with the camera now at `yaw`.
   */
  function Sway(x: real, prevYaw: real, yaw: real, delta: real): (r: real)
    ensures delta == 0.0 ==> r == x
    ensures 0.0 <= Smoothing * delta <= 1.0 ==> Between(r, x, (yaw - prevYaw) * SwayGain)
    ensures Smoothing * delta == 1.0 ==> r == (yaw - prevYaw) * SwayGain
  {
    var offsetX := (yaw - prevYaw) * SwayGain;
    var t := Smoothing * delta;
    var r := x + (offsetX - x) * t;
    if 0.0 <= t <= 1.0 then
      StepWithin(x, offsetX, offsetX - x, t);
      assert Between(r, x, offsetX);
      r
    else
      r
  }

  /** A step of fraction `t` in [0, 1] along `w`, from `a` toward `b = a + w`, stays between them. */
  lemma StepWithin(a: real, b: real, w: real, t: real)
    requires 0.0 <= t <= 1.0 && w == b - a
    ensures Between(a + w * t, a, b)
  {
    ScaleByFraction(w, t);
  }

  /** `n` more frames of step `delta` with the camera's yaw held still. */
  function Settle(x: real, yaw: real, delta: real, n: nat): real
    decreases n
  {
    if n == 0 then x else Settle(Sway(x, yaw, yaw, delta), yaw, delta, n - 1)
  }

  function Power(b: real, n: nat): (r: real)
    ensures 0.0 <= b <= 1.0 ==> 0.0 <= r <= 1.0
    decreases n
  {
    if n == 0 then 1.0
    else
      var p := Power(b, n - 1);
      if 0.0 <= b <= 1.0 then
        ProductOfFractions(b, p);
        b * p
      else
        b * p
  }

  lemma ProductOfFractions(a: real, b: real)
    requires 0.0 <= a <= 1.0 && 0.0 <= b <= 1.0
    ensures 0.0 <= a * b <= 1.0
  {
    ScaleByFraction(b, a);
  }

  /** A pistol at rest offset 0 moves the fraction Smoothing * delta of the way back. */
  lemma StillCameraStep(x: real, yaw: real, delta: real)
    ensures Sway(x, yaw, yaw, delta) == x * (1.0 - Smoothing * delta)
  {
    var t := Smoothing * delta;
    assert (yaw - yaw) * SwayGain == 0.0;
    assert x + (0.0 - x) * t == x * (1.0 - t);
  }

  /** With the yaw held still the offset target is 0, and x decays geometrically toward it. */
  lemma {:induction false} SettleIsGeometric(x: real, yaw: real, delta: real, n: nat)
    ensures Settle(x, yaw, delta, n) == x * Power(1.0 - Smoothing * delta, n)
    decreases n
  {
    if n > 0 {
      var b := 1.0 - Smoothing * delta;
      var p := Power(b, n - 1);
      calc {
        Settle(x, yaw, delta, n);
        == { SettleUnfold(x, yaw, delta, n, b); }
        Settle(x * b, yaw, delta, n - 1);
        == { SettleIsGeometric(x * b, yaw, delta, n - 1); }
        (x * b) * p;
        == { MulAssociative(x, b, p); }
        x * (b * p);
        == { assert Power(b, n) == b * p; }
        x * Power(b, n);
      }
    }
  }

  lemma SettleUnfold(x: real, yaw: real, delta: real, n: nat, b: real)
    requires n > 0 && b == 1.0 - Smoothing * delta
    ensures Settle(x, yaw, delta, n) == Settle(x * b, yaw, delta, n - 1)
  {
    assert Settle(x, yaw, delta, n) == Settle(Sway(x, yaw, yaw, delta), yaw, delta, n - 1);
    StillCameraStep(x, yaw, delta);
    assert Sway(x, yaw, yaw, delta) == x * b;
  }

  lemma MulAssociative(a: real, b: real, c: real)
    ensures (a * b) * c == a * (b * c)
  {
  }

  /** For a step with 0 <= Smoothing * delta <= 1, a still camera never pushes the pistol away from centre. */
  lemma SettleNeverGrows(x: real, yaw: real, delta: real, n: nat)
    requires 0.0 <= Smoothing * delta <= 1.0
    ensures Abs(Settle(x, yaw, delta, n)) <= Abs(x)
  {
    var p := Power(1.0 - Smoothing * delta, n);
    SettleIsGeometric(x, yaw, delta, n);
    ScaleByFraction(x, p);
  }

  class Pistol {
    /** The group's position; only x is animated. */
    var position: Vec3
    /** The camera yaw seen by the previous update. */
    var prevRotationY: real

    /** The group before its model has loaded: at the origin, remembering yaw 0. */
    constructor ()
      ensures position == Zero && prevRotationY == 0.0
    {
      position := Zero;
      prevRotationY := 0.0;
    }

    /** `update(delta, camera)`, given `camera.rotation.y`. */
    method Update(delta: real, cameraRotationY: real)
      modifies this`position, this`prevRotationY
      ensures position == old(position).(x := Sway(old(position.x), old(prevRotationY), cameraRotationY, delta))
      ensures prevRotationY == cameraRotationY
    {
      var targetRotationY := cameraRotationY;
      var rotationDiff := targetRotationY - prevRotationY;
      var offsetX := rotationDiff * SwayGain;
      var smoothing := Smoothing;
      position := position.(x := position.x + (offsetX - position.x) * smoothing * delta);
      prevRotationY := targetRotationY;
    }
  }
}
