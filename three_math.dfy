/**
 * The few pieces of the three.js maths library the controllers use, over
 * unbounded reals: Vector3 arithmetic, MathUtils.clamp, Vector3.lerp and
 * the constant Math.PI / 2.
 */
module ThreeMath {

  /** A three.js Vector3. */
  datatype Vec3 = Vec3(x: real, y: real, z: real)

  /** `new THREE.Vector3()`: the zero vector. */
  const Zero: Vec3 := Vec3(0.0, 0.0, 0.0)

  /**
   * Math.PI / 2 as the nearest double. The proofs use only that it is
   * positive, so nothing depends on the digits.
   */
  const HalfPi: real := 1.5707963267948966

  function Abs(a: real): (r: real)
    ensures 0.0 <= r && (r == a || r == -a)
  {
    if a < 0.0 then -a else a
  }

  function Min(a: real, b: real): (r: real)
    ensures r <= a && r <= b && (r == a || r == b)
  {
    if a <= b then a else b
  }

  function Max(a: real, b: real): (r: real)
    ensures a <= r && b <= r && (r == a || r == b)
  {
    if a <= b then b else a
  }

  /**
   * `THREE.MathUtils.clamp(value, min, max)`, which is
   * `Math.max(min, Math.min(max, value))`; the pitch handlers write the same
   * expression inline.
   */
  function Clamp(value: real, min: real, max: real): (r: real)
    ensures min <= max ==> min <= r <= max
    ensures min <= value <= max ==> r == value
    ensures value < min ==> r == min
    ensures min <= max < value ==> r == max
  {
    Max(min, Min(max, value))
  }

  /** Clamping is idempotent, whatever the order of the bounds. */
  lemma ClampIdempotent(value: real, min: real, max: real)
    ensures Clamp(Clamp(value, min, max), min, max) == Clamp(value, min, max)
  {
  }

  /** Scaling by a fraction in [0, 1] keeps the sign and does not increase the magnitude. */
  lemma ScaleByFraction(w: real, t: real)
    requires 0.0 <= t <= 1.0
    ensures w >= 0.0 ==> 0.0 <= w * t <= w
    ensures w <= 0.0 ==> w <= w * t <= 0.0
    ensures Abs(w * t) <= Abs(w)
  {
    FractionBounds(w, t);
    var p := w * t;
    assert 0.0 <= p <= w || w <= p <= 0.0;
    AbsBetween(p, w);
  }

  lemma FractionBounds(w: real, t: real)
    requires 0.0 <= t <= 1.0
    ensures w >= 0.0 ==> 0.0 <= w * t <= w
    ensures w <= 0.0 ==> w <= w * t <= 0.0
  {
  }

  lemma AbsBetween(p: real, v: real)
    requires 0.0 <= p <= v || v <= p <= 0.0
    ensures Abs(p) <= Abs(v)
  {
  }

  function Add(a: Vec3, b: Vec3): Vec3 {
    Vec3(a.x + b.x, a.y + b.y, a.z + b.z)
  }

  function Sub(a: Vec3, b: Vec3): Vec3 {
    Vec3(a.x - b.x, a.y - b.y, a.z - b.z)
  }

  /** `v.multiplyScalar(s)`. */
  function Scale(v: Vec3, s: real): Vec3 {
    Vec3(v.x * s, v.y * s, v.z * s)
  }

  /** `v.lerp(target, alpha)`: move the fraction `alpha` of the way from `v` to `target`. */
  function Lerp(v: Vec3, target: Vec3, alpha: real): Vec3 {
    Add(v, Scale(Sub(target, v), alpha))
  }
}
