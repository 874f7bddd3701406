// Three-component vectors and quaternions over the reals, as the scene code
// uses them through the rendering library, plus the one transcendental
// operation the cloth needs (the Euclidean length) given as a square-root oracle.
module Vectors {

  datatype Vec3 = Vec3(x: real, y: real, z: real)

  /** A rotation as the rendering library stores it (x, y, z imaginary parts, w real part). */
  datatype Quat = Quat(x: real, y: real, z: real, w: real)

  const Zero: Vec3 := Vec3(0.0, 0.0, 0.0)
  const IdentityQuat: Quat := Quat(0.0, 0.0, 0.0, 1.0)

  function Add(a: Vec3, b: Vec3): Vec3 {
    Vec3(a.x + b.x, a.y + b.y, a.z + b.z)
  }

  function Sub(a: Vec3, b: Vec3): Vec3 {
    Vec3(a.x - b.x, a.y - b.y, a.z - b.z)
  }

  function Scale(a: Vec3, k: real): Vec3 {
    Vec3(a.x * k, a.y * k, a.z * k)
  }

  function Dot(a: Vec3, b: Vec3): real {
    a.x * b.x + a.y * b.y + a.z * b.z
  }

  function Cross(a: Vec3, b: Vec3): Vec3 {
    Vec3(a.y * b.z - a.z * b.y, a.z * b.x - a.x * b.z, a.x * b.y - a.y * b.x)
  }

  function LengthSq(a: Vec3): real {
    Dot(a, a)
  }

  function DistSq(a: Vec3, b: Vec3): real {
    LengthSq(Sub(a, b))
  }

  /** `lerpVectors(a, b, t)`: a + (b - a) * t; t = 0 gives a and t = 1 gives b. */
  function Lerp(a: Vec3, b: Vec3, t: real): (r: Vec3)
    ensures t == 0.0 ==> r == a
    ensures t == 1.0 ==> r == b
    ensures a == b ==> r == a
  {
    Add(a, Scale(Sub(b, a), t))
  }

  /** What `Math.sqrt` promises on non-negative arguments. */
  ghost predicate IsSqrt(sqrt: real -> real) {
    forall s: real :: 0.0 <= s ==> 0.0 <= sqrt(s) && sqrt(s) * sqrt(s) == s
  }

  /** `length()` / `distanceTo()`: the square root of the squared length. */
  function Length(a: Vec3, sqrt: real -> real): real {
    sqrt(LengthSq(a))
  }

  /** `normalize()`: divide by the length, or by 1 when the length is 0. */
  function Normalize(a: Vec3, sqrt: real -> real): Vec3 {
    var len := Length(a, sqrt);
    Scale(a, 1.0 / (if len == 0.0 then 1.0 else len))
  }

  /** `Math.max(0, Math.min(1, t))`. */
  function Clamp01(t: real): (r: real)
    ensures 0.0 <= r <= 1.0
    ensures 0.0 <= t <= 1.0 ==> r == t
    ensures t < 0.0 ==> r == 0.0
    ensures 1.0 < t ==> r == 1.0
  {
    var m := if 1.0 < t then 1.0 else t;
    if 0.0 < m then m else 0.0
  }

  lemma ClampMonotonic(a: real, b: real)
    requires a <= b
    ensures Clamp01(a) <= Clamp01(b)
  {
  }

  lemma MulNonNegative(a: real, b: real)
    requires 0.0 <= a && 0.0 <= b
    ensures 0.0 <= a * b
  {
  }

  lemma SquareNonNegative(t: real)
    ensures 0.0 <= t * t
  {
    if t < 0.0 {
      assert t * t == (-t) * (-t);
    }
  }

  lemma SquareStrictlyMonotonic(a: real, b: real)
    requires 0.0 <= a < b
    ensures a * a < b * b
  {
    calc {
      a * a;
    <= a * b;
    < b * b;
    }
  }

  lemma LengthSqNonNegative(a: Vec3)
    ensures 0.0 <= LengthSq(a)
  {
    SquareNonNegative(a.x);
    SquareNonNegative(a.y);
    SquareNonNegative(a.z);
  }

  function Square(x: real): real {
    x * x
  }

  /** The oracle's root of a positive square is its base. */
  lemma SqrtOfSquare(sqrt: real -> real, d: real)
    requires IsSqrt(sqrt)
    requires 0.0 < d
    ensures sqrt(Square(d)) == d
  {
    SquareNonNegative(d);
    var r := sqrt(d * d);
    assert 0.0 <= r && r * r == d * d;
    if r < d {
      SquareStrictlyMonotonic(r, d);
    } else if r > d {
      SquareStrictlyMonotonic(d, r);
    }
  }

  /** The oracle's length squares back to the squared length. */
  lemma LengthSquares(a: Vec3, sqrt: real -> real)
    requires IsSqrt(sqrt)
    ensures 0.0 <= Length(a, sqrt)
    ensures Length(a, sqrt) * Length(a, sqrt) == LengthSq(a)
  {
    LengthSqNonNegative(a);
  }

  lemma ScaleLengthSq(a: Vec3, k: real)
    ensures LengthSq(Scale(a, k)) == k * k * LengthSq(a)
  {
    calc {
      LengthSq(Scale(a, k));
      (a.x * k) * (a.x * k) + (a.y * k) * (a.y * k) + (a.z * k) * (a.z * k);
      k * k * (a.x * a.x) + k * k * (a.y * a.y) + k * k * (a.z * a.z);
    }
  }

  /** A vector of non-zero length normalises to unit length. */
  lemma NormalizeIsUnit(a: Vec3, sqrt: real -> real)
    requires IsSqrt(sqrt)
    requires Length(a, sqrt) != 0.0
    ensures LengthSq(Normalize(a, sqrt)) == 1.0
  {
    LengthSquares(a, sqrt);
    var l := Length(a, sqrt);
    ScaleLengthSq(a, 1.0 / l);
    calc {
      LengthSq(Normalize(a, sqrt));
      (1.0 / l) * (1.0 / l) * LengthSq(a);
      (1.0 / l) * (1.0 / l) * (l * l);
      1.0;
    }
  }

  /** `multiplyQuaternions(a, b)`: the Hamilton product, the rotation b followed by a. */
  function QuatMul(a: Quat, b: Quat): Quat {
    Quat(
      a.x * b.w + a.w * b.x + a.y * b.z - a.z * b.y,
      a.y * b.w + a.w * b.y + a.z * b.x - a.x * b.z,
      a.z * b.w + a.w * b.z + a.x * b.y - a.y * b.x,
      a.w * b.w - a.x * b.x - a.y * b.y - a.z * b.z)
  }

  /** The identity rotation is neutral on both sides of the product. */
  lemma QuatMulIdentity(q: Quat)
    ensures QuatMul(IdentityQuat, q) == q
    ensures QuatMul(q, IdentityQuat) == q
  {
  }

  /** `applyQuaternion(q)`: v + w t + (q.xyz x t) with t = 2 (q.xyz x v). */
  function Rotate(v: Vec3, q: Quat): Vec3 {
    var u := Vec3(q.x, q.y, q.z);
    var t := Scale(Cross(u, v), 2.0);
    Add(Add(v, Scale(t, q.w)), Cross(u, t))
  }

  /** The identity rotation leaves every vector where it is. */
  lemma RotateIdentity(v: Vec3)
    ensures Rotate(v, IdentityQuat) == v
  {
    var t := Scale(Cross(Zero, v), 2.0);
    assert Cross(Zero, v) == Zero;
    assert t == Zero;
    assert Cross(Zero, t) == Zero;
  }
}
