/** Vectors and quaternions as the driver's pose structures hold them (w first),
    with the quaternion helpers that both device files define. */
module Quaternion {

  datatype Vec3 = Vec3(x: real, y: real, z: real)

  datatype Quat = Quat(w: real, x: real, y: real, z: real)

  /** The orientation a fresh device starts from. */
  const Identity := Quat(1.0, 0.0, 0.0, 0.0)

  const Zero := Quat(0.0, 0.0, 0.0, 0.0)

  function Dot(p: Quat, q: Quat): real {
    p.w * q.w + p.x * q.x + p.y * q.y + p.z * q.z
  }

  /** Sum of the squares of the four components. */
  function NormSq(q: Quat): real {
    Dot(q, q)
  }

  function Scale(q: Quat, k: real): Quat {
    Quat(k * q.w, k * q.x, k * q.y, k * q.z)
  }

  function Add(p: Quat, q: Quat): Quat {
    Quat(p.w + q.w, p.x + q.x, p.y + q.y, p.z + q.z)
  }

  function Neg(q: Quat): Quat {
    Quat(-1.0 * q.w, -1.0 * q.x, -1.0 * q.y, -1.0 * q.z)
  }

  /** Every component divided by the same non-zero number. */
  function Div(q: Quat, m: real): Quat
    requires m != 0.0
  {
    Quat(q.w / m, q.x / m, q.y / m, q.z / m)
  }

  /** HmdQuaternion_Product: the Hamilton product, component by component as
      the driver writes it. */
  function Product(a: Quat, b: Quat): Quat {
    Quat(a.w * b.w - a.x * b.x - a.y * b.y - a.z * b.z,
         a.w * b.x + a.x * b.w + a.y * b.z - a.z * b.y,
         a.w * b.y - a.x * b.z + a.y * b.w + a.z * b.x,
         a.w * b.z + a.x * b.y - a.y * b.x + a.z * b.w)
  }

  /** HmdQuaternion_Init_Angle, with the cosine and sine of half the angle given
      instead of computed: (cos, -sin * axis). A unit axis and a true
      cosine/sine pair give a unit quaternion. */
  function AxisAngle(cosHalf: real, sinHalf: real, x: real, y: real, z: real): (r: Quat)
    ensures cosHalf * cosHalf + sinHalf * sinHalf == 1.0 && x * x + y * y + z * z == 1.0
            ==> NormSq(r) == 1.0
  {
    Quat(cosHalf, -sinHalf * x, -sinHalf * y, -sinHalf * z)
  }

  /** The defining property of the C library's sqrt over the reals. */
  ghost predicate IsSquareRoot(sqrt: real -> real) {
    forall x: real :: 0.0 <= x ==> 0.0 <= sqrt(x) && sqrt(x) * sqrt(x) == x
  }

  lemma ProductIdentity(q: Quat)
    ensures Product(Identity, q) == q && Product(q, Identity) == q
  {
  }

  lemma NormSqNonNegative(q: Quat)
    ensures NormSq(q) >= 0.0
  {
    SelfDotBounds(q, q);
  }

  /** Only the zero quaternion has magnitude zero. */
  lemma NormSqPositive(q: Quat)
    ensures q != Zero ==> NormSq(q) > 0.0
  {
    SelfDotBounds(q, q);
  }

  lemma NormSqZero(q: Quat)
    ensures NormSq(q) == 0.0 ==> q == Zero
  {
    NormSqPositive(q);
  }

  // The dot product of a quaternion with itself, with its two arguments kept
  // apart so that the solver sees products of distinct terms.
  lemma SelfDotBounds(p: Quat, q: Quat)
    requires p == q
    ensures Dot(p, q) >= 0.0
    ensures q != Zero ==> Dot(p, q) > 0.0
  {
    SameSignProduct(p.w, q.w); SameSignProduct(p.x, q.x);
    SameSignProduct(p.y, q.y); SameSignProduct(p.z, q.z);
    SumOfNonNegatives(p.w * q.w, p.x * q.x, p.y * q.y, p.z * q.z);
  }

  lemma SameSignProduct(a: real, b: real)
    requires a == b
    ensures a * b >= 0.0
    ensures a != 0.0 ==> a * b > 0.0
  {
    if a < 0.0 {
      assert a * b == (-a) * (-b);
    }
  }

  lemma SumOfNonNegatives(a: real, b: real, c: real, d: real)
    requires a >= 0.0 && b >= 0.0 && c >= 0.0 && d >= 0.0
    ensures a + b + c + d >= 0.0
    ensures a > 0.0 || b > 0.0 || c > 0.0 || d > 0.0 ==> a + b + c + d > 0.0
  {
  }

  /** The squared norm of a quaternion given by its components. */
  lemma NormSqOf(r: Quat, c1: real, c2: real, c3: real, c4: real)
    requires r == Quat(c1, c2, c3, c4)
    ensures NormSq(r) == c1 * c1 + c2 * c2 + c3 * c3 + c4 * c4
  {
  }

  lemma NegNormSq(q: Quat)
    ensures NormSq(Neg(q)) == NormSq(q)
  {
  }

  /** The dot product is linear in its second argument. */
  lemma DotLinear(q: Quat, p: Quat, r: Quat, s: real, t: real)
    ensures Dot(q, Add(Scale(p, s), Scale(r, t))) == s * Dot(q, p) + t * Dot(q, r)
  {
  }
}
