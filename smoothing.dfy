/** The exponential smoothing that UpdatePos and UpdateRot apply to incoming
    samples (ControllerDevice.cpp and HMDDevice.cpp carry identical copies). */
module Smoothing {
  import opened Quaternion

  /** One position slot of UpdatePos: the stored value moves the fraction `s`
      of the way toward the sample. */
  function Lerp(prev: real, sample: real, s: real): (r: real)
    ensures s == 0.0 ==> r == prev
    ensures s == 1.0 ==> r == sample
  {
    (1.0 - s) * prev + s * sample
  }

  /** With a smoothing factor in [0, 1] the smoothed value lies between the
      stored value and the sample. */
  lemma LerpBetween(prev: real, sample: real, s: real)
    requires 0.0 <= s <= 1.0
    ensures prev <= sample ==> prev <= Lerp(prev, sample, s) <= sample
    ensures sample <= prev ==> sample <= Lerp(prev, sample, s) <= prev
  {
    var d := if prev <= sample then sample - prev else prev - sample;
    NonNegativeProduct(s, d);
    NonNegativeProduct(1.0 - s, d);
  }

  function SmoothPosition(prev: Vec3, sample: Vec3, s: real): Vec3 {
    Vec3(Lerp(prev.x, sample.x, s), Lerp(prev.y, sample.y, s), Lerp(prev.z, sample.z, s))
  }

  /** The stored orientation, negated when it lies in the hemisphere opposite
      the sample; `q` and `-q` stand for the same rotation. */
  function Aligned(prev: Quat, q: Quat): (r: Quat)
    ensures Dot(q, r) >= 0.0
    ensures Dot(q, prev) >= 0.0 ==> r == prev
    ensures Dot(q, prev) < 0.0 ==> r == Neg(prev)
  {
    if Dot(q, prev) < 0.0 then Neg(prev) else prev
  }

  /** The lerp step of UpdateRot as the driver writes it: on a negative dot
      product the stored components are subtracted instead of added. The
      result is the plain lerp from the aligned stored orientation to the
      sample. */
  function Blend(prev: Quat, q: Quat, s: real): Quat {
    if Dot(q, prev) < 0.0 then
      Quat(s * q.w - (1.0 - s) * prev.w, s * q.x - (1.0 - s) * prev.x,
           s * q.y - (1.0 - s) * prev.y, s * q.z - (1.0 - s) * prev.z)
    else
      Quat(s * q.w + (1.0 - s) * prev.w, s * q.x + (1.0 - s) * prev.x,
           s * q.y + (1.0 - s) * prev.y, s * q.z + (1.0 - s) * prev.z)
  }

  lemma BlendIsLerpFromAligned(prev: Quat, q: Quat, s: real)
    ensures Blend(prev, q, s) == Add(Scale(q, s), Scale(Aligned(prev, q), 1.0 - s))
  {
    var t := 1.0 - s;
    if Dot(q, prev) < 0.0 {
      assert Aligned(prev, q) == Neg(prev);
      assert Blend(prev, q, s) == Quat(s * q.w - t * prev.w, s * q.x - t * prev.x,
                                       s * q.y - t * prev.y, s * q.z - t * prev.z);
      LerpFromNegated(prev, q, s, t);
    } else {
      assert Aligned(prev, q) == prev;
    }
  }

  /** Lerping from the antipode is subtracting the stored components. */
  lemma LerpFromNegated(prev: Quat, q: Quat, s: real, t: real)
    ensures Add(Scale(q, s), Scale(Neg(prev), t)) ==
      Quat(s * q.w - t * prev.w, s * q.x - t * prev.x, s * q.y - t * prev.y, s * q.z - t * prev.z)
  {
    SubtractComponent(s, q.w, t, prev.w);
    SubtractComponent(s, q.x, t, prev.x);
    SubtractComponent(s, q.y, t, prev.y);
    SubtractComponent(s, q.z, t, prev.z);
  }

  lemma SubtractComponent(s: real, a: real, t: real, b: real)
    ensures s * a + t * (-1.0 * b) == s * a - t * b
  {
  }

  /** The normalisation step of UpdateRot: every component divided by the
      magnitude. The result is a unit quaternion, and scaling it back by the
      (positive) magnitude gives the input, so it points the same way. */
  function Renormalized(q: Quat, sqrt: real -> real): (r: Quat)
    requires IsSquareRoot(sqrt) && NormSq(q) != 0.0
    ensures sqrt(NormSq(q)) > 0.0
    ensures Scale(r, sqrt(NormSq(q))) == q
    ensures NormSq(r) == 1.0
  {
    NormSqNonNegative(q);
    var mag := sqrt(NormSq(q));
    DivByMagnitude(q, mag);
    Div(q, mag)
  }

  lemma DivByMagnitude(q: Quat, mag: real)
    requires mag >= 0.0 && mag * mag == NormSq(q) && NormSq(q) != 0.0
    ensures mag > 0.0
    ensures Scale(Div(q, mag), mag) == q
    ensures NormSq(Div(q, mag)) == 1.0
  {
    assert Div(q, mag) == Scale(q, 1.0 / mag);
    ScaleNormSq(q, 1.0 / mag);
  }

  lemma ScaleNormSq(q: Quat, k: real)
    ensures NormSq(Scale(q, k)) == k * k * NormSq(q)
  {
  }

  /** Flipping the stored orientation to its antipode does not change the
      blend, unless the sample is exactly perpendicular to it. */
  lemma BlendSignInvariant(prev: Quat, q: Quat, s: real)
    requires Dot(q, prev) != 0.0
    ensures Blend(Neg(prev), q, s) == Blend(prev, q, s)
  {
    assert Dot(q, Neg(prev)) == -Dot(q, prev);
    assert Neg(Neg(prev)) == prev;
  }

  /** For a smoothing factor in [0, 1] the blend lies in the sample's
      hemisphere. */
  lemma BlendInSampleHemisphere(prev: Quat, q: Quat, s: real)
    requires 0.0 <= s <= 1.0
    ensures Dot(q, Blend(prev, q, s)) >= 0.0
  {
    var a := Aligned(prev, q);
    BlendIsLerpFromAligned(prev, q, s);
    DotLinear(q, q, a, s, 1.0 - s);
    NormSqNonNegative(q);
    NonNegativeProduct(s, NormSq(q));
    NonNegativeProduct(1.0 - s, Dot(q, a));
  }

  /** From a unit stored orientation, a smoothing factor in [0, 1] never
      drives the blend to zero (for s = 1 only a zero sample could), so the
      normalisation that follows never divides by zero. */
  lemma BlendNonZero(prev: Quat, q: Quat, s: real)
    requires NormSq(prev) == 1.0 && 0.0 <= s <= 1.0
    requires s < 1.0 || q != Zero
    ensures NormSq(Blend(prev, q, s)) > 0.0
  {
    var a := Aligned(prev, q);
    var b := Blend(prev, q, s);
    BlendIsLerpFromAligned(prev, q, s);
    if s == 1.0 {
      assert b == q;
    } else {
      NegNormSq(prev);
      LerpTowardSelf(a, q, s);
      if b == Zero {
        DotZero(a);
      }
    }
    NormSqPositive(b);
  }

  /** A lerp with weight 1 - s > 0 on a unit quaternion `a`, toward a sample
      in a's hemisphere, keeps a positive component along `a`. */
  lemma LerpTowardSelf(a: Quat, q: Quat, s: real)
    requires NormSq(a) == 1.0 && Dot(q, a) >= 0.0 && 0.0 <= s < 1.0
    ensures Dot(a, Add(Scale(q, s), Scale(a, 1.0 - s))) > 0.0
  {
    DotLinear(a, q, a, s, 1.0 - s);
    assert Dot(a, q) == Dot(q, a);
    PositiveMix(Dot(q, a), NormSq(a), s);
  }

  lemma PositiveMix(d: real, n: real, s: real)
    requires d >= 0.0 && n == 1.0 && 0.0 <= s < 1.0
    ensures s * d + (1.0 - s) * n > 0.0
  {
    NonNegativeProduct(s, d);
  }

  lemma DotZero(a: Quat)
    ensures Dot(a, Zero) == 0.0
  {
  }

  lemma NonNegativeProduct(a: real, b: real)
    requires a >= 0.0 && b >= 0.0
    ensures a * b >= 0.0
  {
  }

  /** Renormalising a unit quaternion leaves it as it is. */
  lemma RenormalizeUnit(q: Quat, sqrt: real -> real)
    requires IsSquareRoot(sqrt) && NormSq(q) == 1.0
    ensures Renormalized(q, sqrt) == q
  {
    var m := sqrt(1.0);
    UnitRoot(m);
    assert Div(q, 1.0) == q;
  }

  lemma UnitRoot(m: real)
    requires m >= 0.0 && m * m == 1.0
    ensures m == 1.0
  {
    var a, b := m - 1.0, m + 1.0;
    assert a * b == m * m - 1.0;
  }
}
