/**
 * The comparison helpers of ellipseUtils.h (radToDegree, relativeDifference)
 * and the math.h constants and absolute value the other modules share.
 */
module EllipseUtils {
  import opened Algebra

  /** M_PI from math.h, as its decimal literal. */
  const M_PI: real := 3.14159265358979323846

  /** M_PI_2 from math.h, as its decimal literal. */
  const M_PI_2: real := 1.57079632679489661923

  /** The absolute value of a real. */
  function Abs(v: real): (r: real)
    ensures r >= 0.0
    ensures r == v || r == -v
    ensures r == 0.0 <==> v == 0.0
  {
    if v < 0.0 then -v else v
  }

  /** radToDegree: 180 * angle / M_PI. */
  function RadToDegree(angle: real): (r: real)
    ensures r * M_PI == 180.0 * angle
  {
    180.0 * angle / M_PI
  }

  /** The conversion is linear in the angle. */
  lemma RadToDegreeLinear(k: real, x: real, y: real)
    ensures RadToDegree(k * x + y) == k * RadToDegree(x) + RadToDegree(y)
  {
    assert (k * RadToDegree(x) + RadToDegree(y)) * M_PI == k * (RadToDegree(x) * M_PI) + RadToDegree(y) * M_PI;
  }

  /** Zero, a quarter turn and a half turn map to 0, 90 and 180 degrees. */
  lemma RadToDegreeLandmarks()
    ensures RadToDegree(0.0) == 0.0
    ensures RadToDegree(M_PI_2) == 90.0
    ensures RadToDegree(M_PI) == 180.0
  {
  }

  /** relativeDifference: |(|a - b|) / a|; the source divides by a, so a must not be zero. */
  function RelativeDifference(a: real, b: real): (r: real)
    requires a != 0.0
    ensures r >= 0.0
    ensures r == 0.0 <==> a == b
    ensures r * Abs(a) == Abs(a - b)
  {
    var r := Abs(Abs(a - b) / a);
    RelativeDifferenceScaled(a, Abs(a - b), r);
    r
  }

  /** |d / a| times |a| is d for d >= 0. */
  lemma RelativeDifferenceScaled(a: real, d: real, r: real)
    requires a != 0.0 && d >= 0.0
    requires r == Abs(d / a)
    ensures r * Abs(a) == d
  {
    QuotientTimesDivisor(d, a, d / a);
    if a < 0.0 {
      assert r == -(d / a);
    }
  }

  /** The relative difference is |a - b| / |a|. */
  lemma RelativeDifferenceIsRatio(a: real, b: real)
    requires a != 0.0
    ensures RelativeDifference(a, b) == Abs(a - b) / Abs(a)
  {
    var r := RelativeDifference(a, b);
    DivisionOfProduct(r, Abs(a), Abs(a - b));
  }

  /** r * n == p with n != 0 gives r == p / n. */
  lemma DivisionOfProduct(r: real, n: real, p: real)
    requires n != 0.0 && r * n == p
    ensures r == p / n
  {
  }

  /** Scaling both arguments by the same k != 0 leaves the relative difference unchanged. */
  lemma RelativeDifferenceScaleInvariant(a: real, b: real, k: real)
    requires a != 0.0 && k != 0.0
    ensures k * a != 0.0
    ensures RelativeDifference(k * a, k * b) == RelativeDifference(a, b)
  {
    RelativeDifferenceIsRatio(a, b);
    RelativeDifferenceIsRatio(k * a, k * b);
    assert k * a - k * b == k * (a - b);
    AbsOfProduct(k, a);
    AbsOfProduct(k, a - b);
    RatioScaled(Abs(a - b), Abs(a), Abs(k));
  }

  /** (m n) / (m d) = n / d for non-zero m and d. */
  lemma RatioScaled(n: real, d: real, m: real)
    requires d != 0.0 && m != 0.0
    ensures m * d != 0.0
    ensures (m * n) / (m * d) == n / d
  {
  }

  /** |k v| = |k| |v|. */
  lemma AbsOfProduct(k: real, v: real)
    ensures Abs(k * v) == Abs(k) * Abs(v)
  {
  }

}
