/**
 * EllipseParameters: the geometric description of an ellipse (centre,
 * semi-axes, orientation) and its conversion from the six conic
 * coefficients. The source marks a non-ellipse with NaN in every field;
 * here that sentinel is the Invalid variant.
 *
 * sqrt and atan2 are parameters of the conversion. The proofs that need
 * sqrt to be a square root take that as a precondition on the parameter.
 */
module EllipseGeometry {
  import opened Algebra
  import opened EllipseAlgebraic
  import opened EllipseUtils

  /** Centre (x0, y0), semi-axis lengths a and b, and the angle theta of the major axis. */
  datatype EllipseParameters =
    | Valid(x0: real, y0: real, a: real, b: real, theta: real)
    | Invalid

  /** sqrt is a square root on the non-negative reals. */
  ghost predicate IsSquareRoot(sqrt: real -> real)
  {
    forall t: real :: t >= 0.0 ==> sqrt(t) >= 0.0 && sqrt(t) * sqrt(t) == t
  }

  /** EllipseParameters::IsValid: the x-coordinate of the centre is not NaN. */
  predicate IsValid(p: EllipseParameters)
  {
    p.Valid?
  }

  /** EllipseParameters::Invalid: the sentinel that IsValid rejects. */
  function InvalidParameters(): (r: EllipseParameters)
    ensures !IsValid(r)
  {
    Invalid
  }

  /** The denominator 4ac - b^2 shared by the centre and sigma; the negated discriminant. */
  function Num(q: AlgebraicParameters): real
  {
    4.0 * q.a * q.c - q.b * q.b
  }

  lemma NumPositive(q: AlgebraicParameters)
    requires IsEllipse(q)
    ensures Num(q) > 0.0
  {
  }

  /** The scale factor sigma of the source, computed with s = 4ac - b^2 and divided by s * s. */
  function Sigma(q: AlgebraicParameters): real
    requires IsEllipse(q)
  {
    var s := 4.0 * q.a * q.c - q.b * q.b;
    SquarePositive(s, s * s);
    4.0 * (q.c * q.d * q.d + q.a * q.e * q.e - q.b * q.d * q.e - q.f * (4.0 * q.a * q.c - q.b * q.b)) / (s * s)
  }

  /** sqrt((sigma a - sigma c)^2 + (sigma b)^2), the source's sqrt(s + sigmabsquared). */
  function AxisRoot(q: AlgebraicParameters, sqrt: real -> real, sigma: real): real
  {
    var s := (sigma * q.a - sigma * q.c) * (sigma * q.a - sigma * q.c);
    var sigmabsquared := (sigma * q.b) * (sigma * q.b);
    sqrt(s + sigmabsquared)
  }

  /** The value whose half gives the first semi-axis squared (up to sign). */
  function AxisSum(q: AlgebraicParameters, sqrt: real -> real, sigma: real): real
  {
    sigma * q.a + sigma * q.c + AxisRoot(q, sqrt, sigma)
  }

  /** The value whose half gives the second semi-axis squared (up to sign). */
  function AxisDifference(q: AlgebraicParameters, sqrt: real -> real, sigma: real): real
  {
    sigma * q.a + sigma * q.c - AxisRoot(q, sqrt, sigma)
  }

  /** The semi-axis stored in the field a. */
  function SemiAxisA(q: AlgebraicParameters, sqrt: real -> real): real
    requires IsEllipse(q)
  {
    sqrt(Abs(AxisSum(q, sqrt, Sigma(q)) / 2.0))
  }

  /** The semi-axis stored in the field b. */
  function SemiAxisB(q: AlgebraicParameters, sqrt: real -> real): real
    requires IsEllipse(q)
  {
    sqrt(Abs(AxisDifference(q, sqrt, Sigma(q)) / 2.0))
  }

  /** The x-coordinate of the centre, (b e - 2 c d) / (4ac - b^2). */
  function CentreX(q: AlgebraicParameters): real
    requires IsEllipse(q)
  {
    var num := 4.0 * q.a * q.c - q.b * q.b;
    (q.b * q.e - 2.0 * q.c * q.d) / num
  }

  /** The y-coordinate of the centre, (b d - 2 a e) / (4ac - b^2). */
  function CentreY(q: AlgebraicParameters): real
    requires IsEllipse(q)
  {
    var num := 4.0 * q.a * q.c - q.b * q.b;
    (q.b * q.d - 2.0 * q.a * q.e) / num
  }

  /** atan2(b, a - c) / 2, turned by a quarter when sigma is positive. */
  function Theta(q: AlgebraicParameters, atan2: (real, real) -> real): real
    requires IsEllipse(q)
  {
    var theta := atan2(q.b, q.a - q.c) / 2.0;
    if Sigma(q) > 0.0 then theta + M_PI_2 else theta
  }

  /**
   * EllipseParameters::FromAlgebraicParameters. A conic that is not an
   * ellipse gives Invalid; otherwise the centre is the conic's stationary
   * point (both partial derivatives vanish there).
   */
  function FromAlgebraicParameters(q: AlgebraicParameters, sqrt: real -> real, atan2: (real, real) -> real): (r: EllipseParameters)
    ensures r.Invalid? <==> !IsEllipse(q)
    ensures r.Valid? ==> 2.0 * q.a * r.x0 + q.b * r.y0 + q.d == 0.0
    ensures r.Valid? ==> q.b * r.x0 + 2.0 * q.c * r.y0 + q.e == 0.0
  {
    if !IsEllipse(q) then
      Invalid
    else
      CentreIsStationary(q.a, q.b, q.c, q.d, q.e, Num(q), CentreX(q), CentreY(q));
      Valid(CentreX(q), CentreY(q), SemiAxisA(q, sqrt), SemiAxisB(q, sqrt), Theta(q, atan2))
  }

  lemma StationaryX(a: real, b: real, c: real, d: real, e: real, num: real, x0n: real, y0n: real, x0: real, y0: real)
    requires num == 4.0 * a * c - b * b
    requires x0n == x0 * num && x0n == b * e - 2.0 * c * d
    requires y0n == y0 * num && y0n == b * d - 2.0 * a * e
    ensures (2.0 * a * x0 + b * y0 + d) * num == 0.0
  {
    assert (2.0 * a * x0 + b * y0 + d) * num == 2.0 * a * x0n + b * y0n + d * num;
  }

  lemma StationaryY(a: real, b: real, c: real, d: real, e: real, num: real, x0n: real, y0n: real, x0: real, y0: real)
    requires num == 4.0 * a * c - b * b
    requires x0n == x0 * num && x0n == b * e - 2.0 * c * d
    requires y0n == y0 * num && y0n == b * d - 2.0 * a * e
    ensures (b * x0 + 2.0 * c * y0 + e) * num == 0.0
  {
    assert (b * x0 + 2.0 * c * y0 + e) * num == b * x0n + 2.0 * c * y0n + e * num;
  }

  /** The centre formulas solve the two stationarity equations. */
  lemma CentreIsStationary(a: real, b: real, c: real, d: real, e: real, num: real, x0: real, y0: real)
    requires num == 4.0 * a * c - b * b && num != 0.0
    requires x0 == (b * e - 2.0 * c * d) / num
    requires y0 == (b * d - 2.0 * a * e) / num
    ensures 2.0 * a * x0 + b * y0 + d == 0.0
    ensures b * x0 + 2.0 * c * y0 + e == 0.0
  {
    QuotientTimesDivisor(b * e - 2.0 * c * d, num, x0);
    QuotientTimesDivisor(b * d - 2.0 * a * e, num, y0);
    StationaryX(a, b, c, d, e, num, x0 * num, y0 * num, x0, y0);
    StationaryY(a, b, c, d, e, num, x0 * num, y0 * num, x0, y0);
    var gx := 2.0 * a * x0 + b * y0 + d;
    var gy := b * x0 + 2.0 * c * y0 + e;
    ZeroFactor(gx, num, gx * num);
    ZeroFactor(gy, num, gy * num);
  }

  lemma CentreValueIdentity(a: real, b: real, c: real, d: real, e: real, x0: real, y0: real)
    ensures 2.0 * (a * (x0 * x0) + b * (x0 * y0) + c * (y0 * y0)) + d * x0 + e * y0
         == x0 * (2.0 * a * x0 + b * y0 + d) + y0 * (b * x0 + 2.0 * c * y0 + e)
  {
  }

  /** At a stationary point the conic's value is f + (d x0 + e y0) / 2. */
  lemma ValueAtStationaryPoint(a: real, b: real, c: real, d: real, e: real, f: real, x0: real, y0: real)
    requires 2.0 * a * x0 + b * y0 + d == 0.0
    requires b * x0 + 2.0 * c * y0 + e == 0.0
    ensures 2.0 * (a * (x0 * x0) + b * (x0 * y0) + c * (y0 * y0) + d * x0 + e * y0 + f) == d * x0 + e * y0 + 2.0 * f
  {
    CentreValueIdentity(a, b, c, d, e, x0, y0);
    var gx := 2.0 * a * x0 + b * y0 + d;
    var gy := b * x0 + 2.0 * c * y0 + e;
    ZeroTimes(x0, gx, x0 * gx);
    ZeroTimes(y0, gy, y0 * gy);
  }

  lemma ScaledCentreValue(a: real, b: real, c: real, d: real, e: real, f: real, num: real, x0: real, y0: real, x0n: real, y0n: real, h: real)
    requires num == 4.0 * a * c - b * b
    requires x0n == x0 * num && x0n == b * e - 2.0 * c * d
    requires y0n == y0 * num && y0n == b * d - 2.0 * a * e
    requires h == d * x0 + e * y0 + 2.0 * f
    ensures h * num == 2.0 * (b * d * e - c * d * d - a * e * e + f * num)
  {
    assert h * num == d * x0n + e * y0n + 2.0 * f * num;
  }

  /** sigma * num * num is four times c d^2 + a e^2 - b d e - f num. */
  lemma SigmaScaled(q: AlgebraicParameters)
    requires IsEllipse(q)
    ensures Sigma(q) * (Num(q) * Num(q)) == 4.0 * (q.c * q.d * q.d + q.a * q.e * q.e - q.b * q.d * q.e - q.f * Num(q))
  {
    var s := Num(q);
    SquarePositive(s, s * s);
    QuotientTimesDivisor(4.0 * (q.c * q.d * q.d + q.a * q.e * q.e - q.b * q.d * q.e - q.f * (4.0 * q.a * q.c - q.b * q.b)), s * s, Sigma(q));
  }

  lemma SigmaTimesNum(sigma: real, num: real, h: real, t: real)
    requires num != 0.0
    requires sigma * (num * num) == -2.0 * t
    requires h * num == t
    ensures sigma * num == -2.0 * h
  {
    var g := sigma * num + 2.0 * h;
    assert g * num == sigma * (num * num) + 2.0 * (h * num);
    ZeroFactor(g, num, g * num);
  }

  /** Cramer's rule for the stationarity equations, multiplied through by 4ac - b^2. */
  lemma SolvedCentre(a: real, b: real, c: real, d: real, e: real, x0: real, y0: real)
    requires 2.0 * a * x0 + b * y0 + d == 0.0
    requires b * x0 + 2.0 * c * y0 + e == 0.0
    ensures x0 * (4.0 * a * c - b * b) == b * e - 2.0 * c * d
    ensures y0 * (4.0 * a * c - b * b) == b * d - 2.0 * a * e
  {
    var gx := 2.0 * a * x0 + b * y0 + d;
    var gy := b * x0 + 2.0 * c * y0 + e;
    assert x0 * (4.0 * a * c - b * b) == 2.0 * c * gx - b * gy + b * e - 2.0 * c * d;
    assert y0 * (4.0 * a * c - b * b) == 2.0 * a * gy - b * gx + b * d - 2.0 * a * e;
    ZeroTimes(2.0 * c, gx, 2.0 * c * gx);
    ZeroTimes(b, gy, b * gy);
    ZeroTimes(2.0 * a, gy, 2.0 * a * gy);
    ZeroTimes(b, gx, b * gx);
  }

  lemma CentreValueScalar(a: real, b: real, c: real, d: real, e: real, f: real, num: real, sigma: real, x0: real, y0: real)
    requires num == 4.0 * a * c - b * b && num != 0.0
    requires 2.0 * a * x0 + b * y0 + d == 0.0
    requires b * x0 + 2.0 * c * y0 + e == 0.0
    requires sigma * (num * num) == 4.0 * (c * d * d + a * e * e - b * d * e - f * num)
    ensures sigma * num == -4.0 * (a * (x0 * x0) + b * (x0 * y0) + c * (y0 * y0) + d * x0 + e * y0 + f)
  {
    SolvedCentre(a, b, c, d, e, x0, y0);
    ValueAtStationaryPoint(a, b, c, d, e, f, x0, y0);
    var h := d * x0 + e * y0 + 2.0 * f;
    ScaledCentreValue(a, b, c, d, e, f, num, x0, y0, x0 * num, y0 * num, h);
    SigmaTimesNum(sigma, num, h, h * num);
  }

  /** At any stationary point of an ellipse's conic, sigma * (4ac - b^2) is -4 times the conic's value. */
  lemma SigmaAtStationaryPoint(q: AlgebraicParameters, x0: real, y0: real)
    requires IsEllipse(q)
    requires 2.0 * q.a * x0 + q.b * y0 + q.d == 0.0
    requires q.b * x0 + 2.0 * q.c * y0 + q.e == 0.0
    ensures Sigma(q) * Num(q) == -4.0 * Eval(q, x0, y0)
  {
    SigmaScaled(q);
    CentreValueScalar(q.a, q.b, q.c, q.d, q.e, q.f, Num(q), Sigma(q), x0, y0);
  }

  /**
   * sigma is -4 times the conic's value at its centre, divided by 4ac - b^2:
   * it is positive exactly when the conic is negative at its centre.
   */
  lemma SigmaIsCentreValue(q: AlgebraicParameters, sqrt: real -> real, atan2: (real, real) -> real)
    requires IsEllipse(q)
    ensures var r := FromAlgebraicParameters(q, sqrt, atan2);
      Sigma(q) * Num(q) == -4.0 * Eval(q, r.x0, r.y0)
  {
    var r := FromAlgebraicParameters(q, sqrt, atan2);
    SigmaAtStationaryPoint(q, r.x0, r.y0);
  }

  /** sigma is positive exactly when the conic is negative at its stationary point. */
  lemma SigmaPositiveAtStationaryPoint(q: AlgebraicParameters, x0: real, y0: real)
    requires IsEllipse(q)
    requires 2.0 * q.a * x0 + q.b * y0 + q.d == 0.0
    requires q.b * x0 + 2.0 * q.c * y0 + q.e == 0.0
    ensures Sigma(q) > 0.0 <==> Eval(q, x0, y0) < 0.0
  {
    SigmaAtStationaryPoint(q, x0, y0);
    var sigma, num := Sigma(q), Num(q);
    if sigma > 0.0 {
      PositiveProduct(sigma, num, sigma * num);
    } else if sigma < 0.0 {
      MixedProduct(sigma, num, sigma * num);
    } else {
      ZeroTimes(num, sigma, num * sigma);
    }
  }

  /**
   * theta is half of atan2(b, a - c), turned by a quarter (M_PI_2) exactly
   * when the conic is negative at the centre.
   */
  lemma ThetaQuarterTurn(q: AlgebraicParameters, sqrt: real -> real, atan2: (real, real) -> real)
    requires IsEllipse(q)
    ensures var r := FromAlgebraicParameters(q, sqrt, atan2);
      r.theta == atan2(q.b, q.a - q.c) / 2.0 + (if Eval(q, r.x0, r.y0) < 0.0 then M_PI_2 else 0.0)
  {
    var r := FromAlgebraicParameters(q, sqrt, atan2);
    SigmaPositiveAtStationaryPoint(q, r.x0, r.y0);
  }

  /** With a true square root both semi-axes are non-negative. */
  lemma SemiAxesNonNegative(q: AlgebraicParameters, sqrt: real -> real, atan2: (real, real) -> real)
    requires IsEllipse(q)
    requires IsSquareRoot(sqrt)
    ensures FromAlgebraicParameters(q, sqrt, atan2).a >= 0.0
    ensures FromAlgebraicParameters(q, sqrt, atan2).b >= 0.0
  {
  }

  /** (u + R)(u - R) with R^2 = (sa - sc)^2 + (sb)^2 and u = sa + sc is s^2 (4ac - b^2). */
  lemma RootProduct(sigma: real, a: real, b: real, c: real, r: real, v1: real, v2: real)
    requires r * r == (sigma * a - sigma * c) * (sigma * a - sigma * c) + (sigma * b) * (sigma * b)
    requires v1 == sigma * a + sigma * c + r
    requires v2 == sigma * a + sigma * c - r
    ensures v1 * v2 == sigma * sigma * (4.0 * a * c - b * b)
  {
    assert v1 * v2 == (sigma * a + sigma * c) * (sigma * a + sigma * c) - r * r;
  }

  /** |u| |w| = u w when u w is not negative. */
  lemma AbsProduct(u: real, w: real, uw: real)
    requires uw == u * w && uw >= 0.0
    ensures Abs(u) * Abs(w) == uw
  {
  }

  /** The half-values: (v1 / 2) (v2 / 2) = v1 v2 / 4. */
  lemma HalfProduct(v1: real, v2: real, p: real)
    requires p == v1 * v2
    ensures (v1 / 2.0) * (v2 / 2.0) == p / 4.0
  {
  }

  lemma AxesSquaredScalar(sigma: real, num: real, value: real, p: real)
    requires p == sigma * sigma * num
    requires sigma * num == -4.0 * value
    ensures (p / 4.0) * num == 4.0 * value * value
  {
    assert p * num == (sigma * num) * (sigma * num);
  }

  /** With a true square root, AxisRoot is non-negative and squares back to its radicand. */
  lemma AxisRootSquared(q: AlgebraicParameters, sqrt: real -> real, sigma: real)
    requires IsSquareRoot(sqrt)
    ensures AxisRoot(q, sqrt, sigma) >= 0.0
    ensures AxisRoot(q, sqrt, sigma) * AxisRoot(q, sqrt, sigma)
         == (sigma * q.a - sigma * q.c) * (sigma * q.a - sigma * q.c) + (sigma * q.b) * (sigma * q.b)
  {
    SquareNonNegative(sigma * q.a - sigma * q.c, (sigma * q.a - sigma * q.c) * (sigma * q.a - sigma * q.c));
    SquareNonNegative(sigma * q.b, (sigma * q.b) * (sigma * q.b));
  }

  /** The two half-values multiply, in absolute value, to sigma^2 (4ac - b^2) / 4, whatever sigma is. */
  lemma HalfValuesProduct(q: AlgebraicParameters, sqrt: real -> real, sigma: real)
    requires IsEllipse(q)
    requires IsSquareRoot(sqrt)
    ensures Abs(AxisSum(q, sqrt, sigma) / 2.0) * Abs(AxisDifference(q, sqrt, sigma) / 2.0)
         == sigma * sigma * Num(q) / 4.0
  {
    AxisRootSquared(q, sqrt, sigma);
    NumPositive(q);
    HalfValuesScalar(sigma, q.a, q.b, q.c, AxisRoot(q, sqrt, sigma),
      AxisSum(q, sqrt, sigma), AxisDifference(q, sqrt, sigma), Num(q));
  }

  /** HalfValuesProduct over plain reals: v1, v2 = sigma (a + c) +- r with r^2 as in AxisRoot. */
  lemma HalfValuesScalar(sigma: real, a: real, b: real, c: real, r: real, v1: real, v2: real, num: real)
    requires r * r == (sigma * a - sigma * c) * (sigma * a - sigma * c) + (sigma * b) * (sigma * b)
    requires v1 == sigma * a + sigma * c + r
    requires v2 == sigma * a + sigma * c - r
    requires num == 4.0 * a * c - b * b && num > 0.0
    ensures Abs(v1 / 2.0) * Abs(v2 / 2.0) == sigma * sigma * num / 4.0
  {
    RootProduct(sigma, a, b, c, r, v1, v2);
    SquareNonNegative(sigma, sigma * sigma);
    NonNegativeProduct(sigma * sigma, num, v1 * v2);
    HalfProduct(v1, v2, v1 * v2);
    AbsProduct(v1 / 2.0, v2 / 2.0, v1 * v2 / 4.0);
  }

  lemma AxesProductScalar(a: real, b: real, aa: real, bb: real, h: real, sigma: real, num: real, value: real)
    requires a * a == aa && b * b == bb
    requires aa * bb == h
    requires h == sigma * sigma * num / 4.0
    requires sigma * num == -4.0 * value
    ensures (a * a) * (b * b) * num == 4.0 * value * value
  {
    AxesSquaredScalar(sigma, num, value, sigma * sigma * num);
  }

  /** (sa sb)^2 (4ac - b^2): the squared semi-axes of q times its negated discriminant. */
  function AxesMeasure(q: AlgebraicParameters, sa: real, sb: real): real
  {
    (sa * sa) * (sb * sb) * Num(q)
  }

  /** The semi-axes product for any sigma with sigma (4ac - b^2) = -4 value. */
  lemma AxesProductOfSigma(q: AlgebraicParameters, sqrt: real -> real, sigma: real, value: real, sa: real, sb: real)
    requires IsEllipse(q)
    requires IsSquareRoot(sqrt)
    requires sigma * Num(q) == -4.0 * value
    requires sa == sqrt(Abs(AxisSum(q, sqrt, sigma) / 2.0))
    requires sb == sqrt(Abs(AxisDifference(q, sqrt, sigma) / 2.0))
    ensures AxesMeasure(q, sa, sb) == 4.0 * value * value
  {
    HalfValuesProduct(q, sqrt, sigma);
    AxesProductScalar(sa, sb, Abs(AxisSum(q, sqrt, sigma) / 2.0), Abs(AxisDifference(q, sqrt, sigma) / 2.0),
      sigma * sigma * Num(q) / 4.0, sigma, Num(q), value);
  }

  /**
   * With a true square root, the squared semi-axes multiply to
   * 4 F^2 / (4ac - b^2), F being the conic's value at the stationary point.
   * (The area of the ellipse, pi a b, follows.)
   */
  lemma SemiAxesProductAt(q: AlgebraicParameters, sqrt: real -> real, x0: real, y0: real)
    requires IsEllipse(q)
    requires IsSquareRoot(sqrt)
    requires 2.0 * q.a * x0 + q.b * y0 + q.d == 0.0
    requires q.b * x0 + 2.0 * q.c * y0 + q.e == 0.0
    ensures AxesMeasure(q, SemiAxisA(q, sqrt), SemiAxisB(q, sqrt)) == 4.0 * Eval(q, x0, y0) * Eval(q, x0, y0)
  {
    SigmaAtStationaryPoint(q, x0, y0);
    AxesProductOfSigma(q, sqrt, Sigma(q), Eval(q, x0, y0), SemiAxisA(q, sqrt), SemiAxisB(q, sqrt));
  }

  /**
   * The conversion's semi-axes satisfy (a b)^2 (4ac - b^2) = 4 F^2, F being
   * the conic's value at the returned centre.
   */
  lemma SemiAxesProduct(q: AlgebraicParameters, sqrt: real -> real, atan2: (real, real) -> real)
    requires IsEllipse(q)
    requires IsSquareRoot(sqrt)
    ensures var r := FromAlgebraicParameters(q, sqrt, atan2);
      AxesMeasure(q, r.a, r.b) == 4.0 * Eval(q, r.x0, r.y0) * Eval(q, r.x0, r.y0)
  {
    var r := FromAlgebraicParameters(q, sqrt, atan2);
    SemiAxesProductAt(q, sqrt, r.x0, r.y0);
  }

  /** A product of two numbers is not negative only when they have one sign (or one is zero). */
  lemma SameSign(v1: real, v2: real, p: real)
    requires p == v1 * v2 && p >= 0.0
    ensures (v1 >= 0.0 && v2 >= 0.0) || (v1 <= 0.0 && v2 <= 0.0)
  {
    if v1 > 0.0 && v2 < 0.0 {
      MixedProduct(v2, v1, p);
    } else if v1 < 0.0 && v2 > 0.0 {
      MixedProduct(v1, v2, p);
    }
  }

  /** Halves of one sign: their absolute values add up to the absolute value of their sum. */
  lemma AbsHalvesSum(v1: real, v2: real, p: real)
    requires p == v1 * v2 && p >= 0.0
    ensures Abs(v1 / 2.0) + Abs(v2 / 2.0) == Abs((v1 + v2) / 2.0)
  {
    SameSign(v1, v2, p);
  }

  /** A factor of a positive product with a positive other factor is positive. */
  lemma PositiveFactor(g: real, n: real, gn: real)
    requires n > 0.0 && gn == g * n && gn > 0.0
    ensures g > 0.0
  {
    if g < 0.0 {
      MixedProduct(g, n, gn);
    } else if g == 0.0 {
      ZeroTimes(n, g, gn);
    }
  }

  /** Square roots keep order: sa^2 >= sb^2 for non-negative sa, sb gives sa >= sb. */
  lemma RootMonotone(sa: real, sb: real, x: real, y: real)
    requires sa >= 0.0 && sb >= 0.0 && sa * sa == x && sb * sb == y && x >= y
    ensures sa >= sb
  {
    if sa < sb {
      PositiveProduct(sb - sa, sb + sa, (sb - sa) * (sb + sa));
    }
  }

  /** v1 v2 = sigma^2 num >= 0, so the halves of v1, v2 have one sign and their magnitudes add up to |sigma (a + c)|. */
  lemma HalfSumScalar(sigma: real, a: real, b: real, c: real, r: real, v1: real, v2: real, num: real)
    requires r * r == (sigma * a - sigma * c) * (sigma * a - sigma * c) + (sigma * b) * (sigma * b)
    requires v1 == sigma * a + sigma * c + r
    requires v2 == sigma * a + sigma * c - r
    requires num == 4.0 * a * c - b * b && num > 0.0
    ensures v1 * v2 >= 0.0
    ensures Abs(v1 / 2.0) + Abs(v2 / 2.0) == Abs(sigma * a + sigma * c)
  {
    RootProduct(sigma, a, b, c, r, v1, v2);
    SquareNonNegative(sigma, sigma * sigma);
    NonNegativeProduct(sigma * sigma, num, v1 * v2);
    AbsHalvesSum(v1, v2, v1 * v2);
  }

  /** a^2 + b^2 for semi-axes a and b. */
  function SquaredSum(sa: real, sb: real): real
  {
    sa * sa + sb * sb
  }

  /** The squared semi-axes' sum for any sigma. */
  lemma SquaredSumOfSigma(q: AlgebraicParameters, sqrt: real -> real, sigma: real, sa: real, sb: real)
    requires IsEllipse(q)
    requires IsSquareRoot(sqrt)
    requires sa == sqrt(Abs(AxisSum(q, sqrt, sigma) / 2.0))
    requires sb == sqrt(Abs(AxisDifference(q, sqrt, sigma) / 2.0))
    ensures SquaredSum(sa, sb) == Abs(sigma * q.a + sigma * q.c)
  {
    AxisRootSquared(q, sqrt, sigma);
    NumPositive(q);
    HalfSumScalar(sigma, q.a, q.b, q.c, AxisRoot(q, sqrt, sigma),
      AxisSum(q, sqrt, sigma), AxisDifference(q, sqrt, sigma), Num(q));
  }

  /**
   * The conversion's squared semi-axes add up to |sigma (a + c)|, the trace
   * of the scaled quadratic part: the sum of its two eigenvalues' magnitudes.
   */
  lemma SemiAxesSquaredSum(q: AlgebraicParameters, sqrt: real -> real, atan2: (real, real) -> real)
    requires IsEllipse(q)
    requires IsSquareRoot(sqrt)
    ensures var r := FromAlgebraicParameters(q, sqrt, atan2);
      SquaredSum(r.a, r.b) == Abs(Sigma(q) * q.a + Sigma(q) * q.c)
  {
    var r := FromAlgebraicParameters(q, sqrt, atan2);
    SquaredSumOfSigma(q, sqrt, Sigma(q), r.a, r.b);
  }

  /**
   * sigma (a + c) is positive on a real ellipse: sigma num = -4 F with
   * num > 0 and a F < 0 makes sigma a positive, and a c > 0 then makes
   * sigma c positive.
   */
  lemma RealEllipseTrace(sigma: real, a: real, c: real, num: real, value: real)
    requires num > 0.0 && Times(sigma, num) == -4.0 * value
    requires Times(a, value) < 0.0 && Times(a, c) > 0.0
    ensures sigma * a > 0.0 && sigma * c > 0.0
  {
    assert (sigma * a) * num == -4.0 * (a * value);
    PositiveFactor(sigma * a, num, (sigma * a) * num);
    PositiveProduct(sigma * a, a * c, (sigma * a) * (a * c));
    SquarePositive(a, a * a);
    assert (sigma * a) * (a * c) == (sigma * c) * (a * a);
    PositiveFactor(sigma * c, a * a, (sigma * a) * (a * c));
  }

  /** SemiAxisAIsMajor over plain reals, with sa, sb the roots of |v1 / 2| and |v2 / 2|. */
  lemma MajorScalar(sigma: real, a: real, b: real, c: real, r: real, v1: real, v2: real, num: real,
                    value: real, sa: real, sb: real)
    requires r >= 0.0 && r * r == (sigma * a - sigma * c) * (sigma * a - sigma * c) + (sigma * b) * (sigma * b)
    requires v1 == sigma * a + sigma * c + r
    requires v2 == sigma * a + sigma * c - r
    requires num == 4.0 * a * c - b * b && num > 0.0
    requires Times(sigma, num) == -4.0 * value
    requires Times(a, value) < 0.0 && Times(a, c) > 0.0
    requires sa >= 0.0 && sb >= 0.0 && Times(sa, sa) == Abs(v1 / 2.0) && Times(sb, sb) == Abs(v2 / 2.0)
    ensures sa >= sb
    ensures SquaredSum(sa, sb) == sigma * a + sigma * c
  {
    RealEllipseTrace(sigma, a, c, num, value);
    HalfSumScalar(sigma, a, b, c, r, v1, v2, num);
    SameSign(v1, v2, v1 * v2);
    RootMonotone(sa, sb, sa * sa, sb * sb);
  }

  /** The semi-axis order and sum for any sigma with sigma (4ac - b^2) = -4 F and a F < 0. */
  lemma MajorOfSigma(q: AlgebraicParameters, sqrt: real -> real, sigma: real, value: real, sa: real, sb: real)
    requires IsEllipse(q)
    requires IsSquareRoot(sqrt)
    requires Times(sigma, Num(q)) == -4.0 * value && Times(q.a, value) < 0.0
    requires sa == sqrt(Abs(AxisSum(q, sqrt, sigma) / 2.0))
    requires sb == sqrt(Abs(AxisDifference(q, sqrt, sigma) / 2.0))
    ensures sa >= sb && SquaredSum(sa, sb) == sigma * q.a + sigma * q.c
  {
    NumPositive(q);
    AxisRootSquared(q, sqrt, sigma);
    assert Times(q.a, q.c) > 0.0;
    assert Times(sqrt(Abs(AxisSum(q, sqrt, sigma) / 2.0)), sqrt(Abs(AxisSum(q, sqrt, sigma) / 2.0)))
        == Abs(AxisSum(q, sqrt, sigma) / 2.0);
    assert Times(sqrt(Abs(AxisDifference(q, sqrt, sigma) / 2.0)), sqrt(Abs(AxisDifference(q, sqrt, sigma) / 2.0)))
        == Abs(AxisDifference(q, sqrt, sigma) / 2.0);
    MajorScalar(sigma, q.a, q.b, q.c, AxisRoot(q, sqrt, sigma), AxisSum(q, sqrt, sigma), AxisDifference(q, sqrt, sigma),
      Num(q), value, sa, sb);
  }

  /** SemiAxisAIsMajor at any stationary point (x0, y0) where F = Eval(q, x0, y0) has the sign opposite to a. */
  lemma SemiAxisAIsMajorAt(q: AlgebraicParameters, sqrt: real -> real, x0: real, y0: real)
    requires IsEllipse(q)
    requires IsSquareRoot(sqrt)
    requires 2.0 * q.a * x0 + q.b * y0 + q.d == 0.0
    requires q.b * x0 + 2.0 * q.c * y0 + q.e == 0.0
    requires q.a * Eval(q, x0, y0) < 0.0
    ensures SemiAxisA(q, sqrt) >= SemiAxisB(q, sqrt)
    ensures SquaredSum(SemiAxisA(q, sqrt), SemiAxisB(q, sqrt)) == Sigma(q) * q.a + Sigma(q) * q.c
  {
    SigmaAtStationaryPoint(q, x0, y0);
    assert Times(Sigma(q), Num(q)) == -4.0 * Eval(q, x0, y0);
    assert Times(q.a, Eval(q, x0, y0)) < 0.0;
    MajorOfSigma(q, sqrt, Sigma(q), Eval(q, x0, y0), SemiAxisA(q, sqrt), SemiAxisB(q, sqrt));
  }

  /**
   * On a real ellipse (the conic's value F at the centre has the sign
   * opposite to a), the field a holds the larger semi-axis and b the
   * smaller, and a^2 + b^2 = sigma (a + c), sigma being positive there.
   */
  lemma SemiAxisAIsMajor(q: AlgebraicParameters, sqrt: real -> real, atan2: (real, real) -> real)
    requires IsEllipse(q)
    requires IsSquareRoot(sqrt)
    requires q.a * Eval(q, CentreX(q), CentreY(q)) < 0.0
    ensures var r := FromAlgebraicParameters(q, sqrt, atan2);
      r.a >= r.b && SquaredSum(r.a, r.b) == Sigma(q) * q.a + Sigma(q) * q.c
  {
    var r := FromAlgebraicParameters(q, sqrt, atan2);
    SemiAxisAIsMajorAt(q, sqrt, r.x0, r.y0);
  }
}
