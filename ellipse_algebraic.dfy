/**
 * The conic of EllipseAlgebraicParameters: six coefficients of
 * a*x^2 + b*x*y + c*y^2 + d*x + e*y + f = 0, the ellipse test on the
 * discriminant, and the closed-form conic through five points.
 *
 * The five-point construction works in the projective plane: each point
 * (x, y) is lifted to (x, y, 1), the lines L0..L3 through consecutive points
 * are cross products, and Q = L0 x L3 is where the first and the last line
 * meet. The expanded polynomial of the source is proved equal to the pencil
 *   F(X) = k (L1.X)(g.X) - m (L1.X)(L2.X) + n (L2.X)(h.X)
 * with g = Q x p4, h = p0 x Q, k = L2.p0, m = g.p0 and n = L1.p4, which
 * vanishes at each of the five points by incidence alone.
 */
module EllipseAlgebraic {
  import opened Algebra

  /** The coefficients a..f of a*x^2 + b*x*y + c*y^2 + d*x + e*y + f. */
  datatype AlgebraicParameters = AlgebraicParameters(a: real, b: real, c: real, d: real, e: real, f: real)

  /** The conic's polynomial at the point (x, y). */
  function Eval(q: AlgebraicParameters, x: real, y: real): real
  {
    q.a * (x * x) + q.b * (x * y) + q.c * (y * y) + q.d * x + q.e * y + q.f
  }

  /** The quadratic part a*x^2 + b*x*y + c*y^2. */
  function QuadraticPart(q: AlgebraicParameters, x: real, y: real): real
  {
    q.a * (x * x) + q.b * (x * y) + q.c * (y * y)
  }

  /** The six degree-two monomials of a homogeneous point, in coefficient order. */
  function Monomials(p: Vec3): AlgebraicParameters
  {
    AlgebraicParameters(p.x * p.x, p.x * p.y, p.y * p.y, p.x * p.w, p.y * p.w, p.w * p.w)
  }

  /** The coefficient-by-coefficient pairing of two coefficient vectors. */
  function Pair(q: AlgebraicParameters, r: AlgebraicParameters): real
  {
    q.a * r.a + q.b * r.b + q.c * r.c + q.d * r.d + q.e * r.e + q.f * r.f
  }

  /** The homogeneous form of the conic at a projective point. */
  function HomEval(q: AlgebraicParameters, p: Vec3): real
  {
    Pair(q, Monomials(p))
  }

  /** At a lifted point (x, y, 1) the homogeneous form is the conic's polynomial. */
  lemma EvalIsHomEval(q: AlgebraicParameters, x: real, y: real)
    ensures Eval(q, x, y) == HomEval(q, Vec3(x, y, 1.0))
  {
  }

  /**
   * EllipseAlgebraicParameters::IsEllipse: the discriminant b^2 - 4ac is
   * negative, which forces a and c to be non-zero and of one sign.
   */
  predicate IsEllipse(q: AlgebraicParameters)
    ensures IsEllipse(q) ==> q.a * q.c > 0.0
  {
    q.b * q.b - 4.0 * q.a * q.c < 0.0
  }

  /** Completing the square: 4a * (a x^2 + b x y + c y^2) = (2 a x + b y)^2 + (4 a c - b^2) y^2. */
  lemma CompletedSquare(a: real, b: real, c: real, x: real, y: real, qp: real, z: real, d: real)
    requires qp == a * (x * x) + b * (x * y) + c * (y * y)
    requires z == 2.0 * a * x + b * y
    requires d == 4.0 * a * c - b * b
    ensures 4.0 * (a * qp) == z * z + d * (y * y)
  {
  }

  lemma DefiniteOffAxis(a: real, b: real, c: real, x: real, y: real, qp: real)
    requires b * b - 4.0 * a * c < 0.0
    requires y != 0.0
    requires qp == a * (x * x) + b * (x * y) + c * (y * y)
    ensures a * qp > 0.0
  {
    var z := 2.0 * a * x + b * y;
    var d := 4.0 * a * c - b * b;
    CompletedSquare(a, b, c, x, y, qp, z, d);
    SquareNonNegative(z, z * z);
    SquarePositive(y, y * y);
    PositiveProduct(d, y * y, d * (y * y));
  }

  lemma DefiniteOnAxis(a: real, b: real, c: real, x: real, qp: real)
    requires b * b - 4.0 * a * c < 0.0
    requires x != 0.0
    requires qp == a * (x * x) + b * (x * 0.0) + c * (0.0 * 0.0)
    ensures a * qp > 0.0
  {
    SquareNonNegative(b, b * b);
    assert a != 0.0;
    assert qp == a * (x * x);
    SquarePositive(x, x * x);
    if a > 0.0 {
      PositiveProduct(a, x * x, qp);
      PositiveProduct(a, qp, a * qp);
    } else {
      MixedProduct(a, x * x, qp);
      NegativeProduct(a, qp, a * qp);
    }
  }

  /** A negative discriminant makes a * (a x^2 + b x y + c y^2) positive off the origin. */
  lemma DefiniteScalar(a: real, b: real, c: real, x: real, y: real, qp: real)
    requires b * b - 4.0 * a * c < 0.0
    requires x != 0.0 || y != 0.0
    requires qp == a * (x * x) + b * (x * y) + c * (y * y)
    ensures a * qp > 0.0
  {
    if y != 0.0 {
      DefiniteOffAxis(a, b, c, x, y, qp);
    } else {
      DefiniteOnAxis(a, b, c, x, qp);
    }
  }

  lemma IndefiniteScalar(a: real, b: real, c: real, x: real, y: real, qp: real)
    requires b * b - 4.0 * a * c >= 0.0
    requires a != 0.0 && x == -b && y == 2.0 * a
    requires qp == a * (x * x) + b * (x * y) + c * (y * y)
    ensures a * qp <= 0.0
  {
    assert qp == a * (4.0 * a * c - b * b);
    assert a * qp == (a * a) * (4.0 * a * c - b * b);
    assert a * a > 0.0;
  }

  /** For an ellipse the quadratic part has the sign of a at every direction other than zero. */
  lemma EllipseDefinite(q: AlgebraicParameters, x: real, y: real)
    requires IsEllipse(q)
    requires x != 0.0 || y != 0.0
    ensures q.a * QuadraticPart(q, x, y) > 0.0
  {
    DefiniteScalar(q.a, q.b, q.c, x, y, QuadraticPart(q, x, y));
  }

  /** When b^2 - 4ac >= 0 some direction (x, y) other than zero has a * QuadraticPart(q, x, y) <= 0. */
  lemma NotEllipseIndefinite(q: AlgebraicParameters) returns (x: real, y: real)
    requires !IsEllipse(q)
    ensures x != 0.0 || y != 0.0
    ensures q.a * QuadraticPart(q, x, y) <= 0.0
  {
    if q.a == 0.0 {
      x, y := 1.0, 0.0;
    } else {
      x, y := -q.b, 2.0 * q.a;
      IndefiniteScalar(q.a, q.b, q.c, x, y, QuadraticPart(q, x, y));
    }
  }

  /** IsEllipse holds exactly when the quadratic part is definite, i.e. the conic is bounded. */
  lemma IsEllipseIffDefinite(q: AlgebraicParameters)
    ensures IsEllipse(q) <==> forall x: real, y: real :: (x != 0.0 || y != 0.0) ==> q.a * QuadraticPart(q, x, y) > 0.0
  {
    if IsEllipse(q) {
      forall x: real, y: real | x != 0.0 || y != 0.0
        ensures q.a * QuadraticPart(q, x, y) > 0.0
      {
        EllipseDefinite(q, x, y);
      }
    } else {
      var x, y := NotEllipseIndefinite(q);
    }
  }


  /**
   * The expanded coefficients of FromPoints, written as the source computes
   * them from Q = (A, B, C), L1 = (a1, b1, c1), L2 = (a2, b2, c2) and the
   * first and last points (x0, y0, w0) and (x4, y4, w4).
   */
  function PencilCoefficients(Q: Vec3, L1: Vec3, L2: Vec3, p0: Vec3, p4: Vec3): AlgebraicParameters
  {
    var A, B, C := Q.x, Q.y, Q.w;
    var a1, b1, c1 := L1.x, L1.y, L1.w;
    var a2, b2, c2 := L2.x, L2.y, L2.w;
    var x0, y0, w0 := p0.x, p0.y, p0.w;
    var x4, y4, w4 := p4.x, p4.y, p4.w;
    var y4w0, w4y0, w4w0, y4y0, x4w0 := y4 * w0, w4 * y0, w4 * w0, y4 * y0, x4 * w0;
    var w4x0, x4x0, y4x0, x4y0 := w4 * x0, x4 * x0, y4 * x0, x4 * y0;
    var a1a2, a1b2, a1c2 := a1 * a2, a1 * b2, a1 * c2;
    var b1a2, b1b2, b1c2 := b1 * a2, b1 * b2, b1 * c2;
    var c1a2, c1b2, c1c2 := c1 * a2, c1 * b2, c1 * c2;
    var aa := -A * a1a2 * y4w0 + A * a1a2 * w4y0 - B * b1a2 * y4w0 - B * c1a2 * w4w0 + B * a1b2 * w4y0 + B * a1c2 * w4w0 + C * b1a2 * y4y0 + C * c1a2 * w4y0 - C * a1b2 * y4y0 - C * a1c2 * y4w0;
    var cc := A * c1b2 * w4w0 + A * a1b2 * x4w0 - A * b1c2 * w4w0 - A * b1a2 * w4x0 + B * b1b2 * x4w0 - B * b1b2 * w4x0 + C * b1c2 * x4w0 + C * b1a2 * x4x0 - C * c1b2 * w4x0 - C * a1b2 * x4x0;
    var ff := A * c1a2 * y4x0 + A * c1b2 * y4y0 - A * a1c2 * x4y0 - A * b1c2 * y4y0 - B * c1a2 * x4x0 - B * c1b2 * x4y0 + B * a1c2 * x4x0 + B * b1c2 * y4x0 - C * c1c2 * x4y0 + C * c1c2 * y4x0;
    var bb := A * c1a2 * w4w0 + A * a1a2 * x4w0 - A * a1b2 * y4w0 - A * a1c2 * w4w0 - A * a1a2 * w4x0 + A * b1a2 * w4y0 + B * b1a2 * x4w0 - B * b1b2 * y4w0 - B * c1b2 * w4w0 - B * a1b2 * w4x0 + B * b1b2 * w4y0 + B * b1c2 * w4w0 - C * b1c2 * y4w0 - C * b1a2 * x4y0 - C * b1a2 * y4x0 - C * c1a2 * w4x0 + C * c1b2 * w4y0 + C * a1b2 * x4y0 + C * a1b2 * y4x0 + C * a1c2 * x4w0;
    var dd := -A * c1a2 * y4w0 + A * a1a2 * y4x0 + A * a1b2 * y4y0 + A * a1c2 * w4y0 - A * a1a2 * x4y0 - A * b1a2 * y4y0 + B * b1a2 * y4x0 + B * c1a2 * w4x0 + B * c1a2 * x4w0 + B * c1b2 * w4y0 - B * a1b2 * x4y0 - B * a1c2 * w4x0 - B * a1c2 * x4w0 - B * b1c2 * y4w0 + C * b1c2 * y4y0 + C * c1c2 * w4y0 - C * c1a2 * x4y0 - C * c1b2 * y4y0 - C * c1c2 * y4w0 + C * a1c2 * y4x0;
    var ee := -A * c1a2 * w4x0 - A * c1b2 * y4w0 - A * c1b2 * w4y0 - A * a1b2 * x4y0 + A * a1c2 * x4w0 + A * b1c2 * y4w0 + A * b1c2 * w4y0 + A * b1a2 * y4x0 - B * b1a2 * x4x0 - B * b1b2 * x4y0 + B * c1b2 * x4w0 + B * a1b2 * x4x0 + B * b1b2 * y4x0 - B * b1c2 * w4x0 - C * b1c2 * x4y0 + C * c1c2 * x4w0 + C * c1a2 * x4x0 + C * c1b2 * y4x0 - C * c1c2 * w4x0 - C * a1c2 * x4x0;
    AlgebraicParameters(aa, bb, cc, dd, ee, ff)
  }

  /**
   * EllipseAlgebraicParameters::FromPoints: the conic through five
   * homogeneous points, from the lines through consecutive points and the
   * meeting point of the first and last line. Its expanded coefficients are
   * those of the pencil of the five points.
   */
  function FromPoints(p0: Vec3, p1: Vec3, p2: Vec3, p3: Vec3, p4: Vec3): (q: AlgebraicParameters)
    ensures q == Pencil(Cross(Cross(p0, p1), Cross(p3, p4)), Cross(p1, p2), Cross(p2, p3), p0, p4)
  {
    var L0, L1, L2, L3 := Cross(p0, p1), Cross(p1, p2), Cross(p2, p3), Cross(p3, p4);
    CoefficientsArePencil(Cross(L0, L3), L1, L2, p0, p4);
    PencilCoefficients(Cross(L0, L3), L1, L2, p0, p4)
  }

  /** The conic with all six coefficients zero, which vanishes everywhere. */
  const ZERO_CONIC: AlgebraicParameters := AlgebraicParameters(0.0, 0.0, 0.0, 0.0, 0.0, 0.0)

  /**
   * EllipseAlgebraicParameters::CreateFrom5Points, the overload taking ten
   * coordinates: a conic through the five points, and not the zero conic
   * when no three of them lie on one line.
   */
  function CreateFrom5Points(p1x: real, p1y: real, p2x: real, p2y: real, p3x: real, p3y: real,
                             p4x: real, p4y: real, p5x: real, p5y: real): (q: AlgebraicParameters)
    ensures Eval(q, p1x, p1y) == 0.0 && Eval(q, p2x, p2y) == 0.0 && Eval(q, p3x, p3y) == 0.0
    ensures Eval(q, p4x, p4y) == 0.0 && Eval(q, p5x, p5y) == 0.0
    ensures NoThreeCollinear(Vec3(p1x, p1y, 1.0), Vec3(p2x, p2y, 1.0), Vec3(p3x, p3y, 1.0), Vec3(p4x, p4y, 1.0), Vec3(p5x, p5y, 1.0))
            ==> q != ZERO_CONIC
  {
    var v0, v1, v2, v3, v4 := Vec3(p1x, p1y, 1.0), Vec3(p2x, p2y, 1.0), Vec3(p3x, p3y, 1.0), Vec3(p4x, p4y, 1.0), Vec3(p5x, p5y, 1.0);
    var q := FromPoints(v0, v1, v2, v3, v4);
    FromPointsThroughP0(v0, v1, v2, v3, v4);
    FromPointsThroughP1(v0, v1, v2, v3, v4);
    FromPointsThroughP2(v0, v1, v2, v3, v4);
    FromPointsThroughP3(v0, v1, v2, v3, v4);
    FromPointsThroughP4(v0, v1, v2, v3, v4);
    EvalIsHomEval(q, p1x, p1y);
    EvalIsHomEval(q, p2x, p2y);
    EvalIsHomEval(q, p3x, p3y);
    EvalIsHomEval(q, p4x, p4y);
    EvalIsHomEval(q, p5x, p5y);
    if NoThreeCollinear(v0, v1, v2, v3, v4) then FromPointsNonZero(v0, v1, v2, v3, v4); q else q
  }

  /** EllipseAlgebraicParameters::CreateFrom5Points, the overload reading x0, y0, x1, y1, ... from an array. */
  function CreateFrom5PointsArray(points: seq<real>): (q: AlgebraicParameters)
    requires |points| >= 10
    ensures q == CreateFrom5Points(points[0], points[1], points[2], points[3], points[4],
                                   points[5], points[6], points[7], points[8], points[9])
  {
    FromPoints(Vec3(points[0], points[1], 1.0), Vec3(points[2], points[3], 1.0), Vec3(points[4], points[5], 1.0),
               Vec3(points[6], points[7], 1.0), Vec3(points[8], points[9], 1.0))
  }

  /**
   * The conic k (L1.X)(g.X) - m (L1.X)(L2.X) + n (L2.X)(h.X) for g = (gx, gy, gw)
   * and h = (hx, hy, hw), coefficient by coefficient.
   */
  function PencilOf(k: real, m: real, n: real, L1: Vec3, L2: Vec3, gx: real, gy: real, gw: real, hx: real, hy: real, hw: real): AlgebraicParameters
  {
    AlgebraicParameters(k * (L1.x * gx) - m * (L1.x * L2.x) + n * (L2.x * hx),
                        k * ((L1.x * gy + L1.y * gx)) - m * ((L1.x * L2.y + L1.y * L2.x)) + n * ((L2.x * hy + L2.y * hx)),
                        k * (L1.y * gy) - m * (L1.y * L2.y) + n * (L2.y * hy),
                        k * ((L1.x * gw + L1.w * gx)) - m * ((L1.x * L2.w + L1.w * L2.x)) + n * ((L2.x * hw + L2.w * hx)),
                        k * ((L1.y * gw + L1.w * gy)) - m * ((L1.y * L2.w + L1.w * L2.y)) + n * ((L2.y * hw + L2.w * hy)),
                        k * (L1.w * gw) - m * (L1.w * L2.w) + n * (L2.w * hw))
  }

  /** The pencil of FromPoints, with g = Q x p4, h = p0 x Q, k = L2.p0, m = g.p0 and n = L1.p4. */
  function Pencil(Q: Vec3, L1: Vec3, L2: Vec3, p0: Vec3, p4: Vec3): AlgebraicParameters
  {
    PencilOf(Dot(L2, p0), Dot(Cross(Q, p4), p0), Dot(L1, p4), L1, L2,
             Cross(Q, p4).x, Cross(Q, p4).y, Cross(Q, p4).w, Cross(p0, Q).x, Cross(p0, Q).y, Cross(p0, Q).w)
  }

  /** The symmetric product of two lines: the degenerate conic (u.X)(v.X). */
  function OuterConic(u: Vec3, v: Vec3): AlgebraicParameters
  {
    AlgebraicParameters(u.x * v.x, u.x * v.y + u.y * v.x, u.y * v.y, u.x * v.w + u.w * v.x, u.y * v.w + u.w * v.y, u.w * v.w)
  }

  /** The linear combination k*q1 - m*q2 + n*q3 of three conics. */
  function Combine(k: real, q1: AlgebraicParameters, m: real, q2: AlgebraicParameters, n: real, q3: AlgebraicParameters): AlgebraicParameters
  {
    AlgebraicParameters(k * q1.a - m * q2.a + n * q3.a, k * q1.b - m * q2.b + n * q3.b, k * q1.c - m * q2.c + n * q3.c,
                        k * q1.d - m * q2.d + n * q3.d, k * q1.e - m * q2.e + n * q3.e, k * q1.f - m * q2.f + n * q3.f)
  }

  /** PencilOf is the combination of three products of lines. */
  lemma PencilOfIsCombination(k: real, m: real, n: real, L1: Vec3, L2: Vec3, g: Vec3, h: Vec3)
    ensures PencilOf(k, m, n, L1, L2, g.x, g.y, g.w, h.x, h.y, h.w)
         == Combine(k, OuterConic(L1, g), m, OuterConic(L1, L2), n, OuterConic(L2, h))
  {
  }

  lemma PencilArguments(Q: Vec3, L1: Vec3, L2: Vec3, p0: Vec3, p4: Vec3)
    ensures Dot(L2, p0) == (L2.x * p0.x + L2.y * p0.y + L2.w * p0.w)
    ensures Dot(Cross(Q, p4), p0) == ((Q.y * p4.w - Q.w * p4.y) * p0.x + (Q.w * p4.x - Q.x * p4.w) * p0.y + (Q.x * p4.y - Q.y * p4.x) * p0.w)
    ensures Dot(L1, p4) == (L1.x * p4.x + L1.y * p4.y + L1.w * p4.w)
    ensures Cross(Q, p4).x == (Q.y * p4.w - Q.w * p4.y) && Cross(Q, p4).y == (Q.w * p4.x - Q.x * p4.w) && Cross(Q, p4).w == (Q.x * p4.y - Q.y * p4.x)
    ensures Cross(p0, Q).x == (p0.y * Q.w - p0.w * Q.y) && Cross(p0, Q).y == (p0.w * Q.x - p0.x * Q.w) && Cross(p0, Q).w == (p0.x * Q.y - p0.y * Q.x)
  {
  }

  lemma SourceCoefficientA(Q: Vec3, L1: Vec3, L2: Vec3, p0: Vec3, p4: Vec3)
    ensures PencilCoefficients(Q, L1, L2, p0, p4).a
         == (L2.x * p0.x + L2.y * p0.y + L2.w * p0.w) * (L1.x * (Q.y * p4.w - Q.w * p4.y)) - ((Q.y * p4.w - Q.w * p4.y) * p0.x + (Q.w * p4.x - Q.x * p4.w) * p0.y + (Q.x * p4.y - Q.y * p4.x) * p0.w) * (L1.x * L2.x) + (L1.x * p4.x + L1.y * p4.y + L1.w * p4.w) * (L2.x * (p0.y * Q.w - p0.w * Q.y))
  {
  }

  lemma ExpandedCoefficientA(Q: Vec3, L1: Vec3, L2: Vec3, p0: Vec3, p4: Vec3)
    ensures (L2.x * p0.x + L2.y * p0.y + L2.w * p0.w) * (L1.x * (Q.y * p4.w - Q.w * p4.y)) - ((Q.y * p4.w - Q.w * p4.y) * p0.x + (Q.w * p4.x - Q.x * p4.w) * p0.y + (Q.x * p4.y - Q.y * p4.x) * p0.w) * (L1.x * L2.x) + (L1.x * p4.x + L1.y * p4.y + L1.w * p4.w) * (L2.x * (p0.y * Q.w - p0.w * Q.y))
         == PencilOf((L2.x * p0.x + L2.y * p0.y + L2.w * p0.w), ((Q.y * p4.w - Q.w * p4.y) * p0.x + (Q.w * p4.x - Q.x * p4.w) * p0.y + (Q.x * p4.y - Q.y * p4.x) * p0.w), (L1.x * p4.x + L1.y * p4.y + L1.w * p4.w), L1, L2, (Q.y * p4.w - Q.w * p4.y), (Q.w * p4.x - Q.x * p4.w), (Q.x * p4.y - Q.y * p4.x), (p0.y * Q.w - p0.w * Q.y), (p0.w * Q.x - p0.x * Q.w), (p0.x * Q.y - p0.y * Q.x)).a
  {
  }

  lemma SourceCoefficientB(Q: Vec3, L1: Vec3, L2: Vec3, p0: Vec3, p4: Vec3)
    ensures PencilCoefficients(Q, L1, L2, p0, p4).b
         == (L2.x * p0.x + L2.y * p0.y + L2.w * p0.w) * ((L1.x * (Q.w * p4.x - Q.x * p4.w) + L1.y * (Q.y * p4.w - Q.w * p4.y))) - ((Q.y * p4.w - Q.w * p4.y) * p0.x + (Q.w * p4.x - Q.x * p4.w) * p0.y + (Q.x * p4.y - Q.y * p4.x) * p0.w) * ((L1.x * L2.y + L1.y * L2.x)) + (L1.x * p4.x + L1.y * p4.y + L1.w * p4.w) * ((L2.x * (p0.w * Q.x - p0.x * Q.w) + L2.y * (p0.y * Q.w - p0.w * Q.y)))
  {
  }

  lemma ExpandedCoefficientB(Q: Vec3, L1: Vec3, L2: Vec3, p0: Vec3, p4: Vec3)
    ensures (L2.x * p0.x + L2.y * p0.y + L2.w * p0.w) * ((L1.x * (Q.w * p4.x - Q.x * p4.w) + L1.y * (Q.y * p4.w - Q.w * p4.y))) - ((Q.y * p4.w - Q.w * p4.y) * p0.x + (Q.w * p4.x - Q.x * p4.w) * p0.y + (Q.x * p4.y - Q.y * p4.x) * p0.w) * ((L1.x * L2.y + L1.y * L2.x)) + (L1.x * p4.x + L1.y * p4.y + L1.w * p4.w) * ((L2.x * (p0.w * Q.x - p0.x * Q.w) + L2.y * (p0.y * Q.w - p0.w * Q.y)))
         == PencilOf((L2.x * p0.x + L2.y * p0.y + L2.w * p0.w), ((Q.y * p4.w - Q.w * p4.y) * p0.x + (Q.w * p4.x - Q.x * p4.w) * p0.y + (Q.x * p4.y - Q.y * p4.x) * p0.w), (L1.x * p4.x + L1.y * p4.y + L1.w * p4.w), L1, L2, (Q.y * p4.w - Q.w * p4.y), (Q.w * p4.x - Q.x * p4.w), (Q.x * p4.y - Q.y * p4.x), (p0.y * Q.w - p0.w * Q.y), (p0.w * Q.x - p0.x * Q.w), (p0.x * Q.y - p0.y * Q.x)).b
  {
  }

  lemma SourceCoefficientC(Q: Vec3, L1: Vec3, L2: Vec3, p0: Vec3, p4: Vec3)
    ensures PencilCoefficients(Q, L1, L2, p0, p4).c
         == (L2.x * p0.x + L2.y * p0.y + L2.w * p0.w) * (L1.y * (Q.w * p4.x - Q.x * p4.w)) - ((Q.y * p4.w - Q.w * p4.y) * p0.x + (Q.w * p4.x - Q.x * p4.w) * p0.y + (Q.x * p4.y - Q.y * p4.x) * p0.w) * (L1.y * L2.y) + (L1.x * p4.x + L1.y * p4.y + L1.w * p4.w) * (L2.y * (p0.w * Q.x - p0.x * Q.w))
  {
  }

  lemma ExpandedCoefficientC(Q: Vec3, L1: Vec3, L2: Vec3, p0: Vec3, p4: Vec3)
    ensures (L2.x * p0.x + L2.y * p0.y + L2.w * p0.w) * (L1.y * (Q.w * p4.x - Q.x * p4.w)) - ((Q.y * p4.w - Q.w * p4.y) * p0.x + (Q.w * p4.x - Q.x * p4.w) * p0.y + (Q.x * p4.y - Q.y * p4.x) * p0.w) * (L1.y * L2.y) + (L1.x * p4.x + L1.y * p4.y + L1.w * p4.w) * (L2.y * (p0.w * Q.x - p0.x * Q.w))
         == PencilOf((L2.x * p0.x + L2.y * p0.y + L2.w * p0.w), ((Q.y * p4.w - Q.w * p4.y) * p0.x + (Q.w * p4.x - Q.x * p4.w) * p0.y + (Q.x * p4.y - Q.y * p4.x) * p0.w), (L1.x * p4.x + L1.y * p4.y + L1.w * p4.w), L1, L2, (Q.y * p4.w - Q.w * p4.y), (Q.w * p4.x - Q.x * p4.w), (Q.x * p4.y - Q.y * p4.x), (p0.y * Q.w - p0.w * Q.y), (p0.w * Q.x - p0.x * Q.w), (p0.x * Q.y - p0.y * Q.x)).c
  {
  }

  lemma SourceCoefficientD(Q: Vec3, L1: Vec3, L2: Vec3, p0: Vec3, p4: Vec3)
    ensures PencilCoefficients(Q, L1, L2, p0, p4).d
         == (L2.x * p0.x + L2.y * p0.y + L2.w * p0.w) * ((L1.x * (Q.x * p4.y - Q.y * p4.x) + L1.w * (Q.y * p4.w - Q.w * p4.y))) - ((Q.y * p4.w - Q.w * p4.y) * p0.x + (Q.w * p4.x - Q.x * p4.w) * p0.y + (Q.x * p4.y - Q.y * p4.x) * p0.w) * ((L1.x * L2.w + L1.w * L2.x)) + (L1.x * p4.x + L1.y * p4.y + L1.w * p4.w) * ((L2.x * (p0.x * Q.y - p0.y * Q.x) + L2.w * (p0.y * Q.w - p0.w * Q.y)))
  {
  }

  lemma ExpandedCoefficientD(Q: Vec3, L1: Vec3, L2: Vec3, p0: Vec3, p4: Vec3)
    ensures (L2.x * p0.x + L2.y * p0.y + L2.w * p0.w) * ((L1.x * (Q.x * p4.y - Q.y * p4.x) + L1.w * (Q.y * p4.w - Q.w * p4.y))) - ((Q.y * p4.w - Q.w * p4.y) * p0.x + (Q.w * p4.x - Q.x * p4.w) * p0.y + (Q.x * p4.y - Q.y * p4.x) * p0.w) * ((L1.x * L2.w + L1.w * L2.x)) + (L1.x * p4.x + L1.y * p4.y + L1.w * p4.w) * ((L2.x * (p0.x * Q.y - p0.y * Q.x) + L2.w * (p0.y * Q.w - p0.w * Q.y)))
         == PencilOf((L2.x * p0.x + L2.y * p0.y + L2.w * p0.w), ((Q.y * p4.w - Q.w * p4.y) * p0.x + (Q.w * p4.x - Q.x * p4.w) * p0.y + (Q.x * p4.y - Q.y * p4.x) * p0.w), (L1.x * p4.x + L1.y * p4.y + L1.w * p4.w), L1, L2, (Q.y * p4.w - Q.w * p4.y), (Q.w * p4.x - Q.x * p4.w), (Q.x * p4.y - Q.y * p4.x), (p0.y * Q.w - p0.w * Q.y), (p0.w * Q.x - p0.x * Q.w), (p0.x * Q.y - p0.y * Q.x)).d
  {
  }

  lemma SourceCoefficientE(Q: Vec3, L1: Vec3, L2: Vec3, p0: Vec3, p4: Vec3)
    ensures PencilCoefficients(Q, L1, L2, p0, p4).e
         == (L2.x * p0.x + L2.y * p0.y + L2.w * p0.w) * ((L1.y * (Q.x * p4.y - Q.y * p4.x) + L1.w * (Q.w * p4.x - Q.x * p4.w))) - ((Q.y * p4.w - Q.w * p4.y) * p0.x + (Q.w * p4.x - Q.x * p4.w) * p0.y + (Q.x * p4.y - Q.y * p4.x) * p0.w) * ((L1.y * L2.w + L1.w * L2.y)) + (L1.x * p4.x + L1.y * p4.y + L1.w * p4.w) * ((L2.y * (p0.x * Q.y - p0.y * Q.x) + L2.w * (p0.w * Q.x - p0.x * Q.w)))
  {
  }

  lemma ExpandedCoefficientE(Q: Vec3, L1: Vec3, L2: Vec3, p0: Vec3, p4: Vec3)
    ensures (L2.x * p0.x + L2.y * p0.y + L2.w * p0.w) * ((L1.y * (Q.x * p4.y - Q.y * p4.x) + L1.w * (Q.w * p4.x - Q.x * p4.w))) - ((Q.y * p4.w - Q.w * p4.y) * p0.x + (Q.w * p4.x - Q.x * p4.w) * p0.y + (Q.x * p4.y - Q.y * p4.x) * p0.w) * ((L1.y * L2.w + L1.w * L2.y)) + (L1.x * p4.x + L1.y * p4.y + L1.w * p4.w) * ((L2.y * (p0.x * Q.y - p0.y * Q.x) + L2.w * (p0.w * Q.x - p0.x * Q.w)))
         == PencilOf((L2.x * p0.x + L2.y * p0.y + L2.w * p0.w), ((Q.y * p4.w - Q.w * p4.y) * p0.x + (Q.w * p4.x - Q.x * p4.w) * p0.y + (Q.x * p4.y - Q.y * p4.x) * p0.w), (L1.x * p4.x + L1.y * p4.y + L1.w * p4.w), L1, L2, (Q.y * p4.w - Q.w * p4.y), (Q.w * p4.x - Q.x * p4.w), (Q.x * p4.y - Q.y * p4.x), (p0.y * Q.w - p0.w * Q.y), (p0.w * Q.x - p0.x * Q.w), (p0.x * Q.y - p0.y * Q.x)).e
  {
  }

  lemma SourceCoefficientF(Q: Vec3, L1: Vec3, L2: Vec3, p0: Vec3, p4: Vec3)
    ensures PencilCoefficients(Q, L1, L2, p0, p4).f
         == (L2.x * p0.x + L2.y * p0.y + L2.w * p0.w) * (L1.w * (Q.x * p4.y - Q.y * p4.x)) - ((Q.y * p4.w - Q.w * p4.y) * p0.x + (Q.w * p4.x - Q.x * p4.w) * p0.y + (Q.x * p4.y - Q.y * p4.x) * p0.w) * (L1.w * L2.w) + (L1.x * p4.x + L1.y * p4.y + L1.w * p4.w) * (L2.w * (p0.x * Q.y - p0.y * Q.x))
  {
  }

  lemma ExpandedCoefficientF(Q: Vec3, L1: Vec3, L2: Vec3, p0: Vec3, p4: Vec3)
    ensures (L2.x * p0.x + L2.y * p0.y + L2.w * p0.w) * (L1.w * (Q.x * p4.y - Q.y * p4.x)) - ((Q.y * p4.w - Q.w * p4.y) * p0.x + (Q.w * p4.x - Q.x * p4.w) * p0.y + (Q.x * p4.y - Q.y * p4.x) * p0.w) * (L1.w * L2.w) + (L1.x * p4.x + L1.y * p4.y + L1.w * p4.w) * (L2.w * (p0.x * Q.y - p0.y * Q.x))
         == PencilOf((L2.x * p0.x + L2.y * p0.y + L2.w * p0.w), ((Q.y * p4.w - Q.w * p4.y) * p0.x + (Q.w * p4.x - Q.x * p4.w) * p0.y + (Q.x * p4.y - Q.y * p4.x) * p0.w), (L1.x * p4.x + L1.y * p4.y + L1.w * p4.w), L1, L2, (Q.y * p4.w - Q.w * p4.y), (Q.w * p4.x - Q.x * p4.w), (Q.x * p4.y - Q.y * p4.x), (p0.y * Q.w - p0.w * Q.y), (p0.w * Q.x - p0.x * Q.w), (p0.x * Q.y - p0.y * Q.x)).f
  {
  }

  /** The coefficients the source expands are exactly those of the pencil. */
  lemma CoefficientsArePencil(Q: Vec3, L1: Vec3, L2: Vec3, p0: Vec3, p4: Vec3)
    ensures PencilCoefficients(Q, L1, L2, p0, p4) == Pencil(Q, L1, L2, p0, p4)
  {
    SourceCoefficientA(Q, L1, L2, p0, p4);
    ExpandedCoefficientA(Q, L1, L2, p0, p4);
    SourceCoefficientB(Q, L1, L2, p0, p4);
    ExpandedCoefficientB(Q, L1, L2, p0, p4);
    SourceCoefficientC(Q, L1, L2, p0, p4);
    ExpandedCoefficientC(Q, L1, L2, p0, p4);
    SourceCoefficientD(Q, L1, L2, p0, p4);
    ExpandedCoefficientD(Q, L1, L2, p0, p4);
    SourceCoefficientE(Q, L1, L2, p0, p4);
    ExpandedCoefficientE(Q, L1, L2, p0, p4);
    SourceCoefficientF(Q, L1, L2, p0, p4);
    ExpandedCoefficientF(Q, L1, L2, p0, p4);
    PencilArguments(Q, L1, L2, p0, p4);
  }

  /** Evaluation is linear in the conic. */
  lemma PairCombine(k: real, q1: AlgebraicParameters, m: real, q2: AlgebraicParameters, n: real, q3: AlgebraicParameters, r: AlgebraicParameters)
    ensures Pair(Combine(k, q1, m, q2, n, q3), r) == Times(k, Pair(q1, r)) - Times(m, Pair(q2, r)) + Times(n, Pair(q3, r))
  {
  }

  lemma CombineEval(k: real, q1: AlgebraicParameters, m: real, q2: AlgebraicParameters, n: real, q3: AlgebraicParameters, p: Vec3)
    ensures HomEval(Combine(k, q1, m, q2, n, q3), p) == Times(k, HomEval(q1, p)) - Times(m, HomEval(q2, p)) + Times(n, HomEval(q3, p))
  {
    PairCombine(k, q1, m, q2, n, q3, Monomials(p));
  }

  lemma OuterConicEvalLeft(u: Vec3, v: Vec3, p: Vec3)
    ensures HomEval(OuterConic(u, v), p)
         == (u.x * v.x) * (p.x * p.x) + (u.x * v.y + u.y * v.x) * (p.x * p.y) + (u.y * v.y) * (p.y * p.y)
            + (u.x * v.w + u.w * v.x) * (p.x * p.w) + (u.y * v.w + u.w * v.y) * (p.y * p.w) + (u.w * v.w) * (p.w * p.w)
  {
  }

  lemma OuterConicEvalRight(u: Vec3, v: Vec3, p: Vec3)
    ensures Times(Dot(u, p), Dot(v, p)) == (u.x * p.x + u.y * p.y + u.w * p.w) * (v.x * p.x + v.y * p.y + v.w * p.w)
  {
  }

  lemma OuterConicEvalExpanded(u: Vec3, v: Vec3, p: Vec3)
    ensures (u.x * v.x) * (p.x * p.x) + (u.x * v.y + u.y * v.x) * (p.x * p.y) + (u.y * v.y) * (p.y * p.y)
            + (u.x * v.w + u.w * v.x) * (p.x * p.w) + (u.y * v.w + u.w * v.y) * (p.y * p.w) + (u.w * v.w) * (p.w * p.w)
         == (u.x * p.x + u.y * p.y + u.w * p.w) * (v.x * p.x + v.y * p.y + v.w * p.w)
  {
  }

  /** The symmetric product of two lines evaluates to the product of the two line equations. */
  lemma OuterConicEval(u: Vec3, v: Vec3, p: Vec3)
    ensures HomEval(OuterConic(u, v), p) == Times(Dot(u, p), Dot(v, p))
  {
    OuterConicEvalLeft(u, v, p);
    OuterConicEvalRight(u, v, p);
    OuterConicEvalExpanded(u, v, p);
  }

  /**
   * The pencil k*s*g - m*s*t + n*t*h, with s = L1.X, t = L2.X, g = (Q x p4).X
   * and h = (p0 x Q).X, is zero in each incidence situation that arises at
   * one of the five points.
   */
  lemma PencilFormZero(k: real, m: real, n: real, s: real, t: real, g: real, h: real, h1: real, h2: real, h3: real)
    requires h1 == Times(s, g) && h2 == Times(s, t) && h3 == Times(t, h)
    requires (g == m && t == k && h == 0.0) || (s == n && g == 0.0 && h == m)
          || (s == 0.0 && h == 0.0) || (s == 0.0 && t == 0.0) || (t == 0.0 && g == 0.0)
    ensures Times(k, h1) - Times(m, h2) + Times(n, h3) == 0.0
  {
  }

  /** The pencil evaluates to k (L1.X)(g.X) - m (L1.X)(L2.X) + n (L2.X)(h.X), one product of lines at a time. */
  lemma PencilEval(Q: Vec3, L1: Vec3, L2: Vec3, p0: Vec3, p4: Vec3, X: Vec3)
    ensures HomEval(Pencil(Q, L1, L2, p0, p4), X)
         == Times(Dot(L2, p0), HomEval(OuterConic(L1, Cross(Q, p4)), X)) - Times(Dot(Cross(Q, p4), p0), HomEval(OuterConic(L1, L2), X))
            + Times(Dot(L1, p4), HomEval(OuterConic(L2, Cross(p0, Q)), X))
  {
    PencilOfIsCombination(Dot(L2, p0), Dot(Cross(Q, p4), p0), Dot(L1, p4), L1, L2, Cross(Q, p4), Cross(p0, Q));
    CombineEval(Dot(L2, p0), OuterConic(L1, Cross(Q, p4)), Dot(Cross(Q, p4), p0), OuterConic(L1, L2),
                Dot(L1, p4), OuterConic(L2, Cross(p0, Q)), X);
  }

  lemma CombinationZero(Q: Vec3, L1: Vec3, L2: Vec3, p0: Vec3, p4: Vec3, X: Vec3)
    requires var k, m, n := Dot(L2, p0), Dot(Cross(Q, p4), p0), Dot(L1, p4);
             var s, t, g, h := Dot(L1, X), Dot(L2, X), Dot(Cross(Q, p4), X), Dot(Cross(p0, Q), X);
             (g == m && t == k && h == 0.0) || (s == n && g == 0.0 && h == m)
             || (s == 0.0 && h == 0.0) || (s == 0.0 && t == 0.0) || (t == 0.0 && g == 0.0)
    ensures Times(Dot(L2, p0), HomEval(OuterConic(L1, Cross(Q, p4)), X)) - Times(Dot(Cross(Q, p4), p0), HomEval(OuterConic(L1, L2), X))
            + Times(Dot(L1, p4), HomEval(OuterConic(L2, Cross(p0, Q)), X)) == 0.0
  {
    OuterConicEval(L1, Cross(Q, p4), X);
    OuterConicEval(L1, L2, X);
    OuterConicEval(L2, Cross(p0, Q), X);
    PencilFormZero(Dot(L2, p0), Dot(Cross(Q, p4), p0), Dot(L1, p4), Dot(L1, X), Dot(L2, X), Dot(Cross(Q, p4), X), Dot(Cross(p0, Q), X), HomEval(OuterConic(L1, Cross(Q, p4)), X), HomEval(OuterConic(L1, L2), X), HomEval(OuterConic(L2, Cross(p0, Q)), X));
  }

  /**
   * The pencil is zero at a point X as soon as X satisfies one of the
   * incidence conditions of PencilFormZero.
   */
  lemma PencilZeroAt(Q: Vec3, L1: Vec3, L2: Vec3, p0: Vec3, p4: Vec3, X: Vec3)
    requires var k, m, n := Dot(L2, p0), Dot(Cross(Q, p4), p0), Dot(L1, p4);
             var s, t, g, h := Dot(L1, X), Dot(L2, X), Dot(Cross(Q, p4), X), Dot(Cross(p0, Q), X);
             (g == m && t == k && h == 0.0) || (s == n && g == 0.0 && h == m)
             || (s == 0.0 && h == 0.0) || (s == 0.0 && t == 0.0) || (t == 0.0 && g == 0.0)
    ensures HomEval(Pencil(Q, L1, L2, p0, p4), X) == 0.0
  {
    PencilEval(Q, L1, L2, p0, p4, X);
    CombinationZero(Q, L1, L2, p0, p4, X);
  }

  /** The conic FromPoints builds passes through the first point. */
  lemma FromPointsThroughP0(p0: Vec3, p1: Vec3, p2: Vec3, p3: Vec3, p4: Vec3)
    ensures HomEval(FromPoints(p0, p1, p2, p3, p4), p0) == 0.0
  {
    var L0, L3 := Cross(p0, p1), Cross(p3, p4);
    CrossOrthogonal(p0, Cross(L0, L3));
    PencilZeroAt(Cross(Cross(p0, p1), Cross(p3, p4)), Cross(p1, p2), Cross(p2, p3), p0, p4, p0);
  }

  /** The conic FromPoints builds passes through the second point. */
  lemma FromPointsThroughP1(p0: Vec3, p1: Vec3, p2: Vec3, p3: Vec3, p4: Vec3)
    ensures HomEval(FromPoints(p0, p1, p2, p3, p4), p1) == 0.0
  {
    var L0, L3 := Cross(p0, p1), Cross(p3, p4);
    var Q := Cross(L0, L3);
    CrossOrthogonal(p1, p2);
    CrossOrthogonal(L0, L3);
    DotSymmetric(Q, L0);
    TripleSwap(p0, Q, p1);
    PencilZeroAt(Cross(Cross(p0, p1), Cross(p3, p4)), Cross(p1, p2), Cross(p2, p3), p0, p4, p1);
  }

  /** The conic FromPoints builds passes through the third point. */
  lemma FromPointsThroughP2(p0: Vec3, p1: Vec3, p2: Vec3, p3: Vec3, p4: Vec3)
    ensures HomEval(FromPoints(p0, p1, p2, p3, p4), p2) == 0.0
  {
    CrossOrthogonal(p1, p2);
    CrossOrthogonal(p2, p3);
    PencilZeroAt(Cross(Cross(p0, p1), Cross(p3, p4)), Cross(p1, p2), Cross(p2, p3), p0, p4, p2);
  }

  /** The conic FromPoints builds passes through the fourth point. */
  lemma FromPointsThroughP3(p0: Vec3, p1: Vec3, p2: Vec3, p3: Vec3, p4: Vec3)
    ensures HomEval(FromPoints(p0, p1, p2, p3, p4), p3) == 0.0
  {
    var L0, L3 := Cross(p0, p1), Cross(p3, p4);
    var Q := Cross(L0, L3);
    CrossOrthogonal(p2, p3);
    CrossOrthogonal(L0, L3);
    DotSymmetric(Q, L3);
    TripleSwap(Q, p4, p3);
    TripleCyclic(p3, p4, Q);
    TripleCyclic(p4, Q, p3);
    PencilZeroAt(Cross(Cross(p0, p1), Cross(p3, p4)), Cross(p1, p2), Cross(p2, p3), p0, p4, p3);
  }

  /** The conic FromPoints builds passes through the fifth point. */
  lemma FromPointsThroughP4(p0: Vec3, p1: Vec3, p2: Vec3, p3: Vec3, p4: Vec3)
    ensures HomEval(FromPoints(p0, p1, p2, p3, p4), p4) == 0.0
  {
    var L0, L3 := Cross(p0, p1), Cross(p3, p4);
    var Q := Cross(L0, L3);
    CrossOrthogonal(Q, p4);
    TripleCyclic(p0, Q, p4);
    PencilZeroAt(Cross(Cross(p0, p1), Cross(p3, p4)), Cross(p1, p2), Cross(p2, p3), p0, p4, p4);
  }

  /** No three of the five homogeneous points lie on one line: every triple product of three of them is non-zero. */
  predicate NoThreeCollinear(p0: Vec3, p1: Vec3, p2: Vec3, p3: Vec3, p4: Vec3)
  {
    Dot(Cross(p0, p1), p2) != 0.0 && Dot(Cross(p0, p1), p3) != 0.0 && Dot(Cross(p0, p1), p4) != 0.0
    && Dot(Cross(p0, p2), p3) != 0.0 && Dot(Cross(p0, p2), p4) != 0.0 && Dot(Cross(p0, p3), p4) != 0.0
    && Dot(Cross(p1, p2), p3) != 0.0 && Dot(Cross(p1, p2), p4) != 0.0 && Dot(Cross(p1, p3), p4) != 0.0
    && Dot(Cross(p2, p3), p4) != 0.0
  }

  /** The zero conic vanishes at every point. */
  lemma ZeroConicVanishes(X: Vec3)
    ensures HomEval(ZERO_CONIC, X) == 0.0
  {
  }

  /** The meeting point Q = L0 x L3 lies on the last line: it is (L0.p4) p3 - (L0.p3) p4. */
  lemma CornerOnLastLine(p0: Vec3, p1: Vec3, p3: Vec3, p4: Vec3)
    ensures Cross(Cross(p0, p1), Cross(p3, p4)) == Combination(Dot(Cross(p0, p1), p4), p3, Dot(Cross(p0, p1), p3), p4)
  {
    CrossCrossRight(Cross(p0, p1), p3, p4);
  }

  /** The meeting point Q = L0 x L3 lies on the first line: it is (L3.p0) p1 - (L3.p1) p0. */
  lemma CornerOnFirstLine(p0: Vec3, p1: Vec3, p3: Vec3, p4: Vec3)
    ensures Cross(Cross(p0, p1), Cross(p3, p4)) == Combination(Dot(Cross(p3, p4), p0), p1, Dot(Cross(p3, p4), p1), p0)
  {
    CrossCrossLeft(p0, p1, Cross(p3, p4));
    DotSymmetric(p0, Cross(p3, p4));
    DotSymmetric(p1, Cross(p3, p4));
  }

  /** m = (Q x p4).p0 at Q = L0 x L3, as a product of two triple products of the points. */
  lemma CornerPencilFactor(p0: Vec3, p1: Vec3, p3: Vec3, p4: Vec3)
    ensures Dot(Cross(Cross(Cross(p0, p1), Cross(p3, p4)), p4), p0) == Times(Dot(Cross(p0, p1), p4), Dot(Cross(p3, p4), p0))
  {
    CornerOnLastLine(p0, p1, p3, p4);
    TripleOfCombination(Dot(Cross(p0, p1), p4), p3, Dot(Cross(p0, p1), p3), p4, p4, p0);
    TripleRepeated(p4, p0);
    TimesZero(Dot(Cross(p0, p1), p3));
  }

  /** L1.Q at Q = L0 x L3, as a product of two triple products of the points. */
  lemma CornerOnSecondLine(p0: Vec3, p1: Vec3, p2: Vec3, p3: Vec3, p4: Vec3)
    ensures Dot(Cross(p1, p2), Cross(Cross(p0, p1), Cross(p3, p4))) == -Times(Dot(Cross(p3, p4), p1), Dot(Cross(p1, p2), p0))
  {
    var L1 := Cross(p1, p2);
    CornerOnFirstLine(p0, p1, p3, p4);
    DotSymmetric(L1, Cross(Cross(p0, p1), Cross(p3, p4)));
    DotOfCombination(Dot(Cross(p3, p4), p0), p1, Dot(Cross(p3, p4), p1), p0, L1);
    CrossOrthogonal(p1, p2);
    DotSymmetric(p1, L1);
    DotSymmetric(p0, L1);
    TimesZero(Dot(Cross(p3, p4), p0));
  }

  /** L2.Q at Q = L0 x L3, as a product of two triple products of the points. */
  lemma CornerOnThirdLine(p0: Vec3, p1: Vec3, p2: Vec3, p3: Vec3, p4: Vec3)
    ensures Dot(Cross(p2, p3), Cross(Cross(p0, p1), Cross(p3, p4))) == -Times(Dot(Cross(p0, p1), p3), Dot(Cross(p2, p3), p4))
  {
    var L2 := Cross(p2, p3);
    CornerOnLastLine(p0, p1, p3, p4);
    DotSymmetric(L2, Cross(Cross(p0, p1), Cross(p3, p4)));
    DotOfCombination(Dot(Cross(p0, p1), p4), p3, Dot(Cross(p0, p1), p3), p4, L2);
    CrossOrthogonal(p2, p3);
    DotSymmetric(p3, L2);
    DotSymmetric(p4, L2);
    TimesZero(Dot(Cross(p0, p1), p4));
  }

  /**
   * v = k (s g) - m (s t) + n (t h) with g = h = 0, m = w1 w2, s = -(x1 x2)
   * and t = -(y1 y2) is -(w1 w2)((x1 x2)(y1 y2)).
   */
  lemma CornerValueScalar(v: real, k: real, m: real, n: real, s: real, t: real, g: real, h: real,
                          h1: real, h2: real, h3: real, w1: real, w2: real, x1: real, x2: real, y1: real, y2: real)
    requires v == Times(k, h1) - Times(m, h2) + Times(n, h3)
    requires h1 == Times(s, g) && h2 == Times(s, t) && h3 == Times(t, h)
    requires g == 0.0 && h == 0.0
    requires m == Times(w1, w2) && s == -Times(x1, x2) && t == -Times(y1, y2)
    ensures v == -Times(Times(w1, w2), Times(Times(x1, x2), Times(y1, y2)))
  {
  }

  /**
   * At the meeting point Q of the first and last line, the conic FromPoints
   * builds takes the value -(m x y), m, x and y each a product of two triple
   * products of the points (Times is multiplication): Q lies on the lines g
   * and h of the two outer terms of the pencil, so only the middle term
   * -m (L1.Q)(L2.Q) is left.
   */
  lemma FromPointsAtCorner(p0: Vec3, p1: Vec3, p2: Vec3, p3: Vec3, p4: Vec3)
    ensures HomEval(FromPoints(p0, p1, p2, p3, p4), Cross(Cross(p0, p1), Cross(p3, p4)))
         == -Times(Times(Dot(Cross(p0, p1), p4), Dot(Cross(p3, p4), p0)),
                   Times(Times(Dot(Cross(p3, p4), p1), Dot(Cross(p1, p2), p0)), Times(Dot(Cross(p0, p1), p3), Dot(Cross(p2, p3), p4))))
  {
    var Q, L1, L2 := Cross(Cross(p0, p1), Cross(p3, p4)), Cross(p1, p2), Cross(p2, p3);
    var g, h := Cross(Q, p4), Cross(p0, Q);
    PencilEval(Q, L1, L2, p0, p4, Q);
    OuterConicEval(L1, g, Q);
    OuterConicEval(L1, L2, Q);
    OuterConicEval(L2, h, Q);
    CrossOrthogonal(Q, p4);
    CrossOrthogonal(p0, Q);
    CornerPencilFactor(p0, p1, p3, p4);
    CornerOnSecondLine(p0, p1, p2, p3, p4);
    CornerOnThirdLine(p0, p1, p2, p3, p4);
    CornerValueScalar(HomEval(FromPoints(p0, p1, p2, p3, p4), Q),
      Dot(L2, p0), Dot(g, p0), Dot(L1, p4), Dot(L1, Q), Dot(L2, Q), Dot(g, Q), Dot(h, Q),
      HomEval(OuterConic(L1, g), Q), HomEval(OuterConic(L1, L2), Q), HomEval(OuterConic(L2, h), Q),
      Dot(Cross(p0, p1), p4), Dot(Cross(p3, p4), p0), Dot(Cross(p3, p4), p1), Dot(Cross(p1, p2), p0),
      Dot(Cross(p0, p1), p3), Dot(Cross(p2, p3), p4));
  }

  /**
   * For five points no three of which are collinear, FromPoints is not the
   * zero conic: it is non-zero at the meeting point of the first and last line.
   */
  lemma FromPointsNonZero(p0: Vec3, p1: Vec3, p2: Vec3, p3: Vec3, p4: Vec3)
    requires NoThreeCollinear(p0, p1, p2, p3, p4)
    ensures HomEval(FromPoints(p0, p1, p2, p3, p4), Cross(Cross(p0, p1), Cross(p3, p4))) != 0.0
    ensures FromPoints(p0, p1, p2, p3, p4) != ZERO_CONIC
  {
    var t014, t340, t341 := Dot(Cross(p0, p1), p4), Dot(Cross(p3, p4), p0), Dot(Cross(p3, p4), p1);
    var t120, t013, t234 := Dot(Cross(p1, p2), p0), Dot(Cross(p0, p1), p3), Dot(Cross(p2, p3), p4);
    TripleCyclic(p3, p4, p0);
    TripleCyclic(p4, p0, p3);
    TripleCyclic(p3, p4, p1);
    TripleCyclic(p4, p1, p3);
    TripleCyclic(p1, p2, p0);
    TripleCyclic(p2, p0, p1);
    NonZeroTimes(t014, t340);
    NonZeroTimes(t341, t120);
    NonZeroTimes(t013, t234);
    NonZeroTimes(Times(t341, t120), Times(t013, t234));
    NonZeroTimes(Times(t014, t340), Times(Times(t341, t120), Times(t013, t234)));
    FromPointsAtCorner(p0, p1, p2, p3, p4);
    ZeroConicVanishes(Cross(Cross(p0, p1), Cross(p3, p4)));
  }
}
