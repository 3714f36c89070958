/**
 * Why LeastSquareEllipseFitter::Fit returns an ellipse.
 *
 * The fit minimises the sum of squared algebraic residuals q^T S q, where
 * S = D^T D is the scatter matrix of the design matrix D, subject to the
 * ellipse constraint 4ac - b^2 > 0. Fit reduces this to the 3 x 3 matrix
 * CalcTestA and takes the eigenvector (a, b, c) of a negative eigenvalue
 * lambda, completed by CalcLowerHalf. This module proves what that choice
 * guarantees: for such an eigenpair the sum of squared residuals of the
 * six coefficients is lambda (b^2 - 4ac). A sum of squares is never
 * negative and lambda < 0, so b^2 - 4ac <= 0; it cannot be 0, because then
 * every residual vanishes, S q = 0, and the eigenvector would be zero.
 * Hence the fitted conic is an ellipse, before and after denormalisation.
 */
module FitResiduals {
  import opened Algebra
  import opened EllipseAlgebraic
  import opened FitBlocks
  import opened LeastSquareEllipseFit

  /** The quadratic coefficients (a, b, c) of a conic. */
  function Upper(q: AlgebraicParameters): Vec3
  {
    Vec3(q.a, q.b, q.c)
  }

  /** The linear and constant coefficients (d, e, f) of a conic. */
  function Lower(q: AlgebraicParameters): Vec3
  {
    Vec3(q.d, q.e, q.f)
  }

  /** The discriminant b^2 - 4ac of the quadratic coefficients (a, b, c), negative exactly for an ellipse. */
  function Discriminant(v: Vec3): real
  {
    v.y * v.y - 4.0 * v.x * v.w
  }

  /** v is an eigenvector of m for the eigenvalue lambda. */
  predicate IsEigenpair(m: Mat3, lambda: real, v: Vec3)
  {
    v != Vec3(0.0, 0.0, 0.0) && MulVec(m, v) == ScaleVec(lambda, v)
  }

  // ---------------------------------------------------------------------------
  // Residuals and the scatter matrix
  // ---------------------------------------------------------------------------

  /** Entry j of row k of a row-major matrix with six columns. */
  function Entry(d: seq<real>, k: nat, j: nat): real
    requires k * 6 + j < |d|
  {
    d[k * 6 + j]
  }

  /** The six coefficients of q in the order of the design row (a, b, c, d, e, f). */
  function Coefs(q: AlgebraicParameters): (c: seq<real>)
    ensures |c| == 6
  {
    [q.a, q.b, q.c, q.d, q.e, q.f]
  }

  /** The first m entries of row k of d times the first m coefficients c. */
  function PartialRowTimes(d: seq<real>, k: nat, c: seq<real>, m: nat): real
    requires |c| == 6
    requires k * 6 + 6 <= |d| && m <= 6
  {
    if m == 0 then 0.0 else PartialRowTimes(d, k, c, m - 1) + Times(Entry(d, k, m - 1), c[m - 1])
  }

  /** Row k of d times the coefficients c; for a design matrix, the algebraic residual of point k. */
  function RowTimes(d: seq<real>, k: nat, c: seq<real>): real
    requires |c| == 6
    requires k * 6 + 6 <= |d|
  {
    PartialRowTimes(d, k, c, 6)
  }

  /** Row k of d times c, written out term by term. */
  lemma RowTimesExpanded(d: seq<real>, k: nat, c: seq<real>)
    requires |c| == 6
    requires k * 6 + 6 <= |d|
    ensures RowTimes(d, k, c) == d[k * 6] * c[0] + d[k * 6 + 1] * c[1] + d[k * 6 + 2] * c[2]
                                 + d[k * 6 + 3] * c[3] + d[k * 6 + 4] * c[4] + d[k * 6 + 5] * c[5]
  {
    assert PartialRowTimes(d, k, c, 1) == d[k * 6] * c[0];
    assert PartialRowTimes(d, k, c, 2) == PartialRowTimes(d, k, c, 1) + d[k * 6 + 1] * c[1];
    assert PartialRowTimes(d, k, c, 3) == PartialRowTimes(d, k, c, 2) + d[k * 6 + 2] * c[2];
    assert PartialRowTimes(d, k, c, 4) == PartialRowTimes(d, k, c, 3) + d[k * 6 + 3] * c[3];
    assert PartialRowTimes(d, k, c, 5) == PartialRowTimes(d, k, c, 4) + d[k * 6 + 4] * c[4];
  }

  /** The sum of the squared residuals of the first n rows of d. */
  function SumOfSquaredResiduals(d: seq<real>, n: nat, c: seq<real>): real
    requires |c| == 6
    requires n * 6 <= |d|
  {
    if n == 0 then 0.0
    else SumOfSquaredResiduals(d, n - 1, c) + Times(RowTimes(d, n - 1, c), RowTimes(d, n - 1, c))
  }

  /** Column r of the first n rows of d, weighted by the rows' residuals: entry r of D^T (D c). */
  function WeightedColumn(d: seq<real>, n: nat, r: nat, c: seq<real>): real
    requires |c| == 6
    requires n * 6 <= |d| && r < 6
  {
    if n == 0 then 0.0
    else WeightedColumn(d, n - 1, r, c) + Times(Entry(d, n - 1, r), RowTimes(d, n - 1, c))
  }

  /** The first m terms of row r of D^T D times c, with the entries written as column products. */
  function PartialColumnProducts(d: seq<real>, n: nat, r: nat, c: seq<real>, m: nat): real
    requires |c| == 6
    requires n * 6 <= |d| && r < 6 && m <= 6
  {
    if m == 0 then 0.0
    else PartialColumnProducts(d, n, r, c, m - 1) + Times(ColumnProduct(d, n, r, m - 1), c[m - 1])
  }

  /** The first m terms of c^T D^T (D c), with D^T (D c) written as weighted columns. */
  function PartialWeightedSum(d: seq<real>, n: nat, c: seq<real>, m: nat): real
    requires |c| == 6
    requires n * 6 <= |d| && m <= 6
  {
    if m == 0 then 0.0
    else PartialWeightedSum(d, n, c, m - 1) + Times(c[m - 1], WeightedColumn(d, n, m - 1, c))
  }

  /** The first m terms of c^T s c for a row-major 6 x 6 matrix s. */
  function PartialQuadraticForm(s: seq<real>, c: seq<real>, m: nat): real
    requires |c| == 6
    requires |s| == 36 && m <= 6
  {
    if m == 0 then 0.0
    else PartialQuadraticForm(s, c, m - 1) + Times(c[m - 1], RowTimes(s, m - 1, c))
  }

  /** c^T s c for a row-major 6 x 6 matrix s. */
  function QuadraticForm(s: seq<real>, c: seq<real>): real
    requires |c| == 6
    requires |s| == 36
  {
    PartialQuadraticForm(s, c, 6)
  }

  /** c^T s c written as the coefficients times the rows of s q. */
  lemma QuadraticFormExpanded(s: seq<real>, c: seq<real>)
    requires |c| == 6
    requires |s| == 36
    ensures QuadraticForm(s, c) == c[0] * RowTimes(s, 0, c) + c[1] * RowTimes(s, 1, c) + c[2] * RowTimes(s, 2, c)
                                   + c[3] * RowTimes(s, 3, c) + c[4] * RowTimes(s, 4, c) + c[5] * RowTimes(s, 5, c)
  {
    assert PartialQuadraticForm(s, c, 1) == c[0] * RowTimes(s, 0, c);
    assert PartialQuadraticForm(s, c, 2) == PartialQuadraticForm(s, c, 1) + c[1] * RowTimes(s, 1, c);
    assert PartialQuadraticForm(s, c, 3) == PartialQuadraticForm(s, c, 2) + c[2] * RowTimes(s, 2, c);
    assert PartialQuadraticForm(s, c, 4) == PartialQuadraticForm(s, c, 3) + c[3] * RowTimes(s, 3, c);
    assert PartialQuadraticForm(s, c, 5) == PartialQuadraticForm(s, c, 4) + c[4] * RowTimes(s, 4, c);
  }

  /** The residual of row k of a design matrix is the conic's value at point k. */
  lemma ResidualOfDesign(us: seq<real>, vs: seq<real>, k: nat, q: AlgebraicParameters)
    requires |us| == |vs| && k < |us|
    ensures RowTimes(DesignMatrix(us, vs), k, Coefs(q)) == Eval(q, us[k], vs[k])
  {
    DesignMatrixEntry(us, vs, k, 0); DesignMatrixEntry(us, vs, k, 1); DesignMatrixEntry(us, vs, k, 2);
    DesignMatrixEntry(us, vs, k, 3); DesignMatrixEntry(us, vs, k, 4); DesignMatrixEntry(us, vs, k, 5);
    ResidualOfRow(DesignMatrix(us, vs), k, q, us[k], vs[k]);
  }

  /** A row holding the design row of (u, v) has the conic's value at (u, v) as its residual. */
  lemma ResidualOfRow(d: seq<real>, k: nat, q: AlgebraicParameters, u: real, v: real)
    requires k * 6 + 6 <= |d|
    requires d[k * 6 + 0] == DesignRow(u, v)[0] && d[k * 6 + 1] == DesignRow(u, v)[1]
    requires d[k * 6 + 2] == DesignRow(u, v)[2] && d[k * 6 + 3] == DesignRow(u, v)[3]
    requires d[k * 6 + 4] == DesignRow(u, v)[4] && d[k * 6 + 5] == DesignRow(u, v)[5]
    ensures RowTimes(d, k, Coefs(q)) == Eval(q, u, v)
  {
    RowTimesExpanded(d, k, Coefs(q));
    DesignRowEvaluates(u, v, q);
  }

  /** The sum of the squared values of q at the first n points. */
  function SquaredValues(us: seq<real>, vs: seq<real>, n: nat, q: AlgebraicParameters): real
    requires n <= |us| && n <= |vs|
  {
    if n == 0 then 0.0
    else SquaredValues(us, vs, n - 1, q) + Eval(q, us[n - 1], vs[n - 1]) * Eval(q, us[n - 1], vs[n - 1])
  }

  /** Over a design matrix the squared residuals are the squared values of the conic at the points. */
  lemma {:induction false} ResidualsAreValues(us: seq<real>, vs: seq<real>, n: nat, q: AlgebraicParameters)
    requires |us| == |vs| && n <= |us|
    ensures SumOfSquaredResiduals(DesignMatrix(us, vs), n, Coefs(q)) == SquaredValues(us, vs, n, q)
  {
    if n > 0 {
      ResidualsAreValues(us, vs, n - 1, q);
      ResidualOfDesign(us, vs, n - 1, q);
    }
  }

  /** A sum of squares is never negative. */
  lemma {:induction false} SquaresNonNegative(d: seq<real>, n: nat, c: seq<real>)
    requires |c| == 6
    requires n * 6 <= |d|
    ensures SumOfSquaredResiduals(d, n, c) >= 0.0
  {
    if n > 0 {
      SquaresNonNegative(d, n - 1, c);
      SquareNonNegative(RowTimes(d, n - 1, c), Times(RowTimes(d, n - 1, c), RowTimes(d, n - 1, c)));
    }
  }

  /** When the squared residuals sum to zero, every residual and hence every weighted column is zero. */
  lemma {:induction false} ZeroSquaresZeroColumns(d: seq<real>, n: nat, c: seq<real>)
    requires |c| == 6
    requires n * 6 <= |d|
    requires SumOfSquaredResiduals(d, n, c) == 0.0
    ensures forall k :: 0 <= k < n ==> RowTimes(d, k, c) == 0.0
    ensures forall r :: 0 <= r < 6 ==> WeightedColumn(d, n, r, c) == 0.0
  {
    if n > 0 {
      var res := RowTimes(d, n - 1, c);
      SquaresNonNegative(d, n - 1, c);
      SquareNonNegative(res, res * res);
      SquarePositiveIfNonZero(res, res * res);
      ZeroSquaresZeroColumns(d, n - 1, c);
    }
  }

  /** z z is zero only for z = 0. */
  lemma SquarePositiveIfNonZero(z: real, zz: real)
    requires zz == z * z && zz == 0.0
    ensures z == 0.0
  {
    if z != 0.0 {
      SquarePositive(z, zz);
    }
  }

  /** One more row of d adds the product of its entries r and c to column product (r, c). */
  lemma ColumnProductStep(d: seq<real>, n: nat, r: nat, c: nat)
    requires 0 < n && n * 6 <= |d| && r < 6 && c < 6
    ensures ColumnProduct(d, n, r, c) == ColumnProduct(d, n - 1, r, c) + Times(Entry(d, n - 1, r), Entry(d, n - 1, c))
  {
  }

  /** Adding one term to both prefix sums: a + b c = (a0 + b0 c) + x (p0 + e c). */
  lemma DistributeStep(a: real, a0: real, x: real, p0: real, b: real, b0: real, e: real, c: real,
                        s: real, s0: real, p: real)
    requires a == a0 + Times(x, p0) && b == b0 + Times(x, e)
    requires s == a + Times(b, c) && s0 == a0 + Times(b0, c) && p == p0 + Times(e, c)
    ensures s == s0 + Times(x, p)
  {
  }

  /** One more row of d adds its entry r times its partial residual to the partial row r of S q. */
  lemma {:induction false} ColumnProductsStep(d: seq<real>, n: nat, r: nat, c: seq<real>, m: nat)
    requires |c| == 6
    requires 0 < n && n * 6 <= |d| && r < 6 && m <= 6
    ensures PartialColumnProducts(d, n, r, c, m)
         == PartialColumnProducts(d, n - 1, r, c, m) + Times(Entry(d, n - 1, r), PartialRowTimes(d, n - 1, c, m))
  {
    if m == 0 {
      assert PartialRowTimes(d, n - 1, c, m) == 0.0;
    } else {
      ColumnProductsStep(d, n, r, c, m - 1);
      ColumnProductStep(d, n, r, m - 1);
      DistributeStep(PartialColumnProducts(d, n, r, c, m - 1), PartialColumnProducts(d, n - 1, r, c, m - 1),
                     Entry(d, n - 1, r), PartialRowTimes(d, n - 1, c, m - 1),
                     ColumnProduct(d, n, r, m - 1), ColumnProduct(d, n - 1, r, m - 1),
                     Entry(d, n - 1, m - 1), c[m - 1],
                     PartialColumnProducts(d, n, r, c, m), PartialColumnProducts(d, n - 1, r, c, m),
                     PartialRowTimes(d, n - 1, c, m));
    }
  }

  /** Without rows every partial row of S c is zero. */
  lemma {:induction false} NoRowsNoColumnProducts(d: seq<real>, r: nat, c: seq<real>, m: nat)
    requires |c| == 6
    requires r < 6 && m <= 6
    ensures PartialColumnProducts(d, 0, r, c, m) == 0.0
  {
    if m > 0 {
      NoRowsNoColumnProducts(d, r, c, m - 1);
    }
  }

  /** Without rows every partial c^T D^T (D c) is zero. */
  lemma {:induction false} NoRowsNoWeightedSum(d: seq<real>, c: seq<real>, m: nat)
    requires |c| == 6
    requires m <= 6
    ensures PartialWeightedSum(d, 0, c, m) == 0.0
  {
    if m > 0 {
      NoRowsNoWeightedSum(d, c, m - 1);
    }
  }

  /** Row r of D^T D times c is column r of D weighted by the residuals: (D^T D) c = D^T (D c). */
  lemma {:induction false} ColumnProductsWeighted(d: seq<real>, n: nat, r: nat, c: seq<real>)
    requires |c| == 6
    requires n * 6 <= |d| && r < 6
    ensures PartialColumnProducts(d, n, r, c, 6) == WeightedColumn(d, n, r, c)
  {
    if n == 0 {
      NoRowsNoColumnProducts(d, r, c, 6);
    } else {
      ColumnProductsWeighted(d, n - 1, r, c);
      ColumnProductsStep(d, n, r, c, 6);
    }
  }

  /** The first m entries of row r of the scatter matrix times c are the first m column products times q. */
  lemma {:induction false} ScatterRowPrefix(d: seq<real>, n: nat, r: nat, c: seq<real>, m: nat)
    requires |c| == 6
    requires n * 6 <= |d| && r < 6 && m <= 6
    ensures PartialRowTimes(ScatterMatrix(d, n), r, c, m) == PartialColumnProducts(d, n, r, c, m)
  {
    if m > 0 {
      ScatterRowPrefix(d, n, r, c, m - 1);
      ScatterMatrixEntry(d, n, r, m - 1);
    }
  }

  /** Row r of the scatter matrix times c is column r of D weighted by the residuals. */
  lemma ScatterRowTimes(d: seq<real>, n: nat, r: nat, c: seq<real>)
    requires |c| == 6
    requires n * 6 <= |d| && r < 6
    ensures RowTimes(ScatterMatrix(d, n), r, c) == WeightedColumn(d, n, r, c)
  {
    ScatterRowPrefix(d, n, r, c, 6);
    ColumnProductsWeighted(d, n, r, c);
  }

  /** Adding one term to both prefix sums: a + c w = (a0 + c w0) + x (p0 + e c). */
  lemma SquareDistributeStep(a: real, a0: real, x: real, p0: real, w: real, w0: real, e: real, c: real,
                              s: real, s0: real, p: real)
    requires a == a0 + Times(x, p0) && w == w0 + Times(e, x)
    requires s == a + Times(c, w) && s0 == a0 + Times(c, w0) && p == p0 + Times(e, c)
    ensures s == s0 + Times(x, p)
  {
  }

  /** One more row of d adds its residual times its partial residual to the partial c^T D^T (D c). */
  lemma {:induction false} WeightedSumStep(d: seq<real>, n: nat, c: seq<real>, m: nat)
    requires |c| == 6
    requires 0 < n && n * 6 <= |d| && m <= 6
    ensures PartialWeightedSum(d, n, c, m)
         == PartialWeightedSum(d, n - 1, c, m) + Times(RowTimes(d, n - 1, c), PartialRowTimes(d, n - 1, c, m))
  {
    if m == 0 {
      assert PartialRowTimes(d, n - 1, c, m) == 0.0;
    } else {
      WeightedSumStep(d, n, c, m - 1);
      SquareDistributeStep(PartialWeightedSum(d, n, c, m - 1), PartialWeightedSum(d, n - 1, c, m - 1),
                           RowTimes(d, n - 1, c), PartialRowTimes(d, n - 1, c, m - 1),
                           WeightedColumn(d, n, m - 1, c), WeightedColumn(d, n - 1, m - 1, c),
                           Entry(d, n - 1, m - 1), c[m - 1],
                           PartialWeightedSum(d, n, c, m), PartialWeightedSum(d, n - 1, c, m),
                           PartialRowTimes(d, n - 1, c, m));
    }
  }

  /** c^T D^T (D c) is the sum of the squared residuals. */
  lemma {:induction false} WeightedSumIsSquares(d: seq<real>, n: nat, c: seq<real>)
    requires |c| == 6
    requires n * 6 <= |d|
    ensures PartialWeightedSum(d, n, c, 6) == SumOfSquaredResiduals(d, n, c)
  {
    if n == 0 {
      NoRowsNoWeightedSum(d, c, 6);
    } else {
      WeightedSumIsSquares(d, n - 1, c);
      WeightedSumStep(d, n, c, 6);
    }
  }

  /** The first m terms of c^T S c are the first m terms of c^T D^T (D c). */
  lemma {:induction false} QuadraticFormPrefix(d: seq<real>, n: nat, c: seq<real>, m: nat)
    requires |c| == 6
    requires n * 6 <= |d| && m <= 6
    ensures PartialQuadraticForm(ScatterMatrix(d, n), c, m) == PartialWeightedSum(d, n, c, m)
  {
    if m > 0 {
      QuadraticFormPrefix(d, n, c, m - 1);
      ScatterRowTimes(d, n, m - 1, c);
    }
  }

  /** The quadratic form of the scatter matrix is the sum of the squared residuals: c^T S c = |D c|^2. */
  lemma ScatterQuadraticForm(d: seq<real>, n: nat, c: seq<real>)
    requires |c| == 6
    requires n * 6 <= |d|
    ensures QuadraticForm(ScatterMatrix(d, n), c) == SumOfSquaredResiduals(d, n, c)
  {
    QuadraticFormPrefix(d, n, c, 6);
    WeightedSumIsSquares(d, n, c);
  }

  // ---------------------------------------------------------------------------
  // The block form of S q
  // ---------------------------------------------------------------------------

  /** The first three entries of S q: A (a, b, c) + B (d, e, f). */
  function UpperRows(s: seq<real>, q: AlgebraicParameters): Vec3
    requires |s| == 36
  {
    Vec3(RowTimes(s, 0, Coefs(q)), RowTimes(s, 1, Coefs(q)), RowTimes(s, 2, Coefs(q)))
  }

  /** The last three entries of S q: B^T (a, b, c) + C (d, e, f). */
  function LowerRows(s: seq<real>, q: AlgebraicParameters): Vec3
    requires |s| == 36
  {
    Vec3(RowTimes(s, 3, Coefs(q)), RowTimes(s, 4, Coefs(q)), RowTimes(s, 5, Coefs(q)))
  }

  /** The upper half of S q is A (a, b, c) + B (d, e, f). */
  lemma UpperBlockRows(s: seq<real>, q: AlgebraicParameters)
    requires |s| == 36
    ensures UpperRows(s, q) == AddVec(MulVec(BlockA(s), Upper(q)), MulVec(BlockB(s), Lower(q)))
  {
    RowTimesExpanded(s, 0, Coefs(q)); RowTimesExpanded(s, 1, Coefs(q)); RowTimesExpanded(s, 2, Coefs(q));
  }

  /** The lower half of S q is L (a, b, c) + C (d, e, f), L being the lower-left block. */
  lemma LowerBlockRows(s: seq<real>, q: AlgebraicParameters)
    requires |s| == 36
    ensures LowerRows(s, q) == AddVec(MulVec(Block(s, 3, 0), Upper(q)), MulVec(BlockC(s), Lower(q)))
  {
    RowTimesExpanded(s, 3, Coefs(q)); RowTimesExpanded(s, 4, Coefs(q)); RowTimesExpanded(s, 5, Coefs(q));
  }

  /** q^T S q is (a, b, c) times the upper half of S q plus (d, e, f) times the lower half. */
  lemma QuadraticFormHalves(s: seq<real>, q: AlgebraicParameters)
    requires |s| == 36
    ensures QuadraticForm(s, Coefs(q)) == Dot(Upper(q), UpperRows(s, q)) + Dot(Lower(q), LowerRows(s, q))
  {
    QuadraticFormExpanded(s, Coefs(q));
  }

  // ---------------------------------------------------------------------------
  // The eigenpair
  // ---------------------------------------------------------------------------

  /**
   * If -Q^-1 w = lambda v for the constraint matrix Q, then v . w is lambda
   * times the discriminant of v, and w = 0 forces lambda v = 0.
   */
  lemma ConstraintQuadratic(w: Vec3, v: Vec3, lambda: real)
    requires MulVec(NEG_INV_CONSTRAINT, w) == ScaleVec(lambda, v)
    ensures Dot(v, w) == lambda * Discriminant(v)
    ensures w == Vec3(0.0, 0.0, 0.0) ==> ScaleVec(lambda, v) == Vec3(0.0, 0.0, 0.0)
  {
    assert w.x == -2.0 * (lambda * v.w) && w.y == lambda * v.y && w.w == -2.0 * (lambda * v.x);
  }

  /**
   * For an eigenpair of the reduced matrix and the lower half of its
   * eigenvector, the upper half of S q is the reduced matrix A - B C^-1 B^T
   * applied to (a, b, c), so its product with (a, b, c) is lambda times the
   * discriminant.
   */
  lemma ReducedQuadratic(a: Mat3, b: Mat3, c: Mat3, v: Vec3, lambda: real)
    requires Det(c) != 0.0
    requires MulVec(CalcTestA(a, b, c), v) == ScaleVec(lambda, v)
    ensures var top := AddVec(MulVec(a, v), MulVec(b, CalcLowerHalf(b, c, v)));
      Dot(v, top) == lambda * Discriminant(v)
      && (top == Vec3(0.0, 0.0, 0.0) ==> ScaleVec(lambda, v) == Vec3(0.0, 0.0, 0.0))
  {
    MixedBlockOfLowerHalf(b, c, v);
    TestAIsReducedScatter(a, b, c);
    ReducedQuadraticOf(a, b, v, lambda, CalcTmpBtimesTmpE(b, c), CalcLowerHalf(b, c, v), CalcTestA(a, b, c));
  }

  /** ReducedQuadratic with the three computed values given by their defining equations. */
  lemma ReducedQuadraticOf(a: Mat3, b: Mat3, v: Vec3, lambda: real, t: Mat3, y: Vec3, testA: Mat3)
    requires MulVec(b, y) == NegVec(MulVec(t, v))
    requires testA == MatMul(NEG_INV_CONSTRAINT, SubMat(a, t))
    requires MulVec(testA, v) == ScaleVec(lambda, v)
    ensures var top := AddVec(MulVec(a, v), MulVec(b, y));
      Dot(v, top) == lambda * Discriminant(v)
      && (top == Vec3(0.0, 0.0, 0.0) ==> ScaleVec(lambda, v) == Vec3(0.0, 0.0, 0.0))
  {
    var top := AddVec(MulVec(a, v), MulVec(b, y));
    MulVecOfDifference(a, t, v);
    assert top == MulVec(SubMat(a, t), v);
    MulVecOfProduct(NEG_INV_CONSTRAINT, SubMat(a, t), v);
    ConstraintQuadratic(top, v, lambda);
  }

  /**
   * For coefficients whose lower half Fit computes with CalcLowerHalf from an
   * eigenvector of CalcTestA, the sum of squared residuals is lambda times
   * the discriminant, and it is zero only if lambda times the eigenvector is.
   */
  lemma EigenResiduals(d: seq<real>, n: nat, q: AlgebraicParameters, lambda: real)
    requires n * 6 <= |d|
    requires Det(BlockC(ScatterMatrix(d, n))) != 0.0
    requires Lower(q) == CalcLowerHalf(BlockB(ScatterMatrix(d, n)), BlockC(ScatterMatrix(d, n)), Upper(q))
    requires MulVec(CalcTestA(BlockA(ScatterMatrix(d, n)), BlockB(ScatterMatrix(d, n)), BlockC(ScatterMatrix(d, n))), Upper(q))
          == ScaleVec(lambda, Upper(q))
    ensures SumOfSquaredResiduals(d, n, Coefs(q)) == lambda * Discriminant(Upper(q))
    ensures SumOfSquaredResiduals(d, n, Coefs(q)) == 0.0 ==> ScaleVec(lambda, Upper(q)) == Vec3(0.0, 0.0, 0.0)
  {
    var s := ScatterMatrix(d, n);
    ScatterQuadraticForm(d, n, Coefs(q));
    ScatterBlocks(d, n);
    ReducedHalves(s, q, lambda);
    if SumOfSquaredResiduals(d, n, Coefs(q)) == 0.0 {
      ZeroSquaresZeroColumns(d, n, Coefs(q));
      ScatterRowTimes(d, n, 0, Coefs(q)); ScatterRowTimes(d, n, 1, Coefs(q)); ScatterRowTimes(d, n, 2, Coefs(q));
    }
  }

  /**
   * For a symmetric block matrix s and coefficients completed by CalcLowerHalf
   * from an eigenvector of CalcTestA, q^T s q is lambda times the discriminant,
   * and a zero upper half of s q forces lambda times the eigenvector to zero.
   */
  lemma ReducedHalves(s: seq<real>, q: AlgebraicParameters, lambda: real)
    requires |s| == 36
    requires Block(s, 3, 0) == Transpose(BlockB(s))
    requires Det(BlockC(s)) != 0.0
    requires Lower(q) == CalcLowerHalf(BlockB(s), BlockC(s), Upper(q))
    requires MulVec(CalcTestA(BlockA(s), BlockB(s), BlockC(s)), Upper(q)) == ScaleVec(lambda, Upper(q))
    ensures QuadraticForm(s, Coefs(q)) == lambda * Discriminant(Upper(q))
    ensures UpperRows(s, q) == Vec3(0.0, 0.0, 0.0) ==> ScaleVec(lambda, Upper(q)) == Vec3(0.0, 0.0, 0.0)
  {
    UpperBlockRows(s, q);
    LowerBlockRows(s, q);
    QuadraticFormHalves(s, q);
    LowerHalfSolvesBlock(BlockB(s), BlockC(s), Upper(q));
    CancelsToZero(MulVec(Transpose(BlockB(s)), Upper(q)));
    ReducedQuadratic(BlockA(s), BlockB(s), BlockC(s), Upper(q), lambda);
  }

  /** u + (-u) is the zero vector. */
  lemma CancelsToZero(u: Vec3)
    ensures AddVec(u, NegVec(u)) == Vec3(0.0, 0.0, 0.0)
  {
  }

  /**
   * The coefficients of an eigenvector of a negative eigenvalue, completed by
   * CalcLowerHalf, describe an ellipse.
   */
  lemma EigenFitIsEllipse(d: seq<real>, n: nat, q: AlgebraicParameters, lambda: real)
    requires n * 6 <= |d|
    requires Det(BlockC(ScatterMatrix(d, n))) != 0.0
    requires Lower(q) == CalcLowerHalf(BlockB(ScatterMatrix(d, n)), BlockC(ScatterMatrix(d, n)), Upper(q))
    requires lambda < 0.0
    requires IsEigenpair(CalcTestA(BlockA(ScatterMatrix(d, n)), BlockB(ScatterMatrix(d, n)), BlockC(ScatterMatrix(d, n))),
                         lambda, Upper(q))
    ensures IsEllipse(q)
  {
    EigenResiduals(d, n, q, lambda);
    SquaresNonNegative(d, n, Coefs(q));
    EllipseFromSigns(lambda, Discriminant(Upper(q)), SumOfSquaredResiduals(d, n, Coefs(q)), Upper(q));
  }

  /**
   * When the solver's eigenvector for the first negative eigenvalue really is
   * an eigenvector of the reduced scatter matrix, Fit returns an ellipse, in
   * normalised coordinates and after denormalisation.
   */
  lemma FitIsEllipse(acc: PointAccessor, solver: Mat3 -> EigenDecomposition)
    requires FitDefined(acc)
    requires FirstNegative(solver(ReducedScatter(acc)).values) >= 0
    requires IsEigenpair(ReducedScatter(acc),
                         Component(solver(ReducedScatter(acc)).values, FirstNegative(solver(ReducedScatter(acc)).values)),
                         Column(solver(ReducedScatter(acc)).vectors, FirstNegative(solver(ReducedScatter(acc)).values)))
    ensures IsEllipse(NormalizedFit(acc, solver))
    ensures FitSpec(acc, solver).Some? && IsEllipse(FitSpec(acc, solver).value)
  {
    var e := solver(ReducedScatter(acc));
    var i := FirstNegative(e.values);
    var q := NormalizedFit(acc, solver);
    FirstNegativeIsFirst(e.values);
    assert Upper(q) == Column(e.vectors, i);
    EigenFitIsEllipse(NormalizedDesign(acc), GetLength(acc), q, Component(e.values, i));
    FitUndoesNormalization(acc, solver, 0.0, 0.0);
  }

  /** lambda < 0, a sum of squares r = lambda g >= 0 that vanishes only with v = 0, and v != 0 give g < 0. */
  lemma EllipseFromSigns(lambda: real, g: real, r: real, v: Vec3)
    requires lambda < 0.0 && r >= 0.0 && r == lambda * g
    requires r == 0.0 ==> ScaleVec(lambda, v) == Vec3(0.0, 0.0, 0.0)
    requires v != Vec3(0.0, 0.0, 0.0)
    ensures g < 0.0
  {
    if g > 0.0 {
      MixedProduct(lambda, g, r);
    }
  }
}
