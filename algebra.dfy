/**
 * Exact 3-vector and 3x3-matrix algebra over the reals.
 *
 * These are the reference definitions that the closed-form formulas of the
 * ellipse code are proved against: homogeneous points and lines of the
 * projective plane (dot and cross products) and the 3x3 block algebra of
 * the least-squares fitter (determinant and adjugate). Matrix entries
 * are written with the scalar building blocks Dot3 (a row times a column)
 * and Det2 (a 2x2 determinant), so that an entry of a product is literally
 * the dot product of a row and a column.
 */
module Algebra {

  /** The dot product of (x1, x2, x3) and (y1, y2, y3). */
  function Dot3(x1: real, x2: real, x3: real, y1: real, y2: real, y3: real): real
  {
    x1 * y1 + x2 * y2 + x3 * y3
  }

  /** The determinant of the 2x2 matrix with rows (a, b) and (c, d). */
  function Det2(a: real, b: real, c: real, d: real): real
  {
    a * d - b * c
  }

  /** A 3-vector: a homogeneous point (x, y, w), a line, or a column. */
  datatype Vec3 = Vec3(x: real, y: real, w: real)

  function Dot(u: Vec3, v: Vec3): real
  {
    Dot3(u.x, u.y, u.w, v.x, v.y, v.w)
  }

  /** The cross product; for two homogeneous points it is the line through both. */
  function Cross(u: Vec3, v: Vec3): Vec3
  {
    Vec3(Det2(u.y, u.w, v.y, v.w), Det2(u.w, u.x, v.w, v.x), Det2(u.x, u.y, v.x, v.y))
  }

  function NegVec(v: Vec3): Vec3
  {
    Vec3(-v.x, -v.y, -v.w)
  }

  function ScaleVec(k: real, v: Vec3): Vec3
  {
    Vec3(k * v.x, k * v.y, k * v.w)
  }

  /** The cross product is orthogonal to both factors: the line u x v passes through u and v. */
  lemma CrossOrthogonal(u: Vec3, v: Vec3)
    ensures Dot(Cross(u, v), u) == 0.0 && Dot(Cross(u, v), v) == 0.0
  {
  }

  lemma DotSymmetric(u: Vec3, v: Vec3)
    ensures Dot(u, v) == Dot(v, u)
  {
  }

  /** The scalar triple product Dot(Cross(a, b), c) is the determinant with rows a, b, c. */
  lemma TripleExpanded(a: Vec3, b: Vec3, c: Vec3)
    ensures Dot(Cross(a, b), c)
         == a.x * b.y * c.w - a.x * b.w * c.y + a.y * b.w * c.x - a.y * b.x * c.w + a.w * b.x * c.y - a.w * b.y * c.x
  {
  }

  /** The triple product is invariant under a cyclic shift of its factors. */
  lemma TripleCyclic(a: Vec3, b: Vec3, c: Vec3)
    ensures Dot(Cross(a, b), c) == Dot(Cross(b, c), a)
  {
    TripleExpanded(a, b, c);
    TripleExpanded(b, c, a);
  }

  /** The triple product changes sign when two factors are swapped. */
  lemma TripleSwap(a: Vec3, b: Vec3, c: Vec3)
    ensures Dot(Cross(a, b), c) == -Dot(Cross(a, c), b)
  {
    TripleExpanded(a, b, c);
    TripleExpanded(a, c, b);
  }

  /** The combination k1 u - k2 v of two vectors. */
  function Combination(k1: real, u: Vec3, k2: real, v: Vec3): Vec3
  {
    Vec3(k1 * u.x - k2 * v.x, k1 * u.y - k2 * v.y, k1 * u.w - k2 * v.w)
  }

  /** a x (b x c) = (a.c) b - (a.b) c: the meeting point of a line with the line through b and c. */
  lemma CrossCrossRight(a: Vec3, b: Vec3, c: Vec3)
    ensures Cross(a, Cross(b, c)) == Combination(Dot(a, c), b, Dot(a, b), c)
  {
  }

  /** One component of (a x b) x c, over plain reals; the other two are its cyclic shifts. */
  lemma CrossCrossComponent(x1: real, x2: real, x3: real, y1: real, y2: real, y3: real, z1: real, z2: real, z3: real, xz: real, yz: real)
    requires xz == x1 * z1 + x2 * z2 + x3 * z3 && yz == y1 * z1 + y2 * z2 + y3 * z3
    ensures Det2(Det2(x3, x1, y3, y1), Det2(x1, x2, y1, y2), z2, z3) == xz * y1 - yz * x1
  {
  }

  /** (a x b) x c = (a.c) b - (b.c) a. */
  lemma CrossCrossLeft(a: Vec3, b: Vec3, c: Vec3)
    ensures Cross(Cross(a, b), c) == Combination(Dot(a, c), b, Dot(b, c), a)
  {
    CrossCrossComponent(a.x, a.y, a.w, b.x, b.y, b.w, c.x, c.y, c.w, Dot(a, c), Dot(b, c));
    CrossCrossComponent(a.y, a.w, a.x, b.y, b.w, b.x, c.y, c.w, c.x, Dot(a, c), Dot(b, c));
    CrossCrossComponent(a.w, a.x, a.y, b.w, b.x, b.y, c.w, c.x, c.y, Dot(a, c), Dot(b, c));
  }

  /** A 2x2 determinant is linear in its first row. */
  lemma Det2OfCombination(k1: real, p: real, q: real, k2: real, r: real, s: real, t: real, z: real)
    ensures Det2(k1 * p - k2 * r, k1 * q - k2 * s, t, z) == k1 * Det2(p, q, t, z) - k2 * Det2(r, s, t, z)
  {
  }

  /** The dot product is linear in its first factor. */
  lemma DotOfCombination(k1: real, u: Vec3, k2: real, v: Vec3, c: Vec3)
    ensures Dot(Combination(k1, u, k2, v), c) == Times(k1, Dot(u, c)) - Times(k2, Dot(v, c))
  {
  }

  /** The cross product is linear in its first factor. */
  lemma CrossOfCombination(k1: real, u: Vec3, k2: real, v: Vec3, b: Vec3)
    ensures Cross(Combination(k1, u, k2, v), b) == Combination(k1, Cross(u, b), k2, Cross(v, b))
  {
    Det2OfCombination(k1, u.y, u.w, k2, v.y, v.w, b.y, b.w);
    Det2OfCombination(k1, u.w, u.x, k2, v.w, v.x, b.w, b.x);
    Det2OfCombination(k1, u.x, u.y, k2, v.x, v.y, b.x, b.y);
  }

  /** The triple product is linear in its first factor. */
  lemma TripleOfCombination(k1: real, u: Vec3, k2: real, v: Vec3, b: Vec3, c: Vec3)
    ensures Dot(Cross(Combination(k1, u, k2, v), b), c) == Times(k1, Dot(Cross(u, b), c)) - Times(k2, Dot(Cross(v, b), c))
  {
    CrossOfCombination(k1, u, k2, v, b);
    DotOfCombination(k1, Cross(u, b), k2, Cross(v, b), c);
  }

  /** A triple product with a repeated factor is zero. */
  lemma TripleRepeated(a: Vec3, c: Vec3)
    ensures Dot(Cross(a, a), c) == 0.0
  {
  }

  /** A 3x3 matrix, row by row. */
  datatype Mat3 = Mat3(m11: real, m12: real, m13: real,
                       m21: real, m22: real, m23: real,
                       m31: real, m32: real, m33: real)

  function Transpose(m: Mat3): Mat3
  {
    Mat3(m.m11, m.m21, m.m31, m.m12, m.m22, m.m32, m.m13, m.m23, m.m33)
  }

  function ScaleMat(k: real, m: Mat3): Mat3
  {
    Mat3(k * m.m11, k * m.m12, k * m.m13, k * m.m21, k * m.m22, k * m.m23, k * m.m31, k * m.m32, k * m.m33)
  }

  function SubMat(m: Mat3, n: Mat3): Mat3
  {
    Mat3(m.m11 - n.m11, m.m12 - n.m12, m.m13 - n.m13,
         m.m21 - n.m21, m.m22 - n.m22, m.m23 - n.m23,
         m.m31 - n.m31, m.m32 - n.m32, m.m33 - n.m33)
  }

  function MatMul(m: Mat3, n: Mat3): Mat3
  {
    Mat3(Dot3(m.m11, m.m12, m.m13, n.m11, n.m21, n.m31),
         Dot3(m.m11, m.m12, m.m13, n.m12, n.m22, n.m32),
         Dot3(m.m11, m.m12, m.m13, n.m13, n.m23, n.m33),
         Dot3(m.m21, m.m22, m.m23, n.m11, n.m21, n.m31),
         Dot3(m.m21, m.m22, m.m23, n.m12, n.m22, n.m32),
         Dot3(m.m21, m.m22, m.m23, n.m13, n.m23, n.m33),
         Dot3(m.m31, m.m32, m.m33, n.m11, n.m21, n.m31),
         Dot3(m.m31, m.m32, m.m33, n.m12, n.m22, n.m32),
         Dot3(m.m31, m.m32, m.m33, n.m13, n.m23, n.m33))
  }

  function MulVec(m: Mat3, v: Vec3): Vec3
  {
    Vec3(Dot3(m.m11, m.m12, m.m13, v.x, v.y, v.w),
         Dot3(m.m21, m.m22, m.m23, v.x, v.y, v.w),
         Dot3(m.m31, m.m32, m.m33, v.x, v.y, v.w))
  }

  const IDENTITY: Mat3 := Mat3(1.0, 0.0, 0.0, 0.0, 1.0, 0.0, 0.0, 0.0, 1.0)

  /** The adjugate: the transposed matrix of cofactors, each a signed 2x2 minor. */
  function Adjugate(c: Mat3): Mat3
  {
    Mat3(Det2(c.m22, c.m23, c.m32, c.m33), Det2(c.m13, c.m12, c.m33, c.m32), Det2(c.m12, c.m13, c.m22, c.m23),
         Det2(c.m23, c.m21, c.m33, c.m31), Det2(c.m11, c.m13, c.m31, c.m33), Det2(c.m13, c.m11, c.m23, c.m21),
         Det2(c.m21, c.m22, c.m31, c.m32), Det2(c.m12, c.m11, c.m32, c.m31), Det2(c.m11, c.m12, c.m21, c.m22))
  }

  /** The determinant, expanded along the first row: the first row times the first column of the adjugate. */
  function Det(c: Mat3): real
  {
    Dot3(c.m11, c.m12, c.m13, Det2(c.m22, c.m23, c.m32, c.m33), Det2(c.m23, c.m21, c.m33, c.m31), Det2(c.m21, c.m22, c.m31, c.m32))
  }

  /** The determinant in the expanded form the fitter's closed-form formulas divide by. */
  lemma DetExpanded(c: Mat3)
    ensures Det(c) == -(c.m13 * c.m22 * c.m31) + c.m12 * c.m23 * c.m31 + c.m13 * c.m21 * c.m32 - c.m11 * c.m23 * c.m32 - c.m12 * c.m21 * c.m33 + c.m11 * c.m22 * c.m33
  {
  }

  // Row i of C times column j of adj(C), one scalar identity per entry (i, j) != (1, 1);
  // entry (1, 1) is the definition of Det itself.

  lemma CofactorSum12(c11: real, c12: real, c13: real, c21: real, c22: real, c23: real, c31: real, c32: real, c33: real)
    ensures Dot3(c11, c12, c13, Det2(c13, c12, c33, c32), Det2(c11, c13, c31, c33), Det2(c12, c11, c32, c31))
         == 0.0
  {
  }

  lemma CofactorSum13(c11: real, c12: real, c13: real, c21: real, c22: real, c23: real, c31: real, c32: real, c33: real)
    ensures Dot3(c11, c12, c13, Det2(c12, c13, c22, c23), Det2(c13, c11, c23, c21), Det2(c11, c12, c21, c22))
         == 0.0
  {
  }

  lemma CofactorSum21(c11: real, c12: real, c13: real, c21: real, c22: real, c23: real, c31: real, c32: real, c33: real)
    ensures Dot3(c21, c22, c23, Det2(c22, c23, c32, c33), Det2(c23, c21, c33, c31), Det2(c21, c22, c31, c32))
         == 0.0
  {
  }

  lemma CofactorSum22(c11: real, c12: real, c13: real, c21: real, c22: real, c23: real, c31: real, c32: real, c33: real)
    ensures Dot3(c21, c22, c23, Det2(c13, c12, c33, c32), Det2(c11, c13, c31, c33), Det2(c12, c11, c32, c31))
         == Dot3(c11, c12, c13, Det2(c22, c23, c32, c33), Det2(c23, c21, c33, c31), Det2(c21, c22, c31, c32))
  {
  }

  lemma CofactorSum23(c11: real, c12: real, c13: real, c21: real, c22: real, c23: real, c31: real, c32: real, c33: real)
    ensures Dot3(c21, c22, c23, Det2(c12, c13, c22, c23), Det2(c13, c11, c23, c21), Det2(c11, c12, c21, c22))
         == 0.0
  {
  }

  lemma CofactorSum31(c11: real, c12: real, c13: real, c21: real, c22: real, c23: real, c31: real, c32: real, c33: real)
    ensures Dot3(c31, c32, c33, Det2(c22, c23, c32, c33), Det2(c23, c21, c33, c31), Det2(c21, c22, c31, c32))
         == 0.0
  {
  }

  lemma CofactorSum32(c11: real, c12: real, c13: real, c21: real, c22: real, c23: real, c31: real, c32: real, c33: real)
    ensures Dot3(c31, c32, c33, Det2(c13, c12, c33, c32), Det2(c11, c13, c31, c33), Det2(c12, c11, c32, c31))
         == 0.0
  {
  }

  lemma CofactorSum33(c11: real, c12: real, c13: real, c21: real, c22: real, c23: real, c31: real, c32: real, c33: real)
    ensures Dot3(c31, c32, c33, Det2(c12, c13, c22, c23), Det2(c13, c11, c23, c21), Det2(c11, c12, c21, c22))
         == Dot3(c11, c12, c13, Det2(c22, c23, c32, c33), Det2(c23, c21, c33, c31), Det2(c21, c22, c31, c32))
  {
  }

  lemma AdjugateRight12(c: Mat3)
    ensures MatMul(c, Adjugate(c)).m12 == 0.0
  {
    CofactorSum12(c.m11, c.m12, c.m13, c.m21, c.m22, c.m23, c.m31, c.m32, c.m33);
  }

  lemma AdjugateRight13(c: Mat3)
    ensures MatMul(c, Adjugate(c)).m13 == 0.0
  {
    CofactorSum13(c.m11, c.m12, c.m13, c.m21, c.m22, c.m23, c.m31, c.m32, c.m33);
  }

  lemma AdjugateRight21(c: Mat3)
    ensures MatMul(c, Adjugate(c)).m21 == 0.0
  {
    CofactorSum21(c.m11, c.m12, c.m13, c.m21, c.m22, c.m23, c.m31, c.m32, c.m33);
  }

  lemma AdjugateRight22(c: Mat3)
    ensures MatMul(c, Adjugate(c)).m22 == Det(c)
  {
    CofactorSum22(c.m11, c.m12, c.m13, c.m21, c.m22, c.m23, c.m31, c.m32, c.m33);
  }

  lemma AdjugateRight23(c: Mat3)
    ensures MatMul(c, Adjugate(c)).m23 == 0.0
  {
    CofactorSum23(c.m11, c.m12, c.m13, c.m21, c.m22, c.m23, c.m31, c.m32, c.m33);
  }

  lemma AdjugateRight31(c: Mat3)
    ensures MatMul(c, Adjugate(c)).m31 == 0.0
  {
    CofactorSum31(c.m11, c.m12, c.m13, c.m21, c.m22, c.m23, c.m31, c.m32, c.m33);
  }

  lemma AdjugateRight32(c: Mat3)
    ensures MatMul(c, Adjugate(c)).m32 == 0.0
  {
    CofactorSum32(c.m11, c.m12, c.m13, c.m21, c.m22, c.m23, c.m31, c.m32, c.m33);
  }

  lemma AdjugateRight33(c: Mat3)
    ensures MatMul(c, Adjugate(c)).m33 == Det(c)
  {
    CofactorSum33(c.m11, c.m12, c.m13, c.m21, c.m22, c.m23, c.m31, c.m32, c.m33);
  }

  /** The adjugate is a right inverse up to the determinant: C adj(C) = det(C) I. */
  lemma AdjugateRight(c: Mat3)
    ensures MatMul(c, Adjugate(c)) == ScaleMat(Det(c), IDENTITY)
  {
    AdjugateRight12(c); AdjugateRight13(c);
    AdjugateRight21(c); AdjugateRight22(c); AdjugateRight23(c);
    AdjugateRight31(c); AdjugateRight32(c); AdjugateRight33(c);
  }

  /** Associativity of a row, a matrix and a column: c (A v) = (c A) v. */
  lemma DotAssoc(c1: real, c2: real, c3: real,
                 a11: real, a12: real, a13: real, a21: real, a22: real, a23: real, a31: real, a32: real, a33: real,
                 v1: real, v2: real, v3: real)
    ensures Dot3(c1, c2, c3, Dot3(a11, a12, a13, v1, v2, v3), Dot3(a21, a22, a23, v1, v2, v3), Dot3(a31, a32, a33, v1, v2, v3))
         == Dot3(Dot3(c1, c2, c3, a11, a21, a31), Dot3(c1, c2, c3, a12, a22, a32), Dot3(c1, c2, c3, a13, a23, a33), v1, v2, v3)
  {
  }

  lemma AdjugateRightVec1(c: Mat3, v: Vec3)
    ensures MulVec(c, MulVec(Adjugate(c), v)).x == Det(c) * v.x
  {
    var m := Adjugate(c);
    DotAssoc(c.m11, c.m12, c.m13, m.m11, m.m12, m.m13, m.m21, m.m22, m.m23, m.m31, m.m32, m.m33, v.x, v.y, v.w);
    AdjugateRight12(c); AdjugateRight13(c);
  }

  lemma AdjugateRightVec2(c: Mat3, v: Vec3)
    ensures MulVec(c, MulVec(Adjugate(c), v)).y == Det(c) * v.y
  {
    var m := Adjugate(c);
    DotAssoc(c.m21, c.m22, c.m23, m.m11, m.m12, m.m13, m.m21, m.m22, m.m23, m.m31, m.m32, m.m33, v.x, v.y, v.w);
    AdjugateRight21(c); AdjugateRight22(c); AdjugateRight23(c);
  }

  lemma AdjugateRightVec3(c: Mat3, v: Vec3)
    ensures MulVec(c, MulVec(Adjugate(c), v)).w == Det(c) * v.w
  {
    var m := Adjugate(c);
    DotAssoc(c.m31, c.m32, c.m33, m.m11, m.m12, m.m13, m.m21, m.m22, m.m23, m.m31, m.m32, m.m33, v.x, v.y, v.w);
    AdjugateRight31(c); AdjugateRight32(c); AdjugateRight33(c);
  }

  /** The same identity applied to a vector: C (adj(C) v) = det(C) v. */
  lemma AdjugateRightVec(c: Mat3, v: Vec3)
    ensures MulVec(c, MulVec(Adjugate(c), v)) == ScaleVec(Det(c), v)
  {
    AdjugateRightVec1(c, v); AdjugateRightVec2(c, v); AdjugateRightVec3(c, v);
  }

  function AddVec(u: Vec3, v: Vec3): Vec3
  {
    Vec3(u.x + v.x, u.y + v.y, u.w + v.w)
  }

  /** A product of matrices applied to a vector: (M N) v = M (N v). */
  lemma MulVecOfProduct(m: Mat3, n: Mat3, v: Vec3)
    ensures MulVec(MatMul(m, n), v) == MulVec(m, MulVec(n, v))
  {
    DotAssoc(m.m11, m.m12, m.m13, n.m11, n.m12, n.m13, n.m21, n.m22, n.m23, n.m31, n.m32, n.m33, v.x, v.y, v.w);
    DotAssoc(m.m21, m.m22, m.m23, n.m11, n.m12, n.m13, n.m21, n.m22, n.m23, n.m31, n.m32, n.m33, v.x, v.y, v.w);
    DotAssoc(m.m31, m.m32, m.m33, n.m11, n.m12, n.m13, n.m21, n.m22, n.m23, n.m31, n.m32, n.m33, v.x, v.y, v.w);
  }

  /** A matrix difference applied to a vector: (M - N) v = M v - N v. */
  lemma MulVecOfDifference(m: Mat3, n: Mat3, v: Vec3)
    ensures MulVec(SubMat(m, n), v) == AddVec(MulVec(m, v), NegVec(MulVec(n, v)))
  {
  }

  /** A scaled matrix applied to a vector: (k M) v = k (M v). */
  lemma MulVecOfScaled(k: real, m: Mat3, v: Vec3)
    ensures MulVec(ScaleMat(k, m), v) == ScaleVec(k, MulVec(m, v))
  {
    var u := MulVec(m, v);
    ScaledRow1(k, m, v); ScaledRow2(k, m, v); ScaledRow3(k, m, v);
    assert MulVec(ScaleMat(k, m), v) == Vec3(Times(k, u.x), Times(k, u.y), Times(k, u.w));
  }

  /**
   * The product of two reals under a name of its own: a step of a proof
   * can then match a product term by term instead of by arithmetic.
   */
  function Times(x: real, y: real): real
  {
    x * y
  }

  /** Scaling the first factor of every term scales the sum. */
  lemma ScaledDot3(k: real, x1: real, x2: real, x3: real, y1: real, y2: real, y3: real)
    ensures Dot3(k * x1, k * x2, k * x3, y1, y2, y3) == Times(k, Dot3(x1, x2, x3, y1, y2, y3))
  {
  }

  lemma ScaledRow1(k: real, m: Mat3, v: Vec3)
    ensures MulVec(ScaleMat(k, m), v).x == Times(k, MulVec(m, v).x)
  {
    ScaledDot3(k, m.m11, m.m12, m.m13, v.x, v.y, v.w);
  }

  lemma ScaledRow2(k: real, m: Mat3, v: Vec3)
    ensures MulVec(ScaleMat(k, m), v).y == Times(k, MulVec(m, v).y)
  {
    ScaledDot3(k, m.m21, m.m22, m.m23, v.x, v.y, v.w);
  }

  lemma ScaledRow3(k: real, m: Mat3, v: Vec3)
    ensures MulVec(ScaleMat(k, m), v).w == Times(k, MulVec(m, v).w)
  {
    ScaledDot3(k, m.m31, m.m32, m.m33, v.x, v.y, v.w);
  }

  /** A matrix applied to a scaled vector: M (k v) = k (M v). */
  lemma MulVecScales(k: real, m: Mat3, v: Vec3)
    ensures MulVec(m, ScaleVec(k, v)) == ScaleVec(k, MulVec(m, v))
  {
  }

  /** A matrix applied to a negated vector: M (-v) = -(M v). */
  lemma MulVecNegates(m: Mat3, v: Vec3)
    ensures MulVec(m, NegVec(v)) == NegVec(MulVec(m, v))
  {
  }

  // Sign facts are stated about a named product pq (or square zz) rather than
  // about the product term itself; callers pass the product they care about.

  lemma PositiveProduct(p: real, q: real, pq: real)
    requires p > 0.0 && q > 0.0 && pq == p * q
    ensures pq > 0.0
  {
  }

  lemma NegativeProduct(p: real, q: real, pq: real)
    requires p < 0.0 && q < 0.0 && pq == p * q
    ensures pq > 0.0
  {
  }

  lemma MixedProduct(p: real, q: real, pq: real)
    requires p < 0.0 && q > 0.0 && pq == p * q
    ensures pq < 0.0
  {
  }

  /** The quotient p / n times n is p. */
  lemma QuotientTimesDivisor(p: real, n: real, v: real)
    requires n != 0.0 && v == p / n
    ensures v * n == p
  {
  }

  /** A product with a non-zero factor is zero only when the other factor is. */
  lemma ZeroFactor(g: real, n: real, gn: real)
    requires n != 0.0 && gn == g * n && gn == 0.0
    ensures g == 0.0
  {
  }

  /** A product of two non-zero factors is non-zero. */
  lemma NonZeroTimes(p: real, q: real)
    requires p != 0.0 && q != 0.0
    ensures Times(p, q) != 0.0
  {
  }

  /** A product with the factor zero is zero. */
  lemma TimesZero(p: real)
    ensures Times(p, 0.0) == 0.0
  {
  }

  /** A product with a zero factor is zero. */
  lemma ZeroTimes(p: real, g: real, pg: real)
    requires g == 0.0 && pg == p * g
    ensures pg == 0.0
  {
  }

  lemma NonNegativeProduct(p: real, q: real, pq: real)
    requires p >= 0.0 && q >= 0.0 && pq == p * q
    ensures pq >= 0.0
  {
    if p > 0.0 && q > 0.0 {
      PositiveProduct(p, q, pq);
    }
  }

  lemma SquarePositive(z: real, zz: real)
    requires z != 0.0 && zz == z * z
    ensures zz > 0.0
  {
    if z > 0.0 {
      PositiveProduct(z, z, zz);
    } else {
      NegativeProduct(z, z, zz);
    }
  }

  lemma SquareNonNegative(z: real, zz: real)
    requires zz == z * z
    ensures zz >= 0.0
  {
    if z != 0.0 {
      SquarePositive(z, zz);
    }
  }
}
