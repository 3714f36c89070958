/**
 * The closed-form 3x3 block formulas of the direct least-squares ellipse fit
 * (the static helpers of the fitter class) and what they compute.
 *
 * The 6x6 scatter matrix of the fit splits into 3x3 blocks A (quadratic
 * terms), B (mixed) and C (linear terms). The fitter never inverts C
 * numerically: each helper is a rational expression in the block entries,
 * divided by det(C) written out in full. The lemmas below show what those
 * expressions are: det(C) times CalcTmpBtimesTmpE is B adj(C) B^T, that is
 * B C^-1 B^T; CalcTestA is the reduced scatter matrix A - B C^-1 B^T
 * premultiplied by the negated inverse of the ellipse constraint matrix; and
 * CalcLowerHalf solves C y = -B^T a for the linear coefficients.
 */
module FitBlocks {
  import opened Algebra

  function Squared(f: real): real
  {
    f * f
  }

  /** B C^-1 B^T for the blocks B and C of the scatter matrix, entry by entry over det(C). */
  function CalcTmpBtimesTmpE(b: Mat3, c: Mat3): Mat3
    requires Det(c) != 0.0
  {
    Mat3(
      (Squared(b.m13) * (-(c.m12 * c.m21) + c.m11 * c.m22)
      + b.m13 * (b.m11 * (-(c.m13 * c.m22) + c.m12 * c.m23 - c.m22 * c.m31 + c.m21 * c.m32) + b.m12 * (c.m13 * c.m21 + c.m12 * c.m31 - c.m11 * (c.m23 + c.m32)))
      + Squared(b.m12) * (-(c.m13 * c.m31) + c.m11 * c.m33)
      + b.m11 * b.m12 * (c.m23 * c.m31 + c.m13 * c.m32 - (c.m12 + c.m21) * c.m33)
      + Squared(b.m11) * (-(c.m23 * c.m32) + c.m22 * c.m33))
        / Det(c),
      (b.m13 * (-b.m23 * c.m12 * c.m21 + b.m23 * c.m11 * c.m22 + b.m22 * c.m12 * c.m31 - b.m21 * c.m22 * c.m31 - b.m22 * c.m11 * c.m32 + b.m21 * c.m21 * c.m32)
      + b.m12 * (b.m23 * c.m13 * c.m21 - b.m23 * c.m11 * c.m23 - b.m22 * c.m13 * c.m31 + b.m21 * c.m23 * c.m31 + b.m22 * c.m11 * c.m33 - b.m21 * c.m21 * c.m33)
      + b.m11 * (-b.m23 * c.m13 * c.m22 + b.m23 * c.m12 * c.m23 + b.m22 * c.m13 * c.m32 - b.m21 * c.m23 * c.m32 - b.m22 * c.m12 * c.m33 + b.m21 * c.m22 * c.m33))
        / Det(c),
      (b.m13 * (-(b.m33 * c.m12 * c.m21) + b.m33 * c.m11 * c.m22 + b.m32 * c.m12 * c.m31 - b.m31 * c.m22 * c.m31 - b.m32 * c.m11 * c.m32 + b.m31 * c.m21 * c.m32)
      + b.m12 * (b.m33 * c.m13 * c.m21 - b.m33 * c.m11 * c.m23 - b.m32 * c.m13 * c.m31 + b.m31 * c.m23 * c.m31 + b.m32 * c.m11 * c.m33 - b.m31 * c.m21 * c.m33)
      + b.m11 * (-(b.m33 * c.m13 * c.m22) + b.m33 * c.m12 * c.m23 + b.m32 * c.m13 * c.m32 - b.m31 * c.m23 * c.m32 - b.m32 * c.m12 * c.m33 + b.m31 * c.m22 * c.m33))
        / Det(c),
      (b.m13 * (-(b.m23 * c.m12 * c.m21) + b.m22 * c.m13 * c.m21 + b.m23 * c.m11 * c.m22 - b.m21 * c.m13 * c.m22 - b.m22 * c.m11 * c.m23 + b.m21 * c.m12 * c.m23)
      + b.m12 * (b.m23 * c.m12 * c.m31 - b.m22 * c.m13 * c.m31 - b.m23 * c.m11 * c.m32 + b.m21 * c.m13 * c.m32 + b.m22 * c.m11 * c.m33 - b.m21 * c.m12 * c.m33)
      + b.m11 * (-(b.m23 * c.m22 * c.m31) + b.m22 * c.m23 * c.m31 + b.m23 * c.m21 * c.m32 - b.m21 * c.m23 * c.m32 - b.m22 * c.m21 * c.m33 + b.m21 * c.m22 * c.m33))
        / Det(c),
      (Squared(b.m23) * (-(c.m12 * c.m21) + c.m11 * c.m22)
      + b.m23 * (b.m21 * (-(c.m13 * c.m22) + c.m12 * c.m23 - c.m22 * c.m31 + c.m21 * c.m32) + b.m22 * (c.m13 * c.m21 + c.m12 * c.m31 - c.m11 * (c.m23 + c.m32)))
      + Squared(b.m22) * (-(c.m13 * c.m31) + c.m11 * c.m33)
      + b.m21 * b.m22 * (c.m23 * c.m31 + c.m13 * c.m32 - (c.m12 + c.m21) * c.m33)
      + Squared(b.m21) * (-(c.m23 * c.m32) + c.m22 * c.m33))
        / Det(c),
      (b.m23 * (-(b.m33 * c.m12 * c.m21) + b.m33 * c.m11 * c.m22 + b.m32 * c.m12 * c.m31 - b.m31 * c.m22 * c.m31 - b.m32 * c.m11 * c.m32 + b.m31 * c.m21 * c.m32)
      + b.m22 * (b.m33 * c.m13 * c.m21 - b.m33 * c.m11 * c.m23 - b.m32 * c.m13 * c.m31 + b.m31 * c.m23 * c.m31 + b.m32 * c.m11 * c.m33 - b.m31 * c.m21 * c.m33)
      + b.m21 * (-(b.m33 * c.m13 * c.m22) + b.m33 * c.m12 * c.m23 + b.m32 * c.m13 * c.m32 - b.m31 * c.m23 * c.m32 - b.m32 * c.m12 * c.m33 + b.m31 * c.m22 * c.m33))
        / Det(c),
      (b.m13 * (-(b.m33 * c.m12 * c.m21) + b.m32 * c.m13 * c.m21 + b.m33 * c.m11 * c.m22 - b.m31 * c.m13 * c.m22 - b.m32 * c.m11 * c.m23 + b.m31 * c.m12 * c.m23)
      + b.m12 * (b.m33 * c.m12 * c.m31 - b.m32 * c.m13 * c.m31 - b.m33 * c.m11 * c.m32 + b.m31 * c.m13 * c.m32 + b.m32 * c.m11 * c.m33 - b.m31 * c.m12 * c.m33)
      + b.m11 * (-(b.m33 * c.m22 * c.m31) + b.m32 * c.m23 * c.m31 + b.m33 * c.m21 * c.m32 - b.m31 * c.m23 * c.m32 - b.m32 * c.m21 * c.m33 + b.m31 * c.m22 * c.m33))
        / Det(c),
      (b.m23 * (-(b.m33 * c.m12 * c.m21) + b.m32 * c.m13 * c.m21 + b.m33 * c.m11 * c.m22 - b.m31 * c.m13 * c.m22 - b.m32 * c.m11 * c.m23 + b.m31 * c.m12 * c.m23)
      + b.m22 * (b.m33 * c.m12 * c.m31 - b.m32 * c.m13 * c.m31 - b.m33 * c.m11 * c.m32 + b.m31 * c.m13 * c.m32 + b.m32 * c.m11 * c.m33 - b.m31 * c.m12 * c.m33)
      + b.m21 * (-(b.m33 * c.m22 * c.m31) + b.m32 * c.m23 * c.m31 + b.m33 * c.m21 * c.m32 - b.m31 * c.m23 * c.m32 - b.m32 * c.m21 * c.m33 + b.m31 * c.m22 * c.m33))
        / Det(c),
      (Squared(b.m33) * (-(c.m12 * c.m21) + c.m11 * c.m22)
      + b.m33 * (b.m31 * (-(c.m13 * c.m22) + c.m12 * c.m23 - c.m22 * c.m31 + c.m21 * c.m32) + b.m32 * (c.m13 * c.m21 + c.m12 * c.m31 - c.m11 * (c.m23 + c.m32)))
      + Squared(b.m32) * (-(c.m13 * c.m31) + c.m11 * c.m33)
      + b.m31 * b.m32 * (c.m23 * c.m31 + c.m13 * c.m32 - (c.m12 + c.m21) * c.m33)
      + Squared(b.m31) * (-(c.m23 * c.m32) + c.m22 * c.m33))
        / Det(c))
  }

  /** The matrix whose eigenvectors the fit searches: -Q^-1 (A - B C^-1 B^T), Q the ellipse constraint. */
  function CalcTestA(a: Mat3, b: Mat3, c: Mat3): Mat3
    requires Det(c) != 0.0
  {
    Mat3(
      (b.m13 * (-(b.m33 * c.m12 * c.m21) + b.m32 * c.m13 * c.m21 + b.m33 * c.m11 * c.m22 - b.m31 * c.m13 * c.m22 - b.m32 * c.m11 * c.m23 + b.m31 * c.m12 * c.m23)
      - b.m11 * b.m33 * c.m22 * c.m31 + a.m31 * c.m13 * c.m22 * c.m31 + b.m11 * b.m32 * c.m23 * c.m31
      - a.m31 * c.m12 * c.m23 * c.m31 + b.m11 * b.m33 * c.m21 * c.m32 - a.m31 * c.m13 * c.m21 * c.m32
      - b.m11 * b.m31 * c.m23 * c.m32 + a.m31 * c.m11 * c.m23 * c.m32 - b.m11 * b.m32 * c.m21 * c.m33
      + a.m31 * c.m12 * c.m21 * c.m33 + b.m11 * b.m31 * c.m22 * c.m33 - a.m31 * c.m11 * c.m22 * c.m33
      + b.m12 * (b.m33 * c.m12 * c.m31 - b.m32 * c.m13 * c.m31 - b.m33 * c.m11 * c.m32 + b.m31 * c.m13 * c.m32 + b.m32 * c.m11 * c.m33 - b.m31 * c.m12 * c.m33))
        / (2.0 * Det(c)),
      (b.m23 * (-(b.m33 * c.m12 * c.m21) + b.m32 * c.m13 * c.m21 + b.m33 * c.m11 * c.m22 - b.m31 * c.m13 * c.m22 - b.m32 * c.m11 * c.m23 + b.m31 * c.m12 * c.m23)
      - b.m21 * b.m33 * c.m22 * c.m31 + a.m32 * c.m13 * c.m22 * c.m31 + b.m21 * b.m32 * c.m23 * c.m31
      - a.m32 * c.m12 * c.m23 * c.m31 + b.m21 * b.m33 * c.m21 * c.m32 - a.m32 * c.m13 * c.m21 * c.m32
      - b.m21 * b.m31 * c.m23 * c.m32 + a.m32 * c.m11 * c.m23 * c.m32 - b.m21 * b.m32 * c.m21 * c.m33
      + a.m32 * c.m12 * c.m21 * c.m33 + b.m21 * b.m31 * c.m22 * c.m33 - a.m32 * c.m11 * c.m22 * c.m33
      + b.m22 * (b.m33 * c.m12 * c.m31 - b.m32 * c.m13 * c.m31 - b.m33 * c.m11 * c.m32 + b.m31 * c.m13 * c.m32 + b.m32 * c.m11 * c.m33 - b.m31 * c.m12 * c.m33))
        / (2.0 * Det(c)),
      (Squared(b.m33) * (-(c.m12 * c.m21) + c.m11 * c.m22) + a.m33 * c.m13 * c.m22 * c.m31
      - a.m33 * c.m12 * c.m23 * c.m31 - a.m33 * c.m13 * c.m21 * c.m32 - Squared(b.m31) * c.m23 * c.m32
      + a.m33 * c.m11 * c.m23 * c.m32
      + b.m33 * (b.m31 * (-(c.m13 * c.m22) + c.m12 * c.m23 - c.m22 * c.m31 + c.m21 * c.m32) + b.m32 * (c.m13 * c.m21 + c.m12 * c.m31 - c.m11 * (c.m23 + c.m32)))
      + a.m33 * c.m12 * c.m21 * c.m33 + Squared(b.m31) * c.m22 * c.m33 - a.m33 * c.m11 * c.m22 * c.m33
      + Squared(b.m32) * (-(c.m13 * c.m31) + c.m11 * c.m33)
      + b.m31 * b.m32 * (c.m23 * c.m31 + c.m13 * c.m32 - (c.m12 + c.m21) * c.m33))
        / (2.0 * Det(c)),
      (b.m13 * (b.m23 * c.m12 * c.m21 - b.m22 * c.m13 * c.m21 - b.m23 * c.m11 * c.m22 + b.m21 * c.m13 * c.m22 + b.m22 * c.m11 * c.m23 - b.m21 * c.m12 * c.m23)
      + b.m11 * b.m23 * c.m22 * c.m31 - a.m21 * c.m13 * c.m22 * c.m31 - b.m11 * b.m22 * c.m23 * c.m31
      + a.m21 * c.m12 * c.m23 * c.m31 - b.m11 * b.m23 * c.m21 * c.m32 + a.m21 * c.m13 * c.m21 * c.m32
      + b.m11 * b.m21 * c.m23 * c.m32 - a.m21 * c.m11 * c.m23 * c.m32 + b.m11 * b.m22 * c.m21 * c.m33
      - a.m21 * c.m12 * c.m21 * c.m33 - b.m11 * b.m21 * c.m22 * c.m33 + a.m21 * c.m11 * c.m22 * c.m33
      + b.m12 * (-(b.m23 * c.m12 * c.m31) + b.m22 * c.m13 * c.m31 + b.m23 * c.m11 * c.m32 - b.m21 * c.m13 * c.m32 - b.m22 * c.m11 * c.m33 + b.m21 * c.m12 * c.m33))
        / (Det(c)),
      (Squared(b.m23) * (-(c.m12 * c.m21) + c.m11 * c.m22) + a.m22 * c.m13 * c.m22 * c.m31
      - a.m22 * c.m12 * c.m23 * c.m31 - a.m22 * c.m13 * c.m21 * c.m32 - Squared(b.m21) * c.m23 * c.m32
      + a.m22 * c.m11 * c.m23 * c.m32
      + b.m23 * (b.m21 * (-(c.m13 * c.m22) + c.m12 * c.m23 - c.m22 * c.m31 + c.m21 * c.m32) + b.m22 * (c.m13 * c.m21 + c.m12 * c.m31 - c.m11 * (c.m23 + c.m32)))
      + a.m22 * c.m12 * c.m21 * c.m33 + Squared(b.m21) * c.m22 * c.m33 - a.m22 * c.m11 * c.m22 * c.m33
      + Squared(b.m22) * (-(c.m13 * c.m31) + c.m11 * c.m33)
      + b.m21 * b.m22 * (c.m23 * c.m31 + c.m13 * c.m32 - (c.m12 + c.m21) * c.m33))
        / (-Det(c)),
      (b.m21 * b.m33 * c.m13 * c.m22 - b.m21 * b.m33 * c.m12 * c.m23 - a.m23 * c.m13 * c.m22 * c.m31
      + a.m23 * c.m12 * c.m23 * c.m31 - b.m21 * b.m32 * c.m13 * c.m32 + a.m23 * c.m13 * c.m21 * c.m32
      + b.m21 * b.m31 * c.m23 * c.m32 - a.m23 * c.m11 * c.m23 * c.m32
      + b.m23 * (b.m33 * c.m12 * c.m21 - b.m33 * c.m11 * c.m22 - b.m32 * c.m12 * c.m31 + b.m31 * c.m22 * c.m31 + b.m32 * c.m11 * c.m32 - b.m31 * c.m21 * c.m32)
      + b.m21 * b.m32 * c.m12 * c.m33 - a.m23 * c.m12 * c.m21 * c.m33 - b.m21 * b.m31 * c.m22 * c.m33
      + a.m23 * c.m11 * c.m22 * c.m33
      + b.m22 * (-(b.m33 * c.m13 * c.m21) + b.m33 * c.m11 * c.m23 + b.m32 * c.m13 * c.m31 - b.m31 * c.m23 * c.m31 - b.m32 * c.m11 * c.m33 + b.m31 * c.m21 * c.m33))
        / (Det(c)),
      (Squared(b.m13) * (-(c.m12 * c.m21) + c.m11 * c.m22) + a.m11 * c.m13 * c.m22 * c.m31
      - a.m11 * c.m12 * c.m23 * c.m31 - a.m11 * c.m13 * c.m21 * c.m32 - Squared(b.m11) * c.m23 * c.m32
      + a.m11 * c.m11 * c.m23 * c.m32
      + b.m13 * (b.m11 * (-(c.m13 * c.m22) + c.m12 * c.m23 - c.m22 * c.m31 + c.m21 * c.m32) + b.m12 * (c.m13 * c.m21 + c.m12 * c.m31 - c.m11 * (c.m23 + c.m32)))
      + a.m11 * c.m12 * c.m21 * c.m33 + Squared(b.m11) * c.m22 * c.m33 - a.m11 * c.m11 * c.m22 * c.m33
      + Squared(b.m12) * (-(c.m13 * c.m31) + c.m11 * c.m33)
      + b.m11 * b.m12 * (c.m23 * c.m31 + c.m13 * c.m32 - (c.m12 + c.m21) * c.m33))
        / (2.0 * Det(c)),
      (-(b.m11 * b.m23 * c.m13 * c.m22) + b.m11 * b.m23 * c.m12 * c.m23 + a.m12 * c.m13 * c.m22 * c.m31
      - a.m12 * c.m12 * c.m23 * c.m31 + b.m11 * b.m22 * c.m13 * c.m32 - a.m12 * c.m13 * c.m21 * c.m32
      - b.m11 * b.m21 * c.m23 * c.m32 + a.m12 * c.m11 * c.m23 * c.m32
      + b.m13 * (-(b.m23 * c.m12 * c.m21) + b.m23 * c.m11 * c.m22 + b.m22 * c.m12 * c.m31 - b.m21 * c.m22 * c.m31 - b.m22 * c.m11 * c.m32 + b.m21 * c.m21 * c.m32)
      - b.m11 * b.m22 * c.m12 * c.m33 + a.m12 * c.m12 * c.m21 * c.m33 + b.m11 * b.m21 * c.m22 * c.m33
      - a.m12 * c.m11 * c.m22 * c.m33
      + b.m12 * (b.m23 * c.m13 * c.m21 - b.m23 * c.m11 * c.m23 - b.m22 * c.m13 * c.m31 + b.m21 * c.m23 * c.m31 + b.m22 * c.m11 * c.m33 - b.m21 * c.m21 * c.m33))
        / (2.0 * Det(c)),
      (-(b.m11 * b.m33 * c.m13 * c.m22) + b.m11 * b.m33 * c.m12 * c.m23 + a.m13 * c.m13 * c.m22 * c.m31
      - a.m13 * c.m12 * c.m23 * c.m31 + b.m11 * b.m32 * c.m13 * c.m32 - a.m13 * c.m13 * c.m21 * c.m32
      - b.m11 * b.m31 * c.m23 * c.m32 + a.m13 * c.m11 * c.m23 * c.m32
      + b.m13 * (-(b.m33 * c.m12 * c.m21) + b.m33 * c.m11 * c.m22 + b.m32 * c.m12 * c.m31 - b.m31 * c.m22 * c.m31 - b.m32 * c.m11 * c.m32 + b.m31 * c.m21 * c.m32)
      - b.m11 * b.m32 * c.m12 * c.m33 + a.m13 * c.m12 * c.m21 * c.m33 + b.m11 * b.m31 * c.m22 * c.m33
      - a.m13 * c.m11 * c.m22 * c.m33
      + b.m12 * (b.m33 * c.m13 * c.m21 - b.m33 * c.m11 * c.m23 - b.m32 * c.m13 * c.m31 + b.m31 * c.m23 * c.m31 + b.m32 * c.m11 * c.m33 - b.m31 * c.m21 * c.m33))
        / (2.0 * Det(c)))
  }

  /** The linear coefficients (d, e, f) of the conic for the quadratic ones (a, b, c). */
  function CalcLowerHalf(b: Mat3, c: Mat3, a: Vec3): Vec3
    requires Det(c) != 0.0
  {
    Vec3(
      (a.x * (b.m13 * c.m13 * c.m22 - b.m13 * c.m12 * c.m23 - b.m12 * c.m13 * c.m32 + b.m11 * c.m23 * c.m32 + b.m12 * c.m12 * c.m33 - b.m11 * c.m22 * c.m33)
      + a.y * (b.m23 * c.m13 * c.m22 - b.m23 * c.m12 * c.m23 - b.m22 * c.m13 * c.m32 + b.m21 * c.m23 * c.m32 + b.m22 * c.m12 * c.m33 - b.m21 * c.m22 * c.m33)
      + a.w * (b.m33 * c.m13 * c.m22 - b.m33 * c.m12 * c.m23 - b.m32 * c.m13 * c.m32 + b.m31 * c.m23 * c.m32 + b.m32 * c.m12 * c.m33 - b.m31 * c.m22 * c.m33))
        / Det(c),
      (a.x * (-(b.m13 * c.m13 * c.m21) + b.m13 * c.m11 * c.m23 + b.m12 * c.m13 * c.m31 - b.m11 * c.m23 * c.m31 - b.m12 * c.m11 * c.m33 + b.m11 * c.m21 * c.m33)
      + a.y * (-(b.m23 * c.m13 * c.m21) + b.m23 * c.m11 * c.m23 + b.m22 * c.m13 * c.m31 - b.m21 * c.m23 * c.m31 - b.m22 * c.m11 * c.m33 + b.m21 * c.m21 * c.m33)
      + a.w * (-(b.m33 * c.m13 * c.m21) + b.m33 * c.m11 * c.m23 + b.m32 * c.m13 * c.m31 - b.m31 * c.m23 * c.m31 - b.m32 * c.m11 * c.m33 + b.m31 * c.m21 * c.m33))
        / Det(c),
      (a.x * (b.m13 * c.m12 * c.m21 - b.m13 * c.m11 * c.m22 - b.m12 * c.m12 * c.m31 + b.m11 * c.m22 * c.m31 + b.m12 * c.m11 * c.m32 - b.m11 * c.m21 * c.m32)
      + a.y * (b.m23 * c.m12 * c.m21 - b.m23 * c.m11 * c.m22 - b.m22 * c.m12 * c.m31 + b.m21 * c.m22 * c.m31 + b.m22 * c.m11 * c.m32 - b.m21 * c.m21 * c.m32)
      + a.w * (b.m33 * c.m12 * c.m21 - b.m33 * c.m11 * c.m22 - b.m32 * c.m12 * c.m31 + b.m31 * c.m22 * c.m31 + b.m32 * c.m11 * c.m32 - b.m31 * c.m21 * c.m32))
        / Det(c))
  }

  /** The constraint matrix of the ellipse condition 4ac - b^2 = 1 on (a, b, c): a^T Q a = 4ac - b^2. */
  const CONSTRAINT: Mat3 := Mat3(0.0, 0.0, 2.0, 0.0, -1.0, 0.0, 2.0, 0.0, 0.0)

  /** -Q^-1, the factor CalcTestA applies to the reduced scatter matrix. */
  const NEG_INV_CONSTRAINT: Mat3 := Mat3(0.0, 0.0, -0.5, 0.0, 1.0, 0.0, -0.5, 0.0, 0.0)

  lemma NegInvConstraint()
    ensures MatMul(CONSTRAINT, NEG_INV_CONSTRAINT) == ScaleMat(-1.0, IDENTITY)
  {
  }


  // det(C) times each entry of CalcTmpBtimesTmpE, written as the explicit sum for B adj(C) B^T,
  // and that sum written with the building blocks of MatMul and Adjugate.
  // Each entry is a lemma of its own: the identity for one entry is a polynomial
  // of degree four in eighteen variables, and keeping one per proof obligation
  // keeps each within the solver's budget; the entries together are then
  // assembled by index.

  lemma TmpBSource11(b: Mat3, c: Mat3)
    requires Det(c) != 0.0
    ensures Det(c) * CalcTmpBtimesTmpE(b, c).m11
         == (b.m11 * (c.m22 * c.m33 - c.m23 * c.m32) + b.m12 * (c.m23 * c.m31 - c.m21 * c.m33)
            + b.m13 * (c.m21 * c.m32 - c.m22 * c.m31)) * b.m11 + (b.m11 * (c.m13 * c.m32 - c.m12 * c.m33)
            + b.m12 * (c.m11 * c.m33 - c.m13 * c.m31) + b.m13 * (c.m12 * c.m31 - c.m11 * c.m32)) * b.m12
            + (b.m11 * (c.m12 * c.m23 - c.m13 * c.m22) + b.m12 * (c.m13 * c.m21 - c.m11 * c.m23)
            + b.m13 * (c.m11 * c.m22 - c.m12 * c.m21)) * b.m13
  {
  }

  lemma TmpBReference11(b: Mat3, c: Mat3)
    ensures (b.m11 * (c.m22 * c.m33 - c.m23 * c.m32) + b.m12 * (c.m23 * c.m31 - c.m21 * c.m33)
            + b.m13 * (c.m21 * c.m32 - c.m22 * c.m31)) * b.m11 + (b.m11 * (c.m13 * c.m32 - c.m12 * c.m33)
            + b.m12 * (c.m11 * c.m33 - c.m13 * c.m31) + b.m13 * (c.m12 * c.m31 - c.m11 * c.m32)) * b.m12
            + (b.m11 * (c.m12 * c.m23 - c.m13 * c.m22) + b.m12 * (c.m13 * c.m21 - c.m11 * c.m23)
            + b.m13 * (c.m11 * c.m22 - c.m12 * c.m21)) * b.m13
         == Dot3(Dot3(b.m11, b.m12, b.m13, Det2(c.m22, c.m23, c.m32, c.m33), Det2(c.m23, c.m21, c.m33, c.m31), Det2(c.m21, c.m22, c.m31, c.m32)), Dot3(b.m11, b.m12, b.m13, Det2(c.m13, c.m12, c.m33, c.m32), Det2(c.m11, c.m13, c.m31, c.m33), Det2(c.m12, c.m11, c.m32, c.m31)), Dot3(b.m11, b.m12, b.m13, Det2(c.m12, c.m13, c.m22, c.m23), Det2(c.m13, c.m11, c.m23, c.m21), Det2(c.m11, c.m12, c.m21, c.m22)), b.m11, b.m12, b.m13)
  {
  }

  lemma TmpBSource12(b: Mat3, c: Mat3)
    requires Det(c) != 0.0
    ensures Det(c) * CalcTmpBtimesTmpE(b, c).m12
         == (b.m11 * (c.m22 * c.m33 - c.m23 * c.m32) + b.m12 * (c.m23 * c.m31 - c.m21 * c.m33)
            + b.m13 * (c.m21 * c.m32 - c.m22 * c.m31)) * b.m21 + (b.m11 * (c.m13 * c.m32 - c.m12 * c.m33)
            + b.m12 * (c.m11 * c.m33 - c.m13 * c.m31) + b.m13 * (c.m12 * c.m31 - c.m11 * c.m32)) * b.m22
            + (b.m11 * (c.m12 * c.m23 - c.m13 * c.m22) + b.m12 * (c.m13 * c.m21 - c.m11 * c.m23)
            + b.m13 * (c.m11 * c.m22 - c.m12 * c.m21)) * b.m23
  {
  }

  lemma TmpBReference12(b: Mat3, c: Mat3)
    ensures (b.m11 * (c.m22 * c.m33 - c.m23 * c.m32) + b.m12 * (c.m23 * c.m31 - c.m21 * c.m33)
            + b.m13 * (c.m21 * c.m32 - c.m22 * c.m31)) * b.m21 + (b.m11 * (c.m13 * c.m32 - c.m12 * c.m33)
            + b.m12 * (c.m11 * c.m33 - c.m13 * c.m31) + b.m13 * (c.m12 * c.m31 - c.m11 * c.m32)) * b.m22
            + (b.m11 * (c.m12 * c.m23 - c.m13 * c.m22) + b.m12 * (c.m13 * c.m21 - c.m11 * c.m23)
            + b.m13 * (c.m11 * c.m22 - c.m12 * c.m21)) * b.m23
         == Dot3(Dot3(b.m11, b.m12, b.m13, Det2(c.m22, c.m23, c.m32, c.m33), Det2(c.m23, c.m21, c.m33, c.m31), Det2(c.m21, c.m22, c.m31, c.m32)), Dot3(b.m11, b.m12, b.m13, Det2(c.m13, c.m12, c.m33, c.m32), Det2(c.m11, c.m13, c.m31, c.m33), Det2(c.m12, c.m11, c.m32, c.m31)), Dot3(b.m11, b.m12, b.m13, Det2(c.m12, c.m13, c.m22, c.m23), Det2(c.m13, c.m11, c.m23, c.m21), Det2(c.m11, c.m12, c.m21, c.m22)), b.m21, b.m22, b.m23)
  {
  }

  lemma TmpBSource13(b: Mat3, c: Mat3)
    requires Det(c) != 0.0
    ensures Det(c) * CalcTmpBtimesTmpE(b, c).m13
         == (b.m11 * (c.m22 * c.m33 - c.m23 * c.m32) + b.m12 * (c.m23 * c.m31 - c.m21 * c.m33)
            + b.m13 * (c.m21 * c.m32 - c.m22 * c.m31)) * b.m31 + (b.m11 * (c.m13 * c.m32 - c.m12 * c.m33)
            + b.m12 * (c.m11 * c.m33 - c.m13 * c.m31) + b.m13 * (c.m12 * c.m31 - c.m11 * c.m32)) * b.m32
            + (b.m11 * (c.m12 * c.m23 - c.m13 * c.m22) + b.m12 * (c.m13 * c.m21 - c.m11 * c.m23)
            + b.m13 * (c.m11 * c.m22 - c.m12 * c.m21)) * b.m33
  {
  }

  lemma TmpBReference13(b: Mat3, c: Mat3)
    ensures (b.m11 * (c.m22 * c.m33 - c.m23 * c.m32) + b.m12 * (c.m23 * c.m31 - c.m21 * c.m33)
            + b.m13 * (c.m21 * c.m32 - c.m22 * c.m31)) * b.m31 + (b.m11 * (c.m13 * c.m32 - c.m12 * c.m33)
            + b.m12 * (c.m11 * c.m33 - c.m13 * c.m31) + b.m13 * (c.m12 * c.m31 - c.m11 * c.m32)) * b.m32
            + (b.m11 * (c.m12 * c.m23 - c.m13 * c.m22) + b.m12 * (c.m13 * c.m21 - c.m11 * c.m23)
            + b.m13 * (c.m11 * c.m22 - c.m12 * c.m21)) * b.m33
         == Dot3(Dot3(b.m11, b.m12, b.m13, Det2(c.m22, c.m23, c.m32, c.m33), Det2(c.m23, c.m21, c.m33, c.m31), Det2(c.m21, c.m22, c.m31, c.m32)), Dot3(b.m11, b.m12, b.m13, Det2(c.m13, c.m12, c.m33, c.m32), Det2(c.m11, c.m13, c.m31, c.m33), Det2(c.m12, c.m11, c.m32, c.m31)), Dot3(b.m11, b.m12, b.m13, Det2(c.m12, c.m13, c.m22, c.m23), Det2(c.m13, c.m11, c.m23, c.m21), Det2(c.m11, c.m12, c.m21, c.m22)), b.m31, b.m32, b.m33)
  {
  }

  lemma TmpBSource21(b: Mat3, c: Mat3)
    requires Det(c) != 0.0
    ensures Det(c) * CalcTmpBtimesTmpE(b, c).m21
         == (b.m21 * (c.m22 * c.m33 - c.m23 * c.m32) + b.m22 * (c.m23 * c.m31 - c.m21 * c.m33)
            + b.m23 * (c.m21 * c.m32 - c.m22 * c.m31)) * b.m11 + (b.m21 * (c.m13 * c.m32 - c.m12 * c.m33)
            + b.m22 * (c.m11 * c.m33 - c.m13 * c.m31) + b.m23 * (c.m12 * c.m31 - c.m11 * c.m32)) * b.m12
            + (b.m21 * (c.m12 * c.m23 - c.m13 * c.m22) + b.m22 * (c.m13 * c.m21 - c.m11 * c.m23)
            + b.m23 * (c.m11 * c.m22 - c.m12 * c.m21)) * b.m13
  {
  }

  lemma TmpBReference21(b: Mat3, c: Mat3)
    ensures (b.m21 * (c.m22 * c.m33 - c.m23 * c.m32) + b.m22 * (c.m23 * c.m31 - c.m21 * c.m33)
            + b.m23 * (c.m21 * c.m32 - c.m22 * c.m31)) * b.m11 + (b.m21 * (c.m13 * c.m32 - c.m12 * c.m33)
            + b.m22 * (c.m11 * c.m33 - c.m13 * c.m31) + b.m23 * (c.m12 * c.m31 - c.m11 * c.m32)) * b.m12
            + (b.m21 * (c.m12 * c.m23 - c.m13 * c.m22) + b.m22 * (c.m13 * c.m21 - c.m11 * c.m23)
            + b.m23 * (c.m11 * c.m22 - c.m12 * c.m21)) * b.m13
         == Dot3(Dot3(b.m21, b.m22, b.m23, Det2(c.m22, c.m23, c.m32, c.m33), Det2(c.m23, c.m21, c.m33, c.m31), Det2(c.m21, c.m22, c.m31, c.m32)), Dot3(b.m21, b.m22, b.m23, Det2(c.m13, c.m12, c.m33, c.m32), Det2(c.m11, c.m13, c.m31, c.m33), Det2(c.m12, c.m11, c.m32, c.m31)), Dot3(b.m21, b.m22, b.m23, Det2(c.m12, c.m13, c.m22, c.m23), Det2(c.m13, c.m11, c.m23, c.m21), Det2(c.m11, c.m12, c.m21, c.m22)), b.m11, b.m12, b.m13)
  {
  }

  lemma TmpBSource22(b: Mat3, c: Mat3)
    requires Det(c) != 0.0
    ensures Det(c) * CalcTmpBtimesTmpE(b, c).m22
         == (b.m21 * (c.m22 * c.m33 - c.m23 * c.m32) + b.m22 * (c.m23 * c.m31 - c.m21 * c.m33)
            + b.m23 * (c.m21 * c.m32 - c.m22 * c.m31)) * b.m21 + (b.m21 * (c.m13 * c.m32 - c.m12 * c.m33)
            + b.m22 * (c.m11 * c.m33 - c.m13 * c.m31) + b.m23 * (c.m12 * c.m31 - c.m11 * c.m32)) * b.m22
            + (b.m21 * (c.m12 * c.m23 - c.m13 * c.m22) + b.m22 * (c.m13 * c.m21 - c.m11 * c.m23)
            + b.m23 * (c.m11 * c.m22 - c.m12 * c.m21)) * b.m23
  {
  }

  lemma TmpBReference22(b: Mat3, c: Mat3)
    ensures (b.m21 * (c.m22 * c.m33 - c.m23 * c.m32) + b.m22 * (c.m23 * c.m31 - c.m21 * c.m33)
            + b.m23 * (c.m21 * c.m32 - c.m22 * c.m31)) * b.m21 + (b.m21 * (c.m13 * c.m32 - c.m12 * c.m33)
            + b.m22 * (c.m11 * c.m33 - c.m13 * c.m31) + b.m23 * (c.m12 * c.m31 - c.m11 * c.m32)) * b.m22
            + (b.m21 * (c.m12 * c.m23 - c.m13 * c.m22) + b.m22 * (c.m13 * c.m21 - c.m11 * c.m23)
            + b.m23 * (c.m11 * c.m22 - c.m12 * c.m21)) * b.m23
         == Dot3(Dot3(b.m21, b.m22, b.m23, Det2(c.m22, c.m23, c.m32, c.m33), Det2(c.m23, c.m21, c.m33, c.m31), Det2(c.m21, c.m22, c.m31, c.m32)), Dot3(b.m21, b.m22, b.m23, Det2(c.m13, c.m12, c.m33, c.m32), Det2(c.m11, c.m13, c.m31, c.m33), Det2(c.m12, c.m11, c.m32, c.m31)), Dot3(b.m21, b.m22, b.m23, Det2(c.m12, c.m13, c.m22, c.m23), Det2(c.m13, c.m11, c.m23, c.m21), Det2(c.m11, c.m12, c.m21, c.m22)), b.m21, b.m22, b.m23)
  {
  }

  lemma TmpBSource23(b: Mat3, c: Mat3)
    requires Det(c) != 0.0
    ensures Det(c) * CalcTmpBtimesTmpE(b, c).m23
         == (b.m21 * (c.m22 * c.m33 - c.m23 * c.m32) + b.m22 * (c.m23 * c.m31 - c.m21 * c.m33)
            + b.m23 * (c.m21 * c.m32 - c.m22 * c.m31)) * b.m31 + (b.m21 * (c.m13 * c.m32 - c.m12 * c.m33)
            + b.m22 * (c.m11 * c.m33 - c.m13 * c.m31) + b.m23 * (c.m12 * c.m31 - c.m11 * c.m32)) * b.m32
            + (b.m21 * (c.m12 * c.m23 - c.m13 * c.m22) + b.m22 * (c.m13 * c.m21 - c.m11 * c.m23)
            + b.m23 * (c.m11 * c.m22 - c.m12 * c.m21)) * b.m33
  {
  }

  lemma TmpBReference23(b: Mat3, c: Mat3)
    ensures (b.m21 * (c.m22 * c.m33 - c.m23 * c.m32) + b.m22 * (c.m23 * c.m31 - c.m21 * c.m33)
            + b.m23 * (c.m21 * c.m32 - c.m22 * c.m31)) * b.m31 + (b.m21 * (c.m13 * c.m32 - c.m12 * c.m33)
            + b.m22 * (c.m11 * c.m33 - c.m13 * c.m31) + b.m23 * (c.m12 * c.m31 - c.m11 * c.m32)) * b.m32
            + (b.m21 * (c.m12 * c.m23 - c.m13 * c.m22) + b.m22 * (c.m13 * c.m21 - c.m11 * c.m23)
            + b.m23 * (c.m11 * c.m22 - c.m12 * c.m21)) * b.m33
         == Dot3(Dot3(b.m21, b.m22, b.m23, Det2(c.m22, c.m23, c.m32, c.m33), Det2(c.m23, c.m21, c.m33, c.m31), Det2(c.m21, c.m22, c.m31, c.m32)), Dot3(b.m21, b.m22, b.m23, Det2(c.m13, c.m12, c.m33, c.m32), Det2(c.m11, c.m13, c.m31, c.m33), Det2(c.m12, c.m11, c.m32, c.m31)), Dot3(b.m21, b.m22, b.m23, Det2(c.m12, c.m13, c.m22, c.m23), Det2(c.m13, c.m11, c.m23, c.m21), Det2(c.m11, c.m12, c.m21, c.m22)), b.m31, b.m32, b.m33)
  {
  }

  lemma TmpBSource31(b: Mat3, c: Mat3)
    requires Det(c) != 0.0
    ensures Det(c) * CalcTmpBtimesTmpE(b, c).m31
         == (b.m31 * (c.m22 * c.m33 - c.m23 * c.m32) + b.m32 * (c.m23 * c.m31 - c.m21 * c.m33)
            + b.m33 * (c.m21 * c.m32 - c.m22 * c.m31)) * b.m11 + (b.m31 * (c.m13 * c.m32 - c.m12 * c.m33)
            + b.m32 * (c.m11 * c.m33 - c.m13 * c.m31) + b.m33 * (c.m12 * c.m31 - c.m11 * c.m32)) * b.m12
            + (b.m31 * (c.m12 * c.m23 - c.m13 * c.m22) + b.m32 * (c.m13 * c.m21 - c.m11 * c.m23)
            + b.m33 * (c.m11 * c.m22 - c.m12 * c.m21)) * b.m13
  {
  }

  lemma TmpBReference31(b: Mat3, c: Mat3)
    ensures (b.m31 * (c.m22 * c.m33 - c.m23 * c.m32) + b.m32 * (c.m23 * c.m31 - c.m21 * c.m33)
            + b.m33 * (c.m21 * c.m32 - c.m22 * c.m31)) * b.m11 + (b.m31 * (c.m13 * c.m32 - c.m12 * c.m33)
            + b.m32 * (c.m11 * c.m33 - c.m13 * c.m31) + b.m33 * (c.m12 * c.m31 - c.m11 * c.m32)) * b.m12
            + (b.m31 * (c.m12 * c.m23 - c.m13 * c.m22) + b.m32 * (c.m13 * c.m21 - c.m11 * c.m23)
            + b.m33 * (c.m11 * c.m22 - c.m12 * c.m21)) * b.m13
         == Dot3(Dot3(b.m31, b.m32, b.m33, Det2(c.m22, c.m23, c.m32, c.m33), Det2(c.m23, c.m21, c.m33, c.m31), Det2(c.m21, c.m22, c.m31, c.m32)), Dot3(b.m31, b.m32, b.m33, Det2(c.m13, c.m12, c.m33, c.m32), Det2(c.m11, c.m13, c.m31, c.m33), Det2(c.m12, c.m11, c.m32, c.m31)), Dot3(b.m31, b.m32, b.m33, Det2(c.m12, c.m13, c.m22, c.m23), Det2(c.m13, c.m11, c.m23, c.m21), Det2(c.m11, c.m12, c.m21, c.m22)), b.m11, b.m12, b.m13)
  {
  }

  lemma TmpBSource32(b: Mat3, c: Mat3)
    requires Det(c) != 0.0
    ensures Det(c) * CalcTmpBtimesTmpE(b, c).m32
         == (b.m31 * (c.m22 * c.m33 - c.m23 * c.m32) + b.m32 * (c.m23 * c.m31 - c.m21 * c.m33)
            + b.m33 * (c.m21 * c.m32 - c.m22 * c.m31)) * b.m21 + (b.m31 * (c.m13 * c.m32 - c.m12 * c.m33)
            + b.m32 * (c.m11 * c.m33 - c.m13 * c.m31) + b.m33 * (c.m12 * c.m31 - c.m11 * c.m32)) * b.m22
            + (b.m31 * (c.m12 * c.m23 - c.m13 * c.m22) + b.m32 * (c.m13 * c.m21 - c.m11 * c.m23)
            + b.m33 * (c.m11 * c.m22 - c.m12 * c.m21)) * b.m23
  {
  }

  lemma TmpBReference32(b: Mat3, c: Mat3)
    ensures (b.m31 * (c.m22 * c.m33 - c.m23 * c.m32) + b.m32 * (c.m23 * c.m31 - c.m21 * c.m33)
            + b.m33 * (c.m21 * c.m32 - c.m22 * c.m31)) * b.m21 + (b.m31 * (c.m13 * c.m32 - c.m12 * c.m33)
            + b.m32 * (c.m11 * c.m33 - c.m13 * c.m31) + b.m33 * (c.m12 * c.m31 - c.m11 * c.m32)) * b.m22
            + (b.m31 * (c.m12 * c.m23 - c.m13 * c.m22) + b.m32 * (c.m13 * c.m21 - c.m11 * c.m23)
            + b.m33 * (c.m11 * c.m22 - c.m12 * c.m21)) * b.m23
         == Dot3(Dot3(b.m31, b.m32, b.m33, Det2(c.m22, c.m23, c.m32, c.m33), Det2(c.m23, c.m21, c.m33, c.m31), Det2(c.m21, c.m22, c.m31, c.m32)), Dot3(b.m31, b.m32, b.m33, Det2(c.m13, c.m12, c.m33, c.m32), Det2(c.m11, c.m13, c.m31, c.m33), Det2(c.m12, c.m11, c.m32, c.m31)), Dot3(b.m31, b.m32, b.m33, Det2(c.m12, c.m13, c.m22, c.m23), Det2(c.m13, c.m11, c.m23, c.m21), Det2(c.m11, c.m12, c.m21, c.m22)), b.m21, b.m22, b.m23)
  {
  }

  lemma TmpBSource33(b: Mat3, c: Mat3)
    requires Det(c) != 0.0
    ensures Det(c) * CalcTmpBtimesTmpE(b, c).m33
         == (b.m31 * (c.m22 * c.m33 - c.m23 * c.m32) + b.m32 * (c.m23 * c.m31 - c.m21 * c.m33)
            + b.m33 * (c.m21 * c.m32 - c.m22 * c.m31)) * b.m31 + (b.m31 * (c.m13 * c.m32 - c.m12 * c.m33)
            + b.m32 * (c.m11 * c.m33 - c.m13 * c.m31) + b.m33 * (c.m12 * c.m31 - c.m11 * c.m32)) * b.m32
            + (b.m31 * (c.m12 * c.m23 - c.m13 * c.m22) + b.m32 * (c.m13 * c.m21 - c.m11 * c.m23)
            + b.m33 * (c.m11 * c.m22 - c.m12 * c.m21)) * b.m33
  {
  }

  lemma TmpBReference33(b: Mat3, c: Mat3)
    ensures (b.m31 * (c.m22 * c.m33 - c.m23 * c.m32) + b.m32 * (c.m23 * c.m31 - c.m21 * c.m33)
            + b.m33 * (c.m21 * c.m32 - c.m22 * c.m31)) * b.m31 + (b.m31 * (c.m13 * c.m32 - c.m12 * c.m33)
            + b.m32 * (c.m11 * c.m33 - c.m13 * c.m31) + b.m33 * (c.m12 * c.m31 - c.m11 * c.m32)) * b.m32
            + (b.m31 * (c.m12 * c.m23 - c.m13 * c.m22) + b.m32 * (c.m13 * c.m21 - c.m11 * c.m23)
            + b.m33 * (c.m11 * c.m22 - c.m12 * c.m21)) * b.m33
         == Dot3(Dot3(b.m31, b.m32, b.m33, Det2(c.m22, c.m23, c.m32, c.m33), Det2(c.m23, c.m21, c.m33, c.m31), Det2(c.m21, c.m22, c.m31, c.m32)), Dot3(b.m31, b.m32, b.m33, Det2(c.m13, c.m12, c.m33, c.m32), Det2(c.m11, c.m13, c.m31, c.m33), Det2(c.m12, c.m11, c.m32, c.m31)), Dot3(b.m31, b.m32, b.m33, Det2(c.m12, c.m13, c.m22, c.m23), Det2(c.m13, c.m11, c.m23, c.m21), Det2(c.m11, c.m12, c.m21, c.m22)), b.m31, b.m32, b.m33)
  {
  }

  /** det(C) CalcTmpBtimesTmpE(B, C) = B adj(C) B^T: with AdjugateRight, the product B C^-1 B^T. */
  lemma TmpBtimesTmpEIsBAdjBt(b: Mat3, c: Mat3)
    requires Det(c) != 0.0
    ensures ScaleMat(Det(c), CalcTmpBtimesTmpE(b, c)) == MatMul(MatMul(b, Adjugate(c)), Transpose(b))
  {
    TmpBSource11(b, c); TmpBReference11(b, c);
    TmpBSource12(b, c); TmpBReference12(b, c);
    TmpBSource13(b, c); TmpBReference13(b, c);
    TmpBSource21(b, c); TmpBReference21(b, c);
    TmpBSource22(b, c); TmpBReference22(b, c);
    TmpBSource23(b, c); TmpBReference23(b, c);
    TmpBSource31(b, c); TmpBReference31(b, c);
    TmpBSource32(b, c); TmpBReference32(b, c);
    TmpBSource33(b, c); TmpBReference33(b, c);
  }

  // Each entry of CalcTestA against the matching entry of CalcTmpBtimesTmpE,
  // one lemma per entry for the same reason as above.

  lemma TestASource11(a: Mat3, b: Mat3, c: Mat3)
    requires Det(c) != 0.0
    ensures Det(c) * CalcTestA(a, b, c).m11
         == -0.5 * (a.m31 * Det(c)
           - ((b.m31 * (c.m22 * c.m33 - c.m23 * c.m32) + b.m32 * (c.m23 * c.m31 - c.m21 * c.m33)
             + b.m33 * (c.m21 * c.m32 - c.m22 * c.m31)) * b.m11 + (b.m31 * (c.m13 * c.m32 - c.m12 * c.m33)
             + b.m32 * (c.m11 * c.m33 - c.m13 * c.m31) + b.m33 * (c.m12 * c.m31 - c.m11 * c.m32)) * b.m12
             + (b.m31 * (c.m12 * c.m23 - c.m13 * c.m22) + b.m32 * (c.m13 * c.m21 - c.m11 * c.m23)
             + b.m33 * (c.m11 * c.m22 - c.m12 * c.m21)) * b.m13))
  {
  }

  lemma TestAEntry11(a: Mat3, b: Mat3, c: Mat3)
    requires Det(c) != 0.0
    ensures CalcTestA(a, b, c).m11 == -0.5 * (a.m31 - CalcTmpBtimesTmpE(b, c).m31)
  {
    TestASource11(a, b, c);
    TmpBSource31(b, c);
  }

  lemma TestASource12(a: Mat3, b: Mat3, c: Mat3)
    requires Det(c) != 0.0
    ensures Det(c) * CalcTestA(a, b, c).m12
         == -0.5 * (a.m32 * Det(c)
           - ((b.m31 * (c.m22 * c.m33 - c.m23 * c.m32) + b.m32 * (c.m23 * c.m31 - c.m21 * c.m33)
             + b.m33 * (c.m21 * c.m32 - c.m22 * c.m31)) * b.m21 + (b.m31 * (c.m13 * c.m32 - c.m12 * c.m33)
             + b.m32 * (c.m11 * c.m33 - c.m13 * c.m31) + b.m33 * (c.m12 * c.m31 - c.m11 * c.m32)) * b.m22
             + (b.m31 * (c.m12 * c.m23 - c.m13 * c.m22) + b.m32 * (c.m13 * c.m21 - c.m11 * c.m23)
             + b.m33 * (c.m11 * c.m22 - c.m12 * c.m21)) * b.m23))
  {
  }

  lemma TestAEntry12(a: Mat3, b: Mat3, c: Mat3)
    requires Det(c) != 0.0
    ensures CalcTestA(a, b, c).m12 == -0.5 * (a.m32 - CalcTmpBtimesTmpE(b, c).m32)
  {
    TestASource12(a, b, c);
    TmpBSource32(b, c);
  }

  lemma TestASource13(a: Mat3, b: Mat3, c: Mat3)
    requires Det(c) != 0.0
    ensures Det(c) * CalcTestA(a, b, c).m13
         == -0.5 * (a.m33 * Det(c)
           - ((b.m31 * (c.m22 * c.m33 - c.m23 * c.m32) + b.m32 * (c.m23 * c.m31 - c.m21 * c.m33)
             + b.m33 * (c.m21 * c.m32 - c.m22 * c.m31)) * b.m31 + (b.m31 * (c.m13 * c.m32 - c.m12 * c.m33)
             + b.m32 * (c.m11 * c.m33 - c.m13 * c.m31) + b.m33 * (c.m12 * c.m31 - c.m11 * c.m32)) * b.m32
             + (b.m31 * (c.m12 * c.m23 - c.m13 * c.m22) + b.m32 * (c.m13 * c.m21 - c.m11 * c.m23)
             + b.m33 * (c.m11 * c.m22 - c.m12 * c.m21)) * b.m33))
  {
  }

  lemma TestAEntry13(a: Mat3, b: Mat3, c: Mat3)
    requires Det(c) != 0.0
    ensures CalcTestA(a, b, c).m13 == -0.5 * (a.m33 - CalcTmpBtimesTmpE(b, c).m33)
  {
    TestASource13(a, b, c);
    TmpBSource33(b, c);
  }

  lemma TestASource21(a: Mat3, b: Mat3, c: Mat3)
    requires Det(c) != 0.0
    ensures Det(c) * CalcTestA(a, b, c).m21
         == a.m21 * Det(c)
         - ((b.m21 * (c.m22 * c.m33 - c.m23 * c.m32) + b.m22 * (c.m23 * c.m31 - c.m21 * c.m33)
           + b.m23 * (c.m21 * c.m32 - c.m22 * c.m31)) * b.m11 + (b.m21 * (c.m13 * c.m32 - c.m12 * c.m33)
           + b.m22 * (c.m11 * c.m33 - c.m13 * c.m31) + b.m23 * (c.m12 * c.m31 - c.m11 * c.m32)) * b.m12
           + (b.m21 * (c.m12 * c.m23 - c.m13 * c.m22) + b.m22 * (c.m13 * c.m21 - c.m11 * c.m23)
           + b.m23 * (c.m11 * c.m22 - c.m12 * c.m21)) * b.m13)
  {
  }

  lemma TestAEntry21(a: Mat3, b: Mat3, c: Mat3)
    requires Det(c) != 0.0
    ensures CalcTestA(a, b, c).m21 == a.m21 - CalcTmpBtimesTmpE(b, c).m21
  {
    TestASource21(a, b, c);
    TmpBSource21(b, c);
  }

  lemma TestASource22(a: Mat3, b: Mat3, c: Mat3)
    requires Det(c) != 0.0
    ensures Det(c) * CalcTestA(a, b, c).m22
         == a.m22 * Det(c)
         - ((b.m21 * (c.m22 * c.m33 - c.m23 * c.m32) + b.m22 * (c.m23 * c.m31 - c.m21 * c.m33)
           + b.m23 * (c.m21 * c.m32 - c.m22 * c.m31)) * b.m21 + (b.m21 * (c.m13 * c.m32 - c.m12 * c.m33)
           + b.m22 * (c.m11 * c.m33 - c.m13 * c.m31) + b.m23 * (c.m12 * c.m31 - c.m11 * c.m32)) * b.m22
           + (b.m21 * (c.m12 * c.m23 - c.m13 * c.m22) + b.m22 * (c.m13 * c.m21 - c.m11 * c.m23)
           + b.m23 * (c.m11 * c.m22 - c.m12 * c.m21)) * b.m23)
  {
  }

  lemma TestAEntry22(a: Mat3, b: Mat3, c: Mat3)
    requires Det(c) != 0.0
    ensures CalcTestA(a, b, c).m22 == a.m22 - CalcTmpBtimesTmpE(b, c).m22
  {
    TestASource22(a, b, c);
    TmpBSource22(b, c);
  }

  lemma TestASource23(a: Mat3, b: Mat3, c: Mat3)
    requires Det(c) != 0.0
    ensures Det(c) * CalcTestA(a, b, c).m23
         == a.m23 * Det(c)
         - ((b.m21 * (c.m22 * c.m33 - c.m23 * c.m32) + b.m22 * (c.m23 * c.m31 - c.m21 * c.m33)
           + b.m23 * (c.m21 * c.m32 - c.m22 * c.m31)) * b.m31 + (b.m21 * (c.m13 * c.m32 - c.m12 * c.m33)
           + b.m22 * (c.m11 * c.m33 - c.m13 * c.m31) + b.m23 * (c.m12 * c.m31 - c.m11 * c.m32)) * b.m32
           + (b.m21 * (c.m12 * c.m23 - c.m13 * c.m22) + b.m22 * (c.m13 * c.m21 - c.m11 * c.m23)
           + b.m23 * (c.m11 * c.m22 - c.m12 * c.m21)) * b.m33)
  {
  }

  lemma TestAEntry23(a: Mat3, b: Mat3, c: Mat3)
    requires Det(c) != 0.0
    ensures CalcTestA(a, b, c).m23 == a.m23 - CalcTmpBtimesTmpE(b, c).m23
  {
    TestASource23(a, b, c);
    TmpBSource23(b, c);
  }

  lemma TestASource31(a: Mat3, b: Mat3, c: Mat3)
    requires Det(c) != 0.0
    ensures Det(c) * CalcTestA(a, b, c).m31
         == -0.5 * (a.m11 * Det(c)
           - ((b.m11 * (c.m22 * c.m33 - c.m23 * c.m32) + b.m12 * (c.m23 * c.m31 - c.m21 * c.m33)
             + b.m13 * (c.m21 * c.m32 - c.m22 * c.m31)) * b.m11 + (b.m11 * (c.m13 * c.m32 - c.m12 * c.m33)
             + b.m12 * (c.m11 * c.m33 - c.m13 * c.m31) + b.m13 * (c.m12 * c.m31 - c.m11 * c.m32)) * b.m12
             + (b.m11 * (c.m12 * c.m23 - c.m13 * c.m22) + b.m12 * (c.m13 * c.m21 - c.m11 * c.m23)
             + b.m13 * (c.m11 * c.m22 - c.m12 * c.m21)) * b.m13))
  {
  }

  lemma TestAEntry31(a: Mat3, b: Mat3, c: Mat3)
    requires Det(c) != 0.0
    ensures CalcTestA(a, b, c).m31 == -0.5 * (a.m11 - CalcTmpBtimesTmpE(b, c).m11)
  {
    TestASource31(a, b, c);
    TmpBSource11(b, c);
  }

  lemma TestASource32(a: Mat3, b: Mat3, c: Mat3)
    requires Det(c) != 0.0
    ensures Det(c) * CalcTestA(a, b, c).m32
         == -0.5 * (a.m12 * Det(c)
           - ((b.m11 * (c.m22 * c.m33 - c.m23 * c.m32) + b.m12 * (c.m23 * c.m31 - c.m21 * c.m33)
             + b.m13 * (c.m21 * c.m32 - c.m22 * c.m31)) * b.m21 + (b.m11 * (c.m13 * c.m32 - c.m12 * c.m33)
             + b.m12 * (c.m11 * c.m33 - c.m13 * c.m31) + b.m13 * (c.m12 * c.m31 - c.m11 * c.m32)) * b.m22
             + (b.m11 * (c.m12 * c.m23 - c.m13 * c.m22) + b.m12 * (c.m13 * c.m21 - c.m11 * c.m23)
             + b.m13 * (c.m11 * c.m22 - c.m12 * c.m21)) * b.m23))
  {
  }

  lemma TestAEntry32(a: Mat3, b: Mat3, c: Mat3)
    requires Det(c) != 0.0
    ensures CalcTestA(a, b, c).m32 == -0.5 * (a.m12 - CalcTmpBtimesTmpE(b, c).m12)
  {
    TestASource32(a, b, c);
    TmpBSource12(b, c);
  }

  lemma TestASource33(a: Mat3, b: Mat3, c: Mat3)
    requires Det(c) != 0.0
    ensures Det(c) * CalcTestA(a, b, c).m33
         == -0.5 * (a.m13 * Det(c)
           - ((b.m11 * (c.m22 * c.m33 - c.m23 * c.m32) + b.m12 * (c.m23 * c.m31 - c.m21 * c.m33)
             + b.m13 * (c.m21 * c.m32 - c.m22 * c.m31)) * b.m31 + (b.m11 * (c.m13 * c.m32 - c.m12 * c.m33)
             + b.m12 * (c.m11 * c.m33 - c.m13 * c.m31) + b.m13 * (c.m12 * c.m31 - c.m11 * c.m32)) * b.m32
             + (b.m11 * (c.m12 * c.m23 - c.m13 * c.m22) + b.m12 * (c.m13 * c.m21 - c.m11 * c.m23)
             + b.m13 * (c.m11 * c.m22 - c.m12 * c.m21)) * b.m33))
  {
  }

  lemma TestAEntry33(a: Mat3, b: Mat3, c: Mat3)
    requires Det(c) != 0.0
    ensures CalcTestA(a, b, c).m33 == -0.5 * (a.m13 - CalcTmpBtimesTmpE(b, c).m13)
  {
    TestASource33(a, b, c);
    TmpBSource13(b, c);
  }

  /** CalcTestA(A, B, C) = -Q^-1 (A - B C^-1 B^T), with B C^-1 B^T as computed by CalcTmpBtimesTmpE. */
  lemma TestAIsReducedScatter(a: Mat3, b: Mat3, c: Mat3)
    requires Det(c) != 0.0
    ensures CalcTestA(a, b, c) == MatMul(NEG_INV_CONSTRAINT, SubMat(a, CalcTmpBtimesTmpE(b, c)))
  {
    TestAEntry11(a, b, c); TestAEntry12(a, b, c); TestAEntry13(a, b, c);
    TestAEntry21(a, b, c); TestAEntry22(a, b, c); TestAEntry23(a, b, c);
    TestAEntry31(a, b, c); TestAEntry32(a, b, c); TestAEntry33(a, b, c);
  }

  /** Cancels det(C) from C y = -B^T a once det(C) y = -adj(C) B^T a and C adj(C) = det(C) I are known. */
  lemma CancelDet(d: real, c1: real, c2: real, c3: real, y1: real, y2: real, y3: real, u1: real, u2: real, u3: real, r: real)
    requires d != 0.0 && d * y1 == -u1 && d * y2 == -u2 && d * y3 == -u3
    requires Dot3(c1, c2, c3, u1, u2, u3) == d * r
    ensures Dot3(c1, c2, c3, y1, y2, y3) == -r
  {
  }


  // det(C) times each component of CalcLowerHalf, as the explicit sum for -adj(C) B^T a,
  // one lemma per component for the same reason.

  lemma LowerSource1(b: Mat3, c: Mat3, a: Vec3)
    requires Det(c) != 0.0
    ensures Det(c) * CalcLowerHalf(b, c, a).x
         == -((c.m22 * c.m33 - c.m23 * c.m32) * (b.m11 * a.x + b.m21 * a.y + b.m31 * a.w) + (c.m13 * c.m32
              - c.m12 * c.m33) * (b.m12 * a.x + b.m22 * a.y + b.m32 * a.w) + (c.m12 * c.m23 - c.m13 * c.m22) * (b.m13 * a.x
              + b.m23 * a.y + b.m33 * a.w))
  {
  }

  lemma LowerReference1(b: Mat3, c: Mat3, a: Vec3)
    ensures (c.m22 * c.m33 - c.m23 * c.m32) * (b.m11 * a.x + b.m21 * a.y + b.m31 * a.w) + (c.m13 * c.m32
            - c.m12 * c.m33) * (b.m12 * a.x + b.m22 * a.y + b.m32 * a.w) + (c.m12 * c.m23 - c.m13 * c.m22) * (b.m13 * a.x
            + b.m23 * a.y + b.m33 * a.w)
         == MulVec(Adjugate(c), MulVec(Transpose(b), a)).x
  {
  }

  lemma LowerSource2(b: Mat3, c: Mat3, a: Vec3)
    requires Det(c) != 0.0
    ensures Det(c) * CalcLowerHalf(b, c, a).y
         == -((c.m23 * c.m31 - c.m21 * c.m33) * (b.m11 * a.x + b.m21 * a.y + b.m31 * a.w) + (c.m11 * c.m33
              - c.m13 * c.m31) * (b.m12 * a.x + b.m22 * a.y + b.m32 * a.w) + (c.m13 * c.m21 - c.m11 * c.m23) * (b.m13 * a.x
              + b.m23 * a.y + b.m33 * a.w))
  {
  }

  lemma LowerReference2(b: Mat3, c: Mat3, a: Vec3)
    ensures (c.m23 * c.m31 - c.m21 * c.m33) * (b.m11 * a.x + b.m21 * a.y + b.m31 * a.w) + (c.m11 * c.m33
            - c.m13 * c.m31) * (b.m12 * a.x + b.m22 * a.y + b.m32 * a.w) + (c.m13 * c.m21 - c.m11 * c.m23) * (b.m13 * a.x
            + b.m23 * a.y + b.m33 * a.w)
         == MulVec(Adjugate(c), MulVec(Transpose(b), a)).y
  {
  }

  lemma LowerSource3(b: Mat3, c: Mat3, a: Vec3)
    requires Det(c) != 0.0
    ensures Det(c) * CalcLowerHalf(b, c, a).w
         == -((c.m21 * c.m32 - c.m22 * c.m31) * (b.m11 * a.x + b.m21 * a.y + b.m31 * a.w) + (c.m12 * c.m31
              - c.m11 * c.m32) * (b.m12 * a.x + b.m22 * a.y + b.m32 * a.w) + (c.m11 * c.m22 - c.m12 * c.m21) * (b.m13 * a.x
              + b.m23 * a.y + b.m33 * a.w))
  {
  }

  lemma LowerReference3(b: Mat3, c: Mat3, a: Vec3)
    ensures (c.m21 * c.m32 - c.m22 * c.m31) * (b.m11 * a.x + b.m21 * a.y + b.m31 * a.w) + (c.m12 * c.m31
            - c.m11 * c.m32) * (b.m12 * a.x + b.m22 * a.y + b.m32 * a.w) + (c.m11 * c.m22 - c.m12 * c.m21) * (b.m13 * a.x
            + b.m23 * a.y + b.m33 * a.w)
         == MulVec(Adjugate(c), MulVec(Transpose(b), a)).w
  {
  }

  lemma LowerEntry1(b: Mat3, c: Mat3, a: Vec3)
    requires Det(c) != 0.0
    ensures MulVec(c, CalcLowerHalf(b, c, a)).x == -MulVec(Transpose(b), a).x
  {
    var y, v := CalcLowerHalf(b, c, a), MulVec(Transpose(b), a);
    var u := MulVec(Adjugate(c), v);
    LowerSource1(b, c, a); LowerSource2(b, c, a); LowerSource3(b, c, a);
    LowerReference1(b, c, a); LowerReference2(b, c, a); LowerReference3(b, c, a);
    AdjugateRightVec1(c, v);
    CancelDet(Det(c), c.m11, c.m12, c.m13, y.x, y.y, y.w, u.x, u.y, u.w, v.x);
  }

  lemma LowerEntry2(b: Mat3, c: Mat3, a: Vec3)
    requires Det(c) != 0.0
    ensures MulVec(c, CalcLowerHalf(b, c, a)).y == -MulVec(Transpose(b), a).y
  {
    var y, v := CalcLowerHalf(b, c, a), MulVec(Transpose(b), a);
    var u := MulVec(Adjugate(c), v);
    LowerSource1(b, c, a); LowerSource2(b, c, a); LowerSource3(b, c, a);
    LowerReference1(b, c, a); LowerReference2(b, c, a); LowerReference3(b, c, a);
    AdjugateRightVec2(c, v);
    CancelDet(Det(c), c.m21, c.m22, c.m23, y.x, y.y, y.w, u.x, u.y, u.w, v.y);
  }

  lemma LowerEntry3(b: Mat3, c: Mat3, a: Vec3)
    requires Det(c) != 0.0
    ensures MulVec(c, CalcLowerHalf(b, c, a)).w == -MulVec(Transpose(b), a).w
  {
    var y, v := CalcLowerHalf(b, c, a), MulVec(Transpose(b), a);
    var u := MulVec(Adjugate(c), v);
    LowerSource1(b, c, a); LowerSource2(b, c, a); LowerSource3(b, c, a);
    LowerReference1(b, c, a); LowerReference2(b, c, a); LowerReference3(b, c, a);
    AdjugateRightVec3(c, v);
    CancelDet(Det(c), c.m31, c.m32, c.m33, y.x, y.y, y.w, u.x, u.y, u.w, v.w);
  }

  /** CalcLowerHalf(B, C, a) solves C y = -B^T a, that is y = -C^-1 B^T a. */
  lemma LowerHalfSolvesBlock(b: Mat3, c: Mat3, a: Vec3)
    requires Det(c) != 0.0
    ensures MulVec(c, CalcLowerHalf(b, c, a)) == NegVec(MulVec(Transpose(b), a))
  {
    LowerEntry1(b, c, a); LowerEntry2(b, c, a); LowerEntry3(b, c, a);
  }

  /** det(C) times CalcLowerHalf(B, C, a) is -adj(C) B^T a. */
  lemma LowerHalfIsAdjugateSolution(b: Mat3, c: Mat3, a: Vec3)
    requires Det(c) != 0.0
    ensures ScaleVec(Det(c), CalcLowerHalf(b, c, a)) == NegVec(MulVec(Adjugate(c), MulVec(Transpose(b), a)))
  {
    LowerSource1(b, c, a); LowerSource2(b, c, a); LowerSource3(b, c, a);
    LowerReference1(b, c, a); LowerReference2(b, c, a); LowerReference3(b, c, a);
  }

  /**
   * B times the lower half is minus B C^-1 B^T times the upper half: the
   * mixed block applied to y = -C^-1 B^T a gives -CalcTmpBtimesTmpE(B, C) a.
   */
  lemma MixedBlockOfLowerHalf(b: Mat3, c: Mat3, a: Vec3)
    requires Det(c) != 0.0
    ensures MulVec(b, CalcLowerHalf(b, c, a)) == NegVec(MulVec(CalcTmpBtimesTmpE(b, c), a))
  {
    LowerHalfIsAdjugateSolution(b, c, a);
    TmpBtimesTmpEIsBAdjBt(b, c);
    MixedBlockOfSolution(b, c, a, CalcLowerHalf(b, c, a), CalcTmpBtimesTmpE(b, c));
  }

  /** The same with the lower half y and the matrix t given by their defining equations. */
  lemma MixedBlockOfSolution(b: Mat3, c: Mat3, a: Vec3, y: Vec3, t: Mat3)
    requires Det(c) != 0.0
    requires ScaleVec(Det(c), y) == NegVec(MulVec(Adjugate(c), MulVec(Transpose(b), a)))
    requires ScaleMat(Det(c), t) == MatMul(MatMul(b, Adjugate(c)), Transpose(b))
    ensures MulVec(b, y) == NegVec(MulVec(t, a))
  {
    var d := Det(c);
    var u := MulVec(Transpose(b), a);
    MulVecScales(d, b, y);
    MulVecNegates(b, MulVec(Adjugate(c), u));
    MulVecOfProduct(b, Adjugate(c), u);
    MulVecOfProduct(MatMul(b, Adjugate(c)), Transpose(b), a);
    MulVecOfScaled(d, t, a);
    CancelScale(d, MulVec(b, y), MulVec(t, a));
  }

  /** d p = -(d q) with d != 0 gives p = -q. */
  lemma CancelScale(d: real, p: Vec3, q: Vec3)
    requires d != 0.0 && ScaleVec(d, p) == NegVec(ScaleVec(d, q))
    ensures p == NegVec(q)
  {
    assert d * (p.x + q.x) == 0.0 && d * (p.y + q.y) == 0.0 && d * (p.w + q.w) == 0.0;
  }
}
