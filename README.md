# Ellipse fitting core of EllipseFitPlayground, in Dafny

This project models the numeric core of EllipseFitPlayground (namespace
`EllipseUtils`) and proves properties of the model. The core has three
pieces:

- `EllipseAlgebraicParameters`: a conic a·x² + b·x·y + c·y² + d·x + e·y + f,
  the ellipse test on its discriminant, and the closed-form conic through
  five points.
- `EllipseParameters`: centre, semi-axes and angle, with the conversion from
  the six conic coefficients and the NaN-marked invalid value.
- `LeastSquareEllipseFitter`: the direct least-squares ellipse fit. It
  normalises the points, builds the design and scatter matrices, reduces
  the constrained problem to a 3 × 3 eigenproblem, rebuilds the six
  coefficients and undoes the normalisation. The helpers `radToDegree` and
  `relativeDifference` are modelled with it.

`tFloat` is modelled as `real`. `sqrt`, `atan2` and the Eigen eigensolver
become function-valued parameters. The theorems that need `sqrt` to be a
square root take that as a precondition on the parameter (`IsSquareRoot`).

Modules, one per file:

| file | module | models |
|---|---|---|
| `algebra.dfy` | `Algebra` | 3-vectors and 3 × 3 matrices (dot, cross, product, adjugate, determinant) and small sign lemmas |
| `ellipse_algebraic.dfy` | `EllipseAlgebraic` | `EllipseAlgebraicParameters`: `IsEllipse`, `FromPoints`, both `CreateFrom5Points` overloads |
| `ellipse_geometry.dfy` | `EllipseGeometry` | `EllipseParameters`: `IsValid`, `Invalid`, `FromAlgebraicParameters` |
| `ellipse_utils.dfy` | `EllipseUtils` | `radToDegree`, `relativeDifference`, `M_PI`, `M_PI_2` |
| `fit_blocks.dfy` | `FitBlocks` | `squared`, `CalcTmpBtimesTmpE`, `CalcTestA`, `CalcLowerHalf` (entry formulas as written) |
| `least_square_ellipse_fit.dfy` | `LeastSquareEllipseFit` | both point accessors, `CalcMeanMinMax` and `Fit` with their loops |
| `fit_residuals.dfy` | `FitResiduals` | why `Fit` returns an ellipse: the residuals, Dᵀ·D, and the eigenpair it selects |

`Fit` and `CalcMeanMinMax` update buffers and running variables step by
step, so they are methods with loops and invariants. Each is proved equal to
a specification function (`FitSpec`, `Mean`, `MinFrom`, `MaxFrom`,
`DesignMatrix`, `ScatterMatrix`), and the properties are proved about those
functions. The design and scatter matrices are Dafny arrays, filled in place
as the source fills its `malloc`'d buffers. The three 3 × 3 block formulas
are modelled exactly as written, entry by entry. Each is proved equal to the
matrix expression its comment names: B·C⁻¹·Bᵀ scaled by det C, then
Q·(A − B·C⁻¹·Bᵀ), then −C⁻¹·Bᵀ·a.

`FitResiduals` proves the property the fit exists for. The residual of a
point is the conic's value there, and the scatter matrix S = Dᵀ·D gives
qᵀ·S·q = Σ residual². Take an eigenvector (a, b, c) of CalcTestA for an
eigenvalue λ, completed by CalcLowerHalf. For these six coefficients
Σ residual² = λ·(b² − 4ac). Fit picks λ < 0, so b² − 4ac ≤ 0. Equality
would make every residual zero, then S·q = 0 and the eigenvector zero. So the
fitted conic is an ellipse, and denormalising keeps it one.

For a real ellipse `SemiAxisAIsMajor` shows that the field `a` of
`EllipseParameters` holds the longer semi-axis and `b` the shorter one. The
field comments at ellipseParameters.h:119-123 say the opposite (a the
semi-minor, b the semi-major axis). The model follows the code.

## Model

| member | source | states |
|---|---|---|
| EllipseUtils.RadToDegree | EllipseUtils/EllipseUtils/ellipseUtils.h:6-9 | the result r satisfies r·π = 180·angle |
| EllipseUtils.RadToDegreeLinear | EllipseUtils/EllipseUtils/ellipseUtils.h:6-9 | the conversion is linear: RadToDegree(k·x + y) = k·RadToDegree(x) + RadToDegree(y) |
| EllipseUtils.RadToDegreeLandmarks | EllipseUtils/EllipseUtils/ellipseUtils.h:6-9 | 0, π/2 and π map to 0, 90 and 180 degrees |
| EllipseUtils.RelativeDifference | EllipseUtils/EllipseUtils/ellipseUtils.h:12-15 | the result is non-negative, is zero exactly when a = b, and times abs(a) gives abs(a − b) |
| EllipseUtils.RelativeDifferenceIsRatio | EllipseUtils/EllipseUtils/ellipseUtils.h:12-15 | the relative difference equals abs(a − b) / abs(a) |
| EllipseUtils.RelativeDifferenceScaleInvariant | EllipseUtils/EllipseUtils/ellipseUtils.h:12-15 | scaling both arguments by the same non-zero k leaves the relative difference unchanged |
| EllipseAlgebraic.EvalIsHomEval | EllipseUtils/EllipseUtils/ellipseParameters.h:15-19 | lifting (x, y) to (x, y, 1) turns the homogeneous form into the conic's polynomial |
| EllipseAlgebraic.IsEllipse | EllipseUtils/EllipseUtils/ellipseParameters.h:33-36 | the test b² − 4ac < 0; when it holds, a and c have the same strict sign (a·c > 0) |
| EllipseAlgebraic.IsEllipseIffDefinite | EllipseUtils/EllipseUtils/ellipseParameters.h:33-36 | IsEllipse (b² − 4ac < 0) holds exactly when the quadratic part is definite: a·(a·x² + b·x·y + c·y²) > 0 at every (x, y) ≠ 0 |
| EllipseAlgebraic.CoefficientsArePencil | EllipseUtils/EllipseUtils/ellipseParameters.h:61-104 | the expanded coefficients aa..ff equal the pencil k·(L1·X)(g·X) − m·(L1·X)(L2·X) + n·(L2·X)(h·X) |
| EllipseAlgebraic.FromPoints | EllipseUtils/EllipseUtils/ellipseParameters.h:39-106 | the returned coefficients are the pencil of the five points built from the lines L0 = p0 × p1, L1 = p1 × p2, L2 = p2 × p3, L3 = p3 × p4 and the corner Q = L0 × L3 |
| EllipseAlgebraic.FromPointsThroughP0 | EllipseUtils/EllipseUtils/ellipseParameters.h:39-106 | the conic FromPoints returns vanishes at the first point |
| EllipseAlgebraic.FromPointsThroughP1 | EllipseUtils/EllipseUtils/ellipseParameters.h:39-106 | the conic FromPoints returns vanishes at the second point |
| EllipseAlgebraic.FromPointsThroughP2 | EllipseUtils/EllipseUtils/ellipseParameters.h:39-106 | the conic FromPoints returns vanishes at the third point |
| EllipseAlgebraic.FromPointsThroughP3 | EllipseUtils/EllipseUtils/ellipseParameters.h:39-106 | the conic FromPoints returns vanishes at the fourth point |
| EllipseAlgebraic.FromPointsThroughP4 | EllipseUtils/EllipseUtils/ellipseParameters.h:39-106 | the conic FromPoints returns vanishes at the fifth point |
| EllipseAlgebraic.FromPointsAtCorner | EllipseUtils/EllipseUtils/ellipseParameters.h:39-106 | at the corner Q = L0 × L3 the returned conic takes the value −(T014·T340)·(T341·T120)·(T013·T234), Tijk being the triple product of points i, j, k |
| EllipseAlgebraic.FromPointsNonZero | EllipseUtils/EllipseUtils/ellipseParameters.h:39-106 | when no three of the five points are collinear the conic is non-zero at Q, so the result is not the all-zero conic |
| EllipseAlgebraic.CreateFrom5Points | EllipseUtils/EllipseUtils/ellipseParameters.h:13-21 | the conic through (p1x, p1y) … (p5x, p5y) evaluates to 0 at each of the five points, and is not the all-zero conic when no three of them are collinear |
| EllipseAlgebraic.CreateFrom5PointsArray | EllipseUtils/EllipseUtils/ellipseParameters.h:23-31 | the array overload, reading x, y pairs from points[0..9], builds the same conic as the ten-coordinate overload |
| EllipseGeometry.IsValid | EllipseUtils/EllipseUtils/ellipseParameters.h:128-131 | no contract of its own: the Valid variant, the model of a non-NaN x0; its partner InvalidParameters shows the sentinel fails it |
| EllipseGeometry.InvalidParameters | EllipseUtils/EllipseUtils/ellipseParameters.h:128-139 | the Invalid sentinel is rejected by IsValid |
| EllipseGeometry.FromAlgebraicParameters | EllipseUtils/EllipseUtils/ellipseParameters.h:141-176 | the result is Invalid exactly when the conic is not an ellipse; otherwise both partial derivatives of the conic vanish at the returned centre (the semi-axes and the angle are stated by SemiAxesProduct, SemiAxesSquaredSum, SemiAxisAIsMajor and ThetaQuarterTurn) |
| EllipseGeometry.NumPositive | EllipseUtils/EllipseUtils/ellipseParameters.h:149-154 | for an ellipse the divisor num = 4ac − b² is positive |
| EllipseGeometry.Sigma | EllipseUtils/EllipseUtils/ellipseParameters.h:148-150 | no contract of its own: sigma as written; SigmaAtStationaryPoint and SigmaIsCentreValue state σ·(4ac − b²) = −4·F(centre) |
| EllipseGeometry.CentreX | EllipseUtils/EllipseUtils/ellipseParameters.h:152-153 | no contract of its own: x0 as written; CentreIsStationary and FromAlgebraicParameters state that the centre is the stationary point |
| EllipseGeometry.CentreY | EllipseUtils/EllipseUtils/ellipseParameters.h:152-154 | no contract of its own: y0 as written; CentreIsStationary and FromAlgebraicParameters state that the centre is the stationary point |
| EllipseGeometry.SemiAxisA | EllipseUtils/EllipseUtils/ellipseParameters.h:156-163 | no contract of its own: p.a as written; SemiAxesNonNegative, SemiAxesProduct, SemiAxesSquaredSum and SemiAxisAIsMajor state its properties |
| EllipseGeometry.SemiAxisB | EllipseUtils/EllipseUtils/ellipseParameters.h:156-164 | no contract of its own: p.b as written; SemiAxesNonNegative, SemiAxesProduct, SemiAxesSquaredSum and SemiAxisAIsMajor state its properties |
| EllipseGeometry.Theta | EllipseUtils/EllipseUtils/ellipseParameters.h:166-173 | no contract of its own: theta as written; ThetaQuarterTurn states when the quarter turn is added |
| EllipseGeometry.CentreIsStationary | EllipseUtils/EllipseUtils/ellipseParameters.h:152-154 | the centre ((be − 2cd)/num, (bd − 2ae)/num) solves 2a·x0 + b·y0 + d = 0 and b·x0 + 2c·y0 + e = 0 |
| EllipseGeometry.SigmaAtStationaryPoint | EllipseUtils/EllipseUtils/ellipseParameters.h:149-150 | at a stationary point of an ellipse, sigma·(4ac − b²) = −4·(the conic's value there) |
| EllipseGeometry.SigmaIsCentreValue | EllipseUtils/EllipseUtils/ellipseParameters.h:148-154 | sigma·(4ac − b²) = −4·(the conic's value at the returned centre) |
| EllipseGeometry.SigmaPositiveAtStationaryPoint | EllipseUtils/EllipseUtils/ellipseParameters.h:166-173 | sigma > 0 exactly when the conic is negative at its centre |
| EllipseGeometry.ThetaQuarterTurn | EllipseUtils/EllipseUtils/ellipseParameters.h:166-173 | theta = atan2(b, a − c)/2, plus π/2 exactly when the conic is negative at the returned centre |
| EllipseGeometry.SemiAxesNonNegative | EllipseUtils/EllipseUtils/ellipseParameters.h:163-164 | with a true square root both returned semi-axes are non-negative |
| EllipseGeometry.HalfValuesProduct | EllipseUtils/EllipseUtils/ellipseParameters.h:156-164 | abs(v1/2)·abs(v2/2) = σ²·(4ac − b²)/4 for the two values under the outer square roots |
| EllipseGeometry.AxesProductOfSigma | EllipseUtils/EllipseUtils/ellipseParameters.h:163-164 | if σ·(4ac − b²) = −4F, the semi-axes built from σ satisfy (a·b)²·(4ac − b²) = 4F² |
| EllipseGeometry.SemiAxesProductAt | EllipseUtils/EllipseUtils/ellipseParameters.h:156-164 | the semi-axes satisfy (a·b)²·(4ac − b²) = 4F², F being the conic's value at a stationary point |
| EllipseGeometry.SemiAxesProduct | EllipseUtils/EllipseUtils/ellipseParameters.h:141-176 | the conversion's a, b and centre satisfy (a·b)²·(4ac − b²) = 4·F(x0, y0)², which fixes the ellipse's area π·a·b |
| EllipseGeometry.SemiAxesSquaredSum | EllipseUtils/EllipseUtils/ellipseParameters.h:156-164 | for every ellipse, a² + b² of the returned semi-axes is abs(σ·a + σ·c) of the conic |
| EllipseGeometry.SemiAxisAIsMajor | EllipseUtils/EllipseUtils/ellipseParameters.h:141-176 | for a real ellipse (a·F(centre) < 0) the field a is at least the field b, and a² + b² = σ·a + σ·c; with SemiAxesProduct this fixes both lengths |
| FitBlocks.Squared | EllipseUtils/EllipseUtils/leastSquareEllipseFit.h:185-188 | no contract of its own: squared(f) = f·f, used in the entry formulas below |
| FitBlocks.CalcTmpBtimesTmpE | EllipseUtils/EllipseUtils/leastSquareEllipseFit.h:190-236 | no contract of its own: the nine entry formulas as written; TmpBtimesTmpEIsBAdjBt states that they are B·C⁻¹·Bᵀ |
| FitBlocks.CalcTestA | EllipseUtils/EllipseUtils/leastSquareEllipseFit.h:238-282 | no contract of its own: the nine entry formulas as written; TestAIsReducedScatter states that they are Q·(A − B·C⁻¹·Bᵀ) |
| FitBlocks.CalcLowerHalf | EllipseUtils/EllipseUtils/leastSquareEllipseFit.h:284-295 | no contract of its own: the three entry formulas as written; LowerHalfSolvesBlock and LowerHalfIsAdjugateSolution state that they solve C·l = −Bᵀ·a |
| FitBlocks.NegInvConstraint | EllipseUtils/EllipseUtils/leastSquareEllipseFit.h:240-247 | the constant [[0,0,−1/2],[0,1,0],[−1/2,0,0]] is minus the inverse of the ellipse constraint [[0,0,2],[0,−1,0],[2,0,0]] |
| FitBlocks.TmpBtimesTmpEIsBAdjBt | EllipseUtils/EllipseUtils/leastSquareEllipseFit.h:190-236 | det C · CalcTmpBtimesTmpE(B, C) = B·adj(C)·Bᵀ, i.e. the result is B·C⁻¹·Bᵀ |
| FitBlocks.TestAIsReducedScatter | EllipseUtils/EllipseUtils/leastSquareEllipseFit.h:238-282 | CalcTestA(A, B, C) = Q·(A − CalcTmpBtimesTmpE(B, C)) with Q the constant above |
| FitBlocks.LowerHalfSolvesBlock | EllipseUtils/EllipseUtils/leastSquareEllipseFit.h:284-295 | the lower half l = CalcLowerHalf(B, C, a) solves C·l = −Bᵀ·a |
| FitBlocks.LowerHalfIsAdjugateSolution | EllipseUtils/EllipseUtils/leastSquareEllipseFit.h:284-295 | det C · CalcLowerHalf(B, C, a) = −adj(C)·Bᵀ·a, i.e. the lower half is −C⁻¹·Bᵀ·a |
| FitBlocks.MixedBlockOfLowerHalf | EllipseUtils/EllipseUtils/leastSquareEllipseFit.h:190-236 | B times the lower half of a is −CalcTmpBtimesTmpE(B, C)·a, i.e. −B·C⁻¹·Bᵀ·a |
| LeastSquareEllipseFit.GetLength | EllipseUtils/EllipseUtils/leastSquareEllipseFit.h:12-64 | no contract of its own: the size of pointsX, or count; Xs and Ys state what the accessors yield |
| LeastSquareEllipseFit.GetX | EllipseUtils/EllipseUtils/leastSquareEllipseFit.h:12-64 | no contract of its own: entry index of pointsX or ptrX; Xs states what the accessor yields |
| LeastSquareEllipseFit.GetY | EllipseUtils/EllipseUtils/leastSquareEllipseFit.h:12-64 | no contract of its own: entry index of pointsY or ptrY; Ys states what the accessor yields |
| LeastSquareEllipseFit.Xs | EllipseUtils/EllipseUtils/leastSquareEllipseFit.h:12-64 | the x coordinates the accessor yields: the whole of pointsX, or the first count entries of ptrX |
| LeastSquareEllipseFit.Ys | EllipseUtils/EllipseUtils/leastSquareEllipseFit.h:12-64 | the y coordinates the accessor yields: pointsY up to the length of pointsX, or the first count entries of ptrY |
| LeastSquareEllipseFit.AccessorsAgree | EllipseUtils/EllipseUtils/leastSquareEllipseFit.h:12-64 | both accessors over the same coordinates yield the same points |
| LeastSquareEllipseFit.CalcMeanMinMax | EllipseUtils/EllipseUtils/leastSquareEllipseFit.h:160-183 | as written: the mean is the sum over the count, the minimum is folded from DBL_MAX and the maximum from numeric_limits::min() = 2⁻¹⁰²² |
| LeastSquareEllipseFit.CalcMeanMinMaxFromLowest | EllipseUtils/EllipseUtils/leastSquareEllipseFit.h:160-183 | corrected: the same loop with the maximum folded from the lowest double, −DBL_MAX |
| LeastSquareEllipseFit.MinFromIsLeast | EllipseUtils/EllipseUtils/leastSquareEllipseFit.h:162-172 | the running minimum is at most the start and every value, and it is the start or one of the values |
| LeastSquareEllipseFit.MaxFromIsGreatest | EllipseUtils/EllipseUtils/leastSquareEllipseFit.h:163-177 | the running maximum is at least the start and every value, and it is the start or one of the values |
| LeastSquareEllipseFit.MinIsLeastValue | EllipseUtils/EllipseUtils/leastSquareEllipseFit.h:162-172 | for finite values the reported minimum is a value and no value is smaller |
| LeastSquareEllipseFit.MaxFromLowestIsGreatestValue | EllipseUtils/EllipseUtils/leastSquareEllipseFit.h:163-177 | with the corrected start, for finite values the maximum is a value and no value is larger |
| LeastSquareEllipseFit.MaxFromSmallestPositiveMissesNonPositive | EllipseUtils/EllipseUtils/leastSquareEllipseFit.h:163 | as written, when no value is positive the reported maximum is 2⁻¹⁰²², which is not among the values |
| LeastSquareEllipseFit.MaxAsWrittenOnNegativeCoordinates | EllipseUtils/EllipseUtils/leastSquareEllipseFit.h:163 | for the coordinates [−3, −1] the maximum as written is 2⁻¹⁰²², while the corrected one is −1 |
| LeastSquareEllipseFit.SumBounds | EllipseUtils/EllipseUtils/leastSquareEllipseFit.h:179-182 | a sum of values in [lo, hi] lies in [n·lo, n·hi] |
| LeastSquareEllipseFit.MeanBetweenMinAndMax | EllipseUtils/EllipseUtils/leastSquareEllipseFit.h:160-183 | the mean lies between the minimum and the (corrected) maximum |
| LeastSquareEllipseFit.Normalize | EllipseUtils/EllipseUtils/leastSquareEllipseFit.h:79-81 | every coordinate u of the result is undone by mean + scale·u, and the length is kept |
| LeastSquareEllipseFit.NormalizedValueInverts | EllipseUtils/EllipseUtils/leastSquareEllipseFit.h:80-81 | normalisation is undone by mean + scale·u |
| LeastSquareEllipseFit.NormalizeInverts | EllipseUtils/EllipseUtils/leastSquareEllipseFit.h:79-81 | the same for every entry of a sequence of coordinates |
| LeastSquareEllipseFit.DesignRowEvaluates | EllipseUtils/EllipseUtils/leastSquareEllipseFit.h:82-87 | a design row (u², uv, v², u, v, 1) paired with the six coefficients is the conic's value at (u, v) |
| LeastSquareEllipseFit.DesignMatrixEntry | EllipseUtils/EllipseUtils/leastSquareEllipseFit.h:82-87 | entry k·6 + j of the design matrix is monomial j of point k |
| LeastSquareEllipseFit.StoreDesignRow | EllipseUtils/EllipseUtils/leastSquareEllipseFit.h:82-87 | the six stores write the design row of (x, y) at offset i·6 and leave every entry outside that row unchanged |
| LeastSquareEllipseFit.FillDesignMatrix | EllipseUtils/EllipseUtils/leastSquareEllipseFit.h:76-88 | the filled buffer is exactly the design matrix of the normalised points |
| LeastSquareEllipseFit.ColumnDot | EllipseUtils/EllipseUtils/leastSquareEllipseFit.h:95-101 | the inner loop's sum is column r times column c of the design matrix |
| LeastSquareEllipseFit.FillScatterRow | EllipseUtils/EllipseUtils/leastSquareEllipseFit.h:93-104 | one pass of the middle loop sets row r of the scatter matrix and leaves every other row unchanged |
| LeastSquareEllipseFit.ComputeScatter | EllipseUtils/EllipseUtils/leastSquareEllipseFit.h:90-105 | the filled 36-entry buffer is exactly the scatter matrix Dᵀ·D of the first n design rows |
| LeastSquareEllipseFit.ScatterMatrixEntry | EllipseUtils/EllipseUtils/leastSquareEllipseFit.h:103 | entry r·6 + c of the scatter matrix is column r times column c |
| LeastSquareEllipseFit.ColumnProductSymmetric | EllipseUtils/EllipseUtils/leastSquareEllipseFit.h:98-100 | column r times column c equals column c times column r |
| LeastSquareEllipseFit.ColumnProductSquares | EllipseUtils/EllipseUtils/leastSquareEllipseFit.h:98-100 | a column times itself is non-negative |
| LeastSquareEllipseFit.ScatterSymmetric | EllipseUtils/EllipseUtils/leastSquareEllipseFit.h:90-105 | the scatter matrix is symmetric and its diagonal is non-negative |
| LeastSquareEllipseFit.ConstantColumnCounts | EllipseUtils/EllipseUtils/leastSquareEllipseFit.h:87 | the constant design column sums to the number of points |
| LeastSquareEllipseFit.ScatterCountsPoints | EllipseUtils/EllipseUtils/leastSquareEllipseFit.h:87-103 | the last scatter entry (5, 5) is the number of points |
| LeastSquareEllipseFit.ScatterBlocks | EllipseUtils/EllipseUtils/leastSquareEllipseFit.h:108-111 | the blocks read at offsets 0, 3 and 21 with stride 6 give symmetric A and C, and the lower-left block is Bᵀ |
| LeastSquareEllipseFit.FirstNegative | EllipseUtils/EllipseUtils/leastSquareEllipseFit.h:128-137 | the selected index is −1 or a column index 0..2 |
| LeastSquareEllipseFit.FirstNegativeIsFirst | EllipseUtils/EllipseUtils/leastSquareEllipseFit.h:128-137 | the index is −1 exactly when no eigenvalue's real part is negative; otherwise it is the first negative one |
| LeastSquareEllipseFit.FindNegativeEigenvalue | EllipseUtils/EllipseUtils/leastSquareEllipseFit.h:128-137 | the search loop with break returns the first index with a negative eigenvalue, or −1 |
| LeastSquareEllipseFit.Denormalize | EllipseUtils/EllipseUtils/leastSquareEllipseFit.h:147-155 | no contract of its own: the six coefficient formulas as written; DenormalizeEval and DenormalizeDiscriminant state what they do to the conic |
| LeastSquareEllipseFit.DenormalizeEval | EllipseUtils/EllipseUtils/leastSquareEllipseFit.h:147-155 | the denormalised conic at (x, y) is sx²·sy² times the normalised conic at ((x − mx)/sx, (y − my)/sy) |
| LeastSquareEllipseFit.DenormalizeDiscriminant | EllipseUtils/EllipseUtils/leastSquareEllipseFit.h:147-150 | the discriminant is multiplied by (sx·sy)², so denormalising keeps an ellipse an ellipse and a non-ellipse a non-ellipse |
| LeastSquareEllipseFit.NormalizeAndScatter | EllipseUtils/EllipseUtils/leastSquareEllipseFit.h:69-105 | the means, the half ranges (max − min)/2 and the scatter buffer are those of the normalised points |
| LeastSquareEllipseFit.Fit | EllipseUtils/EllipseUtils/leastSquareEllipseFit.h:66-157 | the fit's result is FitSpec: none without a negative eigenvalue, otherwise the denormalised coefficients of the selected eigenvector and its lower half |
| LeastSquareEllipseFit.FitFailsOnlyWithoutNegativeEigenvalue | EllipseUtils/EllipseUtils/leastSquareEllipseFit.h:128-143 | the fit yields no conic exactly when every eigenvalue of the reduced matrix has a non-negative real part |
| LeastSquareEllipseFit.NormalizedFitSolvesLinearBlock | EllipseUtils/EllipseUtils/leastSquareEllipseFit.h:139-145 | in normalised coordinates (a, b, c) is the eigenvector of a negative eigenvalue and C·(d, e, f) = −Bᵀ·(a, b, c) |
| LeastSquareEllipseFit.FitUndoesNormalization | EllipseUtils/EllipseUtils/leastSquareEllipseFit.h:147-155 | the fitted conic at any (x, y) is sx²·sy² times the normalised fit at the normalised point, and it is an ellipse exactly when the normalised fit is |
| LeastSquareEllipseFit.DenormalizedFitEval | EllipseUtils/EllipseUtils/leastSquareEllipseFit.h:147-155 | the same for any coordinates and any normalised conic |
| FitResiduals.ResidualOfDesign | EllipseUtils/EllipseUtils/leastSquareEllipseFit.h:82-87 | design row k times the six coefficients is the conic's value at point k |
| FitResiduals.ResidualsAreValues | EllipseUtils/EllipseUtils/leastSquareEllipseFit.h:76-88 | over the design matrix, the sum of squared residuals is the sum of the squared conic values at the points |
| FitResiduals.SquaresNonNegative | EllipseUtils/EllipseUtils/leastSquareEllipseFit.h:90-105 | the sum of squared residuals is never negative |
| FitResiduals.ZeroSquaresZeroColumns | EllipseUtils/EllipseUtils/leastSquareEllipseFit.h:90-105 | if the squared residuals sum to zero, every residual is zero and so is every entry of Dᵀ·(D·q) |
| FitResiduals.ScatterRowTimes | EllipseUtils/EllipseUtils/leastSquareEllipseFit.h:90-105 | row r of the scatter matrix times q is column r of D weighted by the residuals: (Dᵀ·D)·q = Dᵀ·(D·q) |
| FitResiduals.ScatterQuadraticForm | EllipseUtils/EllipseUtils/leastSquareEllipseFit.h:90-105 | qᵀ·S·q for the scatter matrix S is the sum of the squared residuals |
| FitResiduals.UpperBlockRows | EllipseUtils/EllipseUtils/leastSquareEllipseFit.h:108-111 | the first three entries of S·q are A·(a, b, c) + B·(d, e, f) |
| FitResiduals.LowerBlockRows | EllipseUtils/EllipseUtils/leastSquareEllipseFit.h:108-111 | the last three entries of S·q are L·(a, b, c) + C·(d, e, f), L being the lower-left block |
| FitResiduals.QuadraticFormHalves | EllipseUtils/EllipseUtils/leastSquareEllipseFit.h:108-111 | qᵀ·S·q is (a, b, c) times the top of S·q plus (d, e, f) times the bottom |
| FitResiduals.ConstraintQuadratic | EllipseUtils/EllipseUtils/leastSquareEllipseFit.h:238-282 | if −Q⁻¹·w = λ·v for the ellipse constraint Q, then v·w = λ·(b² − 4ac) of v, and w = 0 forces λ·v = 0 |
| FitResiduals.ReducedQuadratic | EllipseUtils/EllipseUtils/leastSquareEllipseFit.h:108-145 | for an eigenpair of CalcTestA completed by CalcLowerHalf, (a, b, c) times A·(a, b, c) + B·(lower half) is λ·(b² − 4ac), and that vector is zero only if λ·(a, b, c) is |
| FitResiduals.ReducedHalves | EllipseUtils/EllipseUtils/leastSquareEllipseFit.h:108-145 | for a symmetric block matrix and such coefficients, qᵀ·S·q = λ·(b² − 4ac) |
| FitResiduals.EigenResiduals | EllipseUtils/EllipseUtils/leastSquareEllipseFit.h:90-145 | for such coefficients the sum of squared residuals is λ·(b² − 4ac), and it is zero only if λ·(a, b, c) = 0 |
| FitResiduals.EigenFitIsEllipse | EllipseUtils/EllipseUtils/leastSquareEllipseFit.h:128-145 | an eigenvector of a negative eigenvalue of CalcTestA, completed by CalcLowerHalf, gives an ellipse |
| FitResiduals.FitIsEllipse | EllipseUtils/EllipseUtils/leastSquareEllipseFit.h:66-157 | when the solver returns a true eigenpair for the first negative eigenvalue, Fit returns a conic, and it is an ellipse in normalised coordinates and after denormalisation |

## Left out

- Floating point: every tFloat is a real. Rounding, overflow, NaN and infinities are not modelled.
- Invalid is a variant of its own. The source marks an invalid EllipseParameters with quiet NaN in all five fields. IsValid tests only x0, and the variant carries no fields.
- sqrt, atan2 and abs: sqrt and atan2 are parameters. Only sqrt is constrained, by IsSquareRoot where a proof needs it. abs is the real absolute value.
- The Eigen solver is a parameter mapping the 3 × 3 matrix to three eigenvalues and three eigenvector columns, real parts only. Complex eigenpairs are not modelled.
- Fit without a negative eigenvalue: the source reads eigenvector column −1 (undefined behaviour). The model returns None, the distinguishable failure the fit is meant to report.
- Fit requires FitDefined: at least one point, non-zero half ranges in x and y, and a non-singular lower-right scatter block C. The source divides by these quantities and would produce infinities or NaN. These IEEE outcomes are not modelled.
- FitResiduals.FitIsEllipse: requires that the solver's column for the selected eigenvalue is a non-zero eigenvector of the reduced matrix for that eigenvalue. The solver is a parameter, so the model cannot derive this; rounding in Eigen is not modelled either.
- LeastSquareEllipseFit.Fit and NormalizeAndScatter: Fit uses the corrected CalcMeanMinMaxFromLowest (see Findings). The loop as written is CalcMeanMinMax.
- The tmpBtimestmpE buffer that Fit computes and never reads is computed in the model too; only its value is modelled.
- The v1 and v2 locals of FromAlgebraicParameters (ellipseParameters.h:160-161) are never read. The semi-axes recompute the same expressions, and so does the model.
- malloc and free of the work buffers are not modelled: the buffers are fresh Dafny arrays and are never released.
- The std::function getVal passed to CalcMeanMinMax is the sequence of values it would return, and size_t count is the sequence's length.
- The address-and-stride access of the block helpers (leastSquareEllipseFit.h:199-200, 249-251, 286-287) is modelled as reading the 3 × 3 blocks at offsets 0, 3 and 21 of the row-major scatter matrix.
- CreateFrom5Points: that the conic through five points with no three collinear is unique up to a non-zero factor is not proved; the model proves that it passes through the points and is not the all-zero conic.
- SemiAxisAIsMajor: the order of the semi-axes is proved for real ellipses only (a·F(centre) < 0). For an empty or one-point "ellipse" the source still returns square roots of absolute values, and no order is stated for them.
- 4ac − b² is proved positive for every ellipse (NumPositive); the code divides by it after the ellipse test either way.

## Findings

| source | as written | input that shows it | evidently intended | confidence | as-written member | corrected member |
|---|---|---|---|---|---|---|
| EllipseUtils/EllipseUtils/leastSquareEllipseFit.h:163 | the running maximum starts at numeric_limits<tFloat>::min(), the smallest positive normal double (2⁻¹⁰²²), not the most negative one | x coordinates [−3, −1]: the reported maxX is 2⁻¹⁰²² instead of −1, so sx = (maxX − minX)/2 is 1.5 instead of 1 | start at numeric_limits<tFloat>::lowest() (−DBL_MAX), so that the maximum is always one of the values | not executed | LeastSquareEllipseFit.CalcMeanMinMax (with LeastSquareEllipseFit.MaxAsWrittenOnNegativeCoordinates) | LeastSquareEllipseFit.CalcMeanMinMaxFromLowest (with LeastSquareEllipseFit.MaxFromLowestIsGreatestValue) |
