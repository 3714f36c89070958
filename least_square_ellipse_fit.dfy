/**
 * LeastSquareEllipseFitter: the direct least-squares ellipse fit.
 *
 * Fit normalises the points by the mean and half range of each coordinate,
 * fills the n x 6 design matrix with the monomials (u^2, uv, v^2, u, v, 1) of
 * every normalised point, forms the 6 x 6 scatter matrix D^T D, reduces it to
 * the 3 x 3 matrix of CalcTestA, takes the eigenvector of the first eigenvalue
 * with a negative real part as the quadratic coefficients, completes the
 * linear ones with CalcLowerHalf and undoes the normalisation.
 *
 * The eigen decomposition is computed by a library the model does not
 * contain; Fit takes it as a function-typed parameter.
 */
module LeastSquareEllipseFit {
  import opened Algebra
  import opened FitBlocks
  import opened EllipseAlgebraic

  datatype Option<T> = None | Some(value: T)

  // ---------------------------------------------------------------------------
  // Point accessors
  // ---------------------------------------------------------------------------

  /**
   * The two point accessors: two vectors (the length is that of the x
   * vector), or two raw arrays together with a count.
   */
  datatype PointAccessor =
    | FromTwoVectors(pointsX: seq<real>, pointsY: seq<real>)
    | FromTwoArrays(ptrX: seq<real>, ptrY: seq<real>, count: nat)

  /** Every index below GetLength can be read in both coordinates. */
  predicate WellFormed(acc: PointAccessor)
  {
    match acc
    case FromTwoVectors(xs, ys) => |xs| <= |ys|
    case FromTwoArrays(xs, ys, n) => n <= |xs| && n <= |ys|
  }

  function GetLength(acc: PointAccessor): nat
  {
    match acc
    case FromTwoVectors(xs, _) => |xs|
    case FromTwoArrays(_, _, n) => n
  }

  function GetX(acc: PointAccessor, index: nat): real
    requires WellFormed(acc) && index < GetLength(acc)
  {
    match acc
    case FromTwoVectors(xs, _) => xs[index]
    case FromTwoArrays(xs, _, _) => xs[index]
  }

  function GetY(acc: PointAccessor, index: nat): real
    requires WellFormed(acc) && index < GetLength(acc)
  {
    match acc
    case FromTwoVectors(_, ys) => ys[index]
    case FromTwoArrays(_, ys, _) => ys[index]
  }

  /**
   * The x coordinates the accessor yields, in index order: the whole x
   * vector, or the first count entries of the x array.
   */
  function Xs(acc: PointAccessor): (xs: seq<real>)
    requires WellFormed(acc)
    ensures |xs| == GetLength(acc)
    ensures acc.FromTwoVectors? ==> xs == acc.pointsX
    ensures acc.FromTwoArrays? ==> xs == acc.ptrX[..acc.count]
  {
    seq(GetLength(acc), i requires 0 <= i < GetLength(acc) => GetX(acc, i))
  }

  /**
   * The y coordinates the accessor yields, in index order: the y vector up
   * to the length of the x vector, or the first count entries of the y array.
   */
  function Ys(acc: PointAccessor): (ys: seq<real>)
    requires WellFormed(acc)
    ensures |ys| == GetLength(acc)
    ensures acc.FromTwoVectors? ==> ys == acc.pointsY[..|acc.pointsX|]
    ensures acc.FromTwoArrays? ==> ys == acc.ptrY[..acc.count]
  {
    seq(GetLength(acc), i requires 0 <= i < GetLength(acc) => GetY(acc, i))
  }

  /** Over the same storage, the two accessors yield the same points. */
  lemma AccessorsAgree(xs: seq<real>, ys: seq<real>)
    requires |xs| <= |ys|
    ensures WellFormed(FromTwoVectors(xs, ys)) && WellFormed(FromTwoArrays(xs, ys, |xs|))
    ensures Xs(FromTwoVectors(xs, ys)) == Xs(FromTwoArrays(xs, ys, |xs|))
    ensures Ys(FromTwoVectors(xs, ys)) == Ys(FromTwoArrays(xs, ys, |xs|))
  {
  }

  // ---------------------------------------------------------------------------
  // CalcMeanMinMax
  // ---------------------------------------------------------------------------

  /** numeric_limits<double>::max(), the largest finite double (2^1024 - 2^971). */
  const DBL_MAX: real := 179769313486231570814527423731704356798070567525844996598917476803157260780028538760589558632766878171540458953514382464234321326889464182768467546703537516986049910576551282076245490090389328944075868508455133942304583236903222948165808559332123348274797826204144723168738177180919299881250404026184124858368.0

  /** numeric_limits<double>::min(), the smallest positive normal double (2^-1022). */
  const DBL_MIN: real := 1.0 / 44942328371557897693232629769725618340449424473557664318357520289433168951375240783177119330601884005280028469967848339414697442203604155623211857659868531094441973356216371319075554900311523529863270738021251442209537670585615720368478277635206809290837627671146574559986811484619929076208839082406056034304.0

  /** The running sum, left to right. */
  function Sum(values: seq<real>): real
  {
    if |values| == 0 then 0.0 else Sum(values[..|values| - 1]) + values[|values| - 1]
  }

  /** The running minimum from start: a value replaces it when strictly smaller. */
  function MinFrom(start: real, values: seq<real>): real
  {
    if |values| == 0 then start
    else
      var m := MinFrom(start, values[..|values| - 1]);
      if values[|values| - 1] < m then values[|values| - 1] else m
  }

  /** The running maximum from start: a value replaces it when strictly larger. */
  function MaxFrom(start: real, values: seq<real>): real
  {
    if |values| == 0 then start
    else
      var m := MaxFrom(start, values[..|values| - 1]);
      if values[|values| - 1] > m then values[|values| - 1] else m
  }

  /** The mean of a non-empty sequence. */
  function Mean(values: seq<real>): real
    requires |values| > 0
  {
    Sum(values) / |values| as real
  }

  /** numeric_limits<double>::lowest(), the most negative finite double. */
  const DBL_LOWEST: real := -DBL_MAX

  /** Every value is a finite double in magnitude. */
  predicate Finite(values: seq<real>)
  {
    forall i :: 0 <= i < |values| ==> DBL_LOWEST <= values[i] <= DBL_MAX
  }

  /** The half range (max - min) / 2 that Fit scales each coordinate by. */
  function HalfRange(values: seq<real>): real
  {
    (MaxFrom(DBL_LOWEST, values) - MinFrom(DBL_MAX, values)) / 2.0
  }

  /**
   * CalcMeanMinMax: one pass that keeps a running minimum (from DBL_MAX), a
   * running maximum (from DBL_MIN) and a running sum, then divides the sum
   * by the count.
   */
  method CalcMeanMinMax(values: seq<real>) returns (mean: real, min: real, max: real)
    requires |values| > 0
    ensures mean == Mean(values)
    ensures min == MinFrom(DBL_MAX, values)
    ensures max == MaxFrom(DBL_MIN, values)
  {
    min := DBL_MAX;
    max := DBL_MIN;
    mean := 0.0;
    var i := 0;
    while i < |values|
      invariant 0 <= i <= |values|
      invariant min == MinFrom(DBL_MAX, values[..i])
      invariant max == MaxFrom(DBL_MIN, values[..i])
      invariant mean == Sum(values[..i])
    {
      var value := values[i];
      assert values[..i + 1][..i] == values[..i];
      if value < min {
        min := value;
      }
      if value > max {
        max := value;
      }
      mean := mean + value;
      i := i + 1;
    }
    assert values[..i] == values;
    mean := mean / |values| as real;
  }

  /**
   * CalcMeanMinMax with the running maximum started at the lowest double,
   * as the maximum is evidently meant to be; Fit uses this one.
   */
  method CalcMeanMinMaxFromLowest(values: seq<real>) returns (mean: real, min: real, max: real)
    requires |values| > 0
    ensures mean == Mean(values)
    ensures min == MinFrom(DBL_MAX, values)
    ensures max == MaxFrom(DBL_LOWEST, values)
  {
    min := DBL_MAX;
    max := DBL_LOWEST;
    mean := 0.0;
    var i := 0;
    while i < |values|
      invariant 0 <= i <= |values|
      invariant min == MinFrom(DBL_MAX, values[..i])
      invariant max == MaxFrom(DBL_LOWEST, values[..i])
      invariant mean == Sum(values[..i])
    {
      var value := values[i];
      assert values[..i + 1][..i] == values[..i];
      if value < min {
        min := value;
      }
      if value > max {
        max := value;
      }
      mean := mean + value;
      i := i + 1;
    }
    assert values[..i] == values;
    mean := mean / |values| as real;
  }

  /** The running minimum is the least of start and the values. */
  lemma {:induction false} MinFromIsLeast(start: real, values: seq<real>)
    ensures MinFrom(start, values) <= start
    ensures forall i :: 0 <= i < |values| ==> MinFrom(start, values) <= values[i]
    ensures MinFrom(start, values) == start || MinFrom(start, values) in values
  {
    if |values| > 0 {
      var init := values[..|values| - 1];
      MinFromIsLeast(start, init);
      forall i | 0 <= i < |values| - 1
        ensures values[i] == init[i]
      {
      }
    }
  }

  /** The running maximum is the greatest of start and the values. */
  lemma {:induction false} MaxFromIsGreatest(start: real, values: seq<real>)
    ensures MaxFrom(start, values) >= start
    ensures forall i :: 0 <= i < |values| ==> MaxFrom(start, values) >= values[i]
    ensures MaxFrom(start, values) == start || MaxFrom(start, values) in values
  {
    if |values| > 0 {
      var init := values[..|values| - 1];
      MaxFromIsGreatest(start, init);
      forall i | 0 <= i < |values| - 1
        ensures values[i] == init[i]
      {
      }
    }
  }

  /** For finite values, the minimum CalcMeanMinMax reports is the least value. */
  lemma MinIsLeastValue(values: seq<real>)
    requires |values| > 0 && Finite(values)
    ensures MinFrom(DBL_MAX, values) in values
    ensures forall i :: 0 <= i < |values| ==> MinFrom(DBL_MAX, values) <= values[i]
  {
    MinFromIsLeast(DBL_MAX, values);
    assert values[0] <= DBL_MAX;
  }

  /** For finite values, the maximum started at the lowest double is the greatest value. */
  lemma MaxFromLowestIsGreatestValue(values: seq<real>)
    requires |values| > 0 && Finite(values)
    ensures MaxFrom(DBL_LOWEST, values) in values
    ensures forall i :: 0 <= i < |values| ==> MaxFrom(DBL_LOWEST, values) >= values[i]
  {
    MaxFromIsGreatest(DBL_LOWEST, values);
    assert values[0] >= DBL_LOWEST;
  }

  /**
   * The maximum as written starts at the smallest positive double, so when no
   * value reaches it the reported maximum is not a value at all.
   */
  lemma MaxFromSmallestPositiveMissesNonPositive(values: seq<real>)
    requires forall i :: 0 <= i < |values| ==> values[i] <= 0.0
    ensures MaxFrom(DBL_MIN, values) == DBL_MIN
    ensures MaxFrom(DBL_MIN, values) !in values
  {
    MaxFromIsGreatest(DBL_MIN, values);
  }

  /** The concrete case: for the coordinates -3 and -1 the maximum as written is 2^-1022, not -1. */
  lemma MaxAsWrittenOnNegativeCoordinates()
    ensures MaxFrom(DBL_MIN, [-3.0, -1.0]) == DBL_MIN
    ensures MaxFrom(DBL_LOWEST, [-3.0, -1.0]) == -1.0
  {
    MaxFromSmallestPositiveMissesNonPositive([-3.0, -1.0]);
    MaxFromLowestIsGreatestValue([-3.0, -1.0]);
  }

  /** A sum of values none of which is below m is at least |values| * m; likewise above. */
  lemma {:induction false} SumBounds(values: seq<real>, lo: real, hi: real)
    requires forall i :: 0 <= i < |values| ==> lo <= values[i] <= hi
    ensures |values| as real * lo <= Sum(values) <= |values| as real * hi
  {
    if |values| > 0 {
      var init := values[..|values| - 1];
      SumBounds(init, lo, hi);
    }
  }

  /** The mean of values between lo and hi lies between lo and hi. */
  lemma MeanBetweenBounds(values: seq<real>, lo: real, hi: real)
    requires |values| > 0
    requires forall i :: 0 <= i < |values| ==> lo <= values[i] <= hi
    ensures lo <= Mean(values) <= hi
  {
    SumBounds(values, lo, hi);
    MeanScaled(Sum(values), |values| as real, lo, hi);
  }

  /** The mean lies between the minimum and the maximum. */
  lemma MeanBetweenMinAndMax(values: seq<real>)
    requires |values| > 0
    ensures MinFrom(DBL_MAX, values) <= Mean(values) <= MaxFrom(DBL_LOWEST, values)
  {
    MinFromIsLeast(DBL_MAX, values);
    MaxFromIsGreatest(DBL_LOWEST, values);
    MeanBetweenBounds(values, MinFrom(DBL_MAX, values), MaxFrom(DBL_LOWEST, values));
  }

  /** n lo <= s <= n hi with n > 0 gives lo <= s / n <= hi. */
  lemma MeanScaled(s: real, n: real, lo: real, hi: real)
    requires n > 0.0 && n * lo <= s <= n * hi
    ensures lo <= s / n <= hi
  {
    var m := s / n;
    QuotientTimesDivisor(s, n, m);
    NonNegativeFactor(m - lo, n, (m - lo) * n);
    NonNegativeFactor(hi - m, n, (hi - m) * n);
  }

  /** p n >= 0 with n > 0 gives p >= 0. */
  lemma NonNegativeFactor(p: real, n: real, pn: real)
    requires n > 0.0 && pn == p * n && pn >= 0.0
    ensures p >= 0.0
  {
  }

  // ---------------------------------------------------------------------------
  // Design matrix
  // ---------------------------------------------------------------------------

  /** Each value shifted by mean and divided by scale. */
  function Normalize(values: seq<real>, mean: real, scale: real): (r: seq<real>)
    requires scale != 0.0
    ensures |r| == |values|
    ensures forall i :: 0 <= i < |r| ==> r[i] == NormalizedValue(values[i], mean, scale)
    ensures forall i :: 0 <= i < |r| ==> mean + scale * r[i] == values[i]
  {
    NormalizeInverts(values, mean, scale);
    seq(|values|, i requires 0 <= i < |values| => NormalizedValue(values[i], mean, scale))
  }

  /** (value - mean) / scale. */
  function NormalizedValue(value: real, mean: real, scale: real): real
    requires scale != 0.0
  {
    (value - mean) / scale
  }

  /** Normalisation is undone by value = mean + scale * u. */
  lemma NormalizedValueInverts(value: real, mean: real, scale: real)
    requires scale != 0.0
    ensures mean + scale * NormalizedValue(value, mean, scale) == value
  {
    QuotientTimesDivisor(value - mean, scale, NormalizedValue(value, mean, scale));
  }

  /** Every normalised value is undone by value = mean + scale * u. */
  lemma NormalizeInverts(values: seq<real>, mean: real, scale: real)
    requires scale != 0.0
    ensures forall i :: 0 <= i < |values| ==> mean + scale * NormalizedValue(values[i], mean, scale) == values[i]
  {
    forall i | 0 <= i < |values|
      ensures mean + scale * NormalizedValue(values[i], mean, scale) == values[i]
    {
      NormalizedValueInverts(values[i], mean, scale);
    }
  }

  /** The design row of a normalised point: the six monomials in coefficient order. */
  function DesignRow(u: real, v: real): seq<real>
  {
    [u * u, u * v, v * v, u, v, 1.0]
  }

  /** A row paired with six coefficients. */
  function RowDot(row: seq<real>, q: AlgebraicParameters): real
    requires |row| == 6
  {
    row[0] * q.a + row[1] * q.b + row[2] * q.c + row[3] * q.d + row[4] * q.e + row[5] * q.f
  }

  /** A design row paired with the coefficients is the conic's polynomial at the point. */
  lemma DesignRowEvaluates(u: real, v: real, q: AlgebraicParameters)
    ensures RowDot(DesignRow(u, v), q) == Eval(q, u, v)
  {
  }

  /** Six entries holding the monomials of (u, v) in order are its design row. */
  lemma DesignRowFromEntries(row: seq<real>, u: real, v: real)
    requires |row| == 6
    requires row[0] == u * u && row[1] == u * v && row[2] == v * v
    requires row[3] == u && row[4] == v && row[5] == 1.0
    ensures row == DesignRow(u, v)
  {
  }

  /** The design matrix of the points (us[k], vs[k]): their design rows one after another. */
  function DesignMatrix(us: seq<real>, vs: seq<real>): (d: seq<real>)
    requires |us| == |vs|
    ensures |d| == |us| * 6
  {
    if |us| == 0 then []
    else DesignMatrix(us[..|us| - 1], vs[..|vs| - 1]) + DesignRow(us[|us| - 1], vs[|vs| - 1])
  }

  /** Entry j of row k of the design matrix is monomial j of point k. */
  lemma {:induction false} DesignMatrixEntry(us: seq<real>, vs: seq<real>, k: nat, j: nat)
    requires |us| == |vs| && k < |us| && j < 6
    ensures DesignMatrix(us, vs)[k * 6 + j] == DesignRow(us[k], vs[k])[j]
  {
    var n := |us| - 1;
    if k < n {
      DesignMatrixEntry(us[..n], vs[..n], k, j);
    }
  }

  /** The design matrix of the first i + 1 points extends that of the first i by one row. */
  lemma DesignMatrixExtend(us: seq<real>, vs: seq<real>, i: nat)
    requires |us| == |vs| && i < |us|
    ensures DesignMatrix(us[..i + 1], vs[..i + 1]) == DesignMatrix(us[..i], vs[..i]) + DesignRow(us[i], vs[i])
  {
    assert us[..i + 1][..i] == us[..i] && vs[..i + 1][..i] == vs[..i];
  }

  /** A buffer holding the rows of the first i points and then row i holds the rows of the first i + 1. */
  lemma DesignPrefixStep(m: seq<real>, us: seq<real>, vs: seq<real>, i: nat, x: real, y: real)
    requires |us| == |vs| && i < |us| && x == us[i] && y == vs[i] && i * 6 + 6 <= |m|
    requires m[..i * 6] == DesignMatrix(us[..i], vs[..i])
    requires m[i * 6..i * 6 + 6] == DesignRow(x, y)
    ensures m[..(i + 1) * 6] == DesignMatrix(us[..i + 1], vs[..i + 1])
  {
    assert m[..(i + 1) * 6] == m[..i * 6] + m[i * 6..i * 6 + 6];
    DesignMatrixExtend(us, vs, i);
  }

  /** The six stores of one loop iteration: row i becomes the monomials of (x, y). */
  method StoreDesignRow(designM: array<real>, i: nat, x: real, y: real)
    requires i * 6 + 6 <= designM.Length
    modifies designM
    ensures designM[..i * 6] == old(designM[..i * 6])
    ensures designM[i * 6..i * 6 + 6] == DesignRow(x, y)
    ensures designM[i * 6 + 6..] == old(designM[i * 6 + 6..])
  {
    designM[i * 6 + 0] := x * x;
    designM[i * 6 + 1] := x * y;
    designM[i * 6 + 2] := y * y;
    designM[i * 6 + 3] := x;
    designM[i * 6 + 4] := y;
    designM[i * 6 + 5] := 1.0;
    DesignRowFromEntries(designM[i * 6..i * 6 + 6], x, y);
  }

  /**
   * The design-matrix loop of Fit: reads every point through the accessor,
   * normalises it by (mx, sx) and (my, sy) and writes its six monomials.
   */
  method FillDesignMatrix(acc: PointAccessor, mx: real, my: real, sx: real, sy: real)
    returns (designM: array<real>)
    requires WellFormed(acc) && sx != 0.0 && sy != 0.0
    ensures fresh(designM)
    ensures designM[..] == DesignMatrix(Normalize(Xs(acc), mx, sx), Normalize(Ys(acc), my, sy))
  {
    var n := GetLength(acc);
    ghost var us := Normalize(Xs(acc), mx, sx);
    ghost var vs := Normalize(Ys(acc), my, sy);
    designM := new real[n * 6];
    var i := 0;
    while i < n
      invariant 0 <= i <= n
      invariant designM.Length == n * 6
      invariant designM[..i * 6] == DesignMatrix(us[..i], vs[..i])
    {
      var x := GetX(acc, i);
      var y := GetY(acc, i);
      x := (x - mx) / sx;
      y := (y - my) / sy;
      assert x == us[i] && y == vs[i];
      StoreDesignRow(designM, i, x, y);
      DesignPrefixStep(designM[..], us, vs, i, x, y);
      i := i + 1;
    }
    assert us[..n] == us && vs[..n] == vs;
    assert designM[..] == designM[..n * 6];
  }

  // ---------------------------------------------------------------------------
  // Scatter matrix
  // ---------------------------------------------------------------------------

  /** The sum over the first n rows of d of column r times column c. */
  function ColumnProduct(d: seq<real>, n: nat, r: nat, c: nat): real
    requires n * 6 <= |d| && r < 6 && c < 6
  {
    if n == 0 then 0.0
    else ColumnProduct(d, n - 1, r, c) + d[(n - 1) * 6 + r] * d[c + (n - 1) * 6]
  }

  /** Row-major index arithmetic of a 6 x 6 matrix. */
  lemma RowMajor(r: nat, c: nat)
    requires c < 6
    ensures (r * 6 + c) / 6 == r && (r * 6 + c) % 6 == c
  {
  }

  /** Every row-major index is row p / 6, column p % 6. */
  lemma RowMajorIndex(p: nat)
    ensures p == (p / 6) * 6 + p % 6 && p % 6 < 6
  {
  }

  /** The 6 x 6 scatter matrix D^T D of the first n rows of the design matrix d, row-major. */
  function ScatterMatrix(d: seq<real>, n: nat): (s: seq<real>)
    requires n * 6 <= |d|
    ensures |s| == 36
  {
    seq(36, p requires 0 <= p < 36 => ColumnProduct(d, n, p / 6, p % 6))
  }

  /** Entry (r, c) of the scatter matrix is column r times column c of the design matrix. */
  lemma ScatterMatrixEntry(d: seq<real>, n: nat, r: nat, c: nat)
    requires n * 6 <= |d| && r < 6 && c < 6
    ensures ScatterMatrix(d, n)[r * 6 + c] == ColumnProduct(d, n, r, c)
  {
    RowMajor(r, c);
  }

  /** The innermost scatter loop: column r of the design matrix times column c. */
  method ColumnDot(designM: array<real>, n: nat, r: nat, c: nat) returns (v: real)
    requires n * 6 <= designM.Length && r < 6 && c < 6
    ensures v == ColumnProduct(designM[..], n, r, c)
  {
    v := 0.0;
    var k := 0;
    while k < n
      invariant 0 <= k <= n
      invariant v == ColumnProduct(designM[..], k, r, c)
    {
      var v1 := designM[k * 6 + r];
      var v2 := designM[c + k * 6];
      v := v + v1 * v2;
      k := k + 1;
    }
  }

  /** The scatter loop of Fit: every entry (r, c) accumulates column r times column c. */
  method ComputeScatter(designM: array<real>, n: nat) returns (scatterM: array<real>)
    requires n * 6 <= designM.Length
    ensures fresh(scatterM)
    ensures scatterM[..] == ScatterMatrix(designM[..], n)
  {
    scatterM := new real[36];
    var r := 0;
    while r < 6
      invariant 0 <= r <= 6
      invariant forall i, j :: 0 <= i < r && 0 <= j < 6 ==> scatterM[i * 6 + j] == ColumnProduct(designM[..], n, i, j)
    {
      FillScatterRow(designM, n, r, scatterM);
      r := r + 1;
    }
    ScatterFromEntries(scatterM[..], designM[..], n);
  }

  /** One pass of the middle scatter loop: row r of the scatter matrix. */
  method FillScatterRow(designM: array<real>, n: nat, r: nat, scatterM: array<real>)
    requires n * 6 <= designM.Length && r < 6 && scatterM.Length == 36 && scatterM != designM
    modifies scatterM
    ensures forall j :: 0 <= j < 6 ==> scatterM[r * 6 + j] == ColumnProduct(designM[..], n, r, j)
    ensures forall p :: 0 <= p < r * 6 ==> scatterM[p] == old(scatterM[p])
    ensures forall p :: r * 6 + 6 <= p < 36 ==> scatterM[p] == old(scatterM[p])
  {
    var c := 0;
    while c < 6
      invariant 0 <= c <= 6
      invariant forall j :: 0 <= j < c ==> scatterM[r * 6 + j] == ColumnProduct(designM[..], n, r, j)
      invariant forall p :: 0 <= p < r * 6 ==> scatterM[p] == old(scatterM[p])
      invariant forall p :: r * 6 + c <= p < 36 ==> scatterM[p] == old(scatterM[p])
    {
      var v := ColumnDot(designM, n, r, c);
      scatterM[r * 6 + c] := v;
      c := c + 1;
    }
  }

  /** Thirty-six entries holding column i times column j at i * 6 + j are the scatter matrix. */
  lemma ScatterFromEntries(m: seq<real>, d: seq<real>, n: nat)
    requires |m| == 36 && n * 6 <= |d|
    requires forall i, j :: 0 <= i < 6 && 0 <= j < 6 ==> m[i * 6 + j] == ColumnProduct(d, n, i, j)
    ensures m == ScatterMatrix(d, n)
  {
    forall p | 0 <= p < 36
      ensures m[p] == ScatterMatrix(d, n)[p]
    {
      RowMajorIndex(p);
      ScatterMatrixEntry(d, n, p / 6, p % 6);
    }
  }

  /** Column r times column c is column c times column r. */
  lemma {:induction false} ColumnProductSymmetric(d: seq<real>, n: nat, r: nat, c: nat)
    requires n * 6 <= |d| && r < 6 && c < 6
    ensures ColumnProduct(d, n, r, c) == ColumnProduct(d, n, c, r)
  {
    if n > 0 {
      ColumnProductSymmetric(d, n - 1, r, c);
    }
  }

  /** A column times itself is a sum of squares. */
  lemma {:induction false} ColumnProductSquares(d: seq<real>, n: nat, r: nat)
    requires n * 6 <= |d| && r < 6
    ensures ColumnProduct(d, n, r, r) >= 0.0
  {
    if n > 0 {
      ColumnProductSquares(d, n - 1, r);
      var e := d[(n - 1) * 6 + r];
      SquareNonNegative(e, d[(n - 1) * 6 + r] * d[r + (n - 1) * 6]);
    }
  }

  /** The scatter matrix is symmetric and its diagonal is non-negative. */
  lemma ScatterSymmetric(d: seq<real>, n: nat)
    requires n * 6 <= |d|
    ensures forall r, c :: 0 <= r < 6 && 0 <= c < 6 ==>
      ScatterMatrix(d, n)[r * 6 + c] == ScatterMatrix(d, n)[c * 6 + r]
    ensures forall r :: 0 <= r < 6 ==> ScatterMatrix(d, n)[r * 6 + r] >= 0.0
  {
    forall r, c | 0 <= r < 6 && 0 <= c < 6
      ensures ScatterMatrix(d, n)[r * 6 + c] == ScatterMatrix(d, n)[c * 6 + r]
    {
      ScatterMatrixEntry(d, n, r, c);
      ScatterMatrixEntry(d, n, c, r);
      ColumnProductSymmetric(d, n, r, c);
    }
    forall r | 0 <= r < 6
      ensures ScatterMatrix(d, n)[r * 6 + r] >= 0.0
    {
      ScatterMatrixEntry(d, n, r, r);
      ColumnProductSquares(d, n, r);
    }
  }

  /** The constant column of the design matrix makes the last scatter entry the point count. */
  lemma {:induction false} ConstantColumnCounts(us: seq<real>, vs: seq<real>, k: nat)
    requires |us| == |vs| && k <= |us|
    ensures ColumnProduct(DesignMatrix(us, vs), k, 5, 5) == k as real
  {
    if k > 0 {
      ConstantColumnCounts(us, vs, k - 1);
      DesignMatrixEntry(us, vs, k - 1, 5);
    }
  }

  /** Entry (5, 5) of the scatter matrix of a design matrix is the number of points. */
  lemma ScatterCountsPoints(us: seq<real>, vs: seq<real>)
    requires |us| == |vs|
    ensures ScatterMatrix(DesignMatrix(us, vs), |us|)[35] == |us| as real
  {
    ConstantColumnCounts(us, vs, |us|);
    ScatterMatrixEntry(DesignMatrix(us, vs), |us|, 5, 5);
  }

  // ---------------------------------------------------------------------------
  // Blocks of the scatter matrix
  // ---------------------------------------------------------------------------

  /** The 3 x 3 block of a row-major 6 x 6 matrix whose top-left entry is (r0, c0). */
  function Block(s: seq<real>, r0: nat, c0: nat): (m: Mat3)
    requires |s| == 36 && r0 <= 3 && c0 <= 3
  {
    Mat3(s[r0 * 6 + c0], s[r0 * 6 + c0 + 1], s[r0 * 6 + c0 + 2],
         s[(r0 + 1) * 6 + c0], s[(r0 + 1) * 6 + c0 + 1], s[(r0 + 1) * 6 + c0 + 2],
         s[(r0 + 2) * 6 + c0], s[(r0 + 2) * 6 + c0 + 1], s[(r0 + 2) * 6 + c0 + 2])
  }

  /** The quadratic block A (the scatter matrix itself, stride 6). */
  function BlockA(s: seq<real>): Mat3
    requires |s| == 36
  {
    Block(s, 0, 0)
  }

  /** The mixed block B (scatterM + 3, stride 6). */
  function BlockB(s: seq<real>): Mat3
    requires |s| == 36
  {
    Block(s, 0, 3)
  }

  /** The linear block C (scatterM + 3 * 6 + 3, stride 6). */
  function BlockC(s: seq<real>): Mat3
    requires |s| == 36
  {
    Block(s, 3, 3)
  }

  /** For a scatter matrix, A and C are symmetric and the lower-left block is B^T. */
  lemma ScatterBlocks(d: seq<real>, n: nat)
    requires n * 6 <= |d|
    ensures Transpose(BlockA(ScatterMatrix(d, n))) == BlockA(ScatterMatrix(d, n))
    ensures Transpose(BlockC(ScatterMatrix(d, n))) == BlockC(ScatterMatrix(d, n))
    ensures Block(ScatterMatrix(d, n), 3, 0) == Transpose(BlockB(ScatterMatrix(d, n)))
  {
    ScatterSymmetric(d, n);
  }

  // ---------------------------------------------------------------------------
  // Eigenvalue selection
  // ---------------------------------------------------------------------------

  /**
   * What Fit reads from the eigen solver: the real parts of the three
   * eigenvalues and of the eigenvectors, one eigenvector per column.
   */
  datatype EigenDecomposition = EigenDecomposition(values: Vec3, vectors: Mat3)

  function Component(v: Vec3, i: nat): real
    requires i < 3
  {
    if i == 0 then v.x else if i == 1 then v.y else v.w
  }

  function Column(m: Mat3, j: nat): Vec3
    requires j < 3
  {
    if j == 0 then Vec3(m.m11, m.m21, m.m31)
    else if j == 1 then Vec3(m.m12, m.m22, m.m32)
    else Vec3(m.m13, m.m23, m.m33)
  }

  /** The index of the first negative value, or -1 when there is none. */
  function FirstNegative(values: Vec3): (index: int)
    ensures -1 <= index < 3
  {
    if values.x < 0.0 then 0
    else if values.y < 0.0 then 1
    else if values.w < 0.0 then 2
    else -1
  }

  /** FirstNegative finds the first negative component, and -1 exactly when none is negative. */
  lemma FirstNegativeIsFirst(values: Vec3)
    ensures -1 <= FirstNegative(values) < 3
    ensures FirstNegative(values) == -1 <==> forall i :: 0 <= i < 3 ==> Component(values, i) >= 0.0
    ensures FirstNegative(values) >= 0 ==>
      Component(values, FirstNegative(values)) < 0.0 &&
      forall j :: 0 <= j < FirstNegative(values) ==> Component(values, j) >= 0.0
  {
    assert Component(values, 0) == values.x;
    assert Component(values, 1) == values.y;
    assert Component(values, 2) == values.w;
  }

  /** The search loop of Fit: the first eigenvalue whose real part is negative, or -1. */
  method FindNegativeEigenvalue(values: Vec3) returns (index: int)
    ensures index == FirstNegative(values)
  {
    index := -1;
    var i := 0;
    while i < 3
      invariant 0 <= i <= 3
      invariant index == -1
      invariant forall j :: 0 <= j < i ==> Component(values, j) >= 0.0
    {
      if Component(values, i) < 0.0 {
        index := i;
        break;
      }
      i := i + 1;
    }
    FirstNegativeIsFirst(values);
  }

  // ---------------------------------------------------------------------------
  // Undoing the normalisation
  // ---------------------------------------------------------------------------

  /**
   * The coefficients of the fitted conic in the original coordinates, from
   * the coefficients q in the coordinates u = (x - mx) / sx, v = (y - my) / sy,
   * multiplied through by sx^2 sy^2.
   */
  function Denormalize(q: AlgebraicParameters, mx: real, my: real, sx: real, sy: real): AlgebraicParameters
  {
    AlgebraicParameters(
      q.a * sy * sy,
      q.b * sx * sy,
      q.c * sx * sx,
      -2.0 * q.a * sy * sy * mx - q.b * sx * sy * my + q.d * sx * sy * sy,
      -q.b * sx * sy * mx - 2.0 * q.c * sx * sx * my + q.e * sx * sx * sy,
      q.a * sy * sy * mx * mx + q.b * sx * sy * mx * my + q.c * sx * sx * my * my
        - q.d * sx * sy * sy * mx - q.e * sx * sx * sy * my
        + q.f * sx * sx * sy * sy)
  }

  /** At x = mx + sx u, y = my + sy v the denormalised conic is sx^2 sy^2 times the normalised one. */
  lemma DenormalizeEvalAt(q: AlgebraicParameters, mx: real, my: real, sx: real, sy: real, u: real, v: real)
    ensures Eval(Denormalize(q, mx, my, sx, sy), mx + sx * u, my + sy * v)
      == (sx * sx) * (sy * sy) * Eval(q, u, v)
  {
    DenormalizeEvalExpanded(q, mx, my, sx, sy, mx + sx * u, my + sy * v);
    DenormalizeEvalScalar(q.a, q.b, q.c, q.d, q.e, q.f, mx, my, sx, sy, u, v, Eval(q, u, v),
                          mx + sx * u, my + sy * v);
  }

  /** The denormalised conic's polynomial, written out in the coefficients of q. */
  lemma DenormalizeEvalExpanded(q: AlgebraicParameters, mx: real, my: real, sx: real, sy: real, x: real, y: real)
    ensures Eval(Denormalize(q, mx, my, sx, sy), x, y) ==
      (q.a * sy * sy) * (x * x) + (q.b * sx * sy) * (x * y) + (q.c * sx * sx) * (y * y)
      + (-2.0 * q.a * sy * sy * mx - q.b * sx * sy * my + q.d * sx * sy * sy) * x
      + (-q.b * sx * sy * mx - 2.0 * q.c * sx * sx * my + q.e * sx * sx * sy) * y
      + (q.a * sy * sy * mx * mx + q.b * sx * sy * mx * my + q.c * sx * sx * my * my
        - q.d * sx * sy * sy * mx - q.e * sx * sx * sy * my
        + q.f * sx * sx * sy * sy)
  {
  }

  /** The identity of DenormalizeEvalAt over the coefficients as plain reals. */
  lemma DenormalizeEvalScalar(a0: real, a1: real, a2: real, a3: real, a4: real, a5: real,
                              mx: real, my: real, sx: real, sy: real, u: real, v: real, n: real,
                              x: real, y: real)
    requires n == a0 * (u * u) + a1 * (u * v) + a2 * (v * v) + a3 * u + a4 * v + a5
    requires x == mx + sx * u && y == my + sy * v
    ensures
      (a0 * sy * sy) * (x * x) + (a1 * sx * sy) * (x * y) + (a2 * sx * sx) * (y * y)
      + (-2.0 * a0 * sy * sy * mx - a1 * sx * sy * my + a3 * sx * sy * sy) * x
      + (-a1 * sx * sy * mx - 2.0 * a2 * sx * sx * my + a4 * sx * sx * sy) * y
      + (a0 * sy * sy * mx * mx + a1 * sx * sy * mx * my + a2 * sx * sx * my * my
        - a3 * sx * sy * sy * mx - a4 * sx * sx * sy * my
        + a5 * sx * sx * sy * sy)
      == (sx * sx) * (sy * sy) * n
  {
  }

  /** The denormalised conic vanishes exactly where the normalised conic vanishes at the normalised point. */
  lemma DenormalizeEval(q: AlgebraicParameters, mx: real, my: real, sx: real, sy: real, x: real, y: real)
    requires sx != 0.0 && sy != 0.0
    ensures Eval(Denormalize(q, mx, my, sx, sy), x, y)
      == (sx * sx) * (sy * sy) * Eval(q, NormalizedValue(x, mx, sx), NormalizedValue(y, my, sy))
  {
    var u := NormalizedValue(x, mx, sx);
    var v := NormalizedValue(y, my, sy);
    NormalizedValueInverts(x, mx, sx);
    NormalizedValueInverts(y, my, sy);
    DenormalizeEvalAt(q, mx, my, sx, sy, u, v);
  }

  /** The discriminant scales by (sx sy)^2, so being an ellipse is preserved. */
  lemma DenormalizeDiscriminant(q: AlgebraicParameters, mx: real, my: real, sx: real, sy: real)
    requires sx != 0.0 && sy != 0.0
    ensures var r := Denormalize(q, mx, my, sx, sy);
      r.b * r.b - 4.0 * r.a * r.c == (sx * sy) * (sx * sy) * (q.b * q.b - 4.0 * q.a * q.c)
    ensures IsEllipse(Denormalize(q, mx, my, sx, sy)) <==> IsEllipse(q)
  {
    var r := Denormalize(q, mx, my, sx, sy);
    var k := (sx * sy) * (sx * sy);
    var disc := q.b * q.b - 4.0 * q.a * q.c;
    DiscriminantScales(q.a, q.b, q.c, r.a, r.b, r.c, sx, sy);
    SquarePositive(sx * sy, k);
    ScaledSign(k, disc, k * disc);
    assert IsEllipse(r) <==> k * disc < 0.0;
  }

  /** The discriminant of the denormalised quadratic part, as a polynomial identity. */
  lemma DiscriminantScales(a: real, b: real, c: real, ra: real, rb: real, rc: real, sx: real, sy: real)
    requires ra == a * sy * sy && rb == b * sx * sy && rc == c * sx * sx
    ensures rb * rb - 4.0 * ra * rc == (sx * sy) * (sx * sy) * (b * b - 4.0 * a * c)
  {
  }

  /** Multiplying by k > 0 keeps the sign. */
  lemma ScaledSign(k: real, t: real, kt: real)
    requires k > 0.0 && kt == k * t
    ensures kt < 0.0 <==> t < 0.0
  {
    if t < 0.0 {
      MixedProduct(t, k, kt);
    } else {
      NonNegativeProduct(k, t, kt);
    }
  }

  // ---------------------------------------------------------------------------
  // Fit
  // ---------------------------------------------------------------------------

  /** The normalised design matrix of the accessor's points. */
  function NormalizedDesign(acc: PointAccessor): (d: seq<real>)
    requires WellFormed(acc) && GetLength(acc) > 0
    requires HalfRange(Xs(acc)) != 0.0 && HalfRange(Ys(acc)) != 0.0
    ensures |d| == GetLength(acc) * 6
  {
    DesignMatrix(Normalize(Xs(acc), Mean(Xs(acc)), HalfRange(Xs(acc))),
                 Normalize(Ys(acc), Mean(Ys(acc)), HalfRange(Ys(acc))))
  }

  /** The scatter matrix of the normalised design matrix. */
  function NormalizedScatter(acc: PointAccessor): (s: seq<real>)
    requires WellFormed(acc) && GetLength(acc) > 0
    requires HalfRange(Xs(acc)) != 0.0 && HalfRange(Ys(acc)) != 0.0
    ensures |s| == 36
  {
    ScatterMatrix(NormalizedDesign(acc), GetLength(acc))
  }

  /**
   * Fit's arithmetic is defined over the reals: at least one point, both
   * half ranges non-zero and the linear block C of the scatter matrix
   * invertible.
   */
  predicate FitDefined(acc: PointAccessor)
  {
    WellFormed(acc) && GetLength(acc) > 0
    && HalfRange(Xs(acc)) != 0.0 && HalfRange(Ys(acc)) != 0.0
    && Det(BlockC(NormalizedScatter(acc))) != 0.0
  }

  /** The 3 x 3 matrix Fit hands to the eigen solver. */
  function ReducedScatter(acc: PointAccessor): Mat3
    requires FitDefined(acc)
  {
    var s := NormalizedScatter(acc);
    CalcTestA(BlockA(s), BlockB(s), BlockC(s))
  }

  /** The six coefficients from the quadratic part (a, b, c) and the linear part (d, e, f). */
  function Coefficients(upper: Vec3, lower: Vec3): (q: AlgebraicParameters)
    ensures Vec3(q.a, q.b, q.c) == upper && Vec3(q.d, q.e, q.f) == lower
  {
    AlgebraicParameters(upper.x, upper.y, upper.w, lower.x, lower.y, lower.w)
  }

  /**
   * The coefficients in normalised coordinates: the eigenvector of the
   * first eigenvalue with a negative real part, completed by CalcLowerHalf.
   */
  function NormalizedFit(acc: PointAccessor, solver: Mat3 -> EigenDecomposition): AlgebraicParameters
    requires FitDefined(acc)
    requires FirstNegative(solver(ReducedScatter(acc)).values) >= 0
  {
    var s := NormalizedScatter(acc);
    var e := solver(ReducedScatter(acc));
    var upper := Column(e.vectors, FirstNegative(e.values));
    Coefficients(upper, CalcLowerHalf(BlockB(s), BlockC(s), upper))
  }

  /** What Fit computes: nothing without a negative eigenvalue, otherwise the denormalised fit. */
  function FitSpec(acc: PointAccessor, solver: Mat3 -> EigenDecomposition): Option<AlgebraicParameters>
    requires FitDefined(acc)
  {
    if FirstNegative(solver(ReducedScatter(acc)).values) < 0 then None
    else
      Some(Denormalize(NormalizedFit(acc, solver),
                       Mean(Xs(acc)), Mean(Ys(acc)), HalfRange(Xs(acc)), HalfRange(Ys(acc))))
  }

  /**
   * LeastSquareEllipseFitter::Fit. The eigen solver is the parameter
   * solver; without an eigenvalue with a negative real part there is no
   * eigenvector to read, and the model returns None.
   */
  method Fit(acc: PointAccessor, solver: Mat3 -> EigenDecomposition) returns (r: Option<AlgebraicParameters>)
    requires FitDefined(acc)
    ensures r == FitSpec(acc, solver)
  {
    var mx, my, sx, sy, s := NormalizeAndScatter(acc);
    var tmpBtimestmpE := CalcTmpBtimesTmpE(BlockB(s), BlockC(s));
    var testA := CalcTestA(BlockA(s), BlockB(s), BlockC(s));
    var eigen := solver(testA);
    var index := FindNegativeEigenvalue(eigen.values);
    if index < 0 {
      return None;
    }
    var upper := Column(eigen.vectors, index);
    var lower := CalcLowerHalf(BlockB(s), BlockC(s), upper);
    r := Some(Denormalize(Coefficients(upper, lower), mx, my, sx, sy));
  }

  /**
   * The first half of Fit: the means and half ranges of both coordinates,
   * then the design matrix of the normalised points and its scatter matrix.
   */
  method NormalizeAndScatter(acc: PointAccessor) returns (mx: real, my: real, sx: real, sy: real, s: seq<real>)
    requires FitDefined(acc)
    ensures mx == Mean(Xs(acc)) && my == Mean(Ys(acc))
    ensures sx == HalfRange(Xs(acc)) && sy == HalfRange(Ys(acc))
    ensures s == NormalizedScatter(acc)
  {
    var numOfPoints := GetLength(acc);
    var minX, maxX, minY, maxY;
    mx, minX, maxX := CalcMeanMinMaxFromLowest(Xs(acc));
    my, minY, maxY := CalcMeanMinMaxFromLowest(Ys(acc));
    sx := (maxX - minX) / 2.0;
    sy := (maxY - minY) / 2.0;
    var designM := FillDesignMatrix(acc, mx, my, sx, sy);
    var scatterM := ComputeScatter(designM, numOfPoints);
    s := scatterM[..];
  }

  /** Fit returns nothing exactly when no eigenvalue of the reduced scatter matrix has a negative real part. */
  lemma FitFailsOnlyWithoutNegativeEigenvalue(acc: PointAccessor, solver: Mat3 -> EigenDecomposition)
    requires FitDefined(acc)
    ensures FitSpec(acc, solver).None? <==>
      forall i :: 0 <= i < 3 ==> Component(solver(ReducedScatter(acc)).values, i) >= 0.0
  {
    FirstNegativeIsFirst(solver(ReducedScatter(acc)).values);
  }

  /**
   * The normalised coefficients of a fit: (a, b, c) is the eigenvector of the
   * first negative eigenvalue, and (d, e, f) solves C (d, e, f) = -B^T (a, b, c),
   * which makes the last three entries of S (a, ..., f) zero.
   */
  lemma NormalizedFitSolvesLinearBlock(acc: PointAccessor, solver: Mat3 -> EigenDecomposition)
    requires FitDefined(acc)
    requires FirstNegative(solver(ReducedScatter(acc)).values) >= 0
    ensures var e := solver(ReducedScatter(acc));
      var q := NormalizedFit(acc, solver);
      Vec3(q.a, q.b, q.c) == Column(e.vectors, FirstNegative(e.values))
      && Component(e.values, FirstNegative(e.values)) < 0.0
    ensures var s := NormalizedScatter(acc);
      var q := NormalizedFit(acc, solver);
      MulVec(BlockC(s), Vec3(q.d, q.e, q.f)) == NegVec(MulVec(Transpose(BlockB(s)), Vec3(q.a, q.b, q.c)))
  {
    var s := NormalizedScatter(acc);
    var e := solver(ReducedScatter(acc));
    FirstNegativeIsFirst(e.values);
    LowerHalfSolvesBlock(BlockB(s), BlockC(s), Column(e.vectors, FirstNegative(e.values)));
  }

  /**
   * The fitted conic at any point (x, y) is sx^2 sy^2 times the normalised
   * conic at the normalised point, and it is an ellipse exactly when the
   * normalised conic is.
   */
  lemma FitUndoesNormalization(acc: PointAccessor, solver: Mat3 -> EigenDecomposition, x: real, y: real)
    requires FitDefined(acc)
    requires FitSpec(acc, solver).Some?
    ensures Eval(FitSpec(acc, solver).value, x, y)
      == ScaledNormalizedEval(NormalizedFit(acc, solver), Xs(acc), Ys(acc), x, y)
    ensures IsEllipse(FitSpec(acc, solver).value) <==> IsEllipse(NormalizedFit(acc, solver))
  {
    DenormalizedFitEval(NormalizedFit(acc, solver), Xs(acc), Ys(acc), FitSpec(acc, solver).value, x, y);
  }

  /**
   * The value of q at the normalised image of (x, y), times the squares of
   * both half ranges.
   */
  function ScaledNormalizedEval(q: AlgebraicParameters, xs: seq<real>, ys: seq<real>, x: real, y: real): real
    requires HalfRange(xs) != 0.0 && HalfRange(ys) != 0.0 && |xs| > 0 && |ys| > 0
  {
    (HalfRange(xs) * HalfRange(xs)) * (HalfRange(ys) * HalfRange(ys))
      * Eval(q, NormalizedValue(x, Mean(xs), HalfRange(xs)), NormalizedValue(y, Mean(ys), HalfRange(ys)))
  }

  /** The fit's denormalisation step, with the normalised coefficients and the coordinates as plain values. */
  lemma DenormalizedFitEval(q: AlgebraicParameters, xs: seq<real>, ys: seq<real>, p: AlgebraicParameters, x: real, y: real)
    requires |xs| > 0 && |ys| > 0 && HalfRange(xs) != 0.0 && HalfRange(ys) != 0.0
    requires p == Denormalize(q, Mean(xs), Mean(ys), HalfRange(xs), HalfRange(ys))
    ensures Eval(p, x, y) == ScaledNormalizedEval(q, xs, ys, x, y)
    ensures IsEllipse(p) <==> IsEllipse(q)
  {
    DenormalizeEval(q, Mean(xs), Mean(ys), HalfRange(xs), HalfRange(ys), x, y);
    DenormalizeDiscriminant(q, Mean(xs), Mean(ys), HalfRange(xs), HalfRange(ys));
  }
}
