/** backend/linear_regression.py: simple least-squares regression of one
    numeric column on another, with the columns detected by name or by
    position among the numeric columns. The column detection is shared with
    backend/svr.py. */
module LinearRegression {
  import opened Common
  import opened Detection

  // ---------- column detection ----------

  /** The feature names tried in order when no feature is given. */
  const FeatureNames := ["YearsExperience", "Experience", "Years", "X", "x"]

  /** The target names tried in order when no target is given. */
  const TargetNames := ["value", "Salary", "Price", "Target", "Y", "y"]

  /** The feature column: the given one, else the first name of the list
      that is a column, else the first numeric column when there are at
      least two. */
  function DetectFeature(t: Table, given: Option<string>): (r: Option<string>)
    ensures Given(given) ==> r == given
    ensures !Given(given) && r.Some? ==> r.value in t.columns
    ensures !Given(given) && r.None? <==>
              !Given(given) && FirstPresent(FeatureNames, t.columns).None? && |NumericColumns(t)| < 2
  {
    if Given(given) then given
    else match FirstPresent(FeatureNames, t.columns)
      case Some(c) => Some(c)
      case None =>
        var nums := NumericColumns(t);
        if |nums| >= 2 then
          assert nums[0] in nums;
          Some(nums[0])
        else None
  }

  /** The target column: the given one, else the first name of the list that
      is a column, else the second numeric column, or the only one. */
  function DetectTarget(t: Table, given: Option<string>): (r: Option<string>)
    ensures Given(given) ==> r == given
    ensures !Given(given) && r.Some? ==> r.value in t.columns
    ensures !Given(given) && r.None? <==>
              !Given(given) && FirstPresent(TargetNames, t.columns).None? && |NumericColumns(t)| == 0
  {
    if Given(given) then given
    else match FirstPresent(TargetNames, t.columns)
      case Some(c) => Some(c)
      case None =>
        var nums := NumericColumns(t);
        if |nums| >= 2 then
          assert nums[1] in nums;
          Some(nums[1])
        else if |nums| == 1 then
          assert nums[0] in nums;
          Some(nums[0])
        else None
  }

  /** The chosen pair of columns, or the 400 raised when either is missing
      or names no column. */
  function ColumnsChosen(t: Table, feature: Option<string>, target: Option<string>): (r: Result<(string, string)>)
    ensures r.Ok? <==>
      && DetectFeature(t, feature).Some? && DetectTarget(t, target).Some?
      && DetectFeature(t, feature).value != "" && DetectTarget(t, target).value != ""
      && DetectFeature(t, feature).value in t.columns && DetectTarget(t, target).value in t.columns
    ensures r.Ok? ==> r.value == (DetectFeature(t, feature).value, DetectTarget(t, target).value)
    ensures r.Err? ==> r.failure == HttpError(400)
  {
    var f := DetectFeature(t, feature);
    var g := DetectTarget(t, target);
    if f.None? || g.None? || f.value == "" || g.value == "" then Err(HttpError(400))
    else if f.value !in t.columns || g.value !in t.columns then Err(HttpError(400))
    else Ok((f.value, g.value))
  }

  /** Without parameters the "not found" error cannot happen: detected
      columns are columns, so the only failure is that none was found. */
  lemma DetectedColumnsExist(t: Table)
    requires "" !in t.columns
    ensures ColumnsChosen(t, None, None).Err? <==>
      || (FirstPresent(FeatureNames, t.columns).None? && |NumericColumns(t)| < 2)
      || (FirstPresent(TargetNames, t.columns).None? && |NumericColumns(t)| == 0)
  {
  }

  /** The feature detection: the for/break search of the name list, then
      the numeric fallback. */
  method ChooseFeature(t: Table, feature: Option<string>) returns (f: Option<string>)
    ensures f == DetectFeature(t, feature)
  {
    f := feature;
    if !Given(f) {
      f := SearchFirstPresent(FeatureNames, t.columns);
      if f.None? {
        var nums := NumericColumns(t);
        if |nums| >= 2 {
          f := Some(nums[0]);
        }
      }
    }
  }

  /** The target detection: the for/break search of the name list, then
      the numeric fallbacks. */
  method ChooseTarget(t: Table, target: Option<string>) returns (g: Option<string>)
    ensures g == DetectTarget(t, target)
  {
    g := target;
    if !Given(g) {
      g := SearchFirstPresent(TargetNames, t.columns);
      if g.None? {
        var nums := NumericColumns(t);
        if |nums| >= 2 {
          g := Some(nums[1]);
        } else if |nums| == 1 {
          g := Some(nums[0]);
        }
      }
    }
  }

  /** Both detections, then the checks that each names a column. */
  method ChooseColumns(t: Table, feature: Option<string>, target: Option<string>) returns (r: Result<(string, string)>)
    ensures r == ColumnsChosen(t, feature, target)
  {
    var f := ChooseFeature(t, feature);
    var g := ChooseTarget(t, target);
    if !Given(f) || !Given(g) {
      return Err(HttpError(400));
    }
    if f.value !in t.columns || g.value !in t.columns {
      return Err(HttpError(400));
    }
    r := Ok((f.value, g.value));
  }

  // ---------- least squares ----------

  /** (a_i − ma)·(b_i − mb). */
  function CrossTerm(ai: real, bi: real, ma: real, mb: real): real
  {
    (ai - ma) * (bi - mb)
  }

  /** Σ (a_i − ma)·(b_i − mb): the source's numerator for a = x, b = y, its
      denominator for a = b = x, and SS_tot for a = b = y. */
  function CrossDeviation(a: seq<real>, b: seq<real>, ma: real, mb: real): real
    requires |a| == |b|
  {
    if |a| == 0 then 0.0
    else CrossDeviation(a[..|a| - 1], b[..|b| - 1], ma, mb) + CrossTerm(a[|a| - 1], b[|b| - 1], ma, mb)
  }

  /** The value of the line y = m·x + c at x. */
  function OnLine(m: real, c: real, x: real): real
  {
    m * x + c
  }

  function Square(e: real): real
  {
    e * e
  }

  lemma SquareNonNegative(e: real)
    ensures Square(e) >= 0.0
  {
    if e < 0.0 {
      assert Square(e) == (-e) * (-e);
    }
  }

  /** SS_res: Σ (y_i − (m·x_i + c))². */
  function SquaredResiduals(x: seq<real>, y: seq<real>, m: real, c: real): real
    requires |x| == |y|
  {
    if |x| == 0 then 0.0
    else SquaredResiduals(x[..|x| - 1], y[..|y| - 1], m, c) + Square(y[|y| - 1] - OnLine(m, c, x[|x| - 1]))
  }

  lemma {:induction false} SquaresNonNegative(a: seq<real>, ma: real)
    ensures CrossDeviation(a, a, ma, ma) >= 0.0
  {
    if |a| > 0 {
      SquaresNonNegative(a[..|a| - 1], ma);
      assert CrossTerm(a[|a| - 1], a[|a| - 1], ma, ma) == Square(a[|a| - 1] - ma);
      SquareNonNegative(a[|a| - 1] - ma);
    }
  }

  lemma {:induction false} SquaredResidualsNonNegative(x: seq<real>, y: seq<real>, m: real, c: real)
    requires |x| == |y|
    ensures SquaredResiduals(x, y, m, c) >= 0.0
  {
    if |x| > 0 {
      SquaredResidualsNonNegative(x[..|x| - 1], y[..|y| - 1], m, c);
      SquareNonNegative(y[|y| - 1] - OnLine(m, c, x[|x| - 1]));
    }
  }

  /** The intercept of the line of slope m through (mx, my). */
  function Intercept(mx: real, my: real, m: real): real
  {
    my - m * mx
  }

  /** The least-squares slope, numerator over denominator. */
  function Slope(numerator: real, denominator: real): real
    requires denominator != 0.0
  {
    numerator / denominator
  }

  /** Syy − 2m·Sxy + m²·Sxx. */
  function Expanded(syy: real, sxy: real, sxx: real, m: real): real
  {
    syy - 2.0 * m * sxy + m * m * sxx
  }

  lemma ExpandedAdd(syy: real, sxy: real, sxx: real, p: real, q: real, r: real, m: real)
    ensures Expanded(syy + p, sxy + q, sxx + r, m) == Expanded(syy, sxy, sxx, m) + Expanded(p, q, r, m)
  {
    assert m * (sxy + q) == m * sxy + m * q;
    assert m * m * (sxx + r) == m * m * sxx + m * m * r;
  }

  /** One squared residual about a line through (mx, my), expanded. */
  lemma ResidualTerm(xi: real, yi: real, mx: real, my: real, m: real)
    ensures Square(yi - OnLine(m, Intercept(mx, my, m), xi))
         == Expanded(CrossTerm(yi, yi, my, my), CrossTerm(xi, yi, mx, my), CrossTerm(xi, xi, mx, mx), m)
  {
    var a := xi - mx;
    var b := yi - my;
    assert yi - OnLine(m, Intercept(mx, my, m), xi) == b - m * a;
    assert (b - m * a) * (b - m * a) == b * b - 2.0 * m * (a * b) + m * m * (a * a);
  }

  /** SS_res of any line through (mx, my) is Syy − 2m·Sxy + m²·Sxx. */
  lemma {:induction false} ResidualExpansion(x: seq<real>, y: seq<real>, mx: real, my: real, m: real)
    requires |x| == |y|
    ensures SquaredResiduals(x, y, m, Intercept(mx, my, m))
         == Expanded(CrossDeviation(y, y, my, my), CrossDeviation(x, y, mx, my), CrossDeviation(x, x, mx, mx), m)
  {
    if |x| > 0 {
      var x', y' := x[..|x| - 1], y[..|y| - 1];
      ResidualExpansion(x', y', mx, my, m);
      var xi, yi := x[|x| - 1], y[|y| - 1];
      ResidualTerm(xi, yi, mx, my, m);
      ExpandedAdd(CrossDeviation(y', y', my, my), CrossDeviation(x', y', mx, my), CrossDeviation(x', x', mx, mx),
                  CrossTerm(yi, yi, my, my), CrossTerm(xi, yi, mx, my), CrossTerm(xi, xi, mx, mx), m);
    } else {
      assert Expanded(0.0, 0.0, 0.0, m) == 0.0;
    }
  }

  /** At the least-squares slope Sxy/Sxx the expansion is Syy − Sxy²/Sxx. */
  lemma ExpandedAtSlope(syy: real, sxy: real, sxx: real)
    requires sxx > 0.0
    ensures Expanded(syy, sxy, sxx, Slope(sxy, sxx)) <= syy
  {
    var m := Slope(sxy, sxx);
    assert m * sxx == sxy;
    assert m * m * sxx == m * sxy;
    assert m * sxy == sxy * sxy / sxx;
    assert sxy * sxy >= 0.0;
  }

  /** With the least-squares slope the residual sum is at most Syy: the
      fitted line explains a non-negative share of the variance. */
  lemma LeastSquaresResidual(x: seq<real>, y: seq<real>, mx: real, my: real, m: real, c: real)
    requires |x| == |y| && CrossDeviation(x, x, mx, mx) != 0.0
    requires m == Slope(CrossDeviation(x, y, mx, my), CrossDeviation(x, x, mx, mx))
    requires c == Intercept(mx, my, m)
    ensures SquaredResiduals(x, y, m, c) <= CrossDeviation(y, y, my, my)
  {
    var sxx, sxy, syy := CrossDeviation(x, x, mx, mx), CrossDeviation(x, y, mx, my), CrossDeviation(y, y, my, my);
    ResidualExpansion(x, y, mx, my, m);
    SquaresNonNegative(x, mx);
    ExpandedAtSlope(syy, sxy, sxx);
  }

  /** Everything the fit computes. */
  datatype LineFit = LineFit(
    n: nat, xMean: real, yMean: real, numerator: real, denominator: real,
    slope: real, intercept: real, predictions: seq<real>,
    ssTotal: real, ssRes: real, r2: real)

  /** `1 - ss_res / ss_total if ss_total != 0 else 0`. */
  function RSquared(ssRes: real, ssTotal: real): real
  {
    if ssTotal != 0.0 then 1.0 - ssRes / ssTotal else 0.0
  }

  /** `slope * x + intercept` for every x. */
  function Predict(x: seq<real>, slope: real, intercept: real): (r: seq<real>)
    ensures |r| == |x|
  {
    seq(|x|, i requires 0 <= i < |x| => OnLine(slope, intercept, x[i]))
  }

  /** Means, slope and intercept, predictions and R²; a zero denominator
      (an empty or constant feature column) raises 400. */
  function FitLine(x: seq<real>, y: seq<real>): (r: Result<LineFit>)
    requires |x| == |y|
    ensures r.Err? <==> |x| == 0 || CrossDeviation(x, x, Mean(x), Mean(x)) == 0.0
    ensures r.Err? ==> r.failure == HttpError(400)
    ensures r.Ok? ==> r.value.n == |x| && r.value.xMean == Mean(x) && r.value.yMean == Mean(y)
    ensures r.Ok? ==> r.value.denominator != 0.0 && r.value.slope == Slope(r.value.numerator, r.value.denominator)
    ensures r.Ok? ==>
      && r.value.numerator == CrossDeviation(x, y, Mean(x), Mean(y))
      && r.value.denominator == CrossDeviation(x, x, Mean(x), Mean(x))
      && r.value.intercept == Intercept(r.value.xMean, r.value.yMean, r.value.slope)
    ensures r.Ok? ==>
      && r.value.ssTotal == CrossDeviation(y, y, Mean(y), Mean(y))
      && r.value.ssRes == SquaredResiduals(x, y, r.value.slope, r.value.intercept)
      && r.value.r2 == RSquared(r.value.ssRes, r.value.ssTotal)
    ensures r.Ok? ==> |r.value.predictions| == |x|
    ensures r.Ok? ==> forall i :: 0 <= i < |x| ==> r.value.predictions[i] == OnLine(r.value.slope, r.value.intercept, x[i])
  {
    if |x| == 0 then Err(HttpError(400))
    else
      var mx, my := Mean(x), Mean(y);
      var numerator := CrossDeviation(x, y, mx, my);
      var denominator := CrossDeviation(x, x, mx, mx);
      if denominator == 0.0 then Err(HttpError(400))
      else
        var slope := Slope(numerator, denominator);
        var intercept := Intercept(mx, my, slope);
        var ssTotal := CrossDeviation(y, y, my, my);
        var ssRes := SquaredResiduals(x, y, slope, intercept);
        Ok(LineFit(|x|, mx, my, numerator, denominator, slope, intercept, Predict(x, slope, intercept),
                   ssTotal, ssRes, RSquared(ssRes, ssTotal)))
  }

  lemma LineThroughPoint(m: real, mx: real, my: real)
    ensures OnLine(m, Intercept(mx, my, m), mx) == my
  {
  }

  /** The fitted line passes through the point of means (x̄, ȳ). */
  lemma FitPassesThroughMeans(x: seq<real>, y: seq<real>)
    requires |x| == |y| && FitLine(x, y).Ok?
    ensures OnLine(FitLine(x, y).value.slope, FitLine(x, y).value.intercept, FitLine(x, y).value.xMean) == FitLine(x, y).value.yMean
  {
    var f := FitLine(x, y).value;
    LineThroughPoint(f.slope, f.xMean, f.yMean);
  }

  /** The residuals R² uses are those of the predictions, and R² of the
      least-squares line lies in [0, 1] (0 exactly when SS_tot is 0). */
  lemma FitR2Bounds(x: seq<real>, y: seq<real>)
    requires |x| == |y| && FitLine(x, y).Ok?
    ensures 0.0 <= FitLine(x, y).value.r2 <= 1.0
    ensures FitLine(x, y).value.ssTotal == 0.0 ==> FitLine(x, y).value.r2 == 0.0
  {
    var f := FitLine(x, y).value;
    LeastSquaresResidual(x, y, f.xMean, f.yMean, f.slope, f.intercept);
    SquaredResidualsNonNegative(x, y, f.slope, f.intercept);
    RSquaredBounds(f.ssRes, f.ssTotal);
  }

  lemma RSquaredBounds(ssRes: real, ssTotal: real)
    requires 0.0 <= ssRes <= ssTotal
    ensures 0.0 <= RSquared(ssRes, ssTotal) <= 1.0
    ensures ssTotal == 0.0 ==> RSquared(ssRes, ssTotal) == 0.0
  {
    if ssTotal != 0.0 {
      assert ssRes / ssTotal * ssTotal == ssRes;
    }
  }

  // ---------- samples and steps ----------

  /** The candidate sample indices. */
  const SampleCandidates := [0, 5, 10, 15, 20]

  /** The elements of `s` below `n`, in order. */
  function KeepBelow(s: seq<int>, n: nat): (r: seq<int>)
    ensures forall i :: i in r <==> i in s && i < n
  {
    if |s| == 0 then []
    else
      assert s == s[..|s| - 1] + [s[|s| - 1]];
      KeepBelow(s[..|s| - 1], n) + (if s[|s| - 1] < n then [s[|s| - 1]] else [])
  }

  /** `[i for i in [0, 5, 10, 15, 20] if i < n]`. */
  function SampleIndices(n: nat): (r: seq<int>)
    ensures forall i :: i in r <==> i in SampleCandidates && i < n
  {
    KeepBelow(SampleCandidates, n)
  }

  ghost predicate Increasing(s: seq<int>)
  {
    forall i, j :: 0 <= i < j < |s| ==> s[i] < s[j]
  }

  lemma {:induction false} KeepBelowAll(s: seq<int>, n: nat)
    requires forall i :: 0 <= i < |s| ==> s[i] < n
    ensures KeepBelow(s, n) == s
  {
    if |s| > 0 {
      KeepBelowAll(s[..|s| - 1], n);
    }
  }

  /** On an increasing list the kept elements are a prefix. */
  lemma {:induction false} KeepBelowPrefix(s: seq<int>, n: nat)
    requires Increasing(s)
    ensures |KeepBelow(s, n)| <= |s| && KeepBelow(s, n) == s[..|KeepBelow(s, n)|]
  {
    if |s| > 0 {
      var s' := s[..|s| - 1];
      KeepBelowPrefix(s', n);
      if s[|s| - 1] < n {
        KeepBelowAll(s', n);
        assert s' + [s[|s| - 1]] == s;
      } else {
        assert s[..|KeepBelow(s', n)|] == s'[..|KeepBelow(s', n)|];
      }
    }
  }

  /** The samples follow the candidate order: a prefix of 0, 5, 10, 15, 20. */
  lemma SampleIndicesPrefix(n: nat)
    ensures |SampleIndices(n)| <= 5 && SampleIndices(n) == SampleCandidates[..|SampleIndices(n)|]
  {
    KeepBelowPrefix(SampleCandidates, n);
  }

  /** One row of the sample table: x, actual y, predicted y. */
  datatype Sample = Sample(x: real, yActual: real, yPredicted: real)

  function Samples(x: seq<real>, y: seq<real>, preds: seq<real>): (r: seq<Sample>)
    requires |x| == |y| == |preds|
    ensures |r| == |SampleIndices(|x|)|
  {
    var idx := SampleIndices(|x|);
    seq(|idx|, k requires 0 <= k < |idx| =>
      assert idx[k] in idx;
      Sample(x[idx[k]], y[idx[k]], preds[idx[k]]))
  }

  /** The six steps of the response, each with its `step_number`. */
  datatype LrStep =
    | MeansStep(number: nat, xMean: real, yMean: real, n: nat)
    | SlopeStep(number: nat, numerator: real, denominator: real, slope: real)
    | InterceptStep(number: nat, intercept: real)
    | EquationStep(number: nat, slope: real, intercept: real)
    | SamplesStep(number: nat, samples: seq<Sample>)
    | PerformanceStep(number: nat, ssRes: real, ssTotal: real, r2: real, size: nat)

  function StepsOf(f: LineFit, samples: seq<Sample>): (r: seq<LrStep>)
    ensures |r| == 6 && forall i :: 0 <= i < 6 ==> r[i].number == i + 1
  {
    [ MeansStep(1, f.xMean, f.yMean, f.n),
      SlopeStep(2, f.numerator, f.denominator, f.slope),
      InterceptStep(3, f.intercept),
      EquationStep(4, f.slope, f.intercept),
      SamplesStep(5, samples),
      PerformanceStep(6, f.ssRes, f.ssTotal, f.r2, f.n) ]
  }

  datatype LrReport = LrReport(feature: string, target: string, fit: LineFit, samples: seq<Sample>, steps: seq<LrStep>)

  /** `run_linear_regression`. Cells that are not numbers (NaN included)
      give NonNumericCells. */
  method RunLinearRegression(t: Table, feature: Option<string>, target: Option<string>) returns (r: Result<LrReport>)
    ensures ColumnsChosen(t, feature, target).Err? ==> r == Err(ColumnsChosen(t, feature, target).failure)
    ensures r.Ok? ==>
      && ColumnsChosen(t, feature, target) == Ok((r.value.feature, r.value.target))
      && RealColumn(t.rows, r.value.feature).Some? && RealColumn(t.rows, r.value.target).Some?
    ensures r.Ok? ==>
      var x, y := RealColumn(t.rows, r.value.feature).value, RealColumn(t.rows, r.value.target).value;
      && FitLine(x, y) == Ok(r.value.fit)
      && r.value.samples == Samples(x, y, r.value.fit.predictions)
      && r.value.steps == StepsOf(r.value.fit, r.value.samples)
    ensures r.Err? && ColumnsChosen(t, feature, target).Ok? ==>
      var (f, g) := ColumnsChosen(t, feature, target).value;
      || RealColumn(t.rows, f).None? || RealColumn(t.rows, g).None?
      || FitLine(RealColumn(t.rows, f).value, RealColumn(t.rows, g).value).Err?
    ensures ColumnsChosen(t, feature, target).Ok? ==>
      var (f, g) := ColumnsChosen(t, feature, target).value;
      var xs, ys := RealColumn(t.rows, f), RealColumn(t.rows, g);
      && (xs.None? ==> r == Err(NonNumericCells(f)))
      && (xs.Some? && ys.None? ==> r == Err(NonNumericCells(g)))
      && (xs.Some? && ys.Some? ==> (r.Ok? <==> FitLine(xs.value, ys.value).Ok?))
      && (xs.Some? && ys.Some? && FitLine(xs.value, ys.value).Err? ==> r == Err(HttpError(400)))
  {
    var cols := ChooseColumns(t, feature, target);
    if cols.Err? {
      return Err(cols.failure);
    }
    var (f, g) := cols.value;
    var xs := RealColumn(t.rows, f);
    if xs.None? {
      return Err(NonNumericCells(f));
    }
    var ys := RealColumn(t.rows, g);
    if ys.None? {
      return Err(NonNumericCells(g));
    }
    var fit := FitLine(xs.value, ys.value);
    if fit.Err? {
      return Err(fit.failure);
    }
    var samples := Samples(xs.value, ys.value, fit.value.predictions);
    r := Ok(LrReport(f, g, fit.value, samples, StepsOf(fit.value, samples)));
  }
}
