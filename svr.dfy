/** backend/svr.py: linear support-vector regression on one feature. The
    columns are detected as for linear regression; the standard scalers and
    the solver are library code, so their outputs (means, scales, the scaled
    coefficients and the support indices) are inputs here. What the engine
    itself computes is the un-scaling of the line and of the tube width, the
    chart rows with their tube and support flags, and the eight steps. */
module Svr {
  import opened Common
  import LinearRegression

  /** The defaults of `epsilon` and `C`. */
  const DefaultEpsilon := 0.1
  const DefaultC := 1.0

  /** `float(params.get(name, default))`, with `given` the parsed parameter;
      no range check is made. */
  function Hyperparameter(given: Option<real>, default: real): (r: real)
    ensures given.None? ==> r == default
    ensures given.Some? ==> r == given.value
  {
    match given
    case Some(v) => v
    case None => default
  }

  /** What the two fitted `StandardScaler`s report: `mean_[0]` and `scale_[0]`. */
  datatype Scaling = Scaling(xMean: real, xStd: real, yMean: real, yStd: real)

  /** What the fitted linear-kernel solver reports: `coef_[0]`,
      `intercept_[0]` and `support_`. */
  datatype SolverOutput = SolverOutput(scaledSlope: real, scaledIntercept: real, support: seq<int>)

  // ---------- un-scaling ----------

  /** `(w_s * σ_y) / σ_x`. */
  function UnscaledSlope(ws: real, s: Scaling): real
    requires s.xStd != 0.0
  {
    ws * s.yStd / s.xStd
  }

  /** `b_s * σ_y + μ_y − slope * μ_x`. */
  function UnscaledIntercept(bs: real, slope: real, s: Scaling): real
  {
    bs * s.yStd + s.yMean - slope * s.xMean
  }

  /** `ε * σ_y`: the tube half-width on the target's own scale. */
  function UnscaledEpsilon(epsilon: real, s: Scaling): real
  {
    epsilon * s.yStd
  }

  /** The solver's line in standardised units, mapped back:
      μ_y + σ_y · (w_s · (x − μ_x) / σ_x + b_s). */
  function ScaledLineAt(ws: real, bs: real, s: Scaling, x: real): real
    requires s.xStd != 0.0
  {
    s.yMean + s.yStd * (ws * (x - s.xMean) / s.xStd + bs)
  }

  lemma ScaledLineAlgebra(ws: real, bs: real, mx: real, sx: real, my: real, sy: real, x: real)
    requires sx != 0.0
    ensures (ws * sy / sx) * x + (bs * sy + my - (ws * sy / sx) * mx) == my + sy * (ws * (x - mx) / sx + bs)
  {
    var k := ws / sx;
    assert ws * sy / sx == k * sy;
    assert ws * (x - mx) / sx == k * (x - mx);
    assert sy * (k * (x - mx) + bs) == k * sy * x - k * sy * mx + bs * sy;
  }

  /** The un-scaled line is the solver's standardised line read in the
      original units, at every x. */
  lemma UnscaledLineAgrees(ws: real, bs: real, s: Scaling, x: real)
    requires s.xStd != 0.0
    ensures LinearRegression.OnLine(UnscaledSlope(ws, s), UnscaledIntercept(bs, UnscaledSlope(ws, s), s), x)
         == ScaledLineAt(ws, bs, s, x)
  {
    ScaledLineAlgebra(ws, bs, s.xMean, s.xStd, s.yMean, s.yStd, x);
  }

  /** The un-scaled line passes through (μ_x, μ_y + b_s·σ_y): with a zero
      scaled intercept, through the point of means. */
  lemma UnscaledLineAtMean(ws: real, bs: real, s: Scaling)
    requires s.xStd != 0.0
    ensures LinearRegression.OnLine(UnscaledSlope(ws, s), UnscaledIntercept(bs, UnscaledSlope(ws, s), s), s.xMean)
         == s.yMean + bs * s.yStd
  {
    UnscaledLineAgrees(ws, bs, s, s.xMean);
  }

  // ---------- chart rows ----------

  /** One entry of `chart_data`. */
  datatype ChartRow = ChartRow(
    x: real, yActual: real, yPredicted: real,
    upper: real, lower: real, isSupport: bool, index: nat)

  /** The row the loop appends for index i. */
  function ChartRowAt(x: seq<real>, y: seq<real>, slope: real, intercept: real, eps: real, support: seq<int>, i: nat): ChartRow
    requires |x| == |y| && i < |x|
  {
    var pred := LinearRegression.OnLine(slope, intercept, x[i]);
    ChartRow(x[i], y[i], pred, pred + eps, pred - eps, i in support, i)
  }

  /** The `chart_data` loop: one row per data point, in row order, each on
      the line, inside a tube of width 2ε_u, and flagged exactly when its
      index is a support index. */
  method ChartData(x: seq<real>, y: seq<real>, slope: real, intercept: real, eps: real, support: seq<int>)
    returns (rows: seq<ChartRow>)
    requires |x| == |y|
    ensures |rows| == |x|
    ensures forall i :: 0 <= i < |x| ==> rows[i] == ChartRowAt(x, y, slope, intercept, eps, support, i)
    ensures forall i :: 0 <= i < |x| ==> rows[i].index == i && rows[i].x == x[i] && rows[i].yActual == y[i]
    ensures forall i :: 0 <= i < |x| ==> rows[i].yPredicted == LinearRegression.OnLine(slope, intercept, x[i])
    ensures forall i :: 0 <= i < |x| ==> rows[i].upper - rows[i].lower == 2.0 * eps
    ensures forall i :: 0 <= i < |x| ==> (rows[i].isSupport <==> i in support)
  {
    rows := [];
    for i := 0 to |x|
      invariant |rows| == i
      invariant forall j :: 0 <= j < i ==> rows[j] == ChartRowAt(x, y, slope, intercept, eps, support, j)
    {
      var pred := LinearRegression.OnLine(slope, intercept, x[i]);
      rows := rows + [ChartRow(x[i], y[i], pred, pred + eps, pred - eps, i in support, i)];
    }
  }

  /** The number of flagged rows. */
  function Flagged(rows: seq<ChartRow>): nat
  {
    if |rows| == 0 then 0
    else Flagged(rows[..|rows| - 1]) + (if rows[|rows| - 1].isSupport then 1 else 0)
  }

  /** The support indices below k. */
  ghost function SupportBelow(support: seq<int>, k: nat): set<int>
  {
    set i | i in support && 0 <= i < k
  }

  lemma {:induction false} FlaggedPrefix(rows: seq<ChartRow>, support: seq<int>, k: nat)
    requires k <= |rows|
    requires forall i :: 0 <= i < |rows| ==> (rows[i].isSupport <==> i in support)
    ensures Flagged(rows[..k]) == |SupportBelow(support, k)|
  {
    if k > 0 {
      FlaggedPrefix(rows, support, k - 1);
      assert rows[..k][..k - 1] == rows[..k - 1];
      if k - 1 in support {
        assert SupportBelow(support, k) == SupportBelow(support, k - 1) + {k - 1};
      } else {
        assert SupportBelow(support, k) == SupportBelow(support, k - 1);
      }
    } else {
      assert SupportBelow(support, 0) == {};
    }
  }

  /** A list without repeats has as many distinct elements as entries. */
  lemma {:induction false} DistinctCardinality(s: seq<int>)
    requires NoDuplicates(s)
    ensures |set i | i in s| == |s|
  {
    if |s| > 0 {
      var s' := s[..|s| - 1];
      assert NoDuplicates(s');
      DistinctCardinality(s');
      assert (set i | i in s) == (set i | i in s') + {s[|s| - 1]};
      assert s[|s| - 1] !in (set i | i in s');
    } else {
      assert (set i | i in s) == {};
    }
  }

  /** `support_vector_count` (the length of `support_`) is the number of
      flagged chart rows when the solver reports distinct in-range indices,
      as a fitted solver does. */
  lemma FlaggedIsSupportCount(rows: seq<ChartRow>, support: seq<int>)
    requires NoDuplicates(support) && forall j :: 0 <= j < |support| ==> 0 <= support[j] < |rows|
    requires forall i :: 0 <= i < |rows| ==> (rows[i].isSupport <==> i in support)
    ensures Flagged(rows) == |support|
  {
    FlaggedPrefix(rows, support, |rows|);
    assert rows[..|rows|] == rows;
    assert SupportBelow(support, |rows|) == set i | i in support;
    DistinctCardinality(support);
  }

  // ---------- steps and the run ----------

  /** The eight steps of the response, each with its `step_number`. */
  datatype SvrStep =
    | HyperparameterStep(number: nat, epsilon: real, c: real, unscaledEpsilon: real)
    | ScalingStep(number: nat, scaling: Scaling)
    | OptimisationStep(number: nat, slope: real, intercept: real, unscaledEpsilon: real, supportCount: nat, n: nat, c: real, r2: real)
    | SlopeStep(number: nat, scaledSlope: real, slope: real)
    | InterceptStep(number: nat, scaledIntercept: real, intercept: real)
    | EquationStep(number: nat, slope: real, intercept: real)
    | SupportStep(number: nat, supportCount: nat, n: nat)
    | PerformanceStep(number: nat, r2: real)

  /** Everything the run reports besides the chart. */
  datatype SvrFit = SvrFit(
    epsilon: real, c: real, scaling: Scaling, solver: SolverOutput,
    slope: real, intercept: real, unscaledEpsilon: real, supportCount: nat, n: nat, r2: real)

  function StepsOf(f: SvrFit): (r: seq<SvrStep>)
    ensures |r| == 8 && forall i :: 0 <= i < 8 ==> r[i].number == i + 1
  {
    [ HyperparameterStep(1, f.epsilon, f.c, f.unscaledEpsilon),
      ScalingStep(2, f.scaling),
      OptimisationStep(3, f.slope, f.intercept, f.unscaledEpsilon, f.supportCount, f.n, f.c, f.r2),
      SlopeStep(4, f.solver.scaledSlope, f.slope),
      InterceptStep(5, f.solver.scaledIntercept, f.intercept),
      EquationStep(6, f.slope, f.intercept),
      SupportStep(7, f.supportCount, f.n),
      PerformanceStep(8, f.r2) ]
  }

  datatype SvrReport = SvrReport(feature: string, target: string, fit: SvrFit, chart: seq<ChartRow>, steps: seq<SvrStep>)

  /** `run_svr`. The scalers' statistics, the solver's result (None when
      `fit` raised) and `r2_score` are inputs. An empty column makes the
      scaler raise ValueError; a zero x scale (which a fitted scaler never
      reports) would raise ZeroDivisionError in the un-scaling. */
  method RunSvr(t: Table, feature: Option<string>, target: Option<string>,
                epsilonParam: Option<real>, cParam: Option<real>,
                scaling: Scaling, solver: Option<SolverOutput>, r2: real)
    returns (r: Result<SvrReport>)
    ensures LinearRegression.ColumnsChosen(t, feature, target).Err? ==> r == Err(HttpError(400))
    ensures r.Ok? ==>
      && LinearRegression.ColumnsChosen(t, feature, target) == Ok((r.value.feature, r.value.target))
      && RealColumn(t.rows, r.value.feature).Some? && RealColumn(t.rows, r.value.target).Some?
    ensures r.Ok? ==> solver.Some? && scaling.xStd != 0.0
    ensures r.Ok? ==>
      var f := r.value.fit;
      && f.epsilon == Hyperparameter(epsilonParam, DefaultEpsilon)
      && f.c == Hyperparameter(cParam, DefaultC)
      && f.slope == UnscaledSlope(solver.value.scaledSlope, scaling)
      && f.intercept == UnscaledIntercept(solver.value.scaledIntercept, f.slope, scaling)
      && f.unscaledEpsilon == UnscaledEpsilon(f.epsilon, scaling)
      && f.supportCount == |solver.value.support|
      && f.n == |RealColumn(t.rows, r.value.feature).value| > 0
      && f.r2 == r2
    ensures r.Ok? ==>
      var x, y := RealColumn(t.rows, r.value.feature).value, RealColumn(t.rows, r.value.target).value;
      var f := r.value.fit;
      && |r.value.chart| == |x| == |y|
      && (forall i :: 0 <= i < |x| ==>
            r.value.chart[i] == ChartRowAt(x, y, f.slope, f.intercept, f.unscaledEpsilon, solver.value.support, i))
      && r.value.steps == StepsOf(f)
    ensures LinearRegression.ColumnsChosen(t, feature, target).Ok? ==>
      var (f, g) := LinearRegression.ColumnsChosen(t, feature, target).value;
      var xs, ys := RealColumn(t.rows, f), RealColumn(t.rows, g);
      && (r.Ok? <==> xs.Some? && ys.Some? && |xs.value| > 0 && solver.Some? && scaling.xStd != 0.0)
      && (xs.None? ==> r == Err(NonNumericCells(f)))
      && (xs.Some? && ys.None? ==> r == Err(NonNumericCells(g)))
      && (xs.Some? && ys.Some? && |xs.value| == 0 ==> r == Err(Raised("ValueError")))
      && (xs.Some? && ys.Some? && |xs.value| > 0 && solver.None? ==> r == Err(HttpError(500)))
      && (xs.Some? && ys.Some? && |xs.value| > 0 && solver.Some? && scaling.xStd == 0.0 ==>
            r == Err(Raised("ZeroDivisionError")))
  {
    var cols := LinearRegression.ChooseColumns(t, feature, target);
    if cols.Err? {
      return Err(cols.failure);
    }
    var (f, g) := cols.value;
    var epsilon := Hyperparameter(epsilonParam, DefaultEpsilon);
    var c := Hyperparameter(cParam, DefaultC);
    var xs := RealColumn(t.rows, f);
    if xs.None? {
      return Err(NonNumericCells(f));
    }
    var ys := RealColumn(t.rows, g);
    if ys.None? {
      return Err(NonNumericCells(g));
    }
    var x, y := xs.value, ys.value;
    if |x| == 0 {
      return Err(Raised("ValueError"));
    }
    if solver.None? {
      return Err(HttpError(500));
    }
    if scaling.xStd == 0.0 {
      return Err(Raised("ZeroDivisionError"));
    }
    var out := solver.value;
    var slope := UnscaledSlope(out.scaledSlope, scaling);
    var intercept := UnscaledIntercept(out.scaledIntercept, slope, scaling);
    var eps := UnscaledEpsilon(epsilon, scaling);
    var chart := ChartData(x, y, slope, intercept, eps, out.support);
    var fit := SvrFit(epsilon, c, scaling, out, slope, intercept, eps, |out.support|, |x|, r2);
    r := Ok(SvrReport(f, g, fit, chart, StepsOf(fit)));
  }
}
