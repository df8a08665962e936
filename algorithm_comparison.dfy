/** backend/algorithm_comparison.py: linear regression and KNN regression run
    on the same split and ranked by R². The model covers the column detection,
    the regression metrics with their accuracy clamp, the search for the best
    k, the ranking and the validation that precedes them. The split, the
    fits and their predictions, `r2_score` and the square root are parameters. */
module AlgorithmComparison {
  import opened Common
  import opened Detection
  import LinearRegression

  /** The names searched for, in priority order, as case-insensitive
      substrings of the column names. */
  const TargetCandidates: seq<string> := ["value", "price", "salary", "target", "y", "output", "result"]

  // ---------- column detection ----------

  /** `detect_feature_target_columns`: the first column matched by the
      earliest candidate with a match, else the last numeric column; the
      features are the other numeric columns. */
  function DetectedColumns(t: Table): (r: (seq<string>, Option<string>))
    ensures r.1.Some? ==> r.1.value in t.columns && r.1.value !in r.0
    ensures r.1.None? <==> PriorityMatch(TargetCandidates, t.columns).None? && |NumericColumns(t)| == 0
    ensures forall c :: c in r.0 <==> c in NumericColumns(t) && Some(c) != r.1
    ensures PriorityMatch(TargetCandidates, t.columns).None? && |NumericColumns(t)| > 0 ==>
      r.1 == Some(NumericColumns(t)[|NumericColumns(t)| - 1])
  {
    var nums := NumericColumns(t);
    var target := match PriorityMatch(TargetCandidates, t.columns)
      case Some(c) => Some(c)
      case None => if |nums| > 0 then Some(nums[|nums| - 1]) else None;
    (Filter(nums, c => Some(c) != target), target)
  }

  /** The earliest candidate that matches some column decides the target,
      whatever later candidates match. */
  lemma DetectsEarliestCandidate(t: Table, i: nat)
    requires i < |TargetCandidates| && FirstMatchIn(TargetCandidates[i], t.columns).Some?
    requires forall j :: 0 <= j < i ==> FirstMatchIn(TargetCandidates[j], t.columns).None?
    ensures DetectedColumns(t).1 == FirstMatchIn(TargetCandidates[i], t.columns)
  {
    PriorityMatchIsFirst(TargetCandidates, t.columns, i);
  }

  /** The nested search of the source, then the numeric fallback. */
  method DetectFeatureTarget(t: Table) returns (features: seq<string>, target: Option<string>)
    ensures (features, target) == DetectedColumns(t)
  {
    var nums := NumericColumns(t);
    target := SearchPriorityMatch(TargetCandidates, t.columns);
    if target.None? && |nums| > 0 {
      target := Some(nums[|nums| - 1]);
    }
    features := Filter(nums, c => Some(c) != target);
  }

  // ---------- metrics ----------

  /** A metric that may be infinite (the fallback metrics). */
  datatype Extended = Finite(v: real) | Infinite

  datatype Metrics = Metrics(r2: real, mse: Extended, rmse: Extended, mae: Extended, mape: real, accuracy: real, failed: bool)

  /** What `calculate_regression_metrics` returns when the library raises. */
  const FallbackMetrics := Metrics(0.0, Infinite, Infinite, Infinite, 100.0, 0.0, true)

  function Abs(x: real): real { if x < 0.0 then -x else x }

  /** `np.where(y_true != 0, y_true, 1)`. */
  function Divisor(y: real): (d: real)
    ensures d != 0.0 && (y != 0.0 ==> d == y) && (y == 0.0 ==> d == 1.0)
  {
    if y != 0.0 then y else 1.0
  }

  function SquaredErrors(y: seq<real>, p: seq<real>): (r: seq<real>)
    requires |y| == |p|
    ensures |r| == |y| && forall i :: 0 <= i < |y| ==> r[i] == LinearRegression.Square(y[i] - p[i])
  {
    seq(|y|, i requires 0 <= i < |y| => LinearRegression.Square(y[i] - p[i]))
  }

  function AbsoluteErrors(y: seq<real>, p: seq<real>): (r: seq<real>)
    requires |y| == |p|
    ensures |r| == |y| && forall i :: 0 <= i < |y| ==> r[i] == Abs(y[i] - p[i])
  {
    seq(|y|, i requires 0 <= i < |y| => Abs(y[i] - p[i]))
  }

  function RelativeErrors(y: seq<real>, p: seq<real>): (r: seq<real>)
    requires |y| == |p|
    ensures |r| == |y| && forall i :: 0 <= i < |y| ==> r[i] == Abs((y[i] - p[i]) / Divisor(y[i]))
  {
    seq(|y|, i requires 0 <= i < |y| => Abs((y[i] - p[i]) / Divisor(y[i])))
  }

  /** `max(0, x)`. */
  function AtLeastZero(x: real): real { if x > 0.0 then x else 0.0 }

  /** `calculate_regression_metrics`: the library raises on empty or
      mismatched inputs, and the fallback metrics are returned. */
  function RegressionMetrics(yTrue: seq<real>, yPred: seq<real>, r2score: (seq<real>, seq<real>) -> real,
                             sqrt: real -> real): (m: Metrics)
    ensures m.failed <==> |yTrue| == 0 || |yTrue| != |yPred|
    ensures m.failed ==> m == FallbackMetrics
    ensures !m.failed ==> m.r2 == r2score(yTrue, yPred)
  {
    if |yTrue| == 0 || |yTrue| != |yPred| then FallbackMetrics
    else
      var mse := Mean(SquaredErrors(yTrue, yPred));
      var mape := Mean(RelativeErrors(yTrue, yPred)) * 100.0;
      Metrics(r2score(yTrue, yPred), Finite(mse), Finite(sqrt(mse)), Finite(Mean(AbsoluteErrors(yTrue, yPred))),
              mape, AtLeastZero(100.0 - mape), false)
  }

  lemma MeanNonNegative(s: seq<real>)
    requires |s| > 0 && forall i :: 0 <= i < |s| ==> s[i] >= 0.0
    ensures Mean(s) >= 0.0
  {
    SumNonNegative(s);
  }

  lemma {:induction false} SumZero(s: seq<real>)
    requires forall i :: 0 <= i < |s| ==> s[i] == 0.0
    ensures Sum(s) == 0.0
  {
    if |s| > 0 { SumZero(s[..|s| - 1]); }
  }

  /** The accuracy percentage lies in [0, 100]: it is 100 − MAPE clamped at 0,
      and the errors and MAPE are never negative. */
  lemma MetricsBounds(yTrue: seq<real>, yPred: seq<real>, r2score: (seq<real>, seq<real>) -> real, sqrt: real -> real)
    ensures var m := RegressionMetrics(yTrue, yPred, r2score, sqrt);
      && 0.0 <= m.accuracy <= 100.0 && m.mape >= 0.0
      && (m.mape <= 100.0 ==> m.accuracy == 100.0 - m.mape)
      && (m.mape >= 100.0 ==> m.accuracy == 0.0)
      && (m.mse.Finite? ==> m.mse.v >= 0.0) && (m.mae.Finite? ==> m.mae.v >= 0.0)
    ensures RegressionMetrics(yTrue, yPred, r2score, sqrt).failed <==> |yTrue| == 0 || |yTrue| != |yPred|
  {
    if |yTrue| > 0 && |yTrue| == |yPred| {
      forall i | 0 <= i < |yTrue| ensures SquaredErrors(yTrue, yPred)[i] >= 0.0 {
        LinearRegression.SquareNonNegative(yTrue[i] - yPred[i]);
      }
      MeanNonNegative(SquaredErrors(yTrue, yPred));
      MeanNonNegative(AbsoluteErrors(yTrue, yPred));
      MeanNonNegative(RelativeErrors(yTrue, yPred));
    }
  }

  /** A perfect prediction has zero errors and 100 % accuracy. */
  lemma PerfectPrediction(y: seq<real>, r2score: (seq<real>, seq<real>) -> real, sqrt: real -> real)
    requires |y| > 0
    ensures var m := RegressionMetrics(y, y, r2score, sqrt);
      m.mse == Finite(0.0) && m.mae == Finite(0.0) && m.mape == 0.0 && m.accuracy == 100.0
  {
    forall i | 0 <= i < |y| ensures SquaredErrors(y, y)[i] == 0.0 && RelativeErrors(y, y)[i] == 0.0 {
      assert y[i] - y[i] == 0.0;
      assert LinearRegression.Square(0.0) == 0.0;
    }
    SumZero(SquaredErrors(y, y));
    SumZero(AbsoluteErrors(y, y));
    SumZero(RelativeErrors(y, y));
  }

  // ---------- the two algorithms ----------

  datatype Params = LinearParams(coefficients: seq<real>, intercept: real) | KnnParams(bestK: int, tested: seq<int>) | NoParams

  datatype AlgoResult = AlgoResult(algorithm: string, success: bool, metrics: Metrics, params: Params)

  /** The result of an algorithm whose fit raised. */
  function ErrorResult(name: string): AlgoResult
  {
    AlgoResult(name, false, FallbackMetrics, NoParams)
  }

  /** What the library's linear fit gives: test predictions and coefficients. */
  datatype LinearFit = LinearFit(predictions: seq<real>, coefficients: seq<real>, intercept: real)

  /** `run_linear_regression_comparison`. */
  function LinearComparison(yTest: seq<real>, fit: Option<LinearFit>, r2score: (seq<real>, seq<real>) -> real,
                            sqrt: real -> real): (r: AlgoResult)
    ensures r.algorithm == "Linear Regression" && (r.success <==> fit.Some?)
    ensures !r.success ==> r.metrics == FallbackMetrics
  {
    match fit
    case None => ErrorResult("Linear Regression")
    case Some(f) =>
      AlgoResult("Linear Regression", true, RegressionMetrics(yTest, f.predictions, r2score, sqrt),
                 LinearParams(f.coefficients, f.intercept))
  }

  /** The k values tried, and `best_k` before any is tried. */
  const KValues: seq<int> := [3, 5, 7, 9, 11]
  const DefaultK := 5

  /** What the KNN search is given: the test targets, the training-set size,
      the library's predictions for each k (None when the fit raises). */
  datatype KnnInputs = KnnInputs(yTest: seq<real>, trainSize: nat, predict: int -> Option<seq<real>>,
                                 r2score: (seq<real>, seq<real>) -> real, sqrt: real -> real)

  /** `k_val >= len(X_train)` is skipped. */
  predicate Eligible(c: KnnInputs, k: int) { k < c.trainSize }

  /** Every k the loop does not skip has a prediction. */
  predicate Fits(c: KnnInputs, ks: seq<int>)
  {
    forall i :: 0 <= i < |ks| && Eligible(c, ks[i]) ==> c.predict(ks[i]).Some?
  }

  function MetricsFor(c: KnnInputs, k: int): Metrics
    requires c.predict(k).Some?
  {
    RegressionMetrics(c.yTest, c.predict(k).value, c.r2score, c.sqrt)
  }

  /** The best candidate so far: its position in the list, its k and metrics. */
  datatype Best = Best(index: nat, k: int, metrics: Metrics)

  lemma FitsInit(c: KnnInputs, ks: seq<int>, n: nat)
    requires Fits(c, ks) && n <= |ks|
    ensures Fits(c, ks[..n])
  {
    forall i | 0 <= i < n && Eligible(c, ks[..n][i]) ensures c.predict(ks[..n][i]).Some? {
      assert ks[..n][i] == ks[i];
    }
  }

  lemma FitsSnoc(c: KnnInputs, ks: seq<int>, k: int)
    requires Fits(c, ks) && (Eligible(c, k) ==> c.predict(k).Some?)
    ensures Fits(c, ks + [k])
  {
    forall i | 0 <= i < |ks + [k]| && Eligible(c, (ks + [k])[i]) ensures c.predict((ks + [k])[i]).Some? {
      if i < |ks| {
        assert (ks + [k])[i] == ks[i];
      }
    }
  }

  /** The loop's `best_*` variables after `ks`: replaced only by a strictly
      greater R². */
  function BestOf(c: KnnInputs, ks: seq<int>): Option<Best>
    requires Fits(c, ks)
  {
    if |ks| == 0 then None
    else
      FitsInit(c, ks, |ks| - 1);
      var b := BestOf(c, ks[..|ks| - 1]);
      var k := ks[|ks| - 1];
      if !Eligible(c, k) then b
      else
        var m := MetricsFor(c, k);
        if b.None? || m.r2 > b.value.metrics.r2 then Some(Best(|ks| - 1, k, m)) else b
  }

  /** The search finds nothing exactly when every k is skipped. */
  lemma {:induction false} BestOfNone(c: KnnInputs, ks: seq<int>)
    requires Fits(c, ks)
    ensures BestOf(c, ks).None? <==> forall i :: 0 <= i < |ks| ==> !Eligible(c, ks[i])
  {
    if |ks| > 0 {
      var init := ks[..|ks| - 1];
      FitsInit(c, ks, |ks| - 1);
      BestOfNone(c, init);
      assert forall i :: 0 <= i < |init| ==> init[i] == ks[i];
    }
  }

  /** What the search keeps: an eligible k at a recorded position, with its metrics. */
  ghost predicate IsCandidate(c: KnnInputs, ks: seq<int>, b: Best)
  {
    b.index < |ks| && ks[b.index] == b.k && Eligible(c, b.k) && c.predict(b.k).Some? && b.metrics == MetricsFor(c, b.k)
  }

  /** Its R² is maximal among the eligible k, and strictly greater than that of
      every eligible k before it. */
  ghost predicate IsFirstMaximum(c: KnnInputs, ks: seq<int>, b: Best)
    requires Fits(c, ks)
  {
    && (forall i :: 0 <= i < |ks| && Eligible(c, ks[i]) ==> MetricsFor(c, ks[i]).r2 <= b.metrics.r2)
    && (forall i :: 0 <= i < b.index && i < |ks| && Eligible(c, ks[i]) ==> MetricsFor(c, ks[i]).r2 < b.metrics.r2)
  }

  /** Otherwise it returns an eligible k at its position, with its metrics. */
  lemma {:induction false} BestOfCandidate(c: KnnInputs, ks: seq<int>)
    requires Fits(c, ks) && BestOf(c, ks).Some?
    ensures IsCandidate(c, ks, BestOf(c, ks).value)
  {
    var init := ks[..|ks| - 1];
    FitsInit(c, ks, |ks| - 1);
    var b := BestOf(c, init);
    if b.Some? && BestOf(c, ks) == b {
      BestOfCandidate(c, init);
      assert init[b.value.index] == ks[b.value.index];
    }
  }

  /** ... whose R² is maximal ... */
  lemma {:induction false} BestOfMaximal(c: KnnInputs, ks: seq<int>)
    requires Fits(c, ks) && BestOf(c, ks).Some?
    ensures forall i :: 0 <= i < |ks| && Eligible(c, ks[i]) ==> MetricsFor(c, ks[i]).r2 <= BestOf(c, ks).value.metrics.r2
  {
    var init := ks[..|ks| - 1];
    FitsInit(c, ks, |ks| - 1);
    var b := BestOf(c, init);
    assert forall i :: 0 <= i < |init| ==> init[i] == ks[i];
    if b.None? {
      BestOfNone(c, init);
    } else {
      BestOfMaximal(c, init);
    }
  }

  /** ... and strictly greater than that of every eligible k before it. */
  lemma {:induction false} BestOfFirst(c: KnnInputs, ks: seq<int>)
    requires Fits(c, ks) && BestOf(c, ks).Some?
    ensures forall i :: 0 <= i < BestOf(c, ks).value.index && i < |ks| && Eligible(c, ks[i]) ==>
      MetricsFor(c, ks[i]).r2 < BestOf(c, ks).value.metrics.r2
  {
    var init := ks[..|ks| - 1];
    FitsInit(c, ks, |ks| - 1);
    var b := BestOf(c, init);
    var r := BestOf(c, ks).value;
    assert forall i :: 0 <= i < |init| ==> init[i] == ks[i];
    if b.None? {
      BestOfNone(c, init);
    } else if r == b.value {
      BestOfFirst(c, init);
      BestOfCandidate(c, init);
    } else {
      BestOfMaximal(c, init);
    }
  }

  /** Together: the first maximum. */
  lemma BestOfIsFirstMaximum(c: KnnInputs, ks: seq<int>)
    requires Fits(c, ks) && BestOf(c, ks).Some?
    ensures IsCandidate(c, ks, BestOf(c, ks).value) && IsFirstMaximum(c, ks, BestOf(c, ks).value)
  {
    BestOfCandidate(c, ks);
    BestOfMaximal(c, ks);
    BestOfFirst(c, ks);
  }

  /** `run_knn_regression_comparison`: an error result when a fit raises; the
      fallback metrics and k = 5 when every k is skipped. */
  function KnnComparison(c: KnnInputs): (r: AlgoResult)
    ensures r.algorithm == "KNN Regression" && (r.success <==> Fits(c, KValues))
  {
    if !Fits(c, KValues) then ErrorResult("KNN Regression")
    else
      match BestOf(c, KValues)
      case None => AlgoResult("KNN Regression", true, FallbackMetrics, KnnParams(DefaultK, KValues))
      case Some(b) => AlgoResult("KNN Regression", true, b.metrics, KnnParams(b.k, KValues))
  }

  /** When no k is tried the result keeps k = 5 and the fallback metrics; when
      some are, it reports the metrics of the tried k of maximal R², the first
      of several. */
  lemma KnnComparisonBest(c: KnnInputs)
    requires Fits(c, KValues)
    ensures BestOf(c, KValues).None? <==> forall i :: 0 <= i < |KValues| ==> !Eligible(c, KValues[i])
    ensures BestOf(c, KValues).None? ==>
      KnnComparison(c).metrics == FallbackMetrics && KnnComparison(c).params == KnnParams(DefaultK, KValues)
    ensures BestOf(c, KValues).Some? ==>
      var b := BestOf(c, KValues).value;
      && IsCandidate(c, KValues, b) && IsFirstMaximum(c, KValues, b)
      && KnnComparison(c).metrics == b.metrics && KnnComparison(c).params == KnnParams(b.k, KValues)
  {
    BestOfNone(c, KValues);
    if BestOf(c, KValues).Some? {
      BestOfIsFirstMaximum(c, KValues);
    }
  }

  /** The loop over the k values keeping the best score, k and metrics. */
  method KnnRegressionComparison(c: KnnInputs) returns (r: AlgoResult)
    ensures r == KnnComparison(c)
  {
    var bestK := DefaultK;
    var best: Option<Best> := None;
    for i := 0 to |KValues|
      invariant Fits(c, KValues[..i]) && best == BestOf(c, KValues[..i])
      invariant best.None? ==> bestK == DefaultK
      invariant best.Some? ==> bestK == best.value.k
    {
      var k := KValues[i];
      PrefixSnoc(KValues, i);
      if k >= c.trainSize {
        FitsSnoc(c, KValues[..i], k);
        continue;
      }
      var predictions := c.predict(k);
      if predictions.None? {
        assert !Fits(c, KValues);
        return ErrorResult("KNN Regression");
      }
      FitsSnoc(c, KValues[..i], k);
      var metrics := RegressionMetrics(c.yTest, predictions.value, c.r2score, c.sqrt);
      if best.None? || metrics.r2 > best.value.metrics.r2 {
        best := Some(Best(i, k, metrics));
        bestK := k;
      }
    }
    assert KValues[..|KValues|] == KValues;
    if best.None? {
      r := AlgoResult("KNN Regression", true, FallbackMetrics, KnnParams(bestK, KValues));
    } else {
      r := AlgoResult("KNN Regression", true, best.value.metrics, KnnParams(bestK, KValues));
    }
  }

  // ---------- ranking ----------

  datatype Ranked = Ranked(result: AlgoResult, rank: nat, isBest: bool)

  function R2Key(r: AlgoResult): real { r.metrics.r2 }

  predicate IsSuccess(r: AlgoResult) { r.success }

  predicate IsFailure(r: AlgoResult) { !r.success }

  /** `[r for r in results if r["status"] == "success"]`. */
  function Successful(results: seq<AlgoResult>): (ok: seq<AlgoResult>)
    ensures forall r :: r in ok <==> r in results && r.success
  {
    Filter(results, IsSuccess)
  }

  /** `[r for r in results if r["status"] == "error"]`. */
  function Failed(results: seq<AlgoResult>): (bad: seq<AlgoResult>)
    ensures forall r :: r in bad <==> r in results && !r.success
  {
    Filter(results, IsFailure)
  }

  /** Every result is either successful or failed, and nothing is lost. */
  lemma Partition(results: seq<AlgoResult>)
    ensures multiset(Successful(results)) + multiset(Failed(results)) == multiset(results)
    ensures |Successful(results)| + |Failed(results)| == |results|
  {
    FilterPartition(results, IsSuccess, IsFailure);
    assert |multiset(Successful(results))| + |multiset(Failed(results))| == |multiset(results)|;
  }

  /** Successful results sorted by R² descending get ranks 1.., only the first
      is the best, and the failed results follow with the rank after them. */
  function Ranking(results: seq<AlgoResult>): (all: seq<Ranked>)
    ensures |all| == |results|
    ensures forall i :: 0 <= i < |all| ==> all[i].isBest ==> i == 0
    ensures |Successful(results)| > 0 ==> all[0].isBest
  {
    Partition(results);
    Ranks(SortDesc(Successful(results), R2Key), Failed(results))
  }

  /** The ranked entries of sorted successful results `ok` and failed ones `bad`. */
  function Ranks(ok: seq<AlgoResult>, bad: seq<AlgoResult>): seq<Ranked>
  {
    seq(|ok|, i requires 0 <= i < |ok| => Ranked(ok[i], i + 1, i == 0))
      + seq(|bad|, i requires 0 <= i < |bad| => Ranked(bad[i], |ok| + 1, false))
  }

  function ResultsOf(all: seq<Ranked>): (r: seq<AlgoResult>)
    ensures |r| == |all| && forall i :: 0 <= i < |all| ==> r[i] == all[i].result
  {
    seq(|all|, i requires 0 <= i < |all| => all[i].result)
  }

  /** The ranking lists every result exactly once. */
  lemma RankingPermutes(results: seq<AlgoResult>)
    ensures |Ranking(results)| == |results| && multiset(ResultsOf(Ranking(results))) == multiset(results)
  {
    var ok, bad := SortDesc(Successful(results), R2Key), Failed(results);
    assert Ranking(results) == Ranks(ok, bad);
    RanksResults(ok, bad);
    Partition(results);
  }

  lemma RanksResults(ok: seq<AlgoResult>, bad: seq<AlgoResult>)
    ensures ResultsOf(Ranks(ok, bad)) == ok + bad
  {
    var rs := ResultsOf(Ranks(ok, bad));
    assert |rs| == |ok + bad|;
    forall i | 0 <= i < |rs| ensures rs[i] == (ok + bad)[i] {
    }
  }

  /** The ranking's entries: the sorted successful results ranked 1.., only
      the first the best, then the failed ones with the rank after them. */
  lemma RanksAt(ok: seq<AlgoResult>, bad: seq<AlgoResult>, i: int)
    requires 0 <= i < |Ranks(ok, bad)|
    ensures |Ranks(ok, bad)| == |ok| + |bad|
    ensures i < |ok| ==> Ranks(ok, bad)[i] == Ranked(ok[i], i + 1, i == 0)
    ensures |ok| <= i ==> Ranks(ok, bad)[i] == Ranked(bad[i - |ok|], |ok| + 1, false)
  {
  }

  /** The successful results come first, descending in R², ranked 1..s, and
      only rank 1 is the best; the failed ones all get rank s + 1. */
  lemma RankingOrder(results: seq<AlgoResult>)
    ensures var all := Ranking(results); var s := |Successful(results)|;
      && |all| == |results|
      && (forall i :: 0 <= i < s ==> all[i].result.success && all[i].rank == i + 1)
      && (forall i :: s <= i < |all| ==> !all[i].result.success && all[i].rank == s + 1)
      && (forall i :: 0 <= i < |all| ==> (all[i].isBest <==> i == 0 && s > 0))
  {
    var ok := SortDesc(Successful(results), R2Key);
    var bad := Failed(results);
    var all := Ranking(results);
    assert all == Ranks(ok, bad);
    Partition(results);
    forall i | 0 <= i < |all|
      ensures i < |ok| ==> all[i].result.success && all[i].rank == i + 1
      ensures |ok| <= i ==> !all[i].result.success && all[i].rank == |ok| + 1
      ensures all[i].isBest <==> i == 0 && |ok| > 0
    {
      RanksAt(ok, bad, i);
      if i < |ok| {
        assert ok[i] in multiset(ok);
      } else {
        assert bad[i - |ok|] in bad;
      }
    }
  }

  /** Among the successful entries R² never increases. */
  lemma RankingDescends(results: seq<AlgoResult>)
    ensures var all := Ranking(results);
      forall i, j :: 0 <= i < j < |Successful(results)| ==> R2Key(all[i].result) >= R2Key(all[j].result)
  {
    var ok, bad := SortDesc(Successful(results), R2Key), Failed(results);
    var all := Ranking(results);
    assert all == Ranks(ok, bad);
    SortDescSorted(Successful(results), R2Key);
    forall i, j | 0 <= i < j < |ok| ensures R2Key(all[i].result) >= R2Key(all[j].result) {
      RanksAt(ok, bad, i);
      RanksAt(ok, bad, j);
    }
  }

  /** The two ranking loops of the source. */
  method Rank(results: seq<AlgoResult>) returns (all: seq<Ranked>)
    ensures all == Ranking(results)
  {
    var ok := SortDesc(Successful(results), R2Key);
    var bad := Failed(results);
    var ranked: seq<Ranked> := [];
    for i := 0 to |ok|
      invariant |ranked| == i
      invariant forall j :: 0 <= j < i ==> ranked[j] == Ranked(ok[j], j + 1, j == 0)
    {
      ranked := ranked + [Ranked(ok[i], i + 1, i == 0)];
    }
    var failed: seq<Ranked> := [];
    for i := 0 to |bad|
      invariant |failed| == i
      invariant forall j :: 0 <= j < i ==> failed[j] == Ranked(bad[j], |ok| + 1, false)
    {
      failed := failed + [Ranked(bad[i], |ok| + 1, false)];
    }
    RanksOf(ok, bad, ranked, failed);
    all := ranked + failed;
  }

  /** Entries built one by one as the ranking describes them make up the ranking. */
  lemma RanksOf(ok: seq<AlgoResult>, bad: seq<AlgoResult>, ranked: seq<Ranked>, failed: seq<Ranked>)
    requires |ranked| == |ok| && forall j :: 0 <= j < |ok| ==> ranked[j] == Ranked(ok[j], j + 1, j == 0)
    requires |failed| == |bad| && forall j :: 0 <= j < |bad| ==> failed[j] == Ranked(bad[j], |ok| + 1, false)
    ensures ranked + failed == Ranks(ok, bad)
  {
  }

  /** `best_algorithm`: the top successful result's name, if any. */
  function BestAlgorithm(results: seq<AlgoResult>): (r: Option<string>)
    ensures r.None? <==> |Successful(results)| == 0
    ensures r.Some? ==> |Ranking(results)| > 0 && r.value == Ranking(results)[0].result.algorithm
  {
    var ok := SortDesc(Successful(results), R2Key);
    if |ok| > 0 then Some(ok[0].algorithm) else None
  }

  /** The best algorithm is the first successful result of maximal R²; there
      is none exactly when every algorithm failed. */
  lemma BestAlgorithmIsFirstMaximum(results: seq<AlgoResult>)
    ensures BestAlgorithm(results).None? <==> forall r :: r in results ==> !r.success
    ensures BestAlgorithm(results).Some? ==>
      var ok := Successful(results);
      |ok| > 0 && BestAlgorithm(results) == Some(ok[FirstMax(ok, R2Key)].algorithm)
  {
    var ok := Successful(results);
    if |ok| > 0 {
      SortDescHead(ok, R2Key);
      assert ok[0] in ok;
    }
  }

  // ---------- the comparison ----------

  datatype Rejection =
    | NoColumns
    | TargetNotFound(target: string)
    | FeaturesNotFound(missing: seq<string>)
    | NotNumeric
    | TooSmall

  /** What the library's split gives: the two sizes and the test targets. */
  datatype Split = Split(trainSize: nat, testSize: nat, yTest: seq<real>)

  datatype Comparison =
    | Compared(samples: nat, features: seq<string>, target: string, trainSamples: nat, testSamples: nat,
               algorithms: seq<Ranked>, best: Option<string>, total: nat, successful: nat, failed: nat)
    | Rejected(reason: Rejection)

  /** A column pandas can average and fill: no string cells. */
  predicate Averageable(rows: seq<Row>, c: string)
  {
    forall i :: 0 <= i < |rows| ==> !Get(rows[i], c).Str?
  }

  datatype Checked = Valid(features: seq<string>, target: string) | Invalid(reason: Rejection)

  /** `feature_cols or detected_features`: the detection runs when either
      parameter is missing, and fills in only a missing one. */
  function ResolvedFeatures(t: Table, featureCols: Option<seq<string>>): seq<string>
  {
    if GivenList(featureCols) then featureCols.value else DetectedColumns(t).0
  }

  /** `target_col or detected_target`. */
  function ResolvedTarget(t: Table, targetCol: Option<string>): Option<string>
  {
    if Given(targetCol) then targetCol else DetectedColumns(t).1
  }

  /** `[col for col in feature_cols if col not in df.columns]`, in feature order. */
  function MissingFeatures(t: Table, features: seq<string>): seq<string>
  {
    Filter(features, f => f !in t.columns)
  }

  /** The checks before the split, in the order the source makes them. The
      means used to fill missing cells raise on a string column (pandas 2). */
  function Validated(t: Table, featureCols: Option<seq<string>>, targetCol: Option<string>): (r: Checked)
    ensures r.Valid? ==> (|r.features| > 0 && r.target != "" && r.target in t.columns
      && (forall f :: f in r.features ==> f in t.columns && Averageable(t.rows, f))
      && Averageable(t.rows, r.target) && |t.rows| >= 10)
    ensures r.Invalid? && r.reason.FeaturesNotFound? ==>
      |r.reason.missing| > 0 && forall f :: f in r.reason.missing ==> f !in t.columns
    ensures r.Invalid? && r.reason.FeaturesNotFound? ==>
      r.reason.missing == MissingFeatures(t, ResolvedFeatures(t, featureCols))
    ensures var fs, tg := ResolvedFeatures(t, featureCols), ResolvedTarget(t, targetCol);
            if |fs| == 0 || tg.None? || tg.value == "" then r == Invalid(NoColumns)
            else if tg.value !in t.columns then r == Invalid(TargetNotFound(tg.value))
            else if exists f :: f in fs && f !in t.columns then
              r.Invalid? && r.reason.FeaturesNotFound? && forall f :: f in r.reason.missing <==> f in fs && f !in t.columns
            else if (exists f :: f in fs && !Averageable(t.rows, f)) || !Averageable(t.rows, tg.value) then r == Invalid(NotNumeric)
            else if |t.rows| < 10 then r == Invalid(TooSmall)
            else r == Valid(fs, tg.value)
  {
    var features, target := ResolvedFeatures(t, featureCols), ResolvedTarget(t, targetCol);
    if |features| == 0 || target.None? || target.value == "" then Invalid(NoColumns)
    else if target.value !in t.columns then Invalid(TargetNotFound(target.value))
    else if exists f :: f in features && f !in t.columns then
      var missing := MissingFeatures(t, features);
      assert forall f :: f in features && f !in t.columns ==> f in missing;
      Invalid(FeaturesNotFound(missing))
    else if (exists f :: f in features && !Averageable(t.rows, f)) || !Averageable(t.rows, target.value) then Invalid(NotNumeric)
    else if |t.rows| < 10 then Invalid(TooSmall)
    else Valid(features, target.value)
  }

  /** `compare_regression_algorithms`: validation, the two algorithms on the
      library's split, the ranking and the summary; every failed check gives
      status "error". */
  method CompareRegressionAlgorithms(t: Table, featureCols: Option<seq<string>>, targetCol: Option<string>,
                                     split: Split, linear: Option<LinearFit>, knnPredict: int -> Option<seq<real>>,
                                     r2score: (seq<real>, seq<real>) -> real, sqrt: real -> real)
    returns (c: Comparison)
    ensures Validated(t, featureCols, targetCol).Invalid? ==> c == Rejected(Validated(t, featureCols, targetCol).reason)
    ensures Validated(t, featureCols, targetCol).Valid? ==> c.Compared?
    ensures c.Compared? ==>
      var results := [LinearComparison(split.yTest, linear, r2score, sqrt),
                      KnnComparison(KnnInputs(split.yTest, split.trainSize, knnPredict, r2score, sqrt))];
      && Validated(t, featureCols, targetCol) == Valid(c.features, c.target)
      && c.samples == |t.rows| && c.trainSamples == split.trainSize && c.testSamples == split.testSize
      && c.algorithms == Ranking(results)
      && c.best == BestAlgorithm(results)
      && c.total == 2 && c.successful == |Successful(results)| && c.failed == |Failed(results)|
      && c.successful + c.failed == c.total
  {
    var checked := Validated(t, featureCols, targetCol);
    if checked.Invalid? {
      return Rejected(checked.reason);
    }
    var lr := LinearComparison(split.yTest, linear, r2score, sqrt);
    var knn := KnnRegressionComparison(KnnInputs(split.yTest, split.trainSize, knnPredict, r2score, sqrt));
    var results := [lr, knn];
    var ranked := Rank(results);
    Partition(results);
    c := Compared(|t.rows|, checked.features, checked.target, split.trainSize, split.testSize,
                  ranked, BestAlgorithm(results), |results|, |Successful(results)|, |Failed(results)|);
  }
}
