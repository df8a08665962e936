/** backend/main.py: the target-type inference run on an uploaded dataset,
    the algorithms suggested for each inferred kind, the stamping of
    `step_id` and `run_id` onto the step lists of the routes, and the
    `/naivebayes` route, which treats every column as strings, sorts the
    classes and smooths with the number of distinct values inside the class. */
module MainRoutes {
  import opened Common
  import opened Strings
  import opened Detection
  import NaiveBayes
  import NaiveBayesCalc

  // ---------- infer_target_type ----------

  /** The dtype of the target column, as far as the inference looks at it:
      datetime, bool, categorical, object, or any other (numeric dtypes and
      pandas' string dtype). */
  datatype DType = DatetimeType | BoolType | CategoryType | ObjectType | OtherType

  datatype TargetKind = Classification | Regression | UnsupportedDatetime

  /** Which branch decided; each has its own `reason` text. */
  datatype Reason = DatetimeLike | ClassDtype | LimitedUnique | ManyUnique | FailedCoercion

  datatype TargetInfo = TargetInfo(inferred: TargetKind, reason: Reason, n: nat, nNonNull: nat, nUnique: nat, uniqueRatio: real)

  /** The defaults of `max_class_count` and `max_unique_ratio`. */
  const DefaultMaxClassCount := 20
  const DefaultMaxUniqueRatio := 0.05

  /** A target whose fraction of cells failing numeric coercion is below this
      limit counts as numeric. */
  const NonNumericLimit := 0.05

  /** `max(1, size)`. */
  function AtLeastOne(size: nat): (r: nat)
    ensures r >= 1 && r >= size
    ensures size > 0 ==> r == size
  {
    if size > 1 then size else 1
  }

  /** `count / max(1, size)`: defined for every size, zero included. */
  function UniqueRatio(count: nat, size: nat): real
  {
    count as real / AtLeastOne(size) as real
  }

  lemma UniqueRatioBounds(count: nat, size: nat)
    requires count <= size
    ensures 0.0 <= UniqueRatio(count, size) <= 1.0
  {
    var d := AtLeastOne(size) as real;
    assert count as real <= d;
    assert count as real / d <= d / d;
    DivSelf(d);
  }

  /** `pd.to_numeric(v, errors="coerce")` on one non-missing cell, with
      `parse` standing for pandas' string-to-number parser. */
  function Coerce(parse: string -> Option<real>, v: Value): Option<real>
  {
    match v
    case Num(x) => Some(x)
    case Str(s) => parse(s)
    case Null => None
  }

  /** The cells that coerce to numbers, as numbers, in order. */
  function Coerced(parse: string -> Option<real>, vs: seq<Value>): (r: seq<real>)
    ensures |r| <= |vs|
  {
    if |vs| == 0 then []
    else
      var last := Coerce(parse, vs[|vs| - 1]);
      Coerced(parse, vs[..|vs| - 1]) + (if last.Some? then [last.value] else [])
  }

  /** `coerced.isna().mean() < 0.05`: the mean over an empty series is NaN,
      and a comparison with NaN is false. */
  predicate MostlyNumeric(failed: nat, size: nat)
  {
    size > 0 && failed as real / size as real < NonNumericLimit
  }

  /** `infer_target_type`: datetime targets are unsupported; bool, category
      and object targets are classification; otherwise a target that is
      mostly numeric is classification when it has few distinct numbers or
      a small ratio of them, regression else, and a target that is not is
      classification. */
  function InferTargetType(dtype: DType, s: seq<Value>, parse: string -> Option<real>, maxClassCount: int, maxUniqueRatio: real)
    : (r: TargetInfo)
    ensures r.n == |s| && r.nNonNull == |NonNull(s)|
    ensures r.inferred == UnsupportedDatetime <==> dtype == DatetimeType
    ensures dtype in {BoolType, CategoryType, ObjectType} ==> r.inferred == Classification
    ensures r.inferred == Regression <==>
      && dtype == OtherType
      && MostlyNumeric(|NonNull(s)| - |Coerced(parse, NonNull(s))|, |NonNull(s)|)
      && |Distinct(Coerced(parse, NonNull(s)))| > maxClassCount
      && UniqueRatio(|Distinct(Coerced(parse, NonNull(s)))|, |NonNull(s)|) > maxUniqueRatio
    ensures r.reason == FailedCoercion <==>
      dtype == OtherType && !MostlyNumeric(|NonNull(s)| - |Coerced(parse, NonNull(s))|, |NonNull(s)|)
    ensures r.reason == FailedCoercion ==> r.inferred == Classification
  {
    var nonnull := NonNull(s);
    var nunique := |Distinct(nonnull)|;
    if dtype == DatetimeType then
      TargetInfo(UnsupportedDatetime, DatetimeLike, |s|, |nonnull|, nunique, UniqueRatio(nunique, |nonnull|))
    else if dtype != OtherType then
      TargetInfo(Classification, ClassDtype, |s|, |nonnull|, nunique, UniqueRatio(nunique, |nonnull|))
    else
      var nums := Coerced(parse, nonnull);
      if MostlyNumeric(|nonnull| - |nums|, |nonnull|) then
        var nuniqueNum := |Distinct(nums)|;
        var ratio := UniqueRatio(nuniqueNum, |nonnull|);
        if nuniqueNum <= maxClassCount || ratio <= maxUniqueRatio then
          TargetInfo(Classification, LimitedUnique, |s|, |nonnull|, nuniqueNum, ratio)
        else
          TargetInfo(Regression, ManyUnique, |s|, |nonnull|, nuniqueNum, ratio)
      else
        TargetInfo(Classification, FailedCoercion, |s|, |nonnull|, nunique, UniqueRatio(nunique, |nonnull|))
  }

  /** The reported counts are consistent: never more distinct values than
      non-missing cells, never more of those than cells, and the unique
      ratio lies in [0, 1]. */
  lemma InferredCountsBounded(dtype: DType, s: seq<Value>, parse: string -> Option<real>, maxClassCount: int, maxUniqueRatio: real)
    ensures var r := InferTargetType(dtype, s, parse, maxClassCount, maxUniqueRatio);
            r.nUnique <= r.nNonNull <= r.n && 0.0 <= r.uniqueRatio <= 1.0
  {
    var nonnull := NonNull(s);
    DistinctProps(nonnull);
    DistinctProps(Coerced(parse, nonnull));
    var r := InferTargetType(dtype, s, parse, maxClassCount, maxUniqueRatio);
    UniqueRatioBounds(r.nUnique, |nonnull|);
  }

  /** Raising either threshold never turns a classification into a regression. */
  lemma LooserThresholdsKeepClassification(dtype: DType, s: seq<Value>, parse: string -> Option<real>,
                                           maxClassCount: int, maxUniqueRatio: real, maxClassCount': int, maxUniqueRatio': real)
    requires maxClassCount <= maxClassCount' && maxUniqueRatio <= maxUniqueRatio'
    requires InferTargetType(dtype, s, parse, maxClassCount, maxUniqueRatio).inferred == Classification
    ensures InferTargetType(dtype, s, parse, maxClassCount', maxUniqueRatio').inferred == Classification
  {
  }

  /** A target with no non-missing cell and no class dtype is classification:
      the fraction of failed coercions over nothing is NaN. */
  lemma AllMissingIsClassification(s: seq<Value>, parse: string -> Option<real>, maxClassCount: int, maxUniqueRatio: real)
    requires forall i :: 0 <= i < |s| ==> s[i] == Null
    ensures InferTargetType(OtherType, s, parse, maxClassCount, maxUniqueRatio).inferred == Classification
    ensures InferTargetType(OtherType, s, parse, maxClassCount, maxUniqueRatio).reason == FailedCoercion
  {
    if |NonNull(s)| > 0 {
      assert NonNull(s)[0] in NonNull(s);
    }
  }

  /** The `suggested_algorithms` of the upload response: it depends on the
      inferred kind alone. */
  function SuggestedAlgorithms(kind: TargetKind): (r: seq<string>)
    ensures r == [] <==> kind == UnsupportedDatetime
    ensures "naive_bayes" in r <==> kind == Classification
    ensures "id3" in r <==> kind == Classification
    ensures "linear_regression" in r <==> kind == Regression
  {
    match kind
    case Classification => ["id3", "c4.5", "cart", "naive_bayes", "knn"]
    case Regression => ["linear_regression", "knn_regression"]
    case UnsupportedDatetime => []
  }

  // ---------- step stamping ----------

  /** One step of a route's result: the engine's own fields, and the
      `run_id` and `step_id` the route sets. */
  datatype Step<P> = Step(body: P, runId: Option<string>, stepId: Option<int>)

  /** The step list after `for i, s in enumerate(steps, start=1)`. */
  function Stamped<P>(steps: seq<Step<P>>, runId: string): (r: seq<Step<P>>)
    ensures |r| == |steps|
  {
    if |steps| == 0 then []
    else Stamped(steps[..|steps| - 1], runId) + [Step(steps[|steps| - 1].body, Some(runId), Some(|steps|))]
  }

  /** Stamped steps keep their fields, all share the run id, and are numbered
      1, 2, … in list order. */
  lemma {:induction false} StampedAt<P>(steps: seq<Step<P>>, runId: string)
    ensures forall i :: 0 <= i < |steps| ==> Stamped(steps, runId)[i] == Step(steps[i].body, Some(runId), Some(i + 1))
  {
    if |steps| > 0 {
      StampedAt(steps[..|steps| - 1], runId);
    }
  }

  /** The stamping loop of the `/id3`, `/simplelinearregression` and
      `/knnregression` routes, updating each step in place; the uuid
      `run_id` is a parameter. */
  method StampSteps<P>(steps: array<Step<P>>, runId: string)
    modifies steps
    ensures steps[..] == Stamped(old(steps[..]), runId)
  {
    for i := 0 to steps.Length
      invariant forall j :: 0 <= j < i ==> steps[j] == Step(old(steps[j]).body, Some(runId), Some(j + 1))
      invariant forall j :: i <= j < steps.Length ==> steps[j] == old(steps[j])
    {
      steps[i] := Step(steps[i].body, Some(runId), Some(i + 1));
    }
    StampedAt(old(steps[..]), runId);
  }

  // ---------- the /naivebayes route ----------

  /** `astype("string")` on one cell: `show` prints a number, a missing cell
      stays missing. */
  function AsString(show: real -> string, v: Value): Option<string>
  {
    match v
    case Num(x) => Some(show(x))
    case Str(s) => Some(s)
    case Null => None
  }

  /** Column `c` after `astype("string")`. */
  function StringColumn(show: real -> string, rows: seq<Row>, c: string): (r: seq<Option<string>>)
    ensures |r| == |rows|
    ensures forall i :: 0 <= i < |rows| ==> r[i] == AsString(show, Get(rows[i], c))
  {
    if |rows| == 0 then [] else StringColumn(show, rows[..|rows| - 1], c) + [AsString(show, Get(rows[|rows| - 1], c))]
  }

  /** The non-missing strings, in order (`dropna()`). */
  function Present(cells: seq<Option<string>>): (r: seq<string>)
    ensures forall x :: x in r <==> Some(x) in cells
  {
    if |cells| == 0 then []
    else
      var last := cells[|cells| - 1];
      assert cells == cells[..|cells| - 1] + [last];
      Present(cells[..|cells| - 1]) + (if last.Some? then [last.value] else [])
  }

  /** `sorted(y.dropna().unique().tolist())`. */
  function RouteClasses(show: real -> string, rows: seq<Row>, target: string): seq<string>
  {
    Unique(Present(StringColumn(show, rows, target)))
  }

  /** The classes are sorted, each listed once, and are exactly the labels
      present in the target column. */
  lemma RouteClassesSorted(show: real -> string, rows: seq<Row>, target: string)
    ensures SortedAsc(RouteClasses(show, rows, target))
    ensures NoDuplicates(RouteClasses(show, rows, target))
    ensures forall c :: c in RouteClasses(show, rows, target) <==> Some(c) in StringColumn(show, rows, target)
  {
    UniqueProps(Present(StringColumn(show, rows, target)));
  }

  /** `df[y == c]`: the rows labelled `c`; a missing label equals nothing. */
  function ClassRows(show: real -> string, rows: seq<Row>, target: string, c: string): (r: seq<Row>)
    ensures |r| <= |rows|
  {
    if |rows| == 0 then []
    else
      var last := rows[|rows| - 1];
      ClassRows(show, rows[..|rows| - 1], target, c) + (if AsString(show, Get(last, target)) == Some(c) then [last] else [])
  }

  lemma {:induction false} ClassRowsSize(show: real -> string, rows: seq<Row>, target: string, c: string)
    ensures |ClassRows(show, rows, target, c)| == Count(StringColumn(show, rows, target), Some(c))
  {
    if |rows| > 0 {
      ClassRowsSize(show, rows[..|rows| - 1], target, c);
      assert StringColumn(show, rows, target)[..|rows| - 1] == StringColumn(show, rows[..|rows| - 1], target);
    }
  }

  /** `count / N` for a class with `count` rows, 0 when there are no rows. */
  function RoutePrior(show: real -> string, rows: seq<Row>, target: string, c: string): real
  {
    if |rows| > 0 then Count(StringColumn(show, rows, target), Some(c)) as real / |rows| as real else 0.0
  }

  /** `nunique(dropna=False) or 1`: the distinct cells, a missing one counted
      once, and 1 for an empty column. */
  function DistinctOrOne(cells: seq<Option<string>>): (k: nat)
    ensures k >= 1
  {
    if |Distinct(cells)| == 0 then 1 else |Distinct(cells)|
  }

  /** `(count + 1) / (n + k)`, guarded by `n + k > 0`. */
  function LaplaceRatio(count: nat, n: nat, k: nat): real
  {
    if n + k > 0 then (count as real + 1.0) / (n + k) as real else 0.0
  }

  /** The likelihood of value `val` of `feature` within class `c`. */
  function RouteLikelihood(show: real -> string, rows: seq<Row>, target: string, c: string, feature: string, val: string): real
  {
    var cells := StringColumn(show, ClassRows(show, rows, target, c), feature);
    LaplaceRatio(Count(cells, Some(val)), |cells|, DistinctOrOne(cells))
  }

  /** Every likelihood lies in (0, 1]: k is at least 1 and the count is at
      most the class size. */
  lemma RouteLikelihoodBounds(show: real -> string, rows: seq<Row>, target: string, c: string, feature: string, val: string)
    ensures 0.0 < RouteLikelihood(show, rows, target, c, feature, val) <= 1.0
  {
    var cells := StringColumn(show, ClassRows(show, rows, target, c), feature);
    var n := |cells|;
    var k := DistinctOrOne(cells);
    CountBounds(cells, Some(val));
    var num := Count(cells, Some(val)) as real + 1.0;
    var den := (n + k) as real;
    assert num <= den;
    DivPositive(num, den);
    DivAtMostOne(num, den);
  }

  /** `str(example.get(feature, ""))`: a missing feature is the empty string
      and a JSON null prints as "None". */
  function ExampleString(show: real -> string, ex: map<string, Value>, feature: string): string
  {
    if feature !in ex then ""
    else match ex[feature]
      case Num(x) => show(x)
      case Str(s) => s
      case Null => "None"
  }

  /** The likelihoods of class `c`, one per feature, for the example. */
  function LikelihoodRowOf(show: real -> string, rows: seq<Row>, target: string, c: string, feats: seq<string>, ex: map<string, Value>)
    : seq<real>
  {
    seq(|feats|, i requires 0 <= i < |feats| => RouteLikelihood(show, rows, target, c, feats[i], ExampleString(show, ex, feats[i])))
  }

  /** `post = prior; for each factor: post *= factor`. */
  function Times(prior: real, factors: seq<real>): real
  {
    if |factors| == 0 then prior else Times(prior, factors[..|factors| - 1]) * factors[|factors| - 1]
  }

  lemma {:induction false} TimesPositive(prior: real, factors: seq<real>)
    requires prior > 0.0 && forall i :: 0 <= i < |factors| ==> factors[i] > 0.0
    ensures Times(prior, factors) > 0.0
  {
    if |factors| > 0 {
      TimesPositive(prior, factors[..|factors| - 1]);
      NaiveBayes.MulPositive(Times(prior, factors[..|factors| - 1]), factors[|factors| - 1]);
    }
  }

  /** The unnormalised posterior of class `c`. */
  function RoutePosterior(show: real -> string, rows: seq<Row>, target: string, feats: seq<string>, ex: map<string, Value>, c: string): real
  {
    Times(RoutePrior(show, rows, target, c), LikelihoodRowOf(show, rows, target, c, feats, ex))
  }

  /** The fallback when the evidence is not positive: one share per class. */
  function Uniform(n: nat): (r: seq<real>)
    ensures |r| == n
  {
    seq(n, _ => 1.0 / AtLeastOne(n) as real)
  }

  lemma {:induction false} SumConstant(s: seq<real>, x: real)
    requires forall i :: 0 <= i < |s| ==> s[i] == x
    ensures Sum(s) == |s| as real * x
  {
    if |s| > 0 {
      SumConstant(s[..|s| - 1], x);
    }
  }

  /** The normalised posteriors: divided by the evidence when it is positive,
      uniform otherwise. */
  function RouteNormalized(posts: seq<real>): (r: seq<real>)
    ensures |r| == |posts|
  {
    if Sum(posts) > 0.0 then NaiveBayes.Normalize(posts, Sum(posts)) else Uniform(|posts|)
  }

  /** Both branches give a distribution over a non-empty class list. */
  lemma RouteNormalizedSumToOne(posts: seq<real>)
    requires |posts| > 0
    ensures Sum(RouteNormalized(posts)) == 1.0
  {
    if Sum(posts) > 0.0 {
      NaiveBayes.NormalizedSumToOne(posts);
    } else {
      var n := |posts| as real;
      SumConstant(Uniform(|posts|), 1.0 / n);
      assert n * (1.0 / n) == n / n;
      DivSelf(n);
    }
  }

  /** A class of the table has a positive prior and positive likelihoods, so
      its posterior is positive: with exact arithmetic the evidence of a
      non-empty class list is positive and the uniform fallback is never
      taken. */
  lemma RoutePosteriorPositive(show: real -> string, rows: seq<Row>, target: string, feats: seq<string>, ex: map<string, Value>, c: string)
    requires c in RouteClasses(show, rows, target)
    ensures RoutePosterior(show, rows, target, feats, ex, c) > 0.0
  {
    RouteClassesSorted(show, rows, target);
    var y := StringColumn(show, rows, target);
    CountBounds(y, Some(c));
    DivPositive(Count(y, Some(c)) as real, |rows| as real);
    var row := LikelihoodRowOf(show, rows, target, c, feats, ex);
    forall i | 0 <= i < |row| ensures row[i] > 0.0 {
      RouteLikelihoodBounds(show, rows, target, c, feats[i], ExampleString(show, ex, feats[i]));
    }
    TimesPositive(RoutePrior(show, rows, target, c), row);
  }

  /** What the route returns: the feature columns, the sorted classes with
      their counts and priors, the likelihood table (class × feature), the
      unnormalised and normalised posteriors, the evidence, and the
      prediction with its confidence. */
  datatype RouteReport = RouteReport(
    features: seq<string>, classes: seq<string>, counts: seq<nat>, priors: seq<real>,
    likelihoods: seq<seq<real>>, posteriors: seq<real>, evidence: real, normalized: seq<real>,
    predicted: string, confidence: real)

  /** The checks before the computation, in the route's order: dataset id,
      target, algorithm (`(algorithm or "").strip().lower()`), the dataset
      file (404 when no upload matches), the target column. */
  function RouteCheck(req: NaiveBayesCalc.Request, dataset: Option<Table>): (r: Option<Failure>)
    ensures r.None? <==>
      && Given(req.datasetId) && Given(req.target)
      && Lower(Strip(if req.algorithm.Some? then req.algorithm.value else "")) == "naive_bayes"
      && dataset.Some? && req.target.value in dataset.value.columns
    ensures r.Some? ==> r.value in {HttpError(400), HttpError(404)}
    ensures r == Some(HttpError(404)) ==> dataset.None?
  {
    var algo := Lower(Strip(if req.algorithm.Some? then req.algorithm.value else ""));
    if !Given(req.datasetId) then Some(HttpError(400))
    else if !Given(req.target) then Some(HttpError(400))
    else if algo != "naive_bayes" then Some(HttpError(400))
    else if dataset.None? then Some(HttpError(404))
    else if req.target.value !in dataset.value.columns then Some(HttpError(400))
    else None
  }

  /** Step 1: the class counts and priors, class by class. */
  method RoutePriors(show: real -> string, rows: seq<Row>, target: string, classes: seq<string>)
    returns (counts: seq<nat>, priors: seq<real>)
    ensures |counts| == |classes| && |priors| == |classes|
    ensures forall j :: 0 <= j < |classes| ==> counts[j] == Count(StringColumn(show, rows, target), Some(classes[j]))
    ensures forall j :: 0 <= j < |classes| ==> priors[j] == RoutePrior(show, rows, target, classes[j])
  {
    var y := StringColumn(show, rows, target);
    var total := |rows| as real;
    counts, priors := [], [];
    for j := 0 to |classes|
      invariant |counts| == j && |priors| == j
      invariant forall i :: 0 <= i < j ==> counts[i] == Count(y, Some(classes[i]))
      invariant forall i :: 0 <= i < j ==> priors[i] == RoutePrior(show, rows, target, classes[i])
    {
      var count := Count(y, Some(classes[j]));
      var prior := if total > 0.0 then count as real / total else 0.0;
      counts, priors := counts + [count], priors + [prior];
    }
  }

  /** Step 2: the likelihood table, filled class by class and feature by feature. */
  method RouteLikelihoods(show: real -> string, rows: seq<Row>, target: string, feats: seq<string>, ex: map<string, Value>, classes: seq<string>)
    returns (table: seq<seq<real>>)
    ensures |table| == |classes|
    ensures forall j :: 0 <= j < |classes| ==> table[j] == LikelihoodRowOf(show, rows, target, classes[j], feats, ex)
  {
    table := [];
    for j := 0 to |classes|
      invariant |table| == j
      invariant forall i :: 0 <= i < j ==> table[i] == LikelihoodRowOf(show, rows, target, classes[i], feats, ex)
    {
      var c := classes[j];
      var row: seq<real> := [];
      for f := 0 to |feats|
        invariant |row| == f
        invariant forall i :: 0 <= i < f ==> row[i] == RouteLikelihood(show, rows, target, c, feats[i], ExampleString(show, ex, feats[i]))
      {
        var val := ExampleString(show, ex, feats[f]);
        var cells := StringColumn(show, ClassRows(show, rows, target, c), feats[f]);
        var n := |cells|;
        var k := DistinctOrOne(cells);
        var prob := if n + k > 0 then (Count(cells, Some(val)) as real + 1.0) / (n + k) as real else 0.0;
        row := row + [prob];
      }
      table := table + [row];
    }
  }

  /** Step 3: each class's prior multiplied by its likelihoods. */
  method RoutePosteriorLoop(priors: seq<real>, table: seq<seq<real>>) returns (posts: seq<real>)
    requires |table| == |priors|
    ensures |posts| == |priors|
    ensures forall j :: 0 <= j < |priors| ==> posts[j] == Times(priors[j], table[j])
  {
    posts := [];
    for j := 0 to |priors|
      invariant |posts| == j
      invariant forall i :: 0 <= i < j ==> posts[i] == Times(priors[i], table[i])
    {
      var post := priors[j];
      for f := 0 to |table[j]|
        invariant post == Times(priors[j], table[j][..f])
      {
        assert table[j][..f + 1][..f] == table[j][..f];
        post := post * table[j][f];
      }
      assert table[j][..|table[j]|] == table[j];
      posts := posts + [post];
    }
  }

  /** Step 4: divide by a positive evidence, or share uniformly. */
  method RouteNormalize(posts: seq<real>, evidence: real) returns (normalized: seq<real>)
    requires evidence == Sum(posts)
    ensures normalized == RouteNormalized(posts)
  {
    normalized := [];
    if evidence > 0.0 {
      for j := 0 to |posts|
        invariant normalized == NaiveBayes.Normalize(posts[..j], evidence)
      {
        assert posts[..j + 1][..j] == posts[..j];
        normalized := normalized + [posts[j] / evidence];
      }
      assert posts[..|posts|] == posts;
    } else {
      var uniform := if |posts| > 0 then 1.0 / AtLeastOne(|posts|) as real else 0.0;
      for j := 0 to |posts|
        invariant |normalized| == j
        invariant forall i :: 0 <= i < j ==> normalized[i] == 1.0 / AtLeastOne(|posts|) as real
      {
        normalized := normalized + [uniform];
      }
    }
  }

  /** What a report of the route on table t states: the features are the
      other columns, the classes the sorted distinct present labels, with
      each class's count, prior, likelihood row and posterior, the evidence
      their sum, normalised posteriors summing to 1, and the first class of
      maximal normalised posterior with its confidence. */
  ghost predicate RouteReports(rep: RouteReport, t: Table, target: string, ex: map<string, Value>, show: real -> string)
  {
    var y := StringColumn(show, t.rows, target);
    && |rep.classes| == |rep.normalized| > 0
    && rep.features == Without(t.columns, target)
    && rep.classes == RouteClasses(show, t.rows, target)
    && |rep.counts| == |rep.classes| && |rep.priors| == |rep.classes| && |rep.likelihoods| == |rep.classes|
    && (forall j :: 0 <= j < |rep.classes| ==> rep.counts[j] == Count(y, Some(rep.classes[j])))
    && (forall j :: 0 <= j < |rep.classes| ==> rep.priors[j] == RoutePrior(show, t.rows, target, rep.classes[j]))
    && (forall j :: 0 <= j < |rep.classes| ==>
          rep.likelihoods[j] == LikelihoodRowOf(show, t.rows, target, rep.classes[j], rep.features, ex))
    && |rep.posteriors| == |rep.classes|
    && (forall j :: 0 <= j < |rep.classes| ==>
          rep.posteriors[j] == RoutePosterior(show, t.rows, target, rep.features, ex, rep.classes[j]))
    && rep.evidence == Sum(rep.posteriors)
    && rep.normalized == RouteNormalized(rep.posteriors)
    && Sum(rep.normalized) == 1.0
    && rep.predicted == rep.classes[FirstMax(rep.normalized, NaiveBayes.Identity)]
    && rep.confidence == rep.normalized[FirstMax(rep.normalized, NaiveBayes.Identity)]
  }

  /** The route's computation after its checks; no class gives 422. */
  method RouteCompute(t: Table, target: string, ex: map<string, Value>, show: real -> string) returns (r: Result<RouteReport>)
    ensures r.Err? <==> |RouteClasses(show, t.rows, target)| == 0
    ensures r.Err? ==> r.failure == HttpError(422)
    ensures r.Ok? ==> |r.value.classes| == |r.value.normalized| > 0
    ensures r.Ok? ==> RouteReports(r.value, t, target, ex, show)
  {
    var classes := RouteClasses(show, t.rows, target);
    var feats := Without(t.columns, target);
    var counts, priors := RoutePriors(show, t.rows, target, classes);
    var table := RouteLikelihoods(show, t.rows, target, feats, ex, classes);
    var posts := RoutePosteriorLoop(priors, table);
    var evidence := Sum(posts);
    var normalized := RouteNormalize(posts, evidence);
    if |normalized| == 0 {
      return Err(HttpError(422));
    }
    RouteNormalizedSumToOne(posts);
    var m := FirstMax(normalized, NaiveBayes.Identity);
    var rep := RouteReport(feats, classes, counts, priors, table, posts, evidence, normalized, classes[m], normalized[m]);
    assert forall j :: 0 <= j < |classes| ==> posts[j] == RoutePosterior(show, t.rows, target, feats, ex, classes[j]);
    assert RouteReports(rep, t, target, ex, show);
    r := Ok(rep);
  }

  /** `naive_bayes_calculation` of backend/main.py, the dataset lookup and
      file read being the parameter `dataset`: HTTP errors pass through with
      their own status. */
  method NaiveBayesRoute(req: NaiveBayesCalc.Request, dataset: Option<Table>, show: real -> string) returns (r: Result<RouteReport>)
    ensures RouteCheck(req, dataset).Some? ==> r == Err(RouteCheck(req, dataset).value)
    ensures RouteCheck(req, dataset).None? ==>
      (r.Err? <==> |RouteClasses(show, dataset.value.rows, req.target.value)| == 0)
    ensures r.Err? ==> r.failure in {HttpError(400), HttpError(404), HttpError(422)}
    ensures r.Ok? ==> RouteCheck(req, dataset).None? && |r.value.classes| == |r.value.normalized| > 0
    ensures r.Ok? ==> RouteReports(r.value, dataset.value, req.target.value, req.example, show)
  {
    var failure := RouteCheck(req, dataset);
    if failure.Some? {
      return Err(failure.value);
    }
    r := RouteCompute(dataset.value, req.target.value, req.example, show);
  }

  /** The evidence the route computes on a table with at least one class is
      positive: every posterior is. */
  lemma RouteEvidencePositive(show: real -> string, t: Table, target: string, ex: map<string, Value>, posts: seq<real>)
    requires |RouteClasses(show, t.rows, target)| > 0
    requires |posts| == |RouteClasses(show, t.rows, target)|
    requires forall j :: 0 <= j < |posts| ==>
      posts[j] == RoutePosterior(show, t.rows, target, Without(t.columns, target), ex, RouteClasses(show, t.rows, target)[j])
    ensures Sum(posts) > 0.0
    ensures RouteNormalized(posts) == NaiveBayes.Normalize(posts, Sum(posts))
  {
    var classes := RouteClasses(show, t.rows, target);
    forall j | 0 <= j < |posts| ensures posts[j] > 0.0 {
      RoutePosteriorPositive(show, t.rows, target, Without(t.columns, target), ex, classes[j]);
    }
    NaiveBayes.SumPositive(posts);
  }
}
