/** The `/calculation` Naive Bayes route of backend/naiveBayes.py: priors,
    raw frequencies that are smoothed only for values the class never shows,
    posteriors over every non-target column, normalisation in place and the
    first maximum. Every failure, the route's own 400 and 404 included, is
    caught by the final handler and surfaces as status 500. */
module NaiveBayesCalc {
  import opened Common
  import opened Strings
  import NaiveBayes

  /** The request body: dataset id, algorithm, and the `params` entries
      `target` and `example` (a dictionary from feature to value). */
  datatype Request = Request(datasetId: Option<string>, algorithm: Option<string>, target: Option<string>, example: map<string, Value>)

  /** The failure the checks before the computation raise, in the order the
      route makes them: `algorithm.lower()` on a missing algorithm, an
      algorithm other than naive_bayes (400), no dataset file (404, the file
      read being the parameter `dataset`), a target outside the columns (400,
      a missing target included). */
  function CheckFailure(req: Request, dataset: Option<Table>): (r: Option<Failure>)
    ensures r.None? <==>
      && req.algorithm.Some? && Lower(req.algorithm.value) == "naive_bayes"
      && dataset.Some? && req.target.Some? && req.target.value in dataset.value.columns
    ensures r.Some? && req.algorithm.Some? && Lower(req.algorithm.value) != "naive_bayes" ==> r.value == HttpError(400)
  {
    if req.algorithm.None? then Some(Raised("AttributeError"))
    else if Lower(req.algorithm.value) != "naive_bayes" then Some(HttpError(400))
    else if dataset.None? then Some(HttpError(404))
    else if req.target.None? || req.target.value !in dataset.value.columns then Some(HttpError(400))
    else None
  }

  /** `example.get(feature)`: a feature the example lacks reads as None. */
  function ExampleValue(ex: map<string, Value>, feature: string): Value
  {
    if feature in ex then ex[feature] else Null
  }

  // ---------- priors ----------

  /** `len(y[y == c])`: a missing value equals nothing, so the missing class
      has no rows. */
  function ClassSize(rows: seq<Row>, target: string, c: Value): nat
  {
    if c == Null then 0 else Count(Column(rows, target), c)
  }

  /** `len(y[y == c]) / total`. */
  function RawPrior(rows: seq<Row>, target: string, c: Value): real
    requires |rows| > 0
  {
    ClassSize(rows, target, c) as real / |rows| as real
  }

  /** For a present class the prior is the one of backend/naive_bayes.py. */
  lemma RawPriorIsPrior(rows: seq<Row>, target: string, c: Value)
    requires |rows| > 0 && c != Null
    ensures RawPrior(rows, target, c) == NaiveBayes.Prior(rows, target, c)
  {
  }

  function PriorList(rows: seq<Row>, target: string, cs: seq<Value>): (r: seq<real>)
    requires |rows| > 0
    ensures |r| == |cs|
  {
    if |cs| == 0 then [] else PriorList(rows, target, cs[..|cs| - 1]) + [RawPrior(rows, target, cs[|cs| - 1])]
  }

  lemma {:induction false} PriorListSum(rows: seq<Row>, target: string, cs: seq<Value>)
    requires |rows| > 0 && Null !in cs
    ensures Sum(PriorList(rows, target, cs)) == NaiveBayes.PriorSum(rows, target, cs)
  {
    if |cs| > 0 {
      PriorListSum(rows, target, cs[..|cs| - 1]);
      RawPriorIsPrior(rows, target, cs[|cs| - 1]);
    }
  }

  /** Without a missing target cell the priors of the classes sum to 1. */
  lemma PriorsSumToOne(rows: seq<Row>, target: string)
    requires |rows| > 0 && Null !in Column(rows, target)
    ensures Sum(PriorList(rows, target, Distinct(Column(rows, target)))) == 1.0
  {
    DistinctProps(Column(rows, target));
    PriorListSum(rows, target, Distinct(Column(rows, target)));
    NaiveBayes.PriorsSumToOne(rows, target);
  }

  /** The priors loop: one prior per class, in class order. */
  method ComputePriors(rows: seq<Row>, target: string, classes: seq<Value>) returns (priors: seq<real>)
    requires |rows| > 0
    ensures priors == PriorList(rows, target, classes)
  {
    priors := [];
    for j := 0 to |classes|
      invariant priors == PriorList(rows, target, classes[..j])
    {
      assert classes[..j + 1][..j] == classes[..j];
      var c := classes[j];
      var size := if c == Null then 0 else Count(Column(rows, target), c);
      priors := priors + [size as real / |rows| as real];
    }
    assert classes[..|classes|] == classes;
  }

  // ---------- likelihoods ----------

  /** `subset[feature]` with `subset = df[df[target] == c]`. */
  function Cells(rows: seq<Row>, target: string, feature: string, c: Value): seq<Value>
  {
    if c == Null then [] else Column(RowsWhere(rows, target, c), feature)
  }

  /** A value the class's cells show (missing values are never counted) has
      likelihood count / |subset|; any other value 1 / (|subset| + #distinct
      cells, a missing one included); None when that denominator is 0
      (ZeroDivisionError). */
  function RawLikelihood(cells: seq<Value>, v: Value): Option<real>
  {
    if v != Null && v in cells then Some(Count(cells, v) as real / |cells| as real)
    else if |cells| + |Uniques(cells)| == 0 then None
    else Some(1.0 / (|cells| + |Uniques(cells)|) as real)
  }

  /** Every likelihood lies in (0, 1], and it is missing only for a class
      without rows. */
  lemma RawLikelihoodBounds(cells: seq<Value>, v: Value)
    ensures RawLikelihood(cells, v).None? <==> |cells| == 0
    ensures RawLikelihood(cells, v).Some? ==> 0.0 < RawLikelihood(cells, v).value <= 1.0
  {
    CountBounds(cells, v);
    if |cells| > 0 {
      assert cells[0] in cells;
      if v != Null && v in cells {
        DivAtMostOne(Count(cells, v) as real, |cells| as real);
      } else {
        DivAtMostOne(1.0, (|cells| + |Uniques(cells)|) as real);
      }
    }
  }

  /** A present class has rows, so all its likelihoods exist. */
  lemma PresentClassHasCells(rows: seq<Row>, target: string, feature: string, c: Value)
    requires c != Null && c in Column(rows, target)
    ensures |Cells(rows, target, feature, c)| > 0
  {
    RowsWhereSize(rows, target, c);
    CountBounds(Column(rows, target), c);
  }

  /** Σ over `vs` of the frequencies count / size of their non-missing cells. */
  function SeenSum(cells: seq<Value>, vs: seq<Value>): real
    requires |cells| > 0
  {
    if |vs| == 0 then 0.0
    else SeenSum(cells, vs[..|vs| - 1]) + NaiveBayes.CountNonNull(cells, vs[|vs| - 1]) as real / |cells| as real
  }

  function SeenCount(cells: seq<Value>, vs: seq<Value>): nat
  {
    if |vs| == 0 then 0 else SeenCount(cells, vs[..|vs| - 1]) + NaiveBayes.CountNonNull(cells, vs[|vs| - 1])
  }

  lemma {:induction false} SeenCountIsCounts(cells: seq<Value>, vs: seq<Value>)
    requires NoDuplicates(vs)
    ensures SeenCount(cells, vs) == CountsOver(vs, cells) - (if Null in vs then Count(cells, Null) else 0)
  {
    if |vs| > 0 {
      var vs' := vs[..|vs| - 1];
      assert NoDuplicates(vs');
      SeenCountIsCounts(cells, vs');
      assert vs == vs' + [vs[|vs| - 1]];
      assert Null in vs <==> Null in vs' || vs[|vs| - 1] == Null;
      assert Null in vs' ==> vs[|vs| - 1] != Null;
      NaiveBayes.CountsOverAtLeast(vs', cells, Null);
    }
  }

  lemma {:induction false} SeenSumIsCount(cells: seq<Value>, vs: seq<Value>)
    requires |cells| > 0
    ensures SeenSum(cells, vs) == SeenCount(cells, vs) as real / |cells| as real
  {
    if |vs| > 0 {
      SeenSumIsCount(cells, vs[..|vs| - 1]);
      DivAdd(SeenCount(cells, vs[..|vs| - 1]) as real, NaiveBayes.CountNonNull(cells, vs[|vs| - 1]) as real, |cells| as real);
    }
  }

  /** `subset[feature].unique()`: the distinct cells, a missing one included. */
  function Uniques(cells: seq<Value>): seq<Value>
  {
    Distinct(cells)
  }

  /** The non-missing cells are counted once each over the distinct cells. */
  lemma SeenCountCover(cells: seq<Value>)
    ensures SeenCount(cells, Uniques(cells)) == |cells| - Count(cells, Null)
  {
    DistinctProps(cells);
    CountsOverCover(Distinct(cells), cells);
    SeenCountIsCounts(cells, Distinct(cells));
    if Null !in cells {
      CountBounds(cells, Null);
    }
  }

  /** Over the distinct cells of a class, the unsmoothed frequencies of the
      values it shows sum to the share of its non-missing cells: exactly 1
      when none is missing (`SeenFrequenciesSumToOne`). */
  lemma SeenFrequenciesSum(cells: seq<Value>)
    requires |cells| > 0
    ensures SeenSum(cells, Uniques(cells)) == (|cells| - Count(cells, Null)) as real / |cells| as real
  {
    var u := Uniques(cells);
    var k := SeenCount(cells, u);
    SeenCountCover(cells);
    assert k == |cells| - Count(cells, Null);
    SeenSumIsCount(cells, u);
    assert SeenSum(cells, u) == k as real / |cells| as real;
  }

  lemma SeenFrequenciesSumToOne(cells: seq<Value>)
    requires |cells| > 0 && Null !in cells
    ensures SeenSum(cells, Uniques(cells)) == 1.0
  {
    SeenFrequenciesSum(cells);
    CountBounds(cells, Null);
    var n := |cells| as real;
    assert (|cells| - Count(cells, Null)) as real == n;
    DivSelf(n);
  }

  /** `likelihoods[c][feature]` for the example's value of the feature. */
  function FeatureLikelihood(rows: seq<Row>, target: string, f: string, c: Value, ex: map<string, Value>): Option<real>
  {
    RawLikelihood(Cells(rows, target, f, c), ExampleValue(ex, f))
  }

  /** The entry `likelihoods[c][feature]` as a function of the feature. */
  function LikelihoodEntry(rows: seq<Row>, target: string, ex: map<string, Value>, c: Value): string -> Option<(string, real)>
  {
    f => var p := FeatureLikelihood(rows, target, f, c, ex); if p.Some? then Some((f, p.value)) else None
  }

  /** `likelihoods[c]`: one (feature, probability) entry per feature in
      feature order, or None when a probability divides by zero. */
  function LikelihoodRow(rows: seq<Row>, target: string, feats: seq<string>, ex: map<string, Value>, c: Value)
    : (r: Option<seq<(string, real)>>)
    ensures r.Some? ==> |r.value| == |feats|
  {
    CollectAll(LikelihoodEntry(rows, target, ex, c), feats)
  }

  /** The row exists exactly when the class has rows or there is no feature. */
  lemma LikelihoodRowExists(rows: seq<Row>, target: string, feats: seq<string>, ex: map<string, Value>, c: Value)
    ensures LikelihoodRow(rows, target, feats, ex, c).Some? <==>
              |feats| == 0 || |Cells(rows, target, feats[0], c)| > 0
  {
    var e := LikelihoodEntry(rows, target, ex, c);
    CollectAllExists(e, feats);
    forall j | 0 <= j < |feats|
      ensures e(feats[j]).Some? <==> |Cells(rows, target, feats[0], c)| > 0
    {
      RawLikelihoodBounds(Cells(rows, target, feats[j], c), ExampleValue(ex, feats[j]));
      CellsEmptyAlike(rows, target, feats[0], feats[j], c);
    }
  }

  /** An existing row holds every feature's likelihood, in feature order. */
  lemma LikelihoodRowAt(rows: seq<Row>, target: string, feats: seq<string>, ex: map<string, Value>, c: Value)
    requires LikelihoodRow(rows, target, feats, ex, c).Some?
    ensures forall i :: 0 <= i < |feats| ==>
              LikelihoodRow(rows, target, feats, ex, c).value[i] == (feats[i], FeatureLikelihood(rows, target, feats[i], c, ex).value)
  {
    var e := LikelihoodEntry(rows, target, ex, c);
    CollectAllAt(e, feats);
    var row := LikelihoodRow(rows, target, feats, ex, c).value;
    forall i | 0 <= i < |feats| ensures row[i] == (feats[i], FeatureLikelihood(rows, target, feats[i], c, ex).value) {
      assert e(feats[i]) == Some(row[i]);
    }
  }

  /** Whether a class has rows does not depend on the feature. */
  lemma CellsEmptyAlike(rows: seq<Row>, target: string, f: string, g: string, c: Value)
    ensures |Cells(rows, target, f, c)| == |Cells(rows, target, g, c)|
  {
  }

  /** The inner loop `for feature in X.columns` for one class. */
  method FeatureLoop(rows: seq<Row>, target: string, feats: seq<string>, ex: map<string, Value>, c: Value)
    returns (r: Result<seq<(string, real)>>)
    ensures r.Ok? ==> LikelihoodRow(rows, target, feats, ex, c) == Some(r.value)
    ensures r.Err? ==> LikelihoodRow(rows, target, feats, ex, c) == None && r.failure == Raised("ZeroDivisionError")
  {
    ghost var e := LikelihoodEntry(rows, target, ex, c);
    var row: seq<(string, real)> := [];
    for i := 0 to |feats|
      invariant CollectAll(e, feats[..i]) == Some(row)
    {
      var p := FeatureLikelihood(rows, target, feats[i], c, ex);
      CollectAllSnoc(e, feats, i, Some(row), e(feats[i]));
      if p.None? {
        CollectAllPrefixNone(e, feats, i + 1);
        return Err(Raised("ZeroDivisionError"));
      }
      row := row + [(feats[i], p.value)];
    }
    assert feats[..|feats|] == feats;
    r := Ok(row);
  }

  /** The rows of the classes as a function of the class. */
  function RowOfClass(rows: seq<Row>, target: string, feats: seq<string>, ex: map<string, Value>): Value -> Option<seq<(string, real)>>
  {
    c => LikelihoodRow(rows, target, feats, ex, c)
  }

  /** The outer loop `for c in classes`. */
  method LikelihoodLoop(rows: seq<Row>, target: string, feats: seq<string>, ex: map<string, Value>, classes: seq<Value>)
    returns (r: Result<seq<seq<(string, real)>>>)
    ensures r.Ok? <==> forall j :: 0 <= j < |classes| ==> LikelihoodRow(rows, target, feats, ex, classes[j]).Some?
    ensures r.Ok? ==> |r.value| == |classes|
    ensures r.Ok? ==> forall j :: 0 <= j < |classes| ==> r.value[j] == LikelihoodRow(rows, target, feats, ex, classes[j]).value
    ensures r.Err? ==> r.failure == Raised("ZeroDivisionError")
  {
    ghost var g := RowOfClass(rows, target, feats, ex);
    CollectAllExists(g, classes);
    var table: seq<seq<(string, real)>> := [];
    for j := 0 to |classes|
      invariant CollectAll(g, classes[..j]) == Some(table)
    {
      var row := FeatureLoop(rows, target, feats, ex, classes[j]);
      CollectAllSnoc(g, classes, j, Some(table), g(classes[j]));
      if row.Err? {
        CollectAllPrefixNone(g, classes, j + 1);
        return Err(row.failure);
      }
      table := table + [row.value];
    }
    assert classes[..|classes|] == classes;
    CollectAllAt(g, classes);
    r := Ok(table);
  }

  // ---------- posteriors ----------

  /** prior × the probabilities of a likelihood row, in row order. */
  function Product(prior: real, row: seq<(string, real)>): real
  {
    if |row| == 0 then prior else Product(prior, row[..|row| - 1]) * row[|row| - 1].1
  }

  lemma {:induction false} ProductPositive(prior: real, row: seq<(string, real)>)
    requires prior > 0.0 && forall i :: 0 <= i < |row| ==> row[i].1 > 0.0
    ensures Product(prior, row) > 0.0
  {
    if |row| > 0 {
      ProductPositive(prior, row[..|row| - 1]);
      NaiveBayes.MulPositive(Product(prior, row[..|row| - 1]), row[|row| - 1].1);
    }
  }

  /** The posterior loop: `post_prob = priors[c]`, then `post_prob *= prob`
      over `likelihoods[c].items()`. */
  method PosteriorLoop(priors: seq<real>, table: seq<seq<(string, real)>>) returns (ps: seq<real>)
    requires |priors| == |table|
    ensures |ps| == |table|
    ensures forall j :: 0 <= j < |table| ==> ps[j] == Product(priors[j], table[j])
  {
    ps := [];
    for j := 0 to |table|
      invariant |ps| == j
      invariant forall i :: 0 <= i < j ==> ps[i] == Product(priors[i], table[i])
    {
      var post := priors[j];
      for k := 0 to |table[j]|
        invariant post == Product(priors[j], table[j][..k])
      {
        assert table[j][..k + 1][..k] == table[j][..k];
        post := post * table[j][k].1;
      }
      assert table[j][..|table[j]|] == table[j];
      ps := ps + [post];
    }
  }

  /** `for c in posteriors: posteriors[c] = posteriors[c] / total_post`, in place. */
  method NormalizeInPlace(ps: seq<real>, total: real) returns (ps': seq<real>)
    requires total != 0.0
    ensures ps' == NaiveBayes.Normalize(ps, total)
  {
    ps' := ps;
    for j := 0 to |ps|
      invariant |ps'| == |ps|
      invariant forall i :: 0 <= i < j ==> ps'[i] == ps[i] / total
      invariant forall i :: j <= i < |ps| ==> ps'[i] == ps[i]
    {
      ps' := ps'[j := ps'[j] / total];
    }
    forall i | 0 <= i < |ps| ensures ps'[i] == NaiveBayes.Normalize(ps, total)[i] {
      NaiveBayes.NormalizeAt(ps, total, i);
    }
  }

  // ---------- the route ----------

  /** The response: the first five rows, and the steps priors, likelihoods,
      normalised posteriors and the prediction, each listed per class in
      `unique()` order. */
  datatype CalcReport = CalcReport(
    dataset: seq<Row>, classes: seq<Value>, priors: seq<real>,
    likelihoods: seq<seq<(string, real)>>, posteriors: seq<real>, predicted: Value)

  /** `df.head(5)`. */
  function Head(rows: seq<Row>): (r: seq<Row>)
    ensures |r| <= 5 && |r| <= |rows| && r == rows[..|r|]
    ensures |rows| >= 5 ==> |r| == 5
    ensures |rows| < 5 ==> r == rows
  {
    if |rows| <= 5 then rows else rows[..5]
  }

  /** The non-target columns, each once (`df.drop(columns=[target])`, whose
      likelihood entries form a dictionary). */
  function FeatureColumns(t: Table, target: string): seq<string>
  {
    Distinct(Without(t.columns, target))
  }

  /** The unnormalised posterior of class `c`: its prior times its
      likelihoods, None when a likelihood divides by zero. */
  function PosteriorFor(rows: seq<Row>, target: string, feats: seq<string>, ex: map<string, Value>, c: Value): Option<real>
    requires |rows| > 0
  {
    var row := LikelihoodRow(rows, target, feats, ex, c);
    if row.Some? then Some(Product(RawPrior(rows, target, c), row.value)) else None
  }

  /** `PosteriorFor` as a function of the class. */
  function PosteriorOfClass(rows: seq<Row>, target: string, feats: seq<string>, ex: map<string, Value>): Value -> Option<real>
    requires |rows| > 0
  {
    c => PosteriorFor(rows, target, feats, ex, c)
  }

  /** The unnormalised posteriors of the classes `cs`, None when one is missing. */
  function RawPosteriors(rows: seq<Row>, target: string, feats: seq<string>, ex: map<string, Value>, cs: seq<Value>)
    : (r: Option<seq<real>>)
    requires |rows| > 0
    ensures r.Some? ==> |r.value| == |cs|
  {
    CollectAll(PosteriorOfClass(rows, target, feats, ex), cs)
  }

  lemma RawPosteriorsExist(rows: seq<Row>, target: string, feats: seq<string>, ex: map<string, Value>, cs: seq<Value>)
    requires |rows| > 0
    ensures RawPosteriors(rows, target, feats, ex, cs).Some? <==>
              forall j :: 0 <= j < |cs| ==> PosteriorFor(rows, target, feats, ex, cs[j]).Some?
  {
    CollectAllExists(PosteriorOfClass(rows, target, feats, ex), cs);
  }

  lemma RawPosteriorsAt(rows: seq<Row>, target: string, feats: seq<string>, ex: map<string, Value>, cs: seq<Value>)
    requires |rows| > 0 && RawPosteriors(rows, target, feats, ex, cs).Some?
    ensures forall j :: 0 <= j < |cs| ==>
              PosteriorFor(rows, target, feats, ex, cs[j]) == Some(RawPosteriors(rows, target, feats, ex, cs).value[j])
  {
    CollectAllAt(PosteriorOfClass(rows, target, feats, ex), cs);
  }

  /** The unnormalised posteriors of every class of table `t`, in first
      appearance order; None on an empty table. */
  function TablePosteriors(t: Table, target: string, ex: map<string, Value>): Option<seq<real>>
  {
    if |t.rows| == 0 then None
    else RawPosteriors(t.rows, target, FeatureColumns(t, target), ex, Distinct(Column(t.rows, target)))
  }

  /** The three loops over the classes: priors, likelihood rows, and the
      unnormalised posteriors. */
  method PosteriorSteps(rows: seq<Row>, target: string, feats: seq<string>, ex: map<string, Value>, classes: seq<Value>)
    returns (priors: seq<real>, r: Result<(seq<seq<(string, real)>>, seq<real>)>)
    requires |rows| > 0
    ensures priors == PriorList(rows, target, classes)
    ensures r.Ok? <==> RawPosteriors(rows, target, feats, ex, classes).Some?
    ensures r.Err? ==> r.failure == Raised("ZeroDivisionError")
    ensures r.Ok? ==> r.value.1 == RawPosteriors(rows, target, feats, ex, classes).value
    ensures r.Ok? ==> |r.value.0| == |classes| && forall j :: 0 <= j < |classes| ==>
              LikelihoodRow(rows, target, feats, ex, classes[j]) == Some(r.value.0[j])
  {
    priors := ComputePriors(rows, target, classes);
    RawPosteriorsExist(rows, target, feats, ex, classes);
    var table := LikelihoodLoop(rows, target, feats, ex, classes);
    if table.Err? {
      return priors, Err(table.failure);
    }
    RawPosteriorsAt(rows, target, feats, ex, classes);
    var raw := PosteriorLoop(priors, table.value);
    PriorListAt(rows, target, classes);
    forall j | 0 <= j < |classes| ensures raw[j] == RawPosteriors(rows, target, feats, ex, classes).value[j] {
    }
    r := Ok((table.value, raw));
  }

  /** A numeric target with a missing cell and no other column: `unique()` of
      a float column yields a fresh NaN scalar on every pass over the
      classes, and NaN equals nothing, so the posterior loop's `priors[c]`
      finds no entry for the missing class and raises KeyError. (With a
      feature column the likelihood loop divides by zero first; an object
      column yields the one NaN object it holds, which the lookup finds.) */
  predicate MissingClassLost(t: Table, target: string)
  {
    IsNumericColumn(t, target) && Null in Column(t.rows, target) && |FeatureColumns(t, target)| == 0
  }

  /** A lone numeric target "t" with cells 1 and missing loses its missing
      class, while the same cells as text keep it. */
  lemma MissingClassLostExample()
    ensures MissingClassLost(Table(["t"], [map["t" := Num(1.0)], map["t" := Null]]), "t")
    ensures !MissingClassLost(Table(["t"], [map["t" := Str("1")], map["t" := Null]]), "t")
  {
    var rows := [map["t" := Num(1.0)], map["t" := Null]];
    assert Get(rows[1], "t") == Null;
    assert Without(["t"], "t") == [];
    assert Get([map["t" := Str("1")], map["t" := Null]][0], "t") == Str("1");
  }

  /** The computation succeeds exactly when the missing class is not lost,
      every class's posterior exists and their sum, the normaliser, is not
      zero. */
  ghost predicate Computable(t: Table, target: string, ex: map<string, Value>)
  {
    !MissingClassLost(t, target) && TablePosteriors(t, target, ex).Some? && Sum(TablePosteriors(t, target, ex).value) != 0.0
  }

  /** What a report of the route on table t states: the first rows, the
      distinct target values as classes, each class's prior and likelihood
      row, the posteriors normalised by their sum to add up to 1, and the
      first class of maximal posterior. */
  ghost predicate Computed(rep: CalcReport, t: Table, target: string, ex: map<string, Value>)
  {
    && Computable(t, target, ex)
    && |rep.classes| == |rep.posteriors| > 0
    && var raw := TablePosteriors(t, target, ex).value;
    && rep.dataset == Head(t.rows)
    && rep.classes == Distinct(Column(t.rows, target))
    && rep.priors == PriorList(t.rows, target, rep.classes)
    && |rep.likelihoods| == |rep.classes|
    && (forall j :: 0 <= j < |rep.classes| ==>
          LikelihoodRow(t.rows, target, FeatureColumns(t, target), ex, rep.classes[j]) == Some(rep.likelihoods[j]))
    && rep.posteriors == NaiveBayes.Normalize(raw, Sum(raw))
    && Sum(rep.posteriors) == 1.0
    && rep.predicted == rep.classes[FirstMax(rep.posteriors, NaiveBayes.Identity)]
  }

  /** The route with the checks passed: the whole computation, any raised
      exception reported as Raised. */
  method Compute(t: Table, target: string, ex: map<string, Value>) returns (r: Result<CalcReport>)
    ensures r.Err? <==> !Computable(t, target, ex)
    ensures MissingClassLost(t, target) ==> r == Err(Raised("KeyError"))
    ensures r.Err? && !MissingClassLost(t, target) ==> r.failure in {Raised("ValueError"), Raised("ZeroDivisionError")}
    ensures r.Ok? ==> |r.value.classes| == |r.value.posteriors| > 0
    ensures r.Ok? ==> Computed(r.value, t, target, ex)
  {
    var classes := Distinct(Column(t.rows, target));
    var feats := FeatureColumns(t, target);
    if |t.rows| == 0 {
      // no class: the normalising loop runs over nothing and `max` of an empty dictionary raises
      return Err(Raised("ValueError"));
    }
    DistinctNonEmptyOf(Column(t.rows, target));
    if |feats| == 0 {
      // without a feature every likelihood row is empty, so every posterior exists
      forall j | 0 <= j < |classes| ensures PosteriorFor(t.rows, target, feats, ex, classes[j]).Some? {
        LikelihoodRowExists(t.rows, target, feats, ex, classes[j]);
      }
      RawPosteriorsExist(t.rows, target, feats, ex, classes);
    }
    var priors, steps := PosteriorSteps(t.rows, target, feats, ex, classes);
    if steps.Err? {
      return Err(steps.failure);
    }
    if IsNumericColumn(t, target) && Null in Column(t.rows, target) && |feats| == 0 {
      // the fresh NaN scalar of the missing class is not a key of `priors`
      return Err(Raised("KeyError"));
    }
    var (table, raw) := steps.value;
    var total := Sum(raw);
    if total == 0.0 {
      return Err(Raised("ZeroDivisionError"));
    }
    var normalized := NormalizeInPlace(raw, total);
    NaiveBayes.NormalizedSumToOne(raw);
    var m := FirstMax(normalized, NaiveBayes.Identity);
    r := Ok(CalcReport(Head(t.rows), classes, priors, table, normalized, classes[m]));
  }

  lemma DistinctNonEmptyOf<T>(s: seq<T>)
    requires |s| > 0
    ensures |Distinct(s)| > 0
  {
  }

  lemma {:induction false} PriorListAt(rows: seq<Row>, target: string, cs: seq<Value>)
    requires |rows| > 0
    ensures forall j :: 0 <= j < |cs| ==> PriorList(rows, target, cs)[j] == RawPrior(rows, target, cs[j])
  {
    if |cs| > 0 {
      PriorListAt(rows, target, cs[..|cs| - 1]);
    }
  }

  /** `naive_bayes_calculation`: the checks, then the computation; whatever
      fails surfaces as status 500. */
  method Calculation(req: Request, dataset: Option<Table>) returns (r: Result<CalcReport>)
    ensures r.Err? ==> r.failure == HttpError(500)
    ensures r.Ok? <==> CheckFailure(req, dataset).None? && Computable(dataset.value, req.target.value, req.example)
    ensures r.Ok? ==> Computed(r.value, dataset.value, req.target.value, req.example)
  {
    var failure := CheckFailure(req, dataset);
    if failure.Some? {
      return Err(HttpError(500));
    }
    var computed := Compute(dataset.value, req.target.value, req.example);
    if computed.Err? {
      return Err(HttpError(500));
    }
    r := computed;
  }

  /** On a table without missing target cells every class has rows and a
      positive prior, so every posterior exists and is positive: the
      computation cannot fail on such a table. */
  lemma NoMissingClassComputes(t: Table, target: string, ex: map<string, Value>)
    requires |t.rows| > 0 && Null !in Column(t.rows, target)
    ensures TablePosteriors(t, target, ex).Some? && Sum(TablePosteriors(t, target, ex).value) > 0.0
  {
    var col := Column(t.rows, target);
    var classes := Distinct(col);
    var feats := FeatureColumns(t, target);
    DistinctProps(col);
    DistinctNonEmptyOf(col);
    forall j | 0 <= j < |classes|
      ensures PosteriorFor(t.rows, target, feats, ex, classes[j]).Some?
      ensures PosteriorFor(t.rows, target, feats, ex, classes[j]).value > 0.0
    {
      PosteriorPositive(t.rows, target, feats, ex, classes[j]);
    }
    RawPosteriorsExist(t.rows, target, feats, ex, classes);
    RawPosteriorsAt(t.rows, target, feats, ex, classes);
    var ps := RawPosteriors(t.rows, target, feats, ex, classes).value;
    assert forall j :: 0 <= j < |ps| ==> ps[j] > 0.0;
    NaiveBayes.SumPositive(ps);
  }

  /** A present class has a likelihood row and a positive posterior. */
  lemma PosteriorPositive(rows: seq<Row>, target: string, feats: seq<string>, ex: map<string, Value>, c: Value)
    requires c != Null && c in Column(rows, target)
    ensures |rows| > 0 && PosteriorFor(rows, target, feats, ex, c).Some?
    ensures PosteriorFor(rows, target, feats, ex, c).value > 0.0
  {
    LikelihoodRowExists(rows, target, feats, ex, c);
    if |feats| > 0 {
      PresentClassHasCells(rows, target, feats[0], c);
    }
    LikelihoodRowAt(rows, target, feats, ex, c);
    var row := LikelihoodRow(rows, target, feats, ex, c).value;
    forall i | 0 <= i < |row| ensures row[i].1 > 0.0 {
      RawLikelihoodBounds(Cells(rows, target, feats[i], c), ExampleValue(ex, feats[i]));
      assert row[i].1 == FeatureLikelihood(rows, target, feats[i], c, ex).value;
      CellsEmptyAlike(rows, target, feats[0], feats[i], c);
    }
    CountBounds(Column(rows, target), c);
    DivPositive(ClassSize(rows, target, c) as real, |rows| as real);
    ProductPositive(RawPrior(rows, target, c), row);
  }
}
