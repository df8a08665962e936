/** The Naive Bayes engine of backend/naive_bayes.py: column detection, priors,
    Laplace-smoothed likelihoods over each feature's whole domain, unnormalised
    posteriors for one example, normalisation with a zero-evidence guard, and
    the first-maximum prediction. */
module NaiveBayes {
  import opened Common
  import opened Detection

  /** The priority list of target names, matched as case-insensitive substrings. */
  const TargetNames: seq<string> := ["class", "target", "label", "category", "type", "species", "outcome"]

  /** The value 1e-6 used for an example value the table never saw. */
  const Unseen: real := 0.000001

  /** The value 1e-10 that replaces a zero evidence. */
  const EvidenceFloor: real := 0.0000000001

  // ---------- column detection ----------

  /** The detected target: the first column matching the earliest priority
      name, else the last column. */
  function DetectedTarget(columns: seq<string>): (c: string)
    requires |columns| > 0
    ensures c in columns
  {
    match PriorityMatch(TargetNames, columns)
    case Some(m) => m
    case None => columns[|columns| - 1]
  }

  /** `detect_feature_target_columns`: the detected target and every other
      column as a feature; `df.columns[-1]` raises IndexError on a table
      without columns. */
  method DetectColumns(columns: seq<string>) returns (r: Result<(seq<string>, string)>)
    ensures r.Err? <==> |columns| == 0
    ensures r.Err? ==> r.failure == Raised("IndexError")
    ensures r.Ok? ==> r.value.1 == DetectedTarget(columns) && r.value.0 == Without(columns, r.value.1)
  {
    var found := SearchPriorityMatch(TargetNames, columns);
    var target: string;
    if found.Some? {
      target := found.value;
    } else if |columns| == 0 {
      return Err(Raised("IndexError"));
    } else {
      target := columns[|columns| - 1];
    }
    r := Ok((Without(columns, target), target));
  }

  /** The request parameters: target, features and the example to classify
      (a dictionary, as its items in order). */
  datatype NbParams = NbParams(target: Option<string>, features: Option<seq<string>>, example: seq<(string, Value)>)

  /** Column choice as written: when either parameter is missing both are
      detected, and a missing feature list is replaced by the columns other
      than the DETECTED target, even when the caller named a different one. */
  function ChosenColumnsAsWritten(t: Table, p: NbParams): (r: Result<(string, seq<string>)>)
    ensures r.Ok? ==> r.value.0 in t.columns && forall f :: f in r.value.1 ==> f in t.columns
    ensures r.Ok? && Given(p.target) ==> r.value.0 == p.target.value
    ensures r.Ok? && !Given(p.target) ==> r.value.0 == DetectedTarget(t.columns)
    ensures r.Ok? && GivenList(p.features) ==> r.value.1 == p.features.value
    ensures r.Ok? && !GivenList(p.features) ==> r.value.1 == Without(t.columns, DetectedTarget(t.columns))
    ensures r == Err(Raised("IndexError")) <==> (!Given(p.target) || !GivenList(p.features)) && |t.columns| == 0
    ensures r.Err? ==> r.failure in {Raised("IndexError"), HttpError(400)}
  {
    if (!Given(p.target) || !GivenList(p.features)) && |t.columns| == 0 then Err(Raised("IndexError"))
    else
      var detected := if |t.columns| > 0 then DetectedTarget(t.columns) else "";
      var target := if Given(p.target) then p.target.value else detected;
      var features := if GivenList(p.features) then p.features.value else Without(t.columns, detected);
      Validated(t, target, features)
  }

  /** The evident intent: a missing feature list is every column except the
      target actually used. */
  function ChosenColumns(t: Table, p: NbParams): (r: Result<(string, seq<string>)>)
    ensures r.Ok? ==> r.value.0 in t.columns && forall f :: f in r.value.1 ==> f in t.columns
    ensures r.Ok? && !GivenList(p.features) ==> r.value.1 == Without(t.columns, r.value.0)
    ensures r.Ok? && Given(p.target) ==> r.value.0 == p.target.value
    ensures r.Err? ==> r.failure in {Raised("IndexError"), HttpError(400)}
  {
    if (!Given(p.target) || !GivenList(p.features)) && |t.columns| == 0 then Err(Raised("IndexError"))
    else
      var target := if Given(p.target) then p.target.value else DetectedTarget(t.columns);
      var features := if GivenList(p.features) then p.features.value else Without(t.columns, target);
      Validated(t, target, features)
  }

  /** A target outside the columns, or any feature outside them, is a 400. */
  function Validated(t: Table, target: string, features: seq<string>): (r: Result<(string, seq<string>)>)
    ensures r.Ok? <==> target in t.columns && forall f :: f in features ==> f in t.columns
    ensures r.Ok? ==> r.value == (target, features)
    ensures r.Err? ==> r.failure == HttpError(400)
  {
    var missing := Filter(features, f => f !in t.columns);
    if target !in t.columns then Err(HttpError(400))
    else if |missing| > 0 then
      assert missing[0] in missing;
      Err(HttpError(400))
    else Ok((target, features))
  }

  /** With the target named and the feature list missing, the code as written
      can keep the named target among the features: on the columns
      ["class", "x"] with target "x", "class" is detected and dropped and "x"
      stays a feature of itself. */
  lemma FeaturesKeepNamedTarget()
    ensures var t := Table(["class", "x"], []);
            var p := NbParams(Some("x"), None, []);
            ChosenColumnsAsWritten(t, p) == Ok(("x", ["x"]))
            && ChosenColumns(t, p) == Ok(("x", ["class"]))
  {
    var cols := ["class", "x"];
    DetectsClass(cols);
    WithoutFirst(cols);
    WithoutSecond(cols);
  }

  lemma LowerClass()
    ensures Strings.Lower("class") == "class"
  {
    assert Strings.Lower("class") == "class";
  }

  lemma DetectsClass(cols: seq<string>)
    requires cols == ["class", "x"]
    ensures DetectedTarget(cols) == "class"
  {
    LowerClass();
    assert Strings.IsPrefix("class", "class");
    assert NameMatches("class", cols[0]);
    assert FirstMatchIn(TargetNames[0], cols) == Some("class");
  }

  lemma WithoutFirst(cols: seq<string>)
    requires cols == ["class", "x"]
    ensures Without(cols, "class") == ["x"]
  {
    WithoutSnoc([], "class", "class");
    WithoutSnoc(["class"], "x", "class");
    assert cols == ["class"] + ["x"];
  }

  lemma WithoutSecond(cols: seq<string>)
    requires cols == ["class", "x"]
    ensures Without(cols, "x") == ["class"]
  {
    WithoutSnoc([], "class", "x");
    WithoutSnoc(["class"], "x", "x");
    assert cols == ["class"] + ["x"];
  }

  /** The two choices differ only when a target is named and the feature
      list is missing. */
  lemma ChoicesAgree(t: Table, p: NbParams)
    requires !Given(p.target) || GivenList(p.features)
    ensures ChosenColumnsAsWritten(t, p) == ChosenColumns(t, p)
  {
  }

  /** With the target named and the feature list missing, the corrected
      choice never lists the target as a feature. */
  lemma ChosenColumnsExcludeTarget(t: Table, p: NbParams)
    requires ChosenColumns(t, p).Ok? && !GivenList(p.features)
    ensures ChosenColumns(t, p).value.0 !in ChosenColumns(t, p).value.1
  {
  }

  // ---------- the default example ----------

  /** `df[col].mode().iloc[0]`, or the column's first cell when the mode is
      empty; `iloc[0]` on an empty column raises IndexError. */
  function DefaultValue(rows: seq<Row>, col: string, mode: seq<Value> -> Option<Value>): Result<Value>
  {
    var m := mode(Column(rows, col));
    if m.Some? then Ok(m.value)
    else if |rows| == 0 then Err(Raised("IndexError"))
    else Ok(Get(rows[0], col))
  }

  /** The keys of an example, in order. */
  function Keys(ex: seq<(string, Value)>): (r: seq<string>)
    ensures |r| == |ex|
    ensures forall i :: 0 <= i < |ex| ==> r[i] == ex[i].0
  {
    if |ex| == 0 then [] else Keys(ex[..|ex| - 1]) + [ex[|ex| - 1].0]
  }

  /** The default example: one entry per distinct feature, in order of first
      mention, holding that feature's default value. */
  method DefaultExample(rows: seq<Row>, features: seq<string>, mode: seq<Value> -> Option<Value>)
    returns (r: Result<seq<(string, Value)>>)
    ensures r.Err? <==> exists f :: f in features && DefaultValue(rows, f, mode).Err?
    ensures r.Err? ==> r.failure == Raised("IndexError")
    ensures r.Ok? ==> Keys(r.value) == Distinct(features)
    ensures r.Ok? ==> forall i :: 0 <= i < |r.value| ==> DefaultValue(rows, r.value[i].0, mode) == Ok(r.value[i].1)
  {
    var ex: seq<(string, Value)> := [];
    for i := 0 to |features|
      invariant Keys(ex) == Distinct(features[..i])
      invariant forall k :: 0 <= k < |ex| ==> DefaultValue(rows, ex[k].0, mode) == Ok(ex[k].1)
      invariant forall f :: f in features[..i] ==> DefaultValue(rows, f, mode).Ok?
    {
      var d := DefaultValue(rows, features[i], mode);
      if d.Err? {
        return Err(Raised("IndexError"));
      }
      assert features[..i + 1][..i] == features[..i];
      if features[i] !in Keys(ex) {
        ex := ex + [(features[i], d.value)];
      }
    }
    assert features[..|features|] == features;
    r := Ok(ex);
  }

  // ---------- priors ----------

  /** P(c) = count(c) / n. */
  function Prior(rows: seq<Row>, target: string, c: Value): real
    requires |rows| > 0
  {
    Count(Column(rows, target), c) as real / |rows| as real
  }

  /** Each class seen in the target column has a positive prior. */
  lemma PriorPositive(rows: seq<Row>, target: string, c: Value)
    requires c in Column(rows, target)
    ensures |rows| > 0 && Prior(rows, target, c) > 0.0
  {
    CountBounds(Column(rows, target), c);
    DivPositive(Count(Column(rows, target), c) as real, |rows| as real);
  }

  /** Σ over the classes of count(c) · (1/n): the priors of all distinct
      target values sum to 1. */
  function PriorSum(rows: seq<Row>, target: string, cs: seq<Value>): real
    requires |rows| > 0
  {
    if |cs| == 0 then 0.0 else PriorSum(rows, target, cs[..|cs| - 1]) + Prior(rows, target, cs[|cs| - 1])
  }

  lemma {:induction false} PriorSumIsCountsOver(rows: seq<Row>, target: string, cs: seq<Value>)
    requires |rows| > 0
    ensures PriorSum(rows, target, cs) == CountsOver(cs, Column(rows, target)) as real / |rows| as real
  {
    if |cs| > 0 {
      PriorSumIsCountsOver(rows, target, cs[..|cs| - 1]);
      DivAdd(CountsOver(cs[..|cs| - 1], Column(rows, target)) as real, Count(Column(rows, target), cs[|cs| - 1]) as real, |rows| as real);
    }
  }

  lemma PriorsSumToOne(rows: seq<Row>, target: string)
    requires |rows| > 0
    ensures PriorSum(rows, target, Distinct(Column(rows, target))) == 1.0
  {
    var col := Column(rows, target);
    DistinctProps(col);
    CountsOverCover(Distinct(col), col);
    PriorSumIsCountsOver(rows, target, Distinct(col));
    DivSelf(|rows| as real);
  }

  // ---------- likelihoods ----------

  /** `value_counts()` drops missing values, so a missing value counts 0. */
  function CountNonNull(vs: seq<Value>, v: Value): nat
  {
    if v == Null then 0 else Count(vs, v)
  }

  lemma DistinctNonEmpty<T>(s: seq<T>)
    requires |s| > 0
    ensures |Distinct(s)| > 0
  {
  }

  /** (count + 1) / (size + domain): Laplace smoothing of one frequency. */
  function Smoothed(count: nat, size: nat, domain: nat): real
    requires size + domain > 0
  {
    (count + 1) as real / (size + domain) as real
  }

  /** The feature cells of the rows of class `c`. */
  function ClassCells(rows: seq<Row>, target: string, feature: string, c: Value): seq<Value>
  {
    Column(RowsWhere(rows, target, c), feature)
  }

  /** The distinct values of the feature over the whole table. */
  function Domain(rows: seq<Row>, feature: string): seq<Value>
  {
    Distinct(Column(rows, feature))
  }

  /** P(feature = v | c) = (count + 1) / (class size + #distinct values of the
      feature in the whole table), the count leaving missing cells out. */
  function Laplace(rows: seq<Row>, target: string, feature: string, c: Value, v: Value): real
    requires |rows| > 0
  {
    DistinctNonEmpty(Column(rows, feature));
    var sub := ClassCells(rows, target, feature, c);
    Smoothed(CountNonNull(sub, v), |sub|, |Domain(rows, feature)|)
  }

  lemma LaplacePositive(rows: seq<Row>, target: string, feature: string, c: Value, v: Value)
    requires |rows| > 0
    ensures Laplace(rows, target, feature, c, v) > 0.0
  {
    DistinctNonEmpty(Column(rows, feature));
    var sub := ClassCells(rows, target, feature, c);
    SmoothedPositive(CountNonNull(sub, v), |sub|, |Domain(rows, feature)|);
  }

  lemma SmoothedPositive(count: nat, size: nat, domain: nat)
    requires size + domain > 0
    ensures Smoothed(count, size, domain) > 0.0
  {
    DivPositive((count + 1) as real, (size + domain) as real);
  }

  /** Σ over `vs` of the smoothed numerators count + 1. */
  function NumeratorSum(sub: seq<Value>, vs: seq<Value>): nat
  {
    if |vs| == 0 then 0 else NumeratorSum(sub, vs[..|vs| - 1]) + CountNonNull(sub, vs[|vs| - 1]) + 1
  }

  lemma {:induction false} NumeratorSumIsCounts(sub: seq<Value>, vs: seq<Value>)
    requires NoDuplicates(vs)
    ensures NumeratorSum(sub, vs) == CountsOver(vs, sub) - (if Null in vs then Count(sub, Null) else 0) + |vs|
  {
    if |vs| > 0 {
      var vs' := vs[..|vs| - 1];
      assert NoDuplicates(vs');
      NumeratorSumIsCounts(sub, vs');
      assert vs == vs' + [vs[|vs| - 1]];
      assert Null in vs <==> Null in vs' || vs[|vs| - 1] == Null;
      assert Null in vs' ==> vs[|vs| - 1] != Null;
      CountsOverAtLeast(vs', sub, Null);
    }
  }

  lemma {:induction false} CountsOverAtLeast<T>(d: seq<T>, s: seq<T>, x: T)
    ensures x in d ==> CountsOver(d, s) >= Count(s, x)
  {
    if |d| > 0 {
      CountsOverAtLeast(d[..|d| - 1], s, x);
      assert x in d ==> x in d[..|d| - 1] || x == d[|d| - 1];
    }
  }

  /** Σ over the values `vs` of their smoothed likelihoods, for a class whose
      feature cells are `sub`, of size `size`, over a domain of `domain` values. */
  function SmoothedSum(sub: seq<Value>, size: nat, domain: nat, vs: seq<Value>): real
    requires size + domain > 0
  {
    if |vs| == 0 then 0.0 else SmoothedSum(sub, size, domain, vs[..|vs| - 1]) + Smoothed(CountNonNull(sub, vs[|vs| - 1]), size, domain)
  }

  lemma {:induction false} SmoothedSumIsNumerators(sub: seq<Value>, size: nat, domain: nat, vs: seq<Value>)
    requires size + domain > 0
    ensures SmoothedSum(sub, size, domain, vs) == NumeratorSum(sub, vs) as real / (size + domain) as real
  {
    if |vs| > 0 {
      var vs' := vs[..|vs| - 1];
      SmoothedSumIsNumerators(sub, size, domain, vs');
      DivAdd(NumeratorSum(sub, vs') as real, (CountNonNull(sub, vs[|vs| - 1]) + 1) as real, (size + domain) as real);
    }
  }

  /** Over a domain `u` of distinct values covering the class's feature cells
      `sub`, the smoothed frequencies sum to (|sub| − missing cells + |u|) /
      (|sub| + |u|). */
  lemma SmoothedSumOverDomain(sub: seq<Value>, u: seq<Value>)
    requires |sub| + |u| > 0 && NoDuplicates(u)
    requires forall v :: v in sub ==> v in u
    ensures SmoothedSum(sub, |sub|, |u|, u)
              == (|sub| - (if Null in u then Count(sub, Null) else 0) + |u|) as real / (|sub| + |u|) as real
  {
    CountsOverCover(u, sub);
    NumeratorSumIsCounts(sub, u);
    SmoothedSumIsNumerators(sub, |sub|, |u|, u);
  }

  /** With no missing cell in the class, the smoothed frequencies sum to 1. */
  lemma SmoothedSumOne(sub: seq<Value>, u: seq<Value>)
    requires |sub| + |u| > 0 && NoDuplicates(u)
    requires forall v :: v in sub ==> v in u
    requires Null !in sub
    ensures SmoothedSum(sub, |sub|, |u|, u) == 1.0
  {
    SmoothedSumOverDomain(sub, u);
    CountBounds(sub, Null);
    DivSelf((|sub| + |u|) as real);
  }

  /** Over the feature's distinct values, one class's likelihoods sum to (class size − missing cells
      of the feature in the class + #values) / (class size + #values): exactly
      1 when the class has no missing feature cells. */
  lemma LikelihoodsSum(rows: seq<Row>, target: string, feature: string, c: Value, sub: seq<Value>, u: seq<Value>)
    requires |rows| > 0
    requires sub == ClassCells(rows, target, feature, c) && u == Domain(rows, feature)
    ensures |sub| + |u| > 0
    ensures SmoothedSum(sub, |sub|, |u|, u) == (|sub| - (if Null in u then Count(sub, Null) else 0) + |u|) as real / (|sub| + |u|) as real
    ensures Null !in sub ==> SmoothedSum(sub, |sub|, |u|, u) == 1.0
  {
    SubsetInDomain(rows, target, feature, c);
    SmoothedSumOverDomain(sub, u);
    if Null !in sub {
      SmoothedSumOne(sub, u);
    }
  }

  /** The class subset's feature cells lie in the feature's distinct values. */
  lemma SubsetInDomain(rows: seq<Row>, target: string, feature: string, c: Value)
    requires |rows| > 0
    ensures |Distinct(Column(rows, feature))| > 0 && NoDuplicates(Distinct(Column(rows, feature)))
    ensures forall v :: v in Column(RowsWhere(rows, target, c), feature) ==> v in Distinct(Column(rows, feature))
  {
    DistinctProps(Column(rows, feature));
    SubsetColumnIn(rows, target, feature, c);
  }

  /** Every cell of the class subset's feature column occurs in the whole column. */
  lemma SubsetColumnIn(rows: seq<Row>, target: string, feature: string, c: Value)
    ensures forall v :: v in Column(RowsWhere(rows, target, c), feature) ==> v in Column(rows, feature)
  {
    var sub := RowsWhere(rows, target, c);
    forall v | v in Column(sub, feature) ensures v in Column(rows, feature) {
      var i :| 0 <= i < |sub| && Column(sub, feature)[i] == v;
      assert sub[i] in rows;
      var j :| 0 <= j < |rows| && rows[j] == sub[i];
      assert Column(rows, feature)[j] == v;
    }
  }

  /** likelihoods[cls][feature][value], flattened to one key (cls, feature, value). */
  type LikelihoodTable = map<(Value, string, Value), real>

  ghost predicate AllLaplace(lk: LikelihoodTable, rows: seq<Row>, target: string)
    requires |rows| > 0
  {
    forall key {:trigger lk[key]} :: key in lk ==> lk[key] == Laplace(rows, target, key.1, key.0, key.2)
  }

  /** Storing a Laplace likelihood under its own key keeps the table Laplace. */
  lemma StoreLaplace(lk: LikelihoodTable, rows: seq<Row>, target: string, key: (Value, string, Value), p: real)
    requires |rows| > 0 && AllLaplace(lk, rows, target)
    requires p == Laplace(rows, target, key.1, key.0, key.2)
    ensures AllLaplace(lk[key := p], rows, target)
  {
  }

  /** The innermost loop: one entry per distinct value of `feature` for class `c`. */
  method FillValues(lk: LikelihoodTable, rows: seq<Row>, target: string, feature: string, c: Value, values: seq<Value>)
    returns (lk': LikelihoodTable)
    requires |rows| > 0 && values == Domain(rows, feature)
    requires AllLaplace(lk, rows, target)
    ensures AllLaplace(lk', rows, target)
    ensures forall key :: key in lk' <==> key in lk || (key.0 == c && key.1 == feature && key.2 in values)
  {
    var subset := RowsWhere(rows, target, c);
    var featureCol := Column(subset, feature);
    var totalClassSamples := |subset|;
    assert featureCol == ClassCells(rows, target, feature, c) && |featureCol| == totalClassSamples;
    DistinctNonEmpty(Column(rows, feature));
    lk' := lk;
    for k := 0 to |values|
      invariant AllLaplace(lk', rows, target)
      invariant forall key :: key in lk' <==> key in lk || (key.0 == c && key.1 == feature && key.2 in values[..k])
    {
      var count := CountNonNull(featureCol, values[k]);
      var probability := Smoothed(count, totalClassSamples, |values|);
      assert probability == Laplace(rows, target, feature, c, values[k]);
      StoreLaplace(lk', rows, target, (c, feature, values[k]), probability);
      lk' := lk'[(c, feature, values[k]) := probability];
      PrefixSnoc(values, k);
    }
    assert values[..|values|] == values;
  }

  /** The middle loop: every class for one feature. */
  method FillClasses(lk: LikelihoodTable, rows: seq<Row>, target: string, feature: string, classes: seq<Value>)
    returns (lk': LikelihoodTable)
    requires |rows| > 0
    requires AllLaplace(lk, rows, target)
    ensures AllLaplace(lk', rows, target)
    ensures forall key :: key in lk' <==>
      key in lk || (key.0 in classes && key.1 == feature && key.2 in Domain(rows, feature))
  {
    var values := Domain(rows, feature);
    lk' := lk;
    for j := 0 to |classes|
      invariant AllLaplace(lk', rows, target)
      invariant forall key :: key in lk' <==> key in lk || (key.0 in classes[..j] && key.1 == feature && key.2 in values)
    {
      lk' := FillValues(lk', rows, target, feature, classes[j], values);
      PrefixSnoc(classes, j);
    }
    assert classes[..|classes|] == classes;
  }

  /** The outer loop: the whole likelihood table. */
  method Likelihoods(rows: seq<Row>, target: string, features: seq<string>, classes: seq<Value>)
    returns (lk: LikelihoodTable)
    requires |rows| > 0
    ensures AllLaplace(lk, rows, target)
    ensures forall key :: key in lk <==>
      key.0 in classes && key.1 in features && key.2 in Domain(rows, key.1)
  {
    lk := map[];
    for i := 0 to |features|
      invariant AllLaplace(lk, rows, target)
      invariant forall key :: key in lk <==>
        key.0 in classes && key.1 in features[..i] && key.2 in Domain(rows, key.1)
    {
      lk := FillClasses(lk, rows, target, features[i], classes);
      PrefixSnoc(features, i);
    }
    assert features[..|features|] == features;
  }

  /** `likelihoods[cls][feature].get(value, 1e-6)`. */
  function Lookup(lk: LikelihoodTable, c: Value, feature: string, v: Value): real
  {
    if (c, feature, v) in lk then lk[(c, feature, v)] else Unseen
  }

  /** The likelihood the posterior uses, stated on the data: the smoothed
      frequency for a value the feature column holds, 1e-6 otherwise. */
  function Likelihood(rows: seq<Row>, target: string, feature: string, c: Value, v: Value): (r: real)
    requires |rows| > 0
    ensures r > 0.0
  {
    LaplacePositive(rows, target, feature, c, v);
    if v in Column(rows, feature) then Laplace(rows, target, feature, c, v) else Unseen
  }

  lemma LookupIsLikelihood(lk: LikelihoodTable, rows: seq<Row>, target: string, features: seq<string>, classes: seq<Value>,
                           c: Value, feature: string, v: Value)
    requires |rows| > 0
    requires AllLaplace(lk, rows, target)
    requires forall key :: key in lk <==> key.0 in classes && key.1 in features && key.2 in Domain(rows, key.1)
    requires c in classes && feature in features
    ensures Lookup(lk, c, feature, v) == Likelihood(rows, target, feature, c, v)
  {
    DistinctProps(Column(rows, feature));
  }

  // ---------- posteriors ----------

  /** prior × Π factor(f, v) over the example items (f, v) whose feature f is
      in the feature list, in item order. */
  function ExampleProduct(prior: real, factor: (string, Value) -> real, features: seq<string>, ex: seq<(string, Value)>): real
  {
    if |ex| == 0 then prior
    else
      var s := ExampleProduct(prior, factor, features, ex[..|ex| - 1]);
      var item := ex[|ex| - 1];
      if item.0 in features then s * factor(item.0, item.1) else s
  }

  /** Two factors that agree on the features give the same product. */
  lemma {:induction false} ExampleProductCongruent(prior: real, f1: (string, Value) -> real, f2: (string, Value) -> real,
                                                   features: seq<string>, ex: seq<(string, Value)>)
    requires forall f, v :: f in features ==> f1(f, v) == f2(f, v)
    ensures ExampleProduct(prior, f1, features, ex) == ExampleProduct(prior, f2, features, ex)
  {
    if |ex| > 0 {
      ExampleProductCongruent(prior, f1, f2, features, ex[..|ex| - 1]);
    }
  }

  lemma {:induction false} ExampleProductPositive(prior: real, factor: (string, Value) -> real,
                                                  features: seq<string>, ex: seq<(string, Value)>)
    requires prior > 0.0
    requires forall f, v :: f in features ==> factor(f, v) > 0.0
    ensures ExampleProduct(prior, factor, features, ex) > 0.0
  {
    if |ex| > 0 {
      ExampleProductPositive(prior, factor, features, ex[..|ex| - 1]);
      var item := ex[|ex| - 1];
      if item.0 in features {
        MulPositive(ExampleProduct(prior, factor, features, ex[..|ex| - 1]), factor(item.0, item.1));
      }
    }
  }

  /** The factor the posterior loop reads from the table for class `c`. */
  function TableFactor(lk: LikelihoodTable, c: Value): (string, Value) -> real
  {
    (f, v) => Lookup(lk, c, f, v)
  }

  /** The factor stated on the data for class `c`. */
  function DataFactor(rows: seq<Row>, target: string, c: Value): (string, Value) -> real
    requires |rows| > 0
  {
    (f, v) => Likelihood(rows, target, f, c, v)
  }

  /** The unnormalised posterior stated on the data: prior × Π likelihoods
      over the example items whose feature is in the feature list. */
  function PosteriorOf(rows: seq<Row>, target: string, features: seq<string>, ex: seq<(string, Value)>, c: Value): real
    requires |rows| > 0
  {
    ExampleProduct(Prior(rows, target, c), DataFactor(rows, target, c), features, ex)
  }

  lemma ScoreIsPosterior(lk: LikelihoodTable, rows: seq<Row>, target: string, features: seq<string>,
                         classes: seq<Value>, c: Value, ex: seq<(string, Value)>)
    requires |rows| > 0
    requires AllLaplace(lk, rows, target)
    requires forall key :: key in lk <==> key.0 in classes && key.1 in features && key.2 in Domain(rows, key.1)
    requires c in classes
    ensures ExampleProduct(Prior(rows, target, c), TableFactor(lk, c), features, ex) == PosteriorOf(rows, target, features, ex, c)
  {
    forall f, v | f in features ensures TableFactor(lk, c)(f, v) == DataFactor(rows, target, c)(f, v) {
      LookupIsLikelihood(lk, rows, target, features, classes, c, f, v);
    }
    ExampleProductCongruent(Prior(rows, target, c), TableFactor(lk, c), DataFactor(rows, target, c), features, ex);
  }

  /** A class of the data has a positive unnormalised posterior. */
  lemma PosteriorPositive(rows: seq<Row>, target: string, features: seq<string>, ex: seq<(string, Value)>, c: Value)
    requires c in Column(rows, target)
    ensures |rows| > 0 && PosteriorOf(rows, target, features, ex, c) > 0.0
  {
    PriorPositive(rows, target, c);
    ExampleProductPositive(Prior(rows, target, c), DataFactor(rows, target, c), features, ex);
  }

  /** The nested posterior loop: `posterior = priors[cls]`, then
      `posterior *= likelihood` for each example item in the features. */
  method Posteriors(priors: seq<real>, lk: LikelihoodTable, classes: seq<Value>, features: seq<string>, ex: seq<(string, Value)>)
    returns (ps: seq<real>)
    requires |priors| == |classes|
    ensures |ps| == |classes|
    ensures forall j :: 0 <= j < |classes| ==> ps[j] == ExampleProduct(priors[j], TableFactor(lk, classes[j]), features, ex)
  {
    ps := [];
    for j := 0 to |classes|
      invariant |ps| == j
      invariant forall i :: 0 <= i < j ==> ps[i] == ExampleProduct(priors[i], TableFactor(lk, classes[i]), features, ex)
    {
      var posterior := priors[j];
      for k := 0 to |ex|
        invariant posterior == ExampleProduct(priors[j], TableFactor(lk, classes[j]), features, ex[..k])
      {
        assert ex[..k + 1][..k] == ex[..k];
        if ex[k].0 in features {
          posterior := posterior * Lookup(lk, classes[j], ex[k].0, ex[k].1);
        }
      }
      assert ex[..|ex|] == ex;
      ps := ps + [posterior];
    }
  }

  // ---------- normalisation and prediction ----------

  /** `{cls: prob / evidence}`. */
  function Normalize(ps: seq<real>, evidence: real): (r: seq<real>)
    requires evidence != 0.0
    ensures |r| == |ps|
  {
    if |ps| == 0 then [] else Normalize(ps[..|ps| - 1], evidence) + [ps[|ps| - 1] / evidence]
  }

  lemma {:induction false} NormalizeAt(ps: seq<real>, evidence: real, j: nat)
    requires evidence != 0.0 && j < |ps|
    ensures Normalize(ps, evidence)[j] == ps[j] / evidence
  {
    if j < |ps| - 1 {
      NormalizeAt(ps[..|ps| - 1], evidence, j);
    }
  }

  lemma {:induction false} NormalizeSum(ps: seq<real>, evidence: real)
    requires evidence != 0.0
    ensures Sum(Normalize(ps, evidence)) == Sum(ps) / evidence
  {
    if |ps| > 0 {
      NormalizeSum(ps[..|ps| - 1], evidence);
      DivAdd(Sum(ps[..|ps| - 1]), ps[|ps| - 1], evidence);
    }
  }

  /** The evidence after the guard: Σ posteriors, or 1e-10 when that is 0. */
  function Evidence(ps: seq<real>): (e: real)
    ensures e != 0.0
    ensures Sum(ps) != 0.0 ==> e == Sum(ps)
  {
    if Sum(ps) == 0.0 then EvidenceFloor else Sum(ps)
  }

  /** Normalised posteriors sum to 1 whenever the raw evidence is not 0. */
  lemma NormalizedSumToOne(ps: seq<real>)
    requires Sum(ps) != 0.0
    ensures Sum(Normalize(ps, Evidence(ps))) == 1.0
  {
    NormalizeSum(ps, Evidence(ps));
    DivSelf(Sum(ps));
  }

  lemma MulPositive(a: real, b: real)
    requires a > 0.0 && b > 0.0
    ensures a * b > 0.0
  {
  }

  lemma {:induction false} SumPositive(s: seq<real>)
    requires |s| > 0 && forall i :: 0 <= i < |s| ==> s[i] > 0.0
    ensures Sum(s) > 0.0
  {
    if |s| > 1 {
      SumPositive(s[..|s| - 1]);
    }
  }

  function Identity(x: real): real { x }

  /** Everything one call reports. */
  datatype NbResult = NbResult(
    target: string, features: seq<string>, example: seq<(string, Value)>,
    classes: seq<Value>, classCounts: seq<nat>, priors: seq<real>,
    likelihoods: LikelihoodTable, posteriors: seq<real>, evidence: real,
    normalized: seq<real>, predicted: Value, confidence: real)

  /** What a report computed on `rows` states: counts, priors and posteriors
      per class, the evidence, normalised posteriors summing to 1 and the
      first class of maximal normalised posterior. */
  ghost predicate Reports(res: NbResult, rows: seq<Row>)
  {
    && |rows| > 0
    && |res.classes| > 0
    && |res.priors| == |res.classes| == |res.posteriors| == |res.classCounts|
    && AllLaplace(res.likelihoods, rows, res.target)
    && (forall key :: key in res.likelihoods <==>
          key.0 in res.classes && key.1 in res.features && key.2 in Domain(rows, key.1))
    && (forall j :: 0 <= j < |res.classes| ==>
          res.classCounts[j] == Count(Column(rows, res.target), res.classes[j])
          && res.priors[j] == Prior(rows, res.target, res.classes[j])
          && res.posteriors[j] == PosteriorOf(rows, res.target, res.features, res.example, res.classes[j])
          && res.posteriors[j] > 0.0)
    && res.evidence == Sum(res.posteriors) && res.evidence > 0.0
    && res.normalized == Normalize(res.posteriors, res.evidence)
    && Sum(res.normalized) == 1.0
    && |res.normalized| == |res.classes|
    && res.predicted == res.classes[FirstMax(res.normalized, Identity)]
    && res.confidence == res.normalized[FirstMax(res.normalized, Identity)]
  }

  /** The class counts and the priors, one per class. */
  method ComputePriors(rows: seq<Row>, target: string, classes: seq<Value>) returns (counts: seq<nat>, priors: seq<real>)
    requires |rows| > 0
    ensures |counts| == |classes| && |priors| == |classes|
    ensures forall j :: 0 <= j < |classes| ==> counts[j] == Count(Column(rows, target), classes[j])
    ensures forall j :: 0 <= j < |classes| ==> priors[j] == Prior(rows, target, classes[j])
  {
    var col := Column(rows, target);
    counts, priors := [], [];
    for j := 0 to |classes|
      invariant |counts| == j && |priors| == j
      invariant forall i :: 0 <= i < j ==> counts[i] == Count(col, classes[i])
      invariant forall i :: 0 <= i < j ==> priors[i] == Prior(rows, target, classes[i])
    {
      var n := Count(col, classes[j]);
      counts := counts + [n];
      priors := priors + [n as real / |rows| as real];
    }
  }

  /** The posterior of every class, each shown equal to `PosteriorOf` and positive. */
  method DataPosteriors(rows: seq<Row>, target: string, features: seq<string>, ex: seq<(string, Value)>,
                        classes: seq<Value>, priors: seq<real>, lk: LikelihoodTable)
    returns (ps: seq<real>)
    requires |classes| > 0 && forall j :: 0 <= j < |classes| ==> classes[j] in Column(rows, target)
    requires |rows| > 0
    requires |priors| == |classes| && forall j :: 0 <= j < |classes| ==> priors[j] == Prior(rows, target, classes[j])
    requires AllLaplace(lk, rows, target)
    requires forall key :: key in lk <==> key.0 in classes && key.1 in features && key.2 in Domain(rows, key.1)
    ensures |ps| == |classes|
    ensures forall j :: 0 <= j < |classes| ==> ps[j] == PosteriorOf(rows, target, features, ex, classes[j]) && ps[j] > 0.0
  {
    ps := Posteriors(priors, lk, classes, features, ex);
    forall j | 0 <= j < |classes| ensures ps[j] == PosteriorOf(rows, target, features, ex, classes[j]) && ps[j] > 0.0 {
      ScoreIsPosterior(lk, rows, target, features, classes, classes[j], ex);
      PosteriorPositive(rows, target, features, ex, classes[j]);
    }
  }

  /** Priors, likelihoods, posteriors, evidence, normalisation and the
      first-maximum prediction for classes drawn from the data. */
  method Evaluate(rows: seq<Row>, target: string, features: seq<string>, ex: seq<(string, Value)>, classes: seq<Value>)
    returns (counts: seq<nat>, priors: seq<real>, lk: LikelihoodTable, ps: seq<real>, evidence: real, normalized: seq<real>, m: nat)
    requires |classes| > 0 && forall j :: 0 <= j < |classes| ==> classes[j] in Column(rows, target)
    ensures |rows| > 0
    ensures |counts| == |classes| && forall j :: 0 <= j < |classes| ==> counts[j] == Count(Column(rows, target), classes[j])
    ensures |priors| == |classes| && forall j :: 0 <= j < |classes| ==> priors[j] == Prior(rows, target, classes[j])
    ensures AllLaplace(lk, rows, target)
    ensures forall key :: key in lk <==> key.0 in classes && key.1 in features && key.2 in Domain(rows, key.1)
    ensures |ps| == |classes|
    ensures forall j :: 0 <= j < |classes| ==> ps[j] == PosteriorOf(rows, target, features, ex, classes[j]) && ps[j] > 0.0
    ensures evidence == Sum(ps) && evidence > 0.0
    ensures normalized == Normalize(ps, evidence) && Sum(normalized) == 1.0
    ensures m == FirstMax(normalized, Identity)
  {
    assert classes[0] in Column(rows, target);
    counts, priors := ComputePriors(rows, target, classes);
    lk := Likelihoods(rows, target, features, classes);
    ps := DataPosteriors(rows, target, features, ex, classes, priors, lk);
    SumPositive(ps);
    evidence := Sum(ps);
    if evidence == 0.0 {
      evidence := EvidenceFloor;
    }
    normalized := Normalize(ps, evidence);
    NormalizedSumToOne(ps);
    m := FirstMax(normalized, Identity);
  }

  /** `Evaluate` packaged with the class counts into one report. */
  method Classify(rows: seq<Row>, target: string, features: seq<string>, ex: seq<(string, Value)>, classes: seq<Value>)
    returns (res: NbResult)
    requires |classes| > 0 && forall j :: 0 <= j < |classes| ==> classes[j] in Column(rows, target)
    ensures res.target == target && res.features == features && res.example == ex && res.classes == classes
    ensures Reports(res, rows)
  {
    var counts, priors, lk, ps, evidence, normalized, m := Evaluate(rows, target, features, ex, classes);
    res := NbResult(target, features, ex, classes, counts, priors, lk, ps, evidence, normalized, classes[m], normalized[m]);
  }

  /** The column choice of `run_naive_bayes`: when either parameter is
      missing the detection runs, and each missing one is taken from it. */
  method ResolveColumns(t: Table, p: NbParams) returns (r: Result<(string, seq<string>)>)
    ensures r == ChosenColumnsAsWritten(t, p)
  {
    var target: string;
    var features: seq<string>;
    if !Given(p.target) || !GivenList(p.features) {
      var detected := DetectColumns(t.columns);
      if detected.Err? {
        return Err(detected.failure);
      }
      target := if Given(p.target) then p.target.value else detected.value.1;
      features := if GivenList(p.features) then p.features.value else detected.value.0;
    } else {
      target := p.target.value;
      features := p.features.value;
    }
    r := Validated(t, target, features);
  }

  /** The example can be resolved: it is given, or every feature has a default value. */
  ghost predicate ExampleResolves(rows: seq<Row>, features: seq<string>, given: seq<(string, Value)>,
                                  mode: seq<Value> -> Option<Value>)
  {
    |given| > 0 || forall f :: f in features ==> DefaultValue(rows, f, mode).Ok?
  }

  /** Every entry of the example holds its feature's default value, the
      column's mode or first cell. */
  ghost predicate HoldsDefaults(rows: seq<Row>, ex: seq<(string, Value)>, mode: seq<Value> -> Option<Value>)
  {
    forall i :: 0 <= i < |ex| ==> DefaultValue(rows, ex[i].0, mode) == Ok(ex[i].1)
  }

  /** The example to classify: the given one, or the default one when empty. */
  method ResolveExample(rows: seq<Row>, features: seq<string>, given: seq<(string, Value)>, mode: seq<Value> -> Option<Value>)
    returns (r: Result<seq<(string, Value)>>)
    ensures |given| > 0 ==> r == Ok(given)
    ensures |given| == 0 && r.Ok? ==> Keys(r.value) == Distinct(features)
    ensures |given| == 0 && r.Ok? ==> HoldsDefaults(rows, r.value, mode)
    ensures |given| == 0 ==> (r.Err? <==> exists f :: f in features && DefaultValue(rows, f, mode).Err?)
    ensures r.Err? ==> r.failure == Raised("IndexError")
    ensures r.Ok? <==> ExampleResolves(rows, features, given, mode)
  {
    if |given| > 0 {
      return Ok(given);
    }
    r := DefaultExample(rows, features, mode);
  }

  /** Everything `run_naive_bayes` does once the columns are chosen. */
  method ClassifyTable(rows: seq<Row>, target: string, features: seq<string>, example: seq<(string, Value)>,
                       mode: seq<Value> -> Option<Value>)
    returns (r: Result<NbResult>)
    ensures r.Ok? ==>
      && r.value.target == target && r.value.features == features
      && (|example| > 0 ==> r.value.example == example)
      && (|example| == 0 ==> Keys(r.value.example) == Distinct(features))
      && (|example| == 0 ==> HoldsDefaults(rows, r.value.example, mode))
      && r.value.classes == Distinct(Column(rows, target))
      && Null !in Column(rows, target)
      && Reports(r.value, rows)
    ensures r.Err? ==> r.failure in {Raised("IndexError"), Raised("KeyError"), Raised("ValueError")}
    ensures Null in Column(rows, target) ==> r.Err?
    ensures |rows| == 0 ==> r.Err?
    ensures r.Ok? <==> ExampleResolves(rows, features, example, mode) && Null !in Column(rows, target) && |rows| > 0
    ensures !ExampleResolves(rows, features, example, mode) ==> r == Err(Raised("IndexError"))
    ensures ExampleResolves(rows, features, example, mode) && Null in Column(rows, target) ==>
      r == Err(Raised("KeyError"))
    ensures ExampleResolves(rows, features, example, mode) && Null !in Column(rows, target) && |rows| == 0 ==>
      r == Err(Raised("ValueError"))
  {
    var ex := ResolveExample(rows, features, example, mode);
    if ex.Err? {
      return Err(ex.failure);
    }
    var col := Column(rows, target);
    var classes := Distinct(col);
    DistinctProps(col);
    if Null in classes {
      return Err(Raised("KeyError"));
    }
    if |classes| == 0 {
      return Err(Raised("ValueError"));
    }
    assert |rows| > 0 by {
      if |rows| == 0 { } else { DistinctNonEmpty(col); }
    }
    var res := Classify(rows, target, features, ex.value, classes);
    r := Ok(res);
  }

  /** `run_naive_bayes`. */
  method RunNaiveBayes(t: Table, p: NbParams, mode: seq<Value> -> Option<Value>) returns (r: Result<NbResult>)
    ensures ChosenColumnsAsWritten(t, p).Err? ==> r == Err(ChosenColumnsAsWritten(t, p).failure)
    ensures r.Ok? ==>
      && ChosenColumnsAsWritten(t, p) == Ok((r.value.target, r.value.features))
      && (|p.example| > 0 ==> r.value.example == p.example)
      && (|p.example| == 0 ==> Keys(r.value.example) == Distinct(r.value.features))
      && (|p.example| == 0 ==> HoldsDefaults(t.rows, r.value.example, mode))
      && r.value.classes == Distinct(Column(t.rows, r.value.target))
      && Null !in Column(t.rows, r.value.target)
      && Reports(r.value, t.rows)
    ensures r.Err? && ChosenColumnsAsWritten(t, p).Ok? ==>
      r.failure in {Raised("IndexError"), Raised("KeyError"), Raised("ValueError")}
    ensures ChosenColumnsAsWritten(t, p).Ok? && Null in Column(t.rows, ChosenColumnsAsWritten(t, p).value.0) ==> r.Err?
    ensures ChosenColumnsAsWritten(t, p).Ok? && |t.rows| == 0 ==> r.Err?
    ensures ChosenColumnsAsWritten(t, p).Ok? ==>
      var (g, fs) := ChosenColumnsAsWritten(t, p).value;
      && (r.Ok? <==> ExampleResolves(t.rows, fs, p.example, mode) && Null !in Column(t.rows, g) && |t.rows| > 0)
      && (!ExampleResolves(t.rows, fs, p.example, mode) ==> r == Err(Raised("IndexError")))
      && (ExampleResolves(t.rows, fs, p.example, mode) && Null in Column(t.rows, g) ==> r == Err(Raised("KeyError")))
      && (ExampleResolves(t.rows, fs, p.example, mode) && Null !in Column(t.rows, g) && |t.rows| == 0 ==>
            r == Err(Raised("ValueError")))
  {
    var chosen := ResolveColumns(t, p);
    if chosen.Err? {
      return Err(chosen.failure);
    }
    r := ClassifyTable(t.rows, chosen.value.0, chosen.value.1, p.example, mode);
  }
}
