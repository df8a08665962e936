/** backend/knn_regression.py: k-nearest-neighbour regression written out by
    hand. One distance entry per row, a stable sort by distance, the first k
    entries as neighbours, their plain mean and their inverse-distance
    weighted mean (with the short cut for a point identical to the test
    point), and the chart rows. The square root is a parameter. */
module KnnRegression {
  import opened Common
  import opened Detection
  import LinearRegression

  /** A float that may be NaN: pandas' mean of an empty column and NumPy's
      mean of an empty list. */
  datatype Float = Finite(v: real) | NaN

  /** The default of `k`. */
  const DefaultK := 3

  // ---------- column detection ----------

  /** `numeric_cols[:2]`. */
  function TakeTwo(s: seq<string>): (r: seq<string>)
    ensures |r| == (if |s| < 2 then |s| else 2) && r == s[..|r|]
  {
    if |s| <= 2 then s else s[..2]
  }

  /** The default features as written: the first two numeric columns, with
      the target removed only when the caller named it (the target is
      detected afterwards). */
  function DefaultFeaturesAsWritten(t: Table, target: Option<string>): (r: seq<string>)
    ensures target.Some? ==> target.value !in r
    ensures forall c :: c in r ==> c in t.columns && IsNumericColumn(t, c)
    ensures |r| <= 2
  {
    var nums := NumericColumns(t);
    var r := TakeTwo(if target.Some? then Without(nums, target.value) else nums);
    assert forall c :: c in r ==> c in (if target.Some? then Without(nums, target.value) else nums);
    r
  }

  /** The evident intent: the first two numeric columns other than the target
      actually used. */
  function DefaultFeatures(t: Table, target: string): (r: seq<string>)
    ensures target !in r
    ensures forall c :: c in r ==> c in t.columns && IsNumericColumn(t, c)
    ensures |r| == (if |Without(NumericColumns(t), target)| < 2 then |Without(NumericColumns(t), target)| else 2)
  {
    var r := TakeTwo(Without(NumericColumns(t), target));
    assert forall c :: c in r ==> c in Without(NumericColumns(t), target);
    r
  }

  /** The target: the given one, else the first name of the list that is a
      column, else the last numeric column. */
  function DetectTarget(t: Table, given: Option<string>): (r: Option<string>)
    ensures Given(given) ==> r == given
    ensures !Given(given) && r.Some? ==> r.value in t.columns
    ensures !Given(given) && r.None? <==>
              !Given(given) && FirstPresent(LinearRegression.TargetNames, t.columns).None? && |NumericColumns(t)| == 0
  {
    if Given(given) then given
    else match FirstPresent(LinearRegression.TargetNames, t.columns)
      case Some(c) => Some(c)
      case None =>
        var nums := NumericColumns(t);
        if |nums| > 0 then
          assert nums[|nums| - 1] in nums;
          Some(nums[|nums| - 1])
        else None
  }

  /** The checks after detection: a missing feature list or target, a target
      that is not a column, or a feature that is not a column is a 400. */
  function Checked(t: Table, features: seq<string>, target: Option<string>): (r: Result<(seq<string>, string)>)
    ensures r.Ok? <==> |features| > 0 && Given(target) && target.value in t.columns
                       && forall c :: c in features ==> c in t.columns
    ensures r.Ok? ==> r.value == (features, target.value)
    ensures r.Err? ==> r.failure == HttpError(400)
  {
    if |features| == 0 || !Given(target) then Err(HttpError(400))
    else if target.value !in t.columns then Err(HttpError(400))
    else if exists c :: c in features && c !in t.columns then Err(HttpError(400))
    else Ok((features, target.value))
  }

  /** The columns as the source chooses them: the default features are
      taken before the target is detected, so only a target the caller named
      is kept out of them. */
  function ColumnsAsWritten(t: Table, features: Option<seq<string>>, target: Option<string>): (r: Result<(seq<string>, string)>)
    ensures r.Ok? ==> r.value.1 in t.columns && |r.value.0| > 0 && forall c :: c in r.value.0 ==> c in t.columns
    ensures r.Ok? && GivenList(features) ==> r.value.0 == features.value
    ensures r.Ok? && !GivenList(features) ==> |r.value.0| <= 2 && forall c :: c in r.value.0 ==> IsNumericColumn(t, c)
    ensures r.Ok? && !GivenList(features) && target.Some? ==> target.value !in r.value.0
    ensures r.Ok? && Given(target) ==> r.value.1 == target.value
    ensures r.Err? ==> r.failure == HttpError(400)
  {
    var feats := if GivenList(features) then features.value else DefaultFeaturesAsWritten(t, target);
    Checked(t, feats, DetectTarget(t, target))
  }

  /** The columns as evidently intended: the default features leave out the
      detected target too. */
  function ColumnsChosen(t: Table, features: Option<seq<string>>, target: Option<string>): (r: Result<(seq<string>, string)>)
    ensures r.Ok? ==> r.value.1 in t.columns && |r.value.0| > 0 && forall c :: c in r.value.0 ==> c in t.columns
    ensures r.Ok? && GivenList(features) ==> r.value.0 == features.value
    ensures r.Ok? && !GivenList(features) ==> r.value.1 !in r.value.0 && |r.value.0| <= 2
    ensures r.Ok? && Given(target) ==> r.value.1 == target.value
    ensures r.Err? ==> r.failure == HttpError(400)
  {
    var g := DetectTarget(t, target);
    if !Given(g) then Err(HttpError(400))
    else
      var feats := if GivenList(features) then features.value else DefaultFeatures(t, g.value);
      Checked(t, feats, g)
  }

  /** The two choices differ only when neither a feature list nor a target
      is given: with either one given they agree. */
  lemma ColumnsAgree(t: Table, features: Option<seq<string>>, target: Option<string>)
    requires GivenList(features) || Given(target)
    ensures ColumnsAsWritten(t, features, target) == ColumnsChosen(t, features, target)
  {
    if !GivenList(features) {
      assert DefaultFeaturesAsWritten(t, target) == DefaultFeatures(t, target.value);
    }
  }

  /** The source's order of detection lets the detected target be a feature of
      itself: with no parameters, no column named like a target, and one or
      two numeric columns, the last numeric column is both. */
  lemma DetectedTargetIsFeature(t: Table)
    requires "" !in t.columns
    requires FirstPresent(LinearRegression.TargetNames, t.columns).None?
    requires 1 <= |NumericColumns(t)| <= 2
    ensures ColumnsAsWritten(t, None, None).Ok?
    ensures ColumnsAsWritten(t, None, None).value.1 in ColumnsAsWritten(t, None, None).value.0
  {
    var nums := NumericColumns(t);
    assert nums[|nums| - 1] in nums;
    assert DefaultFeaturesAsWritten(t, None) == nums;
  }

  /** The target detection: the for/break search of the target names, then
      the last numeric column. */
  method FindTarget(t: Table, given: Option<string>) returns (g: Option<string>)
    ensures g == DetectTarget(t, given)
  {
    g := given;
    if !Given(g) {
      g := SearchFirstPresent(LinearRegression.TargetNames, t.columns);
      if g.None? {
        var nums := NumericColumns(t);
        if |nums| > 0 {
          g := Some(nums[|nums| - 1]);
        }
      }
    }
  }

  /** The for loop over the features, raising for the first unknown one. */
  method AllColumns(t: Table, feats: seq<string>) returns (ok: bool)
    ensures ok <==> forall c :: c in feats ==> c in t.columns
  {
    for i := 0 to |feats|
      invariant forall j :: 0 <= j < i ==> feats[j] in t.columns
    {
      if feats[i] !in t.columns {
        return false;
      }
    }
    return true;
  }

  /** The default features, then the target detection, then the checks, in
      the source's order. */
  method ChooseColumns(t: Table, features: Option<seq<string>>, target: Option<string>)
    returns (r: Result<(seq<string>, string)>)
    ensures r == ColumnsAsWritten(t, features, target)
  {
    var feats := if GivenList(features) then features.value else DefaultFeaturesAsWritten(t, target);
    var g := FindTarget(t, target);
    if |feats| == 0 || !Given(g) {
      return Err(HttpError(400));
    }
    var ok := AllColumns(t, feats);
    if g.value !in t.columns || !ok {
      r := Err(HttpError(400));
    } else {
      r := Ok((feats, g.value));
    }
  }

  // ---------- the test point ----------

  /** `float(df[col].mean())`: NaN for an empty column. */
  function ColumnMean(col: seq<real>): Float
  {
    if |col| == 0 then NaN else Finite(Mean(col))
  }

  /** The test vector in feature order: the given coordinate, else the
      feature's mean (all means when no test point is given). */
  method TestVector(testPoint: map<string, real>, features: seq<string>, cols: seq<seq<real>>)
    returns (v: seq<Float>)
    requires |cols| == |features|
    ensures |v| == |features|
    ensures forall j :: 0 <= j < |features| && features[j] in testPoint ==> v[j] == Finite(testPoint[features[j]])
    ensures forall j :: 0 <= j < |features| && features[j] !in testPoint ==> v[j] == ColumnMean(cols[j])
  {
    v := [];
    for j := 0 to |features|
      invariant |v| == j
      invariant forall i :: 0 <= i < j && features[i] in testPoint ==> v[i] == Finite(testPoint[features[i]])
      invariant forall i :: 0 <= i < j && features[i] !in testPoint ==> v[i] == ColumnMean(cols[i])
    {
      if features[j] in testPoint {
        v := v + [Finite(testPoint[features[j]])];
      } else {
        v := v + [ColumnMean(cols[j])];
      }
    }
  }

  /** The coordinates of a test vector with no NaN in it. */
  function Coordinates(v: seq<Float>): (r: seq<real>)
    requires forall j :: 0 <= j < |v| ==> v[j].Finite?
    ensures |r| == |v| && forall j :: 0 <= j < |v| ==> r[j] == v[j].v
  {
    seq(|v|, j requires 0 <= j < |v| => v[j].v)
  }

  // ---------- distances ----------

  /** Σ (p_j − q_j)². */
  function SquaredDistance(p: seq<real>, q: seq<real>): real
    requires |p| == |q|
  {
    if |p| == 0 then 0.0
    else SquaredDistance(p[..|p| - 1], q[..|q| - 1]) + LinearRegression.Square(p[|p| - 1] - q[|q| - 1])
  }

  /** `euclidean_distance`, with `sqrt` for `np.sqrt`. */
  function Distance(sqrt: real -> real, p: seq<real>, q: seq<real>): real
    requires |p| == |q|
  {
    sqrt(SquaredDistance(p, q))
  }

  /** The squared distance is never negative, and zero between identical
      points. */
  lemma {:induction false} SquaredDistanceProps(p: seq<real>, q: seq<real>)
    requires |p| == |q|
    ensures SquaredDistance(p, q) >= 0.0
    ensures p == q ==> SquaredDistance(p, q) == 0.0
  {
    if |p| > 0 {
      SquaredDistanceProps(p[..|p| - 1], q[..|q| - 1]);
      LinearRegression.SquareNonNegative(p[|p| - 1] - q[|q| - 1]);
    }
  }

  /** With a square root that is non-negative and zero at zero, distances are
      non-negative and a row identical to the test point is at distance zero,
      which is what the weighted short cut looks for. */
  lemma DistanceProps(sqrt: real -> real, p: seq<real>, q: seq<real>)
    requires |p| == |q|
    requires forall u :: u >= 0.0 ==> sqrt(u) >= 0.0
    requires sqrt(0.0) == 0.0
    ensures Distance(sqrt, p, q) >= 0.0
    ensures p == q ==> Distance(sqrt, p, q) == 0.0
  {
    SquaredDistanceProps(p, q);
  }

  /** Row i as a point: its value in each feature column. */
  function PointOf(cols: seq<seq<real>>, i: nat): (p: seq<real>)
    requires forall j :: 0 <= j < |cols| ==> i < |cols[j]|
    ensures |p| == |cols| && forall j :: 0 <= j < |cols| ==> p[j] == cols[j][i]
  {
    seq(|cols|, j requires 0 <= j < |cols| => cols[j][i])
  }

  /** One element of `distances`. */
  datatype Entry = Entry(index: nat, point: seq<real>, target: real, distance: real)

  ghost predicate Rectangular(cols: seq<seq<real>>, n: nat)
  {
    forall j :: 0 <= j < |cols| ==> |cols[j]| == n
  }

  /** The entry the distance loop appends for row i. */
  function EntryAt(sqrt: real -> real, cols: seq<seq<real>>, y: seq<real>, test: seq<real>, i: nat): Entry
    requires Rectangular(cols, |y|) && |test| == |cols| && i < |y|
  {
    Entry(i, PointOf(cols, i), y[i], Distance(sqrt, PointOf(cols, i), test))
  }

  /** The distance loop: one entry per row, in row order, carrying the row's
      index, point, target and distance to the test point. */
  method Distances(sqrt: real -> real, cols: seq<seq<real>>, y: seq<real>, test: seq<real>)
    returns (ds: seq<Entry>)
    requires Rectangular(cols, |y|) && |test| == |cols|
    ensures |ds| == |y|
    ensures forall i :: 0 <= i < |y| ==> ds[i] == EntryAt(sqrt, cols, y, test, i)
    ensures RowsInOrder(ds, y)
  {
    ds := [];
    for i := 0 to |y|
      invariant |ds| == i
      invariant forall k :: 0 <= k < i ==> ds[k] == EntryAt(sqrt, cols, y, test, k)
    {
      var p := PointOf(cols, i);
      ds := ds + [Entry(i, p, y[i], Distance(sqrt, p, test))];
    }
  }

  // ---------- sorting and neighbours ----------

  function NegatedDistance(e: Entry): real
  {
    -e.distance
  }

  function EntryIndex(e: Entry): int
  {
    e.index
  }

  /** `distances.sort(key=lambda x: x["distance"])`: ascending and stable,
      written as the stable descending sort on the negated distance. */
  function SortByDistance(ds: seq<Entry>): (r: seq<Entry>)
    ensures |r| == |ds| && multiset(r) == multiset(ds)
  {
    SortDesc(ds, NegatedDistance)
  }

  ghost predicate Ascending(s: seq<Entry>)
  {
    forall i, j :: 0 <= i < j < |s| ==> s[i].distance <= s[j].distance
  }

  /** The sorted list is a permutation of the entries, non-decreasing in
      distance, and entries at equal distance keep their row order. */
  lemma SortedByDistance(ds: seq<Entry>)
    requires forall i :: 0 <= i < |ds| ==> ds[i].index == i
    ensures multiset(SortByDistance(ds)) == multiset(ds)
    ensures Ascending(SortByDistance(ds))
    ensures forall i, j :: 0 <= i < j < |ds| && SortByDistance(ds)[i].distance == SortByDistance(ds)[j].distance ==>
              SortByDistance(ds)[i].index < SortByDistance(ds)[j].index
  {
    SortDescSorted(ds, NegatedDistance);
    assert RankIncreasing(ds, EntryIndex);
    SortDescStable(ds, NegatedDistance, EntryIndex);
    var s := SortByDistance(ds);
    forall i, j | 0 <= i < j < |s| ensures s[i].distance <= s[j].distance {
      assert NegatedDistance(s[i]) >= NegatedDistance(s[j]);
    }
  }

  /** Python's `s[:k]`: a negative k counts from the end. */
  function PyPrefix<T>(s: seq<T>, k: int): (r: seq<T>)
    ensures |r| <= |s| && r == s[..|r|]
    ensures k >= 0 ==> |r| == if k < |s| then k else |s|
    ensures k < 0 ==> |r| == if |s| + k > 0 then |s| + k else 0
  {
    if k >= |s| then s
    else if k >= 0 then s[..k]
    else if |s| + k > 0 then s[..|s| + k]
    else []
  }

  /** The neighbours are at least as near as every other row. */
  lemma NeighboursNearest(ds: seq<Entry>, k: int)
    requires forall i :: 0 <= i < |ds| ==> ds[i].index == i
    ensures var s := SortByDistance(ds); var ns := PyPrefix(s, k);
            forall i, j :: 0 <= i < |ns| <= j < |s| ==> ns[i].distance <= s[j].distance
  {
    SortedByDistance(ds);
  }

  /** `[n["index"] for n in k_neighbors]`. */
  function Indices(ns: seq<Entry>): (r: seq<int>)
    ensures |r| == |ns| && forall j :: 0 <= j < |ns| ==> r[j] == ns[j].index
  {
    seq(|ns|, j requires 0 <= j < |ns| => ns[j].index)
  }

  /** `[n["target_value"] for n in k_neighbors]`. */
  function Targets(ns: seq<Entry>): (r: seq<real>)
    ensures |r| == |ns| && forall j :: 0 <= j < |ns| ==> r[j] == ns[j].target
  {
    seq(|ns|, j requires 0 <= j < |ns| => ns[j].target)
  }

  // ---------- the two predictions ----------

  /** `np.mean(neighbor_values)`: NaN without neighbours. */
  function SimplePrediction(ns: seq<Entry>): Float
  {
    if |ns| == 0 then NaN else Finite(Mean(Targets(ns)))
  }

  lemma {:induction false} SumBounds(s: seq<real>, lo: real, hi: real)
    requires forall j :: 0 <= j < |s| ==> lo <= s[j] <= hi
    ensures |s| as real * lo <= Sum(s) <= |s| as real * hi
  {
    if |s| > 0 {
      SumBounds(s[..|s| - 1], lo, hi);
    }
  }

  lemma AverageBounds(total: real, n: real, lo: real, hi: real)
    requires n > 0.0 && n * lo <= total <= n * hi
    ensures lo <= total / n <= hi
  {
    assert total / n * n == total;
  }

  /** The plain mean lies between the smallest and largest neighbour target. */
  lemma SimplePredictionBounds(ns: seq<Entry>, lo: real, hi: real)
    requires |ns| > 0
    requires forall j :: 0 <= j < |ns| ==> lo <= ns[j].target <= hi
    ensures lo <= SimplePrediction(ns).v <= hi
  {
    SumBounds(Targets(ns), lo, hi);
    AverageBounds(Sum(Targets(ns)), |ns| as real, lo, hi);
  }

  /** One element of `weights`. */
  datatype Weight = Weight(index: nat, weight: real, weightedValue: real)

  /** The weighted prediction, the total weight and the weight list. */
  datatype Weighting = Weighting(prediction: real, total: real, weights: seq<Weight>)

  function Inverse(d: real): real
    requires d != 0.0
  {
    1.0 / d
  }

  function Scaled(w: real, v: real): real
  {
    w * v
  }

  ghost predicate NoZero(ns: seq<Entry>)
  {
    forall j :: 0 <= j < |ns| ==> ns[j].distance != 0.0
  }

  /** Σ 1/d_i. */
  function TotalInverse(ns: seq<Entry>): real
    requires NoZero(ns)
  {
    if |ns| == 0 then 0.0 else TotalInverse(ns[..|ns| - 1]) + Inverse(ns[|ns| - 1].distance)
  }

  /** Σ y_i/d_i. */
  function InverseWeightedSum(ns: seq<Entry>): real
    requires NoZero(ns)
  {
    if |ns| == 0 then 0.0
    else InverseWeightedSum(ns[..|ns| - 1]) + Scaled(Inverse(ns[|ns| - 1].distance), ns[|ns| - 1].target)
  }

  /** The weight entries, one per neighbour, in order. */
  function InverseWeights(ns: seq<Entry>): (r: seq<Weight>)
    requires NoZero(ns)
    ensures |r| == |ns|
  {
    if |ns| == 0 then []
    else
      var e := ns[|ns| - 1];
      InverseWeights(ns[..|ns| - 1]) + [Weight(e.index, Inverse(e.distance), Scaled(Inverse(e.distance), e.target))]
  }

  /** The position of the first neighbour at distance zero. */
  function FirstZero(ns: seq<Entry>): (r: Option<nat>)
    ensures r.None? <==> NoZero(ns)
    ensures r.Some? ==> r.value < |ns| && ns[r.value].distance == 0.0
    ensures r.Some? ==> forall j :: 0 <= j < r.value ==> ns[j].distance != 0.0
  {
    if |ns| == 0 then None
    else if ns[0].distance == 0.0 then Some(0)
    else match FirstZero(ns[1..])
      case Some(i) => Some(i + 1)
      case None => None
  }

  /** Inverse-distance weighting: the first neighbour at distance zero, if
      any, decides alone with weight 1; otherwise w_i = 1/d_i and the
      prediction is Σ w_i·y_i / Σ w_i when the total weight is positive. */
  function WeightingOf(ns: seq<Entry>): Weighting
  {
    match FirstZero(ns)
    case Some(i) => Weighting(ns[i].target, 1.0, [Weight(ns[i].index, 1.0, ns[i].target)])
    case None =>
      var total := TotalInverse(ns);
      var sum := InverseWeightedSum(ns);
      Weighting(if total > 0.0 then sum / total else sum, total, InverseWeights(ns))
  }

  /** The weighting loop with its `break` at a zero distance. */
  method WeightingLoop(ns: seq<Entry>) returns (w: Weighting)
    ensures w == WeightingOf(ns)
  {
    var sum, total, weights := 0.0, 0.0, [];
    var i := 0;
    while i < |ns|
      invariant 0 <= i <= |ns| && NoZero(ns[..i])
      invariant sum == InverseWeightedSum(ns[..i]) && total == TotalInverse(ns[..i]) && weights == InverseWeights(ns[..i])
    {
      var e := ns[i];
      if e.distance == 0.0 {
        assert FirstZero(ns) == Some(i);
        return Weighting(e.target, 1.0, [Weight(e.index, 1.0, e.target)]);
      }
      assert ns[..i + 1][..i] == ns[..i];
      var weight := Inverse(e.distance);
      sum := sum + Scaled(weight, e.target);
      total := total + weight;
      weights := weights + [Weight(e.index, weight, Scaled(weight, e.target))];
      i := i + 1;
    }
    assert ns[..i] == ns;
    w := Weighting(if total > 0.0 then sum / total else sum, total, weights);
  }

  /** A neighbour identical to the test point short-cuts the weighting: its
      target is the prediction, the total weight is 1 and there is one
      weight entry. */
  lemma ExactMatchShortCut(ns: seq<Entry>)
    requires |ns| > 0 && ns[0].distance == 0.0
    ensures WeightingOf(ns).prediction == ns[0].target
    ensures WeightingOf(ns).total == 1.0
    ensures WeightingOf(ns).weights == [Weight(ns[0].index, 1.0, ns[0].target)]
  {
  }

  lemma WeightStep(lo: real, hi: real, total: real, sum: real, w: real, t: real)
    requires lo * total <= sum <= hi * total
    requires w > 0.0 && lo <= t <= hi
    ensures lo * (total + w) <= sum + Scaled(w, t) <= hi * (total + w)
  {
    assert (t - lo) * w >= 0.0;
    assert (hi - t) * w >= 0.0;
  }

  lemma {:induction false} WeightedSumBounds(ns: seq<Entry>, lo: real, hi: real)
    requires forall j :: 0 <= j < |ns| ==> ns[j].distance > 0.0 && lo <= ns[j].target <= hi
    ensures TotalInverse(ns) >= 0.0
    ensures |ns| > 0 ==> TotalInverse(ns) > 0.0
    ensures lo * TotalInverse(ns) <= InverseWeightedSum(ns) <= hi * TotalInverse(ns)
  {
    if |ns| > 0 {
      var ns' := ns[..|ns| - 1];
      WeightedSumBounds(ns', lo, hi);
      var d := ns[|ns| - 1].distance;
      DivPositive(1.0, d);
      WeightStep(lo, hi, TotalInverse(ns'), InverseWeightedSum(ns'), Inverse(d), ns[|ns| - 1].target);
    }
  }

  /** With positive distances the weighted prediction is a convex
      combination of the neighbour targets, so it lies between their minimum
      and maximum. */
  lemma WeightedPredictionBounds(ns: seq<Entry>, lo: real, hi: real)
    requires |ns| > 0
    requires forall j :: 0 <= j < |ns| ==> ns[j].distance > 0.0 && lo <= ns[j].target <= hi
    ensures lo <= WeightingOf(ns).prediction <= hi
  {
    WeightedSumBounds(ns, lo, hi);
    AverageBounds(InverseWeightedSum(ns), TotalInverse(ns), lo, hi);
  }

  /** The weight entries add up to the reported total weight. */
  lemma {:induction false} WeightsAddUp(ns: seq<Entry>)
    requires NoZero(ns)
    ensures Sum(WeightColumn(InverseWeights(ns))) == TotalInverse(ns)
  {
    if |ns| > 0 {
      var ns' := ns[..|ns| - 1];
      WeightsAddUp(ns');
      var ws := InverseWeights(ns);
      assert WeightColumn(ws)[..|ws| - 1] == WeightColumn(InverseWeights(ns'));
    }
  }

  /** The `weight` fields of a weight list. */
  function WeightColumn(ws: seq<Weight>): (r: seq<real>)
    ensures |r| == |ws| && forall j :: 0 <= j < |ws| ==> r[j] == ws[j].weight
  {
    seq(|ws|, j requires 0 <= j < |ws| => ws[j].weight)
  }

  /** Which prediction the last step recommends. */
  datatype Recommendation = SimpleAverage | WeightedAverage

  function Abs(x: real): real
  {
    if x < 0.0 then -x else x
  }

  /** "weighted" when the two predictions differ by more than 0.01; a NaN
      plain mean compares false. */
  function Recommended(weighted: real, simple: Float): (r: Recommendation)
    ensures r == WeightedAverage <==> simple.Finite? && (weighted - simple.v > 0.01 || simple.v - weighted > 0.01)
  {
    if simple.Finite? && Abs(weighted - simple.v) > 0.01 then WeightedAverage else SimpleAverage
  }

  // ---------- chart data ----------

  /** One element of `chart_data`: a data row, or the test point last. */
  datatype ChartEntry =
    | RowEntry(index: int, first: real, second: real, target: real, isNeighbour: bool, distance: real)
    | TestEntry(index: int, testFirst: Float, testSecond: Float, prediction: Float, distance: real)

  function SecondOr<T>(s: seq<T>, zero: T): T
  {
    if |s| > 1 then s[1] else zero
  }

  /** Chart row i, with 0 for a missing second feature as the guard on its
      value intends. */
  function ChartRow(cols: seq<seq<real>>, y: seq<real>, sorted: seq<Entry>, ns: seq<Entry>, i: nat): ChartEntry
    requires |cols| > 0 && Rectangular(cols, |y|) && |sorted| == |y| && i < |y|
  {
    RowEntry(i, cols[0][i], SecondOr(PointOf(cols, i), 0.0), y[i], i in Indices(ns), sorted[i].distance)
  }

  /** The chart the guard `if len(feature_cols) > 1 else 0` evidently
      intends: n data rows then the test point, with 0 as the second
      coordinate when there is one feature. Row i carries the i-th distance
      of the SORTED list, not its own distance. */
  function IntendedChart(cols: seq<seq<real>>, y: seq<real>, sorted: seq<Entry>, ns: seq<Entry>, test: seq<Float>, simple: Float)
    : (chart: seq<ChartEntry>)
    requires |cols| > 0 && Rectangular(cols, |y|) && |sorted| == |y| && |test| == |cols|
    ensures |chart| == |y| + 1
    ensures ChartDescribes(chart, y, sorted, ns, simple)
    ensures forall i :: 0 <= i < |y| ==>
      chart[i].first == cols[0][i] && chart[i].second == (if |cols| > 1 then cols[1][i] else 0.0)
    ensures chart[|y|].testFirst == test[0] && chart[|y|].testSecond == (if |cols| > 1 then test[1] else Finite(0.0))
  {
    seq(|y|, i requires 0 <= i < |y| => ChartRow(cols, y, sorted, ns, i))
      + [TestEntry(-1, test[0], SecondOr(test, Finite(0.0)), simple, 0.0)]
  }

  /** The chart loop as written: the dictionary key `feature_cols[1]` is
      evaluated whatever the guard on its value says, so with one feature the
      first data row, or the test point when there is no row, raises
      IndexError. With two or more features the chart is the intended one. */
  method ChartData(cols: seq<seq<real>>, y: seq<real>, sorted: seq<Entry>, ns: seq<Entry>, test: seq<Float>, simple: Float)
    returns (r: Result<seq<ChartEntry>>)
    requires |cols| > 0 && Rectangular(cols, |y|) && |sorted| == |y| && |test| == |cols|
    ensures r.Err? <==> |cols| == 1
    ensures r.Err? ==> r.failure == Raised("IndexError")
    ensures r.Ok? ==> r.value == IntendedChart(cols, y, sorted, ns, test, simple)
  {
    var chart := [];
    var idx := Indices(ns);
    for i := 0 to |y|
      invariant |chart| == i
      invariant forall k :: 0 <= k < i ==> chart[k] == ChartRow(cols, y, sorted, ns, k)
    {
      if |cols| < 2 {
        return Err(Raised("IndexError"));
      }
      var p := PointOf(cols, i);
      chart := chart + [RowEntry(i, p[0], p[1], y[i], i in idx, sorted[i].distance)];
    }
    if |cols| < 2 {
      return Err(Raised("IndexError"));
    }
    chart := chart + [TestEntry(-1, test[0], test[1], simple, 0.0)];
    r := Ok(chart);
  }

  /** The rows flagged in the chart are exactly the neighbours' rows. */
  lemma ChartNeighbours(ns: seq<Entry>, i: int)
    ensures i in Indices(ns) <==> exists j :: 0 <= j < |ns| && ns[j].index == i
  {
    if i in Indices(ns) {
      var j :| 0 <= j < |ns| && Indices(ns)[j] == i;
    }
  }

  // ---------- steps and the run ----------

  /** The six steps of the response, each with its `step_number`. */
  datatype KnnStep =
    | DefineStep(number: nat, test: seq<Float>, features: seq<string>, target: string, k: int, size: nat)
    | DistanceStep(number: nat, firstTen: seq<Entry>, count: nat)
    | NeighbourStep(number: nat, neighbours: seq<Entry>, k: int)
    | SimpleStep(number: nat, values: seq<real>, simplePrediction: Float)
    | WeightedStep(number: nat, weights: seq<Weight>, weightedPrediction: real, totalWeight: real)
    | FinalStep(number: nat, simple: Float, weighted: real, recommended: Recommendation, nearest: nat)

  datatype KnnReport = KnnReport(
    features: seq<string>, target: string, test: seq<Float>,
    distances: seq<Entry>, neighbours: seq<Entry>, simple: Float, weighting: Weighting,
    chart: seq<ChartEntry>, steps: seq<KnnStep>)

  /** Step 2 reads `distances` after the in-place sort, so it lists the
      first ten entries of the sorted list and counts them all. */
  function StepsOf(r: KnnReport, k: int): (s: seq<KnnStep>)
    ensures |s| == 6 && forall i :: 0 <= i < 6 ==> s[i].number == i + 1
    ensures s[1].DistanceStep? && s[1].count == |r.distances|
    ensures |s[1].firstTen| == (if |r.distances| < 10 then |r.distances| else 10)
    ensures s[1].firstTen == SortByDistance(r.distances)[..|s[1].firstTen|]
  {
    [ DefineStep(1, r.test, r.features, r.target, k, |r.distances|),
      DistanceStep(2, PyPrefix(SortByDistance(r.distances), 10), |r.distances|),
      NeighbourStep(3, r.neighbours, k),
      SimpleStep(4, Targets(r.neighbours), r.simple),
      WeightedStep(5, r.weighting.weights, r.weighting.prediction, r.weighting.total),
      FinalStep(6, r.simple, r.weighting.prediction, Recommended(r.weighting.prediction, r.simple), |r.neighbours|) ]
  }

  /** The feature columns as numbers, when every cell of each is a number. */
  function FeatureColumns(rows: seq<Row>, features: seq<string>): Option<seq<seq<real>>>
  {
    CollectAll(c => RealColumn(rows, c), features)
  }

  lemma FeatureColumnsShape(rows: seq<Row>, features: seq<string>)
    requires FeatureColumns(rows, features).Some?
    ensures |FeatureColumns(rows, features).value| == |features|
    ensures Rectangular(FeatureColumns(rows, features).value, |rows|)
  {
    CollectAllAt(c => RealColumn(rows, c), features);
  }

  /** What a report says about target values y and parameter k: one entry
      per row in row order, the neighbours the first k of the stable sort by
      distance, the two predictions over them, the chart rows with the
      neighbour flags and the sorted distances, the test point last, and the
      six steps. */
  ghost predicate Describes(r: KnnReport, y: seq<real>, k: int)
  {
    && RowsInOrder(r.distances, y)
    && r.neighbours == PyPrefix(SortByDistance(r.distances), k)
    && r.simple == SimplePrediction(r.neighbours)
    && r.weighting == WeightingOf(r.neighbours)
    && ChartDescribes(r.chart, y, SortByDistance(r.distances), r.neighbours, r.simple)
    && r.steps == StepsOf(r, k)
  }

  /** One entry per row, in row order, carrying the row's index and target. */
  ghost predicate RowsInOrder(ds: seq<Entry>, y: seq<real>)
  {
    |ds| == |y| && forall i :: 0 <= i < |y| ==> ds[i].index == i && ds[i].target == y[i]
  }

  /** n data rows then the test point (index −1, the plain mean as target);
      row i flagged exactly when it is a neighbour's row, and carrying the
      i-th sorted distance. */
  ghost predicate ChartDescribes(chart: seq<ChartEntry>, y: seq<real>, sorted: seq<Entry>, ns: seq<Entry>, simple: Float)
    requires |sorted| == |y|
  {
    && |chart| == |y| + 1
    && chart[|y|].TestEntry? && chart[|y|].index == -1 && chart[|y|].prediction == simple
    && (forall i :: 0 <= i < |y| ==>
          && chart[i].RowEntry? && chart[i].index == i && chart[i].target == y[i]
          && (chart[i].isNeighbour <==> i in Indices(ns))
          && chart[i].distance == sorted[i].distance)
  }

  /** Step 2 of a report lists the nearest entries: none it leaves out is
      nearer than one it lists. */
  lemma DistanceStepNearest(r: KnnReport, y: seq<real>, k: int)
    requires Describes(r, y, k)
    ensures r.steps[1].DistanceStep? && |r.steps[1].firstTen| == (if |y| < 10 then |y| else 10)
    ensures forall i, j :: 0 <= i < |r.steps[1].firstTen| <= j < |y| ==>
      r.steps[1].firstTen[i].distance <= SortByDistance(r.distances)[j].distance
  {
    NeighboursNearest(r.distances, 10);
  }

  /** The test vector and the distances of a report on columns `cols` and
      targets `y`: a feature the test point lacks is filled with its column
      mean, the vector is finite when there are rows, and entry i of the
      distances is row i's, measured to that vector. */
  ghost predicate Measured(r: KnnReport, cols: seq<seq<real>>, y: seq<real>, testPoint: map<string, real>, sqrt: real -> real)
  {
    && |r.test| == |r.features| == |cols|
    && Rectangular(cols, |y|)
    && (forall j :: 0 <= j < |r.features| && r.features[j] !in testPoint ==> r.test[j] == ColumnMean(cols[j]))
    && (|y| > 0 ==> forall j :: 0 <= j < |r.test| ==> r.test[j].Finite?)
    && (|y| > 0 ==> |r.distances| == |y|)
    && (|y| > 0 ==> forall i :: 0 <= i < |y| ==> r.distances[i] == EntryAt(sqrt, cols, y, Coordinates(r.test), i))
  }

  /** Everything after the columns are read: test vector, distances, sort,
      neighbours, predictions, chart and steps. With a single feature the
      chart raises IndexError and there is no report. */
  method Analyse(features: seq<string>, target: string, cols: seq<seq<real>>, y: seq<real>,
                 k: int, testPoint: map<string, real>, sqrt: real -> real)
    returns (r: Result<KnnReport>)
    requires |cols| == |features| > 0 && Rectangular(cols, |y|)
    ensures r.Err? <==> |features| == 1
    ensures r.Err? ==> r.failure == Raised("IndexError")
    ensures r.Ok? ==> Describes(r.value, y, k)
    ensures r.Ok? ==> r.value.features == features && r.value.target == target && |r.value.test| == |features|
    ensures r.Ok? ==> forall j :: 0 <= j < |features| && features[j] in testPoint ==> r.value.test[j] == Finite(testPoint[features[j]])
    ensures r.Ok? ==> forall j :: 0 <= j < |features| && features[j] !in testPoint ==> r.value.test[j] == ColumnMean(cols[j])
    ensures r.Ok? && |y| > 0 ==> forall j :: 0 <= j < |r.value.test| ==> r.value.test[j].Finite?
    ensures r.Ok? && |y| > 0 ==> forall i :: 0 <= i < |y| ==> r.value.distances[i] == EntryAt(sqrt, cols, y, Coordinates(r.value.test), i)
    ensures r.Ok? ==> Measured(r.value, cols, y, testPoint, sqrt)
  {
    var test := TestVector(testPoint, features, cols);
    var ds := [];
    if |y| > 0 {
      forall j | 0 <= j < |test| ensures test[j].Finite? {
        assert |cols[j]| > 0;
      }
      ds := Distances(sqrt, cols, y, Coordinates(test));
    }
    var sorted := SortByDistance(ds);
    var ns := PyPrefix(sorted, k);
    var simple := SimplePrediction(ns);
    var weighting := WeightingLoop(ns);
    var chart := ChartData(cols, y, sorted, ns, test, simple);
    if chart.Err? {
      return Err(chart.failure);
    }
    var report := KnnReport(features, target, test, ds, ns, simple, weighting, chart.value, []);
    r := Ok(report.(steps := StepsOf(report, k)));
  }

  /** `run_knn_regression`, with `k` and the test point as parsed
      parameters and `sqrt` for `np.sqrt`. */
  method RunKnnRegression(t: Table, features: Option<seq<string>>, target: Option<string>,
                          k: int, testPoint: map<string, real>, sqrt: real -> real)
    returns (r: Result<KnnReport>)
    ensures ColumnsAsWritten(t, features, target).Err? ==> r == Err(HttpError(400))
    ensures r.Ok? ==> ColumnsAsWritten(t, features, target) == Ok((r.value.features, r.value.target))
    ensures r.Ok? ==> FeatureColumns(t.rows, r.value.features).Some? && RealColumn(t.rows, r.value.target).Some?
    ensures r.Ok? ==> |r.value.features| >= 2 && Describes(r.value, RealColumn(t.rows, r.value.target).value, k)
    ensures r.Ok? ==> |r.value.test| == |r.value.features|
    ensures r.Ok? ==> forall j :: 0 <= j < |r.value.features| && r.value.features[j] in testPoint ==>
      r.value.test[j] == Finite(testPoint[r.value.features[j]])
    ensures r.Ok? ==> Measured(r.value, FeatureColumns(t.rows, r.value.features).value,
                               RealColumn(t.rows, r.value.target).value, testPoint, sqrt)
    ensures r.Err? && ColumnsAsWritten(t, features, target).Ok? ==>
      r.failure.NonNumericCells? || r.failure == Raised("IndexError")
    ensures r.Err? && r.failure == Raised("IndexError") ==>
      ColumnsAsWritten(t, features, target).Ok? && |ColumnsAsWritten(t, features, target).value.0| == 1
    ensures ColumnsAsWritten(t, features, target).Ok? ==>
      var (fs, g) := ColumnsAsWritten(t, features, target).value;
      (FeatureColumns(t.rows, fs).Some? && RealColumn(t.rows, g).Some? ==> (r.Ok? <==> |fs| >= 2))
  {
    var chosen := ChooseColumns(t, features, target);
    if chosen.Err? {
      return Err(chosen.failure);
    }
    var (feats, g) := chosen.value;
    var colsOpt := FeatureColumns(t.rows, feats);
    if colsOpt.None? {
      return Err(NonNumericCells(feats[FirstNone(c => RealColumn(t.rows, c), feats)]));
    }
    var ys := RealColumn(t.rows, g);
    if ys.None? {
      return Err(NonNumericCells(g));
    }
    FeatureColumnsShape(t.rows, feats);
    r := Analyse(feats, g, colsOpt.value, ys.value, k, testPoint, sqrt);
  }
}
