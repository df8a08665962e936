/** backend/knn_classification.py: k-nearest-neighbour classification with a
    step-by-step report. The model covers the parts the engine computes itself:
    target and feature detection, the label encoding of categorical feature
    columns, the test vector, the numbered neighbour details, the vote tally and
    its per-class breakdown, and the probability table. The split, the scaler
    and the neighbour search of the library are parameters: `LibraryFit` for the
    fit, and `solve` for the query on one test vector. */
module KnnClassification {
  import opened Common
  import opened Detection
  import opened Strings

  /** The names tried, in order, when no target is given. */
  const TargetNames: seq<string> := ["class", "label", "target", "category", "species", "type", "outcome"]

  /** The default of `k`. */
  const DefaultK := 5

  // ---------- columns ----------

  /** The target column: the given one, else the first priority name that is
      a column, else the last column (an empty header raises IndexError). */
  function DetectTarget(columns: seq<string>, target: Option<string>): (r: Result<string>)
    ensures Given(target) ==> r == Ok(target.value)
    ensures !Given(target) ==> (r.Err? <==> |columns| == 0)
    ensures r.Err? ==> r.failure == Raised("IndexError")
    ensures !Given(target) && r.Ok? ==> r.value in columns
    ensures !Given(target) && r.Ok? && (forall n :: n in TargetNames ==> n !in columns) ==>
      r.value == columns[|columns| - 1]
  {
    if Given(target) then Ok(target.value)
    else match FirstPresent(TargetNames, columns)
      case Some(name) => Ok(name)
      case None => if |columns| == 0 then Err(Raised("IndexError")) else Ok(columns[|columns| - 1])
  }

  /** The earliest priority name present among the columns wins. */
  lemma DetectsFirstPriorityName(columns: seq<string>, i: nat)
    requires i < |TargetNames| && TargetNames[i] in columns
    requires forall j :: 0 <= j < i ==> TargetNames[j] !in columns
    ensures DetectTarget(columns, None) == Ok(TargetNames[i])
  {
    FirstPresentIsFirst(TargetNames, columns, i);
  }

  /** The target and the features the engine uses: features default to every
      other column; an unknown target is a 400 and an unknown feature a
      KeyError (`df[feature_cols]`). */
  function ChosenColumns(t: Table, target: Option<string>, features: Option<seq<string>>): (r: Result<(string, seq<string>)>)
    ensures r.Ok? ==> r.value.0 in t.columns && forall f :: f in r.value.1 ==> f in t.columns
    ensures r.Ok? && !GivenList(features) ==>
      forall c :: c in r.value.1 <==> c in t.columns && c != r.value.0
    ensures r.Ok? && GivenList(features) ==> r.value.1 == features.value
    ensures Given(target) && target.value !in t.columns ==> r == Err(HttpError(400))
    ensures r.Err? ==> r.failure in {Raised("IndexError"), HttpError(400), Raised("KeyError")}
  {
    match DetectTarget(t.columns, target)
    case Err(e) => Err(e)
    case Ok(g) =>
      var feats := if GivenList(features) then features.value else Without(t.columns, g);
      if g !in t.columns then Err(HttpError(400))
      else if exists f :: f in feats && f !in t.columns then Err(Raised("KeyError"))
      else Ok((g, feats))
  }

  /** The target detection: the for/break search of the priority names,
      then the last column. */
  method FindTarget(columns: seq<string>, target: Option<string>) returns (r: Result<string>)
    ensures r == DetectTarget(columns, target)
  {
    if Given(target) {
      return Ok(target.value);
    }
    var g := SearchFirstPresent(TargetNames, columns);
    if g.Some? {
      r := Ok(g.value);
    } else if |columns| == 0 {
      r := Err(Raised("IndexError"));
    } else {
      r := Ok(columns[|columns| - 1]);
    }
  }

  /** The same choice, searched for as the source does. */
  method ChooseColumns(t: Table, target: Option<string>, features: Option<seq<string>>)
    returns (r: Result<(string, seq<string>)>)
    ensures r == ChosenColumns(t, target, features)
  {
    var g := FindTarget(t.columns, target);
    if g.Err? {
      return Err(g.failure);
    }
    var feats := if GivenList(features) then features.value else Without(t.columns, g.value);
    if g.value !in t.columns {
      return Err(HttpError(400));
    }
    if exists f :: f in feats && f !in t.columns {
      return Err(Raised("KeyError"));
    }
    r := Ok((g.value, feats));
  }

  // ---------- label encoding of categorical features ----------

  /** Feature columns by name, cells in row order. */
  type Frame = map<string, seq<Value>>

  /** `df[feature_cols]` after the missing-value fill; `fill` stands for
      pandas' per-column replacement of missing cells. */
  function FeatureFrame(rows: seq<Row>, features: seq<string>, fill: (string, seq<Value>) -> seq<Value>): (x: Frame)
    ensures x.Keys == set f | f in features
  {
    map f | f in features :: fill(f, Column(rows, f))
  }

  /** pandas gives a column the object dtype when some cell is a string. */
  predicate IsCategorical(cells: seq<Value>)
  {
    exists i :: 0 <= i < |cells| && cells[i].Str?
  }

  /** `X.select_dtypes(include=['object']).columns`, in feature order. */
  function Categorical(x: Frame, features: seq<string>): (r: seq<string>)
    ensures forall c :: c in r <==> c in features && c in x && IsCategorical(x[c])
  {
    Filter(features, f => f in x && IsCategorical(x[f]))
  }

  /** `str(value)`: strings are kept, other cells go through `show`. */
  function Text(show: Value -> string, v: Value): string
  {
    if v.Str? then v.s else show(v)
  }

  /** `column.astype(str)`. */
  function Texts(show: Value -> string, cells: seq<Value>): (r: seq<string>)
    ensures |r| == |cells| && forall i :: 0 <= i < |cells| ==> r[i] == Text(show, cells[i])
  {
    seq(|cells|, i requires 0 <= i < |cells| => Text(show, cells[i]))
  }

  /** The first position of `x` in `s`. */
  function IndexOf(s: seq<string>, x: string): (i: nat)
    requires x in s
    ensures i < |s| && s[i] == x && forall j :: 0 <= j < i ==> s[j] != x
  {
    if s[0] == x then 0 else 1 + IndexOf(s[1..], x)
  }

  /** `LabelEncoder.classes_` after fitting a column: its sorted distinct texts. */
  function Classes(show: Value -> string, cells: seq<Value>): seq<string>
  {
    Unique(Texts(show, cells))
  }

  /** `LabelEncoder.fit_transform`: each cell replaced by the position of its
      text among the classes. */
  function Encoded(show: Value -> string, cells: seq<Value>): (r: seq<Value>)
    ensures |r| == |cells|
  {
    var texts := Texts(show, cells);
    var classes := Unique(texts);
    UniqueProps(texts);
    seq(|cells|, i requires 0 <= i < |cells| => Num(IndexOf(classes, texts[i]) as real))
  }

  /** `LabelEncoder.inverse_transform` of one code. */
  function Decode(classes: seq<string>, v: Value): Option<string>
  {
    if v.Num? && v.r == v.r.Floor as real && 0 <= v.r.Floor < |classes| then Some(classes[v.r.Floor]) else None
  }

  /** Decoding an encoded cell gives back the cell's text, and the classes are
      sorted and listed once. */
  lemma EncodingRoundTrip(show: Value -> string, cells: seq<Value>, i: nat)
    requires i < |cells|
    ensures Decode(Classes(show, cells), Encoded(show, cells)[i]) == Some(Text(show, cells[i]))
    ensures SortedAsc(Classes(show, cells)) && NoDuplicates(Classes(show, cells))
  {
    var texts := Texts(show, cells);
    UniqueProps(texts);
    assert texts[i] in texts;
    var n := IndexOf(Unique(texts), texts[i]);
    assert Encoded(show, cells)[i] == Num(n as real);
    assert (n as real).Floor == n;
  }

  /** The encoding loop: every categorical column is replaced by its codes and
      its encoder kept; the other columns are untouched. */
  method EncodeFeatures(x: Frame, categorical: seq<string>, show: Value -> string)
    returns (encoded: Frame, encoders: map<string, seq<string>>)
    requires forall c :: c in categorical ==> c in x
    ensures encoded.Keys == x.Keys && forall c :: c in encoders <==> c in categorical
    ensures forall c :: c in categorical ==> encoders[c] == Classes(show, x[c]) && encoded[c] == Encoded(show, x[c])
    ensures forall c :: c in x && c !in categorical ==> encoded[c] == x[c]
  {
    encoded, encoders := x, map[];
    for i := 0 to |categorical|
      invariant encoded.Keys == x.Keys && forall c :: c in encoders <==> c in categorical[..i]
      invariant forall c :: c in categorical[..i] ==> encoders[c] == Classes(show, x[c]) && encoded[c] == Encoded(show, x[c])
      invariant forall c :: c in x && c !in categorical[..i] ==> encoded[c] == x[c]
    {
      var col := categorical[i];
      encoders := encoders[col := Classes(show, x[col])];
      encoded := encoded[col := Encoded(show, x[col])];
      PrefixSnoc(categorical, i);
    }
    assert categorical[..|categorical|] == categorical;
  }

  // ---------- the test vector ----------

  /** What the test vector is built from: the example, the encoders, the
      column means of the encoded frame, `str` and `float` of a string. */
  datatype VectorInputs = VectorInputs(
    example: map<string, Value>, encoders: map<string, seq<string>>,
    mean: string -> real, show: Value -> string, parse: string -> Option<real>)

  /** The encoder's code of a text, 0 for a text the encoder has not seen. */
  function CodeOrZero(classes: seq<string>, s: string): (n: nat)
    ensures s in classes ==> n < |classes| && classes[n] == s
    ensures s !in classes ==> n == 0
  {
    if s in classes then IndexOf(classes, s) else 0
  }

  /** `float(value)` of an example value outside the encoded columns. */
  function AsFloat(parse: string -> Option<real>, v: Value): (r: Result<real>)
    ensures v.Num? ==> r == Ok(v.r)
    ensures v.Null? ==> r == Err(Raised("TypeError"))
  {
    match v
    case Num(x) => Ok(x)
    case Str(s) => if parse(s).Some? then Ok(parse(s).value) else Err(Raised("ValueError"))
    case Null => Err(Raised("TypeError"))
  }

  /** One coordinate: the example's value, encoded when the column is
      categorical (unseen values encode as 0), else the column mean. */
  function Coordinate(c: VectorInputs, col: string): (r: Result<real>)
    ensures col !in c.example ==> r == Ok(c.mean(col))
    ensures col in c.example && col in c.encoders ==>
      r.Ok? && r == Ok(CodeOrZero(c.encoders[col], Text(c.show, c.example[col])) as real)
    ensures col in c.example && col !in c.encoders ==> r == AsFloat(c.parse, c.example[col])
  {
    if col !in c.example then Ok(c.mean(col))
    else if col in c.encoders then Ok(CodeOrZero(c.encoders[col], Text(c.show, c.example[col])) as real)
    else AsFloat(c.parse, c.example[col])
  }

  /** The coordinates in feature order, the first failing one raising. */
  function TestVector(c: VectorInputs, features: seq<string>): (r: Result<seq<real>>)
  {
    if |features| == 0 then Ok([])
    else match TestVector(c, features[..|features| - 1])
      case Err(e) => Err(e)
      case Ok(v) =>
        match Coordinate(c, features[|features| - 1])
        case Err(e) => Err(e)
        case Ok(x) => Ok(v + [x])
  }

  /** The vector exists exactly when every coordinate does, has one entry per
      feature and holds each feature's coordinate at its position. */
  lemma {:induction false} TestVectorAt(c: VectorInputs, features: seq<string>)
    ensures TestVector(c, features).Ok? <==> forall i :: 0 <= i < |features| ==> Coordinate(c, features[i]).Ok?
    ensures TestVector(c, features).Ok? ==> |TestVector(c, features).value| == |features|
    ensures TestVector(c, features).Ok? ==>
      forall i :: 0 <= i < |features| ==> Coordinate(c, features[i]) == Ok(TestVector(c, features).value[i])
  {
    if |features| > 0 {
      var init := features[..|features| - 1];
      TestVectorAt(c, init);
      assert forall i :: 0 <= i < |init| ==> init[i] == features[i];
    }
  }

  /** A failure on a prefix of the features is the failure of the whole vector. */
  lemma {:induction false} TestVectorErrSticks(c: VectorInputs, features: seq<string>, n: nat)
    requires n <= |features| && TestVector(c, features[..n]).Err?
    ensures TestVector(c, features) == TestVector(c, features[..n])
  {
    if n < |features| {
      var init := features[..|features| - 1];
      assert init[..n] == features[..n];
      TestVectorErrSticks(c, init, n);
    } else {
      assert features[..n] == features;
    }
  }

  /** The loop appending `test_features`. */
  method BuildTestVector(c: VectorInputs, features: seq<string>) returns (r: Result<seq<real>>)
    ensures r == TestVector(c, features)
  {
    var v: seq<real> := [];
    for i := 0 to |features|
      invariant TestVector(c, features[..i]) == Ok(v)
    {
      assert features[..i + 1][..i] == features[..i];
      var x := Coordinate(c, features[i]);
      if x.Err? {
        TestVectorErrSticks(c, features, i + 1);
        return Err(x.failure);
      }
      v := v + [x.value];
    }
    assert features[..|features|] == features;
    r := Ok(v);
  }

  /** `{col: float(val) for col, val in zip(feature_cols, test_features)}`:
      later duplicates overwrite earlier ones. */
  function ZipMap(ks: seq<string>, vs: seq<real>): (m: map<string, Value>)
    ensures forall k :: k in m <==> exists i :: 0 <= i < |ks| && i < |vs| && ks[i] == k
  {
    if |ks| == 0 || |vs| == 0 then map[]
    else
      var n := if |ks| < |vs| then |ks| else |vs|;
      var m := ZipMap(ks[..n - 1], vs[..n - 1]);
      assert forall i :: 0 <= i < n - 1 ==> ks[..n - 1][i] == ks[i];
      m[ks[n - 1] := Num(vs[n - 1])]
  }

  /** With distinct feature names every feature gets its own value. */
  lemma {:induction false} ZipMapAt(ks: seq<string>, vs: seq<real>, i: nat)
    requires NoDuplicates(ks) && i < |ks| && i < |vs|
    ensures ZipMap(ks, vs)[ks[i]] == Num(vs[i])
  {
    var n := if |ks| < |vs| then |ks| else |vs|;
    var ks', vs' := ks[..n - 1], vs[..n - 1];
    assert ZipMap(ks, vs) == ZipMap(ks', vs')[ks[n - 1] := Num(vs[n - 1])];
    if i < n - 1 {
      assert NoDuplicates(ks') && ks'[i] == ks[i] && vs'[i] == vs[i];
      ZipMapAt(ks', vs', i);
      assert ks[n - 1] != ks[i];
    }
  }

  // ---------- neighbours and votes ----------

  /** What the library reports for one test vector: its scaled form, the
      neighbour distances and indices in solver order, the neighbours'
      class names, the predicted class and the class probabilities. */
  datatype Query = Query(
    scaled: seq<real>, distances: seq<real>, indices: seq<int>,
    neighbourClasses: seq<string>, predicted: string, proba: seq<real>)

  datatype Neighbour = Neighbour(number: nat, distance: real, name: string, index: int)

  function Min(a: nat, b: nat): nat { if a < b then a else b }

  /** The neighbour-details loop over `zip(distances, classes)`, looking the
      index up by position. */
  method NeighbourDetails(distances: seq<real>, names: seq<string>, indices: seq<int>)
    returns (r: Result<seq<Neighbour>>)
    ensures r.Err? <==> |indices| < Min(|distances|, |names|)
    ensures r.Err? ==> r.failure == Raised("IndexError")
    ensures r.Ok? ==> |r.value| == Min(|distances|, |names|)
    ensures r.Ok? ==> forall i :: 0 <= i < |r.value| ==>
      r.value[i] == Neighbour(i + 1, distances[i], names[i], indices[i])
  {
    var details: seq<Neighbour> := [];
    var n := Min(|distances|, |names|);
    for i := 0 to n
      invariant |details| == i && i <= |indices|
      invariant forall j :: 0 <= j < i ==> details[j] == Neighbour(j + 1, distances[j], names[j], indices[j])
    {
      if i >= |indices| {
        return Err(Raised("IndexError"));
      }
      details := details + [Neighbour(i + 1, distances[i], names[i], indices[i])];
    }
    r := Ok(details);
  }

  /** `vote_counts`: each distinct neighbour class with its number of votes. */
  function VoteCounts(names: seq<string>): (votes: map<string, nat>)
    ensures forall c :: c in votes <==> c in names
    ensures forall c :: c in votes ==> votes[c] == Count(names, c) && votes[c] > 0
  {
    UniqueProps(names);
    forall c | c in names ensures Count(names, c) > 0 {
      CountBounds(names, c);
    }
    map c | c in Unique(names) :: Count(names, c)
  }

  /** `vote_counts.get(cls, 0)`. */
  function VotesFor(votes: map<string, nat>, c: string): nat
  {
    if c in votes then votes[c] else 0
  }

  /** The looked-up votes of any class are its number of neighbours, 0 for a
      class no neighbour has. */
  lemma VotesForIsCount(names: seq<string>, c: string)
    ensures VotesFor(VoteCounts(names), c) == Count(names, c)
  {
    CountBounds(names, c);
  }

  /** Σ of the votes looked up for each class of `cs`. */
  function VoteTotal(votes: map<string, nat>, cs: seq<string>): nat
  {
    if |cs| == 0 then 0 else VoteTotal(votes, cs[..|cs| - 1]) + VotesFor(votes, cs[|cs| - 1])
  }

  lemma {:induction false} VoteTotalIsCountsOver(names: seq<string>, cs: seq<string>)
    ensures VoteTotal(VoteCounts(names), cs) == CountsOver(cs, names)
  {
    if |cs| > 0 {
      VoteTotalIsCountsOver(names, cs[..|cs| - 1]);
      VotesForIsCount(names, cs[|cs| - 1]);
    }
  }

  /** The vote counts add up to the number of neighbours: k when the search
      returned k of them. */
  lemma VotesAddUp(names: seq<string>, k: int)
    requires |names| == k
    ensures VoteTotal(VoteCounts(names), Unique(names)) == k
  {
    UniqueProps(names);
    VoteTotalIsCountsOver(names, Unique(names));
    CountsOverCover(Unique(names), names);
  }

  /** One `vote_breakdown` entry. */
  datatype VoteShare = VoteShare(name: string, votes: nat, percentage: real)

  /** votes / k · 100. */
  function Percentage(votes: nat, k: int): real
    requires k != 0
  {
    (votes as real / k as real) * 100.0
  }

  lemma PercentageAdd(a: nat, b: nat, k: int)
    requires k != 0
    ensures Percentage(a, k) + Percentage(b, k) == Percentage(a + b, k)
  {
    DivAdd(a as real, b as real, k as real);
  }

  /** `vote_breakdown`: one entry per class name, in class order. */
  function Breakdown(classNames: seq<string>, votes: map<string, nat>, k: int): (b: seq<VoteShare>)
    requires k != 0 || |classNames| == 0
    ensures |b| == |classNames|
  {
    if |classNames| == 0 then []
    else
      var c := classNames[|classNames| - 1];
      Breakdown(classNames[..|classNames| - 1], votes, k) + [VoteShare(c, VotesFor(votes, c), Percentage(VotesFor(votes, c), k))]
  }

  /** Entry i is class i with its looked-up votes and their share of k. */
  lemma {:induction false} BreakdownAt(classNames: seq<string>, votes: map<string, nat>, k: int, i: nat)
    requires k != 0 && i < |classNames|
    ensures Breakdown(classNames, votes, k)[i]
      == VoteShare(classNames[i], VotesFor(votes, classNames[i]), Percentage(VotesFor(votes, classNames[i]), k))
  {
    if i < |classNames| - 1 {
      BreakdownAt(classNames[..|classNames| - 1], votes, k, i);
    }
  }

  function VotesOf(b: seq<VoteShare>): nat
  {
    if |b| == 0 then 0 else VotesOf(b[..|b| - 1]) + b[|b| - 1].votes
  }

  function PercentagesOf(b: seq<VoteShare>): real
  {
    if |b| == 0 then 0.0 else PercentagesOf(b[..|b| - 1]) + b[|b| - 1].percentage
  }

  lemma {:induction false} BreakdownTotals(classNames: seq<string>, votes: map<string, nat>, k: int)
    requires k != 0
    ensures VotesOf(Breakdown(classNames, votes, k)) == VoteTotal(votes, classNames)
    ensures PercentagesOf(Breakdown(classNames, votes, k)) == Percentage(VoteTotal(votes, classNames), k)
  {
    if |classNames| > 0 {
      var init := classNames[..|classNames| - 1];
      var b := Breakdown(classNames, votes, k);
      BreakdownTotals(init, votes, k);
      assert b[..|b| - 1] == Breakdown(init, votes, k);
      PercentageAdd(VoteTotal(votes, init), VotesFor(votes, classNames[|classNames| - 1]), k);
    }
    else {
      assert (0 as real / k as real) == 0.0;
    }
  }

  /** When every neighbour's class is one of the (distinct) class names, the
      breakdown's votes add up to the number of neighbours, and to 100 % when
      that number is k. */
  lemma BreakdownAddsUp(classNames: seq<string>, names: seq<string>, k: int)
    requires k != 0 && NoDuplicates(classNames)
    requires forall c :: c in names ==> c in classNames
    ensures VotesOf(Breakdown(classNames, VoteCounts(names), k)) == |names|
    ensures |names| == k ==> PercentagesOf(Breakdown(classNames, VoteCounts(names), k)) == 100.0
  {
    BreakdownTotals(classNames, VoteCounts(names), k);
    VoteTotalIsCountsOver(names, classNames);
    CountsOverCover(classNames, names);
    if |names| == k {
      DivSelf(k as real);
    }
  }

  /** `class_probabilities`: class name i mapped to probability i; later
      duplicates overwrite earlier ones. */
  function ProbabilityMap(classNames: seq<string>, proba: seq<real>): (m: map<string, real>)
    requires |proba| >= |classNames|
    ensures forall c :: c in m <==> c in classNames
  {
    if |classNames| == 0 then map[]
    else ProbabilityMap(classNames[..|classNames| - 1], proba)[classNames[|classNames| - 1] := proba[|classNames| - 1]]
  }

  lemma {:induction false} ProbabilityMapAt(classNames: seq<string>, proba: seq<real>, i: nat)
    requires |proba| >= |classNames| && NoDuplicates(classNames) && i < |classNames|
    ensures ProbabilityMap(classNames, proba)[classNames[i]] == proba[i]
  {
    if i < |classNames| - 1 {
      assert NoDuplicates(classNames[..|classNames| - 1]);
      ProbabilityMapAt(classNames[..|classNames| - 1], proba, i);
    }
  }

  /** The loop filling `class_probabilities`; a probability list shorter
      than the class list raises IndexError. */
  method ClassProbabilities(classNames: seq<string>, proba: seq<real>) returns (r: Result<map<string, real>>)
    ensures |proba| < |classNames| <==> r.Err?
    ensures r.Err? ==> r.failure == Raised("IndexError")
    ensures r.Ok? ==> r.value == ProbabilityMap(classNames, proba)
  {
    var m: map<string, real> := map[];
    for i := 0 to |classNames|
      invariant i <= |proba| && m == ProbabilityMap(classNames[..i], proba)
    {
      if i >= |proba| {
        return Err(Raised("IndexError"));
      }
      assert classNames[..i + 1][..i] == classNames[..i];
      m := m[classNames[i] := proba[i]];
    }
    assert classNames[..|classNames|] == classNames;
    r := Ok(m);
  }

  /** `max(prediction_proba)`. */
  function Max(s: seq<real>): (m: real)
    requires |s| > 0
    ensures m in s && forall i :: 0 <= i < |s| ==> s[i] <= m
  {
    if |s| == 1 then s[0]
    else
      var rest := Max(s[..|s| - 1]);
      if s[|s| - 1] > rest then s[|s| - 1] else rest
  }

  // ---------- the report ----------

  /** What the library's fit reports: the class names, the test accuracy, the
      split sizes and the first unscaled test row. */
  datatype LibraryFit = LibraryFit(classNames: seq<string>, accuracy: real, trainSize: nat, testSize: nat, firstTest: seq<real>)

  datatype KnncStep =
    | OverviewStep(number: nat, k: int, features: seq<string>, classNames: seq<string>, size: nat, trainSize: nat, testSize: nat)
    | PreprocessStep(number: nat, features: seq<string>, target: string, encodedCount: nat)
    | TestStep(number: nat, example: map<string, Value>, scaled: seq<real>)
    | NeighboursStep(number: nat, k: int, neighbours: seq<Neighbour>)
    | VoteStep(number: nat, votes: map<string, nat>, totalVotes: int, majority: string, breakdown: seq<VoteShare>)
    | PredictionStep(number: nat, predicted: string, confidence: real, probabilities: map<string, real>,
                     accuracy: real, majorityVotes: nat)

  datatype KnncReport = KnncReport(
    target: string, features: seq<string>, k: int, encoders: map<string, seq<string>>, categorical: seq<string>,
    vector: seq<real>, example: map<string, Value>, query: Query,
    neighbours: seq<Neighbour>, votes: map<string, nat>, breakdown: seq<VoteShare>,
    probabilities: map<string, real>, confidence: real, steps: seq<KnncStep>)

  function StepsOf(r: KnncReport, fit: LibraryFit, size: nat): (s: seq<KnncStep>)
    ensures |s| == 6 && forall i :: 0 <= i < 6 ==> s[i].number == i + 1
  {
    [ OverviewStep(1, r.k, r.features, fit.classNames, size, fit.trainSize, fit.testSize),
      PreprocessStep(2, r.features, r.target, |r.categorical|),
      TestStep(3, r.example, r.query.scaled),
      NeighboursStep(4, r.k, r.neighbours),
      VoteStep(5, r.votes, r.k, r.query.predicted, r.breakdown),
      PredictionStep(6, r.query.predicted, r.confidence, r.probabilities, fit.accuracy, VotesFor(r.votes, r.query.predicted)) ]
  }

  /** What a report states about the library's answer for its vector. */
  ghost predicate Tallies(r: KnncReport, fit: LibraryFit)
  {
    && |r.neighbours| == Min(|r.query.distances|, |r.query.neighbourClasses|) <= |r.query.indices|
    && (forall i :: 0 <= i < |r.neighbours| ==>
          r.neighbours[i] == Neighbour(i + 1, r.query.distances[i], r.query.neighbourClasses[i], r.query.indices[i]))
    && r.votes == VoteCounts(r.query.neighbourClasses)
    && (r.k != 0 || |fit.classNames| == 0)
    && r.breakdown == Breakdown(fit.classNames, r.votes, r.k)
    && |r.query.proba| >= |fit.classNames|
    && r.probabilities == ProbabilityMap(fit.classNames, r.query.proba)
    && |r.query.proba| > 0 && r.confidence == Max(r.query.proba)
  }

  /** The first failure of the tally, in the order the source meets them:
      too few neighbour indices, too few class probabilities (IndexError), a
      percentage over k = 0 (ZeroDivisionError), `max` of no probabilities
      (ValueError). The source's library rejects k = 0 when it fits, so that
      case arises here only because `fit` and `solve` are unconstrained inputs. */
  function TallyFailure(k: int, query: Query, classNames: seq<string>): Option<Failure>
  {
    if |query.indices| < Min(|query.distances|, |query.neighbourClasses|) then Some(Raised("IndexError"))
    else if |query.proba| < |classNames| then Some(Raised("IndexError"))
    else if k == 0 && |classNames| > 0 then Some(Raised("ZeroDivisionError"))
    else if |query.proba| == 0 then Some(Raised("ValueError"))
    else None
  }

  /** Everything after the test vector: neighbour details, votes, breakdown,
      probabilities and confidence, in the order the source evaluates them. */
  method Tally(target: string, features: seq<string>, k: int, encoders: map<string, seq<string>>,
               categorical: seq<string>, vector: seq<real>, example: map<string, Value>, query: Query,
               fit: LibraryFit, size: nat)
    returns (r: Result<KnncReport>)
    ensures r.Ok? ==> Tallies(r.value, fit)
    ensures r.Ok? ==> (r.value.target == target && r.value.features == features && r.value.k == k
      && r.value.encoders == encoders && r.value.categorical == categorical
      && r.value.vector == vector && r.value.example == example && r.value.query == query
      && r.value.steps == StepsOf(r.value, fit, size))
    ensures r.Err? <==>
      |query.indices| < Min(|query.distances|, |query.neighbourClasses|)
      || |query.proba| < |fit.classNames|
      || (k == 0 && |fit.classNames| > 0)
      || |query.proba| == 0
    ensures r.Ok? <==> TallyFailure(k, query, fit.classNames).None?
    ensures r.Err? ==> TallyFailure(k, query, fit.classNames) == Some(r.failure)
  {
    var neighbours := NeighbourDetails(query.distances, query.neighbourClasses, query.indices);
    if neighbours.Err? {
      return Err(neighbours.failure);
    }
    var votes := VoteCounts(query.neighbourClasses);
    var probabilities := ClassProbabilities(fit.classNames, query.proba);
    if probabilities.Err? {
      return Err(probabilities.failure);
    }
    if k == 0 && |fit.classNames| > 0 {
      return Err(Raised("ZeroDivisionError"));
    }
    var breakdown := Breakdown(fit.classNames, votes, k);
    if |query.proba| == 0 {
      return Err(Raised("ValueError"));
    }
    var report := KnncReport(target, features, k, encoders, categorical, vector, example, query,
                             neighbours.value, votes, breakdown, probabilities.value, Max(query.proba), []);
    r := Ok(report.(steps := StepsOf(report, fit, size)));
  }

  /** The encoders a report lists are those of the categorical columns of
      the filled feature frame. */
  ghost predicate Encodes(r: KnncReport, t: Table, fill: (string, seq<Value>) -> seq<Value>, show: Value -> string)
  {
    var x := FeatureFrame(t.rows, r.features, fill);
    && r.categorical == Categorical(x, r.features)
    && (forall c :: c in r.encoders <==> c in r.categorical)
    && forall c :: c in r.categorical ==> r.encoders[c] == Classes(show, x[c])
  }

  /** One encoder per listed column of the frame. */
  function ClassesOf(x: Frame, cs: seq<string>, show: Value -> string): map<string, seq<string>>
    requires forall c :: c in cs ==> c in x
  {
    map c | c in cs :: Classes(show, x[c])
  }

  /** The encoders of the categorical columns of the filled feature frame. */
  function EncodersOf(t: Table, features: seq<string>, fill: (string, seq<Value>) -> seq<Value>, show: Value -> string)
    : map<string, seq<string>>
  {
    var x := FeatureFrame(t.rows, features, fill);
    ClassesOf(x, Categorical(x, features), show)
  }

  /** A map with exactly the listed keys, each holding its column's classes, is `ClassesOf`. */
  lemma EncodersAreClasses(x: Frame, cs: seq<string>, show: Value -> string, e: map<string, seq<string>>)
    requires forall c :: c in cs ==> c in x
    requires forall c :: c in e <==> c in cs
    requires forall c :: c in cs ==> e[c] == Classes(show, x[c])
    ensures e == ClassesOf(x, cs, show)
  {
  }

  /** The categorical columns of the frame and their encoders. */
  method Prepare(t: Table, features: seq<string>, fill: (string, seq<Value>) -> seq<Value>, show: Value -> string)
    returns (categorical: seq<string>, encoders: map<string, seq<string>>)
    ensures var x := FeatureFrame(t.rows, features, fill);
      && categorical == Categorical(x, features)
      && (forall c :: c in encoders <==> c in categorical)
      && forall c :: c in categorical ==> encoders[c] == Classes(show, x[c])
    ensures encoders == EncodersOf(t, features, fill, show)
  {
    var x := FeatureFrame(t.rows, features, fill);
    categorical := Categorical(x, features);
    var encoded;
    encoded, encoders := EncodeFeatures(x, categorical, show);
    EncodersAreClasses(x, categorical, show, encoders);
  }

  /** The vector the neighbour query runs on: the given example's, or the
      library's first test row when no example is given. */
  function QueryVector(c: VectorInputs, features: seq<string>, fit: LibraryFit): Result<seq<real>>
  {
    if |c.example| > 0 then TestVector(c, features) else Ok(fit.firstTest)
  }

  /** The test vector and the example a report shows: the given example's
      vector, or the library's first test row. */
  ghost predicate Vectorises(r: KnncReport, example: map<string, Value>, mean: string -> real, show: Value -> string,
                             parse: string -> Option<real>, fit: LibraryFit)
  {
    && (|example| > 0 ==>
          r.example == example
          && TestVector(VectorInputs(example, r.encoders, mean, show, parse), r.features) == Ok(r.vector))
    && (|example| == 0 ==> r.vector == fit.firstTest && r.example == ZipMap(r.features, fit.firstTest))
  }

  /** `run_knn_classification`. `fill` is pandas' missing-value fill, `fit`
      the library's split and fit (None when it raises), `solve` its scaled
      neighbour query for one test vector (None when it raises). */
  method RunKnnClassification(t: Table, target: Option<string>, features: Option<seq<string>>, kParam: Option<int>,
                              example: map<string, Value>, fill: (string, seq<Value>) -> seq<Value>,
                              show: Value -> string, parse: string -> Option<real>, mean: string -> real,
                              fit: Option<LibraryFit>, solve: seq<real> -> Option<Query>)
    returns (r: Result<KnncReport>)
    ensures ChosenColumns(t, target, features).Err? ==> r == Err(ChosenColumns(t, target, features).failure)
    ensures ChosenColumns(t, target, features).Ok? && fit.None? ==> r == Err(Raised("ValueError"))
    ensures r.Ok? ==> ChosenColumns(t, target, features) == Ok((r.value.target, r.value.features))
    ensures r.Ok? ==> r.value.k == (if kParam.Some? then kParam.value else DefaultK)
    ensures r.Ok? ==> fit.Some? && Tallies(r.value, fit.value) && r.value.steps == StepsOf(r.value, fit.value, |t.rows|)
    ensures r.Ok? ==> Encodes(r.value, t, fill, show)
    ensures r.Ok? ==> Vectorises(r.value, example, mean, show, parse, fit.value)
    ensures r.Ok? ==> solve(r.value.vector) == Some(r.value.query)
    ensures ChosenColumns(t, target, features).Ok? && fit.Some? ==>
      var fs := ChosenColumns(t, target, features).value.1;
      var k := if kParam.Some? then kParam.value else DefaultK;
      var v := QueryVector(VectorInputs(example, EncodersOf(t, fs, fill, show), mean, show, parse), fs, fit.value);
      && (v.Err? ==> r == Err(v.failure))
      && (v.Ok? && solve(v.value).None? ==> r == Err(Raised("ValueError")))
      && (v.Ok? && solve(v.value).Some? ==>
            (r.Ok? <==> TallyFailure(k, solve(v.value).value, fit.value.classNames).None?)
            && (r.Err? ==> TallyFailure(k, solve(v.value).value, fit.value.classNames) == Some(r.failure)))
    ensures r.Ok? ==> ChosenColumns(t, target, features).Ok? && fit.Some?
  {
    var chosen := ChooseColumns(t, target, features);
    if chosen.Err? {
      return Err(chosen.failure);
    }
    var (g, feats) := chosen.value;
    var k := if kParam.Some? then kParam.value else DefaultK;
    var categorical, encoders := Prepare(t, feats, fill, show);
    if fit.None? {
      return Err(Raised("ValueError"));
    }
    var vector: seq<real>;
    var shown: map<string, Value>;
    if |example| > 0 {
      var built := BuildTestVector(VectorInputs(example, encoders, mean, show, parse), feats);
      if built.Err? {
        return Err(built.failure);
      }
      vector, shown := built.value, example;
    } else {
      vector, shown := fit.value.firstTest, ZipMap(feats, fit.value.firstTest);
    }
    var query := solve(vector);
    if query.None? {
      return Err(Raised("ValueError"));
    }
    r := Tally(g, feats, k, encoders, categorical, vector, shown, query.value, fit.value, |t.rows|);
  }
}
