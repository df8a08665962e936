/** The ID3 root split (backend/id3.py): class counts, multi-class entropy,
    the partition of the rows by a feature's values, weighted child entropy,
    information gain, and the choice of the best root feature. `log2` is a
    parameter: the model holds for any base-2 logarithm it is handed. */
module Id3 {
  import opened Common

  /** A class label and how many rows of a slice carry it. */
  datatype ClassCount = ClassCount(cls: Value, count: nat)

  /** One `p_terms` entry: a class and its share of the partition. */
  datatype PTerm = PTerm(cls: Value, p: real)

  /** One partition S_v of a feature's breakdown. */
  datatype Part = Part(value: Value, size: nat, weight: real, classCounts: seq<ClassCount>, pTerms: seq<PTerm>, entropy: real)

  /** What `gain_for_categorical` returns. */
  datatype GainDetails = GainDetails(
    feature: string, total: nat, baseCounts: seq<ClassCount>, baseEntropy: real,
    parts: seq<Part>, weightedSum: real, gain: real)

  datatype FeatureGain = FeatureGain(feature: string, gain: real)

  datatype Id3Step =
    | EntropyStep(stepId: nat, counts: seq<ClassCount>, total: nat, entropy: real)
    | GainStep(stepId: nat, feature: string, values: seq<Value>, details: GainDetails)
    | SplitStep(stepId: nat, chosen: Option<string>, candidates: seq<FeatureGain>, bestGain: real)

  datatype Id3Root = Id3Root(steps: seq<Id3Step>, ranked: seq<FeatureGain>, best: Option<string>, bestGain: real)

  // ---------- class counts ----------

  function CountsFor(keys: seq<Value>, vs: seq<Value>): (r: seq<ClassCount>)
    ensures |r| == |keys|
    ensures forall i :: 0 <= i < |keys| ==> r[i] == ClassCount(keys[i], Count(vs, keys[i]))
  {
    if |keys| == 0 then [] else CountsFor(keys[..|keys| - 1], vs) + [ClassCount(keys[|keys| - 1], Count(vs, keys[|keys| - 1]))]
  }

  /** `_series_class_counts`: one entry per distinct non-missing label. */
  function ClassCounts(vs: seq<Value>): (r: seq<ClassCount>)
    ensures forall i :: 0 <= i < |r| ==> r[i].cls != Null && r[i].count == Count(vs, r[i].cls) > 0
    ensures forall v :: v != Null ==> (v in vs <==> exists i :: 0 <= i < |r| && r[i].cls == v)
    ensures forall i, j :: 0 <= i < j < |r| ==> r[i].cls != r[j].cls
  {
    var cc := CountsFor(Distinct(NonNull(vs)), vs);
    ClassCountsLabels(vs, Distinct(NonNull(vs)), cc);
    cc
  }

  function CountValues(cc: seq<ClassCount>): (r: seq<int>)
    ensures |r| == |cc|
    ensures forall i :: 0 <= i < |cc| ==> r[i] == cc[i].count
  {
    if |cc| == 0 then [] else CountValues(cc[..|cc| - 1]) + [cc[|cc| - 1].count]
  }

  lemma {:induction false} CountNonNull(vs: seq<Value>, v: Value)
    requires v != Null
    ensures Count(NonNull(vs), v) == Count(vs, v)
  {
    if |vs| > 0 {
      CountNonNull(vs[..|vs| - 1], v);
      var last := vs[|vs| - 1];
      var pre := NonNull(vs[..|vs| - 1]);
      if last != Null {
        assert NonNull(vs) == pre + [last];
        CountAppend(pre, [last], v);
      } else {
        assert NonNull(vs) == pre;
      }
    }
  }

  lemma {:induction false} TotalCountsFor(keys: seq<Value>, vs: seq<Value>)
    ensures Total(CountValues(CountsFor(keys, vs))) == CountsOver(keys, vs)
  {
    if |keys| > 0 {
      var k' := keys[..|keys| - 1];
      TotalCountsFor(k', vs);
      assert CountsFor(keys, vs)[..|keys| - 1] == CountsFor(k', vs);
      assert CountValues(CountsFor(keys, vs))[..|keys| - 1] == CountValues(CountsFor(k', vs));
    }
  }

  lemma {:induction false} CountsOverNonNull(keys: seq<Value>, vs: seq<Value>)
    requires Null !in keys
    ensures CountsOver(keys, vs) == CountsOver(keys, NonNull(vs))
  {
    if |keys| > 0 {
      CountsOverNonNull(keys[..|keys| - 1], vs);
      CountNonNull(vs, keys[|keys| - 1]);
    }
  }

  /** The class counts name each distinct non-missing label once, every count
      is positive, and together they count exactly the non-missing rows. */
  lemma ClassCountsProps(vs: seq<Value>)
    ensures forall i :: 0 <= i < |ClassCounts(vs)| ==> ClassCounts(vs)[i].count > 0 && ClassCounts(vs)[i].cls != Null
    ensures forall v :: v != Null ==> (v in vs <==> exists i :: 0 <= i < |ClassCounts(vs)| && ClassCounts(vs)[i].cls == v)
    ensures forall i, j :: 0 <= i < j < |ClassCounts(vs)| ==> ClassCounts(vs)[i].cls != ClassCounts(vs)[j].cls
    ensures Total(CountValues(ClassCounts(vs))) == |NonNull(vs)|
  {
    ClassCountsLabels(vs, Distinct(NonNull(vs)), ClassCounts(vs));
    ClassCountsTotal(vs, Distinct(NonNull(vs)));
  }

  lemma ClassCountsLabels(vs: seq<Value>, keys: seq<Value>, cc: seq<ClassCount>)
    requires keys == Distinct(NonNull(vs)) && cc == CountsFor(keys, vs)
    ensures forall i :: 0 <= i < |cc| ==> cc[i].count > 0 && cc[i].cls != Null
    ensures forall v :: v != Null ==> (v in vs <==> exists i :: 0 <= i < |cc| && cc[i].cls == v)
    ensures forall i, j :: 0 <= i < j < |cc| ==> cc[i].cls != cc[j].cls
  {
    DistinctProps(NonNull(vs));
    forall i | 0 <= i < |cc| ensures cc[i].count > 0 && cc[i].cls != Null {
      assert keys[i] in NonNull(vs);
      CountBounds(vs, keys[i]);
    }
    forall v | v != Null && v in vs ensures exists i :: 0 <= i < |cc| && cc[i].cls == v {
      var i :| 0 <= i < |keys| && keys[i] == v;
      assert cc[i].cls == v;
    }
  }

  lemma ClassCountsTotal(vs: seq<Value>, keys: seq<Value>)
    requires keys == Distinct(NonNull(vs))
    ensures Total(CountValues(CountsFor(keys, vs))) == |NonNull(vs)|
  {
    DistinctProps(NonNull(vs));
    TotalCountsFor(keys, vs);
    CountsOverNonNull(keys, vs);
    CountsOverCover(keys, NonNull(vs));
  }

  // ---------- entropy ----------

  function Total(cs: seq<int>): int
  {
    if |cs| == 0 then 0 else Total(cs[..|cs| - 1]) + cs[|cs| - 1]
  }

  /** -Σ p·log2 p over the positive counts, with p = c/n. */
  function EntropyTerms(cs: seq<int>, n: int, log2: real -> real): real
    requires n > 0
  {
    if |cs| == 0 then 0.0
    else
      var c := cs[|cs| - 1];
      var p := c as real / n as real;
      EntropyTerms(cs[..|cs| - 1], n, log2) - (if c <= 0 then 0.0 else p * log2(p))
  }

  /** H of a class-count table; 0 when the counts total at most 0. */
  function Entropy(cs: seq<int>, log2: real -> real): real
  {
    var n := Total(cs);
    if n <= 0 then 0.0 else EntropyTerms(cs, n, log2)
  }

  /** `_entropy_from_counts`: accumulates `h` over the counts, skipping
      classes with a count of at most 0. */
  method EntropyFromCounts(counts: seq<int>, log2: real -> real) returns (h: real)
    ensures h == Entropy(counts, log2)
    ensures Total(counts) <= 0 ==> h == 0.0
  {
    var n := Total(counts);
    if n <= 0 {
      return 0.0;
    }
    h := 0.0;
    var i := 0;
    while i < |counts|
      invariant 0 <= i <= |counts|
      invariant h == EntropyTerms(counts[..i], n, log2)
    {
      var c := counts[i];
      assert counts[..i + 1][..i] == counts[..i];
      if c > 0 {
        var p := c as real / n as real;
        h := h - p * log2(p);
      }
      i := i + 1;
    }
    assert counts[..i] == counts;
  }

  lemma {:induction false} TotalAppend(a: seq<int>, b: seq<int>)
    ensures Total(a + b) == Total(a) + Total(b)
  {
    if |b| > 0 {
      assert (a + b)[..|a + b| - 1] == a + b[..|b| - 1];
      TotalAppend(a, b[..|b| - 1]);
    } else {
      assert a + b == a;
    }
  }

  lemma {:induction false} EntropyTermsZeroClass(a: seq<int>, b: seq<int>, n: int, log2: real -> real)
    requires n > 0
    ensures EntropyTerms(a + [0] + b, n, log2) == EntropyTerms(a + b, n, log2)
  {
    if |b| == 0 {
      assert a + [0] + b == a + [0];
      assert (a + [0])[..|a|] == a;
      assert a + b == a;
    } else {
      var b' := b[..|b| - 1];
      EntropyTermsZeroClass(a, b', n, log2);
      assert (a + [0] + b)[..|a + [0] + b| - 1] == a + [0] + b';
      assert (a + b)[..|a + b| - 1] == a + b';
    }
  }

  /** A class with count 0 contributes nothing: inserting one anywhere leaves
      the entropy unchanged. */
  lemma EntropyZeroClass(a: seq<int>, b: seq<int>, log2: real -> real)
    ensures Entropy(a + [0] + b, log2) == Entropy(a + b, log2)
  {
    TotalAppend(a + [0], b);
    TotalAppend(a, [0]);
    TotalAppend(a, b);
    if Total(a + b) > 0 {
      EntropyTermsZeroClass(a, b, Total(a + b), log2);
    }
  }

  lemma {:induction false} TotalBound(cs: seq<int>, k: int)
    requires 0 <= k < |cs|
    requires forall i :: 0 <= i < |cs| ==> cs[i] >= 0
    ensures 0 <= cs[k] <= Total(cs)
  {
    if k < |cs| - 1 {
      TotalBound(cs[..|cs| - 1], k);
    }
    TotalNonNegative(cs[..|cs| - 1]);
  }

  lemma {:induction false} TotalNonNegative(cs: seq<int>)
    requires forall i :: 0 <= i < |cs| ==> cs[i] >= 0
    ensures Total(cs) >= 0
  {
    if |cs| > 0 { TotalNonNegative(cs[..|cs| - 1]); }
  }

  lemma {:induction false} EntropyTermsNonNegative(cs: seq<int>, n: int, log2: real -> real)
    requires n > 0
    requires forall i :: 0 <= i < |cs| ==> 0 <= cs[i] <= n
    requires forall p: real :: 0.0 < p <= 1.0 ==> log2(p) <= 0.0
    ensures EntropyTerms(cs, n, log2) >= 0.0
  {
    if |cs| > 0 {
      EntropyTermsNonNegative(cs[..|cs| - 1], n, log2);
      var c := cs[|cs| - 1];
      if c > 0 {
        var p := c as real / n as real;
        DivAtMostOne(c as real, n as real);
        MulNonPositive(p, log2(p));
      }
    }
  }

  /** With any logarithm that is non-positive on (0, 1], the entropy of
      non-negative counts is non-negative. */
  lemma EntropyNonNegative(cs: seq<int>, log2: real -> real)
    requires forall i :: 0 <= i < |cs| ==> cs[i] >= 0
    requires forall p: real :: 0.0 < p <= 1.0 ==> log2(p) <= 0.0
    ensures Entropy(cs, log2) >= 0.0
  {
    if Total(cs) > 0 {
      forall i | 0 <= i < |cs| ensures 0 <= cs[i] <= Total(cs) {
        TotalBound(cs, i);
      }
      EntropyTermsNonNegative(cs, Total(cs), log2);
    }
  }

  lemma {:induction false} EntropyTermsSingle(cs: seq<int>, k: nat, n: int, log2: real -> real)
    requires n > 0 && k < |cs|
    requires forall i :: 0 <= i < |cs| && i != k ==> cs[i] == 0
    requires cs[k] > 0
    ensures EntropyTerms(cs, n, log2) == -((cs[k] as real / n as real) * log2(cs[k] as real / n as real))
    ensures Total(cs) == cs[k]
  {
    if k < |cs| - 1 {
      EntropyTermsSingle(cs[..|cs| - 1], k, n, log2);
    } else {
      EntropyTermsAllZero(cs[..|cs| - 1], n, log2);
    }
  }

  lemma {:induction false} EntropyTermsAllZero(cs: seq<int>, n: int, log2: real -> real)
    requires n > 0
    requires forall i :: 0 <= i < |cs| ==> cs[i] == 0
    ensures EntropyTerms(cs, n, log2) == 0.0 && Total(cs) == 0
  {
    if |cs| > 0 { EntropyTermsAllZero(cs[..|cs| - 1], n, log2); }
  }

  /** A slice in which a single class has all the mass has entropy 0
      (given log2 1 = 0). */
  lemma EntropyPure(cs: seq<int>, k: nat, log2: real -> real)
    requires k < |cs| && cs[k] > 0
    requires forall i :: 0 <= i < |cs| && i != k ==> cs[i] == 0
    requires log2(1.0) == 0.0
    ensures Entropy(cs, log2) == 0.0
  {
    EntropyTermsSingle(cs, k, cs[k], log2);
    assert cs[k] as real / cs[k] as real == 1.0;
  }

  // ---------- partitions and gain ----------

  /** `_value_label`: a missing feature value is shown as "NaN". */
  function ValueLabel(v: Value): (r: Value)
    ensures r != Null
    ensures v != Null ==> r == v
  {
    if v == Null then Str("NaN") else v
  }

  /** The groups of `groupby(feature, dropna=False)`, the missing value included. */
  function Groups(rows: seq<Row>, feature: string): (r: seq<Value>)
    ensures forall v :: v in r <==> v in Column(rows, feature)
    ensures NoDuplicates(r)
  {
    DistinctProps(Column(rows, feature));
    Distinct(Column(rows, feature))
  }

  /** The `p_terms` of a partition of the given size: the classes whose share
      count/size is positive. */
  function PTerms(cc: seq<ClassCount>, size: nat): (r: seq<PTerm>)
    ensures forall t :: t in r ==> t.p > 0.0
  {
    if |cc| == 0 then []
    else
      var c := cc[|cc| - 1];
      var p := if size != 0 then c.count as real / size as real else 0.0;
      PTerms(cc[..|cc| - 1], size) + (if p > 0.0 then [PTerm(c.cls, p)] else [])
  }

  /** A term is listed exactly for each class whose count is positive, with
      p = count/size; an empty partition lists none. */
  lemma {:induction false} PTermsProps(cc: seq<ClassCount>, size: nat)
    ensures size == 0 ==> PTerms(cc, size) == []
    ensures size > 0 ==> forall t :: t in PTerms(cc, size) <==>
      exists i :: 0 <= i < |cc| && cc[i].count > 0 && t == PTerm(cc[i].cls, cc[i].count as real / size as real)
  {
    if |cc| > 0 {
      var cc' := cc[..|cc| - 1];
      PTermsProps(cc', size);
      if size > 0 {
        var c := cc[|cc| - 1];
        var p := c.count as real / size as real;
        assert p > 0.0 <==> c.count > 0;
        forall t ensures t in PTerms(cc, size) <==>
          exists i :: 0 <= i < |cc| && cc[i].count > 0 && t == PTerm(cc[i].cls, cc[i].count as real / size as real)
        {
          if t in PTerms(cc, size) {
            if t in PTerms(cc', size) {
              var i :| 0 <= i < |cc'| && cc'[i].count > 0 && t == PTerm(cc'[i].cls, cc'[i].count as real / size as real);
              assert cc[i] == cc'[i];
            } else {
              assert cc[|cc| - 1].count > 0 && t == PTerm(c.cls, p);
            }
          }
          if exists i :: 0 <= i < |cc| && cc[i].count > 0 && t == PTerm(cc[i].cls, cc[i].count as real / size as real) {
            var i :| 0 <= i < |cc| && cc[i].count > 0 && t == PTerm(cc[i].cls, cc[i].count as real / size as real);
            if i < |cc'| {
              assert cc'[i] == cc[i];
            }
          }
        }
      }
    }
  }

  function PartOf(rows: seq<Row>, target: string, feature: string, v: Value, log2: real -> real): Part
  {
    var sub := RowsWhere(rows, feature, v);
    var counts := ClassCounts(Column(sub, target));
    var weight := if |rows| != 0 then |sub| as real / |rows| as real else 0.0;
    Part(ValueLabel(v), |sub|, weight, counts, PTerms(counts, |sub|), Entropy(CountValues(counts), log2))
  }

  function PartsOf(rows: seq<Row>, target: string, feature: string, groups: seq<Value>, log2: real -> real): (ps: seq<Part>)
    ensures |ps| == |groups|
  {
    if |groups| == 0 then []
    else PartsOf(rows, target, feature, groups[..|groups| - 1], log2) + [PartOf(rows, target, feature, groups[|groups| - 1], log2)]
  }

  /** Σ (|S_v|/|S|)·H(S_v). */
  function WeightedSum(ps: seq<Part>): real
  {
    if |ps| == 0 then 0.0 else WeightedSum(ps[..|ps| - 1]) + ps[|ps| - 1].weight * ps[|ps| - 1].entropy
  }

  function BaseEntropy(rows: seq<Row>, target: string, log2: real -> real): real
  {
    Entropy(CountValues(ClassCounts(Column(rows, target))), log2)
  }

  /** Gain(S, A) = H(S) − Σ_v (|S_v|/|S|)·H(S_v). */
  function GainOf(rows: seq<Row>, target: string, feature: string, log2: real -> real): real
  {
    BaseEntropy(rows, target, log2) - WeightedSum(PartsOf(rows, target, feature, Groups(rows, feature), log2))
  }

  /** The `p_terms` loop of one partition. */
  method PTermsLoop(countsV: seq<ClassCount>, nv: nat) returns (pTerms: seq<PTerm>)
    ensures pTerms == PTerms(countsV, nv)
  {
    pTerms := [];
    var j := 0;
    while j < |countsV|
      invariant 0 <= j <= |countsV|
      invariant pTerms == PTerms(countsV[..j], nv)
    {
      assert countsV[..j + 1][..j] == countsV[..j];
      var p := if nv != 0 then countsV[j].count as real / nv as real else 0.0;
      if p > 0.0 {
        pTerms := pTerms + [PTerm(countsV[j].cls, p)];
      }
      j := j + 1;
    }
    assert countsV[..j] == countsV;
  }

  /** The body of the group loop for one value `v` of the feature. */
  method PartLoopBody(rows: seq<Row>, target: string, feature: string, v: Value, log2: real -> real) returns (part: Part)
    requires v in Column(rows, feature)
    ensures part == PartOf(rows, target, feature, v, log2)
    ensures part.size > 0
  {
    var sv := RowsWhere(rows, feature, v);
    var nv := |sv|;
    RowsWhereSize(rows, feature, v);
    CountBounds(Column(rows, feature), v);
    var countsV := ClassCounts(Column(sv, target));
    var hv := EntropyFromCounts(CountValues(countsV), log2);
    var weight := if |rows| != 0 then nv as real / |rows| as real else 0.0;
    var pTerms := PTermsLoop(countsV, nv);
    part := Part(ValueLabel(v), nv, weight, countsV, pTerms, hv);
  }

  lemma PartsOfStep(rows: seq<Row>, target: string, feature: string, groups: seq<Value>, i: nat, log2: real -> real)
    requires i < |groups|
    ensures PartsOf(rows, target, feature, groups[..i + 1], log2)
         == PartsOf(rows, target, feature, groups[..i], log2) + [PartOf(rows, target, feature, groups[i], log2)]
  {
    assert groups[..i + 1][..i] == groups[..i];
  }

  lemma GroupLoopStep(rows: seq<Row>, target: string, feature: string, groups: seq<Value>, i: nat,
                      parts: seq<Part>, ws: real, part: Part, log2: real -> real)
    requires i < |groups|
    requires parts == PartsOf(rows, target, feature, groups[..i], log2) && ws == WeightedSum(parts)
    requires part == PartOf(rows, target, feature, groups[i], log2)
    ensures parts + [part] == PartsOf(rows, target, feature, groups[..i + 1], log2)
    ensures ws + part.weight * part.entropy == WeightedSum(parts + [part])
  {
    PartsOfStep(rows, target, feature, groups, i, log2);
    WeightedSumSnoc(parts, part);
  }

  lemma WeightedSumSnoc(ps: seq<Part>, p: Part)
    ensures WeightedSum(ps + [p]) == WeightedSum(ps) + p.weight * p.entropy
  {
    assert (ps + [p])[..|ps|] == ps;
  }

  /** The group loop of `gain_for_categorical`: skips an empty group (none
      is), appends one part per group and accumulates the weighted sum. */
  method GroupLoop(rows: seq<Row>, target: string, feature: string, groups: seq<Value>, log2: real -> real)
    returns (parts: seq<Part>, weightedSum: real)
    requires forall k :: 0 <= k < |groups| ==> groups[k] in Column(rows, feature)
    ensures parts == PartsOf(rows, target, feature, groups, log2)
    ensures weightedSum == WeightedSum(parts)
  {
    parts := [];
    weightedSum := 0.0;
    var i := 0;
    while i < |groups|
      invariant 0 <= i <= |groups|
      invariant parts == PartsOf(rows, target, feature, groups[..i], log2)
      invariant weightedSum == WeightedSum(parts)
    {
      var part := PartLoopBody(rows, target, feature, groups[i], log2);
      if part.size == 0 {
        assert false;
      }
      GroupLoopStep(rows, target, feature, groups, i, parts, weightedSum, part, log2);
      weightedSum := weightedSum + part.weight * part.entropy;
      parts := parts + [part];
      i := i + 1;
    }
    assert groups[..i] == groups;
  }

  /** The breakdown `gain_for_categorical` reports for `feature`: the table
      size, the target's class counts and H(S), one part per value of the
      feature with its size, weight, class counts, shares and entropy, the
      weighted sum of the part entropies and the gain. */
  function Breakdown(t: Table, target: string, feature: string, log2: real -> real): (d: GainDetails)
    ensures d.gain == GainOf(t.rows, target, feature, log2)
  {
    var parts := PartsOf(t.rows, target, feature, Groups(t.rows, feature), log2);
    GainDetails(feature, |t.rows|, ClassCounts(Column(t.rows, target)), BaseEntropy(t.rows, target, log2),
                parts, WeightedSum(parts), BaseEntropy(t.rows, target, log2) - WeightedSum(parts))
  }

  /** `gain_for_categorical`: H(S), the partition by the feature's values
      and Gain = H(S) − Σ (|S_v|/|S|)·H(S_v). */
  method GainForCategorical(t: Table, target: string, feature: string, log2: real -> real) returns (d: GainDetails)
    ensures d.feature == feature && d.total == |t.rows|
    ensures d.baseCounts == ClassCounts(Column(t.rows, target))
    ensures d.baseEntropy == BaseEntropy(t.rows, target, log2)
    ensures d.parts == PartsOf(t.rows, target, feature, Groups(t.rows, feature), log2)
    ensures d.weightedSum == WeightedSum(d.parts)
    ensures d.gain == d.baseEntropy - d.weightedSum
    ensures d.gain == GainOf(t.rows, target, feature, log2)
    ensures d == Breakdown(t, target, feature, log2)
  {
    var baseCounts := ClassCounts(Column(t.rows, target));
    var baseEntropy := EntropyFromCounts(CountValues(baseCounts), log2);
    forall k | 0 <= k < |Groups(t.rows, feature)| ensures Groups(t.rows, feature)[k] in Column(t.rows, feature) {
      DistinctElement(Column(t.rows, feature), k);
    }
    var parts, weightedSum := GroupLoop(t.rows, target, feature, Groups(t.rows, feature), log2);
    d := GainDetails(feature, |t.rows|, baseCounts, baseEntropy, parts, weightedSum, baseEntropy - weightedSum);
  }

  // ---------- properties of the partition ----------

  function Sizes(ps: seq<Part>): (r: nat)
  {
    if |ps| == 0 then 0 else Sizes(ps[..|ps| - 1]) + ps[|ps| - 1].size
  }

  function Weights(ps: seq<Part>): real
  {
    if |ps| == 0 then 0.0 else Weights(ps[..|ps| - 1]) + ps[|ps| - 1].weight
  }

  /** The size and weight of one part, in terms of the feature column. */
  lemma PartSizeWeight(rows: seq<Row>, target: string, feature: string, v: Value, log2: real -> real)
    ensures PartOf(rows, target, feature, v, log2).size == Count(Column(rows, feature), v)
    ensures PartOf(rows, target, feature, v, log2).weight
         == if |rows| != 0 then Count(Column(rows, feature), v) as real / |rows| as real else 0.0
  {
    RowsWhereSize(rows, feature, v);
  }

  lemma {:induction false} SizesIsCountsOver(rows: seq<Row>, target: string, feature: string, groups: seq<Value>, log2: real -> real)
    ensures Sizes(PartsOf(rows, target, feature, groups, log2)) == CountsOver(groups, Column(rows, feature))
  {
    if |groups| > 0 {
      var g' := groups[..|groups| - 1];
      var v := groups[|groups| - 1];
      SizesIsCountsOver(rows, target, feature, g', log2);
      var ps := PartsOf(rows, target, feature, groups, log2);
      assert ps[..|groups| - 1] == PartsOf(rows, target, feature, g', log2);
      PartSizeWeight(rows, target, feature, v, log2);
    }
  }

  lemma {:induction false} WeightsAreShares(rows: seq<Row>, target: string, feature: string, groups: seq<Value>, log2: real -> real)
    requires |rows| > 0
    ensures var ps := PartsOf(rows, target, feature, groups, log2);
      forall i :: 0 <= i < |ps| ==> ps[i].weight == ps[i].size as real / |rows| as real
  {
    if |groups| > 0 {
      var g' := groups[..|groups| - 1];
      var v := groups[|groups| - 1];
      WeightsAreShares(rows, target, feature, g', log2);
      var ps := PartsOf(rows, target, feature, groups, log2);
      assert ps == PartsOf(rows, target, feature, g', log2) + [PartOf(rows, target, feature, v, log2)];
      PartSizeWeight(rows, target, feature, v, log2);
    }
  }

  lemma {:induction false} WeightsAreSizesOverN(ps: seq<Part>, n: nat)
    requires n > 0
    requires forall i :: 0 <= i < |ps| ==> ps[i].weight == ps[i].size as real / n as real
    ensures Weights(ps) == Sizes(ps) as real / n as real
  {
    if |ps| > 0 {
      var ps' := ps[..|ps| - 1];
      WeightsAreSizesOverN(ps', n);
      DivAdd(Sizes(ps') as real, ps[|ps| - 1].size as real, n as real);
    }
  }

  lemma {:induction false} PartsOfPositive(rows: seq<Row>, target: string, feature: string, groups: seq<Value>, log2: real -> real)
    requires forall k :: 0 <= k < |groups| ==> groups[k] in Column(rows, feature)
    ensures forall p :: p in PartsOf(rows, target, feature, groups, log2) ==> p.size > 0
  {
    if |groups| > 0 {
      var g' := groups[..|groups| - 1];
      var v := groups[|groups| - 1];
      PartsOfPositive(rows, target, feature, g', log2);
      PartSizeWeight(rows, target, feature, v, log2);
      CountBounds(Column(rows, feature), v);
    }
  }

  /** The groups account for every row exactly once. */
  lemma GroupsCover(rows: seq<Row>, feature: string)
    ensures CountsOver(Groups(rows, feature), Column(rows, feature)) == |rows|
    ensures forall k :: 0 <= k < |Groups(rows, feature)| ==> Groups(rows, feature)[k] in Column(rows, feature)
  {
    DistinctProps(Column(rows, feature));
    CountsOverCover(Groups(rows, feature), Column(rows, feature));
  }

  /** Every row, a missing feature value included, falls in exactly one
      non-empty partition: the sizes add up to N, and the weights to 1. */
  lemma PartitionCoversRows(rows: seq<Row>, target: string, feature: string, log2: real -> real)
    requires |rows| > 0
    ensures Sizes(PartsOf(rows, target, feature, Groups(rows, feature), log2)) == |rows|
    ensures Weights(PartsOf(rows, target, feature, Groups(rows, feature), log2)) == 1.0
    ensures forall p :: p in PartsOf(rows, target, feature, Groups(rows, feature), log2) ==> p.size > 0
  {
    var groups := Groups(rows, feature);
    var ps := PartsOf(rows, target, feature, groups, log2);
    GroupsCover(rows, feature);
    SizesIsCountsOver(rows, target, feature, groups, log2);
    WeightsAreShares(rows, target, feature, groups, log2);
    WeightsAreSizesOverN(ps, |rows|);
    assert Weights(ps) == Sizes(ps) as real / |rows| as real;
    assert Sizes(ps) == |rows|;
    DivSelf(|rows| as real);
    PartsOfPositive(rows, target, feature, groups, log2);
  }

  function PSum(ts: seq<PTerm>): real
  {
    if |ts| == 0 then 0.0 else PSum(ts[..|ts| - 1]) + ts[|ts| - 1].p
  }

  lemma {:induction false} PSumIsTotalOverSize(cc: seq<ClassCount>, size: nat)
    requires size > 0
    ensures PSum(PTerms(cc, size)) == Total(CountValues(cc)) as real / size as real
  {
    if |cc| > 0 {
      var cc' := cc[..|cc| - 1];
      var c := cc[|cc| - 1];
      PSumIsTotalOverSize(cc', size);
      assert CountValues(cc) == CountValues(cc') + [c.count];
      assert CountValues(cc)[..|cc| - 1] == CountValues(cc');
      assert Total(CountValues(cc)) == Total(CountValues(cc')) + c.count;
      var p := c.count as real / size as real;
      DivAdd(Total(CountValues(cc')) as real, c.count as real, size as real);
      if c.count > 0 {
        DivPositive(c.count as real, size as real);
        var ts := PTerms(cc', size) + [PTerm(c.cls, p)];
        assert PTerms(cc, size) == ts;
        assert ts[..|ts| - 1] == PTerms(cc', size);
      } else {
        assert c.count as real == 0.0;
        assert p == 0.0;
        assert PTerms(cc, size) == PTerms(cc', size);
        assert Total(CountValues(cc)) == Total(CountValues(cc'));
      }
    }
  }

  /** The `p_terms` of a partition divide by |S_v|, which counts rows whose
      target is missing, so they add up to the non-missing share of S_v and
      fall short of 1 when some target in S_v is missing. */
  lemma PTermsShare(rows: seq<Row>, target: string, feature: string, v: Value, log2: real -> real)
    requires v in Column(rows, feature)
    ensures var p := PartOf(rows, target, feature, v, log2);
      p.size > 0 && PSum(p.pTerms) == |NonNull(Column(RowsWhere(rows, feature, v), target))| as real / p.size as real
  {
    var sub := RowsWhere(rows, feature, v);
    RowsWhereSize(rows, feature, v);
    CountBounds(Column(rows, feature), v);
    ClassCountsProps(Column(sub, target));
    PSumIsTotalOverSize(ClassCounts(Column(sub, target)), |sub|);
  }

  // ---------- the root step list ----------

  /** The candidate features: every column but the target when no list is
      given, else the listed names that are columns and not the target, in
      the listed order. */
  function Candidates(t: Table, target: string, features: Option<seq<string>>): (r: seq<string>)
    ensures target !in r
    ensures forall c :: c in r ==> c in t.columns
    ensures features.None? ==> r == Without(t.columns, target)
    ensures features.Some? ==> forall c :: c in r <==> c in features.value && c in t.columns && c != target
  {
    match features
    case None => Without(t.columns, target)
    case Some(fs) => Filter(fs, c => c in t.columns && c != target)
  }

  /** `is_bool_dtype(df[f]) or is_object_dtype(df[f])`. */
  predicate IsCategorical(t: Table, c: string)
  {
    !IsNumericColumn(t, c)
  }

  /** The candidates whose column is categorical, in candidate order. */
  function Categorical(t: Table, cands: seq<string>): (r: seq<string>)
    ensures forall c :: c in r <==> c in cands && IsCategorical(t, c)
  {
    if |cands| == 0 then []
    else Categorical(t, cands[..|cands| - 1]) + (if IsCategorical(t, cands[|cands| - 1]) then [cands[|cands| - 1]] else [])
  }

  /** The (feature, gain) summary of each gain step, in step order. */
  function SummariesOf(gainSteps: seq<Id3Step>): (r: seq<FeatureGain>)
    requires forall k :: 0 <= k < |gainSteps| ==> gainSteps[k].GainStep?
    ensures |r| == |gainSteps|
    ensures forall k :: 0 <= k < |gainSteps| ==> r[k] == FeatureGain(gainSteps[k].feature, gainSteps[k].details.gain)
  {
    if |gainSteps| == 0 then []
    else SummariesOf(gainSteps[..|gainSteps| - 1]) + [FeatureGain(gainSteps[|gainSteps| - 1].feature, gainSteps[|gainSteps| - 1].details.gain)]
  }

  function GainKey(fg: FeatureGain): real { fg.gain }

  /** What the feature loop has built after the categorical candidates
      `cats`: one gain step per feature, numbered from 2, carrying the
      feature's information gain. */
  ghost predicate GainStepsFor(t: Table, target: string, cats: seq<string>, gainSteps: seq<Id3Step>, log2: real -> real)
  {
    && |gainSteps| == |cats|
    && (forall k :: 0 <= k < |gainSteps| ==>
          (gainSteps[k].GainStep? && gainSteps[k].stepId == k + 2 && gainSteps[k].feature == cats[k]))
    && (forall k {:trigger GainOf(t.rows, target, cats[k], log2)} :: 0 <= k < |gainSteps| ==>
          gainSteps[k].GainStep? && gainSteps[k].details.gain == GainOf(t.rows, target, cats[k], log2))
    && (forall k {:trigger Breakdown(t, target, cats[k], log2)} :: 0 <= k < |gainSteps| ==>
          gainSteps[k].GainStep? && gainSteps[k].details == Breakdown(t, target, cats[k], log2))
  }

  lemma SummariesOfSnoc(gainSteps: seq<Id3Step>, step: Id3Step)
    requires forall k :: 0 <= k < |gainSteps| ==> gainSteps[k].GainStep?
    requires step.GainStep?
    ensures SummariesOf(gainSteps + [step]) == SummariesOf(gainSteps) + [FeatureGain(step.feature, step.details.gain)]
  {
    assert (gainSteps + [step])[..|gainSteps|] == gainSteps;
  }

  lemma GainStepsForSnoc(t: Table, target: string, cats: seq<string>, gainSteps: seq<Id3Step>, step: Id3Step, log2: real -> real)
    requires GainStepsFor(t, target, cats, gainSteps, log2)
    requires step.GainStep? && step.stepId == |cats| + 2
    requires step.details.gain == GainOf(t.rows, target, step.feature, log2)
    requires step.details == Breakdown(t, target, step.feature, log2)
    ensures GainStepsFor(t, target, cats + [step.feature], gainSteps + [step], log2)
  {
    var cats', gainSteps' := cats + [step.feature], gainSteps + [step];
    forall k | 0 <= k < |gainSteps'|
      ensures gainSteps'[k].GainStep? && gainSteps'[k].stepId == k + 2 && gainSteps'[k].feature == cats'[k]
      ensures gainSteps'[k].details.gain == GainOf(t.rows, target, cats'[k], log2)
      ensures gainSteps'[k].details == Breakdown(t, target, cats'[k], log2)
    {
      if k < |gainSteps| {
        assert gainSteps'[k] == gainSteps[k] && cats'[k] == cats[k];
        assert gainSteps[k].details.gain == GainOf(t.rows, target, cats[k], log2);
        assert gainSteps[k].details == Breakdown(t, target, cats[k], log2);
      }
    }
  }

  /** One gain step of the feature loop: the breakdown of `feature`, with the
      values of its partitions as context. */
  method MakeGainStep(t: Table, target: string, feature: string, order: nat, log2: real -> real) returns (step: Id3Step)
    ensures step.GainStep? && step.stepId == order && step.feature == feature
    ensures step.details.gain == GainOf(t.rows, target, feature, log2)
    ensures step.values == ValuesOf(step.details.parts)
    ensures step.details == Breakdown(t, target, feature, log2)
  {
    var details := GainForCategorical(t, target, feature, log2);
    step := GainStep(order, feature, ValuesOf(details.parts), details);
  }

  /** The feature loop of `compute_id3_root_steps`: one gain step per
      categorical candidate, numbered from 2 in candidate order, and the
      (feature, gain) summaries. */
  method GainStepsLoop(t: Table, target: string, candidates: seq<string>, log2: real -> real)
    returns (gainSteps: seq<Id3Step>, summaries: seq<FeatureGain>)
    ensures GainStepsFor(t, target, Categorical(t, candidates), gainSteps, log2)
    ensures summaries == SummariesOf(gainSteps)
  {
    gainSteps := [];
    summaries := [];
    ghost var cats: seq<string> := [];
    var order := 2;
    var i := 0;
    while i < |candidates|
      invariant 0 <= i <= |candidates|
      invariant cats == Categorical(t, candidates[..i])
      invariant order == |cats| + 2
      invariant GainStepsFor(t, target, cats, gainSteps, log2)
      invariant summaries == SummariesOf(gainSteps)
    {
      var f := candidates[i];
      PrefixSnoc(candidates, i);
      if IsCategorical(t, f) {
        var step := MakeGainStep(t, target, f, order, log2);
        GainStepsForSnoc(t, target, cats, gainSteps, step, log2);
        SummariesOfSnoc(gainSteps, step);
        summaries := summaries + [FeatureGain(f, step.details.gain)];
        gainSteps := gainSteps + [step];
        cats := cats + [f];
        order := order + 1;
      }
      i := i + 1;
    }
    assert candidates[..i] == candidates;
  }

  /** `compute_id3_root_steps`: step 1 is H(S), then one gain step per
      categorical candidate in candidate order, then the split step over the
      candidates ranked by gain (stable, descending); the best feature is the
      first of the highest gain, or none, with best gain -1, when no
      candidate is categorical. */
  method ComputeId3RootSteps(t: Table, target: string, features: Option<seq<string>>, log2: real -> real)
    returns (r: Result<Id3Root>)
    ensures target !in t.columns <==> r.Err?
    ensures r.Err? ==> r.failure == Raised("ValueError")
    ensures r.Ok? ==>
      var cats := Categorical(t, Candidates(t, target, features));
      var res := r.value;
      && |res.steps| == |cats| + 2
      && (forall i :: 0 <= i < |res.steps| ==> res.steps[i].stepId == i + 1)
      && res.steps[0] == EntropyStep(1, ClassCounts(Column(t.rows, target)), |t.rows|, BaseEntropy(t.rows, target, log2))
      && GainStepsFor(t, target, cats, res.steps[1..|cats| + 1], log2)
      && res.ranked == SortDesc(SummariesOf(res.steps[1..|cats| + 1]), GainKey)
      && res.steps[|cats| + 1] == SplitStep(|cats| + 2, res.best, res.ranked, res.bestGain)
      && (|cats| == 0 ==> res.best == None && res.bestGain == -1.0)
      && (|cats| > 0 ==>
            var summaries := SummariesOf(res.steps[1..|cats| + 1]);
            (res.best == Some(summaries[FirstMax(summaries, GainKey)].feature)
             && res.bestGain == summaries[FirstMax(summaries, GainKey)].gain))
  {
    if target !in t.columns {
      return Err(Raised("ValueError"));
    }
    var candidates := Candidates(t, target, features);
    var first := BaseEntropyStep(t, target, log2);
    var gainSteps, summaries := GainStepsLoop(t, target, candidates, log2);
    ghost var cats := Categorical(t, candidates);
    assert |gainSteps| == |cats|;
    var root := AssembleRoot(first, gainSteps, summaries);
    assert root.steps[1..|cats| + 1] == gainSteps;
    r := Ok(root);
  }

  /** Step 1: the class counts of the target column and their entropy. */
  method BaseEntropyStep(t: Table, target: string, log2: real -> real) returns (step: Id3Step)
    ensures step == EntropyStep(1, ClassCounts(Column(t.rows, target)), |t.rows|, BaseEntropy(t.rows, target, log2))
  {
    var baseCounts := ClassCounts(Column(t.rows, target));
    var hs := EntropyFromCounts(CountValues(baseCounts), log2);
    step := EntropyStep(1, baseCounts, |t.rows|, hs);
  }

  /** The root's step list: the entropy step, the gain steps, then the split
      step, whose candidates are the summaries ranked by gain (stable, highest
      first) and whose choice is the first summary of highest gain. */
  method AssembleRoot(first: Id3Step, gainSteps: seq<Id3Step>, summaries: seq<FeatureGain>) returns (root: Id3Root)
    requires |summaries| == |gainSteps|
    requires first.stepId == 1 && forall k :: 0 <= k < |gainSteps| ==> gainSteps[k].stepId == k + 2
    ensures |root.steps| == |gainSteps| + 2
    ensures forall i :: 0 <= i < |root.steps| ==> root.steps[i].stepId == i + 1
    ensures root.steps[0] == first && root.steps[1..|gainSteps| + 1] == gainSteps
    ensures root.ranked == SortDesc(summaries, GainKey)
    ensures root.steps[|gainSteps| + 1] == SplitStep(|gainSteps| + 2, root.best, root.ranked, root.bestGain)
    ensures |summaries| == 0 ==> root.best == None && root.bestGain == -1.0
    ensures |summaries| > 0 ==>
      (root.best == Some(summaries[FirstMax(summaries, GainKey)].feature)
       && root.bestGain == summaries[FirstMax(summaries, GainKey)].gain)
  {
    var ranked := SortDesc(summaries, GainKey);
    var best: Option<string> := None;
    var bestGain := -1.0;
    if |ranked| > 0 {
      SortDescHead(summaries, GainKey);
      best := Some(ranked[0].feature);
      bestGain := ranked[0].gain;
    }
    var steps := [first] + gainSteps + [SplitStep(|gainSteps| + 2, best, ranked, bestGain)];
    assert steps[1..|gainSteps| + 1] == gainSteps;
    forall i | 0 <= i < |steps| ensures steps[i].stepId == i + 1 {
      if 1 <= i <= |gainSteps| {
        assert steps[i] == gainSteps[i - 1];
      }
    }
    root := Id3Root(steps, ranked, best, bestGain);
  }

  /** The "values" context of a gain step: each part's label. */
  function ValuesOf(ps: seq<Part>): (r: seq<Value>)
    ensures |r| == |ps|
    ensures forall i :: 0 <= i < |ps| ==> r[i] == ps[i].value
  {
    if |ps| == 0 then [] else ValuesOf(ps[..|ps| - 1]) + [ps[|ps| - 1].value]
  }
}
