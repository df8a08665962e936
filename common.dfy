/** Shared vocabulary of the engines: cells, tables, error outcomes, counting,
    sums, a first-maximum search and one stable sort. */
module Common {

  datatype Option<T> = None | Some(value: T)

  /** A cell of a data frame: a number, a string, or a missing value (NaN/None). */
  datatype Value = Num(r: real) | Str(s: string) | Null

  /** One row: column name to cell. A column the row lacks reads as Null. */
  type Row = map<string, Value>

  /** A parsed data frame: its column order and its rows. */
  datatype Table = Table(columns: seq<string>, rows: seq<Row>)

  /** How an engine call fails: an HTTP error with its status code, an
      uncaught Python exception (its class name), or a column whose cells are
      not all numbers where the engine does arithmetic on it. */
  datatype Failure = HttpError(status: int) | Raised(exception: string) | NonNumericCells(column: string)

  datatype Result<T> = Ok(value: T) | Err(failure: Failure)

  function Get(row: Row, c: string): Value
  {
    if c in row then row[c] else Null
  }

  /** The cells of column `c`, one per row, in row order. */
  function Column(rows: seq<Row>, c: string): (vs: seq<Value>)
    ensures |vs| == |rows|
    ensures forall i :: 0 <= i < |rows| ==> vs[i] == Get(rows[i], c)
  {
    if |rows| == 0 then [] else Column(rows[..|rows| - 1], c) + [Get(rows[|rows| - 1], c)]
  }

  /** The rows whose cell in column `c` equals `v`, in row order (a boolean mask). */
  function RowsWhere(rows: seq<Row>, c: string, v: Value): (sub: seq<Row>)
    ensures |sub| <= |rows|
    ensures forall r :: r in sub ==> r in rows && Get(r, c) == v
  {
    if |rows| == 0 then []
    else RowsWhere(rows[..|rows| - 1], c, v) + (if Get(rows[|rows| - 1], c) == v then [rows[|rows| - 1]] else [])
  }

  /** The mask keeps as many rows as the column holds `v`. */
  lemma {:induction false} RowsWhereSize(rows: seq<Row>, c: string, v: Value)
    ensures |RowsWhere(rows, c, v)| == Count(Column(rows, c), v)
  {
    if |rows| > 0 {
      RowsWhereSize(rows[..|rows| - 1], c, v);
      assert Column(rows, c)[..|rows| - 1] == Column(rows[..|rows| - 1], c);
    }
  }

  // ---------- counting ----------

  function Count<T(==)>(s: seq<T>, x: T): nat
  {
    if |s| == 0 then 0 else Count(s[..|s| - 1], x) + (if s[|s| - 1] == x then 1 else 0)
  }

  /** The distinct elements of `s` in order of first appearance (pandas `unique()`). */
  function Distinct<T(==)>(s: seq<T>): seq<T>
  {
    if |s| == 0 then [] else
      var d := Distinct(s[..|s| - 1]);
      if s[|s| - 1] in d then d else d + [s[|s| - 1]]
  }

  ghost predicate NoDuplicates<T>(s: seq<T>)
  {
    forall i, j :: 0 <= i < j < |s| ==> s[i] != s[j]
  }

  lemma {:induction false} NoDuplicatesMultiset<T>(s: seq<T>, x: T)
    requires NoDuplicates(s)
    ensures multiset(s)[x] <= 1
  {
    if |s| > 0 {
      var s' := s[..|s| - 1];
      assert s == s' + [s[|s| - 1]];
      assert NoDuplicates(s');
      NoDuplicatesMultiset(s', x);
      assert s[|s| - 1] !in s';
    }
  }

  /** A permutation of a list without repeats has none either. */
  lemma PermutationNoDuplicates<T>(a: seq<T>, b: seq<T>)
    requires NoDuplicates(a) && multiset(a) == multiset(b)
    ensures NoDuplicates(b)
  {
    forall i, j | 0 <= i < j < |b| ensures b[i] != b[j] {
      if b[i] == b[j] {
        assert b == b[..i] + [b[i]] + b[i + 1..j] + [b[j]] + b[j + 1..];
        assert multiset(b)[b[i]] >= 2;
        NoDuplicatesMultiset(a, b[i]);
        assert false;
      }
    }
  }

  /** The non-missing cells, in order (`dropna()`). */
  function NonNull(vs: seq<Value>): (r: seq<Value>)
    ensures |r| <= |vs|
    ensures forall v :: v in r <==> v in vs && v != Null
  {
    if |vs| == 0 then [] else NonNull(vs[..|vs| - 1]) + (if vs[|vs| - 1] != Null then [vs[|vs| - 1]] else [])
  }

  lemma {:induction false} CountBounds<T>(s: seq<T>, x: T)
    ensures Count(s, x) <= |s|
    ensures Count(s, x) > 0 <==> x in s
  {
    if |s| > 0 {
      CountBounds(s[..|s| - 1], x);
      assert s == s[..|s| - 1] + [s[|s| - 1]];
    }
  }

  lemma {:induction false} CountAppend<T>(a: seq<T>, b: seq<T>, x: T)
    ensures Count(a + b, x) == Count(a, x) + Count(b, x)
  {
    if |b| > 0 {
      assert (a + b)[..|a + b| - 1] == a + b[..|b| - 1];
      CountAppend(a, b[..|b| - 1], x);
    } else {
      assert a + b == a;
    }
  }

  /** `Distinct` keeps exactly the elements of `s`, each once. */
  lemma {:induction false} DistinctProps<T>(s: seq<T>)
    ensures forall x :: x in Distinct(s) <==> x in s
    ensures NoDuplicates(Distinct(s))
    ensures |Distinct(s)| <= |s|
  {
    if |s| > 0 {
      DistinctProps(s[..|s| - 1]);
      assert s == s[..|s| - 1] + [s[|s| - 1]];
    }
  }

  lemma DistinctElement<T>(s: seq<T>, i: nat)
    requires i < |Distinct(s)|
    ensures Distinct(s)[i] in s
  {
    DistinctProps(s);
  }

  /** Σ over `d` of the number of occurrences in `s`. */
  function CountsOver<T(==)>(d: seq<T>, s: seq<T>): nat
  {
    if |d| == 0 then 0 else CountsOver(d[..|d| - 1], s) + Count(s, d[|d| - 1])
  }

  lemma {:induction false} CountsOverSnoc<T>(d: seq<T>, s: seq<T>, x: T)
    requires NoDuplicates(d)
    ensures CountsOver(d, s + [x]) == CountsOver(d, s) + (if x in d then 1 else 0)
  {
    if |d| > 0 {
      var d' := d[..|d| - 1];
      assert NoDuplicates(d');
      CountsOverSnoc(d', s, x);
      assert (s + [x])[..|s + [x]| - 1] == s;
      assert d == d' + [d[|d| - 1]];
      assert x in d <==> x in d' || x == d[|d| - 1];
      assert x in d' ==> x != d[|d| - 1];
    }
  }

  /** Every element of `s` lies in exactly one class of a duplicate-free cover
      `d`, so the class sizes add up to |s|. */
  lemma {:induction false} CountsOverCover<T>(d: seq<T>, s: seq<T>)
    requires NoDuplicates(d)
    requires forall x :: x in s ==> x in d
    ensures CountsOver(d, s) == |s|
  {
    if |s| == 0 {
      CountsOverEmpty(d, s);
    } else {
      var s' := s[..|s| - 1];
      assert s == s' + [s[|s| - 1]];
      CountsOverCover(d, s');
      CountsOverSnoc(d, s', s[|s| - 1]);
    }
  }

  lemma {:induction false} CountsOverEmpty<T>(d: seq<T>, s: seq<T>)
    requires |s| == 0
    ensures CountsOver(d, s) == 0
  {
    if |d| > 0 { CountsOverEmpty(d[..|d| - 1], s); }
  }

  // ---------- sums and means over reals ----------

  function Sum(s: seq<real>): real
  {
    if |s| == 0 then 0.0 else Sum(s[..|s| - 1]) + s[|s| - 1]
  }

  function Mean(s: seq<real>): real
    requires |s| > 0
  {
    Sum(s) / |s| as real
  }

  lemma {:induction false} SumAppend(a: seq<real>, b: seq<real>)
    ensures Sum(a + b) == Sum(a) + Sum(b)
  {
    if |b| > 0 {
      assert (a + b)[..|a + b| - 1] == a + b[..|b| - 1];
      SumAppend(a, b[..|b| - 1]);
    } else {
      assert a + b == a;
    }
  }

  lemma {:induction false} SumNonNegative(s: seq<real>)
    requires forall i :: 0 <= i < |s| ==> s[i] >= 0.0
    ensures Sum(s) >= 0.0
  {
    if |s| > 0 { SumNonNegative(s[..|s| - 1]); }
  }

  lemma DivAdd(a: real, b: real, n: real)
    requires n != 0.0
    ensures a / n + b / n == (a + b) / n
  {
  }

  lemma DivPositive(a: real, n: real)
    requires a > 0.0 && n > 0.0
    ensures a / n > 0.0
  {
  }

  lemma DivAtMostOne(a: real, n: real)
    requires 0.0 < a <= n
    ensures 0.0 < a / n <= 1.0
  {
    assert a / n * n == a;
  }

  lemma MulNonPositive(a: real, b: real)
    requires a > 0.0 && b <= 0.0
    ensures a * b <= 0.0
  {
  }

  lemma DivSelf(n: real)
    requires n != 0.0
    ensures n / n == 1.0
  {
  }

  /** The cells of a column as numbers, when every one of them is a number. */
  function RealColumn(rows: seq<Row>, c: string): (r: Option<seq<real>>)
    ensures r.Some? <==> forall i :: 0 <= i < |rows| ==> Get(rows[i], c).Num?
    ensures r.Some? ==> |r.value| == |rows| && forall i :: 0 <= i < |rows| ==> r.value[i] == Get(rows[i], c).r
  {
    if |rows| == 0 then Some([])
    else
      var prefix := RealColumn(rows[..|rows| - 1], c);
      var last := Get(rows[|rows| - 1], c);
      if prefix.Some? && last.Num? then Some(prefix.value + [last.r]) else None
  }

  // ---------- column kinds ----------

  /** pandas infers a numeric dtype for a column read from a non-empty table
      when every cell is a number or missing; otherwise the column is object. */
  predicate IsNumericColumn(t: Table, c: string)
  {
    |t.rows| > 0 && forall i :: 0 <= i < |t.rows| ==> Get(t.rows[i], c).Num? || Get(t.rows[i], c).Null?
  }

  /** `df.select_dtypes(include=[np.number]).columns`, in column order. */
  function NumericColumns(t: Table): (r: seq<string>)
    ensures forall c :: c in r <==> c in t.columns && IsNumericColumn(t, c)
  {
    Filter(t.columns, c => IsNumericColumn(t, c))
  }

  function Filter<T(!new)>(s: seq<T>, p: T -> bool): (r: seq<T>)
    ensures |r| <= |s|
    ensures forall x :: x in r <==> x in s && p(x)
  {
    if |s| == 0 then [] else Filter(s[..|s| - 1], p) + (if p(s[|s| - 1]) then [s[|s| - 1]] else [])
  }

  /** Filtering by a predicate and by its negation splits the list. */
  lemma {:induction false} FilterPartition<T(!new)>(s: seq<T>, p: T -> bool, q: T -> bool)
    requires forall i :: 0 <= i < |s| ==> (q(s[i]) <==> !p(s[i]))
    ensures multiset(Filter(s, p)) + multiset(Filter(s, q)) == multiset(s)
  {
    if |s| > 0 {
      var init := s[..|s| - 1];
      assert forall i :: 0 <= i < |init| ==> init[i] == s[i];
      FilterPartition(init, p, q);
      FilterPartitionStep(s, p, q);
    }
  }

  lemma FilterPartitionStep<T(!new)>(s: seq<T>, p: T -> bool, q: T -> bool)
    requires |s| > 0 && (q(s[|s| - 1]) <==> !p(s[|s| - 1]))
    requires multiset(Filter(s[..|s| - 1], p)) + multiset(Filter(s[..|s| - 1], q)) == multiset(s[..|s| - 1])
    ensures multiset(Filter(s, p)) + multiset(Filter(s, q)) == multiset(s)
  {
    FilterSnoc(s, p);
    FilterSnoc(s, q);
    MultisetSnoc(s);
  }

  lemma FilterSnoc<T(!new)>(s: seq<T>, p: T -> bool)
    requires |s| > 0
    ensures multiset(Filter(s, p)) ==
              multiset(Filter(s[..|s| - 1], p)) + if p(s[|s| - 1]) then multiset{s[|s| - 1]} else multiset{}
  {
  }

  lemma MultisetSnoc<T>(s: seq<T>)
    requires |s| > 0
    ensures multiset(s) == multiset(s[..|s| - 1]) + multiset{s[|s| - 1]}
  {
    assert s == s[..|s| - 1] + [s[|s| - 1]];
  }

  /** A prefix one longer is the prefix and the next element. */
  lemma PrefixSnoc<T>(s: seq<T>, i: nat)
    requires i < |s|
    ensures s[..i + 1] == s[..i] + [s[i]]
  {
  }

  /** Every element of the list except `x`, order kept (`[c for c in s if c != x]`). */
  function Without<T(==,!new)>(s: seq<T>, x: T): (r: seq<T>)
    ensures forall y :: y in r <==> y in s && y != x
  {
    Filter(s, y => y != x)
  }

  lemma WithoutSnoc<T(!new)>(s: seq<T>, y: T, x: T)
    ensures Without(s + [y], x) == Without(s, x) + (if y != x then [y] else [])
  {
    assert (s + [y])[..|s|] == s;
  }

  // ---------- collecting optional results ----------

  /** `f` applied to every key in order, None as soon as one result is missing. */
  function CollectAll<K, V>(f: K -> Option<V>, ks: seq<K>): (r: Option<seq<V>>)
    ensures r.Some? ==> |r.value| == |ks|
  {
    if |ks| == 0 then Some([])
    else
      var prefix := CollectAll(f, ks[..|ks| - 1]);
      var last := f(ks[|ks| - 1]);
      if prefix.Some? && last.Some? then Some(prefix.value + [last.value]) else None
  }

  lemma {:induction false} CollectAllExists<K, V>(f: K -> Option<V>, ks: seq<K>)
    ensures CollectAll(f, ks).Some? <==> forall j :: 0 <= j < |ks| ==> f(ks[j]).Some?
  {
    if |ks| > 0 {
      var ks' := ks[..|ks| - 1];
      CollectAllExists(f, ks');
      assert forall j :: 0 <= j < |ks'| ==> ks'[j] == ks[j];
    }
  }

  lemma {:induction false} CollectAllAt<K, V>(f: K -> Option<V>, ks: seq<K>)
    requires CollectAll(f, ks).Some?
    ensures forall j :: 0 <= j < |ks| ==> f(ks[j]) == Some(CollectAll(f, ks).value[j])
  {
    if |ks| > 0 {
      var ks' := ks[..|ks| - 1];
      CollectAllAt(f, ks');
      assert forall j :: 0 <= j < |ks'| ==> ks'[j] == ks[j];
    }
  }

  /** One more key extends the collection by its result. */
  lemma CollectAllSnoc<K, V>(f: K -> Option<V>, ks: seq<K>, i: nat, prefix: Option<seq<V>>, last: Option<V>)
    requires i < |ks| && prefix == CollectAll(f, ks[..i]) && last == f(ks[i])
    ensures CollectAll(f, ks[..i + 1]) ==
              if prefix.Some? && last.Some? then Some(prefix.value + [last.value]) else None
  {
    assert ks[..i + 1][..i] == ks[..i];
  }

  /** A missing result in a prefix makes the whole collection missing. */
  lemma {:induction false} CollectAllPrefixNone<K, V>(f: K -> Option<V>, ks: seq<K>, n: nat)
    requires n <= |ks| && CollectAll(f, ks[..n]).None?
    ensures CollectAll(f, ks).None?
    decreases |ks| - n
  {
    if n < |ks| {
      CollectAllSnoc(f, ks, n, CollectAll(f, ks[..n]), f(ks[n]));
      CollectAllPrefixNone(f, ks, n + 1);
    } else {
      assert ks[..n] == ks;
    }
  }

  /** A key whose result is missing when the collection fails. */
  function FirstNone<K, V>(f: K -> Option<V>, ks: seq<K>): (i: nat)
    requires CollectAll(f, ks).None?
    ensures i < |ks| && f(ks[i]).None?
  {
    var prefix := CollectAll(f, ks[..|ks| - 1]);
    if prefix.None? then
      var i := FirstNone(f, ks[..|ks| - 1]);
      assert ks[..|ks| - 1][i] == ks[i];
      i
    else |ks| - 1
  }

  // ---------- first maximum ----------

  /** Index of the first element with maximal key: what Python's `max` over a
      list (or a dict's keys, with `key=`) returns, the earliest of several
      equal maxima. */
  function FirstMax<T>(s: seq<T>, key: T -> real): (m: nat)
    requires |s| > 0
    ensures m < |s|
    ensures forall j :: 0 <= j < |s| ==> key(s[j]) <= key(s[m])
    ensures forall j :: 0 <= j < m ==> key(s[j]) < key(s[m])
  {
    if |s| == 1 then 0
    else
      var m' := FirstMax(s[..|s| - 1], key);
      if key(s[|s| - 1]) > key(s[m']) then |s| - 1 else m'
  }

  // ---------- stable descending sort ----------

  /** Insert `x` after every element whose key is at least its key. */
  function InsertDesc<T>(r: seq<T>, x: T, key: T -> real): (out: seq<T>)
    ensures multiset(out) == multiset(r) + multiset{x}
    ensures |out| == |r| + 1
  {
    if |r| == 0 then [x]
    else if key(r[0]) < key(x) then [x] + r
    else
      assert r == [r[0]] + r[1..];
      [r[0]] + InsertDesc(r[1..], x, key)
  }

  /** Python's `sorted(s, key=key, reverse=True)`: descending and stable. */
  function SortDesc<T>(s: seq<T>, key: T -> real): (out: seq<T>)
    ensures multiset(out) == multiset(s)
    ensures |out| == |s|
  {
    if |s| == 0 then []
    else
      assert s == s[..|s| - 1] + [s[|s| - 1]];
      InsertDesc(SortDesc(s[..|s| - 1], key), s[|s| - 1], key)
  }

  ghost predicate SortedDesc<T>(s: seq<T>, key: T -> real)
  {
    forall i, j :: 0 <= i < j < |s| ==> key(s[i]) >= key(s[j])
  }

  lemma {:induction false} InsertDescSorted<T>(r: seq<T>, x: T, key: T -> real)
    requires SortedDesc(r, key)
    ensures SortedDesc(InsertDesc(r, x, key), key)
  {
    if |r| > 0 && key(r[0]) >= key(x) {
      InsertDescSorted(r[1..], x, key);
      var tail := InsertDesc(r[1..], x, key);
      forall y | y in tail ensures key(r[0]) >= key(y) {
        assert y in multiset(tail);
        assert y in multiset(r[1..]) || y == x;
      }
    }
  }

  /** The sorted list is descending in the key and a permutation of the input. */
  lemma {:induction false} SortDescSorted<T>(s: seq<T>, key: T -> real)
    ensures SortedDesc(SortDesc(s, key), key)
    ensures multiset(SortDesc(s, key)) == multiset(s)
  {
    if |s| > 0 {
      SortDescSorted(s[..|s| - 1], key);
      InsertDescSorted(SortDesc(s[..|s| - 1], key), s[|s| - 1], key);
    }
  }

  /** Stability: when `rank` increases along the input, equal keys keep that
      order in the output. */
  ghost predicate StableOrder<T>(s: seq<T>, key: T -> real, rank: T -> int)
  {
    forall i, j :: 0 <= i < j < |s| ==> key(s[i]) > key(s[j]) || (key(s[i]) == key(s[j]) && rank(s[i]) < rank(s[j]))
  }

  ghost predicate RankIncreasing<T>(s: seq<T>, rank: T -> int)
  {
    forall i, j :: 0 <= i < j < |s| ==> rank(s[i]) < rank(s[j])
  }

  lemma {:induction false} InsertDescStable<T>(r: seq<T>, x: T, key: T -> real, rank: T -> int)
    requires StableOrder(r, key, rank)
    requires forall y :: y in r ==> rank(y) < rank(x)
    ensures StableOrder(InsertDesc(r, x, key), key, rank)
  {
    if |r| > 0 && key(r[0]) >= key(x) {
      InsertDescStable(r[1..], x, key, rank);
      var tail := InsertDesc(r[1..], x, key);
      forall y | y in tail
        ensures key(r[0]) > key(y) || (key(r[0]) == key(y) && rank(r[0]) < rank(y))
      {
        assert y in multiset(tail);
        assert y in multiset(r[1..]) || y == x;
      }
    }
  }

  lemma {:induction false} SortDescStable<T>(s: seq<T>, key: T -> real, rank: T -> int)
    requires RankIncreasing(s, rank)
    ensures StableOrder(SortDesc(s, key), key, rank)
  {
    if |s| > 0 {
      var s' := s[..|s| - 1];
      assert RankIncreasing(s', rank);
      SortDescStable(s', key, rank);
      forall y | y in SortDesc(s', key) ensures rank(y) < rank(s[|s| - 1]) {
        assert y in multiset(SortDesc(s', key));
        assert y in multiset(s');
      }
      InsertDescStable(SortDesc(s', key), s[|s| - 1], key, rank);
    }
  }

  /** The head of the stable descending sort is the input's first maximum. */
  lemma {:induction false} SortDescHead<T>(s: seq<T>, key: T -> real)
    requires |s| > 0
    ensures SortDesc(s, key)[0] == s[FirstMax(s, key)]
  {
    if |s| > 1 {
      var s' := s[..|s| - 1];
      SortDescHead(s', key);
    }
  }
}
