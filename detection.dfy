/** The column auto-detection searches the engines share: a priority list of
    names matched case-insensitively as substrings of the column names
    (naive_bayes.py, algorithm_comparison.py), and a priority list of names
    matched exactly (linear_regression.py, svr.py, knn_regression.py,
    knn_classification.py). */
module Detection {
  import opened Common
  import opened Strings

  /** `candidate.lower() in col.lower()`. */
  predicate NameMatches(candidate: string, col: string)
  {
    IsSubstring(Lower(candidate), Lower(col))
  }

  /** The first column, in column order, that `candidate` matches. */
  function FirstMatchIn(candidate: string, cols: seq<string>): (r: Option<string>)
    ensures r.Some? ==> r.value in cols && NameMatches(candidate, r.value)
    ensures r.None? <==> forall c :: c in cols ==> !NameMatches(candidate, c)
  {
    if |cols| == 0 then None
    else if NameMatches(candidate, cols[0]) then Some(cols[0])
    else FirstMatchIn(candidate, cols[1..])
  }

  /** `FirstMatchIn` picks the earliest matching column. */
  lemma {:induction false} FirstMatchInIsFirst(candidate: string, cols: seq<string>, j: nat)
    requires j < |cols| && NameMatches(candidate, cols[j])
    requires forall k :: 0 <= k < j ==> !NameMatches(candidate, cols[k])
    ensures FirstMatchIn(candidate, cols) == Some(cols[j])
  {
    if j > 0 {
      assert !NameMatches(candidate, cols[0]);
      FirstMatchInIsFirst(candidate, cols[1..], j - 1);
    }
  }

  /** The outer loop over the priority names: the first name that matches some
      column decides, and its first matching column is the answer. */
  function PriorityMatch(names: seq<string>, cols: seq<string>): (r: Option<string>)
    ensures r.Some? ==> r.value in cols
    ensures r.None? <==> forall n, c :: n in names && c in cols ==> !NameMatches(n, c)
  {
    if |names| == 0 then None
    else match FirstMatchIn(names[0], cols)
      case Some(c) => Some(c)
      case None => PriorityMatch(names[1..], cols)
  }

  /** The earliest name with a match decides, whatever later names match. */
  lemma {:induction false} PriorityMatchIsFirst(names: seq<string>, cols: seq<string>, i: nat)
    requires i < |names| && FirstMatchIn(names[i], cols).Some?
    requires forall k :: 0 <= k < i ==> FirstMatchIn(names[k], cols).None?
    ensures PriorityMatch(names, cols) == FirstMatchIn(names[i], cols)
  {
    if i > 0 {
      assert FirstMatchIn(names[0], cols).None?;
      assert names[1..][i - 1] == names[i];
      PriorityMatchIsFirst(names[1..], cols, i - 1);
    }
  }

  /** The nested `for candidate … for col … break` search. */
  method SearchPriorityMatch(names: seq<string>, cols: seq<string>) returns (found: Option<string>)
    ensures found == PriorityMatch(names, cols)
  {
    found := None;
    var i := 0;
    while i < |names|
      invariant 0 <= i <= |names|
      invariant PriorityMatch(names, cols) == PriorityMatch(names[i..], cols)
      invariant found == None
    {
      var j := 0;
      while j < |cols|
        invariant 0 <= j <= |cols|
        invariant FirstMatchIn(names[i], cols) == FirstMatchIn(names[i], cols[j..])
        invariant found == None
      {
        if NameMatches(names[i], cols[j]) {
          found := Some(cols[j]);
          break;
        }
        assert cols[j..][1..] == cols[j + 1..];
        j := j + 1;
      }
      assert found == FirstMatchIn(names[i], cols);
      assert names[i..][0] == names[i];
      if found.Some? {
        return;
      }
      assert names[i..][1..] == names[i + 1..];
      i := i + 1;
    }
  }

  /** The first name of the priority list that is exactly a column name. */
  function FirstPresent(names: seq<string>, cols: seq<string>): (r: Option<string>)
    ensures r.Some? ==> r.value in cols && r.value in names
    ensures r.None? <==> forall n :: n in names ==> n !in cols
  {
    if |names| == 0 then None
    else if names[0] in cols then Some(names[0])
    else FirstPresent(names[1..], cols)
  }

  lemma {:induction false} FirstPresentIsFirst(names: seq<string>, cols: seq<string>, i: nat)
    requires i < |names| && names[i] in cols
    requires forall k :: 0 <= k < i ==> names[k] !in cols
    ensures FirstPresent(names, cols) == Some(names[i])
  {
    if i > 0 {
      assert names[0] !in cols;
      FirstPresentIsFirst(names[1..], cols, i - 1);
    }
  }

  /** `for col in possible: if col in df.columns: found = col; break`. */
  method SearchFirstPresent(names: seq<string>, cols: seq<string>) returns (found: Option<string>)
    ensures found == FirstPresent(names, cols)
  {
    var i := 0;
    while i < |names|
      invariant 0 <= i <= |names|
      invariant FirstPresent(names, cols) == FirstPresent(names[i..], cols)
    {
      if names[i] in cols {
        return Some(names[i]);
      }
      assert names[i..][1..] == names[i + 1..];
      i := i + 1;
    }
    return None;
  }

  /** A string parameter counts as given when it is present and non-empty
      (Python's truthiness of `params.get(...)`). */
  predicate Given(o: Option<string>)
  {
    o.Some? && o.value != ""
  }

  /** A list parameter counts as given when it is present and non-empty. */
  predicate GivenList<T>(o: Option<seq<T>>)
  {
    o.Some? && |o.value| > 0
  }
}
