/** The ID3 page's choice of target and features from the dataset's columns,
    made in the browser before it calls the backend. */
module Id3Page {
  import opened Common
  import opened Strings

  /** The names, lower-cased, that the page prefers as the target. */
  const Priority: seq<string> := ["target", "label", "class", "y", "output", "play", "result", "category"]

  /** `columns.find(c => pri.includes(c.toLowerCase()))`: the first column, in
      column order, whose lower-cased name is in `pri`. */
  function FindPreferred(cols: seq<string>, pri: seq<string>): (r: Option<string>)
    ensures r.Some? ==> r.value in cols && Lower(r.value) in pri
    ensures r.None? <==> forall c :: c in cols ==> Lower(c) !in pri
  {
    if |cols| == 0 then None
    else if Lower(cols[0]) in pri then Some(cols[0])
    else FindPreferred(cols[1..], pri)
  }

  /** The earliest preferred column is found, whatever comes after it. */
  lemma {:induction false} FindPreferredIsFirst(cols: seq<string>, pri: seq<string>, i: nat)
    requires i < |cols| && Lower(cols[i]) in pri
    requires forall k :: 0 <= k < i ==> Lower(cols[k]) !in pri
    ensures FindPreferred(cols, pri) == Some(cols[i])
  {
    if i > 0 {
      assert Lower(cols[0]) !in pri;
      FindPreferredIsFirst(cols[1..], pri, i - 1);
    }
  }

  /** Only which names are preferred matters, not the order they are listed in. */
  lemma {:induction false} FindPreferredOrderFree(cols: seq<string>, p: seq<string>, q: seq<string>)
    requires forall n :: n in p <==> n in q
    ensures FindPreferred(cols, p) == FindPreferred(cols, q)
  {
    if |cols| > 0 {
      FindPreferredOrderFree(cols[1..], p, q);
    }
  }

  /** `pickTarget`: null for an empty list or a value that is not a list
      (`None` here); else the preferred column, or the last one. */
  function PickTarget(columns: Option<seq<string>>): (r: Option<string>)
    ensures r.None? <==> columns.None? || |columns.value| == 0
    ensures r.Some? ==> r.value in columns.value
    ensures r.Some? && FindPreferred(columns.value, Priority).None? ==> r.value == columns.value[|columns.value| - 1]
  {
    match columns
    case None => None
    case Some(cols) =>
      if |cols| == 0 then None
      else match FindPreferred(cols, Priority)
        case Some(c) => Some(c)
        case None => Some(cols[|cols| - 1])
  }

  /** The picked target is the first column whose lower-cased name is
      preferred, when there is one. */
  lemma PickTargetPrefersFirst(cols: seq<string>, i: nat)
    requires i < |cols| && Lower(cols[i]) in Priority
    requires forall k :: 0 <= k < i ==> Lower(cols[k]) !in Priority
    ensures PickTarget(Some(cols)) == Some(cols[i])
  {
    FindPreferredIsFirst(cols, Priority, i);
  }

  /** With no preferred name among the columns the target is the last column. */
  lemma PickTargetFallsBack(cols: seq<string>)
    requires |cols| > 0 && forall k :: 0 <= k < |cols| ==> Lower(cols[k]) !in Priority
    ensures PickTarget(Some(cols)) == Some(cols[|cols| - 1])
  {
  }

  /** What the page stores once the columns change: the target, and every
      other column, in order, as a feature. */
  datatype Choice = Choice(target: Option<string>, features: seq<string>)

  function Choose(columns: seq<string>): (r: Choice)
    ensures r.target == PickTarget(Some(columns))
    ensures r.target.None? ==> r.features == []
    ensures r.target.Some? ==> forall c :: c in r.features <==> c in columns && c != r.target.value
  {
    if |columns| == 0 then Choice(None, [])
    else
      var t := PickTarget(Some(columns));
      Choice(t, Without(columns, t.value))
  }

  /** Filtering out x drops exactly its occurrences. */
  lemma {:induction false} WithoutCount(s: seq<string>, x: string)
    ensures |Without(s, x)| + Count(s, x) == |s|
  {
    if |s| > 0 {
      var init := s[..|s| - 1];
      WithoutCount(init, x);
      WithoutSnoc(init, s[|s| - 1], x);
      assert s == init + [s[|s| - 1]];
    }
  }

  lemma ChooseCounts(columns: seq<string>)
    requires |columns| > 0
    ensures |Choose(columns).features| + Count(columns, Choose(columns).target.value) == |columns|
  {
    WithoutCount(columns, Choose(columns).target.value);
  }
}
