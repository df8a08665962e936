/** String operations the engines use on column names and labels: lower-casing,
    substring search, whitespace stripping and Python's ordering of strings. */
module Strings {
  import opened Common

  /** Lower-cases the ASCII letters `A`..`Z` and leaves every other character. */
  function LowerChar(ch: char): (r: char)
    ensures 'A' <= ch <= 'Z' ==> r as int == ch as int + 32
    ensures !('A' <= ch <= 'Z') ==> r == ch
  {
    if 'A' <= ch <= 'Z' then (ch as int + 32) as char else ch
  }

  function Lower(s: string): (r: string)
    ensures |r| == |s|
    ensures forall i :: 0 <= i < |s| ==> r[i] == LowerChar(s[i])
  {
    if |s| == 0 then "" else Lower(s[..|s| - 1]) + [LowerChar(s[|s| - 1])]
  }

  predicate IsPrefix(p: string, s: string)
  {
    |p| <= |s| && s[..|p|] == p
  }

  /** Python's `p in s` for strings. */
  predicate IsSubstring(p: string, s: string)
    decreases |s|
  {
    IsPrefix(p, s) || (|s| > 0 && IsSubstring(p, s[1..]))
  }

  predicate OccursAt(p: string, s: string, i: int)
  {
    0 <= i <= |s| - |p| && s[i..i + |p|] == p
  }

  /** `IsSubstring` holds exactly when `p` occurs at some offset of `s`. */
  lemma {:induction false} IsSubstringAt(p: string, s: string)
    ensures IsSubstring(p, s) <==> exists i :: OccursAt(p, s, i)
    decreases |s|
  {
    if |s| > 0 {
      IsSubstringAt(p, s[1..]);
      if IsSubstring(p, s[1..]) {
        var i :| OccursAt(p, s[1..], i);
        assert s[i + 1..i + 1 + |p|] == s[1..][i..i + |p|];
        assert OccursAt(p, s, i + 1);
      }
      if IsPrefix(p, s) {
        assert OccursAt(p, s, 0);
      }
      if i :| OccursAt(p, s, i) {
        if i > 0 {
          assert s[1..][i - 1..i - 1 + |p|] == s[i..i + |p|];
          assert OccursAt(p, s[1..], i - 1);
        } else {
          assert IsPrefix(p, s);
        }
      }
    } else {
      if i :| OccursAt(p, s, i) {
        assert IsPrefix(p, s);
      }
      if IsPrefix(p, s) {
        assert OccursAt(p, s, 0);
      }
    }
  }

  predicate IsSpace(ch: char)
  {
    ch == ' ' || ch == '\t' || ch == '\n' || ch == '\r' || ch == '\U{B}' || ch == '\U{C}'
  }

  /** `str.strip()`: drops leading and trailing whitespace. */
  function Strip(s: string): (r: string)
    ensures |r| <= |s|
    ensures |r| > 0 ==> !IsSpace(r[0]) && !IsSpace(r[|r| - 1])
    ensures (|s| == 0 || (!IsSpace(s[0]) && !IsSpace(s[|s| - 1]))) ==> r == s
    decreases |s|
  {
    if |s| > 0 && IsSpace(s[0]) then Strip(s[1..])
    else if |s| > 0 && IsSpace(s[|s| - 1]) then Strip(s[..|s| - 1])
    else s
  }

  // ---------- Python's ordering of strings (by code point) ----------

  predicate Less(a: string, b: string)
  {
    if |a| == 0 then |b| > 0
    else if |b| == 0 then false
    else a[0] < b[0] || (a[0] == b[0] && Less(a[1..], b[1..]))
  }

  predicate LessEq(a: string, b: string)
  {
    a == b || Less(a, b)
  }

  lemma {:induction false} LessIrreflexive(a: string)
    ensures !Less(a, a)
  {
    if |a| > 0 { LessIrreflexive(a[1..]); }
  }

  lemma {:induction false} LessTransitive(a: string, b: string, c: string)
    requires Less(a, b) && Less(b, c)
    ensures Less(a, c)
  {
    if |a| > 0 && |b| > 0 && |c| > 0 && a[0] == b[0] && b[0] == c[0] {
      LessTransitive(a[1..], b[1..], c[1..]);
    }
  }

  lemma {:induction false} LessTotal(a: string, b: string)
    ensures a == b || Less(a, b) || Less(b, a)
  {
    if |a| > 0 && |b| > 0 && a[0] == b[0] {
      LessTotal(a[1..], b[1..]);
      if a[1..] == b[1..] {
        assert a == [a[0]] + a[1..] && b == [b[0]] + b[1..];
      }
    }
  }

  lemma LessEqTransitive(a: string, b: string, c: string)
    requires LessEq(a, b) && LessEq(b, c)
    ensures LessEq(a, c)
  {
    if Less(a, b) && Less(b, c) { LessTransitive(a, b, c); }
  }

  ghost predicate SortedAsc(s: seq<string>)
  {
    forall i, j :: 0 <= i < j < |s| ==> LessEq(s[i], s[j])
  }

  function InsertAsc(r: seq<string>, x: string): (out: seq<string>)
    ensures multiset(out) == multiset(r) + multiset{x}
    ensures |out| == |r| + 1
  {
    if |r| == 0 || LessEq(x, r[0]) then [x] + r
    else
      assert r == [r[0]] + r[1..];
      [r[0]] + InsertAsc(r[1..], x)
  }

  /** Python's `sorted` on a list of strings (insertion sort). */
  function Sort(s: seq<string>): (out: seq<string>)
    ensures multiset(out) == multiset(s)
    ensures |out| == |s|
  {
    if |s| == 0 then []
    else
      assert s == s[..|s| - 1] + [s[|s| - 1]];
      InsertAsc(Sort(s[..|s| - 1]), s[|s| - 1])
  }

  lemma {:induction false} InsertAscSorted(r: seq<string>, x: string)
    requires SortedAsc(r)
    ensures SortedAsc(InsertAsc(r, x))
  {
    if |r| == 0 {
    } else if LessEq(x, r[0]) {
      forall j | 0 < j < |r| ensures LessEq(x, r[j]) {
        LessEqTransitive(x, r[0], r[j]);
      }
    } else {
      LessTotal(x, r[0]);
      InsertAscSorted(r[1..], x);
      var tail := InsertAsc(r[1..], x);
      forall y | y in tail ensures LessEq(r[0], y) {
        assert y in multiset(tail);
        assert y in multiset(r[1..]) || y == x;
      }
    }
  }

  /** The result of `Sort` is ordered and a permutation of its input. */
  lemma {:induction false} SortSorted(s: seq<string>)
    ensures SortedAsc(Sort(s))
    ensures multiset(Sort(s)) == multiset(s)
  {
    if |s| > 0 {
      SortSorted(s[..|s| - 1]);
      InsertAscSorted(Sort(s[..|s| - 1]), s[|s| - 1]);
    }
  }

  /** `np.unique` on strings: the distinct values, sorted. */
  function Unique(s: seq<string>): (r: seq<string>)
    ensures |r| <= |s|
  {
    DistinctProps(s);
    Sort(Distinct(s))
  }

  /** The unique values are sorted, each listed once, and exactly the values
      of the input. */
  lemma UniqueProps(s: seq<string>)
    ensures SortedAsc(Unique(s)) && NoDuplicates(Unique(s))
    ensures forall c :: c in Unique(s) <==> c in s
  {
    var d := Distinct(s);
    DistinctProps(s);
    SortSorted(d);
    PermutationNoDuplicates(d, Sort(d));
    forall c ensures c in Sort(d) <==> c in d {
      assert c in Sort(d) <==> c in multiset(Sort(d));
      assert c in d <==> c in multiset(d);
    }
  }
}
