/** `Array.prototype.filter` and the "replace the matching entries" form of
    `Array.prototype.map` that the handlers use on their lists, with the facts about
    them that the rest of the model leans on. */
module Seqs {

  /** `s.filter(keep)` */
  function Filter<T(==)>(s: seq<T>, keep: T -> bool): (r: seq<T>)
    ensures |r| <= |s|
    ensures forall i :: 0 <= i < |r| ==> r[i] in s && keep(r[i])
    ensures forall i :: 0 <= i < |s| && keep(s[i]) ==> s[i] in r
  {
    if s == [] then [] else (if keep(s[0]) then [s[0]] else []) + Filter(s[1..], keep)
  }

  /** `s.findIndex(matches)`: the first index whose entry matches, or -1 when none does. */
  function FindIndex<T>(s: seq<T>, matches: T -> bool): (r: int)
    ensures -1 <= r < |s|
    ensures r >= 0 ==> matches(s[r]) && forall i :: 0 <= i < r ==> !matches(s[i])
    ensures r == -1 ==> forall i :: 0 <= i < |s| ==> !matches(s[i])
  {
    if s == [] then -1
    else if matches(s[0]) then 0
    else
      var k := FindIndex(s[1..], matches);
      if k < 0 then -1 else k + 1
  }

  /** An entry survives the filter exactly when it is in the list and passes the test. */
  lemma FilterMembers<T>(s: seq<T>, keep: T -> bool, x: T)
    ensures x in Filter(s, keep) <==> x in s && keep(x)
  {
    var r := Filter(s, keep);
    if x in r {
      var i :| 0 <= i < |r| && r[i] == x;
    }
    if x in s && keep(x) {
      var i :| 0 <= i < |s| && s[i] == x;
    }
  }

  /** `r` is `s` with some entries left out and the rest in their original order. */
  predicate Subsequence<T(==)>(r: seq<T>, s: seq<T>) {
    if r == [] then true
    else if s == [] then false
    else if r[0] == s[0] then Subsequence(r[1..], s[1..])
    else Subsequence(r, s[1..])
  }

  /** Filtering keeps the surviving entries in their original order. */
  lemma {:induction false} FilterIsSubsequence<T>(s: seq<T>, keep: T -> bool)
    ensures Subsequence(Filter(s, keep), s)
  {
    if s != [] {
      FilterIsSubsequence(s[1..], keep);
      if keep(s[0]) {
        assert Filter(s, keep) == [s[0]] + Filter(s[1..], keep);
        assert (Filter(s, keep))[1..] == Filter(s[1..], keep);
      } else {
        assert Filter(s, keep) == Filter(s[1..], keep);
        SubsequenceSkip(Filter(s[1..], keep), s);
      }
    }
  }

  /** A subsequence of the tail is a subsequence of the whole. */
  lemma {:induction false} SubsequenceSkip<T>(r: seq<T>, s: seq<T>)
    requires s != [] && Subsequence(r, s[1..])
    ensures Subsequence(r, s)
    decreases |s|, 0
  {
    if r != [] && r[0] == s[0] {
      var t := s[1..];
      assert t != [];
      if r[0] == t[0] {
        SubsequenceSkip(r[1..], t);
      } else {
        SubsequenceDropHead(r, t[1..]);
        assert Subsequence(r[1..], t[1..]);
        SubsequenceSkip(r[1..], t);
      }
    }
  }

  /** Leaving out the first entry of a subsequence gives a subsequence. */
  lemma {:induction false} SubsequenceDropHead<T>(r: seq<T>, s: seq<T>)
    requires r != [] && Subsequence(r, s)
    ensures Subsequence(r[1..], s)
    decreases |s|, 1
  {
    if r[0] == s[0] {
      SubsequenceSkip(r[1..], s);
    } else {
      SubsequenceDropHead(r, s[1..]);
      SubsequenceSkip(r[1..], s);
    }
  }

  /** When every entry is kept, filtering changes nothing. */
  lemma {:induction false} FilterKeepsAll<T>(s: seq<T>, keep: T -> bool)
    requires forall i :: 0 <= i < |s| ==> keep(s[i])
    ensures Filter(s, keep) == s
  {
    if s != [] {
      FilterKeepsAll(s[1..], keep);
    }
  }

  /** Filtering a concatenation filters each part. */
  lemma {:induction false} FilterAppend<T>(a: seq<T>, b: seq<T>, keep: T -> bool)
    ensures Filter(a + b, keep) == Filter(a, keep) + Filter(b, keep)
  {
    if a != [] {
      var ab := a + b;
      assert ab[0] == a[0] && ab[1..] == a[1..] + b;
      FilterAppend(a[1..], b, keep);
      calc {
        Filter(ab, keep);
        (if keep(a[0]) then [a[0]] else []) + Filter(a[1..] + b, keep);
        (if keep(a[0]) then [a[0]] else []) + (Filter(a[1..], keep) + Filter(b, keep));
        ((if keep(a[0]) then [a[0]] else []) + Filter(a[1..], keep)) + Filter(b, keep);
      }
    } else {
      assert a + b == b;
    }
  }

  /** When exactly the entry at `j` fails the test, filtering removes just that entry. */
  lemma {:induction false} FilterDropsOne<T>(s: seq<T>, keep: T -> bool, j: int)
    requires 0 <= j < |s| && !keep(s[j])
    requires forall i :: 0 <= i < |s| && i != j ==> keep(s[i])
    ensures Filter(s, keep) == s[..j] + s[j + 1..]
  {
    var before, after := s[..j], s[j + 1..];
    assert s == before + ([s[j]] + after);
    assert forall i :: 0 <= i < |before| ==> before[i] == s[i];
    FilterKeepsAll(before, keep);
    assert forall i :: 0 <= i < |after| ==> after[i] == s[j + 1 + i];
    FilterKeepsAll(after, keep);
    calc {
      Filter(s, keep);
      { FilterAppend(before, [s[j]] + after, keep); }
      Filter(before, keep) + Filter([s[j]] + after, keep);
      { FilterAppend([s[j]], after, keep); }
      before + (Filter([s[j]], keep) + after);
      { assert Filter([s[j]], keep) == []; assert [] + after == after; }
      before + after;
    }
  }

  /** `s.map(x => matches(x) ? f(x) : x)` */
  function UpdateWhere<T>(s: seq<T>, matches: T -> bool, f: T -> T): (r: seq<T>)
    ensures |r| == |s|
    ensures forall i :: 0 <= i < |s| ==> r[i] == if matches(s[i]) then f(s[i]) else s[i]
  {
    if s == [] then [] else [if matches(s[0]) then f(s[0]) else s[0]] + UpdateWhere(s[1..], matches, f)
  }

  /** When nothing matches, the update leaves the list as it was. */
  lemma UpdateNothing<T>(s: seq<T>, matches: T -> bool, f: T -> T)
    requires forall i :: 0 <= i < |s| ==> !matches(s[i])
    ensures UpdateWhere(s, matches, f) == s
  {
  }
}
