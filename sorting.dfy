/** The comparisons the admin tables sort by, and an insertion sort standing for
    `Array.prototype.sort` with a comparator. `before(a, b)` says that the comparator
    returns a negative number for `(a, b)`; the sort places each entry before the first
    entry it must precede. Which of several equally ranked entries comes first is not
    part of what the source promises, and the model does not claim the tie order of
    any particular JavaScript engine. */
module Sorting {

  /** The value a record yields for a sort column: a string, a number or undefined. */
  datatype Key = Undefined | Text(s: string) | Number(n: int)

  /** JavaScript `<` on strings: code unit by code unit, a proper prefix first. */
  predicate StrLess(a: string, b: string) {
    if a == [] then b != []
    else if b == [] then false
    else if a[0] != b[0] then a[0] < b[0]
    else StrLess(a[1..], b[1..])
  }

  /** JavaScript `<` on two column values. Undefined compares false with everything;
      a column never mixes strings and numbers, and such a pair also compares false. */
  predicate Less(a: Key, b: Key) {
    match (a, b)
    case (Text(x), Text(y)) => StrLess(x, y)
    case (Number(x), Number(y)) => x < y
    case _ => false
  }

  lemma {:induction false} StrLessIrreflexive(a: string)
    ensures !StrLess(a, a)
  {
    if a != [] {
      StrLessIrreflexive(a[1..]);
    }
  }

  lemma {:induction false} StrLessTransitive(a: string, b: string, c: string)
    requires StrLess(a, b) && StrLess(b, c)
    ensures StrLess(a, c)
  {
    if a != [] && b != [] && c != [] && a[0] == b[0] && b[0] == c[0] {
      StrLessTransitive(a[1..], b[1..], c[1..]);
    }
  }

  lemma {:induction false} StrLessTotal(a: string, b: string)
    ensures a == b || StrLess(a, b) || StrLess(b, a)
  {
    if a != [] && b != [] && a[0] == b[0] {
      StrLessTotal(a[1..], b[1..]);
      if a[1..] == b[1..] {
        assert a == [a[0]] + a[1..] && b == [b[0]] + b[1..];
      }
    }
  }

  lemma LessAsymmetric(a: Key, b: Key)
    ensures !(Less(a, b) && Less(b, a))
  {
    if a.Text? && b.Text? && Less(a, b) && Less(b, a) {
      StrLessTransitive(a.s, b.s, a.s);
      StrLessIrreflexive(a.s);
    }
  }

  lemma LessTransitive(a: Key, b: Key, c: Key)
    requires Less(a, b) && Less(b, c)
    ensures Less(a, c)
  {
    if a.Text? {
      StrLessTransitive(a.s, b.s, c.s);
    }
  }

  /** The keys are all strings or all numbers. */
  predicate SameKind(a: Key, b: Key) {
    (a.Text? && b.Text?) || (a.Number? && b.Number?)
  }

  lemma LessTotal(a: Key, b: Key)
    requires SameKind(a, b)
    ensures a == b || Less(a, b) || Less(b, a)
  {
    if a.Text? {
      StrLessTotal(a.s, b.s);
    }
  }

  // ---- the sort -------------------------------------------------------------------------

  function Insert<T>(x: T, s: seq<T>, before: (T, T) -> bool): (r: seq<T>)
    ensures multiset(r) == multiset(s) + multiset{x}
  {
    if s == [] then [x]
    else if before(x, s[0]) then [x] + s
    else
      assert s == [s[0]] + s[1..];
      [s[0]] + Insert(x, s[1..], before)
  }

  /** `s.sort(cmp)`, where `before(a, b)` means `cmp(a, b) < 0`. */
  function Sort<T>(s: seq<T>, before: (T, T) -> bool): (r: seq<T>)
    ensures multiset(r) == multiset(s)
  {
    if s == [] then []
    else
      assert s == [s[0]] + s[1..];
      Insert(s[0], Sort(s[1..], before), before)
  }

  /** No entry is placed after a different entry that the comparator puts before it. */
  ghost predicate Ordered<T>(s: seq<T>, before: (T, T) -> bool) {
    forall i, j :: 0 <= i < j < |s| && s[i] != s[j] ==> !before(s[j], s[i])
  }

  /** On the entries `elems`, the comparator is transitive, and it never puts two
      different entries each before the other. */
  ghost predicate Consistent<T>(elems: multiset<T>, before: (T, T) -> bool) {
    (forall a, b, c :: a in elems && b in elems && c in elems && before(a, b) && before(b, c)
       ==> before(a, c))
    && (forall a, b :: a in elems && b in elems && a != b && before(a, b) ==> !before(b, a))
  }

  lemma OrderedCons<T>(h: T, u: seq<T>, before: (T, T) -> bool)
    requires Ordered(u, before)
    requires forall k :: 0 <= k < |u| && u[k] != h ==> !before(u[k], h)
    ensures Ordered([h] + u, before)
  {
    var r := [h] + u;
    forall i, j | 0 <= i < j < |r| && r[i] != r[j]
      ensures !before(r[j], r[i])
    {
      if i > 0 {
        assert r[i] == u[i - 1] && r[j] == u[j - 1];
      } else {
        assert r[j] == u[j - 1];
      }
    }
  }

  lemma {:induction false} InsertOrdered<T>(x: T, s: seq<T>, before: (T, T) -> bool, elems: multiset<T>)
    requires Ordered(s, before) && Consistent(elems, before)
    requires x in elems && multiset(s) <= elems
    ensures Ordered(Insert(x, s, before), before)
  {
    if s == [] {
    } else if before(x, s[0]) {
      forall k | 0 <= k < |s| && s[k] != x
        ensures !before(s[k], x)
      {
        assert s[k] in multiset(s) && s[0] in multiset(s);
      }
      OrderedCons(x, s, before);
    } else {
      assert multiset(s) == multiset{s[0]} + multiset(s[1..]) by {
        assert s == [s[0]] + s[1..];
      }
      assert Ordered(s[1..], before) by {
        forall i, j | 0 <= i < j < |s[1..]| && s[1..][i] != s[1..][j]
          ensures !before(s[1..][j], s[1..][i])
        {
          assert s[1..][i] == s[i + 1] && s[1..][j] == s[j + 1];
        }
      }
      InsertOrdered(x, s[1..], before, elems);
      var u := Insert(x, s[1..], before);
      forall k | 0 <= k < |u| && u[k] != s[0]
        ensures !before(u[k], s[0])
      {
        assert u[k] in multiset(u);
        if u[k] != x {
          assert u[k] in multiset(s[1..]);
          var m :| 0 <= m < |s[1..]| && s[1..][m] == u[k];
          assert s[m + 1] == u[k];
        }
      }
      OrderedCons(s[0], u, before);
    }
  }

  /** The sort orders every list on which the comparator is consistent. */
  lemma {:induction false} SortOrdered<T>(s: seq<T>, before: (T, T) -> bool)
    requires Consistent(multiset(s), before)
    ensures Ordered(Sort(s, before), before)
  {
    if s != [] {
      assert s == [s[0]] + s[1..];
      assert multiset(s) == multiset{s[0]} + multiset(s[1..]);
      assert Consistent(multiset(s[1..]), before);
      SortOrdered(s[1..], before);
      InsertOrdered(s[0], Sort(s[1..], before), before, multiset(s));
    }
  }
}
