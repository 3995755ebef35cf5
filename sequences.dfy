/** The list operations the reports are built from: keeping the elements that
    meet a condition, summing a column, Python's stable `sort(key=...,
    reverse=True)` on an integer key, and `sorted(set(...))` on strings. */
module Sequences {
  import opened Text

  // ---------------------------------------------------------------------
  // [x for x in s if p(x)]
  // ---------------------------------------------------------------------

  /** The elements of `s` that satisfy `p`, in their original order. */
  function Filter<T>(s: seq<T>, p: T -> bool): seq<T>
  {
    if s == [] then []
    else Filter(s[..|s| - 1], p) + (if p(s[|s| - 1]) then [s[|s| - 1]] else [])
  }

  /** Every survivor of the filter sits somewhere in its input. */
  lemma {:induction false} FilterIndex<T>(s: seq<T>, p: T -> bool, i: int)
    requires 0 <= i < |Filter(s, p)|
    ensures exists a :: 0 <= a < |s| && s[a] == Filter(s, p)[i]
  {
    var s' := s[..|s| - 1];
    if i < |Filter(s', p)| {
      FilterIndex(s', p, i);
      var a :| 0 <= a < |s'| && s'[a] == Filter(s', p)[i];
      assert s[a] == s'[a];
    } else {
      assert Filter(s, p)[i] == s[|s| - 1];
    }
  }

  /** The filter keeps the order: two survivors come in the input's order. */
  lemma {:induction false} FilterOrder<T>(s: seq<T>, p: T -> bool, i: int, j: int)
    requires 0 <= i < j < |Filter(s, p)|
    ensures exists a, b :: 0 <= a < b < |s| && s[a] == Filter(s, p)[i] && s[b] == Filter(s, p)[j]
  {
    var s' := s[..|s| - 1];
    var f := Filter(s', p);
    if j < |f| {
      FilterOrder(s', p, i, j);
      var a, b :| 0 <= a < b < |s'| && s'[a] == f[i] && s'[b] == f[j];
      assert s[a] == s'[a] && s[b] == s'[b];
    } else {
      FilterIndex(s', p, i);
      var a :| 0 <= a < |s'| && s'[a] == f[i];
      assert s[a] == Filter(s, p)[i] && s[|s| - 1] == Filter(s, p)[j];
    }
  }

  /** Exactly the elements that satisfy `p` survive the filter. */
  lemma {:induction false} FilterMembers<T>(s: seq<T>, p: T -> bool)
    ensures |Filter(s, p)| <= |s|
    ensures forall x :: x in Filter(s, p) <==> x in s && p(x)
  {
    if s != [] {
      var s' := s[..|s| - 1];
      FilterMembers(s', p);
      assert s == s' + [s[|s| - 1]];
    }
  }

  /** A filter that rejects nothing returns its input unchanged. */
  lemma {:induction false} FilterKeepsAll<T>(s: seq<T>, p: T -> bool)
    requires forall k :: 0 <= k < |s| ==> p(s[k])
    ensures Filter(s, p) == s
  {
    if s != [] {
      FilterKeepsAll(s[..|s| - 1], p);
    }
  }

  /** A filter that accepts nothing returns the empty list. */
  lemma {:induction false} FilterKeepsNone<T>(s: seq<T>, p: T -> bool)
    requires forall k :: 0 <= k < |s| ==> !p(s[k])
    ensures Filter(s, p) == []
  {
    if s != [] {
      FilterKeepsNone(s[..|s| - 1], p);
    }
  }

  lemma {:induction false} FilterAppend<T>(a: seq<T>, b: seq<T>, p: T -> bool)
    ensures Filter(a + b, p) == Filter(a, p) + Filter(b, p)
  {
    if b != [] {
      var b' := b[..|b| - 1];
      assert (a + b)[..|a + b| - 1] == a + b';
      FilterAppend(a, b', p);
    } else {
      assert a + b == a;
    }
  }

  /** Some element of `s` satisfies `p` exactly when an element of its
      prefix `init` or its last element does. */
  lemma ExistsSplitLast<T>(s: seq<T>, init: seq<T>, p: T -> bool)
    requires s != [] && init == s[..|s| - 1]
    ensures (exists k :: 0 <= k < |s| && p(s[k]))
        <==> (exists k :: 0 <= k < |init| && p(init[k])) || p(s[|s| - 1])
  {
    if exists k :: 0 <= k < |s| && p(s[k]) {
      var k :| 0 <= k < |s| && p(s[k]);
      if k < |init| {
        assert init[k] == s[k];
      }
    }
    if exists k :: 0 <= k < |init| && p(init[k]) {
      var k :| 0 <= k < |init| && p(init[k]);
      assert init[k] == s[k];
    }
  }

  // ---------------------------------------------------------------------
  // sum(f(x) for x in s)
  // ---------------------------------------------------------------------

  function SumBy<T>(s: seq<T>, f: T -> int): int
  {
    if s == [] then 0 else SumBy(s[..|s| - 1], f) + f(s[|s| - 1])
  }

  lemma {:induction false} SumByAppend<T>(a: seq<T>, b: seq<T>, f: T -> int)
    ensures SumBy(a + b, f) == SumBy(a, f) + SumBy(b, f)
  {
    if b != [] {
      var b' := b[..|b| - 1];
      assert (a + b)[..|a + b| - 1] == a + b';
      SumByAppend(a, b', f);
    } else {
      assert a + b == a;
    }
  }

  /** Summing over the elements that pass a filter is summing `f` where it
      holds and 0 elsewhere. */
  lemma {:induction false} SumByFilter<T>(s: seq<T>, p: T -> bool, f: T -> int)
    ensures SumBy(Filter(s, p), f) == SumBy(s, x => if p(x) then f(x) else 0)
  {
    if s != [] {
      var s' := s[..|s| - 1];
      SumByFilter(s', p, f);
      var x := s[|s| - 1];
      SumByAppend(Filter(s', p), if p(x) then [x] else [], f);
      if p(x) {
        assert SumBy([x], f) == f(x);
      }
    }
  }

  // ---------------------------------------------------------------------
  // list.sort(key=key, reverse=True): stable, non-increasing
  // ---------------------------------------------------------------------

  predicate NonIncreasing<T>(s: seq<T>, key: T -> int)
  {
    forall i, j :: 0 <= i < j < |s| ==> key(s[i]) >= key(s[j])
  }

  /** Inserts `x` into the non-increasing list `t` after every element whose
      key is at least `key(x)`. */
  function Insert<T>(t: seq<T>, x: T, key: T -> int): seq<T>
  {
    if t == [] || key(t[|t| - 1]) >= key(x) then t + [x]
    else Insert(t[..|t| - 1], x, key) + [t[|t| - 1]]
  }

  /** Stable sort by descending `key`: elements with equal keys keep their
      relative order, as Python's `sort(reverse=True)` guarantees. */
  function SortDesc<T>(s: seq<T>, key: T -> int): seq<T>
  {
    if s == [] then [] else Insert(SortDesc(s[..|s| - 1], key), s[|s| - 1], key)
  }

  lemma {:induction false} InsertMultiset<T>(t: seq<T>, x: T, key: T -> int)
    ensures multiset(Insert(t, x, key)) == multiset(t) + multiset{x}
  {
    if !(t == [] || key(t[|t| - 1]) >= key(x)) {
      var t' := t[..|t| - 1];
      InsertMultiset(t', x, key);
      assert t == t' + [t[|t| - 1]];
    }
  }

  lemma {:induction false} InsertSorted<T>(t: seq<T>, x: T, key: T -> int)
    requires NonIncreasing(t, key)
    ensures NonIncreasing(Insert(t, x, key), key)
  {
    if !(t == [] || key(t[|t| - 1]) >= key(x)) {
      var t', last := t[..|t| - 1], t[|t| - 1];
      InsertSorted(t', x, key);
      InsertMultiset(t', x, key);
      var u := Insert(t', x, key);
      forall i | 0 <= i < |u| ensures key(u[i]) >= key(last) {
        assert u[i] in multiset(u);
        if u[i] != x {
          assert u[i] in multiset(t');
          var j :| 0 <= j < |t'| && t'[j] == u[i];
          assert t[j] == u[i];
        }
      }
      AppendSmaller(u, last, key);
    }
  }

  /** A non-increasing list stays so when an element no larger than any of
      its own is appended. */
  lemma AppendSmaller<T>(u: seq<T>, last: T, key: T -> int)
    requires NonIncreasing(u, key)
    requires forall i :: 0 <= i < |u| ==> key(u[i]) >= key(last)
    ensures NonIncreasing(u + [last], key)
  {
    var v := u + [last];
    forall i, j | 0 <= i < j < |v| ensures key(v[i]) >= key(v[j]) {
      assert v[i] == u[i];
    }
  }

  lemma {:induction false} InsertStable<T>(t: seq<T>, x: T, key: T -> int, p: T -> bool)
    requires forall a, b :: p(a) && p(b) ==> key(a) == key(b)
    ensures Filter(Insert(t, x, key), p) == Filter(t, p) + Filter([x], p)
  {
    if t == [] || key(t[|t| - 1]) >= key(x) {
      FilterAppend(t, [x], p);
    } else {
      var t', last := t[..|t| - 1], t[|t| - 1];
      InsertStable(t', x, key, p);
      FilterAppend(Insert(t', x, key), [last], p);
      FilterAppend(t', [last], p);
      assert t == t' + [last];
    }
  }

  /** `SortDesc` returns a non-increasing permutation of its input. */
  lemma SortDescSpec<T>(s: seq<T>, key: T -> int)
    ensures NonIncreasing(SortDesc(s, key), key)
    ensures multiset(SortDesc(s, key)) == multiset(s)
    ensures |SortDesc(s, key)| == |s|
  {
    SortDescSorted(s, key);
    SortDescPermutes(s, key);
    assert |multiset(SortDesc(s, key))| == |multiset(s)|;
  }

  lemma {:induction false} SortDescSorted<T>(s: seq<T>, key: T -> int)
    ensures NonIncreasing(SortDesc(s, key), key)
  {
    if s != [] {
      var s' := s[..|s| - 1];
      SortDescSorted(s', key);
      InsertSorted(SortDesc(s', key), s[|s| - 1], key);
    }
  }

  lemma {:induction false} SortDescPermutes<T>(s: seq<T>, key: T -> int)
    ensures multiset(SortDesc(s, key)) == multiset(s)
  {
    if s != [] {
      var s' := s[..|s| - 1];
      var x := s[|s| - 1];
      SortDescPermutes(s', key);
      InsertMultiset(SortDesc(s', key), x, key);
      assert SortDesc(s, key) == Insert(SortDesc(s', key), x, key);
      assert multiset(s) == multiset(s') + multiset{x} by {
        assert s == s' + [x];
      }
    }
  }

  /** Stability: among elements on which `key` is constant (any `p` whose
      elements all share one key), the sort keeps the original order. */
  lemma {:induction false} SortDescStable<T>(s: seq<T>, key: T -> int, p: T -> bool)
    requires forall a, b :: p(a) && p(b) ==> key(a) == key(b)
    ensures Filter(SortDesc(s, key), p) == Filter(s, p)
  {
    if s != [] {
      var s', x := s[..|s| - 1], s[|s| - 1];
      SortDescStable(s', key, p);
      InsertStable(SortDesc(s', key), x, key, p);
      FilterAppend(s', [x], p);
      assert s == s' + [x];
    }
  }

  /** Ordered by descending `key`, and by `less` among equal keys. */
  predicate TieOrdered<T>(s: seq<T>, key: T -> int, less: (T, T) -> bool)
  {
    forall i, j :: 0 <= i < j < |s| ==> key(s[i]) > key(s[j]) || (key(s[i]) == key(s[j]) && less(s[i], s[j]))
  }

  lemma {:induction false} InsertTies<T>(t: seq<T>, x: T, key: T -> int, less: (T, T) -> bool)
    requires TieOrdered(t, key, less)
    requires forall y :: y in t ==> less(y, x)
    ensures TieOrdered(Insert(t, x, key), key, less)
  {
    if t == [] || key(t[|t| - 1]) >= key(x) {
      var u := t + [x];
      forall i, j | 0 <= i < j < |u| ensures key(u[i]) > key(u[j]) || (key(u[i]) == key(u[j]) && less(u[i], u[j])) {
        if j == |t| {
          assert u[i] in t;
          if i < |t| - 1 {
            assert key(t[i]) >= key(t[|t| - 1]);
          }
        }
      }
    } else {
      var t', last := t[..|t| - 1], t[|t| - 1];
      assert forall y :: y in t' ==> y in t;
      InsertTies(t', x, key, less);
      InsertMultiset(t', x, key);
      var v := Insert(t', x, key);
      var u := v + [last];
      forall i, j | 0 <= i < j < |u| ensures key(u[i]) > key(u[j]) || (key(u[i]) == key(u[j]) && less(u[i], u[j])) {
        if j == |v| {
          assert u[i] == v[i] && v[i] in multiset(v);
          if v[i] != x {
            assert v[i] in multiset(t');
            var k :| 0 <= k < |t'| && t'[k] == v[i];
            assert t[k] == v[i];
          }
        }
      }
    }
  }

  /** A stable sort of a list already ordered by `less` breaks ties of `key` by `less`. */
  lemma {:induction false} SortDescTies<T>(s: seq<T>, key: T -> int, less: (T, T) -> bool)
    requires forall i, j :: 0 <= i < j < |s| ==> less(s[i], s[j])
    ensures TieOrdered(SortDesc(s, key), key, less)
  {
    if s != [] {
      var s', x := s[..|s| - 1], s[|s| - 1];
      SortDescTies(s', key, less);
      SortDescSpec(s', key);
      forall y | y in SortDesc(s', key) ensures less(y, x) {
        assert y in multiset(SortDesc(s', key));
        var k :| 0 <= k < |s'| && s'[k] == y;
        assert s[k] == y;
      }
      InsertTies(SortDesc(s', key), x, key, less);
    }
  }

  /** Sorting does not change the sum of any column. */
  lemma {:induction false} SortDescSum<T>(s: seq<T>, key: T -> int, f: T -> int)
    ensures SumBy(SortDesc(s, key), f) == SumBy(s, f)
  {
    if s != [] {
      var s', x := s[..|s| - 1], s[|s| - 1];
      SortDescSum(s', key, f);
      InsertSum(SortDesc(s', key), x, key, f);
    }
  }

  lemma {:induction false} InsertSum<T>(t: seq<T>, x: T, key: T -> int, f: T -> int)
    ensures SumBy(Insert(t, x, key), f) == SumBy(t, f) + f(x)
  {
    if !(t == [] || key(t[|t| - 1]) >= key(x)) {
      var t', last := t[..|t| - 1], t[|t| - 1];
      InsertSum(t', x, key, f);
      assert Insert(t, x, key)[..|Insert(t, x, key)| - 1] == Insert(t', x, key);
    } else {
      assert (t + [x])[..|t|] == t;
    }
  }

  // ---------------------------------------------------------------------
  // sorted(set(s)) on strings
  // ---------------------------------------------------------------------

  /** Strictly increasing in Python's string order, hence free of duplicates. */
  predicate Increasing(s: seq<string>)
  {
    forall i, j :: 0 <= i < j < |s| ==> LexLess(s[i], s[j])
  }

  function InsertString(t: seq<string>, x: string): seq<string>
  {
    if t == [] || LexLess(t[|t| - 1], x) then t + [x]
    else InsertString(t[..|t| - 1], x) + [t[|t| - 1]]
  }

  /** `sorted(set(s))`. */
  function SortedSet(s: seq<string>): seq<string>
  {
    if s == [] then []
    else
      var t := SortedSet(s[..|s| - 1]);
      if s[|s| - 1] in t then t else InsertString(t, s[|s| - 1])
  }

  lemma {:induction false} InsertStringSpec(t: seq<string>, x: string)
    requires Increasing(t) && x !in t
    ensures Increasing(InsertString(t, x))
    ensures forall y :: y in InsertString(t, x) <==> y in t || y == x
  {
    if t != [] && !LexLess(t[|t| - 1], x) {
      var t', last := t[..|t| - 1], t[|t| - 1];
      assert t == t' + [last];
      InsertStringSpec(t', x);
      LexTotal(last, x);
      var u := InsertString(t', x);
      forall i | 0 <= i < |u| ensures LexLess(u[i], last) {
        assert u[i] in u;
        if u[i] != x {
          var k :| 0 <= k < |t'| && t'[k] == u[i];
          assert t[k] == u[i];
        }
      }
    } else if t != [] {
      forall i, j | 0 <= i < j < |t + [x]| ensures LexLess((t + [x])[i], (t + [x])[j]) {
        if j == |t| && i < |t| - 1 {
          LexTransitive(t[i], t[|t| - 1], x);
        }
      }
    }
  }

  /** `sorted(set(s))` is strictly increasing and holds exactly the elements of `s`. */
  lemma {:induction false} SortedSetSpec(s: seq<string>)
    ensures Increasing(SortedSet(s))
    ensures forall y :: y in SortedSet(s) <==> y in s
  {
    if s != [] {
      var s' := s[..|s| - 1];
      SortedSetSpec(s');
      if s[|s| - 1] !in SortedSet(s') {
        InsertStringSpec(SortedSet(s'), s[|s| - 1]);
      }
      assert s == s' + [s[|s| - 1]];
    }
  }

  /** A strictly increasing list has no repeated element. */
  lemma IncreasingDistinct(s: seq<string>, i: int, j: int)
    requires Increasing(s) && 0 <= i < |s| && 0 <= j < |s| && i != j
    ensures s[i] != s[j]
  {
    if i < j {
      LexIrreflexive(s[i]);
    } else {
      LexIrreflexive(s[j]);
    }
  }
}
