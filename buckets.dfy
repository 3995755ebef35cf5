/** The `defaultdict` accumulators the reports fill: amounts of the selected
    movements summed per key (category, month or ISO week). A dictionary
    keeps its keys in insertion order, so it is modelled as a list of
    entries in the order the keys were first seen. */
module Buckets {
  import opened Basics
  import opened Models
  import opened Calendar

  datatype Entry = Entry(key: string, total: int)

  /** Which movements a report adds up: those whose `tipo` value is `tipo`,
      and, when `cat` is given, of that category only. */
  datatype Sel = Sel(tipo: string, cat: Option<string>)

  predicate Selected(m: Movimento, sel: Sel)
  {
    Token(m.tipo) == sel.tipo && (sel.cat.None? || m.categoria == sel.cat.value)
  }

  /** A bucketing rule: the key a movement is summed under. */
  type KeyFn = Movimento -> string

  /** Bucket by category. */
  function CategoriaKey(m: Movimento): string
  {
    m.categoria
  }

  /** Bucket by `"%Y-%m"`; a date that does not parse (which the reports
      turn into an error before bucketing) falls into "". */
  function MonthKeyFn(m: Movimento): string
  {
    match MonthKeyOf(m.data)
    case Some(k) => k
    case None => ""
  }

  /** Bucket by ISO week; an unparsable date falls into "" as above. */
  function WeekKeyFn(m: Movimento): string
  {
    match WeekKeyOf(m.data)
    case Some(k) => k
    case None => ""
  }

  function Keys(t: seq<Entry>): (ks: seq<string>)
    ensures |ks| == |t| && forall i :: 0 <= i < |t| ==> ks[i] == t[i].key
  {
    seq(|t|, i requires 0 <= i < |t| => t[i].key)
  }

  predicate DistinctKeys(t: seq<Entry>)
  {
    forall i, j :: 0 <= i < j < |t| ==> t[i].key != t[j].key
  }

  /** Position of key `k`, or -1. */
  function IndexOfKey(t: seq<Entry>, k: string): (i: int)
    ensures -1 <= i < |t|
    ensures i >= 0 ==> t[i].key == k
    ensures i < 0 <==> k !in Keys(t)
  {
    if t == [] then -1
    else if t[|t| - 1].key == k then |t| - 1
    else
      var i := IndexOfKey(t[..|t| - 1], k);
      assert Keys(t) == Keys(t[..|t| - 1]) + [t[|t| - 1].key];
      i
  }

  /** `d[k]` on a `defaultdict(float)`: 0 for a missing key. */
  function Lookup(t: seq<Entry>, k: string): int
  {
    if t == [] then 0
    else if t[|t| - 1].key == k then t[|t| - 1].total
    else Lookup(t[..|t| - 1], k)
  }

  /** `d[k] += v`: a new key goes last. */
  function Add(t: seq<Entry>, k: string, v: int): seq<Entry>
  {
    var i := IndexOfKey(t, k);
    if i < 0 then t + [Entry(k, v)] else t[i := Entry(k, t[i].total + v)]
  }

  /** The accumulator after the loop `for m in movs: if selected: d[key(m)] += m.valor`. */
  function TallyOf(movs: seq<Movimento>, sel: Sel, key: KeyFn): seq<Entry>
  {
    if movs == [] then []
    else
      var t := TallyOf(movs[..|movs| - 1], sel, key);
      var m := movs[|movs| - 1];
      if Selected(m, sel) then Add(t, key(m), m.valor) else t
  }

  // ---------------------------------------------------------------------
  // reference definitions
  // ---------------------------------------------------------------------

  /** Sum of the amounts of the selected movements in bucket `k`. */
  function SumAt(movs: seq<Movimento>, sel: Sel, key: KeyFn, k: string): int
  {
    if movs == [] then 0
    else
      var m := movs[|movs| - 1];
      SumAt(movs[..|movs| - 1], sel, key, k) + (if Selected(m, sel) && key(m) == k then m.valor else 0)
  }

  /** Sum of the amounts of all selected movements. */
  function SumSel(movs: seq<Movimento>, sel: Sel): int
  {
    if movs == [] then 0
    else
      var m := movs[|movs| - 1];
      SumSel(movs[..|movs| - 1], sel) + (if Selected(m, sel) then m.valor else 0)
  }

  /** Some selected movement falls in bucket `k`. */
  predicate Occurs(movs: seq<Movimento>, sel: Sel, key: KeyFn, k: string)
  {
    exists i :: 0 <= i < |movs| && Selected(movs[i], sel) && key(movs[i]) == k
  }

  /** Index of the first selected movement in bucket `k`; `|movs|` when there is none. */
  function FirstAt(movs: seq<Movimento>, sel: Sel, key: KeyFn, k: string): (r: int)
    ensures 0 <= r <= |movs|
    ensures r < |movs| <==> Occurs(movs, sel, key, k)
    ensures r < |movs| ==> Selected(movs[r], sel) && key(movs[r]) == k
    ensures forall j :: 0 <= j < r ==> !(Selected(movs[j], sel) && key(movs[j]) == k)
  {
    if movs == [] then 0
    else
      var p, m := movs[..|movs| - 1], movs[|movs| - 1];
      var f := FirstAt(p, sel, key, k);
      OccursStep(movs, sel, key, k);
      assert forall j :: 0 <= j < |p| ==> movs[j] == p[j];
      if f < |p| then f
      else if Selected(m, sel) && key(m) == k then |p|
      else |movs|
  }

  function SumTotals(t: seq<Entry>): int
  {
    if t == [] then 0 else SumTotals(t[..|t| - 1]) + t[|t| - 1].total
  }

  // ---------------------------------------------------------------------
  // the accumulator against the reference
  // ---------------------------------------------------------------------

  lemma AddSpec(t: seq<Entry>, k: string, v: int)
    requires DistinctKeys(t)
    ensures DistinctKeys(Add(t, k, v))
    ensures forall x :: x in Keys(Add(t, k, v)) <==> x in Keys(t) || x == k
    ensures forall x :: Lookup(Add(t, k, v), x) == Lookup(t, x) + (if x == k then v else 0)
    ensures k in Keys(t) ==> Keys(Add(t, k, v)) == Keys(t)
    ensures k !in Keys(t) ==> Keys(Add(t, k, v)) == Keys(t) + [k]
    ensures SumTotals(Add(t, k, v)) == SumTotals(t) + v
  {
    var i := IndexOfKey(t, k);
    if i < 0 {
      AddAbsent(t, k, v);
    } else {
      AddPresent(t, i, k, v);
    }
  }

  lemma AddAbsent(t: seq<Entry>, k: string, v: int)
    requires DistinctKeys(t) && k !in Keys(t)
    ensures Add(t, k, v) == t + [Entry(k, v)]
    ensures DistinctKeys(Add(t, k, v))
    ensures Keys(Add(t, k, v)) == Keys(t) + [k]
    ensures forall x :: Lookup(Add(t, k, v), x) == Lookup(t, x) + (if x == k then v else 0)
    ensures SumTotals(Add(t, k, v)) == SumTotals(t) + v
  {
    var u := t + [Entry(k, v)];
    assert u[..|u| - 1] == t;
    LookupAbsent(t, k);
    forall i, j | 0 <= i < j < |u| ensures u[i].key != u[j].key {
      if j == |t| {
        assert Keys(t)[i] == t[i].key;
      }
    }
  }

  lemma AddPresent(t: seq<Entry>, i: int, k: string, v: int)
    requires DistinctKeys(t) && 0 <= i < |t| && t[i].key == k && IndexOfKey(t, k) == i
    ensures Add(t, k, v) == t[i := Entry(k, t[i].total + v)]
    ensures DistinctKeys(Add(t, k, v))
    ensures Keys(Add(t, k, v)) == Keys(t)
    ensures forall x :: Lookup(Add(t, k, v), x) == Lookup(t, x) + (if x == k then v else 0)
    ensures SumTotals(Add(t, k, v)) == SumTotals(t) + v
  {
    var e := Entry(k, t[i].total + v);
    assert Add(t, k, v) == t[i := e];
    UpdateSpec(t, i, e);
    LookupAt(t, i);
  }

  /** Overwriting the entry of an existing key changes that key's total and
      nothing else. */
  lemma UpdateSpec(t: seq<Entry>, i: int, e: Entry)
    requires DistinctKeys(t) && 0 <= i < |t| && e.key == t[i].key
    ensures DistinctKeys(t[i := e])
    ensures Keys(t[i := e]) == Keys(t)
    ensures forall x :: Lookup(t[i := e], x) == if x == e.key then e.total else Lookup(t, x)
    ensures SumTotals(t[i := e]) == SumTotals(t) - t[i].total + e.total
  {
    var u := t[i := e];
    assert Keys(u) == Keys(t);
    forall x ensures Lookup(u, x) == if x == e.key then e.total else Lookup(t, x) {
      LookupUpdate(t, i, e, x);
    }
    SumTotalsUpdate(t, i, e);
  }

  lemma {:induction false} LookupAbsent(t: seq<Entry>, k: string)
    requires k !in Keys(t)
    ensures Lookup(t, k) == 0
  {
    if t != [] {
      var t' := t[..|t| - 1];
      assert Keys(t) == Keys(t') + [t[|t| - 1].key];
      LookupAbsent(t', k);
    }
  }

  /** With distinct keys, the entry at position `i` is what `Lookup` finds. */
  lemma {:induction false} LookupAt(t: seq<Entry>, i: int)
    requires DistinctKeys(t) && 0 <= i < |t|
    ensures Lookup(t, t[i].key) == t[i].total
  {
    if i < |t| - 1 {
      var t' := t[..|t| - 1];
      assert t'[i] == t[i];
      LookupAt(t', i);
    }
  }

  /** Replacing the entry at `i` by one with the same key changes only that key's total. */
  lemma {:induction false} LookupUpdate(t: seq<Entry>, i: int, e: Entry, x: string)
    requires DistinctKeys(t) && 0 <= i < |t| && e.key == t[i].key
    ensures Lookup(t[i := e], x) == if x == e.key then e.total else Lookup(t, x)
  {
    var n := |t| - 1;
    var u := t[i := e];
    if i < n {
      assert u[..n] == t[..n][i := e];
      assert t[..n][i] == t[i];
      LookupUpdate(t[..n], i, e, x);
      if x == e.key {
        assert t[n].key != x;
      }
    } else {
      assert u[..n] == t[..n];
    }
  }

  lemma {:induction false} SumTotalsUpdate(t: seq<Entry>, i: int, e: Entry)
    requires 0 <= i < |t|
    ensures SumTotals(t[i := e]) == SumTotals(t) - t[i].total + e.total
  {
    var n := |t| - 1;
    if i < n {
      assert t[i := e][..n] == t[..n][i := e];
      SumTotalsUpdate(t[..n], i, e);
    } else {
      assert t[i := e][..n] == t[..n];
    }
  }

  /** One turn of the accumulating loop. */
  lemma TallyStep(movs: seq<Movimento>, i: int, sel: Sel, key: KeyFn)
    requires 0 <= i < |movs|
    ensures TallyOf(movs[..i + 1], sel, key) ==
      if Selected(movs[i], sel) then Add(TallyOf(movs[..i], sel, key), key(movs[i]), movs[i].valor)
      else TallyOf(movs[..i], sel, key)
  {
    assert movs[..i + 1][..i] == movs[..i];
  }

  /** Selecting by the `tipo` value is selecting by the enumeration. */
  lemma SelectedTipo(m: Movimento, tipo: Tipo, cat: Option<string>)
    ensures Selected(m, Sel(Token(tipo), cat)) <==> m.tipo == tipo && (cat.None? || m.categoria == cat.value)
  {
    TipoTokens(Token(tipo), tipo);
  }

  /** The accumulator has one entry per bucket that some selected movement
      falls in, and each entry holds that bucket's sum. */
  lemma TallySpec(movs: seq<Movimento>, sel: Sel, key: KeyFn)
    ensures DistinctKeys(TallyOf(movs, sel, key))
    ensures forall k :: k in Keys(TallyOf(movs, sel, key)) <==> Occurs(movs, sel, key, k)
    ensures forall k :: Lookup(TallyOf(movs, sel, key), k) == SumAt(movs, sel, key, k)
    ensures SumTotals(TallyOf(movs, sel, key)) == SumSel(movs, sel)
  {
    TallyKeys(movs, sel, key);
    forall k ensures Lookup(TallyOf(movs, sel, key), k) == SumAt(movs, sel, key, k) {
      TallyLookup(movs, sel, key, k);
    }
    TallyTotal(movs, sel, key);
  }

  lemma OccursStep(movs: seq<Movimento>, sel: Sel, key: KeyFn, k: string)
    requires movs != []
    ensures var p, m := movs[..|movs| - 1], movs[|movs| - 1];
      Occurs(movs, sel, key, k) <==> Occurs(p, sel, key, k) || (Selected(m, sel) && key(m) == k)
  {
    var p := movs[..|movs| - 1];
    if Occurs(movs, sel, key, k) {
      var i :| 0 <= i < |movs| && Selected(movs[i], sel) && key(movs[i]) == k;
      if i < |p| {
        assert p[i] == movs[i];
      }
    }
    if Occurs(p, sel, key, k) {
      var i :| 0 <= i < |p| && Selected(p[i], sel) && key(p[i]) == k;
      assert movs[i] == p[i];
    }
  }

  lemma {:induction false} TallyKeys(movs: seq<Movimento>, sel: Sel, key: KeyFn)
    ensures DistinctKeys(TallyOf(movs, sel, key))
    ensures forall k :: k in Keys(TallyOf(movs, sel, key)) <==> Occurs(movs, sel, key, k)
  {
    if movs != [] {
      var p, m := movs[..|movs| - 1], movs[|movs| - 1];
      TallyKeys(p, sel, key);
      if Selected(m, sel) {
        AddSpec(TallyOf(p, sel, key), key(m), m.valor);
      }
      forall k ensures k in Keys(TallyOf(movs, sel, key)) <==> Occurs(movs, sel, key, k) {
        OccursStep(movs, sel, key, k);
      }
    }
  }

  lemma {:induction false} TallyLookup(movs: seq<Movimento>, sel: Sel, key: KeyFn, k: string)
    ensures DistinctKeys(TallyOf(movs, sel, key))
    ensures Lookup(TallyOf(movs, sel, key), k) == SumAt(movs, sel, key, k)
  {
    TallyKeys(movs, sel, key);
    if movs != [] {
      var p, m := movs[..|movs| - 1], movs[|movs| - 1];
      TallyLookup(p, sel, key, k);
      if Selected(m, sel) {
        AddSpec(TallyOf(p, sel, key), key(m), m.valor);
      }
    }
  }

  lemma {:induction false} TallyTotal(movs: seq<Movimento>, sel: Sel, key: KeyFn)
    ensures DistinctKeys(TallyOf(movs, sel, key))
    ensures SumTotals(TallyOf(movs, sel, key)) == SumSel(movs, sel)
  {
    TallyKeys(movs, sel, key);
    if movs != [] {
      var p, m := movs[..|movs| - 1], movs[|movs| - 1];
      TallyTotal(p, sel, key);
      if Selected(m, sel) {
        AddSpec(TallyOf(p, sel, key), key(m), m.valor);
      }
    }
  }

  /** Keys are listed in the order their bucket was first seen. */
  lemma {:induction false} TallyOrder(movs: seq<Movimento>, sel: Sel, key: KeyFn)
    ensures forall i, j :: 0 <= i < j < |TallyOf(movs, sel, key)| ==>
      FirstAt(movs, sel, key, TallyOf(movs, sel, key)[i].key) < FirstAt(movs, sel, key, TallyOf(movs, sel, key)[j].key)
  {
    if movs != [] {
      var p, m := movs[..|movs| - 1], movs[|movs| - 1];
      var t, u := TallyOf(p, sel, key), TallyOf(movs, sel, key);
      TallyOrder(p, sel, key);
      TallyKeys(p, sel, key);
      TallyGrowth(movs, sel, key);
      forall i | 0 <= i < |t| ensures FirstAt(movs, sel, key, u[i].key) == FirstAt(p, sel, key, t[i].key) < |p| {
        assert Keys(t)[i] == t[i].key;
        FirstAtStep(movs, sel, key, t[i].key);
      }
      if |u| > |t| {
        FirstAtStep(movs, sel, key, u[|t|].key);
      }
    }
  }

  /** One more movement keeps the buckets already there, in place, and adds
      at most its own bucket at the end, when it is selected and new. */
  lemma TallyGrowth(movs: seq<Movimento>, sel: Sel, key: KeyFn)
    requires movs != []
    ensures var t, u, m := TallyOf(movs[..|movs| - 1], sel, key), TallyOf(movs, sel, key), movs[|movs| - 1];
      && (|u| == |t| || (|u| == |t| + 1 && Selected(m, sel) && u[|t|].key == key(m) && key(m) !in Keys(t)))
      && forall i :: 0 <= i < |t| ==> u[i].key == t[i].key
  {
    var p, m := movs[..|movs| - 1], movs[|movs| - 1];
    var t, u := TallyOf(p, sel, key), TallyOf(movs, sel, key);
    TallyKeys(p, sel, key);
    if Selected(m, sel) {
      AddSpec(t, key(m), m.valor);
      assert Keys(u)[|u| - 1] == u[|u| - 1].key;
    }
    forall i | 0 <= i < |t| ensures u[i].key == t[i].key {
      assert Keys(u)[i] == u[i].key && Keys(t)[i] == t[i].key;
    }
  }

  /** Where a key is first seen, once one more movement is read. */
  lemma FirstAtStep(movs: seq<Movimento>, sel: Sel, key: KeyFn, k: string)
    requires movs != []
    ensures var p, m := movs[..|movs| - 1], movs[|movs| - 1];
      && (FirstAt(p, sel, key, k) < |p| ==> FirstAt(movs, sel, key, k) == FirstAt(p, sel, key, k))
      && (FirstAt(p, sel, key, k) == |p| && Selected(m, sel) && key(m) == k ==> FirstAt(movs, sel, key, k) == |p|)
  {
  }

  // ---------------------------------------------------------------------
  // conservation
  // ---------------------------------------------------------------------

  /** Sum of `Lookup(t, c)` over a list of keys. */
  function SumLookups(cats: seq<string>, t: seq<Entry>): int
  {
    if cats == [] then 0 else SumLookups(cats[..|cats| - 1], t) + Lookup(t, cats[|cats| - 1])
  }

  predicate Distinct(cats: seq<string>)
  {
    forall i, j :: 0 <= i < j < |cats| ==> cats[i] != cats[j]
  }

  /** Reading every key of the accumulator once, plus any number of absent
      keys, adds up to the accumulator's grand total. */
  lemma {:induction false} SumLookupsTotal(cats: seq<string>, t: seq<Entry>)
    requires Distinct(cats) && DistinctKeys(t)
    requires forall k :: k in Keys(t) ==> k in cats
    ensures SumLookups(cats, t) == SumTotals(t)
  {
    if t == [] {
      SumLookupsZero(cats, t);
    } else {
      var t', e := t[..|t| - 1], t[|t| - 1];
      assert Keys(t) == Keys(t') + [e.key];
      assert e.key !in Keys(t') by {
        forall i | 0 <= i < |t'| ensures t'[i].key != e.key {
          assert t[i] == t'[i];
        }
      }
      assert t == Add(t', e.key, e.total);
      AddSpec(t', e.key, e.total);
      SumLookupsTotal(cats, t');
      SumLookupsSplit(cats, t', e.key, e.total);
    }
  }

  lemma {:induction false} SumLookupsZero(cats: seq<string>, t: seq<Entry>)
    requires t == []
    ensures SumLookups(cats, t) == 0
  {
    if cats != [] {
      SumLookupsZero(cats[..|cats| - 1], t);
    }
  }

  /** The one fact of `AddSpec` the sums over keys need. */
  lemma AddLookup(t: seq<Entry>, k: string, v: int, x: string)
    requires DistinctKeys(t)
    ensures Lookup(Add(t, k, v), x) == Lookup(t, x) + (if x == k then v else 0)
  {
    AddSpec(t, k, v);
  }

  /** Adding `v` under a key that appears once in `cats` adds `v` to the sum. */
  lemma {:induction false} SumLookupsSplit(cats: seq<string>, t: seq<Entry>, k: string, v: int)
    requires Distinct(cats) && DistinctKeys(t)
    requires k in cats
    ensures SumLookups(cats, Add(t, k, v)) == SumLookups(cats, t) + v
    decreases |cats|
  {
    var c, last := cats[..|cats| - 1], cats[|cats| - 1];
    AddLookup(t, k, v, last);
    if last == k {
      assert k !in c by {
        forall i | 0 <= i < |c| ensures c[i] != k {
          assert cats[i] == c[i];
        }
      }
      SumLookupsSame(c, t, k, v);
    } else {
      assert k in c by {
        var i :| 0 <= i < |cats| && cats[i] == k;
        assert i < |c| && c[i] == k;
      }
      assert Distinct(c) by {
        forall i, j | 0 <= i < j < |c| ensures c[i] != c[j] {
          assert cats[i] == c[i] && cats[j] == c[j];
        }
      }
      SumLookupsSplit(c, t, k, v);
    }
  }

  /** Adding under a key that is not in `cats` does not change the sum. */
  lemma {:induction false} SumLookupsSame(cats: seq<string>, t: seq<Entry>, k: string, v: int)
    requires DistinctKeys(t) && k !in cats
    ensures SumLookups(cats, Add(t, k, v)) == SumLookups(cats, t)
  {
    if cats != [] {
      var c := cats[..|cats| - 1];
      AddLookup(t, k, v, cats[|cats| - 1]);
      assert k !in c by {
        forall i | 0 <= i < |c| ensures c[i] != k {
          assert cats[i] == c[i];
        }
      }
      SumLookupsSame(c, t, k, v);
    }
  }
}
