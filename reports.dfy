/** The reports over the stored movements: totals per category, the weekly
    cash flow, the top categories and the overspend alerts, each computed
    over the movements whose date lies in an optional period. Every report
    method is proved against a specification function of the stored
    movements; lemmas state what those functions promise. */
module ReportEngine {
  import opened Basics
  import opened Text
  import opened Calendar
  import opened Models
  import opened Sequences
  import opened Buckets
  import opened Store

  // ---------------------------------------------------------------------
  // the period filter
  // ---------------------------------------------------------------------

  /** An optional bound: absent or "" is no bound; otherwise it must parse. */
  function Bound(o: Option<string>): Result<Option<DateTime>, Failure>
  {
    if !Given(o) then Ok(None)
    else match ParseIso(o.value)
      case Some(dt) => Ok(Some(dt))
      case None => Err(ParseError)
  }

  /** `start <= dt <= end`, both ends inclusive, each only when present. */
  predicate InWindow(dt: DateTime, lo: Option<DateTime>, hi: Option<DateTime>)
  {
    (lo.None? || !Before(dt, lo.value)) && (hi.None? || !Before(hi.value, dt))
  }

  predicate Dated(m: Movimento)
  {
    ParseIso(m.data).Some?
  }

  /** Every date parses (prefix recursion, like the loops that check it). */
  predicate AllDated(movs: seq<Movimento>)
  {
    movs == [] || (AllDated(movs[..|movs| - 1]) && Dated(movs[|movs| - 1]))
  }

  lemma {:induction false} AllDatedAt(movs: seq<Movimento>)
    ensures AllDated(movs) <==> forall k :: 0 <= k < |movs| ==> Dated(movs[k])
  {
    if movs != [] {
      var p := movs[..|movs| - 1];
      AllDatedAt(p);
      assert forall k :: 0 <= k < |p| ==> p[k] == movs[k];
    }
  }

  /** One movement whose date does not parse makes the whole list undated. */
  lemma Undated(movs: seq<Movimento>, i: int)
    requires 0 <= i < |movs| && !Dated(movs[i])
    ensures !AllDated(movs)
  {
    AllDatedAt(movs);
  }

  /** One more movement read by a loop that checks the dates. */
  lemma DatedStep(movs: seq<Movimento>, i: int)
    requires 0 <= i < |movs|
    ensures AllDated(movs[..i + 1]) == (AllDated(movs[..i]) && Dated(movs[i]))
  {
    assert movs[..i + 1][..i] == movs[..i];
  }

  /** One despesa whose date does not parse is enough for the alerts to fail. */
  lemma UndatedDespesa(movs: seq<Movimento>, i: int)
    requires 0 <= i < |movs| && movs[i].tipo == Despesa && !Dated(movs[i])
    ensures !DespesasDated(movs)
  {
    DespesasDatedAt(movs);
  }

  function InPeriod(lo: Option<DateTime>, hi: Option<DateTime>): Movimento -> bool
  {
    m => Dated(m) && InWindow(ParseIso(m.data).value, lo, hi)
  }

  /** What `_filtro_periodo(movs, inicio, fim)` returns, or the error it raises. */
  function Periodo(movs: seq<Movimento>, inicio: Option<string>, fim: Option<string>): Result<seq<Movimento>, Failure>
  {
    if !Given(inicio) && !Given(fim) then Ok(movs)
    else match (Bound(inicio), Bound(fim))
      case (Err(e), _) => Err(e)
      case (_, Err(e)) => Err(e)
      case (Ok(lo), Ok(hi)) =>
        if AllDated(movs) then Ok(Filter(movs, InPeriod(lo, hi))) else Err(ParseError)
  }

  /** The period filter keeps the stored order: two movements it returns
      come in the order they were stored. */
  lemma PeriodoOrder(movs: seq<Movimento>, inicio: Option<string>, fim: Option<string>, i: int, j: int)
    requires Periodo(movs, inicio, fim).Ok? && 0 <= i < j < |Periodo(movs, inicio, fim).value|
    ensures var out := Periodo(movs, inicio, fim).value;
      exists a, b :: 0 <= a < b < |movs| && movs[a] == out[i] && movs[b] == out[j]
  {
    var out := Periodo(movs, inicio, fim).value;
    if !Given(inicio) && !Given(fim) {
      assert movs[i] == out[i] && movs[j] == out[j];
    } else {
      FilterOrder(movs, InPeriod(Bound(inicio).value, Bound(fim).value), i, j);
    }
  }

  /** With no bound the list comes back unchanged; with a bound it comes
      back, in its order, holding exactly the movements dated inside the
      period, and it is an error for a bound or any movement's date not to
      parse. */
  lemma PeriodoSpec(movs: seq<Movimento>, inicio: Option<string>, fim: Option<string>)
    ensures !Given(inicio) && !Given(fim) ==> Periodo(movs, inicio, fim) == Ok(movs)
    ensures (Given(inicio) || Given(fim)) ==>
      (Periodo(movs, inicio, fim).Ok? <==> Bound(inicio).Ok? && Bound(fim).Ok? && AllDated(movs))
    ensures (Given(inicio) || Given(fim)) && Periodo(movs, inicio, fim).Ok? ==>
      var out := Periodo(movs, inicio, fim).value;
      && |out| <= |movs|
      && forall m :: m in out <==> m in movs && Dated(m) && InWindow(ParseIso(m.data).value, Bound(inicio).value, Bound(fim).value)
  {
    if (Given(inicio) || Given(fim)) && Bound(inicio).Ok? && Bound(fim).Ok? && AllDated(movs) {
      var p := InPeriod(Bound(inicio).value, Bound(fim).value);
      FilterMembers(movs, p);
      AllDatedAt(movs);
      forall m | m in movs ensures Dated(m) {
        var k :| 0 <= k < |movs| && movs[k] == m;
      }
    }
  }

  // ---------------------------------------------------------------------
  // totais_por_cat
  // ---------------------------------------------------------------------

  /** `{categoria, despesa, receita, saldo}`. */
  datatype CatRow = CatRow(categoria: string, despesa: int, receita: int, saldo: int)

  function AbsSaldo(r: CatRow): int
  {
    if r.saldo < 0 then -r.saldo else r.saldo
  }

  function DespesaCol(r: CatRow): int
  {
    r.despesa
  }

  function ReceitaCol(r: CatRow): int
  {
    r.receita
  }

  predicate CatBefore(a: CatRow, b: CatRow)
  {
    LexLess(a.categoria, b.categoria)
  }

  const RECEITAS: Sel := Sel(Token(Receita), None)
  const DESPESAS: Sel := Sel(Token(Despesa), None)

  function CatRowFor(c: string, rec: seq<Entry>, des: seq<Entry>): CatRow
  {
    CatRow(c, Lookup(des, c), Lookup(rec, c), Lookup(rec, c) - Lookup(des, c))
  }

  function CatRows(cats: seq<string>, rec: seq<Entry>, des: seq<Entry>): (rows: seq<CatRow>)
    ensures |rows| == |cats|
    ensures forall i :: 0 <= i < |cats| ==> rows[i] == CatRowFor(cats[i], rec, des)
  {
    if cats == [] then []
    else CatRows(cats[..|cats| - 1], rec, des) + [CatRowFor(cats[|cats| - 1], rec, des)]
  }

  /** The categories that have a receita or a despesa, in ascending order. */
  function Categorias(movs: seq<Movimento>): seq<string>
  {
    SortedSet(Keys(TallyOf(movs, RECEITAS, CategoriaKey)) + Keys(TallyOf(movs, DESPESAS, CategoriaKey)))
  }

  /** `totais_por_cat` over already filtered movements. */
  function Totais(movs: seq<Movimento>): seq<CatRow>
  {
    var rec := TallyOf(movs, RECEITAS, CategoriaKey);
    var des := TallyOf(movs, DESPESAS, CategoriaKey);
    SortDesc(CatRows(Categorias(movs), rec, des), AbsSaldo)
  }

  predicate HasCategoria(movs: seq<Movimento>, c: string)
  {
    exists k :: 0 <= k < |movs| && movs[k].categoria == c
  }

  /** Every row of the report is the row built for one of the categories. */
  lemma TotaisRow(movs: seq<Movimento>, r: CatRow)
    requires r in Totais(movs)
    ensures r.categoria in Categorias(movs)
    ensures r == CatRowFor(r.categoria, TallyOf(movs, RECEITAS, CategoriaKey), TallyOf(movs, DESPESAS, CategoriaKey))
  {
    var base := CatRows(Categorias(movs), TallyOf(movs, RECEITAS, CategoriaKey), TallyOf(movs, DESPESAS, CategoriaKey));
    SortDescSpec(base, AbsSaldo);
    assert r in multiset(base);
    var k :| 0 <= k < |base| && base[k] == r;
  }

  /** Each row holds its category's sums: despesa and receita are the sums
      of that category's despesas and receitas, and saldo = receita - despesa. */
  lemma TotaisSums(movs: seq<Movimento>)
    ensures var rows := Totais(movs);
      forall i :: 0 <= i < |rows| ==>
        && rows[i].despesa == SumAt(movs, DESPESAS, CategoriaKey, rows[i].categoria)
        && rows[i].receita == SumAt(movs, RECEITAS, CategoriaKey, rows[i].categoria)
        && rows[i].saldo == rows[i].receita - rows[i].despesa
  {
    var rows := Totais(movs);
    TallySpec(movs, RECEITAS, CategoriaKey);
    TallySpec(movs, DESPESAS, CategoriaKey);
    forall i | 0 <= i < |rows|
      ensures rows[i].despesa == SumAt(movs, DESPESAS, CategoriaKey, rows[i].categoria)
      ensures rows[i].receita == SumAt(movs, RECEITAS, CategoriaKey, rows[i].categoria)
      ensures rows[i].saldo == rows[i].receita - rows[i].despesa
    {
      TotaisRow(movs, rows[i]);
    }
  }

  /** There is a row for a category exactly when some movement has it. */
  lemma TotaisCategorias(movs: seq<Movimento>, c: string)
    ensures (exists i :: 0 <= i < |Totais(movs)| && Totais(movs)[i].categoria == c) <==> HasCategoria(movs, c)
  {
    var rec := TallyOf(movs, RECEITAS, CategoriaKey);
    var des := TallyOf(movs, DESPESAS, CategoriaKey);
    var cats := Categorias(movs);
    var base := CatRows(cats, rec, des);
    var rows := Totais(movs);
    TallyKeys(movs, RECEITAS, CategoriaKey);
    TallyKeys(movs, DESPESAS, CategoriaKey);
    SortedSetSpec(Keys(rec) + Keys(des));
    CategoriaOccurs(movs, c);
    if exists i :: 0 <= i < |rows| && rows[i].categoria == c {
      var i :| 0 <= i < |rows| && rows[i].categoria == c;
      TotaisRow(movs, rows[i]);
    }
    if HasCategoria(movs, c) {
      assert c in cats;
      var k :| 0 <= k < |cats| && cats[k] == c;
      SortDescSpec(base, AbsSaldo);
      assert base[k] in multiset(rows);
      var i :| 0 <= i < |rows| && rows[i] == base[k];
    }
  }

  /** Rows come by descending |saldo|, equal ones by ascending category, so
      no category appears twice. */
  lemma TotaisOrder(movs: seq<Movimento>)
    ensures var rows := Totais(movs);
      && (forall i, j :: 0 <= i < j < |rows| ==>
            AbsSaldo(rows[i]) > AbsSaldo(rows[j])
            || (AbsSaldo(rows[i]) == AbsSaldo(rows[j]) && LexLess(rows[i].categoria, rows[j].categoria)))
      && (forall i, j :: 0 <= i < j < |rows| ==> rows[i].categoria != rows[j].categoria)
  {
    var rec := TallyOf(movs, RECEITAS, CategoriaKey);
    var des := TallyOf(movs, DESPESAS, CategoriaKey);
    var cats := Categorias(movs);
    var base := CatRows(cats, rec, des);
    var rows := Totais(movs);
    SortedSetSpec(Keys(rec) + Keys(des));
    assert forall i, j :: 0 <= i < j < |base| ==> CatBefore(base[i], base[j]);
    SortDescTies(base, AbsSaldo, CatBefore);
    forall i, j | 0 <= i < j < |rows| ensures rows[i].categoria != rows[j].categoria {
      if rows[i].categoria == rows[j].categoria {
        TotaisRow(movs, rows[i]);
        TotaisRow(movs, rows[j]);
        LexIrreflexive(rows[i].categoria);
      }
    }
  }

  /** A category has a row exactly when some movement has it: every `tipo`
      is either receita or despesa. */
  lemma CategoriaOccurs(movs: seq<Movimento>, c: string)
    ensures HasCategoria(movs, c) <==> Occurs(movs, RECEITAS, CategoriaKey, c) || Occurs(movs, DESPESAS, CategoriaKey, c)
  {
    if HasCategoria(movs, c) {
      var k :| 0 <= k < |movs| && movs[k].categoria == c;
      assert Selected(movs[k], RECEITAS) || Selected(movs[k], DESPESAS);
    }
  }

  /** Conservation: the despesa column adds up to the amount spent and the
      receita column to the amount received. */
  lemma TotaisConservation(movs: seq<Movimento>)
    ensures SumBy(Totais(movs), DespesaCol) == SumSel(movs, DESPESAS)
    ensures SumBy(Totais(movs), ReceitaCol) == SumSel(movs, RECEITAS)
  {
    var rec := TallyOf(movs, RECEITAS, CategoriaKey);
    var des := TallyOf(movs, DESPESAS, CategoriaKey);
    var cats := Categorias(movs);
    var base := CatRows(cats, rec, des);
    TallySpec(movs, RECEITAS, CategoriaKey);
    TallySpec(movs, DESPESAS, CategoriaKey);
    SortedSetSpec(Keys(rec) + Keys(des));
    SortDescSum(base, AbsSaldo, DespesaCol);
    SortDescSum(base, AbsSaldo, ReceitaCol);
    assert Distinct(cats) by {
      forall i, j | 0 <= i < j < |cats| ensures cats[i] != cats[j] {
        IncreasingDistinct(cats, i, j);
      }
    }
    ColumnSum(cats, rec, des);
    SumLookupsTotal(cats, des);
    SumLookupsTotal(cats, rec);
  }

  lemma {:induction false} ColumnSum(cats: seq<string>, rec: seq<Entry>, des: seq<Entry>)
    ensures SumBy(CatRows(cats, rec, des), DespesaCol) == SumLookups(cats, des)
    ensures SumBy(CatRows(cats, rec, des), ReceitaCol) == SumLookups(cats, rec)
  {
    if cats != [] {
      var c := cats[..|cats| - 1];
      ColumnSum(c, rec, des);
      SumByAppend(CatRows(c, rec, des), [CatRowFor(cats[|cats| - 1], rec, des)], DespesaCol);
      SumByAppend(CatRows(c, rec, des), [CatRowFor(cats[|cats| - 1], rec, des)], ReceitaCol);
    }
  }

  // ---------------------------------------------------------------------
  // cashflow_semanal
  // ---------------------------------------------------------------------

  /** `{semana, receita, despesa, saldo}`. */
  datatype WeekRow = WeekRow(semana: string, receita: int, despesa: int, saldo: int)

  function WeekRowFor(w: string, rec: seq<Entry>, des: seq<Entry>): WeekRow
  {
    WeekRow(w, Lookup(rec, w), Lookup(des, w), Lookup(rec, w) - Lookup(des, w))
  }

  function WeekRows(weeks: seq<string>, rec: seq<Entry>, des: seq<Entry>): (rows: seq<WeekRow>)
    ensures |rows| == |weeks|
    ensures forall i :: 0 <= i < |weeks| ==> rows[i] == WeekRowFor(weeks[i], rec, des)
  {
    if weeks == [] then []
    else WeekRows(weeks[..|weeks| - 1], rec, des) + [WeekRowFor(weeks[|weeks| - 1], rec, des)]
  }

  /** `cashflow_semanal` over already filtered movements: every date is
      turned into a week key, so one that does not parse is an error. */
  function Cashflow(movs: seq<Movimento>): Result<seq<WeekRow>, Failure>
  {
    if !AllDated(movs) then Err(ParseError)
    else
      var rec := TallyOf(movs, RECEITAS, WeekKeyFn);
      var des := TallyOf(movs, DESPESAS, WeekKeyFn);
      Ok(WeekRows(SortedSet(Keys(rec) + Keys(des)), rec, des))
  }

  /** The week of a dated movement, as `_isoweek_key` gives it. */
  predicate InWeek(movs: seq<Movimento>, w: string)
  {
    exists k :: 0 <= k < |movs| && WeekKeyOf(movs[k].data) == Some(w)
  }

  /** Weeks come in strictly increasing order, so each appears once. */
  lemma CashflowOrder(movs: seq<Movimento>)
    requires AllDated(movs)
    ensures Cashflow(movs).Ok?
    ensures var rows := Cashflow(movs).value;
      forall i, j :: 0 <= i < j < |rows| ==> LexLess(rows[i].semana, rows[j].semana)
  {
    var rec := TallyOf(movs, RECEITAS, WeekKeyFn);
    var des := TallyOf(movs, DESPESAS, WeekKeyFn);
    SortedSetSpec(Keys(rec) + Keys(des));
  }

  /** Each row holds the sums of its week's receitas and despesas, and
      saldo = receita - despesa. */
  lemma CashflowSums(movs: seq<Movimento>)
    requires AllDated(movs)
    ensures Cashflow(movs).Ok?
    ensures var rows := Cashflow(movs).value;
      forall i :: 0 <= i < |rows| ==>
        && rows[i].receita == SumAt(movs, RECEITAS, WeekKeyFn, rows[i].semana)
        && rows[i].despesa == SumAt(movs, DESPESAS, WeekKeyFn, rows[i].semana)
        && rows[i].saldo == rows[i].receita - rows[i].despesa
  {
    TallySpec(movs, RECEITAS, WeekKeyFn);
    TallySpec(movs, DESPESAS, WeekKeyFn);
  }

  /** There is a row for a week exactly when some movement falls in it. */
  lemma CashflowWeeks(movs: seq<Movimento>, w: string)
    requires AllDated(movs)
    ensures Cashflow(movs).Ok?
    ensures (exists i :: 0 <= i < |Cashflow(movs).value| && Cashflow(movs).value[i].semana == w) <==> InWeek(movs, w)
  {
    var rec := TallyOf(movs, RECEITAS, WeekKeyFn);
    var des := TallyOf(movs, DESPESAS, WeekKeyFn);
    var weeks := SortedSet(Keys(rec) + Keys(des));
    assert Cashflow(movs) == Ok(WeekRows(weeks, rec, des));
    WeekRowsSemanas(weeks, rec, des, w);
    WeekSet(movs, w);
  }

  /** One row per listed week, in the same order. */
  lemma WeekRowsSemanas(weeks: seq<string>, rec: seq<Entry>, des: seq<Entry>, w: string)
    ensures (exists i :: 0 <= i < |WeekRows(weeks, rec, des)| && WeekRows(weeks, rec, des)[i].semana == w) <==> w in weeks
  {
    var rows := WeekRows(weeks, rec, des);
    if w in weeks {
      var i :| 0 <= i < |weeks| && weeks[i] == w;
      assert rows[i].semana == w;
    }
  }

  /** The weeks `cashflow_semanal` reports are those in which some movement falls. */
  lemma WeekSet(movs: seq<Movimento>, w: string)
    requires AllDated(movs)
    ensures w in SortedSet(Keys(TallyOf(movs, RECEITAS, WeekKeyFn)) + Keys(TallyOf(movs, DESPESAS, WeekKeyFn)))
        <==> InWeek(movs, w)
  {
    var rec := TallyOf(movs, RECEITAS, WeekKeyFn);
    var des := TallyOf(movs, DESPESAS, WeekKeyFn);
    TallyKeys(movs, RECEITAS, WeekKeyFn);
    TallyKeys(movs, DESPESAS, WeekKeyFn);
    SortedSetSpec(Keys(rec) + Keys(des));
    WeekOccurs(movs, w);
  }

  lemma WeekOccurs(movs: seq<Movimento>, w: string)
    requires AllDated(movs)
    ensures InWeek(movs, w) <==> Occurs(movs, RECEITAS, WeekKeyFn, w) || Occurs(movs, DESPESAS, WeekKeyFn, w)
  {
    if InWeek(movs, w) {
      InWeekOccurs(movs, w);
    }
    if Occurs(movs, RECEITAS, WeekKeyFn, w) || Occurs(movs, DESPESAS, WeekKeyFn, w) {
      OccursInWeek(movs, w);
    }
  }

  lemma InWeekOccurs(movs: seq<Movimento>, w: string)
    requires AllDated(movs) && InWeek(movs, w)
    ensures Occurs(movs, RECEITAS, WeekKeyFn, w) || Occurs(movs, DESPESAS, WeekKeyFn, w)
  {
    AllDatedAt(movs);
    var k :| 0 <= k < |movs| && WeekKeyOf(movs[k].data) == Some(w);
    WeekOfOne(movs[k], w);
  }

  lemma OccursInWeek(movs: seq<Movimento>, w: string)
    requires AllDated(movs)
    requires Occurs(movs, RECEITAS, WeekKeyFn, w) || Occurs(movs, DESPESAS, WeekKeyFn, w)
    ensures InWeek(movs, w)
  {
    AllDatedAt(movs);
    var k :| 0 <= k < |movs| && (Selected(movs[k], RECEITAS) || Selected(movs[k], DESPESAS)) && WeekKeyFn(movs[k]) == w;
    WeekOfOne(movs[k], w);
  }

  /** A dated movement falls in week `w` exactly when it is an income or an
      expense keyed to `w`. */
  lemma WeekOfOne(m: Movimento, w: string)
    requires Dated(m)
    ensures WeekKeyOf(m.data) == Some(w) <==> (Selected(m, RECEITAS) || Selected(m, DESPESAS)) && WeekKeyFn(m) == w
  {
    SelectedTipo(m, Receita, None);
    SelectedTipo(m, Despesa, None);
  }

  // ---------------------------------------------------------------------
  // top_categorias
  // ---------------------------------------------------------------------

  /** `{categoria, total}`. */
  datatype TopRow = TopRow(categoria: string, total: int)

  function Total(r: TopRow): int
  {
    r.total
  }

  function Pairs(t: seq<Entry>): (rows: seq<TopRow>)
    ensures |rows| == |t|
    ensures forall i :: 0 <= i < |t| ==> rows[i] == TopRow(t[i].key, t[i].total)
  {
    seq(|t|, i requires 0 <= i < |t| => TopRow(t[i].key, t[i].total))
  }

  function Max0(n: int): nat
  {
    if n < 0 then 0 else n
  }

  /** All categories of the requested `tipo`, by descending total, ties in
      the order the category first appeared. */
  function Ranking(movs: seq<Movimento>, tipo: string): seq<TopRow>
  {
    SortDesc(Pairs(TallyOf(movs, Sel(tipo, None), CategoriaKey)), Total)
  }

  /** `top_categorias(n, tipo)` over already filtered movements. */
  function Top(movs: seq<Movimento>, n: int, tipo: string): seq<TopRow>
  {
    var ranking := Ranking(movs, tipo);
    if |ranking| <= Max0(n) then ranking else ranking[..Max0(n)]
  }

  /** A relation on rows: `a`'s category was seen before `b`'s among the
      movements of `tipo`. */
  function SeenBefore(movs: seq<Movimento>, tipo: string): (TopRow, TopRow) -> bool
  {
    (a: TopRow, b: TopRow) =>
      FirstAt(movs, Sel(tipo, None), CategoriaKey, a.categoria) < FirstAt(movs, Sel(tipo, None), CategoriaKey, b.categoria)
  }

  /** At most `max(0, n)` rows, taken from the top of the ranking (all of
      it when it is shorter), and no category left out has a larger total
      than one kept. */
  lemma TopBest(movs: seq<Movimento>, n: int, tipo: string)
    ensures var top := Top(movs, n, tipo);
      var ranking := Ranking(movs, tipo);
      && |top| <= Max0(n)
      && top == ranking[..|top|]
      && (|top| < Max0(n) ==> top == ranking)
      && (forall i, j :: 0 <= i < |top| <= j < |ranking| ==> top[i].total >= ranking[j].total)
  {
    SortDescSpec(Pairs(TallyOf(movs, Sel(tipo, None), CategoriaKey)), Total);
    PrefixBest(Ranking(movs, tipo), Max0(n));
  }

  /** Cutting a non-increasing ranking at `m` rows keeps its best rows. */
  lemma PrefixBest(ranking: seq<TopRow>, m: nat)
    requires NonIncreasing(ranking, Total)
    ensures var top := if |ranking| <= m then ranking else ranking[..m];
      && |top| <= m
      && top == ranking[..|top|]
      && (|top| < m ==> top == ranking)
      && (forall i, j :: 0 <= i < |top| <= j < |ranking| ==> top[i].total >= ranking[j].total)
  {
    var top := if |ranking| <= m then ranking else ranking[..m];
    forall i, j | 0 <= i < |top| <= j < |ranking|
      ensures top[i].total >= ranking[j].total
    {
      assert top[i] == ranking[i];
      assert Total(ranking[i]) >= Total(ranking[j]);
    }
  }

  /** Totals are non-increasing and equal totals keep the order in which
      the categories first appeared. */
  lemma TopOrder(movs: seq<Movimento>, n: int, tipo: string)
    ensures var top := Top(movs, n, tipo);
      forall i, j :: 0 <= i < j < |top| ==>
        top[i].total > top[j].total
        || (top[i].total == top[j].total && SeenBefore(movs, tipo)(top[i], top[j]))
  {
    var sel := Sel(tipo, None);
    var pairs := Pairs(TallyOf(movs, sel, CategoriaKey));
    TallyOrder(movs, sel, CategoriaKey);
    SortDescTies(pairs, Total, SeenBefore(movs, tipo));
    var ranking := Ranking(movs, tipo);
    var top := Top(movs, n, tipo);
    assert forall i :: 0 <= i < |top| ==> top[i] == ranking[i];
  }

  /** Every row is a category with movements of `tipo`, and its total is
      the sum of their values. */
  lemma TopSums(movs: seq<Movimento>, n: int, tipo: string)
    ensures var top := Top(movs, n, tipo);
      forall i :: 0 <= i < |top| ==>
        && Occurs(movs, Sel(tipo, None), CategoriaKey, top[i].categoria)
        && top[i].total == SumAt(movs, Sel(tipo, None), CategoriaKey, top[i].categoria)
  {
    var sel := Sel(tipo, None);
    var ranking := Ranking(movs, tipo);
    var top := Top(movs, n, tipo);
    forall i | 0 <= i < |top|
      ensures Occurs(movs, sel, CategoriaKey, top[i].categoria)
      ensures top[i].total == SumAt(movs, sel, CategoriaKey, top[i].categoria)
    {
      RankedSum(movs, tipo, i);
    }
  }

  lemma RankedSum(movs: seq<Movimento>, tipo: string, i: int)
    requires 0 <= i < |Ranking(movs, tipo)|
    ensures Occurs(movs, Sel(tipo, None), CategoriaKey, Ranking(movs, tipo)[i].categoria)
    ensures Ranking(movs, tipo)[i].total == SumAt(movs, Sel(tipo, None), CategoriaKey, Ranking(movs, tipo)[i].categoria)
  {
    var sel := Sel(tipo, None);
    var t := TallyOf(movs, sel, CategoriaKey);
    var pairs := Pairs(t);
    var ranking := Ranking(movs, tipo);
    SortDescSpec(pairs, Total);
    TallySpec(movs, sel, CategoriaKey);
    assert ranking[i] in multiset(pairs);
    var k :| 0 <= k < |pairs| && pairs[k] == ranking[i];
    assert Keys(t)[k] == t[k].key;
    LookupAt(t, k);
  }

  // ---------------------------------------------------------------------
  // alertas
  // ---------------------------------------------------------------------

  function Excesso(a: Alerta): int
  {
    a.excesso
  }

  /** The despesas of one category. */
  function DespesasOf(cat: string): Sel
  {
    Sel(Token(Despesa), Some(cat))
  }

  /** The alerts for the buckets of `t` (the spending of one category by
      month or by week) that go over budget `o`. */
  function Breaches(o: Orcamento, periodo: string, t: seq<Entry>): seq<Alerta>
  {
    if t == [] then []
    else
      var e := t[|t| - 1];
      Breaches(o, periodo, t[..|t| - 1])
        + (if e.total > o.limite then [Alerta(o.categoria, periodo, e.key, o.limite, e.total, e.total - o.limite)] else [])
  }

  /** The alerts one budget contributes; a period other than mensal or
      semanal contributes none. */
  function BudgetRows(o: Orcamento, movs: seq<Movimento>): seq<Alerta>
  {
    if o.periodo == Mensal then Breaches(o, Mensal, TallyOf(movs, DespesasOf(o.categoria), MonthKeyFn))
    else if o.periodo == Semanal then Breaches(o, Semanal, TallyOf(movs, DespesasOf(o.categoria), WeekKeyFn))
    else []
  }

  function AlertRows(orcs: seq<Orcamento>, movs: seq<Movimento>): seq<Alerta>
  {
    if orcs == [] then [] else AlertRows(orcs[..|orcs| - 1], movs) + BudgetRows(orcs[|orcs| - 1], movs)
  }

  /** Every despesa's date parses. */
  predicate DespesasDated(movs: seq<Movimento>)
  {
    movs == [] || (DespesasDated(movs[..|movs| - 1]) && (movs[|movs| - 1].tipo == Despesa ==> Dated(movs[|movs| - 1])))
  }

  /** One more movement read by a loop that checks the despesas' dates. */
  lemma DespesasDatedStep(movs: seq<Movimento>, i: int)
    requires 0 <= i < |movs|
    ensures DespesasDated(movs[..i + 1]) == (DespesasDated(movs[..i]) && (movs[i].tipo == Despesa ==> Dated(movs[i])))
  {
    assert movs[..i + 1][..i] == movs[..i];
  }

  lemma {:induction false} DespesasDatedAt(movs: seq<Movimento>)
    ensures DespesasDated(movs) <==> forall k :: 0 <= k < |movs| && movs[k].tipo == Despesa ==> Dated(movs[k])
  {
    if movs != [] {
      var p := movs[..|movs| - 1];
      DespesasDatedAt(p);
      assert forall k :: 0 <= k < |p| ==> p[k] == movs[k];
    }
  }

  /** `alertas` over already filtered movements and the stored budgets. */
  function AlertReport(movs: seq<Movimento>, orcs: seq<Orcamento>): Result<seq<Alerta>, Failure>
  {
    if orcs == [] then Ok([])
    else if !DespesasDated(movs) then Err(ParseError)
    else Ok(SortDesc(AlertRows(orcs, movs), Excesso))
  }

  function KeyFor(periodo: string): KeyFn
  {
    if periodo == Mensal then MonthKeyFn else WeekKeyFn
  }

  /** The alert budget `o` raises for bucket `ref`. */
  predicate Raises(o: Orcamento, movs: seq<Movimento>, ref: string, a: Alerta)
  {
    && (o.periodo == Mensal || o.periodo == Semanal)
    && Occurs(movs, DespesasOf(o.categoria), KeyFor(o.periodo), ref)
    && var gasto := SumAt(movs, DespesasOf(o.categoria), KeyFor(o.periodo), ref);
       gasto > o.limite
       && a == Alerta(o.categoria, o.periodo, ref, o.limite, gasto, gasto - o.limite)
  }

  /** Budget `o` raises alert `a` for some month or week. */
  ghost predicate RaisedBy(o: Orcamento, movs: seq<Movimento>, a: Alerta)
  {
    exists ref :: Raises(o, movs, ref, a)
  }

  lemma {:induction false} BreachesSpec(o: Orcamento, periodo: string, t: seq<Entry>, a: Alerta)
    ensures a in Breaches(o, periodo, t) <==>
      exists i :: 0 <= i < |t| && t[i].total > o.limite
        && a == Alerta(o.categoria, periodo, t[i].key, o.limite, t[i].total, t[i].total - o.limite)
  {
    if t != [] {
      var t' := t[..|t| - 1];
      BreachesSpec(o, periodo, t', a);
      if exists i :: (0 <= i < |t'| && t'[i].total > o.limite
        && a == Alerta(o.categoria, periodo, t'[i].key, o.limite, t'[i].total, t'[i].total - o.limite)) {
        var i :| 0 <= i < |t'| && t'[i].total > o.limite
          && a == Alerta(o.categoria, periodo, t'[i].key, o.limite, t'[i].total, t'[i].total - o.limite);
        assert t[i] == t'[i];
      }
      if exists i :: (0 <= i < |t| && t[i].total > o.limite
        && a == Alerta(o.categoria, periodo, t[i].key, o.limite, t[i].total, t[i].total - o.limite)) {
        var i :| 0 <= i < |t| && t[i].total > o.limite
          && a == Alerta(o.categoria, periodo, t[i].key, o.limite, t[i].total, t[i].total - o.limite);
        if i < |t'| {
          assert t[i] == t'[i];
        }
      }
    }
  }

  /** A budget raises exactly the alerts for the buckets its category's
      spending goes over it in. */
  lemma BudgetRowsSpec(o: Orcamento, movs: seq<Movimento>, a: Alerta)
    ensures a in BudgetRows(o, movs) <==> RaisedBy(o, movs, a)
  {
    if o.periodo == Mensal || o.periodo == Semanal {
      var t := TallyOf(movs, DespesasOf(o.categoria), KeyFor(o.periodo));
      assert BudgetRows(o, movs) == Breaches(o, o.periodo, t);
      if a in BudgetRows(o, movs) {
        BreachRaised(o, movs, a);
      }
      if RaisedBy(o, movs, a) {
        RaisedBreach(o, movs, a);
      }
    }
  }

  /** An over-limit entry of the budget's accumulator is an alert it raises. */
  lemma BreachRaised(o: Orcamento, movs: seq<Movimento>, a: Alerta)
    requires o.periodo == Mensal || o.periodo == Semanal
    requires a in Breaches(o, o.periodo, TallyOf(movs, DespesasOf(o.categoria), KeyFor(o.periodo)))
    ensures RaisedBy(o, movs, a)
  {
    var t := TallyOf(movs, DespesasOf(o.categoria), KeyFor(o.periodo));
    BreachesSpec(o, o.periodo, t, a);
    TallySpec(movs, DespesasOf(o.categoria), KeyFor(o.periodo));
    var i :| 0 <= i < |t| && t[i].total > o.limite
      && a == Alerta(o.categoria, o.periodo, t[i].key, o.limite, t[i].total, t[i].total - o.limite);
    assert Keys(t)[i] == t[i].key;
    LookupAt(t, i);
    assert Raises(o, movs, t[i].key, a);
  }

  /** An alert the budget raises is an over-limit entry of its accumulator. */
  lemma RaisedBreach(o: Orcamento, movs: seq<Movimento>, a: Alerta)
    requires RaisedBy(o, movs, a)
    ensures a in Breaches(o, o.periodo, TallyOf(movs, DespesasOf(o.categoria), KeyFor(o.periodo)))
  {
    var t := TallyOf(movs, DespesasOf(o.categoria), KeyFor(o.periodo));
    BreachesSpec(o, o.periodo, t, a);
    TallySpec(movs, DespesasOf(o.categoria), KeyFor(o.periodo));
    var ref :| Raises(o, movs, ref, a);
    assert ref in Keys(t);
    var i :| 0 <= i < |t| && Keys(t)[i] == ref;
    LookupAt(t, i);
  }

  lemma {:induction false} AlertRowsSpec(orcs: seq<Orcamento>, movs: seq<Movimento>, a: Alerta)
    ensures a in AlertRows(orcs, movs) <==> exists k :: 0 <= k < |orcs| && RaisedBy(orcs[k], movs, a)
  {
    if orcs != [] {
      var init := orcs[..|orcs| - 1];
      AlertRowsSpec(init, movs, a);
      BudgetRowsSpec(orcs[|orcs| - 1], movs, a);
      ExistsSplitLast(orcs, init, o => RaisedBy(o, movs, a));
    }
  }

  /** No budgets, no alerts. Otherwise: an error exactly when a despesa's
      date does not parse; the rows are exactly the alerts the budgets
      raise (each over its limit, with excesso = gasto - limite > 0), by
      non-increasing excesso. */
  lemma AlertasSpec(movs: seq<Movimento>, orcs: seq<Orcamento>)
    ensures orcs == [] ==> AlertReport(movs, orcs) == Ok([])
    ensures orcs != [] ==> (AlertReport(movs, orcs).Ok? <==> DespesasDated(movs))
    ensures AlertReport(movs, orcs).Ok? ==>
      var rows := AlertReport(movs, orcs).value;
      && NonIncreasing(rows, Excesso)
      && (forall a :: a in rows <==> exists k :: 0 <= k < |orcs| && RaisedBy(orcs[k], movs, a))
      && (forall a :: a in rows ==> a.gasto > a.limite && a.excesso == a.gasto - a.limite > 0)
  {
    if orcs != [] && DespesasDated(movs) {
      var base := AlertRows(orcs, movs);
      SortDescSpec(base, Excesso);
      forall a ensures a in SortDesc(base, Excesso) <==> exists k :: 0 <= k < |orcs| && RaisedBy(orcs[k], movs, a) {
        AlertRowsSpec(orcs, movs, a);
        assert a in SortDesc(base, Excesso) <==> a in multiset(base);
      }
    }
  }

  function WithExcesso(e: int): Alerta -> bool
  {
    (a: Alerta) => a.excesso == e
  }

  /** The sort is stable: rows with equal excesso keep the order in which
      the budgets, and within a budget its buckets, raised them. */
  lemma AlertasTies(movs: seq<Movimento>, orcs: seq<Orcamento>, e: int)
    ensures AlertReport(movs, orcs).Ok? && orcs != [] ==>
      Filter(AlertReport(movs, orcs).value, WithExcesso(e)) == Filter(AlertRows(orcs, movs), WithExcesso(e))
  {
    if AlertReport(movs, orcs).Ok? && orcs != [] {
      SortDescStable(AlertRows(orcs, movs), Excesso, WithExcesso(e));
    }
  }

  /** A budget whose period is neither mensal nor semanal raises nothing. */
  lemma OtherPeriodoSilent(o: Orcamento, movs: seq<Movimento>, ref: string, a: Alerta)
    requires o.periodo != Mensal && o.periodo != Semanal
    ensures BudgetRows(o, movs) == [] && !Raises(o, movs, ref, a)
  {
  }

  // ---------------------------------------------------------------------
  // the report object
  // ---------------------------------------------------------------------

  class Reports {
    const storage: Storage

    constructor (storage: Storage)
      ensures this.storage == storage
    {
      this.storage := storage;
    }

    /** `_filtro_periodo`. */
    method FiltroPeriodo(movs: seq<Movimento>, inicio: Option<string>, fim: Option<string>)
      returns (r: Result<seq<Movimento>, Failure>)
      ensures r == Periodo(movs, inicio, fim)
    {
      if !Given(inicio) && !Given(fim) {
        return Ok(movs);
      }
      var lo := Bound(inicio);
      if lo.Err? {
        return Err(ParseError);
      }
      var hi := Bound(fim);
      if hi.Err? {
        return Err(ParseError);
      }
      r := NaJanela(movs, lo.value, hi.value);
    }

    /** `_load_movs`. */
    method LoadMovs(inicio: Option<string>, fim: Option<string>) returns (r: Result<seq<Movimento>, Failure>)
      ensures r == Periodo(storage.movimentos, inicio, fim)
    {
      var movs := storage.CarregarMovimentos();
      r := FiltroPeriodo(movs, inicio, fim);
    }

    /** `totais_por_cat(inicio, fim)`. */
    method TotaisPorCat(inicio: Option<string> := None, fim: Option<string> := None) returns (r: Result<seq<CatRow>, Failure>)
      ensures Periodo(storage.movimentos, inicio, fim).Err? ==> r == Err(ParseError)
      ensures Periodo(storage.movimentos, inicio, fim).Ok? ==> r == Ok(Totais(Periodo(storage.movimentos, inicio, fim).value))
    {
      var loaded := LoadMovs(inicio, fim);
      if loaded.Err? {
        return Err(ParseError);
      }
      var rows := SomarPorCategoria(loaded.value);
      return Ok(rows);
    }

    /** `cashflow_semanal(inicio, fim)`. */
    method CashflowSemanal(inicio: Option<string> := None, fim: Option<string> := None) returns (r: Result<seq<WeekRow>, Failure>)
      ensures Periodo(storage.movimentos, inicio, fim).Err? ==> r == Err(ParseError)
      ensures Periodo(storage.movimentos, inicio, fim).Ok? ==> r == Cashflow(Periodo(storage.movimentos, inicio, fim).value)
    {
      var loaded := LoadMovs(inicio, fim);
      if loaded.Err? {
        return Err(ParseError);
      }
      r := SomarPorSemana(loaded.value);
    }

    /** `top_categorias(n, tipo, inicio, fim)`. */
    method TopCategorias(n: int := 5, tipo: string := "despesa", inicio: Option<string> := None, fim: Option<string> := None)
      returns (r: Result<seq<TopRow>, Failure>)
      ensures Periodo(storage.movimentos, inicio, fim).Err? ==> r == Err(ParseError)
      ensures Periodo(storage.movimentos, inicio, fim).Ok? ==> r == Ok(Top(Periodo(storage.movimentos, inicio, fim).value, n, tipo))
    {
      var loaded := LoadMovs(inicio, fim);
      if loaded.Err? {
        return Err(ParseError);
      }
      var rows := Classificar(loaded.value, n, tipo);
      return Ok(rows);
    }

    /** `alertas(inicio, fim)`. */
    method Alertas(inicio: Option<string> := None, fim: Option<string> := None) returns (r: Result<seq<Alerta>, Failure>)
      ensures Periodo(storage.movimentos, inicio, fim).Err? ==> r == Err(ParseError)
      ensures Periodo(storage.movimentos, inicio, fim).Ok? ==>
        r == AlertReport(Periodo(storage.movimentos, inicio, fim).value, storage.orcamentos)
    {
      var loaded := LoadMovs(inicio, fim);
      if loaded.Err? {
        return Err(ParseError);
      }
      var orcs := storage.CarregarOrcamentos();
      r := Excessos(loaded.value, orcs);
    }
  }

  // ---------------------------------------------------------------------
  // the loops of the reports, over movements already filtered by period
  // ---------------------------------------------------------------------

  /** One more movement read by the loop of `_filtro_periodo`. */
  lemma JanelaStep(movs: seq<Movimento>, i: int, lo: Option<DateTime>, hi: Option<DateTime>)
    requires 0 <= i < |movs|
    ensures Filter(movs[..i + 1], InPeriod(lo, hi))
         == Filter(movs[..i], InPeriod(lo, hi)) + (if InPeriod(lo, hi)(movs[i]) then [movs[i]] else [])
  {
    assert movs[..i + 1][..i] == movs[..i];
  }

  /** The loop of `_filtro_periodo` once the bounds are parsed. */
  method NaJanela(movs: seq<Movimento>, lo: Option<DateTime>, hi: Option<DateTime>)
    returns (r: Result<seq<Movimento>, Failure>)
    ensures r == if AllDated(movs) then Ok(Filter(movs, InPeriod(lo, hi))) else Err(ParseError)
  {
    var out := [];
    var i := 0;
    while i < |movs|
      invariant 0 <= i <= |movs|
      invariant AllDated(movs[..i])
      invariant out == Filter(movs[..i], InPeriod(lo, hi))
    {
      var m := movs[i];
      var dt := ParseIso(m.data);
      if dt.None? {
        Undated(movs, i);
        return Err(ParseError);
      }
      DatedStep(movs, i);
      JanelaStep(movs, i, lo, hi);
      // skipped when before `inicio` or after `fim`
      var skip := (lo.Some? && Before(dt.value, lo.value)) || (hi.Some? && Before(hi.value, dt.value));
      if !skip {
        out := out + [m];
      }
      i := i + 1;
    }
    assert movs[..i] == movs;
    return Ok(out);
  }

  // ---------------------------------------------------------------------

  /** The two loops of `totais_por_cat`: sums per category, then one row
      per category, sorted by |saldo|. */
  method SomarPorCategoria(movs: seq<Movimento>) returns (rows: seq<CatRow>)
    ensures rows == Totais(movs)
  {
    var rec, des := TalliesPorCategoria(movs);
    var cats := SortedSet(Keys(rec) + Keys(des));
    assert cats == Categorias(movs);
    var res := LinhasPorCategoria(cats, rec, des);
    rows := SortDesc(res, AbsSaldo);
  }

  /** The loop of `totais_por_cat` over the movements: receitas and
      despesas summed per category. */
  method TalliesPorCategoria(movs: seq<Movimento>) returns (rec: seq<Entry>, des: seq<Entry>)
    ensures rec == TallyOf(movs, RECEITAS, CategoriaKey)
    ensures des == TallyOf(movs, DESPESAS, CategoriaKey)
  {
    rec, des := [], [];
    var i := 0;
    while i < |movs|
      invariant 0 <= i <= |movs|
      invariant rec == TallyOf(movs[..i], RECEITAS, CategoriaKey)
      invariant des == TallyOf(movs[..i], DESPESAS, CategoriaKey)
    {
      var m := movs[i];
      CategoriaStep(movs, i);
      if m.tipo == Receita {
        rec := Add(rec, m.categoria, m.valor);
      } else if m.tipo == Despesa {
        des := Add(des, m.categoria, m.valor);
      }
      i := i + 1;
    }
    assert movs[..i] == movs;
  }

  /** One turn of the loop of `totais_por_cat` over the movements. */
  lemma CategoriaStep(movs: seq<Movimento>, i: int)
    requires 0 <= i < |movs|
    ensures var m, rec, des := movs[i], TallyOf(movs[..i], RECEITAS, CategoriaKey), TallyOf(movs[..i], DESPESAS, CategoriaKey);
      m.tipo == Receita ==>
        TallyOf(movs[..i + 1], RECEITAS, CategoriaKey) == Add(rec, m.categoria, m.valor)
        && TallyOf(movs[..i + 1], DESPESAS, CategoriaKey) == des
    ensures var m, rec, des := movs[i], TallyOf(movs[..i], RECEITAS, CategoriaKey), TallyOf(movs[..i], DESPESAS, CategoriaKey);
      m.tipo == Despesa ==>
        TallyOf(movs[..i + 1], RECEITAS, CategoriaKey) == rec
        && TallyOf(movs[..i + 1], DESPESAS, CategoriaKey) == Add(des, m.categoria, m.valor)
  {
    KindStep(movs, i, Receita, CategoriaKey);
    KindStep(movs, i, Despesa, CategoriaKey);
  }

  /** One turn of a loop summing the movements of one tipo. */
  lemma KindStep(movs: seq<Movimento>, i: int, tipo: Tipo, key: KeyFn)
    requires 0 <= i < |movs|
    ensures var sel := Sel(Token(tipo), None);
      TallyOf(movs[..i + 1], sel, key) ==
        if movs[i].tipo == tipo then Add(TallyOf(movs[..i], sel, key), key(movs[i]), movs[i].valor)
        else TallyOf(movs[..i], sel, key)
  {
    TallyStep(movs, i, Sel(Token(tipo), None), key);
    SelectedTipo(movs[i], tipo, None);
  }

  /** The loops of `cashflow_semanal`. Every date is turned into a week
      key, so one that does not parse is an error. The closing `sort` by
      week is left out: the rows are already strictly increasing by week
      (`CashflowOrder`), so a stable sort by that key leaves them as they are. */
  method SomarPorSemana(movs: seq<Movimento>) returns (r: Result<seq<WeekRow>, Failure>)
    ensures r == Cashflow(movs)
  {
    var rec, des := [], [];
    var i := 0;
    while i < |movs|
      invariant 0 <= i <= |movs|
      invariant AllDated(movs[..i])
      invariant rec == TallyOf(movs[..i], RECEITAS, WeekKeyFn)
      invariant des == TallyOf(movs[..i], DESPESAS, WeekKeyFn)
    {
      var m := movs[i];
      DatedStep(movs, i);
      KindStep(movs, i, Receita, WeekKeyFn);
      KindStep(movs, i, Despesa, WeekKeyFn);
      var wk := WeekKeyOf(m.data);
      if wk.None? {
        Undated(movs, i);
        return Err(ParseError);
      }
      assert WeekKeyFn(m) == wk.value;
      if m.tipo == Receita {
        rec := Add(rec, wk.value, m.valor);
      } else if m.tipo == Despesa {
        des := Add(des, wk.value, m.valor);
      }
      i := i + 1;
    }
    assert movs[..i] == movs;
    var semanas := SortedSet(Keys(rec) + Keys(des));
    var res := LinhasPorSemana(semanas, rec, des);
    return Ok(res);
  }

  /** The loop of `totais_por_cat` that builds one row per category. */
  method LinhasPorCategoria(cats: seq<string>, rec: seq<Entry>, des: seq<Entry>) returns (res: seq<CatRow>)
    ensures res == CatRows(cats, rec, des)
  {
    res := [];
    var j := 0;
    while j < |cats|
      invariant 0 <= j <= |cats|
      invariant res == CatRows(cats[..j], rec, des)
    {
      var c := cats[j];
      assert cats[..j + 1][..j] == cats[..j];
      var receita := Lookup(rec, c);
      var despesa := Lookup(des, c);
      var saldo := receita - despesa;
      res := res + [CatRow(c, despesa, receita, saldo)];
      j := j + 1;
    }
    assert cats[..j] == cats;
  }

  /** The loop of `cashflow_semanal` that builds one row per week. */
  method LinhasPorSemana(semanas: seq<string>, rec: seq<Entry>, des: seq<Entry>) returns (res: seq<WeekRow>)
    ensures res == WeekRows(semanas, rec, des)
  {
    res := [];
    var j := 0;
    while j < |semanas|
      invariant 0 <= j <= |semanas|
      invariant res == WeekRows(semanas[..j], rec, des)
    {
      var s := semanas[j];
      assert semanas[..j + 1][..j] == semanas[..j];
      var receita := Lookup(rec, s);
      var despesa := Lookup(des, s);
      res := res + [WeekRow(s, receita, despesa, receita - despesa)];
      j := j + 1;
    }
    assert semanas[..j] == semanas;
  }

  /** The loop of `top_categorias`, the sort by total and the cut at `n`. */
  method Classificar(movs: seq<Movimento>, n: int, tipo: string) returns (rows: seq<TopRow>)
    ensures rows == Top(movs, n, tipo)
  {
    var soma := [];
    var i := 0;
    while i < |movs|
      invariant 0 <= i <= |movs|
      invariant soma == TallyOf(movs[..i], Sel(tipo, None), CategoriaKey)
    {
      var m := movs[i];
      TallyStep(movs, i, Sel(tipo, None), CategoriaKey);
      if Token(m.tipo) == tipo {
        soma := Add(soma, m.categoria, m.valor);
      }
      i := i + 1;
    }
    assert movs[..i] == movs;
    var pares := SortDesc(Pairs(soma), Total);
    var k := Max0(n);
    rows := if |pares| <= k then pares else pares[..k];
  }

  /** One turn of the loop of `alertas` over the movements, seen from the
      accumulator of category `c`. */
  lemma DespesaStep(movs: seq<Movimento>, i: int, c: string, key: KeyFn)
    requires 0 <= i < |movs|
    ensures TallyOf(movs[..i + 1], DespesasOf(c), key) ==
      if movs[i].tipo == Despesa && movs[i].categoria == c
      then Add(TallyOf(movs[..i], DespesasOf(c), key), key(movs[i]), movs[i].valor)
      else TallyOf(movs[..i], DespesasOf(c), key)
  {
    TallyStep(movs, i, DespesasOf(c), key);
    SelectedTipo(movs[i], Despesa, Some(c));
  }

  /** The per-category accumulator after one movement: a despesa adds its
      valor to its category's bucket, anything else leaves it alone. */
  function Accumulated(before: map<string, seq<Entry>>, m: Movimento, key: KeyFn): map<string, seq<Entry>>
  {
    if m.tipo == Despesa then before[m.categoria := Add(Inner(before, m.categoria), key(m), m.valor)]
    else before
  }

  /** Category-by-category accumulators after the turn for `movs[i]`. */
  lemma AccumulateStep(movs: seq<Movimento>, i: int, key: KeyFn, before: map<string, seq<Entry>>, after: map<string, seq<Entry>>)
    requires 0 <= i < |movs|
    requires forall c :: Inner(before, c) == TallyOf(movs[..i], DespesasOf(c), key)
    requires after == Accumulated(before, movs[i], key)
    ensures forall c :: Inner(after, c) == TallyOf(movs[..i + 1], DespesasOf(c), key)
  {
    forall c ensures Inner(after, c) == TallyOf(movs[..i + 1], DespesasOf(c), key) {
      DespesaStep(movs, i, c, key);
    }
  }

  /** `alertas`, over movements already filtered by period: no budgets, no
      alerts; otherwise the spending per category and month and per
      category and ISO week, then the buckets over each budget's limit,
      sorted by excesso. */
  method Excessos(movs: seq<Movimento>, orcs: seq<Orcamento>) returns (r: Result<seq<Alerta>, Failure>)
    ensures r == AlertReport(movs, orcs)
  {
    if orcs == [] {
      return Ok([]);
    }
    var ok, mensal, semanal := GastosPorPeriodo(movs);
    if !ok {
      return Err(ParseError);
    }
    var res := AlertasDosOrcamentos(orcs, movs, mensal, semanal);
    return Ok(SortDesc(res, Excesso));
  }

  /** One turn of the loop of `alertas`: a despesa whose date does not
      parse stops it; any other despesa is added to its month and its week. */
  method Registar(m: Movimento, mensal: map<string, seq<Entry>>, semanal: map<string, seq<Entry>>)
    returns (dated: bool, mensal': map<string, seq<Entry>>, semanal': map<string, seq<Entry>>)
    ensures dated <==> (m.tipo == Despesa ==> Dated(m))
    ensures dated ==> mensal' == Accumulated(mensal, m, MonthKeyFn)
    ensures dated ==> semanal' == Accumulated(semanal, m, WeekKeyFn)
  {
    mensal', semanal' := mensal, semanal;
    if m.tipo == Despesa {
      var cat := m.categoria;
      var ref := MonthKeyOf(m.data);
      if ref.None? {
        return false, mensal, semanal;
      }
      var wk := WeekKeyOf(m.data);
      KeyFnsOf(m);
      mensal' := mensal[cat := Add(Inner(mensal, cat), ref.value, m.valor)];
      semanal' := semanal[cat := Add(Inner(semanal, cat), wk.value, m.valor)];
      AccumulatedDespesa(mensal, m, MonthKeyFn, ref.value);
      AccumulatedDespesa(semanal, m, WeekKeyFn, wk.value);
    }
    dated := true;
  }

  lemma AccumulatedDespesa(before: map<string, seq<Entry>>, m: Movimento, key: KeyFn, k: string)
    requires m.tipo == Despesa && key(m) == k
    ensures Accumulated(before, m, key) == before[m.categoria := Add(Inner(before, m.categoria), k, m.valor)]
  {
  }

  /** For a movement whose date parses, the bucket keys are those of its date. */
  lemma KeyFnsOf(m: Movimento)
    requires MonthKeyOf(m.data).Some?
    ensures Dated(m)
    ensures MonthKeyOf(m.data) == Some(MonthKeyFn(m)) && WeekKeyOf(m.data) == Some(WeekKeyFn(m))
  {
    KeysDefinedTogether(m.data);
  }

  /** The loop of `alertas` over the movements: the despesas summed per
      category and month and per category and ISO week. */
  method GastosPorPeriodo(movs: seq<Movimento>)
    returns (ok: bool, mensal: map<string, seq<Entry>>, semanal: map<string, seq<Entry>>)
    ensures ok <==> DespesasDated(movs)
    ensures ok ==> forall c :: Inner(mensal, c) == TallyOf(movs, DespesasOf(c), MonthKeyFn)
    ensures ok ==> forall c :: Inner(semanal, c) == TallyOf(movs, DespesasOf(c), WeekKeyFn)
  {
    mensal, semanal := map[], map[];
    var i := 0;
    while i < |movs|
      invariant 0 <= i <= |movs|
      invariant DespesasDated(movs[..i])
      invariant forall c :: Inner(mensal, c) == TallyOf(movs[..i], DespesasOf(c), MonthKeyFn)
      invariant forall c :: Inner(semanal, c) == TallyOf(movs[..i], DespesasOf(c), WeekKeyFn)
    {
      DespesasDatedStep(movs, i);
      var dated, mensal', semanal' := Registar(movs[i], mensal, semanal);
      if !dated {
        UndatedDespesa(movs, i);
        return false, mensal, semanal;
      }
      AccumulateStep(movs, i, MonthKeyFn, mensal, mensal');
      AccumulateStep(movs, i, WeekKeyFn, semanal, semanal');
      mensal, semanal := mensal', semanal';
      i := i + 1;
    }
    assert movs[..i] == movs;
    ok := true;
  }

  /** The loop of `alertas` over the budgets. */
  method AlertasDosOrcamentos(orcs: seq<Orcamento>, movs: seq<Movimento>,
                              mensal: map<string, seq<Entry>>, semanal: map<string, seq<Entry>>)
    returns (res: seq<Alerta>)
    requires forall c :: Inner(mensal, c) == TallyOf(movs, DespesasOf(c), MonthKeyFn)
    requires forall c :: Inner(semanal, c) == TallyOf(movs, DespesasOf(c), WeekKeyFn)
    ensures res == AlertRows(orcs, movs)
  {
    res := [];
    var k := 0;
    while k < |orcs|
      invariant 0 <= k <= |orcs|
      invariant res == AlertRows(orcs[..k], movs)
    {
      var o := orcs[k];
      assert orcs[..k + 1][..k] == orcs[..k];
      if o.periodo == Mensal {
        var novos := Estouros(o, Mensal, Inner(mensal, o.categoria));
        res := res + novos;
      } else if o.periodo == Semanal {
        var novos := Estouros(o, Semanal, Inner(semanal, o.categoria));
        res := res + novos;
      }
      k := k + 1;
    }
    assert orcs[..k] == orcs;
  }

  /** The innermost loop of `alertas`: the buckets of one category that go
      over budget `o`. */
  method Estouros(o: Orcamento, periodo: string, gastos: seq<Entry>) returns (res: seq<Alerta>)
    ensures res == Breaches(o, periodo, gastos)
  {
    res := [];
    var j := 0;
    while j < |gastos|
      invariant 0 <= j <= |gastos|
      invariant res == Breaches(o, periodo, gastos[..j])
    {
      var e := gastos[j];
      assert gastos[..j + 1][..j] == gastos[..j];
      if e.total > o.limite {
        res := res + [Alerta(o.categoria, periodo, e.key, o.limite, e.total, e.total - o.limite)];
      }
      j := j + 1;
    }
    assert gastos[..j] == gastos;
  }

  /** `gastos.get(cat) or {}`. */
  function Inner(gastos: map<string, seq<Entry>>, cat: string): seq<Entry>
  {
    if cat in gastos then gastos[cat] else []
  }
}
