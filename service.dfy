/** `FinanceService`: records movements and warns when an expense takes its
    category over a monthly or weekly budget, lists and filters the stored
    movements, and creates or updates budgets. */
module Service {
  import opened Basics
  import opened Text
  import opened Calendar
  import opened Models
  import opened Sequences
  import opened Store

  // ---------------------------------------------------------------------
  // listar() and listar_orcamentos(): the store read back through from_dict
  // ---------------------------------------------------------------------

  /** `[Movimento.from_dict(d) for d in carregar_movimentos()]`. */
  function Listed(movs: seq<Movimento>): seq<Movimento>
  {
    seq(|movs|, i requires 0 <= i < |movs| => Reloaded(movs[i]))
  }

  /** `[Orcamento.from_dict(d) for d in carregar_orcamentos()]`. */
  function ListedOrcamentos(orcs: seq<Orcamento>): seq<Orcamento>
  {
    seq(|orcs|, i requires 0 <= i < |orcs| => ReloadedOrcamento(orcs[i]))
  }

  /** Reading the store back never raises: each listed movement is what
      `from_dict` makes of the stored record, in stored order, and
      movements the constructor built come back exactly as stored. */
  lemma ListedSpec(movs: seq<Movimento>)
    ensures |Listed(movs)| == |movs|
    ensures forall i :: 0 <= i < |movs| ==> MovimentoFromDict(MovimentoToDict(movs[i])) == Ok(Listed(movs)[i])
    ensures (forall i :: 0 <= i < |movs| ==> NormalMovimento(movs[i])) ==> Listed(movs) == movs
  {
    forall i | 0 <= i < |movs|
      ensures MovimentoFromDict(MovimentoToDict(movs[i])) == Ok(Listed(movs)[i])
    {
      MovimentoReload(movs[i]);
    }
  }

  /** The same for budgets: budgets that passed `validar` come back exactly
      as stored. */
  lemma ListedOrcamentosSpec(orcs: seq<Orcamento>)
    ensures |ListedOrcamentos(orcs)| == |orcs|
    ensures forall i :: 0 <= i < |orcs| ==> OrcamentoFromDict(OrcamentoToDict(orcs[i])) == Ok(ListedOrcamentos(orcs)[i])
    ensures (forall i :: 0 <= i < |orcs| ==> Stripped(orcs[i].categoria) && ValidarOrcamento(orcs[i]).None?) ==>
      ListedOrcamentos(orcs) == orcs
  {
    forall i | 0 <= i < |orcs|
      ensures OrcamentoFromDict(OrcamentoToDict(orcs[i])) == Ok(ListedOrcamentos(orcs)[i])
      ensures Stripped(orcs[i].categoria) && ValidarOrcamento(orcs[i]).None? ==> ListedOrcamentos(orcs)[i] == orcs[i]
    {
      OrcamentoReload(orcs[i]);
      ReloadedOrcamentoSpec(orcs[i]);
    }
  }

  /** Storing one more movement adds exactly its reading at the end. */
  lemma ListedAppend(movs: seq<Movimento>, m: Movimento)
    requires NormalMovimento(m)
    ensures Listed(movs + [m]) == Listed(movs) + [m]
  {
    var l, r := Listed(movs + [m]), Listed(movs) + [m];
    forall i | 0 <= i < |l| ensures l[i] == r[i] {
      if i < |movs| {
        assert (movs + [m])[i] == movs[i];
      }
    }
  }

  predicate OfPeriodo(o: Orcamento, periodo: string)
  {
    o.periodo == periodo
  }

  /** `listar_orcamentos(periodo)`: every budget, or only those of the given
      period when one is given. */
  function Budgets(orcs: seq<Orcamento>, periodo: Option<string>): seq<Orcamento>
  {
    if Given(periodo) then Filter(ListedOrcamentos(orcs), o => OfPeriodo(o, periodo.value))
    else ListedOrcamentos(orcs)
  }

  /** A budget is listed exactly when it is stored and, if a period is
      given, has that period. */
  lemma BudgetsSpec(orcs: seq<Orcamento>, periodo: Option<string>, o: Orcamento)
    ensures o in Budgets(orcs, periodo) <==> o in ListedOrcamentos(orcs) && (!Given(periodo) || o.periodo == periodo.value)
  {
    if Given(periodo) {
      FilterMembers(ListedOrcamentos(orcs), o => OfPeriodo(o, periodo.value));
    }
  }

  // ---------------------------------------------------------------------
  // listar_filtrado
  // ---------------------------------------------------------------------

  /** The optional arguments of `listar_filtrado`. */
  datatype Criteria = Criteria(inicio: Option<string>, fim: Option<string>, cat: Option<string>,
                               tipo: Option<string>, texto: Option<string>)

  /** The body of the loop of `listar_filtrado`: a movement is kept unless a
      given criterion excludes it. */
  predicate Keep(m: Movimento, c: Criteria)
  {
    && !(Given(c.inicio) && LexLess(m.data, c.inicio.value))
    && !(Given(c.fim) && LexLess(c.fim.value, m.data))
    && !(Given(c.cat) && m.categoria != c.cat.value)
    && !(Given(c.tipo) && Token(m.tipo) != c.tipo.value)
    && !(Given(c.texto) && !Contains(Lower(m.descricao), Lower(c.texto.value)))
  }

  function Filtrado(movs: seq<Movimento>, c: Criteria): seq<Movimento>
  {
    Filter(Listed(movs), m => Keep(m, c))
  }

  /** What each criterion asks for: a date between the bounds, both
      included, in string order; the exact category; the exact tipo token;
      the text somewhere in the description, ignoring case. */
  ghost predicate Meets(m: Movimento, c: Criteria)
  {
    && (Given(c.inicio) ==> m.data == c.inicio.value || LexLess(c.inicio.value, m.data))
    && (Given(c.fim) ==> m.data == c.fim.value || LexLess(m.data, c.fim.value))
    && (Given(c.cat) ==> m.categoria == c.cat.value)
    && (Given(c.tipo) ==> Token(m.tipo) == c.tipo.value)
    && (Given(c.texto) ==> exists i :: OccursAt(Lower(m.descricao), Lower(c.texto.value), i))
  }

  /** The loop's exclusions keep exactly the movements that meet every
      given criterion. */
  lemma KeepMeaning(m: Movimento, c: Criteria)
    ensures Keep(m, c) ==> Meets(m, c)
    ensures Meets(m, c) ==> Keep(m, c)
  {
    if Given(c.inicio) {
      if m.data == c.inicio.value {
        LexIrreflexive(m.data);
      } else if LexLess(c.inicio.value, m.data) {
        LexAsymmetric(c.inicio.value, m.data);
      } else {
        LexTotal(m.data, c.inicio.value);
      }
    }
    if Given(c.fim) {
      if m.data == c.fim.value {
        LexIrreflexive(m.data);
      } else if LexLess(m.data, c.fim.value) {
        LexAsymmetric(m.data, c.fim.value);
      } else {
        LexTotal(m.data, c.fim.value);
      }
    }
    if Given(c.texto) {
      ContainsIff(Lower(m.descricao), Lower(c.texto.value));
    }
  }

  /** The result keeps, in stored order, exactly the movements that meet
      every given criterion; with no criterion it is the whole list. */
  lemma FiltradoSpec(movs: seq<Movimento>, c: Criteria)
    ensures forall m :: m in Filtrado(movs, c) <==> m in Listed(movs) && Keep(m, c)
    ensures |Filtrado(movs, c)| <= |movs|
    ensures !Given(c.inicio) && !Given(c.fim) && !Given(c.cat) && !Given(c.tipo) && !Given(c.texto) ==>
      Filtrado(movs, c) == Listed(movs)
  {
    FilterMembers(Listed(movs), m => Keep(m, c));
    if !Given(c.inicio) && !Given(c.fim) && !Given(c.cat) && !Given(c.tipo) && !Given(c.texto) {
      FilterKeepsAll(Listed(movs), m => Keep(m, c));
    }
  }

  // ---------------------------------------------------------------------
  // verificar_overspend
  // ---------------------------------------------------------------------

  /** One of the two inner loops: the sum of the expenses of category `cat`
      whose bucket (month or ISO week of the date) is `ref`. Reading the
      bucket of an expense of that category whose date does not parse
      raises. */
  function Gasto(movs: seq<Movimento>, cat: string, keyOf: string -> Option<string>, ref: string): Result<int, Failure>
  {
    if movs == [] then Ok(0)
    else match Gasto(movs[..|movs| - 1], cat, keyOf, ref)
      case Err(_) => Err(ParseError)
      case Ok(g) =>
        var m := movs[|movs| - 1];
        if m.tipo == Despesa && m.categoria == cat then
          match keyOf(m.data)
          case None => Err(ParseError)
          case Some(k) => Ok(if k == ref then g + m.valor else g)
        else Ok(g)
  }

  predicate InBucket(m: Movimento, cat: string, keyOf: string -> Option<string>, ref: string)
  {
    m.tipo == Despesa && m.categoria == cat && keyOf(m.data) == Some(ref)
  }

  function Valor(m: Movimento): int
  {
    m.valor
  }

  /** The spending sum succeeds exactly when every expense of the category
      has a bucket, and is then the sum over the expenses of the category
      in bucket `ref` and no other movement. */
  lemma {:induction false} GastoSpec(movs: seq<Movimento>, cat: string, keyOf: string -> Option<string>, ref: string)
    ensures Gasto(movs, cat, keyOf, ref).Ok? <==>
      forall k :: 0 <= k < |movs| && movs[k].tipo == Despesa && movs[k].categoria == cat ==> keyOf(movs[k].data).Some?
    ensures Gasto(movs, cat, keyOf, ref).Ok? ==>
      Gasto(movs, cat, keyOf, ref).value == SumBy(Filter(movs, m => InBucket(m, cat, keyOf, ref)), Valor)
  {
    if movs != [] {
      var p, m := movs[..|movs| - 1], movs[|movs| - 1];
      GastoSpec(p, cat, keyOf, ref);
      assert forall k :: 0 <= k < |p| ==> p[k] == movs[k];
      var f := Filter(p, m => InBucket(m, cat, keyOf, ref));
      SumByAppend(f, if InBucket(m, cat, keyOf, ref) then [m] else [], Valor);
      if InBucket(m, cat, keyOf, ref) {
        assert SumBy([m], Valor) == m.valor;
      } else {
        assert SumBy([], Valor) == 0;
      }
    }
  }

  /** Once a prefix of the movements raises, the whole sum raises. */
  lemma {:induction false} GastoErr(movs: seq<Movimento>, n: nat, cat: string, keyOf: string -> Option<string>, ref: string)
    requires n <= |movs| && Gasto(movs[..n], cat, keyOf, ref).Err?
    ensures Gasto(movs, cat, keyOf, ref) == Err(ParseError)
  {
    if n < |movs| {
      var p := movs[..|movs| - 1];
      assert p[..n] == movs[..n];
      GastoErr(p, n, cat, keyOf, ref);
    } else {
      assert movs[..n] == movs;
    }
  }

  /** The alert one budget raises on its own: its bucket's spending, if
      that is over the limit. Periods other than monthly and weekly are
      ignored. */
  function Breach(o: Orcamento, movs: seq<Movimento>, mes: string, sem: string): Result<Option<Alerta>, Failure>
  {
    if o.periodo == Mensal then Over(o, Mensal, mes, Gasto(movs, o.categoria, MonthKeyOf, mes))
    else if o.periodo == Semanal then Over(o, Semanal, sem, Gasto(movs, o.categoria, WeekKeyOf, sem))
    else Ok(None)
  }

  function Over(o: Orcamento, periodo: string, ref: string, gasto: Result<int, Failure>): Result<Option<Alerta>, Failure>
  {
    match gasto
    case Err(_) => Err(ParseError)
    case Ok(g) => Ok(if g > o.limite then Some(Alerta(o.categoria, periodo, ref, o.limite, g, g - o.limite)) else None)
  }

  /** A budget raises an alert only when its bucket's spending is strictly
      over its limit; the alert carries the budget's category, period and
      limit, the bucket, the spending and the excess over the limit. */
  lemma BreachSpec(o: Orcamento, movs: seq<Movimento>, mes: string, sem: string)
    requires Breach(o, movs, mes, sem).Ok? && Breach(o, movs, mes, sem).value.Some?
    ensures var a := Breach(o, movs, mes, sem).value.value;
      && a.categoria == o.categoria && a.limite == o.limite && a.periodo == o.periodo
      && a.gasto > a.limite && a.excesso == a.gasto - a.limite
      && ((o.periodo == Mensal && a.referencia == mes && Gasto(movs, o.categoria, MonthKeyOf, mes) == Ok(a.gasto))
          || (o.periodo == Semanal && a.referencia == sem && Gasto(movs, o.categoria, WeekKeyOf, sem) == Ok(a.gasto)))
  {
  }

  /** The loop over the category's budgets: each breach overwrites the
      alert found so far. */
  function Scan(orcs: seq<Orcamento>, movs: seq<Movimento>, mes: string, sem: string): Result<Option<Alerta>, Failure>
  {
    if orcs == [] then Ok(None)
    else match Scan(orcs[..|orcs| - 1], movs, mes, sem)
      case Err(_) => Err(ParseError)
      case Ok(a) =>
        match Breach(orcs[|orcs| - 1], movs, mes, sem)
        case Err(_) => Err(ParseError)
        case Ok(b) => Ok(if b.Some? then b else a)
  }

  /** The scan succeeds exactly when every budget's sum does. */
  lemma ScanOk(orcs: seq<Orcamento>, movs: seq<Movimento>, mes: string, sem: string)
    ensures Scan(orcs, movs, mes, sem).Ok? <==> forall i :: 0 <= i < |orcs| ==> Breach(orcs[i], movs, mes, sem).Ok?
  {
    var rs := Results(orcs, movs, mes, sem);
    ScanFolds(orcs, movs, mes, sem);
    FoldOk(rs);
  }

  /** The scan finds nothing exactly when no budget is breached. */
  lemma ScanQuiet(orcs: seq<Orcamento>, movs: seq<Movimento>, mes: string, sem: string)
    ensures Scan(orcs, movs, mes, sem) == Ok(None) <==> forall i :: 0 <= i < |orcs| ==> Breach(orcs[i], movs, mes, sem) == Ok(None)
  {
    var rs := Results(orcs, movs, mes, sem);
    ScanFolds(orcs, movs, mes, sem);
    FoldQuiet(rs);
  }

  /** An alert found by the scan is the breach of the last breached budget
      in list order. */
  lemma ScanLast(orcs: seq<Orcamento>, movs: seq<Movimento>, mes: string, sem: string)
    requires Scan(orcs, movs, mes, sem).Ok? && Scan(orcs, movs, mes, sem).value.Some?
    ensures exists i :: 0 <= i < |orcs| && Breach(orcs[i], movs, mes, sem) == Scan(orcs, movs, mes, sem) &&
                        forall j :: i < j < |orcs| ==> Breach(orcs[j], movs, mes, sem) == Ok(None)
  {
    var rs := Results(orcs, movs, mes, sem);
    ScanFolds(orcs, movs, mes, sem);
    FoldLast(rs);
    var i :| 0 <= i < |rs| && rs[i] == Fold(rs) && forall j :: i < j < |rs| ==> rs[j] == Ok(None);
    assert Breach(orcs[i], movs, mes, sem) == rs[i];
    forall j | i < j < |orcs| ensures Breach(orcs[j], movs, mes, sem) == Ok(None) {
      assert Breach(orcs[j], movs, mes, sem) == rs[j];
    }
  }

  /** The result of each budget, in list order. */
  function Results(orcs: seq<Orcamento>, movs: seq<Movimento>, mes: string, sem: string): (rs: seq<Result<Option<Alerta>, Failure>>)
    ensures |rs| == |orcs| && forall i :: 0 <= i < |orcs| ==> rs[i] == Breach(orcs[i], movs, mes, sem)
  {
    seq(|orcs|, i requires 0 <= i < |orcs| => Breach(orcs[i], movs, mes, sem))
  }

  /** `Scan` with the budgets' results already computed. */
  function Fold(rs: seq<Result<Option<Alerta>, Failure>>): Result<Option<Alerta>, Failure>
  {
    if rs == [] then Ok(None)
    else match Fold(rs[..|rs| - 1])
      case Err(_) => Err(ParseError)
      case Ok(a) =>
        match rs[|rs| - 1]
        case Err(_) => Err(ParseError)
        case Ok(b) => Ok(if b.Some? then b else a)
  }

  lemma {:induction false} ScanFolds(orcs: seq<Orcamento>, movs: seq<Movimento>, mes: string, sem: string)
    ensures Scan(orcs, movs, mes, sem) == Fold(Results(orcs, movs, mes, sem))
  {
    if orcs != [] {
      var p := orcs[..|orcs| - 1];
      ScanFolds(p, movs, mes, sem);
      var rs := Results(orcs, movs, mes, sem);
      assert rs[..|rs| - 1] == Results(p, movs, mes, sem);
    }
  }

  lemma {:induction false} FoldOk(rs: seq<Result<Option<Alerta>, Failure>>)
    ensures Fold(rs).Ok? <==> forall i :: 0 <= i < |rs| ==> rs[i].Ok?
  {
    if rs != [] {
      var p := rs[..|rs| - 1];
      FoldOk(p);
      assert forall i :: 0 <= i < |p| ==> p[i] == rs[i];
    }
  }

  lemma {:induction false} FoldQuiet(rs: seq<Result<Option<Alerta>, Failure>>)
    ensures Fold(rs) == Ok(None) <==> forall i :: 0 <= i < |rs| ==> rs[i] == Ok(None)
  {
    if rs != [] {
      var p := rs[..|rs| - 1];
      FoldQuiet(p);
      assert forall i :: 0 <= i < |p| ==> p[i] == rs[i];
    }
  }

  /** A found alert is the last non-empty result, and every later one is empty. */
  lemma {:induction false} FoldLast(rs: seq<Result<Option<Alerta>, Failure>>)
    requires Fold(rs).Ok? && Fold(rs).value.Some?
    ensures exists i :: 0 <= i < |rs| && rs[i] == Fold(rs) && forall j :: i < j < |rs| ==> rs[j] == Ok(None)
  {
    var p := rs[..|rs| - 1];
    if rs[|rs| - 1] == Ok(None) {
      FoldLast(p);
      var i :| 0 <= i < |p| && p[i] == Fold(p) && forall j :: i < j < |p| ==> p[j] == Ok(None);
      assert rs[i] == p[i];
      forall j | i < j < |rs| ensures rs[j] == Ok(None) {
        if j < |p| {
          assert rs[j] == p[j];
        }
      }
    } else {
      assert rs[|rs| - 1] == Fold(rs);
    }
  }

  /** One more budget scanned, after a prefix that raised nothing. */
  lemma ScanStep(orcs: seq<Orcamento>, i: int, movs: seq<Movimento>, mes: string, sem: string)
    requires 0 <= i < |orcs| && Scan(orcs[..i], movs, mes, sem).Ok?
    ensures var b := Breach(orcs[i], movs, mes, sem);
      && (b.Err? ==> Scan(orcs[..i + 1], movs, mes, sem).Err?)
      && (b.Ok? ==> Scan(orcs[..i + 1], movs, mes, sem)
                    == Ok(if b.value.Some? then b.value else Scan(orcs[..i], movs, mes, sem).value))
  {
    assert orcs[..i + 1][..i] == orcs[..i];
  }

  /** Once a prefix of the budgets raises, the whole scan raises. */
  lemma {:induction false} ScanErr(orcs: seq<Orcamento>, n: nat, movs: seq<Movimento>, mes: string, sem: string)
    requires n <= |orcs| && Scan(orcs[..n], movs, mes, sem).Err?
    ensures Scan(orcs, movs, mes, sem) == Err(ParseError)
  {
    if n < |orcs| {
      var p := orcs[..|orcs| - 1];
      assert p[..n] == orcs[..n];
      ScanErr(p, n, movs, mes, sem);
    } else {
      assert orcs[..n] == orcs;
    }
  }

  predicate OfCategoria(o: Orcamento, cat: string)
  {
    o.categoria == cat
  }

  /** `verificar_overspend(movimento)` against the listed budgets and
      movements. */
  function Overspend(m: Movimento, orcs: seq<Orcamento>, movs: seq<Movimento>): Result<Option<Alerta>, Failure>
  {
    if m.tipo != Despesa then Ok(None)
    else
      var mine := Filter(orcs, o => OfCategoria(o, m.categoria));
      if mine == [] then Ok(None)
      else match (MonthKeyOf(m.data), WeekKeyOf(m.data))
        case (Some(mes), Some(sem)) => Scan(mine, movs, mes, sem)
        case _ => Err(ParseError)
  }

  /** No alert for an income, nor for a category without budgets. */
  lemma OverspendQuiet(m: Movimento, orcs: seq<Orcamento>, movs: seq<Movimento>)
    requires m.tipo != Despesa || forall i :: 0 <= i < |orcs| ==> orcs[i].categoria != m.categoria
    ensures Overspend(m, orcs, movs) == Ok(None)
  {
    if m.tipo == Despesa {
      FilterKeepsNone(orcs, o => OfCategoria(o, m.categoria));
    }
  }

  /** An alert is for a budget of the movement's category whose sum went
      strictly over its limit, with excesso = gasto - limite, in the month
      or ISO week of the movement's own date. */
  lemma OverspendAlert(m: Movimento, orcs: seq<Orcamento>, movs: seq<Movimento>)
    requires Overspend(m, orcs, movs).Ok? && Overspend(m, orcs, movs).value.Some?
    ensures var a := Overspend(m, orcs, movs).value.value;
      && m.tipo == Despesa && a.categoria == m.categoria
      && a.gasto > a.limite && a.excesso == a.gasto - a.limite
      && (exists o :: o in orcs && o.categoria == m.categoria && o.limite == a.limite && o.periodo == a.periodo)
      && ((a.periodo == Mensal && MonthKeyOf(m.data) == Some(a.referencia)
           && Gasto(movs, m.categoria, MonthKeyOf, a.referencia) == Ok(a.gasto))
          || (a.periodo == Semanal && WeekKeyOf(m.data) == Some(a.referencia)
           && Gasto(movs, m.categoria, WeekKeyOf, a.referencia) == Ok(a.gasto)))
  {
    var mine := Filter(orcs, o => OfCategoria(o, m.categoria));
    KeysDefinedTogether(m.data);
    OverspendLast(m, orcs, movs);
    var mes, sem := MonthKeyOf(m.data).value, WeekKeyOf(m.data).value;
    FilterMembers(orcs, o => OfCategoria(o, m.categoria));
    var i :| 0 <= i < |mine| && Breach(mine[i], movs, mes, sem) == Overspend(m, orcs, movs)
      && forall j :: i < j < |mine| ==> Breach(mine[j], movs, mes, sem) == Ok(None);
    assert mine[i] in mine;
    BreachSpec(mine[i], movs, mes, sem);
  }

  /** The alert comes from the last breached budget of the category, and
      there is none exactly when no budget of the category is breached. */
  lemma OverspendLast(m: Movimento, orcs: seq<Orcamento>, movs: seq<Movimento>)
    requires m.tipo == Despesa && MonthKeyOf(m.data).Some?
    ensures var mine := Filter(orcs, o => OfCategoria(o, m.categoria));
      var mes, sem := MonthKeyOf(m.data).value, WeekKeyOf(m.data).value;
      && Overspend(m, orcs, movs) == Scan(mine, movs, mes, sem)
      && (Overspend(m, orcs, movs) == Ok(None) <==> forall i :: 0 <= i < |mine| ==> Breach(mine[i], movs, mes, sem) == Ok(None))
      && (Overspend(m, orcs, movs).Ok? && Overspend(m, orcs, movs).value.Some? ==>
           exists i :: 0 <= i < |mine| && Breach(mine[i], movs, mes, sem) == Overspend(m, orcs, movs)
             && forall j :: i < j < |mine| ==> Breach(mine[j], movs, mes, sem) == Ok(None))
  {
    var mine := Filter(orcs, o => OfCategoria(o, m.categoria));
    KeysDefinedTogether(m.data);
    var mes, sem := MonthKeyOf(m.data).value, WeekKeyOf(m.data).value;
    ScanQuiet(mine, movs, mes, sem);
    if Scan(mine, movs, mes, sem).Ok? && Scan(mine, movs, mes, sem).value.Some? {
      ScanLast(mine, movs, mes, sem);
    }
  }

  /** The spending of a bucket over two expenses of the category, the
      second of which falls in that bucket. */
  lemma TwoExpenses(m1: Movimento, m2: Movimento, cat: string, keyOf: string -> Option<string>, ref: string)
    requires m1.tipo == Despesa && m2.tipo == Despesa && m1.categoria == cat && m2.categoria == cat
    requires keyOf(m1.data).Some? && keyOf(m2.data) == Some(ref)
    ensures Gasto([m1], cat, keyOf, ref) == Ok(if keyOf(m1.data) == Some(ref) then m1.valor else 0)
    ensures Gasto([m1, m2], cat, keyOf, ref) == Ok((if keyOf(m1.data) == Some(ref) then m1.valor else 0) + m2.valor)
  {
    assert [m1][..0] == [];
    assert [m1, m2][..1] == [m1];
  }

  /** The scenario of the monthly test: with a limit of 100.00 on the
      category, an expense of 60.00 raises nothing and a second one of
      50.00 in the same month raises an excess of 10.00 on a sum of
      110.00. */
  lemma SecondExpenseOverMonthlyBudget(m1: Movimento, m2: Movimento, o: Orcamento)
    requires m1.tipo == Despesa && m2.tipo == Despesa
    requires m1.categoria == o.categoria && m2.categoria == o.categoria
    requires o.periodo == Mensal && o.limite == 10000
    requires m1.valor == 6000 && m2.valor == 5000
    requires MonthKeyOf(m1.data).Some? && MonthKeyOf(m2.data) == MonthKeyOf(m1.data)
    ensures Overspend(m1, [o], [m1]) == Ok(None)
    ensures Overspend(m2, [o], [m1, m2]) ==
      Ok(Some(Alerta(o.categoria, Mensal, MonthKeyOf(m1.data).value, 10000, 11000, 1000)))
  {
    var mes := MonthKeyOf(m1.data).value;
    TwoExpenses(m1, m2, o.categoria, MonthKeyOf, mes);
    OverspendSingle(m1, o, [m1]);
    MonthlyBreach(o, [m1], mes, WeekKeyOf(m1.data).value, 6000);
    OverspendSingle(m2, o, [m1, m2]);
    MonthlyBreach(o, [m1, m2], mes, WeekKeyOf(m2.data).value, 11000);
  }

  /** The scenario of the weekly test: with a weekly limit of 30.00, an
      expense of 20.00 raises nothing and a second one of 15.00 in the same
      ISO week raises an excess of 5.00. */
  lemma SecondExpenseOverWeeklyBudget(m1: Movimento, m2: Movimento, o: Orcamento)
    requires m1.tipo == Despesa && m2.tipo == Despesa
    requires m1.categoria == o.categoria && m2.categoria == o.categoria
    requires o.periodo == Semanal && o.limite == 3000
    requires m1.valor == 2000 && m2.valor == 1500
    requires WeekKeyOf(m1.data).Some? && WeekKeyOf(m2.data) == WeekKeyOf(m1.data)
    ensures Overspend(m1, [o], [m1]) == Ok(None)
    ensures Overspend(m2, [o], [m1, m2]) ==
      Ok(Some(Alerta(o.categoria, Semanal, WeekKeyOf(m1.data).value, 3000, 3500, 500)))
  {
    KeysDefinedTogether(m1.data);
    KeysDefinedTogether(m2.data);
    var sem := WeekKeyOf(m1.data).value;
    TwoExpenses(m1, m2, o.categoria, WeekKeyOf, sem);
    OverspendSingle(m1, o, [m1]);
    WeeklyBreach(o, [m1], MonthKeyOf(m1.data).value, sem, 2000);
    OverspendSingle(m2, o, [m1, m2]);
    WeeklyBreach(o, [m1, m2], MonthKeyOf(m2.data).value, sem, 3500);
  }

  /** The scenario of the combined test: a category with a monthly limit of
      50.00 followed by a weekly one of 25.00, and expenses of 20.00 and
      15.00 in the same ISO week. The month total stays within 50.00 (even
      when the week straddles two months), so the alert returned is the
      weekly one, with an excess of 10.00. */
  lemma WeeklyBreachUnderMonthlyBudget(m1: Movimento, m2: Movimento, mensal: Orcamento, semanal: Orcamento)
    requires m1.tipo == Despesa && m2.tipo == Despesa
    requires m1.categoria == mensal.categoria && m2.categoria == mensal.categoria && semanal.categoria == mensal.categoria
    requires mensal.periodo == Mensal && mensal.limite == 5000
    requires semanal.periodo == Semanal && semanal.limite == 2500
    requires m1.valor == 2000 && m2.valor == 1500
    requires WeekKeyOf(m1.data).Some? && WeekKeyOf(m2.data) == WeekKeyOf(m1.data)
    ensures Overspend(m2, [mensal, semanal], [m1, m2]) ==
      Ok(Some(Alerta(mensal.categoria, Semanal, WeekKeyOf(m1.data).value, 2500, 3500, 1000)))
  {
    KeysDefinedTogether(m1.data);
    KeysDefinedTogether(m2.data);
    OverspendPair(m2, mensal, semanal, [m1, m2]);
    WeeklyAfterMonthlyScan(m1, m2, mensal, semanal, MonthKeyOf(m2.data).value, WeekKeyOf(m1.data).value);
  }

  /** The scan behind `WeeklyBreachUnderMonthlyBudget`, in the second
      expense's month and ISO week. */
  lemma WeeklyAfterMonthlyScan(m1: Movimento, m2: Movimento, mensal: Orcamento, semanal: Orcamento, mes: string, sem: string)
    requires m1.tipo == Despesa && m2.tipo == Despesa
    requires m1.categoria == mensal.categoria && m2.categoria == mensal.categoria && semanal.categoria == mensal.categoria
    requires mensal.periodo == Mensal && mensal.limite == 5000
    requires semanal.periodo == Semanal && semanal.limite == 2500
    requires m1.valor == 2000 && m2.valor == 1500
    requires MonthKeyOf(m1.data).Some? && MonthKeyOf(m2.data) == Some(mes)
    requires WeekKeyOf(m1.data) == Some(sem) && WeekKeyOf(m2.data) == Some(sem)
    ensures Scan([mensal, semanal], [m1, m2], mes, sem) == Ok(Some(Alerta(mensal.categoria, Semanal, sem, 2500, 3500, 1000)))
  {
    var movs := [m1, m2];
    TwoExpenses(m1, m2, mensal.categoria, MonthKeyOf, mes);
    MonthlyBreach(mensal, movs, mes, sem, (if MonthKeyOf(m1.data) == Some(mes) then 2000 else 0) + 1500);
    TwoExpenses(m1, m2, semanal.categoria, WeekKeyOf, sem);
    WeeklyBreach(semanal, movs, mes, sem, 3500);
    ScanPair(mensal, semanal, movs, mes, sem);
  }

  /** A monthly budget's result is its month's spending against its limit. */
  lemma MonthlyBreach(o: Orcamento, movs: seq<Movimento>, mes: string, sem: string, g: int)
    requires o.periodo == Mensal && Gasto(movs, o.categoria, MonthKeyOf, mes) == Ok(g)
    ensures Breach(o, movs, mes, sem) == Over(o, Mensal, mes, Ok(g))
  {
  }

  /** A weekly budget's result is its ISO week's spending against its limit. */
  lemma WeeklyBreach(o: Orcamento, movs: seq<Movimento>, mes: string, sem: string, g: int)
    requires o.periodo == Semanal && Gasto(movs, o.categoria, WeekKeyOf, sem) == Ok(g)
    ensures Breach(o, movs, mes, sem) == Over(o, Semanal, sem, Ok(g))
  {
    assert Semanal != Mensal by {
      assert |Semanal| != |Mensal|;
    }
  }

  /** With a single budget, of the movement's category, an expense's check
      is that budget's result in the expense's month and ISO week. */
  lemma OverspendSingle(m: Movimento, o: Orcamento, movs: seq<Movimento>)
    requires m.tipo == Despesa && o.categoria == m.categoria
    requires MonthKeyOf(m.data).Some? || WeekKeyOf(m.data).Some?
    ensures MonthKeyOf(m.data).Some? && WeekKeyOf(m.data).Some?
    ensures Overspend(m, [o], movs) == Breach(o, movs, MonthKeyOf(m.data).value, WeekKeyOf(m.data).value)
  {
    KeysDefinedTogether(m.data);
    var mes, sem := MonthKeyOf(m.data).value, WeekKeyOf(m.data).value;
    ScanSingle(o, movs, mes, sem);
    OverspendOwn(m, [o], movs, mes, sem);
  }

  /** When every budget is of the movement's category, the check scans them
      all in the month and the ISO week of the movement's date. */
  lemma OverspendOwn(m: Movimento, orcs: seq<Orcamento>, movs: seq<Movimento>, mes: string, sem: string)
    requires m.tipo == Despesa && orcs != [] && forall o :: o in orcs ==> o.categoria == m.categoria
    requires MonthKeyOf(m.data) == Some(mes) && WeekKeyOf(m.data) == Some(sem)
    ensures Overspend(m, orcs, movs) == Scan(orcs, movs, mes, sem)
  {
    assert forall i :: 0 <= i < |orcs| ==> orcs[i] in orcs;
    FilterKeepsAll(orcs, o => OfCategoria(o, m.categoria));
  }

  /** With two budgets, both of the movement's category, an expense's check
      scans both in the expense's month and ISO week. */
  lemma OverspendPair(m: Movimento, first: Orcamento, second: Orcamento, movs: seq<Movimento>)
    requires m.tipo == Despesa && first.categoria == m.categoria && second.categoria == m.categoria
    requires MonthKeyOf(m.data).Some? || WeekKeyOf(m.data).Some?
    ensures MonthKeyOf(m.data).Some? && WeekKeyOf(m.data).Some?
    ensures Overspend(m, [first, second], movs) == Scan([first, second], movs, MonthKeyOf(m.data).value, WeekKeyOf(m.data).value)
  {
    KeysDefinedTogether(m.data);
    OverspendOwn(m, [first, second], movs, MonthKeyOf(m.data).value, WeekKeyOf(m.data).value);
  }

  /** Scanning a single budget gives that budget's result. */
  lemma ScanSingle(o: Orcamento, movs: seq<Movimento>, mes: string, sem: string)
    ensures Scan([o], movs, mes, sem) == Breach(o, movs, mes, sem)
  {
    assert [o][..0] == [];
  }

  /** Scanning two budgets, the first of which is not breached. */
  lemma ScanPair(first: Orcamento, second: Orcamento, movs: seq<Movimento>, mes: string, sem: string)
    requires Breach(first, movs, mes, sem) == Ok(None)
    ensures Scan([first, second], movs, mes, sem) == Breach(second, movs, mes, sem)
  {
    assert [first, second][..1] == [first];
    assert [first][..0] == [];
    assert Scan([first], movs, mes, sem) == Ok(None);
  }

  // ---------------------------------------------------------------------
  // add_movimento
  // ---------------------------------------------------------------------

  /** The movement `add_movimento` builds: the next free id, and the
      current time `agora`, written by `isoformat(timespec="seconds")`,
      when no date is given. */
  function Novo(movs: seq<Movimento>, tipo: Tipo, valor: int, categoria: string,
                descricao: Option<string>, metodo: Option<string>, data: Option<string>, agora: DateTime): Movimento
    requires ValidDate(agora)
  {
    NewMovimento(NextId(MovimentoIds(movs)), tipo, valor, categoria, descricao, metodo,
                 Some(if data.None? then FormatIso(agora) else data.value))
  }

  /** The new movement's id is above every stored id (1 on an empty store),
      its date is the given one, or else the current time, which parses
      back to `agora` (so the overspend check never fails on it), and it
      reads back unchanged. */
  lemma NovoSpec(movs: seq<Movimento>, tipo: Tipo, valor: int, categoria: string,
                 descricao: Option<string>, metodo: Option<string>, data: Option<string>, agora: DateTime)
    requires ValidDate(agora)
    ensures var m := Novo(movs, tipo, valor, categoria, descricao, metodo, data, agora);
      && (forall k :: 0 <= k < |movs| ==> movs[k].id < m.id)
      && (movs == [] ==> m.id == 1)
      && (data.Some? ==> m.data == data.value)
      && (data.None? ==> ParseIso(m.data) == Some(agora))
      && Reloaded(m) == m
      && (ValidarMovimento(m).None? <==> valor > 0 && Strip(categoria) != "")
  {
    NextIdFresh(MovimentoIds(movs));
    FormatParses(agora);
  }

  /** What `add_movimento` returns once the movement is stored: the
      movement and its alert, or the error the overspend check raised. */
  function Returned(m: Movimento, alerta: Result<Option<Alerta>, Failure>): Result<(Option<Movimento>, Option<Alerta>), Failure>
  {
    match alerta
    case Err(_) => Err(ParseError)
    case Ok(a) => Ok((Some(m), a))
  }

  // ---------------------------------------------------------------------
  // add_orcamento
  // ---------------------------------------------------------------------

  /** The status `add_orcamento` reports: "criado" or "atualizado". */
  datatype Status = Criado | Atualizado

  predicate SameBudget(o: Orcamento, categoria: string, periodo: string)
  {
    o.categoria == categoria && o.periodo == periodo
  }

  /** Index of the first stored budget with this category and period. */
  function FirstMatch(orcs: seq<Orcamento>, categoria: string, periodo: string): (r: Option<nat>)
    ensures r.Some? ==> r.value < |orcs| && SameBudget(orcs[r.value], categoria, periodo)
    ensures r.Some? ==> forall j :: 0 <= j < r.value ==> !SameBudget(orcs[j], categoria, periodo)
    ensures r.None? ==> forall j :: 0 <= j < |orcs| ==> !SameBudget(orcs[j], categoria, periodo)
  {
    if orcs == [] then None
    else if SameBudget(orcs[0], categoria, periodo) then Some(0)
    else match FirstMatch(orcs[1..], categoria, periodo)
      case None => None
      case Some(i) => Some(i + 1)
  }

  /** The budgets after the upsert, and the status. */
  function Upsert(orcs: seq<Orcamento>, orc: Orcamento): (seq<Orcamento>, Status)
  {
    match FirstMatch(orcs, orc.categoria, orc.periodo)
    case Some(i) => (orcs[i := orcs[i].(limite := orc.limite)], Atualizado)
    case None => (orcs + [orc], Criado)
  }

  /** A budget with the same category and period has only its limit
      replaced (the first one, when there are several), nothing else moves
      and the status is "atualizado"; otherwise the new budget is added at
      the end and the status is "criado". */
  lemma UpsertSpec(orcs: seq<Orcamento>, orc: Orcamento)
    ensures var (r, status) := Upsert(orcs, orc);
      && (status == Atualizado <==> exists i :: 0 <= i < |orcs| && SameBudget(orcs[i], orc.categoria, orc.periodo))
      && (status == Atualizado ==>
           && |r| == |orcs|
           && exists i :: 0 <= i < |orcs| && SameBudget(orcs[i], orc.categoria, orc.periodo)
                && (forall j :: 0 <= j < i ==> !SameBudget(orcs[j], orc.categoria, orc.periodo))
                && r[i] == Orcamento(orcs[i].id, orcs[i].categoria, orc.limite, orcs[i].periodo)
                && (forall j :: 0 <= j < |orcs| && j != i ==> r[j] == orcs[j]))
      && (status == Criado ==> r == orcs + [orc])
  {
    match FirstMatch(orcs, orc.categoria, orc.periodo)
    case Some(i) =>
    case None =>
  }

  /** After the upsert the first budget with this category and period has
      the new limit. */
  lemma UpsertInForce(orcs: seq<Orcamento>, orc: Orcamento)
    ensures var r := Upsert(orcs, orc).0;
      && FirstMatch(r, orc.categoria, orc.periodo).Some?
      && r[FirstMatch(r, orc.categoria, orc.periodo).value].limite == orc.limite
  {
    var r := Upsert(orcs, orc).0;
    match FirstMatch(orcs, orc.categoria, orc.periodo)
    case Some(i) =>
      assert SameBudget(r[i], orc.categoria, orc.periodo);
      assert FirstMatch(r, orc.categoria, orc.periodo) == Some(i);
    case None =>
      assert SameBudget(r[|orcs|], orc.categoria, orc.periodo);
      assert FirstMatch(r, orc.categoria, orc.periodo) == Some(|orcs|);
  }

  /** No two budgets share a category and a period. */
  predicate UniqueBudgets(orcs: seq<Orcamento>)
  {
    forall i, j :: 0 <= i < j < |orcs| ==> !(orcs[i].categoria == orcs[j].categoria && orcs[i].periodo == orcs[j].periodo)
  }

  /** Budgets written only through `add_orcamento` never share a category
      and a period; doing the same upsert twice is doing it once. */
  lemma UpsertKeepsUnique(orcs: seq<Orcamento>, orc: Orcamento)
    requires UniqueBudgets(orcs)
    ensures UniqueBudgets(Upsert(orcs, orc).0)
    ensures Upsert(Upsert(orcs, orc).0, orc).0 == Upsert(orcs, orc).0
  {
    var r := Upsert(orcs, orc).0;
    UpsertInForce(orcs, orc);
    var k := FirstMatch(r, orc.categoria, orc.periodo).value;
    assert r[k := r[k].(limite := orc.limite)] == r;
  }

  // ---------------------------------------------------------------------
  // FinanceService
  // ---------------------------------------------------------------------

  class FinanceService {
    const storage: Storage

    constructor (storage: Storage)
      ensures this.storage == storage
    {
      this.storage := storage;
    }

    /** `listar()`. */
    method Listar() returns (r: seq<Movimento>)
      ensures r == Listed(storage.movimentos)
    {
      var stored := storage.CarregarMovimentos();
      r := ReadMovimentos(stored);
    }

    /** `listar_orcamentos(periodo)`. */
    method ListarOrcamentos(periodo: Option<string> := None) returns (r: seq<Orcamento>)
      ensures r == Budgets(storage.orcamentos, periodo)
    {
      var stored := storage.CarregarOrcamentos();
      r := ReadOrcamentos(stored);
      if Given(periodo) {
        r := KeepPeriodo(r, periodo.value);
      }
    }

    /** `listar_filtrado(inicio, fim, cat, tipo, texto)`. */
    method ListarFiltrado(c: Criteria) returns (r: seq<Movimento>)
      ensures r == Filtrado(storage.movimentos, c)
    {
      var movs := Listar();
      r := [];
      var i := 0;
      while i < |movs|
        invariant 0 <= i <= |movs|
        invariant r == Filter(movs[..i], m => Keep(m, c))
      {
        assert movs[..i + 1][..i] == movs[..i];
        if Keep(movs[i], c) {
          r := r + [movs[i]];
        }
        i := i + 1;
      }
      assert movs[..i] == movs;
    }

    /** `verificar_overspend(movimento)`. */
    method VerificarOverspend(m: Movimento) returns (r: Result<Option<Alerta>, Failure>)
      ensures r == Overspend(m, ListedOrcamentos(storage.orcamentos), Listed(storage.movimentos))
    {
      if m.tipo != Despesa {
        return Ok(None);
      }
      var todos := ListarOrcamentos(None);
      var orcs := KeepCategoria(todos, m.categoria);
      if orcs == [] {
        return Ok(None);
      }
      var movs := Listar();
      var refMes := MonthKeyOf(m.data);
      var refSem := WeekKeyOf(m.data);
      if refMes.None? || refSem.None? {
        return Err(ParseError);
      }
      r := ProcurarExcesso(orcs, movs, refMes.value, refSem.value);
    }

    /** `add_movimento(tipo, valor, categoria, descricao, metodo_pagamento,
        data_iso)`, with the current time passed in as `agora`, a valid
        date-time as `datetime.now()` always is. */
    method AddMovimento(tipo: Tipo, valor: int, categoria: string, descricao: Option<string>,
                        metodo: Option<string>, data: Option<string>, agora: DateTime)
      returns (r: Result<(Option<Movimento>, Option<Alerta>), Failure>)
      requires ValidDate(agora)
      modifies storage
      ensures var m := Novo(old(storage.movimentos), tipo, valor, categoria, descricao, metodo, data, agora);
        && (ValidarMovimento(m).Some? ==> r == Ok((None, None)) && storage.movimentos == old(storage.movimentos))
        && (ValidarMovimento(m).None? ==>
              && storage.movimentos == old(storage.movimentos) + [m]
              && r == Returned(m, Overspend(m, ListedOrcamentos(storage.orcamentos), Listed(storage.movimentos))))
      ensures storage.orcamentos == old(storage.orcamentos)
    {
      var id := storage.ProximoId();
      var m := NewMovimento(id, tipo, valor, categoria, descricao, metodo,
                            Some(if data.None? then FormatIso(agora) else data.value));
      if ValidarMovimento(m).Some? {
        return Ok((None, None));
      }
      var movs := storage.CarregarMovimentos();
      storage.GuardarMovimentos(movs + [m]);
      var alerta: Result<Option<Alerta>, Failure> := Ok(None);
      if m.tipo == Despesa {
        alerta := VerificarOverspend(m);
      }
      r := Returned(m, alerta);
    }

    /** `add_orcamento(categoria, limite, periodo)`. The budget returned
        carries the freshly drawn id even when an existing budget was
        updated in its place. */
    method AddOrcamento(categoria: string, limite: int, periodo: Option<string> := Some(Mensal))
      returns (r: Option<(Orcamento, Status)>)
      modifies storage
      ensures var orc := NewOrcamento(NextId(OrcamentoIds(old(storage.orcamentos))), categoria, limite, periodo);
        && (ValidarOrcamento(orc).Some? ==> r.None? && storage.orcamentos == old(storage.orcamentos))
        && (ValidarOrcamento(orc).None? ==>
              && storage.orcamentos == Upsert(old(storage.orcamentos), orc).0
              && r == Some((orc, Upsert(old(storage.orcamentos), orc).1)))
      ensures storage.movimentos == old(storage.movimentos)
    {
      var id := storage.ProximoIdOrcamento();
      var orc := NewOrcamento(id, categoria, limite, periodo);
      if ValidarOrcamento(orc).Some? {
        return None;
      }
      var orcs := storage.CarregarOrcamentos();
      var status;
      orcs, status := Atualizar(orcs, orc);
      storage.GuardarOrcamentos(orcs);
      r := Some((orc, status));
    }
  }

  // ---------------------------------------------------------------------
  // the loops of the service
  // ---------------------------------------------------------------------

  /** `[Movimento.from_dict(d) for d in stored]`. */
  method ReadMovimentos(stored: seq<Movimento>) returns (r: seq<Movimento>)
    ensures r == Listed(stored)
  {
    r := [];
    var i := 0;
    while i < |stored|
      invariant 0 <= i <= |stored|
      invariant |r| == i
      invariant forall k :: 0 <= k < i ==> r[k] == Reloaded(stored[k])
    {
      r := r + [Reloaded(stored[i])];
      i := i + 1;
    }
  }

  /** `[Orcamento.from_dict(d) for d in stored]`. */
  method ReadOrcamentos(stored: seq<Orcamento>) returns (r: seq<Orcamento>)
    ensures r == ListedOrcamentos(stored)
  {
    r := [];
    var i := 0;
    while i < |stored|
      invariant 0 <= i <= |stored|
      invariant |r| == i
      invariant forall k :: 0 <= k < i ==> r[k] == ReloadedOrcamento(stored[k])
    {
      r := r + [ReloadedOrcamento(stored[i])];
      i := i + 1;
    }
  }

  /** `[o for o in orcs if o.periodo == periodo]`. */
  method KeepPeriodo(orcs: seq<Orcamento>, periodo: string) returns (r: seq<Orcamento>)
    ensures r == Filter(orcs, o => OfPeriodo(o, periodo))
  {
    r := [];
    var i := 0;
    while i < |orcs|
      invariant 0 <= i <= |orcs|
      invariant r == Filter(orcs[..i], o => OfPeriodo(o, periodo))
    {
      assert orcs[..i + 1][..i] == orcs[..i];
      if OfPeriodo(orcs[i], periodo) {
        r := r + [orcs[i]];
      }
      i := i + 1;
    }
    assert orcs[..i] == orcs;
  }

  /** `[o for o in orcs if o.categoria == cat]`. */
  method KeepCategoria(orcs: seq<Orcamento>, cat: string) returns (r: seq<Orcamento>)
    ensures r == Filter(orcs, o => OfCategoria(o, cat))
  {
    r := [];
    var i := 0;
    while i < |orcs|
      invariant 0 <= i <= |orcs|
      invariant r == Filter(orcs[..i], o => OfCategoria(o, cat))
    {
      assert orcs[..i + 1][..i] == orcs[..i];
      if OfCategoria(orcs[i], cat) {
        r := r + [orcs[i]];
      }
      i := i + 1;
    }
    assert orcs[..i] == orcs;
  }

  /** The loop of `add_orcamento`: replace the limit of the first budget
      with the same category and period, or append the new one. */
  method Atualizar(orcs: seq<Orcamento>, orc: Orcamento) returns (res: seq<Orcamento>, status: Status)
    ensures (res, status) == Upsert(orcs, orc)
  {
    var k := 0;
    while k < |orcs| && !SameBudget(orcs[k], orc.categoria, orc.periodo)
      invariant 0 <= k <= |orcs|
      invariant forall j :: 0 <= j < k ==> !SameBudget(orcs[j], orc.categoria, orc.periodo)
    {
      k := k + 1;
    }
    if k < |orcs| {
      res, status := orcs[k := orcs[k].(limite := orc.limite)], Atualizado;
    } else {
      res, status := orcs + [orc], Criado;
    }
  }

  /** The outer loop of `verificar_overspend`, over the category's budgets. */
  method ProcurarExcesso(orcs: seq<Orcamento>, movs: seq<Movimento>, mes: string, sem: string)
    returns (r: Result<Option<Alerta>, Failure>)
    ensures r == Scan(orcs, movs, mes, sem)
  {
    var alerta: Option<Alerta> := None;
    var i := 0;
    while i < |orcs|
      invariant 0 <= i <= |orcs|
      invariant Scan(orcs[..i], movs, mes, sem) == Ok(alerta)
    {
      var o := orcs[i];
      var b: Result<Option<Alerta>, Failure> := Ok(None);
      if o.periodo == Mensal {
        var g := SomarGasto(movs, o.categoria, MonthKeyOf, mes);
        b := Over(o, Mensal, mes, g);
      } else if o.periodo == Semanal {
        var g := SomarGasto(movs, o.categoria, WeekKeyOf, sem);
        b := Over(o, Semanal, sem, g);
      }
      assert b == Breach(o, movs, mes, sem);
      ScanStep(orcs, i, movs, mes, sem);
      if b.Err? {
        ScanErr(orcs, i + 1, movs, mes, sem);
        return Err(ParseError);
      }
      if b.value.Some? {
        alerta := b.value;
      }
      i := i + 1;
    }
    assert orcs[..i] == orcs;
    r := Ok(alerta);
  }

  /** One inner loop of `verificar_overspend`: the expenses of `cat` in
      bucket `ref`. */
  method SomarGasto(movs: seq<Movimento>, cat: string, keyOf: string -> Option<string>, ref: string)
    returns (r: Result<int, Failure>)
    ensures r == Gasto(movs, cat, keyOf, ref)
  {
    var gasto := 0;
    var i := 0;
    while i < |movs|
      invariant 0 <= i <= |movs|
      invariant Gasto(movs[..i], cat, keyOf, ref) == Ok(gasto)
    {
      var m := movs[i];
      assert movs[..i + 1][..i] == movs[..i];
      if m.tipo == Despesa && m.categoria == cat {
        var k := keyOf(m.data);
        if k.None? {
          assert movs[..i + 1][i] == m;
          assert Gasto(movs[..i + 1], cat, keyOf, ref).Err?;
          GastoErr(movs, i + 1, cat, keyOf, ref);
          return Err(ParseError);
        }
        if k.value == ref {
          gasto := gasto + m.valor;
        }
      }
      i := i + 1;
    }
    assert movs[..i] == movs;
    r := Ok(gasto);
  }
}
