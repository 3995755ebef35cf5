/** The two entities of the finance engine: a movement (`Movimento`, an
    expense or an income) and a budget (`Orcamento`), with the field
    normalisation done by their constructors, their validation guards and
    their conversion to and from the dictionaries kept in storage.
    Amounts are integer cents. */
module Models {
  import opened Basics
  import opened Text

  // ---------------------------------------------------------------------
  // TipoMovimento
  // ---------------------------------------------------------------------

  datatype Tipo = Despesa | Receita

  /** The enum's string value. */
  function Token(t: Tipo): string
  {
    match t
    case Despesa => "despesa"
    case Receita => "receita"
  }

  /** `TipoMovimento(s)`; `None` stands for the ValueError on any other string. */
  function TipoFromToken(s: string): Option<Tipo>
  {
    if s == "despesa" then Some(Despesa)
    else if s == "receita" then Some(Receita)
    else None
  }

  /** The enum has exactly the two members `despesa` and `receita`, and each
      is recovered from its value. */
  lemma TipoTokens(s: string, t: Tipo)
    ensures TipoFromToken(s).Some? <==> s == "despesa" || s == "receita"
    ensures TipoFromToken(Token(t)) == Some(t)
    ensures TipoFromToken(s).Some? ==> Token(TipoFromToken(s).value) == s
    ensures Token(Despesa) != Token(Receita)
  {
  }

  // ---------------------------------------------------------------------
  // Movimento
  // ---------------------------------------------------------------------

  datatype Movimento = Movimento(
    id: int,
    tipo: Tipo,
    valor: int,
    categoria: string,
    descricao: string,
    metodo: string,
    data: string)

  /** `str(x or "")` for an optional text argument. */
  function OrEmpty(o: Option<string>): string
  {
    if o.Some? then o.value else ""
  }

  /** `Movimento(...)`: the category and the payment method are stripped,
      the description is kept as given, and absent text becomes "". */
  function NewMovimento(id: int, tipo: Tipo, valor: int, categoria: string,
                        descricao: Option<string>, metodo: Option<string>,
                        data: Option<string>): (m: Movimento)
    ensures m.id == id && m.tipo == tipo && m.valor == valor
    ensures exists i :: StrippedAt(categoria, m.categoria, i)
    ensures Stripped(m.categoria) && Stripped(m.metodo)
    ensures m.descricao == OrEmpty(descricao)
    ensures metodo.Some? ==> exists i :: StrippedAt(metodo.value, m.metodo, i)
    ensures metodo.None? ==> m.metodo == ""
    ensures m.data == OrEmpty(data)
  {
    Movimento(id, tipo, valor, Strip(categoria), OrEmpty(descricao), Strip(OrEmpty(metodo)), OrEmpty(data))
  }

  /** The reasons `validar` raises. */
  datatype Invalid = NonPositiveValor | MissingCategoria | NonPositiveLimite | UnknownPeriodo

  /** `Movimento.validar()`: `None` when the movement is accepted. The enum
      check on `tipo` always passes here, since `Tipo` has no other value. */
  function ValidarMovimento(m: Movimento): (r: Option<Invalid>)
    ensures r.None? <==> m.valor > 0 && m.categoria != ""
    ensures m.valor <= 0 ==> r == Some(NonPositiveValor)
    ensures m.valor > 0 && m.categoria == "" ==> r == Some(MissingCategoria)
  {
    if m.valor <= 0 then Some(NonPositiveValor)
    else if m.categoria == "" then Some(MissingCategoria)
    else None
  }

  /** A category that is empty after `strip()` is rejected, whatever the caller passed. */
  lemma BlankCategoriaRejected(id: int, tipo: Tipo, valor: int, categoria: string,
                               descricao: Option<string>, metodo: Option<string>, data: Option<string>)
    requires forall k :: 0 <= k < |categoria| ==> IsSpace(categoria[k])
    ensures ValidarMovimento(NewMovimento(id, tipo, valor, categoria, descricao, metodo, data)).Some?
  {
    StripEmptyIff(categoria);
  }

  // ---------------------------------------------------------------------
  // dictionaries
  // ---------------------------------------------------------------------

  /** The JSON values a stored record holds. */
  datatype Json = JNum(n: int) | JStr(s: string) | JNull

  type Dict = map<string, Json>

  /** Why `from_dict` raises: a missing `id` (KeyError) or a value of the
      wrong kind (ValueError / AttributeError). */
  datatype DictError = MissingKey(key: string) | BadValue(key: string)

  /** `d.get(key, default)`. */
  function Get(d: Dict, key: string, default: Json): Json
  {
    if key in d then d[key] else default
  }

  /** `Movimento.to_dict()`. */
  function MovimentoToDict(m: Movimento): (d: Dict)
    ensures d.Keys == {"id", "tipo", "data", "valor", "categoria", "descricao", "metodo"}
  {
    map["id" := JNum(m.id), "tipo" := JStr(Token(m.tipo)), "data" := JStr(m.data),
        "valor" := JNum(m.valor), "categoria" := JStr(m.categoria),
        "descricao" := JStr(m.descricao), "metodo" := JStr(m.metodo)]
  }

  /** `str(n)` of a JSON integer. */
  function IntText(n: int): string
  {
    if n < 0 then "-" + Decimal(-n) else Decimal(n)
  }

  /** `str(x or default)` of a stored value: a falsy value (`null`, "" or
      0) gives the default, a string is itself and a number is written in
      decimal. */
  function StrOr(x: Json, default: string): (s: string)
    ensures x == JNull || x == JStr("") || x == JNum(0) ==> s == default
    ensures x.JStr? && x.s != "" ==> s == x.s
    ensures x.JNum? && x.n > 0 ==> (forall i :: 0 <= i < |s| ==> IsDigit(s[i])) && DigitsValue(s) == x.n
    ensures x.JNum? && x.n < 0 ==> |s| >= 2 && s[0] == '-' && (forall i :: 1 <= i < |s| ==> IsDigit(s[i]))
                                   && DigitsValue(s[1..]) == -x.n
  {
    match x
    case JNull => default
    case JStr(t) => if t == "" then default else t
    case JNum(n) =>
      DecimalRoundTrip(if n < 0 then -n else n);
      if n == 0 then default
      else assert n < 0 ==> IntText(n)[1..] == Decimal(-n); IntText(n)
  }

  /** A stored string is read back as itself; "" stays "". */
  lemma StrOfText(t: string)
    ensures StrOr(JStr(t), "") == t
  {
  }

  /** `Movimento.from_dict(d)`. */
  function MovimentoFromDict(d: Dict): (r: Result<Movimento, DictError>)
    ensures "id" !in d ==> r == Err(MissingKey("id"))
    ensures r.Ok? ==> Stripped(r.value.categoria) && Stripped(r.value.metodo)
    ensures r.Ok? ==> r.value.descricao == StrOr(Get(d, "descricao", JStr("")), "")
    ensures r.Ok? ==> r.value.metodo == Strip(StrOr(Get(d, "metodo", JStr("")), ""))
  {
    if "id" !in d then Err(MissingKey("id"))
    else if !d["id"].JNum? then Err(BadValue("id"))
    else
      var tipo := Get(d, "tipo", JStr("despesa"));
      if !tipo.JStr? || TipoFromToken(tipo.s).None? then Err(BadValue("tipo"))
      else
        var valor := Get(d, "valor", JNum(0));
        if !valor.JNum? then Err(BadValue("valor"))
        else
          var categoria := Get(d, "categoria", JStr(""));
          if !categoria.JStr? then Err(BadValue("categoria"))
          else
            var data := Get(d, "data", JStr(""));
            if data.JNum? && data.n != 0 then Err(BadValue("data"))
            else
              Ok(NewMovimento(d["id"].n, TipoFromToken(tipo.s).value, valor.n, Strip(categoria.s),
                              Some(StrOr(Get(d, "descricao", JStr("")), "")),
                              Some(StrOr(Get(d, "metodo", JStr("")), "")),
                              Some(StrOr(data, ""))))
  }

  /** The fields `to_dict` writes are the ones the constructor produces:
      stripped category and payment method. */
  predicate NormalMovimento(m: Movimento)
  {
    Stripped(m.categoria) && Stripped(m.metodo)
  }

  /** Reading back a stored movement reproduces every field. */
  lemma MovimentoRoundTrip(m: Movimento)
    requires NormalMovimento(m)
    ensures MovimentoFromDict(MovimentoToDict(m)) == Ok(m)
  {
    var d := MovimentoToDict(m);
    assert d["id"] == JNum(m.id) && d["tipo"] == JStr(Token(m.tipo)) && d["valor"] == JNum(m.valor);
    assert d["categoria"] == JStr(m.categoria) && d["descricao"] == JStr(m.descricao);
    assert d["metodo"] == JStr(m.metodo) && d["data"] == JStr(m.data);
    assert Get(d, "descricao", JStr("")) == JStr(m.descricao);
    assert Get(d, "metodo", JStr("")) == JStr(m.metodo);
    assert Get(d, "data", JStr("")) == JStr(m.data);
    StrOfText(m.descricao);
    StrOfText(m.metodo);
    StrOfText(m.data);
    StripOfStripped(m.categoria);
    StripOfStripped(m.metodo);
    TipoTokens(Token(m.tipo), m.tipo);
  }

  /** Every movement the constructor builds survives the round trip. */
  lemma NewMovimentoRoundTrip(id: int, tipo: Tipo, valor: int, categoria: string,
                              descricao: Option<string>, metodo: Option<string>, data: Option<string>)
    ensures var m := NewMovimento(id, tipo, valor, categoria, descricao, metodo, data);
      MovimentoFromDict(MovimentoToDict(m)) == Ok(m)
  {
    MovimentoRoundTrip(NewMovimento(id, tipo, valor, categoria, descricao, metodo, data));
  }

  /** A stored movement as `Movimento.from_dict` reads it back: the
      category and the payment method stripped, every other field as
      stored. */
  function Reloaded(m: Movimento): (r: Movimento)
    ensures NormalMovimento(r)
    ensures NormalMovimento(m) ==> r == m
  {
    if NormalMovimento(m) then m
    else
      var c, t := Strip(m.categoria), Strip(m.metodo);
      assert Stripped(c) && Stripped(t);
      m.(categoria := c, metodo := t)
  }

  /** `Movimento.from_dict(m.to_dict())` never raises, whether or not the
      constructor built `m`, and gives back `Reloaded(m)`. */
  lemma MovimentoReload(m: Movimento)
    ensures MovimentoFromDict(MovimentoToDict(m)) == Ok(Reloaded(m))
  {
    var d := MovimentoToDict(m);
    assert d["id"] == JNum(m.id) && d["tipo"] == JStr(Token(m.tipo)) && d["valor"] == JNum(m.valor);
    assert d["categoria"] == JStr(m.categoria);
    assert Get(d, "descricao", JStr("")) == JStr(m.descricao);
    assert Get(d, "metodo", JStr("")) == JStr(m.metodo);
    assert Get(d, "data", JStr("")) == JStr(m.data);
    StrOfText(m.descricao);
    StrOfText(m.metodo);
    StrOfText(m.data);
    StripIdempotent(m.categoria);
    TipoTokens(Token(m.tipo), m.tipo);
    if NormalMovimento(m) {
      StripOfStripped(m.categoria);
      StripOfStripped(m.metodo);
    }
  }

  /** A positive number stored as the description is read back as its
      decimal text, as `str(descricao or "")` makes it; the other fields
      read back as usual. */
  lemma NumericDescricao(m: Movimento, n: int)
    requires n > 0
    ensures MovimentoFromDict(MovimentoToDict(m)["descricao" := JNum(n)])
         == Ok(Reloaded(m).(descricao := Decimal(n)))
  {
    var d := MovimentoToDict(m)["descricao" := JNum(n)];
    assert d["id"] == JNum(m.id) && d["tipo"] == JStr(Token(m.tipo)) && d["valor"] == JNum(m.valor);
    assert d["categoria"] == JStr(m.categoria);
    assert Get(d, "descricao", JStr("")) == JNum(n);
    assert Get(d, "metodo", JStr("")) == JStr(m.metodo);
    assert Get(d, "data", JStr("")) == JStr(m.data);
    assert StrOr(JNum(n), "") == Decimal(n);
    StrOfText(m.metodo);
    StrOfText(m.data);
    StripIdempotent(m.categoria);
    TipoTokens(Token(m.tipo), m.tipo);
    if NormalMovimento(m) {
      StripOfStripped(m.categoria);
      StripOfStripped(m.metodo);
    }
  }

  // ---------------------------------------------------------------------
  // Orcamento
  // ---------------------------------------------------------------------

  datatype Orcamento = Orcamento(id: int, categoria: string, limite: int, periodo: string)

  const Mensal: string := "mensal"
  const Semanal: string := "semanal"

  /** `str(periodo or "mensal").strip().lower()`: an absent or empty period
      is monthly; any other is trimmed and lower-cased. */
  function NormalPeriodo(periodo: Option<string>): (r: string)
    ensures !Given(periodo) ==> r == Mensal
    ensures Given(periodo) ==> r == Lower(Strip(periodo.value))
    ensures Given(periodo) ==> |r| <= |periodo.value|
    ensures Stripped(r) && Lower(r) == r
  {
    if Given(periodo) then
      var t := Strip(periodo.value);
      LowerKeepsStripped(t);
      LowerIdempotent(t);
      Lower(t)
    else
      // the default "mensal" is already stripped and lower-case
      MensalNormal();
      Mensal
  }

  lemma MensalNormal()
    ensures Stripped(Mensal) && Lower(Mensal) == Mensal
  {
    LowerOfLower(Mensal);
  }

  /** `Orcamento(...)`: the category is stripped and the period normalised. */
  function NewOrcamento(id: int, categoria: string, limite: int, periodo: Option<string>): (o: Orcamento)
    ensures o.id == id && o.limite == limite
    ensures exists i :: StrippedAt(categoria, o.categoria, i)
    ensures Stripped(o.categoria)
    ensures o.periodo == NormalPeriodo(periodo)
  {
    Orcamento(id, Strip(categoria), limite, NormalPeriodo(periodo))
  }

  /** Spelling and spacing of the period do not matter: " Semanal " is weekly. */
  lemma PeriodoSpelling()
    ensures NormalPeriodo(Some(" Semanal ")) == Semanal
    ensures NormalPeriodo(Some("MENSAL")) == Mensal
  {
    SpacedSemanal();
    UpperMensal();
  }

  lemma SpacedSemanal()
    ensures Lower(Strip(" Semanal ")) == Semanal
  {
    SemanalStrip();
    SemanalLower();
  }

  lemma SemanalStrip()
    ensures Strip(" Semanal ") == "Semanal"
  {
    assert " Semanal " == " " + "Semanal" + " ";
    StripPadded(" ", "Semanal", " ");
  }

  lemma SemanalLower()
    ensures Lower("Semanal") == Semanal
  {
    assert Lower("Semanal") == Semanal;
  }

  lemma UpperMensal()
    ensures Lower(Strip("MENSAL")) == Mensal
  {
    StripOfStripped("MENSAL");
    var r := Lower("MENSAL");
    assert r[0] == 'm' && r[1] == 'e' && r[2] == 'n' && r[3] == 's' && r[4] == 'a' && r[5] == 'l';
    assert r == Mensal;
  }

  /** `Orcamento.validar()`. */
  function ValidarOrcamento(o: Orcamento): (r: Option<Invalid>)
    ensures r.None? <==> o.categoria != "" && o.limite > 0 && (o.periodo == Mensal || o.periodo == Semanal)
    ensures o.categoria == "" ==> r == Some(MissingCategoria)
    ensures o.categoria != "" && o.limite <= 0 ==> r == Some(NonPositiveLimite)
    ensures o.categoria != "" && o.limite > 0 && o.periodo != Mensal && o.periodo != Semanal ==> r == Some(UnknownPeriodo)
  {
    if o.categoria == "" then Some(MissingCategoria)
    else if o.limite <= 0 then Some(NonPositiveLimite)
    else if o.periodo != Mensal && o.periodo != Semanal then Some(UnknownPeriodo)
    else None
  }

  /** `Orcamento.to_dict()`. */
  function OrcamentoToDict(o: Orcamento): (d: Dict)
    ensures d.Keys == {"id", "categoria", "limite", "periodo"}
  {
    map["id" := JNum(o.id), "categoria" := JStr(o.categoria), "limite" := JNum(o.limite),
        "periodo" := JStr(o.periodo)]
  }

  /** `Orcamento.from_dict(d)`. */
  function OrcamentoFromDict(d: Dict): (r: Result<Orcamento, DictError>)
    ensures "id" !in d ==> r == Err(MissingKey("id"))
    ensures r.Ok? ==> Stripped(r.value.categoria) && Stripped(r.value.periodo)
    ensures r.Ok? ==> r.value.periodo == NormalPeriodo(Some(StrOr(Get(d, "periodo", JStr(Mensal)), "")))
  {
    if "id" !in d then Err(MissingKey("id"))
    else if !d["id"].JNum? then Err(BadValue("id"))
    else
      var categoria := Get(d, "categoria", JStr(""));
      if !categoria.JStr? then Err(BadValue("categoria"))
      else
        var limite := Get(d, "limite", JNum(0));
        if !limite.JNum? then Err(BadValue("limite"))
        else
          // `str(periodo or "mensal")`: a falsy period reaches the
          // constructor as "", which it reads as monthly
          var periodo := StrOr(Get(d, "periodo", JStr(Mensal)), "");
          Ok(NewOrcamento(d["id"].n, Strip(categoria.s), limite.n, Some(periodo)))
  }

  /** A stored budget with a non-empty period reads back unchanged. */
  lemma OrcamentoRoundTrip(o: Orcamento)
    requires Stripped(o.categoria)
    requires o.periodo != "" && Stripped(o.periodo) && Lower(o.periodo) == o.periodo
    ensures OrcamentoFromDict(OrcamentoToDict(o)) == Ok(o)
  {
    OrcamentoDictRead(o);
    StripOfStripped(o.categoria);
    StripOfStripped(o.periodo);
  }

  /** A budget whose period is blank is read back as monthly: `from_dict`
      replaces the stored "" by the default. Such a budget never passes
      `validar`, so the service never stores one. */
  lemma BlankPeriodoReadsAsMensal(o: Orcamento)
    requires Stripped(o.categoria) && o.periodo == ""
    ensures OrcamentoFromDict(OrcamentoToDict(o)) == Ok(o.(periodo := Mensal))
    ensures ValidarOrcamento(o) == Some(if o.categoria == "" then MissingCategoria
                                        else if o.limite <= 0 then NonPositiveLimite
                                        else UnknownPeriodo)
  {
    OrcamentoDictRead(o);
    assert !Given(Some(o.periodo));
    assert NormalPeriodo(Some(o.periodo)) == Mensal;
    StripOfStripped(o.categoria);
    assert Orcamento(o.id, Strip(o.categoria), o.limite, Mensal) == o.(periodo := Mensal);
  }

  /** Every budget that passes `validar` survives the round trip. */
  lemma ValidOrcamentoRoundTrip(o: Orcamento)
    requires Stripped(o.categoria) && ValidarOrcamento(o).None?
    ensures OrcamentoFromDict(OrcamentoToDict(o)) == Ok(o)
  {
    OrcamentoDictRead(o);
    StripOfStripped(o.categoria);
    ValidPeriodoNormal(o.periodo);
  }

  /** A stored budget as `Orcamento.from_dict` reads it back: the
      category stripped and the period normalised. */
  function ReloadedOrcamento(o: Orcamento): Orcamento
  {
    if Stripped(o.categoria) && ValidarOrcamento(o).None? then o
    else o.(categoria := Strip(o.categoria), periodo := NormalPeriodo(Some(o.periodo)))
  }

  /** A reloaded budget has a stripped category and period, and a budget
      that was stored stripped and valid is read back unchanged. */
  lemma ReloadedOrcamentoSpec(o: Orcamento)
    ensures Stripped(ReloadedOrcamento(o).categoria) && Stripped(ReloadedOrcamento(o).periodo)
    ensures Stripped(o.categoria) && ValidarOrcamento(o).None? ==> ReloadedOrcamento(o) == o
  {
    if Stripped(o.categoria) && ValidarOrcamento(o).None? {
      ValidPeriodoStripped(o);
    }
  }

  /** A budget that passes `validar` has a stripped period. */
  lemma ValidPeriodoStripped(o: Orcamento)
    requires ValidarOrcamento(o).None?
    ensures Stripped(o.periodo)
  {
    ValidPeriodoNormal(o.periodo);
  }

  /** The two valid periods are their own normal form. */
  lemma ValidPeriodoNormal(p: string)
    requires p == Mensal || p == Semanal
    ensures NormalPeriodo(Some(p)) == p
  {
    StripOfStripped(p);
    LowerOfLower(p);
  }

  /** What `from_dict` makes of the dictionary `to_dict` writes. */
  lemma OrcamentoDictRead(o: Orcamento)
    ensures OrcamentoFromDict(OrcamentoToDict(o))
         == Ok(Orcamento(o.id, Strip(o.categoria), o.limite, NormalPeriodo(Some(o.periodo))))
  {
    var d := OrcamentoToDict(o);
    assert "id" in d && d["id"] == JNum(o.id);
    assert Get(d, "categoria", JStr("")) == JStr(o.categoria);
    assert Get(d, "limite", JNum(0)) == JNum(o.limite);
    assert Get(d, "periodo", JStr(Mensal)) == JStr(o.periodo);
    StrOfText(o.periodo);
    StripIdempotent(o.categoria);
  }

  /** `Orcamento.from_dict(o.to_dict())` never raises and gives back
      `ReloadedOrcamento(o)`. */
  lemma OrcamentoReload(o: Orcamento)
    ensures OrcamentoFromDict(OrcamentoToDict(o)) == Ok(ReloadedOrcamento(o))
  {
    OrcamentoDictRead(o);
    if Stripped(o.categoria) && ValidarOrcamento(o).None? {
      StripOfStripped(o.categoria);
      ValidPeriodoNormal(o.periodo);
    }
  }

  // ---------------------------------------------------------------------
  // overspend alerts
  // ---------------------------------------------------------------------

  /** An overspend record `{categoria, periodo, referencia, limite, gasto,
      excesso}`: spending `gasto` in bucket `referencia` (a month or ISO
      week key) went over the budget's `limite` by `excesso`. */
  datatype Alerta = Alerta(categoria: string, periodo: string, referencia: string,
                           limite: int, gasto: int, excesso: int)
}
