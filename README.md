# Personal finance tracker: reports and overspend detection

This project models the core of a small personal finance tracker in Dafny.
The tracker records movements, which are expenses (`despesa`) or incomes
(`receita`). It also keeps per-category budgets (`orcamentos`) that are either
monthly (`mensal`) or weekly (`semanal`). From these it computes:

- an overspend warning when an expense is added (`FinanceService.verificar_overspend`);
- four reports over an optional date window (`Reports`):
  - totals per category;
  - weekly cash flow;
  - top categories;
  - overspend alerts.

The modules follow the program's files:

| module | file | form |
|---|---|---|
| `Models` | `gestor/models.py` | datatypes and functions: `Movimento` and `Orcamento`, their constructors, `validar`, `to_dict`, `from_dict` |
| `Store` | `gestor/storage.py` | class `Storage` holding the two collections as sequences, with id allocation as a loop |
| `Calendar` | `gestor/reports.py`, `finance/service.py` | `_parse_dt`, `_yyyymm`, `_isoweek_key` and the proleptic Gregorian and ISO-8601 week arithmetic behind `strftime` and `isocalendar` |
| `Buckets` | `gestor/reports.py` | the `defaultdict` accumulators, as association lists kept in insertion order |
| `ReportEngine` | `gestor/reports.py` | class `Reports`; each report is a method proved equal to a specification function, with lemmas about that function |
| `Service` | `finance/service.py` | class `FinanceService`; each operation is a method proved against specification functions |
| `Sequences`, `Text`, `Basics` | — | filter, sum, stable sort and `sorted(set(...))`; `strip`, `lower`, `in` and string `<`; `Option` and `Result` |

## Modelling choices

- Amounts (`valor`, `limite`, sums, excesses) are integer cents. Python's
  `round(x, 2)` is then the identity.
- A stored JSON record is represented by the typed value it was written from.
  The `from_dict` and `to_dict` pair is modelled separately, on
  `map<string, Json>`. Lemmas show what reading a stored record back gives.
- A `ValueError` from `datetime.fromisoformat` becomes `Err(ParseError)`.
  A validation failure is not an error result: `add_movimento` and
  `add_orcamento` both return the pair `(None, None)`. `AddMovimento`
  returns `Ok((None, None))`. `AddOrcamento` returns `None`, the model's
  encoding of that pair: the `r.None?` case in the contract of
  `Service.FinanceService.AddOrcamento` is the `(None, None)` of the code.
- Dictionaries keep insertion order. This matters for the `top_categorias`
  ties and the `alertas` row order. They are association lists with new keys
  appended.
- `finance/service.py` imports `Movimento`, `Orcamento` and `Storage` from
  modules next to it. Those modules are not among the source files. The
  model uses the classes of `gestor/models.py` and `gestor/storage.py`.
- Invalid input is not raised to the caller. `add_movimento` and
  `add_orcamento` print the validation message and return `(None, None)`.
- `_filtro_periodo` parses every given bound before it looks at the
  movements. A bound that does not parse raises even when there are no
  movements (`ReportEngine.PeriodoSpec`).
- The period filter of `listar_filtrado` compares the date strings, not
  parsed timestamps (`Service.KeepMeaning`).
- Keyword defaults are Dafny default parameters: `n = 5`, `tipo = "despesa"`
  and open bounds for the reports, `periodo = None` for
  `listar_orcamentos` and `periodo = "mensal"` for `add_orcamento`.

## Model

| member | source | states |
|---|---|---|
| `Models.TipoTokens` | gestor/models.py:6-8 | `TipoMovimento(s)` succeeds exactly on "despesa" and "receita"; each member is recovered from its value, and the two values differ |
| `Models.NewMovimento` | gestor/models.py:35-42 | the constructor keeps id, tipo and valor; the category and the payment method are the argument with whitespace removed at both ends; the description is kept; absent text becomes "" |
| `Models.ValidarMovimento` | gestor/models.py:44-50 | accepts exactly when valor > 0 and the category is non-empty; valor is checked first, and each failure has its own reason |
| `Models.BlankCategoriaRejected` | gestor/models.py:39-50 | a category made only of whitespace is rejected by `validar`, whatever the other arguments are |
| `Models.MovimentoToDict` | gestor/models.py:52-62 | the dictionary has exactly the seven persisted keys |
| `Models.MovimentoFromDict` | gestor/models.py:40-74 | a record without `id` raises KeyError; a successful read has a stripped category and payment method; the description is `str(descricao or "")` and the payment method `str(metodo or "").strip()` of the stored value, so a stored number is read as its decimal text and 0 or null as ""; a non-zero number stored as the date fails as `BadValue("data")` |
| `Models.StrOr` | gestor/models.py:40-42 | `str(x or default)`: null, "" and 0 give the default; a non-empty string is itself; a positive number is its decimal digits and a negative one a minus sign followed by them |
| `Models.NumericDescricao` | gestor/models.py:64-74 | a stored record whose description was replaced by a positive number reads back with that number's decimal text as description and is otherwise unchanged |
| `Models.MovimentoRoundTrip` | gestor/models.py:52-74 | `from_dict(to_dict(m)) == m` for every movement with normalised text fields |
| `Models.NewMovimentoRoundTrip` | gestor/models.py:35-74 | every movement the constructor builds survives `to_dict` followed by `from_dict` |
| `Models.Reloaded` | gestor/models.py:64-74 | a reread movement is normalised, and a normalised movement rereads as itself |
| `Models.MovimentoReload` | gestor/models.py:52-74 | `from_dict(to_dict(m))` never raises and yields `Reloaded(m)` |
| `Models.NormalPeriodo` | gestor/models.py:84 | an absent or empty period becomes "mensal"; a given one becomes its lower-cased, stripped text; the result is stripped, already lower case, and no longer than the argument |
| `Models.NewOrcamento` | gestor/models.py:80-84 | the budget constructor keeps id and limite, strips the category and normalises the period |
| `Models.PeriodoSpelling` | gestor/models.py:84 | " Semanal " normalises to "semanal" and "MENSAL" to "mensal" |
| `Models.ValidarOrcamento` | gestor/models.py:86-92 | accepts exactly a non-empty category, a positive limit and a period of "mensal" or "semanal", checked in that order |
| `Models.OrcamentoToDict` | gestor/models.py:94-100 | the dictionary has exactly the four persisted keys |
| `Models.OrcamentoFromDict` | gestor/models.py:102-108 | a record without `id` raises KeyError; a successful read has a stripped category; its period is the normalised `str(periodo or "mensal")` of the stored value, so 0 or null read as "mensal" and a number as its decimal text |
| `Models.OrcamentoDictRead` | gestor/models.py:94-108 | `from_dict(to_dict(o))` is `o` with its category stripped and its period normalised |
| `Models.OrcamentoRoundTrip` | gestor/models.py:94-108 | a budget with a stripped category and a non-empty, stripped, lower-case period reads back unchanged |
| `Models.BlankPeriodoReadsAsMensal` | gestor/models.py:102-108 | a stored empty period reads back as "mensal"; such a budget never passes `validar` |
| `Models.ValidOrcamentoRoundTrip` | gestor/models.py:86-108 | every budget that passes `validar` (with a stripped category) survives the round trip |
| `Models.ValidPeriodoStripped` | gestor/models.py:86-92 | a budget that passes `validar` has a stripped period |
| `Models.ValidPeriodoNormal` | gestor/models.py:84 | "mensal" and "semanal" are their own normal form |
| `Models.ReloadedOrcamentoSpec` | gestor/models.py:102-108 | a reread budget has a stripped category and period; a valid, stripped budget rereads as itself |
| `Models.OrcamentoReload` | gestor/models.py:94-108 | `from_dict(to_dict(o))` never raises and yields `ReloadedOrcamento(o)` |
| `Store.NextId` | gestor/storage.py:27-34 | the next id is at least 1, above every id present, and either 1 or one more than an id present |
| `Store.NextIdFresh` | gestor/storage.py:27-34 | the next id is not taken, and it is 1 on an empty collection |
| `Store.Storage.constructor` | gestor/storage.py:10-14 | a new store holds no movements and no budgets |
| `Store.Storage.CarregarMovimentos` | gestor/storage.py:16-21 | loading returns the stored movements |
| `Store.Storage.GuardarMovimentos` | gestor/storage.py:23-26 | saving overwrites the movements and leaves the budgets alone |
| `Store.Storage.CarregarOrcamentos` | gestor/storage.py:36-40 | loading returns the stored budgets |
| `Store.Storage.GuardarOrcamentos` | gestor/storage.py:42-44 | saving overwrites the budgets and leaves the movements alone |
| `Store.Storage.ProximoId` | gestor/storage.py:27-34 | the loop returns `NextId` of the stored movement ids: above every stored id, and 1 or one more than the largest |
| `Store.Storage.ProximoIdOrcamento` | gestor/storage.py:46-52 | the same for budget ids |
| `Text.Strip` | gestor/models.py:39 | `strip()` returns the part of the string whose surroundings are all whitespace, and it neither starts nor ends with whitespace |
| `Text.StripOfStripped` | gestor/models.py:39 | a string without whitespace at either end is unchanged by `strip()` |
| `Text.StripIdempotent` | gestor/models.py:70 | stripping twice (in `from_dict` and in the constructor) is stripping once |
| `Text.StripEmptyIff` | gestor/models.py:49 | `strip()` gives "" exactly when every character is whitespace |
| `Text.StripPadded` | gestor/models.py:84 | `strip()` removes exactly the whitespace padding around a word |
| `Text.Lower` | gestor/models.py:84 | `lower()` keeps the length and lower-cases each character |
| `Text.LowerIdempotent` | gestor/models.py:84 | lower-casing twice is lower-casing once |
| `Text.LowerKeepsStripped` | gestor/models.py:84 | lower-casing a stripped string leaves it stripped |
| `Text.ContainsIff` | finance/service.py:57 | `needle in hay` holds exactly when the needle occurs at some position of the hay |
| `Text.LexIrreflexive` | gestor/reports.py:69 | string `<` is irreflexive |
| `Text.LexTransitive` | gestor/reports.py:69 | string `<` is transitive |
| `Text.LexTotal` | gestor/reports.py:69 | of two different strings one is smaller |
| `Text.LexAsymmetric` | gestor/reports.py:69 | string `<` is asymmetric |
| `Text.Decimal` | gestor/reports.py:25 | the decimal rendering is non-empty and all digits |
| `Text.DecimalRoundTrip` | gestor/reports.py:25 | reading the rendering of `n` back gives `n` |
| `Text.DecimalInjective` | gestor/reports.py:31 | different numbers render differently |
| `Text.Pad2` | gestor/reports.py:31 | `{n:02d}` for n < 100 is two digits whose value is n |
| `Text.Pad4` | finance/service.py:22 | the four-digit year of `isoformat` for n < 10000 is four digits whose value is n |
| `Text.Pad2OfDigits` | gestor/reports.py:31 | two digits are the `{n:02d}` of their own value |
| `Text.Pad4OfDigits` | gestor/reports.py:25 | four digits are the four-digit padding of their own value |
| `Text.DecimalOfFour` | gestor/reports.py:25 | for a year from 1000 to 9999, the zero-padded `%Y` of the month key and the plain decimal year of the week key agree |
| `Calendar.RemoveZ` | gestor/reports.py:21 | `replace("Z", "")` leaves no "Z" |
| `Calendar.ParseIso` | gestor/reports.py:18-21 | after "Z" is removed, a string is accepted exactly when it has one of the three supported layouts and its fields form a valid date-time (year 1 to 9999, a real day of its month, a time of day); the result is the fields read from the digits |
| `Calendar.FormatIso` | finance/service.py:22 | `isoformat(timespec="seconds")` of a valid date-time is 19 characters long |
| `Calendar.FormatParses` | finance/service.py:22 | what `isoformat(timespec="seconds")` writes, `_parse_dt` reads back as the same date-time |
| `Calendar.IsoWeek1Monday` | gestor/reports.py:27-31 | ISO week 1 of a year starts on a Monday whose Thursday falls in the first seven days of January |
| `Calendar.IsoCalendar` | gestor/reports.py:30 | `isocalendar()` of a valid date gives an ISO year within one of the calendar year (and positive), a week from 1 to 53, and the day's own weekday numbered 1 for Monday |
| `Calendar.MonthKey` | gestor/reports.py:25 | `strftime("%Y-%m")` is seven characters: the year in four zero-padded digits, a dash and two month digits, whose values are the date's year and month |
| `Calendar.MonthKeyOf` | gestor/reports.py:23-25 | `_yyyymm` fails exactly when `_parse_dt` fails |
| `Calendar.MonthKeyIsPrefix` | gestor/reports.py:23-25 | for every supported layout with a valid date, the month key is the first seven characters of the string |
| `Calendar.MonthKeyOfPrefix` | finance/service.py:6-8 | `_yyyymm` of every parseable timestamp is its first seven characters after "Z" is removed |
| `Calendar.IsoWeekKey` | gestor/reports.py:31 | the week key is the ISO year's digits, "-W" and two week digits, whose values are the ISO year and ISO week of the date |
| `Calendar.WeekKeyOf` | finance/service.py:10-13 | `_isoweek_key` fails exactly when parsing the timestamp fails |
| `Calendar.DaysBeforeYearStep` | gestor/reports.py:27-31 | day numbering advances by 365 or 366 days a year, following the Gregorian leap rule |
| `Calendar.OrdinalInYear` | gestor/reports.py:27-31 | a valid date's day number lies between its year's 1 January and the next |
| `Calendar.Week1MondayStep` | gestor/reports.py:27-31 | consecutive ISO years are 52 or 53 weeks long |
| `Calendar.IsoOfDaySpec` | gestor/reports.py:27-31 | a day's ISO year is the previous, same or next year; its week-1 Monday is the last one not after the day; the week counts whole weeks from it (1 to 53); the weekday is the day's own |
| `Calendar.KeysDefinedTogether` | gestor/reports.py:23-31 | the month key and the week key fail on exactly the strings that do not parse |
| `Calendar.MonthKeyIdentifiesMonth` | gestor/reports.py:23-25 | two dates share a month key exactly when they share year and month |
| `Calendar.WeekKeyIdentifiesWeek` | finance/service.py:10-13 | two dates share a week key exactly when they share ISO year and ISO week |
| `Buckets.AddSpec` | gestor/reports.py:62-68 | `d[k] += v` keeps keys distinct, adds `v` to key `k` only, adds `k` at the end if new, and adds `v` to the total |
| `Buckets.AddAbsent` | gestor/reports.py:62-68 | a new key is appended with value `v` |
| `Buckets.AddPresent` | gestor/reports.py:62-68 | an existing key keeps its place and gains `v` |
| `Buckets.LookupAbsent` | gestor/reports.py:72-73 | a missing key reads as 0, as in a `defaultdict(float)` |
| `Buckets.TallyStep` | gestor/reports.py:64-68 | one turn of an accumulating loop adds the movement to its bucket when it is selected |
| `Buckets.SelectedTipo` | gestor/reports.py:65-68 | selecting on the `tipo` value is selecting on the enumeration member |
| `Buckets.TallySpec` | gestor/reports.py:62-68 | the accumulator has one entry per bucket some selected movement falls in; each entry holds that bucket's sum, and the entries add up to the sum of all selected movements |
| `Buckets.TallyOrder` | gestor/reports.py:113 | buckets are listed in the order in which they were first seen |
| `Buckets.SumLookupsTotal` | gestor/reports.py:69-75 | reading every key once (plus absent keys) adds up to the accumulator's total |
| `Sequences.FilterMembers` | gestor/reports.py:39-45 | exactly the elements satisfying the condition survive, and the result is no longer |
| `Sequences.FilterIndex` | gestor/reports.py:39-45 | every element of the filtered list comes from some position of the input |
| `Sequences.FilterOrder` | gestor/reports.py:39-45 | two elements of the filtered list come from input positions in the same order |
| `Sequences.FilterKeepsAll` | finance/service.py:48-59 | a filter that rejects nothing returns its input |
| `Sequences.SortDescSpec` | gestor/reports.py:114 | `sort(key, reverse=True)` returns a non-increasing permutation of its input |
| `Sequences.SortDescStable` | gestor/reports.py:114 | the sort is stable: elements with equal keys keep their order |
| `Sequences.SortDescTies` | gestor/reports.py:76 | a stable sort of rows already ordered by `less` breaks ties by `less` |
| `Sequences.SortDescSum` | gestor/reports.py:76 | sorting does not change a column's sum |
| `Sequences.SortedSetSpec` | gestor/reports.py:69 | `sorted(set(s))` is strictly increasing and holds exactly the elements of `s` |
| `ReportEngine.Undated` | gestor/reports.py:39-40 | one movement whose date does not parse makes the period filter fail |
| `ReportEngine.UndatedDespesa` | gestor/reports.py:131-136 | one expense whose date does not parse makes `alertas` fail |
| `ReportEngine.PeriodoSpec` | gestor/reports.py:33-46 | with no bound the list is returned unchanged; with a bound, the filter fails exactly when a bound or a movement date does not parse; otherwise it keeps exactly the movements dated within the inclusive bounds |
| `ReportEngine.PeriodoOrder` | gestor/reports.py:39-45 | `_filtro_periodo` keeps the movements in their stored order |
| `ReportEngine.TotaisRow` | gestor/reports.py:69-75 | every row is the row built for one of the categories |
| `ReportEngine.TotaisSums` | gestor/reports.py:56-77 | each row's despesa and receita are the sums of its category's expenses and incomes, and saldo = receita - despesa |
| `ReportEngine.TotaisCategorias` | gestor/reports.py:64-69 | there is a row for a category exactly when some movement has that category |
| `ReportEngine.TotaisOrder` | gestor/reports.py:76 | rows are ordered by descending absolute saldo, ties by ascending category, and no category repeats |
| `ReportEngine.CategoriaOccurs` | gestor/reports.py:64-69 | a category occurs exactly when it occurs among the incomes or among the expenses |
| `ReportEngine.TotaisConservation` | gestor/reports.py:56-77 | the despesa column adds up to all expenses and the receita column to all incomes |
| `ReportEngine.CashflowOrder` | gestor/reports.py:93-101 | with every date parsed, the weekly rows exist and come in strictly increasing week order |
| `ReportEngine.CashflowSums` | gestor/reports.py:79-101 | each week's receita and despesa are the sums of that week's incomes and expenses, and saldo = receita - despesa |
| `ReportEngine.CashflowWeeks` | gestor/reports.py:84-93 | there is a row for a week exactly when some movement falls in it |
| `ReportEngine.WeekSet` | gestor/reports.py:85-93 | the weeks collected from both accumulators are exactly the weeks of the movements |
| `ReportEngine.WeekOccurs` | gestor/reports.py:87-92 | a week occurs exactly when an income or an expense falls in it |
| `ReportEngine.WeekOfOne` | gestor/reports.py:87-92 | a movement has a week key w exactly when it is an income or an expense whose week is w |
| `ReportEngine.TopBest` | gestor/reports.py:103-115 | at most max(0, n) rows, taken from the top of the full ranking (all of it when shorter); no category left out has a larger total than one kept |
| `ReportEngine.TopOrder` | gestor/reports.py:113-114 | totals are non-increasing; equal totals keep first-appearance order |
| `ReportEngine.TopSums` | gestor/reports.py:108-113 | every row is a category with movements of the requested tipo, and its total is their sum |
| `ReportEngine.RankedSum` | gestor/reports.py:108-114 | each ranked row is a category of the tipo with its sum |
| `ReportEngine.BreachesSpec` | gestor/reports.py:144-153 | an alert is produced exactly for the buckets over the limit, with the budget's category and limit, the bucket, the spending and the excess |
| `ReportEngine.BudgetRowsSpec` | gestor/reports.py:139-164 | a budget raises exactly the alerts for the months or weeks of its period in which its category's spending is over its limit |
| `ReportEngine.AlertRowsSpec` | gestor/reports.py:138-164 | the rows before sorting are exactly the alerts some budget raises |
| `ReportEngine.AlertasSpec` | gestor/reports.py:117-166 | no budgets means no alerts; otherwise the report fails exactly when an expense date does not parse; rows are exactly the raised alerts, each with gasto > limite and excesso = gasto - limite > 0, by non-increasing excesso |
| `ReportEngine.AlertasTies` | gestor/reports.py:165 | the sort is stable: alerts with equal excesso keep the order in which they were raised |
| `ReportEngine.OtherPeriodoSilent` | gestor/reports.py:142-164 | a budget whose period is neither mensal nor semanal raises nothing |
| `ReportEngine.Reports.constructor` | gestor/reports.py:12-16 | the reports read the given store |
| `ReportEngine.Reports.FiltroPeriodo` | gestor/reports.py:33-46 | `_filtro_periodo` returns `Periodo` (see `PeriodoSpec`) |
| `ReportEngine.Reports.LoadMovs` | gestor/reports.py:48-50 | `_load_movs` is the period filter over the stored movements |
| `ReportEngine.Reports.TotaisPorCat` | gestor/reports.py:56-77 | fails when the filter fails, otherwise returns `Totais` of the filtered movements |
| `ReportEngine.Reports.CashflowSemanal` | gestor/reports.py:79-101 | fails when the filter fails, otherwise returns `Cashflow` of the filtered movements |
| `ReportEngine.Reports.TopCategorias` | gestor/reports.py:103-115 | fails when the filter fails, otherwise returns `Top` of the filtered movements |
| `ReportEngine.Reports.Alertas` | gestor/reports.py:117-166 | fails when the filter fails, otherwise returns `AlertReport` of the filtered movements and stored budgets |
| `ReportEngine.NaJanela` | gestor/reports.py:39-46 | the loop fails if any date does not parse, and otherwise keeps the movements within the bounds, in order |
| `ReportEngine.SomarPorCategoria` | gestor/reports.py:61-76 | the loops of `totais_por_cat` compute `Totais` |
| `ReportEngine.SomarPorSemana` | gestor/reports.py:84-100 | the loops of `cashflow_semanal` compute `Cashflow` |
| `ReportEngine.LinhasPorCategoria` | gestor/reports.py:70-75 | one row per category, in order |
| `ReportEngine.LinhasPorSemana` | gestor/reports.py:94-99 | one row per week, in order |
| `ReportEngine.Classificar` | gestor/reports.py:108-115 | the loop, sort and cut of `top_categorias` compute `Top` |
| `ReportEngine.Registar` | gestor/reports.py:131-136 | one turn of the `alertas` loop: fails exactly on an expense with an unparsable date, otherwise adds an expense to its month and week buckets |
| `ReportEngine.GastosPorPeriodo` | gestor/reports.py:128-136 | succeeds exactly when every expense date parses; the per-category month and week accumulators then equal the reference tallies |
| `ReportEngine.AlertasDosOrcamentos` | gestor/reports.py:138-164 | the loop over budgets computes `AlertRows` |
| `ReportEngine.Estouros` | gestor/reports.py:144-153 | the inner loop computes `Breaches` |
| `ReportEngine.Excessos` | gestor/reports.py:123-166 | the body of `alertas` after loading computes `AlertReport` |
| `Service.ListedSpec` | finance/service.py:41-43 | listing never raises; each listed movement is `from_dict` of the stored one, in stored order; normalised movements come back exactly |
| `Service.ListedOrcamentosSpec` | finance/service.py:85-86 | the same for budgets; valid, stripped budgets come back exactly |
| `Service.ListedAppend` | finance/service.py:31-33 | appending a movement to the store appends exactly it to the listing |
| `Service.BudgetsSpec` | finance/service.py:85-89 | a budget is listed exactly when it is stored and, when a period is given, has that period |
| `Service.KeepMeaning` | finance/service.py:48-59 | the loop's exclusions keep exactly the movements whose date string lies between the bounds (both included), with the given category and tipo, and whose description contains the text ignoring case |
| `Service.FiltradoSpec` | finance/service.py:45-60 | the result keeps, in order, exactly the listed movements that pass; with no criterion it is the whole listing |
| `Service.GastoSpec` | finance/service.py:114-117 | the sum fails exactly when an expense of the category has an unparsable date; otherwise it is the sum over the category's expenses in bucket `ref` |
| `Service.GastoErr` | finance/service.py:129-132 | once a prefix fails, the whole sum fails |
| `Service.BreachSpec` | finance/service.py:111-141 | a budget alerts only when its bucket's spending is strictly over its limit; the alert carries the budget's category, period and limit, the bucket, the spending and the excess |
| `Service.ScanOk` | finance/service.py:111-141 | the loop over budgets succeeds exactly when every budget's sum does |
| `Service.ScanQuiet` | finance/service.py:109-143 | the loop finds nothing exactly when no budget is breached |
| `Service.ScanLast` | finance/service.py:109-143 | a found alert is that of the last breached budget in list order |
| `Service.OverspendQuiet` | finance/service.py:97-102 | incomes and categories without budgets never alert |
| `Service.OverspendAlert` | finance/service.py:91-143 | an alert is for an expense, concerns a budget of the movement's category, has gasto > limite and excesso = gasto - limite, and refers to the month or ISO week of the movement's own date |
| `Service.OverspendLast` | finance/service.py:100-143 | for a dated expense the check scans its category's budgets: no alert exactly when none is breached, otherwise the last breached one's |
| `Service.TwoExpenses` | finance/service.py:114-117 | the bucket sum over two expenses of the category |
| `Service.SecondExpenseOverMonthlyBudget` | testes/test_financas.py:51-60 | limit 100.00 monthly: 60.00 raises nothing, a further 50.00 in the same month raises an excess of 10.00 on 110.00 |
| `Service.SecondExpenseOverWeeklyBudget` | testes/test_financas.py:62-70 | limit 30.00 weekly: 20.00 raises nothing, a further 15.00 in the same ISO week raises an excess of 5.00 |
| `Service.WeeklyBreachUnderMonthlyBudget` | testes/test_financas.py:117-126 | monthly 50.00 then weekly 25.00: 20.00 and 15.00 in one ISO week give the weekly alert with an excess of 10.00 |
| `Service.OverspendOwn` | finance/service.py:100-107 | when every budget is of the movement's category, the check scans them all in the movement's month and week |
| `Service.ScanPair` | finance/service.py:109-143 | scanning two budgets, the first not breached, yields the second's result |
| `Service.NovoSpec` | finance/service.py:19-24 | the new movement's id is above every stored id (1 on an empty store); without a given date its date is `agora` written by `isoformat(timespec="seconds")`, which parses back to `agora`; a given date is kept; it reads back unchanged; it is valid exactly when valor > 0 and the stripped category is non-empty |
| `Service.FirstMatch` | finance/service.py:73-77 | the first stored budget with this category and period, or none |
| `Service.UpsertSpec` | finance/service.py:71-83 | an existing budget with the same category and period (the first) has only its limit replaced and the status is "atualizado"; otherwise the budget is appended and the status is "criado" |
| `Service.UpsertInForce` | finance/service.py:71-80 | after the upsert, the first budget with this category and period has the new limit |
| `Service.UpsertKeepsUnique` | finance/service.py:71-80 | budgets never share a category and a period once the store holds no duplicates; repeating the upsert changes nothing |
| `Service.FinanceService.constructor` | finance/service.py:16-17 | the service uses the given store |
| `Service.FinanceService.Listar` | finance/service.py:41-43 | returns `Listed` of the stored movements |
| `Service.FinanceService.ListarOrcamentos` | finance/service.py:85-89 | returns `Budgets` of the stored budgets |
| `Service.FinanceService.ListarFiltrado` | finance/service.py:45-60 | returns `Filtrado` of the stored movements |
| `Service.FinanceService.VerificarOverspend` | finance/service.py:91-143 | returns `Overspend` of the movement against the listed budgets and movements |
| `Service.FinanceService.AddMovimento` | finance/service.py:19-39 | an invalid movement leaves the store alone and returns (None, None); a valid one is appended, then its overspend check is returned with it; budgets are untouched |
| `Service.FinanceService.AddOrcamento` | finance/service.py:62-83 | an invalid budget leaves the store alone; a valid one is upserted and returned with its status; movements are untouched |
| `Service.ReadMovimentos` | finance/service.py:43 | the comprehension computes `Listed` |
| `Service.ReadOrcamentos` | finance/service.py:86 | the comprehension computes `ListedOrcamentos` |
| `Service.KeepPeriodo` | finance/service.py:88 | keeps, in order, the budgets of the period |
| `Service.KeepCategoria` | finance/service.py:100 | keeps, in order, the budgets of the category |
| `Service.Atualizar` | finance/service.py:71-80 | the loop computes `Upsert` |
| `Service.ProcurarExcesso` | finance/service.py:111-141 | the loop over the category's budgets computes `Scan` |
| `Service.SomarGasto` | finance/service.py:114-117 | the inner loop computes `Gasto` |

## Left out

- `Reports.exportar`, the JSON/CSV export, is not modelled: it is file I/O.
  So are the directory creation in `Storage.__init__` and `Reports.__init__`
  and the file existence checks in `carregar_movimentos` and
  `carregar_orcamentos`. The model's store starts empty, which is the same as
  missing files.
- `print` of validation messages is not modelled.
- `Service.FinanceService.AddMovimento` has no default arguments, because
  `agora` comes last. A call of `add_movimento` without `descricao`,
  `metodo_pagamento` and `data_iso` is the call with `Some("")`, `Some("")`
  and `None`.
- `datetime.now()` in `add_movimento` is the parameter `agora` of `AddMovimento`,
  a valid date-time with whole seconds.
- Floating point: amounts are integer cents, and `round(x, 2)` is the identity.
- `Calendar.ParseIso` accepts only `YYYY-MM-DD`, `YYYY-MM-DDTHH:MM` and
  `YYYY-MM-DDTHH:MM:SS`, after every "Z" is removed. Other forms that
  `fromisoformat` accepts are treated as parse errors. These include
  fractional seconds, offsets and the space separator.
- `Text.Strip` and `Text.Lower` work on ASCII only. `str.strip()` removes
  ASCII whitespace and the information separators. `str.lower()` changes
  only A-Z. Other Unicode whitespace and case mappings are not modelled.
- `Models.NewMovimento` takes a `Tipo`. The `TipoMovimento(str(tipo))`
  conversion of a string argument is `Models.TipoFromToken`. The isinstance
  check in `validar` always passes.
- `Models.MovimentoFromDict`: coercion through `int()` and `float()` is
  simplified. A number is required for `id` and `valor`. Numeric strings
  that `int()` or `float()` would accept are reported as `BadValue`.
- `Models.MovimentoFromDict`: a non-zero number stored as `data` is kept as
  a number by `data_iso or ""` and only fails later, when the date is parsed.
  The model rejects it when the record is read, as `BadValue("data")`.
- `Models.MovimentoFromDict`: a stored value is a number, a string or null
  (`Models.Json`). Lists, objects and booleans in a record are not modelled.
  In the source `float(True)` reads as 1.0 and `str(True or "")` as "True",
  and a list or object is turned into its `str()` text.
- `Models.OrcamentoFromDict`: a number is required for `id` and `limite`;
  numeric strings are reported as `BadValue`.
- `Models.OrcamentoFromDict`: a stored value is a number, a string or null
  (`Models.Json`). Lists, objects and booleans are not modelled; in the
  source a list, object or `True` stored as `periodo` becomes its `str()`
  text, and `int(True)` reads as 1.
- `_load_orcs` checks `hasattr(storage, "carregar_orcamentos")`. This
  always holds for `Storage`, so the reports read the stored budgets directly.
- `ReportEngine.SomarPorSemana` leaves out the final `res.sort(key=semana)`
  of `cashflow_semanal`. The rows are already strictly increasing by week
  (`ReportEngine.CashflowOrder`), so the stable sort leaves them unchanged.
- The reports read the stored records directly, as `Reports` does with the
  raw dictionaries. `FinanceService` reads them through `from_dict`
  (`Service.Listed`).
- `Service.FinanceService.AddOrcamento` returns the budget with the freshly
  drawn id even when an existing budget was updated, as the code does. The
  updated stored budget keeps its own id.
- `Service.FinanceService.AddMovimento` saves a movement whose date does not
  parse and then fails in `verificar_overspend` when the category has
  budgets. The model reproduces this: the store is updated and the result is
  `Err(ParseError)`.
- Loops that accumulate several things at once are split into helper
  methods (`Registar`, `LinhasPorCategoria`, ...). They keep the same order
  of effects.
