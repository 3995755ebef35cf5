/** Timestamps and the two bucket keys derived from them: the calendar month
    `YYYY-MM` (`_yyyymm`) and the ISO-8601 week `YYYY-Www` (`_isoweek_key`).
    Day numbering follows Python's proleptic Gregorian ordinal, in which
    0001-01-01 is day 1 and a Monday; the ISO week is computed as
    `date.isocalendar()` does, from the Monday that starts week 1. */
module Calendar {
  import opened Basics
  import opened Text

  datatype DateTime = DateTime(year: int, month: int, day: int, hour: int, minute: int, second: int)

  predicate IsLeap(y: int)
  {
    y % 4 == 0 && (y % 100 != 0 || y % 400 == 0)
  }

  function DaysInYear(y: int): int
  {
    if IsLeap(y) then 366 else 365
  }

  function DaysInMonth(y: int, m: int): int
    requires 1 <= m <= 12
  {
    if m == 2 then (if IsLeap(y) then 29 else 28)
    else if m == 4 || m == 6 || m == 9 || m == 11 then 30
    else 31
  }

  /** Days in the months of year `y` before month `m`. */
  function DaysBeforeMonth(y: int, m: int): int
    requires 1 <= m <= 12
  {
    var common :=
      if m <= 6 then
        if m == 1 then 0 else if m == 2 then 31 else if m == 3 then 59
        else if m == 4 then 90 else if m == 5 then 120 else 151
      else
        if m == 7 then 181 else if m == 8 then 212 else if m == 9 then 243
        else if m == 10 then 273 else if m == 11 then 304 else 334;
    common + (if m > 2 && IsLeap(y) then 1 else 0)
  }

  /** Days in the years before year `y`. */
  function DaysBeforeYear(y: int): int
  {
    var y1 := y - 1;
    y1 * 365 + y1 / 4 - y1 / 100 + y1 / 400
  }

  /** A date-time that `datetime` can represent. */
  predicate ValidDate(dt: DateTime)
  {
    && 1 <= dt.year <= 9999
    && 1 <= dt.month <= 12
    && 1 <= dt.day <= DaysInMonth(dt.year, dt.month)
    && 0 <= dt.hour < 24 && 0 <= dt.minute < 60 && 0 <= dt.second < 60
  }

  /** Proleptic Gregorian day number of the date part. */
  function Ordinal(dt: DateTime): int
    requires ValidDate(dt)
  {
    DaysBeforeYear(dt.year) + DaysBeforeMonth(dt.year, dt.month) + dt.day
  }

  /** Day number of 1 January of year `y`. */
  function NewYear(y: int): int
  {
    DaysBeforeYear(y) + 1
  }

  /** Monday = 0, ..., Sunday = 6. */
  function Weekday(ordinal: int): int
  {
    (ordinal + 6) % 7
  }

  /** `datetime < datetime`: chronological order. */
  predicate Before(a: DateTime, b: DateTime)
  {
    if a.year != b.year then a.year < b.year
    else if a.month != b.month then a.month < b.month
    else if a.day != b.day then a.day < b.day
    else if a.hour != b.hour then a.hour < b.hour
    else if a.minute != b.minute then a.minute < b.minute
    else a.second < b.second
  }

  // ---------------------------------------------------------------------
  // parsing
  // ---------------------------------------------------------------------

  /** `s.replace("Z", "")`. */
  function RemoveZ(s: string): (r: string)
    ensures 'Z' !in r
  {
    if s == [] then [] else (if s[0] == 'Z' then [] else [s[0]]) + RemoveZ(s[1..])
  }

  predicate DigitsAt(s: string, i: nat, n: nat)
  {
    i + n <= |s| && forall k :: i <= k < i + n ==> IsDigit(s[k])
  }

  function NumberAt(s: string, i: nat, n: nat): nat
    requires DigitsAt(s, i, n)
  {
    DigitsValue(s[i..i + n])
  }

  /** The forms `YYYY-MM-DD`, `YYYY-MM-DDTHH:MM` and `YYYY-MM-DDTHH:MM:SS`. */
  predicate IsoLayout(t: string)
  {
    && (|t| == 10 || |t| == 16 || |t| == 19)
    && DigitsAt(t, 0, 4) && t[4] == '-' && DigitsAt(t, 5, 2) && t[7] == '-' && DigitsAt(t, 8, 2)
    && (|t| >= 16 ==> t[10] == 'T' && DigitsAt(t, 11, 2) && t[13] == ':' && DigitsAt(t, 14, 2))
    && (|t| == 19 ==> t[16] == ':' && DigitsAt(t, 17, 2))
  }

  /** The fields written in a string of that layout; a missing time part is 0. */
  function LayoutFields(t: string): DateTime
    requires IsoLayout(t)
  {
    DateTime(NumberAt(t, 0, 4), NumberAt(t, 5, 2), NumberAt(t, 8, 2),
             if |t| >= 16 then NumberAt(t, 11, 2) else 0,
             if |t| >= 16 then NumberAt(t, 14, 2) else 0,
             if |t| == 19 then NumberAt(t, 17, 2) else 0)
  }

  /** `datetime.fromisoformat(s.replace("Z", ""))` on the forms
      `YYYY-MM-DD`, `YYYY-MM-DDTHH:MM` and `YYYY-MM-DDTHH:MM:SS`;
      `None` stands for the ValueError raised on anything else. A string
      is accepted exactly when it has one of these layouts and the fields
      written in it make a valid date-time, and the result holds those
      fields. */
  function ParseIso(s: string): (r: Option<DateTime>)
    ensures r.Some? <==> IsoLayout(RemoveZ(s)) && ValidDate(LayoutFields(RemoveZ(s)))
    ensures r.Some? ==> r.value == LayoutFields(RemoveZ(s)) && ValidDate(r.value)
  {
    var t := RemoveZ(s);
    if !(|t| == 10 || |t| == 16 || |t| == 19) then None
    else if !(DigitsAt(t, 0, 4) && t[4] == '-' && DigitsAt(t, 5, 2) && t[7] == '-' && DigitsAt(t, 8, 2)) then None
    else if |t| >= 16 && !(t[10] == 'T' && DigitsAt(t, 11, 2) && t[13] == ':' && DigitsAt(t, 14, 2)) then None
    else if |t| == 19 && !(t[16] == ':' && DigitsAt(t, 17, 2)) then None
    else
      var dt := DateTime(NumberAt(t, 0, 4), NumberAt(t, 5, 2), NumberAt(t, 8, 2),
                         if |t| >= 16 then NumberAt(t, 11, 2) else 0,
                         if |t| >= 16 then NumberAt(t, 14, 2) else 0,
                         if |t| == 19 then NumberAt(t, 17, 2) else 0);
      if ValidDate(dt) then Some(dt) else None
  }

  /** A string without "Z" is left alone by `replace("Z", "")`. */
  lemma {:induction false} RemoveZOfPlain(s: string)
    requires forall i :: 0 <= i < |s| ==> s[i] != 'Z'
    ensures RemoveZ(s) == s
  {
    if s != [] {
      RemoveZOfPlain(s[1..]);
    }
  }

  /** `dt.isoformat(timespec="seconds")`: `YYYY-MM-DDTHH:MM:SS`, the year
      written with four digits. */
  function FormatIso(dt: DateTime): (s: string)
    requires ValidDate(dt)
    ensures |s| == 19
  {
    Pad4(dt.year) + "-" + Pad2(dt.month) + "-" + Pad2(dt.day) + "T"
      + Pad2(dt.hour) + ":" + Pad2(dt.minute) + ":" + Pad2(dt.second)
  }

  /** What `isoformat` writes, `fromisoformat` reads back. */
  lemma FormatParses(dt: DateTime)
    requires ValidDate(dt)
    ensures ParseIso(FormatIso(dt)) == Some(dt)
  {
    var s := FormatIso(dt);
    FormatLayout(dt);
    FormatHasNoZ(dt);
    RemoveZOfPlain(s);
  }

  /** `isoformat` writes the long layout, and its fields read back as `dt`. */
  lemma FormatLayout(dt: DateTime)
    requires ValidDate(dt)
    ensures IsoLayout(FormatIso(dt)) && LayoutFields(FormatIso(dt)) == dt
  {
    var s := FormatIso(dt);
    FormatFields(dt);
    assert IsoLayout(s);
    assert NumberAt(s, 0, 4) == dt.year && NumberAt(s, 5, 2) == dt.month && NumberAt(s, 8, 2) == dt.day;
    assert NumberAt(s, 11, 2) == dt.hour && NumberAt(s, 14, 2) == dt.minute && NumberAt(s, 17, 2) == dt.second;
  }

  /** Where `isoformat` puts each field and each separator. */
  lemma FormatFields(dt: DateTime)
    requires ValidDate(dt)
    ensures var s := FormatIso(dt);
      && s[0..4] == Pad4(dt.year) && s[4] == '-'
      && s[5..7] == Pad2(dt.month) && s[7] == '-'
      && s[8..10] == Pad2(dt.day) && s[10] == 'T'
      && s[11..13] == Pad2(dt.hour) && s[13] == ':'
      && s[14..16] == Pad2(dt.minute) && s[16] == ':'
      && s[17..19] == Pad2(dt.second)
  {
  }

  /** `isoformat` writes no "Z". */
  lemma FormatHasNoZ(dt: DateTime)
    requires ValidDate(dt)
    ensures forall i :: 0 <= i < |FormatIso(dt)| ==> FormatIso(dt)[i] != 'Z'
  {
    var s := FormatIso(dt);
    FormatFields(dt);
    forall i | 0 <= i < |s| ensures s[i] != 'Z' {
      if i < 4 { assert s[i] == Pad4(dt.year)[i]; }
      else if 5 <= i < 7 { assert s[i] == Pad2(dt.month)[i - 5]; }
      else if 8 <= i < 10 { assert s[i] == Pad2(dt.day)[i - 8]; }
      else if 11 <= i < 13 { assert s[i] == Pad2(dt.hour)[i - 11]; }
      else if 14 <= i < 16 { assert s[i] == Pad2(dt.minute)[i - 14]; }
      else if 17 <= i < 19 { assert s[i] == Pad2(dt.second)[i - 17]; }
    }
  }

  // ---------------------------------------------------------------------
  // calendar arithmetic
  // ---------------------------------------------------------------------

  lemma DaysBeforeYearStep(y: int)
    ensures DaysBeforeYear(y + 1) == DaysBeforeYear(y) + DaysInYear(y)
  {
    Div4Step(y);
    Div100Step(y);
    Div400Step(y);
    if y % 400 == 0 {
      Multiple400(y);
    }
    if y % 100 == 0 {
      Multiple100(y);
    }
  }

  // one more year adds one to `y / n` exactly when `n` divides `y`
  lemma Div4Step(y: int)
    ensures y / 4 - (y - 1) / 4 == if y % 4 == 0 then 1 else 0
  {
  }

  lemma Div100Step(y: int)
    ensures y / 100 - (y - 1) / 100 == if y % 100 == 0 then 1 else 0
  {
  }

  lemma Div400Step(y: int)
    ensures y / 400 - (y - 1) / 400 == if y % 400 == 0 then 1 else 0
  {
  }

  lemma Multiple400(y: int)
    requires y % 400 == 0
    ensures y % 100 == 0
  {
    var k := y / 400;
    assert y == 100 * (4 * k);
  }

  lemma Multiple100(y: int)
    requires y % 100 == 0
    ensures y % 4 == 0
  {
    var k := y / 100;
    assert y == 4 * (25 * k);
  }

  /** A valid date lies within its year. */
  lemma OrdinalInYear(dt: DateTime)
    requires ValidDate(dt)
    ensures NewYear(dt.year) <= Ordinal(dt) < NewYear(dt.year + 1)
  {
    DaysBeforeYearStep(dt.year);
  }

  /** `_isoweek1monday(year)`: the day number of the Monday that starts ISO
      week 1. ISO 8601 week 1 is the week holding the year's first Thursday:
      the Monday returned is followed, three days later, by a Thursday that
      falls in the first seven days of January. */
  function IsoWeek1Monday(y: int): (m: int)
    ensures Weekday(m) == 0 && Weekday(m + 3) == 3
    ensures NewYear(y) <= m + 3 < NewYear(y) + 7
  {
    Week1MondayFromFacts(NewYear(y));
    Week1MondayFrom(NewYear(y))
  }

  /** The Monday that starts week 1 of a year whose 1 January is day `firstday`. */
  function Week1MondayFrom(firstday: int): int
  {
    var firstweekday := Weekday(firstday);
    var week1monday := firstday - firstweekday;
    if firstweekday > 3 then week1monday + 7 else week1monday
  }

  lemma Week1MondayFromFacts(f: int)
    ensures Weekday(Week1MondayFrom(f)) == 0
    ensures Weekday(Week1MondayFrom(f) + 3) == 3
    ensures f <= Week1MondayFrom(f) + 3 < f + 7
    ensures Week1MondayFrom(f) + 6 == 7 * ((Week1MondayFrom(f) + 6) / 7)
  {
    var r := (f + 6) % 7;
    var q := (f + 6) / 7;
    assert f + 6 == 7 * q + r;
    var w := Week1MondayFrom(f);
    if r > 3 {
      assert w + 6 == 7 * (q + 1);
    } else {
      assert w + 6 == 7 * q;
    }
  }

  lemma Week1MondayFromStep(f: int, g: int)
    requires g - f == 365 || g - f == 366
    ensures Week1MondayFrom(g) - Week1MondayFrom(f) == 364
         || Week1MondayFrom(g) - Week1MondayFrom(f) == 371
  {
    Week1MondayFromFacts(f);
    Week1MondayFromFacts(g);
    var a, b := Week1MondayFrom(f), Week1MondayFrom(g);
    var q := (b + 6) / 7 - (a + 6) / 7;
    assert b - a == 7 * q;
  }

  /** Consecutive week-1 Mondays are 52 or 53 weeks apart. */
  lemma Week1MondayStep(y: int)
    ensures IsoWeek1Monday(y + 1) - IsoWeek1Monday(y) == 364
         || IsoWeek1Monday(y + 1) - IsoWeek1Monday(y) == 371
  {
    DaysBeforeYearStep(y);
    Week1MondayFromStep(NewYear(y), NewYear(y + 1));
  }

  /** `date.isocalendar()`: ISO year, week (from 1) and weekday (Monday = 1). */
  datatype IsoDate = IsoDate(year: int, week: int, weekday: int)

  /** `date.isocalendar()`: the ISO year is the calendar year or one of its
      neighbours, and positive; the week runs from 1 to 53; the weekday is
      the date's own. It is `IsoOfDay` of the date's day number, which lies
      in its calendar year, so `IsoOfDaySpec` gives the full characterisation. */
  function IsoCalendar(dt: DateTime): (c: IsoDate)
    requires ValidDate(dt)
    ensures dt.year - 1 <= c.year <= dt.year + 1 && 1 <= c.year
    ensures 1 <= c.week <= 53
    ensures c.weekday == Weekday(Ordinal(dt)) + 1
  {
    OrdinalInYear(dt);
    IsoOfDaySpec(Ordinal(dt), dt.year);
    IsoOfDay(Ordinal(dt), dt.year)
  }

  /** The ISO week date of day number `today`, which lies in year `y`. */
  function IsoOfDay(today: int, y: int): IsoDate
  {
    IsoPick(today, y, IsoWeek1Monday(y - 1), IsoWeek1Monday(y), IsoWeek1Monday(y + 1))
  }

  /** The branches of `isocalendar()` for day `today` of year `y`, given the
      week-1 Mondays of the previous, the current and the next year. */
  function IsoPick(today: int, y: int, previous: int, current: int, next: int): IsoDate
  {
    var week, day := (today - current) / 7, (today - current) % 7;
    if week < 0 then
      IsoDate(y - 1, (today - previous) / 7 + 1, (today - previous) % 7 + 1)
    else if week >= 52 && today >= next then
      IsoDate(y + 1, 1, day + 1)
    else
      IsoDate(y, week + 1, day + 1)
  }

  /** Counting days from a Monday `m` lands on the day's own weekday. */
  lemma DaysFromMonday(today: int, m: int)
    requires Weekday(m) == 0
    ensures (today - m) % 7 == Weekday(today)
  {
    var k := (m + 6) / 7;
    assert m + 6 == 7 * k;
    var q, r := (today - m) / 7, (today - m) % 7;
    assert today + 6 == 7 * (q + k) + r;
  }

  /** The calendar facts `IsoPickSpec` needs about four consecutive years:
      `n0` to `n3` are their first days and `a` to `d` their week-1 Mondays. */
  predicate Frame(n0: int, n1: int, n2: int, n3: int, a: int, b: int, c: int, d: int)
  {
    && (n1 - n0 == 365 || n1 - n0 == 366) && (n2 - n1 == 365 || n2 - n1 == 366) && (n3 - n2 == 365 || n3 - n2 == 366)
    && n0 <= a + 3 < n0 + 7 && n1 <= b + 3 < n1 + 7 && n2 <= c + 3 < n2 + 7 && n3 <= d + 3 < n3 + 7
    && (b - a == 364 || b - a == 371) && (c - b == 364 || c - b == 371) && (d - c == 364 || d - c == 371)
    && Weekday(a) == 0 && Weekday(b) == 0
  }

  /** `p` is the ISO week date of day `today` of year `y`, where `a` to `d`
      are the week-1 Mondays of years `y - 1` to `y + 2`: its ISO year is the
      one whose week-1 Monday `m` is the last one not after `today`, the week
      counts whole weeks from `m` (1 to 53), and the weekday is the day's own. */
  predicate IsoWeekDate(p: IsoDate, today: int, y: int, a: int, b: int, c: int, d: int)
  {
    var m := if p.year == y - 1 then a else if p.year == y then b else c;
    var m' := if p.year == y - 1 then b else if p.year == y then c else d;
    && y - 1 <= p.year <= y + 1 && 1 <= p.year
    && m <= today < m'
    && p.week == (today - m) / 7 + 1
    && 1 <= p.week <= 53
    && p.weekday == Weekday(today) + 1
  }

  /** `IsoPick` on plain day numbers. */
  lemma IsoPickSpec(today: int, y: int, n0: int, n1: int, n2: int, n3: int, a: int, b: int, c: int, d: int)
    requires Frame(n0, n1, n2, n3, a, b, c, d)
    requires n1 <= today < n2
    requires y >= 1 && (y == 1 ==> b <= n1)
    ensures IsoWeekDate(IsoPick(today, y, a, b, c), today, y, a, b, c, d)
  {
    if today < b {
      DaysFromMonday(today, a);
    } else {
      DaysFromMonday(today, b);
    }
  }

  /** 0001-01-01, day 1, is a Monday and starts ISO week 1 of year 1. */
  lemma FirstMonday()
    ensures IsoWeek1Monday(1) == 1
  {
    assert NewYear(1) == 1;
  }

  /** The first days and week-1 Mondays of the years around `y`, as `IsoPickSpec` needs them. */
  lemma YearFrame(y: int)
    ensures Frame(NewYear(y - 1), NewYear(y), NewYear(y + 1), NewYear(y + 2),
                  IsoWeek1Monday(y - 1), IsoWeek1Monday(y), IsoWeek1Monday(y + 1), IsoWeek1Monday(y + 2))
  {
    var a, b, c, d := IsoWeek1Monday(y - 1), IsoWeek1Monday(y), IsoWeek1Monday(y + 1), IsoWeek1Monday(y + 2);
    Week1MondayStep(y - 1);
    Week1MondayStep(y);
    Week1MondayStep(y + 1);
    DaysBeforeYearStep(y - 1);
    DaysBeforeYearStep(y);
    DaysBeforeYearStep(y + 1);
  }

  /** The ISO week date of day `today` of year `y`: its ISO year is the one
      whose week-1 Monday is the last one not after `today` (the previous,
      the same or the next calendar year), the week counts whole weeks from
      that Monday, and the weekday is the day's own. */
  lemma IsoOfDaySpec(today: int, y: int)
    requires y >= 1 && NewYear(y) <= today < NewYear(y + 1)
    ensures IsoWeekDate(IsoOfDay(today, y), today, y,
                        IsoWeek1Monday(y - 1), IsoWeek1Monday(y), IsoWeek1Monday(y + 1), IsoWeek1Monday(y + 2))
  {
    var n0, n1, n2, n3 := NewYear(y - 1), NewYear(y), NewYear(y + 1), NewYear(y + 2);
    var a, b, c, d := IsoWeek1Monday(y - 1), IsoWeek1Monday(y), IsoWeek1Monday(y + 1), IsoWeek1Monday(y + 2);
    YearFrame(y);
    assert Frame(n0, n1, n2, n3, a, b, c, d);
    assert y == 1 ==> b <= n1 by {
      if y == 1 {
        FirstMonday();
      }
    }
    IsoPickSpec(today, y, n0, n1, n2, n3, a, b, c, d);
    assert IsoOfDay(today, y) == IsoPick(today, y, a, b, c);
  }

  // ---------------------------------------------------------------------
  // bucket keys
  // ---------------------------------------------------------------------

  /** `strftime("%Y-%m")`: the year in four digits, zero-padded, a dash
      and the month in two digits. */
  function MonthKey(dt: DateTime): (k: string)
    requires ValidDate(dt)
    ensures |k| == 7 && k[4] == '-'
    ensures forall i :: 0 <= i < 4 ==> IsDigit(k[i])
    ensures DigitsValue(k[..4]) == dt.year
    ensures IsDigit(k[5]) && IsDigit(k[6]) && DigitsValue(k[5..]) == dt.month
  {
    var y, m := Pad4(dt.year), Pad2(dt.month);
    var k := y + "-" + m;
    assert k[..4] == y && k[5..] == m;
    k
  }

  /** `f"{iso_year}-W{iso_week:02d}"`: the digits of the ISO year, "-W" and
      the ISO week in two digits. */
  function IsoWeekKey(dt: DateTime): (k: string)
    requires ValidDate(dt)
    ensures |k| >= 5 && k[|k| - 4..|k| - 2] == "-W"
    ensures forall i :: 0 <= i < |k| - 4 ==> IsDigit(k[i])
    ensures DigitsValue(k[..|k| - 4]) == IsoCalendar(dt).year
    ensures IsDigit(k[|k| - 2]) && IsDigit(k[|k| - 1]) && DigitsValue(k[|k| - 2..]) == IsoCalendar(dt).week
  {
    var c := IsoCalendar(dt);
    WeekKeyText(c.year, c.week);
    Decimal(c.year) + "-W" + Pad2(c.week)
  }

  /** The layout of `f"{a}-W{b:02d}"`. */
  lemma WeekKeyText(a: nat, b: nat)
    requires b < 100
    ensures var k := Decimal(a) + "-W" + Pad2(b);
      && |k| >= 5 && k[|k| - 4..|k| - 2] == "-W"
      && (forall i :: 0 <= i < |k| - 4 ==> IsDigit(k[i]))
      && DigitsValue(k[..|k| - 4]) == a
      && IsDigit(k[|k| - 2]) && IsDigit(k[|k| - 1]) && DigitsValue(k[|k| - 2..]) == b
  {
    var y, w := Decimal(a), Pad2(b);
    var k := y + "-W" + w;
    assert k[..|k| - 4] == y && k[|k| - 4..|k| - 2] == "-W" && k[|k| - 2..] == w;
    DecimalRoundTrip(a);
  }

  /** For a timestamp in the layout, the month key is the text of its
      first seven characters. */
  lemma MonthKeyIsPrefix(t: string)
    requires IsoLayout(t) && ValidDate(LayoutFields(t))
    ensures MonthKey(LayoutFields(t)) == t[..7]
  {
    Pad4OfDigits(t[..4]);
    Pad2OfDigits(t[5..7]);
    assert t[..7] == t[..4] + "-" + t[5..7];
  }

  /** `_yyyymm(s)`: `None` (the ValueError) exactly when the string does not
      parse, otherwise the month key of the parsed date. */
  function MonthKeyOf(s: string): (r: Option<string>)
    ensures r.Some? <==> ParseIso(s).Some?
  {
    match ParseIso(s)
    case Some(dt) => Some(MonthKey(dt))
    case None => None
  }

  /** For every timestamp that parses, `_yyyymm` gives the `YYYY-MM` the
      string starts with. */
  lemma MonthKeyOfPrefix(s: string)
    requires ParseIso(s).Some?
    ensures MonthKeyOf(s) == Some(RemoveZ(s)[..7])
  {
    MonthKeyIsPrefix(RemoveZ(s));
  }

  /** `_isoweek_key(s)`: `None` (the ValueError) exactly when the string does
      not parse; otherwise the key of the parsed date's ISO week. */
  function WeekKeyOf(s: string): (r: Option<string>)
    ensures r.Some? <==> ParseIso(s).Some?
  {
    match ParseIso(s)
    case Some(dt) => Some(IsoWeekKey(dt))
    case None => None
  }

  /** `_yyyymm` and `_isoweek_key` raise on exactly the same strings: those
      `fromisoformat` rejects. */
  lemma KeysDefinedTogether(s: string)
    ensures MonthKeyOf(s).Some? <==> ParseIso(s).Some?
    ensures WeekKeyOf(s).Some? <==> ParseIso(s).Some?
  {
  }

  /** Splitting `Decimal(a) + sep + Pad2(b)` back into its parts. */
  lemma KeyParts(a: nat, b: nat, c: nat, d: nat, sep: string)
    requires b < 100 && d < 100
    requires Decimal(a) + sep + Pad2(b) == Decimal(c) + sep + Pad2(d)
    ensures a == c && b == d
  {
    var k := Decimal(a) + sep + Pad2(b);
    var n := |k| - |sep| - 2;
    assert Decimal(a) == k[..n];
    assert Decimal(c) == k[..n];
    assert Pad2(b) == k[n + |sep|..];
    assert Pad2(d) == k[n + |sep|..];
    DecimalInjective(a, c);
  }

  /** Two timestamps share a month key exactly when they fall in the same
      calendar month of the same year. */
  lemma MonthKeyIdentifiesMonth(a: DateTime, b: DateTime)
    requires ValidDate(a) && ValidDate(b)
    ensures MonthKey(a) == MonthKey(b) <==> a.year == b.year && a.month == b.month
  {
    var ka, kb := MonthKey(a), MonthKey(b);
    if ka == kb {
      assert ka[..4] == kb[..4] && ka[5..] == kb[5..];
    }
  }

  /** Two timestamps share a week key exactly when they fall in the same ISO
      week of the same ISO year. */
  lemma WeekKeyIdentifiesWeek(a: DateTime, b: DateTime)
    requires ValidDate(a) && ValidDate(b)
    ensures IsoWeekKey(a) == IsoWeekKey(b) <==>
            IsoCalendar(a).year == IsoCalendar(b).year && IsoCalendar(a).week == IsoCalendar(b).week
  {
    if IsoWeekKey(a) == IsoWeekKey(b) {
      KeyParts(IsoCalendar(a).year, IsoCalendar(a).week, IsoCalendar(b).year, IsoCalendar(b).week, "-W");
    }
  }
}
