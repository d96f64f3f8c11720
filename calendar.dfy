/**
  Civil dates of the proleptic Gregorian calendar, as the date library of the
  ledger sees them: a date is a year, a month and a day; day numbers count days
  from 0001-01-01; stepping by days, weeks, months and years overflows into the
  following month exactly as PHP's date arithmetic does (Jan 31 + 1 month is
  the 2nd or 3rd of March).
*/
module Calendar {

  import opened Wrappers

  datatype CivilDate = CivilDate(year: int, month: int, day: int)

  predicate IsLeapYear(y: int) {
    y % 4 == 0 && (y % 100 != 0 || y % 400 == 0)
  }

  function DaysInMonth(y: int, m: int): (n: int)
    requires 1 <= m <= 12
    ensures 28 <= n <= 31
  {
    if m == 2 then (if IsLeapYear(y) then 29 else 28)
    else if m == 4 || m == 6 || m == 9 || m == 11 then 30
    else 31
  }

  predicate ValidDate(d: CivilDate) {
    1 <= d.month <= 12 && 1 <= d.day <= DaysInMonth(d.year, d.month)
  }

  /** A date that exists in the calendar. */
  type Date = d: CivilDate | ValidDate(d) witness CivilDate(1970, 1, 1)

  function DaysInYear(y: int): int {
    if IsLeapYear(y) then 366 else 365
  }

  /** Day number of January 1st of year y (0001-01-01 is day 0). */
  function YearStart(y: int): int {
    var p := y - 1;
    365 * p + p / 4 - p / 100 + p / 400
  }

  /** Days of year y that lie before the first of month m (m == 13: the whole year). */
  function DaysBeforeMonth(y: int, m: int): int
    requires 1 <= m <= 13
  {
    if m == 1 then 0 else DaysBeforeMonth(y, m - 1) + DaysInMonth(y, m - 1)
  }

  /** Day number of the first of month m of year y. */
  function MonthStart(y: int, m: int): int
    requires 1 <= m <= 12
  {
    YearStart(y) + DaysBeforeMonth(y, m)
  }

  function DayNumber(d: Date): int {
    MonthStart(d.year, d.month) + d.day - 1
  }

  /** 0 = Sunday ... 6 = Saturday; 0001-01-01 was a Monday. */
  function DayOfWeek(d: Date): (w: int)
    ensures 0 <= w < 7
  {
    (DayNumber(d) + 1) % 7
  }

  lemma YearStartNext(y: int)
    ensures YearStart(y + 1) == YearStart(y) + DaysInYear(y)
  {
    assert y / 4 - (y - 1) / 4 == if y % 4 == 0 then 1 else 0;
    assert y / 100 - (y - 1) / 100 == if y % 100 == 0 then 1 else 0;
    assert y / 400 - (y - 1) / 400 == if y % 400 == 0 then 1 else 0;
    assert y % 400 == 0 ==> y % 100 == 0;
    assert y % 100 == 0 ==> y % 4 == 0;
  }

  lemma {:induction false} DaysBeforeMonthGrows(y: int, m: int, n: int)
    requires 1 <= m <= n <= 13
    ensures DaysBeforeMonth(y, m) <= DaysBeforeMonth(y, n)
    decreases n - m
  {
    if m < n {
      DaysBeforeMonthGrows(y, m, n - 1);
    }
  }

  /** The twelve months make up the year: 365 days, 366 in a leap year. */
  lemma WholeYear(y: int)
    ensures DaysBeforeMonth(y, 13) == DaysInYear(y)
  {
    var leap := if IsLeapYear(y) then 1 else 0;
    assert DaysBeforeMonth(y, 2) == 31;
    assert DaysBeforeMonth(y, 3) == 59 + leap;
    assert DaysBeforeMonth(y, 4) == 90 + leap;
    assert DaysBeforeMonth(y, 5) == 120 + leap;
    assert DaysBeforeMonth(y, 6) == 151 + leap;
    assert DaysBeforeMonth(y, 7) == 181 + leap;
    assert DaysBeforeMonth(y, 8) == 212 + leap;
    assert DaysBeforeMonth(y, 9) == 243 + leap;
    assert DaysBeforeMonth(y, 10) == 273 + leap;
    assert DaysBeforeMonth(y, 11) == 304 + leap;
    assert DaysBeforeMonth(y, 12) == 334 + leap;
  }

  /** The first of the month after (y, m). */
  function NextMonth(y: int, m: int): (r: (int, int))
    requires 1 <= m <= 12
    ensures 1 <= r.1 <= 12
  {
    if m == 12 then (y + 1, 1) else (y, m + 1)
  }

  /** The first of the month before (y, m). */
  function PreviousMonth(y: int, m: int): (r: (int, int))
    requires 1 <= m <= 12
    ensures 1 <= r.1 <= 12
  {
    if m == 1 then (y - 1, 12) else (y, m - 1)
  }

  lemma MonthStartNext(y: int, m: int)
    requires 1 <= m <= 12
    ensures MonthStart(NextMonth(y, m).0, NextMonth(y, m).1) == MonthStart(y, m) + DaysInMonth(y, m)
  {
    if m == 12 {
      YearStartNext(y);
      WholeYear(y);
    }
  }

  lemma MonthStartPrevious(y: int, m: int)
    requires 1 <= m <= 12
    ensures var (py, pm) := PreviousMonth(y, m);
            MonthStart(py, pm) + DaysInMonth(py, pm) == MonthStart(y, m)
  {
    if m == 1 {
      MonthStartNext(y - 1, 12);
    }
  }

  /**
    The date k days after d (before d when k is negative); within the month
    only the day moves.
  */
  function AddDays(d: Date, k: int): (r: Date)
    ensures 1 <= d.day + k <= DaysInMonth(d.year, d.month) ==> r == CivilDate(d.year, d.month, d.day + k)
    decreases if k >= 0 then k else -k
  {
    var dim := DaysInMonth(d.year, d.month);
    if 1 <= d.day + k <= dim then
      CivilDate(d.year, d.month, d.day + k)
    else if k > 0 then
      var (ny, nm) := NextMonth(d.year, d.month);
      AddDays(CivilDate(ny, nm, 1), k - (dim - d.day + 1))
    else
      var (py, pm) := PreviousMonth(d.year, d.month);
      AddDays(CivilDate(py, pm, DaysInMonth(py, pm)), k + d.day)
  }

  /** Adding k days moves the day number by exactly k. */
  lemma {:induction false} AddDaysNumber(d: Date, k: int)
    ensures DayNumber(AddDays(d, k)) == DayNumber(d) + k
    decreases if k >= 0 then k else -k
  {
    var dim := DaysInMonth(d.year, d.month);
    if 1 <= d.day + k <= dim {
    } else if k > 0 {
      var (ny, nm) := NextMonth(d.year, d.month);
      MonthStartNext(d.year, d.month);
      AddDaysNumber(CivilDate(ny, nm, 1), k - (dim - d.day + 1));
    } else {
      var (py, pm) := PreviousMonth(d.year, d.month);
      MonthStartPrevious(d.year, d.month);
      AddDaysNumber(CivilDate(py, pm, DaysInMonth(py, pm)), k + d.day);
    }
  }

  /** Month index counting months from January of year 0. */
  function MonthIndex(y: int, m: int): int {
    12 * y + m - 1
  }

  lemma MonthStartIncreases(y: int, m: int, y': int, m': int)
    requires 1 <= m <= 12 && 1 <= m' <= 12
    requires MonthIndex(y, m) < MonthIndex(y', m')
    ensures MonthStart(y, m) < MonthStart(y', m')
    decreases MonthIndex(y', m') - MonthIndex(y, m)
  {
    var (ny, nm) := NextMonth(y, m);
    MonthStartNext(y, m);
    if MonthIndex(ny, nm) < MonthIndex(y', m') {
      MonthStartIncreases(ny, nm, y', m');
    } else {
      assert ny == y' && nm == m';
    }
  }

  /** The year a month offset m of year y lands in (month 0 is December of y - 1, month 13 January of y + 1). */
  function OffsetYear(y: int, m: int): int {
    y + (m - 1) / 12
  }

  /** The month of the year a month offset m lands in. */
  function OffsetMonth(m: int): (r: int)
    ensures 1 <= r <= 12
  {
    (m - 1) % 12 + 1
  }

  /** A month offset within 1..12 is that month of the year itself. */
  lemma OffsetInYear(y: int, m: int)
    requires 1 <= m <= 12
    ensures OffsetYear(y, m) == y && OffsetMonth(m) == m
  {
  }

  /** Month offset m + n from (y, m) lands n months on. */
  lemma MonthIndexOfOffset(y: int, m: int, n: int)
    requires 1 <= m <= 12
    ensures MonthIndex(OffsetYear(y, m + n), OffsetMonth(m + n)) == MonthIndex(y, m) + n
  {
    var t := m + n - 1;
    assert t == 12 * (t / 12) + t % 12;
  }

  /**
    The date PHP's date arithmetic gives for year y, month m and day d: month
    and day are taken as offsets, so month 13 is January of the next year and
    day 0 is the last day of the previous month. Carbon's addMonths lands here
    for every argument, createFromDate only for those it can read back.
  */
  function OverflowDate(y: int, m: int, d: int): (r: Date)
    ensures 1 <= m <= 12 && 1 <= d <= DaysInMonth(y, m) ==> r == CivilDate(y, m, d)
  {
    var first: Date := CivilDate(OffsetYear(y, m), OffsetMonth(m), 1);
    AddDays(first, d - 1)
  }

  /** The overflowing date lies d - 1 days on from the first of the month the month offset lands in. */
  lemma OverflowDateNumber(y: int, m: int, d: int)
    ensures DayNumber(OverflowDate(y, m, d)) == MonthStart(OffsetYear(y, m), OffsetMonth(m)) + d - 1
  {
    var first: Date := CivilDate(OffsetYear(y, m), OffsetMonth(m), 1);
    AddDaysNumber(first, d - 1);
  }

  /**
    Whether Carbon's createFromDate can read its month and day back: it writes
    y-m-d as decimal text and parses it with the format "Y-n-j", whose month and
    day fields take one or two digits and no sign. Anything else throws.
  */
  predicate Readable(m: int, d: int) {
    0 <= m <= 99 && 0 <= d <= 99
  }

  /** Carbon's createFromDate(y, m, d): the overflowing date, or None where it throws. */
  function CreateFromDate(y: int, m: int, d: int): (r: Option<Date>)
    ensures r.Some? <==> Readable(m, d)
    ensures 1 <= m <= 12 && 1 <= d <= DaysInMonth(y, m) ==> r == Some(CivilDate(y, m, d))
    ensures r.Some? ==> DayNumber(r.value) == MonthStart(OffsetYear(y, m), OffsetMonth(m)) + d - 1
  {
    OverflowDateNumber(y, m, d);
    if Readable(m, d) then Some(OverflowDate(y, m, d)) else None
  }

  /** Carbon's addMonths with overflow: same day in the month n months on, overflowing into the next. */
  function AddMonths(d: Date, n: int): (r: Date)
    ensures var y', m' := OffsetYear(d.year, d.month + n), OffsetMonth(d.month + n);
            d.day <= DaysInMonth(y', m') ==> r == CivilDate(y', m', d.day)
  {
    OverflowDate(d.year, d.month + n, d.day)
  }

  /** Adding n months lands on day d.day counted from the first of the month n months on. */
  lemma AddMonthsNumber(d: Date, n: int)
    ensures DayNumber(AddMonths(d, n)) == MonthStart(OffsetYear(d.year, d.month + n), OffsetMonth(d.month + n)) + d.day - 1
  {
    OverflowDateNumber(d.year, d.month + n, d.day);
  }

  lemma AddMonthsIncreases(d: Date, n: int)
    requires n >= 1
    ensures DayNumber(AddMonths(d, n)) > DayNumber(d)
  {
    AddMonthsNumber(d, n);
    MonthIndexOfOffset(d.year, d.month, n);
    MonthStartIncreases(d.year, d.month, OffsetYear(d.year, d.month + n), OffsetMonth(d.month + n));
  }

  /** The unit of a recurrence step. */
  datatype Period = Week | Month | Year

  /** Advance d by `every` units of p (Carbon's addWeeks, addMonths, addYears). */
  function Step(d: Date, p: Period, every: int): Date {
    match p
    case Week => AddDays(d, 7 * every)
    case Month => AddMonths(d, every)
    case Year => AddMonths(d, 12 * every)
  }

  lemma StepIncreases(d: Date, p: Period, every: int)
    requires every >= 1
    ensures DayNumber(Step(d, p, every)) > DayNumber(d)
  {
    match p
    case Week => AddDaysNumber(d, 7 * every);
    case Month => AddMonthsIncreases(d, every);
    case Year => AddMonthsIncreases(d, 12 * every);
  }

  lemma DayNumberInYear(d: Date)
    ensures YearStart(d.year) <= DayNumber(d) < YearStart(d.year + 1)
  {
    DaysBeforeMonthGrows(d.year, 1, d.month);
    DaysBeforeMonthGrows(d.year, d.month + 1, 13);
    WholeYear(d.year);
    YearStartNext(d.year);
  }

  lemma YearStartMonotone(a: int, b: int)
    requires a <= b
    ensures YearStart(a) <= YearStart(b)
    decreases b - a
  {
    if a < b {
      YearStartNext(a);
      YearStartMonotone(a + 1, b);
    }
  }

  /** The dates strictly increase. */
  predicate Increasing(s: seq<Date>) {
    forall i, j :: 0 <= i < j < |s| ==> DayNumber(s[i]) < DayNumber(s[j])
  }

  /** Later day numbers never lie in earlier years. */
  lemma YearOrder(a: Date, b: Date)
    requires DayNumber(a) <= DayNumber(b)
    ensures a.year <= b.year
  {
    if a.year > b.year {
      DayNumberInYear(a);
      DayNumberInYear(b);
      YearStartMonotone(b.year + 1, a.year);
    }
  }

  lemma ModSevenShift(n: int, k: int)
    ensures (n + 7 * k) % 7 == n % 7
  {
    var q, r := n / 7, n % 7;
    assert n + 7 * k == 7 * (q + k) + r;
  }

  /** A weekly series keeps its weekday: stepping by whole weeks does not change it. */
  lemma WeekStepKeepsWeekday(d: Date, every: int)
    ensures DayOfWeek(Step(d, Week, every)) == DayOfWeek(d)
  {
    var n := DayNumber(d) + 1;
    AddDaysNumber(d, 7 * every);
    assert DayNumber(Step(d, Week, every)) + 1 == n + 7 * every;
    ModSevenShift(n, every);
  }
}
