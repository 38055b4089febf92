/**
  Calendar dates as `datetime.date` represents them, and `date.weekday()`
  computed the way Python does: from the proleptic Gregorian ordinal
  (0001-01-01 is day 1, a Monday).
*/
module Calendar {

  datatype Date = Date(year: int, month: int, day: int)

  predicate IsLeapYear(y: int) {
    y % 4 == 0 && (y % 100 != 0 || y % 400 == 0)
  }

  function DaysInMonth(y: int, m: int): int
    requires 1 <= m <= 12
  {
    if m == 2 then (if IsLeapYear(y) then 29 else 28)
    else if m == 4 || m == 6 || m == 9 || m == 11 then 30
    else 31
  }

  /** `datetime.date` accepts years 1..9999 (MINYEAR..MAXYEAR). */
  predicate ValidDate(d: Date) {
    1 <= d.year <= 9999 && 1 <= d.month <= 12 && 1 <= d.day <= DaysInMonth(d.year, d.month)
  }

  type CalendarDate = d: Date | ValidDate(d) witness Date(1, 1, 1)

  /** Days in the years before `y`. */
  function DaysBeforeYear(y: int): int
    requires y >= 1
  {
    var p := y - 1;
    p * 365 + p / 4 - p / 100 + p / 400
  }

  /** Days in the months of year `y` before month `m`. */
  function DaysBeforeMonth(y: int, m: int): int
    requires 1 <= m <= 12
  {
    [0, 31, 59, 90, 120, 151, 181, 212, 243, 273, 304, 334][m - 1]
      + (if m > 2 && IsLeapYear(y) then 1 else 0)
  }

  /** `date.toordinal()`: the ordinals of a year's dates follow those of all earlier years. */
  function Ordinal(d: CalendarDate): (n: int)
    ensures n >= 1
    ensures DaysBeforeYear(d.year) < n <= DaysBeforeYear(d.year) + (if IsLeapYear(d.year) then 366 else 365)
  {
    DaysBeforeYear(d.year) + DaysBeforeMonth(d.year, d.month) + d.day
  }

  /** `date.weekday()`: 0 is Monday, 6 is Sunday. */
  function Weekday(d: CalendarDate): (w: int)
    ensures 0 <= w < 7
  {
    (Ordinal(d) + 6) % 7
  }

  /** `calendar.day_abbr` in the default C locale, Monday first. */
  const DayAbbr: seq<string> := ["Mon", "Tue", "Wed", "Thu", "Fri", "Sat", "Sun"]

  /** The day after `d`; 9999-12-31 has none. */
  function NextDay(d: CalendarDate): CalendarDate
    requires d != Date(9999, 12, 31)
  {
    if d.day < DaysInMonth(d.year, d.month) then Date(d.year, d.month, d.day + 1)
    else if d.month < 12 then Date(d.year, d.month + 1, 1)
    else Date(d.year + 1, 1, 1)
  }

  lemma DaysBeforeMonthStep(y: int, m: int)
    requires 1 <= m < 12
    ensures DaysBeforeMonth(y, m + 1) == DaysBeforeMonth(y, m) + DaysInMonth(y, m)
  {
  }

  lemma DaysBeforeYearStep(y: int)
    requires y >= 1
    ensures DaysBeforeYear(y + 1) == DaysBeforeYear(y) + DaysBeforeMonth(y, 12) + 31
  {
    var p := y - 1;
    LeapCountStep(y);
    assert DaysBeforeYear(y + 1) == DaysBeforeYear(y) + 365 + (y / 4 - y / 100 + y / 400) - (p / 4 - p / 100 + p / 400);
    assert DaysBeforeMonth(y, 12) == 334 + (if IsLeapYear(y) then 1 else 0);
  }

  /** Among the years up to `y` there is one more leap year than up to `y - 1` exactly when `y` is one. */
  lemma LeapCountStep(y: int)
    ensures (y / 4 - y / 100 + y / 400) - ((y - 1) / 4 - (y - 1) / 100 + (y - 1) / 400)
      == (if IsLeapYear(y) then 1 else 0)
  {
    var p := y - 1;
    QuotientStep(p, 4);
    QuotientStep(p, 100);
    QuotientStep(p, 400);
    if y % 400 == 0 {
      assert y % 100 == 0 && y % 4 == 0;
    } else if y % 100 == 0 {
      assert y % 4 == 0;
    }
  }

  /** Counting one more number adds one multiple of `k` exactly when it is one. */
  lemma QuotientStep(p: int, k: int)
    requires k == 4 || k == 100 || k == 400
    ensures (p + 1) / k == p / k + (if (p + 1) % k == 0 then 1 else 0)
  {
    if k == 4 {
      assert (p + 1) / 4 == p / 4 + (if (p + 1) % 4 == 0 then 1 else 0);
    } else if k == 100 {
      assert (p + 1) / 100 == p / 100 + (if (p + 1) % 100 == 0 then 1 else 0);
    } else {
      assert (p + 1) / 400 == p / 400 + (if (p + 1) % 400 == 0 then 1 else 0);
    }
  }

  /** Ordinals count days: the next day has the next ordinal. */
  lemma OrdinalOfNextDay(d: CalendarDate)
    requires d != Date(9999, 12, 31)
    ensures Ordinal(NextDay(d)) == Ordinal(d) + 1
  {
    if d.day < DaysInMonth(d.year, d.month) {
    } else if d.month < 12 {
      DaysBeforeMonthStep(d.year, d.month);
    } else {
      DaysBeforeYearStep(d.year);
    }
  }

  /** Consecutive days have consecutive weekdays, Sunday followed by Monday. */
  lemma WeekdayOfNextDay(d: CalendarDate)
    requires d != Date(9999, 12, 31)
    ensures Weekday(NextDay(d)) == (Weekday(d) + 1) % 7
  {
    OrdinalOfNextDay(d);
    SuccessorMod7(Ordinal(d) + 6);
  }

  lemma SuccessorMod7(k: int)
    ensures (k + 1) % 7 == (k % 7 + 1) % 7
  {
  }

  /** The dates of the sample data: 2013-09-10 is a Tuesday. */
  lemma SampleWeekdays()
    ensures Weekday(Date(2013, 9, 10)) == 1
    ensures Weekday(Date(2013, 9, 11)) == 2
    ensures Weekday(Date(2013, 9, 12)) == 3
    ensures Weekday(Date(1, 1, 1)) == 0
  {
  }
}
