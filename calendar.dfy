/**
 * Canonical calendar dates: a year, a month and a day with no time of day
 * and no time zone. Weekdays are computed by counting days from the civil
 * epoch 1970-01-01 (a Thursday), with ISO numbering Monday = 1 … Sunday = 7.
 */
module Calendar {

  datatype CalendarDate = CalendarDate(year: int, month: int, day: int)

  predicate IsLeapYear(y: int) {
    y % 4 == 0 && (y % 100 != 0 || y % 400 == 0)
  }

  function DaysInMonth(y: int, m: int): (n: int)
    requires 1 <= m <= 12
    ensures 28 <= n <= 31
    ensures n == 29 <==> m == 2 && IsLeapYear(y)
  {
    if m == 2 then (if IsLeapYear(y) then 29 else 28)
    else if m == 4 || m == 6 || m == 9 || m == 11 then 30
    else 31
  }

  /** A day that exists in the proleptic Gregorian calendar. */
  predicate ValidDate(d: CalendarDate) {
    1 <= d.month <= 12 && 1 <= d.day <= DaysInMonth(d.year, d.month)
  }

  /** The dates the pricing rules receive: always real calendar days. */
  type Date = d: CalendarDate | ValidDate(d) witness CalendarDate(1970, 1, 1)

  /** Calendar-day identity: equal year, month and day. */
  predicate SameDay(a: CalendarDate, b: CalendarDate)
    ensures SameDay(a, b) <==> a == b
  {
    a.year == b.year && a.month == b.month && a.day == b.day
  }

  /**
   * Days before March 1 of the year `y` counted in a calendar whose years
   * start in March (so that February, with its leap day, comes last).
   * Division by a positive constant rounds down, for negative years too.
   */
  function DaysBeforeMarchYear(y: int): int {
    365 * y + y / 4 - y / 100 + y / 400
  }

  /** The day number of `d`, where 1970-01-01 is day 0. */
  function DaysFromCivil(d: CalendarDate): int {
    var y := if d.month <= 2 then d.year - 1 else d.year;
    var mp := if d.month > 2 then d.month - 3 else d.month + 9;
    DaysBeforeMarchYear(y) + (153 * mp + 2) / 5 + d.day - 1 - 719468
  }

  /** ISO day of the week: Monday = 1, …, Sunday = 7. */
  function DayOfWeek(d: CalendarDate): (w: int)
    ensures 1 <= w <= 7
  {
    (DaysFromCivil(d) + 3) % 7 + 1
  }

  /** The ISO weekday of `d` is Monday. */
  predicate IsMonday(d: CalendarDate) {
    DayOfWeek(d) == 1
  }

  /** The calendar day that follows `d`. */
  function NextDay(d: CalendarDate): CalendarDate
    requires ValidDate(d)
  {
    if d.day < DaysInMonth(d.year, d.month) then CalendarDate(d.year, d.month, d.day + 1)
    else if d.month < 12 then CalendarDate(d.year, d.month + 1, 1)
    else CalendarDate(d.year + 1, 1, 1)
  }

  /** A March-based year has one more day than 365 exactly when the February closing it is a leap February. */
  lemma MarchYearLength(y: int)
    ensures DaysBeforeMarchYear(y + 1) - DaysBeforeMarchYear(y)
            == if IsLeapYear(y + 1) then 366 else 365
  {
    assert (y + 1) / 4 - y / 4 == if (y + 1) % 4 == 0 then 1 else 0;
    assert (y + 1) / 100 - y / 100 == if (y + 1) % 100 == 0 then 1 else 0;
    assert (y + 1) / 400 - y / 400 == if (y + 1) % 400 == 0 then 1 else 0;
  }

  /** The day count is consecutive: the next calendar day is the next day number. */
  lemma NextDayIsNextDayNumber(d: CalendarDate)
    requires ValidDate(d)
    ensures ValidDate(NextDay(d))
    ensures DaysFromCivil(NextDay(d)) == DaysFromCivil(d) + 1
  {
    if d.month == 2 && d.day == DaysInMonth(d.year, 2) {
      MarchYearLength(d.year - 1);
    }
  }

  /** Weekdays cycle: the day after a Sunday (7) is a Monday (1). */
  lemma NextDayOfWeek(d: CalendarDate)
    requires ValidDate(d)
    ensures DayOfWeek(NextDay(d)) == DayOfWeek(d) % 7 + 1
  {
    NextDayIsNextDayNumber(d);
    WeekdayStep(DaysFromCivil(d));
  }

  /** Moving one day number forward moves the weekday forward by one, modulo 7. */
  lemma WeekdayStep(n: int)
    ensures (n + 1 + 3) % 7 + 1 == ((n + 3) % 7 + 1) % 7 + 1
  {
  }

  /** A valid date is followed by a Monday exactly when it is a Sunday. */
  lemma MondayFollowsSunday(d: Date)
    ensures IsMonday(NextDay(d)) <==> DayOfWeek(d) == 7
  {
    NextDayOfWeek(d);
  }

  /** 2019-02-18 is a Monday; the next day is not. */
  lemma KnownMonday()
    ensures IsMonday(CalendarDate(2019, 2, 18))
    ensures !IsMonday(CalendarDate(2019, 2, 19))
  {
  }

  /** The epoch anchors the weekday numbering: 1970-01-01 is a Thursday. */
  lemma EpochIsThursday()
    ensures DaysFromCivil(CalendarDate(1970, 1, 1)) == 0
    ensures DayOfWeek(CalendarDate(1970, 1, 1)) == 4
  {
  }
}
