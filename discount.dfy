/**
 * The weekday discount: 35 percent off on a Monday that is not a holiday.
 * The holiday list is passed in; it may be empty, unordered or hold duplicates.
 */
module Discount {
  import opened Options
  import opened Calendar

  /** The percentage granted on a discounted day. */
  const MondayReduction := 35

  /** Some entry of `holidays` is the same calendar day as `date`. */
  predicate IsListedHoliday(date: Date, holidays: seq<Date>)
    ensures IsListedHoliday(date, holidays) <==> date in holidays
  {
    exists i :: 0 <= i < |holidays| && SameDay(holidays[i], date)
  }

  /** Scans the holiday list and stops at the first entry with the same year, month and day. */
  method IsHoliday(date: Date, holidays: seq<Date>) returns (found: bool)
    ensures found <==> IsListedHoliday(date, holidays)
  {
    for i := 0 to |holidays|
      invariant forall j :: 0 <= j < i ==> !SameDay(holidays[j], date)
    {
      var row := holidays[i];
      if row.year == date.year && row.month == date.month && row.day == date.day {
        return true;
      }
    }
    return false;
  }

  /** The reduction percentage a day ticket for `date` gets. */
  function Reduction(date: Option<Date>, holidays: seq<Date>): (r: int)
    ensures r == 0 || r == 35
    ensures r == 35 <==> date.Some? && IsMonday(date.value) && date.value !in holidays
  {
    if date.Some? && IsMonday(date.value) && !IsListedHoliday(date.value, holidays)
    then MondayReduction
    else 0
  }

  /** Starts from no reduction and grants 35 only on a present, non-holiday Monday. */
  method CalculateReduction(date: Option<Date>, holidays: seq<Date>)
    returns (reduction: int)
    ensures reduction == Reduction(date, holidays)
    ensures reduction == 0 || reduction == 35
    ensures reduction == 35 <==>
              date.Some? && IsMonday(date.value) && date.value !in holidays
  {
    reduction := 0;
    if date.Some? && IsMonday(date.value) {
      var holiday := IsHoliday(date.value, holidays);
      if !holiday {
        reduction := MondayReduction;
      }
    }
  }

  /** Only the set of holiday days matters: reordering or duplicating entries changes nothing. */
  lemma ReductionDependsOnHolidaySetOnly(date: Option<Date>, h1: seq<Date>, h2: seq<Date>)
    requires forall x :: x in h1 <==> x in h2
    ensures Reduction(date, h1) == Reduction(date, h2)
  {
  }

  /** Adding holidays can only take the discount away, never grant it. */
  lemma MoreHolidaysNoMoreReduction(date: Option<Date>, h: seq<Date>, extra: seq<Date>)
    ensures Reduction(date, h + extra) <= Reduction(date, h)
  {
  }
}
