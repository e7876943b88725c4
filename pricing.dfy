/**
 * The price evaluator: age tiers for night and day tickets, with the weekday
 * reduction applied to every populated day tier except children's.
 * Prices are integers; every fractional multiplier is rounded up.
 */
module Pricing {
  import opened Options
  import opened Calendar
  import opened Discount

  /** `r` is the ceiling of the exact quotient `n / d`: the least integer not below it. */
  predicate IsCeiling(r: int, n: int, d: int)
    requires d > 0
  {
    d * (r - 1) < n <= d * r
  }

  /** Exact integer ceiling of `n / d`; `/` rounds down for a positive divisor, negative `n` included. */
  function CeilDiv(n: int, d: int): (r: int)
    requires d > 0
    ensures IsCeiling(r, n, d)
  {
    (n + d - 1) / d
  }

  /** There is only one ceiling, so `CeilDiv` is the ceiling. */
  lemma CeilingIsUnique(r1: int, r2: int, n: int, d: int)
    requires d > 0 && IsCeiling(r1, n, d) && IsCeiling(r2, n, d)
    ensures r1 == r2
  {
  }

  /** Night tickets: free below 6 or without an age, 40 percent (rounded up) above 64, full price otherwise. */
  function NightTicketCost(age: Option<int>, baseCost: int): (r: int)
    ensures age.None? || age.value < 6 ==> r == 0
    ensures age.Some? && 6 <= age.value <= 64 ==> r == baseCost
    ensures age.Some? && age.value > 64 ==> IsCeiling(r, 4 * baseCost, 10)
    ensures baseCost >= 0 ==> 0 <= r <= baseCost
  {
    if age.None? then 0
    else if age.value < 6 then 0
    else if age.value > 64 then CeilDiv(4 * baseCost, 10)
    else baseCost
  }

  /**
   * Day tickets: the reduction is looked up once; the child tier (6 to 14) is a
   * flat 70 percent that ignores it, every other populated tier applies it.
   */
  function DayTicketCost(age: Option<int>, date: Option<Date>, baseCost: int, holidays: seq<Date>): (r: int)
    ensures age.Some? && age.value < 6 ==> r == 0
    ensures age.Some? && 6 <= age.value < 15 ==> IsCeiling(r, 7 * baseCost, 10)
    ensures age.None? || 15 <= age.value <= 64 ==>
              IsCeiling(r, baseCost * (100 - Reduction(date, holidays)), 100)
    ensures age.Some? && age.value > 64 ==>
              IsCeiling(r, 75 * baseCost * (100 - Reduction(date, holidays)), 10000)
    ensures baseCost >= 0 ==> 0 <= r <= baseCost
  {
    var reduction := Reduction(date, holidays);
    if age.None? then CeilDiv(baseCost * (100 - reduction), 100)
    else if age.value < 6 then 0
    else if age.value < 15 then CeilDiv(7 * baseCost, 10)
    else if age.value > 64 then CeilDiv(75 * baseCost * (100 - reduction), 10000)
    else CeilDiv(baseCost * (100 - reduction), 100)
  }

  /** The category dispatch: the string "night" selects the night rule, every other string the day rule. */
  function Cost(age: Option<int>, ticketType: string, date: Option<Date>, baseCost: int, holidays: seq<Date>): (r: int)
    ensures ticketType == "night" ==> r == NightTicketCost(age, baseCost)
    ensures ticketType != "night" ==> r == DayTicketCost(age, date, baseCost, holidays)
    ensures baseCost >= 0 ==> 0 <= r <= baseCost
  {
    if ticketType == "night" then NightTicketCost(age, baseCost)
    else DayTicketCost(age, date, baseCost, holidays)
  }

  /** The night path never consults the date or the holiday list. */
  lemma NightIgnoresDate(age: Option<int>, baseCost: int,
                         d1: Option<Date>, h1: seq<Date>,
                         d2: Option<Date>, h2: seq<Date>)
    ensures Cost(age, "night", d1, baseCost, h1) == Cost(age, "night", d2, baseCost, h2)
  {
  }

  /** A child's day ticket costs the same on every date, whatever the holiday list. */
  lemma ChildDayIgnoresDiscount(age: int, ticketType: string, baseCost: int,
                                d1: Option<Date>, h1: seq<Date>,
                                d2: Option<Date>, h2: seq<Date>)
    requires 6 <= age < 15 && ticketType != "night"
    ensures Cost(Some(age), ticketType, d1, baseCost, h1) == Cost(Some(age), ticketType, d2, baseCost, h2)
  {
  }

  /** For a non-negative base cost, a date never makes a day ticket dearer than having no date. */
  lemma DateNeverRaisesDayPrice(age: Option<int>, date: Option<Date>, baseCost: int, holidays: seq<Date>)
    requires baseCost >= 0
    ensures DayTicketCost(age, date, baseCost, holidays) <= DayTicketCost(age, None, baseCost, holidays)
  {
  }

  /** Worked prices for a base cost of 100; 2019-02-18 is a Monday. */
  lemma ExamplePrices()
    ensures Cost(Some(5), "night", None, 100, []) == 0
    ensures Cost(Some(70), "night", None, 100, []) == 40
    ensures Cost(Some(30), "night", None, 100, []) == 100
    ensures Cost(Some(70), "day", Some(CalendarDate(2019, 2, 18)), 100, []) == 49
    ensures Cost(Some(10), "day", Some(CalendarDate(2019, 2, 18)), 100, []) == 70
    ensures Cost(None, "day", Some(CalendarDate(2019, 2, 18)), 100, [CalendarDate(2019, 2, 18)]) == 100
    ensures Cost(None, "day", Some(CalendarDate(2019, 2, 18)), 100, []) == 65
  {
  }
}
