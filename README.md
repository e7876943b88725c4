# Ticket pricing rules

A Dafny model of the price evaluator of an admission ticket service
(`createApp` in `src/prices_typed.ts`). For a purchaser's optional age, a
ticket type string, an optional calendar date, a base cost and the list of
holidays, it computes an integer price:

- the type `"night"` is priced by the night tiers; every other string by the
  day tiers;
- night: free without an age or below 6, 40 % (rounded up) above 64, full
  price otherwise; the date is never consulted;
- day: a reduction of 35 % applies on a Monday that is no holiday, 0 %
  otherwise; free below 6, a flat 70 % (rounded up) from 6 to 14, ignoring
  the reduction; above 64, 75 % of the reduced price; otherwise, and without
  an age, the reduced price; every fractional result is rounded up.

Modules: `Options` (the optional value), `Calendar` (canonical dates,
weekday by day count from 1970-01-01, calendar-day equality; the dates the
rules receive have the subset type `Date` of real Gregorian days), `Discount`
(the holiday scan and the reduction, as the loop and the mutable local of the
source, each proved against a specification function) and `Pricing` (the tier
functions and the category dispatch). `Math.ceil(b * k)` is written as an
exact integer ceiling, `CeilDiv`, characterised by `IsCeiling`.

The ticket type is a plain string, as in the source: an unknown type is priced
as a day ticket rather than rejected.

## Model

| member | source | states |
|---|---|---|
| `Calendar.SameDay` | src/prices_typed.ts:92-99 | two dates match when year, month and day are all equal, which is exactly equality of canonical dates |
| `Calendar.DayOfWeek` | src/prices_typed.ts:80-83 | the weekday of a date is a number from 1 (Monday) to 7 (Sunday) |
| `Calendar.MondayFollowsSunday` | src/prices_typed.ts:80-83 | the day after a valid date is a Monday exactly when that date is a Sunday; with `KnownMonday` this fixes `IsMonday` on every valid date |
| `Calendar.KnownMonday` | src/prices_typed.ts:80-83 | 2019-02-18 is a Monday and 2019-02-19 is not |
| `Calendar.NextDayIsNextDayNumber` | src/prices_typed.ts:80-83 | the day after a valid date is a valid date whose day number is one more, across month ends, year ends and leap days |
| `Calendar.NextDayOfWeek` | src/prices_typed.ts:80-83 | the weekday advances by one each day and wraps from Sunday (7) to Monday (1) |
| `Calendar.EpochIsThursday` | src/prices_typed.ts:81-82 | 1970-01-01 is day 0 and a Thursday (4), which anchors the weekday numbering |
| `Discount.IsListedHoliday` | src/prices_typed.ts:85-105 | a date is a holiday exactly when it occurs in the holiday list |
| `Discount.IsHoliday` | src/prices_typed.ts:85-105 | the scan with early return answers true exactly when some entry has the same year, month and day |
| `Discount.CalculateReduction` | src/prices_typed.ts:72-78 | the reduction is 0 or 35, and 35 exactly when a date is present, is a Monday and is not in the holiday list |
| `Discount.Reduction` | src/prices_typed.ts:72-78 | the reduction the day tiers use is 0 or 35, and 35 exactly when a date is present, is a Monday and is not in the holiday list |
| `Discount.ReductionDependsOnHolidaySetOnly` | src/prices_typed.ts:86-104 | two holiday lists with the same entries, in any order and with any duplicates, give the same reduction |
| `Discount.MoreHolidaysNoMoreReduction` | src/prices_typed.ts:74 | appending holidays can only suppress the reduction, never grant it |
| `Pricing.CeilDiv` | src/prices_typed.ts:64 | the result is the least integer not below the exact quotient, for negative numerators too |
| `Pricing.CeilingIsUnique` | src/prices_typed.ts:50 | at most one integer is the ceiling of a quotient |
| `Pricing.NightTicketCost` | src/prices_typed.ts:42-53 | 0 without an age or below 6; the ceiling of 0.4 times the base cost above 64; the base cost from 6 to 64; between 0 and the base cost when the base cost is non-negative |
| `Pricing.DayTicketCost` | src/prices_typed.ts:55-70 | 0 below 6; the ceiling of 0.7 times the base cost from 6 to 14 whatever the reduction; the ceiling of the base cost less the reduction without an age or from 15 to 64; the ceiling of 0.75 times that above 64; between 0 and the base cost when the base cost is non-negative |
| `Pricing.Cost` | src/prices_typed.ts:34-40 | "night" is priced by the night tiers and every other type string by the day tiers; the price lies between 0 and a non-negative base cost |
| `Pricing.NightIgnoresDate` | src/prices_typed.ts:35-36 | a night ticket's price does not depend on the date or the holiday list |
| `Pricing.ChildDayIgnoresDiscount` | src/prices_typed.ts:55-65 | a day ticket for ages 6 to 14 costs the same on every date and for every holiday list |
| `Pricing.DateNeverRaisesDayPrice` | src/prices_typed.ts:55-70 | with a non-negative base cost, giving a date never makes a day ticket dearer than giving none |
| `Pricing.ExamplePrices` | src/prices_typed.ts:34-70 | worked prices for base cost 100: night ages 5, 70, 30 give 0, 40, 100; on Monday 2019-02-18 a day ticket costs 49 at age 70, 70 at age 10, 65 without an age, and 100 without an age when that day is a holiday |

## Left out

- The HTTP routes (`PUT /prices`, `GET /prices`) and the query-string parsing with `parseInt`: transport, not pricing. A non-numeric age (`NaN`) is therefore not modelled; ages are integers.
- The price database (`setBasePrice`, `findBasePriceByType`, `getHolidays`): external storage. The base cost and the holiday list are parameters.
- `parseDate` and the `Temporal` / `Date` library calls: the date arrives already resolved as an optional canonical date; an empty or absent date string is `None`. The holiday rows are likewise taken as valid dates, so the model does not capture the exception `Temporal.PlainDate.from(row.holiday)` (src/prices_typed.ts:90) raises on a malformed row, which can happen only on a Monday and only when no earlier row matched.
- Time zones: the source reads the weekday in local time (`getDay`) but the holiday's day in UTC (`toISOString`); the model uses one canonical calendar date for both. `parseDate` (src/prices_typed.ts:30) builds a `Date` at UTC midnight, so on a server west of UTC the program's `isMonday` holds for Tuesday dates and the holiday test then checks that Tuesday; the model's Monday rule matches the program only at UTC or east of it.
- The `Temporal.PlainDate` branch of `isHoliday`: as written it never matches, because the comparison requires a legacy `Date`; `createApp` only ever passes a `Date`, so the model follows that path.
- Floating point: `Math.ceil(baseCost * k)` is modelled with exact rational arithmetic, an idealisation of IEEE-754 multiplication.
- The `"night"`/day split is kept as in the code: any other type string is priced as a day ticket and no type is rejected.
