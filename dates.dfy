/**
 * Calendar days as day numbers. Day 0 is 1 January of year 1 (the first day a
 * .NET DateTime can hold); the time of day is not modelled. Years follow the
 * proleptic Gregorian calendar, as DateTime does.
 */
module Dates {

  type Day = nat

  type Year = y: int | 1 <= y witness 1

  predicate IsLeapYear(y: Year) {
    y % 4 == 0 && (y % 100 != 0 || y % 400 == 0)
  }

  function DaysInYear(y: Year): nat {
    if IsLeapYear(y) then 366 else 365
  }

  /** The day number of 1 January of year y. */
  function YearStart(y: Year): Day
    decreases y
  {
    if y == 1 then 0 else YearStart(y - 1) + DaysInYear(y - 1)
  }

  /** The day number of 31 December of year y. */
  function YearEnd(y: Year): Day {
    YearStart(y) + DaysInYear(y) - 1
  }

  /** The year a day falls in (DateTime.Year). */
  function YearOf(d: Day): (y: Year)
    ensures YearStart(y) <= d <= YearEnd(y)
  {
    FindYear(d, 1)
  }

  function FindYear(d: Day, y: Year): (r: Year)
    requires YearStart(y) <= d
    ensures y <= r
    ensures YearStart(r) <= d <= YearEnd(r)
    decreases d - YearStart(y)
  {
    if d <= YearEnd(y) then y else FindYear(d, y + 1)
  }

  /** Later years start later: the years partition the days. */
  lemma {:induction false} YearStartMonotone(y: Year, z: Year)
    requires y < z
    ensures YearEnd(y) < YearStart(z)
    decreases z - y
  {
    if z > y + 1 {
      YearStartMonotone(y, z - 1);
    }
  }

  /** A day belongs to exactly one year. */
  lemma YearOfUnique(d: Day, y: Year)
    requires YearStart(y) <= d <= YearEnd(y)
    ensures YearOf(d) == y
  {
    var r := YearOf(d);
    if r < y {
      YearStartMonotone(r, y);
    } else if y < r {
      YearStartMonotone(y, r);
    }
  }
}
