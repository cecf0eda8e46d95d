/**
 * Calendar dates and `TokenGenerator._num_days`: the number of whole days
 * from 2001-01-01 to a date, as Python's `date` subtraction computes it
 * (proleptic Gregorian calendar, years 1 to 9999).
 */
module Dates {

  datatype Ymd = Ymd(year: int, month: int, day: int)

  predicate IsLeapYear(y: int) {
    y % 4 == 0 && (y % 100 != 0 || y % 400 == 0)
  }

  function DaysInMonth(y: int, m: int): int
    requires 1 <= m <= 12
  {
    if m == 2 then (if IsLeapYear(y) then 29 else 28)
    else if m == 4 || m == 6 || m == 9 || m == 11 then 30
    else 31
  }

  predicate IsValidDate(d: Ymd) {
    && 1 <= d.year <= 9999
    && 1 <= d.month <= 12
    && 1 <= d.day <= DaysInMonth(d.year, d.month)
  }

  /** A Python `datetime.date`: always a real calendar day. */
  type Date = d: Ymd | IsValidDate(d) witness Ymd(2001, 1, 1)

  /** The token epoch, `date(2001, 1, 1)`. */
  const Epoch: Date := Ymd(2001, 1, 1)

  /** `date.max`. */
  const LastDate: Date := Ymd(9999, 12, 31)

  /** Days in the years before `y`. */
  function DaysBeforeYear(y: int): int {
    var p := y - 1;
    p * 365 + p / 4 - p / 100 + p / 400
  }

  /** Days in the months of year `y` before month `m`. */
  function DaysBeforeMonth(y: int, m: int): int
    requires 1 <= m <= 12
  {
    var leap := if m > 2 && IsLeapYear(y) then 1 else 0;
    leap + (
      if m == 1 then 0 else if m == 2 then 31 else if m == 3 then 59
      else if m == 4 then 90 else if m == 5 then 120 else if m == 6 then 151
      else if m == 7 then 181 else if m == 8 then 212 else if m == 9 then 243
      else if m == 10 then 273 else if m == 11 then 304 else 334)
  }

  /** Day number with 0001-01-01 as day 1 (Python's `date.toordinal`). */
  function Ordinal(d: Date): int {
    DaysBeforeYear(d.year) + DaysBeforeMonth(d.year, d.month) + d.day
  }

  /** `_num_days(d)`: `(d - date(2001, 1, 1)).days`; negative before the epoch. */
  function NumDays(d: Date): int {
    Ordinal(d) - Ordinal(Epoch)
  }

  /** No date is more than about 8000 years after the epoch: `_num_days` stays below 3,000,000. */
  lemma DayCountBound(d: Date)
    ensures NumDays(d) < 3_000_000
  {
    var p := d.year - 1;
    assert 0 <= p <= 9998;
    assert p / 4 <= p / 100 + 2500 && p / 400 <= 25;
  }

  /** The calendar day after `d`. */
  function NextDay(d: Date): Date
    requires d != LastDate
  {
    if d.day < DaysInMonth(d.year, d.month) then Ymd(d.year, d.month, d.day + 1)
    else if d.month < 12 then Ymd(d.year, d.month + 1, 1)
    else Ymd(d.year + 1, 1, 1)
  }

  lemma MonthLengths(y: int, m: int)
    requires 1 <= m < 12
    ensures DaysBeforeMonth(y, m + 1) == DaysBeforeMonth(y, m) + DaysInMonth(y, m)
  {
  }

  lemma YearLength(y: int)
    ensures DaysBeforeYear(y + 1) == DaysBeforeYear(y) + DaysBeforeMonth(y, 12) + 31
  {
    var p := y - 1;
    assert (p + 1) / 4 == p / 4 + (if y % 4 == 0 then 1 else 0);
    assert (p + 1) / 100 == p / 100 + (if y % 100 == 0 then 1 else 0);
    assert (p + 1) / 400 == p / 400 + (if y % 400 == 0 then 1 else 0);
  }

  /** Each calendar step adds exactly one to `_num_days`. */
  lemma NextDayIsOneLater(d: Date)
    requires d != LastDate
    ensures NumDays(NextDay(d)) == NumDays(d) + 1
  {
    if d.day < DaysInMonth(d.year, d.month) {
    } else if d.month < 12 {
      MonthLengths(d.year, d.month);
    } else {
      YearLength(d.year);
    }
  }

  /** The date `n` calendar steps after `d`. */
  function AddDays(d: Date, n: nat): Date
    requires Ordinal(d) + n <= Ordinal(LastDate)
    decreases n
  {
    if n == 0 then d
    else
      NextDayIsOneLater(d);
      AddDays(NextDay(d), n - 1)
  }

  /** `_num_days` counts calendar steps: `n` steps after `d` is `n` days later. */
  lemma {:induction false} AddDaysCounts(d: Date, n: nat)
    requires Ordinal(d) + n <= Ordinal(LastDate)
    ensures NumDays(AddDays(d, n)) == NumDays(d) + n
    decreases n
  {
    if n > 0 {
      NextDayIsOneLater(d);
      AddDaysCounts(NextDay(d), n - 1);
    }
  }

  /** The epoch itself is day 0, so `_num_days` is the step count from 2001-01-01. */
  lemma DaysSinceEpoch(n: nat)
    requires n <= NumDays(LastDate)
    ensures NumDays(AddDays(Epoch, n)) == n
  {
    AddDaysCounts(Epoch, n);
  }
}
