/** Dates as section 21.4.1 of ECMA-262 defines them, over days counted from 1970-01-01. */
module Calendar {

  predicate Leap(y: int) {
    y % 4 == 0 && (y % 100 != 0 || y % 400 == 0)
  }

  function DaysInYear(y: int): int {
    if Leap(y) then 366 else 365
  }

  function DayFromYear(y: int): int {
    365 * (y - 1970) + (y - 1969) / 4 - (y - 1901) / 100 + (y - 1601) / 400
  }

  lemma FourthStep(y: int)
    ensures (y - 1968) / 4 == (y - 1969) / 4 + (if y % 4 == 0 then 1 else 0)
  {
  }

  lemma CenturyStep(y: int)
    ensures (y - 1900) / 100 == (y - 1901) / 100 + (if y % 100 == 0 then 1 else 0)
  {
  }

  lemma FourthCenturyStep(y: int)
    ensures (y - 1600) / 400 == (y - 1601) / 400 + (if y % 400 == 0 then 1 else 0)
  {
  }

  lemma LeapCases(y: int)
    ensures y % 400 == 0 ==> y % 100 == 0
    ensures y % 100 == 0 ==> y % 4 == 0
  {
  }

  lemma YearLength(y: int)
    ensures DayFromYear(y + 1) == DayFromYear(y) + DaysInYear(y)
  {
    FourthStep(y);
    CenturyStep(y);
    FourthCenturyStep(y);
    LeapCases(y);
  }

  lemma {:induction false} YearsIncrease(y: int, y': int)
    requires y <= y'
    ensures DayFromYear(y') - DayFromYear(y) >= 365 * (y' - y)
    decreases y' - y
  {
    if y < y' {
      YearsIncrease(y, y' - 1);
      YearLength(y' - 1);
    }
  }

  /** The year of day `d`, searched upwards from a year that does not begin after it. */
  function FindYear(d: int, y: int): (r: int)
    requires DayFromYear(y) <= d
    ensures DayFromYear(r) <= d < DayFromYear(r + 1)
    decreases d - DayFromYear(y)
  {
    YearLength(y);
    if d < DayFromYear(y + 1) then y else FindYear(d, y + 1)
  }

  /** YearFromTime: the year whose days include `d`. */
  function YearOfDay(d: int): int {
    var base := if d >= 0 then 1970 else 1970 + d;
    assert DayFromYear(base) <= d by {
      assert DayFromYear(1970) == 0;
      if d < 0 { YearsIncrease(base, 1970); }
    }
    FindYear(d, base)
  }

  lemma YearOfDayHolds(d: int)
    ensures DayFromYear(YearOfDay(d)) <= d < DayFromYear(YearOfDay(d) + 1)
  {
  }

  lemma YearIsUnique(d: int, y: int)
    requires DayFromYear(y) <= d < DayFromYear(y + 1)
    ensures YearOfDay(d) == y
  {
    hide *;
    YearOfDayHolds(d);
    var r := YearOfDay(d);
    if r < y {
      YearsIncrease(r + 1, y);
    } else if y < r {
      YearsIncrease(y + 1, r);
    }
  }

  /** The day of the year on which month `m` (0 = January) begins; month 12 is the next January. */
  function MonthStart(m: int, leap: bool): int
    requires 0 <= m <= 12
  {
    var shift := if leap then 1 else 0;
    match m
    case 0 => 0
    case 1 => 31
    case 2 => 59 + shift
    case 3 => 90 + shift
    case 4 => 120 + shift
    case 5 => 151 + shift
    case 6 => 181 + shift
    case 7 => 212 + shift
    case 8 => 243 + shift
    case 9 => 273 + shift
    case 10 => 304 + shift
    case 11 => 334 + shift
    case 12 => 365 + shift
  }

  function DaysInMonth(m: int, leap: bool): int
    requires 0 <= m < 12
  {
    MonthStart(m + 1, leap) - MonthStart(m, leap)
  }

  lemma MonthLength(m: int, leap: bool)
    requires 0 <= m < 12
    ensures 28 <= DaysInMonth(m, leap) <= 31
  {
  }

  lemma {:induction false} MonthsIncrease(m: int, m': int, leap: bool)
    requires 0 <= m <= m' <= 12
    ensures MonthStart(m', leap) - MonthStart(m, leap) >= 28 * (m' - m)
    decreases m' - m
  {
    if m < m' {
      MonthsIncrease(m, m' - 1, leap);
      MonthLength(m' - 1, leap);
    }
  }

  /** MonthFromTime on the `n`-th day of a year. */
  function MonthInYear(n: int, leap: bool): (m: int)
    requires 0 <= n < MonthStart(12, leap)
    ensures 0 <= m < 12 && MonthStart(m, leap) <= n < MonthStart(m + 1, leap)
  {
    FindMonth(n, leap, 0)
  }

  function FindMonth(n: int, leap: bool, m: int): (r: int)
    requires 0 <= m < 12 && MonthStart(m, leap) <= n < MonthStart(12, leap)
    ensures m <= r < 12 && MonthStart(r, leap) <= n < MonthStart(r + 1, leap)
    decreases 12 - m
  {
    if n < MonthStart(m + 1, leap) then m else FindMonth(n, leap, m + 1)
  }

  lemma MonthInYearIsUnique(n: int, leap: bool, m: int)
    requires 0 <= m < 12 && 0 <= MonthStart(m, leap) <= n < MonthStart(m + 1, leap)
    requires n < MonthStart(12, leap)
    ensures MonthInYear(n, leap) == m
  {
    var r := MonthInYear(n, leap);
    if r < m {
      MonthsIncrease(r + 1, m, leap);
    } else if m < r {
      MonthsIncrease(m + 1, r, leap);
    }
  }

  function DayInYear(d: int): (n: int)
    ensures 0 <= n < MonthStart(12, Leap(YearOfDay(d)))
  {
    YearLength(YearOfDay(d));
    YearOfDayHolds(d);
    d - DayFromYear(YearOfDay(d))
  }

  function MonthOfDay(d: int): (m: int)
    ensures 0 <= m < 12
  {
    MonthInYear(DayInYear(d), Leap(YearOfDay(d)))
  }

  /** DateFromTime. */
  function DateOfDay(d: int): (date: int)
    ensures 1 <= date <= DaysInMonth(MonthOfDay(d), Leap(YearOfDay(d)))
  {
    DayInYear(d) - MonthStart(MonthOfDay(d), Leap(YearOfDay(d))) + 1
  }

  /** The first day of month `m` of year `y`; month 12 is the next January. */
  function StartOfMonth(y: int, m: int): int
    requires 0 <= m <= 12
  {
    DayFromYear(y) + MonthStart(m, Leap(y))
  }

  /** MakeDay of section 21.4.1: months and dates out of range carry over. */
  function MakeDay(year: int, month: int, date: int): int {
    StartOfMonth(year + month / 12, month % 12) + date - 1
  }

  // ---- the two conversions are inverse ----

  /** The days of one month have that month and count its dates from one. */
  lemma DaysOfMonth(d: int, y: int, m: int)
    requires 0 <= m < 12 && StartOfMonth(y, m) <= d < StartOfMonth(y, m + 1)
    ensures YearOfDay(d) == y && MonthOfDay(d) == m && DateOfDay(d) == d - StartOfMonth(y, m) + 1
  {
    MonthsIncrease(0, m, Leap(y));
    MonthsIncrease(m + 1, 12, Leap(y));
    YearLength(y);
    YearIsUnique(d, y);
    MonthInYearIsUnique(d - DayFromYear(y), Leap(y), m);
  }

  lemma MonthOfDayHolds(d: int)
    ensures StartOfMonth(YearOfDay(d), MonthOfDay(d)) <= d
    ensures d < StartOfMonth(YearOfDay(d), MonthOfDay(d) + 1)
    ensures d == StartOfMonth(YearOfDay(d), MonthOfDay(d)) + DateOfDay(d) - 1
  {
  }

  lemma MakeDayInYear(y: int, m: int, date: int)
    requires 0 <= m < 12
    ensures MakeDay(y, m, date) == StartOfMonth(y, m) + date - 1
  {
  }

  /** The civil date of a day leads back to that day. */
  lemma DayToCivilAndBack(d: int)
    ensures MakeDay(YearOfDay(d), MonthOfDay(d), DateOfDay(d)) == d
  {
    MonthOfDayHolds(d);
    var y, m, date := YearOfDay(d), MonthOfDay(d), DateOfDay(d);
    MakeDayInYear(y, m, date);
  }

  lemma MonthEnd(y: int, m: int)
    requires 0 <= m < 12
    ensures StartOfMonth(y, m + 1) == StartOfMonth(y, m) + DaysInMonth(m, Leap(y))
  {
  }

  /** The day of a civil date has that date. */
  lemma CivilToDayAndBack(y: int, m: int, date: int)
    requires 0 <= m < 12 && 1 <= date <= DaysInMonth(m, Leap(y))
    ensures var d := MakeDay(y, m, date);
            YearOfDay(d) == y && MonthOfDay(d) == m && DateOfDay(d) == date
  {
    hide *;
    MakeDayInYear(y, m, date);
    MonthEnd(y, m);
    DaysOfMonth(StartOfMonth(y, m) + date - 1, y, m);
  }

  /** The days begin with 1 January 1970. */
  lemma EpochIsDayZero()
    ensures DayFromYear(1970) == 0
  {
  }

  /** Years are as long as the Gregorian calendar says. */
  lemma YearsAreGregorian(y: int)
    ensures DayFromYear(y + 1) - DayFromYear(y)
         == if y % 400 == 0 || (y % 4 == 0 && y % 100 != 0) then 366 else 365
  {
    hide DayFromYear;
    YearLength(y);
    LeapCases(y);
  }

  /** Thirty days have April, June, September and November, and all the others have 31, but for February. */
  lemma MonthsAreGregorian(y: int, m: int)
    requires 0 <= m < 12
    ensures StartOfMonth(y, 0) == DayFromYear(y)
    ensures StartOfMonth(y, m + 1) - StartOfMonth(y, m)
         == if m == 1 then (if y % 400 == 0 || (y % 4 == 0 && y % 100 != 0) then 29 else 28)
            else if m == 3 || m == 5 || m == 8 || m == 10 then 30 else 31
  {
    hide DayFromYear;
  }
}
