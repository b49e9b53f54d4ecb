// Calendar days as the program handles them: a UTC midnight is a count of days
// from 1970-01-01, negative before it.
module CivilDates {

  datatype CivilDate = CivilDate(year: int, month: int, day: int)

  predicate IsLeap(year: int) {
    year % 4 == 0 && (year % 100 != 0 || year % 400 == 0)
  }

  /** The day number of January 1. */
  function YearStart(year: int): int {
    365 * year + (year - 1) / 4 - (year - 1) / 100 + (year - 1) / 400 + 1 - 719528
  }

  /** Days of the year before the first of the month; month 13 stands for the whole year. */
  function DaysBeforeMonth(year: int, month: int): int
    requires 1 <= month <= 13
  {
    [0, 31, 59, 90, 120, 151, 181, 212, 243, 273, 304, 334, 365][month - 1]
    + (if month > 2 && IsLeap(year) then 1 else 0)
  }

  /** Day number of a date of the proleptic Gregorian calendar; day overflow carries over. */
  function DayNumber(year: int, month: int, day: int): int
    requires 1 <= month <= 12
  {
    YearStart(year) + DaysBeforeMonth(year, month) + day - 1
  }

  /** `Date.UTC(year, month - 1, day)`: the years 0 to 99 stand for 1900 to 1999. */
  function Utc(year: int, month: int, day: int): int
    requires 1 <= month <= 12
  {
    DayNumber(if 0 <= year <= 99 then year + 1900 else year, month, day)
  }

  /** `getUTCDay`: Sunday is 0. */
  function Weekday(day: int): (w: int)
    ensures 0 <= w < 7
  {
    (day + 4) % 7
  }

  /** The calendar behind the numbers: thirty days have April, June, September and November, February has
      28 or in a leap year 29, all others 31; a year follows the other, and 1970 began on a Thursday. */
  lemma MonthLengths(year: int, month: int)
    requires 1 <= month <= 12
    ensures DaysBeforeMonth(year, month + 1) - DaysBeforeMonth(year, month)
            == if month == 2 then if IsLeap(year) then 29 else 28
               else if month in {4, 6, 9, 11} then 30 else 31
    ensures month == 12 ==> DayNumber(year + 1, 1, 1) == DayNumber(year, 12, 31) + 1
    ensures month < 12 ==> DayNumber(year, month + 1, 1)
                           == DayNumber(year, month, 1) + DaysBeforeMonth(year, month + 1) - DaysBeforeMonth(year,
                               month)
    ensures DayNumber(1970, 1, 1) == 0 && Weekday(0) == 4
  {
    YearLength(year);
    hide YearStart;
    assert YearStart(1970) == 0 by { FirstDay(); }
  }

  lemma FirstDay()
    ensures YearStart(1970) == 0
  {
  }

  lemma YearLength(year: int)
    ensures YearStart(year + 1) == YearStart(year) + (if IsLeap(year) then 366 else 365)
  {
    YearQuotients(year);
    Centuries(year);
  }

  lemma YearQuotients(year: int)
    ensures year / 4 - (year - 1) / 4 == if year % 4 == 0 then 1 else 0
    ensures year / 100 - (year - 1) / 100 == if year % 100 == 0 then 1 else 0
    ensures year / 400 - (year - 1) / 400 == if year % 400 == 0 then 1 else 0
  {
  }

  lemma Centuries(year: int)
    ensures year % 400 == 0 ==> year % 100 == 0
    ensures year % 100 == 0 ==> year % 4 == 0
  {
    if year % 400 == 0 {
      ByHundred(year, year / 400);
    }
    if year % 100 == 0 {
      ByFour(year, year / 100);
    }
  }

  lemma ByHundred(year: int, q: int)
    requires year == 400 * q
    ensures year % 100 == 0
  {
    assert year == 100 * (4 * q);
  }

  lemma ByFour(year: int, q: int)
    requires year == 100 * q
    ensures year % 4 == 0
  {
    assert year == 4 * (25 * q);
  }

  /** Year boundaries are in calendar order, at least 365 days a year apart. */
  lemma {:induction false} YearStartMonotone(y: int, z: int)
    requires y <= z
    ensures YearStart(y) + 365 * (z - y) <= YearStart(z)
    decreases z - y
  {
    if y < z {
      YearStartMonotone(y, z - 1);
      YearLength(z - 1);
    }
  }

  /** `getUTCFullYear`: estimate the year from the mean year length, then correct by one. */
  function YearOf(day: int): (year: int)
    ensures YearStart(year) <= day < YearStart(year + 1)
  {
    var since := day + 719528;
    var estimate := (400 * since) / 146097;
    YearEstimate(since, estimate);
    if day < YearStart(estimate) then estimate - 1
    else if day < YearStart(estimate + 1) then estimate
    else estimate + 1
  }

  lemma YearEstimate(since: int, estimate: int)
    requires estimate == (400 * since) / 146097
    ensures YearStart(estimate - 1) + 719528 <= since < YearStart(estimate + 2) + 719528
  {
    assert 146097 * estimate <= 400 * since < 146097 * estimate + 146097;
    LeapBounds(estimate - 2);
    LeapBounds(estimate + 1);
  }

  lemma LeapBounds(n: int)
    ensures 400 * (n / 4 - n / 100 + n / 400) <= 97 * n + 399 + 396
    ensures 400 * (n / 4 - n / 100 + n / 400) >= 97 * n - 300 - 399
  {
  }

  lemma YearOfUnique(day: int, year: int)
    requires YearStart(year) <= day < YearStart(year + 1)
    ensures YearOf(day) == year
  {
    var y := YearOf(day);
    if y < year {
      YearStartMonotone(y + 1, year);
    } else if year < y {
      YearStartMonotone(year + 1, y);
    }
  }

  /** The civil date of a day, month found by scanning the table from the end of the year. */
  function Civil(day: int): (date: CivilDate)
    ensures 1 <= date.month <= 12
    ensures 1 <= date.day <= DaysBeforeMonth(date.year, date.month + 1) - DaysBeforeMonth(date.year, date.month)
    ensures DayNumber(date.year, date.month, date.day) == day
  {
    var year := YearOf(day);
    var offset := day - YearStart(year);
    YearLength(year);
    var month := MonthAt(year, offset, 12);
    CivilDate(year, month, offset - DaysBeforeMonth(year, month) + 1)
  }

  function MonthAt(year: int, offset: int, month: int): (m: int)
    requires 1 <= month <= 12
    requires 0 <= offset < DaysBeforeMonth(year, month + 1)
    ensures 1 <= m <= month
    ensures DaysBeforeMonth(year, m) <= offset < DaysBeforeMonth(year, m + 1)
    decreases month
  {
    if DaysBeforeMonth(year, month) <= offset then month else MonthAt(year, offset, month - 1)
  }

  predicate IsCivil(date: CivilDate) {
    1 <= date.month <= 12 &&
    1 <= date.day <= DaysBeforeMonth(date.year, date.month + 1) - DaysBeforeMonth(date.year, date.month)
  }

  /** Reading a day back as a date and numbering it again are inverse to each other. */
  lemma CivilRoundTrip(date: CivilDate)
    requires IsCivil(date)
    ensures Civil(DayNumber(date.year, date.month, date.day)) == date
  {
    var day := DayNumber(date.year, date.month, date.day);
    YearLength(date.year);
    YearOfUnique(day, date.year);
    var c := Civil(day);
    assert c.year == date.year;
    if c.month < date.month {
      MonthOrder(date.year, c.month + 1, date.month);
    } else if date.month < c.month {
      MonthOrder(date.year, date.month + 1, c.month);
    }
  }

  lemma {:induction false} MonthOrder(year: int, m: int, n: int)
    requires 1 <= m <= n <= 13
    ensures DaysBeforeMonth(year, m) <= DaysBeforeMonth(year, n)
    decreases n - m
  {
    if m < n {
      MonthOrder(year, m, n - 1);
    }
  }
}
