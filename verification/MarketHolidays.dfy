// The US market holidays in words: what src/infra/market-calendar.ts promises to list, said of days
// and weekdays alone.
module MarketHolidays {
  import opened CivilDates

  const MONDAY := 1
  const THURSDAY := 4

  // ---------------------------------------------------------------- weekdays of a month

  /** How many days from one day up to another, excluded, have the weekday. */
  function CountWeekday(from: int, until: int, weekday: int): nat
    decreases until - from
  {
    if until <= from then 0 else CountWeekday(from, until - 1, weekday) + if Weekday(until - 1) == weekday then 1 else 0
  }

  predicate InMonth(day: int, year: int, month: int)
    requires 1 <= month <= 12
  {
    YearStart(year) + DaysBeforeMonth(year, month) <= day < YearStart(year) + DaysBeforeMonth(year, month + 1)
  }

  /** The n-th of its weekday in the month, counted from the first of the month. */
  ghost predicate IsNth(day: int, year: int, month: int, weekday: int, n: nat)
    requires 1 <= month <= 12
  {
    InMonth(day, year, month) && Weekday(day) == weekday &&
    CountWeekday(DayNumber(year, month, 1), day + 1, weekday) == n
  }

  /** No later day of the month has the weekday. */
  ghost predicate IsLast(day: int, year: int, month: int, weekday: int)
    requires 1 <= month <= 12
  {
    InMonth(day, year, month) && Weekday(day) == weekday &&
    forall later :: day < later && InMonth(later, year, month) ==> Weekday(later) != weekday
  }

  predicate IsWeekday(day: int) {
    Weekday(day) != 0 && Weekday(day) != 6
  }

  function Distance(a: int, b: int): nat {
    if a <= b then b - a else a - b
  }

  /** No Monday to Friday is closer. */
  ghost predicate IsNearestWeekday(day: int, actual: int) {
    IsWeekday(day) &&
    forall other :: IsWeekday(other) && other != day ==> Distance(actual, day) < Distance(actual, other)
  }

  // ---------------------------------------------------------------- Easter

  // The Gregorian computus: the epact, the age of the moon on January 1, dates the paschal full moon.

  /** The epact, with the solar and lunar corrections of the century. */
  function Epact(year: nat): int {
    var golden := year % 19 + 1;
    var century := year / 100 + 1;
    var solar := 3 * century / 4 - 12;
    var lunar := (8 * century + 5) / 25 - 5;
    (11 * golden + 20 + lunar - solar) % 30
  }

  /** The paschal full moon, in days after March 21. */
  function PaschalFullMoon(year: nat): int {
    var golden := year % 19 + 1;
    var epact := Epact(year);
    var corrected := if epact == 24 || (epact == 25 && golden > 11) then epact + 1 else epact;
    (23 - corrected) % 30
  }

  /** The first Sunday after the paschal full moon. */
  predicate IsEaster(day: int, year: nat) {
    var moon := DayNumber(year, 3, 21) + PaschalFullMoon(year);
    moon < day <= moon + 7 && Weekday(day) == 0
  }

  // ---------------------------------------------------------------- the holidays

  /** A fixed date, observed on the nearest weekday; the name tells when it was moved. */
  ghost predicate ObservedAs(day: int, name: string, year: int, month: int, date: int, holiday: string)
    requires 1 <= month <= 12
  {
    var actual := DayNumber(year, month, date);
    IsNearestWeekday(day, actual) && name == if day == actual then holiday else holiday + " observed"
  }

  /** The day is observed in the year as the holiday of this name. */
  ghost predicate Celebrated(year: nat, day: int, name: string) {
    || ObservedAs(day, name, year, 1, 1, "New Year's Day")
    || (name == "Martin Luther King Jr. Day" && IsNth(day, year, 1, MONDAY, 3))
    || (name == "Washington's Birthday" && IsNth(day, year, 2, MONDAY, 3))
    || (name == "Good Friday" && IsEaster(day + 2, year))
    || (name == "Memorial Day" && IsLast(day, year, 5, MONDAY))
    || ObservedAs(day, name, year, 6, 19, "Juneteenth")
    || ObservedAs(day, name, year, 7, 4, "Independence Day")
    || (name == "Labor Day" && IsNth(day, year, 9, MONDAY, 1))
    || (name == "Thanksgiving Day" && IsNth(day, year, 11, THURSDAY, 4))
    || ObservedAs(day, name, year, 12, 25, "Christmas Day")
  }

  // ---------------------------------------------------------------- each is one day

  lemma WeekdayShift(day: int, k: int)
    ensures Weekday(day + k) == (Weekday(day) + k) % 7
  {
    assert day + k + 4 == 7 * ((day + 4) / 7) + (day + 4) % 7 + k;
  }

  lemma SameWeekday(day: int, other: int)
    requires 0 < other - day < 7
    ensures Weekday(other) != Weekday(day)
  {
    WeekdayShift(day, other - day);
  }

  lemma {:induction false} CountAdds(from: int, mid: int, until: int, weekday: int)
    requires from <= mid <= until
    ensures CountWeekday(from, until, weekday) == CountWeekday(from, mid, weekday) + CountWeekday(mid, until, weekday)
    decreases until - mid
  {
    if mid < until {
      CountAdds(from, mid, until - 1, weekday);
    }
  }

  /** One day in a week. */
  lemma CountWeek(from: int, weekday: int)
    requires 0 <= weekday < 7
    ensures CountWeekday(from, from + 7, weekday) == 1
  {
    hide CountWeekday, Weekday;
    CountUnrolled(from, weekday);
    WeekdayShift(from, 1);
    WeekdayShift(from, 2);
    WeekdayShift(from, 3);
    WeekdayShift(from, 4);
    WeekdayShift(from, 5);
    WeekdayShift(from, 6);
  }

  function One(day: int, weekday: int): nat {
    if Weekday(day) == weekday then 1 else 0
  }

  lemma CountUnrolled(from: int, weekday: int)
    ensures CountWeekday(from, from + 7, weekday)
            == One(from, weekday) + One(from + 1, weekday) + One(from + 2, weekday) + One(from + 3, weekday)
               + One(from + 4, weekday) + One(from + 5, weekday) + One(from + 6, weekday)
  {
    hide Weekday;
    CountOne(from, from, weekday);
    CountOne(from, from + 1, weekday);
    CountOne(from, from + 2, weekday);
    CountOne(from, from + 3, weekday);
    CountOne(from, from + 4, weekday);
    CountOne(from, from + 5, weekday);
    CountOne(from, from + 6, weekday);
    hide CountWeekday, One;
  }

  lemma CountOne(from: int, day: int, weekday: int)
    requires from <= day
    ensures CountWeekday(from, day + 1, weekday) == CountWeekday(from, day, weekday) + One(day, weekday)
    ensures CountWeekday(from, from, weekday) == 0
  {
  }

  lemma {:induction false} CountWeeks(from: int, weeks: nat, weekday: int)
    requires 0 <= weekday < 7
    ensures CountWeekday(from, from + 7 * weeks, weekday) == weeks
  {
    if weeks > 0 {
      CountWeeks(from, weeks - 1, weekday);
      CountAdds(from, from + 7 * (weeks - 1), from + 7 * weeks, weekday);
      CountWeek(from + 7 * (weeks - 1), weekday);
    }
  }

  lemma {:induction false} CountNone(from: int, until: int, weekday: int)
    requires from <= until && forall day :: from <= day < until ==> Weekday(day) != weekday
    ensures CountWeekday(from, until, weekday) == 0
    decreases until - from
  {
    if from < until {
      CountNone(from, until - 1, weekday);
    }
  }

  /** In the n-th week of the month the day of the weekday is the n-th of the month. */
  lemma NthIsInItsWeek(day: int, year: int, month: int, weekday: int, n: nat)
    requires 1 <= month <= 12 && 0 <= weekday < 7 && 1 <= n <= 4 && Weekday(day) == weekday
    requires var first := DayNumber(year, month, 1); first + 7 * (n - 1) <= day < first + 7 * n
    ensures IsNth(day, year, month, weekday, n)
  {
    hide Weekday, CountWeekday, YearStart;
    var week := DayNumber(year, month, 1) + 7 * (n - 1);
    CountWeeks(DayNumber(year, month, 1), n - 1, weekday);
    CountAdds(DayNumber(year, month, 1), week, day + 1, weekday);
    forall other | week <= other < day ensures Weekday(other) != weekday {
      SameWeekday(other, day);
    }
    CountNone(week, day, weekday);
    CountOne(week, day, weekday);
    MonthHasFourWeeks(year, month);
  }

  lemma MonthHasFourWeeks(year: int, month: int)
    requires 1 <= month <= 12
    ensures DaysBeforeMonth(year, month) + 28 <= DaysBeforeMonth(year, month + 1)
  {
  }

  lemma NthIsUnique(day: int, other: int, year: int, month: int, weekday: int, n: nat)
    requires 1 <= month <= 12 && IsNth(day, year, month, weekday, n) && IsNth(other, year, month, weekday, n)
    ensures day == other
  {
    hide Weekday, CountWeekday, YearStart;
    if day < other {
      LaterCountsMore(DayNumber(year, month, 1), day, other, weekday);
    } else if other < day {
      LaterCountsMore(DayNumber(year, month, 1), other, day, weekday);
    }
  }

  lemma LaterCountsMore(from: int, day: int, later: int, weekday: int)
    requires from <= day < later && Weekday(later) == weekday
    ensures CountWeekday(from, day + 1, weekday) < CountWeekday(from, later + 1, weekday)
  {
    hide Weekday, CountWeekday;
    CountAdds(from, day + 1, later, weekday);
    CountOne(from, later, weekday);
  }

  /** In the last week of the month the day of the weekday is the last. */
  lemma LastIsInItsWeek(day: int, year: int, month: int, weekday: int)
    requires 1 <= month <= 12 && Weekday(day) == weekday
    requires var end := YearStart(year) + DaysBeforeMonth(year, month + 1); end - 7 <= day < end
    ensures IsLast(day, year, month, weekday)
  {
    hide Weekday, YearStart;
    MonthHasFourWeeks(year, month);
    forall later | day < later && InMonth(later, year, month) ensures Weekday(later) != weekday {
      SameWeekday(day, later);
    }
  }

  lemma LastIsUnique(day: int, other: int, year: int, month: int, weekday: int)
    requires 1 <= month <= 12 && IsLast(day, year, month, weekday) && IsLast(other, year, month, weekday)
    ensures day == other
  {
    hide Weekday, InMonth;
  }

  /** A Saturday is observed the day before, a Sunday the day after. */
  lemma NearestWeekday(actual: int)
    ensures IsNearestWeekday(if Weekday(actual) == 0 then actual + 1 else if Weekday(actual) == 6 then actual - 1
                             else actual, actual)
  {
    WeekdayShift(actual, 1);
    WeekdayShift(actual, -1);
    hide Weekday;
    var day := if Weekday(actual) == 0 then actual + 1 else if Weekday(actual) == 6 then actual - 1 else actual;
    forall other | IsWeekday(other) && other != day ensures Distance(actual, day) < Distance(actual, other) {
      if other == actual + 1 || other == actual - 1 {
        assert day == actual || Weekday(actual + 1) == 0 || Weekday(actual - 1) == 6;
      }
    }
  }

  lemma NearestIsUnique(day: int, other: int, actual: int)
    requires IsNearestWeekday(day, actual) && IsNearestWeekday(other, actual)
    ensures day == other
  {
    hide IsWeekday;
  }

  lemma EasterIsUnique(day: int, other: int, year: nat)
    requires IsEaster(day, year) && IsEaster(other, year)
    ensures day == other
  {
    hide Weekday, PaschalFullMoon;
    if day < other {
      SameWeekday(day, other);
    } else if other < day {
      SameWeekday(other, day);
    }
  }
}
