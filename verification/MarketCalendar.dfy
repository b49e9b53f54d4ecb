// The US market holiday calendar of src/infra/market-calendar.ts, with the range of `Date` and its
// invalid value. A key is what its string says: comparing key strings is comparing keys.
module MarketCalendar {
  import opened CivilDates
  import opened MarketHolidays
  import opened Options

  /** An entry of a year's list; `from` is the date it is computed from. */
  datatype Holiday = Holiday(from: int, date: CivilDate, name: string)

  // ---------------------------------------------------------------- dates and keys

  /** `Date` holds the days within this distance of 1970-01-01. */
  const MAX_DAY := 100_000_000

  predicate InRange(day: int) {
    -MAX_DAY <= day <= MAX_DAY
  }

  /** A date is a day number, or None for the invalid date, whose fields are all NaN. */
  function MakeDate(day: int): Option<int> {
    if InRange(day) then Some(day) else None
  }

  function AddDays(date: Option<int>, days: int): Option<int> {
    if date.Some? then MakeDate(date.value + days) else None
  }

  /** `DateKey` is a key as `dateKey` prints it, `NaNKey` is "NaN-NaN-NaN", and `OtherKey` is any
      other string: the three numbers it reads as, if it does. */
  datatype Key = DateKey(date: CivilDate) | NaNKey | OtherKey(fields: Option<(nat, nat, nat)>)

  predicate IsKey(key: Key) {
    key.DateKey? ==> IsCivil(key.date) && key.date.year >= 0
  }

  /** Months out of range carry over into the year. */
  function UtcCarried(year: nat, month: nat, day: nat): int {
    DayNumber((if year <= 99 then year + 1900 else year) + (month - 1) / 12, (month - 1) % 12 + 1, day)
  }

  function DateFromKey(key: Key): Option<int>
    requires IsKey(key)
  {
    match key
    case DateKey(date) => MakeDate(Utc(date.year, date.month, date.day))
    case NaNKey => None
    case OtherKey(fields) =>
      if fields.None? then None
      else MakeDate(UtcCarried(fields.value.0, fields.value.1, fields.value.2))
  }

  function KeyOf(date: Option<int>): Key {
    if date.Some? then DateKey(Civil(date.value)) else NaNKey
  }

  // ---------------------------------------------------------------- Easter

  /** The quantities h, l and m of the computation; `h` is the age of the full moon after March 21. */
  function EasterTerms(year: nat): (t: (int, int, int))
  {
    var a := year % 19;
    var b := year / 100;
    var c := year % 100;
    var d := b / 4;
    var e := b % 4;
    var f := (b + 8) / 25;
    var g := (b - f + 1) / 3;
    var h := (19 * a + b - d - g + 15) % 30;
    var i := c / 4;
    var k := c % 4;
    var l := (32 + 2 * e + 2 * i - h - k) % 7;
    var m := (a + 11 * h + 22 * l) / 451;
    (h, l, m)
  }

  function EasterDate(year: nat): int {
    var (h, l, m) := EasterTerms(year);
    EasterRange(year);
    Utc(year, (h + l - 7 * m + 114) / 31, (h + l - 7 * m + 114) % 31 + 1)
  }

  lemma EasterRange(year: nat)
    ensures var (h, l, m) := EasterTerms(year);
            0 <= h < 30 && 0 <= l < 7 && 0 <= m <= 1 && 0 <= h + l - 7 * m <= 34 &&
            3 <= (h + l - 7 * m + 114) / 31 <= 4
  {
    var a := year % 19;
    var (h, l, m) := EasterTerms(year);
    assert 451 * m <= a + 11 * h + 22 * l < 451 * m + 451;
  }

  /** Days after March 21 of the calendar year that `Date.UTC` puts the date in. */
  lemma EasterOffset(year: nat)
    ensures var (h, l, m) := EasterTerms(year);
            EasterDate(year) == Utc(year, 3, 22) + h + l - 7 * m
  {
    EasterRange(year);
    var (h, l, m) := EasterTerms(year);
    var n := h + l - 7 * m + 114;
    if n / 31 == 3 {
      assert n % 31 == n - 93;
    } else {
      assert n % 31 == n - 124;
    }
  }

  /** March 22 as a day number, from the century and year parts the computation uses. */
  lemma March22(year: int, d: int, e: int, i: int, k: int)
    requires 0 <= e < 4 && 0 <= k < 4 && 0 <= i < 25
    requires year == 100 * (4 * d + e) + 4 * i + k
    ensures DayNumber(year, 3, 22) == 146097 * d + 36524 * e + 1461 * i + 365 * k - 719447
  {
    March1(year);
    assert year / 4 == 25 * (4 * d + e) + i;
    assert year / 100 == 4 * d + e;
    assert year / 400 == d;
  }

  lemma March1(year: int)
    ensures DayNumber(year, 3, 1) == 365 * year + year / 4 - year / 100 + year / 400 - 719528 + 60
  {
    YearLength(year);
    YearLength(year - 1);
  }

  /** The weekday of March 22 plus the terms h and l is a whole number of weeks. */
  lemma SundayArithmetic(d: int, e: int, i: int, k: int, h: int, l: int, m: int)
    requires l == (32 + 2 * e + 2 * i - h - k) % 7
    ensures (146097 * d + 36524 * e + 1461 * i + 365 * k - 719447 + h + l - 7 * m + 4) % 7 == 0
  {
    var q := (32 + 2 * e + 2 * i - h - k) / 7;
    var weeks := 20871 * d + 5218 * e + 209 * i + 52 * k - 102778 - q - m + 5;
    assert 146097 * d + 36524 * e + 1461 * i + 365 * k - 719447 + h + l - 7 * m + 4 == 7 * weeks;
  }

  /** `easterDate` is a Sunday exactly in the years that `Date.UTC` does not move by 1900. */
  lemma EasterIsSunday(year: nat)
    ensures Weekday(EasterDate(year)) == 0 <==> year >= 100
  {
    hide EasterDate, DayNumber;
    EasterOffset(year);
    var (h, l, m) := EasterTerms(year);
    var d, e, i, k := year / 100 / 4, year / 100 % 4, year % 100 / 4, year % 100 % 4;
    YearParts(year, d, e, i, k);
    SundayArithmetic(d, e, i, k, h, l, m);
    if year >= 100 {
      March22(year, d, e, i, k);
    } else {
      // The move shifts the weekday by one: Easter is read as a Monday.
      assert d == e == 0;
      March22(year + 1900, 4, 3, i, k);
      MondayArithmetic(1461 * i + 365 * k - 719447 + h + l - 7 * m + 4);
    }
  }

  lemma YearParts(year: nat, d: int, e: int, i: int, k: int)
    requires d == year / 100 / 4 && e == year / 100 % 4 && i == year % 100 / 4 && k == year % 100 % 4
    ensures 0 <= e < 4 && 0 <= k < 4 && 0 <= i < 25 && year == 100 * (4 * d + e) + 4 * i + k
  {
  }

  lemma MondayArithmetic(x: int)
    requires x % 7 == 0
    ensures (146097 * 4 + 36524 * 3 + x) % 7 == 1
  {
    assert 146097 * 4 + 36524 * 3 == 7 * 99137 + 1;
  }

  /** Easter falls between March 22 and April 25 of the year, and Good Friday is a Friday. */
  lemma EasterWindow(year: nat)
    requires year >= 100
    ensures DayNumber(year, 3, 22) <= EasterDate(year) <= DayNumber(year, 4, 25)
    ensures Weekday(EasterDate(year) - 2) == 5
  {
    EasterOffset(year);
    EasterRange(year);
    EasterIsSunday(year);
    FridayArithmetic(EasterDate(year));
    assert DayNumber(year, 4, 25) == DayNumber(year, 3, 22) + 34;
  }

  lemma FridayArithmetic(day: int)
    requires (day + 4) % 7 == 0
    ensures (day - 2 + 4) % 7 == 5
  {
  }

  /** The century correction written with two floors equals the one written with a single floor. */
  lemma LunarCorrection(b: nat)
    ensures (b - (b + 8) / 25 + 1) / 3 == (8 * (b + 1) + 5) / 25
  {
    var q, r := b / 25, b % 25;
    assert b == 25 * q + r;
    assert (b + 8) / 25 == if r >= 17 then q + 1 else q;
    assert (8 * (b + 1) + 5) / 25 == 8 * q + (8 * r + 13) / 25;
    assert (b - (b + 8) / 25 + 1) / 3 == 8 * q + (if r >= 17 then r else r + 1) / 3;
  }

  lemma FullMoonTerm(year: nat)
    ensures EasterTerms(year).0 == (23 - Epact(year)) % 30
  {
    var a, b := year % 19, year / 100;
    LunarCorrection(b);
    assert 3 * (b + 1) / 4 == b - b / 4;
    FullMoonArithmetic(a, b - b / 4, (8 * (b + 1) + 5) / 25);
  }

  lemma FullMoonArithmetic(a: int, solar: int, lunar: int)
    ensures (19 * a + solar - lunar + 15) % 30
            == (23 - (11 * (a + 1) + 20 + (lunar - 5) - (solar - 12)) % 30) % 30
  {
    var epact := 11 * (a + 1) + 20 + (lunar - 5) - (solar - 12);
    var q := epact / 30;
    assert 19 * a + solar - lunar + 15 == 23 - epact % 30 + 30 * (a + 1 - q);
  }

  /** `easterDate` is the first Sunday after the paschal full moon. */
  lemma EasterIsFirstSundayAfterFullMoon(year: nat)
    requires year >= 100
    ensures IsEaster(EasterDate(year), year)
  {
    FullMoonTerm(year);
    EasterOffset(year);
    EasterRange(year);
    EasterIsSunday(year);
    var (h, l, m) := EasterTerms(year);
    FullMoonWeek(year % 19, Epact(year), h, l, m);
    assert DayNumber(year, 3, 22) == DayNumber(year, 3, 21) + 1;
  }

  lemma FullMoonWeek(a: int, epact: int, h: int, l: int, m: int)
    requires 0 <= a < 19 && 0 <= epact < 30 && h == (23 - epact) % 30 && 0 <= l < 7
    requires m == (a + 11 * h + 22 * l) / 451
    ensures var corrected := if epact == 24 || (epact == 25 && a + 1 > 11) then epact + 1 else epact;
            var moon := (23 - corrected) % 30;
            moon <= h + l - 7 * m <= moon + 6
  {
    assert 451 * m <= a + 11 * h + 22 * l < 451 * m + 451;
    assert h == if epact <= 23 then 23 - epact else 53 - epact;
  }

  // ---------------------------------------------------------------- the list of a year

  function ObservedFixedHoliday(year: nat, month: int, day: int, name: string): Holiday
    requires 1 <= month <= 12
  {
    Observed(Utc(year, month, day), name)
  }

  function Observed(actual: int, name: string): Holiday {
    var weekday := Weekday(actual);
    var observed := if weekday == 0 then actual + 1 else if weekday == 6 then actual - 1 else actual;
    Holiday(actual, Civil(observed), if observed == actual then name else name + " observed")
  }

  function NthWeekdayHoliday(year: nat, month: int, weekday: int, occurrence: int, name: string): Holiday
    requires 1 <= month <= 12
  {
    NthWeekday(Utc(year, month, 1), weekday, occurrence, name)
  }

  function NthWeekday(first: int, weekday: int, occurrence: int, name: string): Holiday {
    var offset := (weekday - Weekday(first) + 7) % 7;
    Holiday(first, Civil(first + offset + (occurrence - 1) * 7), name)
  }

  /** The last day of the month is day 0 of the next one. */
  function LastWeekdayHoliday(year: nat, month: int, weekday: int, name: string): Holiday
    requires 1 <= month <= 11
  {
    LastWeekday(Utc(year, month + 1, 0), weekday, name)
  }

  function LastWeekday(last: int, weekday: int, name: string): Holiday {
    var offset := (Weekday(last) - weekday + 7) % 7;
    Holiday(last, Civil(last - offset), name)
  }

  function MarketHolidaysForYear(year: nat): (list: seq<Holiday>)
    ensures |list| == 10
  {
    [ ObservedFixedHoliday(year, 1, 1, "New Year's Day"),
      NthWeekdayHoliday(year, 1, 1, 3, "Martin Luther King Jr. Day"),
      NthWeekdayHoliday(year, 2, 1, 3, "Washington's Birthday"),
      Holiday(EasterDate(year), Civil(EasterDate(year) - 2), "Good Friday"),
      LastWeekdayHoliday(year, 5, 1, "Memorial Day"),
      ObservedFixedHoliday(year, 6, 19, "Juneteenth"),
      ObservedFixedHoliday(year, 7, 4, "Independence Day"),
      NthWeekdayHoliday(year, 9, 1, 1, "Labor Day"),
      NthWeekdayHoliday(year, 11, 4, 4, "Thanksgiving Day"),
      ObservedFixedHoliday(year, 12, 25, "Christmas Day") ]
  }

  /** The day of the i-th holiday of a year. */
  ghost function HolidayDay(year: nat, i: nat): int
    requires i < 10
  {
    KeyDay(MarketHolidaysForYear(year)[i].date)
  }

  function KeyDay(date: CivilDate): int
  {
    if 1 <= date.month <= 12 then DayNumber(date.year, date.month, date.day) else 0
  }

  lemma KeyDayOfCivil(day: int)
    ensures KeyDay(Civil(day)) == day
  {
  }

  /** Where each holiday can fall, in days from January 1; index 10 is next New Year's Day. */
  ghost function Earliest(i: nat): int
    requires i < 10
  {
    [-1, 14, 45, 78, 144, 168, 183, 243, 325, 357][i]
  }

  ghost function Latest(i: nat): int
    requires i < 10
  {
    [1, 20, 51, 113, 151, 171, 186, 250, 332, 360][i]
  }

  /** The weekday a fixed holiday is observed on: moved off the weekend by at most a day. */
  lemma ObservedPlacement(year: nat, month: int, day: int, name: string)
    requires year >= 100 && 1 <= month <= 12
    ensures var d := KeyDay(ObservedFixedHoliday(year, month, day, name).date);
            var actual := DayNumber(year, month, day);
            1 <= Weekday(d) <= 5 &&
            d - actual == if Weekday(actual) == 0 then 1 else if Weekday(actual) == 6 then -1 else 0
    ensures ObservedFixedHoliday(year, month, day, name).from == DayNumber(year, month, day)
  {
    hide Civil, YearOf, YearStart, DaysBeforeMonth, IsLeap, KeyDay, Weekday;
    var actual := Utc(year, month, day);
    var observed := if Weekday(actual) == 0 then actual + 1 else if Weekday(actual) == 6 then actual - 1 else actual;
    WeekdayShift(actual, observed - actual);
    KeyDayOfCivil(observed);
  }

  lemma NthWeekdayPlacement(year: nat, month: int, weekday: int, occurrence: int, name: string)
    requires year >= 100 && 1 <= month <= 12 && 0 <= weekday < 7
    ensures var d := KeyDay(NthWeekdayHoliday(year, month, weekday, occurrence, name).date);
            var earliest := DayNumber(year, month, 1) + 7 * (occurrence - 1);
            Weekday(d) == weekday && earliest <= d < earliest + 7
    ensures NthWeekdayHoliday(year, month, weekday, occurrence, name).from == DayNumber(year, month, 1)
  {
    hide Civil, YearOf, YearStart, DaysBeforeMonth, IsLeap, KeyDay, Weekday;
    var first := Utc(year, month, 1);
    var offset := (weekday - Weekday(first) + 7) % 7;
    var d := first + offset + (occurrence - 1) * 7;
    WeekdayShift(first, offset + (occurrence - 1) * 7);
    WholeWeeks(Weekday(first), weekday, offset, occurrence - 1);
    KeyDayOfCivil(d);
  }

  lemma WholeWeeks(w: int, weekday: int, offset: int, weeks: int)
    requires 0 <= w < 7 && 0 <= weekday < 7 && offset == (weekday - w + 7) % 7
    ensures (w + (offset + weeks * 7)) % 7 == weekday
  {
    assert w + offset == weekday || w + offset == weekday + 7;
    if w + offset == weekday {
      assert w + (offset + weeks * 7) == 7 * weeks + weekday;
    } else {
      assert w + (offset + weeks * 7) == 7 * (weeks + 1) + weekday;
    }
  }

  lemma LastWeekdayPlacement(year: nat, month: int, weekday: int, name: string)
    requires year >= 100 && 1 <= month <= 11 && 0 <= weekday < 7
    ensures var d := KeyDay(LastWeekdayHoliday(year, month, weekday, name).date);
            var last := DayNumber(year, month + 1, 0);
            Weekday(d) == weekday && last - 7 < d <= last
    ensures LastWeekdayHoliday(year, month, weekday, name).from == DayNumber(year, month + 1, 0)
  {
    hide Civil, YearOf, YearStart, DaysBeforeMonth, IsLeap, KeyDay, Weekday;
    var last := Utc(year, month + 1, 0);
    var offset := (Weekday(last) - weekday + 7) % 7;
    WeekdayShift(last, -offset);
    KeyDayOfCivil(last - offset);
  }

  ghost predicate InWindow(year: nat, i: nat)
    requires i < 10
  {
    && YearStart(year) + Earliest(i) <= HolidayDay(year, i) <= YearStart(year) + Latest(i)
    && 1 <= Weekday(HolidayDay(year, i)) <= 5
  }

  lemma PlacementToMay(year: nat, i: nat)
    requires year >= 100 && i < 5
    ensures InWindow(year, i)
  {
    hide Civil, YearOf, YearStart, KeyDay, Weekday, EasterDate, ObservedFixedHoliday, NthWeekdayHoliday,
         LastWeekdayHoliday;
    match i {
      case 0 => ObservedPlacement(year, 1, 1, "New Year's Day");
      case 1 => NthWeekdayPlacement(year, 1, 1, 3, "Martin Luther King Jr. Day");
      case 2 => NthWeekdayPlacement(year, 2, 1, 3, "Washington's Birthday");
      case 3 => EasterWindow(year); KeyDayOfCivil(EasterDate(year) - 2);
      case 4 => LastWeekdayPlacement(year, 5, 1, "Memorial Day");
    }
  }

  lemma PlacementFromJune(year: nat, i: nat)
    requires year >= 100 && 5 <= i < 10
    ensures InWindow(year, i)
  {
    hide Civil, YearOf, YearStart, KeyDay, Weekday, EasterDate, ObservedFixedHoliday, NthWeekdayHoliday,
         LastWeekdayHoliday;
    match i {
      case 5 => ObservedPlacement(year, 6, 19, "Juneteenth");
      case 6 => ObservedPlacement(year, 7, 4, "Independence Day");
      case 7 => NthWeekdayPlacement(year, 9, 1, 1, "Labor Day");
      case 8 => NthWeekdayPlacement(year, 11, 4, 4, "Thanksgiving Day");
      case 9 => ObservedPlacement(year, 12, 25, "Christmas Day");
    }
  }

  /** Every holiday of a year is a weekday inside its window. */
  lemma HolidayPlacement(year: nat, i: nat)
    requires year >= 100 && i < 10
    ensures YearStart(year) + Earliest(i) <= HolidayDay(year, i) <= YearStart(year) + Latest(i)
    ensures 1 <= Weekday(HolidayDay(year, i)) <= 5
  {
    hide HolidayDay, YearStart, Weekday, Earliest, Latest;
    if i < 5 {
      PlacementToMay(year, i);
    } else {
      PlacementFromJune(year, i);
    }
  }

  /** Christmas and the following New Year's Day are observed exactly a week apart. */
  lemma NewYearFollowsChristmas(year: nat)
    requires year >= 100
    ensures HolidayDay(year + 1, 0) == HolidayDay(year, 9) + 7
  {
    hide KeyDay, Weekday, MarketHolidaysForYear, DayNumber, ObservedFixedHoliday;
    FirstEntry(year + 1);
    LastEntry(year);
    ObservedPlacement(year, 12, 25, "Christmas Day");
    ObservedPlacement(year + 1, 1, 1, "New Year's Day");
    WeekAfterChristmas(year);
    WeekdayShift(DayNumber(year, 12, 25), 7);
  }

  lemma WeekAfterChristmas(year: nat)
    ensures DayNumber(year + 1, 1, 1) == DayNumber(year, 12, 25) + 7
  {
    hide YearStart;
    YearLength(year);
  }

  lemma FirstEntry(year: nat)
    ensures MarketHolidaysForYear(year)[0] == ObservedFixedHoliday(year, 1, 1, "New Year's Day")
  {
  }

  lemma LastEntry(year: nat)
    ensures MarketHolidaysForYear(year)[9] == ObservedFixedHoliday(year, 12, 25, "Christmas Day")
  {
  }

  /** Within the years of the calendar the holidays come in list order. */
  lemma LaterHoliday(y: nat, i: nat, z: nat, j: nat)
    requires 100 <= y && i < 10 && j < 10
    requires y < z || (y == z && i < j)
    ensures HolidayDay(z, j) >= HolidayDay(y, i) + 7
  {
    hide HolidayDay, YearStart, Weekday;
    HolidayPlacement(y, i);
    HolidayPlacement(z, j);
    if y < z {
      YearStartMonotone(y + 1, z);
      YearLength(y);
      if z == y + 1 && j == 0 && i == 9 {
        NewYearFollowsChristmas(y);
      }
    }
  }

  /** Two different holidays are at least a week apart. */
  lemma HolidaysAreAWeekApart(y: nat, i: nat, z: nat, j: nat)
    requires 100 <= y && 100 <= z && i < 10 && j < 10 && (y, i) != (z, j)
    ensures HolidayDay(z, j) >= HolidayDay(y, i) + 7 || HolidayDay(y, i) >= HolidayDay(z, j) + 7
  {
    if y < z || (y == z && i < j) {
      LaterHoliday(y, i, z, j);
    } else {
      LaterHoliday(z, j, y, i);
    }
  }

  // ---------------------------------------------------------------- the list is the holidays

  lemma ObservedIs(year: nat, month: int, date: int, name: string, day: int, called: string)
    requires year >= 100 && 1 <= month <= 12
    ensures var h := ObservedFixedHoliday(year, month, date, name);
            ObservedAs(day, called, year, month, date, name) <==> KeyDay(h.date) == day && h.name == called
  {
    hide Civil, YearStart, DaysBeforeMonth, IsLeap, KeyDay, Weekday, IsNearestWeekday;
    var actual := Utc(year, month, date);
    var observed := if Weekday(actual) == 0 then actual + 1 else if Weekday(actual) == 6 then actual - 1 else actual;
    KeyDayOfCivil(observed);
    NearestWeekday(actual);
    if IsNearestWeekday(day, actual) {
      NearestIsUnique(day, observed, actual);
    }
  }

  lemma NthIs(year: nat, month: int, weekday: int, n: nat, name: string, day: int)
    requires year >= 100 && 1 <= month <= 12 && 0 <= weekday < 7 && 1 <= n <= 4
    ensures var h := NthWeekdayHoliday(year, month, weekday, n, name);
            h.name == name && (IsNth(day, year, month, weekday, n) <==> KeyDay(h.date) == day)
  {
    hide Civil, KeyDay, Weekday, IsNth, DayNumber;
    var d := KeyDay(NthWeekdayHoliday(year, month, weekday, n, name).date);
    NthWeekdayPlacement(year, month, weekday, n, name);
    NthIsInItsWeek(d, year, month, weekday, n);
    if IsNth(day, year, month, weekday, n) {
      NthIsUnique(day, d, year, month, weekday, n);
    }
  }

  lemma LastIs(year: nat, month: int, weekday: int, name: string, day: int)
    requires year >= 100 && 1 <= month <= 11 && 0 <= weekday < 7
    ensures var h := LastWeekdayHoliday(year, month, weekday, name);
            h.name == name && (IsLast(day, year, month, weekday) <==> KeyDay(h.date) == day)
  {
    hide Civil, KeyDay, Weekday, IsLast, YearStart, DaysBeforeMonth;
    var d := KeyDay(LastWeekdayHoliday(year, month, weekday, name).date);
    LastWeekdayPlacement(year, month, weekday, name);
    LastIsInItsWeek(d, year, month, weekday);
    if IsLast(day, year, month, weekday) {
      LastIsUnique(day, d, year, month, weekday);
    }
  }

  lemma GoodFridayIs(year: nat, day: int)
    requires year >= 100
    ensures IsEaster(day + 2, year) <==> KeyDay(Civil(EasterDate(year) - 2)) == day
  {
    hide IsEaster, EasterDate, KeyDay, Civil;
    EasterIsFirstSundayAfterFullMoon(year);
    KeyDayOfCivil(EasterDate(year) - 2);
    if IsEaster(day + 2, year) {
      EasterIsUnique(day + 2, EasterDate(year), year);
    }
  }

  ghost predicate InList(year: nat, day: int, name: string) {
    exists i: nat :: NamesAt(year, i, day, name)
  }

  /** The ten entries, one after the other. */
  lemma ListUnrolled(year: nat, day: int, name: string)
    ensures InList(year, day, name) <==>
              NamesAt(year, 0, day, name) || NamesAt(year, 1, day, name) || NamesAt(year, 2, day, name) ||
              NamesAt(year, 3, day, name) || NamesAt(year, 4, day, name) || NamesAt(year, 5, day, name) ||
              NamesAt(year, 6, day, name) || NamesAt(year, 7, day, name) || NamesAt(year, 8, day, name) ||
              NamesAt(year, 9, day, name)
  {
    hide MarketHolidaysForYear, KeyDay;
  }

  /** From the year 100 on the list of a year is exactly the holidays celebrated for it. */
  lemma ListIsCelebrated(year: nat, day: int, name: string)
    requires year >= 100
    ensures Celebrated(year, day, name) <==> InList(year, day, name)
  {
    hide ObservedAs, IsNth, IsLast, IsEaster, KeyDay, Civil, ObservedFixedHoliday, NthWeekdayHoliday,
         LastWeekdayHoliday, EasterDate, InList;
    ListUnrolled(year, day, name);
    ObservedIs(year, 1, 1, "New Year's Day", day, name);
    NthIs(year, 1, MONDAY, 3, "Martin Luther King Jr. Day", day);
    NthIs(year, 2, MONDAY, 3, "Washington's Birthday", day);
    GoodFridayIs(year, day);
    LastIs(year, 5, MONDAY, "Memorial Day", day);
    ObservedIs(year, 6, 19, "Juneteenth", day, name);
    ObservedIs(year, 7, 4, "Independence Day", day, name);
    NthIs(year, 9, MONDAY, 1, "Labor Day", day);
    NthIs(year, 11, THURSDAY, 4, "Thanksgiving Day", day);
    ObservedIs(year, 12, 25, "Christmas Day", day, name);
  }

  // ---------------------------------------------------------------- looking a date up

  /** An entry as the list holds it: the key is that of the invalid date if the entry's date, or the
      one it is computed from, is out of range. */
  datatype Entry = Entry(key: Key, name: string)

  function Listed(h: Holiday): Entry {
    Entry(if InRange(h.from) then KeyOf(MakeDate(KeyDay(h.date))) else NaNKey, h.name)
  }

  /** The list of year NaN: every date is invalid, and the fixed holidays differ from their own dates. */
  function EntriesOfNaN(): (list: seq<Entry>)
    ensures |list| == 10
  {
    [ Entry(NaNKey, "New Year's Day observed"), Entry(NaNKey, "Martin Luther King Jr. Day"),
      Entry(NaNKey, "Washington's Birthday"), Entry(NaNKey, "Good Friday"), Entry(NaNKey, "Memorial Day"),
      Entry(NaNKey, "Juneteenth observed"), Entry(NaNKey, "Independence Day observed"), Entry(NaNKey, "Labor Day"),
      Entry(NaNKey, "Thanksgiving Day"), Entry(NaNKey, "Christmas Day observed") ]
  }

  function ListedAll(holidays: seq<Holiday>): (list: seq<Entry>)
    ensures |list| == |holidays| && forall i :: 0 <= i < |list| ==> list[i] == Listed(holidays[i])
  {
    seq(|holidays|, i requires 0 <= i < |holidays| => Listed(holidays[i]))
  }

  function EntriesFor(year: Option<nat>): seq<Entry> {
    if year.Some? then ListedAll(MarketHolidaysForYear(year.value)) else EntriesOfNaN()
  }

  /** `list.find(entry => entry.date === key)`. */
  function FindKey(list: seq<Entry>, key: Key): (found: Option<string>)
    ensures found.Some? <==> exists i :: 0 <= i < |list| && list[i].key == key
    ensures found.Some? ==> exists i :: 0 <= i < |list| && list[i] == Entry(key, found.value)
  {
    if list == [] then None
    else if list[0].key == key then Some(list[0].name)
    else
      var rest := FindKey(list[1..], key);
      assert forall i :: 1 <= i < |list| ==> list[i] == list[1..][i - 1];
      assert forall i :: 0 <= i < |list| - 1 ==> list[1..][i] == list[i + 1];
      rest
  }

  /** The i-th entry of the year's list is this day under this name. */
  predicate NamesAt(year: nat, i: nat, day: int, name: string) {
    i < 10 && KeyDay(MarketHolidaysForYear(year)[i].date) == day && MarketHolidaysForYear(year)[i].name == name
  }

  /** The date is observed as the holiday of this name. */
  ghost predicate IsHolidayNamed(date: CivilDate, name: string) {
    exists year: nat :: year >= 100 && Celebrated(year, KeyDay(date), name)
  }

  ghost predicate IsHoliday(date: CivilDate) {
    exists name :: IsHolidayNamed(date, name)
  }

  lemma FixedIsCivil(year: nat, month: int, day: int, name: string)
    requires 1 <= month <= 12
    ensures IsCivil(ObservedFixedHoliday(year, month, day, name).date)
  {
    hide Civil, Utc, Weekday;
  }

  lemma NthIsCivil(year: nat, month: int, weekday: int, occurrence: int, name: string)
    requires 1 <= month <= 12
    ensures IsCivil(NthWeekdayHoliday(year, month, weekday, occurrence, name).date)
  {
    hide Civil, Utc, Weekday;
  }

  lemma LastIsCivil(year: nat, month: int, weekday: int, name: string)
    requires 1 <= month <= 11
    ensures IsCivil(LastWeekdayHoliday(year, month, weekday, name).date)
  {
    hide Civil, Utc, Weekday;
  }

  lemma DayIsCivil(day: int)
    ensures IsCivil(Civil(day))
  {
    hide Civil;
  }

  lemma HolidayIsCivil(year: nat, i: nat)
    requires i < 10
    ensures IsCivil(MarketHolidaysForYear(year)[i].date)
  {
    hide Civil, EasterDate, IsCivil, ObservedFixedHoliday, NthWeekdayHoliday, LastWeekdayHoliday;
    FixedIsCivil(year, 1, 1, "New Year's Day");
    NthIsCivil(year, 1, 1, 3, "Martin Luther King Jr. Day");
    NthIsCivil(year, 2, 1, 3, "Washington's Birthday");
    DayIsCivil(EasterDate(year) - 2);
    LastIsCivil(year, 5, 1, "Memorial Day");
    FixedIsCivil(year, 6, 19, "Juneteenth");
    FixedIsCivil(year, 7, 4, "Independence Day");
    NthIsCivil(year, 9, 1, 1, "Labor Day");
    NthIsCivil(year, 11, 4, 4, "Thanksgiving Day");
    FixedIsCivil(year, 12, 25, "Christmas Day");
  }

  /** A date of some year's list lies in that year or on the last day of the year before. */
  lemma HolidayYear(year: nat, i: nat)
    requires year >= 100 && i < 10
    ensures year - 1 <= MarketHolidaysForYear(year)[i].date.year <= year
  {
    hide *;
    HolidayIsCivil(year, i);
    var date := MarketHolidaysForYear(year)[i].date;
    DateYear(date);
    HolidayWindow(year, i);
    DayWithinYears(KeyDay(date), date.year, year);
  }

  lemma HolidayWindow(year: nat, i: nat)
    requires year >= 100 && i < 10
    ensures YearStart(year) - 1 <= KeyDay(MarketHolidaysForYear(year)[i].date) <= YearStart(year) + 360
  {
    hide MarketHolidaysForYear, YearStart, KeyDay, Weekday;
    HolidayPlacement(year, i);
  }

  lemma DayWithinYears(day: int, actual: int, year: int)
    requires YearStart(actual) <= day < YearStart(actual + 1)
    requires YearStart(year) - 1 <= day <= YearStart(year) + 360
    ensures year - 1 <= actual <= year
  {
    hide YearStart;
    if actual < year - 1 {
      YearStartMonotone(actual + 1, year - 1);
      YearStartMonotone(year - 1, year);
    } else if year < actual {
      YearStartMonotone(year + 1, actual);
      YearStartMonotone(year, year + 1);
    }
  }

  /** The year field of a civil date is the year its day falls in. */
  lemma DateYear(date: CivilDate)
    requires IsCivil(date)
    ensures YearStart(date.year) <= KeyDay(date) < YearStart(date.year + 1)
    ensures YearOf(KeyDay(date)) == date.year
  {
    hide YearOf;
    MonthOrder(date.year, 1, date.month);
    MonthOrder(date.year, date.month + 1, 13);
    YearLength(date.year);
    YearOfUnique(KeyDay(date), date.year);
  }

  /** The lists of the years 0 to 99 hold dates of 1899 to 1999. */
  lemma EarlyList(year: nat, i: nat)
    requires year < 100 && i < 10
    ensures MarketHolidaysForYear(year)[i].date.year >= 1899
  {
    hide MarketHolidaysForYear, YearStart, YearOf, Civil, KeyDay, DayNumber;
    var date := MarketHolidaysForYear(year)[i].date;
    HolidayIsCivil(year, i);
    DateYear(date);
    EarlyDay(year, i);
    YearStartMonotone(1900, year + 1900);
    if date.year < 1899 {
      YearStartMonotone(date.year + 1, 1899);
      YearLength(1899);
    }
  }

  lemma EarlyDay(year: nat, i: nat)
    requires year < 100 && i < 10
    ensures KeyDay(MarketHolidaysForYear(year)[i].date) >= YearStart(year + 1900) - 1
  {
    hide YearStart, YearOf, Civil, KeyDay, ObservedFixedHoliday, NthWeekdayHoliday, LastWeekdayHoliday, Weekday;
    if i == 3 {
      EasterOffset(year);
      EasterRange(year);
      KeyDayOfCivil(EasterDate(year) - 2);
    } else {
      MovedEntry(year, i);
      HolidayPlacement(year + 1900, i);
    }
  }

  /** Save for Easter, the list of such a year is that of the year it is moved to. */
  lemma MovedEntry(year: nat, i: nat)
    requires year < 100 && i < 10 && i != 3
    ensures MarketHolidaysForYear(year)[i] == MarketHolidaysForYear(year + 1900)[i]
  {
    hide EasterDate, ObservedFixedHoliday, NthWeekdayHoliday, LastWeekdayHoliday, Civil;
    match i {
      case 0 => ObservedMoved(year, 1, 1, "New Year's Day");
      case 1 => NthWeekdayMoved(year, 1, 1, 3, "Martin Luther King Jr. Day");
      case 2 => NthWeekdayMoved(year, 2, 1, 3, "Washington's Birthday");
      case 4 => LastWeekdayMoved(year, 5, 1, "Memorial Day");
      case 5 => ObservedMoved(year, 6, 19, "Juneteenth");
      case 6 => ObservedMoved(year, 7, 4, "Independence Day");
      case 7 => NthWeekdayMoved(year, 9, 1, 1, "Labor Day");
      case 8 => NthWeekdayMoved(year, 11, 4, 4, "Thanksgiving Day");
      case 9 => ObservedMoved(year, 12, 25, "Christmas Day");
    }
  }

  lemma UtcMoved(year: nat, month: int, day: int)
    requires year < 100 && 1 <= month <= 12
    ensures Utc(year, month, day) == Utc(year + 1900, month, day)
  {
    hide DayNumber;
  }

  lemma ObservedMoved(year: nat, month: int, day: int, name: string)
    requires year < 100 && 1 <= month <= 12
    ensures ObservedFixedHoliday(year, month, day, name) == ObservedFixedHoliday(year + 1900, month, day, name)
  {
    hide Utc, Observed;
    UtcMoved(year, month, day);
  }

  lemma NthWeekdayMoved(year: nat, month: int, weekday: int, occurrence: int, name: string)
    requires year < 100 && 1 <= month <= 12
    ensures NthWeekdayHoliday(year, month, weekday, occurrence, name)
            == NthWeekdayHoliday(year + 1900, month, weekday, occurrence, name)
  {
    hide Utc, NthWeekday;
    UtcMoved(year, month, 1);
  }

  lemma LastWeekdayMoved(year: nat, month: int, weekday: int, name: string)
    requires year < 100 && 1 <= month <= 11
    ensures LastWeekdayHoliday(year, month, weekday, name) == LastWeekdayHoliday(year + 1900, month, weekday, name)
  {
    hide Utc, LastWeekday;
    UtcMoved(year, month + 1, 0);
  }

  /** No list has a date of the year 99: New Year's Day of 100 is a Friday. */
  lemma NoHolidayBefore100(year: nat, i: nat)
    requires year >= 100 && i < 10
    ensures HolidayDay(year, i) >= YearStart(100)
  {
    hide MarketHolidaysForYear, KeyDay;
    HolidayPlacement(year, i);
    if year > 100 {
      YearStartMonotone(101, year);
      YearLength(100);
    } else if i == 0 {
      assert Weekday(DayNumber(100, 1, 1)) == 5;
      assert HolidayDay(100, 0) == DayNumber(100, 1, 1) by {
        ObservedPlacement(100, 1, 1, "New Year's Day");
        FirstEntry(100);
      }
    }
  }

  lemma FromPlacement(year: nat, i: nat)
    requires year >= 100 && i < 10
    ensures var h := MarketHolidaysForYear(year)[i];
            YearStart(year) <= h.from < HolidayDay(year, i) + 7 && (i == 7 ==> h.from <= HolidayDay(year, i))
  {
    hide Civil, YearOf, YearStart, KeyDay, Weekday, EasterDate, ObservedFixedHoliday, NthWeekdayHoliday,
         LastWeekdayHoliday;
    match i {
      case 0 => ObservedPlacement(year, 1, 1, "New Year's Day");
      case 1 => NthWeekdayPlacement(year, 1, 1, 3, "Martin Luther King Jr. Day");
      case 2 => NthWeekdayPlacement(year, 2, 1, 3, "Washington's Birthday");
      case 3 => EasterWindow(year); KeyDayOfCivil(EasterDate(year) - 2);
      case 4 => LastWeekdayPlacement(year, 5, 1, "Memorial Day");
      case 5 => ObservedPlacement(year, 6, 19, "Juneteenth");
      case 6 => ObservedPlacement(year, 7, 4, "Independence Day");
      case 7 => NthWeekdayPlacement(year, 9, 1, 1, "Labor Day");
      case 8 => NthWeekdayPlacement(year, 11, 4, 4, "Thanksgiving Day");
      case 9 => ObservedPlacement(year, 12, 25, "Christmas Day");
    }
  }

  /** An entry whose date is in range is not lost to the range: the last day is September 13 of the
      year 275760, between Labor Day and Thanksgiving. */
  lemma ListedInRange(year: nat, i: nat)
    requires year >= 100 && i < 10 && HolidayDay(year, i) <= MAX_DAY
    ensures Listed(MarketHolidaysForYear(year)[i]).key == DateKey(MarketHolidaysForYear(year)[i].date)
  {
    hide MarketHolidaysForYear, Civil, YearStart, HolidayDay;
    HolidayPlacement(year, i);
    FromPlacement(year, i);
    LastYear(year);
    YearStartMonotone(100, year);
    FirstYear();
    ListedKey(year, i);
  }

  lemma LastYear(year: nat)
    ensures year < 275760 ==> YearStart(year) + 374 < MAX_DAY
    ensures year == 275760 ==> YearStart(year) + 256 == MAX_DAY
    ensures year > 275760 ==> YearStart(year) > MAX_DAY + 100
  {
    assert YearStart(275760) + 256 == MAX_DAY;
    assert YearStart(275759) + 365 + 256 == MAX_DAY;
    assert YearStart(275761) > MAX_DAY + 100;
    if year < 275760 {
      YearStartMonotone(year, 275759);
    } else if year > 275760 {
      YearStartMonotone(275761, year);
    }
  }

  lemma FirstYear()
    ensures -MAX_DAY + 8 <= YearStart(99) && YearStart(99) + 365 == YearStart(100)
  {
  }

  lemma ListedKey(year: nat, i: nat)
    requires i < 10 && InRange(MarketHolidaysForYear(year)[i].from) && InRange(HolidayDay(year, i))
    ensures Listed(MarketHolidaysForYear(year)[i]).key == DateKey(MarketHolidaysForYear(year)[i].date)
  {
    hide MarketHolidaysForYear, Civil, YearStart, DaysBeforeMonth;
    HolidayIsCivil(year, i);
    CivilRoundTrip(MarketHolidaysForYear(year)[i].date);
  }

  /** Whatever a list holds under a date's key is the entry of that date. */
  lemma ListedDate(year: nat, i: nat, date: CivilDate)
    requires i < 10 && Listed(MarketHolidaysForYear(year)[i]).key == DateKey(date)
    ensures MarketHolidaysForYear(year)[i].date == date
  {
    hide MarketHolidaysForYear, Civil, YearStart, DaysBeforeMonth;
    HolidayIsCivil(year, i);
    CivilRoundTrip(MarketHolidaysForYear(year)[i].date);
  }

  /** The list of this year is searched for the date. */
  predicate IsCandidate(date: CivilDate, year: int) {
    var actual := if 0 <= date.year <= 99 then date.year + 1900 else date.year;
    actual - 1 <= year <= actual + 1
  }

  /** The year that the date is parsed to. */
  predicate ParsesTo(date: CivilDate, year: int) {
    year == if 0 <= date.year <= 99 then date.year + 1900 else date.year
  }

  /** A holiday is in the list of the year it is observed for. */
  lemma HolidayEntry(date: CivilDate) returns (year: nat, i: nat)
    requires IsCivil(date) && IsHoliday(date)
    ensures year >= 100 && i < 10 && MarketHolidaysForYear(year)[i].date == date
  {
    hide MarketHolidaysForYear, KeyDay, Celebrated, IsCivil;
    var name :| IsHolidayNamed(date, name);
    year :| year >= 100 && Celebrated(year, KeyDay(date), name);
    ListIsCelebrated(year, KeyDay(date), name);
    i :| NamesAt(year, i, KeyDay(date), name);
    HolidayIsCivil(year, i);
    SameDaySameDate(MarketHolidaysForYear(year)[i].date, date);
  }

  lemma SameDaySameDate(a: CivilDate, b: CivilDate)
    requires IsCivil(a) && IsCivil(b) && KeyDay(a) == KeyDay(b)
    ensures a == b
  {
    hide Civil, YearStart, DaysBeforeMonth;
    CivilRoundTrip(a);
    CivilRoundTrip(b);
  }

  lemma FoundIsHoliday(date: CivilDate, year: nat, name: string)
    requires IsCivil(date) && date.year >= 0 && IsCandidate(date, year)
    requires FindKey(EntriesFor(Some(year)), DateKey(date)) == Some(name)
    ensures IsHolidayNamed(date, name)
  {
    hide MarketHolidaysForYear, Listed;
    var i :| 0 <= i < 10 && EntriesFor(Some(year))[i] == Entry(DateKey(date), name);
    ListedName(year, i);
    ListedDate(year, i, date);
    if year < 100 {
      EarlyList(year, i);
      assert false;
    }
    assert NamesAt(year, i, KeyDay(date), name);
    ListIsCelebrated(year, KeyDay(date), name);
  }

  lemma ListedName(year: nat, i: nat)
    requires i < 10
    ensures Listed(MarketHolidaysForYear(year)[i]).name == MarketHolidaysForYear(year)[i].name
  {
  }

  lemma HolidayIsFound(date: CivilDate)
    requires IsCivil(date) && date.year >= 0 && InRange(KeyDay(date)) && IsHoliday(date)
    ensures exists year: nat :: IsCandidate(date, year) && date.year <= year &&
                                FindKey(EntriesFor(Some(year)), DateKey(date)).Some?
  {
    hide MarketHolidaysForYear, Listed, KeyDay, YearStart, YearOf, IsCivil, Civil, Celebrated;
    var year, i := HolidayEntry(date);
    HolidayYear(year, i);
    NoHolidayBefore100(year, i);
    NotBefore100(date);
    ListedInRange(year, i);
    assert EntriesFor(Some(year))[i].key == DateKey(date);
    assert IsCandidate(date, year);
  }

  lemma NotBefore100(date: CivilDate)
    requires IsCivil(date)
    ensures KeyDay(date) >= YearStart(100) <==> date.year >= 100
  {
    hide YearStart, KeyDay, YearOf;
    DateYear(date);
    if date.year < 100 {
      YearStartMonotone(date.year + 1, 100);
    } else {
      YearStartMonotone(100, date.year);
    }
  }

  lemma ParsedYear(key: Key)
    requires IsKey(key) && DateFromKey(key).Some?
    ensures YearOf(DateFromKey(key).value) >= 99
    ensures key.DateKey? ==> ParsesTo(key.date, YearOf(DateFromKey(key).value))
  {
    hide YearStart, YearOf, DaysBeforeMonth, IsLeap;
    var day := DateFromKey(key).value;
    match key
    case DateKey(date) =>
      DayOfYear(date.year, date.month, date.day);
    case OtherKey(fields) =>
      EarliestParsed(fields.value.0, fields.value.1, fields.value.2);
      FirstYear();
      if YearOf(day) < 99 {
        YearStartMonotone(YearOf(day) + 1, 99);
      }
  }

  /** A date read in a year moved by 1900 falls in that year. */
  lemma DayOfYear(year: nat, month: int, day: int)
    requires IsCivil(CivilDate(year, month, day))
    ensures YearOf(Utc(year, month, day)) == if year <= 99 then year + 1900 else year
  {
    hide YearOf, YearStart;
    var y := if year <= 99 then year + 1900 else year;
    YearLength(y);
    assert day <= 31 && 0 <= DaysBeforeMonth(y, month) && DaysBeforeMonth(y, month) + 31 <= DaysBeforeMonth(y, 13);
    YearOfUnique(Utc(year, month, day), y);
  }

  lemma EarliestParsed(year: nat, month: nat, day: nat)
    ensures UtcCarried(year, month, day) >= YearStart(100) - 32
  {
    hide YearStart;
    var y := (if year <= 99 then year + 1900 else year) + (month - 1) / 12;
    YearLength(99);
    if y < 100 {
      assert y == 99 && month == 0;
    } else {
      YearStartMonotone(100, y);
      MonthOrder(y, 1, (month - 1) % 12 + 1);
    }
  }

  lemma KeyInRange(date: CivilDate)
    requires IsKey(DateKey(date))
    ensures InRange(KeyDay(date)) <==> DateFromKey(DateKey(date)).Some?
    ensures DateFromKey(DateKey(date)).Some? && date.year >= 100 ==> DateFromKey(DateKey(date)).value == KeyDay(date)
  {
    hide YearStart, YearOf;
    if date.year < 100 {
      DateYear(date);
      YearStartMonotone(0, date.year);
      YearStartMonotone(date.year + 1, 100);
      assert -MAX_DAY < YearStart(0) && YearStart(100) < MAX_DAY && -MAX_DAY < YearStart(1900) &&
          YearStart(2000) < MAX_DAY by {
        YearsInRange();
      }
      DayOfYear(date.year, date.month, date.day);
      YearStartMonotone(1900, date.year + 1900);
      YearStartMonotone(date.year + 1901, 2000);
    }
  }

  lemma YearsInRange()
    ensures -MAX_DAY < YearStart(0) && YearStart(100) < MAX_DAY && -MAX_DAY < YearStart(1900) &&
            YearStart(2000) < MAX_DAY
  {
  }

  lemma FoundName(key: Key, candidate: Option<nat>, name: string)
    requires IsKey(key) && FindKey(EntriesFor(candidate), key) == Some(name)
    requires candidate.Some? <==> DateFromKey(key).Some?
    requires candidate.Some? && key.DateKey? ==> IsCandidate(key.date, candidate.value)
    ensures key.DateKey? ==> InRange(KeyDay(key.date)) && IsHolidayNamed(key.date, name)
    ensures key.NaNKey? ==> name == "New Year's Day observed"
    ensures !key.OtherKey?
  {
    hide YearStart, YearOf, DaysBeforeMonth, IsHolidayNamed, FindKey, EntriesFor, KeyDay, IsCandidate, DateFromKey;
    if candidate.None? {
      FoundInNaNList(key, name);
      NaNIsInvalid();
    } else {
      FoundInList(key, candidate.value, name);
      NaNIsInvalid();
      if key.DateKey? {
        KeyInRange(key.date);
        FoundIsHoliday(key.date, candidate.value, name);
      }
    }
  }

  lemma FoundInNaNList(key: Key, name: string)
    requires FindKey(EntriesFor(None), key) == Some(name)
    ensures key.NaNKey? && name == "New Year's Day observed"
  {
    hide FindKey, EntriesOfNaN;
    NaNEntries();
    FindFirst(EntriesOfNaN(), NaNKey);
  }

  lemma NaNEntries()
    ensures EntriesOfNaN()[0] == Entry(NaNKey, "New Year's Day observed")
    ensures forall i :: 0 <= i < 10 ==> EntriesOfNaN()[i].key == NaNKey
  {
  }

  lemma FindFirst(list: seq<Entry>, key: Key)
    requires list != [] && list[0].key == key
    ensures FindKey(list, key) == Some(list[0].name)
  {
  }

  lemma FoundInList(key: Key, year: nat, name: string)
    requires FindKey(EntriesFor(Some(year)), key) == Some(name)
    ensures !key.OtherKey?
  {
    hide MarketHolidaysForYear, FindKey;
  }

  lemma NaNIsFound()
    ensures FindKey(EntriesFor(None), NaNKey).Some?
  {
    assert EntriesOfNaN()[0].key == NaNKey;
  }

  lemma NaNIsInvalid()
    ensures DateFromKey(NaNKey) == None
  {
  }

  /** No list of the three candidate years, or of year NaN, has the key. */
  ghost predicate SearchedInVain(key: Key, candidates: seq<Option<nat>>)
    requires IsKey(key)
  {
    && |candidates| == 3 && (forall c :: 0 <= c < 3 ==> FindKey(EntriesFor(candidates[c]), key).None?)
    && (if DateFromKey(key).None? then candidates[0] == None
        else
          var year := YearOf(DateFromKey(key).value);
          year >= 1 && candidates == [Some(year - 1), Some(year), Some(year + 1)])
    && (DateFromKey(key).Some? && key.DateKey? ==> ParsesTo(key.date, YearOf(DateFromKey(key).value)))
  }

  lemma NothingFound(key: Key, candidates: seq<Option<nat>>)
    requires IsKey(key) && SearchedInVain(key, candidates)
    ensures !key.NaNKey?
    ensures key.DateKey? ==> !InRange(KeyDay(key.date)) || !IsHoliday(key.date)
  {
    hide YearStart, YearOf, DaysBeforeMonth, IsHoliday, EntriesFor, FindKey, KeyDay, IsCivil, DateFromKey;
    NaNIsFound();
    NaNIsInvalid();
    if key.DateKey? && InRange(KeyDay(key.date)) && IsHoliday(key.date) {
      KeyInRange(key.date);
      forall year: nat | IsCandidate(key.date, year) ensures FindKey(EntriesFor(Some(year)), key).None? {
        assert Some(year) in candidates;
      }
      HolidayIsFound(key.date);
    }
  }

  /** The name of a date in range that some year's list holds. Other keys have none, save for the key
      of the invalid date, which every entry of year NaN has. */
  method MarketHolidayName(key: Key) returns (name: Option<string>)
    requires IsKey(key)
    ensures key.DateKey? && name.Some? ==> InRange(KeyDay(key.date)) && IsHolidayNamed(key.date, name.value)
    ensures key.DateKey? && name.None? ==> !InRange(KeyDay(key.date)) || !IsHoliday(key.date)
    ensures key.NaNKey? ==> name == Some("New Year's Day observed")
    ensures key.OtherKey? ==> name == None
  {
    hide EntriesFor, YearOf, YearStart, KeyDay, IsHolidayNamed;
    var date := DateFromKey(key);
    var candidates: seq<Option<nat>> := [None, None, None];
    if date.Some? {
      ParsedYear(key);
      var year := YearOf(date.value);
      candidates := [Some(year - 1), Some(year), Some(year + 1)];
    }
    var c := 0;
    while c < |candidates|
      invariant 0 <= c <= |candidates|
      invariant forall b :: 0 <= b < c ==> FindKey(EntriesFor(candidates[b]), key).None?
    {
      var holiday := FindKey(EntriesFor(candidates[c]), key);
      if holiday.Some? {
        FoundName(key, candidates[c], holiday.value);
        return holiday;
      }
      c := c + 1;
    }
    NothingFound(key, candidates);
    return None;
  }

  // ---------------------------------------------------------------- trading days

  ghost predicate IsClosed(day: int) {
    Weekday(day) == 0 || Weekday(day) == 6 || IsHoliday(Civil(day))
  }

  predicate IsWeekend(date: Option<int>) {
    date.Some? && (Weekday(date.value) == 0 || Weekday(date.value) == 6)
  }

  /** What `isWeekendOrKnownHoliday` says of a key: the weekday is that of the date it is read as. */
  ghost predicate IsClosedKey(key: Key)
    requires IsKey(key)
  {
    IsWeekend(DateFromKey(key)) || key.NaNKey? ||
    (key.DateKey? && InRange(KeyDay(key.date)) && IsHoliday(key.date))
  }

  method IsWeekendOrKnownHoliday(key: Key) returns (closed: bool)
    requires IsKey(key)
    ensures closed <==> IsClosedKey(key)
  {
    hide YearOf, YearStart, Weekday, KeyDay, IsHolidayNamed;
    var date := DateFromKey(key);
    var name := MarketHolidayName(key);
    if key.DateKey? && name.Some? {
      assert IsHoliday(key.date);
    }
    return (date.Some? && (Weekday(date.value) == 0 || Weekday(date.value) == 6)) || name.Some?;
  }

  /** A holiday that some year lists, by its place in the list. */
  lemma HolidayPlace(day: int) returns (year: nat, i: nat)
    requires IsHoliday(Civil(day))
    ensures year >= 100 && i < 10 && HolidayDay(year, i) == day
  {
    hide MarketHolidaysForYear, Civil, KeyDay, IsHoliday;
    DayIsCivil(day);
    year, i := HolidayEntry(Civil(day));
    KeyDayOfCivil(day);
  }

  /** Two weekdays less than a week apart are not both holidays. */
  lemma HolidaysDoNotCluster(day: int, other: int)
    requires 0 < other - day < 7 && IsHoliday(Civil(day))
    ensures !IsHoliday(Civil(other))
  {
    hide HolidayDay, IsHoliday, Civil;
    if IsHoliday(Civil(other)) {
      var y, i := HolidayPlace(day);
      var z, j := HolidayPlace(other);
      HolidaysAreAWeekApart(y, i, z, j);
    }
  }

  /** Among any four consecutive days one is a trading day. */
  lemma TradingDayWithinFour(first: int)
    ensures exists day :: first <= day < first + 4 && !IsClosed(day)
  {
    hide *;
    var a, b := TwoWeekdays(first);
    WeekdayIsClosedForHoliday(first + a);
    WeekdayIsClosedForHoliday(first + b);
    if IsHoliday(Civil(first + a)) {
      HolidaysDoNotCluster(first + a, first + b);
    }
  }

  lemma WeekdayIsClosedForHoliday(day: int)
    requires 1 <= Weekday(day) <= 5
    ensures IsClosed(day) <==> IsHoliday(Civil(day))
  {
    hide Weekday, Civil, IsHoliday;
  }

  /** At least two of four consecutive days are not a Saturday or a Sunday. */
  lemma TwoWeekdays(first: int) returns (a: int, b: int)
    ensures 0 <= a < b < 4 && 1 <= Weekday(first + a) <= 5 && 1 <= Weekday(first + b) <= 5
  {
    var w := Weekday(first);
    a := if w == 0 then 1 else if w == 6 then 2 else 0;
    b := if w == 0 then 2 else if w >= 5 then 3 else 1;
    WeekdayShift(first, a);
    WeekdayShift(first, b);
  }

  // ---------------------------------------------------------------- the search

  ghost predicate IsClosedDay(day: int)
    requires Civil(day).year >= 0
  {
    IsClosedKey(DateKey(Civil(day)))
  }

  lemma YearAtLeast(day: int, year: int)
    requires YearStart(year) <= day
    ensures Civil(day).year >= year
  {
    hide YearStart;
    if YearOf(day) < year {
      YearStartMonotone(YearOf(day) + 1, year);
    }
  }

  /** From the year 100 on a key is read as its own date. */
  lemma ClosedDayIsClosed(day: int)
    requires YearStart(100) <= day <= MAX_DAY
    ensures Civil(day).year >= 100 && (IsClosedDay(day) <==> IsClosed(day))
  {
    hide Civil, YearStart, YearOf, Weekday, IsHoliday;
    YearAtLeast(day, 100);
    FirstYear();
    KeyDayOfCivil(day);
    KeyInRange(Civil(day));
  }

  /** A key of the year 99 is read as the same day of 1999. */
  lemma ClosedDayOf99(day: int)
    requires YearStart(99) <= day < YearStart(100)
    ensures Civil(day).year == 99
    ensures IsClosedDay(day) <==> IsWeekend(Some(day + YearStart(1999) - YearStart(99)))
  {
    hide Civil, YearStart, YearOf, Weekday, IsHoliday;
    YearOfUnique(day, 99);
    var date := Civil(day);
    CivilYear(day);
    KeyDayOfCivil(day);
    assert date.year == 99;
    assert !IsLeap(99) && !IsLeap(1999);
    assert Utc(99, date.month, date.day) == day + YearStart(1999) - YearStart(99);
    assert InRange(Utc(99, date.month, date.day)) by {
      YearsAround();
    }
    if IsHoliday(date) {
      NoHolidayIn99(date);
    }
  }

  lemma CivilYear(day: int)
    ensures Civil(day).year == YearOf(day)
  {
  }

  lemma YearsAround()
    ensures -MAX_DAY < YearStart(1999) < YearStart(1999) + 366 < MAX_DAY && YearStart(100) == YearStart(99) + 365
  {
  }

  lemma NoHolidayIn99(date: CivilDate)
    requires IsCivil(date) && IsHoliday(date)
    ensures date.year >= 100
  {
    hide MarketHolidaysForYear, KeyDay, YearStart, IsCivil, IsHoliday;
    var year, i := HolidayEntry(date);
    NoHolidayBefore100(year, i);
    NotBefore100(date);
  }

  /** Of three days of the year 99 one is read as a weekday. */
  lemma OpenIn99(first: int)
    requires YearStart(99) <= first && first + 3 <= YearStart(100)
    ensures exists day :: first <= day < first + 3 && Civil(day).year >= 0 && !IsClosedDay(day)
  {
    hide Civil, YearStart, IsClosedDay;
    var moved := first + YearStart(1999) - YearStart(99);
    WeekdayShift(moved, 1);
    WeekdayShift(moved, 2);
    ClosedDayOf99(first);
    ClosedDayOf99(first + 1);
    ClosedDayOf99(first + 2);
    var k := if IsWeekend(Some(moved)) then (if IsWeekend(Some(moved + 1)) then 2 else 1) else 0;
    assert !IsWeekend(Some(moved + k));
    assert !IsClosedDay(first + k);
  }

  /** The days just before a parsed date: one of seven is open, and from the year 100 on one of four. */
  lemma OpenBefore(start: int)
    requires YearStart(100) - 32 <= start <= MAX_DAY
    ensures exists day :: start - 7 <= day < start && Civil(day).year >= 0 && !IsClosedDay(day)
    ensures start - 4 >= YearStart(100) ==>
              exists day :: start - 4 <= day < start && Civil(day).year >= 0 && !IsClosedDay(day)
  {
    hide Civil, YearStart, IsClosedDay, IsClosed;
    FirstYear();
    if start - 4 >= YearStart(100) {
      TradingDayWithinFour(start - 4);
      var day :| start - 4 <= day < start && !IsClosed(day);
      ClosedDayIsClosed(day);
    } else {
      OpenIn99(start - 7);
    }
  }

  /** The date after n steps back. */
  function Back(date: Option<int>, n: nat): Option<int> {
    if n == 0 then date else AddDays(Back(date, n - 1), -1)
  }

  lemma {:induction false} BackInRange(day: int, n: nat)
    requires InRange(day) && InRange(day - n)
    ensures Back(Some(day), n) == Some(day - n)
  {
    if n > 0 {
      BackInRange(day, n - 1);
    }
  }

  lemma {:induction false} BackFromInvalid(n: nat)
    ensures Back(None, n) == None
  {
    if n > 0 {
      BackFromInvalid(n - 1);
    }
  }

  lemma ParsedDay(key: Key)
    requires IsKey(key) && DateFromKey(key).Some?
    ensures YearStart(100) - 32 <= DateFromKey(key).value <= MAX_DAY
  {
    hide YearStart, YearOf, DaysBeforeMonth, IsLeap;
    match key
    case DateKey(date) =>
      DayOfYear(date.year, date.month, date.day);
      YearStartMonotone(100, YearOf(DateFromKey(key).value));
    case OtherKey(fields) => EarliestParsed(fields.value.0, fields.value.1, fields.value.2);
  }

  lemma KeyOfIsKey(date: Option<int>)
    requires date.Some? ==> YearStart(99) <= date.value
    ensures IsKey(KeyOf(date))
  {
    if date.Some? {
      YearAtLeast(date.value, 99);
    }
  }

  lemma ValidSearchEnds(localDate: Key) returns (n: nat)
    requires IsKey(localDate) && DateFromKey(localDate).Some?
    ensures n >= 1 && IsOpenStep(localDate, n)
  {
    hide YearStart, DateFromKey, IsClosedKey, Civil;
    var start := DateFromKey(localDate).value;
    ParsedDay(localDate);
    FirstYear();
    OpenBefore(start);
    var day :| start - 7 <= day < start && Civil(day).year >= 0 && !IsClosedDay(day);
    n := start - day;
    BackInRange(start, n);
    KeyOfIsKey(Some(day));
  }

  lemma InvalidSearchRuns(localDate: Key, n: nat)
    requires IsKey(localDate) && DateFromKey(localDate).None?
    ensures !IsOpenStep(localDate, n)
  {
    BackFromInvalid(n);
    InvalidIsClosed();
  }

  /** The search from a key ends exactly if the key is a valid date: otherwise every step is the
      invalid date, which counts as a holiday. */
  lemma SearchEnds(localDate: Key)
    requires IsKey(localDate)
    ensures (exists n: nat :: n >= 1 && IsOpenStep(localDate, n)) <==> DateFromKey(localDate).Some?
  {
    hide *;
    if DateFromKey(localDate).Some? {
      var n := ValidSearchEnds(localDate);
    } else {
      forall n: nat ensures !IsOpenStep(localDate, n) {
        InvalidSearchRuns(localDate, n);
      }
    }
  }

  lemma InvalidIsClosed()
    ensures IsClosedKey(NaNKey)
  {
  }

  /** The n-th step of the search from a key is not a weekend day or known holiday. */
  ghost predicate IsOpenStep(localDate: Key, n: nat)
    requires IsKey(localDate)
  {
    var key := KeyOf(Back(DateFromKey(localDate), n));
    IsKey(key) && !IsClosedKey(key)
  }

  /** The latest open day strictly before a valid date. From the year 100 on, keys are read as their
      own dates: the result is the latest trading day, at most four days back. */
  method LastTradingDay(localDate: Key) returns (result: Key)
    requires IsKey(localDate) && DateFromKey(localDate).Some?
    ensures result.DateKey? && IsKey(result) && !IsClosedKey(result)
    ensures var start, end := DateFromKey(localDate).value, KeyDay(result.date);
            && start - 7 <= end < start && InRange(end)
            && (forall day :: end < day < start ==> Civil(day).year >= 0 && IsClosedDay(day))
            && (start - 4 >= YearStart(100) ==>
                  start - 4 <= end && !IsClosed(end) && forall day :: end < day < start ==> IsClosed(day))
  {
    hide IsClosed, IsClosedKey, IsClosedDay, YearOf, Civil, YearStart, DaysBeforeMonth, IsLeap, DateFromKey, KeyDay;
    ghost var start := DateFromKey(localDate).value;
    ParsedDay(localDate);
    FirstYear();
    OpenBefore(start);
    var cursor := AddDays(DateFromKey(localDate), -1);
    StepKey(cursor);
    var closed := IsWeekendOrKnownHoliday(KeyOf(cursor));
    while closed
      invariant cursor.Some? && start - 7 <= cursor.value < start
      invariant Civil(cursor.value).year >= 0 && (closed <==> IsClosedDay(cursor.value))
      invariant forall day :: cursor.value < day < start ==> Civil(day).year >= 0 && IsClosedDay(day)
      decreases cursor.value - start + 7
    {
      cursor := AddDays(cursor, -1);
      StepKey(cursor);
      closed := IsWeekendOrKnownHoliday(KeyOf(cursor));
    }
    StepKey(cursor);
    if start - 4 >= YearStart(100) {
      ResultIsTradingDay(start, cursor.value);
    }
    return KeyOf(cursor);
  }

  lemma StepKey(cursor: Option<int>)
    requires cursor.Some? && YearStart(99) <= cursor.value
    ensures IsKey(KeyOf(cursor)) && Civil(cursor.value).year >= 0
    ensures IsClosedKey(KeyOf(cursor)) <==> IsClosedDay(cursor.value)
    ensures KeyDay(KeyOf(cursor).date) == cursor.value
  {
    hide YearStart, Civil, DateFromKey, IsHoliday;
    YearAtLeast(cursor.value, 99);
    KeyDayOfCivil(cursor.value);
  }

  lemma ResultIsTradingDay(start: int, end: int)
    requires YearStart(100) <= start - 4 && start <= MAX_DAY && start - 7 <= end < start
    requires Civil(end).year >= 0 && !IsClosedDay(end)
    requires forall day :: end < day < start ==> Civil(day).year >= 0 && IsClosedDay(day)
    ensures start - 4 <= end && !IsClosed(end) && forall day :: end < day < start ==> IsClosed(day)
  {
    hide YearStart, Civil, IsClosedDay, IsClosed;
    OpenBefore(start);
    var open :| start - 4 <= open < start && Civil(open).year >= 0 && !IsClosedDay(open);
    ClosedDayIsClosed(end);
    forall day | end < day < start ensures IsClosed(day) {
      ClosedDayIsClosed(day);
    }
  }
}
