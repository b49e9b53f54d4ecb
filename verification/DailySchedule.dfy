// The next report time of src/market-state/daily-report.ts. Instants are milliseconds
// since 1970-01-01 UTC; a zone is its offset from UTC as a function of the instant.
module DailySchedule {
  import opened CivilDates
  import opened Options

  const DAY_MS: int := 86_400_000
  const HOUR_MS: int := 3_600_000
  const MINUTE_MS: int := 60_000

  type Zone = int -> int

  /** A zone without clock changes. */
  function Fixed(offset: int): Zone {
    _ => offset
  }

  /** `Date.UTC` with a time of day. */
  function UtcInstant(date: CivilDate, timeOfDay: int): int
    requires 1 <= date.month <= 12
  {
    Utc(date.year, date.month, date.day) * DAY_MS + timeOfDay
  }

  function LocalDay(zone: Zone, instant: int): int {
    (instant + zone(instant)) / DAY_MS
  }

  /** What a clock in the zone shows, in milliseconds after local midnight. */
  function LocalTime(zone: Zone, instant: int): int {
    (instant + zone(instant)) % DAY_MS
  }

  function ZonedDateParts(zone: Zone, instant: int): (date: CivilDate)
    ensures 1 <= date.month <= 12
  {
    Civil(LocalDay(zone, instant))
  }

  /** The offset is looked up as if the wall time were UTC. */
  function ZonedTimeToUtc(date: CivilDate, timeOfDay: int, zone: Zone): int
    requires 1 <= date.month <= 12
  {
    var naiveUtc := UtcInstant(date, timeOfDay);
    naiveUtc - zone(naiveUtc)
  }

  predicate ValidLocalTime(hour: int, minute: int) {
    0 <= hour <= 23 && 0 <= minute <= 59
  }

  function TimeOfDay(hour: int, minute: int): int {
    hour * HOUR_MS + minute * MINUTE_MS
  }

  /** Noon UTC of the day after the local date. */
  function NoonOfTomorrow(today: CivilDate): int
    requires 1 <= today.month <= 12
  {
    UtcInstant(CivilDate(today.year, today.month, today.day + 1), 12 * HOUR_MS)
  }

  function NextRun(zone: Zone, hour: int, minute: int, now: int): int {
    var today := ZonedDateParts(zone, now);
    var candidate := ZonedTimeToUtc(today, TimeOfDay(hour, minute), zone);
    if candidate <= now then ZonedTimeToUtc(ZonedDateParts(zone, NoonOfTomorrow(today)), TimeOfDay(hour, minute), zone)
    else candidate
  }

  /** None is the thrown "Invalid report local_time". */
  method NextDailyReportRunAt(zone: Zone, hour: int, minute: int, now: int) returns (next: Option<int>)
    ensures next == if ValidLocalTime(hour, minute) then Some(NextRun(zone, hour, minute, now)) else None
  {
    if hour < 0 || hour > 23 || minute < 0 || minute > 59 {
      return None;
    }
    var today := ZonedDateParts(zone, now);
    var candidate := ZonedTimeToUtc(today, TimeOfDay(hour, minute), zone);
    if candidate <= now {
      var tomorrow := NoonOfTomorrow(today);
      candidate := ZonedTimeToUtc(ZonedDateParts(zone, tomorrow), TimeOfDay(hour, minute), zone);
    }
    return Some(candidate);
  }

  /** From the year 100 on, reading an instant as a date and back keeps the day. */
  predicate Covered(day: int) {
    YearOf(day) >= 100
  }

  lemma CivilInstant(day: int, timeOfDay: int)
    requires Covered(day)
    ensures UtcInstant(Civil(day), timeOfDay) == day * DAY_MS + timeOfDay
    ensures NoonOfTomorrow(Civil(day)) == (day + 1) * DAY_MS + 12 * HOUR_MS
  {
    var date := Civil(day);
    YearLength(date.year);
    MonthOrder(date.year, 1, date.month);
    MonthOrder(date.year, date.month + 1, 13);
    YearOfUnique(day, date.year);
    assert Utc(date.year, date.month, date.day + 1) == day + 1;
  }

  /** The candidate of a local day, in a zone of fixed offset. */
  function Slot(day: int, timeOfDay: int, offset: int): int {
    day * DAY_MS + timeOfDay - offset
  }

  lemma DayOf(x: int, day: int, rest: int)
    requires x == day * DAY_MS + rest && 0 <= rest < DAY_MS
    ensures x / DAY_MS == day && x % DAY_MS == rest
  {
  }

  /** By how many days noon UTC of the next date misses the next local day. */
  function Shift(offset: int): int {
    if offset >= 12 * HOUR_MS then 1 else if offset < -12 * HOUR_MS then -1 else 0
  }

  lemma ZonedSlot(day: int, time: int, offset: int)
    requires Covered(day)
    ensures ZonedTimeToUtc(Civil(day), time, Fixed(offset)) == Slot(day, time, offset)
  {
    CivilInstant(day, time);
    hide Civil, UtcInstant;
  }

  lemma TomorrowDay(day: int, offset: int)
    requires Covered(day) && -DAY_MS < offset < DAY_MS
    ensures LocalDay(Fixed(offset), NoonOfTomorrow(Civil(day))) == day + 1 + Shift(offset)
  {
    CivilInstant(day, 0);
    TomorrowAtNoon(day, offset);
    hide Civil, UtcInstant, NoonOfTomorrow;
  }

  /** The run time in a fixed zone, with the local day the code takes for tomorrow. */
  lemma FixedZoneRun(offset: int, hour: int, minute: int, now: int, today: int)
    requires -DAY_MS < offset < DAY_MS && today == LocalDay(Fixed(offset), now)
    requires Covered(today) && Covered(today + 1 + Shift(offset))
    ensures var slot := Slot(today, TimeOfDay(hour, minute), offset);
            NextRun(Fixed(offset), hour, minute, now)
            == if slot > now then slot else Slot(today + 1 + Shift(offset), TimeOfDay(hour, minute), offset)
  {
    hide Civil, UtcInstant, NoonOfTomorrow, TimeOfDay, Covered, LocalDay, Slot, Shift, ZonedTimeToUtc;
    ZonedSlot(today, TimeOfDay(hour, minute), offset);
    ZonedSlot(today + 1 + Shift(offset), TimeOfDay(hour, minute), offset);
    TomorrowDay(today, offset);
  }

  /** The local day at noon UTC of the next date. */
  lemma TomorrowAtNoon(today: int, offset: int)
    requires -DAY_MS < offset < DAY_MS
    ensures ((today + 1) * DAY_MS + 12 * HOUR_MS + offset) / DAY_MS
            == today + 1 + Shift(offset)
  {
    var shift := Shift(offset);
    DayOf((today + 1) * DAY_MS + 12 * HOUR_MS + offset, today + 1 + shift, 12 * HOUR_MS + offset - shift * DAY_MS);
  }

  /** The wall clock of the zone shows this hour and minute, and no seconds. */
  predicate ClockShows(zone: Zone, instant: int, hour: int, minute: int) {
    var time := (instant + zone(instant)) % 86_400_000;
    time / 3_600_000 == hour && time % 3_600_000 / 60_000 == minute && time % 60_000 == 0
  }

  /** The requested time is later in the day than the wall clock's. */
  predicate StillAhead(zone: Zone, now: int, hour: int, minute: int) {
    var seconds := (now + zone(now)) % 86_400_000 / 1_000;
    seconds / 3_600 < hour || (seconds / 3_600 == hour && seconds % 3_600 / 60 < minute)
  }

  lemma OnTheClock(zone: Zone, instant: int, hour: int, minute: int)
    requires ValidLocalTime(hour, minute)
    ensures ClockShows(zone, instant, hour, minute) <==> LocalTime(zone, instant) == TimeOfDay(hour, minute)
  {
    Digits(hour, minute, LocalTime(zone, instant));
  }

  /** A time of day is its hours, minutes and the rest. */
  lemma Digits(hour: int, minute: int, time: int)
    requires ValidLocalTime(hour, minute)
    ensures time / 3_600_000 == hour && time % 3_600_000 / 60_000 == minute && time % 60_000 == 0
            <==> time == hour * 3_600_000 + minute * 60_000
  {
    if time == hour * 3_600_000 + minute * 60_000 {
      assert time == (60 * hour + minute) * 60_000;
    }
  }

  /** A time is accepted exactly if some clock can show it. */
  lemma ValidTimesAreShown(hour: int, minute: int)
    ensures ValidLocalTime(hour, minute) <==> exists zone, instant :: ClockShows(zone, instant, hour, minute)
  {
    if ValidLocalTime(hour, minute) {
      var time := hour * 3_600_000 + minute * 60_000;
      Digits(hour, minute, time);
      DayOf(time, 0, time);
      assert ClockShows(Fixed(0), time, hour, minute);
    }
    forall zone, instant | ClockShows(zone, instant, hour, minute) ensures ValidLocalTime(hour, minute) {
      assert 0 <= (instant + zone(instant)) % 86_400_000 < 86_400_000;
    }
  }

  lemma AheadOnTheClock(zone: Zone, now: int, hour: int, minute: int)
    requires ValidLocalTime(hour, minute)
    ensures StillAhead(zone, now, hour, minute) <==> LocalTime(zone, now) < TimeOfDay(hour, minute)
  {
  }

  /** The report time is strictly after now and at most a day later exactly when today's time is
      still ahead or the zone lies in [-12:00, +12:00): noon UTC of the next date is the next local
      day only there. In every fixed zone it reads as the requested local time. */
  lemma NextRunIsWithinADay(offset: int, hour: int, minute: int, now: int)
    requires ValidLocalTime(hour, minute) && -DAY_MS < offset < DAY_MS
    requires var today := LocalDay(Fixed(offset), now); Covered(today) && Covered(today + 1 + Shift(offset))
    ensures var next := NextRun(Fixed(offset), hour, minute, now);
            var zone := Fixed(offset);
            (now < next <= now + 86_400_000
             <==> StillAhead(zone, now, hour, minute) || -43_200_000 <= offset < 43_200_000) &&
            ClockShows(zone, next, hour, minute)
  {
    hide NextRun, Covered, StillAhead, ClockShows;
    AheadOnTheClock(Fixed(offset), now, hour, minute);
    OnTheClock(Fixed(offset), NextRun(Fixed(offset), hour, minute, now), hour, minute);
    var today := LocalDay(Fixed(offset), now);
    var time := TimeOfDay(hour, minute);
    var next := NextRun(Fixed(offset), hour, minute, now);
    FixedZoneRun(offset, hour, minute, now, today);
    DayOf(now + offset, today, (now + offset) % DAY_MS);
    if Slot(today, time, offset) > now {
      DayOf(next + offset, today, time);
    } else {
      DayOf(next + offset, today + 1 + Shift(offset), time);
    }
  }

  /** In a zone whose offset changes, the result reads as the requested time exactly when the offset
      looked up at the wall time is the one in force at the result, whole days apart aside. */
  lemma ReadsAsRequested(zone: Zone, date: CivilDate, hour: int, minute: int)
    requires 1 <= date.month <= 12 && ValidLocalTime(hour, minute)
    ensures var naive := UtcInstant(date, TimeOfDay(hour, minute));
            var result := ZonedTimeToUtc(date, TimeOfDay(hour, minute), zone);
            var drift := zone(result) - zone(naive);
            (ClockShows(zone, result, hour, minute) <==> drift % DAY_MS == 0) &&
            (-DAY_MS < drift < DAY_MS ==> (ClockShows(zone, result, hour, minute) <==> zone(result) == zone(naive)))
  {
    var time := TimeOfDay(hour, minute);
    var naive := UtcInstant(date, time);
    var result := naive - zone(naive);
    var drift := zone(result) - zone(naive);
    var day := Utc(date.year, date.month, date.day);
    OnTheClock(zone, result, hour, minute);
    hide Utc, ClockShows;
    var days, rest := drift / DAY_MS, drift % DAY_MS;
    if time + rest >= DAY_MS {
      DayOf(result + zone(result), day + days + 1, time + rest - DAY_MS);
    } else {
      DayOf(result + zone(result), day + days, time + rest);
    }
  }
}
