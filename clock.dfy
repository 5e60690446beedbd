/** Time as the screens and schedulers use it: a JavaScript `Date` reduced to
    its millisecond time value. Local time is taken to coincide with the time
    value (no time zone offset, no daylight-saving change), so a calendar day
    is always `DayMs` long. */
module Clock {

  const SecondMs: int := 1000
  const MinuteMs: int := 60 * SecondMs
  const HourMs: int := 60 * MinuteMs
  const DayMs: int := 24 * HourMs

  /** Midnight at the start of the day that holds `t`. */
  function StartOfDay(t: int): (r: int)
    ensures r <= t < r + DayMs
    ensures r % DayMs == 0
  {
    t - t % DayMs
  }

  /** The instant `setHours(hour, minute, 0, 0)` gives on the day of `now`;
      out-of-range hours and minutes carry into neighbouring days, as in
      JavaScript. */
  function TodayAt(now: int, hour: int, minute: int): int
  {
    StartOfDay(now) + hour * HourMs + minute * MinuteMs
  }

  predicate IsClockTime(hour: int, minute: int)
  {
    0 <= hour < 24 && 0 <= minute < 60
  }

  /** For a valid wall-clock time, `TodayAt` lies on the day of `now`. */
  lemma TodayAtSameDay(now: int, hour: int, minute: int)
    requires IsClockTime(hour, minute)
    ensures StartOfDay(now) <= TodayAt(now, hour, minute) < StartOfDay(now) + DayMs
    ensures TodayAt(now, hour, minute) - DayMs < now
  {
  }

  class Date {
    var time: int

    constructor (time: int)
      ensures this.time == time
    {
      this.time := time;
    }

    /** `date.setHours(hour, minute, second, ms)` */
    method SetHours(hour: int, minute: int, second: int, ms: int)
      modifies this
      ensures time == StartOfDay(old(time)) + hour * HourMs + minute * MinuteMs + second * SecondMs + ms
    {
      time := StartOfDay(time) + hour * HourMs + minute * MinuteMs + second * SecondMs + ms;
    }

    /** `date.setDate(date.getDate() + days)`: without daylight-saving changes,
        moving the day of the month moves the time by whole days. */
    method AddDays(days: int)
      modifies this
      ensures time == old(time) + days * DayMs
    {
      time := time + days * DayMs;
    }
  }
}
