/** The second, local notification helper: a mutable content table, the
    choice of trigger (a delay derived from a date, a repeating interval, or
    none), and the daily and one-time helpers built on it. Every request is
    scheduled twice. */
module LocalNotifications {
  import opened Common
  import opened Clock
  import N = Notifications

  /** The notification kinds this helper accepts. */
  const Kinds: set<string> := {"daily-checkin", "mood-check", "meditation", "breathing", "motivation"}

  const InitialContent: map<string, N.Content> := map[
    "daily-checkin" := N.Content("How are you today?", "Take a moment to check in with yourself."),
    "mood-check" := N.Content("Mood Check", "Let's check how you're feeling."),
    "meditation" := N.Content("Meditation Time", "Take a moment to meditate and find your center."),
    "breathing" := N.Content("Breathing Exercise", "Time for a quick breathing exercise."),
    "motivation" := N.Content("Daily Inspiration", "Remember your strength and resilience.")
  ]

  const MotivationalQuotes: seq<string> := [
    "Your compassion makes a difference every day.",
    "Take care of yourself as well as you take care of others.",
    "You have the strength to handle today.",
    "Small steps lead to big changes.",
    "Your well-being matters."
  ]

  /** Seconds in a day: the repeat interval the daily helper passes. */
  const DaySeconds: int := 24 * 60 * 60

  /** The optional `{ date?, repeatInterval? }` argument; a date is given as
      its time value in milliseconds. */
  datatype TriggerInput = TriggerInput(date: Option<int>, repeatInterval: Option<int>)

  /** The trigger `scheduleLocalNotification` builds. A date (always truthy)
      wins and becomes a one-shot delay of whole seconds, at least one; else a
      non-zero repeat interval becomes a repeating delay; else there is none. */
  function SelectTrigger(input: Option<TriggerInput>, now: int): (t: N.Trigger)
    ensures t.AfterSeconds? && !t.repeats ==> t.seconds >= 1
    ensures input.Some? && input.value.date.Some? ==>
      t == N.AfterSeconds(Max(1, (input.value.date.value - now) / SecondMs), false)
    ensures t.Immediately? <==>
      input.None? || (input.value.date.None? && input.value.repeatInterval in {None, Some(0)})
    ensures t.AfterSeconds? && t.repeats ==> Some(t.seconds) == input.value.repeatInterval
    ensures input.Some? && input.value.date.None? && input.value.repeatInterval.Some? && input.value.repeatInterval.value != 0 ==>
      t == N.AfterSeconds(input.value.repeatInterval.value, true)
    ensures !t.Calendar? && !t.AtTime?
  {
    if input.Some? && input.value.date.Some? then
      N.AfterSeconds(Max(1, (input.value.date.value - now) / SecondMs), false)
    else if input.Some? && input.value.repeatInterval.Some? && input.value.repeatInterval.value != 0 then
      N.AfterSeconds(input.value.repeatInterval.value, true)
    else
      N.Immediately
  }

  /** A date makes any repeat interval irrelevant. */
  lemma DateOverridesRepeat(date: int, repeatInterval: Option<int>, now: int)
    ensures SelectTrigger(Some(TriggerInput(Some(date), repeatInterval)), now)
         == SelectTrigger(Some(TriggerInput(Some(date), None)), now)
    ensures !SelectTrigger(Some(TriggerInput(Some(date), repeatInterval)), now).repeats
  {
  }

  /** A date in the past, or less than a second away, still gives a one-second
      delay; a date a whole number of seconds ahead gives exactly that delay. */
  lemma DelayClamp(date: int, now: int, seconds: int)
    ensures date < now + SecondMs ==> SelectTrigger(Some(TriggerInput(Some(date), None)), now) == N.AfterSeconds(1, false)
    ensures seconds >= 1 ==>
      SelectTrigger(Some(TriggerInput(Some(now + seconds * SecondMs), None)), now) == N.AfterSeconds(seconds, false)
  {
    if date < now + SecondMs {
      assert (date - now) / SecondMs <= 0;
    }
  }

  /** The trigger `scheduleOneTimeNotification` ends up with: a date
      `secondsFromNow` seconds after the reading `readNow`, measured against
      the reading `now`. */
  function OneTimeTrigger(secondsFromNow: int, readNow: int, now: int): N.Trigger
  {
    SelectTrigger(Some(TriggerInput(Some(readNow + secondsFromNow * SecondMs), None)), now)
  }

  /** With one clock reading the delay is exactly `secondsFromNow`, at least
      one; when the second reading is any part of a second later, a delay of
      two seconds or more comes out one second short. */
  lemma OneTimeDelay(secondsFromNow: int, readNow: int, now: int)
    ensures now == readNow ==> OneTimeTrigger(secondsFromNow, readNow, now) == N.AfterSeconds(Max(1, secondsFromNow), false)
    ensures readNow < now < readNow + SecondMs && secondsFromNow >= 2 ==>
      OneTimeTrigger(secondsFromNow, readNow, now) == N.AfterSeconds(secondsFromNow - 1, false)
  {
    DelayClamp(readNow + secondsFromNow * SecondMs, readNow, secondsFromNow);
    if readNow < now < readNow + SecondMs && secondsFromNow >= 2 {
      var late := now - readNow;
      assert readNow + secondsFromNow * SecondMs - now == (secondsFromNow - 1) * SecondMs + (SecondMs - late);
      assert 0 < SecondMs - late < SecondMs;
      assert (readNow + secondsFromNow * SecondMs - now) / SecondMs == secondsFromNow - 1;
    }
  }

  /** The day of `now` at hour:minute, moved to the next day only when it is
      strictly earlier than now. */
  function DailyCheckInTime(now: int, hour: int, minute: int): int
  {
    var today := TodayAt(now, hour, minute);
    if today < now then today + DayMs else today
  }

  /** The two "next occurrence" rules differ exactly when the target time is
      now to the millisecond: this one keeps today, the research helper moves
      to tomorrow. */
  lemma RolloverRulesDifferOnlyAtNow(now: int, hour: int, minute: int)
    ensures DailyCheckInTime(now, hour, minute) != N.NextTriggerTime(now, hour, minute)
        <==> TodayAt(now, hour, minute) == now
    ensures IsClockTime(hour, minute) ==> now <= DailyCheckInTime(now, hour, minute) < now + DayMs
  {
    if IsClockTime(hour, minute) {
      TodayAtSameDay(now, hour, minute);
    }
  }

  /** The two identical requests of one motivational reminder at hour:minute,
      carrying the given title and quote. */
  function QuoteRequests(title: string, hour: int, minute: int, quoteIndex: nat, now: int): seq<N.Request>
    requires quoteIndex < |MotivationalQuotes|
  {
    var delay := Max(1, (DailyCheckInTime(now, hour, minute) - now) / SecondMs);
    var request := N.Request(N.Content(title, MotivationalQuotes[quoteIndex]), N.AfterSeconds(delay, false));
    [request, request]
  }

  predicate DrawsInRange(draws: seq<nat>)
  {
    forall i :: 0 <= i < |draws| ==> draws[i] < |MotivationalQuotes|
  }

  /** The requests of a run of motivational reminders, one pair per hour. */
  function AllQuoteRequests(title: string, hours: seq<int>, minutes: seq<int>, draws: seq<nat>, now: int): (r: seq<N.Request>)
    requires |minutes| == |hours| == |draws| && DrawsInRange(draws)
    ensures |r| == 2 * |hours|
  {
    if hours == [] then []
    else
      var k := |hours| - 1;
      AllQuoteRequests(title, hours[..k], minutes[..k], draws[..k], now)
        + QuoteRequests(title, hours[k], minutes[k], draws[k], now)
  }

  /** Extending the run by one hour appends that hour's pair. */
  lemma AllQuoteRequestsStep(title: string, hours: seq<int>, minutes: seq<int>, draws: seq<nat>, now: int, i: nat)
    requires |minutes| == |hours| == |draws| && DrawsInRange(draws) && i < |hours|
    ensures AllQuoteRequests(title, hours[..i + 1], minutes[..i + 1], draws[..i + 1], now)
         == AllQuoteRequests(title, hours[..i], minutes[..i], draws[..i], now)
            + QuoteRequests(title, hours[i], minutes[i], draws[i], now)
  {
    assert hours[..i + 1][..i] == hours[..i];
    assert minutes[..i + 1][..i] == minutes[..i];
    assert draws[..i + 1][..i] == draws[..i];
  }

  /** Every motivational reminder is a one-shot delay of at least a second:
      the 24-hour repeat is dropped for each of them too. */
  lemma {:induction false} QuoteRequestsAreOneShot(title: string, hours: seq<int>, minutes: seq<int>, draws: seq<nat>, now: int)
    requires |minutes| == |hours| == |draws| && DrawsInRange(draws)
    ensures forall r :: r in AllQuoteRequests(title, hours, minutes, draws, now) ==>
      r.trigger.AfterSeconds? && !r.trigger.repeats && r.trigger.seconds >= 1 && r.content.title == title
  {
    if hours != [] {
      var k := |hours| - 1;
      QuoteRequestsAreOneShot(title, hours[..k], minutes[..k], draws[..k], now);
    }
  }

  class LocalNotifier {
    /** The module's content table, which one call updates in place. */
    var content: map<string, N.Content>
    /** The platform's pending requests. */
    var pending: seq<N.Request>

    ghost predicate Valid()
      reads this
    {
      content.Keys == Kinds
    }

    constructor ()
      ensures Valid() && content == InitialContent && pending == []
    {
      content := InitialContent;
      pending := [];
    }

    /** `scheduleLocalNotification(type, triggerInput)`, with the random quote
        draw as `quoteIndex`. For 'motivation' it first overwrites that entry's
        body in the shared table; it then schedules the entry's content twice,
        with the same trigger. */
    method ScheduleLocalNotification(kind: string, input: Option<TriggerInput>, now: int, quoteIndex: nat)
      requires Valid() && kind in Kinds && quoteIndex < |MotivationalQuotes|
      modifies this`content, this`pending
      ensures Valid()
      ensures content == if kind == "motivation"
                         then old(content)[kind := old(content)[kind].(body := MotivationalQuotes[quoteIndex])]
                         else old(content)
      ensures var request := N.Request(content[kind], SelectTrigger(input, now));
        pending == old(pending) + [request, request]
    {
      var entry := content[kind];
      if kind == "motivation" {
        entry := entry.(body := MotivationalQuotes[quoteIndex]);
        content := content[kind := entry];
      }
      var trigger := N.Immediately;
      if input.Some? && input.value.date.Some? {
        var seconds := Max(1, (input.value.date.value - now) / SecondMs);
        trigger := N.AfterSeconds(seconds, false);
      } else if input.Some? && input.value.repeatInterval.Some? && input.value.repeatInterval.value != 0 {
        trigger := N.AfterSeconds(input.value.repeatInterval.value, true);
      }
      pending := pending + [N.Request(entry, trigger)];
      pending := pending + [N.Request(entry, trigger)];
    }

    /** `scheduleDailyCheckIn(hour, minute)`: the date is today's hour:minute,
        or tomorrow's when that is already past; the 24-hour repeat passed
        along is dropped because the date takes precedence. */
    method ScheduleDailyCheckIn(hour: int, minute: int, now: int)
      requires Valid()
      modifies this`content, this`pending
      ensures Valid() && content == old(content)
      ensures var delay := Max(1, (DailyCheckInTime(now, hour, minute) - now) / SecondMs);
        var request := N.Request(content["daily-checkin"], N.AfterSeconds(delay, false));
        pending == old(pending) + [request, request]
    {
      var date := new Date(now);
      date.SetHours(hour, minute, 0, 0);
      if date.time < now {
        date.AddDays(1);
      }
      ScheduleLocalNotification("daily-checkin", Some(TriggerInput(Some(date.time), Some(DaySeconds))), now, 0);
    }

    /** `scheduleOneTimeNotification(type, secondsFromNow)`: the date is built
        from one clock reading, `readNow`, and the delay measured against a
        later one, `now`; the delay is `secondsFromNow` seconds, never less
        than one, when the two readings coincide (see `OneTimeDelay`). */
    method ScheduleOneTimeNotification(kind: string, secondsFromNow: int, readNow: int, now: int, quoteIndex: nat)
      requires Valid() && kind in Kinds && quoteIndex < |MotivationalQuotes|
      modifies this`content, this`pending
      ensures Valid()
      ensures content == if kind == "motivation"
                         then old(content)[kind := old(content)[kind].(body := MotivationalQuotes[quoteIndex])]
                         else old(content)
      ensures var request := N.Request(content[kind], OneTimeTrigger(secondsFromNow, readNow, now));
        pending == old(pending) + [request, request]
      ensures now == readNow ==> pending[|pending| - 1].trigger == N.AfterSeconds(Max(1, secondsFromNow), false)
    {
      OneTimeDelay(secondsFromNow, readNow, now);
      ScheduleLocalNotification(kind, Some(TriggerInput(Some(readNow + secondsFromNow * SecondMs), None)), now, quoteIndex);
    }

    /** `scheduleMotivationalQuotes(frequency)`, given the hours it spreads
        over the day, the random minute drawn for each and the random quote
        drawn by each scheduling call: for every hour in turn it schedules a
        'motivation' notification at that time today, or tomorrow when that
        time has passed. */
    method ScheduleMotivationalQuotes(hours: seq<int>, minutes: seq<int>, draws: seq<nat>, now: int)
      requires Valid() && |minutes| == |hours| == |draws| && DrawsInRange(draws)
      modifies this`content, this`pending
      ensures Valid()
      ensures pending == old(pending) + AllQuoteRequests(old(content)["motivation"].title, hours, minutes, draws, now)
      ensures hours != [] ==> content == old(content)["motivation" := N.Content(old(content)["motivation"].title, MotivationalQuotes[draws[|draws| - 1]])]
      ensures hours == [] ==> content == old(content)
    {
      var title := content["motivation"].title;
      for i := 0 to |hours|
        invariant Valid() && content["motivation"].title == title
        invariant pending == old(pending) + AllQuoteRequests(title, hours[..i], minutes[..i], draws[..i], now)
        invariant i == 0 ==> content == old(content)
        invariant i > 0 ==> content == old(content)["motivation" := N.Content(title, MotivationalQuotes[draws[i - 1]])]
      {
        ScheduleQuoteAt(hours[i], minutes[i], draws[i], now);
        AllQuoteRequestsStep(title, hours, minutes, draws, now, i);
      }
      assert hours[..|hours|] == hours && minutes[..|hours|] == minutes && draws[..|hours|] == draws;
    }

    /** One turn of that loop: the reminder for hour:minute today, or
        tomorrow when that time has passed. */
    method ScheduleQuoteAt(hour: int, minute: int, draw: nat, now: int)
      requires Valid() && draw < |MotivationalQuotes|
      modifies this`content, this`pending
      ensures Valid()
      ensures content == old(content)["motivation" := N.Content(old(content)["motivation"].title, MotivationalQuotes[draw])]
      ensures pending == old(pending) + QuoteRequests(old(content)["motivation"].title, hour, minute, draw, now)
    {
      var date := new Date(now);
      date.SetHours(hour, minute, 0, 0);
      if date.time < now {
        date.AddDays(1);
      }
      ScheduleLocalNotification("motivation", Some(TriggerInput(Some(date.time), Some(DaySeconds))), now, draw);
    }

    /** `cancelAllNotifications()` */
    method CancelAllNotifications()
      modifies this`pending
      ensures pending == []
    {
      pending := [];
    }
  }
}
