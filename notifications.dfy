/** The research and reminder notifications: a fixed content table, the
    "next occurrence of HH:MM" computation, the research reminder, the two
    repeating daily reminders and the start-up sequence that schedules them
    all. The platform scheduler is modelled as a list of pending requests. */
module Notifications {
  import opened Clock

  datatype Content = Content(title: string, body: string)

  /** When a scheduled notification fires. */
  datatype Trigger =
    | Calendar(hour: int, minute: int, repeats: bool)  // the next (or every) HH:MM
    | AfterSeconds(seconds: int, repeats: bool)        // a delay in seconds, optionally repeated
    | AtTime(time: int)                                // one fixed instant
    | Immediately                                      // a `null` trigger

  datatype Request = Request(content: Content, trigger: Trigger)

  /** The arguments of one `scheduleResearchCheckIn(type, intervalDays)` call. */
  datatype ResearchCall = ResearchCall(kind: string, intervalDays: int)

  const NotificationContent: map<string, Content> := map[
    "research-checkin" := Content("Research Check-in Due",
      "Time for your weekly research survey. Your input helps us understand nurse well-being."),
    "daily-checkin" := Content("How are you today?", "Take a moment to check in with yourself."),
    "motivation" := Content("Daily Inspiration", "Your compassion makes a difference every day."),
    "pss4" := Content("Stress Assessment Due", "Time to complete your PSS-4 survey."),
    "cope" := Content("Coping Strategies Check", "Time to complete your Brief COPE survey."),
    "who5" := Content("Well-being Check Due", "Time to complete your WHO-5 survey.")
  ]

  /** The notification kinds a research reminder may carry. */
  const ResearchKinds: set<string> := {"pss4", "cope", "who5"}

  const MotivationalQuotes: seq<string> := [
    "Your compassion makes a difference every day.",
    "Small acts of kindness create big ripples.",
    "You bring hope and healing to others.",
    "Your strength inspires those around you.",
    "Today's challenges build tomorrow's expertise.",
    "You make the impossible possible.",
    "Your dedication changes lives.",
    "Every day you make a difference."
  ]

  /** The three research reminders the start-up sequence schedules, in order. */
  const SetupResearchCalls: seq<ResearchCall> :=
    [ResearchCall("pss4", 7), ResearchCall("cope", 7), ResearchCall("who5", 14)]

  /** Today's HH:MM, moved one day on when it is not strictly in the future. */
  function NextTriggerTime(now: int, hour: int, minute: int): int
  {
    var today := TodayAt(now, hour, minute);
    if today <= now then today + DayMs else today
  }

  lemma DayOffset(k: int, x: int)
    requires 0 <= x < DayMs
    ensures StartOfDay(k * DayMs + x) == k * DayMs
  {
    assert (k * DayMs + x) % DayMs == x;
  }

  /** The next trigger is on a whole minute (seconds and milliseconds zeroed)
      at exactly hour:minute, strictly after now and at most one day later. */
  lemma NextTriggerTimeBounds(now: int, hour: int, minute: int)
    requires IsClockTime(hour, minute)
    ensures var next := NextTriggerTime(now, hour, minute);
      && now < next <= now + DayMs
      && next == StartOfDay(next) + hour * HourMs + minute * MinuteMs
  {
    var s := StartOfDay(now);
    var x := hour * HourMs + minute * MinuteMs;
    var k := s / DayMs;
    assert s == k * DayMs;
    TodayAtSameDay(now, hour, minute);
    if s + x <= now {
      assert s + x + DayMs == (k + 1) * DayMs + x;
      DayOffset(k + 1, x);
    } else {
      DayOffset(k, x);
    }
  }

  /** `getNextTriggerDate(targetHour, targetMinute = 0)`, on a `Date` it
      creates from the clock reading `now` and updates in place. */
  method GetNextTriggerDate(now: int, targetHour: int, targetMinute: int := 0) returns (next: Date)
    ensures fresh(next)
    ensures next.time == NextTriggerTime(now, targetHour, targetMinute)
  {
    next := new Date(now);
    next.SetHours(targetHour, targetMinute, 0, 0);
    if next.time <= now {
      next.AddDays(1);
    }
  }

  /** The request `scheduleResearchCheckIn(kind, intervalDays)` hands to the
      platform: the kind's fixed content and a one-shot 09:00 calendar trigger.
      The interval is accepted and not used. */
  function ResearchReminder(kind: string, intervalDays: int): Request
    requires kind in ResearchKinds
  {
    Request(NotificationContent[kind], Calendar(9, 0, false))
  }

  /** The research reminder does not depend on the interval: a weekly and a
      bi-weekly survey are reminded at the same next 09:00. */
  lemma ResearchReminderIgnoresInterval(kind: string, intervalDays: int)
    requires kind in ResearchKinds
    ensures ResearchReminder(kind, intervalDays) == ResearchReminder(kind, 1)
    ensures ResearchReminder(kind, intervalDays).trigger == Calendar(9, 0, false)
    ensures ResearchReminder(kind, intervalDays).content == NotificationContent[kind]
  {
  }

  /** The reminder the unused `nextDate` describes: 09:00 on the day that is
      `intervalDays - 1` days after the next 09:00. */
  function DueResearchReminder(kind: string, intervalDays: int, now: int): Request
    requires kind in ResearchKinds
  {
    Request(NotificationContent[kind], AtTime(NextTriggerTime(now, 9, 0) + (intervalDays - 1) * DayMs))
  }

  /** The due reminder fires at 09:00, more than `intervalDays - 1` and at most
      `intervalDays` days from now. */
  lemma DueResearchReminderTiming(kind: string, intervalDays: int, now: int)
    requires kind in ResearchKinds
    ensures var t := DueResearchReminder(kind, intervalDays, now).trigger.time;
      && now + (intervalDays - 1) * DayMs < t <= now + intervalDays * DayMs
      && t == StartOfDay(t) + 9 * HourMs
  {
    var next := NextTriggerTime(now, 9, 0);
    NextTriggerTimeBounds(now, 9, 0);
    var k := StartOfDay(next) / DayMs;
    assert StartOfDay(next) == k * DayMs;
    var t := next + (intervalDays - 1) * DayMs;
    assert t == (k + intervalDays - 1) * DayMs + 9 * HourMs;
    DayOffset(k + intervalDays - 1, 9 * HourMs);
  }

  /** The daily check-in reminder: every day at 10:00. */
  function DailyReminder(): Request
  {
    Request(NotificationContent["daily-checkin"], Calendar(10, 0, true))
  }

  /** The motivational reminder: every day at 08:00, with the drawn quote as body. */
  function MotivationReminder(quoteIndex: nat): Request
    requires quoteIndex < |MotivationalQuotes|
  {
    Request(NotificationContent["motivation"].(body := MotivationalQuotes[quoteIndex]), Calendar(8, 0, true))
  }

  /** Both daily reminders repeat; the check-in one at 10:00, the quote at 08:00
      with the title of the motivation entry. */
  lemma DailyRemindersRepeat(quoteIndex: nat)
    requires quoteIndex < |MotivationalQuotes|
    ensures DailyReminder().trigger == Calendar(10, 0, true)
    ensures MotivationReminder(quoteIndex).trigger == Calendar(8, 0, true)
    ensures MotivationReminder(quoteIndex).content.title == NotificationContent["motivation"].title
  {
  }

  /** The platform's scheduler: the requests still pending, in scheduling order. */
  class NotificationCenter {
    var pending: seq<Request>

    constructor ()
      ensures pending == []
    {
      pending := [];
    }

    /** `scheduleNotificationAsync` */
    method Schedule(request: Request)
      modifies this
      ensures pending == old(pending) + [request]
    {
      pending := pending + [request];
    }

    /** `cancelAllScheduledNotificationsAsync` */
    method CancelAll()
      modifies this
      ensures pending == []
    {
      pending := [];
    }
  }

  /** `scheduleResearchCheckIn(type, intervalDays)`: computes a due date it
      then ignores and schedules the kind's content for the next 09:00. */
  method ScheduleResearchCheckIn(center: NotificationCenter, kind: string, intervalDays: int, now: int)
    requires kind in ResearchKinds
    modifies center
    ensures center.pending == old(center.pending) + [ResearchReminder(kind, intervalDays)]
  {
    var nextDate := GetNextTriggerDate(now, 9);
    nextDate.AddDays(intervalDays - 1);
    center.Schedule(ResearchReminder(kind, intervalDays));
  }

  /** `scheduleDailyCheckInReminder()` */
  method ScheduleDailyCheckInReminder(center: NotificationCenter)
    modifies center
    ensures center.pending == old(center.pending) + [DailyReminder()]
  {
    center.Schedule(DailyReminder());
  }

  /** `scheduleMotivationalQuote()`, with the random draw as `quoteIndex`. */
  method ScheduleMotivationalQuote(center: NotificationCenter, quoteIndex: nat)
    requires quoteIndex < |MotivationalQuotes|
    modifies center
    ensures center.pending == old(center.pending) + [MotivationReminder(quoteIndex)]
  {
    center.Schedule(MotivationReminder(quoteIndex));
  }

  /** `setupAllNotifications()`, given whether notification permission was
      granted (already, or when asked). With permission it cancels everything
      pending, then schedules the three research reminders, the daily check-in
      reminder and the motivational reminder, in that order. */
  method SetupAllNotifications(center: NotificationCenter, permissionGranted: bool, now: int, quoteIndex: nat)
    requires quoteIndex < |MotivationalQuotes|
    modifies center
    ensures !permissionGranted ==> center.pending == old(center.pending)
    ensures permissionGranted ==> (center.pending ==
      [ResearchReminder("pss4", 7), ResearchReminder("cope", 7), ResearchReminder("who5", 14),
       DailyReminder(), MotivationReminder(quoteIndex)])
  {
    if !permissionGranted {
      return;
    }
    center.CancelAll();
    ScheduleResearchCheckIn(center, SetupResearchCalls[0].kind, SetupResearchCalls[0].intervalDays, now);
    ScheduleResearchCheckIn(center, SetupResearchCalls[1].kind, SetupResearchCalls[1].intervalDays, now);
    ScheduleResearchCheckIn(center, SetupResearchCalls[2].kind, SetupResearchCalls[2].intervalDays, now);
    ScheduleDailyCheckInReminder(center);
    ScheduleMotivationalQuote(center, quoteIndex);
  }
}
