/** The home-screen button for one research survey: it holds the day count
    from `getNextCheckInDays` in a single state cell (initially null), is
    enabled only when that count is 0, and under a disabled button shows
    "Available in N day(s)". */
module ResearchButton {
  import opened Common
  import RS = ResearchSchedule

  /** The cell after the effect ran: the resolved value, or the previous
      value when the promise was rejected (the rejection is not handled). */
  function DaysAfterLookup(result: RS.NextCheckIn, before: Option<int>): (days: Option<int>)
    ensures result.DaysRemaining? ==> days == Some(result.days)
    ensures result.NoSchedule? ==> days == None
    ensures result.Rejected? ==> days == before
  {
    match result
    case NoSchedule => None
    case DaysRemaining(n) => Some(n)
    case Rejected => before
  }

  /** `daysRemaining !== 0` */
  predicate IsDisabled(days: Option<int>)
  {
    days != Some(0)
  }

  /** "Available in {count} {unit}". */
  datatype Label = Label(count: int, unit: string)

  /** The text under the button, shown only when it is disabled and the count
      is not null; the unit is singular for exactly one day. */
  function AvailabilityLabel(days: Option<int>): (r: Option<Label>)
    ensures r.Some? <==> IsDisabled(days) && days.Some?
    ensures r.Some? ==> r.value.count == days.value && r.value.count != 0
    ensures r.Some? ==> (r.value.unit == "day" <==> days.value == 1)
    ensures r.Some? ==> r.value.unit in {"day", "days"}
  {
    if IsDisabled(days) && days.Some? then
      Some(Label(days.value, if days.value == 1 then "day" else "days"))
    else None
  }

  /** The button as first rendered (null cell) and after the lookup
      resolved: enabled exactly when the count came back 0, so a
      rejected lookup or an unscheduled type leaves it disabled. */
  lemma EnabledIffNoDaysRemain(t: string, q: RS.QueryResult)
    ensures IsDisabled(None)
    ensures !IsDisabled(DaysAfterLookup(RS.GetNextCheckInDays(t, q), None))
        <==> RS.GetNextCheckInDays(t, q) == RS.DaysRemaining(0)
  {
  }

  /** Any count the label shows after a lookup is at least one day, and it is
      no more than the interval when the last submission is not in the future. */
  lemma {:induction false} LabelCountIsPositive(t: string, q: RS.QueryResult)
    ensures var shown := AvailabilityLabel(DaysAfterLookup(RS.GetNextCheckInDays(t, q), None));
      && (shown.Some? ==> shown.value.count >= 1)
      && (shown.Some? && q.Row? && q.daysSince >= 0 ==> shown.value.count <= RS.IntervalDays(t))
  {
    var r := RS.GetNextCheckInDays(t, q);
    if r.DaysRemaining? {
      assert r.days >= 0;
    }
  }

  /** For a scheduled type and a lookup that did not fail, the button is
      enabled exactly when `CanTakeCheckIn` would let the survey be taken. */
  lemma EnabledIffCanTake(t: string, q: RS.QueryResult)
    requires RS.HasSchedule(t) && !q.Failure?
    ensures !IsDisabled(DaysAfterLookup(RS.GetNextCheckInDays(t, q), None)) <==> RS.CanTakeCheckIn(t, q)
  {
    RS.AvailabilityAgreement(t, q);
  }

  /** With the error examined first, the button and `CanTakeCheckIn` agree on
      every lookup of a scheduled type, failures included. */
  lemma EnabledIffCanTakeErrorFirst(t: string, q: RS.QueryResult)
    requires RS.HasSchedule(t)
    ensures !IsDisabled(DaysAfterLookup(RS.GetNextCheckInDaysErrorFirst(t, q), None)) <==> RS.CanTakeCheckIn(t, q)
  {
    RS.ErrorFirstAgreesWithCanTake(t, q);
  }
}
