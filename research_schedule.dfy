/** Research check-in availability: a fixed table of recurrence intervals per
    survey type, and the two independently written queries over "the most
    recent submission of this participant for this type" — whether the survey
    may be taken now, and how many days remain until it may. The store lookup
    and the clock enter as a `QueryResult`. */
module ResearchSchedule {
  import opened Common
  import JsText
  import N = Notifications

  /** Survey type names. The type reaches these functions as a string (a
      navigation parameter), so a name outside the table is representable. */
  const PSS4: string := "PSS4"
  const COPE: string := "COPE"
  const WHO5: string := "WHO5"

  datatype CheckInSchedule = CheckInSchedule(checkInType: string, intervalDays: int, title: string, message: string)

  const CheckInSchedules: seq<CheckInSchedule> := [
    CheckInSchedule(PSS4, 7, "Stress Assessment Due",
      "Time to complete your weekly stress assessment (PSS-4)."),
    CheckInSchedule(COPE, 7, "Coping Strategies Survey Due",
      "Time to complete your weekly coping strategies survey."),
    CheckInSchedule(WHO5, 14, "Well-Being Check Due",
      "Time to complete your bi-weekly well-being assessment.")
  ]

  /** `table.find(s => s.type === t)`: the first entry for `t`, if any. */
  function Find(table: seq<CheckInSchedule>, t: string): (r: Option<CheckInSchedule>)
    ensures r.Some? ==> r.value in table && r.value.checkInType == t
    ensures r.None? <==> forall s :: s in table ==> s.checkInType != t
  {
    if table == [] then None
    else if table[0].checkInType == t then Some(table[0])
    else Find(table[1..], t)
  }

  function FindSchedule(t: string): Option<CheckInSchedule>
  {
    Find(CheckInSchedules, t)
  }

  predicate HasSchedule(t: string)
  {
    FindSchedule(t).Some?
  }

  /** The interval of a type the table knows. */
  function IntervalDays(t: string): int
    requires HasSchedule(t)
  {
    FindSchedule(t).value.intervalDays
  }

  /** The table has exactly one entry for each of PSS4, COPE and WHO5, with
      intervals of 7, 7 and 14 days, and no other entry. */
  lemma ScheduleTable()
    ensures [CheckInSchedules[0].checkInType, CheckInSchedules[1].checkInType, CheckInSchedules[2].checkInType]
            == [PSS4, COPE, WHO5]
    ensures forall i, j :: 0 <= i < j < |CheckInSchedules| ==>
      CheckInSchedules[i].checkInType != CheckInSchedules[j].checkInType
    ensures forall t :: HasSchedule(t) <==> t == PSS4 || t == COPE || t == WHO5
    ensures IntervalDays(PSS4) == 7 && IntervalDays(COPE) == 7 && IntervalDays(WHO5) == 14
    ensures forall t :: HasSchedule(t) ==> IntervalDays(t) > 0
  {
    assert PSS4 != COPE && PSS4 != WHO5 && COPE != WHO5 by {
      assert PSS4[0] != COPE[0] && PSS4[0] != WHO5[0] && COPE[0] != WHO5[0];
    }
  }

  /** What the lookup of the most recent submission (`.single()`) came back
      with: a row, reduced to the number of whole 24-hour periods between it
      and now, truncated (`differenceInDays`); the "no rows returned" error (code PGRST116)
      without a row; or any other error, with or without a row. */
  datatype QueryResult = Row(daysSince: int) | NoRows | Failure(hasRow: bool)

  /** `canTakeCheckIn(participantId, type)`. A store failure is thrown, caught
      and answered with false; a missing row answers true before the table is
      consulted. */
  function CanTakeCheckIn(t: string, q: QueryResult): (r: bool)
    ensures q.Failure? ==> !r
    ensures q.NoRows? ==> r
    ensures q.Row? ==> (r <==> HasSchedule(t) && q.daysSince >= IntervalDays(t))
  {
    match q
    case Failure(_) => false
    case NoRows => true
    case Row(daysSince) =>
      match FindSchedule(t)
      case None => false
      case Some(schedule) => daysSince >= schedule.intervalDays
  }

  /** The outcome of `getNextCheckInDays`: `null`, a day count, or a rejected
      promise (the store's error rethrown). */
  datatype NextCheckIn = NoSchedule | DaysRemaining(days: int) | Rejected

  /** `getNextCheckInDays(participantId, type)`. The table is consulted before
      the lookup; a missing row counts as "available now" before any error is
      examined, so only an error that comes with a row is rethrown. */
  function GetNextCheckInDays(t: string, q: QueryResult): (r: NextCheckIn)
    ensures r.NoSchedule? <==> !HasSchedule(t)
    ensures HasSchedule(t) && (q.NoRows? || q == Failure(false)) ==> r == DaysRemaining(0)
    ensures r.Rejected? <==> HasSchedule(t) && q == Failure(true)
    ensures r.DaysRemaining? ==> r.days >= 0
    ensures r.DaysRemaining? && q.Row? && q.daysSince >= 0 ==> r.days <= IntervalDays(t)
  {
    match FindSchedule(t)
    case None => NoSchedule
    case Some(schedule) =>
      match q
      case NoRows => DaysRemaining(0)
      case Failure(hasRow) => if hasRow then Rejected else DaysRemaining(0)
      case Row(daysSince) =>
        var remaining := schedule.intervalDays - daysSince;
        DaysRemaining(if remaining > 0 then remaining else 0)
  }

  /** With a row, the count is the interval minus the days elapsed, floored
      at zero. */
  lemma DaysRemainingWithRow(t: string, days: int)
    requires HasSchedule(t)
    ensures GetNextCheckInDays(t, Row(days)) == DaysRemaining(Max(IntervalDays(t) - days, 0))
  {
  }

  /** For a scheduled type and a lookup that did not fail, the two queries
      agree: the survey can be taken exactly when no days remain. */
  lemma AvailabilityAgreement(t: string, q: QueryResult)
    requires HasSchedule(t) && !q.Failure?
    ensures CanTakeCheckIn(t, q) <==> GetNextCheckInDays(t, q) == DaysRemaining(0)
  {
  }

  /** Exactly where the two queries disagree: a scheduled type whose lookup
      failed without a row (the count says "available now", the check says
      no), and an unscheduled type with no prior row (the check says yes, the
      count is null). */
  lemma AvailabilityDisagreement(t: string, q: QueryResult)
    ensures (CanTakeCheckIn(t, q) != (GetNextCheckInDays(t, q) == DaysRemaining(0)))
        <==> (HasSchedule(t) && q == Failure(false)) || (!HasSchedule(t) && q.NoRows?)
  {
  }

  /** The boundary cases: a survey becomes available on the day its interval
      has elapsed; the day before, one day remains. */
  lemma IntervalBoundary(t: string)
    requires HasSchedule(t)
    ensures CanTakeCheckIn(t, Row(IntervalDays(t)))
    ensures GetNextCheckInDays(t, Row(IntervalDays(t))) == DaysRemaining(0)
    ensures !CanTakeCheckIn(t, Row(IntervalDays(t) - 1))
    ensures GetNextCheckInDays(t, Row(IntervalDays(t) - 1)) == DaysRemaining(1)
  {
  }

  /** A WHO-5 survey taken ten days ago is due in four days; a PSS-4 survey
      taken seven days ago is due now. */
  lemma DueDateExamples()
    ensures GetNextCheckInDays(WHO5, Row(10)) == DaysRemaining(4)
    ensures !CanTakeCheckIn(WHO5, Row(10))
    ensures CanTakeCheckIn(PSS4, Row(7)) && GetNextCheckInDays(PSS4, Row(7)) == DaysRemaining(0)
  {
    ScheduleTable();
  }

  /** `scheduleNextCheckIn(participantId, type)`, given whether the device id
      could be read: the `scheduleResearchCheckIn` calls it makes. It makes
      none for an unscheduled type, and none when reading the device id fails
      (that failure, like one of the call itself, is logged and swallowed);
      otherwise one, with the lower-cased type and the type's interval. */
  function ScheduleNextCheckIn(participantId: int, t: string, deviceIdRead: bool): (calls: seq<N.ResearchCall>)
    ensures !HasSchedule(t) ==> calls == []
    ensures |calls| <= 1
    ensures |calls| == 1 <==> HasSchedule(t) && deviceIdRead
    ensures |calls| == 1 ==> calls[0] == N.ResearchCall(JsText.ToLowerCase(t), IntervalDays(t))
  {
    match FindSchedule(t)
    case None => []
    case Some(schedule) =>
      if deviceIdRead then [N.ResearchCall(JsText.ToLowerCase(t), schedule.intervalDays)] else []
  }

  lemma LowerCaseTypeNames()
    ensures JsText.ToLowerCase(PSS4) == "pss4"
    ensures JsText.ToLowerCase(COPE) == "cope"
    ensures JsText.ToLowerCase(WHO5) == "who5"
  {
    assert JsText.ToLowerCase(PSS4)[0] == 'p';
  }

  /** Every call `ScheduleNextCheckIn` makes names a research notification kind. */
  lemma ForwardedKindsAreResearchKinds(participantId: int, t: string, deviceIdRead: bool)
    ensures forall c :: c in ScheduleNextCheckIn(participantId, t, deviceIdRead) ==> c.kind in N.ResearchKinds
  {
    if HasSchedule(t) && deviceIdRead {
      ScheduleTable();
      LowerCaseTypeNames();
      var kind := ScheduleNextCheckIn(participantId, t, deviceIdRead)[0].kind;
      assert kind == JsText.ToLowerCase(t);
      if t == PSS4 {
        assert kind == "pss4";
      } else if t == COPE {
        assert kind == "cope";
      } else {
        assert kind == "who5";
      }
    }
  }

  /** The calls the start-up sequence makes are the ones `ScheduleNextCheckIn`
      would make for PSS4, COPE and WHO5, in table order. */
  lemma SetupMatchesScheduledCalls(participantId: int)
    ensures ScheduleNextCheckIn(participantId, PSS4, true) == [N.SetupResearchCalls[0]]
    ensures ScheduleNextCheckIn(participantId, COPE, true) == [N.SetupResearchCalls[1]]
    ensures ScheduleNextCheckIn(participantId, WHO5, true) == [N.SetupResearchCalls[2]]
  {
    ScheduleTable();
    LowerCaseTypeNames();
  }

  /** The count as it reads with the error examined before the missing row,
      so that every store failure is rethrown. */
  function GetNextCheckInDaysErrorFirst(t: string, q: QueryResult): (r: NextCheckIn)
    ensures r.NoSchedule? <==> !HasSchedule(t)
    ensures r.Rejected? <==> HasSchedule(t) && q.Failure?
  {
    match FindSchedule(t)
    case None => NoSchedule
    case Some(schedule) =>
      match q
      case Failure(_) => Rejected
      case NoRows => DaysRemaining(0)
      case Row(daysSince) =>
        var remaining := schedule.intervalDays - daysSince;
        DaysRemaining(if remaining > 0 then remaining else 0)
  }

  /** As written, a failed lookup that brings no row back (how the store
      reports a network or server failure) yields "available now", while
      `CanTakeCheckIn` answers no for the same lookup. */
  lemma GetNextCheckInDaysFailsOpen(t: string)
    requires HasSchedule(t)
    ensures GetNextCheckInDays(t, Failure(false)) == DaysRemaining(0)
    ensures !CanTakeCheckIn(t, Failure(false))
  {
  }

  /** With the error examined first, the count agrees with `CanTakeCheckIn`
      on every lookup of a scheduled type, and matches the code as written
      whenever the lookup did not fail. */
  lemma ErrorFirstAgreesWithCanTake(t: string, q: QueryResult)
    requires HasSchedule(t)
    ensures CanTakeCheckIn(t, q) <==> GetNextCheckInDaysErrorFirst(t, q) == DaysRemaining(0)
    ensures !q.Failure? ==> GetNextCheckInDaysErrorFirst(t, q) == GetNextCheckInDays(t, q)
  {
  }
}
