/** The research survey screen: it picks the instrument for the survey type,
    keeps the answers in a map from question id to option index, scores them
    (reverse-keyed items as `4 - v`), gates submission on completeness and
    session data, and on a successful insert schedules the next reminder
    before leaving. */
module ResearchCheckIn {
  import opened Common
  import opened SurveyQuestions
  import RS = ResearchSchedule
  import N = Notifications

  /** `type === 'PSS4' ? PSS4 : type === 'COPE' ? COPE : WHO5`: any type other
      than PSS4 and COPE gets the WHO-5 questions. */
  function QuestionsFor(checkInType: string): (qs: seq<Question>)
    ensures qs == Pss4Questions <==> checkInType == RS.PSS4
    ensures qs == CopeQuestions <==> checkInType == RS.COPE
    ensures qs == Who5Questions <==> checkInType != RS.PSS4 && checkInType != RS.COPE
  {
    if checkInType == RS.PSS4 then Pss4Questions
    else if checkInType == RS.COPE then CopeQuestions
    else Who5Questions
  }

  /** What one answered question adds to the total. */
  function Contribution(q: Question, value: int): int
  {
    if q.reverse then 4 - value else value
  }

  /** The total over the answered questions; unanswered ones add nothing. */
  function Score(qs: seq<Question>, responses: map<string, int>): int
  {
    if qs == [] then 0
    else
      var last := qs[|qs| - 1];
      Score(qs[..|qs| - 1], responses) + (if last.id in responses then Contribution(last, responses[last.id]) else 0)
  }

  /** Every question has an answer (`questions.every(...)`). */
  predicate Complete(qs: seq<Question>, responses: map<string, int>)
  {
    forall i :: 0 <= i < |qs| ==> qs[i].id in responses
  }

  /** How many questions have an answer (`questions.filter(...).length`). */
  function Answered(qs: seq<Question>, responses: map<string, int>): nat
  {
    if qs == [] then 0
    else Answered(qs[..|qs| - 1], responses) + (if qs[|qs| - 1].id in responses then 1 else 0)
  }

  /** Every answer given is an option index of its question. */
  predicate ValidAnswers(qs: seq<Question>, responses: map<string, int>)
  {
    forall i :: 0 <= i < |qs| && qs[i].id in responses ==> 0 <= responses[qs[i].id] < |qs[i].options|
  }

  /** Every question offers an option, and reverse scoring `4 - v` assumes at
      most five. */
  predicate ScaleFits(qs: seq<Question>)
  {
    forall i :: 0 <= i < |qs| ==> 1 <= |qs[i].options| && (qs[i].reverse ==> |qs[i].options| <= 5)
  }

  /** The highest total the instrument allows. */
  function MaxScore(qs: seq<Question>): int
  {
    if qs == [] then 0
    else MaxScore(qs[..|qs| - 1]) + (if qs[|qs| - 1].reverse then 4 else |qs[|qs| - 1].options| - 1)
  }

  /** With no answers the total is 0. */
  lemma {:induction false} ScoreOfNoAnswers(qs: seq<Question>)
    ensures Score(qs, map[]) == 0
  {
    if qs != [] {
      ScoreOfNoAnswers(qs[..|qs| - 1]);
    }
  }

  /** With valid option indices every contribution, reversed or not, stays
      within its question's range, so the total lies in 0..MaxScore. */
  lemma {:induction false} ScoreRange(qs: seq<Question>, responses: map<string, int>)
    requires ValidAnswers(qs, responses) && ScaleFits(qs)
    ensures 0 <= Score(qs, responses) <= MaxScore(qs)
  {
    if qs != [] {
      var init := qs[..|qs| - 1];
      assert ValidAnswers(init, responses) && ScaleFits(init) by {
        forall i | 0 <= i < |init| ensures init[i] == qs[i] { }
      }
      ScoreRange(init, responses);
      var last := qs[|qs| - 1];
      if last.id in responses {
        var v := responses[last.id];
        assert 0 <= v < |last.options|;
        assert last.reverse ==> |last.options| <= 5;
        assert 0 <= Contribution(last, v) <= (if last.reverse then 4 else |last.options| - 1);
      }
    }
  }

  /** The answered count never exceeds the number of questions and reaches it
      exactly when the survey is complete. */
  lemma {:induction false} AnsweredCountBound(qs: seq<Question>, responses: map<string, int>)
    ensures Answered(qs, responses) <= |qs|
    ensures Answered(qs, responses) == |qs| <==> Complete(qs, responses)
  {
    if qs != [] {
      var init := qs[..|qs| - 1];
      AnsweredCountBound(init, responses);
      assert forall i :: 0 <= i < |init| ==> init[i] == qs[i];
      if Complete(qs, responses) {
        assert Complete(init, responses);
      }
    }
  }

  /** When every item ranges over `k` options (a reverse item over five), the
      highest total is `k - 1` per item. */
  lemma {:induction false} MaxScoreOfUniformScale(qs: seq<Question>, k: int)
    requires forall i :: 0 <= i < |qs| ==> |qs[i].options| == k && (qs[i].reverse ==> k == 5)
    ensures MaxScore(qs) == |qs| * (k - 1)
  {
    if qs != [] {
      MaxScoreOfUniformScale(qs[..|qs| - 1], k);
      assert (|qs| - 1) * (k - 1) + (k - 1) == |qs| * (k - 1);
    }
  }

  /** The instruments' ranges: PSS-4 0..16, COPE 0..18, WHO-5 0..25. */
  lemma InstrumentScoreRanges(responses: map<string, int>)
    ensures ValidAnswers(Pss4Questions, responses) ==> 0 <= Score(Pss4Questions, responses) <= 16
    ensures ValidAnswers(CopeQuestions, responses) ==> 0 <= Score(CopeQuestions, responses) <= 18
    ensures ValidAnswers(Who5Questions, responses) ==> 0 <= Score(Who5Questions, responses) <= 25
  {
    MaxScoreOfUniformScale(Pss4Questions, 5);
    MaxScoreOfUniformScale(CopeQuestions, 4);
    MaxScoreOfUniformScale(Who5Questions, 6);
    if ValidAnswers(Pss4Questions, responses) {
      ScoreRange(Pss4Questions, responses);
    }
    if ValidAnswers(CopeQuestions, responses) {
      ScoreRange(CopeQuestions, responses);
    }
    if ValidAnswers(Who5Questions, responses) {
      ScoreRange(Who5Questions, responses);
    }
  }

  /** The reverse-keyed PSS-4 item pss2 turns the lowest answer into the
      highest contribution and back. */
  lemma Pss2IsReversed()
    ensures Pss4Questions[1].id == "pss2"
    ensures Contribution(Pss4Questions[1], 0) == 4 && Contribution(Pss4Questions[1], 4) == 0
    ensures Contribution(Pss4Questions[0], 4) == 4
  {
  }

  /** The row inserted into the check-in table. */
  datatype CheckInRow = CheckInRow(participantId: int, checkInType: string, responses: map<string, int>, shift: Shift)

  /** What the screen does, in order. */
  datatype Event =
    | Inserted(row: CheckInRow)
    | ReminderRequested(call: N.ResearchCall)
    | WentBack
    | Alerted(title: string)

  function ReminderEvents(calls: seq<N.ResearchCall>): (events: seq<Event>)
    ensures |events| == |calls|
    ensures forall i :: 0 <= i < |calls| ==> events[i] == ReminderRequested(calls[i])
  {
    if calls == [] then [] else [ReminderRequested(calls[0])] + ReminderEvents(calls[1..])
  }

  /** What `handleSubmit` does once the insert has come back: on success it
      requests the next reminder and goes back, on failure it alerts. */
  function AfterInsert(participantId: int, checkInType: string, insertOk: bool, deviceIdRead: bool): seq<Event>
  {
    if insertOk
    then ReminderEvents(RS.ScheduleNextCheckIn(participantId, checkInType, deviceIdRead)) + [WentBack]
    else [Alerted("Error")]
  }

  class ResearchCheckInScreen {
    const checkInType: string
    var responses: map<string, int>
    var isSubmitting: bool
    var isAvailable: bool
    var events: seq<Event>

    constructor (checkInType: string)
      ensures this.checkInType == checkInType
      ensures responses == map[] && !isSubmitting && !isAvailable && events == []
    {
      this.checkInType := checkInType;
      responses := map[];
      isSubmitting := false;
      isAvailable := false;
      events := [];
    }

    function Questions(): seq<Question>
    {
      QuestionsFor(checkInType)
    }

    /** The mount effect: with a participant, ask `canTakeCheckIn`; when it
        answers no, alert and go back. */
    method CheckAvailability(participant: Option<int>, lookup: RS.QueryResult)
      modifies this`isAvailable, this`events
      ensures !PresentNumber(participant) ==> isAvailable == old(isAvailable) && events == old(events)
      ensures PresentNumber(participant) ==> isAvailable == RS.CanTakeCheckIn(checkInType, lookup)
      ensures PresentNumber(participant) ==>
        events == old(events) + (if isAvailable then [] else [Alerted("Not Available"), WentBack])
    {
      if PresentNumber(participant) {
        var available := RS.CanTakeCheckIn(checkInType, lookup);
        isAvailable := available;
        if !available {
          events := events + [Alerted("Not Available"), WentBack];
        }
      }
    }

    /** `handleResponse(questionId, value)`: records this answer, overwriting
        an earlier one, and leaves every other answer as it was. */
    method HandleResponse(questionId: string, value: int)
      modifies this`responses
      ensures responses.Keys == old(responses).Keys + {questionId}
      ensures responses[questionId] == value
      ensures forall id :: id in old(responses) && id != questionId ==> responses[id] == old(responses)[id]
    {
      responses := responses[questionId := value];
    }

    /** `getScore()` */
    method GetScore() returns (score: int)
      ensures score == Score(Questions(), responses)
    {
      var qs := Questions();
      score := 0;
      for i := 0 to |qs|
        invariant score == Score(qs[..i], responses)
      {
        var question := qs[i];
        if question.id in responses {
          var value := responses[question.id];
          score := score + if question.reverse then 4 - value else value;
        }
        assert qs[..i + 1][..i] == qs[..i];
      }
      assert qs[..|qs|] == qs;
    }

    predicate IsComplete()
      reads this
    {
      Complete(Questions(), responses)
    }

    function AnsweredCount(): nat
      reads this
    {
      Answered(Questions(), responses)
    }

    /** The submit button is disabled until the survey is complete and while
        a submission is in flight. */
    predicate SubmitDisabled()
      reads this
    {
      !IsComplete() || isSubmitting
    }

    /** The button is enabled exactly when the progress line reads "n/n
        completed" and no submission is in flight. */
    lemma EnabledIffAllAnswered()
      ensures isSubmitting ==> SubmitDisabled()
      ensures !SubmitDisabled() <==> AnsweredCount() == |Questions()| && !isSubmitting
    {
      AnsweredCountBound(Questions(), responses);
    }

    /** `handleSubmit()`, given the session's participant and shift, whether
        the insert succeeded and whether the device id could be read. Without
        a complete survey, a participant and a shift nothing happens. Otherwise
        the row is inserted; on success the next reminder is requested and the
        screen goes back, on failure it alerts; either way the in-flight flag
        ends cleared. */
    method HandleSubmit(participant: Option<int>, shift: Option<Shift>, insertOk: bool, deviceIdRead: bool)
      modifies this`isSubmitting, this`events
      ensures !(IsComplete() && PresentNumber(participant) && shift.Some?) ==>
        isSubmitting == old(isSubmitting) && events == old(events)
      ensures IsComplete() && PresentNumber(participant) && shift.Some? ==>
        && !isSubmitting
        && events == old(events)
           + [Inserted(CheckInRow(participant.value, checkInType, responses, shift.value))]
           + AfterInsert(participant.value, checkInType, insertOk, deviceIdRead)
    {
      if !IsComplete() || !PresentNumber(participant) || shift.None? {
        return;
      }
      isSubmitting := true;
      events := events + [Inserted(CheckInRow(participant.value, checkInType, responses, shift.value))];
      if insertOk {
        var calls := RS.ScheduleNextCheckIn(participant.value, checkInType, deviceIdRead);
        events := events + ReminderEvents(calls);
        events := events + [WentBack];
      } else {
        events := events + [Alerted("Error")];
      }
      isSubmitting := false;
    }
  }

  /** A reminder is only ever requested after a successful insert of the same
      survey: in the events of one submission, the insert comes first and a
      failed insert is followed by the alert alone. */
  lemma {:induction false} ReminderOnlyAfterInsert(row: CheckInRow, insertOk: bool, deviceIdRead: bool)
    ensures var tail := AfterInsert(row.participantId, row.checkInType, insertOk, deviceIdRead);
      && (!insertOk ==> forall e :: e in tail ==> !e.ReminderRequested? && !e.WentBack?)
      && (insertOk ==> tail[|tail| - 1] == WentBack)
      && (insertOk && deviceIdRead && RS.HasSchedule(row.checkInType) ==> tail[0].ReminderRequested?)
  {
  }
}
