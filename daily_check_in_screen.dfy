/** The daily mood check-in: a mood and a stress level picked from five
    labels each (stored as 1..5), a toggled list of feelings and a free note;
    submission needs a participant and both picks. */
module DailyCheckIn {
  import opened Common
  import JsText
  import Membership

  const MoodLabels: seq<string> := ["Very Unhappy", "Unhappy", "Neutral", "Happy", "Very Happy"]
  const StressLabels: seq<string> := ["Not at all", "A little", "Moderate", "Quite a bit", "Extremely"]

  /** The row inserted into the mood-check table. */
  datatype MoodCheck = MoodCheck(
    participantId: int, moodScore: int, stressLevel: int,
    feelings: seq<string>, note: Option<string>, shift: Shift)

  /** The insert `handleSubmit` makes, if it makes one: the picks move from
      0-based indices to 1-based scores, the note is trimmed and dropped when
      empty, and the shift defaults to the day shift. */
  function MoodCheckRow(participant: Option<int>, mood: Option<int>, stress: Option<int>,
                        feelings: seq<string>, note: string, shift: Option<Shift>): (r: Option<MoodCheck>)
    ensures r.Some? <==> PresentNumber(participant) && mood.Some? && stress.Some?
    ensures r.Some? ==> r.value.moodScore == mood.value + 1 && r.value.stressLevel == stress.value + 1
    ensures r.Some? ==> r.value.feelings == feelings && r.value.participantId == participant.value
    ensures r.Some? ==> (r.value.note.None? <==> JsText.AllWhitespace(note))
    ensures r.Some? && r.value.note.Some? ==> r.value.note.value == JsText.Trim(note) != ""
    ensures r.Some? ==> (r.value.shift == Day <==> shift != Some(Night))
  {
    JsText.TrimEmptyIffAllWhitespace(note);
    if !PresentNumber(participant) || mood.None? || stress.None? then None
    else
      var trimmed := JsText.Trim(note);
      Some(MoodCheck(participant.value, mood.value + 1, stress.value + 1, feelings,
                     if trimmed == "" then None else Some(trimmed), ShiftOrDay(shift)))
  }

  /** A pick from the five labels is stored as a score from 1 to 5. */
  lemma StoredScoresInRange(participant: Option<int>, mood: int, stress: int,
                            feelings: seq<string>, note: string, shift: Option<Shift>)
    requires PresentNumber(participant)
    requires 0 <= mood < |MoodLabels| && 0 <= stress < |StressLabels|
    ensures var row := MoodCheckRow(participant, Some(mood), Some(stress), feelings, note, shift).value;
      1 <= row.moodScore <= 5 && 1 <= row.stressLevel <= 5
  {
  }

  datatype Event = Inserted(row: MoodCheck) | WentBack

  class DailyCheckInScreen {
    var moodScore: Option<int>
    var stressLevel: Option<int>
    var selectedFeelings: seq<string>
    var note: string
    var events: seq<Event>

    constructor ()
      ensures moodScore == None && stressLevel == None && selectedFeelings == [] && note == "" && events == []
    {
      moodScore, stressLevel := None, None;
      selectedFeelings, note := [], "";
      events := [];
    }

    method SelectMood(index: int)
      modifies this`moodScore
      ensures moodScore == Some(index)
    {
      moodScore := Some(index);
    }

    method SelectStress(index: int)
      modifies this`stressLevel
      ensures stressLevel == Some(index)
    {
      stressLevel := Some(index);
    }

    /** `setNote`, the state setter of the note */
    method SetNote(text: string)
      modifies this`note
      ensures note == text
    {
      note := text;
    }

    /** `toggleFeeling(feeling)` */
    method ToggleFeeling(feeling: string)
      modifies this`selectedFeelings
      ensures selectedFeelings == Membership.Toggled(old(selectedFeelings), feeling)
    {
      selectedFeelings := Membership.Toggled(selectedFeelings, feeling);
    }

    /** The submit button stays disabled until both picks are made. */
    predicate SubmitDisabled()
      reads this
    {
      moodScore.None? || stressLevel.None?
    }

    /** While the button is disabled a press inserts nothing, and with a
        participant an enabled button always leads to an insert. */
    lemma DisabledMeansNoRow(participant: Option<int>, shift: Option<Shift>)
      ensures SubmitDisabled() ==> MoodCheckRow(participant, moodScore, stressLevel, selectedFeelings, note, shift).None?
      ensures !SubmitDisabled() && PresentNumber(participant) ==>
        MoodCheckRow(participant, moodScore, stressLevel, selectedFeelings, note, shift).Some?
    {
    }

    /** `handleSubmit()`, given the session's participant and shift and whether
        the insert succeeded: nothing happens without a participant or both
        picks; otherwise the row is inserted and, on success only, the screen
        goes back. */
    method HandleSubmit(participant: Option<int>, shift: Option<Shift>, insertOk: bool)
      modifies this`events
      ensures var row := MoodCheckRow(participant, moodScore, stressLevel, selectedFeelings, note, shift);
        && (row.None? ==> events == old(events))
        && (row.Some? ==> events == old(events) + [Inserted(row.value)] + (if insertOk then [WentBack] else []))
    {
      var row := MoodCheckRow(participant, moodScore, stressLevel, selectedFeelings, note, shift);
      if row.None? {
        return;
      }
      events := events + [Inserted(row.value)];
      if insertOk {
        events := events + [WentBack];
      }
    }
  }
}
