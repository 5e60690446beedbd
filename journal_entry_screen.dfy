/** The journal entry screen: free text, an optional prompt and a toggled
    list of tags; saving needs non-blank text and a participant, and a saving
    flag brackets the insert. */
module JournalEntry {
  import opened Common
  import JsText
  import Membership

  /** The row inserted into the journal table. */
  datatype JournalRow = JournalRow(participantId: int, content: string, prompt: string, tags: seq<string>, shift: Shift)

  /** The insert `handleSave` makes, if it makes one: the text trimmed, the
      prompt defaulting to the empty string and the shift to the day shift. */
  function JournalRowFor(participant: Option<int>, content: string, prompt: Option<string>,
                         tags: seq<string>, shift: Option<Shift>): (r: Option<JournalRow>)
    ensures r.Some? <==> PresentNumber(participant) && !JsText.AllWhitespace(content)
    ensures r.Some? ==> r.value.content == JsText.Trim(content) && r.value.content != ""
    ensures r.Some? ==> r.value.prompt == (if prompt.Some? then prompt.value else "")
    ensures r.Some? ==> r.value.tags == tags && r.value.participantId == participant.value
    ensures r.Some? ==> (r.value.shift == Day <==> shift != Some(Night))
  {
    JsText.TrimEmptyIffAllWhitespace(content);
    var trimmed := JsText.Trim(content);
    if trimmed == "" || !PresentNumber(participant) then None
    else Some(JournalRow(participant.value, trimmed, if PresentText(prompt) then prompt.value else "", tags, ShiftOrDay(shift)))
  }

  /** What the screen does, in order. */
  datatype Event = SavingStarted | Inserted(row: JournalRow) | SavingEnded | WentBack

  class JournalEntryScreen {
    const prompt: Option<string>
    var content: string
    var selectedTags: seq<string>
    var isSaving: bool
    var events: seq<Event>

    constructor (prompt: Option<string>)
      ensures this.prompt == prompt && content == "" && selectedTags == [] && !isSaving && events == []
    {
      this.prompt := prompt;
      content, selectedTags := "", [];
      isSaving := false;
      events := [];
    }

    /** `setContent`, the text input's change handler */
    method SetContent(text: string)
      modifies this`content
      ensures content == text
    {
      content := text;
    }

    /** `toggleTag(tag)` */
    method ToggleTag(tag: string)
      modifies this`selectedTags
      ensures selectedTags == Membership.Toggled(old(selectedTags), tag)
    {
      selectedTags := Membership.Toggled(selectedTags, tag);
    }

    /** The save button is disabled for blank text and while saving. */
    predicate SaveDisabled()
      reads this
    {
      JsText.Trim(content) == "" || isSaving
    }

    /** The button is disabled while a save is in flight and for blank text,
        and blank text is also what `handleSave` refuses: with a participant,
        an enabled button always leads to an insert. */
    lemma DisabledWhileSavingOrBlank(participant: Option<int>, shift: Option<Shift>)
      ensures isSaving ==> SaveDisabled()
      ensures SaveDisabled() && !isSaving ==> JournalRowFor(participant, content, prompt, selectedTags, shift).None?
      ensures !SaveDisabled() && PresentNumber(participant) ==>
        JournalRowFor(participant, content, prompt, selectedTags, shift).Some?
    {
      JsText.TrimEmptyIffAllWhitespace(content);
    }

    /** `handleSave()`, given the session's participant and shift and whether
        the insert succeeded: nothing happens for blank text or without a
        participant; otherwise the saving flag is raised, the row inserted,
        the flag lowered, and the screen goes back only on success. */
    method HandleSave(participant: Option<int>, shift: Option<Shift>, insertOk: bool)
      modifies this`isSaving, this`events
      ensures JournalRowFor(participant, content, prompt, selectedTags, shift).None? ==>
        isSaving == old(isSaving) && events == old(events)
      ensures JournalRowFor(participant, content, prompt, selectedTags, shift).Some? ==>
        var row := JournalRowFor(participant, content, prompt, selectedTags, shift).value;
        !isSaving && events == old(events) + [SavingStarted, Inserted(row)]
                                + (if insertOk then [WentBack] else []) + [SavingEnded]
    {
      var row := JournalRowFor(participant, content, prompt, selectedTags, shift);
      if row.None? {
        return;
      }
      ghost var before := events;
      isSaving := true;
      events := events + [SavingStarted];
      events := events + [Inserted(row.value)];
      if insertOk {
        events := events + [WentBack];
      }
      assert events == before + [SavingStarted, Inserted(row.value)] + (if insertOk then [WentBack] else []);
      isSaving := false;
      events := events + [SavingEnded];
    }
  }
}
