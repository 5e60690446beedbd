/** The three research instruments as constant data: each question's id, its
    answer options (the response stored is the 0-based option index) and
    whether it is reverse-keyed. Question texts are not part of the model. */
module SurveyQuestions {

  datatype Question = Question(id: string, options: seq<string>, reverse: bool)

  const FrequencyOptions: seq<string> :=
    ["Never", "Almost Never", "Sometimes", "Fairly Often", "Very Often"]

  const CopeOptions: seq<string> :=
    ["Not at all", "A little bit", "Moderately", "A lot"]

  const Who5Options: seq<string> :=
    ["At no time", "Some of the time", "Less than half of the time",
     "More than half of the time", "Most of the time", "All of the time"]

  /** Cohen's Perceived Stress Scale, four-item form; items 2 and 3 are the
      positively worded ones and are reverse-scored. */
  const Pss4Questions: seq<Question> := [
    Question("pss1", FrequencyOptions, false),
    Question("pss2", FrequencyOptions, true),
    Question("pss3", FrequencyOptions, true),
    Question("pss4", FrequencyOptions, false)
  ]

  /** A six-item selection from the Brief COPE inventory. */
  const CopeQuestions: seq<Question> := [
    Question("cope1", CopeOptions, false),
    Question("cope2", CopeOptions, false),
    Question("cope3", CopeOptions, false),
    Question("cope4", CopeOptions, false),
    Question("cope5", CopeOptions, false),
    Question("cope6", CopeOptions, false)
  ]

  /** The WHO-5 Well-Being Index. */
  const Who5Questions: seq<Question> := [
    Question("who1", Who5Options, false),
    Question("who2", Who5Options, false),
    Question("who3", Who5Options, false),
    Question("who4", Who5Options, false),
    Question("who5", Who5Options, false)
  ]

  function Ids(qs: seq<Question>): (ids: seq<string>)
    ensures |ids| == |qs|
    ensures forall i :: 0 <= i < |qs| ==> ids[i] == qs[i].id
  {
    if qs == [] then [] else [qs[0].id] + Ids(qs[1..])
  }

  predicate DistinctIds(qs: seq<Question>)
  {
    forall i, j :: 0 <= i < j < |qs| ==> qs[i].id != qs[j].id
  }

  /** PSS-4: items pss1..pss4, five options each, exactly pss2 and pss3 reversed. */
  lemma Pss4Shape()
    ensures Ids(Pss4Questions) == ["pss1", "pss2", "pss3", "pss4"]
    ensures forall q :: q in Pss4Questions ==> |q.options| == 5
    ensures forall q :: q in Pss4Questions ==> (q.reverse <==> q.id == "pss2" || q.id == "pss3")
  {
  }

  /** COPE: six items with four options, none reversed. */
  lemma CopeShape()
    ensures Ids(CopeQuestions) == ["cope1", "cope2", "cope3", "cope4", "cope5", "cope6"]
    ensures forall q :: q in CopeQuestions ==> |q.options| == 4 && !q.reverse
  {
  }

  /** WHO-5: five items with six options, none reversed. */
  lemma Who5Shape()
    ensures Ids(Who5Questions) == ["who1", "who2", "who3", "who4", "who5"]
    ensures forall q :: q in Who5Questions ==> |q.options| == 6 && !q.reverse
  {
  }

  /** No id is shared, within an instrument or across the three of them. */
  lemma IdsUniqueAcrossInstruments()
    ensures DistinctIds(Pss4Questions + CopeQuestions + Who5Questions)
  {
    var all := Pss4Questions + CopeQuestions + Who5Questions;
    forall i, j | 0 <= i < j < |all| ensures all[i].id != all[j].id {
      var a, b := all[i].id, all[j].id;
      if |a| == |b| {
        assert a[|a| - 1] != b[|b| - 1] || a[0] != b[0];
      }
    }
  }
}
