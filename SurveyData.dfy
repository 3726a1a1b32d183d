/**
  * The records the survey store keeps and the two ways it combines them with
  * incoming fields: object spread `{ ...old, ...updates }` for merges, and
  * `{ id, ...fields }` for new questions.
  */
module SurveyData {
  import opened Wrappers

  /**
    * A stored question. `options` is present for the choice types (and
    * survives a later update that carries none); `groupId` is the optional
    * group tag the editor displays.
    */
  datatype Question = Question(
    id: string,
    questionType: string,
    text: string,
    required: bool,
    options: Option<seq<string>>,
    groupId: Option<string>)

  /** The record the question editor hands to the store: no id, no group. */
  datatype QuestionDraft = QuestionDraft(
    questionType: string,
    text: string,
    required: bool,
    options: Option<seq<string>>)

  /** A named label that questions may reference through `groupId`. */
  datatype QuestionGroup = QuestionGroup(id: string, name: string)

  /**
    * A survey record. `tags` is read by the editor as `survey.tags || []`,
    * so a survey created without tags carries the empty list here.
    */
  datatype Survey = Survey(
    id: string,
    title: string,
    description: string,
    tags: seq<string>,
    questions: seq<Question>,
    createdAt: string,
    updatedAt: string)

  /** The fields an `updateSurvey` call carries; an absent field keeps the old value. */
  datatype SurveyPatch = SurveyPatch(
    title: Option<string>,
    description: Option<string>,
    tags: Option<seq<string>>)

  /** `{ id, ...question }`: a draft becomes a question under a fresh id, ungrouped. */
  function NewQuestion(id: string, d: QuestionDraft): (q: Question)
    ensures q.id == id && q.groupId == None
  {
    Question(id, d.questionType, d.text, d.required, d.options, None)
  }

  /**
    * `{ ...q, ...updates }`: the draft's type, text and required flag replace
    * the question's; its options replace the old ones only when present; the
    * id and the group tag are kept.
    */
  function MergeQuestion(q: Question, d: QuestionDraft): (r: Question)
    ensures r.id == q.id && r.groupId == q.groupId
  {
    q.(questionType := d.questionType, text := d.text, required := d.required,
       options := if d.options.Some? then d.options else q.options)
  }

  /** A fresh survey: no tags, no questions, both timestamps `now`. */
  function NewSurvey(id: string, title: string, description: string, now: string): (s: Survey)
    ensures s.id == id && s.title == title && s.description == description
    ensures s.tags == [] && s.questions == []
    ensures s.createdAt == now && s.updatedAt == now
  {
    Survey(id, title, description, [], [], now, now)
  }

  /** `{ ...survey, ...updates, updatedAt: now }`. */
  function MergeSurvey(s: Survey, p: SurveyPatch, now: string): (r: Survey)
    ensures r.id == s.id && r.questions == s.questions && r.createdAt == s.createdAt
    ensures r.updatedAt == now
  {
    s.(title := p.title.GetOr(s.title),
       description := p.description.GetOr(s.description),
       tags := p.tags.GetOr(s.tags),
       updatedAt := now)
  }

  /** Saving a question again with the draft it was created from changes nothing. */
  lemma MergeSameDraft(id: string, d: QuestionDraft)
    ensures MergeQuestion(NewQuestion(id, d), d) == NewQuestion(id, d)
  {
  }

  /** Merging the same draft twice is merging it once. */
  lemma MergeQuestionIdempotent(q: Question, d: QuestionDraft)
    ensures MergeQuestion(MergeQuestion(q, d), d) == MergeQuestion(q, d)
  {
  }

  /**
    * A draft without options (any type other than the two choice types)
    * leaves a question's old options in place: spread only overwrites the
    * fields the update carries.
    */
  lemma MergeKeepsStaleOptions(q: Question, d: QuestionDraft)
    requires d.options == None
    ensures MergeQuestion(q, d).options == q.options
  {
  }
}
