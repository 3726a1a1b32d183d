/**
  * The question form: its state (type, text, required flag, option list), the
  * handlers that edit the option list, and the submit decision that either
  * rejects the input or builds the record handed to the store.
  */
module QuestionEditor {
  import opened Wrappers
  import opened JsString
  import opened JsArray
  import opened SurveyData

  /** The type a new question starts with. */
  const DefaultType: string := "multiple-choice"

  /** The option list a new question starts with: two empty entries. */
  const DefaultOptions: seq<string> := ["", ""]

  /**
    * The two types the form collects options for. The type a new question
    * starts with is one of them; `dropdown` is not.
    */
  predicate HasOptions(questionType: string): (b: bool)
    ensures questionType == DefaultType ==> b
    ensures b ==> questionType != "dropdown"
  {
    questionType == "multiple-choice" || questionType == "multiple-select"
  }

  /** Why a submit was refused (each shows an alert and saves nothing). */
  datatype Rejection = MissingText | TooFewOptions

  /** The outcome of a submit: a refusal, or the record passed to `onSave`. */
  datatype Submission = Rejected(reason: Rejection) | Saved(draft: QuestionDraft)

  /** `options.filter(opt => opt.trim())`: the entries with text, untrimmed, in order. */
  function ValidOptions(options: seq<string>): (r: seq<string>)
    ensures |r| <= |options|
    ensures forall o :: o in r <==> o in options && HasText(o)
  {
    Filter(HasText, options)
  }

  /**
    * What a saved record looks like: trimmed non-blank text, and options
    * exactly for the choice types, at least two of them, each with text.
    */
  predicate WellFormed(d: QuestionDraft) {
    && HasText(d.text)
    && Trim(d.text) == d.text
    && (d.options.Some? <==> HasOptions(d.questionType))
    && (d.options.Some? ==>
          |d.options.value| >= 2 && forall i :: 0 <= i < |d.options.value| ==> HasText(d.options.value[i]))
  }

  /**
    * `handleSubmit`: a blank text is refused first; for the choice types
    * fewer than two options with text are refused next; otherwise the record
    * carries the type, the trimmed text, the flag and, for the choice types
    * only, the options with text.
    */
  function Submit(questionType: string, questionText: string, required: bool, options: seq<string>): (r: Submission)
    ensures r == Rejected(MissingText) <==> IsBlank(questionText)
    ensures r == Rejected(TooFewOptions) <==>
      HasText(questionText) && HasOptions(questionType) && |ValidOptions(options)| < 2
    ensures r.Saved? ==>
      && r.draft.questionType == questionType
      && r.draft.text == Trim(questionText)
      && r.draft.required == required
      && r.draft.options == if HasOptions(questionType) then Some(ValidOptions(options)) else None
  {
    if IsBlank(Trim(questionText)) then Rejected(MissingText)
    else if HasOptions(questionType) then
      var validOptions := ValidOptions(options);
      if |validOptions| < 2 then Rejected(TooFewOptions)
      else Saved(QuestionDraft(questionType, Trim(questionText), required, Some(validOptions)))
    else Saved(QuestionDraft(questionType, Trim(questionText), required, None))
  }

  /** Every record the form saves is well formed. */
  lemma SubmitSavesWellFormed(questionType: string, questionText: string, required: bool, options: seq<string>)
    ensures var r := Submit(questionType, questionText, required, options);
      r.Saved? ==> WellFormed(r.draft)
  {
    TrimIdempotent(questionText);
    var v := ValidOptions(options);
    forall i | 0 <= i < |v| ensures HasText(v[i]) {
      assert v[i] in v;
    }
  }

  /** The options a form shows for a stored record: `question.options || ['', '']`. */
  function LoadedOptions(options: Option<seq<string>>): (r: seq<string>)
    ensures options.Some? ==> r == options.value
    ensures options.None? ==> |r| == 2 && forall i :: 0 <= i < |r| ==> r[i] == ""
  {
    options.GetOr(DefaultOptions)
  }

  /**
    * Opening a well-formed record in the form and submitting it unchanged
    * saves the same record.
    */
  lemma {:induction false} ResubmitUnchanged(d: QuestionDraft)
    requires WellFormed(d)
    ensures Submit(d.questionType, d.text, d.required, LoadedOptions(d.options)) == Saved(d)
  {
    if HasOptions(d.questionType) {
      FilterKeepsAll(HasText, d.options.value);
    }
  }

  /** The form's state and the handlers that change it. */
  class QuestionForm {
    var questionType: string
    var questionText: string
    var required: bool
    var options: seq<string>

    /**
      * The initial state: each field from the question being edited when its
      * value is truthy, else the default (`multiple-choice`, empty text, not
      * required, two empty options).
      */
    constructor (question: Option<Question>)
      ensures question.None? ==>
        questionType == DefaultType && questionText == "" && !required && options == DefaultOptions
      ensures question.Some? ==>
        && questionType == (if question.value.questionType != "" then question.value.questionType else DefaultType)
        && questionText == question.value.text
        && required == question.value.required
        && options == LoadedOptions(question.value.options)
    {
      if question.None? {
        questionType, questionText, required, options := DefaultType, "", false, DefaultOptions;
      } else {
        var q := question.value;
        questionType := if q.questionType != "" then q.questionType else DefaultType;
        questionText := q.text;
        required := q.required;
        options := LoadedOptions(q.options);
      }
    }

    /** The effect run when the edited question changes: reload every field from it. */
    method Load(question: Question)
      modifies this
      ensures questionType == question.questionType && questionText == question.text
      ensures required == question.required && options == LoadedOptions(question.options)
    {
      questionType := question.questionType;
      questionText := question.text;
      required := question.required;
      options := LoadedOptions(question.options);
    }

    /** `handleAddOption`: one empty entry at the end, the others untouched. */
    method AddOption()
      modifies this`options
      ensures options == old(options) + [""]
    {
      options := options + [""];
    }

    /**
      * `handleRemoveOption`: drops exactly the entry at `index`, and only
      * while more than two entries remain; the list never shrinks below two.
      */
    method RemoveOption(index: int)
      modifies this`options
      ensures |old(options)| > 2 && 0 <= index < |old(options)| ==> options == RemoveAt(old(options), index)
      ensures !(|old(options)| > 2 && 0 <= index < |old(options)|) ==> options == old(options)
      ensures |old(options)| >= 2 ==> |options| >= 2
    {
      if |options| > 2 && 0 <= index < |options| {
        options := RemoveAt(options, index);
      }
    }

    /** `handleOptionChange`: replaces the entry at `index` only; the length is unchanged. */
    method ChangeOption(index: int, value: string)
      requires 0 <= index < |options|
      modifies this`options
      ensures |options| == |old(options)| && options[index] == value
      ensures forall i :: 0 <= i < |options| && i != index ==> options[i] == old(options)[i]
    {
      options := options[index := value];
    }

    /** `handleSubmit` on the current state; saved records are well formed. */
    method HandleSubmit() returns (r: Submission)
      ensures r == Submit(questionType, questionText, required, options)
      ensures r.Saved? ==> WellFormed(r.draft)
    {
      r := Submit(questionType, questionText, required, options);
      SubmitSavesWellFormed(questionType, questionText, required, options);
    }
  }
}
