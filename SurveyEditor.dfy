/**
  * The guards of the survey editor screen: what it sends to the store (and
  * when it sends nothing), the tag list it keeps, and the labels it shows.
  */
module SurveyEditor {
  import opened Wrappers
  import opened JsString
  import opened JsArray
  import opened SurveyData
  import SurveyStore

  /** A store operation the editor calls, with its arguments. */
  datatype StoreCall =
    | UpdateSurvey(surveyId: string, fields: SurveyPatch)
    | AddQuestionGroup(surveyId: string, name: string)
    | AddQuestion(surveyId: string, question: QuestionDraft)
    | UpdateQuestion(surveyId: string, questionId: string, draft: QuestionDraft)
    | ReorderQuestions(surveyId: string, startIndex: int, endIndex: int)

  /** The events `handleAddTag` listens to. */
  datatype TagEvent = KeyDown(key: string) | Click

  /** The two buttons beside each question. */
  datatype Direction = Up | Down

  // ---------------------------------------------------------------------------
  // Survey title and description

  /**
    * `handleSaveBasicInfo`: nothing when the title trims to empty; otherwise
    * an update with the trimmed title, the trimmed description and the tags.
    */
  function SaveBasicInfo(surveyId: string, title: string, description: string, tags: seq<string>): (r: Option<StoreCall>)
    ensures r.Some? <==> HasText(title)
    ensures r.Some? ==> r.value == UpdateSurvey(surveyId, SurveyPatch(Some(Trim(title)), Some(Trim(description)), Some(tags)))
  {
    if HasText(Trim(title)) then
      Some(UpdateSurvey(surveyId, SurveyPatch(Some(Trim(title)), Some(Trim(description)), Some(tags))))
    else None
  }

  /** A saved title is non-blank and already trimmed. */
  lemma SavedTitleIsTrimmed(surveyId: string, title: string, description: string, tags: seq<string>)
    ensures var r := SaveBasicInfo(surveyId, title, description, tags);
      r.Some? ==> var t := r.value.fields.title.value; HasText(t) && Trim(t) == t
  {
    TrimIdempotent(title);
  }

  // ---------------------------------------------------------------------------
  // Tags

  /**
    * The new tag list `handleAddTag` computes: the trimmed input appended,
    * only when it is non-empty and not already a tag; otherwise no change.
    */
  function AddedTags(tags: seq<string>, tagInput: string): (r: Option<seq<string>>)
    ensures r.Some? <==> HasText(tagInput) && Trim(tagInput) !in tags
    ensures r.Some? ==> |r.value| == |tags| + 1 && r.value[..|tags|] == tags && r.value[|tags|] == Trim(tagInput)
  {
    var trimmedTag := Trim(tagInput);
    if trimmedTag != "" && trimmedTag !in tags then Some(tags + [trimmedTag]) else None
  }

  /** `tags.filter(tag => tag !== tagToRemove)`. */
  function RemovedTag(tags: seq<string>, tagToRemove: string): (r: seq<string>)
    ensures |r| <= |tags|
    ensures forall t :: t in r <==> t in tags && t != tagToRemove
  {
    Filter((t: string) => t != tagToRemove, tags)
  }

  /** Adding a tag keeps the tags distinct. */
  lemma AddedTagsDistinct(tags: seq<string>, tagInput: string)
    requires Distinct(tags)
    ensures AddedTags(tags, tagInput).Some? ==> Distinct(AddedTags(tags, tagInput).value)
  {
  }

  /** Removing a tag keeps the tags distinct and the others in order. */
  lemma RemovedTagDistinct(tags: seq<string>, tagToRemove: string)
    requires Distinct(tags)
    ensures Distinct(RemovedTag(tags, tagToRemove))
  {
    FilterDistinct((t: string) => t != tagToRemove, tags);
  }

  /** Removing keeps the relative order of the other tags: it works piece by piece. */
  lemma RemovedTagConcat(a: seq<string>, b: seq<string>, tagToRemove: string)
    ensures RemovedTag(a + b, tagToRemove) == RemovedTag(a, tagToRemove) + RemovedTag(b, tagToRemove)
  {
    FilterConcat((t: string) => t != tagToRemove, a, b);
  }

  /** Adding a tag and then removing it gives the old tags back. */
  lemma AddThenRemoveTag(tags: seq<string>, tagInput: string)
    requires AddedTags(tags, tagInput).Some?
    ensures RemovedTag(AddedTags(tags, tagInput).value, Trim(tagInput)) == tags
  {
    var t := Trim(tagInput);
    var p := (x: string) => x != t;
    assert AddedTags(tags, tagInput).value == tags + [t];
    FilterConcat(p, tags, [t]);
    FilterKeepsAll(p, tags);
    assert Filter(p, [t]) == [];
  }

  // ---------------------------------------------------------------------------
  // Groups

  /** `handleAddGroup`: the trimmed name, and only when it is non-empty. */
  function GroupToAdd(surveyId: string, newGroupName: string): (r: Option<StoreCall>)
    ensures r.Some? <==> HasText(newGroupName)
    ensures r.Some? ==> r.value == AddQuestionGroup(surveyId, Trim(newGroupName)) && HasText(r.value.name)
  {
    if HasText(Trim(newGroupName)) then Some(AddQuestionGroup(surveyId, Trim(newGroupName))) else None
  }

  /**
    * The group badge of a question: shown only when the question has a
    * non-empty group id and the survey has a group list; it names the first
    * group with that id, or reads `Group` when none matches or its name is empty.
    */
  function GroupBadge(groupId: Option<string>, groups: Option<seq<QuestionGroup>>): (r: Option<string>)
    ensures r.Some? <==> groupId.Some? && groupId.value != "" && groups.Some?
    ensures r.Some? && r.value != "Group" ==>
      exists i :: 0 <= i < |groups.value| && groups.value[i].id == groupId.value && groups.value[i].name == r.value
    ensures r.Some? && (forall i :: 0 <= i < |groups.value| ==> groups.value[i].id != groupId.value) ==> r.value == "Group"
  {
    if groupId.Some? && groupId.value != "" && groups.Some? then
      var found := Find((g: QuestionGroup) => g.id == groupId.value, groups.value);
      Some(if found.Some? && found.value.name != "" then found.value.name else "Group")
    else None
  }

  /** With several groups under one id, the badge names the first of them. */
  lemma GroupBadgeNamesFirstMatch(groupId: string, groups: seq<QuestionGroup>, k: nat)
    requires groupId != ""
    requires k < |groups| && groups[k].id == groupId && groups[k].name != ""
    requires forall j :: 0 <= j < k ==> groups[j].id != groupId
    ensures GroupBadge(Some(groupId), Some(groups)) == Some(groups[k].name)
  {
    var p := (g: QuestionGroup) => g.id == groupId;
    assert FirstIndex(p, groups) == k;
  }

  // ---------------------------------------------------------------------------
  // Questions

  /** `handleAddQuestion`: an edited question is updated under its own id, anything else is added. */
  function RouteSavedQuestion(surveyId: string, editing: Option<Question>, draft: QuestionDraft): (r: StoreCall)
    ensures r.surveyId == surveyId
    ensures editing.Some? <==> r.UpdateQuestion?
    ensures editing.Some? ==> r.questionId == editing.value.id && r.draft == draft
    ensures editing.None? ==> r == AddQuestion(surveyId, draft)
  {
    if editing.Some? then UpdateQuestion(surveyId, editing.value.id, draft) else AddQuestion(surveyId, draft)
  }

  /**
    * `handleMoveQuestion`: the neighbour above or below, and a reorder only
    * when that position exists.
    */
  function MoveRequest(surveyId: string, index: int, direction: Direction, count: nat): (r: Option<StoreCall>)
    ensures var target := if direction == Up then index - 1 else index + 1;
      && (r.Some? <==> 0 <= target < count)
      && (r.Some? ==> r.value == ReorderQuestions(surveyId, index, target))
  {
    var newIndex := if direction == Up then index - 1 else index + 1;
    if 0 <= newIndex < count then Some(ReorderQuestions(surveyId, index, newIndex)) else None
  }

  /**
    * A move asked for a displayed question meets the store's requirement on
    * `startIndex`, and it swaps the question with its neighbour.
    */
  lemma MoveRequestSwapsNeighbours(surveyId: string, qs: seq<Question>, index: int, direction: Direction)
    requires 0 <= index < |qs|
    ensures var r := MoveRequest(surveyId, index, direction, |qs|);
      r.Some? ==>
        && 0 <= r.value.startIndex < |qs|
        && 0 <= r.value.endIndex < |qs|
        && var lo := if direction == Up then index - 1 else index;
           SurveyStore.Moved(qs, r.value.startIndex, r.value.endIndex) == qs[..lo] + [qs[lo + 1], qs[lo]] + qs[lo + 2..]
  {
    var r := MoveRequest(surveyId, index, direction, |qs|);
    if r.Some? {
      var lo := if direction == Up then index - 1 else index;
      SurveyStore.AdjacentMoveSwaps(qs, lo);
    }
  }

  /** Moving a question up and then back down restores the order. */
  lemma MoveUpThenDown(surveyId: string, qs: seq<Question>, index: int)
    requires 0 <= index < |qs|
    requires MoveRequest(surveyId, index, Up, |qs|).Some?
    ensures var up := MoveRequest(surveyId, index, Up, |qs|).value;
      && MoveRequest(surveyId, up.endIndex, Down, |qs|) == Some(ReorderQuestions(surveyId, index - 1, index))
      && SurveyStore.Moved(SurveyStore.Moved(qs, index, index - 1), index - 1, index) == qs
  {
    var up := MoveRequest(surveyId, index, Up, |qs|).value;
    assert up.endIndex == index - 1;
    assert RelativeIndex(|qs| - 1, index - 1) == index - 1;
    SurveyStore.MovedBack(qs, index, index - 1);
  }

  /** `getQuestionTypeLabel`: the label of each of the eight known types, else the type itself. */
  function TypeLabel(questionType: string): (r: string)
    ensures questionType !in KnownTypes ==> r == questionType
  {
    match questionType
    case "multiple-choice" => "○ Single Choice"
    case "multiple-select" => "☑ Multiple Select"
    case "dropdown" => "▼ Dropdown"
    case "open-ended" => "✏ Open-ended"
    case "rating-scale" => "★ Rating Scale"
    case "linear-scale" => "━ Linear Scale"
    case "date" => "\U{1F4C5} Date"
    case "time" => "\U{1F550} Time"
    case _ => questionType
  }

  /** The eight types with a label of their own. */
  const KnownTypes: set<string> := {
    "multiple-choice", "multiple-select", "dropdown", "open-ended",
    "rating-scale", "linear-scale", "date", "time"
  }

  /** A type is shown as itself exactly when it has no label of its own. */
  lemma TypeLabelFallback(questionType: string)
    ensures TypeLabel(questionType) == questionType <==> questionType !in KnownTypes
  {
  }

  /** Distinct known types get distinct labels. */
  lemma TypeLabelsDistinct(a: string, b: string)
    requires a in KnownTypes && b in KnownTypes && a != b
    ensures TypeLabel(a) != TypeLabel(b)
  {
  }

  // ---------------------------------------------------------------------------
  // The editor's own state

  /** The editor screen's state for one survey. */
  class EditorState {
    const surveyId: string
    var title: string
    var description: string
    var tags: seq<string>
    var tagInput: string
    var showQuestionForm: bool
    var editingQuestion: Option<Question>
    var showGroupForm: bool
    var newGroupName: string

    /** The initial state, read from the survey with that id if there is one. */
    constructor (surveyId: string, survey: Option<Survey>)
      ensures this.surveyId == surveyId
      ensures title == (if survey.Some? then survey.value.title else "")
      ensures description == (if survey.Some? then survey.value.description else "")
      ensures tags == (if survey.Some? then survey.value.tags else [])
      ensures tagInput == "" && newGroupName == ""
      ensures !showQuestionForm && editingQuestion == None && !showGroupForm
    {
      this.surveyId := surveyId;
      if survey.Some? {
        title, description, tags := survey.value.title, survey.value.description, survey.value.tags;
      } else {
        title, description, tags := "", "", [];
      }
      tagInput, newGroupName := "", "";
      showQuestionForm, editingQuestion, showGroupForm := false, None, false;
    }

    /** The effect run whenever the stored survey changes: title, description and tags are read again. */
    method Reload(survey: Survey)
      modifies this`title, this`description, this`tags
      ensures title == survey.title && description == survey.description && tags == survey.tags
    {
      title, description, tags := survey.title, survey.description, survey.tags;
    }

    /**
      * `handleAddTag`: on Enter or a click, appends the trimmed input when it
      * is a new, non-empty tag, clears the input and sends the new tags;
      * otherwise changes nothing and sends nothing.
      */
    method HandleAddTag(event: TagEvent) returns (call: Option<StoreCall>)
      modifies this`tags, this`tagInput
      ensures var added := AddedTags(old(tags), old(tagInput));
        if (event == Click || event == KeyDown("Enter")) && added.Some? then
          && tags == added.value
          && tagInput == ""
          && call == Some(UpdateSurvey(surveyId, SurveyPatch(None, None, Some(added.value))))
        else
          tags == old(tags) && tagInput == old(tagInput) && call == None
      ensures Distinct(old(tags)) ==> Distinct(tags)
    {
      call := None;
      if event == Click || event == KeyDown("Enter") {
        var newTags := AddedTags(tags, tagInput);
        if newTags.Some? {
          if Distinct(tags) {
            AddedTagsDistinct(tags, tagInput);
          }
          tags := newTags.value;
          tagInput := "";
          call := Some(UpdateSurvey(surveyId, SurveyPatch(None, None, Some(newTags.value))));
        }
      }
    }

    /** `handleRemoveTag`: drops every occurrence of the tag and sends the new tags. */
    method HandleRemoveTag(tagToRemove: string) returns (call: StoreCall)
      modifies this`tags
      ensures tags == RemovedTag(old(tags), tagToRemove)
      ensures call == UpdateSurvey(surveyId, SurveyPatch(None, None, Some(tags)))
      ensures Distinct(old(tags)) ==> Distinct(tags)
    {
      if Distinct(tags) {
        RemovedTagDistinct(tags, tagToRemove);
      }
      tags := RemovedTag(tags, tagToRemove);
      call := UpdateSurvey(surveyId, SurveyPatch(None, None, Some(tags)));
    }

    /** `handleAddGroup`: with a non-blank name, sends it trimmed and closes and clears the form. */
    method HandleAddGroup() returns (call: Option<StoreCall>)
      modifies this`newGroupName, this`showGroupForm
      ensures call == GroupToAdd(surveyId, old(newGroupName))
      ensures call.Some? ==> newGroupName == "" && !showGroupForm
      ensures call.None? ==> newGroupName == old(newGroupName) && showGroupForm == old(showGroupForm)
    {
      call := GroupToAdd(surveyId, newGroupName);
      if call.Some? {
        newGroupName := "";
        showGroupForm := false;
      }
    }

    /** `handleEditQuestion`: opens the form on the given question. */
    method HandleEditQuestion(question: Question)
      modifies this`editingQuestion, this`showQuestionForm
      ensures editingQuestion == Some(question) && showQuestionForm
    {
      editingQuestion := Some(question);
      showQuestionForm := true;
    }

    /** `handleAddQuestion`: routes the saved record, ends any edit and closes the form. */
    method HandleAddQuestion(draft: QuestionDraft) returns (call: StoreCall)
      modifies this`editingQuestion, this`showQuestionForm
      ensures call == RouteSavedQuestion(surveyId, old(editingQuestion), draft)
      ensures editingQuestion == None && !showQuestionForm
    {
      call := RouteSavedQuestion(surveyId, editingQuestion, draft);
      editingQuestion := None;
      showQuestionForm := false;
    }

    /** `handleSaveBasicInfo` on the current fields. */
    method HandleSaveBasicInfo() returns (call: Option<StoreCall>)
      ensures call == SaveBasicInfo(surveyId, title, description, tags)
    {
      call := SaveBasicInfo(surveyId, title, description, tags);
    }
  }
}
