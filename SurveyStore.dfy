/**
  * The in-memory survey catalog: an ordered list of surveys and a selected
  * copy of one of them. Every survey-level edit is applied twice, once to the
  * list entries with the target id and once to the selected copy when its id
  * matches, which keeps the copy an element of the list.
  */
module SurveyStore {
  import opened Wrappers
  import opened JsString
  import opened JsArray
  import opened SurveyData

  /** One survey-level edit, as the store applies it to a list entry and to the selected copy. */
  datatype SurveyEdit =
    | Merge(fields: SurveyPatch, now: string)
    | AppendQuestion(question: Question, now: string)
    | ReviseQuestion(questionId: string, draft: QuestionDraft, now: string)
    | DropQuestion(questionId: string, now: string)
    | SetQuestions(questions: seq<Question>, now: string)

  /**
    * `questions.map(q => q.id === questionId ? { ...q, ...updates } : q)`:
    * every question keeps its position; those with the id, and only those,
    * are merged.
    */
  function ReviseQuestions(qs: seq<Question>, questionId: string, d: QuestionDraft): (r: seq<Question>)
    ensures |r| == |qs|
    ensures forall i :: 0 <= i < |qs| ==>
      r[i] == if qs[i].id == questionId then MergeQuestion(qs[i], d) else qs[i]
  {
    if qs == [] then []
    else
      [if qs[0].id == questionId then MergeQuestion(qs[0], d) else qs[0]]
      + ReviseQuestions(qs[1..], questionId, d)
  }

  /** `questions.filter(q => q.id !== questionId)`: every question with the id goes, the rest stay. */
  function WithoutQuestion(qs: seq<Question>, questionId: string): (r: seq<Question>)
    ensures |r| <= |qs|
    ensures forall q :: q in r <==> q in qs && q.id != questionId
  {
    Filter((q: Question) => q.id != questionId, qs)
  }

  /** The survey an edit produces; the id and the creation time never change. */
  function ApplyEdit(e: SurveyEdit, s: Survey): (r: Survey)
    ensures r.id == s.id && r.createdAt == s.createdAt && r.updatedAt == e.now
  {
    match e
    case Merge(updates, now) => MergeSurvey(s, updates, now)
    case AppendQuestion(q, now) => s.(questions := s.questions + [q], updatedAt := now)
    case ReviseQuestion(qid, d, now) => s.(questions := ReviseQuestions(s.questions, qid, d), updatedAt := now)
    case DropQuestion(qid, now) => s.(questions := WithoutQuestion(s.questions, qid), updatedAt := now)
    case SetQuestions(qs, now) => s.(questions := qs, updatedAt := now)
  }

  /**
    * `surveys.map(s => s.id === id ? edit(s) : s)`: the list keeps its length
    * and order; the surveys with the id, and only those, are edited.
    */
  function EditWhere(ss: seq<Survey>, id: string, e: SurveyEdit): (r: seq<Survey>)
    ensures |r| == |ss|
    ensures forall i :: 0 <= i < |ss| ==>
      r[i] == if ss[i].id == id then ApplyEdit(e, ss[i]) else ss[i]
  {
    if ss == [] then []
    else
      [if ss[0].id == id then ApplyEdit(e, ss[0]) else ss[0]] + EditWhere(ss[1..], id, e)
  }

  /**
    * `currentSurvey?.id === id ? edit(currentSurvey) : currentSurvey`: the
    * selection stays as it is, and the selected copy keeps its id and is edited
    * exactly when its id is the target.
    */
  function EditSelected(cur: Option<Survey>, id: string, e: SurveyEdit): (r: Option<Survey>)
    ensures r.Some? <==> cur.Some?
    ensures cur.Some? ==> r.value.id == cur.value.id
    ensures cur.Some? && cur.value.id == id ==> r.value == ApplyEdit(e, cur.value)
    ensures cur.Some? && cur.value.id != id ==> r == cur
  {
    if cur.Some? && cur.value.id == id then Some(ApplyEdit(e, cur.value)) else cur
  }

  /** `surveys.find(s => s.id === id)`: the first survey with the id, if any. */
  function FindSurvey(ss: seq<Survey>, id: string): (r: Option<Survey>)
    ensures r.None? <==> forall i :: 0 <= i < |ss| ==> ss[i].id != id
    ensures r.Some? ==> r.value in ss && r.value.id == id
    ensures r.Some? ==> exists k :: 0 <= k < |ss| && ss[k] == r.value && forall j :: 0 <= j < k ==> ss[j].id != id
  {
    var p := (s: Survey) => s.id == id;
    var r := Find(p, ss);
    assert r.Some? ==> ss[FirstIndex(p, ss)] == r.value;
    r
  }

  /** `surveys.filter(s => s.id !== id)`: every survey with the id goes, the rest stay in order. */
  function RemainingSurveys(ss: seq<Survey>, id: string): (r: seq<Survey>)
    ensures |r| <= |ss|
    ensures forall s :: s in r <==> s in ss && s.id != id
  {
    Filter((s: Survey) => s.id != id, ss)
  }

  /**
    * `currentSurvey?.id === id ? null : currentSurvey`: nothing is selected
    * afterwards exactly when nothing was or the deleted survey was; otherwise
    * the selection is unchanged.
    */
  function DeselectDeleted(cur: Option<Survey>, id: string): (r: Option<Survey>)
    ensures r.None? <==> cur.None? || cur.value.id == id
    ensures r.Some? ==> r == cur
  {
    if cur.Some? && cur.value.id == id then None else cur
  }

  /**
    * The copy-and-splice of `reorderQuestions`: take the element at `from`
    * out, then put it back where `splice(to, 0, x)` puts it in the shorter list.
    * The element lands at the clamped target, taking it out of the result
    * leaves the same list as taking it out of the input (every other element
    * keeps its relative order), and the result is a permutation of the input.
    */
  function Moved<T>(s: seq<T>, from: nat, to: int): (r: seq<T>)
    requires from < |s|
    ensures |r| == |s|
    ensures RelativeIndex(|s| - 1, to) < |s|
    ensures r[RelativeIndex(|s| - 1, to)] == s[from]
    ensures RemoveAt(r, RelativeIndex(|s| - 1, to)) == RemoveAt(s, from)
    ensures multiset(r) == multiset(s)
  {
    var rest := RemoveAt(s, from);
    var k := RelativeIndex(|rest|, to);
    RemoveInsert(rest, k, s[from]);
    InsertAtMultiset(rest, k, s[from]);
    RemoveAtMultiset(s, from);
    InsertAt(rest, k, s[from])
  }

  /** The selected copy, when there is one, is an element of the list. */
  predicate Listed(cur: Option<Survey>, ss: seq<Survey>) {
    cur.Some? ==> cur.value in ss
  }

  // ---------------------------------------------------------------------------
  // Properties of the edits

  /**
    * Applying the same edit to the list and to the selected copy keeps the
    * copy in step with the list.
    */
  lemma EditKeepsSelectionListed(ss: seq<Survey>, cur: Option<Survey>, id: string, e: SurveyEdit)
    requires Listed(cur, ss)
    ensures Listed(EditSelected(cur, id, e), EditWhere(ss, id, e))
  {
    if cur.Some? {
      var i :| 0 <= i < |ss| && ss[i] == cur.value;
      assert EditWhere(ss, id, e)[i] == EditSelected(cur, id, e).value;
    }
  }

  /** Deleting a survey never leaves the selected copy pointing at a removed survey. */
  lemma DeleteKeepsSelectionListed(ss: seq<Survey>, cur: Option<Survey>, id: string)
    requires Listed(cur, ss)
    ensures Listed(DeselectDeleted(cur, id), RemainingSurveys(ss, id))
    ensures DeselectDeleted(cur, id).Some? ==> DeselectDeleted(cur, id).value.id != id
  {
  }

  /** An edit aimed at an id that no survey has leaves the list as it was. */
  lemma EditUnknownIdIsIdentity(ss: seq<Survey>, id: string, e: SurveyEdit)
    requires forall i :: 0 <= i < |ss| ==> ss[i].id != id
    ensures EditWhere(ss, id, e) == ss
  {
  }

  /**
    * `addQuestion` on a survey: one more question, the old ones an unchanged
    * prefix, the new one last.
    */
  lemma AppendQuestionExtends(s: Survey, q: Question, now: string)
    ensures var r := ApplyEdit(AppendQuestion(q, now), s);
      && |r.questions| == |s.questions| + 1
      && r.questions[..|s.questions|] == s.questions
      && r.questions[|s.questions|] == q
  {
  }

  /** `updateQuestion` with an id no question has leaves the questions as they were. */
  lemma ReviseUnknownIdIsIdentity(qs: seq<Question>, questionId: string, d: QuestionDraft)
    requires forall i :: 0 <= i < |qs| ==> qs[i].id != questionId
    ensures ReviseQuestions(qs, questionId, d) == qs
  {
  }

  /**
    * `deleteQuestion` keeps the relative order of what remains: deleting from
    * a concatenation deletes from each part.
    */
  lemma WithoutQuestionConcat(a: seq<Question>, b: seq<Question>, questionId: string)
    ensures WithoutQuestion(a + b, questionId) == WithoutQuestion(a, questionId) + WithoutQuestion(b, questionId)
  {
    FilterConcat((q: Question) => q.id != questionId, a, b);
  }

  /** `deleteQuestion` removes every copy of each question with the id and no copy of any other. */
  lemma WithoutQuestionCounts(qs: seq<Question>, questionId: string, q: Question)
    ensures multiset(WithoutQuestion(qs, questionId))[q] == if q.id != questionId then multiset(qs)[q] else 0
  {
    FilterMultiset((q: Question) => q.id != questionId, qs, q);
  }

  /**
    * Adding a question under an id no other question has, then deleting that
    * id, gives the questions back.
    */
  lemma AddThenDeleteQuestion(qs: seq<Question>, questionId: string, d: QuestionDraft)
    requires forall i :: 0 <= i < |qs| ==> qs[i].id != questionId
    ensures WithoutQuestion(qs + [NewQuestion(questionId, d)], questionId) == qs
  {
    var p := (q: Question) => q.id != questionId;
    FilterConcat(p, qs, [NewQuestion(questionId, d)]);
    FilterKeepsAll(p, qs);
    assert Filter(p, [NewQuestion(questionId, d)]) == [];
  }

  /**
    * Adding a question under a fresh id and then saving it again with the same
    * draft leaves the questions equal to the ones just added.
    */
  lemma AddThenReviseSameDraft(qs: seq<Question>, questionId: string, d: QuestionDraft)
    requires forall i :: 0 <= i < |qs| ==> qs[i].id != questionId
    ensures var added := qs + [NewQuestion(questionId, d)];
      ReviseQuestions(added, questionId, d) == added
  {
    var added := qs + [NewQuestion(questionId, d)];
    var r := ReviseQuestions(added, questionId, d);
    forall i | 0 <= i < |added| ensures r[i] == added[i] {
      if i == |qs| {
        MergeSameDraft(questionId, d);
      }
    }
  }

  /** Moving an element back from where it landed restores the original list. */
  lemma MovedBack<T>(s: seq<T>, from: nat, to: int)
    requires from < |s|
    ensures var k := RelativeIndex(|s| - 1, to);
      k < |Moved(s, from, to)| && Moved(Moved(s, from, to), k, from) == s
  {
    assert RelativeIndex(|s| - 1, from) == from;
    InsertRemove(s, from);
  }

  /** Moving between neighbouring positions is a swap of the two neighbours. */
  lemma AdjacentMoveSwaps<T>(s: seq<T>, i: nat)
    requires i + 1 < |s|
    ensures Moved(s, i, i + 1) == s[..i] + [s[i + 1], s[i]] + s[i + 2..]
    ensures Moved(s, i + 1, i) == s[..i] + [s[i + 1], s[i]] + s[i + 2..]
  {
    var t := s[..i] + [s[i + 1], s[i]] + s[i + 2..];
    var down, up := Moved(s, i, i + 1), Moved(s, i + 1, i);
    assert RelativeIndex(|s| - 1, i + 1) == i + 1;
    assert RelativeIndex(|s| - 1, i) == i;
    forall j | 0 <= j < |s| ensures down[j] == t[j] && up[j] == t[j] {
    }
  }

  /** The worked example: `[A, B, C]` moved from 0 to 2 is `[B, C, A]`. */
  lemma MovedExample<T>(a: T, b: T, c: T)
    ensures Moved([a, b, c], 0, 2) == [b, c, a]
  {
  }

  // ---------------------------------------------------------------------------
  // The store object

  class Store {
    var surveys: seq<Survey>
    var currentSurvey: Option<Survey>

    /** The selected copy is one of the listed surveys. */
    ghost predicate SelectionListed()
      reads this
    {
      Listed(currentSurvey, surveys)
    }

    /** The initial state: no surveys, nothing selected. */
    constructor ()
      ensures surveys == [] && currentSurvey == None
      ensures SelectionListed()
    {
      surveys := [];
      currentSurvey := None;
    }

    /**
      * `createSurvey`: appends one fresh survey, selects it and returns its
      * id. Its only caller passes a trimmed, non-blank title.
      */
    method CreateSurvey(title: string, description: string, freshId: string, now: string)
      returns (id: string)
      requires HasText(title) && Trim(title) == title
      modifies this
      ensures id == freshId
      ensures surveys == old(surveys) + [NewSurvey(freshId, title, description, now)]
      ensures currentSurvey == Some(NewSurvey(freshId, title, description, now))
      ensures SelectionListed()
    {
      var newSurvey := NewSurvey(freshId, title, description, now);
      surveys := surveys + [newSurvey];
      currentSurvey := Some(newSurvey);
      id := newSurvey.id;
    }

    /** `updateSurvey`: merges the fields into every survey with the id and into the selected copy if it has it. */
    method UpdateSurvey(surveyId: string, updates: SurveyPatch, now: string)
      modifies this
      ensures surveys == EditWhere(old(surveys), surveyId, Merge(updates, now))
      ensures currentSurvey == EditSelected(old(currentSurvey), surveyId, Merge(updates, now))
      ensures old(SelectionListed()) ==> SelectionListed()
    {
      Apply(surveyId, Merge(updates, now));
    }

    /** `deleteSurvey`: removes every survey with the id; deselects the copy if it has it. */
    method DeleteSurvey(surveyId: string)
      modifies this
      ensures surveys == RemainingSurveys(old(surveys), surveyId)
      ensures currentSurvey == DeselectDeleted(old(currentSurvey), surveyId)
      ensures old(SelectionListed()) ==> SelectionListed()
    {
      if SelectionListed() {
        DeleteKeepsSelectionListed(surveys, currentSurvey, surveyId);
      }
      surveys := RemainingSurveys(surveys, surveyId);
      currentSurvey := DeselectDeleted(currentSurvey, surveyId);
    }

    /** `setCurrentSurvey`: selects the first survey with the id, or nothing. */
    method SetCurrentSurvey(surveyId: string)
      modifies this
      ensures surveys == old(surveys)
      ensures currentSurvey == FindSurvey(surveys, surveyId)
      ensures SelectionListed()
    {
      currentSurvey := FindSurvey(surveys, surveyId);
    }

    /** `addQuestion`: appends `{ id: freshId, ...question }` to the target survey and to its selected copy. */
    method AddQuestion(surveyId: string, question: QuestionDraft, freshId: string, now: string)
      modifies this
      ensures surveys == EditWhere(old(surveys), surveyId, AppendQuestion(NewQuestion(freshId, question), now))
      ensures currentSurvey == EditSelected(old(currentSurvey), surveyId, AppendQuestion(NewQuestion(freshId, question), now))
      ensures old(SelectionListed()) ==> SelectionListed()
    {
      Apply(surveyId, AppendQuestion(NewQuestion(freshId, question), now));
    }

    /** `updateQuestion`: merges the draft into every question with the id, in the target survey and its copy. */
    method UpdateQuestion(surveyId: string, questionId: string, updates: QuestionDraft, now: string)
      modifies this
      ensures surveys == EditWhere(old(surveys), surveyId, ReviseQuestion(questionId, updates, now))
      ensures currentSurvey == EditSelected(old(currentSurvey), surveyId, ReviseQuestion(questionId, updates, now))
      ensures old(SelectionListed()) ==> SelectionListed()
    {
      Apply(surveyId, ReviseQuestion(questionId, updates, now));
    }

    /** `deleteQuestion`: removes every question with the id from the target survey and its copy. */
    method DeleteQuestion(surveyId: string, questionId: string, now: string)
      modifies this
      ensures surveys == EditWhere(old(surveys), surveyId, DropQuestion(questionId, now))
      ensures currentSurvey == EditSelected(old(currentSurvey), surveyId, DropQuestion(questionId, now))
      ensures old(SelectionListed()) ==> SelectionListed()
    {
      Apply(surveyId, DropQuestion(questionId, now));
    }

    /**
      * `reorderQuestions`: nothing happens when no survey has the id;
      * otherwise the first such survey's questions are copied, the element at
      * `startIndex` is moved to `endIndex`, and the new list is written to
      * every survey with the id and to the selected copy if it has it.
      */
    method ReorderQuestions(surveyId: string, startIndex: int, endIndex: int, now: string)
      requires var found := FindSurvey(surveys, surveyId);
        found.Some? ==> 0 <= startIndex < |found.value.questions|
      modifies this
      ensures var found := FindSurvey(old(surveys), surveyId);
        found.None? ==> surveys == old(surveys) && currentSurvey == old(currentSurvey)
      ensures var found := FindSurvey(old(surveys), surveyId);
        found.Some? ==>
          var edit := SetQuestions(Moved(found.value.questions, startIndex, endIndex), now);
          && surveys == EditWhere(old(surveys), surveyId, edit)
          && currentSurvey == EditSelected(old(currentSurvey), surveyId, edit)
      ensures old(SelectionListed()) ==> SelectionListed()
    {
      var found := FindSurvey(surveys, surveyId);
      if found.None? {
        return;
      }
      var newQuestions := Moved(found.value.questions, startIndex, endIndex);
      Apply(surveyId, SetQuestions(newQuestions, now));
    }

    /** The shared `set` of every single-survey operation: the same edit to the list and to the copy. */
    method Apply(surveyId: string, e: SurveyEdit)
      modifies this
      ensures surveys == EditWhere(old(surveys), surveyId, e)
      ensures currentSurvey == EditSelected(old(currentSurvey), surveyId, e)
      ensures old(SelectionListed()) ==> SelectionListed()
    {
      if SelectionListed() {
        EditKeepsSelectionListed(surveys, currentSurvey, surveyId, e);
      }
      surveys := EditWhere(surveys, surveyId, e);
      currentSurvey := EditSelected(currentSurvey, surveyId, e);
    }
  }
}
