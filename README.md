# Survey catalog and its editing guards, in Dafny

This project models the core of a survey-authoring web application:

- the **survey store** (`src/store/surveyStore.js`), an in-memory catalog holding an
  ordered list of surveys and a selected copy of one of them, with its create, update,
  delete and select operations on surveys and its add, update, delete and reorder
  operations on questions;
- the **question editor** (`src/components/QuestionEditor.jsx`): the submit decision
  that rejects a question or builds the record handed to the store, and the handlers
  that edit the option list;
- the **survey editor** guards (`src/components/SurveyEditor.jsx`): what reaches the
  store when the title, tags, groups or questions are edited, and the labels shown.

Modules, one per concern:

- `Wrappers` — `Option`.
- `JsString` — JavaScript's `String.prototype.trim` over the ECMAScript whitespace set,
  and the blank/non-blank truthiness of its result.
- `JsArray` — `filter`, `find` and the index arithmetic of `splice`, with their laws.
- `SurveyData` — the records (question, draft, group, survey, survey patch) and object
  spread as a merge.
- `SurveyStore` — the per-survey edits, the functions that specify every store
  operation, the lemmas about them, and the class `Store` whose fields are `surveys` and
  `currentSurvey`.
- `QuestionEditor` — `Submit` and the class `QuestionForm`.
- `SurveyEditor` — the pure guards and the class `EditorState`.

The store applies each edit twice, to the list entries with the target id and to the
selected copy when its id matches. Every store method keeps the invariant that the
selected copy, when there is one, is an element of the list (`Store.SelectionListed`).

Ids and timestamps come from the clock in the application (`Date.now()`,
`new Date().toISOString()`). Here they are parameters of the store methods
(`freshId`, `now`). Ids are not assumed unique: updates and deletes act on every
element whose id matches.

Behaviour of the code that the model keeps as it is:

- Options are collected and checked only for `multiple-choice` and `multiple-select`.
  `dropdown` is not a choice type in the code (`QuestionEditor.HasOptions`).
- Scale bounds are not validated. The survey editor displays `minScale`, `maxScale`,
  `minLabel` and `maxLabel` when a question has them, but neither the question form nor
  the store ever sets or checks these fields.
- `reorderQuestions` does not ignore an out-of-range insertion index. It clamps the index
  the way `splice` does, and a negative index counts from the end.
- The store's `createSurvey` does not check the title. Its only caller, the create-survey
  dialog (`src/components/CreateSurveyModal.jsx:12-17`), rejects a blank title and passes
  it trimmed. Both halves, non-blank and already trimmed, are the precondition of
  `Store.CreateSurvey`.
- An `updateQuestion` whose draft has no options keeps the question's old options,
  because object spread only overwrites the fields present (`SurveyData.MergeKeepsStaleOptions`).

## Model

| member | source | states |
|---|---|---|
| `JsString.Trim` | src/components/QuestionEditor.jsx:41 | `trim` keeps a contiguous slice after a blank prefix and before a blank suffix; the slice neither starts nor ends with whitespace, and it is empty exactly when the input is blank |
| `JsString.TrimIdempotent` | src/components/QuestionEditor.jsx:55 | trimming an already trimmed text changes nothing |
| `JsArray.Filter` | src/store/surveyStore.js:45 | `filter` returns no more elements than it was given: exactly those that satisfy the predicate |
| `JsArray.FilterConcat` | src/store/surveyStore.js:118 | `filter` keeps relative order: filtering a concatenation is filtering each part |
| `JsArray.FilterMultiset` | src/store/surveyStore.js:118 | `filter` keeps every copy of each passing element and no copy of a failing one |
| `JsArray.FilterKeepsAll` | src/store/surveyStore.js:118 | `filter` returns the list unchanged exactly when every element passes |
| `JsArray.FilterDistinct` | src/components/SurveyEditor.jsx:72 | filtering a list without duplicates leaves a list without duplicates |
| `JsArray.FirstIndex` | src/store/surveyStore.js:139 | the position `find` stops at: no earlier element matches, and the element there does |
| `JsArray.Find` | src/store/surveyStore.js:53 | `find` gives nothing exactly when no element matches, else the element at the first matching position |
| `JsArray.RemoveAt` | src/store/surveyStore.js:143 | `splice(i, 1)` with `i` in range: one element shorter, elements before `i` unchanged, those after shifted down by one |
| `JsArray.InsertAt` | src/store/surveyStore.js:144 | `splice(i, 0, x)`: one element longer, `x` at `i`, elements before `i` unchanged, those after shifted up by one |
| `JsArray.RelativeIndex` | src/store/surveyStore.js:144 | `splice`'s start index: an index in range is used as is, a larger one becomes the length, a negative one counts from the end and is clamped at 0 |
| `SurveyData.NewQuestion` | src/store/surveyStore.js:59-62 | a new question gets the fresh id and no group |
| `SurveyData.MergeQuestion` | src/store/surveyStore.js:92 | merging an update into a question keeps its id and its group |
| `SurveyData.NewSurvey` | src/store/surveyStore.js:12-19 | a new survey has the given id, title and description, no tags and no questions, and both timestamps are `now` |
| `SurveyData.MergeSurvey` | src/store/surveyStore.js:32 | merging an update into a survey keeps its id, questions and creation time, and sets `updatedAt` to `now` |
| `SurveyData.MergeSameDraft` | src/store/surveyStore.js:59-62 | merging into a question the draft it was created from gives the same question |
| `SurveyData.MergeQuestionIdempotent` | src/store/surveyStore.js:92 | merging the same draft twice is the same as merging it once |
| `SurveyData.MergeKeepsStaleOptions` | src/store/surveyStore.js:92 | a draft without options leaves the question's old options in place |
| `SurveyStore.ReviseQuestions` | src/store/surveyStore.js:91-93 | `updateQuestion` keeps the length and every position; it merges exactly the questions with the id and leaves the others unchanged |
| `SurveyStore.WithoutQuestion` | src/store/surveyStore.js:118 | `deleteQuestion` keeps exactly the questions whose id differs |
| `SurveyStore.ApplyEdit` | src/store/surveyStore.js:28-162 | no survey edit changes the survey's id or creation time, and every edit sets `updatedAt` to `now` |
| `SurveyStore.EditWhere` | src/store/surveyStore.js:30-34 | the survey list keeps its length and order; exactly the surveys with the id are edited |
| `SurveyStore.EditSelected` | src/store/surveyStore.js:35-38 | the selected copy stays selected and keeps its id; it is edited exactly when its id is the target, and is otherwise unchanged (the same step recurs at lines 73-80, 98-107, 123-132 and 152-159) |
| `SurveyStore.DeselectDeleted` | src/store/surveyStore.js:46-47 | after a delete nothing is selected exactly when nothing was or the deleted survey was; otherwise the selection is unchanged |
| `SurveyStore.FindSurvey` | src/store/surveyStore.js:53 | the selected survey is nothing exactly when no survey has the id; otherwise it is the first listed survey with that id |
| `SurveyStore.RemainingSurveys` | src/store/surveyStore.js:45 | `deleteSurvey` keeps exactly the surveys whose id differs |
| `SurveyStore.EditKeepsSelectionListed` | src/store/surveyStore.js:35-38 | applying the same edit to the list and to the selected copy keeps the copy an element of the list |
| `SurveyStore.DeleteKeepsSelectionListed` | src/store/surveyStore.js:46-47 | after a delete the selected copy is still listed, and its id is not the deleted one |
| `SurveyStore.EditUnknownIdIsIdentity` | src/store/surveyStore.js:30-34 | an edit aimed at an id no survey has leaves the list unchanged |
| `SurveyStore.AppendQuestionExtends` | src/store/surveyStore.js:68 | `addQuestion` adds exactly one question; the old questions stay as an unchanged prefix and the new one comes last |
| `SurveyStore.ReviseUnknownIdIsIdentity` | src/store/surveyStore.js:91-93 | `updateQuestion` with an unknown question id leaves the questions unchanged |
| `SurveyStore.WithoutQuestionConcat` | src/store/surveyStore.js:118 | `deleteQuestion` keeps the relative order of the remaining questions |
| `SurveyStore.WithoutQuestionCounts` | src/store/surveyStore.js:118 | `deleteQuestion` removes every copy of a question with the id and keeps every copy of the others |
| `SurveyStore.AddThenDeleteQuestion` | src/store/surveyStore.js:58-134 | adding a question under a new id and then deleting that id gives the questions back |
| `SurveyStore.AddThenReviseSameDraft` | src/store/surveyStore.js:58-109 | adding a question and then updating it with the same draft leaves the questions as they were after the add |
| `SurveyStore.Moved` | src/store/surveyStore.js:142-144 | reorder moves one element: it lands at the clamped target, every other element keeps its relative order, and the result is a permutation of the input |
| `SurveyStore.MovedBack` | src/store/surveyStore.js:142-144 | moving the element back from where it landed restores the original list |
| `SurveyStore.AdjacentMoveSwaps` | src/store/surveyStore.js:142-144 | a move between neighbouring positions swaps the two neighbours |
| `SurveyStore.MovedExample` | src/store/surveyStore.js:142-144 | `[A, B, C]` moved from 0 to 2 is `[B, C, A]` |
| `SurveyStore.Store.constructor` | src/store/surveyStore.js:7-8 | the store starts with no surveys and nothing selected |
| `SurveyStore.Store.CreateSurvey` | src/store/surveyStore.js:11-25 | appends the new survey after the unchanged old ones, selects it and returns its id |
| `SurveyStore.Store.UpdateSurvey` | src/store/surveyStore.js:28-40 | merges the fields into every survey with the id, and into the selected copy exactly when its id matches; the copy stays listed |
| `SurveyStore.Store.DeleteSurvey` | src/store/surveyStore.js:43-49 | removes every survey with the id, keeping the others in order; deselects exactly when the selected copy has the id |
| `SurveyStore.Store.SetCurrentSurvey` | src/store/surveyStore.js:52-55 | selects the first survey with the id, or nothing; the list is untouched |
| `SurveyStore.Store.AddQuestion` | src/store/surveyStore.js:58-82 | appends `{ id: freshId, ...question }` to the target survey and to its selected copy; other surveys are untouched |
| `SurveyStore.Store.UpdateQuestion` | src/store/surveyStore.js:85-109 | merges the draft into every question with the id, in the target survey and in its selected copy |
| `SurveyStore.Store.DeleteQuestion` | src/store/surveyStore.js:112-134 | removes every question with the id from the target survey and from its selected copy |
| `SurveyStore.Store.ReorderQuestions` | src/store/surveyStore.js:137-162 | with no survey under the id nothing changes; otherwise the first such survey's questions, moved, are written to every survey with the id and to the selected copy |
| `SurveyStore.Store.Apply` | src/store/surveyStore.js:29-38 | one edit is applied to the list entries with the id and to the selected copy, and the copy stays listed |
| `QuestionEditor.HasOptions` | src/components/QuestionEditor.jsx:46 | options are collected for the type a new question starts with, and not for `dropdown` |
| `QuestionEditor.LoadedOptions` | src/components/QuestionEditor.jsx:9-11 | a stored question's options are shown as they are; a question without options shows two empty entries |
| `QuestionEditor.ValidOptions` | src/components/QuestionEditor.jsx:47 | the kept options are exactly the entries with text, untrimmed |
| `QuestionEditor.Submit` | src/components/QuestionEditor.jsx:38-66 | a blank text is rejected; for the two choice types fewer than two options with text are rejected; a saved record has the trimmed text, and it has options (the entries with text) exactly for the choice types |
| `QuestionEditor.SubmitSavesWellFormed` | src/components/QuestionEditor.jsx:41-65 | every saved record is well formed: non-blank trimmed text, and for the choice types at least two options, each with text |
| `QuestionEditor.ResubmitUnchanged` | src/components/QuestionEditor.jsx:13-65 | opening a well-formed record in the form and submitting it unchanged saves the same record |
| `QuestionEditor.QuestionForm.constructor` | src/components/QuestionEditor.jsx:4-11 | a new question starts as `multiple-choice`, with empty text, not required, and options `['', '']`; an edited one starts from its own fields |
| `QuestionEditor.QuestionForm.Load` | src/components/QuestionEditor.jsx:13-20 | reloads every field from the edited question, with `['', '']` when it has no options |
| `QuestionEditor.QuestionForm.AddOption` | src/components/QuestionEditor.jsx:22-24 | appends one empty option and leaves the others unchanged |
| `QuestionEditor.QuestionForm.RemoveOption` | src/components/QuestionEditor.jsx:26-30 | removes exactly the option at the index, and only while more than two remain; a list of two or more never drops below two |
| `QuestionEditor.QuestionForm.ChangeOption` | src/components/QuestionEditor.jsx:32-36 | replaces only the option at the index; the length is unchanged |
| `QuestionEditor.QuestionForm.HandleSubmit` | src/components/QuestionEditor.jsx:38-66 | submits the current fields; a saved record is well formed |
| `SurveyEditor.SaveBasicInfo` | src/components/SurveyEditor.jsx:48-56 | sends an update exactly when the title has text: the trimmed title, the trimmed description and the tags |
| `SurveyEditor.SavedTitleIsTrimmed` | src/components/SurveyEditor.jsx:49-51 | a saved title is non-blank and already trimmed |
| `SurveyEditor.AddedTags` | src/components/SurveyEditor.jsx:61-63 | the tag list changes exactly when the trimmed input is non-empty and not yet a tag; then the input is appended after the unchanged old tags |
| `SurveyEditor.RemovedTag` | src/components/SurveyEditor.jsx:72 | keeps exactly the tags that differ from the removed one |
| `SurveyEditor.AddedTagsDistinct` | src/components/SurveyEditor.jsx:62-63 | adding a tag keeps the tags distinct |
| `SurveyEditor.RemovedTagDistinct` | src/components/SurveyEditor.jsx:72 | removing a tag keeps the tags distinct |
| `SurveyEditor.RemovedTagConcat` | src/components/SurveyEditor.jsx:72 | removing a tag keeps the other tags in order |
| `SurveyEditor.AddThenRemoveTag` | src/components/SurveyEditor.jsx:58-75 | adding a tag and then removing it gives the old tags back |
| `SurveyEditor.GroupToAdd` | src/components/SurveyEditor.jsx:77-83 | a group is added exactly when the name has text, and the name is passed trimmed |
| `SurveyEditor.GroupBadge` | src/components/SurveyEditor.jsx:418-421 | the badge shows exactly for a question with a non-empty group id in a survey with a group list; unless it reads `Group`, it names a group with that id, and it reads `Group` when no group has that id |
| `SurveyEditor.GroupBadgeNamesFirstMatch` | src/components/SurveyEditor.jsx:420 | with several groups under one id, the badge names the first of them |
| `SurveyEditor.RouteSavedQuestion` | src/components/SurveyEditor.jsx:91-99 | a saved question updates the edited question under its id when one is being edited, and is added otherwise |
| `SurveyEditor.MoveRequest` | src/components/SurveyEditor.jsx:126-131 | up targets `index - 1` and down targets `index + 1`; a reorder is sent exactly when the target is in `[0, length)` |
| `SurveyEditor.MoveRequestSwapsNeighbours` | src/components/SurveyEditor.jsx:126-131 | a move sent for a displayed question meets the store's index requirement and swaps the question with its neighbour |
| `SurveyEditor.MoveUpThenDown` | src/components/SurveyEditor.jsx:126-131 | after moving a question up, moving it down again is allowed and restores the order |
| `SurveyEditor.TypeLabelFallback` | src/components/SurveyEditor.jsx:112-124 | a type is shown as itself exactly when it is not one of the eight labelled types |
| `SurveyEditor.TypeLabel` | src/components/SurveyEditor.jsx:112-124 | a type that is not one of the eight labelled types is shown as itself |
| `SurveyEditor.TypeLabelsDistinct` | src/components/SurveyEditor.jsx:113-122 | the eight labelled types get eight different labels |
| `SurveyEditor.EditorState.constructor` | src/components/SurveyEditor.jsx:20-28 | the editor starts from the survey's title, description and tags, or from empty values, with every form closed |
| `SurveyEditor.EditorState.Reload` | src/components/SurveyEditor.jsx:30-36 | when the survey changes, title, description and tags are read again |
| `SurveyEditor.EditorState.HandleAddTag` | src/components/SurveyEditor.jsx:58-69 | on Enter or a click, a new non-empty trimmed tag is appended, the input is cleared and the new tags are sent; otherwise nothing changes; distinct tags stay distinct |
| `SurveyEditor.EditorState.HandleRemoveTag` | src/components/SurveyEditor.jsx:71-75 | removes every occurrence of the tag and sends the new tags; distinct tags stay distinct |
| `SurveyEditor.EditorState.HandleAddGroup` | src/components/SurveyEditor.jsx:77-83 | sends the trimmed name only when it has text, then clears and closes the form |
| `SurveyEditor.EditorState.HandleEditQuestion` | src/components/SurveyEditor.jsx:101-104 | opens the question form on the chosen question |
| `SurveyEditor.EditorState.HandleAddQuestion` | src/components/SurveyEditor.jsx:91-99 | routes the saved record, ends any edit and closes the form |
| `SurveyEditor.EditorState.HandleSaveBasicInfo` | src/components/SurveyEditor.jsx:48-56 | sends the update `SaveBasicInfo` decides on for the current fields |

## Left out

- Persistence: the `persist` middleware and its browser storage (`src/store/surveyStore.js:164-166`). The store's two fields are modelled directly.
- The clock: `Date.now()` ids and ISO timestamps are method parameters.
- One timestamp per operation: each store operation calls the clock separately for the list entry and for the selected copy. The model gives both the same `now`. `createSurvey` likewise reads the clock twice, once for `createdAt` and once for `updatedAt` (`src/store/surveyStore.js:17-18`), and `SurveyData.NewSurvey` gives both the same `now`, so a new survey's two timestamps are always equal here. Without a single `now`, the selected copy could differ from its list entry by its `updatedAt` alone.
- Spread of arbitrary objects: `updateSurvey` is modelled with the fields its callers pass (title, description, tags). `updateQuestion` and `addQuestion` are modelled with the record the question editor builds. An update that carries an `id`, or any other field, is not modelled.
- A survey created without `tags`: the model gives it an empty tag list, which is how every reader of the field treats a missing one.
- The group and publish operations (`addQuestionGroup`, `updateQuestionGroup`, `deleteQuestionGroup`, `publishSurvey`, `unpublishSurvey`). The editor calls them, but the store file does not implement them. Only the editor-side guard for adding a group is modelled.
- `handleDeleteQuestion`, `handleDeleteGroup` and `handlePublish`: each only asks `window.confirm` and then calls the store. The dialogs are user interaction.
- `alert` messages, JSX markup and styling; the form's text-field and checkbox setters, which are plain assignments.
- `TypeLabel`: the type names are compared as strings. Looking up a property name inherited by every JavaScript object, such as `constructor`, is not modelled. The editor only offers the known type names.
- `QuestionEditor.QuestionForm.ChangeOption`: requires an index inside the list, because the form calls it only for a displayed option. Assigning past the end of a JavaScript array is not modelled.
- `SurveyStore.Store.ReorderQuestions`: requires `startIndex` inside the target survey's question list, because its only caller passes the index of a displayed question. An out-of-range `startIndex` is not modelled.
- `src/store/authStore.js` (authentication, network), `src/App.jsx` (view routing), `src/components/SurveyList.jsx` and `src/components/SurveyPreview.jsx` (rendering) are not part of this model.
