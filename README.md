# BBCode form generator: fields, tokens, matching and the form list

This project models the logic of a BBCode form generator. A user builds a form
from typed fields. Each field gets a placeholder token of the shape
`{<label>_n}`. The user pastes these tokens into a BBCode template. The model
covers four parts:

- **Template matching** (`TemplateMatch`). A field is *matched* when its token
  occurs verbatim in the template. The screen lists the unmatched fields, then
  the matched ones, each in field order. Pressing a matched field's search
  button selects the first occurrence of its token. `includes` and `indexOf`
  are written as recursive scans. They are proved equal to "occurs at some
  offset" and "first offset at which it occurs".
- **Field creation** (`InputCreator`). A new field's token is built from its
  label and a random suffix in `[0, 9998]`. The model proves that the token
  reads back as that label and suffix, so two different (label, suffix) pairs
  never give the same token. Saving in add mode gives the field a new token.
  Saving in edit mode passes the field on unchanged. The creator's modal state
  is a class.
- **The field modal** (`InputModal`). Submit is rejected while the label is
  missing or empty. An accepted submit replaces exactly the five edited
  members. A dropdown's option list is edited by three `splice` calls, which
  are modelled with JavaScript's clamping rules. Under the screen's rules
  (index 0 is never shown, and remove is disabled at two entries) the sentinel
  first option survives and at least two options remain. The modal's state is
  a class whose methods keep that invariant.
- **The form list** (`FormList`). Dragging runs `arrayMove` and then
  renumbers `order` to `1..n`. The model proves that the move is a stable
  permutation and that dragging back undoes it. The lock button and leaving
  the editor request a save exactly when the data differs from the stored
  data. The page's flags are a class. A save's completion is a separate method,
  because the flags change only after the save finishes.

The records come from `src/types/formTypes.ts` (`FormTypes`). Dafny reserves
`label`, so the field's label is called `fieldLabel`.

Four details of the code are kept as written:

- Top-level tokens use the field's label, not its kind.
- No collision check or retry exists.
- The `inputs.map` that would give sub-inputs ids has its result discarded, so
  sub-inputs are left unchanged.
- Kinds are the nine of `formTypes.ts` (`shortText`, ..., `url`, `listItem`).

## Model

| member | source | states |
|---|---|---|
| `TemplateMatch.IsMatched` | src/components/Form/Creator/BBCode/Match/formBBCodeMatch.tsx:20-22 | a field is matched iff its token occurs as an exact, case-sensitive substring of the template at some offset (both directions) |
| `TemplateMatch.IncludesIff` | src/components/Form/Creator/BBCode/Match/formBBCodeMatch.tsx:21 | the left-to-right `includes` scan succeeds iff some offset holds an occurrence |
| `TemplateMatch.InsertingTokenMatches` | src/components/Form/Creator/BBCode/Match/formBBCodeMatch.tsx:21 | pasting a token anywhere into any template makes its field matched |
| `TemplateMatch.IndexOf` | src/components/Form/Creator/BBCode/Match/formBBCodeMatch.tsx:26 | `indexOf` returns an offset where the token occurs and no earlier offset holds one, or -1 exactly when it occurs nowhere |
| `TemplateMatch.Locate` | src/components/Form/Creator/BBCode/Match/formBBCodeMatch.tsx:24-32 | for a matched token the selection starts at the first occurrence, is within the template, has the token's length and covers exactly the token |
| `TemplateMatch.Listing` | src/components/Form/Creator/BBCode/Match/formBBCodeMatch.tsx:43-112 | a column lists exactly the fields whose matched state is that column's, and never more fields than there are |
| `TemplateMatch.ListingConcat` | src/components/Form/Creator/BBCode/Match/formBBCodeMatch.tsx:43-76 | listing a concatenation lists each part in turn, so each column keeps the fields' relative order |
| `TemplateMatch.ListingSingleton` | src/components/Form/Creator/BBCode/Match/formBBCodeMatch.tsx:74-76 | a single field is listed in its own column and not in the other |
| `TemplateMatch.ListingsPartition` | src/components/Form/Creator/BBCode/Match/formBBCodeMatch.tsx:43-76 | the two columns together hold every field exactly as often as the field list, and their lengths sum to the field count |
| `InputCreator.Decimal` | src/components/Form/Creator/Input/formInputCreator.tsx:187-189 | the suffix is printed as a non-empty run of digits with no leading zero |
| `InputCreator.RandomSuffix` | src/components/Form/Creator/Input/formInputCreator.tsx:188 | `Math.floor(Math.random() * 9999) + 0` lies in `[0, 9998]` |
| `InputCreator.RandomSuffixOnto` | src/components/Form/Creator/Input/formInputCreator.tsx:188 | every suffix in `[0, 9998]` is produced by some `Math.random()` result |
| `InputCreator.ParseMakeToken` | src/components/Form/Creator/Input/formInputCreator.tsx:187-189 | a token `{<label>_n}` reads back as exactly its label and suffix |
| `InputCreator.MakeTokenInjective` | src/components/Form/Creator/Input/formInputCreator.tsx:187-189 | different labels or suffixes never give the same token |
| `InputCreator.SaveInput` | src/components/Form/Creator/Input/formInputCreator.tsx:174-196 | add mode requests an add whose token is exactly `{<label>_n}`, with the drawn suffix n printed as `${n}` prints it, and reads back as that label and suffix; edit mode requests an update with the field unchanged; nothing but the token changes and sub-inputs never change |
| `InputCreator.AddedFieldToken` | src/components/Form/Creator/Input/formInputCreator.tsx:185-190 | a field accepted by the modal and added gets a token carrying its non-empty label |
| `InputCreator.EditedFieldKeepsToken` | src/components/Form/Creator/Input/formInputCreator.tsx:191-193 | a field accepted by the modal and updated keeps its token, kind and sub-inputs |
| `InputCreator.ChoiceListShape` | src/components/Form/Creator/Input/formInputCreator.tsx:30-132 | the eight offered field types start with no token and an empty label and hold one input of their own kind; the dropdown starts with a well-formed option list |
| `InputCreator.FieldCreator.constructor` | src/components/Form/Creator/Input/formInputCreator.tsx:151-156 | the modal starts closed, not in edit mode, with no field |
| `InputCreator.FieldCreator.AddNewInputComponent` | src/components/Form/Creator/Input/formInputCreator.tsx:158-164 | picking a field type opens the modal on it in add mode |
| `InputCreator.FieldCreator.EditInputComponent` | src/components/Form/Creator/Input/formInputCreator.tsx:166-172 | clicking a field opens the modal on it in edit mode |
| `InputCreator.FieldCreator.HandleSaveInput` | src/components/Form/Creator/Input/formInputCreator.tsx:174-196 | the request is the one `SaveInput` describes for the mode before the call, and the modal is closed and reset |
| `InputCreator.FieldCreator.DeleteInput` | src/components/Form/Creator/Input/formInputCreator.tsx:267-270 | Delete asks for removal by the field's token and closes the modal |
| `InputCreator.FieldCreator.Cancel` | src/components/Form/Creator/Input/formInputCreator.tsx:271-276 | Cancel closes and resets the modal |
| `InputModal.Submit` | src/components/Form/Creator/Input/formInputCreator.tsx:321-338 | without a field nothing happens; a missing or empty label is rejected; otherwise the submitted field is the original with label, description, default, multi and options replaced and token, kind, type name, sub-inputs and order carried over |
| `InputModal.Splice` | src/components/Form/Creator/Input/formInputCreator.tsx:345-346 | `splice` on a copy keeps the prefix before the clamped start, puts the items there, and keeps what follows the deleted part |
| `InputModal.ReplaceOption` | src/components/Form/Creator/Input/formInputCreator.tsx:344-348 | for an index in range the length is kept, that index holds the new text and every other index is unchanged; past the end the text is appended |
| `InputModal.InsertOptionAfter` | src/components/Form/Creator/Input/formInputCreator.tsx:349-356 | an empty option is inserted at `k+1` (clamped to the end): the list grows by one, the prefix is unchanged and the tail shifts by one |
| `InputModal.RemoveOption` | src/components/Form/Creator/Input/formInputCreator.tsx:358-362 | for an index in range that option is deleted and the others keep their order; past the end nothing changes |
| `InputModal.ReplaceKeepsSentinel` | src/components/Form/Creator/Input/formInputCreator.tsx:438-451 | editing a shown option (index not 0) keeps the sentinel first and at least two options |
| `InputModal.InsertKeepsSentinel` | src/components/Form/Creator/Input/formInputCreator.tsx:458 | adding an option keeps the sentinel first and at least two options |
| `InputModal.RemoveKeepsSentinel` | src/components/Form/Creator/Input/formInputCreator.tsx:438-456 | removing a shown option while more than two remain keeps the sentinel first and at least two options |
| `InputModal.RemoveWithoutGuardsBreaks` | src/components/Form/Creator/Input/formInputCreator.tsx:453-455 | without the guards, removing at two entries breaks the floor and removing index 0 drops the sentinel |
| `InputModal.FieldModal.constructor` | src/components/Form/Creator/Input/formInputCreator.tsx:299-343 | the modal's values start as the field's own values (or blanks without a field), the label is valid, and a field with a well-formed option list starts in the dropdown invariant |
| `InputModal.FieldModal.SetLabel` | src/components/Form/Creator/Input/formInputCreator.tsx:368-373 | the label is set; once flagged invalid, the flag clears exactly when the new label is non-empty |
| `InputModal.FieldModal.SetDescription` | src/components/Form/Creator/Input/formInputCreator.tsx:415 | the description is set |
| `InputModal.FieldModal.SetDefaultVal` | src/components/Form/Creator/Input/formInputCreator.tsx:431 | the default value is set |
| `InputModal.FieldModal.ToggleMulti` | src/components/Form/Creator/Input/formInputCreator.tsx:474 | the multi switch flips, an unset value counting as off |
| `InputModal.FieldModal.SubmitForm` | src/components/Form/Creator/Input/formInputCreator.tsx:321-338 | the outcome is `Submit` of the modal's field and current values; the label is flagged invalid exactly on rejection |
| `InputModal.FieldModal.UpdateSelectOption` | src/components/Form/Creator/Input/formInputCreator.tsx:344-348 | the option list becomes `ReplaceOption` of the old one (an absent list stays absent), keeping the dropdown invariant for shown indices |
| `InputModal.FieldModal.AddSelectOption` | src/components/Form/Creator/Input/formInputCreator.tsx:349-356 | the option list becomes `InsertOptionAfter` of the old one, keeping the dropdown invariant |
| `InputModal.FieldModal.RemoveSelectOption` | src/components/Form/Creator/Input/formInputCreator.tsx:358-362 | the option list becomes `RemoveOption` of the old one, keeping the dropdown invariant under the screen's guards |
| `FormList.ArrayMoveAt` | src/pages/form/list/formList.tsx:192-196 | after the move, position `newIndex` holds the moved form, forms between the two positions shift by one, and all others stay put |
| `FormList.ArrayMovePermutes` | src/pages/form/list/formList.tsx:192-196 | the move is a permutation: the same forms, as often as before |
| `FormList.ArrayMoveKeepsOthersInOrder` | src/pages/form/list/formList.tsx:192-196 | the moved form ends at `newIndex`, and without it the list equals the original without it |
| `FormList.ArrayMoveInverse` | src/pages/form/list/formList.tsx:192-196 | moving `oldIndex` to `newIndex` and back restores the list |
| `FormList.RenumberSpec` | src/pages/form/list/formList.tsx:197-202 | after renumbering the form at position `i` has order `i+1`, and no other attribute changed |
| `FormList.OnDragEndPermutes` | src/pages/form/list/formList.tsx:191-204 | a drag keeps every form (orders aside) and puts the dragged one at `newIndex` |
| `FormList.OnDragEndInverse` | src/pages/form/list/formList.tsx:191-204 | dragging back restores the original list, renumbered |
| `FormList.Toggle` | src/pages/form/list/formList.tsx:206-220 | unlocking never saves; relocking requests a batch save of the shown list iff it differs from the stored list |
| `FormList.FindByUid` | src/pages/form/list/formList.tsx:162 | `find` returns the first stored form with the uid, or nothing iff no stored form has it |
| `FormList.SaveEditsDecision` | src/pages/form/list/formList.tsx:158-178 | a save is requested iff the edited form differs from the first stored form with its uid; the save is filed under the old uid and carries the uid derived from the name |
| `FormList.FormListPage.constructor` | src/pages/form/list/formList.tsx:143-147 | the shown list starts as the stored list, locked, not editing |
| `FormList.FormListPage.StateFormsChanged` | src/pages/form/list/formList.tsx:221-223 | a new stored list replaces the shown list |
| `FormList.FormListPage.OnDragEnd` | src/pages/form/list/formList.tsx:191-204 | the shown list becomes the moved and renumbered list |
| `FormList.FormListPage.ToggleEditFormList` | src/pages/form/list/formList.tsx:206-220 | the outcome is `Toggle` of the state; the list is unlocked after unlocking, stays unlocked while a batch save runs, and is locked at once when nothing changed |
| `FormList.FormListPage.BatchSaveDone` | src/pages/form/list/formList.tsx:213-215 | a finished batch save locks the list |
| `FormList.FormListPage.EditBBCodeForm` | src/pages/form/list/formList.tsx:149-157 | editing a form switches to the editor |
| `FormList.FormListPage.SaveEdits` | src/pages/form/list/formList.tsx:158-178 | the outcome is `SaveEditsDecision`; without a save the editor closes and the list locks at once, with a save both wait |
| `FormList.FormListPage.SaveDone` | src/pages/form/list/formList.tsx:170-173 | a finished save closes the editor and locks the list |

## Left out

- Rendering field values into BBCode (`[cb]`/`[cbc]`, `[url=…]`, date formats, joining multi values): the renderer is not part of this model. Only help text describes it.
- `src/components/inputComponents/dateTime/dateTime.tsx`, `src/components/Form/Creator/BBCode/Upload/formBBCodeUpload.tsx` and `src/components/InputComponents/inputType.tsx`: a date-picker wrapper, a text-area binding and component dispatch, with no logic to state.
- The parent's `addInput`, `updateInput`, `removeInput` and `reorderSelectedInputComponents`, `FormPreviewer` and `getFormUid` are not part of this model. Requests to the parent are returned as values. The uid derived from a form's name is the parameter `newUid`.
- `Math.random()` is the parameter `r` in `[0, 1)`. Token uniqueness is not claimed: the code has no collision check.
- `TemplateMatch.IndexOf`, `TemplateMatch.Locate`: offsets are counted in characters, not UTF-16 code units. They differ from `indexOf` and `setSelectionRange` when an astral-plane character, such as an emoji, precedes the token. `includes` is not affected.
- Rendering, focus, `setSelectionRange` and `useEffect` focus handling are left out. `Locate` returns the selection instead of applying it. The field modal's label re-validation effect is folded into `SetLabel`.
- `InputModal.FieldModal.SetLabel`: the re-validation runs inside the setter rather than after the next render. The resulting state is the same.
- Firebase calls, `localStorage`, clipboard and toasts are left out. Only the decision to request a save is modelled. Completion of a save is a separate method (`BatchSaveDone`, `SaveDone`). Failed saves are not modelled.
- `deleteBBCodeForm` (formList.tsx:180-189) is a storage call followed by hiding the edit buttons, so it is left out as persistence.
- `JSON.stringify` inequality is modelled as structural inequality of the records. Key order and members left `undefined` are not modelled.
- `InputCreator.SaveInput`: the `inputs.map` at formInputCreator.tsx:175-184 is modelled only through its effect. Its result is discarded, so the sub-inputs are unchanged. The ids it would compute are not modelled.
- JavaScript numbers (timestamps, `order`, `orderNum`) are unbounded integers. The icon, `typeName`'s closed union and the callbacks are not part of the records. The offered field types use names ("Text Line", "Text Box", "Text & Link") outside that union, so `typeName` is a string.
- Option edits with a negative index are not modelled (the screen only passes indices of shown options). A `splice` start past the end is modelled.
