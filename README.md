# ScanSheet receipt scanner: a Dafny model of its state machine and receipt store

ScanSheet is a small browser app. The user photographs or uploads a receipt.
An AI vision service extracts the merchant, date, total and category. The user
checks or corrects those fields, and the record is kept in a list that is
persisted to browser storage. Only the logic is modelled here: the screen state
machine, the receipt list and its persisted copy, the promotion of a draft scan
into a record, and the listing's aggregates and file filters.

Files, one module per source file:

- `types.dfy` (module `Types`, from `types.ts`). The `Receipt` record has seven
  fields. Its `category` is a plain `string`. `View` has exactly the three
  constructors `History`, `Camera` and `Edit`. `Draft` is `Partial<Receipt>`:
  the same seven fields, each an `Option`. `Categories()` is the fixed list of
  seven. The module also holds the browser `File` value and its `image/` MIME
  test, which both the listing and the shell use.
- `receipt_edit.dfy` (module `ReceiptEdit`, from `components/ReceiptEdit.tsx`).
  The defaulting of the form, the `EditForm` class with its four `onChange`
  handlers and `Submit`, and the promotion rule `Promote`.
- `history_view.dfy` (module `HistoryView`, from `components/HistoryView.tsx`).
  The spending total as the source's left fold, with its proof against a plain
  sum. The list rows, the scan count, and the drop and picker filters. The
  `DropZone` class holds the `isDragging` flag.
- `app.dfy` (module `App`, from `App.tsx`). The `AppState` class holds the
  fields `activeView`, `receipts`, `isProcessing` and `currentScan`, plus
  `saved`, which stands for the `receipts` slot of localStorage. Its invariant
  `Valid()` has three parts. The slot always equals the list (a full
  overwrite after every change). The edit view always has a scan. A scan
  always carries the id and image that submit copies. A ghost multiset
  `pending` holds the payloads of captures still awaiting their extraction, so
  each completion belongs to a started capture. Four client methods,
  `CafeRomaScenario`, `FailureScenario`, `SecondCaptureDuringEdit` and
  `TwoUploadsDuringEdit`, are verified from the contracts alone: the main flow
  with a reload of the persisted list after a restart, the failure paths, and
  a second capture, started from the camera or by a second upload, settling
  while the edit screen is open.

Modelling choices:

- Money is integer cents and timestamps are integers.
- The clock is a parameter: `nowIso` for `new Date().toISOString()`, `now` for
  `Date.now()` at submit time, and `freshId` for `Date.now().toString()` when
  the extraction settles (it is evaluated after the `await`).
- The extraction outcome (`Extracted(fields)` or `ExtractionFailed`) is a
  parameter of `CompleteCapture`.
- The FileReader outcome (`Loaded(dataUrl)` or `ReadFailed`) is a parameter of
  `UploadFile`.
- `parseFloat` of the amount input is a parameter `Option<int>`, where `None`
  stands for NaN.
- The async `handleCapture` is split at its `await`. `StartCapture` turns the
  overlay on and shows the listing. `CompleteCapture` applies the outcome and
  turns the overlay off.
- The edit screen's `data` prop is the field `EditForm.data`. A re-render with
  a new prop is `EditForm.SetData`, which keeps the form state, as `useState`
  does.

What one might expect of such an app but the code does not do; the model
follows the code:

- A category from the extraction that is not one of `Categories()` is kept in
  the form and in the saved record (`ReceiptEdit.OffListCategorySurvives`).
- Nothing forces a total to be non-negative: any parsed amount is stored.
- Reading a corrupt storage slot is not turned into an empty list. `JSON.parse`
  on App.tsx:17 is unguarded, so the model claims nothing for that case.
- Ids come from `Date.now()` and nothing makes them unique. No uniqueness is
  assumed or proved. Where a lemma needs a fresh id, it states that as a
  precondition (`App.SaveThenDeleteRestores`).
- Nothing prevents a second capture while one is in flight. Two image uploads
  whose reads both finish before the first extraction settles start two
  captures: no overlay is up until the first read has loaded
  (App.tsx:45-49). The bottom bar's camera button also stays outside the
  overlay, which covers only `<main>`. If the second extraction settles while
  the edit screen is open, the view stays on Edit and the form is not
  remounted. The form then keeps the first scan's fields but submits the
  second scan's id and image (`App.TwoUploadsDuringEdit`,
  `App.SecondCaptureDuringEdit`). Also, the first completion turns the
  overlay off while the second is still in flight.

## Model

| member | source | states |
|---|---|---|
| `Types.IsImageFile` | App.tsx:40 | a file is an image exactly when its MIME type is at least six characters long and begins with `image/`; the same test guards the drop at components/HistoryView.tsx:30 |
| `Types.Categories` | types.ts:14-22 | seven categories, pairwise distinct, with `"Other"` last and in the list |
| `ReceiptEdit.DatePart` | components/ReceiptEdit.tsx:15 | the default date is a prefix of the ISO timestamp, contains no `'T'`, and stops exactly at the first `'T'` (or takes the whole string when there is none) |
| `ReceiptEdit.TextOr` | components/ReceiptEdit.tsx:13-16 | the falsy default on text: a present non-empty string is kept, a missing or empty one gives the fallback; the result is empty only when both are; with an empty fallback it is the value or `''` |
| `ReceiptEdit.AmountOr` | components/ReceiptEdit.tsx:14 | the falsy default on an amount, here and at components/ReceiptEdit.tsx:61: the result is the value or 0, so a zero amount is unaffected; it is 0 exactly when the value is missing or zero |
| `ReceiptEdit.InitialForm` | components/ReceiptEdit.tsx:12-17 | merchant and total are the draft's values or `''` and `0`, so a falsy `''` or `0` changes nothing; a missing or empty date becomes today's date part, free of `'T'`; a missing or empty category becomes `"Other"`, which is in `Categories()` |
| `ReceiptEdit.Promote` | components/ReceiptEdit.tsx:21-26 | the record takes its merchant, total, date and category from the form, its id and imageUrl from the draft, and its timestamp from the submit-time clock |
| `ReceiptEdit.EditForm.constructor` | components/ReceiptEdit.tsx:12-17 | a newly mounted form holds the prop it was mounted with, and its state is `InitialForm` of that prop |
| `ReceiptEdit.EditForm.SetData` | components/ReceiptEdit.tsx:11-17 | a new `data` prop replaces the draft, and the form state is kept as it was |
| `ReceiptEdit.EditForm.SetMerchant` | components/ReceiptEdit.tsx:49 | replaces the merchant; the other three fields and the prop are unchanged |
| `ReceiptEdit.EditForm.SetAmount` | components/ReceiptEdit.tsx:61 | replaces the total; a non-numeric entry (NaN) sets it to 0; the other three fields and the prop are unchanged |
| `ReceiptEdit.EditForm.SetDate` | components/ReceiptEdit.tsx:71 | replaces the date; the other three fields and the prop are unchanged |
| `ReceiptEdit.EditForm.SetCategory` | components/ReceiptEdit.tsx:79 | replaces the category; the other three fields and the prop are unchanged |
| `ReceiptEdit.EditForm.Submit` | components/ReceiptEdit.tsx:19-27 | the submitted record is the promotion of the form's current state, with the id and image of the current prop and the clock at submit time |
| `ReceiptEdit.PromoteRoundTrip` | components/ReceiptEdit.tsx:12-27 | opening the form on a receipt and submitting it unedited, at the receipt's own timestamp, gives back that receipt whenever its date and category are non-empty |
| `ReceiptEdit.PromoteIgnoresDraftFields` | components/ReceiptEdit.tsx:21-26 | given the form, the record depends on the draft only through its id and imageUrl; the draft's own timestamp is never used |
| `ReceiptEdit.OffListCategorySurvives` | components/ReceiptEdit.tsx:16-22 | any non-empty draft category outside `Categories()` reaches the submitted record unchanged |
| `ReceiptEdit.OffListCategoryExists` | components/ReceiptEdit.tsx:16-22 | such a category exists: a draft with category `"Groceries"` submits a record with that category |
| `HistoryView.FoldTotals` | components/HistoryView.tsx:15 | the `reduce` left fold from any accumulator equals that accumulator plus the reference sum `SumTotals` of the totals |
| `HistoryView.Total` | components/HistoryView.tsx:15 | the displayed total is the sum of every record's `total` |
| `HistoryView.SumTotalsAppend` | components/HistoryView.tsx:15 | the sum over a concatenation is the sum of the two sums |
| `HistoryView.TotalPrepend` | components/HistoryView.tsx:15 | the total of the empty list is 0, and prepending `r` raises it by exactly `r.total` |
| `HistoryView.Rows` | components/HistoryView.tsx:113-131 | one row per receipt, in list order, showing that receipt's fields; each row's Delete passes that receipt's id |
| `HistoryView.ScanCount` | components/HistoryView.tsx:99 | the scan count is the number of rendered rows, that is, the list length |
| `HistoryView.DroppedFile` | components/HistoryView.tsx:26-33 | a drop forwards a file if and only if at least one file was dropped and the first is an `image/` type; the forwarded file is that first one |
| `HistoryView.ChosenFile` | components/HistoryView.tsx:35-40 | the picker forwards a file if and only if one was selected, the first one, with no type check |
| `HistoryView.DropNarrowsPicker` | components/HistoryView.tsx:26-40 | the drop filter is the picker's choice narrowed to image files |
| `HistoryView.DropZone.constructor` | components/HistoryView.tsx:13 | the drop zone starts not highlighted |
| `HistoryView.DropZone.DragOver` | components/HistoryView.tsx:17-20 | drag-over turns the highlight on |
| `HistoryView.DropZone.DragLeave` | components/HistoryView.tsx:22-24 | drag-leave turns the highlight off |
| `HistoryView.DropZone.Drop` | components/HistoryView.tsx:26-33 | a drop turns the highlight off and returns exactly the file `DroppedFile` selects |
| `App.ScanOf` | App.tsx:29 | the scan keeps the extracted fields, with `id` and `imageUrl` taken from the capture and overriding any extracted keys of those names |
| `App.UploadPayload` | App.tsx:39-51 | an upload starts a capture if and only if the file is an `image/` type and the read produced a non-empty data URL; the capture runs on that data URL |
| `App.RemoveById` | App.tsx:70 | no survivor has the deleted id, the list never grows, and the list is unchanged if and only if no record has that id |
| `App.RemoveByIdExact` | App.tsx:70 | delete removes every record with the id and only those: each other record is kept as many times as it occurred |
| `App.RemoveByIdAppend` | App.tsx:70 | deletion distributes over concatenation, so survivors keep their relative order |
| `App.SaveThenDeleteRestores` | App.tsx:58-70 | when no older record shares its id, deleting a just-saved record restores the previous list |
| `App.DeleteLowersTotal` | App.tsx:70 | after a delete, the displayed total drops by exactly the totals of the removed records |
| `App.DeleteRowRemovesIt` | components/HistoryView.tsx:125 | the Delete button of row `i` removes the receipt shown in row `i` |
| `App.DropPassesUploadGate` | components/HistoryView.tsx:30-31 | a dropped file always passes the upload MIME gate, so only the read result decides whether a capture starts |
| `App.AppState.Valid` | App.tsx:20-22 | the persisted slot always equals the list, as the persist effect rewrites it after every change; in the edit view a scan exists (the guard of App.tsx:77) and carries the id and image that submit copies; the constructor sets up and every `AppState` method preserves it |
| `App.AppState.constructor` | App.tsx:10-13 | the initial state shows the listing, with an empty list, no processing, no scan, and a persisted slot equal to the list |
| `App.AppState.Load` | App.tsx:15-18 | a non-empty slot replaces the list, and an empty slot leaves it; the view, the flag and the scan are unchanged; the slot equals the list afterwards |
| `App.AppState.StartCapture` | App.tsx:24-26 | starting a capture turns processing on, shows the listing and adds the payload to the pending captures; the list and the scan are unchanged |
| `App.AppState.CompleteCapture` | App.tsx:27-36 | completes a pending capture and removes it from the pending ones; on success the scan becomes `ScanOf(fields, payload, freshId)`, replacing any earlier scan, and the edit view is shown; on failure the view and the scan are unchanged; processing is off and the list is unchanged either way |
| `App.AppState.UploadFile` | App.tsx:39-56 | a non-image file, a failed read or an empty read changes no state and starts nothing; otherwise the state, pending captures included, is that after `StartCapture` on the data URL, which is returned |
| `App.AppState.SaveReceipt` | App.tsx:58-62 | the record becomes element 0 with the previous list intact after it; the listing is shown, the scan is cleared, and the slot holds the whole new list |
| `App.AppState.Delete` | App.tsx:70 | the list becomes `RemoveById` of the old list and the slot holds it; nothing else changes |
| `App.AppState.CancelCamera` | App.tsx:75 | only the view changes, to the listing |
| `App.AppState.CancelEdit` | App.tsx:81 | only the view changes, to the listing; the scan is kept |
| `App.AppState.NavHistory` | App.tsx:98 | only the view changes, to the listing |
| `App.AppState.NavCamera` | App.tsx:105 | only the view changes, to the camera |
| `App.AppState.Render` | App.tsx:67-93 | each view maps to its own pane; the edit pane is shown if and only if the view is `Edit` and a scan exists, and it shows that scan; the overlay is shown exactly while processing; in a valid state some pane is always shown |

## Left out

- `components/CameraView.tsx` acquires the camera stream, stops its tracks and encodes a canvas frame as JPEG. That is device plumbing. Its result is the `payload` string of `StartCapture`, and its Cancel is `CancelCamera`.
- `services/geminiService.ts` calls an external AI client and parses its JSON reply. It is not modelled: its outcome is the `Extraction` parameter of `CompleteCapture`.
- `index.tsx` only bootstraps the DOM and reports render errors.
- JSON serialisation of the persisted list is not modelled. `saved` holds the list value itself.
- Parsing the stored slot is not modelled either. Its result is the parameter of `Load`. A corrupt slot makes `JSON.parse` throw in the source, and the model claims nothing for that case.
- Storage write failures (a quota error thrown by `setItem`) are not modelled.
- FileReader's asynchronous base64 decoding is outside the model. Its outcome is the `ReadResult` parameter, and the gap between the gate and `onload` is not modelled.
- Floating point is not modelled. Amounts are integer cents. `parseFloat` is a parameter. The `toFixed(2)` formatting and float rounding in the sum are left out.
- Ids come from `Date.now()`, which does not make them unique. They are parameters, and no uniqueness is proved.
- `alert` and `console` calls, JSX layout and CSS are not modelled.
- The `onOpenScanner` prop of the listing is declared but never passed by the shell, so it is not modelled.
- React's batching of setters is not modelled. Each handler is one atomic state change.
- Effects running twice on mount under `React.StrictMode` (index.tsx:14) in development are not modelled. There, the second run of the load effect reads the `"[]"` that the first run of the persist effect has just written (App.tsx:15-22), so the stored list is wiped in development builds. The model describes a single mount, as in a production build.
- Two captures in flight at once are allowed, because the source has no guard against them. Each `CompleteCapture` applies its outcome when it runs, in whatever order the extractions settle.
- ReceiptEdit.Promote: requires the draft to carry an id and an imageUrl. The source asserts these with `!` rather than checking them. `App.AppState.Valid` shows that every scan the shell opens in the edit view carries both.
- ReceiptEdit.EditForm.SetAmount: NaN is modelled as a missing parse result. NaN is falsy, so it becomes 0, exactly as a missing value does.
