# KhataLens core in Dafny

KhataLens is a small web app for shopkeepers. A shopkeeper logs in, photographs a
handwritten khata (ledger) page and watches a simulated processing pipeline. A
remote model turns the photo into line items. The shopkeeper corrects the items in
an editor and sees the GST breakdown (CGST and SGST at 9% each). The record is then
saved to a per-user history. The dashboard and reports aggregate that history, the
report can be exported as CSV, and a marketing screen composes a promotional poster
from remote-generated copy and an image.

This project models the sequential logic of that core as pure functions over
immutable datatypes, and proves properties about it:

- `Types` holds the records and enums of `types.ts`. JavaScript's `||` defaulting is modelled by `OrText` and `OrZero`.
- `Sums` models the `reduce` left fold and proves it equal to a head-first reference sum.
- `Text` models `join`, `split` and `startsWith`, and proves that splitting a join gives the parts back.
- `Tax` is the tax screen's breakdown.
- `Editor` is the verification screen's row editor.
- `Storage` is the per-user history store over a key-to-value map.
- `Gemini` is the post-processing of the three remote calls. The remote responses are inputs.
- `Marketing` is poster generation.
- `Reports` covers the report totals and the CSV export.
- `Dashboard` covers the expand toggle and the two stat cards.
- `Pipeline` is the processing-screen step classifier.
- `Credentials` is login-form validation.
- `Workflow` is the application shell of `App.tsx`. It is one state record, and each handler is a transition. `Next` runs the handler for one user event over a `World`, which also holds storage and the saved theme. `Enabled` says which events the current screen offers. `Inv` is the invariant that every enabled event keeps.

Amounts are exact `real`s. Ids, dates, timestamps, the outcome of a storage write
and remote responses are all parameters, because the code gets them from
`crypto.randomUUID`, `Date`, `localStorage` and the network.

`runPipelineSimulation` is modelled as the list of state updates it makes, in
program order (`Workflow.PipelineEffects`). `RunPipeline` applies them all.

The code has no cancellation guard: updates still pending in
`runPipelineSimulation` run after `resetApp`. No contract in this model claims
that a late result is discarded.

## Model

| member | source | states |
|---|---|---|
| Types.ShopTypeLabel | types.ts:38-45 | the label each shop type carries; `Types.ShopTypeLabelInjective` and `Gemini.FallbackBodyNamesShop` state what depends on it |
| Types.ShopTypeLabelInjective | types.ts:38-45 | distinct shop types carry distinct labels, so a label names exactly one type |
| Types.OrTextNonEmpty | services/geminiService.ts:61-62 | `value \|\| default` with a non-empty default is never empty |
| Sums.SumByIsSumRight | components/TaxView.tsx:12 | the left-to-right `reduce` from 0 equals the head-first reference sum for every list |
| Sums.SumByAppend | components/Reports.tsx:11 | a `reduce` sum over a concatenation is the sum of the two parts' sums |
| Sums.SumByCons | components/Reports.tsx:16-18 | the sum of a list with one more element at the front adds that element's value |
| Sums.SumByNonNegative | components/Dashboard.tsx:54 | a sum of non-negative values is non-negative |
| Text.FirstIndexOf | components/Reports.tsx:22-27 | the index found holds the separator, and no earlier position does |
| Text.SplitPeel | components/Reports.tsx:22-27 | splitting text whose first separator follows the prefix `a` yields `a` and then the split of the rest |
| Text.SplitJoin | components/Reports.tsx:22-27 | splitting a separator-free list of parts joined by the separator gives the parts back |
| Text.LinesAfterHeader | components/Reports.tsx:22-29 | a header line, a newline and joined lines split back into the header followed by the lines |
| Tax.ComputeTax | components/TaxView.tsx:11-17 | subtotal is the reference sum of the amounts; CGST and SGST are each 9% of it and equal; total is 1.18 × subtotal |
| Tax.Subtotal | components/TaxView.tsx:12 | the `reduce` sum of the amounts; `Tax.ComputeTax` ties it to the head-first reference sum and `Tax.BreakdownOfConcat` splits it over concatenation |
| Tax.GstSplitIsUnique | components/TaxView.tsx:12-16 | any breakdown with this subtotal and the 9%/9%/sum split is exactly the computed one |
| Tax.EmptyBillIsZero | components/TaxView.tsx:12-16 | an empty item list gives subtotal, CGST, SGST and total all 0 |
| Tax.NonNegativeBreakdown | components/TaxView.tsx:12-15 | with non-negative amounts every component is non-negative and total ≥ subtotal |
| Tax.BreakdownOfConcat | components/TaxView.tsx:12-15 | subtotal, total and CGST of two concatenated lists are the sums of the parts' |
| Tax.SingleItemExample | components/TaxView.tsx:11-17 | one item of 100 gives 100 / 9 / 9 / 118 |
| Editor.AmountEdit | components/DataVerification.tsx:79 | an unparsable amount (NaN) is stored as 0; a parsed number is stored as itself |
| Editor.HandleChange | components/DataVerification.tsx:14-18 | length and order are kept; rows with another id are untouched; every row with the id holds the edited value in the named field |
| Editor.UnparsableAmountStoredAsZero | components/DataVerification.tsx:79 | amount text that does not parse leaves 0 in the amount of every row with that id |
| Editor.ChangeTouchesOnlyNamedField | components/DataVerification.tsx:14-18 | every row of the result differs from its original in at most the edited field |
| Editor.Apply | components/DataVerification.tsx:16 | the field the edit names takes the edit's value, and the id and the other two fields keep theirs |
| Editor.ChangeOfAbsentIdIsIdentity | components/DataVerification.tsx:14-18 | editing an id no row carries leaves the list unchanged |
| Editor.ChangeLastWriteWins | components/DataVerification.tsx:14-18 | two edits of the same field of the same id leave only the second |
| Editor.HandleDelete | components/DataVerification.tsx:20-22 | a row survives exactly when it was present and its id differs from the deleted one |
| Editor.DeleteOfConcat | components/DataVerification.tsx:20-22 | deleting from a concatenation deletes from each part in place, so relative order is kept |
| Editor.DeleteOfAbsentIdIsIdentity | components/DataVerification.tsx:20-22 | deleting an absent id is the identity |
| Editor.DeleteRemovesId | components/DataVerification.tsx:20-22 | no row with the deleted id remains |
| Editor.DeleteIsIdempotent | components/DataVerification.tsx:20-22 | deleting the same id twice equals deleting it once |
| Editor.HandleAdd | components/DataVerification.tsx:24-29 | one row is appended at the end with the new id, today's date, an empty description and amount 0; the earlier rows are untouched |
| Editor.DeleteUndoesAdd | components/DataVerification.tsx:20-29 | deleting a freshly added row restores the list |
| Editor.Run | components/DataVerification.tsx:12-29 | an editing session: the table starts as the incoming rows and each edit, delete or add applies in turn; `Editor.RunKeepsDistinctIds` and `Workflow.UneditedConfirmKeepsRows` state its meaning |
| Editor.DeleteKeepsDistinctIds | components/DataVerification.tsx:20-22 | deleting keeps row ids pairwise distinct |
| Editor.PerformKeepsDistinctIds | components/DataVerification.tsx:14-29 | one edit, delete or add with a fresh id keeps row ids distinct |
| Editor.RunKeepsDistinctIds | components/DataVerification.tsx:12-29 | a whole editing session whose adds use fresh ids keeps row ids distinct |
| Storage.StorageKeyInjective | services/storageService.ts:3 | distinct usernames have distinct storage keys |
| Storage.StorageKey | services/storageService.ts:3 | the per-user storage key is the fixed prefix followed by the username; `Storage.StorageKeyInjective` and `Storage.SaveLeavesOtherUsers` carry its contract |
| Storage.GetRecords | services/storageService.ts:5-13 | a stored record list reads back as itself; an absent or unparsable value reads as the empty list |
| Storage.SaveRecord | services/storageService.ts:15-25 | a successful write returns the record followed by the earlier list, and reading back gives that list; a failed write returns the empty list and stores nothing; other keys are untouched |
| Storage.SaveGrowsByOne | services/storageService.ts:17-20 | after a successful save the user's list is one longer and starts with the record |
| Storage.SaveLeavesOtherUsers | services/storageService.ts:3-19 | saving for one user never changes what another user reads |
| Storage.SaveOverUnreadableKeepsOnlyNew | services/storageService.ts:9-19 | saving over an unparsable value leaves just the new record |
| Gemini.NormaliseItem | services/geminiService.ts:59-64 | the row gets the given id; a missing or empty date becomes today; a missing or empty description becomes "Unknown Item"; the amount is the numeric coercion, NaN becoming 0 |
| Gemini.NormaliseFrom | services/geminiService.ts:59-64 | one normalised row per response item, in order |
| Gemini.ExtractKhataData | services/geminiService.ts:53-71 | no text, a parse failure or a remote error gives exactly the one error row; otherwise one row per listed item |
| Gemini.EmptyOnlyWhenNothingListed | services/geminiService.ts:56-66 | the result is empty exactly when the response parsed but listed no items (or no `items` field) |
| Gemini.ExtractedRowsAreLabelled | services/geminiService.ts:59-71 | every extracted row has a non-empty description |
| Gemini.ExtractedIdsDistinct | services/geminiService.ts:59-71 | with an injective id source the extracted rows have distinct ids |
| Gemini.GenerateMarketingCopy | services/geminiService.ts:99-110 | parsed copy is returned as is; otherwise "Big Sale!", "Limited time offer" and colour "#3b82f6" |
| Gemini.FallbackBodyNamesShop | services/geminiService.ts:108 | the fallback body embeds the shop type's label |
| Gemini.FallbackCopy | services/geminiService.ts:105-110 | the fixed copy returned when the remote call fails; `Gemini.GenerateMarketingCopy` and `Gemini.FallbackBodyNamesShop` state when it is used and that its body names the shop type |
| Gemini.PartsOf | services/geminiService.ts:126 | the parts of the first candidate, empty when any link is missing; `Gemini.GenerateMarketingImage` states what is picked from them |
| Gemini.GenerateMarketingImage | services/geminiService.ts:126-134 | the result is the data of the first part of the first candidate carrying inline data; none when there is no response or no such part |
| Marketing.StartGenerate | components/Marketing.tsx:15-18 | an empty topic starts nothing; otherwise generating is on and the old poster is cleared |
| Marketing.ImageUrl | components/Marketing.tsx:33 | a URL exists exactly when a non-empty payload was returned, and it is the JPEG data-URL prefix followed by the payload |
| Marketing.ImageUrlRoundTrip | components/Marketing.tsx:33 | stripping the prefix from the URL gives the payload back |
| Marketing.ComposePoster | components/Marketing.tsx:27-35 | a poster exists exactly when the copy is an object; it carries the given id, time and image URL, and every text field is non-empty |
| Marketing.PosterFieldsFallBack | components/Marketing.tsx:29-32 | each text field is the copy's when non-empty, else "Special Offer", "Limited Time", "Visit us today!", "#3b82f6" |
| Marketing.FinishGenerate | components/Marketing.tsx:27-40 | when generation ends the flag is off and the poster is the composed one |
| Marketing.HandleGenerate | components/Marketing.tsx:15-41 | an empty topic changes nothing; otherwise the run ends not generating, with the composed poster |
| Marketing.FailedCopyStillMakesPoster | components/Marketing.tsx:22-35 | a failed copy call still yields a poster built from the fallback copy |
| Marketing.MissingImageStillMakesPoster | components/Marketing.tsx:22-35 | a missing image still yields a poster, just without an image URL |
| Dashboard.ToggleExpand | components/Dashboard.tsx:14-16 | toggling the expanded id collapses; toggling anything else expands exactly it |
| Dashboard.ToggleTwice | components/Dashboard.tsx:14-16 | toggling the same id twice restores the state exactly when nothing or that id was expanded |
| Dashboard.ToggleExpandsAtMostTheClicked | components/Dashboard.tsx:15 | a toggle never expands an id other than the clicked one |
| Dashboard.Summarise | components/Dashboard.tsx:43-54 | the entry count is the history length and the total value equals the head-first sum of the record totals, independently of the reduce order |
| Dashboard.SummaryAfterSave | components/Dashboard.tsx:43-54 | after a record is prepended the count grows by one and the value by the record's total |
| Dashboard.TotalValueNonNegative | components/Dashboard.tsx:54 | with non-negative totals the total value is non-negative |
| Pipeline.FindFrom | components/PipelineVisualizer.tsx:29-30 | the search returns the first position holding the stage, or -1 exactly when it is absent |
| Pipeline.IndexOf | components/PipelineVisualizer.tsx:19-30 | every stage is found, at a position holding it |
| Pipeline.IndexOfPosition | components/PipelineVisualizer.tsx:19-27 | the stage at position k has index k, so the order is IDLE < YOLO < CROPPING < TROCR < LLM < DB < COMPLETE |
| Pipeline.IndexOfInjective | components/PipelineVisualizer.tsx:19-30 | distinct stages have distinct indices |
| Pipeline.StatusOf | components/PipelineVisualizer.tsx:29-34 | completed iff the current index is greater, active iff the stage is current, pending iff the current index is smaller |
| Pipeline.AtMostOneActive | components/PipelineVisualizer.tsx:33 | at most one displayed step is active |
| Pipeline.EndpointsOfDisplay | components/PipelineVisualizer.tsx:10-34 | at IDLE all five steps are pending; at COMPLETE all five are completed |
| Pipeline.CompletedArePrefix | components/PipelineVisualizer.tsx:10-32 | every step before a completed one is completed |
| Pipeline.StatusIsMonotone | components/PipelineVisualizer.tsx:29-34 | as the stage advances a step's status only moves pending → active → completed |
| Reports.RecordsOn | components/Reports.tsx:16-17 | a record is kept exactly when its timestamp starts with today's date |
| Reports.RecordsOnOfConcat | components/Reports.tsx:16-17 | filtering a concatenation is the concatenation of the filtered parts: the filter keeps the history order |
| Reports.TodaysRevenueIsShareSum | components/Reports.tsx:16-18 | today's revenue equals the sum over the whole history of each record's total when it is dated today and 0 otherwise |
| Reports.TotalRevenue | components/Reports.tsx:11 | the sum of the record totals; `Reports.TotalsOfComputedRecords` gives it as 1.18 × the summed subtotals |
| Reports.TotalTax | components/Reports.tsx:12 | the sum of CGST + SGST over the records; `Reports.TotalsOfComputedRecords` gives it as 0.18 × the summed subtotals |
| Reports.TodaysRevenue | components/Reports.tsx:16-18 | the sum of totals of today's records; `Reports.TodaysRevenueIsShareSum` equates it with a filter-free sum and `Reports.TodayWithinTotal` bounds it by the total revenue |
| Reports.TodayWithinTotal | components/Reports.tsx:11-18 | with non-negative totals, 0 ≤ today's revenue ≤ total revenue |
| Reports.TotalsOfComputedRecords | components/Reports.tsx:11-12 | over records taxed by the tax screen, revenue is 1.18× and tax 0.18× the summed subtotals |
| Reports.Descriptions | components/Reports.tsx:25 | one description per item, in order |
| Reports.CsvRows | components/Reports.tsx:23-27 | one row per record, in history order |
| Reports.ItemsField | components/Reports.tsx:25-26 | the descriptions joined by "; " between a pair of double quotes, without escaping |
| Reports.CsvRow | components/Reports.tsx:26 | the six fields joined by commas; `Reports.CsvLines` shows each record gives one line of the file |
| Reports.CsvFields | components/Reports.tsx:23-26 | the six fields of a record's line: date, id, quoted item descriptions, subtotal, tax and total; `Reports.CsvRow` and `Reports.CsvLines` state what is built from them |
| Reports.Csv | components/Reports.tsx:22-29 | the file starts with the header line, and is only the header for an empty history; `Reports.CsvLines` gives its exact lines |
| Reports.HeaderIsOneLine | components/Reports.tsx:22 | the header is "Date,Transaction ID,Items,Subtotal,Tax,Total" and a newline |
| Reports.CsvLines | components/Reports.tsx:22-29 | with newline-free rows, the CSV's lines are exactly the header line and then one line per record |
| Reports.TaxColumnOfComputedRecord | components/Reports.tsx:26 | the Tax column (CGST + SGST) of a record from the tax screen is 18% of its subtotal |
| Credentials.HandleSubmit | components/Login.tsx:13-21 | login proceeds iff both fields are non-empty, with the username exactly; otherwise the form shows "Please enter both username and password" |
| Credentials.PasswordIsNotChecked | components/Login.tsx:19-20 | any non-empty password gives the same outcome |
| Workflow.ToggleTheme | App.tsx:49-59 | the theme always changes |
| Workflow.InitialTheme | App.tsx:38-47 | a saved "dark" gives dark and any other saved preference light; with none saved (or an empty one) dark exactly when the system prefers it |
| Workflow.ToggleThemeTwice | App.tsx:49-59 | toggling twice restores the theme |
| Workflow.SavedThemeIsRestored | App.tsx:38-58 | the saved preference makes the next start-up pick the toggled theme, whatever the system prefers |
| Workflow.ThemeName | App.tsx:50-57 | the stored spelling of a theme; `Workflow.SavedThemeIsRestored` states that reading it back restores the theme |
| Workflow.Initial | App.tsx:19-47 | the app starts logged out on LOGIN with no history and no scan in progress |
| Workflow.DisplayName | App.tsx:71 | the display name is the username with its first character upper-cased |
| Workflow.HandleLogin | App.tsx:62-76 | the user is the username verbatim with the display name and General; MAIN_APP, DASHBOARD, and the user's stored history |
| Workflow.ClearInProgress | App.tsx:153-157 | stage IDLE, no image, no rows, no tax; everything else kept |
| Workflow.ResetApp | App.tsx:153-164 | the scan is always cleared; MAIN_APP and DASHBOARD with a user, LOGIN without |
| Workflow.HandleLogout | App.tsx:78-83 | no user, empty history, scan cleared, LOGIN; with a user present the view also returns to DASHBOARD |
| Workflow.HandleShopTypeChange | App.tsx:62-89 | logged out nothing changes; otherwise the shop type is set and the user's history is reloaded, with the screens untouched |
| Workflow.NewScan | App.tsx:263 | the dashboard button moves to UPLOAD; user, history, view, theme and the scan (stage, preview, media type, rows, breakdown) are kept as they were |
| Workflow.ChangeView | App.tsx:192 | only the view changes: step, user, history, theme and the scan (stage, preview, media type, rows, breakdown) are kept |
| Workflow.ImageSelected | App.tsx:118-122 | the preview and media type are remembered before the pipeline runs; step, stage, items, user, history, tax, view and theme are unchanged |
| Workflow.PipelineEffects | App.tsx:92-116 | nine updates: PROCESSING first, VERIFICATION last, the extraction result stored once as the sixth, only stage changes in between |
| Workflow.ExtractionShopType | App.tsx:106 | extraction uses the user's shop type, General without a user |
| Workflow.ShownStagesOfPipeline | App.tsx:92-116 | the simulation shows YOLO, CROPPING, TROCR, LLM, DB_FILLING, COMPLETE in that order |
| Workflow.PipelineStagesInOrder | App.tsx:92-116 | each stage shown has a strictly larger index than the one before |
| Workflow.ExtractionStoredDuringStructuring | App.tsx:104-107 | the rows are stored only while LLM_STRUCTURING is shown |
| Workflow.LastStoreWins | App.tsx:107 | after a run of updates, the rows are those of the last update that stored rows |
| Workflow.LastStageWins | App.tsx:95-112 | after a run of updates, the stage is that of the last update that showed one |
| Workflow.EffectsKeepOtherFields | App.tsx:92-116 | the simulation never touches user, history, view, image, tax or theme |
| Workflow.RunPipeline | App.tsx:92-122 | an uninterrupted run ends on VERIFICATION at COMPLETE, holding the rows extracted for the user's shop type |
| Workflow.HandleVerificationConfirm | App.tsx:124-127 | the rows become exactly the verified list and the step TAX_ANALYSIS; user, history, image, stage and tax are kept |
| Workflow.HandleTaxFinish | App.tsx:129-132 | the breakdown is stored and the step becomes FINAL_PREVIEW; rows, user, history, image and stage are kept |
| Workflow.NewRecord | App.tsx:136-141 | the saved record carries the current rows and breakdown; `Workflow.SaveAddsOneRecord` states where it lands |
| Workflow.FinishAndSave | App.tsx:134-151 | with a user and tax, a successful save puts the new record first and the history matches storage, and a failed write empties the history; in every case the scan is cleared and the app returns to MAIN_APP/DASHBOARD |
| Workflow.Enabled | App.tsx:166-344 | which handlers the rendered screen offers for each step and view; `Workflow.NextKeepsInv` is stated over it |
| Workflow.Next | App.tsx:49-164 | one handler run to completion over the app state, storage and saved theme; `Workflow.NextKeepsInv` and `Workflow.NextKeepsSynced` state its meaning |
| Workflow.InitialSatisfiesInv | App.tsx:19-47 | the start state satisfies the invariant |
| Workflow.NextKeepsInv | App.tsx:49-164 | every handler a screen offers keeps the invariant: a user exactly past LOGIN, no scan state outside the scan flow, a completed scan behind the editor, tax and preview screens, and on the preview the breakdown of exactly the rows shown |
| Workflow.NextKeepsSynced | App.tsx:134-144 | the shown history stays what storage holds for the user, except after a failed write |
| Workflow.FailedSaveEmptiesHistory | App.tsx:142-143 | a failed write on save empties the shown history and leaves storage as it was |
| Workflow.SaveAddsOneRecord | App.tsx:134-144 | a successful save grows the history by exactly one record, first, carrying the previewed rows and their computed breakdown |
| Workflow.ShopTypeChangeOnlyShopType | App.tsx:85-89 | with history in step with storage, a shop-type change alters only the shop type |
| Workflow.UneditedConfirmKeepsRows | App.tsx:124-127 | the editor starts from the extracted rows and Confirm with no edits hands them on unchanged to TAX_ANALYSIS |
| Workflow.ConfirmThenAcceptTax | App.tsx:124-132 | confirm then tax finish gives FINAL_PREVIEW with exactly the edited rows and the breakdown computed from them |
| Workflow.AcceptedFormLogsIn | App.tsx:166-178 | a login form that validates enables the login handler with the typed username |
| Workflow.SingleItemScenario | App.tsx:124-151 | an unedited one-item scan of 100, taxed and saved, is stored first with 9 + 9 tax and total 118 |

## Left out

- Remote model calls: the SDK client, the prompts and the request schemas (services/geminiService.ts:5-51, 77-97, 116-124) are not modelled. Each response is an input: a remote error, empty text, unparsable text or a parsed value.
- `JSON.parse` and `JSON.stringify` and `localStorage` itself are not modelled. Storage is a map from key to an unreadable value or a record list. A write either succeeds and reads back unchanged or fails; that outcome is a parameter.
- Timing: the `setTimeout` waits in the pipeline simulation are not modelled, only the order of its state updates.
- Interleaving: a Cancel, Logout or Retake that lands while the simulation is still pending is not modelled. The code has no cancellation guard, and nothing here claims that a late result is discarded.
- `crypto.randomUUID`, `new Date()`, `toISOString`, `toLocaleDateString`, `toFixed` and number-to-string conversion are parameters of the members that use them, not modelled functions.
- IEEE-754 doubles: amounts are exact reals, so `0.09 × subtotal` has no rounding. Display rounding is not modelled.
- JSX, CSS and the DOM: the `dark` class on the document element, `matchMedia`, the Blob download link and `window.print`.
- The mobile menu flag (App.tsx:25) only shows or hides markup.
- Sidebar, Settings, FinalPreview and ImageInput render or read files and hold no logic. The Settings screen's choice reaches the model as `ShopTypeChosen`, and ImageInput's output as `ImageChosen`.
- The dashboard search box has no filtering logic. The "+12% from yesterday" report text is a fixed string.
- Workflow.DisplayName: only ASCII letters are upper-cased. `toUpperCase` on other scripts is not modelled.
- Editor.HandleChange: the editor only ever changes date, description or amount, so an edit of the id field is not modelled.
- Gemini.ExtractKhataData: some parsed shapes are not modelled. One is an `items` field that is present but not an array. Another is a list holding elements that are not objects. Some of these make the code throw and return the error row; the others give rows built from missing fields.
- Reports.CsvLines: the property is stated for records whose descriptions contain no newline. Descriptions are quoted without escaping, so a newline, quote or comma inside a description breaks the CSV row structure.
- Workflow.NextKeepsInv: the invariant is stated for the uninterrupted pipeline, which `ImageChosen` runs as one step. In the app, Cancel is offered on the PROCESSING screen. Cancel, then Logout from the dashboard, then the still-pending updates ends on VERIFICATION with no user, which breaks the invariant; that interleaving is not modelled.
- Workflow.NextKeepsSynced: a save whose write fails is excluded. `Workflow.FailedSaveEmptiesHistory` states what happens then.
