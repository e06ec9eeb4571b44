# Invoice app: the list filter, the form schema, the server actions and the confirmation dialog

A model of the logic of a small invoice management application. The application is a list page,
a create/edit form, five server actions over one `Invoice` table, and a confirmation dialog
used before deleting.

- `wrappers.dfy` (`Wrappers`): `Option` and `Result`.
- `invoices.dfy` (`Invoices`): the `Invoice` row, the data a create supplies, and the field-by-field
  patch an update supplies.
- `actions.dfy` (`InvoiceActions`): the `{status, message, data}` envelope. Each server action is a
  pure step function over the table (`FindStep`, `ListStep`, `CreateStep`, `UpdateStep`,
  `DeleteStep`). The `InvoiceStore` class holds the table as a `map<int, Invoice>` and an
  autoincrement counter. Its five methods are proved against those step functions. A ghost log
  records every revalidation of the `/invoices` page. A thrown storage error is the `dbFails`
  parameter of each action.
- `dialog.dfy` (`ConfirmationDialog`): the call sequences of `closeHandler` and `confirmHandler`,
  the title and description defaults, and a `Dialog` class. The class's handlers append each
  callback they invoke to a ghost trace.
- `text.dfy` (`Text`), `seqs.dfy` (`Seqs`): lower-casing, substring containment and `filter`, with
  the facts the list search relies on.
- `list.dfy` (`InvoiceList`): the filter effect of the list page, and the `ListView` class. That
  class holds the page's state cells and runs the delete flow: pick a row, confirm with Yes or
  leave with No, then dismiss the notice.
- `dates.dfy` (`Dates`): the `yyyy-MM-dd` due-date rule as an explicit Gregorian validator, with
  its round trip against the canonical spelling.
- `form.dfy` (`InvoiceForm`): the field schema as a function from the form values to
  `Result<InvoiceData, FieldErrors>`, the payload built from it, the create/update dispatch, and
  the `FormView` class that runs a submit.

Three behaviours of the code are modelled as written, although a reader might expect otherwise:

- The status rule checks only `status <= 2` (`NegativeStatusAccepted`). A validated invoice can
  therefore have a negative status, not only one of 0, 1 or 2.
- A failed delete shows the notice text `{}`. The list page rethrows the failure as an `Error`
  and shows it through `JSON.stringify`, which writes an `Error` object as `{}`
  (`InvoiceList.FailureText`).
- A successful find of a missing id answers `status: true` with no data.

## Model

| member | source | states |
|---|---|---|
| `InvoiceActions.Failed` | src/app/server/invoice/actions.ts:27-31 | a caught error answers `status: false`, no data, and the operation's fixed message |
| `InvoiceActions.FindStep` | src/app/server/invoice/actions.ts:18-32 | find succeeds unless storage throws; data is present exactly when some row has the id, and it is that row; a thrown error gives the fixed findInvoice failure |
| `InvoiceActions.InvoiceStore.FindInvoice` | src/app/server/invoice/actions.ts:18-32 | the method answers as `FindStep` on the current table and changes nothing |
| `InvoiceActions.Listing` | src/app/server/invoice/actions.ts:36 | `findMany` lists every row of the table and nothing else, each once, in primary-key order |
| `InvoiceActions.RowsBetween` | src/app/server/invoice/actions.ts:36 | the scan over an id range yields exactly the rows in that range, in increasing id order |
| `InvoiceActions.ListStep` | src/app/server/invoice/actions.ts:34-49 | getInvoices succeeds unless storage throws, and then returns exactly the table's rows; a thrown error gives the fixed getInvoices failure |
| `InvoiceActions.InvoiceStore.GetInvoices` | src/app/server/invoice/actions.ts:34-49 | the method answers as `ListStep` and does not modify the table |
| `InvoiceActions.CreateStep` | src/app/server/invoice/actions.ts:51-74 | a create that does not throw inserts the row under a fresh id, keeps every other row, advances the counter, and returns the row with "Invoice created successfully"; a thrown error changes nothing |
| `InvoiceActions.InvoiceStore.CreateInvoice` | src/app/server/invoice/actions.ts:51-74 | the table after the call is the one `CreateStep` gives; `/invoices` is revalidated once on success and never on failure |
| `InvoiceActions.UpdateStep` | src/app/server/invoice/actions.ts:76-105 | an update of a missing id, or one that throws, fails and leaves the table unchanged; otherwise only that row changes, to the patched row, which is returned |
| `InvoiceActions.InvoiceStore.UpdateInvoice` | src/app/server/invoice/actions.ts:76-105 | the table after the call is the one `UpdateStep` gives; `/invoices` is revalidated only on success |
| `InvoiceActions.DeleteStep` | src/app/server/invoice/actions.ts:107-132 | a delete of a missing id, or one that throws, fails and changes nothing; otherwise exactly that id is removed, the other rows keep their values, and the removed row is returned |
| `InvoiceActions.InvoiceStore.DeleteInvoice` | src/app/server/invoice/actions.ts:107-132 | the table after the call is the one `DeleteStep` gives; `/invoices` is revalidated only on success |
| `InvoiceActions.Revalidations` | src/app/server/invoice/actions.ts:57 | a write revalidates `/invoices` exactly once when it succeeded and not at all when it failed |
| `InvoiceActions.CreateThenList` | src/app/server/invoice/actions.ts:34-74 | after a successful create, listing the table includes the created row |
| `InvoiceActions.DeleteThenList` | src/app/server/invoice/actions.ts:34-132 | after a successful delete, listing shows no row with that id and still shows every other row |
| `Invoices.ApplyPatch` | src/app/server/invoice/actions.ts:81-86 | update sets the supplied columns, keeps the others, and never changes the id |
| `Invoices.FullPatchReplaces` | src/views/invoice/form/index.tsx:83 | an update that supplies every field replaces all of them and keeps the id |
| `Seqs.Keep` | src/views/invoice/list/index.tsx:110 | `filter` keeps exactly the elements that satisfy the predicate, each as often as it occurs, in their original order, and drops every other element |
| `Seqs.KeepKeep` | src/views/invoice/list/index.tsx:106-117 | two chained filters are one filter by the conjunction of their predicates |
| `Text.Lower` | src/views/invoice/list/index.tsx:110 | lower-casing keeps the length and maps each letter A to Z to its lower-case letter |
| `Text.Contains` | src/views/invoice/list/index.tsx:110 | `includes`, as a definition: the needle is a prefix of the haystack or of one of its suffixes; its meaning is pinned down by `ContainsIffOccurs` |
| `Text.ContainsIffOccurs` | src/views/invoice/list/index.tsx:110 | `includes` holds exactly when the needle occurs at some offset of the haystack |
| `InvoiceList.Filter` | src/views/invoice/list/index.tsx:106-118 | the filter effect, as a definition: the name filter only for a non-empty search, then the status filter only for a status other than -1; it never adds rows, and with no search and -1 it shows the fetched rows; its meaning is pinned down by `FilterIsOnePass` and `FilterMembership` |
| `InvoiceList.FilterIsOnePass` | src/views/invoice/list/index.tsx:106-118 | the guarded name filter followed by the guarded status filter equals a single filter by "name contains the search, ignoring case, and the status matches" |
| `InvoiceList.FilterMembership` | src/views/invoice/list/index.tsx:106-118 | a row is shown if and only if it is a fetched row whose lower-cased name contains the lower-cased search and whose status equals the picked status, or the sentinel -1 is picked |
| `InvoiceList.FilterKeepsOrder` | src/views/invoice/list/index.tsx:106-117 | the shown rows are a subsequence of the fetched rows, in the original order |
| `InvoiceList.EmptySearchFiltersNoName` | src/views/invoice/list/index.tsx:109-111 | with an empty search only the status decides what is shown |
| `InvoiceList.NoFilterShowsAll` | src/views/invoice/list/index.tsx:106-118 | with an empty search and the sentinel status every fetched row is shown |
| `InvoiceList.StatusFilterExact` | src/views/invoice/list/index.tsx:113-115 | a status other than -1 keeps exactly the name-matching rows that have that status |
| `InvoiceList.SearchExample` | src/views/invoice/list/index.tsx:109-111 | for rows Acme (Unpaid) and Beta (Paid), searching "ac" with every status shows only Acme |
| `InvoiceList.StatusExample` | src/views/invoice/list/index.tsx:113-115 | for the same rows, picking Paid with no search shows only Beta |
| `InvoiceList.FilterExample` | src/views/invoice/list/index.tsx:106-118 | for rows Acme (Unpaid) and Beta (Paid), "ac" with every status shows only Acme, and Paid with no search shows only Beta |
| `InvoiceList.AlertFor` | src/views/invoice/list/index.tsx:83-98 | the notice after a delete is a success notice carrying the action's message exactly when the delete succeeded; otherwise an error notice |
| `InvoiceList.DeleteSuccessAlert` | src/views/invoice/list/index.tsx:87-90 | a successful delete announces "Invoice deleted!" |
| `InvoiceList.ListView.constructor` | src/views/invoice/list/index.tsx:61-71 | the page starts with an empty search, the sentinel status, every row shown, the dialog closed, nothing selected and no notice; the shown rows are the filter of the fetched rows by the current search and status |
| `InvoiceList.ListView.SetSearch` | src/views/invoice/list/index.tsx:130 | typing a search stores it and re-runs the filter effect, so the shown rows are again the filter of the fetched rows by the current search and status |
| `InvoiceList.ListView.SetStatus` | src/views/invoice/list/index.tsx:145 | picking a status stores its value and re-runs the filter effect, so the shown rows are again the filter of the fetched rows by the current search and status |
| `InvoiceList.ListView.HandleDeleteClick` | src/views/invoice/list/index.tsx:73-76 | choosing Delete on a row only selects it and opens the dialog; no delete is made and the table is untouched |
| `InvoiceList.ListView.HandleConfirmDelete` | src/views/invoice/list/index.tsx:78-104 | with nothing selected nothing changes; otherwise the selected id is deleted, the notice reflects the answer, and the dialog is closed whether the delete succeeded or failed |
| `InvoiceList.ListView.ConfirmYes` | src/views/invoice/list/index.tsx:235-241 | Yes in the page's dialog calls the delete handler, then closes the dialog through `setOpen(false)`; with nothing selected the table, the notice and the delete log are untouched; with a row selected that id is deleted, the table is the one `DeleteStep` gives, `/invoices` is revalidated only on success and the notice reflects the answer |
| `InvoiceList.ListView.ConfirmNo` | src/views/invoice/list/index.tsx:235-241 | No only closes the dialog; no delete is made |
| `InvoiceList.ListView.DismissAlert` | src/views/invoice/list/index.tsx:91-93 | dismissing the notice clears it |
| `ConfirmationDialog.CloseCalls` | src/components/dialogs/confirmation-dialog/index.tsx:26-32 | closing calls `handleClose` when supplied and `setOpen(false)` otherwise, exactly one of them, and never `onConfirm` |
| `ConfirmationDialog.ConfirmCalls` | src/components/dialogs/confirmation-dialog/index.tsx:34-37 | confirming calls `onConfirm` exactly when supplied, strictly before the close; without it, confirming only closes |
| `ConfirmationDialog.Title` | src/components/dialogs/confirmation-dialog/index.tsx:42 | the title shown is never empty: the given title when truthy, otherwise "Confirmation" |
| `ConfirmationDialog.Description` | src/components/dialogs/confirmation-dialog/index.tsx:47 | the description shown is the given one when truthy, otherwise the fixed prompt |
| `ConfirmationDialog.Dialog.constructor` | src/components/dialogs/confirmation-dialog/index.tsx:18-25 | a dialog is set up with the parent's open flag and callbacks, and has made no calls yet |
| `ConfirmationDialog.Dialog.CloseHandler` | src/components/dialogs/confirmation-dialog/index.tsx:26-32 | closing (the No button, or dismissing the dialog) makes exactly the close calls and closes only through `setOpen` |
| `ConfirmationDialog.Dialog.ConfirmHandler` | src/components/dialogs/confirmation-dialog/index.tsx:34-37 | confirming (the Yes button) makes exactly the confirm calls, in their order |
| `Dates.DaysInMonth` | src/views/invoice/form/index.tsx:54-55 | January, March, May, July, August, October and December have 31 days; April, June, September and November have 30; February has 29 in a leap year and 28 otherwise |
| `Dates.ParseDate` | src/views/invoice/form/index.tsx:54-55 | an accepted due date has the `dddd-dd-dd` shape and names a real calendar day in a year from 1 to 9999; year 0000 is refused |
| `Dates.ParseFormat` | src/views/invoice/form/index.tsx:54-55 | every calendar date with a year from 1 to 9999 reads back unchanged from its `yyyy-MM-dd` text |
| `Dates.FormatParse` | src/views/invoice/form/index.tsx:54-55 | every accepted text is the canonical `yyyy-MM-dd` spelling of the date it denotes |
| `Dates.NumberPadded` | src/views/invoice/form/index.tsx:54 | a number below 10^width reads back from its zero-padded digits |
| `Dates.PaddedNumber` | src/views/invoice/form/index.tsx:54 | a digit run is the zero-padded spelling of the number it denotes |
| `InvoiceForm.DueDateError` | src/views/invoice/form/index.tsx:51-55 | the empty due date gives "Due Date is required"; any other text is refused, with the format message, exactly when it is not a valid `yyyy-MM-dd` date |
| `InvoiceForm.Errors` | src/views/invoice/form/index.tsx:44-60 | each field is reported exactly when its rule fails: name empty, invoice number empty, amount NaN or not positive, due date not a valid date, status NaN or above 2; each with its fixed message |
| `InvoiceForm.Validate` | src/views/invoice/form/index.tsx:44-60 | the schema accepts exactly when every field rule passes; then it returns the input's values with the due date read as a date, otherwise the field errors |
| `InvoiceForm.ValidatedInvoice` | src/views/invoice/form/index.tsx:44-60 | an accepted invoice has a non-empty name and number, a positive amount, a real calendar due date spelled as given, and a status of at most 2 |
| `InvoiceForm.NegativeStatusAccepted` | src/views/invoice/form/index.tsx:56-59 | a status of -1 passes, since no lower bound is checked |
| `InvoiceForm.LeapDayRule` | src/views/invoice/form/index.tsx:51-55 | 29 February 2024 is accepted, 29 February 2023 can never be produced by the parser, and no accepted day exceeds 31 |
| `InvoiceForm.Payload` | src/views/invoice/form/index.tsx:78 | the payload carries every schema field (name, number, amount, due date) unchanged; its status comes from the `_status` selection when present and is the submitted status otherwise; `_status` itself is not sent |
| `InvoiceForm.DispatchCall` | src/views/invoice/form/index.tsx:80-84 | a submit calls create when not editing and update of the edited id otherwise, with the payload |
| `InvoiceForm.Dispatch` | src/views/invoice/form/index.tsx:80-84 | a create that does not throw adds the payload as a new row under the next id, returns it with "Invoice created successfully" and advances the counter; an edit that succeeds answers "Invoice updated!"; a failure carries the create or update error message; an edit of an existing id that does not throw replaces every column of that row with the payload and keeps its id; an edit never adds a row or moves the counter; a failed submit changes nothing and returns no data |
| `InvoiceForm.ResolvedAsWritten` | src/views/invoice/form/index.tsx:70-78 | as written, the handler receives the schema's fields and no `_status` selection |
| `InvoiceForm.Resolved` | src/views/invoice/form/index.tsx:75-78 | corrected, the handler receives the schema's fields together with the selection |
| `InvoiceForm.StatusSelectionDropped` | src/views/invoice/form/index.tsx:78 | as written, a new invoice with Paid picked is stored as Unpaid |
| `InvoiceForm.SelectionReachesPayload` | src/views/invoice/form/index.tsx:78 | corrected, the payload status is the picked option's value, or the submitted status when nothing is picked |
| `InvoiceForm.FormView.constructor` | src/views/invoice/form/index.tsx:62-73 | the form starts with no `serverMessage`, `isSubmitSuccessful` false (so no success notice), no root error, no field errors and no calls |
| `InvoiceForm.FormView.SubmitHandler` | src/views/invoice/form/index.tsx:75-95 | exactly one of create and update is called; a failed answer sets the root error and leaves `serverMessage` as it was; a successful one sets `serverMessage` to the answer's message |
| `InvoiceForm.FormView.HandleSubmit` | src/views/invoice/form/index.tsx:106 | the schema runs first and the root error is cleared; an input it rejects shows its field errors and calls no server action, leaving the table untouched; an accepted input is sent, as written, without the status selection: the table is the one `Dispatch` gives, `/invoices` is revalidated only on success, and success sets `serverMessage` to the answer's message while failure sets the root error; `isSubmitSuccessful` holds afterwards exactly when the input was accepted and the action succeeded |
| `InvoiceForm.SuccessNotice` | src/views/invoice/form/index.tsx:295-300 | the success notice is shown exactly while `isSubmitSuccessful` holds; it shows `serverMessage` when that is a non-empty text, and otherwise "Invoice updated successfully" when editing or "Invoice created successfully" when creating |
| `InvoiceForm.FormView.HandleSubmitCorrected` | src/views/invoice/form/index.tsx:70-95 | the same submit with the corrected resolver: the picked status reaches the payload, and the table, `serverMessage`, `isSubmitSuccessful`, root error and revalidations follow as for `HandleSubmit` |

## Left out

- JSX rendering, styling and layout of both pages and of the dialog are not modelled.
- The seed script, the framework configuration and the route pages are not part of this model.
  The form and list pages are modelled from the values those route pages pass in.
- The ORM and the database are replaced by the table held in a `map` inside `InvoiceStore`.
  Row order is not fixed by `findMany`; the model lists rows in primary-key order.
- Any fault the database can raise is the `dbFails` parameter. The model does not say which
  inputs cause one.
- The diagnostic `stack` field of the envelope and the `console.error` logging are not modelled.
- The system-managed `createdAt` and `updatedAt` timestamps need a clock and are not modelled.
- `Invoices.Invoice`: the `dueDate` column holds a full timestamp. The model keeps only its year,
  month and day. The time of day (seeded rows carry one), the local midnight the form's parser
  produces, and the client and server time zones used to read and re-format it are not modelled.
- `revalidatePath` is a framework call. The model records it in the ghost log
  `InvoiceStore.revalidated`.
- The request-scoped memoisation of `getInvoices` is managed by the framework. It has no
  invalidation logic of its own and is not modelled.
- `HandleConfirmDelete`: the list page's `data` prop is not refreshed after a delete, because the
  new rows arrive from the server re-render, which is not modelled.
- `ConfirmYes`: the dialog does not wait for `onConfirm` to finish. Each handler is treated as one
  atomic step, so the close is modelled after the delete's answer.
- `DismissAlert`: the 3-second timer that dismisses the notice is modelled only as this explicit
  event.
- `parseFloat` and `parseInt` are not modelled. `amount` and `status` arrive as already parsed
  optional numbers, with None for NaN. The picker's option values are stored already parsed.
  `isEdit` is the already parsed id; a non-numeric id behaves like a missing one at update.
- `Text.Lower`: lower-cases only the letters A to Z, not JavaScript's full Unicode case mapping.
- `InvoiceForm.Validate`: `amount` is a real number, so infinities are not modelled. For a number
  input that is NaN, the schema reports a type error rather than the amount message; the model
  reports the amount message for both.
- `Dates.ParseDate`: accepts exactly two-digit months and days and a four-digit year from 0001
  to 9999. The date library's parser is more lenient about digit counts and accepts trailing
  whitespace after the day; that leniency is not modelled.
- `FormView.HandleSubmit`: the form library's submit plumbing is reduced to "clear the root
  error, validate, then call the handler". Blocking a second submit while one is in flight is not
  modelled.
- `InvoiceActions.CreateStep`: a storage failure is modelled only as a throw before the write.
  If `revalidatePath` threw after a write, the real action would answer with the failure envelope
  although the row is already written; the model does not capture that case. The same holds for
  `UpdateStep` and `DeleteStep`.
- `DebouncedInput` is not modelled: each search change is applied at once.

## Findings

| source | as written | input that shows it | evidently intended | confidence | as-written member | corrected member |
|---|---|---|---|---|---|---|
| src/views/invoice/form/index.tsx:72-78 | the resolver hands `submitHandler` the schema's parsed output. The schema declares no `_status` key, and an object schema drops undeclared keys. So `data._status` is always absent and the payload takes the hidden `status` value, which the picker never changes | create an invoice with the picker on Paid: `status` keeps its default of 0, and the row is stored as Unpaid | the payload status is the picked option's value (line 78); the fix must also keep `_status` out of the payload, since the spread on line 78 would otherwise send it and the ORM refuses unknown fields | not executed; medium (rests on the schema and resolver libraries' documented defaults) | `InvoiceForm.ResolvedAsWritten`, `InvoiceForm.StatusSelectionDropped` | `InvoiceForm.Resolved`, `InvoiceForm.SelectionReachesPayload`, `InvoiceForm.FormView.HandleSubmitCorrected` |
