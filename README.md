# Invoice workspace model

A Dafny model of the invoice workspace of a single-page invoice manager. The
component keeps six state cells: the current view (dashboard or form), the
invoice list, the search term, the invoice being edited, the invoice being
previewed, and the draft form. Its event handlers edit the draft's line items,
validate and commit the draft, delete invoices, and switch views. From that
state it derives three things: line and invoice totals (`calculateTotal`),
the searched list (`filteredInvoices`) and the dashboard figures (`stats`).

Layout, one module per concern:

- `invoice_data.dfy` (`InvoiceData`): line items, invoices (the draft has the same shape), statuses, views, the blank line and the default draft.
- `sequences.dfy` (`Sequences`): the order-preserving filter used by search, delete and stats; the index filter used by `removeItem`; and a subsequence predicate.
- `totals.dfy` (`Totals`): amounts, `calculateTotal` as a left fold, and `stats`. Reordering lines does not change a total, and revenue counts paid invoices only.
- `invoice_ids.dfy` (`InvoiceIds`): `String(n).padStart(3, '0')` on natural numbers. Reading an id back gives the number, so distinct counts give distinct ids.
- `search.dfy` (`Search`): lower-casing, substring search and `filteredInvoices`.
- `validation.dfy` (`Validation`): the two-stage submit check. Its two outcomes stand for the two alerts.
- `workspace.dfy` (`Workspace`): the list transitions (edit commit, create commit, delete). It also holds the class `InvoiceWorkspace`, with one method per handler and per wired button. The class invariant `Valid()` says two things. The draft always has a line. Every stored invoice passed the submit check and has a line. The second part holds here because lines are values; the program itself does not keep it (see "Left out").
- `samples.dfy` (`Samples`): the two invoices loaded at mount, concrete facts about them, and three client sessions. Each session starts from a workspace holding the samples, as the mount effect leaves it, then drives the workspace through its methods, reasoning only from their contracts.

Every handler is one atomic transition. Amounts are `real`. The current date is a parameter (`today`).

Things the code does that the model states as proved properties:

- The id of a new invoice is the list length plus one, padded. After a delete it can repeat an id still in use (`Workspace.DeleteThenCreateRepeatsId`, `Samples.SampleDeleteThenCreate`). As long as no delete happens, ids stay `"001"`, `"002"`, ... and are distinct (`Workspace.CommitKeepsDenseIds`, `Workspace.DenseIdsAreDistinct`).
- Overdue invoices count in `total` but in neither `paid` nor `pending`, and they add nothing to revenue (`Totals.ComputeStats`, `Totals.RevenueIsPaidOnly`).
- The remove-line button is shown only when the draft has more than one line. `removeItem` itself has no guard, so `RemoveItem` requires more than one line. A single-line draft therefore has no remove transition at all. It is not modelled as a no-op removal.
- The header's Dashboard button changes only the view. An edit in progress stays selected.

## Model

| member | source | states |
|---|---|---|
| `Sequences.Filter` | src/App.js:128-131 | the result is no longer than the input and holds exactly the input's elements that satisfy the condition |
| `Sequences.FilterIsSubsequence` | src/App.js:115 | a filter keeps the survivors in their original relative order |
| `Sequences.FilterCount` | src/App.js:115 | a kept value keeps every occurrence; a value that fails the condition has none |
| `Sequences.FilterKeepsAll` | src/App.js:128-131 | when every element satisfies the condition, the filter returns the sequence unchanged |
| `Sequences.FilterKeepsNone` | src/App.js:135-136 | when no element satisfies the condition, the filter returns nothing |
| `Sequences.FilterAppend` | src/App.js:135-137 | filtering distributes over concatenation |
| `Sequences.WithoutIndex` | src/App.js:63 | keeping every position except `index` is `s[..index] + s[index+1..]` when the index is in range, and leaves `s` unchanged otherwise |
| `Totals.TotalAppend` | src/App.js:51-53 | the total of a concatenation is the sum of the parts' totals |
| `Totals.TotalWithout` | src/App.js:51-53 | removing one line lowers the total by exactly that line's quantity times rate |
| `Totals.TotalPermutation` | src/App.js:51-53 | two line lists with the same multiset of lines have the same total |
| `Totals.Total` | src/App.js:51-53 | `calculateTotal`: when every line has quantity > 0 and rate >= 0, the total is >= 0 |
| `Totals.TotalSnoc` | src/App.js:51-53 | adding a line at the end adds exactly its quantity times rate |
| `Totals.TotalSplit` | src/App.js:51-53 | a line anywhere in the list contributes exactly its quantity times rate |
| `Totals.StatusPartition` | src/App.js:133-138 | the paid, pending and overdue counts add up to the list length |
| `Totals.SumTotals` | src/App.js:137 | the revenue fold is >= 0 when every summed invoice total is >= 0 |
| `Totals.FilterCountsStatus` | src/App.js:135-136 | filtering on one status keeps exactly as many invoices as `CountStatus`, an independent head-first count of that status, gives |
| `Totals.ComputeStats` | src/App.js:133-138 | total is the list length; paid is the number of paid invoices and pending the number of pending ones (both by `CountStatus`); paid + pending <= total, and the difference is exactly the number of overdue invoices |
| `Totals.SumTotalsAppend` | src/App.js:137 | the revenue fold over a concatenation is the sum of the folds |
| `Totals.RevenueIsPaidOnly` | src/App.js:137 | revenue equals the sum, over the list, of each paid invoice's total (pending and overdue contribute 0) |
| `Totals.PaidContributionNonNegative` | src/App.js:137 | with non-negative invoice totals, the paid-only sum is non-negative |
| `Totals.RevenueNonNegative` | src/App.js:137 | with non-negative invoice totals, revenue is non-negative |
| `InvoiceIds.Decimal` | src/App.js:92 | `String(n)` has at least one digit, only digits, reads back as `n`, and has at most k digits when n < 10^k |
| `InvoiceIds.PadStart` | src/App.js:92 | the result has length max(len, width), ends with the input, and every character before it is the fill |
| `InvoiceIds.InvoiceId` | src/App.js:92 | the id given when `count` invoices exist has at least 3 characters, and exactly 3 while count + 1 < 1000 |
| `InvoiceIds.InvoiceIdShape` | src/App.js:92 | a new id is all digits and at least 3 long, and exactly 3 long while count + 1 < 1000 |
| `InvoiceIds.ParseLeadingZero` | src/App.js:92 | a leading '0' does not change the value read |
| `InvoiceIds.ParsePadded` | src/App.js:92 | zero-padding does not change the value read |
| `InvoiceIds.IdRoundTrip` | src/App.js:92 | reading the id made for `count` gives count + 1 |
| `InvoiceIds.IdInjective` | src/App.js:92 | two counts give the same id exactly when they are equal |
| `Search.Lower` | src/App.js:129 | `toLowerCase` keeps the length and lower-cases each character in place |
| `Search.Includes` | src/App.js:129-130 | the empty term is included in every string; a term longer than the string is never included |
| `Search.IncludesAt` | src/App.js:129-130 | `includes` holds exactly when the term occurs at some position of the string |
| `Search.Matches` | src/App.js:129-130 | the empty term matches every invoice; a match needs the term to be no longer than the client name or the id |
| `Search.FilteredInvoices` | src/App.js:128-131 | the listed invoices keep list order; an invoice is listed iff its lower-cased client name contains the lower-cased term or its id contains the term; each listed invoice appears as often as it is stored |
| `Search.EmptyTermListsAll` | src/App.js:128-131 | the empty term lists the whole list |
| `Validation.SomeBadItem` | src/App.js:79 | `some` is true exactly when some line lacks a description, has quantity <= 0 or has rate < 0 |
| `Validation.Validate` | src/App.js:73-82 | accepted iff the four header fields are non-empty and every line is acceptable; the header failure is reported first; the line failure is reported only when the header is complete |
| `Validation.ValidateIgnoresId` | src/App.js:86 | the identifier plays no part in the verdict |
| `Validation.DefaultFormRefused` | src/App.js:73-76 | a fresh draft is refused as it stands, at the header stage |
| `Validation.AcceptedTotalNonNegative` | src/App.js:79 | an accepted draft has a total >= 0 |
| `Workspace.ReplaceById` | src/App.js:85-87 | the edit commit keeps length and every id; entries with the edited id become the draft under that id; all others are unchanged in place |
| `Workspace.AppendNew` | src/App.js:90-94 | the create commit appends exactly one invoice after the unchanged list: the draft, with every field kept except the id, which becomes `InvoiceId(length)` |
| `Workspace.Commit` | src/App.js:84-95 | an edit keeps the length and every id; a create keeps the old list as a prefix and appends the draft under id `InvoiceId(old length)` |
| `Workspace.DeleteById` | src/App.js:114-116 | the survivors keep their order; an invoice survives iff its id differs; survivors keep every occurrence (nothing renumbered) |
| `Workspace.DeleteAbsentId` | src/App.js:114-116 | deleting an id no entry carries changes nothing |
| `Workspace.DeleteIdempotent` | src/App.js:114-116 | deleting the same id twice is deleting it once |
| `Workspace.DenseIdsAreDistinct` | src/App.js:92 | ids "001", "002", ... in order are pairwise distinct |
| `Workspace.CommitKeepsDenseIds` | src/App.js:84-95 | creates and edits keep the ids dense |
| `Workspace.DeleteThenCreateRepeatsId` | src/App.js:92 | with dense ids and at least two invoices, deleting the first and then creating one leaves two entries with the same id |
| `Workspace.CommitKeepsStored` | src/App.js:84-95 | committing an accepted draft that has a line keeps every stored invoice accepted and with a line |
| `Workspace.ApplyEdit` | src/App.js:69 | only the named field of the line takes the new value; the other two keep theirs |
| `Workspace.StoredTotalsNonNegative` | src/App.js:51-53 | stored invoices that passed the submit check have totals >= 0 |
| `Workspace.InvoiceWorkspace.DashboardStats` | src/App.js:133-138 | the dashboard figures are `ComputeStats` of the stored list: total is the list length, paid and pending are the per-status counts, paid + pending <= total; under `Valid()` revenue is >= 0, which holds only because lines are values (see "Left out") |
| `Workspace.InvoiceWorkspace.Listed` | src/App.js:128-131 | the listed rows are the stored invoices that match the current search term, in list order, each as often as it is stored |
| `InvoiceData.DefaultForm` | src/App.js:40-49 | the draft at mount and after a reset: one blank line (empty description, quantity 1, rate 0), status pending, date today, every other text field empty |
| `Workspace.InvoiceWorkspace.constructor` | src/App.js:5-9 | initial state: dashboard, no invoices, empty search, no edit target, no preview, default draft dated today |
| `Workspace.InvoiceWorkspace.ResetForm` | src/App.js:101-112 | the draft becomes the default form (one blank line, status pending, date today); nothing else changes |
| `Workspace.InvoiceWorkspace.ShowDashboard` | src/App.js:158 | only the view changes, to the dashboard |
| `Workspace.InvoiceWorkspace.NewInvoice` | src/App.js:168 | fresh draft, no edit target, form view; the list, search and preview are unchanged |
| `Workspace.InvoiceWorkspace.Cancel` | src/App.js:470 | fresh draft, no edit target, dashboard view; nothing is stored |
| `Workspace.InvoiceWorkspace.SetSearchTerm` | src/App.js:232 | only the search term changes |
| `Workspace.InvoiceWorkspace.OpenPreview` | src/App.js:274 | only the preview selection changes, to the chosen invoice |
| `Workspace.InvoiceWorkspace.ClosePreview` | src/App.js:491-561 | only the preview selection changes, to none |
| `Workspace.InvoiceWorkspace.EditInvoice` | src/App.js:118-122 | a listed invoice becomes the edit target and the draft, and the form view opens; the list is unchanged |
| `Workspace.InvoiceWorkspace.DeleteInvoice` | src/App.js:114-116 | the list becomes `DeleteById` of the old list; it shrinks or stays the same; exactly the entries with that id are gone; nothing else changes |
| `Workspace.InvoiceWorkspace.SetField` | src/App.js:324-455 | only the chosen text field of the draft changes; the lines, status and id are kept |
| `Workspace.InvoiceWorkspace.SetStatus` | src/App.js:372 | only the draft's status changes |
| `Workspace.InvoiceWorkspace.AddItem` | src/App.js:55-60 | the draft gains exactly one line, the blank one, at the end; earlier lines are unchanged |
| `Workspace.InvoiceWorkspace.RemoveItem` | src/App.js:62-65 | the line at `index` is dropped and the rest keep their order; with more than one line before, at least one remains |
| `Workspace.InvoiceWorkspace.UpdateItem` | src/App.js:67-71 | only line `index` changes, and only in the named field; the number of lines is kept |
| `Workspace.InvoiceWorkspace.HandleSubmit` | src/App.js:73-99 | the verdict is `Validate` of the draft. A refusal changes nothing. On acceptance the list becomes the commit, the edit target is cleared, the draft is reset and the dashboard shows. An edit keeps the list length. A create appends the draft with id `InvoiceId(old length)` |
| `Samples.SampleTotals` | src/App.js:20-23 | invoice 001 totals 8000 and invoice 002 totals 1500 |
| `Samples.SampleStats` | src/App.js:12-36 | the samples give total 2, paid 1, pending 1, revenue 8000 |
| `Samples.SampleNextId` | src/App.js:92 | with the two samples stored, the next id is "003" |
| `Samples.SampleIdsDense` | src/App.js:14 | the sample ids are "001" and "002" in order |
| `Samples.SampleValidation` | src/App.js:74 | both samples pass the check; without the client email the first fails at the header stage |
| `Samples.SampleDeleteThenCreate` | src/App.js:114-116 | with the samples stored, deleting "001" and then creating an invoice stores "002" twice |
| `Samples.Mounted` | src/App.js:11-38 | after the mount effect the list is the two samples, the dashboard shows, nothing is being edited, and the invariant holds |
| `Samples.AcmeDraftAccepted` | src/App.js:73-82 | a draft with a complete header and one line described, of quantity 1 and rate 250, passes the check |
| `Samples.FillAcmeHeader` | src/App.js:168-364 | a new draft whose client name, email and due date are typed in holds exactly those values over the default form |

## Left out

- Rendering (JSX, styling, icons, the preview overlay's layout) is not modelled; only the handler wiring of the buttons and inputs is kept.
- The two `alert` calls are not modelled as notifications. `HandleSubmit` returns which check refused the draft, and the state is unchanged.
- `downloadPDF` only shows a notification and has no state effect, so it is not modelled.
- The mount-time `useEffect` is React lifecycle. The constructor starts with an empty list. The two sample invoices are constants in `Samples`, and their missing address and notes are modelled as empty strings.
- Reading today's date from the clock is not modelled; `today` is a parameter of the constructor, `ResetForm`, `NewInvoice`, `Cancel` and `HandleSubmit`.
- Workspace.ItemEdit: `Number(...)` conversion of typed quantities and rates, including `NaN`, is not modelled. Edits carry a `real` already. A `NaN` would pass the quantity and rate checks in the source, and the model does not say otherwise.
- Floating-point arithmetic and rounding are not modelled; amounts are exact `real`s. So are the `toFixed` and `toLocaleString` formatting.
- Search.LowerChar: `toLowerCase` is modelled only for the ASCII letters A-Z; other characters are left as they are.
- React's batched, asynchronous state updates are not modelled; each handler is one atomic transition.
- Object aliasing is not modelled. `updateItem` writes into a line object that the stored invoice may share, and `editInvoice` puts the stored invoice itself into the draft. Lines are values here, so a stored invoice changes only on submit.
- Workspace.InvoiceWorkspace.Valid: its second part (every stored invoice has a line and passes the submit check) is not a property of the program. `editInvoice` puts the stored object itself into the draft (src/App.js:120), and `updateItem` writes the new value into the line object that the stored invoice shares (src/App.js:68-69). Typing quantity -5 on the first line of "001" and then pressing Cancel leaves "001" stored with a total of -22000, with no submit check run.
- Workspace.InvoiceWorkspace.DashboardStats: revenue >= 0 follows from `Valid()` and so holds only in this value model. In the program the sequence above makes the paid invoice "001" total -22000, and the revenue card then shows -22000.
- Workspace.InvoiceWorkspace.RemoveItem: requires more than one line, the condition under which its button is shown. The source function itself would also remove the last line.
- Workspace.InvoiceWorkspace.UpdateItem: requires an index of an existing line, as the inputs of the rendered lines always pass. An index past the end would throw in the source.
- Workspace.InvoiceWorkspace.EditInvoice: requires a stored invoice, as every row it is reached from is one.
