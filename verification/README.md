# Personal finance ledger — Dafny model

This project models the core of a small personal-finance web application.
The application keeps an in-memory ledger of transactions. Each transaction
has an id, a type (income or expense), an amount, a date, a description and
a category. Around the ledger sit a few pure operations:

- the shell's handlers add, update and delete entries, append generated
  test data, and reset the modal state when the form is opened by hand;
- the add/edit form prefills its draft from an edited entry, merges fields
  that a receipt-extraction service guessed, and validates a submit before
  handing it to add or update;
- the report page filters the ledger by period (this month, the last three
  months, this year) and folds it into income and expense totals and a
  balance;
- the transactions page shows a copy of the ledger sorted newest first;
- a constants module holds the category table, the seed ledger and a
  test-data generator.

Everything is immutable data with pure functions:

- `seq<Transaction>` is the ledger;
- amounts are integer cents;
- dates are `(year, month, day)` records with month 1..12;
- the clock, the random draws, the generated ids and the user's answer to
  the delete confirmation are all parameters.

Modules and the source file each one models:

| module | file | models |
|---|---|---|
| `Types` | `types.dfy` | the entities, dates and their order, ids |
| `Sequences` | `sequences.dfy` | order-preserving filter (`Array.prototype.filter`) |
| `Ledger` | `ledger.dfy` | the list transformers of `App.tsx` |
| `AppState` | `app_state.dfy` | the state and handlers of `App.tsx` |
| `TransactionForm` | `transaction_form.dfy` | `components/AddTransactionModal.tsx` |
| `Reports` | `reports.dfy` | `pages/Reports.tsx` |
| `TransactionsPage` | `transactions_page.dfy` | `pages/Transactions.tsx` |
| `MockData` | `mock_data.dfy` | `constants.ts` |

## Model

| member | source | states |
|---|---|---|
| `Ledger.AddTransaction` | App.tsx:74-78 | adding prepends one entry, which carries the supplied id and exactly the submitted fields; the old entries follow unchanged and in order |
| `Ledger.AddKeepsIdsUnique` | App.tsx:74-78 | adding with an id no entry uses keeps the ledger's ids pairwise distinct |
| `Ledger.DeleteUndoesAdd` | App.tsx:74-93 | a confirmed delete of a freshly added id restores the ledger to what it was before the add |
| `Ledger.UpdateTransaction` | App.tsx:82-85 | an update keeps length and order; every position whose id matches becomes the updated entry and every other position is unchanged |
| `Ledger.UpdateKeepsIds` | App.tsx:82-85 | an update never changes the sequence of ids |
| `Ledger.UpdateAbsentIsIdentity` | App.tsx:84 | updating an id that is not present leaves the ledger identical |
| `Ledger.UpdateIdempotent` | App.tsx:84 | applying the same update twice equals applying it once |
| `Ledger.UpdateThenRestore` | App.tsx:82-85 | with unique ids an update changes exactly one position, and updating back with the original entry restores the ledger |
| `Ledger.DeleteTransaction` | App.tsx:89-94 | an unconfirmed delete leaves the ledger unchanged; a confirmed one leaves no entry with that id |
| `Ledger.DeleteKeepsOthers` | App.tsx:91 | a confirmed delete keeps exactly the entries whose id differs, each with its original multiplicity |
| `Ledger.DeleteIsSubsequence` | App.tsx:91 | the entries that survive a delete keep their relative order |
| `Ledger.DeleteIdempotent` | App.tsx:91 | deleting the same id a second time changes nothing |
| `Ledger.DeletePresentShrinksByOne` | App.tsx:91 | with unique ids, deleting a present id removes exactly one entry |
| `Ledger.AppendTransactions` | App.tsx:139 | generated entries go after the old ones, which keep their positions |
| `Ledger.AppendKeepsIdsUnique` | App.tsx:137-139 | appending a batch of fresh, distinct ids keeps the ledger's ids unique |
| `AppState.InitialState` | App.tsx:18-35 | a first start shows the seed ledger, whose ids are unique, with the modal closed and not processing, no error, no extraction, no notification, nothing being edited and the expense type preselected |
| `AppState.AddTransaction` | App.tsx:74-80 | the add handler prepends the entry and sets the "added" notification; the modal fields are untouched |
| `AppState.UpdateTransaction` | App.tsx:82-87 | the update handler keeps the ids of the ledger and sets the "updated" notification; the modal fields are untouched |
| `AppState.DeleteTransaction` | App.tsx:89-94 | without confirmation the whole state is unchanged; with it the id is gone and the "deleted" notification is set |
| `AppState.GenerateTestData` | App.tsx:137-141 | the generate handler grows the ledger by exactly ten entries at the end, keeps the old prefix, and sets the notification |
| `AppState.OpenModalForManual` | App.tsx:118-125 | opening the form by hand clears the extracted data, the error and the edited entry, stops processing, sets the requested type and opens the modal |
| `AppState.StartEdit` | App.tsx:96-99 | starting an edit records the entry being edited and opens the modal; the ledger, the processing flag, the error, the extraction, the preselected type and the notification are left as they were |
| `AppState.CloseModal` | App.tsx:127-128 | closing hides the modal and leaves every other field as it was: the ledger, the entry being edited, the processing flag, the error, the extraction, the preselected type and the notification |
| `AppState.ApplySubmit` | components/AddTransactionModal.tsx:86-92 | an add effect prepends the submitted record under the fresh id; an update effect replaces the entries carrying its id; a submit that calls no callback leaves the application state unchanged; one that calls close leaves the modal closed |
| `AppState.OpenManualGivesBlankForm` | App.tsx:118-125 | after opening the form by hand, prefill and merge produce the untouched initial draft of the requested type |
| `AppState.RejectedSubmitChangesNothing` | components/AddTransactionModal.tsx:73-76 | a submit with an empty field leaves the application state unchanged |
| `AppState.CompleteSubmitEffect` | components/AddTransactionModal.tsx:78-92 | a valid edit-mode submit replaces every entry carrying the edited id by the form's fields under that id and keeps all other entries, the length and the ids; a valid add-mode submit prepends exactly the form's fields; both close the modal |
| `AppState.EditWithoutChangesKeepsLedger` | App.tsx:82-99 | opening an entry for editing and saving it unchanged leaves a ledger with unique ids exactly as it was |
| `TransactionForm.InitialDraft` | components/AddTransactionModal.tsx:30-34 | a new form starts with the requested type, an empty amount, today's date, an empty description and the first category |
| `TransactionForm.Prefill` | components/AddTransactionModal.tsx:48-58 | in edit mode all five fields are copied from the edited entry; otherwise only the type is set to the requested type |
| `TransactionForm.ExtractedDescription` | components/AddTransactionModal.tsx:64 | the proposed description is `descricao`, or else `estabelecimento` |
| `TransactionForm.MergeExtracted` | components/AddTransactionModal.tsx:60-68 | the merge does nothing in edit mode or without data; otherwise it overwrites the amount only when non-zero and the date only when present, takes `descricao` or else `estabelecimento` as description when either is non-empty, forces the expense type and keeps the category |
| `TransactionForm.MergeIdempotent` | components/AddTransactionModal.tsx:60-68 | merging the same extraction twice equals merging it once |
| `TransactionForm.Complete` | components/AddTransactionModal.tsx:73 | the submit guard (amount, description, category and date all present); it has no contract of its own: `TransactionForm.Submit` and `AppState.RejectedSubmitChangesNothing` state what it guards |
| `TransactionForm.DraftData` | components/AddTransactionModal.tsx:78-84 | the submitted record carries exactly the five form fields |
| `TransactionForm.Submit` | components/AddTransactionModal.tsx:70-93 | a submit is rejected exactly when the amount, description, category or date is empty, and then it shows the error and calls nothing; otherwise edit mode calls update with the edited id, add mode calls add with the fields, and both close |
| `TransactionForm.PrefillSubmitRoundTrip` | components/AddTransactionModal.tsx:48-92 | prefilling from an entry and submitting unchanged updates with that very entry when its text fields are non-empty, and is rejected otherwise |
| `TransactionForm.ExtractionSubmitsExpense` | components/AddTransactionModal.tsx:60-89 | a new-entry form filled from an extraction with an amount and a description adds an expense with exactly the extracted amount, description and date (or today) |
| `Reports.PeriodFromString` | pages/Reports.tsx:18-29 | `"year"` and `"3months"` select their periods; every other selector value falls back to the current month |
| `Reports.ThreeMonthsAgo` | pages/Reports.tsx:22 | the window starts on day 1 of the month two months before now, borrowing a year across January |
| `Reports.FilterByPeriod` | pages/Reports.tsx:16-30 | the filtered list is an order-preserving subsequence of the ledger, and all of its entries lie in the period |
| `Reports.FilterByPeriodKeeps` | pages/Reports.tsx:16-30 | the filter keeps exactly the entries of the period (year equal; on or after the window start; month and year equal), with their multiplicity |
| `Reports.InPeriod` | pages/Reports.tsx:18-29 | the calendar period test; it has no contract of its own: `Reports.FilterByPeriodKeeps`, `Reports.ThreeMonthsWindow` and `Reports.MonthWithinThreeMonths` state it |
| `Reports.ThreeMonthsWindow` | pages/Reports.tsx:21-23 | for calendar dates the three-month window is "at most two months before now's month", counted across year boundaries |
| `Reports.MonthWithinThreeMonths` | pages/Reports.tsx:18-29 | an entry of the current month is also in the three-month and the year views |
| `Reports.InPeriodAsWritten` | pages/Reports.tsx:19-28 | the as-written half of the finding below: the period test applied to the local calendar day on which the entry's UTC midnight falls; it has no contract of its own: `Reports.AsWrittenAgreesEastOfUtc`, `Reports.AsWrittenMisfilesFirstOfMonth` and `Reports.AsWrittenMisfilesWindowStart` state it |
| `Reports.AsWrittenAgreesEastOfUtc` | pages/Reports.tsx:16-30 | at or east of UTC the page's test and the calendar test agree; this follows directly from `Reports.LocalDateOf`, which is defined to return the calendar date itself there, so it restates that modelling choice rather than deriving it |
| `Reports.AsWrittenMisfilesFirstOfMonth` | pages/Reports.tsx:26-29 | west of UTC, an entry dated the 1st of the current month drops out of the month view |
| `Reports.AsWrittenMisfilesWindowStart` | pages/Reports.tsx:21-23 | west of UTC, an entry dated the first day of the three-month window drops out of it |
| `Reports.ReduceAdds` | pages/Reports.tsx:33-40 | the reducer adds the income amounts to `totalIncome`, all other amounts to `totalExpenses`, and never changes `balance` |
| `Reports.Accumulate` | pages/Reports.tsx:33-40 | one reducer step puts the amount into exactly one total, the income total for an income and the expense total otherwise, and leaves `balance` alone |
| `Reports.Reduce` | pages/Reports.tsx:33-40 | the fold puts the sum of all amounts into the two totals together and leaves `balance` alone; `Reports.ReduceAdds` states how the sum is split |
| `Reports.SplitSum` | pages/Reports.tsx:33-40 | the income sum plus the non-income sum is the sum of all amounts |
| `Reports.Summarize` | pages/Reports.tsx:32-41 | `totalIncome` is the sum of income amounts, `totalExpenses` the sum of all other amounts, together they are the whole sum, and `balance` stays 0 |
| `Reports.CalculatedBalance` | pages/Reports.tsx:43 | the displayed balance is income minus expenses, which equals twice the income minus the whole sum |
| `Reports.Report` | pages/Reports.tsx:16-43 | the page's income total is the sum of the income amounts among the entries of the selected period, its expense total the sum of all other amounts of that period, the balance is income minus expenses, and the fold's own `balance` is 0 |
| `TransactionsPage.Insert` | pages/Transactions.tsx:14 | inserting adds exactly one copy of the entry and keeps a newest-first list newest first |
| `TransactionsPage.SortNewestFirst` | pages/Transactions.tsx:14 | the sorted list is a permutation of the ledger, with the same length and multiset, and is non-increasing by date |
| `TransactionsPage.InsertOnDate` | pages/Transactions.tsx:14 | inserting an entry puts it ahead of every entry with its date and leaves the other dates' order alone |
| `TransactionsPage.SortIsStable` | pages/Transactions.tsx:14 | for every date, the entries with that date appear in the sorted list in their ledger order |
| `TransactionsPage.SortKeepsSorted` | pages/Transactions.tsx:14 | a ledger already newest first is returned unchanged |
| `MockData.MockTransactions` | constants.ts:14-23 | the seed ledger has eight entries with pairwise distinct ids, real dates and categories from the category table |
| `MockData.PickIndex` | constants.ts:41-43 | `floor(random * n)` is a valid index into a list of length `n` |
| `MockData.DescriptionsFor` | constants.ts:42 | the description list is the category's entry, or the one-element fallback when there is none |
| `MockData.ExpenseCategories` | constants.ts:3-12 | the expense categories are the table without its last two entries, so neither `Salário` nor `Outros`, and each has sample descriptions |
| `MockData.GenerateOne` | constants.ts:40-54 | the type is expense exactly when the type roll exceeds 0.3; an income gets `Salário`; an expense gets one of the first six categories, never `Salário` or `Outros`; the description comes from the category's list, so the fallback never appears |
| `MockData.GenerateMockTransactions` | constants.ts:37-57 | the generator returns exactly `count` entries, the i-th being the single-entry generation of the i-th draw, so every entry obeys the type, category and description rules |

## Left out

- Loading and saving the ledger through `localStorage` and JSON: I/O. `AppState.InitialState` is the "nothing saved" start.
- The install-prompt plumbing, notification timers and the delayed cleanup in `closeModal`: browser and timer plumbing. `AppState.CloseModal` models only the immediate hide.
- The receipt-extraction call: an external service whose code is not part of this model. Its result enters as an arbitrary `ExtractedData`.
- The Escape-key and click-outside listeners of the form: UI plumbing.
- Id generation from the clock and `Math.random`: ids are parameters. Freshness is a precondition only of the lemmas about unique ids, not of the add itself, because the application does not check it.
- Floating point: amounts are integer cents. `parseFloat` and `toString` are taken to round-trip, so the draft holds the amount already parsed. `toFixed`, currency formatting, and the generator's amount and date ranges are left out; each draw supplies its amount and date directly.
- The generator's type roll uses the exact real `0.3` rather than its double approximation.
- Rendering components (header, navigation bar, summary cards, list items, notification): their logic is only styling.
- The form's "today" default comes from the clock. It is a parameter of `TransactionForm.InitialDraft`. The source takes it from `toISOString()`, so it is the UTC calendar day, which west of UTC is already tomorrow in the evening. The generator's dates are UTC days in the same way. Both quirks are of the same kind as the finding below and are not modelled beyond the parameter.
- Text inputs are not trimmed by the source, and the model does not trim them either. An amount or date input is either empty (`None`) or holds a value.
- `TransactionForm.MergeExtracted`: an extracted amount of 0 is ignored. The source tests `initialData.valor` for truthiness, which is false for 0; the model follows the code rather than the wording "when present".
- "The sort works on a copy and does not change the ledger": in the model, sequences are values, so this holds by construction and needs no separate member.
- "Every generated entry is income or expense": this holds by the two-constructor `TxType` type and needs no separate member.
- Months are numbered 1..12 in the model and 0..11 in the source. Months are compared for equality and order. The one piece of month arithmetic, `now.getMonth() - 2` wrapped into the previous year by the `Date` constructor, is redone in 1-based months by `Reports.ThreeMonthsAgo`, which proves `MonthIndex(start) == MonthIndex(now) - 2`.
- Time zones in general: the model assumes a zone less than a day from UTC. Apart from the finding below, dates are compared as calendar dates.

## Findings

| source | as written | input that shows it | evidently intended | confidence | as-written member | corrected member |
|---|---|---|---|---|---|---|
| pages/Reports.tsx:19-28 | `new Date(t.date)` parses `YYYY-MM-DD` as UTC midnight, but the month, year and three-month tests read it back in local time | time zone west of UTC (e.g. Brazil, UTC−3), now 2024-07-15, an entry dated 2024-07-01: it is left out of "this month", and 2024-05-01 is left out of "last 3 months" | an entry belongs to the period its calendar date names; the transaction list already renders dates with `timeZone: 'UTC'` | high (from reading the code) | `Reports.AsWrittenMisfilesFirstOfMonth` | `Reports.FilterByPeriodKeeps` |

The as-written test is `Reports.InPeriodAsWritten`.
`Reports.AsWrittenMisfilesWindowStart` shows the same effect on the three-month window.
The rest of the model uses the calendar test `Reports.InPeriod`.
