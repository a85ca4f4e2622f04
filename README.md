# Income ledger row store

A Dafny model of the row store behind the income form of a rent-management
client (`IncomeFormArea`). The form keeps an ordered list of income rows
(payer name, flat number, amount, date, and the id the server assigned, or
null), a carry-forward balance, and a total derived from both. Five handlers
change that state: adding a blank row, editing one field of one row,
clearing a field on focus (the form wires this to the name and flat-number
inputs only), removing a row (announcing
the id of a saved row as a deletion intent first), and reconciling with the
server's snapshot, which replaces everything or starts the ledger over when
the snapshot holds no rows. The carry-forward input writes the balance
directly.

Layout:

- `ledger_rows.dfy` (module `LedgerRows`): rows, amounts (`Money = Blank | Num(real)`,
  where blank stands for the empty string and null), server ids, the closed set of
  field names and the tagged `Edit` that replaces the dynamic `row[name] = value`.
- `ledger_total.dfy` (module `LedgerTotal`): the total as the left fold the form
  computes, an independent recursive `Sum`, and how the sum moves under append,
  replacement and removal.
- `ledger_store.dfy` (module `LedgerStore`): the ledger as a value and one
  specification function per handler, with lemmas about totals, wholesale
  reconciliation, deletion intents, and a state machine over user and server
  actions showing the rendered form never leaves the ledger without rows.
- `income_form.dfy` (module `IncomeForm`): class `IncomeFormArea` with the rows,
  carry-forward and event log as fields, and one method per handler that
  changes them in place; each is proved to reach the state its specification
  function gives.

The current date is a parameter of the constructor, of `HandleAddClick` and of
`HandleApiResponse`; the source computes it at every render. The dispatcher is
an append-only event log (`events`).

The model follows the component's code: the store has no "at least one row"
guard (only the rendered form hides the delete icon while one row remains,
modelled by `LedgerStore.Enabled`); the server response replaces state each
time it is delivered. `FocusField` and `HandleFocus` accept any field, and
clearing the amount blanks it; that only the name and flat-number inputs are
wired to the focus handler is captured by `LedgerStore.Enabled` and by the
precondition of `LedgerStore.FocusKeepsTotal`, not by the focus handler itself.

## Model

| member | source | states |
|---|---|---|
| LedgerRows.Apply | src/IncomeFormArea.js:44-50 | the edited field of the row takes the new value; every other field and the id are unchanged |
| LedgerRows.Clear | src/IncomeFormArea.js:37-42 | the focus edit writes the field it is given and leaves it empty (empty text, or a blank amount) |
| LedgerRows.RowDeterminedByFields | src/IncomeFormArea.js:44-50 | a row is fixed by its four fields and its id, so the edit contract determines the edited row exactly |
| LedgerTotal.FoldIsSum | src/IncomeFormArea.js:27-31 | the left fold seeded with any accumulator equals that accumulator plus the recursive sum of the amounts |
| LedgerTotal.Total | src/IncomeFormArea.js:27-33 | the total is the carry-forward's contribution (0 when blank) plus the sum of row amounts (0 when blank) |
| LedgerTotal.SumAppend | src/IncomeFormArea.js:27-31 | the sum of a concatenation is the sum of the parts |
| LedgerTotal.SumUpdate | src/IncomeFormArea.js:27-31 | replacing row i changes the sum by the new amount minus the old one |
| LedgerTotal.SumRemove | src/IncomeFormArea.js:27-31 | splicing row i out takes exactly its amount off the sum |
| LedgerTotal.TotalAppendRow | src/IncomeFormArea.js:27-31 | appending a row adds exactly its amount to the total |
| LedgerTotal.BlankRowAddsNothing | src/IncomeFormArea.js:52-64 | appending a blank row leaves the total unchanged |
| LedgerTotal.ExampleTotal | src/IncomeFormArea.js:27-31 | one row of 500 with carry-forward 100 totals 600 |
| LedgerStore.Initial | src/IncomeFormArea.js:13-23 | the mount state is exactly one blank row dated today with null id, carry-forward 0, no events and total 0 |
| LedgerStore.AddRow | src/IncomeFormArea.js:52-64 | length grows by one, existing rows are kept as a prefix, the new last row is blank with today's date and null id, total unchanged |
| LedgerStore.EditField | src/IncomeFormArea.js:44-50 | same row count; every other row unchanged; row i's named field takes the value, its other fields and id unchanged |
| LedgerStore.FocusField | src/IncomeFormArea.js:37-42 | row i's field becomes empty; everything else in the ledger is unchanged |
| LedgerStore.RemoveRow | src/IncomeFormArea.js:66-73 | length drops by one and the survivors keep their order; a saved id is appended as one deletion event, a null id dispatches nothing |
| LedgerStore.SetCarryForward | src/IncomeFormArea.js:118-125 | the stored carry-forward is the input verbatim; rows and events are unchanged and the total becomes the new carry-forward plus the row amounts |
| LedgerStore.Reconcile | src/IncomeFormArea.js:78-99 | an empty snapshot resets to the mount state (one blank row, carry-forward 0); otherwise rows and carry-forward become the snapshot's verbatim |
| LedgerStore.EditTotal | src/IncomeFormArea.js:44-50 | editing a non-amount field keeps the total; editing the amount moves it by new minus old |
| LedgerStore.BlankAmountCountsZero | src/IncomeFormArea.js:29 | after blanking row i's amount the total is the carry-forward plus the other rows only |
| LedgerStore.FocusKeepsTotal | src/IncomeFormArea.js:37-42 | focusing the name or flat-number input keeps the total |
| LedgerStore.RemoveTotal | src/IncomeFormArea.js:66-73 | removing row i takes exactly its amount off the total |
| LedgerStore.ReconcileTotal | src/IncomeFormArea.js:83-97 | after reconciliation the total is 0 for an empty snapshot and the snapshot's carry-forward plus its amounts otherwise |
| LedgerStore.ReconcileDiscardsLocalState | src/IncomeFormArea.js:83-97 | the reconciled state does not depend on the local rows or carry-forward: a replacement, never a merge |
| LedgerStore.ReconcileIdempotent | src/IncomeFormArea.js:83-97 | delivering the same snapshot twice gives the same state as once |
| LedgerStore.RemoveAccountsForIds | src/IncomeFormArea.js:66-73 | after a removal every previously saved id is still on a row or announced for deletion, and no announcement is lost |
| LedgerStore.RemoveUnsavedIsSilent | src/IncomeFormArea.js:68-70 | removing a row with a null id dispatches nothing and leaves the set of saved ids unchanged |
| LedgerStore.StepKeepsRows | src/IncomeFormArea.js:177-182 | every action the rendered form offers keeps at least one row |
| LedgerStore.RunKeepsRows | src/IncomeFormArea.js:177-182 | any sequence of offered actions from a non-empty ledger leaves it non-empty |
| LedgerStore.InitialRunKeepsRows | src/IncomeFormArea.js:13-23 | from the mount state the form always has a row to show |
| LedgerStore.LocalStepAccountsForIds | src/IncomeFormArea.js:37-73 | no local action (add, edit, focus, remove, carry-forward) loses a saved id without announcing it |
| IncomeForm.IncomeFormArea.CurrentTotal | src/IncomeFormArea.js:27-33 | the displayed total is the carry-forward's contribution plus the sum of the row amounts |
| IncomeForm.IncomeFormArea.constructor | src/IncomeFormArea.js:13-23 | the fields hold the mount state and the total is 0 |
| IncomeForm.IncomeFormArea.HandleAddClick | src/IncomeFormArea.js:52-64 | the new state is `AddRow` of the old one and the total is unchanged |
| IncomeForm.IncomeFormArea.HandleInputChange | src/IncomeFormArea.js:44-50 | the new state is `EditField` of the old one |
| IncomeForm.IncomeFormArea.HandleFocus | src/IncomeFormArea.js:37-42 | the new state is `FocusField` of the old one |
| IncomeForm.IncomeFormArea.HandleRemoveClick | src/IncomeFormArea.js:66-73 | the new state is `RemoveRow` of the old one, the total drops by the row's amount, and no saved id is lost |
| IncomeForm.IncomeFormArea.HandleCarryForwardChange | src/IncomeFormArea.js:124 | the new state is `SetCarryForward` of the old one |
| IncomeForm.IncomeFormArea.HandleApiResponse | src/IncomeFormArea.js:78-99 | the new state is `Reconcile` of the old one |

## Left out

- The event bus (`useDispatch`, `useListener` from `src/effects/use-event`, which is not part of this model): the dispatcher is an append-only event log; delivery to subscribers is not modelled.
- The effect-driven publications `TOTAL_UPDATED`, `INCOME_LIST` and `CARRY_FORWARD` (lines 35, 74-76, 101-103): they are render and effect scheduling; the total is a function of the state rather than a stored field.
- Re-registration of the response listener on every render (lines 78-99): framework scheduling; each delivered response is one call of `HandleApiResponse`.
- String-to-number coercion with `parseFloat`, and the `NaN` that non-numeric text yields: amounts are already-parsed exact reals or blank. The total is also summed exactly, whereas the form adds IEEE doubles left to right, so `LedgerTotal.FoldIsSum` (which reorders the additions) and the "exactly its amount" results of `LedgerStore.EditTotal`, `LedgerStore.RemoveTotal` and `LedgerStore.BlankAmountCountsZero` hold only for exact arithmetic (carry-forward 0.1 with amounts 0.2 and 0.3 totals 0.6000000000000001 in the form, 0.6 here).
- LedgerStore.RemoveRow: the deletion event is dispatched before the row list changes in the source; the model states only the resulting log and rows, not the ordering against later `INCOME_LIST` publications.
- Aliasing in the edit and focus handlers (lines 40, 48), which write into the row object shared with the previous state through a shallow copy: rows are immutable values and only the new state is specified.
- Out-of-range indices for edit, focus and removal, where the source throws: the handlers require a valid index.
- A server response whose `cf` object is missing: the snapshot always carries a carry-forward amount.
- Date formatting with `moment`, the authentication guard, the autocomplete datalists and all markup (lines 10-12, 105-210); `src/index.js` (rendering, routing, providers) entirely.
