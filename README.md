# Expense tracker: store reducer and expense form

A Dafny model of the two pieces of logic in a small React Native expense tracker.

- **The expense store** (`store/expenses-context.js`). The reducer `expensesReducer` takes the ordered list of expense records and an action, and returns the next list:
  - ADD prepends a record.
  - UPDATE overlays new fields on the first record whose id matches.
  - DELETE filters records out by id.
  - SET stores an incoming list in reverse order.
  - Any other action type leaves the list as it is.

  `ExpenseContextProvider` starts from an empty list. Each of its four helpers dispatches exactly one action. In module `ExpensesContext`:
  - the reducer is the function `Reduce` over the datatype `Action`;
  - the provider is the class `ExpenseContextProvider`, whose `expenses` field is replaced by the reducer's result;
  - a ghost log `dispatched` records every action sent, and `Valid()` ties the state to a replay of that log from the empty list.
- **The expense form** (`components/ExpensesOutput/ManageExpense/ExpenseForm.js`). The form holds three `(value, isValid)` entries: amount, date and description. In module `ExpenseForm`, these functions model it on the datatype `FormState`:
  - `Initial` builds the initial state;
  - `ChangeInput` models a keystroke (`inputChangeHandler`);
  - `Submit` models `submitHandler`. It returns `Confirmed(draft)` when `confirmHandler` is called, `Rejected(next)` when the flags are written back, or `TypeError` when the handler throws;
  - `FormIsInvalid` models the condition for the aggregate error banner.

The model follows the code as written, including these behaviours that a tidier design would change:

- SET reverses the incoming list.
- The rejecting branch of `submitHandler` reads the date and description texts from `curInputs.amount.date` and `curInputs.amount.description`. The amount entry has no such properties, so both texts become `undefined` (`Undefined` in the model).
  - Because of this, the next submit that follows without retyping the description throws at `undefined.trim()` (`ResubmitAfterRejectThrows`).
  - Also, the form cannot confirm while the date text is `undefined` (`UndefinedTextsBlockConfirm`).
- An UPDATE for an id that no record has writes to the property `-1` of the copied array. That property is not an element, so the element sequence is unchanged, and the model returns the old sequence.

Value representations:
- A JavaScript number is a `real`. NaN is represented by the `None` that a conversion returns.
- A `Date` is its time value in milliseconds.
- Text is `string`.
- The conversions `+text` (`parseNumber`) and `new Date(text)` (`parseDate`) are parameters of `Submit`. So are `Number.prototype.toString` (`amountText`) and `Date.prototype.toISOString` (`isoText`) of `Initial`.
- `String.prototype.trim` is modelled concretely (`Trim`), with the whitespace and line-terminator characters of ECMAScript.

Files: `options.dfy` (the `Option` datatype), `expenses_context.dfy` (module `ExpensesContext`), `expense_form.dfy` (module `ExpenseForm`).

## Model

| member | source | states |
|---|---|---|
| ExpensesContext.Reduce | store/expenses-context.js:12-37 | ADD lengthens the list by one with the payload first; UPDATE keeps the length and changes at most the findIndex hit; DELETE leaves no record with the id and never lengthens; SET holds the payload's records; any other action type returns the state unchanged |
| ExpensesContext.Overlay | store/expenses-context.js:23 | data without an id keeps the record's id; empty data leaves the record as it was; data with all four properties replaces every field |
| ExpensesContext.Reversed | store/expenses-context.js:34 | the reversed list has the input's length and the same multiset of records |
| ExpensesContext.Replay | store/expenses-context.js:40 | a history made only of unrecognised actions leaves the state unchanged, and a history made only of ADDs lengthens it by the number of actions |
| ExpensesContext.FindIndex | store/expenses-context.js:19-21 | the result is -1 exactly when no record has the id; otherwise it is an index whose record has the id and before which no record has it |
| ExpensesContext.WithoutId | store/expenses-context.js:29 | the filtered list contains exactly the records of the input whose id differs, and is no longer than the input |
| ExpensesContext.AddPrepends | store/expenses-context.js:14-16 | ADD yields a list one longer whose head is the payload and whose tail is the old list in its order |
| ExpensesContext.AddKeepsDistinctIffFresh | store/expenses-context.js:16 | from a list with distinct ids, ADD keeps ids distinct if and only if the new id is not already present |
| ExpensesContext.DeleteKeepsExactlyTheOthers | store/expenses-context.js:28-29 | DELETE keeps a record if and only if its id differs from the payload, with every such record's multiplicity unchanged and the payload id's records gone |
| ExpensesContext.DeleteKeepsOrder | store/expenses-context.js:29 | DELETE of a concatenation is the concatenation of the DELETEs, so relative order is preserved |
| ExpensesContext.DeleteAbsentIsIdentity | store/expenses-context.js:29 | DELETE of an id no record has returns the same sequence |
| ExpensesContext.DeleteIsIdempotent | store/expenses-context.js:29 | a second DELETE of the same id changes nothing |
| ExpensesContext.DeleteKeepsDistinct | store/expenses-context.js:29 | DELETE keeps pairwise distinct ids distinct |
| ExpensesContext.UpdatePresent | store/expenses-context.js:18-26 | UPDATE of a present id keeps the length, replaces the first record with that id by the record overlaid with the data, and leaves every other index unchanged |
| ExpensesContext.UpdateAbsentIsIdentity | store/expenses-context.js:19-26 | UPDATE of an id no record has leaves the element sequence unchanged (the write to index -1 is not an element) |
| ExpensesContext.UpdateWithoutIdKeepsDistinct | store/expenses-context.js:22-26 | UPDATE whose data has no id keeps pairwise distinct ids distinct |
| ExpensesContext.ReversedAt | store/expenses-context.js:34 | the reversed list has the same length and position k holds the input's element at length-1-k |
| ExpensesContext.SetReverses | store/expenses-context.js:33-35 | SET returns the payload in reverse order, with the same length and the same multiset of records |
| ExpensesContext.SetKeepsDistinct | store/expenses-context.js:33-35 | SET of a list with distinct ids yields distinct ids |
| ExpensesContext.OtherIsIdentity | store/expenses-context.js:30-31 | an action whose type is none of ADD, UPDATE, DELETE and SET returns the state unchanged |
| ExpensesContext.DisciplinedStepKeepsDistinct | store/expenses-context.js:12-37 | one reducer step keeps ids distinct when ADD uses a fresh id, UPDATE data has no id and SET brings distinct ids |
| ExpensesContext.ReplayKeepsIdsDistinct | store/expenses-context.js:12-40 | every such history of actions replayed from the provider's empty state ends with distinct ids |
| ExpensesContext.ExpenseContextProvider.constructor | store/expenses-context.js:40 | the store starts with an empty list and no dispatched action |
| ExpensesContext.ExpenseContextProvider.Dispatch | store/expenses-context.js:40 | dispatch appends the action to the log and replaces the list by the reducer's result |
| ExpensesContext.ExpenseContextProvider.AddExpense | store/expenses-context.js:42-44 | dispatches exactly one ADD carrying the record, which becomes the head of the list |
| ExpensesContext.ExpenseContextProvider.DeleteExpense | store/expenses-context.js:46-48 | dispatches exactly one DELETE carrying the id; the list becomes the old list filtered by id, which keeps exactly the records with another id and is unchanged when the id is absent |
| ExpensesContext.ExpenseContextProvider.UpdateExpense | store/expenses-context.js:50-52 | dispatches exactly one UPDATE carrying id and data; only the findIndex hit is overlaid |
| ExpensesContext.ExpenseContextProvider.SetExpenses | store/expenses-context.js:54-56 | dispatches exactly one SET carrying the list; the state is that list reversed |
| ExpensesContext.ExpenseContextProvider.IdsStayDistinct | store/expenses-context.js:39-56 | a provider whose dispatched history is disciplined holds no two records with the same id |
| ExpenseForm.Trim | components/ExpensesOutput/ManageExpense/ExpenseForm.js:46 | the trimmed text is no longer than the input, neither starts nor ends with whitespace, and is empty if and only if every character is whitespace (what each end keeps is stated by TrimStart and TrimEnd) |
| ExpenseForm.NumberOf | components/ExpensesOutput/ManageExpense/ExpenseForm.js:39 | `+undefined` is NaN (None); a text converts as the number conversion says |
| ExpenseForm.DateOf | components/ExpensesOutput/ManageExpense/ExpenseForm.js:40 | `new Date(undefined)` is an invalid date (None); a text converts as the date conversion says |
| ExpenseForm.AmountIsValid | components/ExpensesOutput/ManageExpense/ExpenseForm.js:39-44 | the amount is valid if and only if its text converts to a number (not NaN) strictly greater than zero |
| ExpenseForm.DateIsValid | components/ExpensesOutput/ManageExpense/ExpenseForm.js:40-45 | the date is valid if and only if its text converts to a date that is not "Invalid Date" |
| ExpenseForm.DescriptionIsValid | components/ExpensesOutput/ManageExpense/ExpenseForm.js:46 | the description is valid if and only if it has a character that is not whitespace |
| ExpenseForm.Submit | components/ExpensesOutput/ManageExpense/ExpenseForm.js:37-64 | submit throws exactly when the description text is undefined, and a confirmed draft always has an amount greater than zero and a description with a non-whitespace character |
| ExpenseForm.FormIsInvalid | components/ExpensesOutput/ManageExpense/ExpenseForm.js:66 | the aggregate error message shows if and only if some entry's flag is false |
| ExpenseForm.TrimStart | components/ExpensesOutput/ManageExpense/ExpenseForm.js:46 | the result is a suffix of the input that starts with a non-whitespace character (or is empty), and everything dropped is whitespace |
| ExpenseForm.TrimEnd | components/ExpensesOutput/ManageExpense/ExpenseForm.js:46 | the result is a prefix of the input that ends with a non-whitespace character (or is empty), and everything dropped is whitespace |
| ExpenseForm.Initial | components/ExpensesOutput/ManageExpense/ExpenseForm.js:10-23 | every flag starts true; without defaults all texts are empty; with defaults the description is the default's, the amount is its string form and the date is the first ten characters of its ISO string |
| ExpenseForm.ChangeInput | components/ExpensesOutput/ManageExpense/ExpenseForm.js:25-35 | the edited entry becomes the entered text with its flag true, and the other two entries are unchanged |
| ExpenseForm.SubmitConfirmsIffAllValid | components/ExpensesOutput/ManageExpense/ExpenseForm.js:37-63 | confirmHandler is called if and only if all three checks hold, and then with the converted amount and date and the raw description |
| ExpenseForm.RejectedSubmitState | components/ExpensesOutput/ManageExpense/ExpenseForm.js:48-59 | on rejection each flag equals its own check, the amount text is kept, the date and description texts become undefined, and the error banner shows |
| ExpenseForm.UndefinedTextsBlockConfirm | components/ExpensesOutput/ManageExpense/ExpenseForm.js:39-46 | submit throws exactly when the description text is undefined, and never confirms while the date text is undefined |
| ExpenseForm.ResubmitAfterRejectThrows | components/ExpensesOutput/ManageExpense/ExpenseForm.js:46-54 | submitting again right after a rejection throws at trim |
| ExpenseForm.RetypingRestoresSubmit | components/ExpensesOutput/ManageExpense/ExpenseForm.js:25-63 | after a rejection with a valid amount, retyping a valid date and description makes the next submit confirm with those values |
| ExpenseForm.RejectsNegativeAmountBadDateBlankDescription | components/ExpensesOutput/ManageExpense/ExpenseForm.js:37-59 | "-5", "not-a-date" and a blank description are all marked invalid, and the date and description texts are lost |

## Left out

- screens/ManageExpenses.js and screens/RecentExpenses.js: network calls, navigation, loading and error overlays, and the last-7-days filter. These depend on the HTTP helpers, the wall clock and `util/date`, and none of those is part of this model. The edit flow calls `updateExpense` on the store before it awaits the remote call (screens/ManageExpenses.js:47-48), so a failed remote update is not rolled back. The remote side is not modelled.
- React machinery: `useReducer`, `useState`, context, re-rendering and JSX. The model uses plain state values. React decides whether to re-render by reference identity, and values carry no identity, so that is not modelled.
- `Submit`: the updater passed to `setInputs` is applied to the state `curInputs` that React holds when it runs. The model assumes that this is the state the handler read, with no keystroke queued in between.
- `Reduce` (SET): `reverse()` also reverses the caller's array in place, because it is the same array. Values have no aliasing, so the model only returns the reversed sequence.
- `Reduce` (UPDATE of an absent id): the result array also carries a stray `-1` property that holds the data alone. Later spreads and filters never copy it, and it is not an element. The model drops it.
- JavaScript numeric conversion (`+value`), float comparison (including Infinity and -0), `new Date(...)`, `toString` and `toISOString`. These are parameters, because they are float and library behaviour.
- `ExpenseForm.Trim`: works on Unicode scalar values rather than UTF-16 code units. Texts with lone surrogates are not distinguished.
- Ids are compared with `===` as strings. Records whose `id` is missing or not a string are not modelled.
