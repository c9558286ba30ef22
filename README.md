# Balance: persisted expense store, balance calculator and expense entry

A model of the core of a personal expense tracker. The user sets a budget for
a period (daily, weekly or monthly), logs expenses against categories and
sees what is left.

- **Persisted store (storage.js).** The whole state is one aggregate blob in
  one key-value slot. Every read normalises the blob field by field and writes
  it back. Every change loads the aggregate, changes one collection or the
  settings, and saves it again.
- **Balance calculator (storage.js).** It finds the start of the current
  period and keeps the expenses stamped at or after it. It returns spent,
  left (never negative) and percent (at most 1). Percent is 0 when the budget
  is not positive.
- **Expense-entry logic (app.js).** This covers the keypad draft, the guarded
  append of a new expense, the unscoped balance figures, the "last three,
  newest first" list, and the field-wise fallback when restoring from the
  app's own slot.

Modules and files:

- `wrappers.dfy`: `Option`.
- `sequences.dfy`: list operations. The store uses `filter`, the delete-by-id
  filter and the update-by-id `map` with a merge. The balance filter uses
  `filter` too. Reversal belongs to app.js: only its recent list uses it.
- `entities.dfy`: the entity records, following the shapes in storage.ts. Each
  entity has a record of optional fields for partial updates. Merging
  such a record is the JavaScript spread `{ ...entity, ...updates }`.
- `seed_state.dfy`: the defaults, `buildSeedState` and `parseStoredState`.
- `store.dfy`: `createStorage`, as the class `Storage` over a `slot` field.
- `spending.dfy`: the amount sum and the left/percent clamping. Both
  `calculateBalance` and `updateBalance` use them.
- `balance.dfy`: `getPeriodStart`, `filterExpensesByPeriod` and
  `calculateBalance`.
- `app.dfy`: the draft, the keypad and the recent list, plus the class
  `ExpenseApp` holding app.js's module-level `state`.

Representation choices:

- Amounts and budgets are integers in minor currency units. Percent is a
  `real`.
- The stored blob is `RawState`.
  - A list field is `NotArray` or `Array(items)`. `NotArray` stands for
    missing, `null`, or any value that is not an array.
  - `settings` is `None` when the stored value is falsy. Otherwise it is a
    partial record whose keys hold the `Settings` field types, spread over the
    defaults.
- The slot is `Missing | Corrupt | Present(blob)`.
  - `Missing` covers both "nothing stored" and the empty string.
  - `Corrupt` is text that JSON does not parse. It also covers text that
    parses to `null`: reading a field of `null` throws inside the same `try`.
- Time is the local clock in milliseconds. `now` is given as a `Clock`: a day
  number, the milliseconds into that day, and the day of the month. The
  weekday of day `d` is `(d + 4) % 7`, because day 0 (1 January 1970) was a
  Thursday and `getDay` numbers Sunday as 0.
- Values from outside the model are parameters of `AddExpense`:
  - `crypto.randomUUID()` becomes `id`;
  - `Date.now()` becomes `now`;
  - the formatted time becomes `time`;
  - `Number(...)` becomes `parseNumber`, which returns `None` for NaN.

Where the documentation and the code differ, the model follows the code:

- The code's settings carry `alertsEnabled` (storage.js:16), which the
  TypeScript `Settings` type (storage.ts:20-25) lacks. The model includes it.
- The latency wrapper runs the store operation inside the timer callback
  (storage.js:186), not at call time. The wrapper is left out (see below).

## Model

| member | source | states |
|---|---|---|
| `Sequences.Filter` | storage.js:223-226 | the result holds exactly the elements of the list that satisfy the predicate, and is no longer than the list |
| `Sequences.FilterConcat` | storage.js:223-226 | filtering a concatenation is the concatenation of the filtered parts, so the survivors keep their relative order |
| `Sequences.FilterKeepsAll` | storage.js:223-226 | when every element satisfies the predicate, filtering returns the list unchanged |
| `Sequences.FilterDropsAll` | storage.js:223-226 | when no element satisfies the predicate, filtering returns the empty list |
| `Sequences.DeleteById` | storage.js:92-97 | the result holds exactly the elements whose id differs from the given one; an absent id returns the list unchanged; a list of only that id becomes empty |
| `Sequences.DeleteByIdIdempotent` | storage.js:92-97 | deleting an id twice equals deleting it once |
| `Sequences.DeleteByIdConcat` | storage.js:92-97 | deletion works part by part on a concatenation, so the rest keep their order |
| `Sequences.UpdateById` | storage.js:83-90 | same length and order; the element at each position is merged with the update exactly when its id matches, and passes through otherwise |
| `Sequences.UpdateByIdAbsent` | storage.js:83-90 | an update for an id no element carries is a no-op |
| `Sequences.UpdateByIdIdempotent` | storage.js:83-90 | applying an update twice equals applying it once, whenever the merge itself is idempotent |
| `Sequences.Reverse` | app.js:98 | same length, element `i` of the result is element `n-1-i` of the input |
| `Entities.MergeExpense` | storage.js:86 | `{ ...expense, ...updates }`: `ExpenseMergeLaws` states that each field the update names takes its value and every other field keeps its own |
| `Entities.MergeCategory` | storage.js:120 | `{ ...category, ...updates }`: `CategoryMergeLaws` states that each field the update names takes its value and every other field keeps its own |
| `Entities.MergeStatement` | storage.js:145 | `{ ...statement, ...updates }`: `StatementMergeLaws` states that each field the update names takes its value and every other field keeps its own |
| `Entities.MergeSettings` | storage.js:101-106 | `{ ...settings, ...updates }`, also used over the defaults at storage.js:23-26: `SettingsMergeLaws` states that each key the update names takes its value and every other key keeps its own |
| `Entities.ExpenseMergeLaws` | storage.js:86 | every field the update names, optional fields included, takes the update's value; every field it does not name keeps the expense's; an empty update is the identity; merging twice equals merging once |
| `Entities.CategoryMergeLaws` | storage.js:120 | for a category: each named field takes the update's value, each unnamed field keeps its own; the empty update is the identity; merging twice equals merging once |
| `Entities.StatementMergeLaws` | storage.js:145 | for an imported statement: each named field takes the update's value, each unnamed field keeps its own; the empty update is the identity; merging twice equals merging once |
| `Entities.SettingsMergeLaws` | storage.js:101-106 | every settings key the update names takes the update's value and every key it does not name keeps its own; an empty update is the identity; merging twice equals merging once; a full update replaces the settings |
| `Entities.BudgetUpdateExample` | storage.js:101-106 | `{ budget: 500 }` over monthly settings with budget 0 gives budget 500 with the period and every other key kept |
| `SeedState.BuildSeedState` | storage.js:19-37 | the result always has a category. A non-empty stored category array survives; otherwise the five defaults. Falsy settings give the default settings; a stored settings object is spread over the defaults, so the keys it names win and the others keep their defaults. A stored expenses or statements array survives; anything else gives the empty list |
| `SeedState.StoredBudgetOnly` | storage.js:23-26 | stored settings `{ budget: 500 }` give the default settings with only the budget replaced |
| `SeedState.AsStored` | storage.js:52-53 | the blob a state becomes once written and read back (the JSON round trip of storage.js:53 with storage.js:45); `StoredRoundTrip` and `SeedIdempotent` state that normalising it gives the state back |
| `SeedState.ParseStoredState` | storage.js:39-50 | reading a missing, empty or unparsable slot gives the seed state; any reading is well formed |
| `SeedState.SeedContents` | storage.js:3-37 | the seed is the default settings, the five default categories, no expenses and no statements |
| `SeedState.StoredRoundTrip` | storage.js:19-37 | a well-formed state, once stored, normalises back to itself |
| `SeedState.EmptyCategoriesHeal` | storage.js:20-22 | a state without categories is read back with the five defaults and nothing else changed |
| `SeedState.SeedIdempotent` | storage.js:19-37 | normalising a normalised state changes nothing |
| `SeedState.FieldsIndependent` | storage.js:19-37 | each field of the normalised state depends only on the same field of the blob, so a valid expenses array survives whatever the settings hold |
| `Store.Storage.constructor` | storage.js:56 | the store starts over the given slot |
| `Store.Storage.Persist` | storage.js:52-54 | the slot holds the stored form of the state, and reading it gives that state back |
| `Store.Storage.Load` | storage.js:57-61 | returns the normalised reading of the slot and leaves the slot holding exactly that state |
| `Store.Storage.Save` | storage.js:63-67 | returns the normalised blob and overwrites the slot with it |
| `Store.Storage.Clear` | storage.js:69-72 | removes the slot and returns the seed; the next reading is the seed |
| `Store.Storage.GetExpenses` | storage.js:74 | returns the stored expenses; the state is unchanged and the slot healed |
| `Store.Storage.AddExpense` | storage.js:76-81 | appends exactly the given expense at the end; categories, settings and statements unchanged |
| `Store.Storage.UpdateExpense` | storage.js:83-90 | the expenses become the id-keyed update of the old ones; nothing else changes |
| `Store.Storage.DeleteExpense` | storage.js:92-97 | the expenses become the old ones without the given id; nothing else changes |
| `Store.Storage.GetSettings` | storage.js:99 | returns the stored settings; the state is unchanged and the slot healed |
| `Store.Storage.UpdateSettings` | storage.js:101-106 | the settings become the shallow merge of the update over the old settings; the collections are unchanged |
| `Store.Storage.GetCategories` | storage.js:108 | returns the stored categories; the state is unchanged and the slot healed |
| `Store.Storage.AddCategory` | storage.js:110-115 | appends exactly the given category at the end; nothing else changes |
| `Store.Storage.UpdateCategory` | storage.js:117-124 | the categories become the id-keyed update of the old ones; nothing else changes |
| `Store.Storage.DeleteCategory` | storage.js:126-131 | returns the categories without the id; when that is empty, the slot holds the five defaults instead; nothing else changes |
| `Store.Storage.GetImportedStatements` | storage.js:133 | returns the stored statements; the state is unchanged and the slot healed |
| `Store.Storage.AddImportedStatement` | storage.js:135-140 | appends exactly the given statement at the end; nothing else changes |
| `Store.Storage.UpdateImportedStatement` | storage.js:142-149 | the statements become the id-keyed update of the old ones; nothing else changes |
| `Store.Storage.DeleteImportedStatement` | storage.js:151-156 | the statements become the old ones without the given id; nothing else changes |
| `Store.LoadTwice` | storage.js:57-61 | two loads with no write between them return equal states |
| `Store.SaveThenLoad` | storage.js:57-67 | a save followed by a load returns the normalised saved blob both times |
| `Store.ClearThenLoad` | storage.js:57-72 | a clear followed by a load returns the seed state |
| `Store.SaveOfLoadIsNoop` | storage.js:57-67 | saving what was just loaded leaves the state and the slot as the load left them |
| `Store.DeleteExpenseTwice` | storage.js:92-97 | a second delete of the same id returns the same expenses; deleting an absent id returns the old expenses |
| `Spending.SumAmounts` | storage.js:230 | with no negative amounts the sum is non-negative and at least every single amount |
| `Spending.SumConcat` | storage.js:230 | the sum of a concatenation is the sum of the sums |
| `Spending.ComputeFigures` | storage.js:231-233 | left is never negative and equals budget minus spent when spent is within the budget, else 0. Percent is at most 1; 0 for a budget that is not positive; 1 once spent reaches the budget; spent/budget up to it; non-negative when spent is |
| `Balance.StartDay` | storage.js:213-218 | the day the period starts: today, today minus its weekday, or today minus (day of month - 1); `PeriodStart` states what that start satisfies |
| `Balance.PeriodStart` | storage.js:211-221 | the start is a midnight not after now. Daily (and any unknown period): within a day of now. Weekly: a Sunday within seven days of now. Monthly: the day whose day of the month is 1 |
| `Balance.WeeklyStartIsLatestSunday` | storage.js:213-215 | every Sunday midnight not after now is no later than the weekly start, so the start is the most recent one |
| `Balance.FilterExpensesByPeriod` | storage.js:223-226 | keeps exactly the expenses stamped at or after the period start |
| `Balance.FilterByPeriodConcat` | storage.js:223-226 | the period filter keeps stored order |
| `Balance.CalculateBalance` | storage.js:228-241 | the scoped expenses are the period's; spent is their sum; total is the budget; left and percent are clamped as the figures state; percent is non-negative when no amount is negative |
| `Balance.ZeroBudget` | storage.js:231-233 | a zero budget with non-negative amounts gives percent 0 and left 0 |
| `Balance.SpentAfterAppend` | storage.js:228-241 | appending an expense raises spent by its amount when it is in the period and leaves it unchanged otherwise |
| `Balance.NowIsInPeriod` | storage.js:223-226 | an expense stamped at now is always in the current period |
| `Balance.WeeklyBoundaryExample` | storage.js:211-226 | on Thursday 14 March 2024 the week starts Sunday 10 March: one second after that midnight is in, one second before is out |
| `App.KeypadStep` | app.js:186-194 | one key press on the draft amount; `KeypadEffects`, `BackUndoesKey` and `KeypadKeepsOneDot` state its behaviour |
| `App.Typed` | app.js:185-196 | the draft amount after a sequence of key presses; `TypedHasOneDot` states that from the reset draft it has at most one decimal point |
| `App.KeypadEffects` | app.js:185-196 | "back" removes the last character of a non-empty amount and leaves an empty one empty; "." is appended only when the amount has none; any other key is appended verbatim |
| `App.BackUndoesKey` | app.js:186-193 | a "back" after a one-character key that was appended restores the amount |
| `App.KeypadKeepsOneDot` | app.js:188-193 | a key press keeps an amount with at most one decimal point that way |
| `App.TypedHasOneDot` | app.js:185-196 | from the reset draft, any sequence of key presses leaves at most one decimal point |
| `App.UpdateBalanceFigures` | app.js:79-83 | spent sums every expense with no period filter; left is budget minus spent up to the budget and 0 beyond it; percent is spent/budget up to the budget, 1 at or beyond it, 0 for a budget that is not positive, and non-negative for non-negative amounts; the figures are the shared clamped figures of that budget and spent |
| `App.UnscopedAgreesWhenAllInPeriod` | app.js:80-83 | the app's figures equal `calculateBalance`'s whenever every expense lies in the current period |
| `App.Recent` | app.js:98 | at most three expenses, namely the last ones of the list, newest first |
| `App.ExpenseApp.constructor` | app.js:2-12 | the initial state is period "daily", budget 0, no expenses and the reset draft |
| `App.ExpenseApp.SaveState` | app.js:38-44 | the app's slot holds its period, budget and expenses |
| `App.ExpenseApp.LoadState` | app.js:46-59 | nothing usable stored leaves the state unchanged; otherwise each stored field replaces the state's unless it is falsy |
| `App.ExpenseApp.UpdatePeriodSelection` | app.js:67-68 | the period becomes the selected one |
| `App.ExpenseApp.Start` | app.js:220-227 | with a zero budget the start button changes nothing; otherwise the app's slot holds its period, budget and expenses |
| `App.ExpenseApp.SelectBudget` | app.js:213-217 | a budget button sets the budget to the button's amount and changes nothing else |
| `App.ExpenseApp.SelectCategory` | app.js:145-148 | a category chip changes only the draft's category |
| `App.ExpenseApp.CopyDetails` | app.js:249-253 | the step to the category view copies the typed title and description into the draft and changes nothing else in it |
| `App.ExpenseApp.ResetDraft` | app.js:123-129 | the draft becomes amount "", title "", description "" and category "food" |
| `App.ExpenseApp.HandleKeypad` | app.js:185-196 | only the draft amount changes, as one key press does |
| `App.ExpenseApp.AddExpense` | app.js:153-171 | a zero or NaN amount changes nothing. Otherwise exactly one expense is appended, carrying the draft's amount, category, title and description; the state is saved and the draft reset |
| `App.SaveThenLoad` | app.js:38-59 | loading right after saving leaves period, budget and expenses unchanged |
| `App.EnterOne` | app.js:153-171 | an accepted entry adds one expense, which then heads the recent list |

## Left out

- `createMockApi` (storage.js:179-209): it is built from `Math.random`, timers and promises. Its point is asynchrony, and the read-modify-write race between overlapping calls is a concurrency matter.
- JSON text and `localStorage`: the slot holds an already-parsed blob. Byte-for-byte reproducibility of the stored text is not modelled. Elements of stored arrays are assumed to have the entity shapes.
- JavaScript spread quirks:
  - a truthy settings value that is not an object (a string spreads its characters);
  - an update key whose value is explicitly `undefined`, which the spread copies;
  - an update that would clear an optional field such as `title`.
- `SeedState.BuildSeedState`: stored settings keys are assumed to hold the `Settings` field types. A `null`, a mistyped value or an unknown key survives the spread in the source (storage.js:23-26), in a stored blob or in an `updateSettings` argument (storage.js:103). None of these is modelled. For example, a stored `period: null` stays `null` there and selects the daily start (storage.js:213-219).
- `Balance.PeriodStart`: JavaScript `Date`, time zones and daylight-saving time are not modelled. Timestamps are read on a uniform local clock. The day of the month is a given of the clock, not computed from a calendar.
- `Balance.CalculateBalance`: `settings.budget || 0` is modelled as the budget itself. A NaN or missing budget does not arise with integer budgets.
- `Balance.CalculateBalance`, `Spending.ComputeFigures`, `App.UpdateBalanceFigures`: percent is non-negative only when no amount is negative. The core does not validate amounts, so a negative amount can give a negative percent.
- Floating point is not modelled:
  - number addition;
  - `Math.round(percent * 360)`;
  - `toLocaleString` and `toLocaleTimeString`.
- `App.ExpenseApp.AddExpense`: `Number(...)` parsing is the parameter `parseNumber`. `crypto.randomUUID()`, `Date.now()` and the time string are also parameters.
- `isExpenseAmountValid`, and the view navigation in `registerEvents` and `showView`: these only choose which view is shown. The state changes that `registerEvents` makes are modelled by `SelectBudget`, `Start` (the zero-budget guard, then `saveState`), `HandleKeypad` (the keypad buttons, app.js:266-268), `CopyDetails`, `UpdatePeriodSelection`, `ResetDraft` and `AddExpense`. The chip handler in `renderCategoryChips` is modelled by `SelectCategory`. `Number(...)` on a budget button is the given integer amount.
- The `console.warn` logging on a failed parse (storage.js:47, app.js:57): the warning is output only; the recovery it accompanies is modelled.
- `save(null)` (storage.js:63-64): the default argument of `buildSeedState` applies only to `undefined`, so reading `null.categories` throws, outside any `try`. `Store.Storage.Save` takes only blobs, so this exception is not modelled.
- Two stores created with the same key share one slot (storage.js:56). Each `Store.Storage` owns its own `slot` field, so one store's writes seen by another are not modelled.
- `App.ExpenseApp.LoadState`: a truthy stored `period`, `budget` or `expenses` of another type replaces the app state as it is (app.js:53-55). `Saved` has typed fields, so such values are not expressible.
- All DOM code:
  - `showView`;
  - `renderCategoryChips`;
  - the DOM side of `updatePeriodSelection`, `updateBalance` and `renderExpenses`;
  - the hard-coded reset labels.
- storage.ts: it holds declarations only. It is used for the entity shapes.
