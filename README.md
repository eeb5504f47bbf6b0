# Budget dashboard: state and derivations

This project models the logic of the `BudgetDashboard` React component of a
personal budget tracker (`src/App.js`). The component holds three ordered
collections of records (income, expenses, savings) and one form draft per
collection. Its handlers append a record built from a complete draft and then
clear the draft, or delete every record with a given id. From these
collections it derives on every render:

- the three totals;
- the signed cash balance;
- the spending rate (expenses as a rounded percentage of income);
- the per-category expense breakdown shown in the pie chart.

Modules:

- `Entries` (`entries.dfy`): the `Entry` record (one variant per collection),
  the three draft types, `Total` (the `reduce` sum) and `WithoutId` (the
  `filter` used by every delete), with lemmas about both.
- `Categories` (`categories.dfy`): `expensesByCategory` as a left fold
  (`ExpensesByCategory`) of the object update `acc[cat] = (acc[cat] || 0) + amount`
  (`Bump`). The fold's result is an insertion-ordered list of distinct-named
  slices, standing in for the JavaScript object. `categoryData`
  (`CategoryData`) is that list with its meaning stated.
- `Summary` (`summary.dfy`): `cashBalance` and `spendingPercentage`.
- `Dashboard` (`dashboard.dfy`): the class `BudgetDashboard`, with the six
  state fields, the initial data, the add/delete handlers and the draft
  input handlers as methods that reassign the fields.

Modelling choices:

- Amounts are exact integers counting cents, instead of IEEE doubles holding
  euros. The initial salary of €1277 is `127700`.
- `parseFloat` is a function parameter `parseAmount: string -> int` of each
  add method. It gives the amount text's value in cents. The stored amount
  is `parseAmount` applied to the draft's amount text.
- `Date.now()` is the parameter `now`. Ids are not assumed unique.
- An expense's missing category is modelled as the empty string. Both are
  falsy in `exp.category || 'Other'`, so both count as 'Other'.
- `Math.round(E / I * 100)` is specified by what it means. The result `p`
  satisfies `p - 1/2 <= 100E/I < p + 1/2` (halves round up). It is computed
  exactly as `(200E + I) / (2I)` with floor division.

Behaviour of `src/App.js` worth noting:

- An add accepts any non-empty amount text. No numeric check is made.
- The category choices are Housing, Utilities, Food, Transport, Entertainment
  and Other. There is no 'Extra' option.
- The saving date and the expense due date have no input control. They keep
  the draft's initial empty string.

## Model

| member | source | states |
|---|---|---|
| `Entries.Submittable` | src/App.js:33 | The add guard: a form is accepted exactly when its label and its amount text are both non-empty. It has no contract; the add methods' contracts state its effect. |
| `Entries.IncomeDraft.Complete` | src/App.js:33 | The income form passes the add guard. No contract; used in `AddIncome`'s contract. |
| `Entries.ExpenseDraft.Complete` | src/App.js:40 | The expense form passes the add guard. No contract; used in `AddExpense`'s contract. |
| `Entries.SavingDraft.Complete` | src/App.js:53 | The savings form passes the add guard. No contract; used in `AddSaving`'s contract. |
| `Entries.Total` | src/App.js:26-28 | The `reduce` sum of the amounts. Its contract states that it is never negative when no amount is. `TotalPush` and `TotalAppend` pin the value down. |
| `Entries.WithoutId` | src/App.js:64-66 | Every surviving record has an id different from the deleted one and comes from the old collection. When no record has that id, the collection is returned unchanged. |
| `Entries.WithoutIdCounts` | src/App.js:64-66 | A delete keeps every copy of each record with another id and drops every copy of a record with the deleted id. |
| `Entries.WithoutIdAppend` | src/App.js:64-66 | Deleting from a concatenation is deleting from each part and concatenating the results. So survivors keep their relative order. |
| `Entries.WithoutIdSingle` | src/App.js:64-66 | On a single record, the delete drops it exactly when its id matches. |
| `Entries.WithoutIdPush` | src/App.js:64-66 | Deleting from a collection with one more record deletes from the old collection, then keeps the new record exactly when its id differs. |
| `Entries.TotalAppend` | src/App.js:26-28 | A total over a concatenation is the sum of the parts' totals. |
| `Entries.TotalPush` | src/App.js:26-28 | Appending one record raises the total by exactly its amount. The empty collection totals 0. |
| `Entries.TotalWithoutId` | src/App.js:64-66 | The total after a delete is the old total minus the amounts of exactly the removed records. |
| `Categories.CategoryOf` | src/App.js:69 | The defaulted category is never empty. It is the record's own category when that is non-empty. It is anything but 'Other' only when it is that category. |
| `Categories.FirstIndexOf` | src/App.js:68-69 | Gives the position of the first expense falling under a category, after 'Other' defaulting; no earlier expense falls under it. |
| `Categories.Bump` | src/App.js:70 | Updating one key of the aggregate keeps the keys distinct. The key is present afterwards. A new key is added, existing ones are not duplicated. |
| `Categories.BumpAt` | src/App.js:70 | An existing key keeps its position and gains the amount. Every other key keeps its value. |
| `Categories.BumpNew` | src/App.js:70 | A key not yet present is appended at the end, holding the amount. |
| `Categories.BumpTotal` | src/App.js:70 | One update raises the sum of all values by exactly the amount. |
| `Categories.ExpensesByCategory` | src/App.js:68-72 | The fold over the expenses yields no category name twice. |
| `Categories.ByCategoryNames` | src/App.js:68-72 | The aggregate's names are exactly the defaulted categories of the expenses. An empty or missing category appears as 'Other'. |
| `Categories.ByCategorySum` | src/App.js:68-72 | The aggregate's values sum to the expense total. |
| `Categories.ByCategoryValues` | src/App.js:68-72 | Each value is the sum of the amounts of exactly the expenses under that name. |
| `Categories.OrderStep` | src/App.js:68-72 | Folding in one more expense keeps the aggregate in first-occurrence order. A newly met category is placed after every category already present. |
| `Categories.SpentInAppend` | src/App.js:68-72 | What is spent under one category is additive over concatenation of expense lists. |
| `Categories.SpentInPush` | src/App.js:68-72 | One more expense adds its amount to what is spent under its own defaulted category, and to no other category. |
| `Categories.UncategorisedCountsAsOther` | src/App.js:69-70 | An expense with a missing or empty category makes 'Other' a category of the list. Its amount is part of what is spent under 'Other'. |
| `Categories.ByCategoryOrder` | src/App.js:68-77 | Entries are ordered by the first occurrence of their category among the expenses. |
| `Categories.CategoryData` | src/App.js:74-77 | The chart data has one slice per occurring category and no name twice. Each value is the amount spent under that name, and the values sum to the total. Slices are ordered by first occurrence. |
| `Summary.CashBalance` | src/App.js:29 | The signed balance, income minus expenses minus savings, never clamped. No contract; `CashBalanceAfterAppend` states how each append moves it. |
| `Summary.SpendingPercentage` | src/App.js:30 | The rate is 0 whenever income is not positive, whatever the expenses. Otherwise it is 100·E/I rounded to the nearest integer, halves rounding up. |
| `Summary.RoundingIsUnique` | src/App.js:30 | Only one integer satisfies that rounding condition, so the contract fixes the rate. |
| `Summary.RoundedPercentBounds` | src/App.js:30 | A ratio between 0 and 1, scaled by 100 and rounded, lies between 0 and 100. |
| `Summary.SpendingPercentageBounds` | src/App.js:30 | When 0 <= expenses <= income, the rate lies between 0 and 100. |
| `Summary.CashBalanceAfterAppend` | src/App.js:29 | A new income record raises the balance by its amount. A new expense or saving lowers it by its amount. All-empty collections balance to 0. |
| `Dashboard.InitialFigures` | src/App.js:6-30 | The initial data gives, in cents, income 127700, expenses 83600, savings 15000 and balance 29100. The spending rate computed from those totals is 65. |
| `Dashboard.BudgetDashboard.constructor` | src/App.js:6-24 | Sets up the initial collections, empty income and saving drafts, and an expense draft whose category is 'Other'. |
| `Dashboard.BudgetDashboard.TotalIncome` | src/App.js:26 | `Total` of the income list. No contract; `AddIncome` and `DeleteIncome` state how it changes. |
| `Dashboard.BudgetDashboard.TotalExpenses` | src/App.js:27 | `Total` of the expenses. No contract; `AddExpense` and `DeleteExpense` state how it changes. |
| `Dashboard.BudgetDashboard.TotalSavings` | src/App.js:28 | `Total` of the savings. No contract; `AddSaving` and `DeleteSaving` state how it changes. |
| `Dashboard.BudgetDashboard.CashBalance` | src/App.js:29 | `Summary.CashBalance` of the three lists. No contract; `Summary.CashBalanceAfterAppend` gives its meaning. |
| `Dashboard.BudgetDashboard.SpendingPercentage` | src/App.js:30 | `Summary.SpendingPercentage` of the two totals. No contract of its own; the rounding contract is on `Summary.SpendingPercentage`. |
| `Dashboard.BudgetDashboard.CategoryData` | src/App.js:68-77 | The slice names are exactly the stored expenses' categories, with an empty category shown as 'Other'. The full meaning is on `Categories.CategoryData`. |
| `Dashboard.BudgetDashboard.AddIncome` | src/App.js:32-37 | With a non-empty label and amount text: appends exactly one income at the end, built from the draft, id `now` and the parsed amount; clears the draft; raises the total by the parsed amount. Otherwise the collection and the draft are unchanged. The other collections and drafts are untouched either way. |
| `Dashboard.BudgetDashboard.AddExpense` | src/App.js:39-50 | As AddIncome. The expense also takes the draft's due date and category, and the draft resets to empty fields with category 'Other'. |
| `Dashboard.BudgetDashboard.AddSaving` | src/App.js:52-62 | As AddIncome. The saving also takes the draft's date, and the draft resets to empty fields. |
| `Dashboard.BudgetDashboard.DeleteIncome` | src/App.js:64 | The income list becomes the old one without the records with that id. Its total drops by their amounts. Everything else is untouched. |
| `Dashboard.BudgetDashboard.DeleteExpense` | src/App.js:65 | As DeleteIncome, on the expenses. |
| `Dashboard.BudgetDashboard.DeleteSaving` | src/App.js:66 | As DeleteIncome, on the savings. |
| `Dashboard.BudgetDashboard.EditIncomeItem` | src/App.js:234 | Replaces only the income draft's label. |
| `Dashboard.BudgetDashboard.EditIncomeAmount` | src/App.js:241 | Replaces only the income draft's amount text. |
| `Dashboard.BudgetDashboard.EditExpenseItem` | src/App.js:277 | Replaces only the expense draft's label. |
| `Dashboard.BudgetDashboard.EditExpenseCategory` | src/App.js:282 | Replaces only the expense draft's category. |
| `Dashboard.BudgetDashboard.EditExpenseAmount` | src/App.js:296 | Replaces only the expense draft's amount text. |
| `Dashboard.BudgetDashboard.EditSavingItem` | src/App.js:329 | Replaces only the saving draft's label. |
| `Dashboard.BudgetDashboard.EditSavingAmount` | src/App.js:336 | Replaces only the saving draft's amount text. |

## Left out

- Rendering: the JSX layout, the `recharts` charts, the `lucide-react` icons,
  the colour table and the comparison chart data (src/App.js:2-3, 79-350).
  These are presentation and calls into foreign libraries. Only the draft
  input handlers inside the JSX are modelled.
- `toFixed(2)` currency formatting: purely presentational.
- Floating point: `parseFloat` returning `NaN` for unparseable text, and
  rounding error in the sums and in `E / I * 100`. Amounts are exact integers
  and parsing is the abstract `parseAmount`.
- `Date.now()`: the id is a parameter. Whether ids are unique is not modelled
  (a delete removes every record carrying the id).
- React's `useState` mechanics: re-rendering, batching, stale closures. State
  is plain fields updated by methods.
- Integer-like category names: `Object.entries` lists such keys first, in
  numeric order, whereas the model lists every key by first insertion. The
  category selector (src/App.js:285-290) offers only non-numeric names.
- Category names that collide with `Object.prototype` members (such as
  `constructor`): `acc[cat]` would read the inherited member. The model
  treats every name as a fresh key. The selector offers none of these.
- Amounts finer than a cent: `parseFloat("12.505")` keeps the fraction, while
  `parseAmount` must give a whole number of cents.
