# Expense tracker record store, modelled in Dafny

This project models the in-memory record store of a small Node.js expense
tracker (`expense_tracker.js`). It covers the `Expense` record and
`Expense.fromObject`, and the `ExpenseTracker` class. That class keeps an
ordered list of expenses, appends to it in `addExpense`, filters it by month
in `listExpenses`, and adds up amounts in `monthlyTotal` and `categoryTotal`.
`load` replaces the list wholesale.

Files and modules:

- `expense.dfy` (module `Expenses`): the `Expense` record and JavaScript's
  truthiness of an optional string. It also holds `String.prototype.slice(0, n)`
  (`Prefix`) and the month key `date.slice(0, 7)` (`MonthOf`). Last comes the
  plain object a record is loaded from and saved as (`StoredObject`), with
  `FromObject` / `ToObject` and their list forms.
- `ledger.dfy` (module `Ledger`): `Array.prototype.filter` as `Filter` and the
  `reduce` sum of amounts as `Total`. `SumWhere` is a reference conditional sum.
  `InMonth` and `InMonthWithCategory` are the two filter predicates the source
  uses. The module also holds the lemmas about these.
- `tracker.dfy` (module `Tracker`): class `ExpenseTracker` with one field
  `expenses: seq<Expense>`. The mutating operations (`AddExpense`, `Load`) are
  methods with `modifies this`. The queries are functions that read `this`.
- `scenario.dfy` (module `Scenario`): client methods that drive the store the
  way the test notes at the end of the source describe. They add records for two
  months and query them, save and reload them, and cover the empty month and
  default dates.

Modelling choices:

- Amounts are exact integers (for example cents), not floating point.
- The `date` and `note` arguments of `addExpense` are `Option<string>`. `None`
  stands for `null`/`undefined`. A date is falsy when it is `None` or `""`.
  An omitted note (`None`) stores `""`, as the default parameter does.
- The clock is a parameter. `clock` is the string `new Date().toISOString()`
  would return. A falsy date stores its first ten characters, as line 28 does.
  `toISOString()` gives the UTC calendar date, which can differ from the local
  date; the model follows the code.
- The listing treats an empty month as "no filter", exactly like `null`. The
  totals do not: their empty month matches only records whose date is empty.
- `load` receives the parsed file content: `None` when the file does not exist,
  otherwise the list of parsed objects.

## Model

| member | source | states |
|---|---|---|
| `Expenses.Truthy` | expense_tracker.js:17 | definition: JavaScript truthiness of an optional string, as in `!date` (line 27), `!month` (line 34) and the note default of `fromObject` (line 17) |
| `Expenses.Prefix` | expense_tracker.js:37 | `slice(0, n)` gives a prefix of the string, of length `n` or the whole string when it is shorter |
| `Expenses.MonthOf` | expense_tracker.js:37 | the month key is a prefix of the date of at most 7 characters, and a date of 7 characters or fewer is its own key |
| `Expenses.MonthOfMatches` | expense_tracker.js:37 | a date matches a month iff the month has 7 characters and begins the date, or the date is shorter than 7 characters and equals the month |
| `Expenses.EmptyMonthOnlyEmptyDate` | expense_tracker.js:42 | only the empty date has the empty month key |
| `Expenses.ClockDateMonth` | expense_tracker.js:28 | the date taken from the clock (its first 10 characters) has the clock's first 7 characters as its month |
| `Expenses.FromObject` | expense_tracker.js:16-18 | category, amount and date are copied; any string note, even `""`, is kept; a missing note becomes `""` |
| `Expenses.ToObject` | expense_tracker.js:53 | a record is written out with its note present, and `FromObject` rebuilds exactly that record |
| `Expenses.ObjectRoundTrip` | expense_tracker.js:16-18 | rebuilding a loaded object and writing it out again gives the same object iff it had a note |
| `Expenses.FromObjects` | expense_tracker.js:59 | `data.map(Expense.fromObject)`: same length, element i is `FromObject` of object i |
| `Expenses.ToObjects` | expense_tracker.js:53 | the written-out list has one object per record, in order |
| `Expenses.ObjectsRoundTrip` | expense_tracker.js:53-59 | writing out any list of records and rebuilding it gives back the same list |
| `Ledger.Filter` | expense_tracker.js:37 | the filter is no longer than its input and holds only input elements that the predicate accepts |
| `Ledger.FilterAppend` | expense_tracker.js:30 | filtering after an append is the old filter, plus the new element if it is accepted |
| `Ledger.FilterIsSubsequence` | expense_tracker.js:37 | the filter keeps the original relative order |
| `Ledger.FilterCount` | expense_tracker.js:37 | an accepted element occurs in the filter as often as in the input; a rejected one never occurs |
| `Ledger.FilterMembers` | expense_tracker.js:37 | an element is in the filter iff it is in the input and accepted |
| `Ledger.FilterExact` | expense_tracker.js:37 | the filter is an order-preserving subsequence holding every accepted element, with its multiplicity, and nothing else |
| `Ledger.Total` | expense_tracker.js:43 | the `reduce` sum is non-negative when every amount is |
| `Ledger.TotalAppend` | expense_tracker.js:43 | the sum over a list with one more record grows by that record's amount |
| `Ledger.TotalOfFilter` | expense_tracker.js:41-43 | filter-then-reduce equals the sum of the accepted records' amounts, taken without building the filtered list |
| `Ledger.SumWhereNone` | expense_tracker.js:41-43 | the sum is 0 when no record is accepted, the empty list included |
| `Ledger.InMonth` | expense_tracker.js:42 | definition: the month callback `exp.date.slice(0, 7) === month` of lines 37 and 42 |
| `Ledger.InMonthWithCategory` | expense_tracker.js:48 | definition: the callback `exp.date.slice(0, 7) === month && exp.category === category` |
| `Ledger.MonthlyTotalAfterAppend` | expense_tracker.js:40-44 | after an append, a month's total grows by the new amount if the new date is in that month, and is otherwise unchanged |
| `Ledger.CategoryTotalAfterAppend` | expense_tracker.js:46-50 | after an append, a category total grows by the new amount if both the month and the category match, and is otherwise unchanged |
| `Ledger.CategoryTotalAtMostMonthly` | expense_tracker.js:46-50 | with non-negative amounts, a category's total within a month is at most the month's total |
| `Ledger.EmptyMonthFilter` | expense_tracker.js:42 | the month filter with `""` keeps exactly the records whose date is empty |
| `Tracker.ExpenseTracker.constructor` | expense_tracker.js:22-24 | a new store is empty |
| `Tracker.ExpenseTracker.AddExpense` | expense_tracker.js:26-31 | appends exactly one record and leaves earlier records unchanged and in order; the record stores the given date if truthy, else the clock's date, and the given category, amount and note (`""` if omitted); every month and category total grows by the new amount exactly when it matches, and is otherwise unchanged |
| `Tracker.ExpenseTracker.ListExpenses` | expense_tracker.js:33-38 | a falsy month returns the whole list; otherwise the result is an order-preserving subsequence of the list, holding exactly the records of that month with their multiplicities |
| `Tracker.ExpenseTracker.MonthlyTotal` | expense_tracker.js:40-44 | equals the sum of the amounts of the records in the month; 0 when none matches |
| `Tracker.ExpenseTracker.CategoryTotal` | expense_tracker.js:46-50 | equals the sum of the amounts of the records matching month and category; 0 when none matches; at most the month total when no amount is negative |
| `Tracker.ExpenseTracker.Snapshot` | expense_tracker.js:52-54 | the objects handed to the serialiser, one per record, rebuild exactly the current list |
| `Tracker.ExpenseTracker.Load` | expense_tracker.js:56-63 | a missing file empties the list; otherwise the list is replaced by the rebuilt objects, in order |
| `Scenario.AprilFilter` | expense_tracker.js:37 | of two March records and one April record, the April filter keeps only the April one |
| `Scenario.MarchSums` | expense_tracker.js:40-50 | for two March records, only the first of them groceries, and one April record, the March total is the first two amounts and the March groceries total is the first amount |
| `Scenario.ThreeRecords` | expense_tracker.js:26-31 | three additions with given dates leave exactly those three records, in the order they were added |
| `Scenario.MarchTotals` | expense_tracker.js:40-50 | records 42.50 and 15.00 in March and 10.00 in April: March totals 57.50, of which March groceries are 42.50 |
| `Scenario.AprilListing` | expense_tracker.js:33-38 | for the same records, the April listing returns only the third record; the listing without a month returns all three records, exactly as added and in insertion order |
| `Scenario.SaveThenReload` | expense_tracker.js:52-63 | loading what `save` wrote into a new store gives that store exactly the saved records, in order |
| `Scenario.EmptyMonthQueries` | expense_tracker.js:33-50 | the empty month lists every record, but both totals for it are 0 |
| `Scenario.DefaultDates` | expense_tracker.js:26-31 | a missing and an empty date both store the clock's day; a malformed given date is stored verbatim |

## Left out

- File I/O and JSON in `save` and `load` (`fs.writeFileSync`, `fs.readFileSync`, `fs.existsSync`, `JSON.stringify`, `JSON.parse`). They are foreign library calls. `Load` takes the parsed content as an argument, `Snapshot` gives the objects `save` would serialise, and the text format itself is not modelled. A corrupt file, which makes `JSON.parse` throw, is not modelled either.
- The clock `new Date().toISOString()`. It is an input (`clock`) of `AddExpense`.
- The `readline` shell: `prompt`, the `main()` menu loop and its `trim()` of inputs. It is interactive I/O.
- Floating-point amounts. Amounts are exact integers, so `parseFloat` giving `NaN`, `toFixed(2)` and rounding in the sums are not modelled.
- Column padding (`padEnd`) in the listing. It is display formatting only.
- Loaded objects whose fields are missing or not strings and numbers. `StoredObject` types them; only `note` may be absent. A truthy note that is not a string, such as a number, is not modelled.
- Tracker.ExpenseTracker.ListExpenses: with no month the source returns the live array, so a caller can mutate the store through it. The model returns a value, so that aliasing is not captured. Likewise the records in a filtered result are the store's own mutable objects in the source; the model treats records as immutable values (nothing in the core mutates them).
- Tracker.ExpenseTracker.MonthlyTotal: the month is a string. A `null` month would match no record in the source, but the shell never passes one.
- Tracker.ExpenseTracker.AddExpense: a note passed explicitly as `null` is stored as `null` by the source. The model has no such value; `None` stands for an omitted note.
- JavaScript strings are UTF-16 code units, and Dafny strings are sequences of characters. `slice(0, 7)` on a date holding characters outside the Basic Multilingual Plane would count differently.
