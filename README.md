# Expense tracker ledger, modelled in Dafny

This project models the in-memory core of a single-user expense tracker
written in Python (`Expense_Tracker/expense_tracker.py`). An `Expense` is an
amount, a category, a description and a `YYYY-MM-DD` date; `to_dict` turns it
into a four-key mapping. An `ExpenseTracker` keeps an ordered list of those
mappings. It appends to the list, deletes from it by position with a bounds
check, totals the amounts, returns the list, and filters it by the month of
each date, parsing every date with `datetime.strptime(date, '%Y-%m-%d')`.

Files:

- `wrappers.dfy` (module `Wrappers`): `Option` and `Result`.
- `dates.dfy` (module `Dates`): the date format, an ISO 8601 complete calendar
  date in extended format (ISO 8601:2004 section 4.1.2.2). `ParseDate` is a
  fallible model of `strptime(text, '%Y-%m-%d')`. It returns the date, or the
  reason that call raises `ValueError`. It follows the pattern the call
  matches, so `%Y` is four digits, and `%m` and `%d` are one or two digits
  (also a space and a digit for `%d`). Text left after the day is an error,
  and so is year 0 or a day past the end of its month under the Gregorian
  leap-year rule. `FormatDate` models `strftime('%Y-%m-%d')`.
- `expense.dfy` (module `Expenses`): the `Expense` value, its constructor with
  the empty-date default, and `to_dict` with its inverse.
- `tracker.dfy` (module `Tracker`): the class `ExpenseTracker`, with the list
  as a `seq<Expense>` field and the backing file as a second field. It also
  holds the specification functions `Sum`, `Filter`, `Matching` and `FirstDateError`,
  the lemmas about them, and a client method `Scenario` whose assertions
  about three adds, a total and two deletes follow from the contracts alone.

Modelling decisions:

- The list holds `Expense` values rather than Python dictionaries. Every
  element is produced by `to_dict`, and `ToDict`/`FromDict` show that this
  mapping loses nothing.
- Amounts are exact `real` numbers.
- The system clock becomes a parameter, `today`. As Python's `date or ...`
  does, an empty date string is replaced by `today` formatted as `YYYY-MM-DD`.
- The backing file is a field, `saved`. Its value is `None` while the file is
  absent, and otherwise the list last written. `Valid()` states that the file
  holds the list, or is absent while the list is empty. Both mutating
  operations re-establish it.
- A date is never checked when an expense is added, so the model does not
  check it either. A bad date only surfaces in `filter_by_month`.
- `filter_by_month` compares the parsed month with any value, so the model
  takes any `int`. A month outside 1..12 matches nothing.

## Model

| member | source | states |
|---|---|---|
| `Expenses.NewExpense` | Expense_Tracker/expense_tracker.py:10-14 | amount, category and description are kept as given; a non-empty date is kept as given; an empty date becomes the current date in a form that parses back to that date |
| `Expenses.ToDict` | Expense_Tracker/expense_tracker.py:16-22 | the mapping has exactly the keys amount, category, description and date, and reading it back gives the same expense |
| `Expenses.ToDictInjective` | Expense_Tracker/expense_tracker.py:16-22 | two expenses with the same mapping are the same expense |
| `Expenses.NewExpenseToDict` | Expense_Tracker/expense_tracker.py:10-22 | with a non-empty date, the mapping holds each constructor argument under its own key |
| `Dates.MatchYear` | Expense_Tracker/expense_tracker.py:61 | the `%Y` directive captures a year between 0 and 9999 |
| `Dates.MatchMonth` | Expense_Tracker/expense_tracker.py:61 | the `%m` directive captures a month between 1 and 12 |
| `Dates.MatchDay` | Expense_Tracker/expense_tracker.py:61 | the `%d` directive captures a day between 1 and 31 |
| `Dates.MatchPattern` | Expense_Tracker/expense_tracker.py:61 | a match of the whole pattern yields year 0..9999, month 1..12, day 1..31 |
| `Dates.ParseDate` | Expense_Tracker/expense_tracker.py:61 | every date it returns is a real calendar date (year 1..9999, month 1..12, day within its month, leap years included) |
| `Dates.MonthOf` | Expense_Tracker/expense_tracker.py:61-62 | the month succeeds exactly when the date parses; it is then between 1 and 12 and is the parsed date's month; otherwise the parse error is passed on |
| `Dates.FormatDate` | Expense_Tracker/expense_tracker.py:14 | the text is ten characters with `-` at positions 4 and 7 |
| `Dates.FormatThenParse` | Expense_Tracker/expense_tracker.py:61 | a formatted date parses back to itself exactly when the calendar has it; otherwise the result is the year or day error that `datetime` reports |
| `Dates.ParseThenFormat` | Expense_Tracker/expense_tracker.py:61 | text of ten characters that parses, with no space before the day, is exactly the canonical spelling of the date it parses to |
| `Dates.FormattedDateParses` | Expense_Tracker/expense_tracker.py:14 | the default date written for an expense always parses back to the same date |
| `Dates.MonthOfFormatted` | Expense_Tracker/expense_tracker.py:61-62 | the month read from a formatted valid date is that date's month |
| `Dates.LeapDay` | Expense_Tracker/expense_tracker.py:61 | `YYYY-02-29` parses if and only if the year is a leap year |
| `Dates.LenientExamples` | Expense_Tracker/expense_tracker.py:61 | a one-digit month and a one-digit or space-padded day are accepted |
| `Dates.MalformedExamples` | Expense_Tracker/expense_tracker.py:61 | month 13 and a two-digit year do not match the pattern; a third day digit is left over |
| `Dates.CalendarExamples` | Expense_Tracker/expense_tracker.py:61 | year 0 and 31 April match the pattern but are rejected as dates |
| `Tracker.Sum` | Expense_Tracker/expense_tracker.py:53 | the left-to-right sum of the amounts; 0 for an empty list (its further properties are `SumConcat`, `SumAppend`, `SumRemoveAt` and `SumNonNegative`) |
| `Tracker.SumNonNegative` | Expense_Tracker/expense_tracker.py:53 | a list with no negative amount has a non-negative total |
| `Tracker.SumConcat` | Expense_Tracker/expense_tracker.py:53 | the total of two lists joined is the sum of their totals |
| `Tracker.SumAppend` | Expense_Tracker/expense_tracker.py:40-42 | appending an expense raises the total by exactly its amount |
| `Tracker.SumRemoveAt` | Expense_Tracker/expense_tracker.py:45-49 | removing the expense at a position lowers the total by exactly its amount |
| `Tracker.Filter` | Expense_Tracker/expense_tracker.py:58-64 | a filter is never longer than its list, and every element it keeps satisfies the test |
| `Tracker.Matching` | Expense_Tracker/expense_tracker.py:58-64 | the month filter is never longer than the list, and every element it keeps falls in the month |
| `Tracker.FilterAppend` | Expense_Tracker/expense_tracker.py:60-63 | one more element at the end joins the filter exactly when it is kept, which is what each loop step does |
| `Tracker.FilterIsSubsequence` | Expense_Tracker/expense_tracker.py:58-64 | the filter is an order-preserving subsequence of the list |
| `Tracker.FilterCounts` | Expense_Tracker/expense_tracker.py:58-64 | the filter holds every occurrence of each kept element and no other element |
| `Tracker.FilterEmpty` | Expense_Tracker/expense_tracker.py:58-64 | the filter is empty if and only if no element is kept |
| `Tracker.MatchingIsExact` | Expense_Tracker/expense_tracker.py:58-64 | the month filter is the order-preserving subsequence holding every occurrence of each expense in the month and nothing else; it is empty exactly when no expense falls in the month |
| `Tracker.FirstDateError` | Expense_Tracker/expense_tracker.py:60-61 | there is no date error exactly when every date in the list parses |
| `Tracker.FirstDateErrorAt` | Expense_Tracker/expense_tracker.py:60-61 | the error reported is that of the first expense whose date does not parse |
| `Tracker.AllDatesParseAppend` | Expense_Tracker/expense_tracker.py:60-61 | a list whose dates parse, extended by an expense whose date parses, still has only parseable dates |
| `Tracker.ExpenseTracker.constructor` | Expense_Tracker/expense_tracker.py:26-34 | the ledger starts with what the file holds, or empty when the file is absent, and the file invariant holds |
| `Tracker.ExpenseTracker.SaveExpenses` | Expense_Tracker/expense_tracker.py:36-38 | the file afterwards holds exactly the in-memory list, and the list is unchanged |
| `Tracker.ExpenseTracker.GetExpenses` | Expense_Tracker/expense_tracker.py:55-56 | returns the ledger's current list itself, in insertion order |
| `Tracker.ExpenseTracker.TotalExpenses` | Expense_Tracker/expense_tracker.py:52-53 | the total is 0 for an empty ledger and non-negative when every amount is |
| `Tracker.ExpenseTracker.AddExpense` | Expense_Tracker/expense_tracker.py:40-43 | the new list is the old one with exactly one expense appended, carrying the given fields; the total rises by the amount; the file holds the new list |
| `Tracker.ExpenseTracker.DeleteExpense` | Expense_Tracker/expense_tracker.py:45-50 | succeeds exactly when `0 <= index < len`; then the list is the old one without that position, later expenses shift down by one, the total falls by the removed amount and the file is rewritten; otherwise nothing changes |
| `Tracker.ExpenseTracker.FilterByMonth` | Expense_Tracker/expense_tracker.py:58-64 | succeeds exactly when every date parses, and then returns the order-preserving subsequence of expenses in the month; otherwise fails with the first bad date's error; the ledger is never changed |

## Left out

- Reading and writing the JSON file (`load_expenses`, `save_expenses`). The file is modelled as the list of expenses it would hold. JSON encoding, indentation, a file that does not parse, a file whose entries lack keys, and a write that fails are not modelled.
- The system clock behind `datetime.now()`. It is a parameter, `today`, which the caller supplies as a valid date.
- A date of `None`. Only the empty string stands for a missing date. Both are replaced the same way by `date or ...`.
- The Streamlit user interface (`main` and the module-level footer), including the translation from a display label to a list index.
- Floating-point amounts. Amounts are exact reals, so rounding in `sum` is not modelled.
- `Tracker.ExpenseTracker.GetExpenses`: returns the list as a value. Python returns the list object itself, so a caller that mutates it changes the ledger and bypasses saving. That aliasing is not modelled, and neither is the sharing of the dictionaries that `filter_by_month` returns.
- `Dates.ParseDate`: digits are ASCII only. Python's `\d` also accepts other Unicode decimal digits.
- `Dates.FormatDate`: always pads the year to four digits. On some platforms `strftime` does not pad years below 1000.
- Non-string dates and non-numeric amounts that a hand-edited file could contain.
