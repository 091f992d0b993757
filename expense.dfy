/**
 * One expense entry: an amount, a category, a description and a date, and
 * the four-key mapping it is stored as in the ledger.
 */
module Expenses {
  import opened Wrappers
  import opened Dates

  /**
   * An expense. Amounts are exact (`real`) rather than binary floating
   * point; the date is the text it was given, checked only when the ledger
   * is filtered by month.
   */
  datatype Expense = Expense(amount: real, category: string, description: string, date: string)

  /**
   * `Expense(amount, category, description, date)`. An empty date is
   * replaced by the current date (`today`, supplied by the caller in place
   * of the system clock), formatted as `YYYY-MM-DD`.
   */
  function NewExpense(amount: real, category: string, description: string, date: string, today: Date): (e: Expense)
    requires date == "" ==> ValidDate(today)
    ensures e.amount == amount && e.category == category && e.description == description
    ensures date != "" ==> e.date == date
    ensures date == "" ==> ParseDate(e.date) == Ok(today)
  {
    if date != "" then Expense(amount, category, description, date)
    else FormattedDateParses(today); Expense(amount, category, description, FormatDate(today))
  }

  /** A value in the stored mapping: the amount is a number, the rest text. */
  datatype Field = Number(number: real) | Text(text: string)

  const DictKeys: set<string> := {"amount", "category", "description", "date"}

  /** Reads an expense back from its mapping; `None` when a key is missing or mistyped. */
  function FromDict(m: map<string, Field>): Option<Expense> {
    if && "amount" in m && m["amount"].Number?
       && "category" in m && m["category"].Text?
       && "description" in m && m["description"].Text?
       && "date" in m && m["date"].Text?
    then Some(Expense(m["amount"].number, m["category"].text, m["description"].text, m["date"].text))
    else None
  }

  /** `to_dict`: the mapping has exactly the four keys and loses nothing. */
  function ToDict(e: Expense): (m: map<string, Field>)
    ensures m.Keys == DictKeys
    ensures FromDict(m) == Some(e)
  {
    map["amount" := Number(e.amount), "category" := Text(e.category),
        "description" := Text(e.description), "date" := Text(e.date)]
  }

  /** Distinct expenses are stored as distinct mappings. */
  lemma ToDictInjective(e1: Expense, e2: Expense)
    requires ToDict(e1) == ToDict(e2)
    ensures e1 == e2
  {
  }

  /**
   * An expense built from a non-empty date and stored as a mapping keeps
   * every constructor argument under its key.
   */
  lemma NewExpenseToDict(amount: real, category: string, description: string, date: string, today: Date)
    requires date != ""
    ensures var m := ToDict(NewExpense(amount, category, description, date, today));
      && m.Keys == DictKeys
      && m["amount"] == Number(amount) && m["category"] == Text(category)
      && m["description"] == Text(description) && m["date"] == Text(date)
  {
  }
}
