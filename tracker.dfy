/**
 * The expense ledger: an ordered list of expenses, changed in place by
 * adding at the end and deleting by position, totalled, listed and
 * filtered by the month of each expense's date.
 */
module Tracker {
  import opened Wrappers
  import opened Dates
  import opened Expenses

  // ---------------------------------------------------------------------
  // Totals
  // ---------------------------------------------------------------------

  /** The sum of the amounts, taken from the first expense to the last. */
  function Sum(s: seq<Expense>): (t: real)
    ensures s == [] ==> t == 0.0
  {
    if s == [] then 0.0 else s[0].amount + Sum(s[1..])
  }

  /** No amount is negative. */
  predicate NonNegativeAmounts(s: seq<Expense>) {
    forall i :: 0 <= i < |s| ==> s[i].amount >= 0.0
  }

  /** A list without negative amounts has a non-negative total. */
  lemma {:induction false} SumNonNegative(s: seq<Expense>)
    ensures NonNegativeAmounts(s) ==> Sum(s) >= 0.0
  {
    if s != [] && NonNegativeAmounts(s) {
      assert forall i :: 0 <= i < |s| - 1 ==> s[1..][i] == s[i + 1];
      SumNonNegative(s[1..]);
    }
  }

  lemma {:induction false} SumConcat(a: seq<Expense>, b: seq<Expense>)
    ensures Sum(a + b) == Sum(a) + Sum(b)
  {
    if a == [] {
      assert a + b == b;
    } else {
      assert (a + b)[1..] == a[1..] + b;
      SumConcat(a[1..], b);
    }
  }

  /** Appending an expense raises the total by exactly its amount. */
  lemma SumAppend(s: seq<Expense>, e: Expense)
    ensures Sum(s + [e]) == Sum(s) + e.amount
  {
    SumConcat(s, [e]);
    assert [e][1..] == [];
  }

  /** Removing the expense at `i` lowers the total by exactly its amount. */
  lemma SumRemoveAt(s: seq<Expense>, i: int)
    requires 0 <= i < |s|
    ensures Sum(s[..i] + s[i + 1..]) == Sum(s) - s[i].amount
  {
    var before, from, after := s[..i], s[i..], s[i + 1..];
    assert s == before + from;
    SumConcat(before, from);
    assert from != [] && from[0] == s[i] && from[1..] == after;
    assert Sum(from) == s[i].amount + Sum(after);
    SumConcat(before, after);
  }

  // ---------------------------------------------------------------------
  // Filtering by month
  // ---------------------------------------------------------------------

  /** The date of `e` parses and falls in `month`. */
  predicate HasMonth(e: Expense, month: int) {
    MonthOf(e.date) == Ok(month)
  }

  /** Every date in `s` parses. */
  predicate AllDatesParse(s: seq<Expense>) {
    forall i :: 0 <= i < |s| ==> ParseDate(s[i].date).Ok?
  }

  /** The elements of `s` that satisfy `keep`, in their order in `s`. */
  function Filter<T>(s: seq<T>, keep: T -> bool): (r: seq<T>)
    ensures |r| <= |s|
    ensures forall i :: 0 <= i < |r| ==> keep(r[i])
  {
    if s == [] then []
    else (if keep(s[0]) then [s[0]] else []) + Filter(s[1..], keep)
  }

  function InMonth(month: int): Expense -> bool {
    e => HasMonth(e, month)
  }

  /** The expenses of `s` whose date falls in `month`, in their order in `s`. */
  function Matching(s: seq<Expense>, month: int): (r: seq<Expense>)
    ensures |r| <= |s|
    ensures forall i :: 0 <= i < |r| ==> HasMonth(r[i], month)
  {
    Filter(s, InMonth(month))
  }

  /** The error of the first expense in `s` whose date does not parse, if any. */
  function FirstDateError(s: seq<Expense>): (r: Option<DateError>)
    ensures r.None? <==> AllDatesParse(s)
  {
    if s == [] then None
    else
      assert forall i :: 0 < i < |s| ==> s[1..][i - 1] == s[i];
      match ParseDate(s[0].date)
      case Err(e) => Some(e)
      case Ok(_) => FirstDateError(s[1..])
  }

  /** `r` is `s` with some elements left out, the rest kept in order. */
  predicate IsSubsequence<T(==)>(r: seq<T>, s: seq<T>)
    decreases |s|
  {
    r == [] || (s != [] && ((r[0] == s[0] && IsSubsequence(r[1..], s[1..])) || IsSubsequence(r, s[1..])))
  }

  lemma AllDatesParseAppend(s: seq<Expense>, e: Expense)
    requires AllDatesParse(s) && ParseDate(e.date).Ok?
    ensures AllDatesParse(s + [e])
  {
  }

  /** One more element at the end joins the filter exactly when it is kept. */
  lemma {:induction false} FilterAppend<T>(s: seq<T>, e: T, keep: T -> bool)
    ensures Filter(s + [e], keep) == Filter(s, keep) + (if keep(e) then [e] else [])
  {
    if s == [] {
      assert [e][1..] == [];
    } else {
      assert (s + [e])[1..] == s[1..] + [e];
      FilterAppend(s[1..], e, keep);
    }
  }

  /** The filter keeps its order: it is a subsequence of the list. */
  lemma {:induction false} FilterIsSubsequence<T>(s: seq<T>, keep: T -> bool)
    ensures IsSubsequence(Filter(s, keep), s)
  {
    if s != [] {
      FilterIsSubsequence(s[1..], keep);
      var r := Filter(s, keep);
      if keep(s[0]) {
        assert r == [s[0]] + Filter(s[1..], keep);
        assert r[0] == s[0] && r[1..] == Filter(s[1..], keep);
      } else {
        assert r == Filter(s[1..], keep);
      }
    }
  }

  /** The filter keeps every occurrence of each kept element and nothing else. */
  lemma {:induction false} FilterCounts<T>(s: seq<T>, keep: T -> bool, x: T)
    ensures multiset(Filter(s, keep))[x] == if keep(x) then multiset(s)[x] else 0
  {
    if s != [] {
      FilterCounts(s[1..], keep, x);
      var head := if keep(s[0]) then [s[0]] else [];
      assert Filter(s, keep) == head + Filter(s[1..], keep);
      assert multiset(Filter(s, keep))[x] == multiset(head)[x] + multiset(Filter(s[1..], keep))[x];
      assert s == [s[0]] + s[1..];
      assert multiset(s)[x] == multiset([s[0]])[x] + multiset(s[1..])[x];
    }
  }

  /** The filter is empty exactly when no element is kept. */
  lemma {:induction false} FilterEmpty<T>(s: seq<T>, keep: T -> bool)
    ensures Filter(s, keep) == [] <==> forall i :: 0 <= i < |s| ==> !keep(s[i])
  {
    if s != [] {
      FilterEmpty(s[1..], keep);
      assert forall i :: 0 < i < |s| ==> s[1..][i - 1] == s[i];
    }
  }

  /**
   * The month filter is exactly the expenses that fall in `month`: an
   * order-preserving subsequence of the list holding every occurrence of
   * each such expense and nothing else, empty exactly when none matches.
   */
  lemma MatchingIsExact(s: seq<Expense>, month: int)
    ensures IsSubsequence(Matching(s, month), s)
    ensures forall x :: multiset(Matching(s, month))[x] == if HasMonth(x, month) then multiset(s)[x] else 0
    ensures Matching(s, month) == [] <==> forall i :: 0 <= i < |s| ==> !HasMonth(s[i], month)
  {
    FilterIsSubsequence(s, InMonth(month));
    forall x {
      FilterCounts(s, InMonth(month), x);
    }
    FilterEmpty(s, InMonth(month));
  }

  /** When the dates before `i` parse and the one at `i` does not, its error comes first. */
  lemma {:induction false} FirstDateErrorAt(s: seq<Expense>, i: int)
    requires 0 <= i < |s| && AllDatesParse(s[..i]) && ParseDate(s[i].date).Err?
    ensures FirstDateError(s) == Some(ParseDate(s[i].date).error)
  {
    if i > 0 {
      assert ParseDate(s[..i][0].date).Ok?;
      assert s[1..][..i - 1] == s[1..i];
      assert forall j :: 0 <= j < i - 1 ==> s[1..i][j] == s[..i][j + 1];
      FirstDateErrorAt(s[1..], i - 1);
    }
  }

  // ---------------------------------------------------------------------
  // The ledger
  // ---------------------------------------------------------------------

  class ExpenseTracker {
    /** The name of the backing file. */
    const filename: string
    /** The expenses, in the order they were added. */
    var expenses: seq<Expense>
    /** What the backing file holds; `None` while it does not exist. */
    var saved: Option<seq<Expense>>

    /** The backing file holds the list, or is absent and the list is empty. */
    predicate Valid()
      reads this
    {
      saved == Some(expenses) || (saved.None? && expenses == [])
    }

    /**
     * Opens the ledger stored under `filename`. `onDisk` is what the file
     * holds, or `None` when it does not exist, in which case the ledger
     * starts empty.
     */
    constructor (filename: string, onDisk: Option<seq<Expense>>)
      ensures Valid()
      ensures this.filename == filename && saved == onDisk
      ensures expenses == if onDisk.Some? then onDisk.value else []
    {
      this.filename := filename;
      expenses := if onDisk.Some? then onDisk.value else [];
      saved := onDisk;
    }

    /** Overwrites the backing file with the whole list. */
    method SaveExpenses()
      modifies this
      ensures expenses == old(expenses)
      ensures saved == Some(expenses)
      ensures Valid()
    {
      saved := Some(expenses);
    }

    /** The list itself, in insertion order. */
    function GetExpenses(): (r: seq<Expense>)
      reads this
      ensures r == expenses
    {
      expenses
    }

    /** The sum of all amounts; 0 for an empty ledger. */
    function TotalExpenses(): (t: real)
      reads this
      ensures expenses == [] ==> t == 0.0
      ensures NonNegativeAmounts(expenses) ==> t >= 0.0
    {
      SumNonNegative(expenses);
      Sum(expenses)
    }

    /**
     * Appends one new expense at the end and saves. Every earlier expense
     * stays where it was and the total rises by exactly `amount`.
     */
    method AddExpense(amount: real, category: string, description: string, date: string, today: Date)
      requires Valid()
      requires date == "" ==> ValidDate(today)
      modifies this
      ensures GetExpenses() == old(GetExpenses()) + [NewExpense(amount, category, description, date, today)]
      ensures TotalExpenses() == old(TotalExpenses()) + amount
      ensures saved == Some(expenses)
      ensures Valid()
    {
      var expense := NewExpense(amount, category, description, date, today);
      SumAppend(expenses, expense);
      expenses := expenses + [expense];
      SaveExpenses();
    }

    /**
     * Deletes the expense at `index` and saves, when `index` is a position
     * of the list; later expenses move down by one. Any other index changes
     * nothing and reports failure.
     */
    method DeleteExpense(index: int) returns (ok: bool)
      requires Valid()
      modifies this
      ensures ok <==> 0 <= index < |old(expenses)|
      ensures ok ==> expenses == old(expenses)[..index] + old(expenses)[index + 1..]
      ensures ok ==> |expenses| == |old(expenses)| - 1
      ensures ok ==> forall j :: index <= j < |expenses| ==> expenses[j] == old(expenses)[j + 1]
      ensures ok ==> TotalExpenses() == old(TotalExpenses()) - old(expenses)[index].amount
      ensures ok ==> saved == Some(expenses)
      ensures !ok ==> expenses == old(expenses) && saved == old(saved)
      ensures Valid()
    {
      if 0 <= index < |expenses| {
        SumRemoveAt(expenses, index);
        expenses := expenses[..index] + expenses[index + 1..];
        SaveExpenses();
        return true;
      }
      return false;
    }

    /**
     * The expenses whose date falls in `month`, in ledger order; fails with
     * the error of the first expense whose date does not parse. The ledger
     * is not changed either way.
     */
    method FilterByMonth(month: int) returns (r: Result<seq<Expense>, DateError>)
      ensures r.Ok? <==> AllDatesParse(expenses)
      ensures r.Ok? ==> r.value == Matching(expenses, month)
      ensures r.Err? ==> FirstDateError(expenses) == Some(r.error)
    {
      var filtered: seq<Expense> := [];
      var i := 0;
      while i < |expenses|
        invariant 0 <= i <= |expenses|
        invariant AllDatesParse(expenses[..i])
        invariant filtered == Matching(expenses[..i], month)
      {
        var exp := expenses[i];
        var expMonth := MonthOf(exp.date);
        if expMonth.Err? {
          FirstDateErrorAt(expenses, i);
          return Err(expMonth.error);
        }
        if expMonth.value == month {
          filtered := filtered + [exp];
        }
        assert expenses[..i + 1] == expenses[..i] + [exp];
        AllDatesParseAppend(expenses[..i], exp);
        FilterAppend(expenses[..i], exp, InMonth(month));
        i := i + 1;
      }
      assert expenses[..i] == expenses;
      return Ok(filtered);
    }
  }

  /**
   * A client of the ledger: three expenses, their total, and two
   * deletions, one of them out of range. Every claim follows from the
   * contracts above.
   */
  method Scenario() {
    var lunch := Expense(100.50, "Food", "Lunch", "2024-03-15");
    var bus := Expense(20.0, "Transport", "Bus", "2024-03-20");
    var rent := Expense(500.0, "Rent", "March rent", "2024-04-01");
    var today := Date(2024, 4, 2);
    var tracker := new ExpenseTracker("expenses.json", None);
    tracker.AddExpense(100.50, "Food", "Lunch", "2024-03-15", today);
    tracker.AddExpense(20.0, "Transport", "Bus", "2024-03-20", today);
    tracker.AddExpense(500.0, "Rent", "March rent", "2024-04-01", today);
    assert tracker.GetExpenses() == [lunch, bus, rent];
    assert tracker.TotalExpenses() == 620.50;

    var deleted := tracker.DeleteExpense(0);
    assert deleted && tracker.GetExpenses() == [bus, rent];
    deleted := tracker.DeleteExpense(5);
    assert !deleted && tracker.GetExpenses() == [bus, rent];
    assert tracker.TotalExpenses() == 520.0;
  }
}
