/** The in-memory record store: an ordered list of expenses that changes only by
    appending one record or by being replaced wholesale on load. */
module Tracker {
  import opened Expenses
  import opened Ledger

  class ExpenseTracker {
    /** Insertion order is kept; duplicates are allowed. */
    var expenses: seq<Expense>

    constructor ()
      ensures expenses == []
    {
      expenses := [];
    }

    /** `addExpense(category, amount, date = null, note = "")`. `clock` is the
        ISO timestamp `new Date().toISOString()` would give; a falsy `date`
        stores its first ten characters. An omitted `note` (`None`) stores `""`. */
    method AddExpense(category: string, amount: int, date: Option<string>, note: Option<string>, clock: string)
      modifies this
      ensures |expenses| == |old(expenses)| + 1
      ensures expenses[..|old(expenses)|] == old(expenses)
      ensures expenses[|old(expenses)|]
           == Expense(category, amount,
                      if Truthy(date) then date.value else Prefix(clock, 10),
                      if note.Some? then note.value else "")
      ensures forall month ::
                MonthOf(expenses[|old(expenses)|].date) == month ==> MonthlyTotal(month) == old(MonthlyTotal(month)) + amount
      ensures forall month ::
                MonthOf(expenses[|old(expenses)|].date) != month ==> MonthlyTotal(month) == old(MonthlyTotal(month))
      ensures forall month, c ::
                MonthOf(expenses[|old(expenses)|].date) == month && c == category ==>
                  CategoryTotal(month, c) == old(CategoryTotal(month, c)) + amount
      ensures forall month, c ::
                !(MonthOf(expenses[|old(expenses)|].date) == month && c == category) ==>
                  CategoryTotal(month, c) == old(CategoryTotal(month, c))
    {
      var d := date;
      if !Truthy(d) {
        d := Some(Prefix(clock, 10));
      }
      var e := Expense(category, amount, d.value, if note.Some? then note.value else "");
      ghost var before := expenses;
      expenses := expenses + [e];
      assert expenses[..|before|] == before;
      forall month
        ensures MonthlyTotal(month) == old(MonthlyTotal(month)) + (if MonthOf(e.date) == month then amount else 0)
      {
        MonthlyTotalAfterAppend(before, e, month);
        TotalOfFilter(before, InMonth(month));
        TotalOfFilter(expenses, InMonth(month));
      }
      forall month, c
        ensures CategoryTotal(month, c)
             == old(CategoryTotal(month, c)) + (if MonthOf(e.date) == month && c == category then amount else 0)
      {
        CategoryTotalAfterAppend(before, e, month, c);
        TotalOfFilter(before, InMonthWithCategory(month, c));
        TotalOfFilter(expenses, InMonthWithCategory(month, c));
      }
    }

    /** `listExpenses(month = null)`: a falsy month lists everything; otherwise only the
        records whose date begins with the month, in insertion order. */
    function ListExpenses(month: Option<string>): (r: seq<Expense>)
      reads this
      ensures !Truthy(month) ==> r == expenses
      ensures Truthy(month) ==> IsSubsequence(r, expenses)
      ensures Truthy(month) ==> forall e :: e in r <==> e in expenses && MonthOf(e.date) == month.value
      ensures Truthy(month) ==>
                forall e: Expense :: MonthOf(e.date) == month.value ==> multiset(r)[e] == multiset(expenses)[e]
    {
      if !Truthy(month) then expenses
      else
        FilterExact(expenses, InMonth(month.value));
        Filter(expenses, InMonth(month.value))
    }

    /** `monthlyTotal(month)`: the amounts of the month's records added up; 0 when none match. */
    function MonthlyTotal(month: string): (t: int)
      reads this
      ensures t == SumWhere(expenses, InMonth(month))
      ensures (forall e :: e in expenses ==> MonthOf(e.date) != month) ==> t == 0
    {
      TotalOfFilter(expenses, InMonth(month));
      SumWhereNone(expenses, InMonth(month));
      Total(Filter(expenses, InMonth(month)))
    }

    /** `categoryTotal(month, category)`: the amounts of the month's records in that exact
        category added up; 0 when none match, and never above the month's total when no
        amount is negative. */
    function CategoryTotal(month: string, category: string): (t: int)
      reads this
      ensures t == SumWhere(expenses, InMonthWithCategory(month, category))
      ensures (forall e :: e in expenses ==> !(MonthOf(e.date) == month && e.category == category)) ==> t == 0
      ensures (forall e :: e in expenses ==> e.amount >= 0) ==> t <= MonthlyTotal(month)
    {
      var t := Total(Filter(expenses, InMonthWithCategory(month, category)));
      TotalOfFilter(expenses, InMonthWithCategory(month, category));
      SumWhereNone(expenses, InMonthWithCategory(month, category));
      if forall e :: e in expenses ==> e.amount >= 0 then
        CategoryTotalAtMostMonthly(expenses, month, category);
        t
      else
        t
    }

    /** The objects `save` hands to the serialiser; loading them back gives the same list. */
    function Snapshot(): (objs: seq<StoredObject>)
      reads this
      ensures |objs| == |expenses|
      ensures FromObjects(objs) == expenses
    {
      ObjectsRoundTrip(expenses);
      ToObjects(expenses)
    }

    /** `load(filename)`: `stored` is the parsed file content, `None` when the file does
        not exist. The list is replaced wholesale, or emptied. */
    method Load(stored: Option<seq<StoredObject>>)
      modifies this
      ensures stored.None? ==> expenses == []
      ensures stored.Some? ==> |expenses| == |stored.value|
      ensures stored.Some? ==> forall i :: 0 <= i < |expenses| ==> expenses[i] == FromObject(stored.value[i])
    {
      if stored.Some? {
        expenses := FromObjects(stored.value);
      } else {
        expenses := [];
      }
    }
  }
}
