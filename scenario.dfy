/** Clients of the store: three records over two months and the queries a user would
    run on them, the empty month, default dates, and saving then reloading. Amounts
    are in cents; `Clock` is the timestamp a record without a date takes its day from. */
module Scenario {
  import opened Expenses
  import opened Ledger
  import opened Tracker

  const Clock := "2024-05-01T09:00:00.000Z"

  /** Of two March records and one April record, the April filter keeps only the last. */
  lemma AprilFilter(e1: Expense, e2: Expense, e3: Expense)
    requires MonthOf(e1.date) == "2024-03" && MonthOf(e2.date) == "2024-03" && MonthOf(e3.date) == "2024-04"
    ensures Filter([e1, e2, e3], InMonth("2024-04")) == [e3]
  {
    var p := InMonth("2024-04");
    FilterAppend([], e1, p);
    assert [] + [e1] == [e1];
    FilterAppend([e1], e2, p);
    assert [e1] + [e2] == [e1, e2];
    FilterAppend([e1, e2], e3, p);
    assert [e1, e2] + [e3] == [e1, e2, e3];
  }

  /** Of two March records, one groceries and one not, and one April record, the March
      total adds the first two amounts and the March groceries total is the first. */
  lemma MarchSums(e1: Expense, e2: Expense, e3: Expense)
    requires MonthOf(e1.date) == "2024-03" && MonthOf(e2.date) == "2024-03" && MonthOf(e3.date) == "2024-04"
    requires e1.category == "Groceries" && e2.category != "Groceries"
    ensures Total(Filter([e1, e2, e3], InMonth("2024-03"))) == e1.amount + e2.amount
    ensures Total(Filter([e1, e2, e3], InMonthWithCategory("2024-03", "Groceries"))) == e1.amount
  {
    assert [] + [e1] == [e1] && [e1] + [e2] == [e1, e2] && [e1, e2] + [e3] == [e1, e2, e3];
    MonthlyTotalAfterAppend([], e1, "2024-03");
    MonthlyTotalAfterAppend([e1], e2, "2024-03");
    MonthlyTotalAfterAppend([e1, e2], e3, "2024-03");
    CategoryTotalAfterAppend([], e1, "2024-03", "Groceries");
    CategoryTotalAfterAppend([e1], e2, "2024-03", "Groceries");
    CategoryTotalAfterAppend([e1, e2], e3, "2024-03", "Groceries");
  }

  /** A store holding, in this order, 42.50 of groceries and 15.00 of transport in
      March and 10.00 of groceries in April. */
  method ThreeRecords() returns (t: ExpenseTracker)
    ensures t.expenses == [Expense("Groceries", 4250, "2024-03-05", ""),
                           Expense("Transport", 1500, "2024-03-20", "bus pass"),
                           Expense("Groceries", 1000, "2024-04-01", "")]
  {
    t := new ExpenseTracker();
    t.AddExpense("Groceries", 4250, Some("2024-03-05"), Some(""), Clock);
    t.AddExpense("Transport", 1500, Some("2024-03-20"), Some("bus pass"), Clock);
    t.AddExpense("Groceries", 1000, Some("2024-04-01"), None, Clock);
  }

  /** The two March records total 57.50, of which 42.50 is groceries. */
  method MarchTotals() returns (march: int, marchGroceries: int)
    ensures march == 5750
    ensures marchGroceries == 4250
  {
    var t := ThreeRecords();
    MarchSums(t.expenses[0], t.expenses[1], t.expenses[2]);
    assert t.expenses == [t.expenses[0], t.expenses[1], t.expenses[2]];
    march := t.MonthlyTotal("2024-03");
    marchGroceries := t.CategoryTotal("2024-03", "Groceries");
  }

  /** Listing April gives exactly the third record; listing without a month gives all
      three in the order they were added. */
  method AprilListing() returns (april: seq<Expense>, all: seq<Expense>)
    ensures april == [Expense("Groceries", 1000, "2024-04-01", "")]
    ensures all == [Expense("Groceries", 4250, "2024-03-05", ""),
                    Expense("Transport", 1500, "2024-03-20", "bus pass"),
                    Expense("Groceries", 1000, "2024-04-01", "")]
  {
    var t := ThreeRecords();
    AprilFilter(t.expenses[0], t.expenses[1], t.expenses[2]);
    assert t.expenses == [t.expenses[0], t.expenses[1], t.expenses[2]];
    april := t.ListExpenses(Some("2024-04"));
    all := t.ListExpenses(None);
  }

  /** Saving a store and loading what was saved into a fresh store reproduces the
      records, in order. */
  method SaveThenReload() returns (saved: seq<Expense>, reloaded: seq<Expense>)
    ensures saved == [Expense("Groceries", 4250, "2024-03-05", ""),
                      Expense("Transport", 1500, "2024-03-20", "bus pass"),
                      Expense("Groceries", 1000, "2024-04-01", "")]
    ensures reloaded == saved
  {
    var t := ThreeRecords();
    var objs := t.Snapshot();
    var t2 := new ExpenseTracker();
    t2.Load(Some(objs));
    saved, reloaded := t.expenses, t2.expenses;
    assert FromObjects(objs) == saved;
  }

  /** The empty month lists every record but totals none of them. */
  method EmptyMonthQueries() returns (listed: seq<Expense>, total: int, groceries: int)
    ensures listed == [Expense("Groceries", 4250, "2024-03-05", "")]
    ensures total == 0 && groceries == 0
  {
    assert MonthOf("2024-03-05") != "";
    var t := new ExpenseTracker();
    t.AddExpense("Groceries", 4250, Some("2024-03-05"), None, Clock);
    listed := t.ListExpenses(Some(""));
    total := t.MonthlyTotal("");
    groceries := t.CategoryTotal("", "Groceries");
  }

  /** A missing date and an empty date both take the clock's calendar day; a given
      date is kept even when it is not a well-formed date. */
  method DefaultDates() returns (all: seq<Expense>)
    ensures |all| == 3
    ensures all[0].date == "2024-05-01" && all[1].date == "2024-05-01" && all[2].date == "March"
  {
    var t := new ExpenseTracker();
    t.AddExpense("Rent", 90000, None, None, Clock);
    t.AddExpense("Rent", 90000, Some(""), None, Clock);
    t.AddExpense("Rent", 90000, Some("March"), None, Clock);
    all := t.ListExpenses(None);
  }
}
