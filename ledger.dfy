/** Filters and sums over an ordered sequence of expenses: what `listExpenses`,
    `monthlyTotal` and `categoryTotal` compute, and what they promise. */
module Ledger {
  import opened Expenses

  function Last<T>(s: seq<T>): T
    requires |s| > 0
  {
    s[|s| - 1]
  }

  function DropLast<T>(s: seq<T>): seq<T>
    requires |s| > 0
  {
    s[..|s| - 1]
  }

  /** `r` is obtained from `s` by deleting elements, keeping the order of the rest.
      Matching equal last elements greedily loses no solution, so one branch suffices. */
  ghost predicate IsSubsequence<T>(r: seq<T>, s: seq<T>)
    decreases |s|
  {
    r == [] ||
    (s != [] &&
     if Last(r) == Last(s) then IsSubsequence(DropLast(r), DropLast(s)) else IsSubsequence(r, DropLast(s)))
  }

  /** `Array.prototype.filter`: the elements that `p` accepts, in their original order. */
  function Filter<T>(s: seq<T>, p: T -> bool): (r: seq<T>)
    ensures |r| <= |s|
    ensures forall x :: x in r ==> x in s && p(x)
  {
    if s == [] then [] else Filter(DropLast(s), p) + (if p(Last(s)) then [Last(s)] else [])
  }

  /** Filtering a sequence with one more element at its end. */
  lemma FilterAppend<T>(s: seq<T>, x: T, p: T -> bool)
    ensures Filter(s + [x], p) == Filter(s, p) + (if p(x) then [x] else [])
  {}

  /** The filter keeps its elements in their original relative order. */
  lemma {:induction false} FilterIsSubsequence<T>(s: seq<T>, p: T -> bool)
    ensures IsSubsequence(Filter(s, p), s)
    decreases |s|
  {
    if s != [] {
      var r := Filter(s, p);
      FilterIsSubsequence(DropLast(s), p);
      if p(Last(s)) {
        assert Last(r) == Last(s) && DropLast(r) == Filter(DropLast(s), p);
      } else {
        assert r == Filter(DropLast(s), p);
      }
    }
  }

  /** Every accepted element occurs in the filter as often as in the input; no other
      element occurs in it at all. */
  lemma {:induction false} FilterCount<T>(s: seq<T>, p: T -> bool, x: T)
    ensures multiset(Filter(s, p))[x] == if p(x) then multiset(s)[x] else 0
    decreases |s|
  {
    if s != [] {
      FilterCount(DropLast(s), p, x);
      assert s == DropLast(s) + [Last(s)];
    }
  }

  /** An element is in the filter exactly when it is in the input and accepted. */
  lemma FilterMembers<T>(s: seq<T>, p: T -> bool)
    ensures forall x :: x in Filter(s, p) <==> x in s && p(x)
  {}

  /** The filter is exactly the subsequence of accepted elements: it keeps their order,
      holds nothing else, and loses none of them. */
  lemma FilterExact<T>(s: seq<T>, p: T -> bool)
    ensures IsSubsequence(Filter(s, p), s)
    ensures forall x :: x in Filter(s, p) <==> x in s && p(x)
    ensures forall x :: p(x) ==> multiset(Filter(s, p))[x] == multiset(s)[x]
  {
    FilterIsSubsequence(s, p);
    FilterMembers(s, p);
    forall x | p(x) ensures multiset(Filter(s, p))[x] == multiset(s)[x] {
      FilterCount(s, p, x);
    }
  }

  /** The `reduce((sum, exp) => sum + exp.amount, 0)` fold, taken left to right. */
  function Total(s: seq<Expense>): (t: int)
    ensures (forall e :: e in s ==> e.amount >= 0) ==> t >= 0
  {
    if s == [] then 0 else Total(DropLast(s)) + Last(s).amount
  }

  lemma TotalAppend(s: seq<Expense>, e: Expense)
    ensures Total(s + [e]) == Total(s) + e.amount
  {}

  /** Reference definition: the sum of the amounts of the records `p` accepts,
      accumulated without building the filtered list. */
  function SumWhere(s: seq<Expense>, p: Expense -> bool): int
  {
    if s == [] then 0 else SumWhere(DropLast(s), p) + (if p(Last(s)) then Last(s).amount else 0)
  }

  /** Filter-then-reduce equals the conditional sum. */
  lemma {:induction false} TotalOfFilter(s: seq<Expense>, p: Expense -> bool)
    ensures Total(Filter(s, p)) == SumWhere(s, p)
    decreases |s|
  {
    if s != [] {
      TotalOfFilter(DropLast(s), p);
      if p(Last(s)) {
        TotalAppend(Filter(DropLast(s), p), Last(s));
      } else {
        assert Filter(s, p) == Filter(DropLast(s), p);
      }
    }
  }

  /** The conditional sum is zero when no record is accepted (in particular on the empty list). */
  lemma {:induction false} SumWhereNone(s: seq<Expense>, p: Expense -> bool)
    ensures (forall e :: e in s ==> !p(e)) ==> SumWhere(s, p) == 0
    decreases |s|
  {
    if s != [] && forall e :: e in s ==> !p(e) {
      assert Last(s) in s;
      forall e | e in DropLast(s) ensures !p(e) {
        assert e in s;
      }
      SumWhereNone(DropLast(s), p);
    }
  }

  /** The month filter: `exp.date.slice(0, 7) === month`. */
  function InMonth(month: string): Expense -> bool
  {
    (e: Expense) => MonthOf(e.date) == month
  }

  /** The month-and-category filter: `... === month && exp.category === category`. */
  function InMonthWithCategory(month: string, category: string): Expense -> bool
  {
    (e: Expense) => MonthOf(e.date) == month && e.category == category
  }

  /** The month total after one more record: it grows by that record's amount
      exactly when the record's date falls in the month. */
  lemma MonthlyTotalAfterAppend(s: seq<Expense>, e: Expense, month: string)
    ensures Total(Filter(s + [e], InMonth(month)))
         == Total(Filter(s, InMonth(month))) + (if MonthOf(e.date) == month then e.amount else 0)
  {
    FilterAppend(s, e, InMonth(month));
    if MonthOf(e.date) == month {
      TotalAppend(Filter(s, InMonth(month)), e);
    } else {
      assert Filter(s + [e], InMonth(month)) == Filter(s, InMonth(month));
    }
  }

  /** The category total after one more record: it grows by that record's amount
      exactly when both its month and its category match. */
  lemma CategoryTotalAfterAppend(s: seq<Expense>, e: Expense, month: string, category: string)
    ensures Total(Filter(s + [e], InMonthWithCategory(month, category)))
         == Total(Filter(s, InMonthWithCategory(month, category)))
            + (if MonthOf(e.date) == month && e.category == category then e.amount else 0)
  {
    FilterAppend(s, e, InMonthWithCategory(month, category));
    if MonthOf(e.date) == month && e.category == category {
      TotalAppend(Filter(s, InMonthWithCategory(month, category)), e);
    } else {
      assert Filter(s + [e], InMonthWithCategory(month, category)) == Filter(s, InMonthWithCategory(month, category));
    }
  }

  /** With non-negative amounts, a category's total within a month never exceeds the month's total. */
  lemma {:induction false} CategoryTotalAtMostMonthly(s: seq<Expense>, month: string, category: string)
    requires forall e :: e in s ==> e.amount >= 0
    ensures Total(Filter(s, InMonthWithCategory(month, category))) <= Total(Filter(s, InMonth(month)))
    decreases |s|
  {
    if s != [] {
      var init, e := DropLast(s), Last(s);
      assert s == init + [e];
      assert e in s;
      forall x | x in init ensures x.amount >= 0 {
        assert x in s;
      }
      CategoryTotalAtMostMonthly(init, month, category);
      MonthlyTotalAfterAppend(init, e, month);
      CategoryTotalAfterAppend(init, e, month, category);
    }
  }

  /** The month filter with the empty month keeps only the records whose date is empty
      (whereas `listExpenses` treats the empty month as no filter at all). */
  lemma EmptyMonthFilter(s: seq<Expense>)
    ensures forall e :: e in Filter(s, InMonth("")) <==> e in s && e.date == ""
  {}
}
