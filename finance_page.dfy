/** The finance page app/produk/page.tsx: the period filter over sales, productions and
    expenses, the revenue / expense / net-profit totals, the expense search, and the expense
    form (add or edit). */
module FinancePage {
  import opened Seqs
  import opened Text
  import opened Entities
  import opened Bookkeeping
  import opened SalesFlow
  import opened ProductionFlow

  /** The period select: 'all', 'month', 'week' or 'today'. */
  datatype Period = All | Month | Week | Today

  /** date-fns' isThisMonth, isThisWeek (weeks start on Monday) and isToday applied to a stored
      date string, read against the current clock; the clock is outside the model, so the
      calendar is a parameter. Its value at `All` is never consulted. */
  type Calendar = (Period, string) -> bool

  /** `filterDate`: every date is in the period 'all'; otherwise the calendar decides. */
  predicate InPeriod(cal: Calendar, period: Period, date: string)
  {
    period == All || cal(period, date)
  }

  function PeriodSales(s: AppState, cal: Calendar, period: Period): (r: seq<Sale>)
    ensures forall k :: 0 <= k < |r| ==> r[k] in s.sales && InPeriod(cal, period, r[k].date)
    ensures forall k :: 0 <= k < |s.sales| && InPeriod(cal, period, s.sales[k].date) ==> s.sales[k] in r
  {
    FilterMembers(s.sales, (x: Sale) => InPeriod(cal, period, x.date));
    Filter(s.sales, (x: Sale) => InPeriod(cal, period, x.date))
  }

  function PeriodProductions(s: AppState, cal: Calendar, period: Period): (r: seq<Production>)
    ensures forall k :: 0 <= k < |r| ==> r[k] in s.productions && InPeriod(cal, period, r[k].date)
    ensures forall k :: 0 <= k < |s.productions| && InPeriod(cal, period, s.productions[k].date) ==> s.productions[k] in r
  {
    FilterMembers(s.productions, (x: Production) => InPeriod(cal, period, x.date));
    Filter(s.productions, (x: Production) => InPeriod(cal, period, x.date))
  }

  function PeriodExpenses(s: AppState, cal: Calendar, period: Period): (r: seq<Expense>)
    ensures forall k :: 0 <= k < |r| ==> r[k] in s.expenses && InPeriod(cal, period, r[k].date)
    ensures forall k :: 0 <= k < |s.expenses| && InPeriod(cal, period, s.expenses[k].date) ==> s.expenses[k] in r
  {
    FilterMembers(s.expenses, (x: Expense) => InPeriod(cal, period, x.date));
    Filter(s.expenses, (x: Expense) => InPeriod(cal, period, x.date))
  }

  /** No sale has a negative total. */
  predicate SalesNonNegative(s: AppState)
  {
    forall k :: 0 <= k < |s.sales| ==> s.sales[k].totalPrice >= 0.0
  }

  /** No production has a negative cost and no expense a negative amount. */
  predicate CostsNonNegative(s: AppState)
  {
    && (forall k :: 0 <= k < |s.productions| ==> s.productions[k].totalCost >= 0.0)
    && (forall k :: 0 <= k < |s.expenses| ==> s.expenses[k].amount >= 0.0)
  }

  /** `totalRevenue`: every sale of the period, whatever its status. With no negative sale it
      lies between zero and the revenue of all time. */
  function TotalRevenue(s: AppState, cal: Calendar, period: Period): (r: real)
    ensures SalesNonNegative(s) ==> 0.0 <= r <= Sum(s.sales, (x: Sale) => x.totalPrice)
  {
    SumFilterBounds(s.sales, (x: Sale) => InPeriod(cal, period, x.date), (x: Sale) => x.totalPrice);
    Sum(PeriodSales(s, cal, period), (x: Sale) => x.totalPrice)
  }

  /** `totalMaterialCost`: the recorded cost of the period's productions. */
  function TotalMaterialCost(s: AppState, cal: Calendar, period: Period): (r: real)
    ensures CostsNonNegative(s) ==> 0.0 <= r <= Sum(s.productions, (x: Production) => x.totalCost)
  {
    SumFilterBounds(s.productions, (x: Production) => InPeriod(cal, period, x.date), (x: Production) => x.totalCost);
    Sum(PeriodProductions(s, cal, period), (x: Production) => x.totalCost)
  }

  /** `totalOtherExpenses` */
  function TotalOtherExpenses(s: AppState, cal: Calendar, period: Period): (r: real)
    ensures CostsNonNegative(s) ==> 0.0 <= r <= Sum(s.expenses, (x: Expense) => x.amount)
  {
    SumFilterBounds(s.expenses, (x: Expense) => InPeriod(cal, period, x.date), (x: Expense) => x.amount);
    Sum(PeriodExpenses(s, cal, period), (x: Expense) => x.amount)
  }

  /** All-time material cost plus other expenses. */
  function AllTimeCosts(s: AppState): real
  {
    Sum(s.productions, (x: Production) => x.totalCost) + Sum(s.expenses, (x: Expense) => x.amount)
  }

  /** `totalExpense`: material cost plus other expenses; neither part can exceed it. */
  function TotalExpense(s: AppState, cal: Calendar, period: Period): (r: real)
    ensures CostsNonNegative(s) ==>
              && TotalMaterialCost(s, cal, period) <= r && TotalOtherExpenses(s, cal, period) <= r
              && r <= AllTimeCosts(s)
  {
    TotalMaterialCost(s, cal, period) + TotalOtherExpenses(s, cal, period)
  }

  /** `netProfit`: never above the period's revenue, and never below minus all the costs ever
      recorded. */
  function NetProfit(s: AppState, cal: Calendar, period: Period): (r: real)
    ensures CostsNonNegative(s) ==> r <= TotalRevenue(s, cal, period)
    ensures SalesNonNegative(s) && CostsNonNegative(s) ==>
              -AllTimeCosts(s) <= r <= Sum(s.sales, (x: Sale) => x.totalPrice)
  {
    TotalRevenue(s, cal, period) - TotalExpense(s, cal, period)
  }

  /** With 'all', every sale, production and expense is counted, whatever the calendar says. */
  lemma AllPeriodCountsEverything(s: AppState, cal: Calendar)
    ensures TotalRevenue(s, cal, All) == Sum(s.sales, (x: Sale) => x.totalPrice)
    ensures TotalMaterialCost(s, cal, All) == Sum(s.productions, (x: Production) => x.totalCost)
    ensures TotalOtherExpenses(s, cal, All) == Sum(s.expenses, (x: Expense) => x.amount)
  {
    FilterKeepsAll(s.sales, (x: Sale) => InPeriod(cal, All, x.date));
    FilterKeepsAll(s.productions, (x: Production) => InPeriod(cal, All, x.date));
    FilterKeepsAll(s.expenses, (x: Expense) => InPeriod(cal, All, x.date));
  }

  /** The amount an appended record adds to a period total: all of it when its date is in the
      period, nothing otherwise. */
  function Counted(cal: Calendar, period: Period, date: string, amount: real): real
  {
    if InPeriod(cal, period, date) then amount else 0.0
  }

  /** Filtering and summing a list with one record appended adds that record's share. */
  lemma {:induction false} SumFilteredAppend<T>(xs: seq<T>, x: T, p: T -> bool, f: T -> real)
    ensures Sum(Filter(xs + [x], p), f) == Sum(Filter(xs, p), f) + (if p(x) then f(x) else 0.0)
  {
    FilterConcat(xs, [x], p);
    FilterSingleton(x, p);
    SumConcat(Filter(xs, p), Filter([x], p), f);
    assert [x][1..] == [];
  }

  /** Recording a sale adds its whole price to the revenue of its period, a pre-order included,
      and changes no expense total. */
  lemma SaleCountsAsRevenue(s: AppState, sale: Sale, newId: Id, cal: Calendar, period: Period)
    ensures var next := SaleAdded(s, sale, newId);
      && TotalRevenue(next, cal, period) == TotalRevenue(s, cal, period) + Counted(cal, period, sale.date, sale.totalPrice)
      && TotalExpense(next, cal, period) == TotalExpense(s, cal, period)
      && NetProfit(next, cal, period) == NetProfit(s, cal, period) + Counted(cal, period, sale.date, sale.totalPrice)
  {
    SumFilteredAppend(s.sales, sale.(id := newId), (x: Sale) => InPeriod(cal, period, x.date), (x: Sale) => x.totalPrice);
  }

  /** Recording a production adds its total cost to the expenses of its period and changes no
      revenue. */
  lemma ProductionCountsAsExpense(s: AppState, p: Production, gen: nat -> Id, cal: Calendar, period: Period)
    ensures var next := ProductionAdded(s, p, gen);
      && TotalExpense(next, cal, period) == TotalExpense(s, cal, period) + Counted(cal, period, p.date, p.totalCost)
      && TotalRevenue(next, cal, period) == TotalRevenue(s, cal, period)
      && NetProfit(next, cal, period) == NetProfit(s, cal, period) - Counted(cal, period, p.date, p.totalCost)
  {
    ProductionAddedEffect(s, p, gen);
    SumFilteredAppend(s.productions, p.(id := gen(0)), (x: Production) => InPeriod(cal, period, x.date),
                      (x: Production) => x.totalCost);
  }

  /** Recording an expense adds its amount to the expenses of its period. */
  lemma ExpenseCountsAsExpense(s: AppState, e: Expense, newId: Id, cal: Calendar, period: Period)
    ensures var next := AddExpense(s, e, newId);
      && TotalExpense(next, cal, period) == TotalExpense(s, cal, period) + Counted(cal, period, e.date, e.amount)
      && TotalRevenue(next, cal, period) == TotalRevenue(s, cal, period)
  {
    SumFilteredAppend(s.expenses, e.(id := newId), (x: Expense) => InPeriod(cal, period, x.date), (x: Expense) => x.amount);
  }

  /** The expense search: category, or a non-empty note, contains the search text. */
  predicate ExpenseMatches(e: Expense, search: string)
  {
    Matches(e.category, search) || (e.note != "" && Matches(e.note, search))
  }

  /** `searchedExpenses`: the period's expenses that match the search. */
  function SearchedExpenses(s: AppState, cal: Calendar, period: Period, search: string): (r: seq<Expense>)
    ensures forall k :: 0 <= k < |r| ==>
              r[k] in s.expenses && InPeriod(cal, period, r[k].date) && ExpenseMatches(r[k], search)
    ensures forall k :: 0 <= k < |s.expenses| && InPeriod(cal, period, s.expenses[k].date) && ExpenseMatches(s.expenses[k], search) ==>
              s.expenses[k] in r
  {
    var es := PeriodExpenses(s, cal, period);
    var r := Filter(es, (e: Expense) => ExpenseMatches(e, search));
    FilterMembers(es, (e: Expense) => ExpenseMatches(e, search));
    assert forall e :: e in es && ExpenseMatches(e, search) ==> e in r by {
      forall e | e in es && ExpenseMatches(e, search) ensures e in r {
        var k :| 0 <= k < |es| && es[k] == e;
      }
    }
    r
  }

  /** An empty search shows every expense of the period. */
  lemma EmptySearchShowsPeriod(s: AppState, cal: Calendar, period: Period)
    ensures SearchedExpenses(s, cal, period, "") == PeriodExpenses(s, cal, period)
  {
    var es := PeriodExpenses(s, cal, period);
    forall k | 0 <= k < |es| ensures ExpenseMatches(es[k], "") {
      EmptyQueryMatches(es[k].category);
    }
    FilterKeepsAll(es, (e: Expense) => ExpenseMatches(e, ""));
  }

  /** The expense form's fields. */
  datatype ExpenseForm = ExpenseForm(category: string, amount: real, note: string)

  /** handleAddExpense: with an expense being edited (a non-empty id), its category, amount and
      note are overwritten and its date kept; otherwise a new expense stamped `now` is added. */
  function HandleAddExpense(s: AppState, form: ExpenseForm, editingId: Option<Id>, now: string, newId: Id): (next: AppState)
    ensures editingId.Some? && editingId.value != "" ==>
              && |next.expenses| == |s.expenses|
              && forall k :: 0 <= k < |s.expenses| ==>
                   next.expenses[k] == if s.expenses[k].id == editingId.value
                                       then Expense(s.expenses[k].id, s.expenses[k].date, form.category, form.amount, form.note)
                                       else s.expenses[k]
    ensures !(editingId.Some? && editingId.value != "") ==>
              next.expenses == s.expenses + [Expense(newId, now, form.category, form.amount, form.note)]
    ensures next.(expenses := s.expenses) == s
  {
    if editingId.Some? && editingId.value != "" then
      UpdateExpense(s, editingId.value, ExpensePatch(None, Some(form.category), Some(form.amount), Some(form.note)))
    else
      AddExpense(s, Expense("", now, form.category, form.amount, form.note), newId)
  }
}
