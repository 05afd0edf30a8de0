/**
 * The dashboard page: its own copy of the rate table and `toINR`, the all-time
 * rupee total, the five most recent expenses and the "View All Expenses" button.
 */
module Dashboard {

  import opened Base
  import opened Seqs
  import opened Schemas
  import Currency
  import UseApi

  /** The page's local `EXCHANGE_RATES`. */
  const LocalRates: map<string, real> :=
    map["INR" := 1.0, "USD" := 83.0, "EUR" := 90.0, "GBP" := 105.0,
        "JPY" := 0.55, "AUD" := 55.0, "CAD" := 61.0]

  /** The page's local `toINR`: a missing, unknown or falsy-rated currency leaves the amount. */
  function LocalToINR(amount: real, currency: Option<string>): real
  {
    if !Truthy(currency) || currency.value !in LocalRates || LocalRates[currency.value] == 0.0
    then amount
    else amount * LocalRates[currency.value]
  }

  /** The page converts exactly as the worker does. */
  lemma LocalToINRAgrees(amount: real, currency: Option<string>)
    ensures LocalToINR(amount, currency) == Currency.ToINR(amount, currency)
  {
    assert LocalRates == Currency.ExchangeRates;
  }

  function ExpenseINR(e: Expense): real
  {
    LocalToINR(e.amount, e.currency)
  }

  /** `expenses.reduce((sum, expense) => sum + toINR(...), 0)`, left to right. */
  function TotalSpent(es: seq<Expense>): (r: real)
    ensures (forall i :: 0 <= i < |es| ==> es[i].amount >= 0.0) ==> r >= 0.0
  {
    if es == [] then 0.0
    else
      LocalToINRAgrees(Last(es).amount, Last(es).currency);
      TotalSpent(DropLast(es)) + ExpenseINR(Last(es))
  }

  /** The total covers every expense, whatever its date: it is the plain sum of the rupee values. */
  lemma {:induction false} TotalSpentIsSum(es: seq<Expense>)
    ensures TotalSpent(es) == SumBy(es, ExpenseINR)
  {
    if es != [] {
      TotalSpentIsSum(DropLast(es));
      assert es == DropLast(es) + [Last(es)];
      SumByAppend(DropLast(es), [Last(es)], ExpenseINR);
    }
  }

  /** A successful `addExpense` raises the total by the new expense's rupee value; a failed one leaves it. */
  lemma TotalSpentAfterAdd(prev: seq<Expense>, resp: UseApi.Response<Expense>)
    ensures TotalSpent(UseApi.AddExpense(prev, resp).state)
         == TotalSpent(prev) + (if resp.ok then ExpenseINR(resp.body) else 0.0)
  {
    var next := UseApi.AddExpense(prev, resp).state;
    TotalSpentIsSum(prev);
    TotalSpentIsSum(next);
    if resp.ok {
      assert next[1..] == prev;
    }
  }

  /** `expenses.slice(0, 5)` */
  function Recent(es: seq<Expense>): seq<Expense>
  {
    Take(es, 5)
  }

  /** `expenses.length > 5` */
  predicate ShowViewAll(es: seq<Expense>)
  {
    |es| > 5
  }

  /**
   * The recent list is the first `min(5, n)` expenses, and the button is shown
   * exactly when that list leaves some expense out.
   */
  lemma RecentAndViewAll(es: seq<Expense>)
    ensures |Recent(es)| == if |es| < 5 then |es| else 5
    ensures Recent(es) == es[..|Recent(es)|]
    ensures ShowViewAll(es) <==> |Recent(es)| < |es|
  {
  }

  /** What the page renders. */
  datatype View = LoadingScreen | Overview(totalSpent: real, recent: seq<Expense>, viewAll: bool)

  /** The loading screen while either list loads; otherwise the overview. */
  function Page(expensesLoading: bool, categoriesLoading: bool, expenses: seq<Expense>): (r: View)
    ensures r.LoadingScreen? <==> expensesLoading || categoriesLoading
    ensures r.Overview? ==>
      && r.totalSpent == SumBy(expenses, ExpenseINR)
      && |r.recent| == (if |expenses| < 5 then |expenses| else 5)
      && r.recent == expenses[..|r.recent|]
      && (r.viewAll <==> |r.recent| < |expenses|)
  {
    if expensesLoading || categoriesLoading then LoadingScreen
    else
      TotalSpentIsSum(expenses);
      RecentAndViewAll(expenses);
      Overview(TotalSpent(expenses), Recent(expenses), ShowViewAll(expenses))
  }
}
