/**
 * The client's data hooks: `apiCall`, which turns a non-ok response into an error,
 * and the list-state updaters of `useExpenses`, `useCategories` and `useAnalytics`.
 *
 * A hook's state is a value and each operation is a function from the old state and
 * the server's response to the new state; a rethrown error is a `Failure` next to an
 * unchanged state.
 */
module UseApi {

  import opened Base
  import opened Schemas
  import ByCategory
  import Trends
  import MonthlyInsights

  /** What `fetch` hands back: the ok flag, the status text and the decoded body. */
  datatype Response<T> = Response(ok: bool, statusText: string, body: T)

  /** `apiCall`: a response that is not ok throws `API call failed: <statusText>`. */
  function ApiCall<T>(resp: Response<T>): (r: Result<T, string>)
    ensures r.Success? <==> resp.ok
    ensures r.Success? ==> r.value == resp.body
    ensures r.Failure? ==> r.error == "API call failed: " + resp.statusText
  {
    if !resp.ok then Failure("API call failed: " + resp.statusText) else Success(resp.body)
  }

  /** A hook's `[data, setData]` together with its `loading` flag. */
  datatype Loaded<T> = Loaded(data: T, loading: bool)

  /**
   * `fetchExpenses`/`fetchCategories`/`fetchAnalytics`: `setLoading(true)`, then the
   * data on success or nothing on failure (the error is logged), and `setLoading(false)`
   * in `finally`.
   */
  function Fetch<T>(s: Loaded<T>, resp: Result<T, string>): (r: Loaded<T>)
    ensures !r.loading
    ensures resp.Success? ==> r.data == resp.value
    ensures resp.Failure? ==> r.data == s.data
  {
    match resp
    case Success(v) => Loaded(v, false)
    case Failure(_) => Loaded(s.data, false)
  }

  /** The new state of a mutating call, and what the call returns or rethrows. */
  datatype Outcome<S, T> = Outcome(state: S, result: Result<T, string>)

  /** `addExpense`: on success the created expense goes in front of the list. */
  function AddExpense(prev: seq<Expense>, resp: Response<Expense>): (r: Outcome<seq<Expense>, Expense>)
    ensures resp.ok ==> r.state == [resp.body] + prev && r.result == Success(resp.body)
    ensures !resp.ok ==> r.state == prev && r.result.Failure?
  {
    match ApiCall(resp)
    case Success(e) => Outcome([e] + prev, Success(e))
    case Failure(err) => Outcome(prev, Failure(err))
  }

  /** `prev.filter(expense => expense.id !== id)` */
  function WithoutId(s: seq<Expense>, id: int): (r: seq<Expense>)
    ensures |r| <= |s|
    ensures forall i :: 0 <= i < |r| ==> r[i].id != id
  {
    if s == [] then []
    else (if s[0].id != id then [s[0]] else []) + WithoutId(s[1..], id)
  }

  /** Filtering distributes over concatenation, so the kept entries stay in order. */
  lemma {:induction false} WithoutIdAppend(a: seq<Expense>, b: seq<Expense>, id: int)
    ensures WithoutId(a + b, id) == WithoutId(a, id) + WithoutId(b, id)
  {
    if a == [] {
      assert a + b == b;
    } else {
      assert (a + b)[1..] == a[1..] + b;
      WithoutIdAppend(a[1..], b, id);
    }
  }

  /** An entry is kept exactly when it is in the list and has another id. */
  lemma {:induction false} WithoutIdMembers(s: seq<Expense>, id: int, e: Expense)
    ensures e in WithoutId(s, id) <==> e in s && e.id != id
  {
    if s != [] {
      WithoutIdMembers(s[1..], id, e);
      assert s == [s[0]] + s[1..];
    }
  }

  /** An id that is not in the list leaves the list as it is. */
  lemma {:induction false} WithoutAbsentId(s: seq<Expense>, id: int)
    requires forall i :: 0 <= i < |s| ==> s[i].id != id
    ensures WithoutId(s, id) == s
  {
    if s != [] {
      WithoutAbsentId(s[1..], id);
    }
  }

  /** `deleteExpense`: on success every expense with that id leaves the list. */
  function DeleteExpense(prev: seq<Expense>, id: int, resp: Response<()>): (r: Outcome<seq<Expense>, ()>)
    ensures resp.ok ==> r.state == WithoutId(prev, id) && r.result.Success?
    ensures !resp.ok ==> r.state == prev && r.result.Failure?
  {
    match ApiCall(resp)
    case Success(_) => Outcome(WithoutId(prev, id), Success(()))
    case Failure(err) => Outcome(prev, Failure(err))
  }

  /** Deleting the expense just added, under a fresh id, restores the list. */
  lemma DeleteUndoesAdd(prev: seq<Expense>, added: Response<Expense>, deleted: Response<()>)
    requires added.ok && deleted.ok
    requires forall i :: 0 <= i < |prev| ==> prev[i].id != added.body.id
    ensures DeleteExpense(AddExpense(prev, added).state, added.body.id, deleted).state == prev
  {
    WithoutIdAppend([added.body], prev, added.body.id);
    WithoutAbsentId(prev, added.body.id);
  }

  /** `addCategory`: on success the created category goes at the end of the list. */
  function AddCategory(prev: seq<Category>, resp: Response<Category>): (r: Outcome<seq<Category>, Category>)
    ensures resp.ok ==> r.state == prev + [resp.body] && r.result == Success(resp.body)
    ensures !resp.ok ==> r.state == prev && r.result.Failure?
  {
    match ApiCall(resp)
    case Success(c) => Outcome(prev + [c], Success(c))
    case Failure(err) => Outcome(prev, Failure(err))
  }

  /**
   * The object `fetchAnalytics` stores. Consumers read the two lists with a default,
   * so each may be missing.
   */
  datatype Analytics = Analytics(
    spendingByCategory: Option<seq<ByCategory.CategoryTotal>>,
    spendingTrends: Option<seq<Trends.TrendPoint>>,
    insights: MonthlyInsights.Insights)

  /**
   * `fetchAnalytics`: the three calls of `Promise.all` either all succeed and are
   * stored together, or the first failure leaves the stored analytics as they were.
   */
  function FetchAnalytics(s: Loaded<Option<Analytics>>,
                          byCategory: Response<seq<ByCategory.CategoryTotal>>,
                          trends: Response<seq<Trends.TrendPoint>>,
                          insights: Response<MonthlyInsights.Insights>): (r: Loaded<Option<Analytics>>)
    ensures !r.loading
    ensures byCategory.ok && trends.ok && insights.ok ==>
      r.data == Some(Analytics(Some(byCategory.body), Some(trends.body), insights.body))
    ensures !(byCategory.ok && trends.ok && insights.ok) ==> r.data == s.data
  {
    var all :=
      if byCategory.ok && trends.ok && insights.ok
      then Success(Some(Analytics(Some(byCategory.body), Some(trends.body), insights.body)))
      else Failure("API call failed");
    Fetch(s, all)
  }
}
