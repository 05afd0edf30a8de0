/**
 * `GET /api/analytics/insights`: month totals, month-over-month change, the top
 * category of the current month and the mean daily spending of the last 30 days,
 * all in rupees and computed in one pass over every expense of the user.
 *
 * The clock is a parameter: `thisMonth` and `prevMonth` are the `YYYY-MM` keys the
 * handler derives from `new Date()`, and `daysAgo(date)` is its
 * `(now - new Date(date)) / 86400000`.
 */
module MonthlyInsights {

  import opened Base
  import opened Seqs
  import opened JsObject
  import opened Grouping
  import opened Currency

  /** A row of `SELECT amount, currency, category, date FROM expenses WHERE user_id = ?`. */
  datatype InsightRow = InsightRow(amount: real, currency: Option<string>, category: string, date: string)

  /** The response object; `topCategory` is `null` as `None`. */
  datatype Insights = Insights(
    currentMonthSpending: real,
    previousMonthSpending: real,
    topCategory: Option<string>,
    topCategoryAmount: real,
    averageDailySpending: real,
    monthOverMonthChange: real)

  function Converted(row: InsightRow): real
  {
    ToINR(row.amount, row.currency)
  }

  /** `date.slice(0, 7)`: the `YYYY-MM` part of an ISO date. */
  function MonthKey(date: string): (r: string)
    ensures |r| <= 7 && |r| <= |date| && r == date[..|r|]
    ensures |date| >= 7 ==> |r| == 7
    ensures |date| < 7 ==> r == date
  {
    Take(date, 7)
  }

  /** The loop's variables: the two month totals, `topCategoryMap` and `dailyTotals`. */
  datatype Totals = Totals(current: real, previous: real, byCategory: Dict<real>, daily: Dict<real>)

  ghost predicate TotalsValid(t: Totals)
  {
    Valid(t.byCategory) && Valid(t.daily)
  }

  function StartTotals(): (t: Totals)
    ensures TotalsValid(t)
  {
    Totals(0.0, 0.0, Empty(), Empty())
  }

  /** One pass of the loop body. */
  function Step(t: Totals, row: InsightRow, thisMonth: string, prevMonth: string,
                daysAgo: string -> real): (r: Totals)
    requires TotalsValid(t)
    ensures TotalsValid(r)
  {
    var amt := Converted(row);
    var month := MonthKey(row.date);
    var t1 := if month == thisMonth
              then t.(current := t.current + amt, byCategory := AddTo(t.byCategory, Item(row.category, amt)))
              else t;
    var t2 := if month == prevMonth then t1.(previous := t1.previous + amt) else t1;
    if daysAgo(row.date) <= 30.0 then t2.(daily := AddTo(t2.daily, Item(row.date, amt))) else t2
  }

  /** `for (const exp of allExpenses) { ... }` */
  function Accumulate(rows: seq<InsightRow>, thisMonth: string, prevMonth: string,
                      daysAgo: string -> real): (r: Totals)
    ensures TotalsValid(r)
  {
    if rows == [] then StartTotals()
    else Step(Accumulate(DropLast(rows), thisMonth, prevMonth, daysAgo), Last(rows), thisMonth, prevMonth, daysAgo)
  }

  /** Every row filed under its month key, in rupees. */
  function MonthItems(rows: seq<InsightRow>): (r: seq<Item>)
    ensures |r| == |rows|
    ensures forall i :: 0 <= i < |rows| ==> r[i] == Item(MonthKey(rows[i].date), Converted(rows[i]))
  {
    seq(|rows|, i requires 0 <= i < |rows| => Item(MonthKey(rows[i].date), Converted(rows[i])))
  }

  /** The rows of month `m`, filed under their category, in rupees, in input order. */
  function CategoryItems(rows: seq<InsightRow>, m: string): seq<Item>
  {
    if rows == [] then []
    else CategoryItems(DropLast(rows), m)
         + (if MonthKey(Last(rows).date) == m then [Item(Last(rows).category, Converted(Last(rows)))] else [])
  }

  /** The rows at most 30 days old, filed under their raw `date` string, in rupees. */
  function WindowItems(rows: seq<InsightRow>, daysAgo: string -> real): seq<Item>
  {
    if rows == [] then []
    else WindowItems(DropLast(rows), daysAgo)
         + (if daysAgo(Last(rows).date) <= 30.0 then [Item(Last(rows).date, Converted(Last(rows)))] else [])
  }

  /** What one pass of the loop body does to each variable. */
  lemma StepSpec(t: Totals, row: InsightRow, thisMonth: string, prevMonth: string,
                 daysAgo: string -> real)
    requires TotalsValid(t)
    ensures var r, amt, month := Step(t, row, thisMonth, prevMonth, daysAgo), Converted(row), MonthKey(row.date);
      && r.current == t.current + (if month == thisMonth then amt else 0.0)
      && r.previous == t.previous + (if month == prevMonth then amt else 0.0)
      && r.byCategory == (if month == thisMonth then AddTo(t.byCategory, Item(row.category, amt)) else t.byCategory)
      && r.daily == (if daysAgo(row.date) <= 30.0 then AddTo(t.daily, Item(row.date, amt)) else t.daily)
  {
  }

  lemma MonthItemsDropLast(rows: seq<InsightRow>)
    requires |rows| > 0
    ensures DropLast(MonthItems(rows)) == MonthItems(DropLast(rows))
    ensures Last(MonthItems(rows)) == Item(MonthKey(Last(rows).date), Converted(Last(rows)))
  {
  }

  /** The two month totals are the reference sums of their months. */
  lemma {:induction false} AccumulateMonths(rows: seq<InsightRow>, thisMonth: string, prevMonth: string,
                                            daysAgo: string -> real)
    ensures var t := Accumulate(rows, thisMonth, prevMonth, daysAgo);
      && t.current == SumFor(MonthItems(rows), thisMonth)
      && t.previous == SumFor(MonthItems(rows), prevMonth)
  {
    if rows != [] {
      var pre := DropLast(rows);
      AccumulateMonths(pre, thisMonth, prevMonth, daysAgo);
      StepSpec(Accumulate(pre, thisMonth, prevMonth, daysAgo), Last(rows), thisMonth, prevMonth, daysAgo);
      MonthItemsDropLast(rows);
    }
  }

  /** `topCategoryMap` is the grouping of the current month's rows by category. */
  lemma {:induction false} AccumulateByCategory(rows: seq<InsightRow>, thisMonth: string, prevMonth: string,
                                                daysAgo: string -> real)
    ensures Accumulate(rows, thisMonth, prevMonth, daysAgo).byCategory
         == GroupSums(Empty(), CategoryItems(rows, thisMonth))
  {
    if rows != [] {
      var pre := DropLast(rows);
      AccumulateByCategory(pre, thisMonth, prevMonth, daysAgo);
      StepSpec(Accumulate(pre, thisMonth, prevMonth, daysAgo), Last(rows), thisMonth, prevMonth, daysAgo);
      var cs := CategoryItems(rows, thisMonth);
      if cs != CategoryItems(pre, thisMonth) {
        assert DropLast(cs) == CategoryItems(pre, thisMonth);
      }
    }
  }

  /** `dailyTotals` is the grouping by raw date of the rows at most 30 days old. */
  lemma {:induction false} AccumulateDaily(rows: seq<InsightRow>, thisMonth: string, prevMonth: string,
                                           daysAgo: string -> real)
    ensures Accumulate(rows, thisMonth, prevMonth, daysAgo).daily
         == GroupSums(Empty(), WindowItems(rows, daysAgo))
  {
    if rows != [] {
      var pre := DropLast(rows);
      AccumulateDaily(pre, thisMonth, prevMonth, daysAgo);
      StepSpec(Accumulate(pre, thisMonth, prevMonth, daysAgo), Last(rows), thisMonth, prevMonth, daysAgo);
      var ws := WindowItems(rows, daysAgo);
      if ws != WindowItems(pre, daysAgo) {
        assert DropLast(ws) == WindowItems(pre, daysAgo);
      }
    }
  }

  /** The best category so far and its amount. */
  datatype Top = Top(category: Option<string>, amount: real)

  /** `for (const [cat, amt] of Object.entries(topCategoryMap)) if (amt > topCategoryAmount) ...` */
  function SelectTop(es: seq<(string, real)>): Top
  {
    if es == [] then Top(None, 0.0)
    else
      var t := SelectTop(DropLast(es));
      if Last(es).1 > t.amount then Top(Some(Last(es).0), Last(es).1) else t
  }

  /**
   * The selection finds the largest amount, or zero when no amount is positive, and
   * names the first entry that reaches it; it names none exactly when no amount is
   * positive.
   */
  lemma {:induction false} SelectTopSpec(es: seq<(string, real)>)
    ensures var t := SelectTop(es);
      && t.amount >= 0.0
      && (forall i :: 0 <= i < |es| ==> es[i].1 <= t.amount)
      && (t.category.None? <==> forall i :: 0 <= i < |es| ==> es[i].1 <= 0.0)
      && (t.category.None? ==> t.amount == 0.0)
      && (t.category.Some? ==>
            exists i :: (&& 0 <= i < |es| && es[i] == (t.category.value, t.amount)
                         && forall j :: 0 <= j < i ==> es[j].1 < t.amount))
  {
    if es != [] {
      var pre := DropLast(es);
      SelectTopSpec(pre);
      var t := SelectTop(pre);
      assert forall i :: 0 <= i < |pre| ==> es[i] == pre[i];
      if Last(es).1 > t.amount {
        assert es[|es| - 1] == (Last(es).0, Last(es).1);
      } else if t.category.Some? {
        var i :| 0 <= i < |pre| && pre[i] == (t.category.value, t.amount)
                 && forall j :: 0 <= j < i ==> pre[j].1 < t.amount;
        assert es[i] == pre[i];
      }
    }
  }

  /** `avgDaily.length ? avgDaily.reduce((a, b) => a + b, 0) / avgDaily.length : 0` */
  function Mean(vs: seq<real>): real
  {
    if |vs| > 0 then SumBy(vs, Identity) / (|vs| as real) else 0.0
  }

  /** `previousMonthTotal > 0 ? ((currentMonthTotal - previousMonthTotal) / previousMonthTotal) * 100 : 0` */
  function ChangePercent(current: real, previous: real): (r: real)
    ensures previous <= 0.0 ==> r == 0.0
    ensures previous > 0.0 ==> r * previous == (current - previous) * 100.0
    ensures previous > 0.0 ==> (r > 0.0 <==> current > previous) && (r == 0.0 <==> current == previous)
  {
    if previous > 0.0 then ((current - previous) / previous) * 100.0 else 0.0
  }

  /** The handler. */
  function ComputeInsights(rows: seq<InsightRow>, thisMonth: string, prevMonth: string,
                           daysAgo: string -> real): Insights
  {
    var t := Accumulate(rows, thisMonth, prevMonth, daysAgo);
    var top := SelectTop(Entries(t.byCategory));
    Insights(t.current, t.previous, top.category, top.amount,
             Mean(Values(t.daily)), ChangePercent(t.current, t.previous))
  }

  /** The month totals sum the rupee amounts of the rows whose `date.slice(0, 7)` is the month. */
  lemma InsightsMonthTotals(rows: seq<InsightRow>, thisMonth: string, prevMonth: string,
                            daysAgo: string -> real)
    ensures var r := ComputeInsights(rows, thisMonth, prevMonth, daysAgo);
      && r.currentMonthSpending == SumFor(MonthItems(rows), thisMonth)
      && r.previousMonthSpending == SumFor(MonthItems(rows), prevMonth)
      && r.monthOverMonthChange == ChangePercent(r.currentMonthSpending, r.previousMonthSpending)
  {
    AccumulateMonths(rows, thisMonth, prevMonth, daysAgo);
  }

  /** The current-month categories, in the order in which they first occur. */
  function CurrentCategories(rows: seq<InsightRow>, thisMonth: string): seq<string>
  {
    Dedup(KeysOf(CategoryItems(rows, thisMonth)))
  }

  /** The rupee total of category `c` in month `m`. */
  function CategoryTotal(rows: seq<InsightRow>, m: string, c: string): real
  {
    SumFor(CategoryItems(rows, m), c)
  }

  /** `topCategoryMap` lists the current-month categories with their totals. */
  lemma ByCategoryEntries(rows: seq<InsightRow>, thisMonth: string, daysAgo: string -> real)
    ensures var es := Entries(Accumulate(rows, thisMonth, thisMonth, daysAgo).byCategory);
      && |es| == |CurrentCategories(rows, thisMonth)|
      && forall i :: 0 <= i < |es| ==>
           es[i] == (CurrentCategories(rows, thisMonth)[i],
                     CategoryTotal(rows, thisMonth, CurrentCategories(rows, thisMonth)[i]))
  {
    AccumulateByCategory(rows, thisMonth, thisMonth, daysAgo);
    GroupedEntries(CategoryItems(rows, thisMonth));
  }

  lemma ByCategoryEntriesOf(rows: seq<InsightRow>, thisMonth: string, prevMonth: string,
                            daysAgo: string -> real)
    ensures Accumulate(rows, thisMonth, prevMonth, daysAgo).byCategory
         == Accumulate(rows, thisMonth, thisMonth, daysAgo).byCategory
  {
    AccumulateByCategory(rows, thisMonth, prevMonth, daysAgo);
    AccumulateByCategory(rows, thisMonth, thisMonth, daysAgo);
  }

  /** `topCategoryMap`'s entries, whatever the previous month, pair each current-month category with its total. */
  lemma TopCategoryEntries(rows: seq<InsightRow>, thisMonth: string, prevMonth: string,
                           daysAgo: string -> real)
    ensures var es, cs := Entries(Accumulate(rows, thisMonth, prevMonth, daysAgo).byCategory),
                          CurrentCategories(rows, thisMonth);
      && |es| == |cs|
      && forall i :: 0 <= i < |es| ==> es[i] == (cs[i], CategoryTotal(rows, thisMonth, cs[i]))
  {
    ByCategoryEntriesOf(rows, thisMonth, prevMonth, daysAgo);
    ByCategoryEntries(rows, thisMonth, daysAgo);
  }

  /**
   * `topCategoryAmount` is at least every current-month category's total and never
   * negative; there is no top category exactly when no such total is positive, and
   * then the amount is 0.
   */
  lemma InsightsTopCategoryMax(rows: seq<InsightRow>, thisMonth: string, prevMonth: string,
                               daysAgo: string -> real)
    ensures var r := ComputeInsights(rows, thisMonth, prevMonth, daysAgo);
      var cs := CurrentCategories(rows, thisMonth);
      && r.topCategoryAmount >= 0.0
      && (forall i :: 0 <= i < |cs| ==> CategoryTotal(rows, thisMonth, cs[i]) <= r.topCategoryAmount)
      && (r.topCategory.None? <==> forall i :: 0 <= i < |cs| ==> CategoryTotal(rows, thisMonth, cs[i]) <= 0.0)
      && (r.topCategory.None? ==> r.topCategoryAmount == 0.0)
  {
    var es := Entries(Accumulate(rows, thisMonth, prevMonth, daysAgo).byCategory);
    TopCategoryEntries(rows, thisMonth, prevMonth, daysAgo);
    SelectTopSpec(es);
  }

  /**
   * The top category is the first current-month category, in order of first
   * occurrence, whose total is maximal, and `topCategoryAmount` is that total.
   */
  lemma InsightsTopCategoryFirst(rows: seq<InsightRow>, thisMonth: string, prevMonth: string,
                                 daysAgo: string -> real)
    ensures var r := ComputeInsights(rows, thisMonth, prevMonth, daysAgo);
      var cs := CurrentCategories(rows, thisMonth);
      r.topCategory.Some? ==>
        exists i :: (&& 0 <= i < |cs| && cs[i] == r.topCategory.value
                     && CategoryTotal(rows, thisMonth, cs[i]) == r.topCategoryAmount
                     && forall j :: 0 <= j < i ==> CategoryTotal(rows, thisMonth, cs[j]) < r.topCategoryAmount)
  {
    var es := Entries(Accumulate(rows, thisMonth, prevMonth, daysAgo).byCategory);
    var cs := CurrentCategories(rows, thisMonth);
    TopCategoryEntries(rows, thisMonth, prevMonth, daysAgo);
    SelectTopSpec(es);
    var t := SelectTop(es);
    if t.category.Some? {
      var i :| (&& 0 <= i < |es| && es[i] == (t.category.value, t.amount)
                && forall j :: 0 <= j < i ==> es[j].1 < t.amount);
      assert cs[i] == t.category.value;
      assert CategoryTotal(rows, thisMonth, cs[i]) == t.amount;
      forall j | 0 <= j < i ensures CategoryTotal(rows, thisMonth, cs[j]) < t.amount {
        assert es[j] == (cs[j], CategoryTotal(rows, thisMonth, cs[j]));
      }
    }
    var r := ComputeInsights(rows, thisMonth, prevMonth, daysAgo);
    assert r.topCategory == t.category && r.topCategoryAmount == t.amount;
  }

  /** The distinct dates at most 30 days old, in the order in which they first occur. */
  function WindowDates(rows: seq<InsightRow>, daysAgo: string -> real): seq<string>
  {
    Dedup(KeysOf(WindowItems(rows, daysAgo)))
  }

  /**
   * The mean daily spending is the rupee total of the rows at most 30 days old divided
   * by the number of distinct dates among them, and 0 when there is no such row.
   */
  lemma InsightsAverageDaily(rows: seq<InsightRow>, thisMonth: string, prevMonth: string,
                             daysAgo: string -> real)
    ensures var r := ComputeInsights(rows, thisMonth, prevMonth, daysAgo);
      var n := |WindowDates(rows, daysAgo)|;
      && (n == 0 <==> WindowItems(rows, daysAgo) == [])
      && (n == 0 ==> r.averageDailySpending == 0.0)
      && (n > 0 ==> r.averageDailySpending == Total(WindowItems(rows, daysAgo)) / (n as real))
  {
    var items := WindowItems(rows, daysAgo);
    var e: Dict<real> := Empty();
    AccumulateDaily(rows, thisMonth, prevMonth, daysAgo);
    GroupSumsKeys(e, items);
    assert e.keys + KeysOf(items) == KeysOf(items);
    GroupSumsTotal(e, items);
    assert Values(e) == [];
    if items != [] {
      assert KeysOf(items)[0] in WindowDates(rows, daysAgo);
    }
  }

  /** With no expenses every figure is zero and there is no top category. */
  lemma InsightsOfNothing(thisMonth: string, prevMonth: string, daysAgo: string -> real)
    ensures ComputeInsights([], thisMonth, prevMonth, daysAgo) == Insights(0.0, 0.0, None, 0.0, 0.0, 0.0)
  {
  }

  lemma ScenarioGrouping()
    ensures Entries(GroupSums(Empty(), [Item("A", 50.0), Item("B", 30.0)])) == [("A", 50.0), ("B", 30.0)]
  {
    var cs := [Item("A", 50.0), Item("B", 30.0)];
    var e: Dict<real> := Empty();
    assert DropLast(cs) == [Item("A", 50.0)] && DropLast(DropLast(cs)) == [];
    assert GroupSums(e, DropLast(DropLast(cs))) == e;
    var g1 := GroupSums(e, DropLast(cs));
    assert g1 == AddTo(e, Item("A", 50.0));
    assert g1 == Dict(["A"], map["A" := 50.0]);
    var g2 := GroupSums(e, cs);
    assert g2 == AddTo(g1, Item("B", 30.0));
    assert g2 == Dict(["A", "B"], map["A" := 50.0, "B" := 30.0]);
  }

  lemma ScenarioTop()
    ensures SelectTop([("A", 50.0), ("B", 30.0)]) == Top(Some("A"), 50.0)
  {
    var es := [("A", 50.0), ("B", 30.0)];
    assert DropLast(es) == [("A", 50.0)] && DropLast(DropLast(es)) == [];
  }

  /** Three expenses: 50 rupees of A and 30 of B this month, 40 of A last month. */
  const ScenarioRows := [InsightRow(50.0, Some("INR"), "A", "2024-03-05"),
                         InsightRow(30.0, None, "B", "2024-03-06"),
                         InsightRow(40.0, Some("INR"), "A", "2024-02-10")]

  lemma ScenarioMonths()
    ensures SumFor(MonthItems(ScenarioRows), "2024-03") == 80.0
    ensures SumFor(MonthItems(ScenarioRows), "2024-02") == 40.0
  {
    var rows := ScenarioRows;
    assert MonthKey("2024-03-05") == "2024-03";
    assert MonthKey("2024-03-06") == "2024-03";
    assert MonthKey("2024-02-10") == "2024-02";
    assert Converted(rows[0]) == 50.0 && Converted(rows[1]) == 30.0 && Converted(rows[2]) == 40.0;
    var items := MonthItems(rows);
    assert items == [Item("2024-03", 50.0), Item("2024-03", 30.0), Item("2024-02", 40.0)];
    assert DropLast(items) == [Item("2024-03", 50.0), Item("2024-03", 30.0)];
    assert DropLast(DropLast(items)) == [Item("2024-03", 50.0)];
    assert DropLast(DropLast(DropLast(items))) == [];
    assert SumFor(DropLast(DropLast(items)), "2024-03") == 50.0;
    assert SumFor(DropLast(items), "2024-03") == 80.0;
    assert SumFor(DropLast(DropLast(items)), "2024-02") == 0.0;
    assert SumFor(DropLast(items), "2024-02") == 0.0;
  }

  lemma ScenarioCategories()
    ensures CategoryItems(ScenarioRows, "2024-03") == [Item("A", 50.0), Item("B", 30.0)]
  {
    var rows := ScenarioRows;
    assert MonthKey("2024-03-05") == "2024-03";
    assert MonthKey("2024-03-06") == "2024-03";
    assert MonthKey("2024-02-10") == "2024-02";
    assert DropLast(rows) == rows[..2] && DropLast(rows[..2]) == rows[..1] && DropLast(rows[..1]) == [];
    assert CategoryItems(rows[..1], "2024-03") == [Item("A", 50.0)];
    assert CategoryItems(rows[..2], "2024-03") == [Item("A", 50.0), Item("B", 30.0)];
  }

  /** The three expenses give 80 this month, 40 last month, a 100% rise, and A on top with 50. */
  lemma TwoMonthScenario(daysAgo: string -> real)
    ensures var r := ComputeInsights(ScenarioRows, "2024-03", "2024-02", daysAgo);
      && r.currentMonthSpending == 80.0
      && r.previousMonthSpending == 40.0
      && r.monthOverMonthChange == 100.0
      && r.topCategory == Some("A")
      && r.topCategoryAmount == 50.0
  {
    ScenarioMonths();
    InsightsMonthTotals(ScenarioRows, "2024-03", "2024-02", daysAgo);
    ScenarioCategories();
    AccumulateByCategory(ScenarioRows, "2024-03", "2024-02", daysAgo);
    ScenarioGrouping();
    ScenarioTop();
  }
}
