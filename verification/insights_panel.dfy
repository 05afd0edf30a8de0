/**
 * The client's rule-based tips (`InsightsPanel`): up to five fixed rules read the
 * server's insights, its category totals and the user's expenses, and each rule
 * that fires contributes one tip, in rule order.
 *
 * The clock is a parameter: `timeMs(date)` is `new Date(date).getTime()` and
 * `weekday(date)` is `new Date(date).getDay()`.
 */
module InsightsPanel {

  import opened Base
  import opened Seqs
  import opened Sorting
  import opened Schemas
  import opened UseApi
  import opened RealArith
  import ByCategory
  import MonthlyInsights

  /** The tone of a tip, which picks its colours. */
  datatype Kind = Warning | Success | Tip | Info

  /** A tip; its description and action texts are fixed per rule and not modelled. */
  datatype Insight = Insight(kind: Kind, title: string)

  const HighSpending := Insight(Warning, "High Spending Alert")
  const GreatSaving := Insight(Kind.Success, "Great Job Saving!")
  const Concentration := Insight(Tip, "Category Concentration")
  const FrequentSpending := Insight(Info, "Frequent Spending Pattern")
  const WeekendSpending := Insight(Tip, "Weekend Spending Pattern")
  const HighDailyAverage := Insight(Warning, "High Daily Average")

  /** `1000 * 60 * 60 * 24` */
  const MsPerDay: real := 86400000.0

  // ---------------------------------------------------------------------------
  // calculateAverageSpendingFrequency

  function MaxOf(s: seq<real>): (r: real)
    requires |s| > 0
    ensures r in s
    ensures forall i :: 0 <= i < |s| ==> s[i] <= r
  {
    if |s| == 1 then s[0]
    else
      var m := MaxOf(DropLast(s));
      if Last(s) > m then Last(s) else m
  }

  function MinOf(s: seq<real>): (r: real)
    requires |s| > 0
    ensures r in s
    ensures forall i :: 0 <= i < |s| ==> r <= s[i]
  {
    if |s| == 1 then s[0]
    else
      var m := MinOf(DropLast(s));
      if Last(s) < m then Last(s) else m
  }

  /** `for (let i = 1; i < dates.length; i++) totalDays += (dates[i-1] - dates[i]) / MsPerDay` */
  function GapDays(d: seq<real>): real
    requires |d| > 0
  {
    if |d| == 1 then 0.0 else GapDays(DropLast(d)) + (d[|d| - 2] - Last(d)) / MsPerDay
  }

  /** The gaps between consecutive times add up to the distance from the first to the last. */
  lemma {:induction false} GapDaysTelescopes(d: seq<real>)
    requires |d| > 0
    ensures GapDays(d) == (d[0] - Last(d)) / MsPerDay
  {
    if |d| > 1 {
      GapDaysTelescopes(DropLast(d));
      assert DropLast(d)[0] == d[0] && Last(DropLast(d)) == d[|d| - 2];
    }
  }

  function Identity(x: real): real { x }

  /**
   * `calculateAverageSpendingFrequency` over the expenses' times: 7 for fewer than two,
   * otherwise the mean gap in days between consecutive times, latest first.
   */
  function AverageSpendingFrequency(times: seq<real>): real
  {
    if |times| < 2 then 7.0
    else GapDays(SortDesc(times, Identity)) / ((|times| - 1) as real)
  }

  /** The first of a descending sort is the largest time. */
  lemma SortedFirstIsMax(times: seq<real>)
    requires |times| > 0
    ensures SortDesc(times, Identity)[0] == MaxOf(times)
  {
    var d := SortDesc(times, Identity);
    assert d[0] in multiset(d);
    assert d[0] in times;
    var m := MaxOf(times);
    assert m in multiset(times);
    assert m in d;
    var i :| 0 <= i < |d| && d[i] == m;
    assert Identity(d[0]) >= Identity(d[i]);
  }

  /** The last of a descending sort is the smallest time. */
  lemma SortedLastIsMin(times: seq<real>)
    requires |times| > 0
    ensures Last(SortDesc(times, Identity)) == MinOf(times)
  {
    var d := SortDesc(times, Identity);
    assert Last(d) in multiset(d);
    assert Last(d) in times;
    var m := MinOf(times);
    assert m in multiset(times);
    assert m in d;
    var i :| 0 <= i < |d| && d[i] == m;
    assert Identity(d[i]) >= Identity(Last(d));
  }

  /** The gaps of the sorted times add up to the span from the earliest to the latest, in days. */
  lemma SortedGapDays(times: seq<real>)
    requires |times| > 0
    ensures GapDays(SortDesc(times, Identity)) == (MaxOf(times) - MinOf(times)) / MsPerDay
    ensures (MaxOf(times) - MinOf(times)) / MsPerDay >= 0.0
  {
    GapDaysTelescopes(SortDesc(times, Identity));
    SortedFirstIsMax(times);
    SortedLastIsMin(times);
    assert MinOf(times) <= times[0] <= MaxOf(times);
    DivNonNegative(MaxOf(times) - MinOf(times), MsPerDay);
  }

  /**
   * The mean gap is the span from the earliest to the latest time, in days, divided
   * by one less than the number of times; it is never negative.
   */
  lemma AverageSpendingFrequencySpan(times: seq<real>)
    ensures |times| < 2 ==> AverageSpendingFrequency(times) == 7.0
    ensures |times| >= 2 ==>
      AverageSpendingFrequency(times) == (MaxOf(times) - MinOf(times)) / MsPerDay / ((|times| - 1) as real)
    ensures AverageSpendingFrequency(times) >= 0.0
  {
    if |times| >= 2 {
      var gaps := GapDays(SortDesc(times, Identity));
      var n := (|times| - 1) as real;
      SortedGapDays(times);
      assert AverageSpendingFrequency(times) == gaps / n;
      DivEqualNonNegative(gaps, (MaxOf(times) - MinOf(times)) / MsPerDay, n);
      assert AverageSpendingFrequency(times) == (MaxOf(times) - MinOf(times)) / MsPerDay / n;
      assert AverageSpendingFrequency(times) >= 0.0;
    }
  }

  function TimesOf(es: seq<Expense>, timeMs: string -> real): (r: seq<real>)
    ensures |r| == |es|
    ensures forall i :: 0 <= i < |es| ==> r[i] == timeMs(es[i].date)
  {
    seq(|es|, i requires 0 <= i < |es| => timeMs(es[i].date))
  }

  // ---------------------------------------------------------------------------
  // analyzeWeekdaySpending

  /** The two running totals of `analyzeWeekdaySpending`, in the expenses' own currencies. */
  datatype WeekSplit = WeekSplit(weekendTotal: real, weekdayTotal: real)

  predicate IsWeekend(day: int) { day == 0 || day == 6 }

  function SplitTotals(es: seq<Expense>, weekday: string -> int): WeekSplit
  {
    if es == [] then WeekSplit(0.0, 0.0)
    else
      var s := SplitTotals(DropLast(es), weekday);
      if IsWeekend(weekday(Last(es).date)) then s.(weekendTotal := s.weekendTotal + Last(es).amount)
      else s.(weekdayTotal := s.weekdayTotal + Last(es).amount)
  }

  function RawAmount(e: Expense): real { e.amount }

  /** The weekend total is the raw sum over weekend expenses, and the two totals cover everything. */
  lemma {:induction false} SplitTotalsCover(es: seq<Expense>, weekday: string -> int)
    ensures SplitTotals(es, weekday).weekendTotal + SplitTotals(es, weekday).weekdayTotal
         == SumBy(es, RawAmount)
  {
    if es != [] {
      SplitTotalsCover(DropLast(es), weekday);
      assert es == DropLast(es) + [Last(es)];
      SumByAppend(DropLast(es), [Last(es)], RawAmount);
    }
  }

  /** Every expense on a weekday adds nothing to the weekend total. */
  lemma {:induction false} NoWeekendNoWeekendTotal(es: seq<Expense>, weekday: string -> int)
    requires forall i :: 0 <= i < |es| ==> !IsWeekend(weekday(es[i].date))
    ensures SplitTotals(es, weekday).weekendTotal == 0.0
  {
    if es != [] {
      NoWeekendNoWeekendTotal(DropLast(es), weekday);
    }
  }

  datatype WeekPercents = WeekPercents(weekendPercent: real, weekdayPercent: real)

  /**
   * `total > 0 ? (part / total) * 100 : 0` for both parts: with a positive total the
   * two shares add up to 100 and the weekend share exceeds 60 exactly when the weekend
   * part exceeds 60% of the total; otherwise both shares are 0.
   */
  function Percents(s: WeekSplit): (p: WeekPercents)
    ensures s.weekendTotal + s.weekdayTotal > 0.0 ==>
      && p.weekendPercent + p.weekdayPercent == 100.0
      && (p.weekendPercent > 60.0 <==> s.weekendTotal * 100.0 > 60.0 * (s.weekendTotal + s.weekdayTotal))
    ensures s.weekendTotal + s.weekdayTotal <= 0.0 ==> p == WeekPercents(0.0, 0.0)
  {
    var total := s.weekendTotal + s.weekdayTotal;
    if total > 0.0 then
      SharesAddUp(s.weekendTotal, s.weekdayTotal);
      PercentAbove(s.weekendTotal, total, 60.0);
      WeekPercents(s.weekendTotal / total * 100.0, s.weekdayTotal / total * 100.0)
    else WeekPercents(0.0, 0.0)
  }

  /** `analyzeWeekdaySpending` */
  function AnalyzeWeekdaySpending(es: seq<Expense>, weekday: string -> int): WeekPercents
  {
    Percents(SplitTotals(es, weekday))
  }

  /**
   * With a positive raw total over all expenses the two percentages add up to 100;
   * otherwise both are 0.
   */
  lemma AnalyzeWeekdaySpendingShares(es: seq<Expense>, weekday: string -> int)
    ensures var p := AnalyzeWeekdaySpending(es, weekday);
      && (SumBy(es, RawAmount) > 0.0 ==> p.weekendPercent + p.weekdayPercent == 100.0)
      && (SumBy(es, RawAmount) <= 0.0 ==> p == WeekPercents(0.0, 0.0))
  {
    SplitTotalsCover(es, weekday);
  }

  // ---------------------------------------------------------------------------
  // generateInsights

  function CategoryTotalOf(t: ByCategory.CategoryTotal): real { t.total }

  /**
   * `(top / sum) * 100 > 40` with JavaScript division: a zero sum gives Infinity, -Infinity or NaN,
   * and only Infinity exceeds 40.
   */
  predicate ExceedsFortyPercent(top: real, sum: real)
  {
    if sum == 0.0 then top > 0.0 else top / sum * 100.0 > 40.0
  }

  /** The month-over-month rule: at most one tip. */
  function TrendTip(change: real): (r: seq<Insight>)
    ensures |r| <= 1
    ensures r == [HighSpending] <==> change > 20.0
    ensures r == [GreatSaving] <==> change < -10.0
    ensures r == [] <==> -10.0 <= change <= 20.0
  {
    if change > 20.0 then [HighSpending]
    else if change < -10.0 then [GreatSaving]
    else []
  }

  /** The concentration rule: a top category is set and the first total exceeds 40% of all. */
  function ConcentrationTip(topCategory: Option<string>, byCategory: Option<seq<ByCategory.CategoryTotal>>): seq<Insight>
  {
    if Truthy(topCategory) && byCategory.Some? && |byCategory.value| > 0 then
      var cats := byCategory.value;
      if ExceedsFortyPercent(cats[0].total, SumBy(cats, CategoryTotalOf)) then [Concentration] else []
    else []
  }

  /** The frequency rule, over the first ten expenses only. */
  function FrequencyTip(expenses: seq<Expense>, timeMs: string -> real): seq<Insight>
  {
    if AverageSpendingFrequency(TimesOf(Take(expenses, 10), timeMs)) < 1.0 then [FrequentSpending] else []
  }

  /** The weekend rule, over all expenses. */
  function WeekendTip(expenses: seq<Expense>, weekday: string -> int): seq<Insight>
  {
    if AnalyzeWeekdaySpending(expenses, weekday).weekendPercent > 60.0 then [WeekendSpending] else []
  }

  /** The daily-average rule. */
  function DailyTip(averageDaily: real): (r: seq<Insight>)
    ensures |r| <= 1
    ensures r == [HighDailyAverage] <==> averageDaily > 100.0
    ensures r == [] <==> averageDaily <= 100.0
  {
    if averageDaily > 100.0 then [HighDailyAverage] else []
  }

  /** `generateInsights`, ending in `insights.slice(0, 6)` */
  function GenerateInsights(analytics: Option<Analytics>, expenses: seq<Expense>,
                            timeMs: string -> real, weekday: string -> int): seq<Insight>
  {
    if analytics.None? || |expenses| == 0 then []
    else
      var a := analytics.value;
      Take(TrendTip(a.insights.monthOverMonthChange)
           + ConcentrationTip(a.insights.topCategory, a.spendingByCategory)
           + FrequencyTip(expenses, timeMs)
           + WeekendTip(expenses, weekday)
           + DailyTip(a.insights.averageDailySpending), 6)
  }

  /** Without analytics or without expenses there is no tip. */
  lemma GenerateInsightsNothing(analytics: Option<Analytics>, expenses: seq<Expense>,
                                timeMs: string -> real, weekday: string -> int)
    ensures analytics.None? || expenses == [] ==> GenerateInsights(analytics, expenses, timeMs, weekday) == []
  {
  }

  /**
   * The rules that fire contribute their tips in rule order, and since there are at
   * most five of them the final `slice(0, 6)` never drops one.
   */
  lemma GenerateInsightsOrder(a: Analytics, expenses: seq<Expense>,
                              timeMs: string -> real, weekday: string -> int)
    requires expenses != []
    ensures var r := GenerateInsights(Some(a), expenses, timeMs, weekday);
      && r == TrendTip(a.insights.monthOverMonthChange)
              + ConcentrationTip(a.insights.topCategory, a.spendingByCategory)
              + FrequencyTip(expenses, timeMs)
              + WeekendTip(expenses, weekday)
              + DailyTip(a.insights.averageDailySpending)
      && |r| <= 5
  {
  }

  /**
   * The concentration tip appears exactly when a top category is named, the category
   * list is non-empty, and its first total is more than 40% of the sum of all totals.
   */
  lemma ConcentrationTipIff(topCategory: Option<string>, byCategory: Option<seq<ByCategory.CategoryTotal>>)
    ensures ConcentrationTip(topCategory, byCategory) == [Concentration] <==>
      && Truthy(topCategory) && byCategory.Some? && |byCategory.value| > 0
      && ExceedsFortyPercent(byCategory.value[0].total, SumBy(byCategory.value, CategoryTotalOf))
    ensures ConcentrationTip(topCategory, byCategory) != [Concentration] ==> ConcentrationTip(topCategory, byCategory) == []
  {
  }

  /** The ratio rule reads as "more than 40%" whenever the sum of all totals is positive. */
  lemma ExceedsFortyPercentMeaning(top: real, sum: real)
    requires sum > 0.0
    ensures ExceedsFortyPercent(top, sum) <==> top * 100.0 > 40.0 * sum
  {
    PercentAbove(top, sum, 40.0);
  }

  /**
   * The frequency tip appears exactly when at least two of the first ten expenses
   * exist and their times span less than one day per gap.
   */
  lemma FrequencyTipIff(expenses: seq<Expense>, timeMs: string -> real)
    ensures var ts := TimesOf(Take(expenses, 10), timeMs);
      FrequencyTip(expenses, timeMs) == [FrequentSpending] <==>
        |ts| >= 2 && MaxOf(ts) - MinOf(ts) < ((|ts| - 1) as real) * MsPerDay
  {
    var ts := TimesOf(Take(expenses, 10), timeMs);
    if |ts| < 2 {
      AverageSpendingFrequencySpan(ts);
      assert FrequencyTip(expenses, timeMs) == [];
    } else {
      FrequencyBelowOneDay(ts);
    }
  }

  /** With two or more times the mean gap is under a day exactly when the span is under one day per gap. */
  lemma FrequencyBelowOneDay(times: seq<real>)
    requires |times| >= 2
    ensures AverageSpendingFrequency(times) < 1.0 <==> MaxOf(times) - MinOf(times) < ((|times| - 1) as real) * MsPerDay
  {
    SortedGapDays(times);
    QuotientBelowOne(AverageSpendingFrequency(times), GapDays(SortDesc(times, Identity)), (|times| - 1) as real);
  }

  /**
   * The weekend tip appears exactly when the raw total is positive and the weekend
   * expenses make up more than 60% of it; weekday-only expenses never trigger it.
   */
  lemma WeekendTipIff(expenses: seq<Expense>, weekday: string -> int)
    ensures WeekendTip(expenses, weekday) == [WeekendSpending] <==>
      SumBy(expenses, RawAmount) > 0.0 &&
      SplitTotals(expenses, weekday).weekendTotal * 100.0 > 60.0 * SumBy(expenses, RawAmount)
  {
    SplitTotalsCover(expenses, weekday);
  }

  /** Weekday-only expenses never trigger the weekend tip. */
  lemma WeekendTipNeedsWeekend(expenses: seq<Expense>, weekday: string -> int)
    requires forall i :: 0 <= i < |expenses| ==> !IsWeekend(weekday(expenses[i].date))
    ensures WeekendTip(expenses, weekday) == []
  {
    NoWeekendNoWeekendTotal(expenses, weekday);
  }

  /** What the panel renders. */
  datatype PanelView = LoadingDots | NoInsightsYet | InsightCards(items: seq<Insight>)

  /** The loading view first; otherwise the empty view exactly when no rule fires. */
  function Panel(loading: bool, analytics: Option<Analytics>, expenses: seq<Expense>,
                 timeMs: string -> real, weekday: string -> int): (r: PanelView)
    ensures loading <==> r == LoadingDots
    ensures !loading ==> (r == NoInsightsYet <==> GenerateInsights(analytics, expenses, timeMs, weekday) == [])
    ensures r.InsightCards? ==> r.items == GenerateInsights(analytics, expenses, timeMs, weekday) && r.items != []
  {
    if loading then LoadingDots
    else
      var ins := GenerateInsights(analytics, expenses, timeMs, weekday);
      if |ins| == 0 then NoInsightsYet else InsightCards(ins)
  }
}
