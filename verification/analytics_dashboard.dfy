/**
 * The analytics dashboard: the category colour table, the chart rows built from the
 * by-category response, the bar chart's positive rows, and the choice of view.
 */
module AnalyticsDashboard {

  import opened Base
  import opened Seqs
  import opened Sorting
  import opened Schemas
  import opened ByCategory
  import Trends
  import MonthlyInsights
  import UseApi

  /** The colour used for a category the table does not know. */
  const FallbackColor: string := "#6b7280"

  /** `Object.fromEntries(seeds.map(c => [c.name, c.color]))`: a later name overwrites an earlier one. */
  function ColorMapOf(seeds: seq<CategorySeed>): (r: map<string, string>)
    ensures forall k :: k in r <==> exists i :: 0 <= i < |seeds| && seeds[i].name == k
  {
    if seeds == [] then map[]
    else
      var pre := ColorMapOf(DropLast(seeds));
      assert forall i :: 0 <= i < |seeds| - 1 ==> DropLast(seeds)[i] == seeds[i];
      pre[Last(seeds).name := Last(seeds).color]
  }

  /** `CATEGORY_COLOR_MAP` */
  function CategoryColorMap(): map<string, string>
  {
    ColorMapOf(DefaultCategories)
  }

  /** With pairwise distinct names, every seed's name maps to that seed's own colour. */
  lemma {:induction false} ColorMapOfDistinct(seeds: seq<CategorySeed>, i: nat)
    requires i < |seeds|
    requires forall a, b :: 0 <= a < b < |seeds| ==> seeds[a].name != seeds[b].name
    ensures seeds[i].name in ColorMapOf(seeds)
    ensures ColorMapOf(seeds)[seeds[i].name] == seeds[i].color
  {
    if i < |seeds| - 1 {
      var pre := DropLast(seeds);
      assert pre[i] == seeds[i];
      ColorMapOfDistinct(pre, i);
    }
  }

  /** The default names are pairwise distinct. */
  lemma DefaultSeedsDistinct()
    ensures forall a, b :: 0 <= a < b < |DefaultCategories| ==>
      DefaultCategories[a].name != DefaultCategories[b].name
  {
    DefaultCategoriesShape();
    var names := DefaultNames();
    forall a, b | 0 <= a < b < |DefaultCategories|
      ensures DefaultCategories[a].name != DefaultCategories[b].name
    {
      assert names[a] == DefaultCategories[a].name && names[b] == DefaultCategories[b].name;
    }
  }

  /** With pairwise distinct names, the map sends each seed's name to that seed's colour. */
  lemma ColorMapOfAll(seeds: seq<CategorySeed>)
    requires forall a, b :: 0 <= a < b < |seeds| ==> seeds[a].name != seeds[b].name
    ensures forall i :: 0 <= i < |seeds| ==> ColorMapOf(seeds)[seeds[i].name] == seeds[i].color
  {
    forall i | 0 <= i < |seeds| ensures ColorMapOf(seeds)[seeds[i].name] == seeds[i].color {
      ColorMapOfDistinct(seeds, i);
    }
  }

  /** The map's keys are the seeds' names. */
  lemma ColorMapOfKeys(seeds: seq<CategorySeed>, names: seq<string>)
    requires |names| == |seeds|
    requires forall i :: 0 <= i < |seeds| ==> names[i] == seeds[i].name
    ensures forall k :: k in ColorMapOf(seeds) <==> k in names
  {
    forall k ensures k in ColorMapOf(seeds) <==> k in names {
      if k in names {
        var i :| 0 <= i < |names| && names[i] == k;
        assert seeds[i].name == k;
      }
    }
  }

  /** `CATEGORY_COLOR_MAP` holds exactly the nine default names, each with its own colour. */
  lemma CategoryColorMapDefaults()
    ensures forall k :: k in CategoryColorMap() <==> k in DefaultNames()
    ensures forall i :: 0 <= i < |DefaultCategories| ==>
      CategoryColorMap()[DefaultCategories[i].name] == DefaultCategories[i].color
  {
    DefaultSeedsDistinct();
    ColorMapOfAll(DefaultCategories);
    ColorMapOfKeys(DefaultCategories, DefaultNames());
  }

  /** `CATEGORY_COLOR_MAP[category] || '#6b7280'` */
  function ColorFor(category: string): (r: string)
    ensures category !in CategoryColorMap() ==> r == FallbackColor
    ensures category in CategoryColorMap() && CategoryColorMap()[category] != "" ==> r == CategoryColorMap()[category]
  {
    if category in CategoryColorMap() && CategoryColorMap()[category] != "" then CategoryColorMap()[category]
    else FallbackColor
  }

  /** A default category gets its own colour. */
  lemma ColorForDefault(i: nat)
    requires i < |DefaultCategories|
    ensures ColorFor(DefaultCategories[i].name) == DefaultCategories[i].color
  {
    CategoryColorMapDefaults();
    DefaultCategoriesShape();
  }

  /** Any other name is grey. */
  lemma ColorForOther(category: string)
    requires category !in DefaultNames()
    ensures ColorFor(category) == FallbackColor
  {
    CategoryColorMapDefaults();
  }

  /** One element of `categoryData`: the response's fields, plus `color` and `name`. */
  datatype ChartRow = ChartRow(name: string, total: real, count: nat, average: real, color: string)

  function ChartRowOf(t: CategoryTotal): ChartRow
  {
    ChartRow(t.category, t.total, t.count, t.average, ColorFor(t.category))
  }

  /** `categoryData = spendingByCategory.map(item => ({ ...item, color, name: item.category }))` */
  function CategoryData(items: seq<CategoryTotal>): (r: seq<ChartRow>)
    ensures |r| == |items|
    ensures forall i :: 0 <= i < |items| ==>
      && r[i].name == items[i].category
      && r[i].total == items[i].total
      && r[i].count == items[i].count
      && r[i].average == items[i].average
      && r[i].color == ColorFor(items[i].category)
  {
    seq(|items|, i requires 0 <= i < |items| => ChartRowOf(items[i]))
  }

  function ChartTotal(c: ChartRow): real { c.total }

  /** `categoryData.filter(cat => cat.total > 0)` */
  function Bars(data: seq<ChartRow>): (r: seq<ChartRow>)
    ensures |r| <= |data|
    ensures forall i :: 0 <= i < |r| ==> r[i].total > 0.0
  {
    if data == [] then []
    else (if data[0].total > 0.0 then [data[0]] else []) + Bars(data[1..])
  }

  /** A row is drawn exactly when it is in the data with a positive total. */
  lemma {:induction false} BarsMembers(data: seq<ChartRow>, c: ChartRow)
    ensures c in Bars(data) <==> c in data && c.total > 0.0
  {
    if data != [] {
      BarsMembers(data[1..], c);
      assert data == [data[0]] + data[1..];
    }
  }

  /** Filtering distributes over concatenation, so the bars keep the data's order. */
  lemma {:induction false} BarsAppend(a: seq<ChartRow>, b: seq<ChartRow>)
    ensures Bars(a + b) == Bars(a) + Bars(b)
  {
    if a == [] {
      assert a + b == b;
    } else {
      assert (a + b)[1..] == a[1..] + b;
      BarsAppend(a[1..], b);
    }
  }

  /** Rows without a positive total are never drawn. */
  lemma {:induction false} BarsOfNonPositive(data: seq<ChartRow>)
    requires forall i :: 0 <= i < |data| ==> data[i].total <= 0.0
    ensures Bars(data) == []
  {
    if data != [] {
      BarsOfNonPositive(data[1..]);
    }
  }

  /**
   * For data sorted by descending total the bars are a prefix of the data, so the
   * label of bar `i`, coloured from `categoryData[i]`, has the colour of bar `i` itself.
   */
  lemma {:induction false} BarsOfSortedArePrefix(data: seq<ChartRow>)
    requires SortedDesc(data, ChartTotal)
    ensures Bars(data) == data[..|Bars(data)|]
  {
    if data != [] {
      assert SortedDesc(data[1..], ChartTotal) by {
        forall i, j | 0 <= i < j < |data[1..]| ensures ChartTotal(data[1..][i]) >= ChartTotal(data[1..][j]) {
          assert data[1..][i] == data[i + 1] && data[1..][j] == data[j + 1];
        }
      }
      BarsOfSortedArePrefix(data[1..]);
      if data[0].total <= 0.0 {
        assert forall i :: 0 <= i < |data[1..]| ==> data[1..][i].total <= 0.0 by {
          forall i | 0 <= i < |data[1..]| ensures data[1..][i].total <= 0.0 {
            assert ChartTotal(data[0]) >= ChartTotal(data[i + 1]);
          }
        }
        BarsOfNonPositive(data[1..]);
      }
    }
  }

  /** The chart rows of the worker's response are sorted by descending total, as the response is. */
  lemma CategoryDataOfResponseSorted(rows: seq<SpendRow>)
    ensures SortedDesc(CategoryData(SpendingByCategory(rows)), ChartTotal)
  {
    var items := SpendingByCategory(rows);
    SpendingByCategoryOrder(rows, 0.0);
    var data := CategoryData(items);
    forall i, j | 0 <= i < j < |data| ensures ChartTotal(data[i]) >= ChartTotal(data[j]) {
      assert TotalOf(items[i]) >= TotalOf(items[j]);
    }
  }

  /** What the dashboard shows. */
  datatype View =
    | LoadingDots
    | NoData
    | Charts(categoryData: seq<ChartRow>, bars: seq<ChartRow>, trends: seq<Trends.TrendPoint>)

  /**
   * The loading view first; then "No data available" exactly when there are no
   * analytics; otherwise the charts, with a missing list read as empty.
   */
  function Dashboard(loading: bool, analytics: Option<UseApi.Analytics>): (r: View)
    ensures loading ==> r == LoadingDots
    ensures !loading ==> (r == NoData <==> analytics.None?)
    ensures r.Charts? ==>
      && r.categoryData == CategoryData(analytics.value.spendingByCategory.GetOr([]))
      && r.bars == Bars(r.categoryData)
      && r.trends == analytics.value.spendingTrends.GetOr([])
  {
    if loading then LoadingDots
    else if analytics.None? then NoData
    else
      var data := CategoryData(analytics.value.spendingByCategory.GetOr([]));
      Charts(data, Bars(data), analytics.value.spendingTrends.GetOr([]))
  }

  /**
   * After a fetch in which all three calls succeed the dashboard draws the fetched
   * lists; after a failed fetch it draws what it drew before the fetch began.
   */
  lemma DashboardAfterFetch(s: UseApi.Loaded<Option<UseApi.Analytics>>,
                            byCategory: UseApi.Response<seq<CategoryTotal>>,
                            trends: UseApi.Response<seq<Trends.TrendPoint>>,
                            insights: UseApi.Response<MonthlyInsights.Insights>)
    ensures var r := UseApi.FetchAnalytics(s, byCategory, trends, insights);
      && (byCategory.ok && trends.ok && insights.ok ==>
            Dashboard(r.loading, r.data) == Charts(CategoryData(byCategory.body), Bars(CategoryData(byCategory.body)), trends.body))
      && (!(byCategory.ok && trends.ok && insights.ok) ==> Dashboard(r.loading, r.data) == Dashboard(false, s.data))
  {
  }
}
