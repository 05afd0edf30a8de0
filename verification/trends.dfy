/**
 * `GET /api/analytics/spending-trends`: the last 30 days of expenses, grouped by
 * calendar day (`date(date)` in SQL) and summed in rupees.
 */
module Trends {

  import opened Base
  import opened Seqs
  import opened JsObject
  import opened Grouping
  import opened Currency

  /**
   * A row of `SELECT date(date) as day, amount, currency FROM expenses WHERE ...
   * ORDER BY day`: the window and the ordering are properties of the input.
   */
  datatype DayRow = DayRow(day: string, amount: real, currency: Option<string>)

  /** One element of the response. */
  datatype TrendPoint = TrendPoint(day: string, total: real)

  function Converted(row: DayRow): real
  {
    ToINR(row.amount, row.currency)
  }

  /** The rows as the loop sees them: filed under their day, in rupees. */
  function DayItems(rows: seq<DayRow>): (r: seq<Item>)
    ensures |r| == |rows|
    ensures forall i :: 0 <= i < |rows| ==> r[i] == Item(rows[i].day, Converted(rows[i]))
  {
    seq(|rows|, i requires 0 <= i < |rows| => Item(rows[i].day, Converted(rows[i])))
  }

  function DaysOf(rows: seq<DayRow>): (r: seq<string>)
    ensures |r| == |rows|
    ensures forall i :: 0 <= i < |rows| ==> r[i] == rows[i].day
  {
    seq(|rows|, i requires 0 <= i < |rows| => rows[i].day)
  }

  function Days(ps: seq<TrendPoint>): (r: seq<string>)
    ensures |r| == |ps|
    ensures forall i :: 0 <= i < |ps| ==> r[i] == ps[i].day
  {
    seq(|ps|, i requires 0 <= i < |ps| => ps[i].day)
  }

  function PointTotal(p: TrendPoint): real { p.total }

  /** `Object.entries(dayMap).map(([day, total]) => ({ day, total }))` */
  function Points(d: Dict<real>): (r: seq<TrendPoint>)
    requires Valid(d)
    ensures |r| == |d.keys|
    ensures forall i :: 0 <= i < |r| ==> r[i] == TrendPoint(d.keys[i], d.vals[d.keys[i]])
  {
    seq(|d.keys|, i requires 0 <= i < |d.keys| => TrendPoint(d.keys[i], d.vals[d.keys[i]]))
  }

  /** The handler's response. */
  function SpendingTrends(rows: seq<DayRow>): seq<TrendPoint>
  {
    Points(GroupSums(Empty(), DayItems(rows)))
  }

  /**
   * One point per distinct day of the input, in the order in which the days first
   * occur: no day twice, and no day without a row.
   */
  lemma SpendingTrendsDays(rows: seq<DayRow>)
    ensures Days(SpendingTrends(rows)) == Dedup(DaysOf(rows))
  {
    var e: Dict<real> := Empty();
    var items := DayItems(rows);
    GroupSumsKeys(e, items);
    assert KeysOf(items) == DaysOf(rows);
    assert e.keys + KeysOf(items) == KeysOf(items);
    var d := GroupSums(e, items);
    assert Days(Points(d)) == d.keys;
  }

  /** Each point holds the rupee sum of the rows of its day. */
  lemma SpendingTrendsTotals(rows: seq<DayRow>, i: nat)
    requires i < |SpendingTrends(rows)|
    ensures SpendingTrends(rows)[i].total == SumFor(DayItems(rows), SpendingTrends(rows)[i].day)
  {
    var e: Dict<real> := Empty();
    var d := GroupSums(e, DayItems(rows));
    GroupSumsValue(e, DayItems(rows), d.keys[i]);
  }

  /** The points add up to the rupee value of every input row. */
  lemma SpendingTrendsConserves(rows: seq<DayRow>)
    ensures SumBy(SpendingTrends(rows), PointTotal) == SumBy(rows, Converted)
  {
    var e: Dict<real> := Empty();
    var items := DayItems(rows);
    var d := GroupSums(e, items);
    GroupSumsTotal(e, items);
    SumByPointwise(SpendingTrends(rows), PointTotal, Values(d), Identity);
    assert Values(e) == [];
    TotalIsSum(items);
    SumByPointwise(items, AmountOf, rows, Converted);
  }

  /** Strict lexicographic order on strings: SQLite's default `BINARY` collation. */
  predicate LexLt(a: string, b: string)
  {
    if a == [] then b != []
    else if b == [] then false
    else a[0] < b[0] || (a[0] == b[0] && LexLt(a[1..], b[1..]))
  }

  predicate LexLe(a: string, b: string)
  {
    a == b || LexLt(a, b)
  }

  /** What `ORDER BY day` guarantees of the rows. */
  predicate OrderedByDay(rows: seq<DayRow>)
  {
    forall i, j :: 0 <= i < j < |rows| ==> LexLe(rows[i].day, rows[j].day)
  }

  /** Rows ordered by day give points in strictly ascending day order. */
  lemma SpendingTrendsAscending(rows: seq<DayRow>)
    requires OrderedByDay(rows)
    ensures forall i, j :: 0 <= i < j < |SpendingTrends(rows)| ==>
      LexLt(SpendingTrends(rows)[i].day, SpendingTrends(rows)[j].day)
  {
    var ps := SpendingTrends(rows);
    var ds := DaysOf(rows);
    SpendingTrendsDays(rows);
    DedupFirstOccurrenceOrder(ds);
    forall i, j | 0 <= i < j < |ps| ensures LexLt(ps[i].day, ps[j].day) {
      assert Days(ps)[i] == ps[i].day && Days(ps)[j] == ps[j].day;
      var a, b := FirstIndex(ds, ps[i].day), FirstIndex(ds, ps[j].day);
      assert a < b;
      assert LexLe(rows[a].day, rows[b].day);
    }
  }

  /** No rows, no points. */
  lemma SpendingTrendsEmpty()
    ensures SpendingTrends([]) == []
  {
    assert DayItems([]) == [];
  }

  const SameDayRows: seq<DayRow> := [DayRow("2024-03-01", 100.0, None), DayRow("2024-03-01", 2.0, Some("USD"))]

  lemma SameDayItems()
    ensures DayItems(SameDayRows) == [Item("2024-03-01", 100.0), Item("2024-03-01", 166.0)]
  {
    assert Converted(SameDayRows[1]) == 166.0;
  }

  /** Grouping two items of one key from `{}` gives that key with their sum. */
  lemma GroupTwoSameKey(k: string, a: real, b: real)
    ensures var d := GroupSums(Empty(), [Item(k, a), Item(k, b)]);
      d.keys == [k] && Get(d, k) == Some(a + b)
  {
    var e: Dict<real> := Empty();
    var items := [Item(k, a), Item(k, b)];
    assert DropLast(items) == [Item(k, a)];
    var one := DropLast(items);
    assert DropLast(one) == [];
    assert GroupSums(e, DropLast(one)) == e;
    var d1 := GroupSums(e, one);
    assert d1 == AddTo(e, Item(k, a));
    assert d1.keys == [k] && Get(d1, k) == Some(a);
  }

  /** Two rows on the same day, one in dollars, make a single point with their rupee sum. */
  lemma SameDayScenario()
    ensures SpendingTrends(SameDayRows) == [TrendPoint("2024-03-01", 266.0)]
  {
    SameDayItems();
    GroupTwoSameKey("2024-03-01", 100.0, 166.0);
  }
}
