/**
 * `GET /api/analytics/spending-by-category`: the last 30 days of expenses, grouped
 * by category name in rupees, with every default category present even when empty,
 * sorted by total, largest first.
 */
module ByCategory {

  import opened Base
  import opened Seqs
  import opened Sorting
  import opened JsObject
  import opened Grouping
  import opened Currency
  import opened Schemas

  /**
   * A row of `SELECT category, amount, currency FROM expenses WHERE ... date >=
   * date('now', '-30 days')`: the query's window is the caller's responsibility.
   */
  datatype SpendRow = SpendRow(category: string, amount: real, currency: Option<string>)

  /** One element of the response. */
  datatype CategoryTotal = CategoryTotal(category: string, total: real, count: nat, average: real)

  /** The accumulator `{ total, count, amounts }` kept per category. */
  datatype Bucket = Bucket(total: real, count: nat, amounts: seq<real>)

  const EmptyBucket := Bucket(0.0, 0, [])

  function Converted(row: SpendRow): real
  {
    ToINR(row.amount, row.currency)
  }

  /** The rows as the loop sees them: filed under their category, in rupees. */
  function Items(rows: seq<SpendRow>): (r: seq<Item>)
    ensures |r| == |rows|
    ensures forall i :: 0 <= i < |rows| ==> r[i] == Item(rows[i].category, Converted(rows[i]))
  {
    seq(|rows|, i requires 0 <= i < |rows| => Item(rows[i].category, Converted(rows[i])))
  }

  /** `for (const cat of DEFAULT_CATEGORIES) categoryMap[cat.name] = { total: 0, count: 0, amounts: [] }` */
  function SeedBuckets(names: seq<string>): (r: Dict<Bucket>)
    ensures Valid(r)
  {
    if names == [] then Empty() else Put(SeedBuckets(DropLast(names)), Last(names), EmptyBucket)
  }

  lemma {:induction false} SeedBucketsShape(names: seq<string>)
    requires NoDups(names)
    ensures SeedBuckets(names).keys == names
    ensures forall k :: k in SeedBuckets(names).vals ==> SeedBuckets(names).vals[k] == EmptyBucket
  {
    if names != [] {
      var pre := DropLast(names);
      assert names == pre + [Last(names)];
      assert NoDups(pre) by {
        forall i, j | 0 <= i < j < |pre| ensures pre[i] != pre[j] {
          assert pre[i] == names[i] && pre[j] == names[j];
        }
      }
      SeedBucketsShape(pre);
      assert Last(names) !in pre by {
        forall i | 0 <= i < |pre| ensures pre[i] != Last(names) {
          assert pre[i] == names[i];
        }
      }
    }
  }

  /** One pass of the loop body: create the bucket if missing, then add the amount. */
  function AddToBucket(d: Dict<Bucket>, it: Item): (r: Dict<Bucket>)
    requires Valid(d)
    ensures Valid(r)
  {
    var b := Get(d, it.key).GetOr(EmptyBucket);
    Put(d, it.key, Bucket(b.total + it.amount, b.count + 1, b.amounts + [it.amount]))
  }

  function GroupBuckets(init: Dict<Bucket>, items: seq<Item>): (r: Dict<Bucket>)
    requires Valid(init)
    ensures Valid(r)
  {
    if items == [] then init else AddToBucket(GroupBuckets(init, DropLast(items)), Last(items))
  }

  lemma {:induction false} GroupBucketsKeys(init: Dict<Bucket>, items: seq<Item>)
    requires Valid(init)
    ensures GroupBuckets(init, items).keys == Dedup(init.keys + KeysOf(items))
  {
    if items == [] {
      assert init.keys + KeysOf(items) == init.keys;
      DedupOfNoDups(init.keys);
    } else {
      var pre, x := DropLast(items), Last(items);
      var all := init.keys + KeysOf(items);
      GroupBucketsKeys(init, pre);
      KeysOfDropLast(items);
      LastOfAppend(init.keys, KeysOf(items));
      var d := GroupBuckets(init, pre);
      assert x.key in d.vals <==> x.key in Dedup(DropLast(all));
      assert GroupBuckets(init, items) == AddToBucket(d, x);
    }
  }

  lemma {:induction false} GroupBucketsValue(init: Dict<Bucket>, items: seq<Item>, k: string)
    requires Valid(init)
    ensures var b0, b := Get(init, k).GetOr(EmptyBucket), Get(GroupBuckets(init, items), k).GetOr(EmptyBucket);
      && b.total == b0.total + SumFor(items, k)
      && b.count == b0.count + CountFor(items, k)
      && |b.amounts| == |b0.amounts| + CountFor(items, k)
  {
    if items != [] {
      GroupBucketsValue(init, DropLast(items), k);
    }
  }

  function BucketTotal(b: Bucket): real { b.total }

  lemma AddToBucketTotal(d: Dict<Bucket>, it: Item)
    requires Valid(d)
    ensures SumBy(Values(AddToBucket(d, it)), BucketTotal) == SumBy(Values(d), BucketTotal) + it.amount
  {
    var b := Get(d, it.key).GetOr(EmptyBucket);
    var nb := Bucket(b.total + it.amount, b.count + 1, b.amounts + [it.amount]);
    assert AddToBucket(d, it) == Put(d, it.key, nb);
    assert (if it.key in d.vals then BucketTotal(d.vals[it.key]) else 0.0) == b.total;
    PutValuesSum(d, it.key, nb, BucketTotal);
  }

  lemma {:induction false} GroupBucketsTotal(init: Dict<Bucket>, items: seq<Item>)
    requires Valid(init)
    ensures SumBy(Values(GroupBuckets(init, items)), BucketTotal)
         == SumBy(Values(init), BucketTotal) + Total(items)
  {
    if items != [] {
      GroupBucketsTotal(init, DropLast(items));
      AddToBucketTotal(GroupBuckets(init, DropLast(items)), Last(items));
    }
  }

  /** `average: amounts.length ? total / amounts.length : 0` */
  function ToCategoryTotal(name: string, b: Bucket): CategoryTotal
  {
    CategoryTotal(name, b.total, b.count,
                  if |b.amounts| > 0 then b.total / (|b.amounts| as real) else 0.0)
  }

  /** `Object.entries(categoryMap).map(...)`, before sorting. */
  function CategoryTotals(d: Dict<Bucket>): (r: seq<CategoryTotal>)
    requires Valid(d)
    ensures |r| == |d.keys|
    ensures forall i :: 0 <= i < |r| ==> r[i] == ToCategoryTotal(d.keys[i], d.vals[d.keys[i]])
  {
    seq(|d.keys|, i requires 0 <= i < |d.keys| => ToCategoryTotal(d.keys[i], d.vals[d.keys[i]]))
  }

  function TotalOf(t: CategoryTotal): real { t.total }

  function NameOf(t: CategoryTotal): string { t.category }

  function Names(ts: seq<CategoryTotal>): (r: seq<string>)
    ensures |r| == |ts|
    ensures forall i :: 0 <= i < |ts| ==> r[i] == ts[i].category
  {
    seq(|ts|, i requires 0 <= i < |ts| => ts[i].category)
  }

  /** The buckets in creation order, the map having been seeded with `names`. */
  function UnsortedFrom(names: seq<string>, rows: seq<SpendRow>): seq<CategoryTotal>
  {
    CategoryTotals(GroupBuckets(SeedBuckets(names), Items(rows)))
  }

  /** Creation order: the seeded names in order, then each new name once, as first seen. */
  lemma {:induction false} UnsortedFromOrder(names: seq<string>, rows: seq<SpendRow>)
    requires NoDups(names)
    ensures Names(UnsortedFrom(names, rows)) == Dedup(names + KeysOf(Items(rows)))
    ensures |UnsortedFrom(names, rows)| >= |names|
    ensures Names(UnsortedFrom(names, rows))[..|names|] == names
  {
    SeedBucketsShape(names);
    GroupBucketsKeys(SeedBuckets(names), Items(rows));
    DedupKeepsPrefix(names, KeysOf(Items(rows)));
  }

  /** Every bucket holds the reference count, total and average of its name. */
  lemma {:induction false} UnsortedFromBuckets(names: seq<string>, rows: seq<SpendRow>, t: CategoryTotal)
    requires NoDups(names)
    requires t in UnsortedFrom(names, rows)
    ensures t.count == CountFor(Items(rows), t.category)
    ensures t.total == SumFor(Items(rows), t.category)
    ensures t.average == (if t.count > 0 then t.total / (t.count as real) else 0.0)
  {
    var seed := SeedBuckets(names);
    SeedBucketsShape(names);
    var d := GroupBuckets(seed, Items(rows));
    var i :| 0 <= i < |d.keys| && UnsortedFrom(names, rows)[i] == t;
    GroupBucketsValue(seed, Items(rows), d.keys[i]);
  }

  /** The bucket totals before sorting add up to the rupee value of the input. */
  lemma UnsortedFromIsValues(names: seq<string>, rows: seq<SpendRow>)
    ensures SumBy(UnsortedFrom(names, rows), TotalOf)
         == SumBy(Values(GroupBuckets(SeedBuckets(names), Items(rows))), BucketTotal)
  {
    var u := UnsortedFrom(names, rows);
    var vs := Values(GroupBuckets(SeedBuckets(names), Items(rows)));
    assert forall i :: 0 <= i < |u| ==> TotalOf(u[i]) == BucketTotal(vs[i]);
    SumByPointwise(u, TotalOf, vs, BucketTotal);
  }

  lemma {:induction false} BucketTotalsZero(vs: seq<Bucket>)
    requires forall i :: 0 <= i < |vs| ==> vs[i] == EmptyBucket
    ensures SumBy(vs, BucketTotal) == 0.0
  {
    if vs != [] {
      BucketTotalsZero(vs[1..]);
    }
  }

  lemma SeedBucketsTotal(names: seq<string>)
    requires NoDups(names)
    ensures SumBy(Values(SeedBuckets(names)), BucketTotal) == 0.0
  {
    var d := SeedBuckets(names);
    SeedBucketsShape(names);
    var vs := Values(d);
    forall i | 0 <= i < |vs| ensures vs[i] == EmptyBucket {
      assert d.keys[i] in d.vals;
    }
    BucketTotalsZero(vs);
  }

  /** The total of the items is the rupee value of the rows. */
  lemma ItemsTotal(rows: seq<SpendRow>)
    ensures Total(Items(rows)) == SumBy(rows, Converted)
  {
    var items := Items(rows);
    TotalIsSum(items);
    assert forall i :: 0 <= i < |items| ==> AmountOf(items[i]) == Converted(rows[i]);
    SumByPointwise(items, AmountOf, rows, Converted);
  }

  lemma UnsortedFromTotal(names: seq<string>, rows: seq<SpendRow>)
    requires NoDups(names)
    ensures SumBy(UnsortedFrom(names, rows), TotalOf) == SumBy(rows, Converted)
  {
    UnsortedFromIsValues(names, rows);
    GroupBucketsTotal(SeedBuckets(names), Items(rows));
    SeedBucketsTotal(names);
    ItemsTotal(rows);
  }

  /** The buckets in creation order: defaults first, then new names as first seen. */
  function Unsorted(rows: seq<SpendRow>): seq<CategoryTotal>
  {
    UnsortedFrom(DefaultNames(), rows)
  }

  /** The handler's response: the buckets sorted by `(a, b) => b.total - a.total`. */
  function SpendingByCategory(rows: seq<SpendRow>): seq<CategoryTotal>
  {
    SortDesc(Unsorted(rows), TotalOf)
  }

  /** Creation order of the buckets: the defaults in list order, then each new name once. */
  lemma UnsortedOrder(rows: seq<SpendRow>)
    ensures Names(Unsorted(rows)) == Dedup(DefaultNames() + KeysOf(Items(rows)))
    ensures |Unsorted(rows)| >= 9 && Names(Unsorted(rows))[..9] == DefaultNames()
  {
    DefaultCategoriesShape();
    UnsortedFromOrder(DefaultNames(), rows);
  }

  /** Reordering the totals keeps the set of names. */
  lemma NamesPermuted(u: seq<CategoryTotal>, r: seq<CategoryTotal>)
    requires multiset(r) == multiset(u)
    ensures forall n :: n in Names(u) ==> n in Names(r)
    ensures forall n :: n in Names(r) ==> n in Names(u)
  {
    forall n | n in Names(u) ensures n in Names(r) {
      var i :| 0 <= i < |u| && Names(u)[i] == n;
      assert u[i] in multiset(r);
      var j :| 0 <= j < |r| && r[j] == u[i];
      assert Names(r)[j] == n;
    }
    forall n | n in Names(r) ensures n in Names(u) {
      var j :| 0 <= j < |r| && Names(r)[j] == n;
      assert r[j] in multiset(u);
      var i :| 0 <= i < |u| && u[i] == r[j];
      assert Names(u)[i] == n;
    }
  }

  lemma NamesDistinct(u: seq<CategoryTotal>)
    requires NoDups(Names(u))
    ensures DistinctBy(u, NameOf)
  {
    forall i, j | 0 <= i < j < |u| ensures NameOf(u[i]) != NameOf(u[j]) {
      assert Names(u)[i] == u[i].category && Names(u)[j] == u[j].category;
    }
  }

  /** Every seeded name and every input category gets a bucket. */
  lemma UnsortedFromCovers(names: seq<string>, rows: seq<SpendRow>)
    requires NoDups(names)
    ensures forall n :: n in names ==> n in Names(UnsortedFrom(names, rows))
    ensures forall i :: 0 <= i < |rows| ==> rows[i].category in Names(UnsortedFrom(names, rows))
  {
    var all := names + KeysOf(Items(rows));
    UnsortedFromOrder(names, rows);
    forall n | n in names ensures n in Names(UnsortedFrom(names, rows)) {
      var i :| 0 <= i < |names| && names[i] == n;
      assert all[i] == n;
    }
    forall i | 0 <= i < |rows| ensures rows[i].category in Names(UnsortedFrom(names, rows)) {
      assert all[|names| + i] == rows[i].category;
    }
  }

  /** A bucket exists only for a seeded name or a category of some input row. */
  lemma UnsortedFromOrigin(names: seq<string>, rows: seq<SpendRow>, n: string)
    requires NoDups(names)
    requires n in Names(UnsortedFrom(names, rows))
    ensures n in names || exists i :: 0 <= i < |rows| && rows[i].category == n
  {
    var all := names + KeysOf(Items(rows));
    UnsortedFromOrder(names, rows);
    var i :| 0 <= i < |UnsortedFrom(names, rows)| && Names(UnsortedFrom(names, rows))[i] == n;
    assert Dedup(all)[i] in all;
    var k :| 0 <= k < |all| && all[k] == n;
    if k >= |names| {
      assert rows[k - |names|].category == n;
    } else {
      assert names[k] == n;
    }
  }

  /** The sorted buckets of a map seeded with `names`: one per seeded or input name, no other. */
  lemma SortedFromBuckets(names: seq<string>, rows: seq<SpendRow>)
    requires NoDups(names)
    ensures var r := SortDesc(UnsortedFrom(names, rows), TotalOf);
      && DistinctBy(r, NameOf)
      && (forall n :: n in names ==> n in Names(r))
      && (forall i :: 0 <= i < |rows| ==> rows[i].category in Names(r))
      && (forall t :: t in r ==>
            t.category in names || exists i :: 0 <= i < |rows| && rows[i].category == t.category)
  {
    var u := UnsortedFrom(names, rows);
    var r := SortDesc(u, TotalOf);
    UnsortedFromOrder(names, rows);
    UnsortedFromCovers(names, rows);
    NamesPermuted(u, r);
    NamesDistinct(u);
    SortDescDistinctBy(u, TotalOf, NameOf);
    forall t | t in r
      ensures t.category in names || exists i :: 0 <= i < |rows| && rows[i].category == t.category
    {
      var j :| 0 <= j < |r| && r[j] == t;
      assert Names(r)[j] == t.category;
      UnsortedFromOrigin(names, rows, t.category);
    }
  }

  /**
   * Every default name and every category of the input has exactly one bucket, and
   * no other name has one.
   */
  lemma SpendingByCategoryBuckets(rows: seq<SpendRow>)
    ensures var r := SpendingByCategory(rows);
      && DistinctBy(r, NameOf)
      && (forall n :: n in DefaultNames() ==> n in Names(r))
      && (forall i :: 0 <= i < |rows| ==> rows[i].category in Names(r))
      && (forall t :: t in r ==>
            t.category in DefaultNames() || exists i :: 0 <= i < |rows| && rows[i].category == t.category)
  {
    DefaultCategoriesShape();
    SortedFromBuckets(DefaultNames(), rows);
  }

  /**
   * Each bucket counts the rows of its category, totals their rupee amounts, and
   * averages them (zero when the bucket is empty).
   */
  lemma SpendingByCategoryValues(rows: seq<SpendRow>, t: CategoryTotal)
    requires t in SpendingByCategory(rows)
    ensures t.count == CountFor(Items(rows), t.category)
    ensures t.total == SumFor(Items(rows), t.category)
    ensures t.average == (if t.count > 0 then t.total / (t.count as real) else 0.0)
  {
    DefaultCategoriesShape();
    assert t in multiset(SpendingByCategory(rows));
    UnsortedFromBuckets(DefaultNames(), rows, t);
  }

  /** The bucket totals add up to the rupee value of every input row. */
  lemma SpendingByCategoryConserves(rows: seq<SpendRow>)
    ensures SumBy(SpendingByCategory(rows), TotalOf) == SumBy(rows, Converted)
  {
    DefaultCategoriesShape();
    SortDescKeySum(Unsorted(rows), TotalOf);
    UnsortedFromTotal(DefaultNames(), rows);
  }

  /**
   * The response is ordered by total, largest first, and buckets with equal totals
   * keep their creation order (defaults in list order, then new names as first seen).
   */
  lemma SpendingByCategoryOrder(rows: seq<SpendRow>, v: real)
    ensures SortedDesc(SpendingByCategory(rows), TotalOf)
    ensures WithKey(SpendingByCategory(rows), TotalOf, v) == WithKey(Unsorted(rows), TotalOf, v)
  {
    SortDescStable(Unsorted(rows), TotalOf, v);
  }

  /** A bucket of the response that holds exactly one expense averages to its own total. */
  lemma SingleAverage(rows: seq<SpendRow>, t: CategoryTotal)
    requires t in SpendingByCategory(rows)
    requires CountFor(Items(rows), t.category) == 1
    ensures t.count == 1 && t.average == t.total
  {
    SpendingByCategoryValues(rows, t);
    AverageOfOne(t.count, t.total, t.average);
  }

  lemma AverageOfOne(count: int, total: real, average: real)
    requires count == 1 && average == (if count > 0 then total / (count as real) else 0.0)
    ensures average == total
  {
  }

  lemma OneDollarItems()
    ensures var items := Items([SpendRow("Food", 100.0, Some("USD"))]);
      SumFor(items, "Food") == 8300.0 && CountFor(items, "Food") == 1
  {
    var items := Items([SpendRow("Food", 100.0, Some("USD"))]);
    assert Converted(SpendRow("Food", 100.0, Some("USD"))) == 8300.0;
    assert DropLast(items) == [];
  }

  lemma OneDollarExpenseScenario()
    ensures CategoryTotal("Food", 8300.0, 1, 8300.0) in
      SpendingByCategory([SpendRow("Food", 100.0, Some("USD"))])
  {
    var rows := [SpendRow("Food", 100.0, Some("USD"))];
    var r := SpendingByCategory(rows);
    SpendingByCategoryBuckets(rows);
    assert rows[0].category in Names(r);
    var i :| 0 <= i < |Names(r)| && Names(r)[i] == "Food";
    var t := r[i];
    assert t in r && t.category == "Food";
    SpendingByCategoryValues(rows, t);
    OneDollarItems();
    SingleAverage(rows, t);
    assert t == CategoryTotal("Food", 8300.0, 1, 8300.0);
  }
}
