/**
 * Keyed sums: the loop shape `if (!m[k]) m[k] = 0; m[k] += amount` that the worker
 * uses for its daily trend, its current-month category totals and its 30-day daily
 * totals, together with the reference definitions its results are compared with.
 */
module Grouping {

  import opened Base
  import opened Seqs
  import opened JsObject

  /** One expense as a grouping loop reads it: the key it is filed under and its INR amount. */
  datatype Item = Item(key: string, amount: real)

  function KeysOf(items: seq<Item>): (r: seq<string>)
    ensures |r| == |items|
    ensures forall i :: 0 <= i < |items| ==> r[i] == items[i].key
  {
    seq(|items|, i requires 0 <= i < |items| => items[i].key)
  }

  lemma KeysOfDropLast(items: seq<Item>)
    requires |items| > 0
    ensures KeysOf(DropLast(items)) == DropLast(KeysOf(items))
    ensures Last(KeysOf(items)) == Last(items).key
  {
  }

  /** Reference definition: the sum of the amounts filed under `k`. */
  function SumFor(items: seq<Item>, k: string): real
  {
    if items == [] then 0.0
    else SumFor(DropLast(items), k) + (if Last(items).key == k then Last(items).amount else 0.0)
  }

  /** Reference definition: how many items are filed under `k`. */
  function CountFor(items: seq<Item>, k: string): nat
  {
    if items == [] then 0
    else CountFor(DropLast(items), k) + (if Last(items).key == k then 1 else 0)
  }

  /** Reference definition: the sum of all amounts. */
  function Total(items: seq<Item>): real
  {
    if items == [] then 0.0 else Total(DropLast(items)) + Last(items).amount
  }

  function AmountOf(it: Item): real { it.amount }

  /** The left-to-right total agrees with the plain sum of the amounts. */
  lemma {:induction false} TotalIsSum(items: seq<Item>)
    ensures Total(items) == SumBy(items, AmountOf)
  {
    if items != [] {
      TotalIsSum(DropLast(items));
      assert items == DropLast(items) + [Last(items)];
      SumByAppend(DropLast(items), [Last(items)], AmountOf);
    }
  }

  /** Items filed under a key that never occurs sum to zero and count zero. */
  lemma {:induction false} AbsentKey(items: seq<Item>, k: string)
    requires k !in KeysOf(items)
    ensures SumFor(items, k) == 0.0 && CountFor(items, k) == 0
  {
    if items != [] {
      assert KeysOf(DropLast(items)) == DropLast(KeysOf(items));
      AbsentKey(DropLast(items), k);
    }
  }

  /** `if (!m[k]) m[k] = 0; m[k] += amount` */
  function AddTo(d: Dict<real>, it: Item): (r: Dict<real>)
    requires Valid(d)
    ensures Valid(r)
  {
    Put(d, it.key, Get(d, it.key).GetOr(0.0) + it.amount)
  }

  /** The grouping loop run over `items`, left to right, starting from `init`. */
  function GroupSums(init: Dict<real>, items: seq<Item>): (r: Dict<real>)
    requires Valid(init)
    ensures Valid(r)
  {
    if items == [] then init else AddTo(GroupSums(init, DropLast(items)), Last(items))
  }

  /**
   * The keys of the result are those of `init` followed by the new keys in the order
   * in which they first occur.
   */
  lemma {:induction false} GroupSumsKeys(init: Dict<real>, items: seq<Item>)
    requires Valid(init)
    ensures GroupSums(init, items).keys == Dedup(init.keys + KeysOf(items))
  {
    if items == [] {
      assert init.keys + KeysOf(items) == init.keys;
      DedupOfNoDups(init.keys);
    } else {
      var pre, x := DropLast(items), Last(items);
      var all := init.keys + KeysOf(items);
      GroupSumsKeys(init, pre);
      KeysOfDropLast(items);
      LastOfAppend(init.keys, KeysOf(items));
      var d := GroupSums(init, pre);
      assert x.key in d.vals <==> x.key in Dedup(DropLast(all));
      assert GroupSums(init, items) == AddTo(d, x);
    }
  }

  /** Each key holds its starting value plus the sum of the amounts filed under it. */
  lemma {:induction false} GroupSumsValue(init: Dict<real>, items: seq<Item>, k: string)
    requires Valid(init)
    ensures Get(GroupSums(init, items), k).GetOr(0.0) == Get(init, k).GetOr(0.0) + SumFor(items, k)
  {
    if items != [] {
      GroupSumsValue(init, DropLast(items), k);
    }
  }

  /**
   * Grouping from `{}` lists every key once, in order of first occurrence, next to
   * the sum of its amounts.
   */
  lemma GroupedEntries(items: seq<Item>)
    ensures var es := Entries(GroupSums(Empty(), items));
      && |es| == |Dedup(KeysOf(items))|
      && forall i :: 0 <= i < |es| ==> es[i] == (Dedup(KeysOf(items))[i], SumFor(items, Dedup(KeysOf(items))[i]))
  {
    var e: Dict<real> := Empty();
    GroupSumsKeys(e, items);
    assert e.keys + KeysOf(items) == KeysOf(items);
    var d := GroupSums(e, items);
    forall i | 0 <= i < |d.keys| ensures d.vals[d.keys[i]] == SumFor(items, d.keys[i]) {
      GroupSumsValue(e, items, d.keys[i]);
    }
  }

  /** One step of the loop adds the item's amount to the sum of all values. */
  lemma AddToValuesSum(d: Dict<real>, x: Item)
    requires Valid(d)
    ensures SumBy(Values(AddTo(d, x)), Identity) == SumBy(Values(d), Identity) + x.amount
  {
    var prior := Get(d, x.key).GetOr(0.0);
    assert (if x.key in d.vals then Identity(d.vals[x.key]) else 0.0) == prior;
    PutValuesSum(d, x.key, prior + x.amount, Identity);
  }

  /** Grouping neither creates nor loses money: the values sum to the start plus the input. */
  lemma {:induction false} GroupSumsTotal(init: Dict<real>, items: seq<Item>)
    requires Valid(init)
    ensures SumBy(Values(GroupSums(init, items)), Identity)
         == SumBy(Values(init), Identity) + Total(items)
  {
    if items != [] {
      GroupSumsTotal(init, DropLast(items));
      AddToValuesSum(GroupSums(init, DropLast(items)), Last(items));
    }
  }
}
