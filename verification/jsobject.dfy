/**
 * A plain JavaScript object used as a dictionary with string keys.
 *
 * `Object.keys`, `Object.values` and `Object.entries` list the keys in the order in
 * which they were first inserted; overwriting a key keeps its place. (Keys that look
 * like array indices are listed first by a real engine; the model assumes no such key.)
 */
module JsObject {

  import opened Base
  import opened Seqs

  datatype Dict<V> = Dict(keys: seq<string>, vals: map<string, V>)

  /** Each key listed once, and the listed keys are exactly the stored ones. */
  ghost predicate Valid<V>(d: Dict<V>)
  {
    && NoDups(d.keys)
    && (forall k :: k in d.vals <==> k in d.keys)
  }

  /** `{}` */
  function Empty<V>(): (d: Dict<V>)
    ensures Valid(d) && d.keys == []
  {
    Dict([], map[])
  }

  /** `obj[k]`, with `undefined` as `None`. */
  function Get<V>(d: Dict<V>, k: string): Option<V>
  {
    if k in d.vals then Some(d.vals[k]) else None
  }

  /** `obj[k] = v`: a present key is overwritten in place, a new key goes last. */
  function Put<V>(d: Dict<V>, k: string, v: V): (r: Dict<V>)
    requires Valid(d)
    ensures Valid(r)
    ensures Get(r, k) == Some(v)
    ensures forall k' :: k' != k ==> Get(r, k') == Get(d, k')
    ensures r.keys == if k in d.vals then d.keys else d.keys + [k]
  {
    if k in d.vals then Dict(d.keys, d.vals[k := v]) else Dict(d.keys + [k], d.vals[k := v])
  }

  /** `Object.values(obj)` */
  function Values<V>(d: Dict<V>): (r: seq<V>)
    requires Valid(d)
    ensures |r| == |d.keys|
    ensures forall i :: 0 <= i < |r| ==> r[i] == d.vals[d.keys[i]]
  {
    seq(|d.keys|, i requires 0 <= i < |d.keys| => d.vals[d.keys[i]])
  }

  /** `Object.entries(obj)` */
  function Entries<V>(d: Dict<V>): (r: seq<(string, V)>)
    requires Valid(d)
    ensures |r| == |d.keys|
    ensures forall i :: 0 <= i < |r| ==> r[i] == (d.keys[i], d.vals[d.keys[i]])
  {
    seq(|d.keys|, i requires 0 <= i < |d.keys| => (d.keys[i], d.vals[d.keys[i]]))
  }

  /** Writing one key changes the sum over all values by the difference at that key. */
  lemma PutValuesSum<V>(d: Dict<V>, k: string, v: V, f: V -> real)
    requires Valid(d)
    ensures SumBy(Values(Put(d, k, v)), f)
         == SumBy(Values(d), f) - (if k in d.vals then f(d.vals[k]) else 0.0) + f(v)
  {
    var r := Put(d, k, v);
    if k in d.vals {
      var i := FirstIndex(d.keys, k);
      assert Values(r) == Values(d)[i := v] by {
        forall j | 0 <= j < |d.keys| ensures Values(r)[j] == Values(d)[i := v][j] {
          if j != i {
            assert d.keys[j] != k;
          }
        }
      }
      SumByUpdate(Values(d), i, v, f);
    } else {
      assert Values(r) == Values(d) + [v];
      SumByAppend(Values(d), [v], f);
    }
  }
}
