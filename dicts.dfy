/** Python dictionaries keep insertion order, and the modelled code depends
    on it (the verifier walks its CSV maps in order, the bandit's exploration
    rule picks the first unexplored arm). A dictionary is therefore an
    association list; `Put` is `d[k] = v`, which replaces in place or appends. */
module Dicts {
  import opened Wrappers

  type Dict<K, V> = seq<(K, V)>

  function Keys<K, V>(d: Dict<K, V>): (ks: seq<K>)
    ensures |ks| == |d| && forall i | 0 <= i < |d| :: ks[i] == d[i].0
  {
    seq(|d|, i requires 0 <= i < |d| => d[i].0)
  }

  predicate HasKey<K(==), V>(d: Dict<K, V>, k: K) {
    exists i | 0 <= i < |d| :: d[i].0 == k
  }

  /** The position of the first occurrence of `k`, or -1. */
  function IndexOf<K(==), V>(d: Dict<K, V>, k: K): (r: int)
    ensures -1 <= r < |d|
    ensures r == -1 <==> !HasKey(d, k)
    ensures r >= 0 ==> d[r].0 == k && forall j | 0 <= j < r :: d[j].0 != k
  {
    if d == [] then -1
    else if d[0].0 == k then 0
    else
      var r := IndexOf(d[1..], k);
      if r == -1 then -1 else r + 1
  }

  /** `d.get(k)`: the value stored under the first occurrence of `k`. */
  function Get<K(==), V>(d: Dict<K, V>, k: K): (r: Option<V>)
    ensures r.Some? <==> HasKey(d, k)
    ensures r.Some? ==> d[IndexOf(d, k)] == (k, r.value)
  {
    var i := IndexOf(d, k);
    if i == -1 then None else Some(d[i].1)
  }

  /** No key occurs twice, as in a real dictionary. */
  predicate DistinctKeys<K(==), V>(d: Dict<K, V>) {
    forall i, j | 0 <= i < j < |d| :: d[i].0 != d[j].0
  }

  /** `d[k] = v` */
  function Put<K(==), V>(d: Dict<K, V>, k: K, v: V): (r: Dict<K, V>)
    ensures Get(r, k) == Some(v)
    ensures HasKey(d, k) ==> Keys(r) == Keys(d)
    ensures !HasKey(d, k) ==> Keys(r) == Keys(d) + [k]
  {
    var i := IndexOf(d, k);
    if i == -1 then
      var r := d + [(k, v)];
      assert r[|d|].0 == k;
      r
    else
      var r := d[i := (k, v)];
      assert r[i].0 == k && HasKey(r, k);
      assert IndexOf(r, k) == i;
      r
  }

  lemma PutDistinct<K, V>(d: Dict<K, V>, k: K, v: V)
    requires DistinctKeys(d)
    ensures DistinctKeys(Put(d, k, v))
  {
    assert Keys(Put(d, k, v))[..|d|] == Keys(d);
  }

  /** `d[k] = v` leaves every other key's lookup alone. */
  lemma PutOther<K, V>(d: Dict<K, V>, k: K, v: V, k': K)
    requires k' != k
    ensures Get(Put(d, k, v), k') == Get(d, k')
  {
    var i := IndexOf(d, k);
    var r := Put(d, k, v);
    if i == -1 {
      assert r[..|d|] == d;
    }
  }

  /** Looking up in a dict with one more entry in front. */
  lemma GetCons<K, V>(x: (K, V), d: Dict<K, V>, k: K)
    ensures Get([x] + d, k) == if x.0 == k then Some(x.1) else Get(d, k)
  {
    assert ([x] + d)[1..] == d;
  }
}
