/**
 * Python dicts keep their keys in insertion order, and the configuration dictionaries
 * rely on that order (a rename dict's key order is the table's row order). A dict is
 * modelled as a sequence of (key, value) pairs with distinct keys.
 */
module Dicts {
  import opened Wrappers

  type Dict<K, V> = seq<(K, V)>

  function Keys<K, V>(d: Dict<K, V>): seq<K>
  {
    seq(|d|, i requires 0 <= i < |d| => d[i].0)
  }

  /** No key occurs twice. */
  predicate DistinctKeys<K(==), V>(d: Dict<K, V>)
  {
    forall i, j :: 0 <= i < j < |d| ==> d[i].0 != d[j].0
  }

  /** No element occurs twice. */
  predicate Distinct<T(==)>(s: seq<T>)
  {
    forall i, j :: 0 <= i < j < |s| ==> s[i] != s[j]
  }

  /** The values of a dict, in key order. */
  function DictValues<K, V>(d: Dict<K, V>): seq<V>
  {
    seq(|d|, i requires 0 <= i < |d| => d[i].1)
  }

  /** `dict(d)` as an unordered map: a later entry for the same key wins. */
  function ToMap<K(==), V>(d: Dict<K, V>): (m: map<K, V>)
    ensures m.Keys == set i | 0 <= i < |d| :: d[i].0
  {
    if d == [] then map[]
    else
      var m := ToMap(d[..|d| - 1]);
      assert forall i :: 0 <= i < |d| - 1 ==> d[..|d| - 1][i] == d[i];
      m[d[|d| - 1].0 := d[|d| - 1].1]
  }

  /** With distinct keys, the map sends every key to the value stored with it. */
  lemma {:induction false} ToMapAt<K, V>(d: Dict<K, V>, i: nat)
    requires DistinctKeys(d) && i < |d|
    ensures d[i].0 in ToMap(d) && ToMap(d)[d[i].0] == d[i].1
    decreases |d|
  {
    if i < |d| - 1 {
      var p := d[..|d| - 1];
      assert p[i] == d[i];
      ToMapAt(p, i);
    }
  }

  /** `d.get(k)`. */
  function Get<K(==), V>(d: Dict<K, V>, k: K): (r: Option<V>)
    ensures r.Some? <==> k in Keys(d)
  {
    if d == [] then None
    else
      assert Keys(d) == [d[0].0] + Keys(d[1..]);
      if d[0].0 == k then Some(d[0].1) else Get(d[1..], k)
  }

  /** `d[k] = v`: an existing key keeps its position and takes the new value,
      a new key goes to the end. */
  function Put<K(==), V>(d: Dict<K, V>, k: K, v: V): Dict<K, V>
  {
    if d == [] then [(k, v)]
    else if d[0].0 == k then [(k, v)] + d[1..]
    else [d[0]] + Put(d[1..], k, v)
  }

  /** `{**d, **e}` (equivalently `d.update(e)` on a copy): the entries of e put
      into d in e's order. */
  function Merge<K(==), V>(d: Dict<K, V>, e: Dict<K, V>): Dict<K, V>
    decreases |e|
  {
    if e == [] then d else Merge(Put(d, e[0].0, e[0].1), e[1..])
  }

  /** Putting a key: it then maps to the new value and every other key keeps its value. */
  lemma {:induction false} PutGet<K, V>(d: Dict<K, V>, k: K, v: V)
    ensures Get(Put(d, k, v), k) == Some(v)
    ensures forall k' :: k' != k ==> Get(Put(d, k, v), k') == Get(d, k')
    decreases |d|
  {
    if d != [] && d[0].0 != k {
      PutGet(d[1..], k, v);
      assert Put(d, k, v)[1..] == Put(d[1..], k, v);
    }
  }

  /** Putting a key that is absent appends the entry at the end. */
  lemma {:induction false} PutAbsent<K, V>(d: Dict<K, V>, k: K, v: V)
    requires k !in Keys(d)
    ensures Put(d, k, v) == d + [(k, v)]
    decreases |d|
  {
    if d != [] {
      assert Keys(d) == [d[0].0] + Keys(d[1..]);
      PutAbsent(d[1..], k, v);
      assert d == [d[0]] + d[1..];
    }
  }

  /** The keys of two dicts laid end to end. */
  lemma KeysConcat<K, V>(d: Dict<K, V>, e: Dict<K, V>)
    ensures Keys(d + e) == Keys(d) + Keys(e)
  {
  }

  /** Merging e into d when e's keys are distinct and none is in d lays the two end to
      end: d's entries in their order, then e's. */
  lemma {:induction false} MergeDisjoint<K, V>(d: Dict<K, V>, e: Dict<K, V>)
    requires DistinctKeys(e)
    requires forall i :: 0 <= i < |e| ==> e[i].0 !in Keys(d)
    ensures Merge(d, e) == d + e
    ensures Keys(Merge(d, e)) == Keys(d) + Keys(e)
    decreases |e|
  {
    if e != [] {
      PutAbsent(d, e[0].0, e[0].1);
      var d' := d + [e[0]];
      forall i | 0 <= i < |e[1..]| ensures e[1..][i].0 !in Keys(d') {
        assert Keys(d') == Keys(d) + [e[0].0];
        assert e[1..][i] == e[i + 1];
      }
      MergeDisjoint(d', e[1..]);
      assert d' + e[1..] == d + e;
    }
    KeysConcat(d, e);
  }

  /** Two dicts with distinct, disjoint keys laid end to end still have distinct keys. */
  lemma DistinctConcat<K, V>(d: Dict<K, V>, e: Dict<K, V>)
    requires DistinctKeys(d) && DistinctKeys(e)
    requires forall i :: 0 <= i < |e| ==> e[i].0 !in Keys(d)
    ensures DistinctKeys(d + e)
  {
    var de := d + e;
    forall i, j | 0 <= i < j < |de| ensures de[i].0 != de[j].0 {
      if i < |d| && j >= |d| {
        assert de[j] == e[j - |d|];
        assert Keys(d)[i] == de[i].0;
      }
    }
  }

  /** In a dict with distinct keys, the key at position i maps to the value there. */
  lemma {:induction false} GetAt<K, V>(d: Dict<K, V>, i: nat)
    requires DistinctKeys(d) && i < |d|
    ensures Get(d, d[i].0) == Some(d[i].1)
    decreases i
  {
    if i > 0 {
      assert d[1..][i - 1] == d[i];
      GetAt(d[1..], i - 1);
    }
  }

  /** After a merge of e with distinct keys, every key of e holds e's value and every
      other key keeps d's. */
  lemma {:induction false} MergeGet<K, V>(d: Dict<K, V>, e: Dict<K, V>, k: K)
    requires DistinctKeys(e)
    ensures Get(Merge(d, e), k) == if k in Keys(e) then Get(e, k) else Get(d, k)
    decreases |e|
  {
    if e != [] {
      PutGet(d, e[0].0, e[0].1);
      assert Keys(e) == [e[0].0] + Keys(e[1..]);
      MergeGet(Put(d, e[0].0, e[0].1), e[1..], k);
    }
  }
}
