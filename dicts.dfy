/** Python dictionaries with their insertion order: a sequence of (key, value) pairs. */
module Dicts {
  import opened Wrappers

  type Dict<V> = seq<(string, V)>

  function Keys<V>(d: Dict<V>): (ks: seq<string>)
    ensures |ks| == |d|
    ensures forall i :: 0 <= i < |d| ==> ks[i] == d[i].0
  {
    seq(|d|, i requires 0 <= i < |d| => d[i].0)
  }

  lemma KeysCons<V>(d: Dict<V>)
    requires d != []
    ensures Keys(d) == [d[0].0] + Keys(d[1..])
    ensures Keys(d)[1..] == Keys(d[1..])
  {
  }

  /** A dictionary literal or a dict built by assignment never repeats a key. */
  predicate UniqueKeys<V>(d: Dict<V>) {
    forall i, j :: 0 <= i < j < |d| ==> d[i].0 != d[j].0
  }

  /** `d.get(key)`: the value of the (first) entry with that key. */
  function Get<V>(d: Dict<V>, key: string): (r: Option<V>)
    ensures r.None? <==> key !in Keys(d)
    ensures r.Some? ==> exists i :: 0 <= i < |d| && d[i] == (key, r.value)
  {
    if d == [] then None
    else if d[0].0 == key then Some(d[0].1)
    else Get(d[1..], key)
  }

  /** Looking up in a dict with one more entry in front. */
  lemma GetCons<V>(x: (string, V), rest: Dict<V>, key: string)
    ensures Get([x] + rest, key) == if x.0 == key then Some(x.1) else Get(rest, key)
  {
    assert ([x] + rest)[1..] == rest;
  }

  /** The tail of a dict without repeated keys has none either, and lacks the first key. */
  lemma UniqueTail<V>(d: Dict<V>)
    requires UniqueKeys(d) && d != []
    ensures UniqueKeys(d[1..])
    ensures d[0].0 !in Keys(d[1..])
  {
    forall i, j | 0 <= i < j < |d[1..]| ensures d[1..][i].0 != d[1..][j].0 {
      assert d[1..][i] == d[i + 1] && d[1..][j] == d[j + 1];
    }
    forall j | 0 <= j < |d[1..]| ensures Keys(d[1..])[j] != d[0].0 {
      assert d[1..][j] == d[j + 1];
    }
  }

  /** In a dictionary without repeated keys, the i-th key looks up the i-th value. */
  lemma {:induction false} GetOfUnique<V>(d: Dict<V>, i: nat)
    requires UniqueKeys(d) && i < |d|
    ensures Get(d, d[i].0) == Some(d[i].1)
  {
    if i > 0 {
      UniqueTail(d);
      assert d[1..][i - 1] == d[i];
      GetOfUnique(d[1..], i - 1);
    }
  }

  /** A table whose key column is a list of distinct names has no repeated key. */
  lemma UniqueKeysOf<V>(d: Dict<V>, ks: seq<string>)
    requires Keys(d) == ks
    requires forall i, j :: 0 <= i < j < |ks| ==> ks[i] != ks[j]
    ensures UniqueKeys(d)
  {
    forall i, j | 0 <= i < j < |d| ensures d[i].0 != d[j].0 {
      assert d[i].0 == Keys(d)[i] && d[j].0 == Keys(d)[j];
    }
  }

  /** `d[key] = value`: an existing key keeps its position, a new key goes last. */
  function Put<V>(d: Dict<V>, key: string, value: V): (r: Dict<V>)
    ensures key in Keys(d) ==> Keys(r) == Keys(d)
    ensures key !in Keys(d) ==> Keys(r) == Keys(d) + [key]
  {
    if d == [] then [(key, value)]
    else if d[0].0 == key then [(key, value)] + d[1..]
    else [d[0]] + Put(d[1..], key, value)
  }

  /** `d.update(e)`: the entries of `e` put one by one, in `e`'s order. */
  function Update<V>(d: Dict<V>, e: Dict<V>): Dict<V>
    decreases |e|
  {
    if e == [] then d else Update(Put(d, e[0].0, e[0].1), e[1..])
  }

  lemma {:induction false} GetPut<V>(d: Dict<V>, key: string, value: V, other: string)
    ensures Get(Put(d, key, value), key) == Some(value)
    ensures other != key ==> Get(Put(d, key, value), other) == Get(d, other)
  {
    if d != [] && d[0].0 != key {
      GetPut(d[1..], key, value, other);
    }
  }

  lemma {:induction false} PutUnique<V>(d: Dict<V>, key: string, value: V)
    requires UniqueKeys(d)
    ensures UniqueKeys(Put(d, key, value))
  {
    var r := Put(d, key, value);
    assert Keys(r) == Keys(d) || Keys(r) == Keys(d) + [key];
    assert forall i, j :: 0 <= i < j < |r| ==> Keys(r)[i] != Keys(r)[j];
  }

  /** After `d.update(e)` a key of `e` has `e`'s value and any other key keeps `d`'s. */
  lemma {:induction false} GetUpdate<V>(d: Dict<V>, e: Dict<V>, key: string)
    requires UniqueKeys(e)
    ensures Get(Update(d, e), key) == if key in Keys(e) then Get(e, key) else Get(d, key)
    decreases |e|
  {
    if e != [] {
      GetUpdate(Put(d, e[0].0, e[0].1), e[1..], key);
      GetPut(d, e[0].0, e[0].1, key);
      KeysCons(e);
      if key == e[0].0 {
        assert key !in Keys(e[1..]);
      }
    }
  }

  /** The key order after `d.update(e)`: `d`'s keys first, then the new keys of `e` in `e`'s order. */
  lemma {:induction false} UpdateKeysPrefix<V>(d: Dict<V>, e: Dict<V>)
    ensures |Keys(Update(d, e))| >= |Keys(d)|
    ensures Keys(Update(d, e))[..|d|] == Keys(d)
    ensures forall k :: k in Keys(Update(d, e)) <==> k in Keys(d) || k in Keys(e)
    decreases |e|
  {
    if e != [] {
      var d' := Put(d, e[0].0, e[0].1);
      UpdateKeysPrefix(d', e[1..]);
      assert Keys(d')[..|d|] == Keys(d);
      KeysCons(e);
    }
  }

  lemma {:induction false} UpdateUnique<V>(d: Dict<V>, e: Dict<V>)
    requires UniqueKeys(d)
    ensures UniqueKeys(Update(d, e))
    decreases |e|
  {
    if e != [] {
      PutUnique(d, e[0].0, e[0].1);
      UpdateUnique(Put(d, e[0].0, e[0].1), e[1..]);
    }
  }
}
