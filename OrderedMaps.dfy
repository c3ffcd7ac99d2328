/** The JavaScript `Map` the catalog is built on: keys remember the order of
    their first insertion, and a later `set` of a present key replaces its
    value in place. `values()` and `keys()` iterate in that order. */
module OrderedMaps {
  import opened Wrappers

  datatype OrderedMap<K, V> = OrderedMap(keys: seq<K>, entries: map<K, V>) {

    /** Keys are distinct and are exactly the domain of the entries. */
    ghost predicate Valid()
    {
      && (forall i, j :: 0 <= i < j < |keys| ==> keys[i] != keys[j])
      && (forall k :: k in entries ==> k in keys)
      && (forall i :: 0 <= i < |keys| ==> keys[i] in entries)
    }

    /** `map.set(k, v)`. */
    function Set(k: K, v: V): (r: OrderedMap<K, V>)
      requires Valid()
      ensures r.Valid()
      ensures r.entries == entries[k := v]
      ensures k in entries ==> r.keys == keys
      ensures k !in entries ==> r.keys == keys + [k]
    {
      if k in entries then OrderedMap(keys, entries[k := v])
      else OrderedMap(keys + [k], entries[k := v])
    }

    /** `map.get(k)`, `undefined` being `None`. */
    function Get(k: K): Option<V>
    {
      if k in entries then Some(entries[k]) else None
    }

    /** `map.values()`: one value per key, in key order. */
    function Values(): (r: seq<V>)
      requires Valid()
      ensures |r| == |keys|
      ensures forall i :: 0 <= i < |keys| ==> keys[i] in entries && r[i] == entries[keys[i]]
    {
      seq(|keys|, i requires 0 <= i < |keys| => entries[keys[i]])
    }
  }

  function Empty<K, V>(): (r: OrderedMap<K, V>)
    ensures r.Valid() && r.keys == [] && r.entries == map[]
  {
    OrderedMap([], map[])
  }

  /** `new Map(pairs)`: the pairs are `set` one after the other. */
  function FromEntries<K, V>(pairs: seq<(K, V)>): (r: OrderedMap<K, V>)
    ensures r.Valid()
  {
    if pairs == [] then Empty()
    else FromEntries(pairs[..|pairs| - 1]).Set(pairs[|pairs| - 1].0, pairs[|pairs| - 1].1)
  }

  /** A key is present exactly when some pair carries it, and its value is
      the one of the LAST such pair. */
  lemma FromEntriesLookup<K, V>(pairs: seq<(K, V)>, k: K)
    ensures k in FromEntries(pairs).entries <==> exists i :: 0 <= i < |pairs| && pairs[i].0 == k
    ensures k in FromEntries(pairs).entries ==>
      exists i :: 0 <= i < |pairs| && pairs[i].0 == k && FromEntries(pairs).entries[k] == pairs[i].1 &&
        forall j :: i < j < |pairs| ==> pairs[j].0 != k
  {
    FromEntriesDomain(pairs, k);
    if k in FromEntries(pairs).entries {
      FromEntriesLast(pairs, k);
    }
  }

  lemma {:induction false} FromEntriesDomain<K, V>(pairs: seq<(K, V)>, k: K)
    ensures k in FromEntries(pairs).entries <==> exists i :: 0 <= i < |pairs| && pairs[i].0 == k
  {
    if pairs != [] {
      var init := pairs[..|pairs| - 1];
      FromEntriesDomain(init, k);
      assert forall i :: 0 <= i < |init| ==> init[i] == pairs[i];
    }
  }

  lemma {:induction false} FromEntriesLast<K, V>(pairs: seq<(K, V)>, k: K)
    requires k in FromEntries(pairs).entries
    ensures exists i ::
      && 0 <= i < |pairs| && pairs[i].0 == k && FromEntries(pairs).entries[k] == pairs[i].1
      && forall j :: i < j < |pairs| ==> pairs[j].0 != k
  {
    var init := pairs[..|pairs| - 1];
    var last := pairs[|pairs| - 1];
    if last.0 != k {
      FromEntriesLast(init, k);
      var i :| 0 <= i < |init| && init[i].0 == k && FromEntries(init).entries[k] == init[i].1 &&
        forall j :: i < j < |init| ==> init[j].0 != k;
      assert pairs[i] == init[i];
      assert forall j :: i < j < |pairs| - 1 ==> pairs[j] == init[j];
    } else {
      assert pairs[|pairs| - 1].0 == k && FromEntries(pairs).entries[k] == pairs[|pairs| - 1].1;
    }
  }
}
