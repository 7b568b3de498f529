/** Python's `dict`: a finite map that also remembers the order in which its
    keys were first inserted, which is the order `items()`, `keys()` and
    `values()` iterate in. */
module OrderedMaps {

  /** `keys` lists every key once, in first-insertion order; `entries` holds the values. */
  datatype OrderedMap<K(==), V> = OrderedMap(keys: seq<K>, entries: map<K, V>)
  {
    ghost predicate Valid()
    {
      && NoDuplicates(keys)
      && (forall k | k in entries :: k in keys)
      && (forall i | 0 <= i < |keys| :: keys[i] in entries)
    }

    /** `d.get(k, default)`. */
    function Get(k: K, default: V): V
    {
      if k in entries then entries[k] else default
    }

    /** `d[k] = v`: the value is replaced or added, every other key keeps its
        value, an existing key keeps its position and a new key goes last. */
    function Put(k: K, v: V): (r: OrderedMap<K, V>)
      requires Valid()
      ensures r.Valid()
      ensures r.entries == entries[k := v]
      ensures k in entries ==> r.keys == keys
      ensures k !in entries ==> r.keys == keys + [k]
    {
      OrderedMap(if k in entries then keys else keys + [k], entries[k := v])
    }

    /** `list(d.values())`: the values in key order. */
    function Values(): (vs: seq<V>)
      requires Valid()
      ensures |vs| == |keys|
      ensures forall i :: 0 <= i < |keys| ==> vs[i] == entries[keys[i]]
    {
      seq(|keys|, i requires 0 <= i < |keys| && Valid() => entries[keys[i]])
    }

    /** `list(d.items())`: the key-value pairs in key order. */
    function Items(): (items: seq<(K, V)>)
      requires Valid()
      ensures |items| == |keys|
      ensures forall i :: 0 <= i < |keys| ==> items[i] == (keys[i], entries[keys[i]])
    {
      seq(|keys|, i requires 0 <= i < |keys| && Valid() => (keys[i], entries[keys[i]]))
    }
  }

  ghost predicate NoDuplicates<T>(s: seq<T>)
  {
    forall i, j :: 0 <= i < j < |s| ==> s[i] != s[j]
  }

  /** `{}`. */
  function Empty<K(==), V>(): (d: OrderedMap<K, V>)
    ensures d.Valid() && d.keys == [] && d.entries == map[]
  {
    OrderedMap([], map[])
  }

  /** `len(d)`: the number of keys equals the length of the key order. */
  lemma {:induction false} SizeIsKeyCount<K, V>(d: OrderedMap<K, V>)
    requires d.Valid()
    ensures |d.entries| == |d.keys|
  {
    assert d.entries.Keys == set k | k in d.keys;
    DistinctElements(d.keys);
  }

  /** A second assignment to the same key overrides the first and leaves the key where the first put it. */
  lemma PutTwice<K, V>(d: OrderedMap<K, V>, k: K, first: V, second: V)
    requires d.Valid()
    ensures d.Put(k, first).Put(k, second) == d.Put(k, second)
  {
    assert d.entries[k := first][k := second] == d.entries[k := second];
  }

  /** A pair drawn from the items of `d` is a stored key with its value. */
  lemma ItemsAreEntries<K, V>(d: OrderedMap<K, V>, s: seq<(K, V)>)
    requires d.Valid()
    requires forall p :: p in s ==> p in d.Items()
    ensures forall i :: 0 <= i < |s| ==> s[i].0 in d.entries && d.entries[s[i].0] == s[i].1
  {
    var items := d.Items();
    forall i | 0 <= i < |s| ensures s[i].0 in d.entries && d.entries[s[i].0] == s[i].1 {
      assert s[i] in s;
      var j :| 0 <= j < |items| && items[j] == s[i];
    }
  }

  /** A sequence without repetitions has as many elements as its set of elements. */
  lemma {:induction false} DistinctElements<K>(s: seq<K>)
    requires NoDuplicates(s)
    ensures |set k | k in s| == |s|
  {
    if s != [] {
      var rest := s[1..];
      DistinctElements(rest);
      assert s[0] !in rest;
      assert (set k | k in s) == {s[0]} + (set k | k in rest);
    }
  }
}
