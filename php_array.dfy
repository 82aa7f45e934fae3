/**
 * PHP arrays are ordered dictionaries: assigning to a new key appends it at the end,
 * assigning to an existing key replaces the value and keeps the key where it was.
 * `Assoc` models such an array as its key order plus a map.
 */
module PhpArray {

  /** No key occurs twice. */
  predicate Distinct<K(==)>(s: seq<K>) {
    forall i, j :: 0 <= i < j < |s| ==> s[i] != s[j]
  }

  datatype Assoc<K(==,!new), V> = Assoc(keys: seq<K>, values: map<K, V>) {

    /** The key order lists exactly the keys of the map, each once. */
    predicate Valid() {
      && Distinct(keys)
      && (forall k :: k in values ==> k in keys)
      && (forall k :: k in keys ==> k in values)
    }

    /** `$a[$k] = $v`. */
    function Put(k: K, v: V): (r: Assoc<K, V>)
      ensures Valid() ==> r.Valid()
      ensures r.values == values[k := v]
    {
      Assoc(if k in values then keys else keys + [k], values[k := v])
    }
  }

  /** The empty array `[]`. */
  function Empty<K(==,!new), V>(): (r: Assoc<K, V>)
    ensures r.Valid() && r.keys == [] && r.values == map[]
  {
    Assoc([], map[])
  }

  /**
   * The keys of `s` in the order of their first occurrence: the key order of a
   * PHP array into which the elements of `s` were assigned one after another.
   */
  function FirstSeen<K(==,!new)>(s: seq<K>): (r: seq<K>)
    ensures Distinct(r)
    ensures forall k :: k in r <==> k in s
  {
    if s == [] then []
    else
      var init, last := s[..|s| - 1], s[|s| - 1];
      var p := FirstSeen(init);
      assert forall k :: k in s <==> k in init || k == last;
      if last in init then p else p + [last]
  }

  /** Assigning the next element into an array built from `s` extends the key order accordingly. */
  lemma PutFirstSeen<K(!new), V>(a: Assoc<K, V>, s: seq<K>, k: K, v: V)
    requires a.keys == FirstSeen(s)
    requires forall x :: x in a.values <==> x in s
    ensures a.Put(k, v).keys == FirstSeen(s + [k])
  {
    assert (s + [k])[..|s|] == s;
  }
}
