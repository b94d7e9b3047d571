/**
 * `java.util.LinkedHashMap` as a value: the entries in insertion order.
 * An ordered map built by `Put` never holds the same key twice.
 */
module LinkedMaps {

  datatype Entry<V> = Entry(key: string, value: V)

  type OrderedMap<V> = seq<Entry<V>>

  /** `keySet()` in iteration order. */
  function Keys<V>(m: OrderedMap<V>): (ks: seq<string>)
    ensures |ks| == |m|
    ensures forall i :: 0 <= i < |m| ==> ks[i] == m[i].key
  {
    seq(|m|, i requires 0 <= i < |m| => m[i].key)
  }

  /** No key occurs in two entries. */
  predicate DistinctKeys<V>(m: OrderedMap<V>)
  {
    forall i, j :: 0 <= i < j < |m| ==> m[i].key != m[j].key
  }

  /**
   * `put(k, v)`: an existing key keeps its position and takes the new value;
   * a new key is appended at the end.
   */
  function Put<V>(m: OrderedMap<V>, k: string, v: V): (r: OrderedMap<V>)
    ensures k in Keys(m) ==> |r| == |m|
    ensures k !in Keys(m) ==> |r| == |m| + 1 && r[|m|] == Entry(k, v)
    ensures forall i :: 0 <= i < |m| && m[i].key != k ==> r[i] == m[i]
    ensures DistinctKeys(m) ==> forall i :: 0 <= i < |m| && m[i].key == k ==> r[i] == Entry(k, v)
    ensures DistinctKeys(m) ==> DistinctKeys(r)
  {
    if m == [] then [Entry(k, v)]
    else if m[0].key == k then [Entry(k, v)] + m[1..]
    else
      assert k in Keys(m) <==> k in Keys(m[1..]) by {
        assert forall i :: 0 <= i < |m[1..]| ==> Keys(m[1..])[i] == Keys(m)[i + 1];
      }
      [m[0]] + Put(m[1..], k, v)
  }

  /** After `put(k, v)` the key reads `v` and, being unique, occurs once. */
  lemma PutThenGet<V>(m: OrderedMap<V>, k: string, v: V)
    requires DistinctKeys(m)
    ensures exists i :: 0 <= i < |Put(m, k, v)| && Put(m, k, v)[i] == Entry(k, v)
    ensures forall i :: 0 <= i < |Put(m, k, v)| && Put(m, k, v)[i].key == k ==> Put(m, k, v)[i].value == v
  {
    var r := Put(m, k, v);
    if k in Keys(m) {
      var i :| 0 <= i < |m| && Keys(m)[i] == k;
      assert r[i] == Entry(k, v);
    } else {
      assert r[|m|] == Entry(k, v);
    }
  }
}
