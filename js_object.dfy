/** A JavaScript object used as a dictionary from string keys: `obj[k] = v`
    overwrites in place, and a new key goes after the existing ones. */
module JsObject {
  import opened Sorting
  import Text

  datatype Object<V> = Object(keys: seq<string>, entries: map<string, V>) {

    predicate Valid() {
      NoDups(keys) && entries.Keys == set k | k in keys
    }

    /** `obj[k] = v`. */
    function Put(k: string, v: V): (r: Object<V>)
      requires Valid()
      ensures r.Valid()
      ensures r.entries == entries[k := v]
      ensures k in entries ==> r.keys == keys
      ensures k !in entries ==> r.keys == keys + [k]
    {
      if k in entries then Object(keys, entries[k := v])
      else Object(keys + [k], entries[k := v])
    }
  }

  function Empty<V>(): (r: Object<V>)
    ensures r.Valid() && r.keys == [] && r.entries == map[]
  {
    Object([], map[])
  }

  /** The order `Object.keys(o).sort()` puts keys in: code-unit order. */
  predicate KeyLeq(a: string, b: string) {
    Text.LessEq(a, b)
  }

  lemma KeyLeqTotalPreorder()
    ensures TotalPreorder(KeyLeq)
  {
    forall a, b ensures KeyLeq(a, b) || KeyLeq(b, a) {
      Text.LessEqTotal(a, b);
    }
    forall a, b, c | KeyLeq(a, b) && KeyLeq(b, c) ensures KeyLeq(a, c) {
      Text.LessEqTransitive(a, b, c);
    }
  }

  /** The object's keys in ascending order, each exactly once. */
  function SortedKeys<V>(o: Object<V>): (ks: seq<string>)
    requires o.Valid()
    ensures |ks| == |o.keys|
    ensures SortedBy(ks, KeyLeq) && NoDups(ks)
    ensures forall i :: 0 <= i < |ks| ==> ks[i] in o.entries
    ensures forall k :: k in o.entries ==> k in ks
  {
    var ks := Sort(o.keys, KeyLeq);
    KeyLeqTotalPreorder();
    SortSorted(o.keys, KeyLeq);
    PermutationNoDups(o.keys, ks);
    assert |ks| == |multiset(ks)| == |multiset(o.keys)| == |o.keys|;
    assert forall i :: 0 <= i < |ks| ==> ks[i] in multiset(o.keys);
    assert forall k :: k in o.entries ==> k in multiset(o.keys);
    ks
  }
}
