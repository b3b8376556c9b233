/** Python dictionaries: a key keeps the position of its first insertion. */
module Dictionaries {
  import StableSort

  datatype Dict<K(==, !new), V> = Dict(keys: seq<K>, vals: map<K, V>) {

    ghost predicate Valid() {
      StableSort.Distinct(keys) && forall k :: k in keys <==> k in vals
    }

    function Put(k: K, v: V): Dict<K, V> {
      Dict(if k in vals then keys else keys + [k], vals[k := v])
    }

    function Values(): (r: seq<V>)
      requires forall k | k in keys :: k in vals
      ensures |r| == |keys| && forall i | 0 <= i < |r| :: r[i] == vals[keys[i]]
    {
      seq(|keys|, i requires 0 <= i < |keys| => vals[keys[i]])
    }
  }

  lemma PutKeepsValid<K(!new), V>(d: Dict<K, V>, k: K, v: V)
    requires d.Valid()
    ensures d.Put(k, v).Valid() && d.Put(k, v).vals == d.vals[k := v]
  {
  }
}
