/** Insertion-ordered dictionaries. */
module Dicts {
  /** A dictionary whose iteration order is the order of first insertion. */
  datatype Dict<K(==), V> = Dict(order: seq<K>, m: map<K, V>)

  function Without<K(==)>(order: seq<K>, k: K): seq<K> {
    if order == [] then []
    else if order[0] == k then Without(order[1..], k)
    else [order[0]] + Without(order[1..], k)
  }

  function Put<K, V>(d: Dict<K, V>, k: K, v: V): Dict<K, V> {
    Dict(if k in d.m then d.order else d.order + [k], d.m[k := v])
  }

  function Pop<K, V>(d: Dict<K, V>, k: K): Dict<K, V> {
    Dict(Without(d.order, k), d.m - {k})
  }

  /** The order lists every key. */
  ghost predicate Complete<K, V>(d: Dict<K, V>) {
    forall k :: k in d.m ==> k in d.order
  }

  lemma {:induction false} WithoutKeepsOthers<K>(order: seq<K>, k: K, x: K)
    requires x in order && x != k
    ensures x in Without(order, k)
  {
    if order[0] != x {
      WithoutKeepsOthers(order[1..], k, x);
    }
  }

  lemma PopIsComplete<K, V>(d: Dict<K, V>, k: K)
    requires Complete(d)
    ensures Complete(Pop(d, k))
  {
    forall x | x in Pop(d, k).m
      ensures x in Pop(d, k).order
    {
      WithoutKeepsOthers(d.order, k, x);
    }
  }
}
