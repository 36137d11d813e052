/** A JavaScript object used as a dictionary (`acc[key] = …`): its entries in the order
    the keys were first set. Integer-like keys, which JavaScript lists first, are not
    singled out. */
module Dict {
  import opened Js

  type Entries<V> = seq<(string, V)>

  predicate HasKey<V>(es: Entries<V>, k: string) {
    es != [] && (es[0].0 == k || HasKey(es[1..], k))
  }

  /** No key is listed twice. */
  predicate KeysDistinct<V>(es: Entries<V>) {
    es == [] || (!HasKey(es[1..], es[0].0) && KeysDistinct(es[1..]))
  }

  /** `acc[k]`: `None` for `undefined`. */
  function Find<V>(es: Entries<V>, k: string): (r: Option<V>)
    ensures r.Some? <==> HasKey(es, k)
  {
    if es == [] then None else if es[0].0 == k then Some(es[0].1) else Find(es[1..], k)
  }

  /** `acc[k] = v`: a present key keeps its place, a new one goes last. */
  function Put<V>(es: Entries<V>, k: string, v: V): (r: Entries<V>)
    ensures HasKey(r, k)
    ensures |r| == if HasKey(es, k) then |es| else |es| + 1
  {
    if es == [] then [(k, v)]
    else if es[0].0 == k then [(k, v)] + es[1..]
    else [es[0]] + Put(es[1..], k, v)
  }

  /** After setting `k`, reading `k` gives the new value and every other key reads as
      before. */
  lemma {:induction false} PutFind<V>(es: Entries<V>, k: string, v: V, x: string)
    ensures Find(Put(es, k, v), x) == if x == k then Some(v) else Find(es, x)
    ensures HasKey(Put(es, k, v), x) <==> x == k || HasKey(es, x)
  {
    if es != [] && es[0].0 != k {
      PutFind(es[1..], k, v, x);
    }
  }

  lemma {:induction false} PutDistinct<V>(es: Entries<V>, k: string, v: V)
    requires KeysDistinct(es)
    ensures KeysDistinct(Put(es, k, v))
  {
    if es != [] && es[0].0 != k {
      PutDistinct(es[1..], k, v);
      PutFind(es[1..], k, v, es[0].0);
    }
  }

  /** `Object.values(acc)` */
  function Values<V>(es: Entries<V>): (r: seq<V>)
    ensures |r| == |es| && forall i :: 0 <= i < |es| ==> r[i] == es[i].1
  {
    seq(|es|, i requires 0 <= i < |es| => es[i].1)
  }
}
