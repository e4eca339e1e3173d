/**
 * Python's insertion-ordered `dict` with string keys, as the sequence of its
 * entries. Assigning to a present key replaces the value in place; assigning
 * to a new key appends an entry at the end.
 */
module OrderedDict {
  import opened Wrappers

  type Dict<V> = seq<(string, V)>

  function Keys<V>(d: Dict<V>): (ks: seq<string>)
    ensures |ks| == |d| && forall i :: 0 <= i < |d| ==> ks[i] == d[i].0
  {
    seq(|d|, i requires 0 <= i < |d| => d[i].0)
  }

  predicate DistinctKeys<V>(d: Dict<V>) {
    forall i, j :: 0 <= i < j < |d| ==> d[i].0 != d[j].0
  }

  /** The position of `k`, if it is a key: the first entry carrying it. */
  function Find<V>(d: Dict<V>, k: string): (r: Option<nat>)
    ensures r.None? <==> forall i :: 0 <= i < |d| ==> d[i].0 != k
    ensures r.Some? ==> r.value < |d| && d[r.value].0 == k && forall i :: 0 <= i < r.value ==> d[i].0 != k
  {
    if |d| == 0 then None
    else if d[0].0 == k then Some(0)
    else match Find(d[1..], k)
      case None => None
      case Some(i) => Some(i + 1)
  }

  /** `d.get(k)`. */
  function Get<V>(d: Dict<V>, k: string): Option<V> {
    match Find(d, k)
    case Some(i) => Some(d[i].1)
    case None => None
  }

  /** `d[k] = v`. */
  function Put<V>(d: Dict<V>, k: string, v: V): (r: Dict<V>)
    ensures Find(d, k).Some? ==> |r| == |d|
    ensures Find(d, k).None? ==> |r| == |d| + 1
  {
    match Find(d, k)
    case Some(i) => d[i := (k, v)]
    case None => d + [(k, v)]
  }

  /** Assigning each entry of `es` in turn. */
  function PutAll<V>(d: Dict<V>, es: seq<(string, V)>): Dict<V> {
    if |es| == 0 then d else
      var last := es[|es| - 1];
      Put(PutAll(d, es[..|es| - 1]), last.0, last.1)
  }

  /** After `d[k] = v`, looking `k` up gives `v`. */
  lemma PutGet<V>(d: Dict<V>, k: string, v: V)
    ensures Get(Put(d, k, v), k) == Some(v)
  {
    var r := Put(d, k, v);
    match Find(d, k)
    case Some(i) =>
      assert r[i].0 == k;
      assert Find(r, k) == Some(i);
    case None =>
      assert r[|d|].0 == k;
      assert Find(r, k) == Some(|d|);
  }

  /** `d[k] = v` leaves every other key's value as it was. */
  lemma PutOther<V>(d: Dict<V>, k: string, v: V, other: string)
    requires other != k
    ensures Get(Put(d, k, v), other) == Get(d, other)
  {
    var r := Put(d, k, v);
    match Find(d, other)
    case Some(i) =>
      assert r[i] == d[i];
      assert Find(r, other) == Some(i);
    case None =>
      assert Find(r, other).None?;
  }

  /** The key sequence grows by `k` at the end exactly when `k` is new; an
      existing key keeps its position. */
  lemma PutKeys<V>(d: Dict<V>, k: string, v: V)
    ensures Keys(Put(d, k, v)) == if k in Keys(d) then Keys(d) else Keys(d) + [k]
  {
    match Find(d, k)
    case Some(i) =>
      assert Keys(d)[i] == k;
    case None =>
      assert k !in Keys(d);
  }

  /** Assignment never creates a duplicate key. */
  lemma PutDistinct<V>(d: Dict<V>, k: string, v: V)
    requires DistinctKeys(d)
    ensures DistinctKeys(Put(d, k, v))
  {
  }

  /** Assigning entries whose keys are pairwise different into an empty dict
      yields exactly those entries, in order. */
  lemma {:induction false} PutAllFresh<V>(es: seq<(string, V)>)
    requires DistinctKeys(es)
    ensures PutAll([], es) == es
  {
    if |es| > 0 {
      var init := es[..|es| - 1];
      PutAllFresh(init);
      assert Find(init, es[|es| - 1].0).None?;
      assert init + [es[|es| - 1]] == es;
    }
  }

  /** Every value of `PutAll([], es)` is the value of some entry of `es` under
      the same key, so a property of all entries holds of the result. */
  lemma {:induction false} PutAllFrom<V>(es: seq<(string, V)>, i: nat)
    requires i < |PutAll([], es)|
    ensures PutAll([], es)[i] in es
  {
    var init := es[..|es| - 1];
    var last := es[|es| - 1];
    var prev := PutAll([], init);
    if Find(prev, last.0).Some? && Find(prev, last.0).value == i {
      assert PutAll([], es)[i] == last;
    } else if i < |prev| {
      assert PutAll([], es)[i] == prev[i];
      PutAllFrom(init, i);
    } else {
      assert PutAll([], es)[i] == last;
    }
  }

  /** A dict built by assignments never holds a key twice. */
  lemma {:induction false} PutAllDistinct<V>(d: Dict<V>, es: seq<(string, V)>)
    requires DistinctKeys(d)
    ensures DistinctKeys(PutAll(d, es))
  {
    if |es| > 0 {
      var last := es[|es| - 1];
      PutAllDistinct(d, es[..|es| - 1]);
      PutDistinct(PutAll(d, es[..|es| - 1]), last.0, last.1);
    }
  }

  /** Key collisions can only shrink the dict. */
  lemma {:induction false} PutAllSize<V>(es: seq<(string, V)>)
    ensures |PutAll([], es)| <= |es|
  {
    if |es| > 0 {
      PutAllSize(es[..|es| - 1]);
    }
  }
}
