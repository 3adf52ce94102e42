/**
 * Python dictionaries as insertion-ordered association lists with distinct keys.
 * Assigning to a present key replaces its value in place; a new key goes to the end.
 */
module Dicts {
  import opened Wrappers

  ghost predicate DistinctKeys<K, V>(d: seq<(K, V)>) {
    forall i, j :: 0 <= i < j < |d| ==> d[i].0 != d[j].0
  }

  /** A dictionary; the operations below keep `DistinctKeys`, see `PutKeys`. */
  type Dict<K, V> = seq<(K, V)>

  /** The keys in insertion order, as `list(d.keys())`. */
  function Keys<K(==), V>(d: seq<(K, V)>): (ks: seq<K>)
    ensures |ks| == |d|
    ensures forall i :: 0 <= i < |d| ==> ks[i] == d[i].0
  {
    seq(|d|, i requires 0 <= i < |d| => d[i].0)
  }

  /** `d.get(k)`. */
  function Get<K(==), V>(d: seq<(K, V)>, k: K): Option<V>
    decreases |d|
  {
    if d == [] then None
    else if d[0].0 == k then Some(d[0].1)
    else Get(d[1..], k)
  }

  /** Looking up in a dictionary written out pair by pair. */
  lemma GetCons<K, V>(x: (K, V), d: seq<(K, V)>, k: K)
    ensures Get([x] + d, k) == if x.0 == k then Some(x.1) else Get(d, k)
  {
    assert ([x] + d)[1..] == d;
  }

  /** `d.get(k)` is `None` exactly when `k` is not a key. */
  lemma {:induction false} GetNone<K, V>(d: seq<(K, V)>, k: K)
    ensures Get(d, k).None? <==> k !in Keys(d)
    decreases |d|
  {
    if d != [] {
      KeysCons(d[0], d[1..]);
      assert d == [d[0]] + d[1..];
      GetNone(d[1..], k);
    }
  }

  /** A value `d.get` finds is stored in the dictionary next to its key. */
  lemma {:induction false} GetIn<K, V>(d: Dict<K, V>, k: K, v: V)
    requires Get(d, k) == Some(v)
    ensures (k, v) in d
    decreases |d|
  {
    if d[0].0 != k {
      GetIn(d[1..], k, v);
    }
  }

  /**
   * Two dictionaries holding the same pairs answer every lookup alike, whatever their
   * insertion order.
   */
  lemma GetSamePairs<K, V>(d: Dict<K, V>, e: Dict<K, V>, k: K)
    requires DistinctKeys(d) && DistinctKeys(e)
    requires forall x :: x in d <==> x in e
    ensures Get(d, k) == Get(e, k)
  {
    if Get(d, k).Some? {
      GetFoundIn(d, e, k);
    } else if Get(e, k).Some? {
      GetFoundIn(e, d, k);
    }
  }

  lemma GetFoundIn<K, V>(d: Dict<K, V>, e: Dict<K, V>, k: K)
    requires DistinctKeys(e) && Get(d, k).Some?
    requires forall x :: x in d ==> x in e
    ensures Get(e, k) == Get(d, k)
  {
    var v := Get(d, k).value;
    GetIn(d, k, v);
    var i :| 0 <= i < |e| && e[i] == (k, v);
    GetAt(e, i);
  }

  /** A stored pair is what `Get` finds for its key. */
  lemma {:induction false} GetAt<K, V>(d: Dict<K, V>, i: nat)
    requires DistinctKeys(d) && i < |d|
    ensures Get(d, d[i].0) == Some(d[i].1)
    decreases |d|
  {
    if i > 0 {
      assert d[1..][i - 1] == d[i];
      assert d[0].0 != d[i].0;
      ConsDistinctTail(d[0], d[1..]);
      assert d == [d[0]] + d[1..];
      GetAt(d[1..], i - 1);
    }
  }

  /** `d[k] = v`. */
  function Put<K(==), V>(d: Dict<K, V>, k: K, v: V): Dict<K, V>
    decreases |d|
  {
    if d == [] then [(k, v)]
    else if d[0].0 == k then [(k, v)] + d[1..]
    else [d[0]] + Put(d[1..], k, v)
  }

  /**
   * `d[k] = v` keeps the key order: a present key stays where it is, a new key goes last,
   * and the keys stay distinct.
   */
  lemma {:induction false} PutKeys<K, V>(d: Dict<K, V>, k: K, v: V)
    ensures Keys(Put(d, k, v)) == if k in Keys(d) then Keys(d) else Keys(d) + [k]
    ensures DistinctKeys(d) ==> DistinctKeys(Put(d, k, v))
    decreases |d|
  {
    if d != [] {
      var tail := d[1..];
      assert d == [d[0]] + tail;
      KeysCons(d[0], tail);
      ConsDistinct(d[0], tail);
      if d[0].0 == k {
        KeysCons((k, v), tail);
        ConsDistinct((k, v), tail);
      } else {
        var rest := Put(tail, k, v);
        PutKeys(tail, k, v);
        KeysCons(d[0], rest);
        ConsDistinct(d[0], rest);
      }
    }
  }

  lemma KeysCons<K, V>(x: (K, V), d: seq<(K, V)>)
    ensures Keys([x] + d) == [x.0] + Keys(d)
  {
  }

  /** A pair can go in front of a dictionary exactly when its key is new. */
  lemma ConsDistinct<K, V>(x: (K, V), d: seq<(K, V)>)
    ensures DistinctKeys([x] + d) <==> DistinctKeys(d) && x.0 !in Keys(d)
  {
    if DistinctKeys([x] + d) {
      ConsDistinctTail(x, d);
    }
    if DistinctKeys(d) && x.0 !in Keys(d) {
      ConsDistinctHead(x, d);
    }
  }

  lemma ConsDistinctTail<K, V>(x: (K, V), d: seq<(K, V)>)
    requires DistinctKeys([x] + d)
    ensures DistinctKeys(d) && x.0 !in Keys(d)
  {
    var r := [x] + d;
    forall i, j | 0 <= i < j < |d| ensures d[i].0 != d[j].0 {
      assert d[i] == r[i + 1] && d[j] == r[j + 1];
    }
    forall j | 0 <= j < |d| ensures Keys(d)[j] != x.0 {
      assert d[j] == r[j + 1];
      assert r[0].0 != r[j + 1].0;
    }
  }

  lemma ConsDistinctHead<K, V>(x: (K, V), d: seq<(K, V)>)
    requires DistinctKeys(d) && x.0 !in Keys(d)
    ensures DistinctKeys([x] + d)
  {
    var r := [x] + d;
    forall i, j | 0 <= i < j < |r| ensures r[i].0 != r[j].0 {
      assert r[j] == d[j - 1];
      if i > 0 {
        assert r[i] == d[i - 1];
      } else {
        assert Keys(d)[j - 1] == d[j - 1].0;
      }
    }
  }

  /** What `d[k] = v` does to lookups: `k` now maps to `v`, every other key is unchanged. */
  lemma {:induction false} GetPut<K, V>(d: Dict<K, V>, k: K, v: V, k': K)
    ensures Get(Put(d, k, v), k') == if k' == k then Some(v) else Get(d, k')
    decreases |d|
  {
    if d != [] && d[0].0 != k {
      GetPut(d[1..], k, v, k');
    }
  }

  /** Every pair of `d[k] = v` is `(k, v)` or a pair of `d`, and the dictionary grows by at most one. */
  lemma {:induction false} PutElements<K, V>(d: Dict<K, V>, k: K, v: V)
    ensures forall x :: x in Put(d, k, v) ==> x in d || x == (k, v)
    ensures (k, v) in Put(d, k, v)
    ensures |Put(d, k, v)| <= |d| + 1
    decreases |d|
  {
    if d != [] && d[0].0 != k {
      PutElements(d[1..], k, v);
      assert d == [d[0]] + d[1..];
    }
  }

  /** Assigning a new key appends the pair. */
  lemma {:induction false} PutNew<K, V>(d: Dict<K, V>, k: K, v: V)
    requires k !in Keys(d)
    ensures Put(d, k, v) == d + [(k, v)]
    decreases |d|
  {
    if d != [] {
      KeysCons(d[0], d[1..]);
      assert d == [d[0]] + d[1..];
      PutNew(d[1..], k, v);
    }
  }

  /** `d.update(e)` pair by pair, in `e`'s order. */
  function PutAll<K(==), V>(d: Dict<K, V>, e: Dict<K, V>): Dict<K, V>
    decreases |e|
  {
    if e == [] then d else PutAll(Put(d, e[0].0, e[0].1), e[1..])
  }

  /** Updating with one more pair is one more assignment. */
  lemma {:induction false} PutAllAppend<K, V>(d: Dict<K, V>, e: Dict<K, V>, x: (K, V))
    ensures PutAll(d, e + [x]) == Put(PutAll(d, e), x.0, x.1)
    decreases |e|
  {
    if e == [] {
      assert e + [x] == [x];
    } else {
      assert (e + [x])[0] == e[0] && (e + [x])[1..] == e[1..] + [x];
      PutAllAppend(Put(d, e[0].0, e[0].1), e[1..], x);
    }
  }

  /** After `d.update(e)` a key maps to its value in `e` when `e` has it, else to its value in `d`. */
  lemma {:induction false} GetPutAll<K, V>(d: Dict<K, V>, e: Dict<K, V>, k: K)
    requires DistinctKeys(e)
    ensures Get(PutAll(d, e), k) == if k in Keys(e) then Get(e, k) else Get(d, k)
    decreases |e|
  {
    if e != [] {
      var d' := Put(d, e[0].0, e[0].1);
      assert e == [e[0]] + e[1..];
      KeysCons(e[0], e[1..]);
      ConsDistinctTail(e[0], e[1..]);
      GetPutAll(d', e[1..], k);
      GetPut(d, e[0].0, e[0].1, k);
      GetNone(e[1..], k);
    }
  }
}
