/**
 * An insertion-ordered dictionary, as JavaScript's `Map` and plain objects
 * behave: writing an existing key replaces its value and keeps its
 * position, writing a new key appends it. The cart screen builds a `Map`
 * of stores and the item modal keeps its selections in an object; both use
 * this.
 */
module Assoc {
  import opened Wrappers

  datatype Entry<K, V> = Entry(key: K, value: V)

  function KeysOf<K, V>(m: seq<Entry<K, V>>): (r: seq<K>)
    ensures |r| == |m|
    ensures forall i :: 0 <= i < |m| ==> r[i] == m[i].key
  {
    if m == [] then [] else [m[0].key] + KeysOf(m[1..])
  }

  /** `[...map.values()]`. */
  function ValuesOf<K, V>(m: seq<Entry<K, V>>): (r: seq<V>)
    ensures |r| == |m|
    ensures forall i :: 0 <= i < |m| ==> r[i] == m[i].value
  {
    if m == [] then [] else [m[0].value] + ValuesOf(m[1..])
  }

  /** No key occurs twice. */
  predicate DistinctKeys<K(==), V>(m: seq<Entry<K, V>>) {
    forall i, j :: 0 <= i < j < |m| ==> m[i].key != m[j].key
  }

  /** `map.get(k)`: the value stored under `k`, if any. */
  function Get<K(==), V>(m: seq<Entry<K, V>>, k: K): (r: Option<V>)
    ensures r.Some? <==> k in KeysOf(m)
  {
    if m == [] then None
    else if m[0].key == k then Some(m[0].value)
    else Get(m[1..], k)
  }

  /** `map.set(k, v)` / `{...obj, [k]: v}`. */
  function Put<K(==), V>(m: seq<Entry<K, V>>, k: K, v: V): seq<Entry<K, V>> {
    if m == [] then [Entry(k, v)]
    else if m[0].key == k then [Entry(k, v)] + m[1..]
    else [m[0]] + Put(m[1..], k, v)
  }

  /** Writing keeps the key order, appending a key seen for the first time. */
  lemma {:induction false} PutKeys<K, V>(m: seq<Entry<K, V>>, k: K, v: V)
    ensures KeysOf(Put(m, k, v)) == if k in KeysOf(m) then KeysOf(m) else KeysOf(m) + [k]
  {
    if m != [] && m[0].key != k {
      PutKeys(m[1..], k, v);
      assert KeysOf(m) == [m[0].key] + KeysOf(m[1..]);
      assert KeysOf(Put(m, k, v)) == [m[0].key] + KeysOf(Put(m[1..], k, v));
    }
  }

  /** Reading after writing: the written key has the new value, no other key changes. */
  lemma {:induction false} PutGet<K, V>(m: seq<Entry<K, V>>, k: K, v: V, k': K)
    ensures Get(Put(m, k, v), k') == if k' == k then Some(v) else Get(m, k')
  {
    if m != [] && m[0].key != k {
      PutGet(m[1..], k, v, k');
    }
  }

  lemma PutDistinct<K, V>(m: seq<Entry<K, V>>, k: K, v: V)
    requires DistinctKeys(m)
    ensures DistinctKeys(Put(m, k, v))
  {
    PutKeys(m, k, v);
    var r := Put(m, k, v);
    forall i, j | 0 <= i < j < |r| ensures r[i].key != r[j].key {
      assert KeysOf(r)[i] == r[i].key && KeysOf(r)[j] == r[j].key;
      if j < |m| {
        assert KeysOf(m)[i] == m[i].key && KeysOf(m)[j] == m[j].key;
      }
    }
  }

  /** `new Map(pairs)`: the pairs written one after another, left to right. */
  function FromEntries<K(==), V>(pairs: seq<Entry<K, V>>): seq<Entry<K, V>> {
    if pairs == [] then []
    else
      var n := |pairs| - 1;
      Put(FromEntries(pairs[..n]), pairs[n].key, pairs[n].value)
  }

  /**
   * The map holds each key once, has a key for every pair and no key
   * that no pair carries, and so is never longer than the pair list.
   */
  lemma {:induction false} FromEntriesKeys<K, V>(pairs: seq<Entry<K, V>>)
    ensures DistinctKeys(FromEntries(pairs))
    ensures |FromEntries(pairs)| <= |pairs|
    ensures forall i :: 0 <= i < |pairs| ==> pairs[i].key in KeysOf(FromEntries(pairs))
    ensures forall k :: k in KeysOf(FromEntries(pairs)) ==> k in KeysOf(pairs)
  {
    FromEntriesDistinct(pairs);
    FromEntriesLength(pairs);
    FromEntriesCovers(pairs);
    FromEntriesOnlyPairKeys(pairs);
  }

  lemma {:induction false} FromEntriesDistinct<K, V>(pairs: seq<Entry<K, V>>)
    ensures DistinctKeys(FromEntries(pairs))
  {
    if pairs != [] {
      var n := |pairs| - 1;
      FromEntriesDistinct(pairs[..n]);
      PutDistinct(FromEntries(pairs[..n]), pairs[n].key, pairs[n].value);
    }
  }

  lemma {:induction false} FromEntriesLength<K, V>(pairs: seq<Entry<K, V>>)
    ensures |FromEntries(pairs)| <= |pairs|
  {
    if pairs != [] {
      var n := |pairs| - 1;
      var before := FromEntries(pairs[..n]);
      FromEntriesLength(pairs[..n]);
      PutKeys(before, pairs[n].key, pairs[n].value);
      assert |KeysOf(Put(before, pairs[n].key, pairs[n].value))| <= |KeysOf(before)| + 1;
    }
  }

  lemma FromEntriesCovers<K, V>(pairs: seq<Entry<K, V>>)
    ensures forall i :: 0 <= i < |pairs| ==> pairs[i].key in KeysOf(FromEntries(pairs))
  {
    FromEntriesKeysDedup(pairs);
    forall i | 0 <= i < |pairs| ensures pairs[i].key in KeysOf(FromEntries(pairs)) {
      assert KeysOf(pairs)[i] == pairs[i].key;
      DedupMembers(KeysOf(pairs), pairs[i].key);
    }
  }

  lemma FromEntriesOnlyPairKeys<K, V>(pairs: seq<Entry<K, V>>)
    ensures forall k :: k in KeysOf(FromEntries(pairs)) ==> k in KeysOf(pairs)
  {
    FromEntriesKeysDedup(pairs);
    forall k | k in KeysOf(FromEntries(pairs)) ensures k in KeysOf(pairs) {
      DedupMembers(KeysOf(pairs), k);
    }
  }

  /** The value kept for a key is the one written last. */
  lemma {:induction false} FromEntriesLastWins<K, V>(pairs: seq<Entry<K, V>>, i: nat)
    requires i < |pairs|
    requires forall j :: i < j < |pairs| ==> pairs[j].key != pairs[i].key
    ensures Get(FromEntries(pairs), pairs[i].key) == Some(pairs[i].value)
  {
    var n := |pairs| - 1;
    PutGet(FromEntries(pairs[..n]), pairs[n].key, pairs[n].value, pairs[i].key);
    if i < n {
      assert pairs[..n][i] == pairs[i];
      FromEntriesLastWins(pairs[..n], i);
    }
  }

  /** Position of the first occurrence of `x` in `ks`. */
  function FirstIndex<K(==)>(ks: seq<K>, x: K): (r: nat)
    requires x in ks
    ensures r < |ks| && ks[r] == x
    ensures forall j :: 0 <= j < r ==> ks[j] != x
  {
    if ks[0] == x then 0 else 1 + FirstIndex(ks[1..], x)
  }

  lemma FirstIndexAppend<K>(ks: seq<K>, y: K, x: K)
    requires x in ks + [y]
    ensures FirstIndex(ks + [y], x) == if x in ks then FirstIndex(ks, x) else |ks|
  {
    var r' := FirstIndex(ks + [y], x);
    if x in ks {
      var r := FirstIndex(ks, x);
      assert (ks + [y])[r] == x;
      assert r' < |ks| ==> ks[r'] == (ks + [y])[r'];
    }
  }

  /** The keys of `ks` without repetitions, each where it first occurs. */
  function Dedup<K(==)>(ks: seq<K>): seq<K> {
    if ks == [] then []
    else
      var d := Dedup(ks[..|ks| - 1]);
      if ks[|ks| - 1] in d then d else d + [ks[|ks| - 1]]
  }

  lemma {:induction false} FromEntriesKeysDedup<K, V>(pairs: seq<Entry<K, V>>)
    ensures KeysOf(FromEntries(pairs)) == Dedup(KeysOf(pairs))
  {
    if pairs != [] {
      var n := |pairs| - 1;
      FromEntriesKeysDedup(pairs[..n]);
      PutKeys(FromEntries(pairs[..n]), pairs[n].key, pairs[n].value);
      assert KeysOf(pairs)[..n] == KeysOf(pairs[..n]);
    }
  }

  lemma {:induction false} DedupMembers<K>(ks: seq<K>, x: K)
    ensures x in Dedup(ks) <==> x in ks
  {
    if ks != [] {
      DedupMembers(ks[..|ks| - 1], x);
      assert ks == ks[..|ks| - 1] + [ks[|ks| - 1]];
    }
  }

  lemma {:induction false} DedupFirstSeenOrder<K>(ks: seq<K>, a: nat, b: nat)
    requires a < b < |Dedup(ks)|
    ensures Dedup(ks)[a] in ks && Dedup(ks)[b] in ks
    ensures FirstIndex(ks, Dedup(ks)[a]) < FirstIndex(ks, Dedup(ks)[b])
  {
    var n := |ks| - 1;
    var pre := ks[..n];
    var d := Dedup(pre);
    assert ks == pre + [ks[n]];
    DedupMembers(pre, Dedup(ks)[a]);
    DedupMembers(pre, Dedup(ks)[b]);
    FirstIndexAppend(pre, ks[n], Dedup(ks)[a]);
    FirstIndexAppend(pre, ks[n], Dedup(ks)[b]);
    if b < |d| {
      DedupFirstSeenOrder(pre, a, b);
    }
  }

  /**
   * Keys keep the order in which they were first written: an entry that
   * comes earlier in the map has a key first seen earlier in the pairs.
   */
  lemma FromEntriesFirstSeenOrder<K, V>(pairs: seq<Entry<K, V>>, a: nat, b: nat)
    requires a < b < |FromEntries(pairs)|
    ensures FromEntries(pairs)[a].key in KeysOf(pairs) && FromEntries(pairs)[b].key in KeysOf(pairs)
    ensures FirstIndex(KeysOf(pairs), FromEntries(pairs)[a].key) <
            FirstIndex(KeysOf(pairs), FromEntries(pairs)[b].key)
  {
    FromEntriesKeysDedup(pairs);
    DedupFirstSeenOrder(KeysOf(pairs), a, b);
  }

  /** A map whose keys all come from `ks` has at most `|ks|` entries. */
  lemma {:induction false} DistinctKeysBound<K, V>(m: seq<Entry<K, V>>, ks: set<K>)
    requires DistinctKeys(m)
    requires forall a :: 0 <= a < |m| ==> m[a].key in ks
    ensures |m| <= |ks|
  {
    if m != [] {
      var rest := m[1..];
      forall a | 0 <= a < |rest| ensures rest[a].key in ks - {m[0].key} {
        assert rest[a] == m[a + 1];
      }
      DistinctKeysBound(rest, ks - {m[0].key});
    }
  }
}
