/**
 * Ordered key/value lists: lookup by the first matching key (PHP's
 * `array_search` over an `array_column`) and the keyed upsert that PageRule,
 * Deployment and CachePurge use (replace in place if the key exists, else
 * append).
 */
module Keyed {
  import opened Php

  function Keys<K, V>(entries: seq<(K, V)>): (ks: seq<K>)
    ensures |ks| == |entries|
    ensures forall i :: 0 <= i < |entries| ==> ks[i] == entries[i].0
  {
    seq(|entries|, i requires 0 <= i < |entries| => entries[i].0)
  }

  /** No key occurs twice. */
  ghost predicate Unique<K>(ks: seq<K>) {
    forall i, j :: 0 <= i < j < |ks| ==> ks[i] != ks[j]
  }

  /** The position of the first occurrence of `k`, if any. */
  function FirstIndex<K(==)>(ks: seq<K>, k: K): (r: Option<nat>)
    ensures r.Some? ==> r.value < |ks| && ks[r.value] == k
    ensures r.Some? ==> forall j :: 0 <= j < r.value ==> ks[j] != k
    ensures r.None? <==> k !in ks
  {
    if ks == [] then None
    else if ks[0] == k then Some(0)
    else match FirstIndex(ks[1..], k)
      case None => None
      case Some(i) => Some(i + 1)
  }

  /** The value stored under the first occurrence of `k`, if any. */
  function Find<K(==), V>(entries: seq<(K, V)>, k: K): (r: Option<V>)
    ensures r.Some? <==> k in Keys(entries)
    ensures r.Some? ==> exists i :: 0 <= i < |entries| && entries[i] == (k, r.value)
  {
    match FirstIndex(Keys(entries), k)
    case None => None
    case Some(i) => Some(entries[i].1)
  }

  /** Replace the entry for `k` in place, or append `(k, v)` if there is none. */
  function Upsert<K(==), V>(entries: seq<(K, V)>, k: K, v: V): seq<(K, V)> {
    match FirstIndex(Keys(entries), k)
    case Some(i) => entries[i := (k, v)]
    case None => entries + [(k, v)]
  }

  /** The keys after an upsert: unchanged if `k` was present, else `k` appended. */
  lemma UpsertKeys<K, V>(entries: seq<(K, V)>, k: K, v: V)
    ensures Keys(Upsert(entries, k, v)) == if k in Keys(entries) then Keys(entries) else Keys(entries) + [k]
    ensures Unique(Keys(entries)) ==> Unique(Keys(Upsert(entries, k, v)))
  {
    var ks := Keys(entries);
    var r := Upsert(entries, k, v);
    if k in ks {
      var i := FirstIndex(ks, k).value;
      assert Keys(r) == ks by {
        forall j | 0 <= j < |r| ensures Keys(r)[j] == ks[j] {
          if j == i { } else { }
        }
      }
    } else {
      assert Keys(r) == ks + [k];
    }
  }

  /** After an upsert, `k` maps to `v` and every other entry is untouched. */
  lemma UpsertLookup<K, V>(entries: seq<(K, V)>, k: K, v: V)
    ensures Find(Upsert(entries, k, v), k) == Some(v)
    ensures forall i :: 0 <= i < |entries| && entries[i].0 != k ==> Upsert(entries, k, v)[i] == entries[i]
  {
    var r := Upsert(entries, k, v);
    UpsertKeys(entries, k, v);
    match FirstIndex(Keys(entries), k)
    case Some(i) =>
      assert Keys(r) == Keys(entries);
      assert r[i] == (k, v);
    case None =>
      var n := |entries|;
      assert r[n] == (k, v);
      FirstIndexIs(Keys(r), k, n);
  }

  /** With unique keys, every entry is what the lookup of its key finds. */
  lemma FindUnique<K, V>(entries: seq<(K, V)>, i: nat)
    requires Unique(Keys(entries)) && i < |entries|
    ensures Find(entries, entries[i].0) == Some(entries[i].1)
  {
    FirstIndexIs(Keys(entries), entries[i].0, i);
  }

  /** An upsert leaves the lookup of every other key as it was. */
  lemma UpsertFindOther<K, V>(entries: seq<(K, V)>, k: K, v: V, other: K)
    requires other != k
    ensures Find(Upsert(entries, k, v), other) == Find(entries, other)
  {
    var r := Upsert(entries, k, v);
    UpsertKeys(entries, k, v);
    UpsertLookup(entries, k, v);
    assert forall j :: 0 <= j < |entries| ==> Keys(r)[j] == Keys(entries)[j];
    match FirstIndex(Keys(entries), other)
    case Some(j) =>
      FirstIndexIs(Keys(r), other, j);
      assert r[j] == entries[j];
    case None =>
      assert other !in Keys(r);
  }

  /** Upserting the same key twice keeps only the second value, in the first one's place. */
  lemma UpsertTwice<K, V>(entries: seq<(K, V)>, k: K, v1: V, v2: V)
    ensures Upsert(Upsert(entries, k, v1), k, v2) == Upsert(entries, k, v2)
  {
    var once := Upsert(entries, k, v1);
    UpsertKeys(entries, k, v1);
    match FirstIndex(Keys(entries), k)
    case Some(i) =>
      assert Keys(once) == Keys(entries);
    case None =>
      var n := |entries|;
      assert once[n] == (k, v1);
      FirstIndexIs(Keys(once), k, n);
  }

  /** The search `array_search($k, array_column(...))` performs, as a loop. */
  method FindIndex<K(==), V>(entries: seq<(K, V)>, k: K) returns (r: Option<nat>)
    ensures r == FirstIndex(Keys(entries), k)
  {
    var i := 0;
    while i < |entries|
      invariant 0 <= i <= |entries|
      invariant forall j :: 0 <= j < i ==> entries[j].0 != k
    {
      if entries[i].0 == k {
        FirstIndexIs(Keys(entries), k, i);
        return Some(i);
      }
      i := i + 1;
    }
    assert k !in Keys(entries);
    return None;
  }

  lemma FirstIndexIs<K>(ks: seq<K>, k: K, i: nat)
    requires i < |ks| && ks[i] == k
    requires forall j :: 0 <= j < i ==> ks[j] != k
    ensures FirstIndex(ks, k) == Some(i)
  {
    var f := FirstIndex(ks, k);
    assert f.Some?;
  }
}
