/**
 * Insertion-ordered maps, as the build descriptor keeps them: a sequence of
 * entries whose keys are distinct. Adding a key that is already present
 * replaces its value in place; adding a new key appends it.
 */
module Keyed {
  import opened Wrappers

  datatype Entry<K, V> = Entry(key: K, value: V)

  /** The keys, in insertion order. */
  function Keys<K, V>(s: seq<Entry<K, V>>): seq<K> {
    if s == [] then [] else [s[0].key] + Keys(s[1..])
  }

  /** No key occurs twice: each entry's key is absent from the entries after it. */
  predicate UniqueKeys<K(==), V>(s: seq<Entry<K, V>>) {
    s == [] || (s[0].key !in Keys(s[1..]) && UniqueKeys(s[1..]))
  }

  predicate Has<K(==), V>(s: seq<Entry<K, V>>, k: K) {
    k in Keys(s)
  }

  /** The value stored under `k`: that of the first entry with key `k`. */
  function Find<K(==), V>(s: seq<Entry<K, V>>, k: K): (r: Option<V>)
    ensures r.Some? <==> k in Keys(s)
  {
    if s == [] then None
    else if s[0].key == k then Some(s[0].value)
    else Find(s[1..], k)
  }

  /** A value found under `k` is the value of an entry of `s` whose key is `k`. */
  lemma {:induction false} FindIsStored<K, V>(s: seq<Entry<K, V>>, k: K)
    requires k in Keys(s)
    ensures Entry(k, Find(s, k).value) in s
  {
    assert s != [];
    if s[0].key != k {
      assert Keys(s) == [s[0].key] + Keys(s[1..]);
      FindIsStored(s[1..], k);
      assert s == [s[0]] + s[1..];
    }
  }

  /** The value stored under `k`, or `default` when there is none (get-or-create). */
  function FindOr<K(==), V>(s: seq<Entry<K, V>>, k: K, default: V): V {
    Find(s, k).GetOr(default)
  }

  /** The number of entries whose key is `k`. */
  function Count<K(==), V>(s: seq<Entry<K, V>>, k: K): nat {
    if s == [] then 0 else (if s[0].key == k then 1 else 0) + Count(s[1..], k)
  }

  /**
   * Add-or-replace: `k` maps to `v` afterwards, every other key keeps its
   * value, and the key order only grows by `k` when `k` was new.
   */
  function Upsert<K(==,!new), V>(s: seq<Entry<K, V>>, k: K, v: V): (r: seq<Entry<K, V>>)
    ensures Find(r, k) == Some(v)
    ensures forall k' :: k' != k ==> Find(r, k') == Find(s, k')
    ensures Keys(r) == if k in Keys(s) then Keys(s) else Keys(s) + [k]
  {
    if s == [] then [Entry(k, v)]
    else if s[0].key == k then
      assert Keys([Entry(k, v)] + s[1..]) == [k] + Keys(s[1..]);
      [Entry(k, v)] + s[1..]
    else
      var rest := Upsert(s[1..], k, v);
      assert ([s[0]] + rest)[1..] == rest;
      assert Keys([s[0]] + rest) == [s[0].key] + Keys(rest);
      [s[0]] + rest
  }

  /** Adding a new key appends its entry at the end. */
  lemma {:induction false} UpsertNew<K(!new), V>(s: seq<Entry<K, V>>, k: K, v: V)
    requires k !in Keys(s)
    ensures Upsert(s, k, v) == s + [Entry(k, v)]
  {
    if s != [] {
      assert Keys(s) == [s[0].key] + Keys(s[1..]);
      assert Upsert(s, k, v) == [s[0]] + Upsert(s[1..], k, v);
      UpsertNew(s[1..], k, v);
      assert s == [s[0]] + s[1..];
      assert [s[0]] + (s[1..] + [Entry(k, v)]) == ([s[0]] + s[1..]) + [Entry(k, v)];
    }
  }

  /** The key list of a two-entry sequence, as the proofs about two new plugins use it. */
  lemma KeysOfPair<K, V>(a: Entry<K, V>, b: Entry<K, V>)
    ensures Keys([a, b]) == [a.key, b.key]
  {
    assert [a, b][1..] == [b];
    assert [b][1..] == [];
    assert Keys([b]) == [b.key] + Keys<K, V>([]);
    assert Keys([a, b]) == [a.key] + Keys([b]);
  }

  /** Add-or-replace never duplicates a key. */
  lemma {:induction false} UpsertKeepsUnique<K(!new), V>(s: seq<Entry<K, V>>, k: K, v: V)
    requires UniqueKeys(s)
    ensures UniqueKeys(Upsert(s, k, v))
  {
    if s != [] {
      var r := Upsert(s, k, v);
      if s[0].key == k {
        assert r[1..] == s[1..];
      } else {
        UpsertKeepsUnique(s[1..], k, v);
        assert r[1..] == Upsert(s[1..], k, v);
        assert Keys(s) == [s[0].key] + Keys(s[1..]);
      }
    }
  }

  /** With distinct keys, a key occurs exactly once when present and never otherwise. */
  lemma {:induction false} CountUnique<K, V>(s: seq<Entry<K, V>>, k: K)
    requires UniqueKeys(s)
    ensures Count(s, k) == if k in Keys(s) then 1 else 0
  {
    if s != [] {
      assert Keys(s) == [s[0].key] + Keys(s[1..]);
      CountUnique(s[1..], k);
    }
  }
}
