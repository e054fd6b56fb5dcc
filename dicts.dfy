/**
 * Python's insertion-ordered `dict`, modelled as a sequence of (key, value) pairs.
 * Assigning to a key that is already present keeps the key where it is and replaces
 * its value; assigning to a new key appends it at the end.
 */
module Dicts {
  import opened Wrappers

  type Dict<K, V> = seq<(K, V)>

  function Keys<K, V>(d: Dict<K, V>): (ks: seq<K>)
    ensures |ks| == |d|
    ensures forall i :: 0 <= i < |d| ==> ks[i] == d[i].0
  {
    if d == [] then [] else [d[0].0] + Keys(d[1..])
  }

  predicate Distinct<T(==)>(s: seq<T>) {
    forall i, j :: 0 <= i < j < |s| ==> s[i] != s[j]
  }

  /** Every Python dict has pairwise distinct keys. */
  predicate DistinctKeys<K(==), V>(d: Dict<K, V>) {
    Distinct(Keys(d))
  }

  /** `d.get(k)`: the value stored under `k`, if any. */
  function Get<K(==), V>(d: Dict<K, V>, k: K): (r: Option<V>)
    ensures r.Some? <==> k in Keys(d)
    ensures r.Some? ==> (k, r.value) in d
  {
    if d == [] then None
    else if d[0].0 == k then Some(d[0].1)
    else Get(d[1..], k)
  }

  /** `d.get(k, default)`. */
  function GetOr<K(==), V>(d: Dict<K, V>, k: K, default: V): V {
    match Get(d, k)
    case Some(v) => v
    case None => default
  }

  /** `d[k] = v`. */
  function Put<K(==), V>(d: Dict<K, V>, k: K, v: V): Dict<K, V> {
    if d == [] then [(k, v)]
    else if d[0].0 == k then [(k, v)] + d[1..]
    else [d[0]] + Put(d[1..], k, v)
  }

  /** `d[k].append(x)` on a `defaultdict(list)`: a missing key starts as `[]`. */
  function AppendTo<K(==), V>(d: Dict<K, seq<V>>, k: K, x: V): Dict<K, seq<V>> {
    Put(d, k, GetOr(d, k, []) + [x])
  }

  /** A dict display `{k1: v1, k2: v2, ...}`: the pairs are assigned left to right. */
  function FromPairs<K(==), V>(pairs: seq<(K, V)>): Dict<K, V> {
    if pairs == [] then []
    else Put(FromPairs(pairs[..|pairs| - 1]), pairs[|pairs| - 1].0, pairs[|pairs| - 1].1)
  }

  /** The sum of the lengths of all value lists. */
  function TotalLength<K, V>(d: Dict<K, seq<V>>): nat {
    if d == [] then 0 else |d[0].1| + TotalLength(d[1..])
  }

  /** Each element of `s` at its first occurrence, in order. */
  function FirstOccurrences<T(==)>(s: seq<T>): seq<T> {
    if s == [] then []
    else
      var prefix := FirstOccurrences(s[..|s| - 1]);
      if s[|s| - 1] in prefix then prefix else prefix + [s[|s| - 1]]
  }

  // ----- Lemmas about dict assignment -----

  lemma {:induction false} PutLookup<K, V>(d: Dict<K, V>, k: K, v: V, c: K)
    ensures Get(Put(d, k, v), c) == if c == k then Some(v) else Get(d, c)
  {
    if d != [] && d[0].0 != k {
      PutLookup(d[1..], k, v, c);
    }
  }

  lemma {:induction false} PutKeys<K, V>(d: Dict<K, V>, k: K, v: V)
    ensures Keys(Put(d, k, v)) == if k in Keys(d) then Keys(d) else Keys(d) + [k]
  {
    if d != [] && d[0].0 != k {
      PutKeys(d[1..], k, v);
      assert Keys(d) == [d[0].0] + Keys(d[1..]);
      assert Put(d, k, v) == [d[0]] + Put(d[1..], k, v);
    }
  }

  lemma PutKeepsDistinct<K, V>(d: Dict<K, V>, k: K, v: V)
    requires DistinctKeys(d)
    ensures DistinctKeys(Put(d, k, v))
  {
    PutKeys(d, k, v);
  }

  /** Assigning to a present key replaces its value in place and moves nothing. */
  lemma {:induction false} PutInPlace<K, V>(d: Dict<K, V>, k: K, v: V)
    requires DistinctKeys(d) && k in Keys(d)
    ensures |Put(d, k, v)| == |d|
    ensures forall i :: 0 <= i < |d| ==> Put(d, k, v)[i] == if d[i].0 == k then (k, v) else d[i]
  {
    if d[0].0 != k {
      assert Keys(d[1..]) == Keys(d)[1..];
      PutInPlace(d[1..], k, v);
    } else {
      forall i | 0 < i < |d| ensures d[i].0 != k {
        assert Keys(d)[0] != Keys(d)[i];
      }
    }
  }

  /** Assigning to a new key appends the pair at the end. */
  lemma {:induction false} PutNew<K, V>(d: Dict<K, V>, k: K, v: V)
    requires k !in Keys(d)
    ensures Put(d, k, v) == d + [(k, v)]
  {
    if d != [] {
      assert Keys(d) == [d[0].0] + Keys(d[1..]);
      PutNew(d[1..], k, v);
    }
  }

  lemma FromPairsSnoc<K, V>(pairs: seq<(K, V)>, p: (K, V))
    ensures FromPairs(pairs + [p]) == Put(FromPairs(pairs), p.0, p.1)
  {
    assert (pairs + [p])[..|pairs|] == pairs;
  }

  lemma KeysSnoc<K, V>(d: Dict<K, V>, p: (K, V))
    ensures Keys(d + [p]) == Keys(d) + [p.0]
  {
  }

  lemma {:induction false} GetSnoc<K, V>(d: Dict<K, V>, p: (K, V), c: K)
    ensures Get(d + [p], c) == if c in Keys(d) then Get(d, c) else if c == p.0 then Some(p.1) else None
  {
    if d != [] {
      assert (d + [p])[1..] == d[1..] + [p];
      assert Keys(d) == [d[0].0] + Keys(d[1..]);
      GetSnoc(d[1..], p, c);
    }
  }

  lemma DistinctKeysSnoc<K, V>(d: Dict<K, V>, p: (K, V))
    ensures DistinctKeys(d + [p]) <==> DistinctKeys(d) && p.0 !in Keys(d)
  {
    KeysSnoc(d, p);
    DistinctSnoc(Keys(d), p.0);
  }

  lemma DistinctSnoc<T>(s: seq<T>, x: T)
    ensures Distinct(s + [x]) <==> Distinct(s) && x !in s
  {
    if Distinct(s + [x]) {
      forall i | 0 <= i < |s| ensures s[i] != x {
        assert (s + [x])[i] != (s + [x])[|s|];
      }
      forall i, j | 0 <= i < j < |s| ensures s[i] != s[j] {
        assert (s + [x])[i] != (s + [x])[j];
      }
    }
  }

  /** With distinct keys, looking up the key of any pair finds that pair's value. */
  lemma {:induction false} GetAtIndex<K, V>(d: Dict<K, V>, i: nat)
    requires DistinctKeys(d) && i < |d|
    ensures Get(d, d[i].0) == Some(d[i].1)
  {
    if i > 0 {
      assert Keys(d)[0] != Keys(d)[i];
      assert Keys(d[1..]) == Keys(d)[1..];
      GetAtIndex(d[1..], i - 1);
    }
  }

  lemma {:induction false} TotalLengthSnoc<K, V>(d: Dict<K, seq<V>>, p: (K, seq<V>))
    ensures TotalLength(d + [p]) == TotalLength(d) + |p.1|
  {
    if d != [] {
      assert (d + [p])[1..] == d[1..] + [p];
      TotalLengthSnoc(d[1..], p);
    }
  }

  /** A `defaultdict(list)` append adds exactly one element overall. */
  lemma {:induction false} AppendToLength<K, V>(d: Dict<K, seq<V>>, k: K, x: V)
    ensures TotalLength(AppendTo(d, k, x)) == TotalLength(d) + 1
  {
    if d != [] && d[0].0 != k {
      AppendToLength(d[1..], k, x);
      assert AppendTo(d, k, x) == [d[0]] + AppendTo(d[1..], k, x);
    }
  }

  lemma {:induction false} FirstOccurrencesMembers<T>(s: seq<T>)
    ensures forall x :: x in FirstOccurrences(s) <==> x in s
    ensures Distinct(FirstOccurrences(s))
  {
    if s != [] {
      FirstOccurrencesMembers(s[..|s| - 1]);
      assert s == s[..|s| - 1] + [s[|s| - 1]];
    }
  }

  lemma {:induction false} FirstOccurrencesOfDistinct<T>(s: seq<T>)
    requires Distinct(s)
    ensures FirstOccurrences(s) == s
  {
    if s != [] {
      FirstOccurrencesOfDistinct(s[..|s| - 1]);
      assert s == s[..|s| - 1] + [s[|s| - 1]];
    }
  }
}
