/** Python's `collections.Counter` as the analyser uses it: an
    insertion-ordered sequence of (key, count) pairs. `c[k] += 1` appends a
    new key with count 1 or bumps the count of a key already present. */
module Counters {

  type Counter<K> = seq<(K, nat)>

  /** The keys, in insertion order. */
  function Keys<K>(c: Counter<K>): (ks: seq<K>)
    ensures |ks| == |c|
  {
    if c == [] then [] else [c[0].0] + Keys(c[1..])
  }

  /** Every key once, every count positive: what repeated `+= 1` builds. */
  predicate WellFormed<K(==)>(c: Counter<K>) {
    c == [] || (c[0].1 > 0 && c[0].0 !in Keys(c[1..]) && WellFormed(c[1..]))
  }

  /** `c[k]`: the count of k, 0 for a missing key. */
  function Get<K(==)>(c: Counter<K>, k: K): nat {
    if c == [] then 0 else if c[0].0 == k then c[0].1 else Get(c[1..], k)
  }

  /** The sum of all counts. */
  function Total<K>(c: Counter<K>): nat {
    if c == [] then 0 else c[0].1 + Total(c[1..])
  }

  /** `c[k] += 1`. */
  function Increment<K(==,!new)>(c: Counter<K>, k: K): (r: Counter<K>)
    ensures forall j :: Get(r, j) == Get(c, j) + (if j == k then 1 else 0)
    ensures k in Keys(c) ==> Keys(r) == Keys(c)
    ensures k !in Keys(c) ==> Keys(r) == Keys(c) + [k]
  {
    if c == [] then [(k, 1)]
    else if c[0].0 == k then [(k, c[0].1 + 1)] + c[1..]
    else
      var rest := Increment(c[1..], k);
      assert ([c[0]] + rest)[1..] == rest;
      [c[0]] + rest
  }

  lemma {:induction false} IncrementTotal<K(!new)>(c: Counter<K>, k: K)
    ensures Total(Increment(c, k)) == Total(c) + 1
  {
    if c != [] && c[0].0 != k {
      IncrementTotal(c[1..], k);
      assert Increment(c, k)[1..] == Increment(c[1..], k);
    }
  }

  lemma {:induction false} IncrementWellFormed<K(!new)>(c: Counter<K>, k: K)
    requires WellFormed(c)
    ensures WellFormed(Increment(c, k))
  {
    if c != [] && c[0].0 != k {
      IncrementWellFormed(c[1..], k);
      var r := Increment(c, k);
      assert r[1..] == Increment(c[1..], k);
    }
  }

  /** In a well-formed counter exactly the stored keys have a positive count. */
  lemma {:induction false} PositiveIffStored<K>(c: Counter<K>, k: K)
    requires WellFormed(c)
    ensures Get(c, k) > 0 <==> k in Keys(c)
  {
    if c != [] {
      PositiveIffStored(c[1..], k);
    }
  }

  lemma {:induction false} EntryKeyStored<K>(c: Counter<K>, p: (K, nat))
    requires p in c
    ensures p.0 in Keys(c)
  {
    if c[0] != p {
      EntryKeyStored(c[1..], p);
    }
  }

  /** Each stored pair carries the counter's value for its key. */
  lemma {:induction false} EntryIsCount<K>(c: Counter<K>, p: (K, nat))
    requires WellFormed(c) && p in c
    ensures Get(c, p.0) == p.1
  {
    if c[0] != p {
      EntryKeyStored(c[1..], p);
      EntryIsCount(c[1..], p);
    }
  }
}
