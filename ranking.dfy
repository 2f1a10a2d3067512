/** `Counter.most_common(n)`: the pairs sorted by count, largest first, by a
    stable sort (equal counts keep insertion order), cut to n entries. */
module Ranking {
  import opened Counters

  /** Counts never increase along the sequence. */
  predicate NonIncreasing<K>(s: seq<(K, nat)>) {
    forall i, j :: 0 <= i < j < |s| ==> s[i].1 >= s[j].1
  }

  /** The pairs whose count is v, in their order in s. */
  function WithCount<K>(s: seq<(K, nat)>, v: nat): seq<(K, nat)> {
    if s == [] then []
    else (if s[0].1 == v then [s[0]] else []) + WithCount(s[1..], v)
  }

  /** Places x before the first pair whose count is not larger than x's. */
  function InsertByCount<K>(x: (K, nat), s: seq<(K, nat)>): (r: seq<(K, nat)>)
    ensures |r| == |s| + 1
  {
    if s == [] || s[0].1 <= x.1 then [x] + s else [s[0]] + InsertByCount(x, s[1..])
  }

  /** Python's `sorted(items, key=count, reverse=True)`. */
  function SortByCount<K>(c: Counter<K>): (r: seq<(K, nat)>)
    ensures |r| == |c|
  {
    if c == [] then [] else InsertByCount(c[0], SortByCount(c[1..]))
  }

  function Min(a: int, b: int): int {
    if a <= b then a else b
  }

  /** `c.most_common(n)`; a negative n gives no entries, as in Python. */
  function MostCommon<K>(c: Counter<K>, n: int): seq<(K, nat)> {
    if n <= 0 then [] else SortByCount(c)[..Min(n, |c|)]
  }

  lemma {:induction false} WithCountAppend<K>(a: seq<(K, nat)>, b: seq<(K, nat)>, v: nat)
    ensures WithCount(a + b, v) == WithCount(a, v) + WithCount(b, v)
  {
    if a == [] {
      assert a + b == b;
    } else {
      var ab := a + b;
      assert ab[0] == a[0];
      assert ab[1..] == a[1..] + b;
      WithCountAppend(a[1..], b, v);
      var h := if a[0].1 == v then [a[0]] else [];
      assert WithCount(ab, v) == h + (WithCount(a[1..], v) + WithCount(b, v));
      assert WithCount(a, v) == h + WithCount(a[1..], v);
      assert h + (WithCount(a[1..], v) + WithCount(b, v)) == (h + WithCount(a[1..], v)) + WithCount(b, v);
    }
  }

  lemma {:induction false} InsertByCountPermutes<K>(x: (K, nat), s: seq<(K, nat)>)
    ensures multiset(InsertByCount(x, s)) == multiset([x] + s)
  {
    if s != [] && s[0].1 > x.1 {
      InsertByCountPermutes(x, s[1..]);
      assert s == [s[0]] + s[1..];
    }
  }

  /** Inserting below the head of a sorted sequence keeps every count at most the head's. */
  lemma InsertedBelowHead<K>(x: (K, nat), s: seq<(K, nat)>)
    requires NonIncreasing(s) && s != [] && s[0].1 > x.1
    ensures forall j :: 0 <= j < |InsertByCount(x, s[1..])| ==> InsertByCount(x, s[1..])[j].1 <= s[0].1
  {
    var rest := InsertByCount(x, s[1..]);
    InsertByCountPermutes(x, s[1..]);
    forall j | 0 <= j < |rest|
      ensures rest[j].1 <= s[0].1
    {
      assert rest[j] in multiset([x] + s[1..]);
      if rest[j] != x {
        var q :| 0 <= q < |s[1..]| && s[1..][q] == rest[j];
        assert s[q + 1] == rest[j];
      }
    }
  }

  lemma {:induction false} InsertByCountSorted<K>(x: (K, nat), s: seq<(K, nat)>)
    requires NonIncreasing(s)
    ensures NonIncreasing(InsertByCount(x, s))
  {
    if s != [] && s[0].1 > x.1 {
      var rest := InsertByCount(x, s[1..]);
      InsertByCountSorted(x, s[1..]);
      InsertedBelowHead(x, s);
      var r := [s[0]] + rest;
      forall i, j | 0 <= i < j < |r|
        ensures r[i].1 >= r[j].1
      {
        if i > 0 {
          assert r[i] == rest[i - 1];
        }
        assert r[j] == rest[j - 1];
      }
    }
  }

  lemma {:induction false} InsertByCountStable<K>(x: (K, nat), s: seq<(K, nat)>, v: nat)
    ensures WithCount(InsertByCount(x, s), v) == WithCount([x] + s, v)
  {
    if s != [] && s[0].1 > x.1 {
      var rest := InsertByCount(x, s[1..]);
      InsertByCountStable(x, s[1..], v);
      assert ([s[0]] + rest)[1..] == rest;
      assert ([x] + s[1..])[1..] == s[1..];
      assert ([x] + s)[1..] == s;
      assert s == [s[0]] + s[1..];
    }
  }

  lemma {:induction false} SortByCountProperties<K>(c: Counter<K>)
    ensures NonIncreasing(SortByCount(c))
    ensures multiset(SortByCount(c)) == multiset(c)
    ensures forall v :: WithCount(SortByCount(c), v) == WithCount(c, v)
  {
    if c != [] {
      SortByCountProperties(c[1..]);
      InsertByCountSorted(c[0], SortByCount(c[1..]));
      InsertByCountPermutes(c[0], SortByCount(c[1..]));
      assert c == [c[0]] + c[1..];
      forall v
        ensures WithCount(SortByCount(c), v) == WithCount(c, v)
      {
        InsertByCountStable(c[0], SortByCount(c[1..]), v);
        assert ([c[0]] + SortByCount(c[1..]))[1..] == SortByCount(c[1..]);
      }
    }
  }

  lemma EntriesOfPermutation<K>(c: Counter<K>, s: seq<(K, nat)>, i: int)
    requires WellFormed(c) && multiset(s) == multiset(c) && 0 <= i < |s|
    ensures s[i] in c && Get(c, s[i].0) == s[i].1
  {
    assert s[i] in multiset(c);
    EntryIsCount(c, s[i]);
  }

  lemma PrefixHoldsLargest<K>(s: seq<(K, nat)>, cut: int, p: (K, nat), i: int)
    requires NonIncreasing(s) && 0 <= i < cut <= |s|
    requires p in s && p !in s[..cut]
    ensures s[i].1 >= p.1
  {
    var q :| 0 <= q < |s| && s[q] == p;
    assert forall j :: 0 <= j < cut ==> s[..cut][j] == s[j];
  }

  /** A prefix of a stable reordering of c keeps, for each count, a prefix
      of c's pairs with that count. */
  lemma PrefixKeepsOrder<K>(c: Counter<K>, s: seq<(K, nat)>, cut: int)
    requires 0 <= cut <= |s|
    requires forall v :: WithCount(s, v) == WithCount(c, v)
    ensures forall v :: WithCount(s[..cut], v) <= WithCount(c, v)
  {
    forall v
      ensures WithCount(s[..cut], v) <= WithCount(c, v)
    {
      assert s == s[..cut] + s[cut..];
      WithCountAppend(s[..cut], s[cut..], v);
    }
  }

  /** Every pair of a prefix of a permutation of c is one of c's entries. */
  lemma PrefixEntries<K>(c: Counter<K>, s: seq<(K, nat)>, cut: int)
    requires WellFormed(c) && multiset(s) == multiset(c) && 0 <= cut <= |s|
    ensures forall i :: 0 <= i < cut ==> s[..cut][i] in c && Get(c, s[..cut][i].0) == s[..cut][i].1
  {
    forall i | 0 <= i < cut
      ensures s[..cut][i] in c && Get(c, s[..cut][i].0) == s[..cut][i].1
    {
      assert s[..cut][i] == s[i];
      EntriesOfPermutation(c, s, i);
    }
  }

  /** A prefix of a sorted permutation of c is sorted and holds c's largest counts. */
  lemma PrefixLargest<K>(c: Counter<K>, s: seq<(K, nat)>, cut: int)
    requires NonIncreasing(s) && multiset(s) == multiset(c) && 0 <= cut <= |s|
    ensures NonIncreasing(s[..cut])
    ensures forall p, i :: p in c && p !in s[..cut] && 0 <= i < cut ==> s[..cut][i].1 >= p.1
  {
    forall p, i | p in c && p !in s[..cut] && 0 <= i < cut
      ensures s[..cut][i].1 >= p.1
    {
      assert p in multiset(s);
      PrefixHoldsLargest(s, cut, p, i);
    }
  }

  /** What `most_common(n)` promises: min(n, #keys) entries, counts not
      increasing, each count the counter's value for its key, equal counts
      in insertion order (the kept ones are the earliest inserted), and no
      left-out key counts more than a kept one. */
  lemma MostCommonIsTopN<K>(c: Counter<K>, n: int)
    requires WellFormed(c)
    ensures |MostCommon(c, n)| == if n <= 0 then 0 else Min(n, |c|)
    ensures NonIncreasing(MostCommon(c, n))
    ensures forall i :: 0 <= i < |MostCommon(c, n)| ==>
              MostCommon(c, n)[i] in c && Get(c, MostCommon(c, n)[i].0) == MostCommon(c, n)[i].1
    ensures forall v :: WithCount(MostCommon(c, n), v) <= WithCount(c, v)
    ensures forall p, i :: p in c && p !in MostCommon(c, n) && 0 <= i < |MostCommon(c, n)| ==>
              MostCommon(c, n)[i].1 >= p.1
  {
    var sorted := SortByCount(c);
    SortByCountProperties(c);
    var cut := if n <= 0 then 0 else Min(n, |c|);
    assert MostCommon(c, n) == sorted[..cut];
    PrefixEntries(c, sorted, cut);
    PrefixKeepsOrder(c, sorted, cut);
    PrefixLargest(c, sorted, cut);
  }

  lemma MostCommonOfNothing<K>(c: Counter<K>, n: int)
    requires n <= 0 || c == []
    ensures MostCommon(c, n) == []
  {
  }
}
