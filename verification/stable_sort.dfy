/** Python's `list.sort(key=..., reverse=...)` and `sorted(...)`: a stable sort.
    An ordering is given as a key function `key` and a strict order `ahead` on
    keys, where `ahead(a, b)` means a row with key `a` is placed before a row
    with key `b` (so `reverse=True` on a numeric key is `a > b`). Rows whose keys
    are equal keep the relative order they had in the input. */
module StableSort {
  import opened Basics

  /** `ahead` is irreflexive, transitive and relates any two distinct keys. */
  ghost predicate StrictTotalOrder<K(!new)>(ahead: (K, K) -> bool) {
    && (forall x :: !ahead(x, x))
    && (forall x, y, z :: ahead(x, y) && ahead(y, z) ==> ahead(x, z))
    && (forall x, y :: x != y ==> ahead(x, y) || ahead(y, x))
  }

  /** No row is placed after a row that it should come before. */
  ghost predicate SortedBy<T, K>(s: seq<T>, key: T -> K, ahead: (K, K) -> bool) {
    forall i, j :: 0 <= i < j < |s| ==> !ahead(key(s[j]), key(s[i]))
  }

  /** The rows of `s` whose key is `k`, in their order in `s`. */
  function WithKey<T, K(==)>(s: seq<T>, key: T -> K, k: K): seq<T> {
    if s == [] then []
    else (if key(s[0]) == k then [s[0]] else []) + WithKey(s[1..], key, k)
  }

  /** Among rows with equal keys, `r` lists them in the same order as `s`. */
  ghost predicate StableFor<T, K(!new)>(r: seq<T>, s: seq<T>, key: T -> K) {
    forall k :: WithKey(r, key, k) == WithKey(s, key, k)
  }

  /** Puts `x` before the first row of `s` that does not strictly precede it. */
  function Insert<T, K>(x: T, s: seq<T>, key: T -> K, ahead: (K, K) -> bool): seq<T> {
    if s == [] then [x]
    else if ahead(key(s[0]), key(x)) then [s[0]] + Insert(x, s[1..], key, ahead)
    else [x] + s
  }

  /** Stable insertion sort: `s[0]` goes in front of every later row of equal key. */
  function Sort<T, K>(s: seq<T>, key: T -> K, ahead: (K, K) -> bool): seq<T> {
    if s == [] then [] else Insert(s[0], Sort(s[1..], key, ahead), key, ahead)
  }

  lemma {:induction false} InsertPermutes<T, K>(x: T, s: seq<T>, key: T -> K, ahead: (K, K) -> bool)
    ensures multiset(Insert(x, s, key, ahead)) == multiset(s) + multiset{x}
    ensures |Insert(x, s, key, ahead)| == |s| + 1
  {
    if s != [] && ahead(key(s[0]), key(x)) {
      InsertPermutes(x, s[1..], key, ahead);
      assert s == [s[0]] + s[1..];
    }
  }

  /** If neither `c` precedes `b` nor `b` precedes `a`, then `c` does not precede `a`. */
  lemma NotAheadTransitive<K(!new)>(ahead: (K, K) -> bool, a: K, b: K, c: K)
    requires StrictTotalOrder(ahead)
    requires !ahead(c, b) && !ahead(b, a)
    ensures !ahead(c, a)
  {
  }

  lemma {:induction false} InsertSorted<T, K(!new)>(x: T, s: seq<T>, key: T -> K, ahead: (K, K) -> bool)
    requires StrictTotalOrder(ahead)
    requires SortedBy(s, key, ahead)
    ensures SortedBy(Insert(x, s, key, ahead), key, ahead)
  {
    if s == [] {
    } else if ahead(key(s[0]), key(x)) {
      var rest := Insert(x, s[1..], key, ahead);
      InsertSorted(x, s[1..], key, ahead);
      InsertPermutes(x, s[1..], key, ahead);
      forall j | 0 <= j < |rest|
        ensures !ahead(key(rest[j]), key(s[0]))
      {
        assert rest[j] in multiset(rest);
        if rest[j] != x {
          assert rest[j] in multiset(s[1..]);
          var i :| 0 <= i < |s[1..]| && s[1..][i] == rest[j];
          assert s[i + 1] == rest[j];
        }
      }
      var r := [s[0]] + rest;
      forall i, j | 0 <= i < j < |r|
        ensures !ahead(key(r[j]), key(r[i]))
      {
        if i > 0 {
          assert r[i] == rest[i - 1] && r[j] == rest[j - 1];
        }
      }
    } else {
      var r := [x] + s;
      forall i, j | 0 <= i < j < |r|
        ensures !ahead(key(r[j]), key(r[i]))
      {
        if i == 0 && j > 1 {
          NotAheadTransitive(ahead, key(x), key(s[0]), key(s[j - 1]));
        }
      }
    }
  }

  lemma WithKeyCons<T, K>(a: T, r: seq<T>, key: T -> K, k: K)
    ensures WithKey([a] + r, key, k) == (if key(a) == k then [a] else []) + WithKey(r, key, k)
  {
    assert ([a] + r)[1..] == r;
  }

  lemma {:induction false} InsertStable<T, K(!new)>(x: T, s: seq<T>, key: T -> K, ahead: (K, K) -> bool, k: K)
    requires forall y :: !ahead(y, y)
    ensures WithKey(Insert(x, s, key, ahead), key, k) == WithKey([x] + s, key, k)
  {
    if s != [] && ahead(key(s[0]), key(x)) {
      var s0, tail := s[0], s[1..];
      InsertStable(x, tail, key, ahead, k);
      assert s == [s0] + tail;
      SwapDistinctKeys(x, s0, tail, Insert(x, tail, key, ahead), key, k);
    }
  }

  /** Moving a row past a row of another key changes no key's rows. */
  lemma SwapDistinctKeys<T, K>(x: T, y: T, tail: seq<T>, ins: seq<T>, key: T -> K, k: K)
    requires key(x) != key(y)
    requires WithKey(ins, key, k) == WithKey([x] + tail, key, k)
    ensures WithKey([y] + ins, key, k) == WithKey([x] + ([y] + tail), key, k)
  {
    WithKeyCons(y, ins, key, k);
    WithKeyCons(x, [y] + tail, key, k);
    WithKeyCons(y, tail, key, k);
    if key(y) == k {
      WithKeyDrop(x, tail, key, k);
      WithKeyDrop(x, [y] + tail, key, k);
    } else {
      WithKeyDrop(y, ins, key, k);
      WithKeyDrop(y, tail, key, k);
      WithKeyCons(x, tail, key, k);
    }
  }

  /** A row of another key does not show among the rows of key `k`. */
  lemma WithKeyDrop<T, K>(a: T, r: seq<T>, key: T -> K, k: K)
    requires key(a) != k
    ensures WithKey([a] + r, key, k) == WithKey(r, key, k)
  {
    WithKeyCons(a, r, key, k);
    assert [] + WithKey(r, key, k) == WithKey(r, key, k);
  }


  /** The sort is a permutation of its input, ordered, and stable on ties. */
  lemma {:induction false} SortCorrect<T, K(!new)>(s: seq<T>, key: T -> K, ahead: (K, K) -> bool)
    requires StrictTotalOrder(ahead)
    ensures multiset(Sort(s, key, ahead)) == multiset(s)
    ensures |Sort(s, key, ahead)| == |s|
    ensures SortedBy(Sort(s, key, ahead), key, ahead)
    ensures StableFor(Sort(s, key, ahead), s, key)
  {
    if s != [] {
      var t := Sort(s[1..], key, ahead);
      SortCorrect(s[1..], key, ahead);
      InsertPermutes(s[0], t, key, ahead);
      InsertSorted(s[0], t, key, ahead);
      assert s == [s[0]] + s[1..];
      forall k
        ensures WithKey(Sort(s, key, ahead), key, k) == WithKey(s, key, k)
      {
        InsertStable(s[0], t, key, ahead, k);
        assert ([s[0]] + t)[1..] == t;
      }
    }
  }

  /** A prefix of `s` keeps, for every key, a prefix of that key's rows. */
  lemma {:induction false} WithKeyOfPrefix<T, K>(s: seq<T>, n: nat, key: T -> K, k: K)
    requires n <= |s|
    ensures WithKey(s[..n], key, k) <= WithKey(s, key, k)
  {
    if n > 0 {
      WithKeyOfPrefix(s[1..], n - 1, key, k);
      assert s[..n][1..] == s[1..][..n - 1];
    }
  }

  /** The first `n` rows of the sorted sequence: ordered, stable (for every key,
      the rows kept are the earliest input rows with that key, in input order),
      and no row left out precedes a row kept. */
  lemma TopCorrect<T, K(!new)>(s: seq<T>, n: nat, key: T -> K, ahead: (K, K) -> bool)
    requires StrictTotalOrder(ahead)
    ensures |Take(Sort(s, key, ahead), n)| == Min(n, |s|)
    ensures SortedBy(Take(Sort(s, key, ahead), n), key, ahead)
    ensures multiset(Take(Sort(s, key, ahead), n)) <= multiset(s)
    ensures forall k :: WithKey(Take(Sort(s, key, ahead), n), key, k) <= WithKey(s, key, k)
    ensures forall x, i :: x in multiset(s) - multiset(Take(Sort(s, key, ahead), n)) && 0 <= i < |Take(Sort(s, key, ahead), n)|
                           ==> !ahead(key(x), key(Take(Sort(s, key, ahead), n)[i]))
  {
    var t := Sort(s, key, ahead);
    SortCorrect(s, key, ahead);
    var m := Min(n, |s|);
    assert Take(t, n) == t[..m];
    PrefixSplit(t, m);
    forall k
      ensures WithKey(t[..m], key, k) <= WithKey(s, key, k)
    {
      WithKeyOfPrefix(t, m, key, k);
    }
    forall x, i | x in multiset(s) - multiset(t[..m]) && 0 <= i < m
      ensures !ahead(key(x), key(t[..m][i]))
    {
      LeftOutNotAhead(t, m, key, ahead, x, i);
    }
  }

  /** A prefix and the rest make up the whole, as multisets. */
  lemma PrefixSplit<T>(t: seq<T>, m: nat)
    requires m <= |t|
    ensures multiset(t) == multiset(t[..m]) + multiset(t[m..])
    ensures multiset(t) - multiset(t[..m]) == multiset(t[m..])
  {
    assert t == t[..m] + t[m..];
  }

  /** In a sorted sequence, no row after position `m` precedes a row before it. */
  lemma LeftOutNotAhead<T, K>(t: seq<T>, m: nat, key: T -> K, ahead: (K, K) -> bool, x: T, i: nat)
    requires SortedBy(t, key, ahead)
    requires m <= |t| && i < m
    requires x in multiset(t[m..])
    ensures !ahead(key(x), key(t[i]))
  {
    var j :| 0 <= j < |t[m..]| && t[m..][j] == x;
    assert t[m + j] == x;
  }
}
