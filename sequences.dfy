/** The two list operations the loaders and views are built from: keeping
    the rows a predicate accepts (pandas boolean indexing) and a stable sort
    by an integer key (`list.sort(key=...)`). */
module Sequences {

  /** `r` can be obtained from `s` by deleting elements, keeping the order of
      the rest. */
  predicate IsSubseq<T(==)>(r: seq<T>, s: seq<T>)
    decreases |s|
  {
    r == [] ||
    (s != [] && ((r[0] == s[0] && IsSubseq(r[1..], s[1..])) || IsSubseq(r, s[1..])))
  }

  /** The elements of `s` that satisfy `p`, in their order. The result is an
      order-preserving subsequence of `s` that holds every element of `s`
      satisfying `p` exactly as often as `s` does, and nothing else. */
  function Keep<T(==)>(s: seq<T>, p: T -> bool): (r: seq<T>)
    ensures |r| <= |s|
    decreases |s|
  {
    if s == [] then []
    else if p(s[0]) then [s[0]] + Keep(s[1..], p)
    else Keep(s[1..], p)
  }

  /** What `Keep` keeps: an order-preserving subsequence of `s` whose
      elements all satisfy `p`, holding each element of `s` that satisfies
      `p` exactly as often as `s` does. */
  lemma {:induction false} KeepSpec<T>(s: seq<T>, p: T -> bool)
    ensures forall x :: x in Keep(s, p) ==> x in s && p(x)
    ensures forall x :: x in s && p(x) ==> multiset(Keep(s, p))[x] == multiset(s)[x]
    ensures IsSubseq(Keep(s, p), s)
    decreases |s|
  {
    if s != [] {
      assert s == [s[0]] + s[1..];
      var rest := Keep(s[1..], p);
      KeepSpec(s[1..], p);
      if p(s[0]) {
        assert ([s[0]] + rest)[1..] == rest;
      }
    }
  }

  /** Filtering a concatenation filters each part. */
  lemma {:induction false} KeepConcat<T>(a: seq<T>, b: seq<T>, p: T -> bool)
    ensures Keep(a + b, p) == Keep(a, p) + Keep(b, p)
    decreases |a|
  {
    if a == [] {
      assert a + b == b;
    } else {
      assert (a + b)[1..] == a[1..] + b;
      KeepConcat(a[1..], b, p);
    }
  }

  /** Filtering twice is filtering once by both predicates. */
  lemma {:induction false} KeepKeep<T>(s: seq<T>, p: T -> bool, q: T -> bool, pq: T -> bool)
    requires forall x :: pq(x) == (p(x) && q(x))
    ensures Keep(Keep(s, p), q) == Keep(s, pq)
    decreases |s|
  {
    if s != [] {
      KeepKeep(s[1..], p, q, pq);
      if p(s[0]) {
        assert ([s[0]] + Keep(s[1..], p))[1..] == Keep(s[1..], p);
      }
    }
  }

  /** Filtering by two predicates that agree everywhere gives the same. */
  lemma {:induction false} KeepSame<T>(s: seq<T>, p: T -> bool, q: T -> bool)
    requires forall x :: p(x) == q(x)
    ensures Keep(s, p) == Keep(s, q)
    decreases |s|
  {
    if s != [] {
      KeepSame(s[1..], p, q);
    }
  }

  /** When no element satisfies `p`, nothing is kept. */
  lemma {:induction false} KeepNone<T>(s: seq<T>, p: T -> bool)
    requires forall k :: 0 <= k < |s| ==> !p(s[k])
    ensures Keep(s, p) == []
    decreases |s|
  {
    if s != [] {
      KeepNone(s[1..], p);
    }
  }

  predicate SortedBy<T>(s: seq<T>, key: T -> int)
  {
    forall i, j :: 0 <= i < j < |s| ==> key(s[i]) <= key(s[j])
  }

  /** The elements of `s` whose key is `k`, in order. */
  function WithKey<T(==)>(s: seq<T>, key: T -> int, k: int): seq<T>
  {
    Keep(s, KeyIs(key, k))
  }

  function KeyIs<T>(key: T -> int, k: int): T -> bool
  {
    x => key(x) == k
  }

  /** Puts `x` into `t` just after the elements whose key is at most
      `key(x)`. */
  function Insert<T(==)>(t: seq<T>, x: T, key: T -> int): (r: seq<T>)
    ensures |r| == |t| + 1
    decreases |t|
  {
    if t == [] then [x]
    else if key(x) < key(t[0]) then [x] + t
    else [t[0]] + Insert(t[1..], x, key)
  }

  /** Inserting adds exactly `x`. */
  lemma {:induction false} InsertPerm<T>(t: seq<T>, x: T, key: T -> int)
    ensures multiset(Insert(t, x, key)) == multiset(t) + multiset{x}
    decreases |t|
  {
    if t != [] && key(x) >= key(t[0]) {
      assert t == [t[0]] + t[1..];
      InsertPerm(t[1..], x, key);
    }
  }

  /** A sorted sequence stays sorted when an element no greater than all of
      its elements is put in front. */
  lemma SortedCons<T>(a: T, s: seq<T>, key: T -> int)
    requires SortedBy(s, key)
    requires forall k :: 0 <= k < |s| ==> key(a) <= key(s[k])
    ensures SortedBy([a] + s, key)
  {
    var r := [a] + s;
    forall i, j | 0 <= i < j < |r| ensures key(r[i]) <= key(r[j]) {
      assert r[j] == s[j - 1];
      if i > 0 {
        assert r[i] == s[i - 1];
      }
    }
  }

  /** Inserting into a sorted sequence keeps it sorted. */
  lemma {:induction false} InsertSorted<T>(t: seq<T>, x: T, key: T -> int)
    requires SortedBy(t, key)
    ensures SortedBy(Insert(t, x, key), key)
    decreases |t|
  {
    if t == [] {
    } else if key(x) < key(t[0]) {
      SortedCons(x, t, key);
    } else {
      var rest := Insert(t[1..], x, key);
      InsertSorted(t[1..], x, key);
      InsertPerm(t[1..], x, key);
      forall k | 0 <= k < |rest| ensures key(t[0]) <= key(rest[k]) {
        assert rest[k] in multiset(rest);
        if rest[k] != x {
          assert rest[k] in multiset(t[1..]);
          var m :| 0 <= m < |t[1..]| && t[1..][m] == rest[k];
          assert t[1..][m] == t[m + 1];
        }
      }
      SortedCons(t[0], rest, key);
    }
  }

  /** Insertion sort, stable: `s` ordered by ascending key, equal keys kept
      in their original order. */
  function SortBy<T(==)>(s: seq<T>, key: T -> int): (r: seq<T>)
    ensures |r| == |s|
    decreases |s|
  {
    if s == [] then []
    else Insert(SortBy(s[..|s| - 1], key), s[|s| - 1], key)
  }

  /** The sorted sequence is a permutation of the input, in ascending key
      order. */
  lemma {:induction false} SortBySpec<T>(s: seq<T>, key: T -> int)
    ensures multiset(SortBy(s, key)) == multiset(s)
    ensures SortedBy(SortBy(s, key), key)
    decreases |s|
  {
    if s != [] {
      var init, last := s[..|s| - 1], s[|s| - 1];
      assert s == init + [last];
      SortBySpec(init, key);
      InsertPerm(SortBy(init, key), last, key);
      InsertSorted(SortBy(init, key), last, key);
    }
  }

  /** Inserting into a sorted sequence puts `x` after every element of its
      own key. */
  lemma {:induction false} InsertWithKey<T>(t: seq<T>, x: T, key: T -> int, k: int)
    requires SortedBy(t, key)
    ensures WithKey(Insert(t, x, key), key, k)
         == WithKey(t, key, k) + (if key(x) == k then [x] else [])
    decreases |t|
  {
    var p := KeyIs(key, k);
    if t == [] {
    } else if key(x) < key(t[0]) {
      KeepConcat([x], t, p);
      if key(x) == k {
        KeepNone(t, p);
      }
    } else {
      assert SortedBy(t[1..], key);
      InsertWithKey(t[1..], x, key, k);
      KeepConcat([t[0]], Insert(t[1..], x, key), p);
      KeepConcat([t[0]], t[1..], p);
      assert [t[0]] + t[1..] == t;
    }
  }

  lemma WithKeySnoc<T>(init: seq<T>, last: T, key: T -> int, k: int)
    ensures WithKey(init + [last], key, k)
         == WithKey(init, key, k) + (if key(last) == k then [last] else [])
  {
    KeepConcat(init, [last], KeyIs(key, k));
  }

  /** Sorting is stable: for every key, the elements with that key appear in
      the result in the order they had in the input. */
  lemma {:induction false} SortByStable<T>(s: seq<T>, key: T -> int, k: int)
    ensures WithKey(SortBy(s, key), key, k) == WithKey(s, key, k)
    decreases |s|
  {
    if s != [] {
      var init, last := s[..|s| - 1], s[|s| - 1];
      var sorted := SortBy(init, key);
      var tail := if key(last) == k then [last] else [];
      assert SortBy(s, key) == Insert(sorted, last, key);
      assert WithKey(Insert(sorted, last, key), key, k) == WithKey(sorted, key, k) + tail by {
        SortBySpec(init, key);
        InsertWithKey(sorted, last, key, k);
      }
      assert WithKey(sorted, key, k) == WithKey(init, key, k) by {
        SortByStable(init, key, k);
      }
      assert WithKey(init, key, k) + tail == WithKey(s, key, k) by {
        WithKeySnoc(init, last, key, k);
        assert init + [last] == s;
      }
    }
  }

  /** The first `n` elements, or all of them when there are fewer
      (`DataFrame.head(n)`). */
  function Take<T>(s: seq<T>, n: nat): (r: seq<T>)
    ensures |r| == if |s| < n then |s| else n
    ensures r == s[..|r|]
  {
    if |s| < n then s else s[..n]
  }
}
