/**
 * Python's `list.sort(key=...)` and `sorted(..., key=...)`: a stable sort
 * by an integer key, written as insertion sort on sequences. A descending
 * sort with `reverse=True` is the same stable sort by the negated key.
 */
module StableSort {

  ghost predicate SortedBy<T>(s: seq<T>, key: T -> int) {
    forall i, j :: 0 <= i < j < |s| ==> key(s[i]) <= key(s[j])
  }

  /** The elements of s whose key is k, in their order in s. */
  function WithKey<T>(s: seq<T>, key: T -> int, k: int): seq<T> {
    if s == [] then []
    else WithKey(s[..|s| - 1], key, k) + (if key(s[|s| - 1]) == k then [s[|s| - 1]] else [])
  }

  /** Places x after every element of s whose key is at most key(x). */
  function Insert<T>(s: seq<T>, x: T, key: T -> int): seq<T> {
    if s == [] then [x]
    else if key(s[|s| - 1]) <= key(x) then s + [x]
    else Insert(s[..|s| - 1], x, key) + [s[|s| - 1]]
  }

  function SortBy<T>(xs: seq<T>, key: T -> int): seq<T> {
    if xs == [] then [] else Insert(SortBy(xs[..|xs| - 1], key), xs[|xs| - 1], key)
  }

  lemma {:induction false} WithKeyAppend<T>(a: seq<T>, b: seq<T>, key: T -> int, k: int)
    ensures WithKey(a + b, key, k) == WithKey(a, key, k) + WithKey(b, key, k)
    decreases |b|
  {
    if b == [] {
      assert a + b == a;
    } else {
      var n := |b| - 1;
      assert (a + b)[..|a + b| - 1] == a + b[..n];
      WithKeyAppend(a, b[..n], key, k);
    }
  }

  lemma {:induction false} InsertElements<T>(s: seq<T>, x: T, key: T -> int)
    ensures multiset(Insert(s, x, key)) == multiset(s) + multiset{x}
  {
    if s != [] && key(s[|s| - 1]) > key(x) {
      var n := |s| - 1;
      InsertElements(s[..n], x, key);
      assert s == s[..n] + [s[n]];
    }
  }

  /** Inserting an element within a bound into elements within it stays within it. */
  lemma InsertBounded<T>(s: seq<T>, x: T, key: T -> int, bound: int)
    requires forall y :: y in s ==> key(y) <= bound
    requires key(x) <= bound
    ensures forall y :: y in Insert(s, x, key) ==> key(y) <= bound
  {
    InsertElements(s, x, key);
    forall y | y in Insert(s, x, key) ensures key(y) <= bound {
      assert y in multiset(Insert(s, x, key));
      assert y in multiset(s) || y == x;
    }
  }

  /** A sorted sequence stays sorted when an element no smaller than all of it is appended. */
  lemma SortedSnoc<T>(r: seq<T>, last: T, key: T -> int)
    requires SortedBy(r, key)
    requires forall y :: y in r ==> key(y) <= key(last)
    ensures SortedBy(r + [last], key)
  {
    var t := r + [last];
    forall i, j | 0 <= i < j < |t| ensures key(t[i]) <= key(t[j]) {
      assert t[i] == r[i];
      if j == |r| {
        assert t[j] == last && r[i] in r;
      } else {
        assert t[j] == r[j];
      }
    }
  }

  lemma {:induction false} InsertSorted<T>(s: seq<T>, x: T, key: T -> int)
    requires SortedBy(s, key)
    ensures SortedBy(Insert(s, x, key), key)
  {
    if s != [] && key(s[|s| - 1]) > key(x) {
      var n := |s| - 1;
      var init, last := s[..n], s[n];
      assert SortedBy(init, key) by {
        forall i, j | 0 <= i < j < n ensures key(init[i]) <= key(init[j]) {
          assert init[i] == s[i] && init[j] == s[j];
        }
      }
      InsertSorted(init, x, key);
      forall y | y in init ensures key(y) <= key(last) {
        var i :| 0 <= i < n && init[i] == y;
        assert s[i] == y;
      }
      InsertBounded(init, x, key, key(last));
      assert Insert(s, x, key) == Insert(init, x, key) + [last];
      SortedSnoc(Insert(init, x, key), last, key);
    }
  }

  lemma {:induction false} InsertStable<T>(s: seq<T>, x: T, key: T -> int, k: int)
    ensures WithKey(Insert(s, x, key), key, k) == WithKey(s, key, k) + (if key(x) == k then [x] else [])
  {
    if s == [] {
    } else if key(s[|s| - 1]) <= key(x) {
      WithKeyAppend(s, [x], key, k);
    } else {
      var n := |s| - 1;
      assert Insert(s, x, key) == Insert(s[..n], x, key) + [s[n]];
      InsertStable(s[..n], x, key, k);
      WithKeyAppend(Insert(s[..n], x, key), [s[n]], key, k);
      assert s[..n] + [s[n]] == s;
      WithKeyAppend(s[..n], [s[n]], key, k);
    }
  }

  /** The sort is ordered by key. */
  lemma {:induction false} SortSorted<T>(xs: seq<T>, key: T -> int)
    ensures SortedBy(SortBy(xs, key), key)
  {
    if xs != [] {
      SortSorted(xs[..|xs| - 1], key);
      InsertSorted(SortBy(xs[..|xs| - 1], key), xs[|xs| - 1], key);
    }
  }

  /** The sort is a permutation of its input. */
  lemma {:induction false} SortPermutes<T>(xs: seq<T>, key: T -> int)
    ensures multiset(SortBy(xs, key)) == multiset(xs)
  {
    if xs != [] {
      var n := |xs| - 1;
      var sorted := SortBy(xs[..n], key);
      SortPermutes(xs[..n], key);
      InsertElements(sorted, xs[n], key);
      assert SortBy(xs, key) == Insert(sorted, xs[n], key);
      assert xs == xs[..n] + [xs[n]];
      assert multiset(xs) == multiset(xs[..n]) + multiset{xs[n]};
    }
  }

  /** The sort is stable: elements with equal keys keep their relative order. */
  lemma {:induction false} SortStable<T>(xs: seq<T>, key: T -> int, k: int)
    ensures WithKey(SortBy(xs, key), key, k) == WithKey(xs, key, k)
  {
    if xs != [] {
      var n := |xs| - 1;
      SortStable(xs[..n], key, k);
      InsertStable(SortBy(xs[..n], key), xs[n], key, k);
    }
  }
}
