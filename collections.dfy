/**
 * The dictionary and list idioms the Python code relies on, as values:
 * counting dictionaries (`d[k] = d.get(k, 0) + 1`, `defaultdict(int)`),
 * their insertion order, `max(d.items(), key=count)`, prefix slices
 * `xs[:n]`, and "drop the Nones" comprehensions.
 */
module Collections {
  import opened Wrappers

  /** `d.get(k, 0)` for a counting dictionary. */
  function Count<K>(m: map<K, nat>, k: K): nat {
    if k in m then m[k] else 0
  }

  /** `d[k] = d.get(k, 0) + 1`. */
  function Bump<K>(m: map<K, nat>, k: K): map<K, nat> {
    m[k := Count(m, k) + 1]
  }

  /** m is the counting dictionary of xs: its keys are the elements of xs, each mapped to its multiplicity. */
  ghost predicate IsTally<K(!new)>(m: map<K, nat>, xs: seq<K>) {
    && (forall k :: k in m <==> k in xs)
    && (forall k :: k in m ==> m[k] == multiset(xs)[k])
  }

  lemma BumpTally<K(!new)>(m: map<K, nat>, xs: seq<K>, x: K)
    requires IsTally(m, xs)
    ensures IsTally(Bump(m, x), xs + [x])
  {
  }

  /**
   * `d[k] += 1` on an insertion-ordered counting dictionary: the counts and
   * the order in which the keys were first inserted.
   */
  method Increment<K>(m: map<K, nat>, order: seq<K>, k: K) returns (m': map<K, nat>, order': seq<K>)
    ensures m' == Bump(m, k)
    ensures order' == if k in m then order else order + [k]
  {
    order' := order;
    if k !in m {
      order' := order + [k];
    }
    m' := Bump(m, k);
  }

  /** The counting dictionary of xs as a value. */
  function TallyOf<K(==,!new)>(xs: seq<K>): map<K, nat> {
    map k | k in xs :: multiset(xs)[k]
  }

  lemma TallyOfIsTally<K(!new)>(xs: seq<K>)
    ensures IsTally(TallyOf(xs), xs)
  {
  }

  /** A counting dictionary is determined by what it counted. */
  lemma TallyUnique<K(!new)>(m: map<K, nat>, xs: seq<K>)
    requires IsTally(m, xs)
    ensures m == TallyOf(xs)
  {
    assert m.Keys == TallyOf(xs).Keys;
  }

  ghost predicate NoDuplicates<K>(ks: seq<K>) {
    forall i, j :: 0 <= i < j < |ks| ==> ks[i] != ks[j]
  }

  /** The keys of a dictionary filled from xs, in Python's insertion order (order of first occurrence). */
  function Distinct<K(==,!new)>(xs: seq<K>): seq<K> {
    if xs == [] then []
    else
      var init := Distinct(xs[..|xs| - 1]);
      if xs[|xs| - 1] in xs[..|xs| - 1] then init else init + [xs[|xs| - 1]]
  }

  /** The distinct keys are exactly the elements of xs, each once. */
  lemma {:induction false} DistinctKeys<K(!new)>(xs: seq<K>)
    ensures forall k :: k in Distinct(xs) <==> k in xs
    ensures NoDuplicates(Distinct(xs))
  {
    if xs != [] {
      var n := |xs| - 1;
      DistinctKeys(xs[..n]);
      assert xs == xs[..n] + [xs[n]];
    }
  }

  /** One `d[k] += 1` on a counting dictionary, and what it does to the dictionary's insertion order. */
  lemma TallyOfSnoc<K(!new)>(xs: seq<K>, x: K)
    ensures TallyOf(xs + [x]) == Bump(TallyOf(xs), x)
    ensures Distinct(xs + [x]) == if x in TallyOf(xs) then Distinct(xs) else Distinct(xs) + [x]
  {
    assert (xs + [x])[..|xs|] == xs;
    BumpTally(TallyOf(xs), xs, x);
    TallyUnique(Bump(TallyOf(xs), x), xs + [x]);
  }

  /** `d[k] += 1` for each k of xs in turn, on the counts m with key order `order`. */
  function BumpAll<K>(m: map<K, nat>, order: seq<K>, xs: seq<K>): (map<K, nat>, seq<K>) {
    if xs == [] then (m, order)
    else
      var r := BumpAll(m, order, xs[..|xs| - 1]);
      var x := xs[|xs| - 1];
      (Bump(r.0, x), if x in r.0 then r.1 else r.1 + [x])
  }

  /** Counting xs and then ys is counting xs + ys, in the counts and in the key order. */
  lemma {:induction false} TallyOfAppend<K(!new)>(xs: seq<K>, ys: seq<K>)
    ensures BumpAll(TallyOf(xs), Distinct(xs), ys) == (TallyOf(xs + ys), Distinct(xs + ys))
    decreases |ys|
  {
    if ys == [] {
      assert xs + ys == xs;
    } else {
      var n := |ys| - 1;
      TallyOfAppend(xs, ys[..n]);
      assert xs + ys == (xs + ys[..n]) + [ys[n]];
      TallyOfSnoc(xs + ys[..n], ys[n]);
    }
  }

  /** A counting dictionary together with its keys in insertion order. */
  datatype Histogram<K> = Histogram(counts: map<K, nat>, order: seq<K>)

  function HistogramOf<K(==,!new)>(xs: seq<K>): Histogram<K> {
    Histogram(TallyOf(xs), Distinct(xs))
  }

  /** `d[k] = d.get(k, 0) + 1` on an insertion-ordered dictionary. */
  function AddKey<K>(h: Histogram<K>, k: K): Histogram<K> {
    Histogram(Bump(h.counts, k), if k in h.counts then h.order else h.order + [k])
  }

  /** AddKey for each element of xs in turn. */
  function AddKeys<K>(h: Histogram<K>, xs: seq<K>): Histogram<K> {
    var r := BumpAll(h.counts, h.order, xs);
    Histogram(r.0, r.1)
  }

  lemma HistogramSnoc<K(!new)>(xs: seq<K>, x: K)
    ensures HistogramOf(xs + [x]) == AddKey(HistogramOf(xs), x)
  {
    TallyOfSnoc(xs, x);
  }

  lemma HistogramAppend<K(!new)>(xs: seq<K>, ys: seq<K>)
    ensures HistogramOf(xs + ys) == AddKeys(HistogramOf(xs), ys)
  {
    TallyOfAppend(xs, ys);
  }

  /** The sum of the counts stored under the keys ks. */
  function SumCounts<K>(ks: seq<K>, m: map<K, nat>): nat {
    if ks == [] then 0 else SumCounts(ks[..|ks| - 1], m) + Count(m, ks[|ks| - 1])
  }

  /** The sum, over the keys ks, of how often each occurs in xs. */
  function Occurrences<K(==)>(ks: seq<K>, xs: seq<K>): nat {
    if ks == [] then 0 else Occurrences(ks[..|ks| - 1], xs) + multiset(xs)[ks[|ks| - 1]]
  }

  lemma {:induction false} SumCountsOfTally<K(!new)>(ks: seq<K>, m: map<K, nat>, xs: seq<K>)
    requires IsTally(m, xs)
    ensures SumCounts(ks, m) == Occurrences(ks, xs)
  {
    if ks != [] {
      SumCountsOfTally(ks[..|ks| - 1], m, xs);
    }
  }

  lemma {:induction false} OccurrencesSnoc<K>(ks: seq<K>, xs: seq<K>, x: K)
    ensures Occurrences(ks, xs + [x]) == Occurrences(ks, xs) + multiset(ks)[x]
  {
    if ks != [] {
      OccurrencesSnoc(ks[..|ks| - 1], xs, x);
      assert ks == ks[..|ks| - 1] + [ks[|ks| - 1]];
    }
  }

  lemma {:induction false} OnceInDistinct<K>(ks: seq<K>, x: K)
    requires NoDuplicates(ks) && x in ks
    ensures multiset(ks)[x] == 1
  {
    var n := |ks| - 1;
    assert ks == ks[..n] + [ks[n]];
    if ks[n] == x {
      assert x !in ks[..n];
    } else {
      OnceInDistinct(ks[..n], x);
    }
  }

  lemma {:induction false} OccurrencesOfAll<K>(ks: seq<K>, xs: seq<K>)
    requires NoDuplicates(ks)
    requires forall x :: x in xs ==> x in ks
    ensures Occurrences(ks, xs) == |xs|
  {
    if xs == [] {
      OccurrencesEmpty(ks);
    } else {
      var n := |xs| - 1;
      assert xs == xs[..n] + [xs[n]];
      OccurrencesOfAll(ks, xs[..n]);
      OccurrencesSnoc(ks, xs[..n], xs[n]);
      OnceInDistinct(ks, xs[n]);
    }
  }

  lemma {:induction false} OccurrencesEmpty<K>(ks: seq<K>)
    ensures Occurrences(ks, []) == 0
  {
    if ks != [] {
      OccurrencesEmpty(ks[..|ks| - 1]);
    }
  }

  /** The counts of a counting dictionary, summed over its keys, give the number of items counted. */
  lemma TallyTotal<K(!new)>(m: map<K, nat>, xs: seq<K>)
    requires IsTally(m, xs)
    ensures SumCounts(Distinct(xs), m) == |xs|
  {
    SumCountsOfTally(Distinct(xs), m, xs);
    DistinctKeys(xs);
    OccurrencesOfAll(Distinct(xs), xs);
  }

  /**
   * `max(d.items(), key=lambda x: x[1])[0]` over keys in insertion order ks:
   * a key with the largest count, and among those the first one, because
   * Python's max keeps the first maximal element it meets.
   */
  function MostCommon<K>(ks: seq<K>, m: map<K, nat>): (r: K)
    requires |ks| > 0
    ensures r in ks
    ensures forall k :: k in ks ==> Count(m, k) <= Count(m, r)
    ensures exists i :: 0 <= i < |ks| && ks[i] == r && forall j :: 0 <= j < i ==> Count(m, ks[j]) < Count(m, r)
  {
    if |ks| == 1 then ks[0]
    else
      var best := MostCommon(ks[..|ks| - 1], m);
      var last := ks[|ks| - 1];
      assert ks == ks[..|ks| - 1] + [last];
      if Count(m, last) > Count(m, best) then last else best
  }

  /** Python's prefix slice `xs[:n]`, where a negative n counts from the end. */
  function Prefix<T>(xs: seq<T>, n: int): (r: seq<T>)
    ensures 0 <= n ==> |r| == if n < |xs| then n else |xs|
    ensures n < 0 ==> |r| == if |xs| + n < 0 then 0 else |xs| + n
    ensures r <= xs
  {
    if n >= 0 then (if n < |xs| then xs[..n] else xs)
    else if |xs| + n < 0 then [] else xs[..|xs| + n]
  }

  /** `[x for x in xs if x is not None]`. */
  function Somes<T>(xs: seq<Option<T>>): (r: seq<T>)
    ensures |r| <= |xs|
  {
    if xs == [] then []
    else Somes(xs[..|xs| - 1]) + (if xs[|xs| - 1].Some? then [xs[|xs| - 1].value] else [])
  }

  /** Dropping Nones distributes over concatenation, so the kept values stay in their original order. */
  lemma {:induction false} SomesAppend<T>(xs: seq<Option<T>>, ys: seq<Option<T>>)
    ensures Somes(xs + ys) == Somes(xs) + Somes(ys)
    decreases |ys|
  {
    if ys != [] {
      var n := |ys| - 1;
      assert (xs + ys)[..|xs + ys| - 1] == xs + ys[..n];
      SomesAppend(xs, ys[..n]);
    } else {
      assert xs + ys == xs;
    }
  }

  /** Every kept value is kept as many times as it occurs as a Some, and nothing else is kept. */
  lemma {:induction false} SomesCount<T>(xs: seq<Option<T>>, v: T)
    ensures multiset(Somes(xs))[v] == multiset(xs)[Some(v)]
  {
    if xs != [] {
      var n := |xs| - 1;
      assert xs == xs[..n] + [xs[n]];
      SomesCount(xs[..n], v);
    }
  }
}
