/**
 * The recent-searches list of recent_searches.py: most recent first, one
 * entry per (summoner name, region), at most `max_searches` entries. The
 * JSON file behind it is abstracted: the list loaded at start-up is an
 * input and saving is not modelled; the timestamp is an input.
 */
module RecentSearchList {
  import opened Collections

  datatype Search = Search(summonerName: string, region: string, timestamp: string)

  predicate SameSearch(s: Search, summonerName: string, region: string) {
    s.summonerName == summonerName && s.region == region
  }

  /** `[s for s in searches if not (same name and same region)]`. */
  function Without(searches: seq<Search>, summonerName: string, region: string): (r: seq<Search>)
    ensures |r| <= |searches|
  {
    if searches == [] then []
    else
      var n := |searches| - 1;
      Without(searches[..n], summonerName, region)
        + (if SameSearch(searches[n], summonerName, region) then [] else [searches[n]])
  }

  /** The list after `add_search`: earlier entries for the pair removed, the new one in front, then the cut to the maximum. */
  function Added(searches: seq<Search>, summonerName: string, region: string, timestamp: string, maxSearches: int)
    : seq<Search>
  {
    Prefix([Search(summonerName, region, timestamp)] + Without(searches, summonerName, region), maxSearches)
  }

  /** No two entries are for the same (name, region) pair. */
  ghost predicate UniquePairs(searches: seq<Search>) {
    forall i, j :: 0 <= i < j < |searches| ==>
      !SameSearch(searches[j], searches[i].summonerName, searches[i].region)
  }

  /** The filter keeps exactly the entries for other pairs. */
  lemma {:induction false} WithoutMembers(searches: seq<Search>, summonerName: string, region: string)
    ensures forall s :: s in Without(searches, summonerName, region) <==> s in searches && !SameSearch(s, summonerName, region)
  {
    if searches != [] {
      var n := |searches| - 1;
      WithoutMembers(searches[..n], summonerName, region);
      assert searches == searches[..n] + [searches[n]];
    }
  }

  /** The filter works entry by entry, so the kept entries stay in their relative order. */
  lemma {:induction false} WithoutAppend(xs: seq<Search>, ys: seq<Search>, summonerName: string, region: string)
    ensures Without(xs + ys, summonerName, region) == Without(xs, summonerName, region) + Without(ys, summonerName, region)
    decreases |ys|
  {
    if ys == [] {
      assert xs + ys == xs;
    } else {
      var n := |ys| - 1;
      assert (xs + ys)[..|xs + ys| - 1] == xs + ys[..n];
      WithoutAppend(xs, ys[..n], summonerName, region);
    }
  }

  /** A filter keeps distinct pairs distinct. */
  lemma {:induction false} WithoutUnique(searches: seq<Search>, summonerName: string, region: string)
    requires UniquePairs(searches)
    ensures UniquePairs(Without(searches, summonerName, region))
  {
    if searches != [] {
      var n := |searches| - 1;
      var w0 := Without(searches[..n], summonerName, region);
      assert UniquePairs(searches[..n]);
      WithoutUnique(searches[..n], summonerName, region);
      if !SameSearch(searches[n], summonerName, region) {
        WithoutMembers(searches[..n], summonerName, region);
        forall i | 0 <= i < |w0| ensures !SameSearch(searches[n], w0[i].summonerName, w0[i].region) {
          assert w0[i] in searches[..n];
        }
      }
    }
  }

  /**
   * After `add_search(n, r)` with a positive maximum, the new search is in
   * front, it is the only entry for (n, r), the list is at most the maximum
   * long, and the other entries are the earlier ones for other pairs,
   * still in their order.
   */
  lemma AddedMeaning(searches: seq<Search>, summonerName: string, region: string, timestamp: string, maxSearches: int)
    requires maxSearches >= 1
    ensures var a := Added(searches, summonerName, region, timestamp, maxSearches);
            && |a| >= 1 && a[0] == Search(summonerName, region, timestamp)
            && |a| <= maxSearches
            && (forall i :: 1 <= i < |a| ==> !SameSearch(a[i], summonerName, region))
            && a[1..] <= Without(searches, summonerName, region)
            && (|searches| < maxSearches ==> a[1..] == Without(searches, summonerName, region))
  {
    var w := Without(searches, summonerName, region);
    WithoutMembers(searches, summonerName, region);
    var a := Added(searches, summonerName, region, timestamp, maxSearches);
    var full := [Search(summonerName, region, timestamp)] + w;
    assert a == full[..|a|];
    forall i | 1 <= i < |a| ensures !SameSearch(a[i], summonerName, region) {
      assert a[i] == w[i - 1] && w[i - 1] in w;
    }
    assert a[1..] == w[..|a| - 1];
  }

  /** Adding a search keeps the pairs unique. */
  lemma AddedUnique(searches: seq<Search>, summonerName: string, region: string, timestamp: string, maxSearches: int)
    requires UniquePairs(searches)
    ensures UniquePairs(Added(searches, summonerName, region, timestamp, maxSearches))
  {
    var w := Without(searches, summonerName, region);
    WithoutUnique(searches, summonerName, region);
    WithoutMembers(searches, summonerName, region);
    var full := [Search(summonerName, region, timestamp)] + w;
    forall i, j | 0 <= i < j < |full| ensures !SameSearch(full[j], full[i].summonerName, full[i].region) {
      if i == 0 {
        assert full[j] == w[j - 1] && w[j - 1] in w;
      } else {
        assert full[i] == w[i - 1] && full[j] == w[j - 1];
      }
    }
    var a := Added(searches, summonerName, region, timestamp, maxSearches);
    assert a == full[..|a|];
  }

  class RecentSearches {
    var maxSearches: int
    var searches: seq<Search>

    /** `RecentSearches(max_searches)` with the list read from the searches file (or [] when it is missing or unreadable). */
    constructor(maxSearches: int, stored: seq<Search>)
      ensures this.maxSearches == maxSearches && searches == stored
    {
      this.maxSearches := maxSearches;
      searches := stored;
    }

    /** `add_search(summoner_name, region)`, with the current time as `timestamp`. */
    method AddSearch(summonerName: string, region: string, timestamp: string)
      modifies this
      ensures searches == Added(old(searches), summonerName, region, timestamp, maxSearches)
      ensures maxSearches == old(maxSearches)
    {
      searches := Without(searches, summonerName, region);
      searches := [Search(summonerName, region, timestamp)] + searches;
      searches := Prefix(searches, maxSearches);
    }

    /** `get_searches()`: the current list. */
    method GetSearches() returns (r: seq<Search>)
      ensures r == searches
    {
      r := searches;
    }

    /** `clear_searches()`: the list becomes empty. */
    method ClearSearches()
      modifies this
      ensures searches == [] && maxSearches == old(maxSearches)
    {
      searches := [];
    }
  }
}
