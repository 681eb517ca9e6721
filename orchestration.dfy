/**
 * The two pieces of riot_api.py that combine fetch results: the match
 * batch (the first ten match ids, failed fetches dropped) and the
 * defaulting of fetch_all_data (a missing or empty payload becomes []).
 */
module Orchestration {
  import opened Wrappers
  import opened Collections
  import opened MatchData
  import opened RankedDetails
  import opened MasteryDetails

  /** fetch_match_details_batch fetches at most this many matches. */
  const BatchSize: nat := 10

  /** fetch_match_details_batch with the detail fetch as input: fetch the first ten ids, keep the fetches that succeeded. */
  function MatchDetailsBatch(matchIds: seq<string>, fetchMatch: string -> Option<MatchPayload>): (r: seq<MatchPayload>)
    ensures |r| <= BatchSize
  {
    Somes(Project(Prefix(matchIds, BatchSize), fetchMatch))
  }

  /**
   * The batch holds each payload exactly as often as the fetches of the
   * first ten ids returned it, and nothing else: every payload in it was
   * returned for one of those ids.
   */
  lemma MatchDetailsBatchMeaning(matchIds: seq<string>, fetchMatch: string -> Option<MatchPayload>)
    ensures var first := Prefix(matchIds, BatchSize);
            forall v :: multiset(MatchDetailsBatch(matchIds, fetchMatch))[v] == multiset(Project(first, fetchMatch))[Some(v)]
    ensures var first := Prefix(matchIds, BatchSize);
            forall v :: v in MatchDetailsBatch(matchIds, fetchMatch) ==>
              exists i :: 0 <= i < |first| && fetchMatch(first[i]) == Some(v)
  {
    var first := Prefix(matchIds, BatchSize);
    var fetched := Project(first, fetchMatch);
    forall v ensures multiset(MatchDetailsBatch(matchIds, fetchMatch))[v] == multiset(fetched)[Some(v)] {
      SomesCount(fetched, v);
    }
    forall v | v in MatchDetailsBatch(matchIds, fetchMatch)
      ensures exists i :: 0 <= i < |first| && fetchMatch(first[i]) == Some(v)
    {
      SomesCount(fetched, v);
      assert Some(v) in multiset(fetched);
      var i :| 0 <= i < |fetched| && fetched[i] == Some(v);
      ProjectAt(first, fetchMatch, i);
    }
  }

  /** When every fetch succeeds, the batch is the payloads of the first ten ids, in order. */
  lemma {:induction false} MatchDetailsBatchAllFetched(matchIds: seq<string>, fetchMatch: string -> Option<MatchPayload>)
    requires forall id :: fetchMatch(id).Some?
    ensures var first := Prefix(matchIds, BatchSize);
            var r := MatchDetailsBatch(matchIds, fetchMatch);
            && |r| == |first|
            && forall i :: 0 <= i < |r| ==> Some(r[i]) == fetchMatch(first[i])
  {
    AllFetched(Prefix(matchIds, BatchSize), fetchMatch);
  }

  lemma {:induction false} AllFetched(ids: seq<string>, fetchMatch: string -> Option<MatchPayload>)
    requires forall id :: fetchMatch(id).Some?
    ensures var r := Somes(Project(ids, fetchMatch));
            |r| == |ids| && forall i :: 0 <= i < |r| ==> Some(r[i]) == fetchMatch(ids[i])
  {
    if ids != [] {
      var n := |ids| - 1;
      AllFetched(ids[..n], fetchMatch);
      assert ids == ids[..n] + [ids[n]];
      ProjectSnoc(ids[..n], ids[n], fetchMatch);
      SomesAppend(Project(ids[..n], fetchMatch), [fetchMatch(ids[n])]);
    }
  }

  /** The triple fetch_all_data returns. */
  datatype AllData = AllData(ranked: seq<Queue>, mastery: seq<ChampionMastery>, matchIds: seq<string>)

  /** `x or []` on the ranked result: `{}` and `[]` both become []. */
  function RankedOrEmpty(ranked: RankedResult): (r: seq<Queue>)
    ensures ranked.Queues? ==> r == ranked.queues
    ensures ranked.NoRankedData? ==> r == []
  {
    match ranked
    case NoRankedData => []
    case Queues(qs) => qs
  }

  /**
   * fetch_all_data with its three results as inputs: each result that is
   * missing (a failed fetch) or empty becomes the empty list, and any other
   * result is passed through unchanged.
   */
  function FetchAllData(ranked: RankedResult, mastery: Option<seq<ChampionMastery>>, matchIds: Option<seq<string>>)
    : (r: AllData)
    ensures r.ranked == [] <==> ranked.NoRankedData? || ranked.queues == []
    ensures ranked.Queues? ==> r.ranked == ranked.queues
    ensures r.mastery == [] <==> mastery.None? || mastery.value == []
    ensures mastery.Some? ==> r.mastery == mastery.value
    ensures r.matchIds == [] <==> matchIds.None? || matchIds.value == []
    ensures matchIds.Some? ==> r.matchIds == matchIds.value
  {
    AllData(RankedOrEmpty(ranked), mastery.GetOr([]), matchIds.GetOr([]))
  }
}
