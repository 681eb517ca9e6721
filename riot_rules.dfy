/**
 * The pure rules of the Riot API client: the region -> routing tables and
 * their lookups, the split of a Riot ID "Name#TAG" (with the region check
 * that follows it), and the region -> platform-code conversion.
 */
module RiotRules {
  import opened Wrappers
  import opened Text

  /** The region -> continental routing table defined at the top of riot_api.py (and again inside get_summoner_by_name). */
  const RegionRouting: map<string, string> := map[
    "NA" := "americas", "BR" := "americas", "LAN" := "americas", "LAS" := "americas", "OCE" := "americas",
    "KR" := "asia", "JP" := "asia",
    "EUW" := "europe", "EUNE" := "europe", "TR" := "europe", "RU" := "europe"]

  /** REGION_ROUTING of constants.py: platform code -> routing value. */
  const PlatformRouting: map<string, string> := map[
    "BR1" := "americas", "LA1" := "americas", "LA2" := "americas", "NA1" := "americas",
    "EUN1" := "europe", "EUW1" := "europe", "TR1" := "europe", "RU" := "europe",
    "JP1" := "asia", "KR" := "asia", "OC1" := "sea"]

  /** REGIONS of constants.py: the values the search page offers as region. */
  const Regions: seq<string> := ["BR1", "EUN1", "EUW1", "JP1", "KR", "LA1", "LA2", "NA1", "OC1", "TR1", "RU"]

  /** `table.get(key, default)`. */
  function Get(table: map<string, string>, key: string, default: string): string {
    if key in table then table[key] else default
  }

  lemma RegionRoutingKeysUpper()
    ensures forall k :: k in RegionRouting ==> HasUpper(k)
  {
  }

  lemma RegionRoutingKeysNoLower()
    ensures forall k :: k in RegionRouting ==> NoLower(k)
  {
  }

  lemma RegionsNoLower()
    ensures forall k :: k in Regions ==> NoLower(k)
  {
  }

  lemma PlatformRoutingKeysUpper()
    ensures forall k :: k in PlatformRouting ==> HasUpper(k)
  {
  }

  /** `table.get(key.lower(), default)` on a table whose keys all hold an upper-case letter always gives the default. */
  lemma {:induction false} LowerCasedLookupMisses(table: map<string, string>, key: string, default: string)
    requires forall k :: k in table ==> HasUpper(k)
    ensures Get(table, Lower(key), default) == default
  {
    if Lower(key) in table {
      LowerNeverEqualsUpperCased(key, Lower(key));
      assert false;
    }
  }

  /**
   * `region_routing.get(region.lower(), "americas")`, the routing used for
   * match endpoints: the table is keyed in upper case, so every region,
   * "euw" and "kr" included, is routed to "americas".
   */
  function MatchRouting(region: string): (routing: string)
    ensures routing == "americas"
  {
    RegionRoutingKeysUpper();
    LowerCasedLookupMisses(RegionRouting, region, "americas");
    Get(RegionRouting, Lower(region), "americas")
  }

  /** `REGION_ROUTING.get(region.lower(), "americas")` of the standalone match helpers: also always "americas". */
  function MatchHistoryRouting(region: string): (routing: string)
    ensures routing == "americas"
  {
    PlatformRoutingKeysUpper();
    LowerCasedLookupMisses(PlatformRouting, region, "americas");
    Get(PlatformRouting, Lower(region), "americas")
  }

  /** The lower-casing lookup ignores the table: a European region gets the American route. */
  lemma MatchRoutingIgnoresTable()
    ensures RegionRouting["EUW"] == "europe" && MatchRouting("EUW") == "americas"
    ensures PlatformRouting["KR"] == "asia" && MatchHistoryRouting("KR") == "americas"
  {
  }

  /**
   * The regions that reach the routing lookups are selector values, that is
   * platform codes: "EUW1" belongs to Europe in REGION_ROUTING, yet both the
   * lower-casing lookup and the upper-casing one of the account lookup send
   * it to "americas".
   */
  lemma SelectorCodeMisrouted()
    ensures "EUW1" in Regions && PlatformRouting["EUW1"] == "europe"
    ensures MatchRouting("EUW1") == "americas" && AccountRouting("EUW1") == "americas"
  {
    assert Regions[2] == "EUW1";
    assert Upper("EUW1") == "EUW1";
  }

  /** The intended routing: the route REGION_ROUTING gives the upper-cased platform code, "americas" for anything else. */
  function RoutingCorrected(region: string): (routing: string)
    ensures Upper(region) in PlatformRouting ==> routing == PlatformRouting[Upper(region)]
    ensures Upper(region) !in PlatformRouting ==> routing == "americas"
  {
    Get(PlatformRouting, Upper(region), "americas")
  }

  /** Every selector value, in either spelling, gets the route of its own REGION_ROUTING entry. */
  lemma RoutingCorrectedFindsEverySelectorCode(region: string)
    requires region in Regions
    ensures region in PlatformRouting
    ensures RoutingCorrected(region) == PlatformRouting[region]
    ensures RoutingCorrected(Lower(region)) == PlatformRouting[region]
  {
    RegionsNoLower();
    UpperOfLower(region);
    UpperKeepsNoLower(region);
  }

  /** `region_routing.get(region.upper(), 'americas')`, the account-lookup routing, which upper-cases its key. */
  function AccountRouting(region: string): (routing: string)
    ensures Upper(region) in RegionRouting ==> routing == RegionRouting[Upper(region)]
    ensures Upper(region) !in RegionRouting ==> routing == "americas"
  {
    Get(RegionRouting, Upper(region), "americas")
  }

  /** The upper-casing lookup is case-insensitive: every table entry is found from its lower-case spelling. */
  lemma AccountRoutingFindsEveryRegion(region: string)
    requires region in RegionRouting
    ensures AccountRouting(Lower(region)) == RegionRouting[region]
    ensures AccountRouting(region) == RegionRouting[region]
  {
    RegionRoutingKeysNoLower();
    UpperOfLower(region);
    UpperKeepsNoLower(region);
  }

  datatype LookupError = TagRequired | InvalidRegion(region: string)

  /** The Riot ID parts and the routing and platform the account lookup is sent to. */
  datatype AccountRequest = AccountRequest(gameName: string, tagLine: string, routing: string, platform: string)

  /**
   * `summoner_name.split('#')`: the game name is the first part, the tag the
   * second; a missing or empty tag raises.
   */
  function SplitRiotId(summonerName: string): (r: Result<(string, string), LookupError>)
    ensures r.Failure? ==> r.error == TagRequired
  {
    var parts := Split(summonerName, '#');
    var gameName := parts[0];
    if |parts| > 1 && parts[1] != "" then Success((gameName, parts[1])) else Failure(TagRequired)
  }

  /**
   * What the split means on the text: the game name is everything before
   * the first '#', the tag is the text after it up to the next '#' or the
   * end (so anything after a second '#' is dropped), and the split fails
   * exactly when there is no '#' or the tag so delimited is empty.
   */
  lemma RiotIdParts(summonerName: string)
    ensures var s := summonerName;
            var i := IndexOf(s, '#');
            var tail := if i < |s| then s[i + 1..] else "";
            var tag := tail[..IndexOf(tail, '#')];
            SplitRiotId(s) == if i < |s| && tag != "" then Success((s[..i], tag)) else Failure(TagRequired)
  {
    var s := summonerName;
    var i := IndexOf(s, '#');
    SplitHead(s, '#');
    if i < |s| {
      SplitHead(s[i + 1..], '#');
    }
  }

  /**
   * The checks get_summoner_by_name makes before its first request: the
   * Riot ID must carry a tag, and the upper-cased region must be a platform
   * code of REGION_ROUTING.
   */
  function AccountLookup(summonerName: string, region: string): (r: Result<AccountRequest, LookupError>)
    ensures r.Success? <==> SplitRiotId(summonerName).Success? && Upper(region) in PlatformRouting
    ensures SplitRiotId(summonerName).Failure? ==> r == Failure(TagRequired)
    ensures r.Success? ==> && r.value.gameName == SplitRiotId(summonerName).value.0
                           && r.value.tagLine == SplitRiotId(summonerName).value.1
                           && r.value.routing == AccountRouting(region)
                           && r.value.platform == PlatformRouting[Upper(region)]
  {
    match SplitRiotId(summonerName)
    case Failure(e) => Failure(e)
    case Success((gameName, tagLine)) =>
      var regionUpper := Upper(region);
      if regionUpper !in PlatformRouting then Failure(InvalidRegion(region))
      else Success(AccountRequest(gameName, tagLine, AccountRouting(region), PlatformRouting[regionUpper]))
  }

  /** The region -> platform conversion of get_ranked_stats and get_mastery_champions. */
  function ConvertPlatform(region: string): (platform: string)
    ensures !HasUpperAnywhere(platform)
    ensures EndsWith(platform, '1') || platform == "la2"
    ensures Lower(region) == "lan" ==> platform == "la1"
    ensures Lower(region) == "las" ==> platform == "la2"
    ensures EndsWith(Lower(region), '1') ==> platform == Lower(region)
    ensures (Lower(region) != "lan" && Lower(region) != "las" && !EndsWith(Lower(region), '1'))
              ==> platform == Lower(region) + "1"
  {
    var p := Lower(region);
    if p == "lan" then "la1"
    else if p == "las" then "la2"
    else if !EndsWith(p, '1') then p + "1"
    else p
  }

  predicate HasUpperAnywhere(s: string) {
    exists i :: 0 <= i < |s| && IsUpper(s[i])
  }

  /** Three of the region selector's own values are turned into codes that are not platform codes of the table. */
  lemma ConvertPlatformBreaksSelectorCodes()
    ensures "LA2" in Regions && ConvertPlatform("LA2") == "la21" && Upper("la21") !in PlatformRouting
    ensures "KR" in Regions && ConvertPlatform("KR") == "kr1" && Upper("kr1") !in PlatformRouting
    ensures "RU" in Regions && ConvertPlatform("RU") == "ru1" && Upper("ru1") !in PlatformRouting
  {
    assert Regions[6] == "LA2" && Regions[4] == "KR" && Regions[10] == "RU";
    ConvertLA2();
    ConvertKR();
    ConvertRU();
  }

  lemma ConvertLA2()
    ensures ConvertPlatform("LA2") == "la21" && Upper("la21") !in PlatformRouting
  {
    assert Lower("LA2") == "la2";
    assert "la2" != "lan" && "la2" != "las" && !EndsWith("la2", '1');
    assert Upper("la21") == "LA21";
  }

  lemma ConvertKR()
    ensures ConvertPlatform("KR") == "kr1" && Upper("kr1") !in PlatformRouting
  {
    assert Lower("KR") == "kr";
    assert Upper("kr1") == "KR1";
  }

  lemma ConvertRU()
    ensures ConvertPlatform("RU") == "ru1" && Upper("ru1") !in PlatformRouting
  {
    assert Lower("RU") == "ru";
    assert Upper("ru1") == "RU1";
  }

  function LowerRegions(): seq<string> {
    seq(|Regions|, i requires 0 <= i < |Regions| => Lower(Regions[i]))
  }

  /** The corrected conversion: a region the selector offers is already a platform code and only gets lower-cased. */
  function ConvertPlatformCorrected(region: string): (platform: string)
    ensures Lower(region) in LowerRegions() ==> platform == Lower(region)
    ensures Lower(region) !in LowerRegions() ==> platform == ConvertPlatform(region)
  {
    if Lower(region) in LowerRegions() then Lower(region) else ConvertPlatform(region)
  }

  /** Every selector value becomes the platform code of its own REGION_ROUTING entry. */
  lemma ConvertPlatformCorrectedKeepsSelectorCodes(region: string)
    requires region in Regions
    ensures Upper(ConvertPlatformCorrected(region)) == region && region in PlatformRouting
  {
    var i :| 0 <= i < |Regions| && Regions[i] == region;
    assert LowerRegions()[i] == Lower(region);
    RegionsNoLower();
    UpperOfLower(region);
  }
}
