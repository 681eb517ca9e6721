# League of Legends summoner lookup: the data handling, in Dafny

This project models the sequential data handling of a desktop client for the
Riot Games API. Each network call, the clock, the file system and the MD5 hash
become parameters, or abstract stores that the model rewrites. What remains
is modelled:

- **Ranked details** (`src/api/riot_api.py`): the reduction over a player's
  recent matches to a streak, role counts and KDA totals. Every ranked-queue
  entry is enriched with the same four values.
- **Mastery summary** (`src/api/riot_api.py`): a histogram of levels, the
  point total, the three champions closest to their next level, and the
  first three champions of the list.
- **Match batch and defaulting** (`src/api/riot_api.py`): the first-ten match
  batch with failed fetches dropped, and the `x or []` defaulting of
  `fetch_all_data`.
- **Pure rules** (`src/api/riot_api.py`): the `Name#TAG` Riot-ID split, the
  region-to-platform conversion and the routing lookups.
- **Rate limiter** (`src/utils/rate_limiter.py`): the per-endpoint throttle.
- **Match analytics** (`src/analysis/`): the match-history analysis, the
  per-champion statistics and the rune statistics.
- **Image cache** (`src/utils/image_utils.py`): a memory tier, then a disk
  tier keyed by the URL's hash, then the network.
- **Age sweep** (`src/utils/cache_manager.py`): removes old files and reports
  how many were removed and how many bytes they held.
- **Recent searches** (`src/utils/recent_searches.py`): move-to-front and
  de-duplicated, with a length limit.

Layout, one module per file:

- **Shared modules:**
  - `Wrappers` holds Option and Result.
  - `Text` holds ASCII case mapping, `split`/`join` and integer printing.
  - `Collections` holds insertion-ordered counters: a `Histogram` is the counts with their key order, as a Python dict keeps them. It also has first-maximum selection and slicing.
  - `StableSort` models `sorted`/`list.sort` as a stable insertion sort by an integer key.
  - `MatchData` holds the match payload records, the player lookup and the sums.
- **riot_api.py** is split into `RiotRules`, `RankedDetails`, `MasteryDetails` and `Orchestration`.
- **The rest** follow the source files:
  - `RateLimiting` (class `RateLimiter`);
  - `MatchAnalysis`, `ChampionStats`, `RuneAnalysis`;
  - `ImageCache` (class `ImageStore`), `CacheSweep` (class `CacheManager`);
  - `RecentSearchList` (class `RecentSearches`).

Each loop of the source is a method with a `while` loop, except the
`for match_id in match_ids[:10]` of `fetch_match_details_batch`, which only
collects the results of a function parameter and is the function
`Orchestration.MatchDetailsBatch`. Each loop method's invariant ties the
loop state to a specification function of the prefix already processed.

- The specification functions are written over the whole input: for example, `HistoryOf(gs)` builds the role histogram as `TallyOf(Project(gs, Role))`.
- The properties the source promises are lemmas about those functions.
- Example properties: counts that add up, records that sum exactly the games they key, the first maximum, and a stable sort that keeps ties in order.
- Python dictionaries that the source mutates in place are map-valued fields or variables that the methods reassign.
- A Python exception (a `next()` with no match, a missing `"info"`, short `styles`, a zero division) is a `Failure` value of the analysis result.

## Model

| member | source | states |
|---|---|---|
| RiotRules.MatchRouting | src/api/riot_api.py:63 | The match routing, which lower-cases the region before looking it up in the upper-case-keyed table, is "americas" for every region string. |
| RiotRules.MatchHistoryRouting | src/api/riot_api.py:437 | The same lower-cased lookup in REGION_ROUTING of the match-history helper is "americas" for every region string. |
| RiotRules.LowerCasedLookupMisses | src/api/riot_api.py:12-24 | A lookup of a lower-cased key in a table whose every key holds an upper-case letter always returns the default. |
| RiotRules.RegionRoutingKeysUpper | src/api/riot_api.py:12-24 | Every key of the routing table holds an upper-case letter. |
| RiotRules.MatchRoutingIgnoresTable | src/api/riot_api.py:182 | "EUW" maps to "europe" in the table, yet its match routing is "americas"; "KR" is "asia" in REGION_ROUTING, yet its match-history routing is "americas". |
| RiotRules.AccountRouting | src/api/riot_api.py:326-328 | The upper-casing lookup returns the table's route for the upper-cased region, and "americas" for a region not in the table. |
| RiotRules.AccountRoutingFindsEveryRegion | src/api/riot_api.py:326-328 | Every key of the account routing table is found both from its own spelling and from its lower-case spelling. |
| RiotRules.SelectorCodeMisrouted | src/api/riot_api.py:63 | The selector value "EUW1" is routed to "europe" by REGION_ROUTING, yet both the match routing and the account routing send it to "americas". |
| RiotRules.RoutingCorrected | src/utils/constants.py:26-38 | The corrected routing is REGION_ROUTING's route for the upper-cased region, and "americas" for a region not in that table. |
| RiotRules.RoutingCorrectedFindsEverySelectorCode | src/utils/constants.py:11-38 | Every selector value is a REGION_ROUTING key, and the corrected routing gives it that key's route from its own and from its lower-case spelling. |
| RiotRules.SplitRiotId | src/api/riot_api.py:304-310 | The only failure of the Riot-ID split is the missing-tag error. |
| RiotRules.RiotIdParts | src/api/riot_api.py:304-310 | The game name is the text before the first '#'. The tag is the next '#'-delimited segment, and later segments are dropped. The split fails exactly when there is no '#' or that segment is empty. |
| RiotRules.AccountLookup | src/api/riot_api.py:302-332 | The account lookup succeeds exactly when the split succeeds and the upper-cased region is a REGION_ROUTING key. A missing tag is reported before the region. On success it carries the two parts, the upper-cased routing and the platform of the region. |
| RiotRules.ConvertPlatform | src/api/riot_api.py:377-384 | The code is lower case and ends in '1', or is "la2". A region already ending in '1' is only lower-cased. "lan" and "las", in any case, become "la1" and "la2". Any other region gets a '1' appended. |
| RiotRules.ConvertPlatformBreaksSelectorCodes | src/api/riot_api.py:377-384 | The selector values "LA2", "KR" and "RU" become "la21", "kr1" and "ru1", which are not platform codes of REGION_ROUTING. |
| RiotRules.ConvertPlatformCorrected | src/api/riot_api.py:377-384 | A selector region is only lower-cased; any other region is converted as before. |
| RiotRules.ConvertPlatformCorrectedKeepsSelectorCodes | src/api/riot_api.py:377-384 | Every selector value converts to the lower-case spelling of its own REGION_ROUTING key. |
| RankedDetails.RunAtEnd | src/api/riot_api.py:104-111 | The run ending at the last game has length between 1 and the number of games. |
| RankedDetails.RunAtEndIsRun | src/api/riot_api.py:104-111 | The final run is a run of equal outcomes, and the game before it, if any, has the other outcome. |
| RankedDetails.RunAtEndIsLongestEndingRun | src/api/riot_api.py:104-111 | No run ending at the last game is longer than the final run. |
| RankedDetails.LongestRunIsUpperBound | src/api/riot_api.py:112 | Every run of equal outcomes is at most the longest run. |
| RankedDetails.LongestRunIsAttained | src/api/riot_api.py:112 | Some run has exactly the longest-run length. |
| RankedDetails.StreakMeaning | src/api/riot_api.py:104-112 | The streak is 0 exactly when no game was analysed. Otherwise it is positive exactly when the last analysed game was won. Its magnitude is the longest run of equal outcomes. |
| RankedDetails.StreakExamples | src/api/riot_api.py:104-112 | W W L W gives 2, W W L gives -2 and a single loss gives -1. |
| RankedDetails.StreakUpdate | src/api/riot_api.py:104-112 | One step of the streak loop turns the streak and the current run of a prefix into those of the prefix plus one game. |
| RankedDetails.MaxAbs | src/api/riot_api.py:112 | The result is the larger of the two absolute values. |
| RankedDetails.PlayerIn | src/api/riot_api.py:96-102 | A fetched match contributes its one participant with the searched puuid. It contributes nothing when the fetch failed, "info" is missing or the player is absent. |
| RankedDetails.Analysed | src/api/riot_api.py:96-102 | At most one participant is analysed per match. |
| RankedDetails.AnalysedArePlayer | src/api/riot_api.py:101-102 | Every analysed participant carries the searched puuid. |
| RankedDetails.SessionMeaning | src/api/riot_api.py:96-122 | The reduction gives: the streak of the outcomes; the roles with no duplicate key, each counted by its games, the counts adding up to the games analysed; and the KDA sums. |
| RankedDetails.MostPlayedRole | src/api/riot_api.py:132 | With no role the result is "Unknown". Otherwise it is a role with the maximal count, and no earlier role reaches that count. |
| RankedDetails.Average | src/api/riot_api.py:126-130 | A total divided by the games analysed, and 0 with no game. |
| RankedDetails.AddGameTotals | src/api/riot_api.py:103-122 | The loop body turns the totals of the analysed prefix into those of the prefix plus the next participant. |
| RankedDetails.AnalyzeMatch | src/api/riot_api.py:96-123 | One match's step of the loop, with the participant search and its `break`, adds exactly that match's analysed participant. |
| RankedDetails.AnalyzeMatches | src/api/riot_api.py:89-123 | The analysis loop over the fetched details computes the session of exactly the analysed participants. |
| RankedDetails.Enrich | src/api/riot_api.py:135-139 | An enriched queue entry gains exactly the four keys with the session's values. Every other key keeps its value. |
| RankedDetails.FetchMatchDetails | src/api/riot_api.py:82-87 | Every match id is fetched, and the results come out in id order. |
| RankedDetails.EnrichAll | src/api/riot_api.py:135-139 | Every queue entry is enriched with the same session. |
| RankedDetails.FetchRankedDetails | src/api/riot_api.py:71-141 | Missing or empty ranked data gives `{}`. Missing or empty match ids give the ranked data unchanged. Otherwise every entry is enriched with the session of the analysed matches. |
| MasteryDetails.CandidatesMeaning | src/api/riot_api.py:234-243 | The progress records are exactly those of the champions below level 7 needing fewer than 10000 points, with a missing count taken as 0. |
| MasteryDetails.AccumulatedSnoc | src/api/riot_api.py:230-243 | One champion bumps its level's count, adds its points and appends its record when it is close to the next level. |
| MasteryDetails.AddChampion | src/api/riot_api.py:230-243 | The loop body turns the summary of a prefix into the summary of the prefix plus one champion. |
| MasteryDetails.FetchMasteryDetails | src/api/riot_api.py:222-254 | The method computes the summary of the mastery list and the score, and `{}` for a missing or empty list. |
| MasteryDetails.MasteryTotals | src/api/riot_api.py:226-232 | The level keys are exactly the levels present, with no duplicate. Each count is that level's number of champions, and the counts add up to the list length. The point total is the sum of the points. |
| MasteryDetails.RecentProgressMeaning | src/api/riot_api.py:246-252 | The recent progress holds min(3, n) candidates in ascending points still needed. Every candidate left out needs at least as many points as each one kept. |
| MasteryDetails.RecentProgressStable | src/api/riot_api.py:246 | Candidates needing equally many points keep their list order. |
| MasteryDetails.MasteryRecentProgress | src/api/riot_api.py:246-253 | At most three close champions, sorted, each below level 7 and 10000 points; the top champions are the first three entries. |
| Orchestration.MatchDetailsBatch | src/api/riot_api.py:190-200 | The batch has at most ten entries. |
| Orchestration.MatchDetailsBatchMeaning | src/api/riot_api.py:190-200 | The batch holds each payload as often as the fetches of the first ten ids returned it, and nothing else. |
| Orchestration.MatchDetailsBatchAllFetched | src/api/riot_api.py:190-200 | When no fetch fails, the batch is the payloads of the first ten ids in order. |
| Orchestration.RankedOrEmpty | src/api/riot_api.py:172 | `{}` and a missing ranked result become []; a queue list passes through. |
| Orchestration.FetchAllData | src/api/riot_api.py:164-172 | Each component is [] exactly when its result was missing or empty; otherwise it is passed through unchanged. |
| RateLimiting.SleepTimeMeaning | src/utils/rate_limiter.py:12-16 | The sleep is never negative. It is positive exactly when the endpoint was seen less than an interval ago. A new endpoint never sleeps. |
| RateLimiting.WaitSpacing | src/utils/rate_limiter.py:12-18 | With a clock that does not run backwards, the recorded request comes at least one interval after the previous one. |
| RateLimiting.RateLimiter.constructor | src/utils/rate_limiter.py:5-8 | No endpoint is seen yet, and the interval is the reciprocal of the rate. |
| RateLimiting.RateLimiter.Wait | src/utils/rate_limiter.py:10-18 | `wait` sleeps the rest of the interval when needed, records the after-sleep time for its endpoint only, and keeps the rate. |
| RateLimiting.PositiveRateThrottles | src/utils/rate_limiter.py:8-16 | With a positive rate, an immediate repeat request sleeps exactly one positive interval. |
| RateLimiting.TraceSpacing | src/utils/rate_limiter.py:10-18 | Over any run of waits with a non-decreasing clock, one endpoint's successive recorded times are at least one interval apart. |
| RateLimiting.ReplayRecordsLastCall | src/utils/rate_limiter.py:18 | After a run of waits, an endpoint's record is the time of its last call, or its old record when it was not called. |
| RateLimiting.OtherEndpointsNeverThrottle | src/utils/rate_limiter.py:10-18 | Waits on other endpoints in between never change how long an endpoint's next wait sleeps. |
| MatchData.FindPlayer | src/analysis/match_analysis.py:16 | The lookup finds nothing exactly when no participant has the puuid, and otherwise returns a participant with that puuid. |
| MatchData.FindParticipant | src/api/riot_api.py:101-102 | The participant search loop returns the first participant with the puuid. |
| MatchData.FindGame | src/analysis/match_analysis.py:16 | The lookup of one match fails on a missing "info" or a missing player, and otherwise gives the player's game. |
| MatchData.PlayersOf | src/analysis/match_analysis.py:15-16 | The lookup over all matches succeeds exactly when every match has the player, giving one game per match in order. A failure is the failure of some match. |
| MatchData.PlayersOfPrefixFailure | src/analysis/match_analysis.py:15-16 | A failure on a prefix is the failure of the whole list. |
| MatchData.PlayersOfStep | src/analysis/match_analysis.py:15-16 | Below a successful prefix, the next match either ends the run with its failure or appends its game. |
| MatchData.KdaRatio | src/analysis/match_analysis.py:72 | `(kills + assists) / max(1, deaths)`. |
| MatchData.Percent | src/analysis/match_analysis.py:59 | `part / whole * 100`. |
| MatchData.GameStatsSnoc | src/analysis/match_analysis.py:37-42 | One more game adds one game, its win, kills, deaths and assists to a record. |
| MatchData.WhereCount | src/analysis/match_analysis.py:24-25 | The games with a key are as many as the key occurs. |
| MatchAnalysis.HistorySnoc | src/analysis/match_analysis.py:15-55 | The loop body turns the analysis of a prefix into that of the prefix plus one game. |
| MatchAnalysis.AddGame | src/analysis/match_analysis.py:18-55 | The loop body method computes the analysis of the prefix plus one game. |
| MatchAnalysis.AddToRole | src/analysis/match_analysis.py:28-42 | A role record is created at zero the first time, then updated by the game; no other role changes. |
| MatchAnalysis.RoleRatesLoop | src/analysis/match_analysis.py:69-72 | Every role with games gets its winrate and KDA, and no other role does. |
| MatchAnalysis.Finish | src/analysis/match_analysis.py:57-74 | The keys added after the loop are the averages of the history. |
| MatchAnalysis.AnalyzeMatchHistory | src/analysis/match_analysis.py:3-74 | The method computes the analysis of the player's games, or the first match's failure. |
| MatchAnalysis.HistoryShape | src/analysis/match_analysis.py:45-55 | One duration and one recent-game entry per match. |
| MatchAnalysis.WinsPlusLosses | src/analysis/match_analysis.py:20-21 | Wins and losses add up to the games. |
| MatchAnalysis.HistoryCounts | src/analysis/match_analysis.py:19-21 | `wins + losses == total_games == len(matches)`. |
| MatchAnalysis.HistoryKeys | src/analysis/match_analysis.py:24-35 | The role histogram and the role records are keyed by exactly the roles played, with no duplicate in the key order. |
| MatchAnalysis.HistoryRoleTotal | src/analysis/match_analysis.py:24-25 | The role counts add up to the games. |
| MatchAnalysis.HistoryPerformance | src/analysis/match_analysis.py:37-42 | A role record's games equal the role's count, which is positive, and its wins are at most its games. Its kills, deaths and assists sum exactly that role's games. |
| MatchAnalysis.HistoryInOrder | src/analysis/match_analysis.py:45-55 | The i-th duration and recent game are those of the i-th match. |
| MatchAnalysis.AveragesMeaning | src/analysis/match_analysis.py:58-66 | The averages exist exactly when there was a game. The winrate is in percent, the duration is the mean, and the preferences are keyed by the roles. |
| MatchAnalysis.RoleRatesCoverRoles | src/analysis/match_analysis.py:68-72 | Every role played gets its rates. |
| Text.IntToStringInjective | src/analysis/match_analysis.py:51 | Distinct integers print differently, so the KDA text determines each number. |
| ChampionStats.TotalsSnoc | src/analysis/champion_stats.py:28-50 | One game updates a champion's record, its amounts, its role counter and its item counter. |
| ChampionStats.ItemsSnoc | src/analysis/champion_stats.py:47-50 | The item counter of one more game counts its present, non-zero item slots in slot order. |
| ChampionStats.ItemKeysFromSlots | src/analysis/champion_stats.py:47-50 | A champion's item counter never holds item 0: every counted item is the value of one of slots 0-5 of one of its games. |
| ChampionStats.CountItems | src/analysis/champion_stats.py:47-50 | The inner loop over slots 0 to 5 counts exactly the present, non-zero items. |
| ChampionStats.AddChampionGame | src/analysis/champion_stats.py:28-50 | The loop body on one champion's record adds the game. |
| ChampionStats.TableSnoc | src/analysis/champion_stats.py:7-50 | One game creates its champion's record at zero the first time and updates only that record. |
| ChampionStats.ChampionOrderSnoc | src/analysis/champion_stats.py:12-13 | A new champion is appended to the key order, and a known one leaves it alone. |
| ChampionStats.AddToChampion | src/analysis/champion_stats.py:12-50 | The method computes the table and key order after one game. |
| ChampionStats.StepTable | src/analysis/champion_stats.py:7-50 | The loop body turns the table of a prefix into that of the prefix plus one game. |
| ChampionStats.PerMinute | src/analysis/champion_stats.py:55-64 | `x / (seconds / 60)`. |
| ChampionStats.PerGame | src/analysis/champion_stats.py:59-65 | `x / games`. |
| ChampionStats.ItemPairs | src/analysis/champion_stats.py:68 | The items with their counts, in first-built order. |
| ChampionStats.Summarize | src/analysis/champion_stats.py:53-68 | The winrate is in percent; the KDA is kills plus assists over the deaths, at least 1; kills, deaths, assists and vision are per game; CS, gold and damage are per minute. The main role is the first role in insertion order with the maximal count. There are at most six core items. |
| ChampionStats.CoreItemsMeaning | src/analysis/champion_stats.py:68 | At most six core items, by non-increasing count, a prefix of the stable descending sort, each with its own count. |
| ChampionStats.SummarizeAllMeaning | src/analysis/champion_stats.py:53-68 | The second loop succeeds exactly when every champion has play time, and then every champion gets its summary. |
| ChampionStats.SummarizeAllFailure | src/analysis/champion_stats.py:55-62 | A failure names the first champion, in key order, with zero play time. |
| ChampionStats.SummarizeStep | src/analysis/champion_stats.py:53-68 | One champion of the second loop either fails on zero play time or adds its summary. |
| ChampionStats.SummarizeChampions | src/analysis/champion_stats.py:53-68 | The second loop computes the summaries or the zero-play-time failure. |
| ChampionStats.BuildTable | src/analysis/champion_stats.py:5-50 | The main loop yields the totals of every played champion and their first-seen order, or the failure of the first match without `info` or without the player. |
| ChampionStats.Finish | src/analysis/champion_stats.py:52-70 | After the main loop, the second loop runs on the table of the games. |
| ChampionStats.AnalyzeChampionStats | src/analysis/champion_stats.py:3-70 | The method computes the champion statistics of the player's games, or the first failure. |
| ChampionStats.TablePlayed | src/analysis/champion_stats.py:12-31 | The key order lists exactly the table's champions, and each record has at least one game. |
| ChampionStats.TableMeaning | src/analysis/champion_stats.py:7-50 | A champion has a record exactly when it was played. The record sums exactly its games. |
| ChampionStats.ChampionGamesTotal | src/analysis/champion_stats.py:28-31 | The champions' games add up to all the games. |
| ChampionStats.RolesTotal | src/analysis/champion_stats.py:31-44 | A champion's role counts add up to its games, and its wins are at most its games. |
| Collections.MostCommon | src/analysis/champion_stats.py:67 | `max` by count picks a key with the maximal count, and no earlier key reaches it. |
| StableSort.SortSorted | src/analysis/champion_stats.py:68 | The sort orders by the key. |
| StableSort.SortPermutes | src/analysis/champion_stats.py:68 | The sort is a permutation. |
| StableSort.SortStable | src/analysis/champion_stats.py:68 | Elements with equal keys keep their order. |
| RuneAnalysis.PicksOfStep | src/analysis/rune_analysis.py:13-19 | The next match either ends the run with its failure, adds its runes, or adds nothing without perks. |
| RuneAnalysis.PicksOfPrefixFailure | src/analysis/rune_analysis.py:13-19 | A failure on a prefix is the failure of the whole list. |
| RuneAnalysis.FindPick | src/analysis/rune_analysis.py:14-28 | The method finds the player and reads their keystone and two paths, failing on short styles. |
| RuneAnalysis.PicksAreGamesWithPerks | src/analysis/rune_analysis.py:13-16 | When the runes are read, every match has the player. One pick exists per game with perks, and each pick is such a game. |
| RuneAnalysis.ComboKeyInjective | src/analysis/rune_analysis.py:36 | `"{primary}_{secondary}"` determines both paths. |
| RuneAnalysis.UsageSnoc | src/analysis/rune_analysis.py:22-33 | One game with perks bumps its keystone, its primary path and its secondary path. |
| RuneAnalysis.CombosSnoc | src/analysis/rune_analysis.py:36-51 | One game creates its combination at zero the first time and updates only that record. |
| RuneAnalysis.KeystonesSnoc | src/analysis/rune_analysis.py:53-66 | One game updates only its keystone's record. A new keystone takes this game's healing and shielding. |
| RuneAnalysis.TablesSnoc | src/analysis/rune_analysis.py:16-66 | The loop body turns the tables of a prefix into those of the prefix plus one game. |
| RuneAnalysis.AddToCombo | src/analysis/rune_analysis.py:36-51 | The combination update method. |
| RuneAnalysis.AddToKeystone | src/analysis/rune_analysis.py:53-66 | The keystone update method. |
| RuneAnalysis.AddRunes | src/analysis/rune_analysis.py:21-66 | The update of all the tables by one game with perks. |
| RuneAnalysis.StepTables | src/analysis/rune_analysis.py:16-66 | The loop body computes the tables of the prefix plus one game. |
| RuneAnalysis.SummarizeCombos | src/analysis/rune_analysis.py:69-72 | Every combination with games gets its winrate and KDA. |
| RuneAnalysis.SummarizeKeystones | src/analysis/rune_analysis.py:74-77 | Every keystone with games gets its winrate and mean damage. |
| RuneAnalysis.Finish | src/analysis/rune_analysis.py:68-79 | The passes after the loop finalize the tables. |
| RuneAnalysis.AnalyzeRunes | src/analysis/rune_analysis.py:3-79 | The method computes the rune statistics of the player's games, or the first failure. |
| RuneAnalysis.TablesKeys | src/analysis/rune_analysis.py:36-61 | The combination records and the keystone records are keyed by exactly the keys in their insertion orders. |
| RuneAnalysis.ResultKeyOrder | src/analysis/rune_analysis.py:36-79 | In the returned statistics, the combination order and the keystone usage order list exactly the combination and keystone keys. |
| RuneAnalysis.UsageTotals | src/analysis/rune_analysis.py:23-33 | Each usage counter adds up to the number of games with perks. |
| RuneAnalysis.KeystoneGamesAreUsage | src/analysis/rune_analysis.py:22-24 | `performance_by_keystone[k].games == keystone_usage[k] > 0`, and wins are at most games. |
| RuneAnalysis.KeystoneHealingFromFirstGame | src/analysis/rune_analysis.py:54-61 | A keystone's healing and shielding are those of its first game. |
| RuneAnalysis.ComboMeaning | src/analysis/rune_analysis.py:36-51 | A combination's record sums exactly the games with that primary and secondary path, and there is at least one. |
| RuneAnalysis.ComboGamesTotal | src/analysis/rune_analysis.py:36-51 | The combination records' games add up to the number of games with perks, and no combination has more wins than games. |
| RuneAnalysis.EveryComboGetsRates | src/analysis/rune_analysis.py:69-72 | Every combination gets its rates. |
| RuneAnalysis.EveryKeystoneGetsRates | src/analysis/rune_analysis.py:74-77 | Every keystone gets its rates. |
| ImageCache.CachePathInjective | src/utils/image_utils.py:18-26 | Two URLs share a disk path exactly when their digests agree. |
| ImageCache.MemoryHit | src/utils/image_utils.py:32-33 | A memory hit returns the memory bytes and changes nothing. |
| ImageCache.DiskHit | src/utils/image_utils.py:36-39 | A disk hit returns the disk bytes and copies them into memory, with no request. |
| ImageCache.NetworkFetch | src/utils/image_utils.py:40-53 | A miss makes one request. A 200 writes the bytes to disk and memory; any other status returns None and changes neither tier. |
| ImageCache.SecondLookupHitsMemory | src/utils/image_utils.py:32-53 | After bytes were obtained, the next lookup of the URL is a memory hit with no request. No cached entry is ever lost. |
| ImageCache.ImageStore.FetchImage | src/utils/image_utils.py:28-68 | fetch_image updates the tiers as the lookup does and returns the decoded image. |
| ImageCache.ImageStore.LoadImagesBatch | src/utils/image_utils.py:86-131 | The batch loop fetches every URL in turn and stores each result under its URL. Each URL is counted as a hit when the memory holds it afterwards. |
| ImageCache.BatchKeys | src/utils/image_utils.py:98-108 | The batch has a key for every input URL and no other. |
| ImageCache.BatchCounts | src/utils/image_utils.py:98-104 | Hits and misses add up to the URLs, and the hits are the URLs whose bytes were obtained from any tier. |
| CacheSweep.SweepMembers | src/utils/cache_manager.py:87-93 | The removed files are exactly the readable ones strictly older than the maximum age; all others stay. |
| CacheSweep.SweepPartition | src/utils/cache_manager.py:59-74 | The removed and the kept files together are exactly the directory. |
| CacheSweep.SweepSizes | src/utils/cache_manager.py:62-74 | The removed and the kept bytes add up to the directory's bytes. |
| CacheSweep.NothingOldNothingRemoved | src/utils/cache_manager.py:91 | With no file older than the maximum age, a file exactly that old included, nothing is removed. |
| CacheSweep.SweepDirectory | src/utils/cache_manager.py:59-65 | The sweep of one directory keeps the young files and counts the removed files and their bytes. |
| CacheSweep.DirectorySize | src/utils/cache_manager.py:99-102 | The bytes of one directory. |
| CacheSweep.ClearedMb | src/utils/cache_manager.py:117 | The stored bytes in megabytes, and 0 when they are 0. |
| CacheSweep.CacheManager.constructor | src/utils/cache_manager.py:9-27 | The maximum age is the days in seconds, and the stats are those loaded or zero. |
| CacheSweep.CacheManager.ClearOldFiles | src/utils/cache_manager.py:50-85 | Both directories are swept. The stats are overwritten with this sweep's totals, which are returned. |
| CacheSweep.CacheManager.GetCacheSize | src/utils/cache_manager.py:95-109 | All the bytes of both directories, in megabytes. |
| CacheSweep.CacheManager.GetCacheStats | src/utils/cache_manager.py:111-118 | The current size and the stored stats. |
| RecentSearchList.WithoutMembers | src/utils/recent_searches.py:35-36 | The filter drops exactly the entries for the pair. |
| RecentSearchList.AddedMeaning | src/utils/recent_searches.py:32-46 | The new entry comes first and is the only one for its pair. The list is at most the maximum long. The others are the earlier entries for other pairs, in order, cut only at the maximum. |
| RecentSearchList.AddedUnique | src/utils/recent_searches.py:35-43 | Adding keeps pairs unique. |
| RecentSearchList.RecentSearches.AddSearch | src/utils/recent_searches.py:32-49 | add_search replaces the list by the added list. |
| RecentSearchList.RecentSearches.GetSearches | src/utils/recent_searches.py:51-53 | The current list. |
| RecentSearchList.RecentSearches.ClearSearches | src/utils/recent_searches.py:55-58 | The list becomes empty. |

## Left out

- **Concurrency and HTTP:** `asyncio.gather`, `aiohttp`, `requests` and `raise_for_status`.
  - Every fetch is a sequential call to a function parameter that returns an optional payload.
  - The results keep the order in which the source gathers them.
- **API wrappers:** the single-request wrappers (`get_summoner_data`, `get_ranked_stats`, `get_mastery_champions`, `get_match_history`, `get_match_details`) are not modelled beyond their routing and platform rules. They are HTTP calls.
- **Persistence:** JSON files, `os.listdir`, `os.remove`, `os.makedirs` and the persistence of the recent-search and cache-stats files.
  - The directories and the stored data are values handed to the constructors.
  - The methods rewrite fields in their place.
- **Hashing and images:** MD5 is an abstract function from string to string. PIL decoding and resizing and `CTkImage` are an abstract decode predicate.
- **Clocks:** time and dates are inputs.
  - The rate limiter's clock is an exact `real` in seconds, and "the clock after the sleep" is a parameter.
  - The sweep's times are whole seconds, and `nowIso` stands for `now.isoformat()`.
- **Numbers:** floating point is exact `real` arithmetic, and integers are unbounded.
- **Case mapping:** `str.lower`/`str.upper` are modelled on ASCII letters only.
- **`fetch_multiple_images`:** not modelled. It passes the session where `fetch_image` takes the URL and the URL where it takes the size, then gathers results that cannot be awaited.
- **Debug output of `load_images_batch`:** the source returns only the loaded images and prints its hit and miss counts when debugging. The model returns those counts as outputs in place of the print.
- **Default arguments:** `requests_per_second=20`, `max_age_days=7` and `max_searches=5` are required constructor parameters in the model; the defaults themselves are not modelled.
- **Exceptions inside `load_images_batch`:** the `try`/`except` around each URL has no model; in the model no step raises.
- **Representation of Python values:**
  - A dictionary's key order is kept where the source's output depends on it: the role, level, item, usage and combination histograms.
  - The returned rune statistics carry the combination order. The keystone records keep no separate key order; the keystone usage histogram's order is the same (RuneAnalysis.ResultKeyOrder).
  - The values that `analyze_*` writes into its dictionaries after the loop are returned as separate summary records next to the loop's records.
  - The match payload records make every directly indexed key mandatory, so the `KeyError` a payload without one raises is not modelled. These keys are `participants`, `puuid`, `win`, `kills`, `deaths`, `assists`, `teamPosition`, `championName`, `goldEarned`, `totalMinionsKilled`, `totalDamageDealtToChampions`, `visionScore`, `gameDuration`, `styles`, `style` and `perk`.
  - Likewise the mastery entry records make `championId`, `championLevel` and `championPoints` mandatory, so the `KeyError` a mastery entry without one raises is not modelled.
- RateLimiting.RateLimiter.constructor: requires a non-zero rate. For a rate of 0 the source raises `ZeroDivisionError`; that path is not modelled.
- RankedDetails.StreakMeaning: the sign of the reported streak is the outcome of the last analysed game (the `current_streak > 0` factor), not the sign of the longest run, so W W L gives -2.
  - Because the provider lists matches newest first, the last analysed game is the oldest one.
- MatchAnalysis.HistoryShape: follows the code where its comment differs. The comment on `recent_performance` (src/analysis/match_analysis.py:12) says it holds the last 5 games, but the loop appends every game, so it has one entry per match.
- CacheSweep.SweepMembers: follows the code's strict comparison. A file that is exactly `max_age` old stays, so a maximum age of 0 keeps files written in the same second.

## Findings

| source | as written | input that shows it | evidently intended | confidence | as-written member | corrected member |
|---|---|---|---|---|---|---|
| src/api/riot_api.py:63 | `region_routing.get(region.lower(), "americas")`: the key is lower-cased before the lookup, but the table is keyed in upper case (the same at lines 162, 182, 437, 461); the callers pass the selector's platform codes; the upper-casing lookup at lines 326-328 finds "KR" and "RU" but misses the nine codes ending in a digit ("EUW1", "NA1", "LA2", …) | region "EUW1" (REGION_ROUTING value "europe") is routed to "americas" | REGION_ROUTING's route for the upper-cased platform code (src/utils/constants.py:26-38) | high, not executed | RiotRules.SelectorCodeMisrouted | RiotRules.RoutingCorrectedFindsEverySelectorCode |
| src/api/riot_api.py:377-384 | a region that does not end in '1' gets a '1' appended, although the selector's own values "LA2", "KR" and "RU" are already platform codes | region "LA2" becomes "la21", "KR" becomes "kr1" | keep a region that is already a platform code of REGION_ROUTING, only lower-cased | medium, not executed | RiotRules.ConvertPlatformBreaksSelectorCodes | RiotRules.ConvertPlatformCorrectedKeepsSelectorCodes |
