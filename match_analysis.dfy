/**
 * analyze_match_history: totals, wins and losses, a role histogram, a
 * per-role performance table, the game durations and a per-game summary,
 * then percentages and averages when there was at least one game. A match
 * without "info" or without the player raises; that is the Failure result.
 */
module MatchAnalysis {
  import opened Wrappers
  import opened Text
  import opened Collections
  import opened MatchData

  /** One entry of `recent_performance`. */
  datatype RecentGame = RecentGame(champion: string, result: string, kda: string, role: string, cs: int)

  datatype RoleRates = RoleRates(winrate: real, avgKda: real)

  /** The keys added after the loop when there was at least one game. */
  datatype Averages = Averages(
    winrate: real, avgGameDuration: real, rolePreferences: map<string, real>, roleRates: map<string, RoleRates>)

  /** What the loop builds. */
  datatype History = History(
    totalGames: nat, wins: nat, losses: nat,
    roles: map<string, nat>, roleOrder: seq<string>,
    gameDurations: seq<int>,
    performanceByRole: map<string, GameStats>,
    recentPerformance: seq<RecentGame>)

  datatype Analysis = Analysis(history: History, averages: Option<Averages>)

  function Lost(g: Game): bool { !g.player.win }

  /** `f"{kills}/{deaths}/{assists}"`. */
  function KdaText(p: Participant): string {
    IntToString(p.kills) + "/" + IntToString(p.deaths) + "/" + IntToString(p.assists)
  }

  function RecentGameOf(g: Game): RecentGame {
    RecentGame(g.player.championName, if g.player.win then "Victory" else "Defeat",
               KdaText(g.player), g.player.teamPosition, CreepScore(g.player))
  }

  function PerformanceOf(gs: seq<Game>): map<string, GameStats> {
    map r | r in Project(gs, Role) :: GameStatsOf(Where(gs, Role, r))
  }

  /** The loop's result over the player's games, in match order. */
  function HistoryOf(gs: seq<Game>): History {
    var roles := Project(gs, Role);
    History(|gs|, CountIf(gs, Won), CountIf(gs, Lost), TallyOf(roles), Distinct(roles),
            Project(gs, Duration), PerformanceOf(gs), Project(gs, RecentGameOf))
  }

  lemma PerformanceKeysSnoc(gs: seq<Game>, g: Game)
    ensures PerformanceOf(gs + [g]).Keys == PerformanceOf(gs).Keys + {g.player.teamPosition}
  {
    ProjectSnoc(gs, g, Role);
    assert forall r :: r in Project(gs + [g], Role) <==> r in Project(gs, Role) || r == g.player.teamPosition;
  }

  lemma PerformanceEntrySnoc(gs: seq<Game>, g: Game, r: string)
    requires r in PerformanceOf(gs + [g])
    ensures var p := PerformanceOf(gs);
            var role := g.player.teamPosition;
            PerformanceOf(gs + [g])[r] == if r == role then AddGameStats(if role in p then p[role] else NoGames, g) else p[r]
  {
    var role := g.player.teamPosition;
    PerformanceKeysSnoc(gs, g);
    WhereSnoc(gs, g, Role, r);
    if r == role {
      GameStatsSnoc(Where(gs, Role, r), g);
      if role !in PerformanceOf(gs) {
        WhereAbsent(gs, Role, r);
      }
    }
  }

  /** One more game changes only its own role's record, which starts from zero the first time. */
  lemma PerformanceSnoc(gs: seq<Game>, g: Game)
    ensures var p := PerformanceOf(gs);
            var role := g.player.teamPosition;
            PerformanceOf(gs + [g]) == p[role := AddGameStats(if role in p then p[role] else NoGames, g)]
  {
    var p := PerformanceOf(gs);
    var role := g.player.teamPosition;
    var q := p[role := AddGameStats(if role in p then p[role] else NoGames, g)];
    var p' := PerformanceOf(gs + [g]);
    PerformanceKeysSnoc(gs, g);
    forall r | r in p' ensures p'[r] == q[r] {
      PerformanceEntrySnoc(gs, g, r);
    }
  }

  /** The history after one more game, as the loop body changes it. */
  function AddToHistory(h: History, g: Game): History {
    var role := g.player.teamPosition;
    var perf := h.performanceByRole;
    History(h.totalGames + 1, h.wins + (if g.player.win then 1 else 0), h.losses + (if g.player.win then 0 else 1),
            Bump(h.roles, role), if role in h.roles then h.roleOrder else h.roleOrder + [role],
            h.gameDurations + [g.duration],
            perf[role := AddGameStats(if role in perf then perf[role] else NoGames, g)],
            h.recentPerformance + [RecentGameOf(g)])
  }

  lemma WinsLossesSnoc(gs: seq<Game>, g: Game)
    ensures CountIf(gs + [g], Won) == CountIf(gs, Won) + (if g.player.win then 1 else 0)
    ensures CountIf(gs + [g], Lost) == CountIf(gs, Lost) + (if g.player.win then 0 else 1)
  {
    CountIfSnoc(gs, g, Won);
    CountIfSnoc(gs, g, Lost);
  }

  lemma RolesSnoc(gs: seq<Game>, g: Game)
    ensures var roles := Project(gs, Role);
            var role := g.player.teamPosition;
            && TallyOf(Project(gs + [g], Role)) == Bump(TallyOf(roles), role)
            && Distinct(Project(gs + [g], Role)) == if role in TallyOf(roles) then Distinct(roles) else Distinct(roles) + [role]
  {
    ProjectSnoc(gs, g, Role);
    TallyOfSnoc(Project(gs, Role), g.player.teamPosition);
  }

  /** Two histories with the same fields are the same history. */
  lemma HistoryFields(a: History, b: History)
    requires a.totalGames == b.totalGames && a.wins == b.wins && a.losses == b.losses
    requires a.roles == b.roles && a.roleOrder == b.roleOrder && a.gameDurations == b.gameDurations
    requires a.performanceByRole == b.performanceByRole && a.recentPerformance == b.recentPerformance
    ensures a == b
  {
  }

  lemma CountsSnoc(gs: seq<Game>, g: Game)
    ensures var h, b := HistoryOf(gs), HistoryOf(gs + [g]);
            && b.totalGames == h.totalGames + 1
            && b.wins == h.wins + (if g.player.win then 1 else 0)
            && b.losses == h.losses + (if g.player.win then 0 else 1)
  {
    WinsLossesSnoc(gs, g);
  }

  lemma RoleTallySnoc(gs: seq<Game>, g: Game)
    ensures var a, b := AddToHistory(HistoryOf(gs), g), HistoryOf(gs + [g]);
            a.roles == b.roles && a.roleOrder == b.roleOrder
  {
    RolesSnoc(gs, g);
  }

  lemma SeriesSnoc(gs: seq<Game>, g: Game)
    ensures var a, b := AddToHistory(HistoryOf(gs), g), HistoryOf(gs + [g]);
            a.gameDurations == b.gameDurations && a.recentPerformance == b.recentPerformance
  {
    ProjectSnoc(gs, g, Duration);
    ProjectSnoc(gs, g, RecentGameOf);
  }

  lemma RolePerformanceSnoc(gs: seq<Game>, g: Game)
    ensures AddToHistory(HistoryOf(gs), g).performanceByRole == HistoryOf(gs + [g]).performanceByRole
  {
    PerformanceSnoc(gs, g);
  }

  lemma HistorySnoc(gs: seq<Game>, g: Game)
    ensures AddToHistory(HistoryOf(gs), g) == HistoryOf(gs + [g])
  {
    CountsSnoc(gs, g);
    RoleTallySnoc(gs, g);
    SeriesSnoc(gs, g);
    RolePerformanceSnoc(gs, g);
    HistoryFields(AddToHistory(HistoryOf(gs), g), HistoryOf(gs + [g]));
  }

  /** The body of `for match in matches` once the player is found. */
  method AddGame(h: History, g: Game, ghost gs: seq<Game>) returns (h': History)
    requires h == HistoryOf(gs)
    ensures h' == HistoryOf(gs + [g])
  {
    var p := g.player;
    var role := p.teamPosition;
    var roles, roleOrder := Increment(h.roles, h.roleOrder, role);
    var perf := AddToRole(h.performanceByRole, role, g);
    h' := History(h.totalGames + 1, h.wins + (if p.win then 1 else 0), h.losses + (if !p.win then 1 else 0),
                  roles, roleOrder, h.gameDurations + [g.duration], perf, h.recentPerformance + [RecentGameOf(g)]);
    HistorySnoc(gs, g);
  }

  /** `if role not in performance_by_role: ... = zeros`, then the update of that role's record. */
  method AddToRole(perf: map<string, GameStats>, role: string, g: Game) returns (perf': map<string, GameStats>)
    ensures perf' == perf[role := AddGameStats(if role in perf then perf[role] else NoGames, g)]
  {
    perf' := perf;
    if role !in perf' {
      perf' := perf'[role := NoGames];
    }
    perf' := perf'[role := AddGameStats(perf'[role], g)];
  }

  /** The role rates of the roles that have games, as the loop after the main loop adds them. */
  function RatesOf(perf: map<string, GameStats>): map<string, RoleRates> {
    map r | r in perf && perf[r].games > 0 :: RoleRates(Percent(perf[r].wins, perf[r].games),
                                                        KdaRatio(perf[r].kills, perf[r].deaths, perf[r].assists))
  }

  /** The rates of the roles among order. */
  function RatesAmong(perf: map<string, GameStats>, order: seq<string>): map<string, RoleRates> {
    map r | r in order && r in perf && perf[r].games > 0 :: RatesOf(perf)[r]
  }

  /** `for role, stats in performance_by_role.items(): if stats['games'] > 0: ...`. */
  method RoleRatesLoop(perf: map<string, GameStats>, order: seq<string>) returns (rates: map<string, RoleRates>)
    requires perf.Keys == set r | r in order
    ensures rates == RatesOf(perf)
  {
    rates := map[];
    var i := 0;
    while i < |order|
      invariant 0 <= i <= |order|
      invariant rates == RatesAmong(perf, order[..i])
    {
      var role := order[i];
      assert order[..i + 1] == order[..i] + [role];
      var stats := perf[role];
      if stats.games > 0 {
        rates := rates[role := RoleRates(Percent(stats.wins, stats.games), KdaRatio(stats.kills, stats.deaths, stats.assists))];
      }
      i := i + 1;
    }
    assert order[..|order|] == order;
  }

  /** `{role: games / total_games * 100 for role, games in roles.items()}`. */
  function Preferences(roles: map<string, nat>, totalGames: nat): map<string, real>
    requires totalGames > 0
  {
    map r | r in roles :: Percent(roles[r], totalGames)
  }

  /** The keys added after the loop: None when there was no game. */
  function AveragesOf(h: History): Option<Averages>
    requires |h.gameDurations| == h.totalGames
  {
    if h.totalGames == 0 then None
    else
      Some(Averages(Percent(h.wins, h.totalGames),
                    Sum(h.gameDurations, d => d) as real / |h.gameDurations| as real,
                    Preferences(h.roles, h.totalGames),
                    RatesOf(h.performanceByRole)))
  }

  lemma HistoryShape(gs: seq<Game>)
    ensures |HistoryOf(gs).gameDurations| == |HistoryOf(gs).recentPerformance| == HistoryOf(gs).totalGames == |gs|
  {
  }

  /** analyze_match_history as a value: the first failing match's failure, or the history and its averages. */
  function AnalysisOf(matches: seq<MatchPayload>, puuid: string): Result<Analysis, Failure> {
    match PlayersOf(matches, puuid)
    case Failure(e) => Failure(e)
    case Success(gs) =>
      HistoryShape(gs);
      Success(Analysis(HistoryOf(gs), AveragesOf(HistoryOf(gs))))
  }

  lemma HistoryOfEmpty()
    ensures HistoryOf([]) == History(0, 0, 0, map[], [], [], map[], [])
  {
    assert TallyOf<string>([]) == map[];
    assert PerformanceOf([]) == map[];
  }

  /** The statements after the loop: the averages, added only when there was a game. */
  method Finish(h: History, ghost gs: seq<Game>) returns (a: Analysis)
    requires h == HistoryOf(gs)
    ensures |h.gameDurations| == h.totalGames && a == Analysis(h, AveragesOf(h))
  {
    HistoryShape(gs);
    if h.totalGames == 0 {
      return Analysis(h, None);
    }
    HistoryKeys(gs);
    var durations := Sum(h.gameDurations, d => d);
    var rates := RoleRatesLoop(h.performanceByRole, h.roleOrder);
    var averages := Averages(Percent(h.wins, h.totalGames), durations as real / |h.gameDurations| as real,
                             Preferences(h.roles, h.totalGames), rates);
    return Analysis(h, Some(averages));
  }

  method AnalyzeMatchHistory(matches: seq<MatchPayload>, puuid: string) returns (r: Result<Analysis, Failure>)
    ensures r == AnalysisOf(matches, puuid)
  {
    HistoryOfEmpty();
    var h := History(0, 0, 0, map[], [], [], map[], []);
    ghost var gs: seq<Game> := [];
    var i := 0;
    while i < |matches|
      invariant 0 <= i <= |matches|
      invariant PlayersOf(matches[..i], puuid) == Success(gs)
      invariant h == HistoryOf(gs)
    {
      PlayersOfStep(matches, i, puuid);
      var game := FindGame(matches[i], puuid, i);
      if game.Failure? {
        return Failure(game.error);
      }
      h := AddGame(h, game.value, gs);
      gs := gs + [game.value];
      i := i + 1;
    }
    assert matches[..|matches|] == matches;
    var a := Finish(h, gs);
    return Success(a);
  }

  lemma {:induction false} WinsPlusLosses(gs: seq<Game>)
    ensures CountIf(gs, Won) + CountIf(gs, Lost) == |gs|
  {
    if gs != [] {
      WinsPlusLosses(gs[..|gs| - 1]);
    }
  }

  /** Wins and losses add up to the games. */
  lemma HistoryCounts(gs: seq<Game>)
    ensures HistoryOf(gs).wins + HistoryOf(gs).losses == HistoryOf(gs).totalGames == |gs|
  {
    WinsPlusLosses(gs);
  }

  /** The role histogram, its key order and the role records are keyed alike: by the roles played. */
  lemma HistoryKeys(gs: seq<Game>)
    ensures var h := HistoryOf(gs);
            && h.roles.Keys == h.performanceByRole.Keys == (set r | r in h.roleOrder)
            && (forall r :: r in h.roleOrder <==> exists i :: 0 <= i < |gs| && gs[i].player.teamPosition == r)
            && NoDuplicates(h.roleOrder)
  {
    var roles := Project(gs, Role);
    DistinctKeys(roles);
    forall r ensures r in roles <==> exists i :: 0 <= i < |gs| && gs[i].player.teamPosition == r {
      if i :| 0 <= i < |gs| && gs[i].player.teamPosition == r {
        ProjectAt(gs, Role, i);
      }
      if r in roles {
        var i :| 0 <= i < |roles| && roles[i] == r;
        ProjectAt(gs, Role, i);
      }
    }
  }

  /** The role histogram counts every game once. */
  lemma HistoryRoleTotal(gs: seq<Game>)
    ensures SumCounts(HistoryOf(gs).roleOrder, HistoryOf(gs).roles) == |gs|
  {
    var roles := Project(gs, Role);
    TallyOfIsTally(roles);
    TallyTotal(TallyOf(roles), roles);
  }

  /** Each role's record has as many games as the histogram counts, at most that many wins, and its games' sums. */
  lemma HistoryPerformance(gs: seq<Game>, r: string)
    requires r in HistoryOf(gs).roles
    ensures var h := HistoryOf(gs);
            var hs := Where(gs, Role, r);
            && h.performanceByRole[r].games == h.roles[r] == |hs| > 0
            && h.performanceByRole[r].wins <= h.performanceByRole[r].games
            && h.performanceByRole[r].kills == Sum(hs, Kills)
            && h.performanceByRole[r].deaths == Sum(hs, Deaths)
            && h.performanceByRole[r].assists == Sum(hs, Assists)
            && (forall g :: g in hs <==> g in gs && g.player.teamPosition == r)
  {
    var hs := Where(gs, Role, r);
    WhereCount(gs, Role, r);
    WhereMembers(gs, r);
  }

  lemma {:induction false} WhereMembers(gs: seq<Game>, r: string)
    ensures forall g :: g in Where(gs, Role, r) <==> g in gs && g.player.teamPosition == r
  {
    if gs != [] {
      var n := |gs| - 1;
      WhereMembers(gs[..n], r);
      assert gs == gs[..n] + [gs[n]];
      WhereSnoc(gs[..n], gs[n], Role, r);
    }
  }

  /** The i-th duration and summary are those of the i-th game. */
  lemma HistoryInOrder(gs: seq<Game>, i: int)
    requires 0 <= i < |gs|
    ensures HistoryOf(gs).gameDurations[i] == gs[i].duration
    ensures HistoryOf(gs).recentPerformance[i] == RecentGameOf(gs[i])
  {
    ProjectAt(gs, Duration, i);
    ProjectAt(gs, RecentGameOf, i);
  }

  /** The averages appear exactly when there was a game, with the win rate in percent and the mean duration. */
  lemma AveragesMeaning(h: History)
    requires |h.gameDurations| == h.totalGames
    ensures AveragesOf(h).Some? <==> h.totalGames > 0
    ensures h.totalGames > 0 ==>
              && AveragesOf(h).value.winrate * h.totalGames as real == h.wins as real * 100.0
              && AveragesOf(h).value.avgGameDuration * h.totalGames as real == Sum(h.gameDurations, d => d) as real
              && AveragesOf(h).value.rolePreferences.Keys == h.roles.Keys
  {
  }

  /** Every role played gets its rates, the KDA taken with `max(1, deaths)`. */
  lemma RoleRatesCoverRoles(gs: seq<Game>)
    requires |gs| > 0
    ensures var h := HistoryOf(gs);
            |h.gameDurations| == h.totalGames && AveragesOf(h).Some? &&
            AveragesOf(h).value.roleRates.Keys == h.performanceByRole.Keys
  {
    var h := HistoryOf(gs);
    HistoryShape(gs);
    HistoryKeys(gs);
    forall r | r in h.performanceByRole ensures h.performanceByRole[r].games > 0 {
      HistoryPerformance(gs, r);
    }
  }
}
