/**
 * fetch_ranked_details: the session reducer over the fetched match details
 * (signed streak, role histogram, KDA totals) and the enrichment that
 * attaches its result to every ranked-queue entry.
 */
module RankedDetails {
  import opened Wrappers
  import opened Collections
  import opened MatchData

  // ---------------------------------------------------------------------
  // Runs of equal outcomes (true = win), in the order the games are analysed.

  /** ws[i..j] is a non-empty run of one outcome. */
  ghost predicate IsRun(ws: seq<bool>, i: int, j: int) {
    0 <= i < j <= |ws| && forall k :: i <= k < j ==> ws[k] == ws[i]
  }

  /** Length of the run that ends with the last game. */
  function RunAtEnd(ws: seq<bool>): (n: nat)
    requires |ws| > 0
    ensures 1 <= n <= |ws|
  {
    var n := |ws|;
    if n == 1 then 1 else if ws[n - 2] == ws[n - 1] then RunAtEnd(ws[..n - 1]) + 1 else 1
  }

  /** Length of the longest run among the analysed games so far. */
  function LongestRun(ws: seq<bool>): nat {
    if ws == [] then 0
    else
      var before := LongestRun(ws[..|ws| - 1]);
      var last := RunAtEnd(ws);
      if before < last then last else before
  }

  /** A magnitude with the sign of an outcome: positive for a win, negative for a loss. */
  function Signed(n: nat, win: bool): int {
    if win then n as int else -(n as int)
  }

  /** The reported `streak`: the longest run, signed by the outcome of the last analysed game. */
  function Streak(ws: seq<bool>): int {
    if ws == [] then 0 else Signed(LongestRun(ws), ws[|ws| - 1])
  }

  lemma {:induction false} RunAtEndIsRun(ws: seq<bool>)
    requires |ws| > 0
    ensures IsRun(ws, |ws| - RunAtEnd(ws), |ws|)
    ensures |ws| - RunAtEnd(ws) > 0 ==> ws[|ws| - RunAtEnd(ws) - 1] != ws[|ws| - 1]
  {
    var n := |ws|;
    if n > 1 && ws[n - 2] == ws[n - 1] {
      RunAtEndIsRun(ws[..n - 1]);
    }
  }

  lemma {:induction false} RunAtEndIsLongestEndingRun(ws: seq<bool>, i: int)
    requires IsRun(ws, i, |ws|)
    ensures |ws| - i <= RunAtEnd(ws)
  {
    var n := |ws|;
    if n - i > 1 {
      assert ws[n - 2] == ws[i] == ws[n - 1];
      assert IsRun(ws[..n - 1], i, n - 1);
      RunAtEndIsLongestEndingRun(ws[..n - 1], i);
    }
  }

  lemma {:induction false} LongestRunIsUpperBound(ws: seq<bool>, i: int, j: int)
    requires IsRun(ws, i, j)
    ensures j - i <= LongestRun(ws)
  {
    var n := |ws|;
    if j == n {
      RunAtEndIsLongestEndingRun(ws, i);
    } else {
      assert IsRun(ws[..n - 1], i, j);
      LongestRunIsUpperBound(ws[..n - 1], i, j);
    }
  }

  lemma {:induction false} LongestRunIsAttained(ws: seq<bool>)
    requires |ws| > 0
    ensures exists i, j :: IsRun(ws, i, j) && j - i == LongestRun(ws)
  {
    var n := |ws|;
    if n == 1 {
      assert ws[..n - 1] == [];
      assert IsRun(ws, 0, 1);
    } else if LongestRun(ws) == RunAtEnd(ws) {
      RunAtEndIsRun(ws);
      assert IsRun(ws, n - RunAtEnd(ws), n);
    } else {
      LongestRunIsAttained(ws[..n - 1]);
      var i, j :| IsRun(ws[..n - 1], i, j) && j - i == LongestRun(ws[..n - 1]);
      assert IsRun(ws, i, j);
    }
  }

  /**
   * What the reported streak means: no games give 0; otherwise its
   * magnitude is the length of the longest run of equal outcomes among the
   * analysed games and its sign is the outcome of the LAST analysed game.
   * Since the provider lists matches most-recent-first, that is the oldest
   * game of the window, not necessarily the outcome of the longest run.
   */
  lemma StreakMeaning(ws: seq<bool>)
    ensures ws == [] <==> Streak(ws) == 0
    ensures ws != [] ==> (Streak(ws) > 0 <==> ws[|ws| - 1])
    ensures forall i, j :: IsRun(ws, i, j) ==> j - i <= Abs(Streak(ws))
    ensures ws != [] ==> exists i, j :: IsRun(ws, i, j) && j - i == Abs(Streak(ws))
  {
    if ws != [] {
      assert LongestRun(ws) >= RunAtEnd(ws) >= 1;
      LongestRunIsAttained(ws);
    }
    forall i, j | IsRun(ws, i, j) ensures j - i <= Abs(Streak(ws)) {
      LongestRunIsUpperBound(ws, i, j);
    }
  }

  function Abs(x: int): nat { if x < 0 then -x else x }

  /** `max(abs(a), abs(b))`. */
  function MaxAbs(a: int, b: int): (m: nat)
    ensures m >= Abs(a) && m >= Abs(b) && (m == Abs(a) || m == Abs(b))
  {
    if Abs(a) < Abs(b) then Abs(b) else Abs(a)
  }

  /** W, W, L, W (most recent first) reports +2; W, W, L reports -2 although the two-win run is the longest. */
  lemma StreakExamples()
    ensures Streak([true, true, false, true]) == 2
    ensures Streak([true, true, false]) == -2
    ensures Streak([false]) == -1
  {
    assert [true, true, false, true][..3] == [true, true, false];
    assert [true, true, false][..2] == [true, true];
    assert [true, true][..1] == [true];
    assert [true][..0] == [] && [false][..0] == [];
    assert LongestRun([true]) == 1;
    assert RunAtEnd([true, true]) == 2 && LongestRun([true, true]) == 2;
    assert RunAtEnd([true, true, false]) == 1 && LongestRun([true, true, false]) == 2;
    assert RunAtEnd([true, true, false, true]) == 1;
  }

  // ---------------------------------------------------------------------
  // Which games are analysed.

  /** The searched player of a fetched match, if the fetch succeeded, the match has "info" and lists the player. */
  function PlayerIn(d: Option<MatchPayload>, puuid: string): (r: seq<Participant>)
    ensures |r| <= 1
    ensures |r| == 1 <==> d.Some? && d.value.info.Some? && FindPlayer(d.value.info.value.participants, puuid).Some?
  {
    if d.None? || d.value.info.None? then []
    else match FindPlayer(d.value.info.value.participants, puuid)
      case None => []
      case Some(p) => [p]
  }

  /** The analysed participants, in match order: failed fetches and matches without the player are skipped. */
  function Analysed(details: seq<Option<MatchPayload>>, puuid: string): (ps: seq<Participant>)
    ensures |ps| <= |details|
  {
    if details == [] then []
    else Analysed(details[..|details| - 1], puuid) + PlayerIn(details[|details| - 1], puuid)
  }

  /** Every analysed participant is the searched player. */
  lemma {:induction false} AnalysedArePlayer(details: seq<Option<MatchPayload>>, puuid: string)
    ensures forall p :: p in Analysed(details, puuid) ==> p.puuid == puuid
  {
    if details != [] {
      AnalysedArePlayer(details[..|details| - 1], puuid);
      var d := details[|details| - 1];
      if d.Some? && d.value.info.Some? {
        var found := FindPlayer(d.value.info.value.participants, puuid);
        assert found.Some? ==> found.value.puuid == puuid;
      }
    }
  }

  // ---------------------------------------------------------------------
  // The reduction.

  /** The run ending with the last analysed game, signed by its outcome: the source's `current_streak`. */
  function CurrentRun(ws: seq<bool>): int {
    if ws == [] then 0 else Signed(RunAtEnd(ws), ws[|ws| - 1])
  }

  /** The variables of the analysis loop: the two streaks, the role counter with its key order, the KDA totals and the game count. */
  datatype Totals = Totals(
    streak: int,
    currentStreak: int,
    roles: map<string, nat>,
    roleOrder: seq<string>,
    kills: int,
    deaths: int,
    assists: int,
    gamesAnalyzed: nat)

  /** What the loop variables must hold after the analysed participants ps. */
  function TotalsOf(ps: seq<Participant>): Totals {
    var ws := Project(ps, PlayerWon);
    var rs := Project(ps, PlayerRole);
    Totals(Streak(ws), CurrentRun(ws), TallyOf(rs), Distinct(rs),
           Sum(ps, PlayerKills), Sum(ps, PlayerDeaths), Sum(ps, PlayerAssists), |ps|)
  }

  /** The four values attached to every queue entry, before averaging. */
  datatype Session = Session(
    streak: int,
    roleOrder: seq<string>,
    roles: map<string, nat>,
    kills: int,
    deaths: int,
    assists: int,
    gamesAnalyzed: nat)

  function SessionFrom(t: Totals): Session {
    Session(t.streak, t.roleOrder, t.roles, t.kills, t.deaths, t.assists, t.gamesAnalyzed)
  }

  /** The session the reduction must produce from the analysed participants. */
  function SessionOf(ps: seq<Participant>): Session {
    SessionFrom(TotalsOf(ps))
  }

  /**
   * What a session states about the analysed games: the streak is their
   * signed longest run, the role keys are the distinct roles in order of
   * first appearance, each counted as often as it was played, the counts add
   * up to the number of games, and the totals are those of the games.
   */
  lemma SessionMeaning(ps: seq<Participant>)
    ensures SessionOf(ps).streak == Streak(Project(ps, PlayerWon))
    ensures forall r :: r in SessionOf(ps).roleOrder <==> r in Project(ps, PlayerRole)
    ensures NoDuplicates(SessionOf(ps).roleOrder)
    ensures SessionOf(ps).roles.Keys == set r | r in SessionOf(ps).roleOrder
    ensures forall r :: r in SessionOf(ps).roles ==> SessionOf(ps).roles[r] == |Where(ps, PlayerRole, r)|
    ensures SumCounts(SessionOf(ps).roleOrder, SessionOf(ps).roles) == SessionOf(ps).gamesAnalyzed == |ps|
    ensures SessionOf(ps).kills == Sum(ps, PlayerKills) && SessionOf(ps).deaths == Sum(ps, PlayerDeaths)
    ensures SessionOf(ps).assists == Sum(ps, PlayerAssists)
  {
    var rs := Project(ps, PlayerRole);
    TallyOfIsTally(rs);
    DistinctKeys(rs);
    TallyTotal(TallyOf(rs), rs);
    forall r | r in SessionOf(ps).roles ensures SessionOf(ps).roles[r] == |Where(ps, PlayerRole, r)| {
      WhereCount(ps, PlayerRole, r);
    }
  }

  /** `mostPlayedRole`: the first-inserted role with the highest count, or "Unknown" without games. */
  function MostPlayedRole(s: Session): (role: string)
    ensures s.roleOrder == [] ==> role == "Unknown"
    ensures s.roleOrder != [] ==> role in s.roleOrder && forall r :: r in s.roleOrder ==> Count(s.roles, r) <= Count(s.roles, role)
    ensures s.roleOrder != [] ==> exists i :: 0 <= i < |s.roleOrder| && s.roleOrder[i] == role
                                             && forall j :: 0 <= j < i ==> Count(s.roles, s.roleOrder[j]) < Count(s.roles, role)
  {
    if s.roleOrder == [] then "Unknown" else MostCommon(s.roleOrder, s.roles)
  }

  /** `total / games_analyzed`, or 0 when no game was analysed. */
  function Average(total: int, games: nat): (avg: real)
    ensures games == 0 ==> avg == 0.0
    ensures games > 0 ==> avg * games as real == total as real
  {
    if games > 0 then total as real / games as real else 0.0
  }

  /**
   * `current_streak` after one more analysed game. On the first game the
   * source also sets `streak` to the same +1/-1 before taking the maximum of
   * the magnitudes, which then gives that same value, so the update of
   * `streak` needs no separate first-game case.
   */
  function NextCurrentStreak(gamesAnalyzed: nat, streak: int, current: int, win: bool): int {
    if gamesAnalyzed == 0 then (if win then 1 else -1)
    else if (win && streak > 0) || (!win && streak < 0) then current + (if win then 1 else -1)
    else (if win then 1 else -1)
  }

  /** One streak update of the analysis loop, written as the source writes it, computes the streaks of the longer sequence. */
  lemma StreakUpdate(ws: seq<bool>, w: bool, streak: int, current: int, current': int, streak': int)
    requires streak == Streak(ws) && current == CurrentRun(ws)
    requires current' == NextCurrentStreak(|ws|, streak, current, w)
    requires streak' == Signed(MaxAbs(streak, current'), current' > 0)
    ensures streak' == Streak(ws + [w]) && current' == CurrentRun(ws + [w])
  {
    var ws' := ws + [w];
    assert ws'[..|ws|] == ws;
    if ws != [] {
      assert LongestRun(ws) >= RunAtEnd(ws) >= 1;
    } else {
      assert LongestRun(ws') == 1;
    }
  }

  /** The updates the loop makes for one found participant p. */
  function AddGame(t: Totals, p: Participant): Totals {
    var current := NextCurrentStreak(t.gamesAnalyzed, t.streak, t.currentStreak, p.win);
    Totals(Signed(MaxAbs(t.streak, current), current > 0), current,
           Bump(t.roles, p.teamPosition),
           if p.teamPosition in t.roles then t.roleOrder else t.roleOrder + [p.teamPosition],
           t.kills + p.kills, t.deaths + p.deaths, t.assists + p.assists, t.gamesAnalyzed + 1)
  }

  lemma StreaksSnoc(ps: seq<Participant>, p: Participant)
    ensures var a, b := AddGame(TotalsOf(ps), p), TotalsOf(ps + [p]);
            a.streak == b.streak && a.currentStreak == b.currentStreak
  {
    var t := TotalsOf(ps);
    ProjectSnoc(ps, p, PlayerWon);
    var current := NextCurrentStreak(t.gamesAnalyzed, t.streak, t.currentStreak, p.win);
    StreakUpdate(Project(ps, PlayerWon), p.win, t.streak, t.currentStreak, current,
                 Signed(MaxAbs(t.streak, current), current > 0));
  }

  lemma RoleCountsSnoc(ps: seq<Participant>, p: Participant)
    ensures var a, b := AddGame(TotalsOf(ps), p), TotalsOf(ps + [p]);
            a.roles == b.roles && a.roleOrder == b.roleOrder
  {
    ProjectSnoc(ps, p, PlayerRole);
    TallyOfSnoc(Project(ps, PlayerRole), p.teamPosition);
  }

  lemma KdaSnoc(ps: seq<Participant>, p: Participant)
    ensures var t, b := TotalsOf(ps), TotalsOf(ps + [p]);
            && b.kills == t.kills + p.kills && b.deaths == t.deaths + p.deaths && b.assists == t.assists + p.assists
            && b.gamesAnalyzed == t.gamesAnalyzed + 1
  {
    SumSnoc(ps, p, PlayerKills);
    SumSnoc(ps, p, PlayerDeaths);
    SumSnoc(ps, p, PlayerAssists);
  }

  /** Two totals with the same fields are the same totals. */
  lemma TotalsFields(a: Totals, b: Totals)
    requires a.streak == b.streak && a.currentStreak == b.currentStreak
    requires a.roles == b.roles && a.roleOrder == b.roleOrder
    requires a.kills == b.kills && a.deaths == b.deaths && a.assists == b.assists && a.gamesAnalyzed == b.gamesAnalyzed
    ensures a == b
  {
  }

  /** The loop's updates for one more participant give the totals of the longer sequence of games. */
  lemma AddGameTotals(ps: seq<Participant>, p: Participant)
    ensures AddGame(TotalsOf(ps), p) == TotalsOf(ps + [p])
  {
    StreaksSnoc(ps, p);
    RoleCountsSnoc(ps, p);
    KdaSnoc(ps, p);
    TotalsFields(AddGame(TotalsOf(ps), p), TotalsOf(ps + [p]));
  }

  /**
   * One iteration of the analysis loop: a failed fetch or a match without
   * "info" is skipped; otherwise the participants are searched for the
   * player and, if found, the streaks, the role counter and the KDA totals
   * are updated.
   */
  method AnalyzeMatch(m: Option<MatchPayload>, puuid: string, t: Totals, ghost ps: seq<Participant>) returns (t': Totals)
    requires t == TotalsOf(ps)
    ensures t' == TotalsOf(ps + PlayerIn(m, puuid))
  {
    if m.None? || m.value.info.None? {
      assert ps + PlayerIn(m, puuid) == ps;
      return t;
    }
    var found := FindParticipant(m.value.info.value.participants, puuid);
    if found.None? {
      assert ps + PlayerIn(m, puuid) == ps;
      return t;
    }
    var p := found.value;
    var currentStreak := NextCurrentStreak(t.gamesAnalyzed, t.streak, t.currentStreak, p.win);
    // max(abs(streak), abs(current_streak)), with the sign of current_streak
    var streak := Signed(MaxAbs(t.streak, currentStreak), currentStreak > 0);
    var roles, roleOrder := Increment(t.roles, t.roleOrder, p.teamPosition);
    t' := Totals(streak, currentStreak, roles, roleOrder,
                 t.kills + p.kills, t.deaths + p.deaths, t.assists + p.assists, t.gamesAnalyzed + 1);
    assert t' == AddGame(t, p);
    AddGameTotals(ps, p);
  }

  lemma AnalysedStep(details: seq<Option<MatchPayload>>, k: nat, puuid: string)
    requires k < |details|
    ensures Analysed(details[..k + 1], puuid) == Analysed(details[..k], puuid) + PlayerIn(details[k], puuid)
  {
    assert details[..k + 1][..k] == details[..k];
  }

  /** The initial values of the loop variables are the totals of no games. */
  lemma TotalsOfNone()
    ensures TotalsOf([]) == Totals(0, 0, map[], [], 0, 0, 0, 0)
  {
    assert TallyOf<string>([]) == map[];
  }

  /**
   * The analysis loop of fetch_ranked_details over the fetched details, in
   * order; its result is the session of the analysed games.
   */
  method AnalyzeMatches(details: seq<Option<MatchPayload>>, puuid: string) returns (s: Session)
    ensures s == SessionOf(Analysed(details, puuid))
  {
    var t := Totals(0, 0, map[], [], 0, 0, 0, 0);
    TotalsOfNone();
    assert details[..0] == [];
    var k := 0;
    while k < |details|
      invariant 0 <= k <= |details|
      invariant t == TotalsOf(Analysed(details[..k], puuid))
    {
      AnalysedStep(details, k, puuid);
      t := AnalyzeMatch(details[k], puuid, t, Analysed(details[..k], puuid));
      k := k + 1;
    }
    assert details[..|details|] == details;
    s := SessionFrom(t);
  }

  // ---------------------------------------------------------------------
  // Enrichment of the ranked entries.

  /** A JSON value of a ranked-queue entry. */
  datatype Value = Int(i: int) | Real(r: real) | Str(s: string) | Obj(fields: map<string, Value>) | Other

  type Queue = map<string, Value>

  const EnrichedKeys: set<string> := {"streak", "mostPlayedRole", "avgKDA", "recentGames"}

  /** The `avgKDA` object. */
  function AvgKda(s: Session): Value {
    Obj(map["kills" := Real(Average(s.kills, s.gamesAnalyzed)),
            "deaths" := Real(Average(s.deaths, s.gamesAnalyzed)),
            "assists" := Real(Average(s.assists, s.gamesAnalyzed))])
  }

  /** One queue entry after the four assignments of the enrichment loop. */
  function Enrich(q: Queue, s: Session): (r: Queue)
    ensures r.Keys == q.Keys + EnrichedKeys
    ensures r["streak"] == Int(s.streak) && r["recentGames"] == Int(s.gamesAnalyzed)
    ensures r["mostPlayedRole"] == Str(MostPlayedRole(s)) && r["avgKDA"] == AvgKda(s)
    ensures forall k :: k in q && k !in EnrichedKeys ==> r[k] == q[k]
  {
    q["streak" := Int(s.streak)]["mostPlayedRole" := Str(MostPlayedRole(s))]
     ["avgKDA" := AvgKda(s)]["recentGames" := Int(s.gamesAnalyzed)]
  }

  /** What fetch_ranked_details returns: `{}` when there is no ranked data, otherwise the (possibly enriched) entries. */
  datatype RankedResult = NoRankedData | Queues(queues: seq<Queue>)

  /** The task list of fetch_ranked_details and its gather: one detail fetch per match id, in order. */
  method FetchMatchDetails(ids: seq<string>, fetchMatch: string -> Option<MatchPayload>)
    returns (details: seq<Option<MatchPayload>>)
    ensures details == Project(ids, fetchMatch)
  {
    details := [];
    var i := 0;
    while i < |ids|
      invariant 0 <= i <= |ids|
      invariant details == Project(ids[..i], fetchMatch)
    {
      assert ids[..i + 1][..i] == ids[..i];
      details := details + [fetchMatch(ids[i])];
      i := i + 1;
    }
    assert ids[..|ids|] == ids;
  }

  /** The enrichment loop: every queue entry gets the same four session values. */
  method EnrichAll(queues: seq<Queue>, s: Session) returns (r: seq<Queue>)
    ensures |r| == |queues|
    ensures forall i :: 0 <= i < |r| ==> r[i] == Enrich(queues[i], s)
  {
    r := queues;
    var j := 0;
    while j < |r|
      invariant 0 <= j <= |r| && |r| == |queues|
      invariant forall q :: 0 <= q < j ==> r[q] == Enrich(queues[q], s)
      invariant forall q :: j <= q < |r| ==> r[q] == queues[q]
    {
      r := r[j := Enrich(r[j], s)];
      j := j + 1;
    }
  }

  /**
   * fetch_ranked_details with its three fetches as inputs: the ranked
   * entries, the match-id list, and the match-detail fetch. Every match id
   * is fetched, in order; failed fetches come back as None.
   */
  method FetchRankedDetails(
    rankedData: Option<seq<Queue>>,
    matchIds: Option<seq<string>>,
    fetchMatch: string -> Option<MatchPayload>,
    puuid: string)
    returns (r: RankedResult)
    ensures rankedData.None? || rankedData.value == [] ==> r == NoRankedData
    ensures (rankedData.Some? && rankedData.value != [] && (matchIds.None? || matchIds.value == []))
              ==> r == Queues(rankedData.value)
    ensures rankedData.Some? && rankedData.value != [] && matchIds.Some? && matchIds.value != [] ==>
              var s := SessionOf(Analysed(Project(matchIds.value, fetchMatch), puuid));
              && r.Queues? && |r.queues| == |rankedData.value|
              && forall i :: 0 <= i < |r.queues| ==> r.queues[i] == Enrich(rankedData.value[i], s)
  {
    if rankedData.None? || rankedData.value == [] {
      return NoRankedData;
    }
    if matchIds.None? || matchIds.value == [] {
      return Queues(rankedData.value);
    }
    var details := FetchMatchDetails(matchIds.value, fetchMatch);
    var s := AnalyzeMatches(details, puuid);
    var queues := EnrichAll(rankedData.value, s);
    return Queues(queues);
  }
}
