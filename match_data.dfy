/**
 * The parts of a match-detail payload (match-v5 JSON) that the analysis
 * code reads, the lookup of the searched player among the participants,
 * and the sums, counts and filters the analyses are specified with.
 */
module MatchData {
  import opened Wrappers

  /** One entry of `match["info"]["participants"]`. */
  datatype Participant = Participant(
    puuid: string,
    win: bool,
    teamPosition: string,
    championName: string,
    kills: int,
    deaths: int,
    assists: int,
    totalMinionsKilled: int,
    neutralMinionsKilled: Option<int>,
    goldEarned: int,
    totalDamageDealtToChampions: int,
    visionScore: int,
    // the `itemN` keys present in the payload: slot N -> item id
    items: map<int, int>,
    perks: Option<Perks>,
    totalHealsOnTeammates: Option<int>,
    totalDamageShieldedOnTeammates: Option<int>)

  datatype Perks = Perks(styles: seq<PerkStyle>)

  datatype PerkStyle = PerkStyle(style: int, selections: seq<int>)

  datatype MatchInfo = MatchInfo(participants: seq<Participant>, gameDuration: int)

  /** A match-detail payload; `info` is None when the payload has no "info" key. */
  datatype MatchPayload = MatchPayload(info: Option<MatchInfo>)

  /** The exceptions the analyses raise, with the position of the match that raised them. */
  datatype Failure =
    | MissingInfo(matchIndex: nat)      // KeyError on match['info']
    | PlayerNotFound(matchIndex: nat)   // StopIteration from next(...)
    | MalformedPerks(matchIndex: nat)   // IndexError on perks['styles'] or selections
    | ZeroPlayTime(champion: string)    // ZeroDivisionError on total_time / 60

  /** The first participant with the given puuid, as `next(p for p in ps if p['puuid'] == puuid)` finds it. */
  function FindPlayer(ps: seq<Participant>, puuid: string): (r: Option<Participant>)
    ensures r.None? <==> forall i :: 0 <= i < |ps| ==> ps[i].puuid != puuid
    ensures r.Some? ==> exists i :: 0 <= i < |ps| && ps[i] == r.value && ps[i].puuid == puuid
                                   && forall j :: 0 <= j < i ==> ps[j].puuid != puuid
  {
    if ps == [] then None
    else if ps[0].puuid == puuid then Some(ps[0])
    else FindPlayer(ps[1..], puuid)
  }

  /** The search of the participants for the player: `next(...)`, or the `for ...: if ...: break` of fetch_ranked_details. */
  method FindParticipant(ps: seq<Participant>, puuid: string) returns (found: Option<Participant>)
    ensures found == FindPlayer(ps, puuid)
  {
    var i := 0;
    while i < |ps|
      invariant 0 <= i <= |ps|
      invariant forall j :: 0 <= j < i ==> ps[j].puuid != puuid
    {
      if ps[i].puuid == puuid {
        return Some(ps[i]);
      }
      i := i + 1;
    }
    return None;
  }

  /** The searched player of one match together with that match's duration. */
  datatype Game = Game(player: Participant, duration: int)

  /** `match['info']` then `next(...)` for the match at position index. */
  function GameOf(m: MatchPayload, puuid: string, index: nat): Result<Game, Failure> {
    if m.info.None? then Failure(MissingInfo(index))
    else match FindPlayer(m.info.value.participants, puuid)
      case None => Failure(PlayerNotFound(index))
      case Some(p) => Success(Game(p, m.info.value.gameDuration))
  }

  /** `match['info']` then `next(...)`, as the analysis loops run them on the match at position index. */
  method FindGame(m: MatchPayload, puuid: string, index: nat) returns (r: Result<Game, Failure>)
    ensures r == GameOf(m, puuid, index)
  {
    if m.info.None? {
      return Failure(MissingInfo(index));
    }
    var found := FindParticipant(m.info.value.participants, puuid);
    if found.None? {
      return Failure(PlayerNotFound(index));
    }
    return Success(Game(found.value, m.info.value.gameDuration));
  }

  /** One more match: its failure, if any, becomes the result; a failure already reached stays the result. */
  lemma PlayersOfSnoc(matches: seq<MatchPayload>, m: MatchPayload, puuid: string)
    ensures PlayersOf(matches + [m], puuid) ==
              match PlayersOf(matches, puuid)
              case Failure(e) => Failure(e)
              case Success(gs) =>
                match GameOf(m, puuid, |matches|)
                case Failure(e) => Failure(e)
                case Success(g) => Success(gs + [g])
  {
    assert (matches + [m])[..|matches|] == matches;
  }

  /** Once a prefix of the matches fails, the whole list fails the same way. */
  lemma {:induction false} PlayersOfPrefixFailure(matches: seq<MatchPayload>, k: nat, puuid: string)
    requires k <= |matches| && PlayersOf(matches[..k], puuid).Failure?
    ensures PlayersOf(matches, puuid) == PlayersOf(matches[..k], puuid)
    decreases |matches| - k
  {
    if k < |matches| {
      assert matches[..k + 1] == matches[..k] + [matches[k]];
      PlayersOfSnoc(matches[..k], matches[k], puuid);
      PlayersOfPrefixFailure(matches, k + 1, puuid);
    } else {
      assert matches[..k] == matches;
    }
  }

  /** The step of a loop over the matches: the failure of match i ends the whole run, a found game extends the prefix's games. */
  lemma PlayersOfStep(matches: seq<MatchPayload>, i: nat, puuid: string)
    requires i < |matches| && PlayersOf(matches[..i], puuid).Success?
    ensures GameOf(matches[i], puuid, i).Failure? ==>
              PlayersOf(matches, puuid) == Failure(GameOf(matches[i], puuid, i).error)
    ensures GameOf(matches[i], puuid, i).Success? ==>
              PlayersOf(matches[..i + 1], puuid) ==
              Success(PlayersOf(matches[..i], puuid).value + [GameOf(matches[i], puuid, i).value])
  {
    assert matches[..i + 1] == matches[..i] + [matches[i]];
    PlayersOfSnoc(matches[..i], matches[i], puuid);
    if GameOf(matches[i], puuid, i).Failure? {
      PlayersOfPrefixFailure(matches, i + 1, puuid);
    }
  }

  /**
   * The searched player of every match in order, or the failure raised by
   * the first match that lacks "info" or lacks the player.
   */
  function PlayersOf(matches: seq<MatchPayload>, puuid: string): (r: Result<seq<Game>, Failure>)
    ensures r.Success? ==> |r.value| == |matches|
    ensures r.Success? <==> forall i :: 0 <= i < |matches| ==> GameOf(matches[i], puuid, i).Success?
    ensures r.Success? ==> forall i :: 0 <= i < |matches| ==> GameOf(matches[i], puuid, i) == Success(r.value[i])
    ensures r.Failure? ==> exists i :: 0 <= i < |matches| && GameOf(matches[i], puuid, i) == Failure(r.error)
                                       && forall j :: 0 <= j < i ==> GameOf(matches[j], puuid, j).Success?
  {
    if matches == [] then Success([])
    else
      var n := |matches| - 1;
      match PlayersOf(matches[..n], puuid)
      case Failure(e) => Failure(e)
      case Success(gs) =>
        match GameOf(matches[n], puuid, n)
        case Failure(e) => Failure(e)
        case Success(g) => Success(gs + [g])
  }

  function Sum<T>(xs: seq<T>, f: T -> int): int {
    if xs == [] then 0 else Sum(xs[..|xs| - 1], f) + f(xs[|xs| - 1])
  }

  function CountIf<T>(xs: seq<T>, p: T -> bool): (n: nat)
    ensures n <= |xs|
  {
    if xs == [] then 0 else CountIf(xs[..|xs| - 1], p) + (if p(xs[|xs| - 1]) then 1 else 0)
  }

  /** `[f(x) for x in xs]`. */
  function Project<T, U>(xs: seq<T>, f: T -> U): (r: seq<U>)
    ensures |r| == |xs|
  {
    if xs == [] then [] else Project(xs[..|xs| - 1], f) + [f(xs[|xs| - 1])]
  }

  lemma {:induction false} ProjectAt<T, U>(xs: seq<T>, f: T -> U, i: int)
    requires 0 <= i < |xs|
    ensures Project(xs, f)[i] == f(xs[i])
  {
    if i < |xs| - 1 {
      ProjectAt(xs[..|xs| - 1], f, i);
    }
  }

  lemma ProjectSnoc<T, U>(xs: seq<T>, x: T, f: T -> U)
    ensures Project(xs + [x], f) == Project(xs, f) + [f(x)]
  {
    assert (xs + [x])[..|xs|] == xs;
  }

  lemma SumSnoc<T>(xs: seq<T>, x: T, f: T -> int)
    ensures Sum(xs + [x], f) == Sum(xs, f) + f(x)
  {
    assert (xs + [x])[..|xs|] == xs;
  }

  /** The elements of xs whose f-value is v, in order. */
  function Where<T, U(==)>(xs: seq<T>, f: T -> U, v: U): seq<T> {
    if xs == [] then [] else Where(xs[..|xs| - 1], f, v) + (if f(xs[|xs| - 1]) == v then [xs[|xs| - 1]] else [])
  }

  /** Filtering on a value keeps exactly as many elements as the value occurs among the projections. */
  lemma {:induction false} WhereCount<T, U>(xs: seq<T>, f: T -> U, v: U)
    ensures |Where(xs, f, v)| == multiset(Project(xs, f))[v]
  {
    if xs != [] {
      var n := |xs| - 1;
      WhereCount(xs[..n], f, v);
      assert Project(xs, f) == Project(xs[..n], f) + [f(xs[n])];
    }
  }

  lemma WhereSnoc<T, U>(xs: seq<T>, x: T, f: T -> U, v: U)
    ensures f(x) == v ==> Where(xs + [x], f, v) == Where(xs, f, v) + [x]
    ensures f(x) != v ==> Where(xs + [x], f, v) == Where(xs, f, v)
  {
    assert (xs + [x])[..|xs|] == xs;
    assert Where(xs, f, v) + [] == Where(xs, f, v);
  }

  /** No element has a value that none of the projections has. */
  lemma WhereAbsent<T, U>(xs: seq<T>, f: T -> U, v: U)
    requires v !in Project(xs, f)
    ensures Where(xs, f, v) == []
  {
    WhereCount(xs, f, v);
  }

  /** The first element with value v is the first element the filter keeps. */
  lemma {:induction false} WhereFirst<T, U>(xs: seq<T>, f: T -> U, v: U, i: int)
    requires 0 <= i < |xs| && f(xs[i]) == v
    requires forall j :: 0 <= j < i ==> f(xs[j]) != v
    ensures |Where(xs, f, v)| > 0 && Where(xs, f, v)[0] == xs[i]
  {
    var n := |xs| - 1;
    assert xs == xs[..n] + [xs[n]];
    WhereSnoc(xs[..n], xs[n], f, v);
    if i == n {
      assert forall j :: 0 <= j < |xs[..n]| ==> Project(xs[..n], f)[j] != v by {
        forall j | 0 <= j < |xs[..n]| ensures Project(xs[..n], f)[j] != v {
          ProjectAt(xs[..n], f, j);
        }
      }
      WhereAbsent(xs[..n], f, v);
    } else {
      WhereFirst(xs[..n], f, v, i);
    }
  }

  lemma CountIfSnoc<T>(xs: seq<T>, x: T, p: T -> bool)
    ensures CountIf(xs + [x], p) == CountIf(xs, p) + (if p(x) then 1 else 0)
  {
    assert (xs + [x])[..|xs|] == xs;
  }

  function PlayerWon(p: Participant): bool { p.win }
  function PlayerKills(p: Participant): int { p.kills }
  function PlayerDeaths(p: Participant): int { p.deaths }
  function PlayerAssists(p: Participant): int { p.assists }
  function PlayerRole(p: Participant): string { p.teamPosition }

  /** cs as the analyses compute it: `totalMinionsKilled + get('neutralMinionsKilled', 0)`. */
  function CreepScore(p: Participant): int { p.totalMinionsKilled + p.neutralMinionsKilled.GetOr(0) }

  function Won(g: Game): bool { g.player.win }
  function Kills(g: Game): int { g.player.kills }
  function Deaths(g: Game): int { g.player.deaths }
  function Assists(g: Game): int { g.player.assists }
  function Role(g: Game): string { g.player.teamPosition }
  function Champion(g: Game): string { g.player.championName }
  function Duration(g: Game): int { g.duration }

  /** The games, wins and kill/death/assist sums of a group of games, as the analyses' per-group records hold them. */
  datatype GameStats = GameStats(games: nat, wins: nat, kills: int, deaths: int, assists: int)

  function GameStatsOf(hs: seq<Game>): GameStats {
    GameStats(|hs|, CountIf(hs, Won), Sum(hs, Kills), Sum(hs, Deaths), Sum(hs, Assists))
  }

  /** The record every group starts from. */
  const NoGames: GameStats := GameStats(0, 0, 0, 0, 0)

  /** The update of a group's record by one of its games. */
  function AddGameStats(s: GameStats, g: Game): GameStats {
    GameStats(s.games + 1, s.wins + (if g.player.win then 1 else 0),
              s.kills + g.player.kills, s.deaths + g.player.deaths, s.assists + g.player.assists)
  }

  lemma GameStatsSnoc(hs: seq<Game>, g: Game)
    ensures GameStatsOf(hs + [g]) == AddGameStats(GameStatsOf(hs), g)
  {
    CountIfSnoc(hs, g, Won);
    SumSnoc(hs, g, Kills);
    SumSnoc(hs, g, Deaths);
    SumSnoc(hs, g, Assists);
  }

  /** `(kills + assists) / max(1, deaths)`. */
  function KdaRatio(kills: int, deaths: int, assists: int): (r: real)
    ensures deaths <= 1 ==> r == (kills + assists) as real
    ensures deaths > 1 ==> r * deaths as real == (kills + assists) as real
  {
    (kills + assists) as real / (if deaths > 1 then deaths else 1) as real
  }

  /** `part / whole * 100`. */
  function Percent(part: int, whole: int): (r: real)
    requires whole != 0
    ensures r * whole as real == part as real * 100.0
  {
    part as real / whole as real * 100.0
  }
}
