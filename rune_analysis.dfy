/**
 * analyze_runes: over the player's games that carry perks, how often each
 * keystone, primary path and secondary path was taken, a record per
 * (primary, secondary) combination and one per keystone, then the rates of
 * each record. A match without "info" or without the player raises, and so
 * does a perks entry with fewer than two styles or a primary style without
 * selections.
 */
module RuneAnalysis {
  import opened Wrappers
  import opened Text
  import opened Collections
  import opened MatchData

  /** The runes of one game: the keystone (first perk of the primary style) and the two path ids. */
  datatype Pick = Pick(game: Game, keystone: int, primaryPath: int, secondaryPath: int)

  /** The runes of the player's game at position index: none without perks, a failure when the styles are short. */
  function PickOf(g: Game, index: nat): Result<Option<Pick>, Failure> {
    match g.player.perks
    case None => Success(None)
    case Some(perks) =>
      if |perks.styles| < 2 || |perks.styles[0].selections| == 0 then Failure(MalformedPerks(index))
      else Success(Some(Pick(g, perks.styles[0].selections[0], perks.styles[0].style, perks.styles[1].style)))
  }

  /** The lookup of the player and of their runes in the match at position index. */
  function StepOf(m: MatchPayload, puuid: string, index: nat): Result<Option<Pick>, Failure> {
    match GameOf(m, puuid, index)
    case Failure(e) => Failure(e)
    case Success(g) => PickOf(g, index)
  }

  /** The runes of every match with perks, in order, or the first failure of any match. */
  function PicksOf(matches: seq<MatchPayload>, puuid: string): Result<seq<Pick>, Failure> {
    if matches == [] then Success([])
    else
      var n := |matches| - 1;
      match PicksOf(matches[..n], puuid)
      case Failure(e) => Failure(e)
      case Success(ps) =>
        match StepOf(matches[n], puuid, n)
        case Failure(e) => Failure(e)
        case Success(None) => Success(ps)
        case Success(Some(p)) => Success(ps + [p])
  }

  lemma {:induction false} PicksOfPrefixFailure(matches: seq<MatchPayload>, k: nat, puuid: string)
    requires k <= |matches| && PicksOf(matches[..k], puuid).Failure?
    ensures PicksOf(matches, puuid) == PicksOf(matches[..k], puuid)
    decreases |matches| - k
  {
    if k < |matches| {
      assert matches[..k + 1][..k] == matches[..k];
      PicksOfPrefixFailure(matches, k + 1, puuid);
    } else {
      assert matches[..k] == matches;
    }
  }

  /** The step of the main loop: a failing match ends the run, a match with perks adds its runes, any other adds nothing. */
  lemma PicksOfStep(matches: seq<MatchPayload>, i: nat, puuid: string)
    requires i < |matches| && PicksOf(matches[..i], puuid).Success?
    ensures var s := StepOf(matches[i], puuid, i);
            s.Failure? ==> PicksOf(matches, puuid) == Failure(s.error)
    ensures var s := StepOf(matches[i], puuid, i);
            s.Success? ==>
              PicksOf(matches[..i + 1], puuid) ==
              Success(PicksOf(matches[..i], puuid).value + (if s.value.Some? then [s.value.value] else []))
  {
    assert matches[..i + 1][..i] == matches[..i];
    assert matches[..i + 1][i] == matches[i];
    assert PicksOf(matches[..i], puuid).value + [] == PicksOf(matches[..i], puuid).value;
    if StepOf(matches[i], puuid, i).Failure? {
      PicksOfPrefixFailure(matches, i + 1, puuid);
    }
  }

  /** `'perks' in player`, then `perks['styles'][0]`, `[1]` and `['selections'][0]['perk']`. */
  method FindPick(m: MatchPayload, puuid: string, index: nat) returns (r: Result<Option<Pick>, Failure>)
    ensures r == StepOf(m, puuid, index)
  {
    var game := FindGame(m, puuid, index);
    if game.Failure? {
      return Failure(game.error);
    }
    var player := game.value.player;
    if player.perks.None? {
      return Success(None);
    }
    var styles := player.perks.value.styles;
    if |styles| < 2 || |styles[0].selections| == 0 {
      return Failure(MalformedPerks(index));
    }
    return Success(Some(Pick(game.value, styles[0].selections[0], styles[0].style, styles[1].style)));
  }

  function HasPerks(g: Game): bool { g.player.perks.Some? }

  /** The runes are those of the player's games that carry perks: the run succeeds only if the player lookup does, one pick per game with perks. */
  lemma {:induction false} PicksAreGamesWithPerks(matches: seq<MatchPayload>, puuid: string)
    requires PicksOf(matches, puuid).Success?
    ensures PlayersOf(matches, puuid).Success?
    ensures |PicksOf(matches, puuid).value| == CountIf(PlayersOf(matches, puuid).value, HasPerks)
    ensures forall p :: p in PicksOf(matches, puuid).value ==> p.game in PlayersOf(matches, puuid).value && HasPerks(p.game)
  {
    if matches != [] {
      var n := |matches| - 1;
      assert matches == matches[..n] + [matches[n]];
      PicksAreGamesWithPerks(matches[..n], puuid);
      PlayersOfSnoc(matches[..n], matches[n], puuid);
      var gs := PlayersOf(matches[..n], puuid).value;
      var g := GameOf(matches[n], puuid, n).value;
      CountIfSnoc(gs, g, HasPerks);
    }
  }

  /** `f"{primary_path}_{secondary_path}"`. */
  function ComboKey(primaryPath: int, secondaryPath: int): string {
    IntToString(primaryPath) + "_" + IntToString(secondaryPath)
  }

  /** Different path pairs get different combination keys, since a printed int has no '_'. */
  lemma ComboKeyInjective(p1: int, s1: int, p2: int, s2: int)
    requires ComboKey(p1, s1) == ComboKey(p2, s2)
    ensures p1 == p2 && s1 == s2
  {
    var a1, a2 := IntToString(p1), IntToString(p2);
    var key := ComboKey(p1, s1);
    assert key == ComboKey(p2, s2);
    assert |a1| == |a2| by {
      assert key[|a1|] == '_';
    }
    assert a1 == key[..|a1|] && a2 == key[..|a2|];
    assert IntToString(s1) == key[|a1| + 1..] && IntToString(s2) == key[|a2| + 1..];
    IntToStringInjective(p1, p2);
    IntToStringInjective(s1, s2);
  }

  function Keystone(p: Pick): int { p.keystone }
  function PrimaryPath(p: Pick): int { p.primaryPath }
  function SecondaryPath(p: Pick): int { p.secondaryPath }
  function Combo(p: Pick): string { ComboKey(p.primaryPath, p.secondaryPath) }
  function PickGame(p: Pick): Game { p.game }
  function PickWon(p: Pick): bool { p.game.player.win }
  function PickDamage(p: Pick): int { p.game.player.totalDamageDealtToChampions }

  /** `player.get('totalHealsOnTeammates', 0)` and `player.get('totalDamageShieldedOnTeammates', 0)`. */
  function Healing(p: Pick): int { p.game.player.totalHealsOnTeammates.GetOr(0) }
  function Shielding(p: Pick): int { p.game.player.totalDamageShieldedOnTeammates.GetOr(0) }

  /** A keystone's record. */
  datatype KeystoneStats = KeystoneStats(games: nat, wins: nat, damage: int, healing: int, shielding: int)

  /** The record of the games on one keystone: the healing and shielding are those of its first game, never summed. */
  function KeystoneStatsOf(ps: seq<Pick>): KeystoneStats {
    KeystoneStats(|ps|, CountIf(ps, PickWon), Sum(ps, PickDamage),
                  if ps == [] then 0 else Healing(ps[0]), if ps == [] then 0 else Shielding(ps[0]))
  }

  /** The combination record of the picks ps. */
  function ComboStatsOf(ps: seq<Pick>): GameStats { GameStatsOf(Project(ps, PickGame)) }

  /** The dictionaries of `rune_stats` after the main loop. */
  datatype RuneTables = RuneTables(
    keystoneUsage: Histogram<int>, primaryPaths: Histogram<int>, secondaryPaths: Histogram<int>,
    combinations: map<string, GameStats>, comboOrder: seq<string>,
    performanceByKeystone: map<int, KeystoneStats>)

  function CombosOf(ps: seq<Pick>): map<string, GameStats> {
    map k | k in Project(ps, Combo) :: ComboStatsOf(Where(ps, Combo, k))
  }

  function KeystonesOf(ps: seq<Pick>): map<int, KeystoneStats> {
    map k | k in Project(ps, Keystone) :: KeystoneStatsOf(Where(ps, Keystone, k))
  }

  function TablesOf(ps: seq<Pick>): RuneTables {
    RuneTables(HistogramOf(Project(ps, Keystone)), HistogramOf(Project(ps, PrimaryPath)), HistogramOf(Project(ps, SecondaryPath)),
               CombosOf(ps), Distinct(Project(ps, Combo)), KeystonesOf(ps))
  }

  /** The update of a combination record; a new combination starts from zero. */
  function AddCombo(combos: map<string, GameStats>, p: Pick): map<string, GameStats> {
    var k := Combo(p);
    combos[k := AddGameStats(if k in combos then combos[k] else NoGames, p.game)]
  }

  /** The update of a keystone record; a new keystone takes the healing and shielding of this game. */
  function AddKeystone(perf: map<int, KeystoneStats>, p: Pick): map<int, KeystoneStats> {
    var k := p.keystone;
    var s := if k in perf then perf[k] else KeystoneStats(0, 0, 0, Healing(p), Shielding(p));
    perf[k := KeystoneStats(s.games + 1, s.wins + (if PickWon(p) then 1 else 0), s.damage + PickDamage(p), s.healing, s.shielding)]
  }

  /** The update of all the dictionaries by one game with perks. */
  function AddPick(t: RuneTables, p: Pick): RuneTables {
    var k := Combo(p);
    RuneTables(AddKey(t.keystoneUsage, p.keystone), AddKey(t.primaryPaths, p.primaryPath), AddKey(t.secondaryPaths, p.secondaryPath),
               AddCombo(t.combinations, p), if k in t.combinations then t.comboOrder else t.comboOrder + [k],
               AddKeystone(t.performanceByKeystone, p))
  }

  lemma UsageSnoc(ps: seq<Pick>, p: Pick)
    ensures HistogramOf(Project(ps + [p], Keystone)) == AddKey(HistogramOf(Project(ps, Keystone)), p.keystone)
    ensures HistogramOf(Project(ps + [p], PrimaryPath)) == AddKey(HistogramOf(Project(ps, PrimaryPath)), p.primaryPath)
    ensures HistogramOf(Project(ps + [p], SecondaryPath)) == AddKey(HistogramOf(Project(ps, SecondaryPath)), p.secondaryPath)
  {
    ProjectSnoc(ps, p, Keystone);
    ProjectSnoc(ps, p, PrimaryPath);
    ProjectSnoc(ps, p, SecondaryPath);
    HistogramSnoc(Project(ps, Keystone), p.keystone);
    HistogramSnoc(Project(ps, PrimaryPath), p.primaryPath);
    HistogramSnoc(Project(ps, SecondaryPath), p.secondaryPath);
  }

  lemma ComboOrderSnoc(ps: seq<Pick>, p: Pick)
    ensures Distinct(Project(ps + [p], Combo)) ==
            if Combo(p) in CombosOf(ps) then Distinct(Project(ps, Combo)) else Distinct(Project(ps, Combo)) + [Combo(p)]
  {
    ProjectSnoc(ps, p, Combo);
    TallyOfSnoc(Project(ps, Combo), Combo(p));
  }

  lemma ComboEntrySnoc(ps: seq<Pick>, p: Pick, k: string)
    requires k in CombosOf(ps + [p]) && k in AddCombo(CombosOf(ps), p)
    ensures CombosOf(ps + [p])[k] == AddCombo(CombosOf(ps), p)[k]
  {
    WhereSnoc(ps, p, Combo, k);
    if k == Combo(p) {
      ProjectSnoc(Where(ps, Combo, k), p, PickGame);
      GameStatsSnoc(Project(Where(ps, Combo, k), PickGame), p.game);
      if k !in CombosOf(ps) {
        WhereAbsent(ps, Combo, k);
      }
    }
  }

  lemma CombosSnoc(ps: seq<Pick>, p: Pick)
    ensures CombosOf(ps + [p]) == AddCombo(CombosOf(ps), p)
  {
    ProjectSnoc(ps, p, Combo);
    assert CombosOf(ps + [p]).Keys == AddCombo(CombosOf(ps), p).Keys by {
      assert forall k :: k in Project(ps + [p], Combo) <==> k in Project(ps, Combo) || k == Combo(p);
    }
    forall k | k in CombosOf(ps + [p]) ensures CombosOf(ps + [p])[k] == AddCombo(CombosOf(ps), p)[k] {
      ComboEntrySnoc(ps, p, k);
    }
  }

  /** The record update of one more game on a keystone that already has games. */
  lemma KeystoneStatsSnoc(hs: seq<Pick>, p: Pick)
    requires hs != []
    ensures var s := KeystoneStatsOf(hs);
            KeystoneStatsOf(hs + [p]) ==
            KeystoneStats(s.games + 1, s.wins + (if PickWon(p) then 1 else 0), s.damage + PickDamage(p), s.healing, s.shielding)
  {
    CountIfSnoc(hs, p, PickWon);
    SumSnoc(hs, p, PickDamage);
    assert (hs + [p])[0] == hs[0];
  }

  lemma KeystoneEntrySnoc(ps: seq<Pick>, p: Pick, k: int)
    requires k in KeystonesOf(ps + [p]) && k in AddKeystone(KeystonesOf(ps), p)
    ensures KeystonesOf(ps + [p])[k] == AddKeystone(KeystonesOf(ps), p)[k]
  {
    WhereSnoc(ps, p, Keystone, k);
    if k == p.keystone {
      if k !in KeystonesOf(ps) {
        WhereAbsent(ps, Keystone, k);
        assert Where(ps + [p], Keystone, k) == [p];
        assert CountIf([p], PickWon) == if PickWon(p) then 1 else 0;
        assert Sum([p], PickDamage) == PickDamage(p);
      } else {
        WhereCount(ps, Keystone, k);
        KeystoneStatsSnoc(Where(ps, Keystone, k), p);
      }
    }
  }

  lemma KeystonesSnoc(ps: seq<Pick>, p: Pick)
    ensures KeystonesOf(ps + [p]) == AddKeystone(KeystonesOf(ps), p)
  {
    ProjectSnoc(ps, p, Keystone);
    assert KeystonesOf(ps + [p]).Keys == AddKeystone(KeystonesOf(ps), p).Keys by {
      assert forall k :: k in Project(ps + [p], Keystone) <==> k in Project(ps, Keystone) || k == p.keystone;
    }
    forall k | k in KeystonesOf(ps + [p]) ensures KeystonesOf(ps + [p])[k] == AddKeystone(KeystonesOf(ps), p)[k] {
      KeystoneEntrySnoc(ps, p, k);
    }
  }

  /** One more game with perks is the loop body's update of every dictionary. */
  lemma TablesSnoc(ps: seq<Pick>, p: Pick)
    ensures TablesOf(ps + [p]) == AddPick(TablesOf(ps), p)
  {
    UsageSnoc(ps, p);
    CombosSnoc(ps, p);
    ComboOrderSnoc(ps, p);
    KeystonesSnoc(ps, p);
  }

  lemma TablesOfEmpty()
    ensures TablesOf([]) == RuneTables(Histogram(map[], []), Histogram(map[], []), Histogram(map[], []), map[], [], map[])
  {
    assert TallyOf<int>([]) == map[];
    assert TallyOf<string>([]) == map[];
    assert Project<Pick, int>([], Keystone) == [];
    assert CombosOf([]) == map[];
    assert KeystonesOf([]) == map[];
  }

  /** `rune_stats['rune_combinations'][combo_key]`, created when missing, then updated. */
  method AddToCombo(combos: map<string, GameStats>, order: seq<string>, p: Pick)
    returns (combos': map<string, GameStats>, order': seq<string>)
    ensures combos' == AddCombo(combos, p)
    ensures order' == if Combo(p) in combos then order else order + [Combo(p)]
  {
    var key := ComboKey(p.primaryPath, p.secondaryPath);
    combos', order' := combos, order;
    if key !in combos' {
      combos' := combos'[key := NoGames];
      order' := order' + [key];
    }
    var c := combos'[key];
    var player := p.game.player;
    combos' := combos'[key := GameStats(c.games + 1, c.wins + (if player.win then 1 else 0),
                                        c.kills + player.kills, c.deaths + player.deaths, c.assists + player.assists)];
  }

  /** `rune_stats['performance_by_keystone'][keystone]`, created from this game's healing and shielding when missing. */
  method AddToKeystone(perf: map<int, KeystoneStats>, p: Pick) returns (perf': map<int, KeystoneStats>)
    ensures perf' == AddKeystone(perf, p)
  {
    var k := p.keystone;
    var player := p.game.player;
    perf' := perf;
    if k !in perf' {
      perf' := perf'[k := KeystoneStats(0, 0, 0, player.totalHealsOnTeammates.GetOr(0),
                                        player.totalDamageShieldedOnTeammates.GetOr(0))];
    }
    var s := perf'[k];
    perf' := perf'[k := KeystoneStats(s.games + 1, s.wins + (if player.win then 1 else 0),
                                      s.damage + player.totalDamageDealtToChampions, s.healing, s.shielding)];
  }

  /** The body of `if 'perks' in player:`. */
  method AddRunes(t: RuneTables, p: Pick) returns (t': RuneTables)
    ensures t' == AddPick(t, p)
  {
    var keystones, keystoneOrder := Increment(t.keystoneUsage.counts, t.keystoneUsage.order, p.keystone);
    var primary, primaryOrder := Increment(t.primaryPaths.counts, t.primaryPaths.order, p.primaryPath);
    var secondary, secondaryOrder := Increment(t.secondaryPaths.counts, t.secondaryPaths.order, p.secondaryPath);
    var combos, comboOrder := AddToCombo(t.combinations, t.comboOrder, p);
    var perf := AddToKeystone(t.performanceByKeystone, p);
    t' := RuneTables(Histogram(keystones, keystoneOrder), Histogram(primary, primaryOrder),
                     Histogram(secondary, secondaryOrder), combos, comboOrder, perf);
  }

  method StepTables(t: RuneTables, p: Pick, ghost ps: seq<Pick>) returns (t': RuneTables)
    requires t == TablesOf(ps)
    ensures t' == TablesOf(ps + [p])
  {
    t' := AddRunes(t, p);
    TablesSnoc(ps, p);
  }

  /** A combination's keys after the second pass: winrate and kda, added only when it has games. */
  datatype ComboSummary = ComboSummary(stats: GameStats, rates: Option<(real, real)>)

  /** A keystone's keys after the third pass: winrate and avg_damage, added only when it has games. */
  datatype KeystoneSummary = KeystoneSummary(stats: KeystoneStats, rates: Option<(real, real)>)

  function ComboSummaryOf(s: GameStats): ComboSummary {
    ComboSummary(s, if s.games > 0 then Some((Percent(s.wins, s.games), KdaRatio(s.kills, s.deaths, s.assists))) else None)
  }

  function KeystoneSummaryOf(s: KeystoneStats): KeystoneSummary {
    KeystoneSummary(s, if s.games > 0 then Some((Percent(s.wins, s.games), s.damage as real / s.games as real)) else None)
  }

  /** What analyze_runes returns. */
  datatype RuneStats = RuneStats(
    keystoneUsage: Histogram<int>, primaryPaths: Histogram<int>, secondaryPaths: Histogram<int>,
    combinations: map<string, ComboSummary>, comboOrder: seq<string>,
    performanceByKeystone: map<int, KeystoneSummary>)

  function Finalize(t: RuneTables): RuneStats {
    RuneStats(t.keystoneUsage, t.primaryPaths, t.secondaryPaths,
              map k | k in t.combinations :: ComboSummaryOf(t.combinations[k]), t.comboOrder,
              map k | k in t.performanceByKeystone :: KeystoneSummaryOf(t.performanceByKeystone[k]))
  }

  /** analyze_runes as a value. */
  function RunesOf(matches: seq<MatchPayload>, puuid: string): Result<RuneStats, Failure> {
    match PicksOf(matches, puuid)
    case Failure(e) => Failure(e)
    case Success(ps) => Success(Finalize(TablesOf(ps)))
  }

  /** `for combo_key, stats in rune_stats['rune_combinations'].items()`, over the keys in insertion order. */
  method SummarizeCombos(combos: map<string, GameStats>, order: seq<string>) returns (r: map<string, ComboSummary>)
    requires combos.Keys == set k | k in order
    ensures r == map k | k in combos :: ComboSummaryOf(combos[k])
  {
    r := map[];
    var i := 0;
    while i < |order|
      invariant 0 <= i <= |order|
      invariant r == map k | k in order[..i] :: ComboSummaryOf(combos[k])
    {
      assert order[..i + 1] == order[..i] + [order[i]];
      var stats := combos[order[i]];
      var rates: Option<(real, real)> := None;
      if stats.games > 0 {
        rates := Some((Percent(stats.wins, stats.games), KdaRatio(stats.kills, stats.deaths, stats.assists)));
      }
      r := r[order[i] := ComboSummary(stats, rates)];
      i := i + 1;
    }
    assert order[..|order|] == order;
  }

  /** `for keystone, stats in rune_stats['performance_by_keystone'].items()`, over the keys in insertion order. */
  method SummarizeKeystones(perf: map<int, KeystoneStats>, order: seq<int>) returns (r: map<int, KeystoneSummary>)
    requires perf.Keys == set k | k in order
    ensures r == map k | k in perf :: KeystoneSummaryOf(perf[k])
  {
    r := map[];
    var i := 0;
    while i < |order|
      invariant 0 <= i <= |order|
      invariant r == map k | k in order[..i] :: KeystoneSummaryOf(perf[k])
    {
      assert order[..i + 1] == order[..i] + [order[i]];
      var stats := perf[order[i]];
      var rates: Option<(real, real)> := None;
      if stats.games > 0 {
        rates := Some((Percent(stats.wins, stats.games), stats.damage as real / stats.games as real));
      }
      r := r[order[i] := KeystoneSummary(stats, rates)];
      i := i + 1;
    }
    assert order[..|order|] == order;
  }

  /** The combination and keystone dictionaries have as keys the combinations and keystones, in first-seen order. */
  lemma TablesKeys(ps: seq<Pick>)
    ensures TablesOf(ps).combinations.Keys == set k | k in TablesOf(ps).comboOrder
    ensures TablesOf(ps).performanceByKeystone.Keys == set k | k in TablesOf(ps).keystoneUsage.order
  {
    DistinctKeys(Project(ps, Combo));
    DistinctKeys(Project(ps, Keystone));
  }

  /** The returned summaries keep the first-seen order: the combination order and the keystone usage order list exactly their keys. */
  lemma ResultKeyOrder(ps: seq<Pick>)
    ensures var r := Finalize(TablesOf(ps));
            r.combinations.Keys == (set k | k in r.comboOrder) &&
            r.performanceByKeystone.Keys == (set k | k in r.keystoneUsage.order)
  {
    TablesKeys(ps);
  }

  /** The two passes after the main loop. */
  method Finish(t: RuneTables, ghost ps: seq<Pick>) returns (r: RuneStats)
    requires t == TablesOf(ps)
    ensures r == Finalize(t)
  {
    TablesKeys(ps);
    var combos := SummarizeCombos(t.combinations, t.comboOrder);
    var keystones := SummarizeKeystones(t.performanceByKeystone, t.keystoneUsage.order);
    r := RuneStats(t.keystoneUsage, t.primaryPaths, t.secondaryPaths, combos, t.comboOrder, keystones);
  }

  method AnalyzeRunes(matches: seq<MatchPayload>, puuid: string) returns (r: Result<RuneStats, Failure>)
    ensures r == RunesOf(matches, puuid)
  {
    TablesOfEmpty();
    var t := RuneTables(Histogram(map[], []), Histogram(map[], []), Histogram(map[], []), map[], [], map[]);
    ghost var ps: seq<Pick> := [];
    var i := 0;
    while i < |matches|
      invariant 0 <= i <= |matches|
      invariant PicksOf(matches[..i], puuid) == Success(ps)
      invariant t == TablesOf(ps)
    {
      PicksOfStep(matches, i, puuid);
      var step := FindPick(matches[i], puuid, i);
      if step.Failure? {
        return Failure(step.error);
      }
      if step.value.Some? {
        t := StepTables(t, step.value.value, ps);
        ps := ps + [step.value.value];
      } else {
        assert ps + [] == ps;
      }
      i := i + 1;
    }
    assert matches[..|matches|] == matches;
    var stats := Finish(t, ps);
    return Success(stats);
  }

  /** Each usage dictionary counts every game with perks once. */
  lemma UsageTotals(ps: seq<Pick>)
    ensures var t := TablesOf(ps);
            && SumCounts(t.keystoneUsage.order, t.keystoneUsage.counts) == |ps|
            && SumCounts(t.primaryPaths.order, t.primaryPaths.counts) == |ps|
            && SumCounts(t.secondaryPaths.order, t.secondaryPaths.counts) == |ps|
  {
    TallyOfIsTally(Project(ps, Keystone));
    TallyTotal(TallyOf(Project(ps, Keystone)), Project(ps, Keystone));
    TallyOfIsTally(Project(ps, PrimaryPath));
    TallyTotal(TallyOf(Project(ps, PrimaryPath)), Project(ps, PrimaryPath));
    TallyOfIsTally(Project(ps, SecondaryPath));
    TallyTotal(TallyOf(Project(ps, SecondaryPath)), Project(ps, SecondaryPath));
  }

  /** Every keystone record has as many games as the keystone's usage count, and at most that many wins. */
  lemma KeystoneGamesAreUsage(ps: seq<Pick>, k: int)
    requires k in TablesOf(ps).performanceByKeystone
    ensures var t := TablesOf(ps);
            && k in t.keystoneUsage.counts
            && t.performanceByKeystone[k].games == t.keystoneUsage.counts[k] > 0
            && t.performanceByKeystone[k].wins <= t.performanceByKeystone[k].games
  {
    WhereCount(ps, Keystone, k);
  }

  /** The combination records count every game with perks once, and no combination has more wins than games. */
  lemma ComboGamesTotal(ps: seq<Pick>)
    ensures var t := TablesOf(ps);
            SumCounts(t.comboOrder, map k | k in t.combinations :: t.combinations[k].games) == |ps|
    ensures var t := TablesOf(ps);
            forall k :: k in t.combinations ==> t.combinations[k].wins <= t.combinations[k].games
  {
    var t := TablesOf(ps);
    var combos := Project(ps, Combo);
    var games := map k | k in t.combinations :: t.combinations[k].games;
    forall k | k in games ensures games[k] == multiset(combos)[k] {
      WhereCount(ps, Combo, k);
    }
    assert IsTally(games, combos);
    TallyTotal(games, combos);
  }

  /** A keystone's healing and shielding are those of the first game taken with it. */
  lemma KeystoneHealingFromFirstGame(ps: seq<Pick>, i: int)
    requires 0 <= i < |ps| && forall j :: 0 <= j < i ==> ps[j].keystone != ps[i].keystone
    ensures ps[i].keystone in TablesOf(ps).performanceByKeystone
    ensures TablesOf(ps).performanceByKeystone[ps[i].keystone].healing == Healing(ps[i])
    ensures TablesOf(ps).performanceByKeystone[ps[i].keystone].shielding == Shielding(ps[i])
  {
    ProjectAt(ps, Keystone, i);
    WhereFirst(ps, Keystone, ps[i].keystone, i);
  }

  lemma {:induction false} ComboMembers(ps: seq<Pick>, primaryPath: int, secondaryPath: int)
    ensures forall p :: p in Where(ps, Combo, ComboKey(primaryPath, secondaryPath)) <==>
              p in ps && p.primaryPath == primaryPath && p.secondaryPath == secondaryPath
  {
    if ps != [] {
      var n := |ps| - 1;
      ComboMembers(ps[..n], primaryPath, secondaryPath);
      assert ps == ps[..n] + [ps[n]];
      WhereSnoc(ps[..n], ps[n], Combo, ComboKey(primaryPath, secondaryPath));
      if Combo(ps[n]) == ComboKey(primaryPath, secondaryPath) {
        ComboKeyInjective(ps[n].primaryPath, ps[n].secondaryPath, primaryPath, secondaryPath);
      }
    }
  }

  /** The record of a combination key sums exactly the games taken with that primary and that secondary path. */
  lemma ComboMeaning(ps: seq<Pick>, primaryPath: int, secondaryPath: int)
    requires ComboKey(primaryPath, secondaryPath) in TablesOf(ps).combinations
    ensures var hs := Where(ps, Combo, ComboKey(primaryPath, secondaryPath));
            && TablesOf(ps).combinations[ComboKey(primaryPath, secondaryPath)] == ComboStatsOf(hs)
            && |hs| > 0
            && forall p :: p in hs <==> p in ps && p.primaryPath == primaryPath && p.secondaryPath == secondaryPath
  {
    WhereCount(ps, Combo, ComboKey(primaryPath, secondaryPath));
    ComboMembers(ps, primaryPath, secondaryPath);
  }

  /** Every combination in the results has games, so every one of them gets its rates. */
  lemma EveryComboGetsRates(ps: seq<Pick>)
    ensures var r := Finalize(TablesOf(ps));
            forall k :: k in r.combinations ==> r.combinations[k].rates.Some?
  {
    var t := TablesOf(ps);
    forall k | k in t.combinations ensures t.combinations[k].games > 0 {
      WhereCount(ps, Combo, k);
    }
  }

  /** Every keystone in the results has games, so every one of them gets its rates. */
  lemma EveryKeystoneGetsRates(ps: seq<Pick>)
    ensures var r := Finalize(TablesOf(ps));
            forall k :: k in r.performanceByKeystone ==> r.performanceByKeystone[k].rates.Some?
  {
    var t := TablesOf(ps);
    forall k | k in t.performanceByKeystone ensures t.performanceByKeystone[k].games > 0 {
      WhereCount(ps, Keystone, k);
    }
  }
}
