/**
 * analyze_champion_stats: per champion, the sums over the games played on
 * it, a role histogram and an item histogram (slots item0..item5), then
 * the rates, the main role and the six most built items. A match without
 * "info" or without the player raises, and so does a champion whose games
 * add up to no play time (the per-minute rates divide by it).
 */
module ChampionStats {
  import opened Wrappers
  import opened Collections
  import opened StableSort
  import opened MatchData

  /** The summed amounts of a champion's games: creep score, gold, damage, vision and play time in seconds. */
  datatype Amounts = Amounts(cs: int, gold: int, damage: int, vision: int, totalTime: int)

  /** What the main loop accumulates for one champion. */
  datatype ChampionTotals = ChampionTotals(record: GameStats, amounts: Amounts, roles: Histogram<string>, items: Histogram<int>)

  /** The keys the second loop adds to a champion's record. */
  datatype ChampionSummary = ChampionSummary(
    totals: ChampionTotals,
    winrate: real, kda: real, avgKills: real, avgDeaths: real, avgAssists: real,
    csPerMin: real, goldPerMin: real, damagePerMin: real, visionPerGame: real,
    mainRole: string, coreItems: seq<(int, nat)>)

  const ItemSlots: nat := 6
  const CoreItemCount: nat := 6

  /** The item ids of slots 0 .. n-1 that are present and not 0 (`if item and item != 0`), by slot. */
  function SlotItems(slots: map<int, int>, n: nat): seq<int> {
    if n == 0 then []
    else SlotItems(slots, n - 1) + (if n - 1 in slots && slots[n - 1] != 0 then [slots[n - 1]] else [])
  }

  function GameItems(g: Game): seq<int> { SlotItems(g.player.items, ItemSlots) }

  /** The built items of a list of games, game by game. */
  function ItemsOf(hs: seq<Game>): seq<int> {
    if hs == [] then [] else ItemsOf(hs[..|hs| - 1]) + GameItems(hs[|hs| - 1])
  }

  function Cs(g: Game): int { CreepScore(g.player) }
  function Gold(g: Game): int { g.player.goldEarned }
  function Damage(g: Game): int { g.player.totalDamageDealtToChampions }
  function Vision(g: Game): int { g.player.visionScore }

  function AmountsOf(hs: seq<Game>): Amounts {
    Amounts(Sum(hs, Cs), Sum(hs, Gold), Sum(hs, Damage), Sum(hs, Vision), Sum(hs, Duration))
  }

  /** Every item of the first n slots is a present, non-zero slot value. */
  lemma {:induction false} SlotItemsFromSlots(slots: map<int, int>, n: nat, item: int)
    requires item in SlotItems(slots, n)
    ensures item != 0 && exists s :: 0 <= s < n && s in slots && slots[s] == item
  {
    if item !in SlotItems(slots, n - 1) {
      assert n - 1 in slots && slots[n - 1] == item;
    } else {
      SlotItemsFromSlots(slots, n - 1, item);
    }
  }

  lemma {:induction false} ItemsOfFromGames(hs: seq<Game>, item: int)
    requires item in ItemsOf(hs)
    ensures exists i :: 0 <= i < |hs| && item in GameItems(hs[i])
  {
    var n := |hs| - 1;
    if item !in GameItems(hs[n]) {
      ItemsOfFromGames(hs[..n], item);
      var i :| 0 <= i < n && item in GameItems(hs[..n][i]);
      assert hs[..n][i] == hs[i];
    }
  }

  /**
   * The item counter of a champion never holds item 0 or an absent slot:
   * every counted item is the non-zero value of one of slots 0-5 of one of its games.
   */
  lemma ItemKeysFromSlots(hs: seq<Game>, item: int)
    requires item in TotalsOf(hs).items.counts
    ensures item != 0
    ensures exists i, s :: 0 <= i < |hs| && 0 <= s < ItemSlots && s in hs[i].player.items && hs[i].player.items[s] == item
  {
    assert item in ItemsOf(hs);
    ItemsOfFromGames(hs, item);
    var i :| 0 <= i < |hs| && item in GameItems(hs[i]);
    SlotItemsFromSlots(hs[i].player.items, ItemSlots, item);
  }

  /** The record of the games played on one champion. */
  function TotalsOf(hs: seq<Game>): ChampionTotals {
    ChampionTotals(GameStatsOf(hs), AmountsOf(hs), HistogramOf(Project(hs, Role)), HistogramOf(ItemsOf(hs)))
  }

  /** `champion_stats` after the main loop over the player's games. */
  function TableOf(gs: seq<Game>): map<string, ChampionTotals> {
    map c | c in Project(gs, Champion) :: TotalsOf(Where(gs, Champion, c))
  }

  /** The order in which the champions were first played, that of the dictionary's keys. */
  function ChampionOrder(gs: seq<Game>): seq<string> { Distinct(Project(gs, Champion)) }

  const NoTotals: ChampionTotals := ChampionTotals(NoGames, Amounts(0, 0, 0, 0, 0), Histogram(map[], []), Histogram(map[], []))

  function AddAmounts(a: Amounts, g: Game): Amounts {
    var p := g.player;
    Amounts(a.cs + CreepScore(p), a.gold + p.goldEarned, a.damage + p.totalDamageDealtToChampions,
            a.vision + p.visionScore, a.totalTime + g.duration)
  }

  /** The update of a champion's record by one of its games. */
  function AddGame(t: ChampionTotals, g: Game): ChampionTotals {
    ChampionTotals(AddGameStats(t.record, g), AddAmounts(t.amounts, g),
                   AddKey(t.roles, g.player.teamPosition), AddKeys(t.items, GameItems(g)))
  }

  lemma TotalsOfEmpty()
    ensures TotalsOf([]) == NoTotals
  {
    assert TallyOf<string>([]) == map[];
    assert TallyOf<int>([]) == map[];
  }

  lemma AmountsSnoc(hs: seq<Game>, g: Game)
    ensures AmountsOf(hs + [g]) == AddAmounts(AmountsOf(hs), g)
  {
    SumSnoc(hs, g, Cs);
    SumSnoc(hs, g, Gold);
    SumSnoc(hs, g, Damage);
    SumSnoc(hs, g, Vision);
    SumSnoc(hs, g, Duration);
  }

  lemma ItemsSnoc(hs: seq<Game>, g: Game)
    ensures HistogramOf(ItemsOf(hs + [g])) == AddKeys(HistogramOf(ItemsOf(hs)), GameItems(g))
  {
    assert (hs + [g])[..|hs|] == hs;
    HistogramAppend(ItemsOf(hs), GameItems(g));
  }

  /** One more game on a champion is the loop body's update of its record. */
  lemma TotalsSnoc(hs: seq<Game>, g: Game)
    ensures TotalsOf(hs + [g]) == AddGame(TotalsOf(hs), g)
  {
    GameStatsSnoc(hs, g);
    AmountsSnoc(hs, g);
    ProjectSnoc(hs, g, Role);
    HistogramSnoc(Project(hs, Role), g.player.teamPosition);
    ItemsSnoc(hs, g);
  }

  /** The record that one more game gives its champion. */
  function AddToTable(t: map<string, ChampionTotals>, g: Game): map<string, ChampionTotals> {
    var c := g.player.championName;
    t[c := AddGame(if c in t then t[c] else NoTotals, g)]
  }

  lemma TableKeysSnoc(gs: seq<Game>, g: Game)
    ensures TableOf(gs + [g]).Keys == AddToTable(TableOf(gs), g).Keys
  {
    ProjectSnoc(gs, g, Champion);
    assert forall k :: k in Project(gs + [g], Champion) <==> k in Project(gs, Champion) || k == g.player.championName;
  }

  lemma TableEntrySnoc(gs: seq<Game>, g: Game, k: string)
    requires k in TableOf(gs + [g]) && k in AddToTable(TableOf(gs), g)
    ensures TableOf(gs + [g])[k] == AddToTable(TableOf(gs), g)[k]
  {
    var c := g.player.championName;
    WhereSnoc(gs, g, Champion, k);
    if k == c {
      TotalsSnoc(Where(gs, Champion, k), g);
      if c !in TableOf(gs) {
        WhereAbsent(gs, Champion, k);
        TotalsOfEmpty();
      }
    }
  }

  /** One more game changes the record of its own champion only, created empty the first time. */
  lemma TableSnoc(gs: seq<Game>, g: Game)
    ensures TableOf(gs + [g]) == AddToTable(TableOf(gs), g)
  {
    TableKeysSnoc(gs, g);
    forall k | k in TableOf(gs + [g]) ensures TableOf(gs + [g])[k] == AddToTable(TableOf(gs), g)[k] {
      TableEntrySnoc(gs, g, k);
    }
  }

  lemma ChampionOrderSnoc(gs: seq<Game>, g: Game)
    ensures var c := g.player.championName;
            ChampionOrder(gs + [g]) == if c in TableOf(gs) then ChampionOrder(gs) else ChampionOrder(gs) + [c]
  {
    ProjectSnoc(gs, g, Champion);
    TallyOfSnoc(Project(gs, Champion), g.player.championName);
  }

  /** The inner `for i in range(0, 6)`: the present, non-zero item slots counted in slot order. */
  method CountItems(items: Histogram<int>, slots: map<int, int>) returns (items': Histogram<int>)
    ensures items' == AddKeys(items, SlotItems(slots, ItemSlots))
  {
    var counts, order := items.counts, items.order;
    var i := 0;
    while i < ItemSlots
      invariant 0 <= i <= ItemSlots
      invariant (counts, order) == BumpAll(items.counts, items.order, SlotItems(slots, i))
    {
      var s := SlotItems(slots, i);
      if i in slots && slots[i] != 0 {
        assert (s + [slots[i]])[..|s|] == s;
        counts, order := Increment(counts, order, slots[i]);
      } else {
        assert s + [] == s;
      }
      i := i + 1;
    }
    items' := Histogram(counts, order);
  }

  /** The body of the main loop once the player is found: a champion's record updated by one game. */
  method AddChampionGame(t: ChampionTotals, g: Game) returns (t': ChampionTotals)
    ensures t' == AddGame(t, g)
  {
    var p := g.player;
    var roles, roleOrder := Increment(t.roles.counts, t.roles.order, p.teamPosition);
    var items := CountItems(t.items, p.items);
    var r := t.record;
    var a := t.amounts;
    t' := ChampionTotals(
      GameStats(r.games + 1, r.wins + (if p.win then 1 else 0), r.kills + p.kills, r.deaths + p.deaths, r.assists + p.assists),
      Amounts(a.cs + CreepScore(p), a.gold + p.goldEarned, a.damage + p.totalDamageDealtToChampions,
              a.vision + p.visionScore, a.totalTime + g.duration),
      Histogram(roles, roleOrder), items);
  }

  /** The body of the main loop once the player is found. */
  method StepTable(table: map<string, ChampionTotals>, order: seq<string>, g: Game, ghost gs: seq<Game>)
    returns (table': map<string, ChampionTotals>, order': seq<string>)
    requires table == TableOf(gs) && order == ChampionOrder(gs)
    ensures table' == TableOf(gs + [g]) && order' == ChampionOrder(gs + [g])
  {
    table', order' := AddToChampion(table, order, g);
    TableSnoc(gs, g);
    ChampionOrderSnoc(gs, g);
  }

  /** `if champion not in champion_stats: ... = zeros`, then the update of that champion's record. */
  method AddToChampion(table: map<string, ChampionTotals>, order: seq<string>, g: Game)
    returns (table': map<string, ChampionTotals>, order': seq<string>)
    ensures table' == AddToTable(table, g)
    ensures order' == if g.player.championName in table then order else order + [g.player.championName]
  {
    var champion := g.player.championName;
    table', order' := table, order;
    if champion !in table' {
      table' := table'[champion := NoTotals];
      order' := order' + [champion];
    }
    var t := AddChampionGame(table'[champion], g);
    table' := table'[champion := t];
  }

  /** `x / (total_time / 60)`: a per-minute rate over a play time in seconds. */
  function PerMinute(x: int, seconds: int): (r: real)
    requires seconds != 0
    ensures r * seconds as real == x as real * 60.0
  {
    var minutes := seconds as real / 60.0;
    assert minutes * 60.0 == seconds as real;
    var r := x as real / minutes;
    assert r * minutes == x as real;
    assert r * seconds as real == r * minutes * 60.0;
    r
  }

  /** `x / games`. */
  function PerGame(x: int, games: nat): (r: real)
    requires games != 0
    ensures r * games as real == x as real
  {
    x as real / games as real
  }

  /** `(item, count)` for each item, in the dictionary's key order. */
  function ItemPairs(items: map<int, nat>, order: seq<int>): (r: seq<(int, nat)>)
    ensures |r| == |order|
    ensures forall i :: 0 <= i < |order| ==> r[i] == (order[i], Count(items, order[i]))
  {
    seq(|order|, i requires 0 <= i < |order| => (order[i], Count(items, order[i])))
  }

  function NegCount(p: (int, nat)): int { -(p.1 as int) }

  /** `sorted(items.items(), key=count, reverse=True)[:6]`: the stable sort by descending count, cut to six. */
  function CoreItems(items: Histogram<int>): seq<(int, nat)> {
    Prefix(SortBy(ItemPairs(items.counts, items.order), NegCount), CoreItemCount)
  }

  /** The second loop's keys for one champion record with games and play time. */
  function Summarize(t: ChampionTotals): (s: ChampionSummary)
    requires Played(t) && t.amounts.totalTime != 0
    ensures s.totals == t
    ensures s.winrate * t.record.games as real == t.record.wins as real * 100.0
    ensures t.record.deaths <= 1 ==> s.kda == (t.record.kills + t.record.assists) as real
    ensures t.record.deaths > 1 ==> s.kda * t.record.deaths as real == (t.record.kills + t.record.assists) as real
    ensures s.avgKills * t.record.games as real == t.record.kills as real
    ensures s.avgDeaths * t.record.games as real == t.record.deaths as real
    ensures s.avgAssists * t.record.games as real == t.record.assists as real
    ensures s.csPerMin * t.amounts.totalTime as real == t.amounts.cs as real * 60.0
    ensures s.goldPerMin * t.amounts.totalTime as real == t.amounts.gold as real * 60.0
    ensures s.damagePerMin * t.amounts.totalTime as real == t.amounts.damage as real * 60.0
    ensures s.visionPerGame * t.record.games as real == t.amounts.vision as real
    ensures s.mainRole in t.roles.order
    ensures forall r :: r in t.roles.order ==> Count(t.roles.counts, r) <= Count(t.roles.counts, s.mainRole)
    ensures exists i :: 0 <= i < |t.roles.order| && t.roles.order[i] == s.mainRole
                        && forall j :: 0 <= j < i ==> Count(t.roles.counts, t.roles.order[j]) < Count(t.roles.counts, s.mainRole)
    ensures |s.coreItems| <= CoreItemCount
  {
    var r, a := t.record, t.amounts;
    ChampionSummary(
      t, Percent(r.wins, r.games), KdaRatio(r.kills, r.deaths, r.assists),
      PerGame(r.kills, r.games), PerGame(r.deaths, r.games), PerGame(r.assists, r.games),
      PerMinute(a.cs, a.totalTime), PerMinute(a.gold, a.totalTime), PerMinute(a.damage, a.totalTime),
      PerGame(a.vision, r.games), MostCommon(t.roles.order, t.roles.counts), CoreItems(t.items))
  }

  /** A record the main loop built has games, and a role for each of them. */
  predicate Played(t: ChampionTotals) {
    t.record.games > 0 && |t.roles.order| > 0
  }

  /** Every champion of the key order has a record with games and roles. */
  predicate Summarizable(table: map<string, ChampionTotals>, order: seq<string>) {
    forall c :: c in order ==> c in table && Played(table[c])
  }

  /**
   * The second loop over the champions in key order: the first champion
   * with no play time raises, otherwise every record gets its keys.
   */
  function SummarizeAll(table: map<string, ChampionTotals>, order: seq<string>): Result<map<string, ChampionSummary>, Failure>
    requires Summarizable(table, order)
  {
    if order == [] then Success(map[])
    else
      var n := |order| - 1;
      match SummarizeAll(table, order[..n])
      case Failure(e) => Failure(e)
      case Success(m) =>
        assert order[n] in order;
        var t := table[order[n]];
        if t.amounts.totalTime == 0 then Failure(ZeroPlayTime(order[n])) else Success(m[order[n] := Summarize(t)])
  }

  /** Every record of the table has games and roles, and its role histogram is keyed by its role order. */
  lemma TablePlayed(gs: seq<Game>)
    ensures forall c :: c in ChampionOrder(gs) <==> c in TableOf(gs)
    ensures forall c :: c in TableOf(gs) ==> Played(TableOf(gs)[c])
    ensures Summarizable(TableOf(gs), ChampionOrder(gs))
  {
    DistinctKeys(Project(gs, Champion));
    forall c | c in TableOf(gs) ensures Played(TableOf(gs)[c]) {
      var hs := Where(gs, Champion, c);
      WhereCount(gs, Champion, c);
      DistinctKeys(Project(hs, Role));
      assert Project(hs, Role)[0] in Project(hs, Role);
    }
  }

  /** analyze_champion_stats as a value. */
  function ChampionStatsOf(matches: seq<MatchPayload>, puuid: string): Result<map<string, ChampionSummary>, Failure> {
    match PlayersOf(matches, puuid)
    case Failure(e) => Failure(e)
    case Success(gs) =>
      TablePlayed(gs);
      SummarizeAll(TableOf(gs), ChampionOrder(gs))
  }

  /** The second loop. */
  method SummarizeChampions(table: map<string, ChampionTotals>, order: seq<string>)
    returns (r: Result<map<string, ChampionSummary>, Failure>)
    requires Summarizable(table, order)
    ensures r == SummarizeAll(table, order)
  {
    var m := map[];
    var i := 0;
    while i < |order|
      invariant 0 <= i <= |order|
      invariant SummarizeAll(table, order[..i]) == Success(m)
    {
      SummarizeStep(table, order, i);
      var t := table[order[i]];
      if t.amounts.totalTime == 0 {
        return Failure(ZeroPlayTime(order[i]));
      }
      m := m[order[i] := Summarize(t)];
      i := i + 1;
    }
    assert order[..|order|] == order;
    return Success(m);
  }

  /** The step of the second loop: a champion without play time ends it, any other gets its summary. */
  lemma SummarizeStep(table: map<string, ChampionTotals>, order: seq<string>, i: nat)
    requires Summarizable(table, order)
    requires i < |order| && SummarizeAll(table, order[..i]).Success?
    ensures table[order[i]].amounts.totalTime == 0 ==> SummarizeAll(table, order) == Failure(ZeroPlayTime(order[i]))
    ensures table[order[i]].amounts.totalTime != 0 ==>
              SummarizeAll(table, order[..i + 1]) ==
              Success(SummarizeAll(table, order[..i]).value[order[i] := Summarize(table[order[i]])])
  {
    assert order[..i + 1][..i] == order[..i];
    assert order[..i + 1][i] == order[i];
    if table[order[i]].amounts.totalTime == 0 {
      SummarizeFailed(table, order, i + 1);
    }
  }

  /** Once a prefix of the champions fails, the whole loop fails the same way. */
  lemma {:induction false} SummarizeFailed(table: map<string, ChampionTotals>, order: seq<string>, k: nat)
    requires Summarizable(table, order)
    requires k <= |order| && SummarizeAll(table, order[..k]).Failure?
    ensures SummarizeAll(table, order) == SummarizeAll(table, order[..k])
    decreases |order| - k
  {
    if k < |order| {
      assert order[..k + 1][..k] == order[..k];
      SummarizeFailed(table, order, k + 1);
    } else {
      assert order[..k] == order;
    }
  }

  /** The main loop of analyze_champion_stats: the per-champion totals and their first-seen order, or the first failure. */
  method BuildTable(matches: seq<MatchPayload>, puuid: string) returns (r: Result<(map<string, ChampionTotals>, seq<string>), Failure>)
    ensures PlayersOf(matches, puuid).Failure? ==> r == Failure(PlayersOf(matches, puuid).error)
    ensures PlayersOf(matches, puuid).Success? ==>
              var gs := PlayersOf(matches, puuid).value;
              r == Success((TableOf(gs), ChampionOrder(gs)))
  {
    var table: map<string, ChampionTotals> := map[];
    var order: seq<string> := [];
    ghost var gs: seq<Game> := [];
    var i := 0;
    while i < |matches|
      invariant 0 <= i <= |matches|
      invariant PlayersOf(matches[..i], puuid) == Success(gs)
      invariant table == TableOf(gs) && order == ChampionOrder(gs)
    {
      var game := FindGame(matches[i], puuid, i);
      if game.Failure? {
        PlayersOfStep(matches, i, puuid);
        return Failure(game.error);
      }
      table, order := StepTable(table, order, game.value, gs);
      gs := gs + [game.value];
      PlayersOfStep(matches, i, puuid);
      i := i + 1;
    }
    assert matches[..|matches|] == matches;
    r := Success((table, order));
  }

  method AnalyzeChampionStats(matches: seq<MatchPayload>, puuid: string) returns (r: Result<map<string, ChampionSummary>, Failure>)
    ensures r == ChampionStatsOf(matches, puuid)
  {
    var built := BuildTable(matches, puuid);
    if built.Failure? {
      return Failure(built.error);
    }
    r := Finish(built.value.0, built.value.1, PlayersOf(matches, puuid).value);
  }

  /** The second loop over the table the main loop built from the games gs. */
  method Finish(table: map<string, ChampionTotals>, order: seq<string>, ghost gs: seq<Game>)
    returns (r: Result<map<string, ChampionSummary>, Failure>)
    requires table == TableOf(gs) && order == ChampionOrder(gs)
    ensures Summarizable(TableOf(gs), ChampionOrder(gs)) && r == SummarizeAll(TableOf(gs), ChampionOrder(gs))
  {
    TablePlayed(gs);
    r := SummarizeChampions(table, order);
  }

  /** The second loop succeeds exactly when every champion has play time, and then gives each its summary. */
  lemma {:induction false} SummarizeAllMeaning(table: map<string, ChampionTotals>, order: seq<string>)
    requires Summarizable(table, order)
    ensures SummarizeAll(table, order).Success? <==> forall c :: c in order ==> table[c].amounts.totalTime != 0
    ensures SummarizeAll(table, order).Success? ==>
              && SummarizeAll(table, order).value.Keys == (set c | c in order)
              && forall c :: c in order ==> SummarizeAll(table, order).value[c] == Summarize(table[c])
  {
    if order != [] {
      var n := |order| - 1;
      assert order == order[..n] + [order[n]];
      SummarizeAllMeaning(table, order[..n]);
    }
  }

  /** A failure of the second loop names the first champion, in key order, whose games add up to no play time. */
  lemma {:induction false} SummarizeAllFailure(table: map<string, ChampionTotals>, order: seq<string>)
    requires Summarizable(table, order)
    requires SummarizeAll(table, order).Failure?
    ensures exists i :: 0 <= i < |order| && SummarizeAll(table, order).error == ZeroPlayTime(order[i])
                        && table[order[i]].amounts.totalTime == 0
                        && forall j :: 0 <= j < i ==> table[order[j]].amounts.totalTime != 0
  {
    var n := |order| - 1;
    assert order[..n] + [order[n]] == order;
    if SummarizeAll(table, order[..n]).Failure? {
      SummarizeAllFailure(table, order[..n]);
      var i :| 0 <= i < n && SummarizeAll(table, order[..n]).error == ZeroPlayTime(order[..n][i])
               && table[order[..n][i]].amounts.totalTime == 0
               && forall j :: 0 <= j < i ==> table[order[..n][j]].amounts.totalTime != 0;
      assert order[..n][i] == order[i];
    } else {
      SucceededAllTimed(table, order[..n]);
      assert forall j :: 0 <= j < n ==> order[j] in order[..n];
    }
  }

  /** When the second loop gets through a key order, every champion in it has play time. */
  lemma {:induction false} SucceededAllTimed(table: map<string, ChampionTotals>, order: seq<string>)
    requires Summarizable(table, order)
    requires SummarizeAll(table, order).Success?
    ensures forall c :: c in order ==> table[c].amounts.totalTime != 0
  {
    if order != [] {
      var n := |order| - 1;
      assert order == order[..n] + [order[n]];
      SucceededAllTimed(table, order[..n]);
    }
  }

  /** Each champion's record sums exactly the games played on it. */
  lemma TableMeaning(gs: seq<Game>, c: string)
    ensures c in TableOf(gs) <==> exists i :: 0 <= i < |gs| && gs[i].player.championName == c
    ensures c in TableOf(gs) ==>
              var hs := Where(gs, Champion, c);
              && TableOf(gs)[c] == TotalsOf(hs)
              && |hs| == multiset(Project(gs, Champion))[c]
              && (forall g :: g in hs <==> g in gs && g.player.championName == c)
  {
    if i :| 0 <= i < |gs| && gs[i].player.championName == c {
      ProjectAt(gs, Champion, i);
    }
    if c in Project(gs, Champion) {
      var i :| 0 <= i < |gs| && Project(gs, Champion)[i] == c;
      ProjectAt(gs, Champion, i);
      WhereCount(gs, Champion, c);
      WhereMembers(gs, c);
    }
  }

  lemma {:induction false} WhereMembers(gs: seq<Game>, c: string)
    ensures forall g :: g in Where(gs, Champion, c) <==> g in gs && g.player.championName == c
  {
    if gs != [] {
      var n := |gs| - 1;
      WhereMembers(gs[..n], c);
      assert gs == gs[..n] + [gs[n]];
      WhereSnoc(gs[..n], gs[n], Champion, c);
    }
  }

  /** The games of the champions add up to all the player's games. */
  lemma ChampionGamesTotal(gs: seq<Game>)
    ensures SumCounts(ChampionOrder(gs), map c | c in TableOf(gs) :: TableOf(gs)[c].record.games) == |gs|
  {
    var champions := Project(gs, Champion);
    var games := map c | c in TableOf(gs) :: TableOf(gs)[c].record.games;
    forall c | c in games ensures games[c] == multiset(champions)[c] {
      WhereCount(gs, Champion, c);
    }
    assert IsTally(games, champions);
    TallyTotal(games, champions);
  }

  /** Within a champion's record, the role counts add up to its games and its wins are at most its games. */
  lemma RolesTotal(hs: seq<Game>)
    ensures SumCounts(TotalsOf(hs).roles.order, TotalsOf(hs).roles.counts) == TotalsOf(hs).record.games
    ensures TotalsOf(hs).record.wins <= TotalsOf(hs).record.games
  {
    TallyOfIsTally(Project(hs, Role));
    TallyTotal(TallyOf(Project(hs, Role)), Project(hs, Role));
  }

  /** At most six core items, by descending build count with ties in first-built order, each with its count. */
  lemma CoreItemsMeaning(h: Histogram<int>)
    ensures var core := CoreItems(h);
            var items, order := h.counts, h.order;
            && |core| <= CoreItemCount
            && core <= SortBy(ItemPairs(items, order), NegCount)
            && (forall i, j :: 0 <= i < j < |core| ==> core[i].1 >= core[j].1)
            && (forall p :: p in core ==> p.0 in order && p.1 == Count(items, p.0))
  {
    var pairs := ItemPairs(h.counts, h.order);
    var sorted := SortBy(pairs, NegCount);
    SortSorted(pairs, NegCount);
    SortPermutes(pairs, NegCount);
    var core := CoreItems(h);
    forall p | p in core ensures p.0 in h.order && p.1 == Count(h.counts, p.0) {
      assert p in sorted;
      assert p in multiset(pairs);
      var i :| 0 <= i < |pairs| && pairs[i] == p;
    }
  }
}
