/**
 * The champion-mastery summary of fetch_mastery_details: a histogram of
 * mastery levels, the total of mastery points, the champions close to
 * their next level (the three closest, by points still needed) and the
 * first three entries of the provider's list.
 */
module MasteryDetails {
  import opened Wrappers
  import opened Collections
  import opened MatchData
  import opened StableSort

  /** One entry of the champion-mastery list; `championPointsUntilNextLevel` may be absent. */
  datatype ChampionMastery = ChampionMastery(
    championId: int,
    championLevel: int,
    championPoints: int,
    championPointsUntilNextLevel: Option<int>)

  /** One `recentProgress` record. */
  datatype Progress = Progress(championId: int, level: int, points: int, pointsToNext: int)

  /** The returned summary; `{}` when the mastery list is missing or empty. */
  datatype MasterySummary =
    | NoMastery
    | Summary(
        totalScore: Option<int>,
        totalPoints: int,
        masteryLevels: map<int, nat>,   // dict(mastery_levels)
        levelOrder: seq<int>,           // its key order
        recentProgress: seq<Progress>,
        topChampions: seq<ChampionMastery>)

  /** Champions below level 7 are considered when they need fewer than this many points. */
  const CloseToNextLevel: int := 10000
  const MaxMasteryLevel: int := 7

  function Level(c: ChampionMastery): int { c.championLevel }
  function Points(c: ChampionMastery): int { c.championPoints }
  function PointsToNext(p: Progress): int { p.pointsToNext }

  /** `champ.get('championPointsUntilNextLevel', 0)`. */
  function PointsUntilNext(c: ChampionMastery): int { c.championPointsUntilNextLevel.GetOr(0) }

  predicate IsClose(c: ChampionMastery) {
    c.championLevel < MaxMasteryLevel && PointsUntilNext(c) < CloseToNextLevel
  }

  function ProgressOf(c: ChampionMastery): Progress {
    Progress(c.championId, c.championLevel, c.championPoints, PointsUntilNext(c))
  }

  /** The `recent_progress` list the loop builds, before it is sorted: one record per close champion, in list order. */
  function Candidates(cs: seq<ChampionMastery>): seq<Progress> {
    if cs == [] then []
    else Candidates(cs[..|cs| - 1]) + (if IsClose(cs[|cs| - 1]) then [ProgressOf(cs[|cs| - 1])] else [])
  }

  /** The candidates are exactly the records of the close champions. */
  lemma {:induction false} CandidatesMeaning(cs: seq<ChampionMastery>)
    ensures forall p :: p in Candidates(cs) <==> exists c :: c in cs && IsClose(c) && p == ProgressOf(c)
    ensures forall p :: p in Candidates(cs) ==> p.level < MaxMasteryLevel && p.pointsToNext < CloseToNextLevel
  {
    if cs != [] {
      var n := |cs| - 1;
      CandidatesMeaning(cs[..n]);
      assert cs == cs[..n] + [cs[n]];
      forall p | exists c :: c in cs && IsClose(c) && p == ProgressOf(c)
        ensures p in Candidates(cs)
      {
        var c :| c in cs && IsClose(c) && p == ProgressOf(c);
        if c != cs[n] {
          assert c in cs[..n];
        }
      }
    }
  }

  /** What the loop has accumulated after a prefix of the list. */
  datatype Accumulated = Accumulated(
    levels: map<int, nat>, levelOrder: seq<int>, totalPoints: int, progress: seq<Progress>)

  function AccumulatedOf(cs: seq<ChampionMastery>): Accumulated {
    var levels := Project(cs, Level);
    Accumulated(TallyOf(levels), Distinct(levels), Sum(cs, Points), Candidates(cs))
  }

  /** The three closest candidates, as `recent_progress.sort(key=pointsToNext)` then `[:3]` leave them. */
  function RecentProgress(candidates: seq<Progress>): seq<Progress> {
    Prefix(SortBy(candidates, PointsToNext), 3)
  }

  /** The summary fetch_mastery_details returns for a mastery list and a total score. */
  function MasteryOf(masteryData: Option<seq<ChampionMastery>>, totalScore: Option<int>): MasterySummary {
    if masteryData.None? || masteryData.value == [] then NoMastery
    else
      var cs := masteryData.value;
      var a := AccumulatedOf(cs);
      Summary(totalScore, a.totalPoints, a.levels, a.levelOrder, RecentProgress(a.progress), Prefix(cs, 3))
  }

  /** One step of the loop over the mastery list. */
  lemma AccumulatedSnoc(cs: seq<ChampionMastery>, c: ChampionMastery)
    ensures var a := AccumulatedOf(cs);
            var a' := AccumulatedOf(cs + [c]);
            && a'.levels == Bump(a.levels, c.championLevel)
            && a'.levelOrder == (if c.championLevel in a.levels then a.levelOrder else a.levelOrder + [c.championLevel])
            && a'.totalPoints == a.totalPoints + c.championPoints
            && a'.progress == a.progress + (if IsClose(c) then [ProgressOf(c)] else [])
  {
    assert (cs + [c])[..|cs|] == cs;
    ProjectSnoc(cs, c, Level);
    SumSnoc(cs, c, Points);
    TallyOfSnoc(Project(cs, Level), c.championLevel);
  }

  /** The body of `for champ in mastery_data`. */
  method AddChampion(a: Accumulated, c: ChampionMastery, ghost cs: seq<ChampionMastery>) returns (a': Accumulated)
    requires a == AccumulatedOf(cs)
    ensures a' == AccumulatedOf(cs + [c])
  {
    var levels, levelOrder := Increment(a.levels, a.levelOrder, c.championLevel);
    var totalPoints := a.totalPoints + c.championPoints;
    var progress := a.progress;
    if c.championLevel < MaxMasteryLevel {
      var pointsToNext := PointsUntilNext(c);
      if pointsToNext < CloseToNextLevel {
        progress := progress + [Progress(c.championId, c.championLevel, c.championPoints, pointsToNext)];
      }
    }
    AccumulatedSnoc(cs, c);
    a' := Accumulated(levels, levelOrder, totalPoints, progress);
  }

  lemma AccumulatedOfEmpty()
    ensures AccumulatedOf([]) == Accumulated(map[], [], 0, [])
  {
    assert TallyOf<int>([]) == map[];
  }

  /**
   * fetch_mastery_details with its two fetches as inputs: the mastery list
   * and the total mastery score (None when the fetch failed).
   */
  method FetchMasteryDetails(masteryData: Option<seq<ChampionMastery>>, totalScore: Option<int>)
    returns (r: MasterySummary)
    ensures r == MasteryOf(masteryData, totalScore)
  {
    if masteryData.None? || masteryData.value == [] {
      return NoMastery;
    }
    var cs := masteryData.value;
    AccumulatedOfEmpty();
    var a := Accumulated(map[], [], 0, []);
    var i := 0;
    while i < |cs|
      invariant 0 <= i <= |cs|
      invariant a == AccumulatedOf(cs[..i])
    {
      assert cs[..i + 1] == cs[..i] + [cs[i]];
      a := AddChampion(a, cs[i], cs[..i]);
      i := i + 1;
    }
    assert cs[..|cs|] == cs;
    var recent := SortBy(a.progress, PointsToNext);
    return Summary(totalScore, a.totalPoints, a.levels, a.levelOrder, Prefix(recent, 3), Prefix(cs, 3));
  }

  /** The level histogram counts every champion once and the point total is the sum of the champions' points. */
  lemma MasteryTotals(cs: seq<ChampionMastery>, totalScore: Option<int>)
    requires cs != []
    ensures var r := MasteryOf(Some(cs), totalScore);
            && r.Summary?
            && r.totalScore == totalScore
            && r.totalPoints == Sum(cs, Points)
            && (forall l :: l in r.masteryLevels <==> l in r.levelOrder)
            && (forall l :: l in r.masteryLevels <==> exists c :: c in cs && c.championLevel == l)
            && NoDuplicates(r.levelOrder)
            && (forall l :: l in r.masteryLevels ==> r.masteryLevels[l] == |Where(cs, Level, l)|)
            && SumCounts(r.levelOrder, r.masteryLevels) == |cs|
  {
    var levels := Project(cs, Level);
    var r := MasteryOf(Some(cs), totalScore);
    TallyOfIsTally(levels);
    DistinctKeys(levels);
    TallyTotal(r.masteryLevels, levels);
    forall l ensures l in r.masteryLevels <==> exists c :: c in cs && c.championLevel == l {
      if l in levels {
        var i :| 0 <= i < |levels| && levels[i] == l;
        ProjectAt(cs, Level, i);
        assert cs[i] in cs;
      }
      if c :| c in cs && c.championLevel == l {
        var i :| 0 <= i < |cs| && cs[i] == c;
        ProjectAt(cs, Level, i);
        assert levels[i] == l;
      }
    }
    forall l | l in r.masteryLevels ensures r.masteryLevels[l] == |Where(cs, Level, l)| {
      WhereCount(cs, Level, l);
    }
  }

  /**
   * The recent progress is at most three candidates, ascending by points
   * still needed; it keeps every candidate when there are fewer than three,
   * and any candidate left out needs at least as many points as each one
   * kept. Candidates needing equally many points keep their list order.
   */
  lemma RecentProgressMeaning(candidates: seq<Progress>)
    ensures var r := RecentProgress(candidates);
            && |r| == (if |candidates| < 3 then |candidates| else 3)
            && SortedBy(r, PointsToNext)
            && (forall p :: p in r ==> p in candidates)
            && (|candidates| <= 3 ==> multiset(r) == multiset(candidates))
            && (forall p, q :: p in candidates && q in r && p !in r ==> q.pointsToNext <= p.pointsToNext)
  {
    var sorted := SortBy(candidates, PointsToNext);
    var r := RecentProgress(candidates);
    SortSorted(candidates, PointsToNext);
    SortPermutes(candidates, PointsToNext);
    assert |sorted| == |candidates| by {
      assert |multiset(sorted)| == |multiset(candidates)|;
    }
    assert r == sorted[..|r|];
    forall p | p in r ensures p in candidates {
      assert p in multiset(sorted);
    }
    if |candidates| <= 3 {
      assert r == sorted;
    }
    forall p, q | p in candidates && q in r && p !in r ensures q.pointsToNext <= p.pointsToNext {
      assert p in multiset(sorted);
      var j :| 0 <= j < |sorted| && sorted[j] == p;
      var i :| 0 <= i < |r| && r[i] == q;
      assert j >= |r|;
    }
  }

  /** Candidates with equal points still needed appear in the recent progress in list order. */
  lemma RecentProgressStable(candidates: seq<Progress>, k: int)
    ensures WithKey(RecentProgress(candidates), PointsToNext, k) <= WithKey(candidates, PointsToNext, k)
  {
    var sorted := SortBy(candidates, PointsToNext);
    var r := RecentProgress(candidates);
    SortStable(candidates, PointsToNext, k);
    WithKeyAppend(r, sorted[|r|..], PointsToNext, k);
    assert r + sorted[|r|..] == sorted;
  }

  /** The summary's recent progress: at most three close champions, ascending by points still needed. */
  lemma MasteryRecentProgress(cs: seq<ChampionMastery>, totalScore: Option<int>)
    requires cs != []
    ensures var r := MasteryOf(Some(cs), totalScore).recentProgress;
            && |r| <= 3
            && SortedBy(r, PointsToNext)
            && (forall p :: p in r ==> p.level < MaxMasteryLevel && p.pointsToNext < CloseToNextLevel)
            && (forall p :: p in r ==> exists c :: c in cs && IsClose(c) && p == ProgressOf(c))
            && MasteryOf(Some(cs), totalScore).topChampions == cs[..if |cs| < 3 then |cs| else 3]
  {
    CandidatesMeaning(cs);
    RecentProgressMeaning(Candidates(cs));
  }
}
