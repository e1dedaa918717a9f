/**
 * The four-card statistics panel of the leaderboard page: its input record, the
 * performance level of the average score, the rank percentile and the rank card.
 */
module UserStats {
  import opened JsCore

  /** The `stats` prop: `currentRank` and `totalUsers` are optional; the activity date is kept as given. */
  datatype Stats = Stats(
    totalSimulations: int, averageScore: int, bestScore: int,
    currentRank: Option<int>, totalUsers: Option<int>, recentActivity: string)

  datatype Level = Expert | Advanced | Intermediate | Beginner | Novice

  /** The level's place in the order Novice < Beginner < Intermediate < Advanced < Expert. */
  function LevelOrder(l: Level): nat
  {
    match l
    case Novice => 0
    case Beginner => 1
    case Intermediate => 2
    case Advanced => 3
    case Expert => 4
  }

  /** `getPerformanceLevel`: the five bands 90+, [80, 90), [70, 80), [60, 70) and below 60. */
  function PerformanceLevel(score: int): (l: Level)
    ensures l == Expert <==> score >= 90
    ensures l == Advanced <==> 80 <= score < 90
    ensures l == Intermediate <==> 70 <= score < 80
    ensures l == Beginner <==> 60 <= score < 70
    ensures l == Novice <==> score < 60
  {
    if score >= 90 then Expert
    else if score >= 80 then Advanced
    else if score >= 70 then Intermediate
    else if score >= 60 then Beginner
    else Novice
  }

  /** A higher score never gives a lower level. */
  lemma PerformanceMonotone(s: int, t: int)
    requires s <= t
    ensures LevelOrder(PerformanceLevel(s)) <= LevelOrder(PerformanceLevel(t))
  {
  }

  /** The badge shows the level of the average score; the best score plays no part. */
  function Performance(stats: Stats): Level
  {
    PerformanceLevel(stats.averageScore)
  }

  /** Two panels with the same average show the same level, whatever their best scores and counts. */
  lemma PerformanceIgnoresBest(s: Stats, t: Stats)
    requires s.averageScore == t.averageScore
    ensures Performance(s) == Performance(t)
    ensures Performance(s) == Expert <==> s.averageScore >= 90
    ensures Performance(s) == Novice <==> s.averageScore < 60
  {
  }

  /** JavaScript truthiness of an optional number: present and not zero. */
  predicate Truthy(n: Option<int>)
  {
    n.Some? && n.value != 0
  }

  /** `currentRank && totalUsers ? Math.round((1 - currentRank / totalUsers) * 100) : 0`. */
  function RankPercentile(currentRank: Option<int>, totalUsers: Option<int>): (p: int)
    ensures !(Truthy(currentRank) && Truthy(totalUsers)) ==> p == 0
    ensures Truthy(currentRank) && Truthy(totalUsers) ==>
      var exact := (1.0 - currentRank.value as real / totalUsers.value as real) * 100.0;
      p as real - 0.5 <= exact < p as real + 0.5
  {
    if Truthy(currentRank) && Truthy(totalUsers) then
      Round((1.0 - currentRank.value as real / totalUsers.value as real) * 100.0)
    else
      0
  }

  /** For a rank between 1 and the number of users the percentile lies in [0, 100]; the last rank gives 0. */
  lemma RankPercentileBounds(rank: int, users: int)
    requires 1 <= rank <= users
    ensures 0 <= RankPercentile(Some(rank), Some(users)) <= 100
    ensures rank == users ==> RankPercentile(Some(rank), Some(users)) == 0
  {
    var q := rank as real / users as real;
    QuotientInUnit(rank, users);
    PercentOfUnit(1.0 - q);
    if rank == users {
      assert q == 1.0;
    }
  }

  lemma QuotientInUnit(rank: int, users: int)
    requires 1 <= rank <= users
    ensures 0.0 < rank as real / users as real <= 1.0
  {
    var q := rank as real / users as real;
    assert q * users as real == rank as real;
  }

  lemma PercentOfUnit(x: real)
    requires 0.0 <= x < 1.0
    ensures 0 <= Round(x * 100.0) <= 100
  {
    RoundMonotone(0.0, x * 100.0);
    RoundMonotone(x * 100.0, 100.0);
    RoundOfInteger(0);
    RoundOfInteger(100);
  }

  /** Among the same number of users, a better (smaller) rank never gets a smaller percentile. */
  lemma RankPercentileMonotone(r1: int, r2: int, users: int)
    requires 1 <= r1 <= r2 && users >= 1
    ensures RankPercentile(Some(r1), Some(users)) >= RankPercentile(Some(r2), Some(users))
  {
    var q1 := r1 as real / users as real;
    var q2 := r2 as real / users as real;
    assert q1 * users as real == r1 as real;
    assert q2 * users as real == r2 as real;
    assert q1 <= q2;
    RoundMonotone((1.0 - q2) * 100.0, (1.0 - q1) * 100.0);
  }

  /** What the "Global Rank" card shows. */
  datatype RankCard = RankShown(rank: int, percentile: int) | NoRank

  /** `#rank` and "Top p%" iff `currentRank` is truthy, otherwise "--". */
  function RankCardOf(stats: Stats): (card: RankCard)
    ensures card.RankShown? <==> Truthy(stats.currentRank)
    ensures card.RankShown? ==>
      card.rank == stats.currentRank.value &&
      card.percentile == RankPercentile(stats.currentRank, stats.totalUsers)
  {
    if Truthy(stats.currentRank) then
      RankShown(stats.currentRank.value, RankPercentile(stats.currentRank, stats.totalUsers))
    else
      NoRank
  }
}
