/**
 * The leaderboard page: the saved simulations turned into ranked entries (a map,
 * a stable sort by descending score, a second map that renumbers the ranks), the
 * statistics handed to the statistics panel, and the four achievement flags.
 */
module Leaderboard {
  import opened JsCore
  import opened Storage
  import opened ScoreStats
  import opened UserStats
  import opened LeaderboardTable

  const LocalUserId: string := "local-user"
  const LocalProfile: Profile := Profile("Local User", "user@example.com")

  /** The first `map`: one entry per record, ranked by its position in the saved list. */
  function ToEntries(rs: seq<SimRecord>): (es: seq<LeaderboardEntry>)
    ensures |es| == |rs|
    ensures forall i :: 0 <= i < |rs| ==>
      es[i] == LeaderboardEntry(rs[i].id, i + 1, rs[i].totalScore, LocalUserId, rs[i].createdAt, LocalProfile)
  {
    seq(|rs|, i requires 0 <= i < |rs| =>
      LeaderboardEntry(rs[i].id, i + 1, rs[i].totalScore, LocalUserId, rs[i].createdAt, LocalProfile))
  }

  // ---------------------------------------------------------------------------
  // `.sort((a, b) => b.score - a.score)`: a stable sort, so equal scores keep their order.

  /** `a` is listed before `b`: a higher score, or the same score and an earlier position in the input. */
  predicate RankedBefore(a: LeaderboardEntry, b: LeaderboardEntry)
  {
    a.score > b.score || (a.score == b.score && a.rank < b.rank)
  }

  predicate Ordered(es: seq<LeaderboardEntry>)
  {
    forall i, j :: 0 <= i < j < |es| ==> RankedBefore(es[i], es[j])
  }

  /** The input order, given by the ranks the first `map` assigned. */
  predicate RanksIncreasing(es: seq<LeaderboardEntry>)
  {
    forall i, j :: 0 <= i < j < |es| ==> es[i].rank < es[j].rank
  }

  /** Places `x` before the first entry whose score is not higher than its own. */
  function Insert(x: LeaderboardEntry, es: seq<LeaderboardEntry>): seq<LeaderboardEntry>
  {
    if es == [] || es[0].score <= x.score then [x] + es
    else [es[0]] + Insert(x, es[1..])
  }

  function SortByScore(es: seq<LeaderboardEntry>): seq<LeaderboardEntry>
  {
    if es == [] then [] else Insert(es[0], SortByScore(es[1..]))
  }

  lemma {:induction false} InsertPermutation(x: LeaderboardEntry, es: seq<LeaderboardEntry>)
    ensures multiset(Insert(x, es)) == multiset{x} + multiset(es)
  {
    if es != [] && es[0].score > x.score {
      InsertPermutation(x, es[1..]);
      assert es == [es[0]] + es[1..];
    }
  }

  /** Sorting neither adds, drops nor duplicates an entry. */
  lemma {:induction false} SortPermutation(es: seq<LeaderboardEntry>)
    ensures multiset(SortByScore(es)) == multiset(es)
  {
    if es != [] {
      SortPermutation(es[1..]);
      InsertPermutation(es[0], SortByScore(es[1..]));
      assert es == [es[0]] + es[1..];
    }
  }

  lemma OrderedCons(a: LeaderboardEntry, es: seq<LeaderboardEntry>)
    requires Ordered(es)
    requires forall k :: 0 <= k < |es| ==> RankedBefore(a, es[k])
    ensures Ordered([a] + es)
  {
    var r := [a] + es;
    forall i, j | 0 <= i < j < |r|
      ensures RankedBefore(r[i], r[j])
    {
      if i > 0 {
        assert r[i] == es[i - 1] && r[j] == es[j - 1];
      } else {
        assert r[j] == es[j - 1];
      }
    }
  }

  lemma {:induction false} InsertOrdered(x: LeaderboardEntry, es: seq<LeaderboardEntry>)
    requires Ordered(es)
    requires forall k :: 0 <= k < |es| ==> x.rank < es[k].rank
    ensures Ordered(Insert(x, es))
  {
    if es == [] || es[0].score <= x.score {
      forall k | 0 <= k < |es|
        ensures RankedBefore(x, es[k])
      {
        if k > 0 {
          assert RankedBefore(es[0], es[k]);
        }
      }
      OrderedCons(x, es);
    } else {
      var tail := es[1..];
      assert Ordered(tail) by {
        forall i, j | 0 <= i < j < |tail|
          ensures RankedBefore(tail[i], tail[j])
        {
          assert tail[i] == es[i + 1] && tail[j] == es[j + 1];
        }
      }
      InsertOrdered(x, tail);
      var ins := Insert(x, tail);
      InsertPermutation(x, tail);
      forall k | 0 <= k < |ins|
        ensures RankedBefore(es[0], ins[k])
      {
        assert ins[k] in multiset(ins);
        if ins[k] != x {
          assert ins[k] in multiset(tail);
          var m :| 0 <= m < |tail| && tail[m] == ins[k];
          assert es[m + 1] == ins[k];
        }
      }
      OrderedCons(es[0], ins);
    }
  }

  /** Given the input order as ranks, the sort lists higher scores first and keeps ties in input order. */
  lemma {:induction false} SortOrdered(es: seq<LeaderboardEntry>)
    requires RanksIncreasing(es)
    ensures Ordered(SortByScore(es))
  {
    if es != [] {
      var tail := es[1..];
      assert RanksIncreasing(tail) by {
        forall i, j | 0 <= i < j < |tail|
          ensures tail[i].rank < tail[j].rank
        {
          assert tail[i] == es[i + 1] && tail[j] == es[j + 1];
        }
      }
      SortOrdered(tail);
      var sorted := SortByScore(tail);
      SortPermutation(tail);
      forall k | 0 <= k < |sorted|
        ensures es[0].rank < sorted[k].rank
      {
        assert sorted[k] in multiset(tail);
        var m :| 0 <= m < |tail| && tail[m] == sorted[k];
        assert es[m + 1] == sorted[k];
      }
      InsertOrdered(es[0], sorted);
    }
  }

  /**
   * The sorted entries of the saved list: a permutation of the first `map`'s entries, in
   * the order higher score first and, for equal scores, earlier save first; each entry's
   * rank still names the record it came from.
   */
  function SortedEntries(rs: seq<SimRecord>): (sorted: seq<LeaderboardEntry>)
    ensures multiset(sorted) == multiset(ToEntries(rs))
    ensures |sorted| == |rs|
    ensures Ordered(sorted)
  {
    var es := ToEntries(rs);
    SortPermutation(es);
    SortOrdered(es);
    assert |SortByScore(es)| == |multiset(SortByScore(es))| == |multiset(es)| == |es|;
    SortByScore(es)
  }

  /** Every sorted entry comes from the record its rank points at, with that record's id and score. */
  lemma SortedEntriesTrace(rs: seq<SimRecord>, i: nat)
    requires i < |rs|
    ensures var e := SortedEntries(rs)[i];
      1 <= e.rank <= |rs| && e == ToEntries(rs)[e.rank - 1] &&
      e.id == rs[e.rank - 1].id && e.score == rs[e.rank - 1].totalScore
  {
    var es := ToEntries(rs);
    var e := SortedEntries(rs)[i];
    assert e in multiset(SortedEntries(rs));
    assert e in multiset(es);
    var k :| 0 <= k < |es| && es[k] == e;
  }

  /** Every saved record appears among the sorted entries. */
  lemma RecordIsListed(rs: seq<SimRecord>, k: nat)
    requires k < |rs|
    ensures exists i :: 0 <= i < |rs| && SortedEntries(rs)[i] == ToEntries(rs)[k]
  {
    var e := ToEntries(rs)[k];
    assert e in multiset(ToEntries(rs));
    assert e in multiset(SortedEntries(rs));
  }

  // ---------------------------------------------------------------------------
  // `.map((entry, index) => ({ ...entry, rank: index + 1 }))`.

  function Rerank(es: seq<LeaderboardEntry>): (ranked: seq<LeaderboardEntry>)
    ensures |ranked| == |es|
    ensures forall i :: 0 <= i < |es| ==> ranked[i] == es[i].(rank := i + 1)
  {
    seq(|es|, i requires 0 <= i < |es| => es[i].(rank := i + 1))
  }

  function Ids(es: seq<LeaderboardEntry>): seq<string>
  {
    seq(|es|, i requires 0 <= i < |es| => es[i].id)
  }

  function RecordIds(rs: seq<SimRecord>): seq<string>
  {
    seq(|rs|, i requires 0 <= i < |rs| => rs[i].id)
  }

  lemma {:induction false} IdsOfInsert(x: LeaderboardEntry, es: seq<LeaderboardEntry>)
    ensures multiset(Ids(Insert(x, es))) == multiset{x.id} + multiset(Ids(es))
  {
    if es == [] || es[0].score <= x.score {
      assert Ids([x] + es) == [x.id] + Ids(es);
    } else {
      IdsOfInsert(x, es[1..]);
      assert Ids([es[0]] + Insert(x, es[1..])) == [es[0].id] + Ids(Insert(x, es[1..]));
      assert Ids(es) == [es[0].id] + Ids(es[1..]);
    }
  }

  lemma {:induction false} IdsOfSort(es: seq<LeaderboardEntry>)
    ensures multiset(Ids(SortByScore(es))) == multiset(Ids(es))
  {
    if es != [] {
      IdsOfSort(es[1..]);
      IdsOfInsert(es[0], SortByScore(es[1..]));
      assert Ids(es) == [es[0].id] + Ids(es[1..]);
    }
  }

  /**
   * `leaderboardEntries`: one entry per saved simulation, each id as often as in the list,
   * scores non-increasing, the entry at position i ranked i + 1, ties in save order.
   */
  function LeaderboardEntries(rs: seq<SimRecord>): (entries: seq<LeaderboardEntry>)
    ensures |entries| == |rs|
    ensures forall i :: 0 <= i < |entries| ==> entries[i].rank == i + 1
    ensures forall i, j :: 0 <= i < j < |entries| ==> entries[i].score >= entries[j].score
    ensures multiset(Ids(entries)) == multiset(RecordIds(rs))
    ensures forall i :: 0 <= i < |entries| ==>
      entries[i] == SortedEntries(rs)[i].(rank := i + 1) &&
      entries[i].userId == LocalUserId && entries[i].profile == LocalProfile
  {
    var sorted := SortedEntries(rs);
    var entries := Rerank(sorted);
    assert forall i, j :: 0 <= i < j < |entries| ==> RankedBefore(sorted[i], sorted[j]);
    IdsOfSort(ToEntries(rs));
    assert Ids(entries) == Ids(sorted);
    assert Ids(ToEntries(rs)) == RecordIds(rs);
    forall i | 0 <= i < |entries|
      ensures entries[i].userId == LocalUserId && entries[i].profile == LocalProfile
    {
      SortedEntriesTrace(rs, i);
    }
    entries
  }

  /** The top of the board holds the best score. */
  lemma TopEntryIsBest(rs: seq<SimRecord>)
    requires rs != []
    ensures LeaderboardEntries(rs)[0].score == BestScore(rs)
  {
    var entries := LeaderboardEntries(rs);
    var sorted := SortedEntries(rs);
    SortedEntriesTrace(rs, 0);
    var k :| 0 <= k < |rs| && rs[k].totalScore == BestScore(rs);
    RecordIsListed(rs, k);
    var i :| 0 <= i < |rs| && sorted[i] == ToEntries(rs)[k];
    assert entries[i].score == rs[k].totalScore;
  }

  // ---------------------------------------------------------------------------
  // Statistics and achievements.

  /** `userStats`: count, average and best as on the dashboard, rank 1 of 1 once anything is saved. */
  function LeaderboardStats(rs: seq<SimRecord>): (stats: Stats)
    ensures stats.totalSimulations == |rs|
    ensures stats.averageScore == AverageScore(rs) && stats.bestScore == BestScore(rs)
    ensures stats.currentRank == Some(1) <==> rs != []
    ensures stats.currentRank == None <==> rs == []
    ensures stats.totalUsers == Some(1)
    ensures rs == [] ==> stats.recentActivity == "No activity"
    ensures rs != [] ==> stats.recentActivity == rs[0].createdAt
  {
    var entries := LeaderboardEntries(rs);
    Stats(|rs|, AverageScore(rs), BestScore(rs),
      if |entries| > 0 then Some(1) else None,
      Some(1),
      if |rs| > 0 then rs[0].createdAt else "No activity")
  }

  /** The panel's rank card: "#1" with "Top 0%" once anything is saved, "--" before. */
  lemma LeaderboardRankCard(rs: seq<SimRecord>)
    ensures rs == [] ==> RankCardOf(LeaderboardStats(rs)) == NoRank
    ensures rs != [] ==> RankCardOf(LeaderboardStats(rs)) == RankShown(1, 0)
  {
    if rs != [] {
      RankPercentileBounds(1, 1);
    }
  }

  datatype Achievements = Achievements(first: bool, scoreEighty: bool, fiveSimulations: bool, perfect: bool)

  /** The four badges of the achievement card, from the count and the best score. */
  function AchievementsOf(stats: Stats): Achievements
  {
    Achievements(stats.totalSimulations > 0, stats.bestScore >= 80,
      stats.totalSimulations >= 5, stats.bestScore == 100)
  }

  /** The achievements in terms of the saved records themselves. */
  lemma AchievementsOfRecords(rs: seq<SimRecord>)
    ensures var a := AchievementsOf(LeaderboardStats(rs));
      (a.first <==> rs != []) &&
      (a.scoreEighty <==> exists i :: 0 <= i < |rs| && rs[i].totalScore >= 80) &&
      (a.fiveSimulations <==> |rs| >= 5) &&
      (a.perfect <==> (exists i :: 0 <= i < |rs| && rs[i].totalScore == 100) &&
                      forall i :: 0 <= i < |rs| ==> rs[i].totalScore <= 100)
  {
    var best := BestScore(rs);
    if rs != [] {
      var k :| 0 <= k < |rs| && rs[k].totalScore == best;
    }
  }
}
