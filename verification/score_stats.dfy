/**
 * The count / average / best statistics the dashboard and the leaderboard both
 * compute over the saved simulations, with the same rules: 0 for an empty list.
 */
module ScoreStats {
  import opened JsCore
  import opened Storage

  function Score(r: SimRecord): int
  {
    r.totalScore
  }

  /** `n ? Math.round(sum / n) : 0`. */
  function AverageScore(rs: seq<SimRecord>): (avg: int)
    ensures rs == [] ==> avg == 0
    ensures rs != [] ==>
      avg as real - 0.5 <= SumOf(rs, Score) as real / |rs| as real < avg as real + 0.5
  {
    if rs == [] then 0 else Round(SumOf(rs, Score) as real / |rs| as real)
  }

  /** `Math.max(...scores)` of a non-empty list: an upper bound that some record attains. */
  function MaxScore(rs: seq<SimRecord>): (m: int)
    requires rs != []
    ensures forall i :: 0 <= i < |rs| ==> rs[i].totalScore <= m
    ensures exists i :: 0 <= i < |rs| && rs[i].totalScore == m
  {
    if |rs| == 1 then rs[0].totalScore
    else
      var rest := MaxScore(rs[1..]);
      assert forall i :: 1 <= i < |rs| ==> rs[i] == rs[1..][i - 1];
      if rs[0].totalScore >= rest then rs[0].totalScore
      else
        var k :| 0 <= k < |rs[1..]| && rs[1..][k].totalScore == rest;
        assert rs[k + 1].totalScore == rest;
        rest
  }

  /** `n ? Math.max(...scores) : 0`. */
  function BestScore(rs: seq<SimRecord>): (best: int)
    ensures rs == [] ==> best == 0
    ensures forall i :: 0 <= i < |rs| ==> rs[i].totalScore <= best
    ensures rs != [] ==> exists i :: 0 <= i < |rs| && rs[i].totalScore == best
  {
    if rs == [] then 0 else MaxScore(rs)
  }

  /** The best score is the one record score that bounds every other, so reordering does not change it. */
  lemma BestScorePermutation(rs: seq<SimRecord>, ss: seq<SimRecord>)
    requires multiset(rs) == multiset(ss)
    ensures BestScore(rs) == BestScore(ss)
  {
    if rs == [] {
      assert |ss| == |multiset(ss)| == 0;
    } else {
      assert ss != [] by {
        assert rs[0] in multiset(ss);
      }
      var i :| 0 <= i < |rs| && rs[i].totalScore == BestScore(rs);
      var j :| 0 <= j < |ss| && ss[j].totalScore == BestScore(ss);
      assert rs[i] in multiset(ss);
      assert ss[j] in multiset(rs);
    }
  }

  /** Reordering the records changes neither the average nor the best score. */
  lemma StatsPermutation(rs: seq<SimRecord>, ss: seq<SimRecord>)
    requires multiset(rs) == multiset(ss)
    ensures |rs| == |ss|
    ensures AverageScore(rs) == AverageScore(ss)
    ensures BestScore(rs) == BestScore(ss)
  {
    assert |rs| == |multiset(rs)| == |multiset(ss)| == |ss|;
    SumOfPermutation(rs, ss, Score);
    BestScorePermutation(rs, ss);
  }

  /** The rounded mean never exceeds the best score. */
  lemma AverageAtMostBest(rs: seq<SimRecord>)
    ensures AverageScore(rs) <= BestScore(rs)
  {
    if rs != [] {
      var best := BestScore(rs);
      SumAtMost(rs, best);
      RoundedMeanAtMost(SumOf(rs, Score), |rs|, best);
    }
  }

  lemma {:induction false} SumAtMost(rs: seq<SimRecord>, hi: int)
    requires forall i :: 0 <= i < |rs| ==> rs[i].totalScore <= hi
    ensures SumOf(rs, Score) <= hi * |rs|
  {
    if rs != [] {
      SumAtMost(rs[1..], hi);
      assert hi * |rs| == hi + hi * |rs[1..]|;
    }
  }

  /** Scores in [lo, hi] give an average and a best score in [lo, hi]; an empty list gives 0 for both. */
  lemma StatsBounds(rs: seq<SimRecord>, lo: int, hi: int)
    requires rs != []
    requires forall i :: 0 <= i < |rs| ==> lo <= rs[i].totalScore <= hi
    ensures lo <= AverageScore(rs) <= hi
    ensures lo <= BestScore(rs) <= hi
  {
    SumOfBounds(rs, Score, lo, hi);
    RoundedMeanBounds(SumOf(rs, Score), |rs|, lo, hi);
  }
}
