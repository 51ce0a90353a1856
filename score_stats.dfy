/**
 * The score statistics that pong.py's run loop gathers: every ten ticks it records
 * the sum over those ticks of both agents' scores, divided by 20. The source divides
 * with Python's `/` (floating point); here the division is exact over reals.
 */
module ScoreStats {
  import opened GameParameters

  function Sum(s: seq<int>): int
  {
    if s == [] then 0 else Sum(s[..|s| - 1]) + s[|s| - 1]
  }

  lemma SumAppend(s: seq<int>, x: int)
    ensures Sum(s + [x]) == Sum(s) + x
  {
    assert (s + [x])[..|s|] == s;
  }

  /** The value recorded for one window: both agents' score sums over it, divided by 20. */
  function WindowMean(w1: seq<int>, w2: seq<int>): real
  {
    (Sum(w1) + Sum(w2)) as real / 20.0
  }

  /**
   * The averages recorded for the per-tick score histories h1 and h2 (score of
   * agent 1 and agent 2 after each tick): one value per complete window of ten
   * ticks, in order; an incomplete last window records nothing.
   */
  function WindowAverages(h1: seq<int>, h2: seq<int>): (r: seq<real>)
    requires |h1| == |h2|
    ensures |r| == |h1| / WindowTicks
    ensures forall i :: 0 <= i < |r| ==>
      r[i] == WindowMean(h1[WindowTicks * i..WindowTicks * i + WindowTicks],
                         h2[WindowTicks * i..WindowTicks * i + WindowTicks])
  {
    if |h1| < WindowTicks then []
    else
      var rest := WindowAverages(h1[WindowTicks..], h2[WindowTicks..]);
      assert forall i :: 1 <= i <= |rest| ==>
        h1[WindowTicks..][WindowTicks * (i - 1)..WindowTicks * (i - 1) + WindowTicks] ==
          h1[WindowTicks * i..WindowTicks * i + WindowTicks] &&
        h2[WindowTicks..][WindowTicks * (i - 1)..WindowTicks * (i - 1) + WindowTicks] ==
          h2[WindowTicks * i..WindowTicks * i + WindowTicks];
      [WindowMean(h1[..WindowTicks], h2[..WindowTicks])] + rest
  }

  /**
   * The accumulators of the run loop after the ticks whose scores are h1 and h2:
   * the recorded averages are those of the complete windows, and the running sums
   * are the sums over the ticks of the window in progress, which are zero whenever
   * the tick count is a multiple of ten.
   */
  ghost predicate StatsInv(h1: seq<int>, h2: seq<int>, averages: seq<real>, sum1: int, sum2: int)
  {
    |h1| == |h2| &&
    WindowTicks * |averages| <= |h1| < WindowTicks * |averages| + WindowTicks &&
    averages == WindowAverages(h1[..WindowTicks * |averages|], h2[..WindowTicks * |averages|]) &&
    sum1 == Sum(h1[WindowTicks * |averages|..]) &&
    sum2 == Sum(h2[WindowTicks * |averages|..]) &&
    (|h1| % WindowTicks == 0 ==> sum1 == 0 && sum2 == 0)
  }

  /** The tick count reaches a multiple of ten exactly when the window in progress fills up. */
  lemma WindowFills(n: nat, k: nat)
    requires WindowTicks * k <= n < WindowTicks * k + WindowTicks
    ensures (n + 1) % WindowTicks == 0 <==> n + 1 == WindowTicks * k + WindowTicks
  {
    if (n + 1) % WindowTicks == 0 {
      var q := (n + 1) / WindowTicks;
      assert n + 1 == WindowTicks * q;
      assert k < q < k + 2;
    }
  }

  /** Extending both histories by one tick extends the sums of the window in progress. */
  lemma SumsStep(h1: seq<int>, h2: seq<int>, n: nat, x1: int, x2: int)
    requires n <= |h1| && n <= |h2|
    ensures Sum((h1 + [x1])[n..]) == Sum(h1[n..]) + x1
    ensures Sum((h2 + [x2])[n..]) == Sum(h2[n..]) + x2
  {
    SumAppend(h1[n..], x1);
    SumAppend(h2[n..], x2);
    assert h1[n..] + [x1] == (h1 + [x1])[n..];
    assert h2[n..] + [x2] == (h2 + [x2])[n..];
  }

  /** Only complete windows count: the window averages ignore ticks past the last complete window. */
  lemma WindowAveragesPrefix(h1: seq<int>, h2: seq<int>, n: nat)
    requires |h1| == |h2|
    requires WindowTicks * (|h1| / WindowTicks) <= n <= |h1|
    ensures WindowAverages(h1[..n], h2[..n]) == WindowAverages(h1, h2)
  {
    var a, b := WindowAverages(h1[..n], h2[..n]), WindowAverages(h1, h2);
    assert |a| == |b|;
    forall i | 0 <= i < |a| ensures a[i] == b[i] {
      assert h1[..n][WindowTicks * i..WindowTicks * i + WindowTicks] == h1[WindowTicks * i..WindowTicks * i + WindowTicks];
      assert h2[..n][WindowTicks * i..WindowTicks * i + WindowTicks] == h2[WindowTicks * i..WindowTicks * i + WindowTicks];
    }
  }

  /** Completing a window appends its mean to the window averages. */
  lemma WindowAveragesAppend(h1: seq<int>, h2: seq<int>, n: nat)
    requires |h1| == |h2| && n % WindowTicks == 0 && n + WindowTicks <= |h1|
    ensures WindowAverages(h1[..n + WindowTicks], h2[..n + WindowTicks]) ==
      WindowAverages(h1[..n], h2[..n]) + [WindowMean(h1[n..n + WindowTicks], h2[n..n + WindowTicks])]
  {
    var a := WindowAverages(h1[..n], h2[..n]);
    var b := WindowAverages(h1[..n + WindowTicks], h2[..n + WindowTicks]);
    var c := a + [WindowMean(h1[n..n + WindowTicks], h2[n..n + WindowTicks])];
    assert |b| == |c|;
    forall i | 0 <= i < |b| ensures b[i] == c[i] {
      assert h1[..n + WindowTicks][WindowTicks * i..WindowTicks * i + WindowTicks] == h1[WindowTicks * i..WindowTicks * i + WindowTicks];
      assert h2[..n + WindowTicks][WindowTicks * i..WindowTicks * i + WindowTicks] == h2[WindowTicks * i..WindowTicks * i + WindowTicks];
      if i < |a| {
        assert h1[..n][WindowTicks * i..WindowTicks * i + WindowTicks] == h1[WindowTicks * i..WindowTicks * i + WindowTicks];
        assert h2[..n][WindowTicks * i..WindowTicks * i + WindowTicks] == h2[WindowTicks * i..WindowTicks * i + WindowTicks];
      }
    }
  }

  /**
   * A tick that does not complete a window: the run loop adds both scores to the
   * running sums and records nothing.
   */
  lemma StatsAccumulate(h1: seq<int>, h2: seq<int>, averages: seq<real>, sum1: int, sum2: int, x1: int, x2: int)
    requires StatsInv(h1, h2, averages, sum1, sum2)
    requires (|h1| + 1) % WindowTicks != 0
    ensures StatsInv(h1 + [x1], h2 + [x2], averages, sum1 + x1, sum2 + x2)
  {
    var n := WindowTicks * |averages|;
    WindowFills(|h1|, |averages|);
    SumsStep(h1, h2, n, x1, x2);
    assert (h1 + [x1])[..n] == h1[..n];
    assert (h2 + [x2])[..n] == h2[..n];
  }

  /**
   * A tick that completes a window: the run loop adds both scores to the running
   * sums, records the sums' total divided by 20, and resets both sums to zero.
   */
  lemma StatsRecord(h1: seq<int>, h2: seq<int>, averages: seq<real>, sum1: int, sum2: int,
                    x1: int, x2: int, average: real)
    requires StatsInv(h1, h2, averages, sum1, sum2)
    requires (|h1| + 1) % WindowTicks == 0
    requires average == ((sum1 + x1) + (sum2 + x2)) as real / 20.0
    ensures StatsInv(h1 + [x1], h2 + [x2], averages + [average], 0, 0)
  {
    var n := WindowTicks * |averages|;
    var h1', h2' := h1 + [x1], h2 + [x2];
    WindowFills(|h1|, |averages|);
    assert |h1'| == n + WindowTicks == WindowTicks * |averages + [average]|;
    SumsStep(h1, h2, n, x1, x2);
    assert h1'[n..] == h1'[n..n + WindowTicks] && h2'[n..] == h2'[n..n + WindowTicks];
    assert WindowMean(h1'[n..n + WindowTicks], h2'[n..n + WindowTicks]) == average;
    assert h1'[..n] == h1[..n] && h2'[..n] == h2[..n];
    WindowAveragesAppend(h1', h2', n);
    assert averages + [average] == WindowAverages(h1'[..n + WindowTicks], h2'[..n + WindowTicks]);
    assert Sum(h1'[n + WindowTicks..]) == 0 by { assert h1'[n + WindowTicks..] == []; }
    assert Sum(h2'[n + WindowTicks..]) == 0 by { assert h2'[n + WindowTicks..] == []; }
  }

  /**
   * The end of one tick of the run loop: add both agents' current scores to the
   * running sums, count the tick, and when the count reaches a multiple of ten record
   * the sums' total divided by 20 and reset both sums. h1 and h2 are the scores after
   * the ticks counted so far.
   */
  method RecordScores(episodeCount: int, sumScoreAgent1: int, sumScoreAgent2: int, averages: seq<real>,
                      score1: int, score2: int, ghost h1: seq<int>, ghost h2: seq<int>)
    returns (newCount: int, newSum1: int, newSum2: int, newAverages: seq<real>)
    requires StatsInv(h1, h2, averages, sumScoreAgent1, sumScoreAgent2)
    requires |h1| == episodeCount
    ensures newCount == episodeCount + 1
    ensures StatsInv(h1 + [score1], h2 + [score2], newAverages, newSum1, newSum2)
  {
    newSum1 := sumScoreAgent1 + score1;
    newSum2 := sumScoreAgent2 + score2;
    newCount := episodeCount + 1;
    newAverages := averages;
    if newCount % WindowTicks == 0 {
      var overallAverage := (newSum1 + newSum2) as real / 20.0;
      StatsRecord(h1, h2, averages, sumScoreAgent1, sumScoreAgent2, score1, score2, overallAverage);
      newAverages := averages + [overallAverage];
      newSum1 := 0;
      newSum2 := 0;
    } else {
      StatsAccumulate(h1, h2, averages, sumScoreAgent1, sumScoreAgent2, score1, score2);
    }
  }

  /** The accumulated averages are exactly the window averages of the histories. */
  lemma StatsAverages(h1: seq<int>, h2: seq<int>, averages: seq<real>, sum1: int, sum2: int)
    requires StatsInv(h1, h2, averages, sum1, sum2)
    ensures averages == WindowAverages(h1, h2)
  {
    WindowAveragesPrefix(h1, h2, WindowTicks * |averages|);
  }
}
