/** The over-by-over history of ScoreHistory.tsx: a timeline's balls grouped by the over they
    were bowled in, each group with its runs, latest over first. */
module ScoreHistory {
  import opened Types
  import opened Sequences
  import opened MatchInvariant

  datatype OverSummary = OverSummary(over: nat, runs: int, balls: seq<Ball>)

  function InOver(o: nat): Ball -> bool {
    (b: Ball) => b.overNumber == o
  }

  /** The overs a timeline has balls in. */
  function TimelineOvers(t: seq<Ball>): set<nat> {
    set b | b in t :: b.overNumber
  }

  function SummaryOvers(s: seq<OverSummary>): (r: seq<nat>)
    ensures |r| == |s| && forall k :: 0 <= k < |s| ==> r[k] == s[k].over
  {
    seq(|s|, k requires 0 <= k < |s| => s[k].over)
  }

  /** `s` summarises `t`: one entry per over of `t`, latest first, holding the balls of that
      over in timeline order and the runs and extras they are worth. */
  ghost predicate Summarises(t: seq<Ball>, s: seq<OverSummary>) {
    StrictlyDescending(SummaryOvers(s)) &&
    (forall o :: o in SummaryOvers(s) <==> o in TimelineOvers(t)) &&
    forall k :: 0 <= k < |s| ==> s[k].balls == Filter(t, InOver(s[k].over)) && s[k].runs == BallTotal(s[k].balls)
  }

  /** Appending a ball to a timeline appends it to the balls of its own over only. */
  lemma OverBallsStep(t: seq<Ball>, b: Ball, o: nat)
    ensures Filter(t + [b], InOver(o)) == Filter(t, InOver(o)) + if b.overNumber == o then [b] else []
    ensures BallTotal(Filter(t + [b], InOver(o))) == BallTotal(Filter(t, InOver(o))) + if b.overNumber == o then b.runs + b.extraRuns else 0
  {
    var t' := t + [b];
    assert t'[..|t'| - 1] == t;
    var f := Filter(t, InOver(o));
    if b.overNumber == o {
      assert Filter(t', InOver(o)) == f + [b];
      assert (f + [b])[..|f|] == f;
    } else {
      assert Filter(t', InOver(o)) == f;
    }
  }

  /** The map the summaries are read from: for each over met so far, its running total and
      its balls. */
  function OverMap(t: seq<Ball>): map<nat, (int, seq<Ball>)>
    decreases |t|
  {
    if t == [] then map[] else AddBall(OverMap(t[..|t| - 1]), t[|t| - 1])
  }

  /** The `forEach` step: open the ball's over at `{runs: 0, balls: []}` if it is new, then add
      the ball's runs and extras and push the ball. */
  function AddBall(m: map<nat, (int, seq<Ball>)>, b: Ball): map<nat, (int, seq<Ball>)> {
    var entry := if b.overNumber in m then m[b.overNumber] else (0, []);
    m[b.overNumber := (entry.0 + b.runs + b.extraRuns, entry.1 + [b])]
  }

  lemma {:induction false} OverMapKeys(t: seq<Ball>)
    ensures OverMap(t).Keys == TimelineOvers(t)
    decreases |t|
  {
    if t != [] {
      var init, b := t[..|t| - 1], t[|t| - 1];
      OverMapKeys(init);
      assert t == init + [b];
      assert TimelineOvers(t) == TimelineOvers(init) + {b.overNumber};
    }
  }

  /** What one `forEach` step does to the entry of a single over `o`, whose balls before the
      step are `f` and after it `f'`. */
  lemma AddBallEntry(m: map<nat, (int, seq<Ball>)>, b: Ball, o: nat, f: seq<Ball>, f': seq<Ball>)
    requires f' == f + if b.overNumber == o then [b] else []
    requires o in m ==> m[o].1 == f && m[o].0 == BallTotal(f)
    requires o !in m ==> f == []
    ensures var m' := AddBall(m, b);
            (o in m' ==> m'[o].1 == f' && m'[o].0 == BallTotal(f')) && (o !in m' ==> f' == [])
  {
    var m' := AddBall(m, b);
    if o == b.overNumber {
      assert f'[..|f'| - 1] == f;
      assert BallTotal(f') == BallTotal(f) + b.runs + b.extraRuns;
    } else if o in m {
      assert m'[o] == m[o];
    }
  }

  /** The map holds an entry for exactly the overs of the timeline, holding the balls of that
      over in order and what they are worth. */
  lemma {:induction false} OverMapMeaning(t: seq<Ball>)
    ensures OverMap(t).Keys == TimelineOvers(t)
    ensures forall o :: o in OverMap(t) ==> OverMap(t)[o].1 == Filter(t, InOver(o)) && OverMap(t)[o].0 == BallTotal(OverMap(t)[o].1)
    ensures forall o :: o !in OverMap(t) ==> Filter(t, InOver(o)) == []
    decreases |t|
  {
    OverMapKeys(t);
    if t != [] {
      var init, b := t[..|t| - 1], t[|t| - 1];
      OverMapMeaning(init);
      assert t == init + [b];
      assert OverMap(t) == AddBall(OverMap(init), b);
      forall o
        ensures o in OverMap(t) ==> OverMap(t)[o].1 == Filter(t, InOver(o)) && OverMap(t)[o].0 == BallTotal(OverMap(t)[o].1)
        ensures o !in OverMap(t) ==> Filter(t, InOver(o)) == []
      {
        OverBallsStep(init, b, o);
        AddBallEntry(OverMap(init), b, o, Filter(init, InOver(o)), Filter(t, InOver(o)));
      }
    }
  }

  /** The map from over number to its running total and balls, in the order its keys are
      first met, then one summary per key in ascending key order (the order `for…in` gives),
      then sorted latest over first. */
  method CalculateOverSummaries(timeline: seq<Ball>) returns (summaries: seq<OverSummary>)
    ensures timeline == [] ==> summaries == []
    ensures Summarises(timeline, summaries)
  {
    summaries := [];
    if |timeline| == 0 {
      return;
    }
    var overMap: map<nat, (int, seq<Ball>)> := map[];
    var order: seq<nat> := [];
    var i := 0;
    while i < |timeline|
      invariant 0 <= i <= |timeline|
      invariant overMap == OverMap(timeline[..i])
      invariant forall o :: o in order <==> o in overMap
    {
      var ball := timeline[i];
      assert timeline[..i + 1][..i] == timeline[..i];
      if ball.overNumber !in overMap {
        overMap := overMap[ball.overNumber := (0, [])];
        order := order + [ball.overNumber];
      }
      var entry := overMap[ball.overNumber];
      overMap := overMap[ball.overNumber := (entry.0 + ball.runs + ball.extraRuns, entry.1 + [ball])];
      i := i + 1;
    }
    assert timeline[..i] == timeline;
    var keys := AscendingKeys(order);
    var j := 0;
    while j < |keys|
      invariant 0 <= j <= |keys| && |summaries| == j
      invariant forall k :: 0 <= k < j ==> summaries[k] == OverSummary(keys[k], overMap[keys[k]].0, overMap[keys[k]].1)
    {
      summaries := summaries + [OverSummary(keys[j], overMap[keys[j]].0, overMap[keys[j]].1)];
      j := j + 1;
    }
    OverMapMeaning(timeline);
    SummariesOfKeys(timeline, overMap, keys, summaries);
    summaries := Reverse(summaries);
  }

  /** One summary per key of the map, in ascending key order, reversed, summarises the
      timeline. */
  lemma SummariesOfKeys(t: seq<Ball>, m: map<nat, (int, seq<Ball>)>, keys: seq<nat>, rows: seq<OverSummary>)
    requires m.Keys == TimelineOvers(t)
    requires forall o :: o in m ==> m[o].1 == Filter(t, InOver(o)) && m[o].0 == BallTotal(m[o].1)
    requires StrictlyAscending(keys) && forall x :: x in keys <==> x in m
    requires |rows| == |keys| && forall k :: 0 <= k < |rows| ==> rows[k] == OverSummary(keys[k], m[keys[k]].0, m[keys[k]].1)
    ensures Summarises(t, Reverse(rows))
  {
    ReversedRowsDescend(keys, rows);
    ReversedRowsOvers(keys, rows);
  }

  lemma ReversedRowsDescend(keys: seq<nat>, rows: seq<OverSummary>)
    requires StrictlyAscending(keys) && |rows| == |keys| && forall k :: 0 <= k < |rows| ==> rows[k].over == keys[k]
    ensures StrictlyDescending(SummaryOvers(Reverse(rows)))
  {
    var os := SummaryOvers(Reverse(rows));
    forall i, j | 0 <= i < j < |os|
      ensures os[i] > os[j]
    {
      var a, b := |rows| - 1 - i, |rows| - 1 - j;
      assert os[i] == keys[a] && os[j] == keys[b];
      assert keys[b] < keys[a];
    }
  }

  lemma ReversedRowsOvers(keys: seq<nat>, rows: seq<OverSummary>)
    requires |rows| == |keys| && forall k :: 0 <= k < |rows| ==> rows[k].over == keys[k]
    ensures forall o :: o in SummaryOvers(Reverse(rows)) <==> o in keys
  {
    var os := SummaryOvers(Reverse(rows));
    forall i | 0 <= i < |os|
      ensures os[i] == keys[|rows| - 1 - i]
    {
    }
    forall k | 0 <= k < |keys|
      ensures keys[k] == os[|rows| - 1 - k]
    {
    }
  }

  /** Every ball of the timeline appears in the summary of its own over. */
  lemma EveryBallSummarised(t: seq<Ball>, s: seq<OverSummary>, i: nat)
    requires Summarises(t, s) && i < |t|
    ensures exists k :: 0 <= k < |s| && s[k].over == t[i].overNumber && t[i] in s[k].balls
  {
    assert t[i].overNumber in TimelineOvers(t);
    var k :| 0 <= k < |s| && SummaryOvers(s)[k] == t[i].overNumber;
    assert t[i] in s[k].balls;
  }

  /** No over is summarised twice. */
  lemma OversSummarisedOnce(t: seq<Ball>, s: seq<OverSummary>, k: nat, k': nat)
    requires Summarises(t, s) && k < |s| && k' < |s| && k != k'
    ensures s[k].over != s[k'].over
  {
    var os := SummaryOvers(s);
    if k < k' { assert os[k] > os[k']; } else { assert os[k'] > os[k]; }
  }

  function SummaryRuns(s: seq<OverSummary>): int
    decreases |s|
  {
    if s == [] then 0 else SummaryRuns(s[..|s| - 1]) + s[|s| - 1].runs
  }

  /** The total of the per-over runs of timeline `t` over the keys `ks`. */
  function KeyTotal(ks: seq<nat>, t: seq<Ball>): int
    decreases |ks|
  {
    if ks == [] then 0 else KeyTotal(ks[..|ks| - 1], t) + BallTotal(Filter(t, InOver(ks[|ks| - 1])))
  }

  predicate Distinct(ks: seq<nat>) {
    forall i, j :: 0 <= i < j < |ks| ==> ks[i] != ks[j]
  }

  lemma {:induction false} KeyTotalOfSummaries(t: seq<Ball>, s: seq<OverSummary>)
    requires forall k :: 0 <= k < |s| ==> s[k].balls == Filter(t, InOver(s[k].over)) && s[k].runs == BallTotal(s[k].balls)
    ensures SummaryRuns(s) == KeyTotal(SummaryOvers(s), t)
    decreases |s|
  {
    if s != [] {
      var s' := s[..|s| - 1];
      KeyTotalOfSummaries(t, s');
      assert SummaryOvers(s)[..|s| - 1] == SummaryOvers(s');
    }
  }

  lemma {:induction false} KeyTotalEmpty(ks: seq<nat>)
    ensures KeyTotal(ks, []) == 0
    decreases |ks|
  {
    if ks != [] {
      KeyTotalEmpty(ks[..|ks| - 1]);
    }
  }

  /** Appending a ball adds its worth to the one key that is its over. */
  lemma {:induction false} KeyTotalStep(ks: seq<nat>, t: seq<Ball>, b: Ball)
    requires Distinct(ks)
    ensures KeyTotal(ks, t + [b]) == KeyTotal(ks, t) + if b.overNumber in ks then b.runs + b.extraRuns else 0
    decreases |ks|
  {
    if ks != [] {
      var ks', last := ks[..|ks| - 1], ks[|ks| - 1];
      assert ks == ks' + [last];
      assert Distinct(ks');
      KeyTotalStep(ks', t, b);
      OverBallsStep(t, b, last);
    }
  }

  /** Keys that are distinct and cover every over of `t` share out its whole worth. */
  lemma {:induction false} KeyTotalCovers(ks: seq<nat>, t: seq<Ball>)
    requires Distinct(ks) && TimelineOvers(t) <= set k | k in ks
    ensures KeyTotal(ks, t) == BallTotal(t)
    decreases |t|
  {
    if t == [] {
      KeyTotalEmpty(ks);
    } else {
      var init, b := t[..|t| - 1], t[|t| - 1];
      assert t == init + [b];
      assert TimelineOvers(init) <= TimelineOvers(t);
      KeyTotalCovers(ks, init);
      KeyTotalStep(ks, init, b);
      assert b.overNumber in TimelineOvers(t);
    }
  }

  /** The runs of the over summaries add up to what the whole timeline is worth, which in a
      consistent innings is its score. */
  lemma SummaryRunsAddUp(t: seq<Ball>, s: seq<OverSummary>)
    requires Summarises(t, s)
    ensures SummaryRuns(s) == BallTotal(t)
  {
    KeyTotalOfSummaries(t, s);
    var os := SummaryOvers(s);
    assert Distinct(os) by {
      forall i, j | 0 <= i < j < |os|
        ensures os[i] != os[j]
      {
        assert os[i] > os[j];
      }
    }
    KeyTotalCovers(os, t);
  }
}
