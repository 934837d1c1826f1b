/** The end-of-match screen of MatchSummary.tsx: when it is shown, the headline and margin it
    prints, the innings cards, and the top batsman and bowler of each side. */
module MatchSummary {
  import opened Types
  import opened Text
  import opened Reducer

  /** Shown only for a finished match whose winner is a non-empty string. */
  predicate ShowSummary(s: GameState) {
    s.status == Finished && s.winner.Some? && s.winner.value != ""
  }

  function Headline(winner: string): string {
    winner + " won!"
  }

  /** A tied match has the winner "Match Tied", which is a non-empty string, so the summary is
      shown and announces "Match Tied won!" over an empty margin. */
  lemma TiedMatchHeadline(s: GameState)
    requires s.status == Finished && s.winner == Some(TieWinner) && s.winMargin == Some(Tied)
    ensures ShowSummary(s) && Headline(s.winner.value) == "Match Tied won!"
    ensures MarginText(s.winMargin.value) == ""
  {
  }

  /** The margin line: "by N wickets", "by N runs", or nothing for a tie. */
  function MarginText(m: Margin): string {
    match m
    case ByWickets(n) => "by " + IntToString(n) + " wickets"
    case ByRuns(n) => "by " + IntToString(n) + " runs"
    case Tied => ""
  }

  /** The fifth character from the end tells the two non-empty margins apart: a step towards
      `MarginTextInjective`, which then only compares margins of the same kind. */
  lemma MarginTail(m: Margin)
    ensures var s := MarginText(m);
            (m.Tied? <==> s == "") &&
            (m.ByWickets? ==> |s| >= 5 && s[|s| - 5] == 'c') &&
            (m.ByRuns? ==> |s| >= 5 && s[|s| - 5] == ' ')
  {
  }

  /** The margin line loses nothing: different margins print differently. */
  lemma MarginTextInjective(m: Margin, n: Margin)
    requires MarginText(m) == MarginText(n)
    ensures m == n
  {
    MarginTail(m);
    MarginTail(n);
    var s := MarginText(m);
    if m.ByWickets? && n.ByWickets? {
      assert s[3..|s| - 8] == IntToString(m.wickets) && s[3..|s| - 8] == IntToString(n.wickets);
      Text.IntToStringInjective(m.wickets, n.wickets);
    } else if m.ByRuns? && n.ByRuns? {
      assert s[3..|s| - 5] == IntToString(m.runs) && s[3..|s| - 5] == IntToString(n.runs);
      Text.IntToStringInjective(m.runs, n.runs);
    }
  }

  /** `innings.filter(Boolean)`: a card for the first innings, and one for the second once it
      exists. */
  function InningsCards(innings: InningsPair): (r: seq<Innings>)
    ensures |r| == if innings.second.Some? then 2 else 1
    ensures r[0] == innings.first
    ensures innings.second.Some? ==> r[1] == innings.second.value
  {
    [innings.first] + if innings.second.Some? then [innings.second.value] else []
  }

  // ---------------------------------------------------------------- top performers

  datatype Metric = Runs | WicketsTaken

  function MetricOf(p: Player, m: Metric): int {
    match m
    case Runs => p.runs
    case WicketsTaken => p.wicketsTaken
  }

  /** The `reduce` callback: a player with a positive metric at least the current top's takes
      over, so a later player wins a tie. */
  function TopStep(top: Player, p: Player, m: Metric): Player {
    if MetricOf(p, m) > 0 && MetricOf(p, m) >= MetricOf(top, m) then p else top
  }

  /** `ps.reduce(TopStep, init)`, folding from the left. */
  function TopFold(ps: seq<Player>, init: Player, m: Metric): Player
    decreases |ps|
  {
    if ps == [] then init else TopStep(TopFold(ps[..|ps| - 1], init, m), ps[|ps| - 1], m)
  }

  predicate Beats(p: Player, top: Player, m: Metric) {
    MetricOf(p, m) > 0 && MetricOf(p, m) >= MetricOf(top, m)
  }

  /** Player k took over last: the fold result is ps[k], its metric is positive and every
      later player falls short of it. */
  predicate LastTaker(ps: seq<Player>, t: Player, m: Metric, k: int) {
    0 <= k < |ps| && t == ps[k] && MetricOf(t, m) > 0 &&
    forall j :: k < j < |ps| ==> MetricOf(ps[j], m) < MetricOf(t, m)
  }

  /** What the fold picks: either some player k took over, and none after it could, or
      nobody ever took over from `init` (k = -1). Either way no positive metric exceeds the
      result's. */
  lemma {:induction false} TopFoldFacts(ps: seq<Player>, init: Player, m: Metric) returns (k: int)
    ensures var t := TopFold(ps, init, m);
            (forall j :: 0 <= j < |ps| && MetricOf(ps[j], m) > 0 ==> MetricOf(ps[j], m) <= MetricOf(t, m)) &&
            (k == -1 || LastTaker(ps, t, m, k)) &&
            (k == -1 ==> t == init && forall j :: 0 <= j < |ps| ==> !Beats(ps[j], init, m))
    decreases |ps|
  {
    k := -1;
    if ps != [] {
      var init', p := ps[..|ps| - 1], ps[|ps| - 1];
      var k' := TopFoldFacts(init', init, m);
      var t' := TopFold(init', init, m);
      if Beats(p, t', m) {
        k := |ps| - 1;
      } else {
        k := k';
      }
    }
  }

  /** `findTopPerformer`: no one for an empty roster; otherwise the reduce from the first
      player, kept only when its metric is positive. */
  function FindTopPerformer(team: Team, m: Metric): (r: Option<Player>)
    ensures r.None? <==> forall j :: 0 <= j < |team.players| ==> MetricOf(team.players[j], m) <= 0
    ensures r.Some? ==> MetricOf(r.value, m) > 0 &&
                        forall j :: 0 <= j < |team.players| ==> MetricOf(team.players[j], m) <= MetricOf(r.value, m)
    ensures r.Some? ==> exists k :: LastTaker(team.players, r.value, m, k)
  {
    var ps := team.players;
    if |ps| == 0 then None
    else
      var top := TopFold(ps, ps[0], m);
      TopPerformerFacts(ps, m);
      if MetricOf(top, m) > 0 then Some(top) else None
  }

  lemma TopPerformerFacts(ps: seq<Player>, m: Metric)
    requires |ps| > 0
    ensures var top := TopFold(ps, ps[0], m);
            (MetricOf(top, m) <= 0 <==> forall j :: 0 <= j < |ps| ==> MetricOf(ps[j], m) <= 0) &&
            (MetricOf(top, m) > 0 ==> forall j :: 0 <= j < |ps| ==> MetricOf(ps[j], m) <= MetricOf(top, m)) &&
            (MetricOf(top, m) > 0 ==> exists k :: LastTaker(ps, top, m, k))
  {
    var k := TopFoldFacts(ps, ps[0], m);
    if k == -1 {
      assert !Beats(ps[0], ps[0], m);
    }
  }
}
