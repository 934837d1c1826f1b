/** The statistics tables of PlayerStats.tsx: a batting row for every player of the chosen
    team and a bowling row for every player who has bowled, with the strike rate, economy and
    overs figures that PlayerDetailView.tsx computes in the same way. */
module PlayerStats {
  import opened Types
  import opened Text
  import opened Sequences
  import opened Overs
  import opened Reducer
  import opened ReducerProperties

  /** A rate figure: the placeholder "0.00" when no ball was counted, otherwise the exact
      quotient that `toFixed(2)` then rounds for display. */
  datatype Rate = NoBalls | Value(value: real)

  /** `calculateSR`: runs per hundred balls. */
  function StrikeRate(runs: int, balls: nat): (r: Rate)
    ensures r.NoBalls? <==> balls == 0
    ensures r.Value? ==> r.value * balls as real == 100.0 * runs as real
  {
    if balls > 0 then Value((runs as real / balls as real) * 100.0) else NoBalls
  }

  /** `calculateEcon`: runs per six-ball over. */
  function Economy(runs: int, balls: nat): (r: Rate)
    ensures r.NoBalls? <==> balls == 0
    ensures r.Value? ==> r.value * balls as real == BALLS_PER_OVER as real * runs as real
  {
    if balls > 0 then Value(runs as real / (balls as real / BALLS_PER_OVER as real)) else NoBalls
  }

  /** The two rates of the same figures differ by the constant factor 6/100, and a rate is
      positive exactly when the runs are. */
  lemma EconomyIsScaledStrikeRate(runs: int, balls: nat)
    requires balls > 0
    ensures Economy(runs, balls).value * 100.0 == StrikeRate(runs, balls).value * BALLS_PER_OVER as real
    ensures StrikeRate(runs, balls).value > 0.0 <==> runs > 0
    ensures Economy(runs, balls).value > 0.0 <==> runs > 0
  {
    var sr, ec, b := StrikeRate(runs, balls).value, Economy(runs, balls).value, balls as real;
    assert sr * b == 100.0 * runs as real;
    assert ec * b == 6.0 * runs as real;
    assert (ec * 100.0) * b == (sr * 6.0) * b;
  }

  /** A not-out batsman currently at the crease. */
  predicate AtCrease(p: Player) {
    !p.isOut && p.isBatting
  }

  /** The name cell: the name, a space, and a star for a batsman at the crease. */
  function NameCell(p: Player): (s: string)
    ensures |p.name| < |s| <= |p.name| + 2 && s[..|p.name| + 1] == p.name + " "
    ensures s[|s| - 1] == '*' <==> AtCrease(p)
  {
    p.name + " " + (if p.isOut then "" else if p.isBatting then "*" else "")
  }

  datatype BattingRow = BattingRow(name: string, runs: int, balls: nat, fours: nat, sixes: nat, strikeRate: Rate)

  datatype BowlingRow = BowlingRow(name: string, overs: string, runs: int, wickets: nat, economy: Rate)

  /** One batting row per player, in roster order. */
  function BattingRows(team: Team): (rows: seq<BattingRow>)
    ensures |rows| == |team.players|
    ensures forall i :: 0 <= i < |rows| ==>
              var p := team.players[i];
              rows[i].name == NameCell(p) && rows[i].runs == p.runs && rows[i].balls == p.balls &&
              rows[i].fours == p.fours && rows[i].sixes == p.sixes &&
              rows[i].strikeRate == StrikeRate(p.runs, p.balls)
  {
    seq(|team.players|, i requires 0 <= i < |team.players| =>
      var p := team.players[i];
      BattingRow(NameCell(p), p.runs, p.balls, p.fours, p.sixes, StrikeRate(p.runs, p.balls)))
  }

  function HasBowled(): Player -> bool {
    (p: Player) => p.ballsBowled > 0
  }

  /** The players listed in the bowling table, in roster order. */
  function Bowlers(team: Team): (r: seq<Player>)
    ensures forall p :: p in r <==> p in team.players && p.ballsBowled > 0
  {
    var r := Filter(team.players, HasBowled());
    forall p | p in team.players && p.ballsBowled > 0
      ensures p in r
    {
      var i :| 0 <= i < |team.players| && team.players[i] == p;
      assert HasBowled()(team.players[i]);
    }
    r
  }

  /** One bowling row per player who has bowled. */
  function BowlingRows(team: Team): (rows: seq<BowlingRow>)
    ensures |rows| == |Bowlers(team)|
    ensures forall i :: 0 <= i < |rows| ==>
              var p := Bowlers(team)[i];
              rows[i].name == p.name && rows[i].overs == FormatOvers(p.ballsBowled) &&
              rows[i].runs == p.runsConceded && rows[i].wickets == p.wicketsTaken &&
              rows[i].economy == Economy(p.runsConceded, p.ballsBowled)
  {
    var bs := Bowlers(team);
    seq(|bs|, i requires 0 <= i < |bs| =>
      var p := bs[i];
      BowlingRow(p.name, FormatOvers(p.ballsBowled), p.runsConceded, p.wicketsTaken, Economy(p.runsConceded, p.ballsBowled)))
  }

  /** Every bowling row shows a real economy figure, never the "0.00" placeholder, and its
      overs text reads back as the balls the player bowled. */
  lemma BowlingRowsAreExact(team: Team, i: nat)
    requires i < |BowlingRows(team)|
    ensures BowlingRows(team)[i].economy.Value?
    ensures ParseOvers(BowlingRows(team)[i].overs) == Some(Bowlers(team)[i].ballsBowled)
  {
    var p := Bowlers(team)[i];
    assert p in Bowlers(team);
    FormatOversRoundTrip(p.ballsBowled);
  }

  /** The bowling table keeps roster order. */
  lemma BowlersInRosterOrder(team: Team)
    ensures Subsequence(Bowlers(team), team.players)
  {
    FilterKeepsOrder(team.players, HasBowled());
  }

  /** A legal ball the scorer accepts puts its bowler in the bowling table of the fielding
      side, with one more ball than before in the overs column. */
  lemma LegalBallListsBowler(s: GameState, a: Action)
    requires Scored(s, a) && s.battingTeamIndex != s.bowlingTeamIndex && IsLegal(Normalise(a))
    ensures var s' := Deliver(s, a).state;
            var bwt, b := s.bowlingTeamIndex, BowlerAt(s, a);
            bwt < |s'.teams| && b < |s'.teams[bwt].players| &&
            s'.teams[bwt].players[b] in Bowlers(s'.teams[bwt]) &&
            s'.teams[bwt].players[b].ballsBowled == s.teams[bwt].players[b].ballsBowled + 1
  {
    PlayerLedger(s, a);
  }
}
