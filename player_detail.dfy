/** The per-over breakdowns of PlayerDetailView.tsx: the balls of both innings are filtered
    for one player, folded into a map from over number to running totals, and listed by over
    number ascending. Batting and bowling differ only in which balls they keep, what they add
    up and what they count. */
module PlayerDetail {
  import opened Types
  import opened Sequences
  import opened MatchInvariant

  /** One breakdown row: for batting `count` is balls faced, for bowling wickets taken. */
  datatype OverStats = OverStats(overNumber: nat, runs: int, count: nat)

  /** The over numbers of the kept balls. */
  function KeptOvers(t: seq<Ball>, keep: Ball -> bool): set<nat>
    decreases |t|
  {
    if t == [] then {}
    else KeptOvers(t[..|t| - 1], keep) + (if keep(t[|t| - 1]) then {t[|t| - 1].overNumber} else {})
  }

  /** The total of `value` over the kept balls of over `o`. */
  function OverSum(t: seq<Ball>, keep: Ball -> bool, o: nat, value: Ball -> int): int
    decreases |t|
  {
    if t == [] then 0
    else
      var b := t[|t| - 1];
      OverSum(t[..|t| - 1], keep, o, value) + (if keep(b) && b.overNumber == o then value(b) else 0)
  }

  /** How many kept balls of over `o` satisfy `counted`. */
  function OverCount(t: seq<Ball>, keep: Ball -> bool, o: nat, counted: Ball -> bool): nat
    decreases |t|
  {
    if t == [] then 0
    else
      var b := t[|t| - 1];
      OverCount(t[..|t| - 1], keep, o, counted) + (if keep(b) && b.overNumber == o && counted(b) then 1 else 0)
  }

  function RowOvers(rows: seq<OverStats>): (r: seq<nat>)
    ensures |r| == |rows| && forall i :: 0 <= i < |rows| ==> r[i] == rows[i].overNumber
  {
    seq(|rows|, i requires 0 <= i < |rows| => rows[i].overNumber)
  }

  /** The map the breakdown builds: each kept ball adds its value, and one when it is counted,
      to the entry of its over, starting from `{runs: 0, count: 0}`. */
  function Tally(t: seq<Ball>, keep: Ball -> bool, value: Ball -> int, counted: Ball -> bool): map<nat, (int, nat)>
    decreases |t|
  {
    if t == [] then map[]
    else
      var m, b := Tally(t[..|t| - 1], keep, value, counted), t[|t| - 1];
      if keep(b) then
        var over := if b.overNumber in m then m[b.overNumber] else (0, 0);
        m[b.overNumber := (over.0 + value(b), over.1 + if counted(b) then 1 else 0)]
      else m
  }

  /** The tally holds an entry for exactly the overs of kept balls, and that entry is the
      over's total and count; an over with no kept ball adds up to nothing. */
  lemma {:induction false} TallyMeaning(t: seq<Ball>, keep: Ball -> bool, value: Ball -> int, counted: Ball -> bool)
    ensures Tally(t, keep, value, counted).Keys == KeptOvers(t, keep)
    ensures forall o :: o in Tally(t, keep, value, counted) ==>
              Tally(t, keep, value, counted)[o] == (OverSum(t, keep, o, value), OverCount(t, keep, o, counted))
    ensures forall o :: o !in KeptOvers(t, keep) ==> OverSum(t, keep, o, value) == 0 && OverCount(t, keep, o, counted) == 0
    decreases |t|
  {
    if t != [] {
      TallyMeaning(t[..|t| - 1], keep, value, counted);
    }
  }

  /** The map-and-sort both breakdowns share: one row per over of a kept ball, ascending,
      holding that over's total and count. */
  method Breakdown(t: seq<Ball>, keep: Ball -> bool, value: Ball -> int, counted: Ball -> bool)
    returns (rows: seq<OverStats>)
    ensures StrictlyAscending(RowOvers(rows))
    ensures forall o :: o in RowOvers(rows) <==> o in KeptOvers(t, keep)
    ensures forall i :: 0 <= i < |rows| ==>
              rows[i].runs == OverSum(t, keep, rows[i].overNumber, value) &&
              rows[i].count == OverCount(t, keep, rows[i].overNumber, counted)
  {
    var breakdown: map<nat, (int, nat)> := map[];
    var order: seq<nat> := [];
    var i := 0;
    while i < |t|
      invariant 0 <= i <= |t|
      invariant breakdown == Tally(t[..i], keep, value, counted)
      invariant forall o :: o in order <==> o in breakdown
    {
      var ball := t[i];
      assert t[..i + 1][..i] == t[..i];
      if keep(ball) {
        var over := if ball.overNumber in breakdown then breakdown[ball.overNumber] else (0, 0);
        over := (over.0 + value(ball), over.1 + if counted(ball) then 1 else 0);
        if ball.overNumber !in breakdown {
          order := order + [ball.overNumber];
        }
        breakdown := breakdown[ball.overNumber := over];
      }
      i := i + 1;
    }
    assert t[..i] == t;
    TallyMeaning(t, keep, value, counted);
    var keys := AscendingKeys(order);
    rows := seq(|keys|, j requires 0 <= j < |keys| => OverStats(keys[j], breakdown[keys[j]].0, breakdown[keys[j]].1));
    assert RowOvers(rows) == keys;
  }

  /** The balls the batting breakdown keeps: faced by the player and not a wide. */
  function Faced(playerId: int): Ball -> bool {
    (b: Ball) => b.batsmanId == Some(playerId) && !b.isWide
  }

  /** The balls the bowling breakdown keeps: bowled by the player. */
  function Bowled(playerId: int): Ball -> bool {
    (b: Ball) => b.bowlerId == Some(playerId)
  }

  function BatRuns(): Ball -> int {
    (b: Ball) => b.runs
  }

  function RunsConceded(): Ball -> int {
    (b: Ball) => b.runs + b.extraRuns
  }

  /** A ball faced counts unless it is a no-ball. */
  function FacedLegally(): Ball -> bool {
    (b: Ball) => !b.isNoBall
  }

  function TakesWicket(): Ball -> bool {
    (b: Ball) => b.isWicket
  }

  /** Batting by over: bat runs, and balls faced other than no-balls, of the player's non-wide
      balls over both innings, keyed by over number. */
  method BattingBreakdownByOver(player: Player, innings: InningsPair) returns (rows: seq<OverStats>)
    ensures StrictlyAscending(RowOvers(rows))
    ensures forall o :: o in RowOvers(rows) <==> o in KeptOvers(AllBalls(innings), Faced(player.id))
    ensures forall i :: 0 <= i < |rows| ==>
              rows[i].runs == OverSum(AllBalls(innings), Faced(player.id), rows[i].overNumber, BatRuns()) &&
              rows[i].count == OverCount(AllBalls(innings), Faced(player.id), rows[i].overNumber, FacedLegally())
  {
    rows := Breakdown(AllBalls(innings), Faced(player.id), BatRuns(), FacedLegally());
  }

  /** Bowling by over: runs conceded including extras, and wickets, of the player's balls over
      both innings, keyed by over number. */
  method BowlingBreakdownByOver(player: Player, innings: InningsPair) returns (rows: seq<OverStats>)
    ensures StrictlyAscending(RowOvers(rows))
    ensures forall o :: o in RowOvers(rows) <==> o in KeptOvers(AllBalls(innings), Bowled(player.id))
    ensures forall i :: 0 <= i < |rows| ==>
              rows[i].runs == OverSum(AllBalls(innings), Bowled(player.id), rows[i].overNumber, RunsConceded()) &&
              rows[i].count == OverCount(AllBalls(innings), Bowled(player.id), rows[i].overNumber, TakesWicket())
  {
    rows := Breakdown(AllBalls(innings), Bowled(player.id), RunsConceded(), TakesWicket());
  }

  /** Rows are keyed by over number alone, so over o of the second innings is merged into
      over o of the first: the totals of a concatenation add up. */
  lemma {:induction false} BreakdownMergesInnings(a: seq<Ball>, b: seq<Ball>, keep: Ball -> bool, o: nat,
                                                  value: Ball -> int, counted: Ball -> bool)
    ensures KeptOvers(a + b, keep) == KeptOvers(a, keep) + KeptOvers(b, keep)
    ensures OverSum(a + b, keep, o, value) == OverSum(a, keep, o, value) + OverSum(b, keep, o, value)
    ensures OverCount(a + b, keep, o, counted) == OverCount(a, keep, o, counted) + OverCount(b, keep, o, counted)
    decreases |b|
  {
    if b == [] {
      assert a + b == a;
    } else {
      assert (a + b)[..|a + b| - 1] == a + b[..|b| - 1];
      BreakdownMergesInnings(a, b[..|b| - 1], keep, o, value, counted);
    }
  }

  /** A timeline whose balls name no batsman and no bowler (as every timeline the reducer
      writes) gives both breakdowns no row at all. */
  lemma {:induction false} UntaggedTimelineHasNoRows(t: seq<Ball>, playerId: int)
    requires forall i :: 0 <= i < |t| ==> Untagged(t[i])
    ensures KeptOvers(t, Faced(playerId)) == {} && KeptOvers(t, Bowled(playerId)) == {}
    decreases |t|
  {
    if t != [] {
      UntaggedTimelineHasNoRows(t[..|t| - 1], playerId);
    }
  }

  /** So in every consistent state, and hence after any run of the reducer, the detail view's
      breakdowns are empty for every player. */
  lemma ReducerStatesHaveNoBreakdown(s: GameState, playerId: int)
    requires StateConsistent(s)
    ensures KeptOvers(AllBalls(s.innings), Faced(playerId)) == {}
    ensures KeptOvers(AllBalls(s.innings), Bowled(playerId)) == {}
  {
    var t := AllBalls(s.innings);
    assert forall i :: 0 <= i < |t| ==> Untagged(t[i]) by {
      forall i | 0 <= i < |t|
        ensures Untagged(t[i])
      {
        if i >= |s.innings.first.timeline| {
          assert t[i] == s.innings.second.value.timeline[i - |s.innings.first.timeline|];
        }
      }
    }
    UntaggedTimelineHasNoRows(t, playerId);
  }
}
