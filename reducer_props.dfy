/** What `gameReducer` promises about a match: the guard clauses, the delivery ledger, the
    wicket and free-hit rules, the timeline, over counting, strike rotation, the result, and
    the bookkeeping invariant every dispatched action keeps. */
module ReducerProperties {
  import opened Types
  import opened Text
  import opened Overs
  import opened Reducer

  /** A delivery action that got past the guard clauses and did not throw. */
  predicate Scored(s: GameState, a: Action) {
    IsDelivery(a) && DeliveryAccepted(s) && Deliver(s, a).Next?
  }

  /** The striker's and the bowler's roster positions, found because the delivery scored. */
  function StrikerAt(s: GameState, a: Action): (k: nat)
    requires Scored(s, a)
    ensures s.battingTeamIndex < |s.teams| && k < |s.teams[s.battingTeamIndex].players|
    ensures s.teams[s.battingTeamIndex].players[k].id == s.strikerId
  {
    FindPlayer(s.teams[s.battingTeamIndex].players, s.strikerId).value
  }

  function BowlerAt(s: GameState, a: Action): (b: nat)
    requires Scored(s, a)
    ensures s.bowlingTeamIndex < |s.teams| && b < |s.teams[s.bowlingTeamIndex].players|
    ensures s.teams[s.bowlingTeamIndex].players[b].id == s.currentBowlerId.value
  {
    FindPlayer(s.teams[s.bowlingTeamIndex].players, s.currentBowlerId.value).value
  }

  lemma ScoredIsPlay(s: GameState, a: Action)
    requires Scored(s, a)
    ensures Deliver(s, a).state == Play(s, Normalise(a), StrikerAt(s, a), BowlerAt(s, a))
  {
  }

  /** Whether this delivery removes the striker: a wicket that is not on a free hit. */
  predicate Dismisses(s: GameState, a: Action)
    requires IsDelivery(a)
  {
    Normalise(a).isWicket && !s.isFreeHit
  }

  /** Whether this delivery is the sixth legal ball of its over. */
  predicate EndsOver(s: GameState, a: Action)
    requires IsDelivery(a) && CurrentInnings(s).Some?
  {
    IsLegal(Normalise(a)) && CurrentInnings(s).value.ballsInOver + 1 == BALLS_PER_OVER
  }

  // ---------------------------------------------------------------- guards

  /** A delivery gives back the very same state exactly when a guard clause turns it away:
      an accepted delivery either throws or records a ball. */
  lemma DeliveryNoOpIffRejected(s: GameState, a: Action)
    requires IsDelivery(a)
    ensures Deliver(s, a) == Next(s) <==> !DeliveryAccepted(s)
  {
    if Scored(s, a) {
      ScoredInnings(s, a);
      var inn := CurrentInnings(s).value;
      var inn' := CurrentInnings(Deliver(s, a).state).value;
      assert |inn'.timeline| == |inn.timeline| + 1;
    }
  }

  /** Once the current innings is all out, no sequence of deliveries changes anything. */
  lemma {:induction false} AllOutIsAbsorbing(s: GameState, actions: seq<Action>)
    requires s.settings.Some? && CurrentInnings(s).Some? && AllOut(s.settings.value, CurrentInnings(s).value)
    requires forall i :: 0 <= i < |actions| ==> IsDelivery(actions[i])
    ensures Run(s, actions) == Next(s)
    decreases |actions|
  {
    if actions != [] {
      assert GameReducer(s, actions[0]) == Next(s);
      AllOutIsAbsorbing(s, actions[1..]);
    }
  }

  // ---------------------------------------------------------------- normalisation

  /** The delivery read from an action: a wicket scores nothing, an extra carries its penalty
      run on top of the payload, and only a wide or a no-ball is illegal. */
  lemma NormaliseFacts(a: Action)
    requires IsDelivery(a)
    ensures Normalise(a).isWicket <==> a.AddWicket?
    ensures a.AddWicket? ==> Normalise(a).runs == 0 && Normalise(a).extraRuns == 0 && IsLegal(Normalise(a))
    ensures a.AddRuns? ==> Normalise(a) == Delivery(a.runs, false, false, false, 0)
    ensures a.AddExtra? ==> Normalise(a).extraRuns == 1 + a.runs && Normalise(a).runs == a.runs
    ensures IsLegal(Normalise(a)) <==> !(a.AddExtra? && (a.kind == "wd" || a.kind == "nb"))
  {
  }

  // ---------------------------------------------------------------- the innings

  /** The current innings after a scored delivery: the score rises by bat runs plus extras,
      a wicket counts unless it came off a free hit, one ball is appended at the end of the
      timeline, and the over advances on legal balls only. The other innings is untouched. */
  lemma ScoredInnings(s: GameState, a: Action)
    requires Scored(s, a)
    ensures var s' := Deliver(s, a).state;
            var d, inn := Normalise(a), CurrentInnings(s).value;
            s'.currentInnings == s.currentInnings && CurrentInnings(s').Some? &&
            var inn' := CurrentInnings(s').value;
            inn'.score == inn.score + d.runs + d.extraRuns &&
            inn'.wickets == inn.wickets + (if Dismisses(s, a) then 1 else 0) &&
            inn'.timeline == inn.timeline + [RecordedBall(d, |inn.timeline| + 1, inn.overs + 1)] &&
            (inn'.overs, inn'.ballsInOver, EndsOver(s, a)) == Advance(inn.overs, inn.ballsInOver, IsLegal(d)) &&
            inn'.battingTeam == inn.battingTeam && inn'.bowlingTeam == inn.bowlingTeam &&
            (s.currentInnings == 1 ==> s'.innings.second == s.innings.second) &&
            (s.currentInnings == 2 ==> s'.innings.first == s.innings.first)
  {
    ScoredIsPlay(s, a);
  }

  /** A scored delivery keeps the settings, the innings in play and the sides' roles. */
  lemma ScoredKeepsRoles(s: GameState, a: Action)
    requires Scored(s, a)
    ensures var s' := Deliver(s, a).state;
            s'.settings == s.settings && s'.currentInnings == s.currentInnings &&
            s'.battingTeamIndex == s.battingTeamIndex && s'.bowlingTeamIndex == s.bowlingTeamIndex &&
            s'.currentBowlerId == s.currentBowlerId && s'.tossWinner == s.tossWinner && s'.choseTo == s.choseTo
  {
    ScoredIsPlay(s, a);
  }

  /** Over counting: completed overs and balls of the over move as a six-ball counter. */
  lemma OverProgression(s: GameState, a: Action)
    requires Scored(s, a)
    ensures var inn, inn' := CurrentInnings(s).value, CurrentInnings(Deliver(s, a).state).value;
            (!IsLegal(Normalise(a)) ==> inn'.overs == inn.overs && inn'.ballsInOver == inn.ballsInOver) &&
            (EndsOver(s, a) ==> inn'.overs == inn.overs + 1 && inn'.ballsInOver == 0) &&
            (IsLegal(Normalise(a)) && !EndsOver(s, a) ==> inn'.overs == inn.overs && inn'.ballsInOver == inn.ballsInOver + 1) &&
            (inn.ballsInOver < BALLS_PER_OVER ==> inn'.ballsInOver < BALLS_PER_OVER) &&
            BALLS_PER_OVER * inn'.overs + inn'.ballsInOver == BALLS_PER_OVER * inn.overs + inn.ballsInOver + (if IsLegal(Normalise(a)) then 1 else 0)
  {
    ScoredInnings(s, a);
  }

  /** The free hit: a no-ball grants one, a legal ball uses it up, a wide leaves it as it was. */
  lemma FreeHitRule(s: GameState, a: Action)
    requires Scored(s, a)
    ensures var d, s' := Normalise(a), Deliver(s, a).state;
            s'.isFreeHit == if d.isNoBall then true else if IsLegal(d) then false else s.isFreeHit
  {
    ScoredIsPlay(s, a);
  }

  /** An extra's payload runs are kept as bat runs and also folded into the extras, so an
      extra worth r runs adds 2r+1 to the score (and to the bowler's runs conceded). */
  lemma ExtraRunsCountTwice(s: GameState, kind: string, r: int)
    requires Scored(s, AddExtra(kind, r))
    ensures CurrentInnings(Deliver(s, AddExtra(kind, r)).state).value.score == CurrentInnings(s).value.score + 2 * r + 1
  {
    ScoredInnings(s, AddExtra(kind, r));
  }

  // ---------------------------------------------------------------- the players

  /** The ledger when the two sides are different teams: the bowler is charged bat runs plus
      extras and a ball if it was legal, and credited the wicket; the striker gets the bat
      runs, a ball faced if legal, a four or six by run count, and is out after a dismissal. */
  lemma PlayerLedger(s: GameState, a: Action)
    requires Scored(s, a) && s.battingTeamIndex != s.bowlingTeamIndex
    ensures var s', d := Deliver(s, a).state, Normalise(a);
            var bt, bwt, k, b := s.battingTeamIndex, s.bowlingTeamIndex, StrikerAt(s, a), BowlerAt(s, a);
            var p, p' := s.teams[bwt].players[b], s'.teams[bwt].players[b];
            var q, q' := s.teams[bt].players[k], s'.teams[bt].players[k];
            |s'.teams| == |s.teams| &&
            p' == p.(runsConceded := p.runsConceded + d.runs + d.extraRuns,
                     ballsBowled := p.ballsBowled + (if IsLegal(d) then 1 else 0),
                     wicketsTaken := p.wicketsTaken + (if Dismisses(s, a) then 1 else 0)) &&
            q' == q.(runs := q.runs + d.runs,
                     balls := q.balls + (if IsLegal(d) then 1 else 0),
                     fours := q.fours + (if d.runs == 4 then 1 else 0),
                     sixes := q.sixes + (if d.runs == 6 then 1 else 0),
                     isOut := q.isOut || Dismisses(s, a),
                     isBatting := q.isBatting && !Dismisses(s, a))
  {
    ScoredIsPlay(s, a);
    var d := Normalise(a);
    var bt, bwt, k, b := s.battingTeamIndex, s.bowlingTeamIndex, StrikerAt(s, a), BowlerAt(s, a);
    var teams2 := Ledger(s.teams, bt, bwt, k, b, d);
    if Dismisses(s, a) {
      var bowler := teams2[bwt].players[b];
      var teamsA := SetPlayer(teams2, bwt, b, bowler.(wicketsTaken := bowler.wicketsTaken + 1));
      var striker := teamsA[bt].players[k];
      var teamsB := SetPlayer(teamsA, bt, k, striker.(isOut := true, isBatting := false));
      var next := FindNextBatsman(teamsB[bt].players);
      if next.Some? {
        assert next.value != k;
      }
    }
  }

  /** The rosters a scored delivery leaves: the ledger, then the dismissal unless the wicket
      fell on a free hit. */
  lemma PlayTeams(s: GameState, d: Delivery, si: nat, bi: nat)
    requires DeliveryAccepted(s)
    requires s.battingTeamIndex < |s.teams| && s.bowlingTeamIndex < |s.teams|
    requires si < |s.teams[s.battingTeamIndex].players| && bi < |s.teams[s.bowlingTeamIndex].players|
    ensures var bt, bwt := s.battingTeamIndex, s.bowlingTeamIndex;
            var teams2 := Ledger(s.teams, bt, bwt, si, bi, d);
            Play(s, d, si, bi).teams ==
              if d.isWicket && !s.isFreeHit then Dismissal(teams2, bt, bwt, si, bi, s.strikerId).0 else teams2
  {
  }

  /** The dismissal touches the bowler, the striker and the incoming batsman only, and the
      incoming batsman only in being marked as batting. */
  lemma DismissalFrame(teams: seq<Team>, bt: nat, bwt: nat, si: nat, bi: nat, strikerId: int)
    requires bt < |teams| && bwt < |teams| && bt != bwt && si < |teams[bt].players| && bi < |teams[bwt].players|
    ensures var r := Dismissal(teams, bt, bwt, si, bi, strikerId).0;
            var ps := teams[bt].players;
            var incoming := FindNextBatsman(ps[si := ps[si].(isOut := true, isBatting := false)]);
            |r| == |teams| &&
            forall u, j :: 0 <= u < |teams| && 0 <= j < |teams[u].players| && (u != bwt || j != bi) && (u != bt || j != si) ==>
              j < |r[u].players| &&
              if u == bt && incoming == Some(j) then r[u].players[j] == teams[u].players[j].(isBatting := true)
              else r[u].players[j] == teams[u].players[j]
  {
    var bowler := teams[bwt].players[bi];
    var teamsA := SetPlayer(teams, bwt, bi, bowler.(wicketsTaken := bowler.wicketsTaken + 1));
    var striker := teamsA[bt].players[si];
    var teamsB := SetPlayer(teamsA, bt, si, striker.(isOut := true, isBatting := false));
    var ps := teams[bt].players;
    assert teamsB[bt].players == ps[si := ps[si].(isOut := true, isBatting := false)];
  }

  /** The ledger and, when `dismiss` holds, the dismissal leave every player but the bowler,
      the striker and the incoming batsman as they were, and the incoming batsman changes only
      in being marked as batting. */
  lemma RosterFrame(teams: seq<Team>, bt: nat, bwt: nat, k: nat, b: nat, d: Delivery, dismiss: bool, strikerId: int)
    requires bt < |teams| && bwt < |teams| && bt != bwt && k < |teams[bt].players| && b < |teams[bwt].players|
    ensures var teams2 := Ledger(teams, bt, bwt, k, b, d);
            var r := if dismiss then Dismissal(teams2, bt, bwt, k, b, strikerId).0 else teams2;
            var ps := teams[bt].players;
            var incoming := FindNextBatsman(ps[k := ps[k].(isOut := true, isBatting := false)]);
            |r| == |teams| &&
            forall u, j :: 0 <= u < |teams| && 0 <= j < |teams[u].players| && (u != bwt || j != b) && (u != bt || j != k) ==>
              j < |r[u].players| &&
              if dismiss && u == bt && incoming == Some(j) then r[u].players[j] == teams[u].players[j].(isBatting := true)
              else r[u].players[j] == teams[u].players[j]
  {
    var teams2 := Ledger(teams, bt, bwt, k, b, d);
    if dismiss {
      DismissalFrame(teams2, bt, bwt, k, b, strikerId);
      var ps, qs := teams[bt].players, teams2[bt].players;
      var marked, marked2 := ps[k := ps[k].(isOut := true, isBatting := false)], qs[k := qs[k].(isOut := true, isBatting := false)];
      assert forall j :: 0 <= j < |marked| ==> (Available(marked2[j]) <==> Available(marked[j]));
      FindNextBatsmanAgrees(marked2, marked);
    }
  }

  /** Nobody else's record changes: apart from the bowler and the striker, every player of
      both sides keeps their record, except that after a dismissal the incoming batsman (the
      first player neither out nor batting once the striker is out) is marked as batting. */
  lemma OtherPlayersUnchanged(s: GameState, a: Action)
    requires Scored(s, a) && s.battingTeamIndex != s.bowlingTeamIndex
    ensures var s' := Deliver(s, a).state;
            var bt, bwt, k, b := s.battingTeamIndex, s.bowlingTeamIndex, StrikerAt(s, a), BowlerAt(s, a);
            var ps := s.teams[bt].players;
            var incoming := FindNextBatsman(ps[k := ps[k].(isOut := true, isBatting := false)]);
            |s'.teams| == |s.teams| &&
            forall u, j :: 0 <= u < |s.teams| && 0 <= j < |s.teams[u].players| && (u != bwt || j != b) && (u != bt || j != k) ==>
              j < |s'.teams[u].players| &&
              if Dismisses(s, a) && u == bt && incoming == Some(j)
              then s'.teams[u].players[j] == s.teams[u].players[j].(isBatting := true)
              else s'.teams[u].players[j] == s.teams[u].players[j]
  {
    var d := Normalise(a);
    var bt, bwt, k, b := s.battingTeamIndex, s.bowlingTeamIndex, StrikerAt(s, a), BowlerAt(s, a);
    ScoredIsPlay(s, a);
    PlayTeams(s, d, k, b);
    RosterFrame(s.teams, bt, bwt, k, b, d, Dismisses(s, a), s.strikerId);
  }

  /** A dismissal off a ball that is not a free hit: the first player of the batting side
      who is neither out nor batting (looked for after the striker was marked out) walks in
      and takes strike, or the non-striker's end if the wicket fell on the sixth ball; with
      nobody left the striker id stays as it was. */
  lemma WicketBringsNextBatsman(s: GameState)
    requires Scored(s, AddWicket) && !s.isFreeHit && s.battingTeamIndex != s.bowlingTeamIndex
    ensures var s', bt, k := Deliver(s, AddWicket).state, s.battingTeamIndex, StrikerAt(s, AddWicket);
            var ps := s.teams[bt].players;
            var marked := ps[k := ps[k].(isOut := true, isBatting := false)];
            var incoming := FindNextBatsman(marked);
            var newStriker := if incoming.Some? then ps[incoming.value].id else s.strikerId;
            CurrentInnings(s').value.wickets == CurrentInnings(s).value.wickets + 1 &&
            (incoming.Some? ==> incoming.value != k && s'.teams[bt].players[incoming.value].isBatting) &&
            (if EndsOver(s, AddWicket) then s'.strikerId == s.nonStrikerId && s'.nonStrikerId == newStriker
             else s'.strikerId == newStriker && s'.nonStrikerId == s.nonStrikerId)
  {
    ScoredIsPlay(s, AddWicket);
    ScoredInnings(s, AddWicket);
    var d := Normalise(AddWicket);
    var bt, bwt, k, b := s.battingTeamIndex, s.bowlingTeamIndex, StrikerAt(s, AddWicket), BowlerAt(s, AddWicket);
    var teams2 := Ledger(s.teams, bt, bwt, k, b, d);
    var bowler := teams2[bwt].players[b];
    var teamsA := SetPlayer(teams2, bwt, b, bowler.(wicketsTaken := bowler.wicketsTaken + 1));
    var striker := teamsA[bt].players[k];
    var teamsB := SetPlayer(teamsA, bt, k, striker.(isOut := true, isBatting := false));
    var ps := s.teams[bt].players;
    var marked := ps[k := ps[k].(isOut := true, isBatting := false)];
    assert teams2[bt].players == ps[k := CreditStriker(ps[k], d)];
    assert teamsB[bt].players == marked[k := marked[k].(balls := marked[k].balls + 1)];
    assert forall j :: 0 <= j < |marked| ==> (Available(teamsB[bt].players[j]) <==> Available(marked[j]));
    FindNextBatsmanAgrees(teamsB[bt].players, marked);
  }

  /** Two rosters whose players are available at the same positions have the same next batsman. */
  lemma {:induction false} FindNextBatsmanAgrees(ps: seq<Player>, qs: seq<Player>)
    requires |ps| == |qs|
    requires forall j :: 0 <= j < |ps| ==> (Available(ps[j]) <==> Available(qs[j]))
    ensures FindNextBatsman(ps) == FindNextBatsman(qs)
    decreases |ps|
  {
    if ps != [] && !Available(ps[0]) {
      FindNextBatsmanAgrees(ps[1..], qs[1..]);
    }
  }

  /** A wicket on a free hit removes nobody: the wicket tally, the striker and the bowler's
      wickets stay, but the ball is recorded with its wicket flag and the event is shown. */
  lemma FreeHitWicketSuspended(s: GameState)
    requires Scored(s, AddWicket) && s.isFreeHit && s.battingTeamIndex != s.bowlingTeamIndex
    ensures var s', bt, bwt := Deliver(s, AddWicket).state, s.battingTeamIndex, s.bowlingTeamIndex;
            var k, b := StrikerAt(s, AddWicket), BowlerAt(s, AddWicket);
            var inn' := CurrentInnings(s').value;
            inn'.wickets == CurrentInnings(s).value.wickets &&
            inn'.timeline[|inn'.timeline| - 1].isWicket &&
            s'.teams[bt].players[k].isOut == s.teams[bt].players[k].isOut &&
            s'.teams[bwt].players[b].wicketsTaken == s.teams[bwt].players[b].wicketsTaken &&
            s'.lastEvent == WicketEvent && !s'.isFreeHit &&
            (if EndsOver(s, AddWicket) then s'.strikerId == s.nonStrikerId else s'.strikerId == s.strikerId)
  {
    ScoredInnings(s, AddWicket);
    PlayerLedger(s, AddWicket);
    ScoredIsPlay(s, AddWicket);
  }

  /** A no-ball followed by a wicket: whatever the no-ball cost, the wicket on the free hit
      that follows leaves the wicket tally where it was before the no-ball. */
  lemma NoBallThenWicket(s: GameState, r: int)
    requires Scored(s, AddExtra("nb", r))
    requires Deliver(Deliver(s, AddExtra("nb", r)).state, AddWicket).Next?
    ensures var s1 := Deliver(s, AddExtra("nb", r)).state;
            var s2 := Deliver(s1, AddWicket).state;
            s1.isFreeHit && s2.currentInnings == s.currentInnings && CurrentInnings(s2).Some? &&
            CurrentInnings(s2).value.wickets == CurrentInnings(s).value.wickets
  {
    var s1 := Deliver(s, AddExtra("nb", r)).state;
    ScoredInnings(s, AddExtra("nb", r));
    FreeHitRule(s, AddExtra("nb", r));
    if DeliveryAccepted(s1) {
      ScoredInnings(s1, AddWicket);
    } else {
      DeliveryNoOpIffRejected(s1, AddWicket);
    }
  }

  // ---------------------------------------------------------------- strike rotation

  /** Without a dismissal the batsmen swap ends on odd bat runs and again when the over is
      complete, so they end up swapped exactly when one of the two happened. */
  lemma StrikeRotation(s: GameState, a: Action)
    requires Scored(s, a) && !Dismisses(s, a)
    ensures var s' := Deliver(s, a).state;
            if (Normalise(a).runs % 2 != 0) != EndsOver(s, a)
            then s'.strikerId == s.nonStrikerId && s'.nonStrikerId == s.strikerId
            else s'.strikerId == s.strikerId && s'.nonStrikerId == s.nonStrikerId
  {
    ScoredIsPlay(s, a);
  }

  /** Odd runs off the last ball of an over leave the striker on strike for the next over. */
  lemma OddRunsOnLastBallKeepStrike(s: GameState, runs: int)
    requires Scored(s, AddRuns(runs)) && runs % 2 != 0 && CurrentInnings(s).value.ballsInOver == BALLS_PER_OVER - 1
    ensures Deliver(s, AddRuns(runs)).state.strikerId == s.strikerId
  {
    StrikeRotation(s, AddRuns(runs));
  }

  // ---------------------------------------------------------------- the result

  /** Whether the overs limit (when there is one) has been bowled. */
  predicate OversDone(settings: MatchSettings, inn: Innings) {
    settings.overs > 0 && inn.overs >= settings.overs
  }

  /** In the first innings the delivery that bowls the side out or completes the last over
      calls the break and sets the target one run above the score; otherwise play goes on. */
  lemma FirstInningsEnd(s: GameState, a: Action)
    requires Scored(s, a) && s.currentInnings == 1
    ensures var s' := Deliver(s, a).state;
            var inn', st := CurrentInnings(s').value, s.settings.value;
            if AllOut(st, inn') || OversDone(st, inn')
            then s'.status == InningsBreak && s'.target == Some(inn'.score + 1)
            else s'.status == InProgress && s'.target == s.target
    ensures Deliver(s, a).state.winner == s.winner && Deliver(s, a).state.winMargin == s.winMargin
  {
    ScoredIsPlay(s, a);
  }

  /** In the second innings: reaching the target wins for the batting side by the wickets in
      hand; otherwise the side bowled out or out of overs ties one run short of the target
      and loses by target minus score below that; otherwise play goes on. */
  lemma SecondInningsResult(s: GameState, a: Action)
    requires Scored(s, a) && s.currentInnings == 2
    ensures var s' := Deliver(s, a).state;
            var inn', st := CurrentInnings(s').value, s.settings.value;
            var batting, bowling := s.teams[s.battingTeamIndex].name, s.teams[s.bowlingTeamIndex].name;
            s'.target == s.target &&
            if Truthy(s.target) && inn'.score >= s.target.value then
              s'.status == Finished && s'.winner == Some(batting) &&
              s'.winMargin == Some(ByWickets(st.playersPerTeam - 1 - inn'.wickets))
            else if AllOut(st, inn') || OversDone(st, inn') then
              s'.status == Finished &&
              if Truthy(s.target) && inn'.score == s.target.value - 1
              then s'.winner == Some(TieWinner) && s'.winMargin == Some(Tied)
              else s'.winner == Some(bowling) && s'.winMargin == Some(ByRuns(TargetValue(s.target) - inn'.score))
            else s'.status == InProgress && s'.winner == s.winner && s'.winMargin == s.winMargin
  {
    ScoredIsPlay(s, a);
    var bt, bwt, k, b := s.battingTeamIndex, s.bowlingTeamIndex, StrikerAt(s, a), BowlerAt(s, a);
    var d := Normalise(a);
    var teams2 := Ledger(s.teams, bt, bwt, k, b, d);
    if Dismisses(s, a) {
      DismissalKeepsNames(teams2, bt, bwt, k, b, s.strikerId);
    }
  }

  lemma DismissalKeepsNames(teams: seq<Team>, bt: nat, bwt: nat, si: nat, bi: nat, strikerId: int)
    requires bt < |teams| && bwt < |teams| && si < |teams[bt].players| && bi < |teams[bwt].players|
    ensures var r := Dismissal(teams, bt, bwt, si, bi, strikerId).0;
            |r| == |teams| && forall u :: 0 <= u < |r| ==> r[u].name == teams[u].name && |r[u].players| == |teams[u].players|
  {
  }

  /** A match won by the chasing side is won by a margin of wickets that is never negative:
      an accepted delivery starts below the all-out mark and takes at most one wicket. */
  lemma WicketsMarginNonNegative(s: GameState, a: Action)
    requires Scored(s, a)
    ensures var s' := Deliver(s, a).state;
            s'.status == Finished && s'.winMargin.Some? && s'.winMargin.value.ByWickets? ==> s'.winMargin.value.wickets >= 0
  {
    ScoredInnings(s, a);
    if s.currentInnings == 2 {
      SecondInningsResult(s, a);
    } else {
      FirstInningsEnd(s, a);
    }
  }

  /** With the target set as it is at the break (first-innings score plus one), a chase that
      falls short loses by one run more than the difference of the two scores, and ties
      exactly when the scores are level. */
  lemma RunsMarginCountsTargetRun(s: GameState, a: Action)
    requires Scored(s, a) && s.currentInnings == 2 && s.target == Some(s.innings.first.score + 1) && s.innings.first.score != -1
    ensures var s' := Deliver(s, a).state;
            var inn' := CurrentInnings(s').value;
            (s'.winner == Some(TieWinner) && s'.status == Finished && s'.winMargin == Some(Tied) ==> inn'.score == s.innings.first.score) &&
            (s'.status == Finished && s'.winMargin.Some? && s'.winMargin.value.ByRuns? ==>
               s'.winMargin.value.runs == s.innings.first.score - inn'.score + 1 && inn'.score != s.innings.first.score)
  {
    SecondInningsResult(s, a);
  }

  // ---------------------------------------------------------------- the other actions

  /** Starting a match never throws: it builds two rosters of `playersPerTeam` fresh players,
      numbered 0.. for the first side and on from `playersPerTeam` for the second, named as
      entered or `Player {i+1}` when the entry is missing or empty, and awaits the toss with
      everything else as in the initial state. */
  lemma StartMatchRosters(s: GameState, st: MatchSettings)
    ensures GameReducer(s, StartMatch(st)).Next?
    ensures var s' := GameReducer(s, StartMatch(st)).state;
            s'.status == Toss && s'.settings == Some(st) && |s'.teams| == 2 &&
            s'.teams[0].name == st.teamOneName && s'.teams[1].name == st.teamTwoName &&
            s'.(status := Setup, settings := None, teams := []) == InitialState &&
            forall i :: 0 <= i < st.playersPerTeam ==>
              |s'.teams[0].players| == |s'.teams[1].players| == st.playersPerTeam &&
              s'.teams[0].players[i] == FreshPlayer(i, RosterName(st.teamOnePlayers, i)) &&
              s'.teams[1].players[i] == FreshPlayer(st.playersPerTeam + i, RosterName(st.teamTwoPlayers, i))
  {
  }

  /** Every player of a new match has an id of its own. */
  lemma StartMatchIdsDistinct(s: GameState, st: MatchSettings, t: nat, u: nat, i: nat, j: nat)
    requires t < 2 && u < 2 && i < st.playersPerTeam && j < st.playersPerTeam && (t, i) != (u, j)
    ensures var teams := GameReducer(s, StartMatch(st)).state.teams;
            teams[t].players[i].id != teams[u].players[j].id
  {
  }

  /** A name that was left empty becomes the positional `Player {i+1}`; any other is kept. */
  lemma RosterNameDefault(names: seq<string>, i: nat)
    ensures i < |names| && names[i] != "" ==> RosterName(names, i) == names[i]
    ensures !(i < |names| && names[i] != "") ==> RosterName(names, i)[..7] == "Player " && DigitsValue(RosterName(names, i)[7..]) == i + 1
  {
  }

  /** The toss: team one bats exactly when it won and chose to bat or lost and the winner
      chose to bowl; its first two players open, the others take the field, and a fresh
      first innings starts. Without settings nothing happens; a missing side or a side of
      fewer than two players throws. */
  lemma TossOpensFirstInnings(s: GameState, winner: string, choice: Choice)
    ensures s.settings.None? ==> GameReducer(s, StartInningsAfterToss(winner, choice)) == Next(s)
    ensures s.settings.Some? && |s.teams| == 2 && |s.teams[0].players| >= 2 && |s.teams[1].players| >= 2 ==>
            GameReducer(s, StartInningsAfterToss(winner, choice)).Next? &&
            var s' := GameReducer(s, StartInningsAfterToss(winner, choice)).state;
            var bt, bwt := s'.battingTeamIndex, s'.bowlingTeamIndex;
            (bt == 0 <==> ((winner == s.settings.value.teamOneName) == (choice == Bat))) && bwt == 1 - bt &&
            s'.status == InProgress && s'.tossWinner == Some(winner) && s'.choseTo == Some(choice) &&
            s'.innings == InningsPair(InitialInnings(s.teams[bt].name, s.teams[bwt].name), None) &&
            s'.strikerId == s.teams[bt].players[0].id && s'.nonStrikerId == s.teams[bt].players[1].id &&
            s'.teams[bwt] == s.teams[bwt] && s'.teams[bt].name == s.teams[bt].name &&
            s'.teams[bt].players == s.teams[bt].players[0 := s.teams[bt].players[0].(isBatting := true)]
                                                       [1 := s.teams[bt].players[1].(isBatting := true)] &&
            |s'.teams| == |s.teams| &&
            s'.settings == s.settings && s'.currentInnings == s.currentInnings && s'.target == s.target &&
            s'.currentBowlerId == s.currentBowlerId && s'.isFreeHit == s.isFreeHit &&
            s'.winner == s.winner && s'.winMargin == s.winMargin && s'.lastEvent == s.lastEvent
    ensures s.settings.Some? && |s.teams| == 0 ==> GameReducer(s, StartInningsAfterToss(winner, choice)) == Crashed(MissingTeam)
    ensures s.settings.Some? && |s.teams| == 1 ==> GameReducer(s, StartInningsAfterToss(winner, choice)).Crashed?
    ensures s.settings.Some? && |s.teams| == 2 ==>
            var bt := if (winner == s.settings.value.teamOneName) == (choice == Bat) then 0 else 1;
            (|s.teams[bt].players| < 2 <==> GameReducer(s, StartInningsAfterToss(winner, choice)) == Crashed(MissingPlayer))
  {
  }

  /** Starting the second innings swaps batting and bowling sides, opens with the new batting
      side's first two players, keeps the first innings and the target, and asks for a new
      bowler with no free hit pending. It is not restricted to the innings break. */
  lemma SecondInningsSwapsRoles(s: GameState)
    requires |s.teams| == 2 && |s.teams[s.bowlingTeamIndex].players| >= 2
    ensures GameReducer(s, StartSecondInnings).Next?
    ensures var s' := GameReducer(s, StartSecondInnings).state;
            var bt := s.bowlingTeamIndex;
            s'.battingTeamIndex == s.bowlingTeamIndex && s'.bowlingTeamIndex == s.battingTeamIndex &&
            s'.status == InProgress && s'.currentInnings == 2 &&
            s'.innings.first == s.innings.first &&
            s'.innings.second == Some(InitialInnings(s.teams[bt].name, s.teams[s.battingTeamIndex].name)) &&
            s'.strikerId == s.teams[bt].players[0].id && s'.nonStrikerId == s.teams[bt].players[1].id &&
            s'.teams[bt].players[0].isBatting && s'.teams[bt].players[1].isBatting &&
            s'.currentBowlerId.None? && !s'.isFreeHit && s'.target == s.target
    ensures var s' := GameReducer(s, StartSecondInnings).state;
            s'.teams == OpenBatting(s.teams, s.bowlingTeamIndex) &&
            s'.settings == s.settings && s'.lastEvent == s.lastEvent &&
            s'.winner == s.winner && s'.winMargin == s.winMargin &&
            s'.tossWinner == s.tossWinner && s'.choseTo == s.choseTo
  {
  }

  /** The first innings' break target carries into the chase: a delivery that ends the first
      innings followed by the start of the second leaves a chase of score plus one. */
  lemma BreakThenChase(s: GameState, a: Action)
    requires Scored(s, a) && s.currentInnings == 1 && |s.teams| == 2 && |s.teams[s.bowlingTeamIndex].players| >= 2
    requires Deliver(s, a).state.status == InningsBreak
    ensures var s1 := Deliver(s, a).state;
            GameReducer(s1, StartSecondInnings).Next? &&
            var s2 := GameReducer(s1, StartSecondInnings).state;
            s2.currentInnings == 2 && s2.target == Some(s1.innings.first.score + 1) &&
            s2.battingTeamIndex == s.bowlingTeamIndex && CurrentInnings(s2) == Some(InitialInnings(s.teams[s.bowlingTeamIndex].name, s.teams[s.battingTeamIndex].name))
  {
    var s1 := Deliver(s, a).state;
    FirstInningsEnd(s, a);
    ScoredKeepsRoles(s, a);
    ScoredIsPlay(s, a);
    var bt, bwt, k, b := s.battingTeamIndex, s.bowlingTeamIndex, StrikerAt(s, a), BowlerAt(s, a);
    var teams2 := Ledger(s.teams, bt, bwt, k, b, Normalise(a));
    if Dismisses(s, a) {
      DismissalKeepsNames(teams2, bt, bwt, k, b, s.strikerId);
    }
    assert |s1.teams| == 2 && s1.teams[bwt].name == s.teams[bwt].name && s1.teams[bt].name == s.teams[bt].name;
    assert |s1.teams[bwt].players| == |s.teams[bwt].players|;
    SecondInningsSwapsRoles(s1);
  }

  /** The remaining actions: choosing a bowler and clearing the event change that one field,
      a new game restores the initial state, and an unknown action changes nothing. None of
      them looks at the status. */
  lemma SingleFieldActions(s: GameState, id: int, tag: string)
    ensures GameReducer(s, SetBowler(id)) == Next(s.(currentBowlerId := Some(id)))
    ensures GameReducer(s, ClearLastEvent) == Next(s.(lastEvent := NoEvent))
    ensures GameReducer(s, NewGame) == Next(InitialState) && InitialState.status == Setup && InitialState.teams == []
    ensures GameReducer(s, Unknown(tag)) == Next(s)
  {
  }
}
