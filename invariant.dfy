/** The bookkeeping every state the reducer produces keeps: an innings' score and over count
    are those of its timeline, balls are numbered in order and tagged with the over they were
    bowled in, the over never shows six completed balls, and no side loses more wickets than
    the all-out mark. */
module MatchInvariant {
  import opened Types
  import opened Text
  import opened Overs
  import opened Reducer
  import opened ReducerProperties

  /** The runs the balls of a timeline are worth: bat runs plus extras. */
  function BallTotal(t: seq<Ball>): int
    decreases |t|
  {
    if t == [] then 0 else BallTotal(t[..|t| - 1]) + t[|t| - 1].runs + t[|t| - 1].extraRuns
  }

  /** The legal balls of a timeline (neither wide nor no-ball). */
  function LegalBalls(t: seq<Ball>): (n: nat)
    ensures n <= |t|
    decreases |t|
  {
    if t == [] then 0 else LegalBalls(t[..|t| - 1]) + (if !t[|t| - 1].isWide && !t[|t| - 1].isNoBall then 1 else 0)
  }

  /** The reducer never records who faced or bowled a ball, nor where it went. */
  predicate Untagged(b: Ball) {
    b.batsmanId.None? && b.bowlerId.None? && b.shotDirection.None?
  }

  predicate InningsConsistent(inn: Innings) {
    inn.ballsInOver < BALLS_PER_OVER &&
    inn.score == BallTotal(inn.timeline) &&
    BALLS_PER_OVER * inn.overs + inn.ballsInOver == LegalBalls(inn.timeline) &&
    forall i :: 0 <= i < |inn.timeline| ==>
      inn.timeline[i].ballNumber == i + 1 &&
      inn.timeline[i].overNumber == LegalBalls(inn.timeline[..i]) / BALLS_PER_OVER + 1 &&
      Untagged(inn.timeline[i])
  }

  /** With settings in place, a side has lost at most `playersPerTeam - 1` wickets (none when
      that is not positive). */
  predicate WicketsBounded(settings: MatchSettings, inn: Innings) {
    inn.wickets <= if settings.playersPerTeam >= 1 then settings.playersPerTeam - 1 else 0
  }

  predicate StateConsistent(s: GameState) {
    s.battingTeamIndex != s.bowlingTeamIndex &&
    InningsConsistent(s.innings.first) &&
    (s.innings.second.Some? ==> InningsConsistent(s.innings.second.value)) &&
    (s.settings.Some? ==> WicketsBounded(s.settings.value, s.innings.first) &&
                          (s.innings.second.Some? ==> WicketsBounded(s.settings.value, s.innings.second.value)))
  }

  lemma InitialStateConsistent()
    ensures StateConsistent(InitialState)
  {
  }

  lemma OverCountDiv(o: nat, b: nat)
    requires b < BALLS_PER_OVER
    ensures (BALLS_PER_OVER * o + b) / BALLS_PER_OVER == o
    ensures (BALLS_PER_OVER * o + b) % BALLS_PER_OVER == b
  {
  }

  /** The ball appended to a consistent timeline carries its position and its over. */
  lemma AppendKeepsNumbering(inn: Innings, d: Delivery)
    requires InningsConsistent(inn)
    ensures var t' := inn.timeline + [RecordedBall(d, |inn.timeline| + 1, inn.overs + 1)];
            forall i :: 0 <= i < |t'| ==>
              t'[i].ballNumber == i + 1 &&
              t'[i].overNumber == LegalBalls(t'[..i]) / BALLS_PER_OVER + 1 &&
              Untagged(t'[i])
  {
    var t := inn.timeline;
    var t' := t + [RecordedBall(d, |t| + 1, inn.overs + 1)];
    OverCountDiv(inn.overs, inn.ballsInOver);
    forall i | 0 <= i < |t'|
      ensures t'[i].ballNumber == i + 1 && t'[i].overNumber == LegalBalls(t'[..i]) / BALLS_PER_OVER + 1 && Untagged(t'[i])
    {
      if i < |t| {
        assert t'[..i] == t[..i];
      } else {
        assert t'[..i] == t;
      }
    }
  }

  /** Appending the ball a scored delivery records keeps an innings consistent. */
  lemma AppendKeepsInnings(inn: Innings, d: Delivery)
    requires InningsConsistent(inn)
    ensures var t' := inn.timeline + [RecordedBall(d, |inn.timeline| + 1, inn.overs + 1)];
            var (o, b, _) := Advance(inn.overs, inn.ballsInOver, IsLegal(d));
            InningsConsistent(inn.(score := inn.score + d.runs + d.extraRuns, overs := o, ballsInOver := b, timeline := t'))
  {
    var t := inn.timeline;
    var t' := t + [RecordedBall(d, |t| + 1, inn.overs + 1)];
    assert t'[..|t'| - 1] == t;
    assert BallTotal(t') == BallTotal(t) + d.runs + d.extraRuns;
    assert LegalBalls(t') == LegalBalls(t) + if IsLegal(d) then 1 else 0;
    AppendKeepsNumbering(inn, d);
  }

  /** An innings that is the consistent `inn` with one ball appended, its score and over
      count advanced with it, and any wicket count, is consistent. */
  lemma AppendedInningsConsistent(inn: Innings, d: Delivery, inn': Innings)
    requires InningsConsistent(inn)
    requires var adv := Advance(inn.overs, inn.ballsInOver, IsLegal(d));
             inn'.score == inn.score + d.runs + d.extraRuns &&
             inn'.timeline == inn.timeline + [RecordedBall(d, |inn.timeline| + 1, inn.overs + 1)] &&
             inn'.overs == adv.0 && inn'.ballsInOver == adv.1
    ensures InningsConsistent(inn')
  {
    AppendKeepsInnings(inn, d);
    var t' := inn.timeline + [RecordedBall(d, |inn.timeline| + 1, inn.overs + 1)];
    var (o, b, _) := Advance(inn.overs, inn.ballsInOver, IsLegal(d));
    var appended := inn.(score := inn.score + d.runs + d.extraRuns, overs := o, ballsInOver := b, timeline := t');
    assert inn' == appended.(wickets := inn'.wickets, battingTeam := inn'.battingTeam, bowlingTeam := inn'.bowlingTeam);
  }

  /** The step from a consistent, accepted state to one whose current innings has had one
      ball appended, its score and over count advanced with it and at most one wicket added,
      with everything else the invariant reads left as it was. */
  lemma AppendedStateConsistent(s: GameState, s': GameState, d: Delivery, inn': Innings)
    requires StateConsistent(s) && DeliveryAccepted(s)
    requires s'.settings == s.settings && s'.currentInnings == s.currentInnings
    requires s'.battingTeamIndex == s.battingTeamIndex && s'.bowlingTeamIndex == s.bowlingTeamIndex
    requires s.currentInnings == 1 ==> s'.innings.second == s.innings.second
    requires s.currentInnings == 2 ==> s'.innings.first == s.innings.first
    requires CurrentInnings(s') == Some(inn')
    requires var inn := CurrentInnings(s).value;
             var adv := Advance(inn.overs, inn.ballsInOver, IsLegal(d));
             inn'.score == inn.score + d.runs + d.extraRuns && inn'.wickets <= inn.wickets + 1 &&
             inn'.timeline == inn.timeline + [RecordedBall(d, |inn.timeline| + 1, inn.overs + 1)] &&
             inn'.overs == adv.0 && inn'.ballsInOver == adv.1
    ensures StateConsistent(s')
  {
    var inn := CurrentInnings(s).value;
    AppendedInningsConsistent(inn, d, inn');
    assert WicketsBounded(s.settings.value, inn');
  }

  /** A scored delivery keeps the state consistent. */
  lemma DeliveryKeepsConsistent(s: GameState, a: Action)
    requires StateConsistent(s) && Scored(s, a)
    ensures StateConsistent(Deliver(s, a).state)
  {
    ScoredInnings(s, a);
    ScoredKeepsRoles(s, a);
    AppendedStateConsistent(s, Deliver(s, a).state, Normalise(a), CurrentInnings(Deliver(s, a).state).value);
  }

  /** Every action the reducer handles without throwing keeps the state consistent. */
  lemma ReducerKeepsConsistent(s: GameState, a: Action)
    requires StateConsistent(s) && GameReducer(s, a).Next?
    ensures StateConsistent(GameReducer(s, a).state)
  {
    match a
    case AddRuns(_) => DeliveryCase(s, a);
    case AddExtra(_, _) => DeliveryCase(s, a);
    case AddWicket => DeliveryCase(s, a);
    case _ =>
  }

  lemma DeliveryCase(s: GameState, a: Action)
    requires StateConsistent(s) && IsDelivery(a) && Deliver(s, a).Next?
    ensures StateConsistent(Deliver(s, a).state)
  {
    if DeliveryAccepted(s) {
      DeliveryKeepsConsistent(s, a);
    }
  }

  /** Hence any run of actions from a consistent state, in particular from the initial one,
      ends in a consistent state unless an action throws. */
  lemma {:induction false} RunKeepsConsistent(s: GameState, actions: seq<Action>)
    requires StateConsistent(s) && Run(s, actions).Next?
    ensures StateConsistent(Run(s, actions).state)
    decreases |actions|
  {
    if actions != [] {
      ReducerKeepsConsistent(s, actions[0]);
      RunKeepsConsistent(GameReducer(s, actions[0]).state, actions[1..]);
    }
  }

  /** The over display of a consistent innings: `FormatOvers` of its legal balls reads back
      as the completed overs and the balls of the current over, which the source also keeps
      as the number `overs + ballsInOver / 10`. */
  lemma OversDisplayOfInnings(inn: Innings)
    requires InningsConsistent(inn)
    ensures FormatOvers(LegalBalls(inn.timeline)) == NatToString(inn.overs) + "." + NatToString(inn.ballsInOver)
    ensures ParseOvers(FormatOvers(LegalBalls(inn.timeline))) == Some(LegalBalls(inn.timeline))
  {
    var n := LegalBalls(inn.timeline);
    assert n / BALLS_PER_OVER == inn.overs && n % BALLS_PER_OVER == inn.ballsInOver by {
      assert n == BALLS_PER_OVER * inn.overs + inn.ballsInOver;
    }
    FormatOversRoundTrip(n);
  }
}
