/** The decisions ScoringScreen.tsx makes around the reducer: which players the bowler chooser
    offers, when it asks for a bowler, which action a run button dispatches, and which balls
    the "This Over" strip shows. */
module ScoringScreen {
  import opened Types
  import opened Sequences
  import opened Overs
  import opened Reducer
  import opened ReducerProperties
  import opened MatchInvariant
  import opened BallLabels

  // ---------------------------------------------------------------- bowler chooser

  function NotLastBowler(lastBowlerId: Option<int>): Player -> bool {
    (p: Player) => lastBowlerId != Some(p.id)
  }

  /** The chooser's buttons: every player of the fielding side except the one who bowled the
      last over, in roster order. With no last bowler every player is offered. */
  function BowlerChoices(team: Team, lastBowlerId: Option<int>): (r: seq<Player>)
    ensures forall p :: p in r <==> p in team.players && lastBowlerId != Some(p.id)
  {
    var r := Filter(team.players, NotLastBowler(lastBowlerId));
    forall p | p in team.players && lastBowlerId != Some(p.id)
      ensures p in r
    {
      var i :| 0 <= i < |team.players| && team.players[i] == p;
      assert NotLastBowler(lastBowlerId)(team.players[i]);
    }
    r
  }

  /** The greyed-out "Cannot bowl consecutive over" entry: the first player with the last
      bowler's id, if there is one. */
  function LastBowlerNotice(team: Team, lastBowlerId: Option<int>): (r: Option<Player>)
    ensures r.Some? ==> r.value in team.players && lastBowlerId == Some(r.value.id)
    ensures r.None? <==> forall p :: p in team.players ==> lastBowlerId != Some(p.id)
  {
    if lastBowlerId.None? then None
    else match FindPlayer(team.players, lastBowlerId.value)
      case None => None
      case Some(k) => Some(team.players[k])
  }

  /** The chooser keeps roster order, offers the whole side when there was no last bowler,
      and every player is either offered or is the last bowler, who is then shown greyed out
      and not offered. */
  lemma ChooserPartitionsTheSide(team: Team, lastBowlerId: Option<int>, p: Player)
    ensures Subsequence(BowlerChoices(team, lastBowlerId), team.players)
    ensures lastBowlerId.None? ==> BowlerChoices(team, lastBowlerId) == team.players
    ensures p in team.players ==> p in BowlerChoices(team, lastBowlerId) || LastBowlerNotice(team, lastBowlerId).Some?
    ensures LastBowlerNotice(team, lastBowlerId).Some? ==> LastBowlerNotice(team, lastBowlerId).value !in BowlerChoices(team, lastBowlerId)
  {
    FilterKeepsOrder(team.players, NotLastBowler(lastBowlerId));
    if lastBowlerId.None? {
      FilterAll(team.players, NotLastBowler(lastBowlerId));
    }
  }

  /** Selecting from the chooser, with the current bowler as the last bowler, always changes
      the bowler: no bowler is offered two overs in a row. */
  lemma ChosenBowlerIsNew(s: GameState, p: Player)
    requires s.bowlingTeamIndex < |s.teams|
    requires p in BowlerChoices(s.teams[s.bowlingTeamIndex], s.currentBowlerId)
    ensures GameReducer(s, SetBowler(p.id)) == Next(s.(currentBowlerId := Some(p.id)))
    ensures GameReducer(s, SetBowler(p.id)).state.currentBowlerId != s.currentBowlerId
  {
  }

  // ---------------------------------------------------------------- bowler prompt

  /** The new-over effect: the game is in progress, the current innings exists, no legal ball
      of the over has been bowled yet and the innings has begun. */
  predicate NewOverPrompt(s: GameState) {
    s.status == InProgress && CurrentInnings(s).Some? &&
    CurrentInnings(s).value.ballsInOver == 0 && |CurrentInnings(s).value.timeline| > 0
  }

  /** The innings-start effect: the game is in progress and the current innings has no balls. */
  predicate InningsStartPrompt(s: GameState) {
    s.status == InProgress && CurrentInnings(s).Some? && |CurrentInnings(s).value.timeline| == 0
  }

  predicate BowlerPrompt(s: GameState) {
    NewOverPrompt(s) || InningsStartPrompt(s)
  }

  /** In a consistent state the two effects together ask for a bowler exactly at the start of
      an over: with the game in progress and no legal ball of the current over bowled. */
  lemma PromptAtOverStart(s: GameState)
    requires StateConsistent(s)
    ensures BowlerPrompt(s) <==> s.status == InProgress && CurrentInnings(s).Some? && CurrentInnings(s).value.ballsInOver == 0
  {
    if s.status == InProgress && CurrentInnings(s).Some? && |CurrentInnings(s).value.timeline| == 0 {
      var inn := CurrentInnings(s).value;
      assert InningsConsistent(inn);
      assert LegalBalls(inn.timeline) == 0;
    }
  }

  /** A legal ball that completes an over and leaves the game in progress brings up the
      chooser; a legal ball within the over does not. */
  lemma OverEndPrompts(s: GameState, a: Action)
    requires Scored(s, a) && Deliver(s, a).state.status == InProgress
    ensures EndsOver(s, a) ==> NewOverPrompt(Deliver(s, a).state)
    ensures IsLegal(Normalise(a)) && !EndsOver(s, a) ==> !BowlerPrompt(Deliver(s, a).state)
  {
    OverProgression(s, a);
    ScoredInnings(s, a);
  }

  /** A wide or no-ball at the start of an over leaves the over unstarted, so the chooser is
      raised once more, offering everyone but the bowler who just bowled it. */
  lemma ExtraAtOverStartPromptsAgain(s: GameState, a: Action)
    requires Scored(s, a) && Deliver(s, a).state.status == InProgress
    requires !IsLegal(Normalise(a)) && CurrentInnings(s).value.ballsInOver == 0
    ensures NewOverPrompt(Deliver(s, a).state)
  {
    OverProgression(s, a);
    ScoredInnings(s, a);
  }

  // ---------------------------------------------------------------- run buttons

  /** The extra chosen with the WD or NB button, waiting for its run count. */
  datatype ExtraType = Wd | Nb

  function ExtraTag(e: ExtraType): string {
    match e
    case Wd => "wd"
    case Nb => "nb"
  }

  /** `handleScore`: with an extra pending, the runs go to that extra and the pending extra is
      cleared; otherwise they are bat runs off a legal ball. Returns the dispatched action and
      the pending extra afterwards. */
  function HandleScore(pending: Option<ExtraType>, runs: int): (r: (Action, Option<ExtraType>))
    ensures IsDelivery(r.0) && r.1.None?
    ensures var d := Normalise(r.0);
            d.runs == runs && !d.isWicket &&
            (d.isWide <==> pending == Some(Wd)) && (d.isNoBall <==> pending == Some(Nb)) &&
            (IsLegal(d) <==> pending.None?)
  {
    match pending
    case Some(e) => (AddExtra(ExtraTag(e), runs), None)
    case None => (AddRuns(runs), None)
  }

  /** The penalty run the reducer adds for an extra: a pending extra makes the delivery worth
      one more than twice the runs, a plain run button just the runs. */
  lemma HandleScoreValue(pending: Option<ExtraType>, runs: int)
    ensures var d := Normalise(HandleScore(pending, runs).0);
            d.runs + d.extraRuns == if pending.Some? then 2 * runs + 1 else runs
  {
  }

  // ---------------------------------------------------------------- over strip

  /** `t.slice(-n)`: the last n elements, except that `slice(-0)` is `slice(0)`, the whole
      sequence, and a count beyond the length also gives the whole sequence. */
  function SliceFromEnd<T>(t: seq<T>, n: nat): (r: seq<T>)
    ensures |r| <= |t| && r == t[|t| - |r|..]
    ensures 0 < n <= |t| ==> |r| == n
    ensures n == 0 || n >= |t| ==> r == t
  {
    if n == 0 || n >= |t| then t else t[|t| - n..]
  }

  /** The "This Over" strip: the last `ballsInOver` balls of the timeline. */
  function OverStrip(inn: Innings): (r: seq<Ball>)
    ensures |r| <= |inn.timeline| && r == inn.timeline[|inn.timeline| - |r|..]
  {
    SliceFromEnd(inn.timeline, if inn.ballsInOver == 6 then 6 else inn.ballsInOver)
  }

  function StripLabels(inn: Innings): (r: seq<Label>)
    ensures |r| == |OverStrip(inn)|
    ensures forall i :: 0 <= i < |r| ==> r[i] == StripLabel(OverStrip(inn)[i])
  {
    var strip := OverStrip(inn);
    seq(|strip|, i requires 0 <= i < |strip| => StripLabel(strip[i]))
  }

  /** In a consistent innings the strip holds exactly `ballsInOver` balls once the over has
      started, and at the start of an over it shows the whole timeline. */
  lemma StripLength(inn: Innings)
    requires InningsConsistent(inn)
    ensures inn.ballsInOver == 0 ==> OverStrip(inn) == inn.timeline
    ensures inn.ballsInOver > 0 ==> |OverStrip(inn)| == inn.ballsInOver
  {
  }

  /** A timeline shorter than its legal-ball count cannot happen, and a timeline with a wide
      or a no-ball has fewer legal balls than balls. */
  lemma {:induction false} ExtraLowersLegalCount(t: seq<Ball>, i: nat)
    requires i < |t| && (t[i].isWide || t[i].isNoBall)
    ensures LegalBalls(t) < |t|
    decreases |t|
  {
    if i < |t| - 1 {
      ExtraLowersLegalCount(t[..|t| - 1], i);
    } else {
      assert LegalBalls(t[..|t| - 1]) <= |t| - 1;
    }
  }

  /** The strip counts balls, not legal balls: once a wide or no-ball has been bowled in the
      started over, the strip shows fewer legal balls than the over holds, so the earliest
      balls of the over drop off the strip. */
  lemma StripDropsBallsAfterExtra(inn: Innings, i: nat)
    requires InningsConsistent(inn) && inn.ballsInOver > 0
    requires i < |OverStrip(inn)| && (OverStrip(inn)[i].isWide || OverStrip(inn)[i].isNoBall)
    ensures LegalBalls(OverStrip(inn)) < inn.ballsInOver
  {
    StripLength(inn);
    ExtraLowersLegalCount(OverStrip(inn), i);
  }

  /** An over of one dot ball followed by a wide: the strip shows the wide alone. */
  lemma WideHidesDotBall()
    ensures var dot := Ball(0, false, false, false, 0, 1, 1, None, None, None);
            var wide := Ball(0, false, true, false, 1, 2, 1, None, None, None);
            var inn := Innings(1, 0, 0, 1, [dot, wide], "A", "B");
            InningsConsistent(inn) && OverStrip(inn) == [wide]
  {
    var dot := Ball(0, false, false, false, 0, 1, 1, None, None, None);
    var wide := Ball(0, false, true, false, 1, 2, 1, None, None, None);
    var t := [dot, wide];
    assert t[..1] == [dot] && [dot][..0] == [] && t[..0] == [];
    assert LegalBalls(t[..1]) == 1 && BallTotal(t[..1]) == 0;
  }
}
