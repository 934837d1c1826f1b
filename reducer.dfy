/** The match state machine of App.tsx: `gameReducer` and the initial state it starts from.
    A reducer call either yields the next state or, where the source would throw a TypeError
    (a roster entry or team it dereferences is missing), `Crashed`. */
module Reducer {
  import opened Types
  import opened Text
  import opened Overs

  /** The actions the reducer understands, and any other action type. */
  datatype Action =
    | StartMatch(settings: MatchSettings)
    | StartInningsAfterToss(tossWinner: string, choseTo: Choice)
    | SetBowler(bowlerId: int)
    | ClearLastEvent
    | AddRuns(runs: int)
    | AddExtra(kind: string, runs: int)
    | AddWicket
    | StartSecondInnings
    | NewGame
    | Unknown(tag: string)

  /** What a thrown TypeError was dereferencing. */
  datatype Fault = MissingTeam | MissingPlayer | MissingBowler | MissingStriker

  datatype Step = Next(state: GameState) | Crashed(fault: Fault)

  function InitialInnings(battingTeam: string, bowlingTeam: string): Innings {
    Innings(0, 0, 0, 0, [], battingTeam, bowlingTeam)
  }

  const InitialState: GameState :=
    GameState(Setup, None, [], 1, InningsPair(InitialInnings("", ""), None), 0, 1, 0, 1,
              None, false, None, None, None, None, None, NoEvent)

  // ---------------------------------------------------------------- rosters

  /** `names[i] || 'Player {i+1}'`: a missing or empty name falls back to the positional one. */
  function RosterName(names: seq<string>, i: nat): string {
    if i < |names| && names[i] != "" then names[i] else PlayerLabel(i)
  }

  function FreshPlayer(id: int, name: string): Player {
    Player(id, name, 0, 0, 0, 0, false, false, 0, 0, 0)
  }

  /** `count` fresh players with ids offset, offset+1, ... */
  function CreatePlayers(count: nat, offset: nat, names: seq<string>): seq<Player> {
    seq(count, i requires 0 <= i < count => FreshPlayer(i + offset, RosterName(names, i)))
  }

  function StartMatchState(settings: MatchSettings): GameState {
    var teams := [
      Team(settings.teamOneName, CreatePlayers(settings.playersPerTeam, 0, settings.teamOnePlayers)),
      Team(settings.teamTwoName, CreatePlayers(settings.playersPerTeam, settings.playersPerTeam, settings.teamTwoPlayers))
    ];
    InitialState.(status := Toss, settings := Some(settings), teams := teams)
  }

  /** The first two players of team t go in to bat. */
  function OpenBatting(teams: seq<Team>, t: nat): seq<Team>
    requires t < |teams| && |teams[t].players| >= 2
  {
    var ps := teams[t].players;
    teams[t := teams[t].(players := ps[0 := ps[0].(isBatting := true)][1 := ps[1].(isBatting := true)])]
  }

  function StartInnings(s: GameState, tossWinner: string, choseTo: Choice): Step {
    if s.settings.None? then Next(s)
    else
      var tossWinnerIsTeamOne := tossWinner == s.settings.value.teamOneName;
      var winnerChoseToBat := choseTo == Bat;
      var teamOneIsBatting := (tossWinnerIsTeamOne && winnerChoseToBat) || (!tossWinnerIsTeamOne && !winnerChoseToBat);
      var bt: TeamIndex := if teamOneIsBatting then 0 else 1;
      var bwt: TeamIndex := if teamOneIsBatting then 1 else 0;
      if bt >= |s.teams| then Crashed(MissingTeam)
      else if |s.teams[bt].players| < 2 then Crashed(MissingPlayer)
      else if bwt >= |s.teams| then Crashed(MissingTeam)
      else
        var ps := s.teams[bt].players;
        Next(s.(teams := OpenBatting(s.teams, bt),
                status := InProgress,
                battingTeamIndex := bt,
                bowlingTeamIndex := bwt,
                innings := InningsPair(InitialInnings(s.teams[bt].name, s.teams[bwt].name), None),
                strikerId := ps[0].id,
                nonStrikerId := ps[1].id,
                tossWinner := Some(tossWinner),
                choseTo := Some(choseTo)))
  }

  function SecondInnings(s: GameState): Step {
    var bt := s.bowlingTeamIndex;
    var bwt := s.battingTeamIndex;
    if bt >= |s.teams| then Crashed(MissingTeam)
    else if |s.teams[bt].players| < 2 then Crashed(MissingPlayer)
    else if bwt >= |s.teams| then Crashed(MissingTeam)
    else
      var ps := s.teams[bt].players;
      Next(s.(teams := OpenBatting(s.teams, bt),
              status := InProgress,
              currentInnings := 2,
              innings := InningsPair(s.innings.first, Some(InitialInnings(s.teams[bt].name, s.teams[bwt].name))),
              battingTeamIndex := bt,
              bowlingTeamIndex := bwt,
              strikerId := ps[0].id,
              nonStrikerId := ps[1].id,
              currentBowlerId := None,
              isFreeHit := false))
  }

  // ---------------------------------------------------------------- deliveries

  /** The canonical form of one ball before it gets its position in the innings. */
  datatype Delivery = Delivery(runs: int, isWicket: bool, isWide: bool, isNoBall: bool, extraRuns: int)

  predicate IsDelivery(a: Action) {
    a.AddRuns? || a.AddExtra? || a.AddWicket?
  }

  function Normalise(a: Action): Delivery
    requires IsDelivery(a)
  {
    Delivery(
      if a.AddWicket? then 0 else a.runs,
      a.AddWicket?,
      a.AddExtra? && a.kind == "wd",
      a.AddExtra? && a.kind == "nb",
      if a.AddExtra? then 1 + a.runs else 0)
  }

  predicate IsLegal(d: Delivery) {
    !d.isWide && !d.isNoBall
  }

  /** The timeline entry: the delivery fields and its position. Striker, bowler and shot are
      not recorded. */
  function RecordedBall(d: Delivery, ballNumber: nat, overNumber: nat): Ball {
    Ball(d.runs, d.isWicket, d.isWide, d.isNoBall, d.extraRuns, ballNumber, overNumber, None, None, None)
  }

  function CurrentInnings(s: GameState): Option<Innings> {
    if s.currentInnings == 1 then Some(s.innings.first) else s.innings.second
  }

  function WithCurrentInnings(p: InningsPair, n: InningsNumber, inn: Innings): InningsPair {
    if n == 1 then p.(first := inn) else p.(second := Some(inn))
  }

  /** `wickets >= playersPerTeam - 1`. */
  predicate AllOut(settings: MatchSettings, inn: Innings) {
    inn.wickets >= settings.playersPerTeam - 1
  }

  /** The guard clauses: a delivery is scored only in play, with a bowler chosen, settings
      present, and an innings under way that is not all out. */
  predicate DeliveryAccepted(s: GameState) {
    s.status == InProgress && s.currentBowlerId.Some? && s.settings.Some? &&
    CurrentInnings(s).Some? && !AllOut(s.settings.value, CurrentInnings(s).value)
  }

  /** `players.find(p => p.id === id)`, as an index. */
  function FindPlayer(ps: seq<Player>, id: int): (k: Option<nat>)
    ensures k.Some? ==> k.value < |ps| && ps[k.value].id == id
    ensures k.Some? ==> forall j :: 0 <= j < k.value ==> ps[j].id != id
    ensures k.None? ==> forall j :: 0 <= j < |ps| ==> ps[j].id != id
  {
    if ps == [] then None
    else if ps[0].id == id then Some(0)
    else match FindPlayer(ps[1..], id)
      case None => None
      case Some(k) => Some(k + 1)
  }

  predicate Available(p: Player) {
    !p.isOut && !p.isBatting
  }

  /** `players.find(p => !p.isOut && !p.isBatting)`, as an index. */
  function FindNextBatsman(ps: seq<Player>): (k: Option<nat>)
    ensures k.Some? ==> k.value < |ps| && Available(ps[k.value])
    ensures k.Some? ==> forall j :: 0 <= j < k.value ==> !Available(ps[j])
    ensures k.None? ==> forall j :: 0 <= j < |ps| ==> !Available(ps[j])
  {
    if ps == [] then None
    else if Available(ps[0]) then Some(0)
    else match FindNextBatsman(ps[1..])
      case None => None
      case Some(k) => Some(k + 1)
  }

  /** The teams with player k of team t replaced by p (an in-place write to that player). */
  function SetPlayer(teams: seq<Team>, t: nat, k: nat, p: Player): (r: seq<Team>)
    requires t < |teams| && k < |teams[t].players|
    ensures |r| == |teams|
    ensures forall u :: 0 <= u < |r| ==> r[u].name == teams[u].name && |r[u].players| == |teams[u].players|
    ensures r[t].players[k] == p
    ensures forall u, j :: 0 <= u < |r| && 0 <= j < |r[u].players| && (u != t || j != k) ==>
              r[u].players[j] == teams[u].players[j]
  {
    teams[t := teams[t].(players := teams[t].players[k := p])]
  }

  function ChargeBowler(p: Player, d: Delivery): Player {
    p.(runsConceded := p.runsConceded + d.runs + d.extraRuns,
       ballsBowled := p.ballsBowled + if IsLegal(d) then 1 else 0)
  }

  function CreditStriker(p: Player, d: Delivery): Player {
    p.(runs := p.runs + d.runs,
       balls := p.balls + (if IsLegal(d) then 1 else 0),
       fours := p.fours + (if d.runs == 4 then 1 else 0),
       sixes := p.sixes + (if d.runs == 6 then 1 else 0))
  }

  /** Step 1 on the players: the bowler is charged, then the striker credited. */
  function Ledger(teams: seq<Team>, bt: nat, bwt: nat, si: nat, bi: nat, d: Delivery): (r: seq<Team>)
    requires bt < |teams| && bwt < |teams| && si < |teams[bt].players| && bi < |teams[bwt].players|
    ensures |r| == |teams|
    ensures forall u :: 0 <= u < |r| ==> r[u].name == teams[u].name && |r[u].players| == |teams[u].players|
    ensures forall u, j :: 0 <= u < |r| && 0 <= j < |r[u].players| && (u != bwt || j != bi) && (u != bt || j != si) ==>
              r[u].players[j] == teams[u].players[j]
  {
    var teams1 := SetPlayer(teams, bwt, bi, ChargeBowler(teams[bwt].players[bi], d));
    SetPlayer(teams1, bt, si, CreditStriker(teams1[bt].players[si], d))
  }

  /** The dismissal: the bowler is credited, the striker is out, and the first player neither
      out nor batting comes in as the new striker (the old striker id stays when there is none). */
  function Dismissal(teams: seq<Team>, bt: nat, bwt: nat, si: nat, bi: nat, strikerId: int): (seq<Team>, int)
    requires bt < |teams| && bwt < |teams| && si < |teams[bt].players| && bi < |teams[bwt].players|
  {
    var bowler := teams[bwt].players[bi];
    var teamsA := SetPlayer(teams, bwt, bi, bowler.(wicketsTaken := bowler.wicketsTaken + 1));
    var striker := teamsA[bt].players[si];
    var teamsB := SetPlayer(teamsA, bt, si, striker.(isOut := true, isBatting := false));
    var next := FindNextBatsman(teamsB[bt].players);
    if next.None? then (teamsB, strikerId)
    else
      var p := teamsB[bt].players[next.value];
      (SetPlayer(teamsB, bt, next.value, p.(isBatting := true)), p.id)
  }

  /** Over progression: (completed overs, balls in over, did this ball finish the over). */
  function Advance(overs: nat, ballsInOver: nat, legal: bool): (nat, nat, bool) {
    if !legal then (overs, ballsInOver, false)
    else if ballsInOver + 1 == BALLS_PER_OVER then (overs + 1, 0, true)
    else (overs, ballsInOver + 1, false)
  }

  /** Strike rotation: swap on odd bat runs, then swap again at the end of an over. JavaScript's
      `runs % 2 !== 0` and Dafny's `runs % 2 != 0` agree on every integer. */
  function Rotate(striker: int, nonStriker: int, runs: int, overFinished: bool): (int, int) {
    var (a, b) := if runs % 2 != 0 then (nonStriker, striker) else (striker, nonStriker);
    if overFinished then (b, a) else (a, b)
  }

  /** A target of 0 is falsy in `nextTarget && ...`. */
  predicate Truthy(target: Option<int>) {
    target.Some? && target.value != 0
  }

  /** `nextTarget!` in arithmetic: a null target counts as 0. */
  function TargetValue(target: Option<int>): int {
    if target.Some? then target.value else 0
  }

  datatype Outcome = Outcome(status: GameStatus, target: Option<int>, winner: Option<string>, margin: Option<Margin>)

  const TieWinner: string := "Match Tied"

  /** End of innings and end of match, judged on the innings after this delivery. */
  function Evaluate(settings: MatchSettings, current: InningsNumber, inn: Innings,
                    battingName: string, bowlingName: string, before: Outcome): Outcome
  {
    var allOut := AllOut(settings, inn);
    var oversFinished := settings.overs > 0 && inn.overs >= settings.overs;
    if current == 1 && (allOut || oversFinished) then
      before.(status := InningsBreak, target := Some(inn.score + 1))
    else if current == 2 then
      if Truthy(before.target) && inn.score >= before.target.value then
        before.(status := Finished, winner := Some(battingName),
                margin := Some(ByWickets(settings.playersPerTeam - 1 - inn.wickets)))
      else if allOut || oversFinished then
        if Truthy(before.target) && inn.score == before.target.value - 1 then
          before.(status := Finished, winner := Some(TieWinner), margin := Some(Tied))
        else
          before.(status := Finished, winner := Some(bowlingName),
                  margin := Some(ByRuns(TargetValue(before.target) - inn.score)))
      else before
    else before
  }

  function EventOf(d: Delivery): LastEvent {
    if d.isWicket then WicketEvent
    else if d.runs == 6 then SixEvent
    else if d.runs == 4 then FourEvent
    else NoEvent
  }

  /** The scored delivery, once the guards passed and striker and bowler were found. */
  function Play(s: GameState, d: Delivery, si: nat, bi: nat): GameState
    requires DeliveryAccepted(s)
    requires s.battingTeamIndex < |s.teams| && s.bowlingTeamIndex < |s.teams|
    requires si < |s.teams[s.battingTeamIndex].players| && bi < |s.teams[s.bowlingTeamIndex].players|
  {
    var settings := s.settings.value;
    var inn := CurrentInnings(s).value;
    var bt, bwt := s.battingTeamIndex, s.bowlingTeamIndex;
    // 1. scores and player ledgers
    var teams2 := Ledger(s.teams, bt, bwt, si, bi, d);
    // 2. the wicket, suspended on a free hit
    var dismissal := d.isWicket && !s.isFreeHit;
    var (teams3, striker0) := if dismissal then Dismissal(teams2, bt, bwt, si, bi, s.strikerId) else (teams2, s.strikerId);
    // 3. the timeline entry
    var ball := RecordedBall(d, |inn.timeline| + 1, inn.overs + 1);
    // 4. over progression and free hit
    var (overs, ballsInOver, overFinished) := Advance(inn.overs, inn.ballsInOver, IsLegal(d));
    var freeHit := if d.isNoBall then true else if IsLegal(d) then false else s.isFreeHit;
    // 5. strike rotation
    var (striker, nonStriker) := Rotate(striker0, s.nonStrikerId, d.runs, overFinished);
    var inn' := Innings(inn.score + d.runs + d.extraRuns, inn.wickets + (if dismissal then 1 else 0),
                        overs, ballsInOver, inn.timeline + [ball], inn.battingTeam, inn.bowlingTeam);
    // 6. end of innings / match
    var out := Evaluate(settings, s.currentInnings, inn', teams3[bt].name, teams3[bwt].name,
                        Outcome(s.status, s.target, s.winner, s.winMargin));
    s.(status := out.status,
       teams := teams3,
       innings := WithCurrentInnings(s.innings, s.currentInnings, inn'),
       strikerId := striker,
       nonStrikerId := nonStriker,
       isFreeHit := freeHit,
       target := out.target,
       winner := out.winner,
       winMargin := out.margin,
       lastEvent := EventOf(d))
  }

  /** The delivery branch (ADD_RUNS, ADD_EXTRA, ADD_WICKET). */
  function Deliver(s: GameState, a: Action): Step
    requires IsDelivery(a)
  {
    if !DeliveryAccepted(s) then Next(s)
    else if s.battingTeamIndex >= |s.teams| || s.bowlingTeamIndex >= |s.teams| then Crashed(MissingTeam)
    else
      var si := FindPlayer(s.teams[s.battingTeamIndex].players, s.strikerId);
      var bi := FindPlayer(s.teams[s.bowlingTeamIndex].players, s.currentBowlerId.value);
      if bi.None? then Crashed(MissingBowler)
      else if si.None? then Crashed(MissingStriker)
      else Next(Play(s, Normalise(a), si.value, bi.value))
  }

  function GameReducer(s: GameState, a: Action): Step {
    match a
    case StartMatch(settings) => Next(StartMatchState(settings))
    case StartInningsAfterToss(tossWinner, choseTo) => StartInnings(s, tossWinner, choseTo)
    case SetBowler(id) => Next(s.(currentBowlerId := Some(id)))
    case ClearLastEvent => Next(s.(lastEvent := NoEvent))
    case AddRuns(_) => Deliver(s, a)
    case AddExtra(_, _) => Deliver(s, a)
    case AddWicket => Deliver(s, a)
    case StartSecondInnings => SecondInnings(s)
    case NewGame => Next(InitialState)
    case Unknown(_) => Next(s)
  }

  /** A sequence of actions dispatched one after another; a thrown error ends the run. */
  function Run(s: GameState, actions: seq<Action>): Step
    decreases |actions|
  {
    if actions == [] then Next(s)
    else match GameReducer(s, actions[0])
      case Next(s') => Run(s', actions[1..])
      case Crashed(f) => Crashed(f)
  }

  // ---------------------------------------------------------------- the branch as written

  /** Step 1 as written: the bowler's and then the striker's counters are bumped in place.
      The striker is read after the bowler was written back, so a striker who is also the
      bowler keeps both updates. */
  method ScorePlayers(teams: seq<Team>, bt: nat, bwt: nat, k: nat, b: nat, d: Delivery)
    returns (r: seq<Team>, lastEvent: LastEvent)
    requires bt < |teams| && bwt < |teams| && k < |teams[bt].players| && b < |teams[bwt].players|
    ensures r == Ledger(teams, bt, bwt, k, b, d)
    ensures lastEvent == if d.runs == 6 then SixEvent else if d.runs == 4 then FourEvent else NoEvent
  {
    var isLegal := !d.isWide && !d.isNoBall;
    lastEvent := NoEvent;
    var bowler := teams[bwt].players[b];
    bowler := bowler.(runsConceded := bowler.runsConceded + d.runs + d.extraRuns);
    if isLegal {
      bowler := bowler.(ballsBowled := bowler.ballsBowled + 1);
    }
    assert bowler == ChargeBowler(teams[bwt].players[b], d);
    r := SetPlayer(teams, bwt, b, bowler);
    ghost var teams1 := r;
    var striker := r[bt].players[k];
    striker := striker.(runs := striker.runs + d.runs);
    if isLegal {
      striker := striker.(balls := striker.balls + 1);
    }
    if d.runs == 4 {
      striker := striker.(fours := striker.fours + 1);
      lastEvent := FourEvent;
    }
    if d.runs == 6 {
      striker := striker.(sixes := striker.sixes + 1);
      lastEvent := SixEvent;
    }
    assert striker == CreditStriker(teams1[bt].players[k], d);
    r := SetPlayer(r, bt, k, striker);
  }

  /** Step 2 as written, for a wicket off a ball that is not a free hit. */
  method DismissStriker(teams: seq<Team>, bt: nat, bwt: nat, k: nat, b: nat, strikerId: int)
    returns (r: seq<Team>, nextStriker: int)
    requires bt < |teams| && bwt < |teams| && k < |teams[bt].players| && b < |teams[bwt].players|
    ensures (r, nextStriker) == Dismissal(teams, bt, bwt, k, b, strikerId)
  {
    nextStriker := strikerId;
    var bowler := teams[bwt].players[b];
    r := SetPlayer(teams, bwt, b, bowler.(wicketsTaken := bowler.wicketsTaken + 1));
    var striker := r[bt].players[k];
    r := SetPlayer(r, bt, k, striker.(isOut := true, isBatting := false));
    var nextBatsman := FindNextBatsman(r[bt].players);
    if nextBatsman.Some? {
      var n := nextBatsman.value;
      var incoming := r[bt].players[n];
      r := SetPlayer(r, bt, n, incoming.(isBatting := true));
      nextStriker := incoming.id;
    }
  }

  /** Step 4 as written: a legal ball advances the over and consumes a free hit; a no-ball
      grants one. */
  method ProgressOver(inn: Innings, d: Delivery, freeHit: bool)
    returns (r: Innings, nextFreeHit: bool, isOverFinished: bool)
    ensures (r.overs, r.ballsInOver, isOverFinished) == Advance(inn.overs, inn.ballsInOver, IsLegal(d))
    ensures r == inn.(overs := r.overs, ballsInOver := r.ballsInOver)
    ensures nextFreeHit == if d.isNoBall then true else if IsLegal(d) then false else freeHit
  {
    r, nextFreeHit, isOverFinished := inn, freeHit, false;
    if !d.isWide && !d.isNoBall {
      r := r.(ballsInOver := r.ballsInOver + 1);
      nextFreeHit := false;
      if r.ballsInOver == BALLS_PER_OVER {
        isOverFinished := true;
        r := r.(overs := r.overs + 1, ballsInOver := 0);
      }
    }
    if d.isNoBall {
      nextFreeHit := true;
    }
  }

  /** Step 6 as written: the `next*` result variables after the end-of-innings checks. */
  method JudgeOutcome(settings: MatchSettings, current: InningsNumber, inn: Innings,
                      battingName: string, bowlingName: string, before: Outcome)
    returns (out: Outcome)
    ensures out == Evaluate(settings, current, inn, battingName, bowlingName, before)
  {
    var nextStatus, nextTarget, nextWinner, nextMargin := before.status, before.target, before.winner, before.margin;
    var allOut := inn.wickets >= settings.playersPerTeam - 1;
    var oversFinished := settings.overs > 0 && inn.overs >= settings.overs;
    if current == 1 && (allOut || oversFinished) {
      nextStatus := InningsBreak;
      nextTarget := Some(inn.score + 1);
    } else if current == 2 {
      if Truthy(nextTarget) && inn.score >= nextTarget.value {
        nextStatus := Finished;
        nextWinner := Some(battingName);
        nextMargin := Some(ByWickets(settings.playersPerTeam - 1 - inn.wickets));
      } else if allOut || oversFinished {
        nextStatus := Finished;
        if Truthy(nextTarget) && inn.score == nextTarget.value - 1 {
          nextWinner := Some(TieWinner);
          nextMargin := Some(Tied);
        } else {
          nextWinner := Some(bowlingName);
          nextMargin := Some(ByRuns(TargetValue(nextTarget) - inn.score));
        }
      }
    }
    out := Outcome(nextStatus, nextTarget, nextWinner, nextMargin);
  }

  /** The delivery branch as the source runs it on its deep copies: the guard clauses and the
      lookups that throw, then the numbered steps. */
  method ApplyDelivery(state: GameState, action: Action) returns (r: Step)
    requires IsDelivery(action)
    ensures r == Deliver(state, action)
  {
    if state.status != InProgress || state.currentBowlerId.None? || state.settings.None? {
      return Next(state);
    }
    var settings := state.settings.value;
    var inningsData := CurrentInnings(state);
    if inningsData.None? || inningsData.value.wickets >= settings.playersPerTeam - 1 {
      return Next(state);
    }
    var teams := state.teams;
    var bt, bwt := state.battingTeamIndex, state.bowlingTeamIndex;
    if bt >= |teams| || bwt >= |teams| {
      return Crashed(MissingTeam);
    }
    var strikerAt := FindPlayer(teams[bt].players, state.strikerId);
    var bowlerAt := FindPlayer(teams[bwt].players, state.currentBowlerId.value);
    if bowlerAt.None? {
      return Crashed(MissingBowler);
    }
    if strikerAt.None? {
      return Crashed(MissingStriker);
    }
    var next := PlayBall(state, Normalise(action), strikerAt.value, bowlerAt.value);
    r := Next(next);
  }

  /** Steps 1 to 6 of the delivery branch on the working innings, teams and `next*` variables,
      once the striker (at index `k`) and the bowler (at index `b`) have been found. */
  method PlayBall(state: GameState, d: Delivery, k: nat, b: nat) returns (next: GameState)
    requires DeliveryAccepted(state)
    requires state.battingTeamIndex < |state.teams| && state.bowlingTeamIndex < |state.teams|
    requires k < |state.teams[state.battingTeamIndex].players| && b < |state.teams[state.bowlingTeamIndex].players|
    ensures next == Play(state, d, k, b)
  {
    var settings := state.settings.value;
    var inn := CurrentInnings(state).value;
    var teams := state.teams;
    var bt, bwt := state.battingTeamIndex, state.bowlingTeamIndex;
    var nextStriker, nextNonStriker := state.strikerId, state.nonStrikerId;
    var nextFreeHit := state.isFreeHit;
    var nextLastEvent := NoEvent;

    // 1. scores and basic stats
    inn := inn.(score := inn.score + d.runs + d.extraRuns);
    teams, nextLastEvent := ScorePlayers(teams, bt, bwt, k, b, d);

    // 2. the wicket
    if d.isWicket {
      nextLastEvent := WicketEvent;
      if !state.isFreeHit {
        inn := inn.(wickets := inn.wickets + 1);
        teams, nextStriker := DismissStriker(teams, bt, bwt, k, b, state.strikerId);
      }
    }

    // 3. the timeline
    var ball := RecordedBall(d, |inn.timeline| + 1, inn.overs + 1);
    inn := inn.(timeline := inn.timeline + [ball]);

    // 4. over progression and free hit
    var isOverFinished;
    inn, nextFreeHit, isOverFinished := ProgressOver(inn, d, nextFreeHit);

    // 5. strike rotation
    if d.runs % 2 != 0 {
      nextStriker, nextNonStriker := nextNonStriker, nextStriker;
    }
    if isOverFinished {
      nextStriker, nextNonStriker := nextNonStriker, nextStriker;
    }

    // 6. end of innings / end of match
    var out := JudgeOutcome(settings, state.currentInnings, inn, teams[bt].name, teams[bwt].name,
                            Outcome(state.status, state.target, state.winner, state.winMargin));
    next := state.(status := out.status,
                   teams := teams,
                   innings := WithCurrentInnings(state.innings, state.currentInnings, inn),
                   strikerId := nextStriker,
                   nonStrikerId := nextNonStriker,
                   isFreeHit := nextFreeHit,
                   target := out.target,
                   winner := out.winner,
                   winMargin := out.margin,
                   lastEvent := nextLastEvent);
  }
}
