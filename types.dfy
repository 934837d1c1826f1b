/** The match data of types.ts: players, teams, deliveries, innings, settings and the whole
    game state, as immutable values. */
module Types {

  datatype Option<+T> = None | Some(value: T)

  /** The eight fielding regions a shot can be tagged with. */
  const ShotDirections: seq<string> :=
    ["Fine Leg", "Square Leg", "Mid-Wicket", "Long On", "Straight", "Long Off", "Cover", "Point"]

  /** One player's batting and bowling counters. Run counts are `int` because the scorer
      accepts whatever run count it is given. */
  datatype Player = Player(
    id: int,
    name: string,
    runs: int,
    balls: nat,
    fours: nat,
    sixes: nat,
    isOut: bool,
    isBatting: bool,
    wicketsTaken: nat,
    runsConceded: int,
    ballsBowled: nat)

  /** A team: its name and its players in batting order. */
  datatype Team = Team(name: string, players: seq<Player>)

  /** One recorded delivery. The striker, bowler and shot tag are declared by the type but the
      reducer never fills them in, so they are optional here. */
  datatype Ball = Ball(
    runs: int,
    isWicket: bool,
    isWide: bool,
    isNoBall: bool,
    extraRuns: int,
    ballNumber: nat,
    overNumber: nat,
    shotDirection: Option<string>,
    batsmanId: Option<int>,
    bowlerId: Option<int>)

  /** An innings. `overs` counts completed overs and `ballsInOver` the legal balls of the
      current over; the source keeps both in one number `overs + ballsInOver / 10`. */
  datatype Innings = Innings(
    score: int,
    wickets: nat,
    overs: nat,
    ballsInOver: nat,
    timeline: seq<Ball>,
    battingTeam: string,
    bowlingTeam: string)

  /** The match configuration; an overs limit of 0 means the innings is not limited by overs. */
  datatype MatchSettings = MatchSettings(
    overs: nat,
    playersPerTeam: nat,
    teamOneName: string,
    teamTwoName: string,
    teamOnePlayers: seq<string>,
    teamTwoPlayers: seq<string>)

  predicate UnlimitedOvers(settings: MatchSettings) {
    settings.overs == 0
  }

  /** The five phases of a match, in the order of the enumeration. */
  datatype GameStatus = Setup | Toss | InProgress | InningsBreak | Finished {
    /** The numeric value the enumeration gives each member. */
    function Ordinal(): (n: nat)
      ensures n < 5
    {
      match this
      case Setup => 0
      case Toss => 1
      case InProgress => 2
      case InningsBreak => 3
      case Finished => 4
    }
  }

  function StatusOf(n: nat): (s: GameStatus)
    requires n < 5
    ensures s.Ordinal() == n
  {
    if n == 0 then Setup
    else if n == 1 then Toss
    else if n == 2 then InProgress
    else if n == 3 then InningsBreak
    else Finished
  }

  /** The enumeration has exactly five members, numbered 0 to 4 in declaration order. */
  lemma StatusOrdinalIsBijective(s: GameStatus, t: GameStatus)
    ensures StatusOf(s.Ordinal()) == s
    ensures s.Ordinal() == t.Ordinal() ==> s == t
  {
  }

  type InningsNumber = n: nat | 1 <= n <= 2 witness 1

  type TeamIndex = i: nat | i <= 1

  /** The two innings slots: the first always exists, the second only once it has started. */
  datatype InningsPair = InningsPair(first: Innings, second: Option<Innings>)

  datatype Choice = Bat | Bowl

  /** The presentation tag of the last delivery. */
  datatype LastEvent = NoEvent | FourEvent | SixEvent | WicketEvent | WideEvent | NoBallEvent

  /** The result margin; the source renders it as "by N wickets", "by N runs" or "". */
  datatype Margin = ByWickets(wickets: int) | ByRuns(runs: int) | Tied

  datatype GameState = GameState(
    status: GameStatus,
    settings: Option<MatchSettings>,
    teams: seq<Team>,
    currentInnings: InningsNumber,
    innings: InningsPair,
    battingTeamIndex: TeamIndex,
    bowlingTeamIndex: TeamIndex,
    strikerId: int,
    nonStrikerId: int,
    currentBowlerId: Option<int>,
    isFreeHit: bool,
    target: Option<int>,
    winner: Option<string>,
    winMargin: Option<Margin>,
    tossWinner: Option<string>,
    choseTo: Option<Choice>,
    lastEvent: LastEvent)

  /** Every ball of both innings, the first innings first; a second innings that has not
      started contributes nothing. */
  function AllBalls(innings: InningsPair): (balls: seq<Ball>)
    ensures innings.second.None? ==> balls == innings.first.timeline
    ensures innings.second.Some? ==> balls == innings.first.timeline + innings.second.value.timeline
  {
    innings.first.timeline + (if innings.second.Some? then innings.second.value.timeline else [])
  }
}
