/** The two-step match setup form of SetupScreen.tsx: step one sets the team names, the
    overs and the side size; moving on fixes the side size within 2..11 and opens one blank
    name field per player; step two edits the names; submitting fills in the blanks. */
module SetupScreen {
  import opened Types
  import opened Text
  import opened Reducer

  /** The form's starting values: five overs, two players a side, "Team A" and "Team B", and
      no names yet. */
  const DefaultSettings: MatchSettings := MatchSettings(5, 2, "Team A", "Team B", [], [])

  const MinPlayers: nat := 2
  const MaxPlayers: nat := 11

  /** `Math.max(2, Math.min(11, n))`. */
  function ClampPlayers(n: int): (r: nat)
    ensures MinPlayers <= r <= MaxPlayers
    ensures MinPlayers <= n <= MaxPlayers ==> r == n
    ensures forall k :: MinPlayers <= k <= MaxPlayers ==> Distance(r, n) <= Distance(k, n)
  {
    if n < MinPlayers then MinPlayers else if n > MaxPlayers then MaxPlayers else n
  }

  function Distance(a: int, b: int): nat {
    if a >= b then a - b else b - a
  }

  /** `Array(n).fill('')`. */
  function Blank(n: nat): (r: seq<string>)
    ensures |r| == n && forall i :: 0 <= i < n ==> r[i] == ""
  {
    seq(n, i => "")
  }

  /** What the Next button does to the settings on step one: the side size is clamped and
      both name lists become that many blank names. */
  function NextSettings(st: MatchSettings): (r: MatchSettings)
    ensures MinPlayers <= r.playersPerTeam <= MaxPlayers
    ensures |r.teamOnePlayers| == |r.teamTwoPlayers| == r.playersPerTeam
    ensures forall i :: 0 <= i < r.playersPerTeam ==> r.teamOnePlayers[i] == "" && r.teamTwoPlayers[i] == ""
    ensures r.(playersPerTeam := st.playersPerTeam, teamOnePlayers := st.teamOnePlayers, teamTwoPlayers := st.teamTwoPlayers) == st
  {
    var n := ClampPlayers(st.playersPerTeam);
    st.(playersPerTeam := n, teamOnePlayers := Blank(n), teamTwoPlayers := Blank(n))
  }

  /** `names.map((name, i) => name || "Player {i+1}")`: the same entries as the reducer's
      roster naming, so an empty name becomes the positional label and any other is kept. */
  function DefaultNames(names: seq<string>): (r: seq<string>)
    ensures |r| == |names|
    ensures forall i :: 0 <= i < |names| ==> r[i] == RosterName(names, i)
    ensures forall i :: 0 <= i < |names| && names[i] != "" ==> r[i] == names[i]
    ensures forall i :: 0 <= i < |names| ==> r[i] != ""
  {
    seq(|names|, i requires 0 <= i < |names| => if names[i] != "" then names[i] else PlayerLabel(i))
  }

  /** The settings handed to the match on submit. */
  function FinalSettings(st: MatchSettings): (r: MatchSettings)
    ensures r.(teamOnePlayers := st.teamOnePlayers, teamTwoPlayers := st.teamTwoPlayers) == st
    ensures r.teamOnePlayers == DefaultNames(st.teamOnePlayers) && r.teamTwoPlayers == DefaultNames(st.teamTwoPlayers)
  {
    st.(teamOnePlayers := DefaultNames(st.teamOnePlayers), teamTwoPlayers := DefaultNames(st.teamTwoPlayers))
  }

  /** Filling in the blanks twice changes nothing more, and the reducer, which applies the
      same defaulting again, names every player as the form did. */
  lemma DefaultNamesIdempotent(names: seq<string>, i: nat)
    ensures DefaultNames(DefaultNames(names)) == DefaultNames(names)
    ensures i < |names| ==> RosterName(DefaultNames(names), i) == RosterName(names, i)
  {
  }

  /** Going straight through the form, typing no names, starts a match whose players are
      called "Player 1", "Player 2", ... on both sides, as many as the clamped side size. */
  lemma UntouchedFormNamesPlayersByPosition(st: MatchSettings, i: nat)
    requires i < NextSettings(st).playersPerTeam
    ensures var f := FinalSettings(NextSettings(st));
            |f.teamOnePlayers| == |f.teamTwoPlayers| == f.playersPerTeam &&
            f.teamOnePlayers[i] == PlayerLabel(i) && f.teamTwoPlayers[i] == PlayerLabel(i)
  {
  }

  datatype Side = TeamOne | TeamTwo

  function NamesOf(st: MatchSettings, side: Side): seq<string> {
    match side
    case TeamOne => st.teamOnePlayers
    case TeamTwo => st.teamTwoPlayers
  }

  /** The form: the step it is on and the settings entered so far. */
  class SetupForm {
    var step: nat
    var settings: MatchSettings

    constructor()
      ensures step == 1 && settings == DefaultSettings
    {
      step := 1;
      settings := DefaultSettings;
    }

    /** `handleInputChange` for the overs selector. */
    method ChangeOvers(overs: nat)
      modifies this
      ensures settings == old(settings).(overs := overs) && step == old(step)
    {
      settings := settings.(overs := overs);
    }

    /** `handleInputChange` for the side size; it is only clamped when moving on. */
    method ChangePlayersPerTeam(n: nat)
      modifies this
      ensures settings == old(settings).(playersPerTeam := n) && step == old(step)
    {
      settings := settings.(playersPerTeam := n);
    }

    /** `handleInputChange` for either team name. */
    method ChangeTeamName(side: Side, name: string)
      modifies this
      ensures side == TeamOne ==> settings == old(settings).(teamOneName := name)
      ensures side == TeamTwo ==> settings == old(settings).(teamTwoName := name)
      ensures step == old(step)
    {
      if side == TeamOne {
        settings := settings.(teamOneName := name);
      } else {
        settings := settings.(teamTwoName := name);
      }
    }

    /** `handleNext`: on step one the settings are normalised; the step always advances. */
    method HandleNext()
      modifies this
      ensures old(step) == 1 ==> settings == NextSettings(old(settings))
      ensures old(step) != 1 ==> settings == old(settings)
      ensures step == old(step) + 1
    {
      if step == 1 {
        settings := NextSettings(settings);
      }
      step := step + 1;
    }

    /** The Back button. */
    method Back()
      modifies this
      ensures step == 1 && settings == old(settings)
    {
      step := 1;
    }

    /** `handlePlayerNameChange`: copies the chosen side's names, overwrites entry `index` and
      stores the copy; the other side and the other entries stay as they were. */
    method ChangePlayerName(side: Side, index: nat, name: string)
      requires index < |NamesOf(settings, side)|
      modifies this
      ensures NamesOf(settings, side) == NamesOf(old(settings), side)[index := name]
      ensures side == TeamOne ==> settings.(teamOnePlayers := old(settings).teamOnePlayers) == old(settings)
      ensures side == TeamTwo ==> settings.(teamTwoPlayers := old(settings).teamTwoPlayers) == old(settings)
      ensures step == old(step)
    {
      var names := NamesOf(settings, side);
      var copy := new string[|names|](i requires 0 <= i < |names| => names[i]);
      copy[index] := name;
      assert copy[..] == names[index := name];
      if side == TeamOne {
        settings := settings.(teamOnePlayers := copy[..]);
      } else {
        settings := settings.(teamTwoPlayers := copy[..]);
      }
    }

    /** `handleSubmit`: the settings with the blank names filled in; the form is unchanged. */
    method HandleSubmit() returns (final: MatchSettings)
      ensures final == FinalSettings(settings)
    {
      final := settings.(teamOnePlayers := DefaultNames(settings.teamOnePlayers),
                         teamTwoPlayers := DefaultNames(settings.teamTwoPlayers));
    }
  }
}
