/** What WagonWheel.tsx and ShotMap.tsx share: the balls a player scored from with a tagged
    shot direction, over both innings, and the colour a shot is drawn in. Each chart filters
    against the keys of its own coordinate table. */
module Shots {
  import opened Types
  import opened Sequences
  import opened MatchInvariant

  /** A ball the chart draws for player `playerId`: it scored, carries a non-empty direction
      that is one of the chart's `keys`, and was faced by that player. */
  predicate IsShotOf(b: Ball, playerId: int, keys: set<string>) {
    b.runs > 0 && b.shotDirection.Some? && b.shotDirection.value != "" &&
    b.batsmanId == Some(playerId) &&
    b.shotDirection.value in keys
  }

  function ShotFilter(playerId: int, keys: set<string>): Ball -> bool {
    (b: Ball) => IsShotOf(b, playerId, keys)
  }

  /** `innings.flatMap(inn => inn?.timeline || []).filter(...)`. */
  function PlayerShots(innings: InningsPair, playerId: int, keys: set<string>): (r: seq<Ball>)
    ensures forall i :: 0 <= i < |r| ==> IsShotOf(r[i], playerId, keys)
  {
    var r := Filter(AllBalls(innings), ShotFilter(playerId, keys));
    assert forall i :: 0 <= i < |r| ==> r[i] in r;
    r
  }

  /** The shots are exactly the balls of either innings that pass the filter. */
  lemma PlayerShotsMembers(innings: InningsPair, playerId: int, keys: set<string>, b: Ball)
    ensures b in PlayerShots(innings, playerId, keys) <==> b in AllBalls(innings) && IsShotOf(b, playerId, keys)
  {
    var all := AllBalls(innings);
    if b in all && IsShotOf(b, playerId, keys) {
      var i :| 0 <= i < |all| && all[i] == b;
      assert ShotFilter(playerId, keys)(all[i]);
    }
  }

  /** The shots of the first innings come first, then those of the second, each in timeline
      order; a second innings that has not started adds none. */
  lemma PlayerShotsInOrder(innings: InningsPair, playerId: int, keys: set<string>)
    ensures Subsequence(PlayerShots(innings, playerId, keys), AllBalls(innings))
    ensures innings.second.None? ==>
              PlayerShots(innings, playerId, keys) == Filter(innings.first.timeline, ShotFilter(playerId, keys))
    ensures innings.second.Some? ==>
              PlayerShots(innings, playerId, keys) ==
              Filter(innings.first.timeline, ShotFilter(playerId, keys)) + Filter(innings.second.value.timeline, ShotFilter(playerId, keys))
  {
    FilterKeepsOrder(AllBalls(innings), ShotFilter(playerId, keys));
    if innings.second.Some? {
      FilterConcat(innings.first.timeline, innings.second.value.timeline, ShotFilter(playerId, keys));
    }
  }

  /** The reducer records no batsman and no direction, so in every consistent state the charts
      draw nothing. */
  lemma ReducerStatesHaveNoShots(s: GameState, playerId: int, keys: set<string>)
    requires StateConsistent(s)
    ensures PlayerShots(s.innings, playerId, keys) == []
  {
    var t := AllBalls(s.innings);
    forall i | 0 <= i < |t|
      ensures !ShotFilter(playerId, keys)(t[i])
    {
      if i >= |s.innings.first.timeline| {
        assert t[i] == s.innings.second.value.timeline[i - |s.innings.first.timeline|];
      }
    }
    FilterNone(t, ShotFilter(playerId, keys));
  }

  /** The colour of a shot worth one, two, three, four or six runs. */
  const RUN_COLORS: map<int, string> :=
    map[1 := "#9ca3af", 2 := "#6b7280", 3 := "#93c5fd", 4 := "#3b82f6", 6 := "#a855f7"]

  const DefaultColor: string := "#d1d5db"

  /** `RUN_COLORS[runs] || '#d1d5db'`. */
  function RunColor(runs: int): string {
    if runs in RUN_COLORS && RUN_COLORS[runs] != "" then RUN_COLORS[runs] else DefaultColor
  }

  /** The default colour is drawn exactly for run counts without an entry, and the five
      entries are told apart. */
  lemma RunColorDefault(runs: int, other: int)
    ensures RunColor(runs) == DefaultColor <==> runs !in {1, 2, 3, 4, 6}
    ensures runs in RUN_COLORS && other in RUN_COLORS && runs != other ==> RunColor(runs) != RunColor(other)
  {
  }
}
