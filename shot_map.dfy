/** The shot map of ShotMap.tsx: one dot per shot at the point of its direction on the
    200 by 300 field, in the shot's run colour. The random offset each dot is drawn with is a
    presentation jitter and is not modelled. */
module ShotMap {
  import opened Types
  import opened Shots
  import WagonWheel

  /** Where a shot to each region lands on the oval field. */
  const SHOT_COORDINATES: map<string, (int, int)> := map[
    "Point" := (40, 100),
    "Cover" := (55, 60),
    "Long Off" := (80, 35),
    "Straight" := (100, 20),
    "Long On" := (120, 35),
    "Mid-Wicket" := (145, 60),
    "Square Leg" := (160, 100),
    "Fine Leg" := (175, 150)]

  datatype Dot = Dot(x: int, y: int, color: string)

  /** One dot per shot, in shot order, before the jitter. */
  function Dots(player: Player, innings: InningsPair): (r: seq<Dot>)
    ensures |r| == |PlayerShots(innings, player.id, SHOT_COORDINATES.Keys)|
    ensures forall i :: 0 <= i < |r| ==>
              var b := PlayerShots(innings, player.id, SHOT_COORDINATES.Keys)[i];
              (r[i].x, r[i].y) == SHOT_COORDINATES[b.shotDirection.value] && r[i].color == RunColor(b.runs)
  {
    var shots := PlayerShots(innings, player.id, SHOT_COORDINATES.Keys);
    seq(|shots|, i requires 0 <= i < |shots| =>
      var (x, y) := SHOT_COORDINATES[shots[i].shotDirection.value];
      Dot(x, y, RunColor(shots[i].runs)))
  }

  /** The table has an entry for each of the eight regions and no other, and sends no two
      regions to the same point. */
  lemma CoordinatesCoverDirections(d: string, e: string)
    ensures d in SHOT_COORDINATES <==> d in ShotDirections
    ensures d in SHOT_COORDINATES && e in SHOT_COORDINATES && d != e ==> SHOT_COORDINATES[d] != SHOT_COORDINATES[e]
  {
  }

  /** The two charts filter against the same eight keys, so they draw the same shots in the
      same order. */
  lemma ChartsDrawTheSameShots(innings: InningsPair, playerId: int)
    ensures PlayerShots(innings, playerId, SHOT_COORDINATES.Keys) == PlayerShots(innings, playerId, WagonWheel.SHOT_COORDINATES.Keys)
  {
    assert SHOT_COORDINATES.Keys == WagonWheel.SHOT_COORDINATES.Keys;
  }
}
