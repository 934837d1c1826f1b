/** The wagon wheel of WagonWheel.tsx: one line from the middle of the field to the point of
    each shot's direction, in the shot's run colour. */
module WagonWheel {
  import opened Types
  import opened Shots

  /** Where a shot to each region ends on the 200 by 200 field. */
  const SHOT_COORDINATES: map<string, (int, int)> := map[
    "Point" := (50, 50),
    "Cover" := (100, 25),
    "Long Off" := (150, 50),
    "Straight" := (175, 100),
    "Long On" := (150, 150),
    "Mid-Wicket" := (100, 175),
    "Square Leg" := (50, 150),
    "Fine Leg" := (25, 100)]

  datatype Line = Line(x: int, y: int, color: string)

  /** One line per shot, in shot order. */
  function Lines(player: Player, innings: InningsPair): (r: seq<Line>)
    ensures |r| == |PlayerShots(innings, player.id, SHOT_COORDINATES.Keys)|
    ensures forall i :: 0 <= i < |r| ==>
              var b := PlayerShots(innings, player.id, SHOT_COORDINATES.Keys)[i];
              (r[i].x, r[i].y) == SHOT_COORDINATES[b.shotDirection.value] && r[i].color == RunColor(b.runs)
  {
    var shots := PlayerShots(innings, player.id, SHOT_COORDINATES.Keys);
    seq(|shots|, i requires 0 <= i < |shots| =>
      var (x, y) := SHOT_COORDINATES[shots[i].shotDirection.value];
      Line(x, y, RunColor(shots[i].runs)))
  }

  /** The table has an entry for each of the eight regions and no other, and sends no two
      regions to the same point. */
  lemma CoordinatesCoverDirections(d: string, e: string)
    ensures d in SHOT_COORDINATES <==> d in ShotDirections
    ensures d in SHOT_COORDINATES && e in SHOT_COORDINATES && d != e ==> SHOT_COORDINATES[d] != SHOT_COORDINATES[e]
  {
  }
}
