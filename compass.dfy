/** Movement direction between two consecutive samples of a storm track.
    Angles are degrees counter-clockwise from due east, as atan2(dLat, dLng)
    converted to degrees yields them. The atan2 computation itself is not
    modelled: it is passed in as `angleOf`. */
module Compass {

  datatype Direction =
    | East | Northeast | North | Northwest | West | Southwest | South | Southeast
    | Unknown

  /** Below this absolute change of longitude a step is taken as due north or due south. */
  const VerticalEpsilon: real := 0.001

  /** The eight compass points in counter-clockwise order, starting at east. */
  const CounterClockwise: seq<Direction> :=
    [East, Northeast, North, Northwest, West, Southwest, South, Southeast]

  function Abs(x: real): real {
    if x < 0.0 then -x else x
  }

  /** The centre of a compass point's sector. */
  function Centre(d: Direction): real
    requires d != Unknown
  {
    match d
    case East => 0.0
    case Northeast => 45.0
    case North => 90.0
    case Northwest => 135.0
    case West => 180.0
    case Southwest => -135.0
    case South => -90.0
    case Southeast => -45.0
  }

  /** An angle brought back into (-180, 180] after adding to it. */
  function Wrap(angle: real): real {
    if angle > 180.0 then angle - 360.0 else angle
  }

  /** The documented sector of `d`: 45 degrees wide around its centre, lower edge
      inclusive, upper edge exclusive; West's sector wraps across +-180. */
  predicate InWindow(d: Direction, angle: real) {
    match d
    case Unknown => false
    case West => angle >= Centre(West) - 22.5 || angle < Wrap(Centre(West) + 22.5)
    case _ => Centre(d) - 22.5 <= angle < Centre(d) + 22.5
  }

  /** The interval chain that buckets an angle into a sector. Its last branch
      is never taken: the eight tests between them cover every real. */
  function Sector(angle: real): (d: Direction)
    ensures d != Unknown
    ensures d in CounterClockwise
  {
    if -22.5 <= angle < 22.5 then East
    else if 22.5 <= angle < 67.5 then Northeast
    else if 67.5 <= angle < 112.5 then North
    else if 112.5 <= angle < 157.5 then Northwest
    else if angle >= 157.5 || angle < -157.5 then West
    else if -157.5 <= angle < -112.5 then Southwest
    else if -112.5 <= angle < -67.5 then South
    else if -67.5 <= angle < -22.5 then Southeast
    else Unknown
  }

  /** Direction of the step from (lat1, lng1) to (lat2, lng2). A near-vertical
      step is decided by the sign of the latitude change alone (no change at
      all counts as South); otherwise the angle `angleOf(dLat, dLng)` is bucketed. */
  function CalculateDirection(angleOf: (real, real) -> real,
                              lat1: real, lng1: real, lat2: real, lng2: real): (d: Direction)
    ensures d != Unknown
    ensures Abs(lng2 - lng1) < VerticalEpsilon ==>
              (d == North <==> lat2 - lat1 > 0.0) && (d == South <==> lat2 - lat1 <= 0.0)
    ensures Abs(lng2 - lng1) >= VerticalEpsilon ==>
              InWindow(d, angleOf(lat2 - lat1, lng2 - lng1))
  {
    var dLat := lat2 - lat1;
    var dLng := lng2 - lng1;
    if Abs(dLng) < VerticalEpsilon then
      (if dLat > 0.0 then North else South)
    else
      var angle := angleOf(dLat, dLng);
      SectorInWindow(angle);
      Sector(angle)
  }

  /** The chain picks the sector whose documented window holds the angle. */
  lemma SectorInWindow(angle: real)
    ensures InWindow(Sector(angle), angle)
  {
  }

  /** Every angle lies in exactly one window, and that window's direction is the
      one the chain returns. */
  lemma ExactlyOneSector(angle: real, d: Direction)
    ensures InWindow(d, angle) <==> d == Sector(angle)
  {
  }

  /** Over the range of atan2, the chain agrees with an independent reference:
      shift by half a sector, divide into 45-degree slots and count
      counter-clockwise from east, modulo 8. */
  lemma SectorBySlot(angle: real)
    requires -180.0 <= angle <= 180.0
    ensures Sector(angle) == CounterClockwise[((angle + 22.5) / 45.0).Floor % 8]
  {
  }

  /** Tie-break at the sector edges: the lower edge belongs to the sector, the
      upper edge to the next sector counter-clockwise. */
  lemma EdgesLowerInclusive(i: nat)
    requires i < 8
    ensures Sector(Centre(CounterClockwise[i]) - 22.5) == CounterClockwise[i]
    ensures Sector(Wrap(Centre(CounterClockwise[i]) + 22.5)) == CounterClockwise[(i + 1) % 8]
  {
  }

  /** The six boundary angles quoted for the chain. */
  lemma BoundaryExamples()
    ensures Sector(22.5) == Northeast && Sector(-22.5) == East
    ensures Sector(67.5) == North && Sector(157.5) == West
    ensures Sector(-157.5) == Southwest && Sector(-67.5) == Southeast
  {
  }

  /** Direction depends only on the angle of the step, not its length, as long as
      scaling keeps the step on the same side of the vertical guard and the
      supplied atan2 is itself scale-invariant at this step. */
  lemma ScaledStepSameDirection(angleOf: (real, real) -> real,
                                lat1: real, lng1: real, lat2: real, lng2: real,
                                k: real)
    requires k > 0.0
    requires (Abs(lng2 - lng1) < VerticalEpsilon) == (Abs(k * (lng2 - lng1)) < VerticalEpsilon)
    requires angleOf(k * (lat2 - lat1), k * (lng2 - lng1)) == angleOf(lat2 - lat1, lng2 - lng1)
    ensures CalculateDirection(angleOf, lat1, lng1, lat1 + k * (lat2 - lat1), lng1 + k * (lng2 - lng1))
         == CalculateDirection(angleOf, lat1, lng1, lat2, lng2)
  {
  }

  /** The vertical guard is not scale-invariant: a tiny due-east step reads as
      South, the same step four times longer reads as East. */
  lemma ScalingAcrossTheGuard(angleOf: (real, real) -> real)
    requires angleOf(0.0, 0.002) == 0.0
    ensures CalculateDirection(angleOf, 0.0, 0.0, 0.0, 0.0005) == South
    ensures CalculateDirection(angleOf, 0.0, 0.0, 0.0, 0.002) == East
  {
  }
}
