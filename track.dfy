/** Storm track samples and the values derived from them for one animation
    frame: the drawn trajectory, the current marker, the movement line of the
    information panel, the progress percentage and the map limits. */
module Track {
  import opened Compass

  datatype Intensity = TD | TS | STS | TY | STY | SuperTY

  datatype Point = Point(lat: real, lng: real, pressure: int, wind: int,
                         intensity: Intensity, timestamp: string)

  datatype Storm = Storm(name: string, points: seq<Point>)

  datatype Option<T> = None | Some(value: T)

  /** Axis range of the map, [lo, hi]. */
  datatype Limits = Limits(lo: real, hi: real)

  /** What one call of the frame update hands to the drawing code. */
  datatype FrameState = FrameState(
    trajectoryLngs: seq<real>,       // x data of the trajectory line
    trajectoryLats: seq<real>,       // y data of the trajectory line
    marker: Option<Point>,           // the current sample; None: marker not redrawn
    movement: Option<Direction>,     // the movement line of the information panel
    progress: real)                  // percentage shown under the progress bar

  function Lats(points: seq<Point>): (r: seq<real>)
    ensures |r| == |points|
    ensures forall i :: 0 <= i < |points| ==> r[i] == points[i].lat
  {
    seq(|points|, i requires 0 <= i < |points| => points[i].lat)
  }

  function Lngs(points: seq<Point>): (r: seq<real>)
    ensures |r| == |points|
    ensures forall i :: 0 <= i < |points| ==> r[i] == points[i].lng
  {
    seq(|points|, i requires 0 <= i < |points| => points[i].lng)
  }

  /** The smallest value of a non-empty list. */
  function Min(s: seq<real>): (m: real)
    requires |s| > 0
    ensures m in s
    ensures forall i :: 0 <= i < |s| ==> m <= s[i]
  {
    if |s| == 1 then s[0]
    else
      var rest := Min(s[1..]);
      if s[0] <= rest then s[0] else rest
  }

  /** The largest value of a non-empty list. */
  function Max(s: seq<real>): (m: real)
    requires |s| > 0
    ensures m in s
    ensures forall i :: 0 <= i < |s| ==> s[i] <= m
  {
    if |s| == 1 then s[0]
    else
      var rest := Max(s[1..]);
      if s[0] >= rest then s[0] else rest
  }

  /** The data range widened on both sides by a fifth of its width. The result
      holds every value, is centred on the data range, and is 1.4 times as wide. */
  function AxisLimits(values: seq<real>): (l: Limits)
    requires |values| > 0
    ensures l.lo <= l.hi
    ensures forall i :: 0 <= i < |values| ==> l.lo <= values[i] <= l.hi
    ensures l.lo + l.hi == Min(values) + Max(values)
    ensures l.hi - l.lo == (Max(values) - Min(values)) * 1.4
  {
    var margin := (Max(values) - Min(values)) * 0.2;
    Limits(Min(values) - margin, Max(values) + margin)
  }

  /** Progress shown for `frame` on a track of `n` samples, in percent: the
      frame's share of the last index, or 0 when there is at most one sample. */
  function Progress(frame: nat, n: nat): (p: real)
    ensures p >= 0.0
    ensures n > 1 ==> p / 100.0 * (n - 1) as real == frame as real
    ensures n <= 1 ==> p == 0.0
  {
    if n > 1 then frame as real / (n - 1) as real * 100.0 else 0.0
  }

  /** On the track, progress runs from 0 at the first sample to 100 at the last. */
  lemma ProgressBounds(frame: nat, n: nat)
    requires frame < n
    ensures 0.0 <= Progress(frame, n) <= 100.0
    ensures frame == 0 ==> Progress(frame, n) == 0.0
    ensures frame == n - 1 && n > 1 ==> Progress(frame, n) == 100.0
  {
    if n > 1 {
      var d := (n - 1) as real;
      assert frame as real / d * d == frame as real;
    }
  }

  /** Progress never decreases as the frame advances. */
  lemma ProgressMonotone(f1: nat, f2: nat, n: nat)
    requires f1 <= f2
    ensures Progress(f1, n) <= Progress(f2, n)
  {
  }

  /** The part of the track drawn up to `frame`: the first frame + 1 samples, or
      the whole track when the frame lies past its end. */
  function Trajectory(points: seq<Point>, frame: nat): (t: seq<Point>)
    ensures t <= points
    ensures |t| == if frame < |points| then frame + 1 else |points|
  {
    if frame + 1 <= |points| then points[..frame + 1] else points
  }

  /** Each frame on the track extends the drawn trajectory by exactly the next sample. */
  lemma TrajectoryStep(points: seq<Point>, frame: nat)
    requires frame + 1 < |points|
    ensures Trajectory(points, frame + 1) == Trajectory(points, frame) + [points[frame + 1]]
  {
  }

  /** The information panel's movement line: present only from the second sample
      on, giving the direction of the step from the previous sample. */
  function Movement(angleOf: (real, real) -> real, points: seq<Point>, index: nat): (m: Option<Direction>)
    ensures m.Some? <==> 0 < index < |points|
    ensures m.Some? ==> m.value != Unknown
    ensures m.Some? ==>
              m.value == CalculateDirection(angleOf, points[index - 1].lat, points[index - 1].lng,
                                            points[index].lat, points[index].lng)
  {
    if 0 < index < |points| then
      var prev, cur := points[index - 1], points[index];
      Some(CalculateDirection(angleOf, prev.lat, prev.lng, cur.lat, cur.lng))
    else None
  }

  /** The snapshot the frame update produces for `frame`. */
  function Frame(angleOf: (real, real) -> real, points: seq<Point>, frame: nat): (f: FrameState)
    ensures |f.trajectoryLats| == |f.trajectoryLngs| == if frame < |points| then frame + 1 else |points|
    ensures forall i :: 0 <= i < |f.trajectoryLats| ==>
              f.trajectoryLats[i] == points[i].lat && f.trajectoryLngs[i] == points[i].lng
    ensures f.marker.Some? <==> frame < |points|
    ensures f.marker.Some? ==>
              f.marker.value == points[frame] &&
              f.trajectoryLats[frame] == f.marker.value.lat &&
              f.trajectoryLngs[frame] == f.marker.value.lng
    ensures f.movement.Some? <==> 0 < frame < |points|
    ensures f.movement == Movement(angleOf, points, frame)
    ensures f.progress == Progress(frame, |points|)
  {
    var shown := Trajectory(points, frame);
    FrameState(Lngs(shown), Lats(shown),
               if frame < |points| then Some(points[frame]) else None,
               Movement(angleOf, points, frame),
               Progress(frame, |points|))
  }
}
