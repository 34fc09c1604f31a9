# Typhoon tracker: direction classifier and tracker state

A model of the logic in the typhoon track viewer's `TyphoonTracker` class.
The viewer animates the recorded tracks of a few historical storms over a map.
The model leaves out the drawing and keeps two parts:

- **Compass** (`compass.dfy`) is the movement-direction classifier. A step between two samples
  whose longitude changes by less than 0.001 degrees is called North or South by the sign of the
  latitude change. Any other step is put into one of eight 45-degree compass sectors by a chain of
  half-open intervals over its atan2 angle in degrees. atan2 is not modelled: callers pass it in as
  `angleOf: (real, real) -> real`.
- **Track** (`track.dfy`) holds the sample records and the values computed for one animation
  frame. These are the trajectory drawn so far (`points[:frame+1]`), the current marker, the
  movement line of the information panel, the progress percentage, and the map limits set when a
  storm is loaded.
- **Tracker** (`tracker.dfy`) is the `TyphoonTracker` object. It holds the catalog, the current
  storm name, its samples, the frame cursor, the play flag and the map limits. Methods cover
  loading a storm, the frame update, the space key (play/pause), the r/R keys (reset) and the storm
  buttons.

Numbers are exact `real`s. The floating-point rounding of the Python program is not modelled.

Some behaviour of the code as written is worth knowing:

- Changing to a name that is not in the catalog first stores the name in `current_typhoon`, then
  fails at the dictionary lookup. The tracker is left naming a storm it does not show, and its play
  flag is left as it was. `ChangeTyphoon` models this error path as `Err` with exactly that state.
  From then on, every frame update on the track (including the one a reset makes) moves the cursor
  and then fails when the information panel looks the name up again. `Update` and `ResetAnimation`
  return `Err` in that case.
- The direction is not invariant under scaling the step. Scaling can move the longitude change
  across the 0.001 guard. `ScalingAcrossTheGuard` gives a due-east step that reads as South at one
  length and as East at four times that length. `ScaledStepSameDirection` proves invariance when
  scaling stays on one side of the guard.
- A step with no movement at all is reported as South.
- The sector chain covers every real number, so its final `"Unknown"` return can never be reached.

## Model

| member | source | states |
|---|---|---|
| `Compass.Sector` | main.py:242-259 | every angle gets one of the eight compass points; the final `Unknown` is unreachable |
| `Compass.SectorInWindow` | main.py:242-256 | the sector the chain picks is the one whose documented 45-degree window holds the angle |
| `Compass.ExactlyOneSector` | main.py:242-256 | an angle lies in the window of a direction if and only if the chain returns that direction, so exactly one window holds each angle |
| `Compass.SectorBySlot` | main.py:242-256 | within the atan2 range [-180, 180] the chain agrees with an independent slot count: floor((angle + 22.5) / 45) mod 8, counter-clockwise from East |
| `Compass.EdgesLowerInclusive` | main.py:242-256 | each sector's lower edge belongs to it; its upper edge (West's wrapped to -157.5) belongs to the next sector counter-clockwise |
| `Compass.BoundaryExamples` | main.py:242-256 | 22.5 is Northeast, -22.5 East, 67.5 North, 157.5 West, -157.5 Southwest, -67.5 Southeast |
| `Compass.CalculateDirection` | main.py:232-259 | never Unknown; below the longitude guard the result is North if and only if the latitude grows, otherwise South; elsewhere the result's window holds the step's atan2 angle |
| `Compass.ScaledStepSameDirection` | main.py:234-240 | scaling a step by k > 0 keeps its direction when the scaled step stays on the same side of the guard and atan2 gives the same angle |
| `Compass.ScalingAcrossTheGuard` | main.py:237-240 | a 0.0005-degree due-east step reads as South; the same step four times longer reads as East |
| `Track.Min` | main.py:156-160 | the minimum of a non-empty list is one of its elements and at most each of them |
| `Track.Max` | main.py:156-160 | the maximum of a non-empty list is one of its elements and at least each of them |
| `Track.AxisLimits` | main.py:153-160 | the limits hold every value, are centred on the data range, and are 1.4 times its width (a 0.2 margin on each side) |
| `Track.Lats` | main.py:153 | one latitude per sample, in track order |
| `Track.Lngs` | main.py:154 | one longitude per sample, in track order |
| `Track.Progress` | main.py:300 | never negative; with two or more samples, scaling the percentage back by the last index gives the frame; with at most one sample it is 0 |
| `Track.ProgressBounds` | main.py:300 | for a frame on the track, progress lies in [0, 100], is 0 at the first sample and 100 at the last when there are at least two |
| `Track.ProgressMonotone` | main.py:300 | progress never decreases as the frame grows |
| `Track.Trajectory` | main.py:266-267 | the drawn trajectory is a prefix of the track, frame + 1 samples long for a frame on the track, the whole track past its end |
| `Track.TrajectoryStep` | main.py:263-268 | each next frame extends the trajectory by exactly the next sample |
| `Track.Movement` | main.py:215-222 | the movement line appears exactly when 0 < index < number of samples; it is the direction of the step from the previous sample to the current one, never Unknown |
| `Track.Frame` | main.py:261-302 | the frame's lat/lng lists are the first frame + 1 samples in order; the marker is the sample at the frame and the trajectory ends at it; movement appears exactly from the second sample on and is the movement line of the frame's index; progress is the percentage of the frame |
| `Tracker.TyphoonTracker.TrackInsideMap` | main.py:153-160 | every sample of the current track lies within the map limits |
| `Tracker.TyphoonTracker.constructor` | main.py:85-88 | starts on Mangkhut with its samples, cursor 0, paused, map limits computed from the track |
| `Tracker.TyphoonTracker.LoadTyphoonData` | main.py:146-160 | records the name; for a known storm, loads its samples, resets the cursor to 0 and recomputes the limits, leaving the play flag alone; for an unknown name, fails with the name recorded and nothing else changed |
| `Tracker.TyphoonTracker.Update` | main.py:261-300 | sets the cursor to the frame and changes nothing else; returns that frame's snapshot, or an error when the frame is on the track and the current name is not in the catalog |
| `Tracker.TyphoonTracker.ToggleAnimation` | main.py:306-315 | flips the play flag for the space key when a timer exists; otherwise changes nothing; never touches the cursor or the storm |
| `Tracker.TyphoonTracker.ResetAnimation` | main.py:317-324 | for r or R: cursor 0, paused, and the first frame redrawn, or an error when the current name is not in the catalog; any other key changes nothing |
| `Tracker.TyphoonTracker.ChangeTyphoon` | main.py:326-333 | for a catalog name: that storm's samples, cursor 0, paused, first frame redrawn; for an unknown name: error, name recorded, samples, cursor and play flag unchanged |
| `Tracker.ReselectAndReset` | main.py:317-333 | playing, re-selecting the initial storm and resetting ends in the same state the tracker started in |

## Left out

- Drawing: figure and axes setup, scatter re-creation, the pulse circles, legend, control texts,
  the progress-bar width, canvas redraws. The model returns what would be drawn (`FrameState`) but
  not the drawing itself.
- The animation timer (`FuncAnimation`, its `event_source.start/stop`, `pause`). Its presence is a
  parameter of `ToggleAnimation`. Wrapping from the last frame back to 0 is done by the timer's
  `repeat=True`, not by the tracker, so it is not modelled. The frame count is also the timer's:
  it is fixed at the first storm's length and never changed when the storm changes. Frames are
  therefore any `nat` in `Update`. For a frame past the end of the track, the trajectory is the
  whole track. The marker and the information text are not redrawn (`None`): what was shown before
  stays on screen. With two or more samples, progress exceeds 100; with one sample it stays 0.
- ResetAnimation: assumes the animation has a timer. The code stops it without the check that the
  space key makes, so without a timer it fails before changing anything. That failure is not modelled.
- ChangeTyphoon: assumes the animation has a timer, for the same reason as `ResetAnimation`.
- `calculate_distance` and the speed `round(distance / 6)`, which use cos and sqrt on floats.
- The atan2 computation. It is the caller-supplied `angleOf`.
- The text of the information panel. Only when the movement line appears, and which direction it
  shows, is modelled (`Movement`).
- The hardcoded storm tables and the colour and name tables for intensities. The catalog is a
  constructor argument with non-empty tracks and an entry for Mangkhut, as the hardcoded one has.
- The `speed` field, which nothing reads.
- The wiring in `main()` of keys and buttons to the methods. The buttons only ever pass the three
  catalog names.
