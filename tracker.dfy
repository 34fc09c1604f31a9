/** The tracker object: which storm is shown, its samples, the frame cursor and
    the play flag, changed by loading a storm, the frame update, the space and
    r/R keys and the storm buttons. Drawing, the animation timer and the
    numerical atan2 are outside the model; atan2 in degrees is passed in as
    `angleOf` wherever a frame is produced. */
module Tracker {
  import opened Compass
  import opened Track

  datatype Error = UnknownTyphoon(name: string)

  datatype Outcome = Pass | Fail(error: Error)

  datatype Result<T> = Ok(value: T) | Err(error: Error)

  /** The storm loaded when the tracker is created. */
  const InitialTyphoon: string := "Mangkhut"

  const SpaceKey: string := " "

  /** Every storm in the catalog has at least one sample (the map limits take
      the minimum and maximum of its coordinates). */
  predicate CatalogOk(catalog: map<string, Storm>) {
    forall name :: name in catalog ==> |catalog[name].points| > 0
  }

  predicate IsResetKey(key: string) {
    key == "r" || key == "R"
  }

  class TyphoonTracker {
    const typhoonData: map<string, Storm>
    var currentTyphoon: string
    var currentPoints: seq<Point>
    var currentIndex: nat
    var isPlaying: bool
    /** The map's longitude (x) and latitude (y) limits. */
    var lngLimits: Limits
    var latLimits: Limits

    /** The object invariant: a well-formed catalog, a non-empty current track,
        and map limits computed from that track. */
    ghost predicate Valid()
      reads this
    {
      CatalogOk(typhoonData) &&
      |currentPoints| > 0 &&
      lngLimits == AxisLimits(Lngs(currentPoints)) &&
      latLimits == AxisLimits(Lats(currentPoints))
    }

    /** The shown samples are those of the storm named by `currentTyphoon`. */
    ghost predicate Selected()
      reads this
    {
      currentTyphoon in typhoonData && currentPoints == typhoonData[currentTyphoon].points
    }

    /** Every sample of the current track lies inside the map limits. */
    lemma TrackInsideMap()
      requires Valid()
      ensures forall i :: 0 <= i < |currentPoints| ==>
                lngLimits.lo <= currentPoints[i].lng <= lngLimits.hi &&
                latLimits.lo <= currentPoints[i].lat <= latLimits.hi
    {
    }

    /** Starts on the initial storm, paused at its first sample. */
    constructor (catalog: map<string, Storm>)
      requires CatalogOk(catalog) && InitialTyphoon in catalog
      ensures Valid() && Selected() && typhoonData == catalog
      ensures currentTyphoon == InitialTyphoon && currentPoints == catalog[InitialTyphoon].points
      ensures currentIndex == 0 && !isPlaying
    {
      typhoonData := catalog;
      currentTyphoon := InitialTyphoon;
      currentPoints := [];
      currentIndex := 0;
      isPlaying := false;
      lngLimits := Limits(0.0, 1.0);
      latLimits := Limits(0.0, 1.0);
      new;
      var loaded := LoadTyphoonData(InitialTyphoon);
    }

    /** Makes `name` the current storm: the name is recorded first, then its
        samples are looked up; an unknown name fails at the lookup, leaving the
        name recorded and everything else as it was. */
    method LoadTyphoonData(name: string) returns (r: Outcome)
      requires CatalogOk(typhoonData)
      modifies this
      ensures currentTyphoon == name && isPlaying == old(isPlaying)
      ensures name in typhoonData ==>
                r == Pass && Valid() && Selected() &&
                currentPoints == typhoonData[name].points && currentIndex == 0
      ensures name !in typhoonData ==>
                r == Fail(UnknownTyphoon(name)) && !Selected() &&
                currentPoints == old(currentPoints) && currentIndex == old(currentIndex) &&
                lngLimits == old(lngLimits) && latLimits == old(latLimits)
      ensures old(Valid()) ==> Valid()
    {
      currentTyphoon := name;
      if name !in typhoonData {
        return Fail(UnknownTyphoon(name));
      }
      currentPoints := typhoonData[name].points;
      currentIndex := 0;
      var lats := Lats(currentPoints);
      var lngs := Lngs(currentPoints);
      lngLimits := AxisLimits(lngs);
      latLimits := AxisLimits(lats);
      r := Pass;
    }

    /** The information panel looks the current name up in the catalog, and
        only does so for a frame on the track: after a failed storm change that
        lookup fails. */
    predicate InfoLookupFails(frame: nat)
      reads this
    {
      frame < |currentPoints| && currentTyphoon !in typhoonData
    }

    /** Shows `frame`: moves the cursor there and returns the trajectory drawn so
        far, the current marker, the movement line and the progress. The cursor
        moves even when the information panel's catalog lookup then fails. */
    method Update(angleOf: (real, real) -> real, frame: nat) returns (r: Result<FrameState>)
      requires Valid()
      modifies this`currentIndex
      ensures Valid() && currentIndex == frame
      ensures r == if InfoLookupFails(frame) then Err(UnknownTyphoon(currentTyphoon))
                   else Ok(Frame(angleOf, currentPoints, frame))
    {
      currentIndex := frame;
      if frame < |currentPoints| && currentTyphoon !in typhoonData {
        return Err(UnknownTyphoon(currentTyphoon));
      }
      r := Ok(Frame(angleOf, currentPoints, frame));
    }

    /** The space key flips the play flag, provided the animation has a timer;
        every other key, and a missing timer, leave it alone. */
    method ToggleAnimation(key: string, hasEventSource: bool)
      requires Valid()
      modifies this`isPlaying
      ensures Valid()
      ensures isPlaying == if key == SpaceKey && hasEventSource then !old(isPlaying) else old(isPlaying)
    {
      if key == SpaceKey {
        if hasEventSource {
          if isPlaying {
            isPlaying := false;
          } else {
            isPlaying := true;
          }
        }
      }
    }

    /** The r or R key stops playback and goes back to the first sample, which is
        redrawn (or fails to be, when the current name is not in the catalog);
        any other key changes nothing. */
    method ResetAnimation(angleOf: (real, real) -> real, key: string) returns (r: Option<Result<FrameState>>)
      requires Valid()
      modifies this`currentIndex, this`isPlaying
      ensures Valid()
      ensures IsResetKey(key) ==>
                currentIndex == 0 && !isPlaying &&
                r == Some(if currentTyphoon in typhoonData then Ok(Frame(angleOf, currentPoints, 0))
                          else Err(UnknownTyphoon(currentTyphoon)))
      ensures !IsResetKey(key) ==>
                currentIndex == old(currentIndex) && isPlaying == old(isPlaying) && r == None
    {
      r := None;
      if key == "r" || key == "R" {
        currentIndex := 0;
        isPlaying := false;
        var shown := Update(angleOf, 0);
        r := Some(shown);
      }
    }

    /** A storm button: loads the named storm, stops playback and redraws its
        first sample. An unknown name fails at the catalog lookup, after the name
        has been recorded and before anything else changes. */
    method ChangeTyphoon(angleOf: (real, real) -> real, name: string) returns (r: Result<FrameState>)
      requires Valid()
      modifies this
      ensures Valid() && currentTyphoon == name
      ensures name in typhoonData ==>
                Selected() && currentPoints == typhoonData[name].points &&
                currentIndex == 0 && !isPlaying &&
                r == Ok(Frame(angleOf, currentPoints, 0))
      ensures name !in typhoonData ==>
                !Selected() && r == Err(UnknownTyphoon(name)) &&
                currentPoints == old(currentPoints) && currentIndex == old(currentIndex) &&
                isPlaying == old(isPlaying)
    {
      var loaded := LoadTyphoonData(name);
      if loaded.Fail? {
        return Err(loaded.error);
      }
      currentIndex := 0;
      isPlaying := false;
      r := Update(angleOf, 0);
    }
  }

  /** Selecting the initial storm again after some play and then resetting
      brings the tracker back to the state it started in. */
  method ReselectAndReset(catalog: map<string, Storm>, angleOf: (real, real) -> real)
    returns (t: TyphoonTracker)
    requires CatalogOk(catalog) && InitialTyphoon in catalog
    ensures t.Valid() && t.Selected()
    ensures t.currentTyphoon == InitialTyphoon && t.currentPoints == catalog[InitialTyphoon].points
    ensures t.currentIndex == 0 && !t.isPlaying
  {
    t := new TyphoonTracker(catalog);
    t.ToggleAnimation(SpaceKey, true);
    var f := t.Update(angleOf, |t.currentPoints| - 1);
    var r := t.ChangeTyphoon(angleOf, InitialTyphoon);
    t.ToggleAnimation(SpaceKey, true);
    var g := t.ResetAnimation(angleOf, "R");
  }
}
