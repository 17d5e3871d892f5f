/**
 LocationEtc: the lines of text placed below the viewer hole — the location's name and, unless
 only the location is wanted, the core data of the eclipse. The drawing itself (fonts, centring,
 translation) is not modelled; line i of the result is the text drawn at vertical level
 `yLevel + i * LINE_GAP`.
 */
module LocationText {
  import W = Wrappers
  import opened JavaMath
  import opened JavaStrings
  import opened Time
  import opened EclipseTypes
  import opened Carriers
  import opened Maths

  /** The vertical gap between lines, as a fraction of the viewer's height. */
  const LINE_GAP: real := 0.03

  /** The compass directions, from North clockwise in steps of 45 degrees. */
  const DIRECTION_NAMES: seq<string> :=
    ["North", "North-East", "East", "South-East", "South", "South-West", "West", "North-West"]

  /** The angle between neighbouring directions. */
  const CHUNK_SIZE: real := TWO_PI / 8.0

  /** The k-th candidate direction, `k * chunkSize`. */
  function DirectionAt(k: int): real {
    k as real * CHUNK_SIZE
  }

  /** The distance of the k-th direction from the azimuth; there is no wrap-around at 2 pi. */
  function DistanceOf(k: int, azimuth: real): real {
    Abs(DirectionAt(k) - azimuth)
  }

  /**
   The direction the loop settles on: closer than pi (the initial closest distance), strictly
   closer than every earlier direction and no farther than every later one.
   */
  ghost predicate IsChosen(azimuth: real, k: int) {
    && 0 <= k < |DIRECTION_NAMES|
    && DistanceOf(k, azimuth) < PI
    && (forall j :: 0 <= j < k ==> DistanceOf(j, azimuth) > DistanceOf(k, azimuth))
    && (forall j :: k < j < |DIRECTION_NAMES| ==> DistanceOf(j, azimuth) >= DistanceOf(k, azimuth))
  }

  /**
   The search from direction k on, given the closest index so far and its distance (pi while
   there is none).
   */
  function ClosestFrom(azimuth: real, k: nat, closest: W.Option<nat>, closestDist: real): (r: W.Option<nat>)
    requires k <= |DIRECTION_NAMES|
    requires forall j :: 0 <= j < k ==> DistanceOf(j, azimuth) >= closestDist
    requires closest.None? ==> closestDist == PI
    requires closest.Some? ==> (closest.value < k && closestDist == DistanceOf(closest.value, azimuth) < PI
      && forall j :: 0 <= j < closest.value ==> DistanceOf(j, azimuth) > closestDist)
    ensures r.Some? ==> IsChosen(azimuth, r.value)
    ensures r.None? ==> closest.None? && forall j :: k <= j < |DIRECTION_NAMES| ==> DistanceOf(j, azimuth) >= PI
    decreases |DIRECTION_NAMES| - k
  {
    if k == |DIRECTION_NAMES| then closest
    else if DistanceOf(k, azimuth) < closestDist then ClosestFrom(azimuth, k + 1, W.Some(k), DistanceOf(k, azimuth))
    else ClosestFrom(azimuth, k + 1, closest, closestDist)
  }

  /**
   The index of the direction `direction()` names. None where every direction is at least pi
   away, the case in which the source looks up index -1 and fails.
   */
  function Closest(azimuth: real): (r: W.Option<nat>)
    ensures r.Some? ==> IsChosen(azimuth, r.value)
    ensures r.None? <==> forall j :: 0 <= j < |DIRECTION_NAMES| ==> DistanceOf(j, azimuth) >= PI
  {
    ClosestFrom(azimuth, 0, W.None, PI)
  }

  /** At most one direction satisfies the choice. */
  lemma ChosenUnique(azimuth: real, i: int, k: int)
    requires IsChosen(azimuth, i) && IsChosen(azimuth, k)
    ensures i == k
  {
  }

  /** The position of a value in a list of doubles (`List.indexOf`); None where Java returns -1. */
  function IndexOfValue(s: seq<real>, x: real): (r: W.Option<nat>)
    ensures r.Some? ==> r.value < |s| && s[r.value] == x && forall j :: 0 <= j < r.value ==> s[j] != x
    ensures r.None? ==> forall j :: 0 <= j < |s| ==> s[j] != x
  {
    if s == [] then W.None
    else if s[0] == x then W.Some(0)
    else match IndexOfValue(s[1..], x)
      case None => W.None
      case Some(i) => W.Some(i + 1)
  }

  /** The first loop of `direction()`: the candidate directions `k * chunkSize`, in order. */
  method Directions() returns (directions: seq<real>)
    ensures |directions| == |DIRECTION_NAMES|
    ensures forall j :: 0 <= j < |directions| ==> directions[j] == DirectionAt(j)
  {
    directions := [];
    for chunkIdx := 0 to |DIRECTION_NAMES|
      invariant |directions| == chunkIdx
      invariant forall j :: 0 <= j < chunkIdx ==> directions[j] == DirectionAt(j)
    {
      directions := directions + [chunkIdx as real * CHUNK_SIZE];
    }
  }

  /**
   The second loop of `direction()`: the closest direction so far is replaced only by a strictly
   closer one, starting from a distance of pi; None (null) when no direction comes that close.
   */
  method ClosestDirection(directions: seq<real>, azimuth: real) returns (closestDir: W.Option<real>)
    requires |directions| == |DIRECTION_NAMES|
    requires forall j :: 0 <= j < |directions| ==> directions[j] == DirectionAt(j)
    ensures closestDir == (match Closest(azimuth) case None => W.None case Some(k) => W.Some(DirectionAt(k)))
  {
    closestDir := W.None;
    ghost var closest: W.Option<nat> := W.None;
    var closestDist := PI;
    for i := 0 to |directions|
      invariant forall j :: 0 <= j < i ==> DistanceOf(j, azimuth) >= closestDist
      invariant closest.None? ==> closestDist == PI && closestDir.None?
      invariant closest.Some? ==> (closest.value < i && closestDist == DistanceOf(closest.value, azimuth) < PI
        && (forall j :: 0 <= j < closest.value ==> DistanceOf(j, azimuth) > closestDist)
        && closestDir == W.Some(DirectionAt(closest.value)))
    {
      var distFrom := Abs(directions[i] - azimuth);
      assert distFrom == DistanceOf(i, azimuth);
      if distFrom < closestDist {
        closestDist := distFrom;
        closestDir := W.Some(directions[i]);
        closest := W.Some(i);
      }
    }
    if closest.Some? {
      ChosenUnique(azimuth, closest.value, Closest(azimuth).value);
    }
  }

  /**
   `direction()`: the name at the position of the closest direction in the list of candidates;
   None where the source's `indexOf` gives -1 and the lookup fails.
   */
  method Direction(azimuth: real) returns (name: W.Option<string>)
    ensures name == (match Closest(azimuth) case None => W.None case Some(k) => W.Some(DIRECTION_NAMES[k]))
  {
    var directions := Directions();
    var closestDir := ClosestDirection(directions, azimuth);
    if closestDir.None? {
      name := W.None;
      return;
    }
    DirectionsDistinct(directions, Closest(azimuth).value);
    var index := IndexOfValue(directions, closestDir.value);
    name := W.Some(DIRECTION_NAMES[index.value]);
  }

  /** The candidate directions increase, so each appears once and `indexOf` finds its own index. */
  lemma DirectionsDistinct(directions: seq<real>, k: nat)
    requires |directions| == |DIRECTION_NAMES| && k < |directions|
    requires forall j :: 0 <= j < |directions| ==> directions[j] == DirectionAt(j)
    ensures IndexOfValue(directions, DirectionAt(k)) == W.Some(k)
  {
  }

  /** Every azimuth in 0..2 pi names a direction: one of North and South is always less than pi away. */
  lemma DirectionDefinedInRange(azimuth: real)
    requires 0.0 <= azimuth < TWO_PI
    ensures Closest(azimuth).Some?
  {
    if azimuth >= PI {
      assert DistanceOf(4, azimuth) < PI;
    } else {
      assert DistanceOf(0, azimuth) < PI;
    }
  }

  /**
   No wrap-around: an azimuth within half a step below 2 pi, which is nearest to North on the
   compass, is named North-West.
   */
  lemma NoWrapAround(azimuth: real)
    requires TWO_PI - CHUNK_SIZE / 2.0 < azimuth < TWO_PI
    ensures Closest(azimuth) == W.Some(7)
  {
    assert IsChosen(azimuth, 7);
    ChosenUnique(azimuth, Closest(azimuth).value, 7);
  }

  /** Ties go to the earlier direction: half way between North and North-East is North. */
  lemma TieGoesToEarlier()
    ensures Closest(CHUNK_SIZE / 2.0) == W.Some(0)
  {
    var azimuth := CHUNK_SIZE / 2.0;
    assert IsChosen(azimuth, 0);
    ChosenUnique(azimuth, Closest(azimuth).value, 0);
  }

  /** The angle between the k-th direction and the azimuth measured around the compass, at most pi. */
  function CompassDistance(k: int, azimuth: real): real {
    var d := DistanceOf(k, azimuth);
    if d > PI then TWO_PI - d else d
  }

  /** The search for the nearest direction on the compass from direction k on, `best` the nearest so far. */
  function NearestFrom(azimuth: real, k: nat, best: nat): (r: nat)
    requires best < k <= |DIRECTION_NAMES|
    requires forall j :: 0 <= j < k ==> CompassDistance(best, azimuth) <= CompassDistance(j, azimuth)
    ensures r < |DIRECTION_NAMES|
    ensures forall j :: 0 <= j < |DIRECTION_NAMES| ==> CompassDistance(r, azimuth) <= CompassDistance(j, azimuth)
    decreases |DIRECTION_NAMES| - k
  {
    if k == |DIRECTION_NAMES| then best
    else if CompassDistance(k, azimuth) < CompassDistance(best, azimuth) then NearestFrom(azimuth, k + 1, k)
    else NearestFrom(azimuth, k + 1, best)
  }

  /**
   `direction()` as it is evidently meant: the name of the direction nearest on the compass, the
   earlier one on a tie. Every azimuth has one.
   */
  function CompassDirection(azimuth: real): (r: string)
    ensures exists k :: (0 <= k < |DIRECTION_NAMES| && r == DIRECTION_NAMES[k]
      && forall j :: 0 <= j < |DIRECTION_NAMES| ==> CompassDistance(k, azimuth) <= CompassDistance(j, azimuth))
  {
    var k := NearestFrom(azimuth, 1, 0);
    DIRECTION_NAMES[k]
  }

  /**
   The two versions part where the compass wraps: within half a step below 2 pi the loop as
   written names North-West while the nearest direction is North.
   */
  lemma CompassWrapsToNorth(azimuth: real)
    requires TWO_PI - CHUNK_SIZE / 2.0 < azimuth < TWO_PI
    ensures CompassDirection(azimuth) == "North"
    ensures Closest(azimuth) == W.Some(7) && DIRECTION_NAMES[7] == "North-West"
  {
    NoWrapAround(azimuth);
    assert CompassDistance(0, azimuth) < CHUNK_SIZE / 2.0;
    forall j | 1 <= j < |DIRECTION_NAMES|
      ensures CompassDistance(j, azimuth) > CHUNK_SIZE / 2.0
    {
      assert DistanceOf(j, azimuth) == azimuth - j as real * CHUNK_SIZE;
    }
    var k := NearestFrom(azimuth, 1, 0);
    assert k == 0;
  }

  /**
   `duration()`: the whole minutes, unpadded, then "m ", then the seconds part, preceded by "0"
   when it is below 10, then "s".
   */
  function DurationText(d: Duration): string {
    var seconds := ToSecondsPart(d);
    var sec := if seconds < 10 then "0" + IntToString(seconds) else IntToString(seconds);
    IntToString(ToMinutes(d)) + "m " + sec + "s"
  }

  /**
   For a non-negative duration the text reads back: the minutes, "m ", two digits of seconds
   below 60, and "s"; minutes times 60 plus the seconds are the whole seconds of the duration.
   */
  lemma DurationTextReadsBack(d: Duration)
    requires d >= 0
    ensures var m, s := ToMinutes(d), ToSecondsPart(d);
      m >= 0 && 0 <= s < 60 && m * 60 + s == Seconds(d) &&
      DurationText(d) == NatToString(m) + "m " + ZeroPadded(s) + "s" &&
      |ZeroPadded(s)| == 2 && ParseNat(ZeroPadded(s)) == s
  {
    DurationParts(d);
    ZeroPaddedTwoDigits(ToSecondsPart(d));
  }

  /** "05" for five seconds: the seconds part is padded, the minutes are not. */
  lemma DurationTextExample()
    ensures DurationText(65 * NANOS_PER_SECOND) == "1m 05s"
  {
    var d := 65 * NANOS_PER_SECOND;
    assert Seconds(d) == 65;
    assert ToMinutes(d) == 1 && ToSecondsPart(d) == 5;
    assert IntToString(1) == "1" && IntToString(5) == "5";
  }

  /** `altitude()`: the altitude in degrees rounded to one place, shown with Java's `Double.toString`. */
  function AltitudeText(e: EclipseDisplay, showDouble: real -> string): string {
    showDouble(RoundToOnePlace(RadsToDegs(e.altitude)))
  }

  /**
   The lines `draw` renders, the first in large bold type. The direction is the name `direction()`
   gives for the display's azimuth; the source fails where there is none, which never happens for
   an azimuth in 0..2 pi (DirectionDefinedInRange).
   */
  function Lines(location: string, e: EclipseDisplay, onlyLocation: bool, showDouble: real -> string): (r: seq<string>)
    requires !onlyLocation && e.eclipseType != Partial ==> e.totalityAnnularityStarts.Some? && e.totalityAnnularityEnds.Some?
    requires !onlyLocation ==> Closest(e.azimuth).Some?
    ensures |r| >= 1 && r[0] == location
    ensures onlyLocation ==> |r| == 1
    ensures !onlyLocation && e.eclipseType != Partial ==> (|r| == 3 &&
      r[1] == Name(e.eclipseType) + "ity" + " Starts " + FormatHhMmSs(e.totalityAnnularityStarts.value)
        + ", Lasts " + DurationText(DurationTotalityAnnularity(e)) &&
      r[2] == "Altitude:" + AltitudeText(e, showDouble) + "°" + ", Direction:" + DIRECTION_NAMES[Closest(e.azimuth).value])
    ensures !onlyLocation && e.eclipseType == Partial ==> (|r| == 4 &&
      r[1] == "Starts " + FormatHhMmSs(e.partialStarts) + ", Lasts " + DurationText(DurationPartial(e)) &&
      r[2] == "Max Eclipse: " + FormatHhMmSs(e.maxEclipse.when) &&
      r[3] == "Altitude:" + AltitudeText(e, showDouble) + "°" + " Direction:" + DIRECTION_NAMES[Closest(e.azimuth).value])
  {
    if onlyLocation then [location]
    else
      var altitude := "Altitude:" + AltitudeText(e, showDouble) + "°";
      var direction := DIRECTION_NAMES[Closest(e.azimuth).value];
      if e.eclipseType != Partial then
        var type_ := Name(e.eclipseType) + "ity";
        [location,
         type_ + " Starts " + FormatHhMmSs(e.totalityAnnularityStarts.value) + ", Lasts " + DurationText(DurationTotalityAnnularity(e)),
         altitude + ", Direction:" + direction]
      else
        [location,
         "Starts " + FormatHhMmSs(e.partialStarts) + ", Lasts " + DurationText(DurationPartial(e)),
         "Max Eclipse: " + FormatHhMmSs(e.maxEclipse.when),
         altitude + " Direction:" + direction]
  }

  /** `yLevel(line)`: the vertical level of a line, a fixed gap below the previous one. */
  function YLevel(yLevel: real, line: int): (r: real)
    ensures line > 0 ==> r > YLevel(yLevel, line - 1) + 0.0
  {
    yLevel + line as real * LINE_GAP
  }
}
