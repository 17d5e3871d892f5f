/**
 PartialPhasesChart: two charts of the partial phases, before and after the central moment, and,
 unless the eclipse is total, a chart of the maximum eclipse. Each partial phase is a circle of
 the Moon clipped by the Sun's disk, annotated at its two intersections with the Sun's rim: one
 with the clock time, the other with the time from the central moment. The AWT drawing calls are
 not modelled; what is modelled is which phases are drawn, the titles, and where and how each
 annotation is placed.
 */
module PhasesChart {
  import W = Wrappers
  import opened JavaMath
  import opened JavaStrings
  import opened Time
  import opened EclipseTypes
  import opened Carriers
  import opened Maths

  /** Phases whose centres are this far apart (in solar radii) or farther are not drawn. */
  const MAX_DESIRED_DISTANCE: real := 1.95
  const ON_LEFT: int := 1
  const ON_RIGHT: int := -1

  /** A point relative to the Sun's centre; y grows downwards, as on the page. */
  datatype Point = Point(x: real, y: real)

  /** An intersection of the Moon's and the Sun's rims; the base one is computed, the other mirrored. */
  datatype Intersection = Intersection(point: Point, isBase: bool)

  /** `flipped()`: the mirror image in the vertical axis, no longer the base intersection. */
  function Flipped(i: Intersection): (r: Intersection)
    ensures !r.isBase
    ensures r.point.y == i.point.y && r.point.x == -i.point.x
  {
    Intersection(Point(-i.point.x, i.point.y), false)
  }

  /** Flipping twice gives back the point, but the result is never the base intersection. */
  lemma FlippedTwice(i: Intersection)
    ensures Flipped(Flipped(i)).point == i.point
    ensures Flipped(Flipped(i)) == i <==> !i.isBase
  {
  }

  /** `rotate(angle)`: the point turned by the angle about the Sun's centre; `isBase` is kept. */
  function Rotate(i: Intersection, angle: real, trig: Trig): (r: Intersection)
    ensures r.isBase == i.isBase
  {
    var c, s := trig.cos(angle), trig.sin(angle);
    Intersection(Point(c * i.point.x + s * i.point.y, -s * i.point.x + c * i.point.y), i.isBase)
  }

  /** A rotation keeps the distance from the Sun's centre, wherever sin² + cos² = 1 holds for the angle. */
  lemma RotatePreservesDistance(i: Intersection, angle: real, trig: Trig)
    requires trig.sin(angle) * trig.sin(angle) + trig.cos(angle) * trig.cos(angle) == 1.0
    ensures var p := Rotate(i, angle, trig).point;
      p.x * p.x + p.y * p.y == i.point.x * i.point.x + i.point.y * i.point.y
  {
    var c, s := trig.cos(angle), trig.sin(angle);
    var x, y := i.point.x, i.point.y;
    var p := Rotate(i, angle, trig).point;
    calc {
      p.x * p.x + p.y * p.y;
      (c * x + s * y) * (c * x + s * y) + (-s * x + c * y) * (-s * x + c * y);
      (c * c + s * s) * (x * x) + (c * c + s * s) * (y * y);
      { assert c * c + s * s == 1.0; }
      x * x + y * y;
    }
  }

  /** The quadrants of the Sun's disk, with the offset of the text placed in each. */
  datatype Quadrant = NE | SE | SW | NW {
    function Dx(): real { 0.0 }
    function Dy(): real {
      match this
      case NE => 0.0
      case SE => 4.0
      case SW => 4.0
      case NW => 0.0
    }
  }

  /**
   `Quadrant.forPoint`: north means above the centre (y < 0), east means to the right (x > 0). The
   four cases cover every point, so the source's null result never occurs.
   */
  function ForPoint(p: Point): (r: Quadrant)
    ensures (r == NE || r == NW) <==> p.y < 0.0
    ensures (r == NE || r == SE) <==> p.x > 0.0
  {
    var isNorth := p.y < 0.0;
    var isEast := p.x > 0.0;
    if isNorth && isEast then NE
    else if isNorth && !isEast then NW
    else if !isNorth && isEast then SE
    else SW
  }

  /** The centre itself counts as south-west. */
  lemma OriginIsSouthWest()
    ensures ForPoint(Point(0.0, 0.0)) == SW
  {
  }

  /** Text in the SW and NW quadrants is right-aligned, so that it extends away from the disk. */
  predicate RightAligned(q: Quadrant) {
    q == SW || q == NW
  }

  /** Text is right-aligned exactly for points that are not east of the centre. */
  lemma RightAlignedIffWest(p: Point)
    ensures RightAligned(ForPoint(p)) <==> p.x <= 0.0
  {
  }

  /**
   Flipping a point off the vertical axis moves it to the other side, so the alignment of its text
   changes while the vertical offset stays.
   */
  lemma FlipSwapsAlignment(i: Intersection)
    requires i.point.x != 0.0
    ensures RightAligned(ForPoint(Flipped(i).point)) <==> !RightAligned(ForPoint(i.point))
    ensures ForPoint(Flipped(i).point).Dy() == ForPoint(i.point).Dy()
  {
  }

  /** `isBefore(phase)`: the phase comes before maximum eclipse. */
  predicate IsBeforeMax(e: EclipseDisplay, phase: PartialPhase) {
    IsBefore(phase.when, e.maxEclipse.when)
  }

  /**
   The moment the offset is measured from: maximum eclipse for a partial eclipse; otherwise the
   start of totality (or annularity) for a phase before that start, and its end for every other.
   */
  function OffsetBase(e: EclipseDisplay, phase: PartialPhase): (r: LocalDateTime)
    requires e.eclipseType != Partial ==> e.totalityAnnularityStarts.Some? && e.totalityAnnularityEnds.Some?
    ensures e.eclipseType == Partial ==> r == e.maxEclipse.when
    ensures e.eclipseType != Partial ==> r == e.totalityAnnularityStarts.value || r == e.totalityAnnularityEnds.value
  {
    if e.eclipseType == Partial then e.maxEclipse.when
    else if IsBefore(phase.when, e.totalityAnnularityStarts.value) then e.totalityAnnularityStarts.value
    else e.totalityAnnularityEnds.value
  }

  /** `timeFromMaxEclipse` / `timeFromTotalityAnnularity`: signed hours and minutes from the base. */
  function OffsetText(e: EclipseDisplay, phase: PartialPhase): (r: string)
    requires e.eclipseType != Partial ==> e.totalityAnnularityStarts.Some? && e.totalityAnnularityEnds.Some?
    ensures |r| >= 5 && (r[0] == '+' || r[0] == '-')
    ensures r[0] == '-' <==> IsBefore(phase.when, OffsetBase(e, phase))
  {
    IsBeforeInstant(phase.when, OffsetBase(e, phase));
    Hhmm(Between(OffsetBase(e, phase), phase.when))
  }

  /** `hourMin`: the clock time of the phase, "h:mm". */
  function ClockText(phase: PartialPhase): (r: string)
    ensures |r| >= 4 && IsDigit(r[0])
  {
    var h := ClockHourOfAmPm(phase.when.time);
    assert FormatHMm(phase.when) == NatToString(h) + (":" + Padded(MinuteOfHour(phase.when.time), true));
    FormatHMm(phase.when)
  }

  /**
   `displayText`: the clock time when the intersection is the base one and the phase is not before
   maximum, or the other way round; the offset from the base moment otherwise.
   */
  function DisplayText(e: EclipseDisplay, i: Intersection, phase: PartialPhase): (r: string)
    requires e.eclipseType != Partial ==> e.totalityAnnularityStarts.Some? && e.totalityAnnularityEnds.Some?
    ensures i.isBase != IsBeforeMax(e, phase) ==> r == ClockText(phase)
    ensures i.isBase == IsBeforeMax(e, phase) ==> r == OffsetText(e, phase)
  {
    var timeFrom := OffsetText(e, phase);
    var isBefore := IsBeforeMax(e, phase);
    var switchIt := (!i.isBase && isBefore) || (i.isBase && !isBefore);
    if switchIt then ClockText(phase) else timeFrom
  }

  /** A text shows the clock time exactly when it does not start with a sign. */
  lemma ClockIffNotSigned(e: EclipseDisplay, i: Intersection, phase: PartialPhase)
    requires e.eclipseType != Partial ==> e.totalityAnnularityStarts.Some? && e.totalityAnnularityEnds.Some?
    ensures var r := DisplayText(e, i, phase);
      (r[0] != '+' && r[0] != '-') <==> i.isBase != IsBeforeMax(e, phase)
  {
  }

  /**
   Of the two annotations of one phase, at the base intersection and at its mirror image, exactly
   one shows the clock time and the other the offset.
   */
  lemma OneClockOneOffset(e: EclipseDisplay, base: Intersection, phase: PartialPhase, trig: Trig)
    requires e.eclipseType != Partial ==> e.totalityAnnularityStarts.Some? && e.totalityAnnularityEnds.Some?
    requires base.isBase
    ensures var angle := phase.zenithAngle;
      var a := DisplayText(e, Rotate(base, angle, trig), phase);
      var b := DisplayText(e, Rotate(Flipped(base), angle, trig), phase);
      {a, b} == {ClockText(phase), OffsetText(e, phase)}
  {
  }

  /** `phasesTitle(parity)`: "Before" on the left, "After" on the right, then the central moment. */
  function PhasesTitle(parity: int, eclipseType: EclipseType): (r: string)
    ensures parity == ON_LEFT ==> StartsWith(r, "Before")
    ensures parity != ON_LEFT ==> StartsWith(r, "After")
    ensures |r| >= 9 && (r[|r| - 9..] == " Totality" <==> eclipseType == Total)
    ensures eclipseType != Total ==> r[|r| - 8..] == " Maximum"
  {
    var middle := if parity == ON_LEFT then "Before" else "After";
    var type_ := if eclipseType == Total then " Totality" else " Maximum";
    var r := middle + type_;
    assert r[..|middle|] == middle && r[|r| - |type_|..] == type_;
    assert eclipseType != Total ==> r[|r| - 9] == middle[|middle| - 1] != ' ' && r[|r| - 9..][0] == r[|r| - 9];
    r
  }

  /** The loop of `phasesChart`: the phases drawn, those nearer than the limit, in their order. */
  function Drawn(phases: seq<PartialPhase>): (r: seq<PartialPhase>)
    ensures |r| <= |phases|
    ensures forall k :: 0 <= k < |r| ==> r[k] in phases && r[k].lunarSolarDistance < MAX_DESIRED_DISTANCE
    ensures forall p :: p in phases && p.lunarSolarDistance < MAX_DESIRED_DISTANCE ==> p in r
  {
    if phases == [] then []
    else if phases[|phases| - 1].lunarSolarDistance < MAX_DESIRED_DISTANCE then
      Drawn(phases[..|phases| - 1]) + [phases[|phases| - 1]]
    else Drawn(phases[..|phases| - 1])
  }

  /** `phasesChart`: its title, and the phases it draws, each with its two annotations. */
  method PhasesChartOf(parity: int, eclipseType: EclipseType, phases: seq<PartialPhase>)
    returns (title: string, drawn: seq<PartialPhase>)
    ensures title == PhasesTitle(parity, eclipseType)
    ensures drawn == Drawn(phases)
  {
    title := PhasesTitle(parity, eclipseType);
    drawn := [];
    for k := 0 to |phases|
      invariant drawn == Drawn(phases[..k])
    {
      assert phases[..k + 1][..k] == phases[..k];
      if phases[k].lunarSolarDistance < MAX_DESIRED_DISTANCE {
        drawn := drawn + [phases[k]];
      }
    }
    assert phases[..|phases|] == phases;
  }

  /** The charts `draw` produces. */
  datatype Chart =
    | Phases(title: string, drawn: seq<PartialPhase>)
    | Maximum(title: string, phase: PartialPhase)

  /**
   `draw`: the chart before the central moment on the left, the one after it on the right, and the
   chart of maximum eclipse only when the eclipse is not total. The magnitude is rounded to three
   places and shown with Java's `Double.toString`.
   */
  function Charts(e: EclipseDisplay, showDouble: real -> string): (r: seq<Chart>)
    ensures |r| == 3 <==> e.eclipseType != Total
    ensures |r| >= 2 && r[0] == Phases(PhasesTitle(ON_LEFT, e.eclipseType), Drawn(e.phasesBefore))
      && r[1] == Phases(PhasesTitle(ON_RIGHT, e.eclipseType), Drawn(e.phasesAfter))
    ensures |r| == 3 ==> (r[2].Maximum? && r[2].phase == e.maxEclipse &&
      r[2].title == "Maximum " + showDouble(RoundToThreePlaces(e.magnitude)) + " at " + FormatHhMmSs(e.maxEclipse.when))
  {
    var left := Phases(PhasesTitle(ON_LEFT, e.eclipseType), Drawn(e.phasesBefore));
    var right := Phases(PhasesTitle(ON_RIGHT, e.eclipseType), Drawn(e.phasesAfter));
    if e.eclipseType != Total then
      var title := "Maximum " + showDouble(RoundToThreePlaces(e.magnitude)) + " at " + FormatHhMmSs(e.maxEclipse.when);
      [left, right, Maximum(title, e.maxEclipse)]
    else [left, right]
  }
}
