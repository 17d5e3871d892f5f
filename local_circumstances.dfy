/**
 LocalCircumstances: the local circumstances of a solar eclipse, found by inverse interpolation
 over worksheets: the local maximum, the four contacts, the partial phases sampled around the
 peak, and the timeline of events.
 */
module Circumstances {
  import W = Wrappers
  import opened JavaMath
  import opened Time
  import opened EclipseTypes
  import opened Carriers
  import opened Locations
  import opened Worksheets
  import opened Timeline

  /** The tolerance of the inverse interpolation, in hours (0.036 s). */
  const FRACTION_OF_A_SECOND: real := 0.00001

  const START: bool := true
  const END: bool := false
  const PENUMBRA: bool := true
  const UMBRA: bool := false

  /** The Sun's radius is the unit of the distances of a partial phase. */
  const SOLAR_RADIUS: real := 1.0

  /** The stopping test of both iterations: a correction no larger than the tolerance. */
  predicate Settled(correction: real) {
    Abs(correction) <= FRACTION_OF_A_SECOND
  }

  // ---------------------------------------------------------------------------
  // Partial phases

  /**
   `buildPartialPhaseFrom`: with the Sun's radius as unit, the Moon's radius is A and the distance
   between the centres is 1 - 2G + A, G being the covered fraction of the Sun's diameter.
   */
  function PartialPhaseOf(g: Geometry, when: LocalDateTime): (r: PartialPhase)
    ensures r.when == when && r.zenithAngle == g.Z && r.magnitude == g.G && r.altitude == g.h
    ensures r.lunarRadius == g.A
    ensures r.lunarSolarDistance + 2.0 * r.magnitude == SOLAR_RADIUS + r.lunarRadius
  {
    PartialPhase(when, g.Z, SOLAR_RADIUS - 2.0 * g.G + g.A, g.A, g.G, g.h)
  }

  /**
   The distance 1 - 2G + A is the separation m of the Moon's shadow axis from the observer, scaled
   so that the penumbral radius (L1' + L2') / 2 maps to the sum of the two radii.
   */
  lemma PhaseDistanceIsSeparation(g: Geometry, when: LocalDateTime)
    requires Coherent(g) && g.L1prime + g.L2prime != 0.0
    ensures PartialPhaseOf(g, when).lunarSolarDistance * (g.L1prime + g.L2prime) == 2.0 * g.m
  {
    var s := g.L1prime + g.L2prime;
    assert g.G * s == g.L1prime - g.m;
    assert g.A * s == g.L1prime - g.L2prime;
    calc {
      PartialPhaseOf(g, when).lunarSolarDistance * s;
      (1.0 - 2.0 * g.G + g.A) * s;
      s - 2.0 * (g.G * s) + g.A * s;
    }
  }

  /**
   The disks overlap exactly when there is an eclipse: the centres are no further apart than the
   sum of the radii, 1 + A, exactly when the magnitude is not negative.
   */
  lemma DisksOverlapIffEclipse(g: Geometry, when: LocalDateTime)
    ensures var p := PartialPhaseOf(g, when);
      p.lunarSolarDistance <= SOLAR_RADIUS + p.lunarRadius <==> LocalEclipseType(g) != None
  {
  }

  // ---------------------------------------------------------------------------
  // Evenly spaced times

  // The sign of the offsets from the base time, back for the start and forward for the end, is
  // `Worksheets.Sign`: `LocalCircumstances` computes it the same way.

  /** The k-th sample, `baseTime + sign * k * gap / 60.0`: the product is an integer, divided as a double. */
  function Sample(base: real, sign: int, k: int, gap: int): real {
    base + (sign * k * gap) as real / 60.0
  }

  /** Consecutive samples are one gap apart, in the given direction. */
  lemma SampleStep(base: real, sign: int, k: int, gap: int)
    ensures Sample(base, sign, k + 1, gap) - Sample(base, sign, k, gap) == (sign * gap) as real / 60.0
  {
    assert sign * (k + 1) * gap == sign * k * gap + sign * gap;
  }

  /**
   What `evenlySpacedTimesWithRespectToPeak` returns: the samples k = 1, 2, ... in order, every one
   strictly inside (lo, hi), up to and not including the first sample outside.
   */
  ghost predicate SamplingOf(times: seq<real>, base: real, sign: int, gap: int, lo: real, hi: real) {
    (forall i :: 0 <= i < |times| ==> times[i] == Sample(base, sign, i + 1, gap) && lo < times[i] < hi) &&
    !(lo < Sample(base, sign, |times| + 1, gap) < hi)
  }

  /** The sampling is determined by its inputs: it stops at the first sample outside the interval. */
  lemma SamplingUnique(s1: seq<real>, s2: seq<real>, base: real, sign: int, gap: int, lo: real, hi: real)
    requires SamplingOf(s1, base, sign, gap, lo, hi) && SamplingOf(s2, base, sign, gap, lo, hi)
    ensures s1 == s2
  {
    if |s1| < |s2| {
      SampleInside(s2, base, sign, gap, lo, hi, |s1|);
      assert false;
    } else if |s2| < |s1| {
      SampleInside(s1, base, sign, gap, lo, hi, |s2|);
      assert false;
    }
  }

  /** Every sample before the stopping one lies inside the interval. */
  lemma SampleInside(times: seq<real>, base: real, sign: int, gap: int, lo: real, hi: real, k: nat)
    requires SamplingOf(times, base, sign, gap, lo, hi) && k < |times|
    ensures lo < Sample(base, sign, k + 1, gap) < hi
  {
    assert times[k] == Sample(base, sign, k + 1, gap);
  }

  /** A base time outside the interval gives no samples only if the first sample is outside too. */
  lemma NoSamplesWhenFirstOutside(times: seq<real>, base: real, sign: int, gap: int, lo: real, hi: real)
    requires SamplingOf(times, base, sign, gap, lo, hi)
    ensures times == [] <==> !(lo < Sample(base, sign, 1, gap) < hi)
  {
    if times != [] {
      assert times[0] == Sample(base, sign, 1, gap);
    }
  }


  /** A sample inside the interval has a count below the bound of the loop. */
  lemma SampleWithinBound(base: real, sign: int, k: int, gap: int, lo: real, hi: real)
    requires sign == -1 || sign == 1
    requires gap != 0 && k >= 1
    requires lo < Sample(base, sign, k, gap) < hi
    ensures k <= (60.0 * (Abs(hi - base) + Abs(lo - base))).Floor
  {
    var step := sign * gap;
    assert step != 0 by {
      if sign == 1 { assert step == gap; } else { assert step == -gap; }
    }
    assert sign * k * gap == k * step;
    CountWithinOffset(k, step);
    var t := Sample(base, sign, k, gap);
    assert (k as real) / 60.0 <= Abs(t - base) < Abs(hi - base) + Abs(lo - base);
    WholeBelowFloor(k, 60.0 * (Abs(hi - base) + Abs(lo - base)));
  }

  /** k whole steps of at least one minute each cover at least k minutes. */
  lemma CountWithinOffset(k: int, step: int)
    requires k >= 1 && step != 0
    ensures k as real <= Abs((k * step) as real)
  {
    if step > 0 {
      assert k * step >= k;
    } else {
      assert k * step <= -k;
    }
  }

  /** An integer no greater than a real is no greater than its floor. */
  lemma WholeBelowFloor(k: int, x: real)
    requires k as real <= x
    ensures k <= x.Floor
  {
  }

  // ---------------------------------------------------------------------------
  // The timeline

  /** `specificTimeWithRespectToPeak`: a number of minutes before or after a base time, in hours from T0. */
  function SpecificTime(baseT: real, isBefore: bool, minutes: real): (r: real)
    ensures isBefore && minutes > 0.0 ==> r < baseT
    ensures !isBefore && minutes > 0.0 ==> r > baseT
    ensures (r - baseT) * 60.0 == Sign(isBefore) as real * minutes
  {
    baseT + (Sign(isBefore) as real * minutes) / 60.0
  }

  // The texts of the events of the timeline.
  const PARTIAL_STARTS: string := "Start of the partial phase."
  const PINHOLES_START: string := "Shadows of pinholes start to appear strange."
  const BANDS_START: string := "Shadow-bands may appear on the ground, buildings."
  const BEADS_START: string := "Baily's beads/diamond ring start."
  const TOTALITY_STARTS: string := "TOTALITY STARTS. View with naked eye, unfiltered."
  const MAXIMUM: string := "Maximum eclipse."
  const MAXIMUM_PARTIAL: string := "MAXIMUM eclipse."
  const TOTALITY_ENDS: string := "TOTALITY ENDS. Resume viewing with filter."
  const BEADS_END: string := "Baily's beads/diamond ring just after totality."
  const BANDS_END: string := "Shadow-bands no longer appear on the ground, buildings."
  const PINHOLES_END: string := "Shadows of pinholes no longer appear strange."
  const PARTIAL_ENDS: string := "End of the partial phase."
  const INCREASING: string := "Partial phase increasing."
  const DECREASING: string := "Partial phase decreasing."
  const ANNULARITY_STARTS: string := "ANNULARITY STARTS."
  const ANNULARITY_ENDS: string := "ANNULARITY ENDS."

  /** Where one event of the timeline comes from. */
  datatype EventSource =
    | AtTime(text: string, t: real, baseT: real)               // `eventFor` and `standardOffsetEventFor`
    | OfPhase(text: string, phase: PartialPhase, baseT: real)  // one event of `eventsFor`

  /**
   The event of a source: its clock time, its text, its offset from the civil time at the base, and
   the magnitude and altitude of the worksheet (or of the partial phase) it comes from. `sheet`
   gives the worksheet at each time.
   */
  function Realize(e: EventSource, sheet: real -> Geometry, dT: real, bessel: BesselianElements, location: Location): TimelineEvent {
    match e
    case AtTime(text, t, baseT) =>
      var when := CivilTimeAt(bessel, location, t, dT);
      MakeEvent(when.time, text, Between(CivilTimeAt(bessel, location, baseT, dT), when), sheet(t).G, sheet(t).h)
    case OfPhase(text, phase, baseT) =>
      MakeEvent(phase.when.time, text, Between(CivilTimeAt(bessel, location, baseT, dT), phase.when), phase.magnitude, phase.altitude)
  }

  /**
   What an event says: the clock time it happens at, its text, the time from the base to it, and
   the magnitude of the worksheet (or the partial phase) it comes from.
   */
  lemma RealizeMeaning(e: EventSource, sheet: real -> Geometry, dT: real, bessel: BesselianElements, location: Location)
    ensures var r := Realize(e, sheet, dT, bessel, location);
      var when := if e.AtTime? then CivilTimeAt(bessel, location, e.t, dT) else e.phase.when;
      r.when == when.time && r.text == e.text && PlusNanos(CivilTimeAt(bessel, location, e.baseT, dT), r.plusMinus) == when &&
      r.magnitude == if e.AtTime? then sheet(e.t).G else e.phase.magnitude
  {
  }

  /** The events of a list of sources, in the same order. */
  function RealizeAll(plan: seq<EventSource>, sheet: real -> Geometry, dT: real, bessel: BesselianElements, location: Location): (r: seq<TimelineEvent>)
    ensures |r| == |plan|
    ensures forall i :: 0 <= i < |plan| ==> r[i] == Realize(plan[i], sheet, dT, bessel, location)
  {
    seq(|plan|, i requires 0 <= i < |plan| => Realize(plan[i], sheet, dT, bessel, location))
  }

  /** Realizing a plan piece by piece realizes it whole. */
  lemma RealizeAllAppend(p: seq<EventSource>, q: seq<EventSource>, sheet: real -> Geometry, dT: real, bessel: BesselianElements, location: Location)
    ensures RealizeAll(p + q, sheet, dT, bessel, location) == RealizeAll(p, sheet, dT, bessel, location) + RealizeAll(q, sheet, dT, bessel, location)
  {
    var r := RealizeAll(p + q, sheet, dT, bessel, location);
    var r' := RealizeAll(p, sheet, dT, bessel, location) + RealizeAll(q, sheet, dT, bessel, location);
    assert |r| == |r'|;
    forall i | 0 <= i < |r|
      ensures r[i] == r'[i]
    {
      if i < |p| {
        assert (p + q)[i] == p[i];
      } else {
        assert (p + q)[i] == q[i - |p|];
      }
    }
  }

  /** The sources of `eventsFor`: one per partial phase, in order. */
  function PhaseSources(text: string, phases: seq<PartialPhase>, baseT: real): (r: seq<EventSource>)
    ensures |r| == |phases|
    ensures forall i :: 0 <= i < |phases| ==> r[i] == OfPhase(text, phases[i], baseT)
  {
    seq(|phases|, i requires 0 <= i < |phases| => OfPhase(text, phases[i], baseT))
  }

  /**
   The times, in hours from T0, a timeline is built from: the maximum, the contacts of the partial
   phase and the contacts of the total or annular phase (which a partial eclipse does not use).
   */
  datatype Moments = Moments(max: real, startPartial: real, endPartial: real, startUmbra: real, endUmbra: real)

  /**
   `baseTimeWithRespectToPeak`: the partial phases and the standard offsets of a total eclipse are
   timed from the start (before) or the end (after) of totality; those of any other type from the
   maximum.
   */
  function BaseTime(isBefore: bool, eclipseType: EclipseType, at: Moments): (r: real)
    ensures eclipseType == Total && isBefore ==> r == at.startUmbra
    ensures eclipseType == Total && !isBefore ==> r == at.endUmbra
    ensures eclipseType != Total ==> r == at.max
  {
    if eclipseType == Total then (if isBefore then at.startUmbra else at.endUmbra) else at.max
  }

  /**
   The sources of a total eclipse's timeline up to the start of totality, all timed from it; the
   three standard offsets fall before it.
   */
  function TotalStartPlan(at: Moments): (r: seq<EventSource>)
    ensures |r| == 5 && forall i :: 0 <= i < 5 ==> r[i].AtTime? && r[i].baseT == BaseTime(START, Total, at)
    ensures forall i :: 1 <= i <= 3 ==> r[i].t < r[i].baseT
  {
    var early := BaseTime(START, Total, at);
    [AtTime(PARTIAL_STARTS, at.startPartial, early),
     AtTime(PINHOLES_START, SpecificTime(early, START, 20.0), early),
     AtTime(BANDS_START, SpecificTime(early, START, 2.0), early),
     AtTime(BEADS_START, SpecificTime(early, START, 10.0 / 60.0), early),
     AtTime(TOTALITY_STARTS, at.startUmbra, early)]
  }

  /**
   The sources of a total eclipse's timeline from the end of totality, all timed from it; the
   three standard offsets fall after it.
   */
  function TotalEndPlan(at: Moments): (r: seq<EventSource>)
    ensures |r| == 5 && forall i :: 0 <= i < 5 ==> r[i].AtTime? && r[i].baseT == BaseTime(END, Total, at)
    ensures forall i :: 1 <= i <= 3 ==> r[i].t > r[i].baseT
  {
    var late := BaseTime(END, Total, at);
    [AtTime(TOTALITY_ENDS, at.endUmbra, late),
     AtTime(BEADS_END, SpecificTime(late, END, 3.0 / 60.0), late),
     AtTime(BANDS_END, SpecificTime(late, END, 2.0), late),
     AtTime(PINHOLES_END, SpecificTime(late, END, 20.0), late),
     AtTime(PARTIAL_ENDS, at.endPartial, late)]
  }

  /** The sources of a total eclipse's timeline, in the order `computeTimelineEvents` adds them. */
  function TotalPlan(at: Moments): (r: seq<EventSource>)
    ensures |r| == 11
    ensures forall i :: 1 <= i <= 3 ==> r[i].AtTime? && r[i].t < r[i].baseT == BaseTime(START, Total, at)
    ensures forall i :: 7 <= i <= 9 ==> r[i].AtTime? && r[i].t > r[i].baseT == BaseTime(END, Total, at)
  {
    var r := TotalStartPlan(at) + [AtTime(MAXIMUM, at.max, at.max)] + TotalEndPlan(at);
    assert forall i :: 7 <= i <= 9 ==> r[i] == TotalEndPlan(at)[i - 6];
    r
  }

  /** The sources of a partial eclipse's timeline, all timed from the maximum. */
  function PartialPlan(at: Moments, before: seq<PartialPhase>, after: seq<PartialPhase>): (r: seq<EventSource>)
    ensures |r| == 3 + |before| + |after|
    ensures forall i :: 0 <= i < |r| ==> r[i].baseT == at.max
  {
    [AtTime(PARTIAL_STARTS, at.startPartial, at.max)] +
    PhaseSources(INCREASING, before, at.max) +
    [AtTime(MAXIMUM_PARTIAL, at.max, at.max)] +
    PhaseSources(DECREASING, after, at.max) +
    [AtTime(PARTIAL_ENDS, at.endPartial, at.max)]
  }

  /** The sources of an annular eclipse's timeline, all timed from the maximum. */
  function AnnularPlan(at: Moments, before: seq<PartialPhase>, after: seq<PartialPhase>): (r: seq<EventSource>)
    ensures |r| == 5 + |before| + |after|
    ensures forall i :: 0 <= i < |r| ==> r[i].baseT == at.max
  {
    [AtTime(PARTIAL_STARTS, at.startPartial, at.max)] +
    PhaseSources(INCREASING, before, at.max) +
    [AtTime(ANNULARITY_STARTS, at.startUmbra, at.max),
     AtTime(MAXIMUM, at.max, at.max),
     AtTime(ANNULARITY_ENDS, at.endUmbra, at.max)] +
    PhaseSources(DECREASING, after, at.max) +
    [AtTime(PARTIAL_ENDS, at.endPartial, at.max)]
  }

  /** The events of a partial eclipse's plan, piece by piece. */
  lemma RealizePartialPlan(at: Moments, before: seq<PartialPhase>, after: seq<PartialPhase>, sheet: real -> Geometry, dT: real, bessel: BesselianElements, location: Location)
    ensures RealizeAll(PartialPlan(at, before, after), sheet, dT, bessel, location) ==
      [Realize(AtTime(PARTIAL_STARTS, at.startPartial, at.max), sheet, dT, bessel, location)] +
      RealizeAll(PhaseSources(INCREASING, before, at.max), sheet, dT, bessel, location) +
      [Realize(AtTime(MAXIMUM_PARTIAL, at.max, at.max), sheet, dT, bessel, location)] +
      RealizeAll(PhaseSources(DECREASING, after, at.max), sheet, dT, bessel, location) +
      [Realize(AtTime(PARTIAL_ENDS, at.endPartial, at.max), sheet, dT, bessel, location)]
  {
    var p0, p1 := [AtTime(PARTIAL_STARTS, at.startPartial, at.max)], PhaseSources(INCREASING, before, at.max);
    var p2, p3 := [AtTime(MAXIMUM_PARTIAL, at.max, at.max)], PhaseSources(DECREASING, after, at.max);
    var p4 := [AtTime(PARTIAL_ENDS, at.endPartial, at.max)];
    RealizeAllAppend(p0, p1, sheet, dT, bessel, location);
    RealizeAllAppend(p0 + p1, p2, sheet, dT, bessel, location);
    RealizeAllAppend(p0 + p1 + p2, p3, sheet, dT, bessel, location);
    RealizeAllAppend(p0 + p1 + p2 + p3, p4, sheet, dT, bessel, location);
  }

  /** The events of an annular eclipse's plan, piece by piece. */
  lemma RealizeAnnularPlan(at: Moments, before: seq<PartialPhase>, after: seq<PartialPhase>, sheet: real -> Geometry, dT: real, bessel: BesselianElements, location: Location)
    ensures RealizeAll(AnnularPlan(at, before, after), sheet, dT, bessel, location) ==
      [Realize(AtTime(PARTIAL_STARTS, at.startPartial, at.max), sheet, dT, bessel, location)] +
      RealizeAll(PhaseSources(INCREASING, before, at.max), sheet, dT, bessel, location) +
      [Realize(AtTime(ANNULARITY_STARTS, at.startUmbra, at.max), sheet, dT, bessel, location),
       Realize(AtTime(MAXIMUM, at.max, at.max), sheet, dT, bessel, location),
       Realize(AtTime(ANNULARITY_ENDS, at.endUmbra, at.max), sheet, dT, bessel, location)] +
      RealizeAll(PhaseSources(DECREASING, after, at.max), sheet, dT, bessel, location) +
      [Realize(AtTime(PARTIAL_ENDS, at.endPartial, at.max), sheet, dT, bessel, location)]
  {
    var p0, p1 := [AtTime(PARTIAL_STARTS, at.startPartial, at.max)], PhaseSources(INCREASING, before, at.max);
    var p2 := [AtTime(ANNULARITY_STARTS, at.startUmbra, at.max), AtTime(MAXIMUM, at.max, at.max), AtTime(ANNULARITY_ENDS, at.endUmbra, at.max)];
    var p3, p4 := PhaseSources(DECREASING, after, at.max), [AtTime(PARTIAL_ENDS, at.endPartial, at.max)];
    RealizeAllAppend(p0, p1, sheet, dT, bessel, location);
    RealizeAllAppend(p0 + p1, p2, sheet, dT, bessel, location);
    RealizeAllAppend(p0 + p1 + p2, p3, sheet, dT, bessel, location);
    RealizeAllAppend(p0 + p1 + p2 + p3, p4, sheet, dT, bessel, location);
  }

  /**
   The sources of the timeline of each local type, before sorting. Every timeline of an eclipse
   opens with the start and closes with the end of the partial phase; no other type has events.
   */
  function TimelinePlan(eclipseType: EclipseType, at: Moments, before: seq<PartialPhase>, after: seq<PartialPhase>): (r: seq<EventSource>)
    ensures eclipseType == Total ==> |r| == 11
    ensures eclipseType == Partial ==> |r| == 3 + |before| + |after|
    ensures eclipseType == Annular ==> |r| == 5 + |before| + |after|
    ensures eclipseType == None || eclipseType == Hybrid <==> r == []
    ensures r != [] ==> r[0] == AtTime(PARTIAL_STARTS, at.startPartial, r[0].baseT)
    ensures r != [] ==> r[|r| - 1] == AtTime(PARTIAL_ENDS, at.endPartial, r[|r| - 1].baseT)
  {
    match eclipseType
    case Total => TotalPlan(at)
    case Partial => PartialPlan(at, before, after)
    case Annular => AnnularPlan(at, before, after)
    case _ => []
  }

  // ---------------------------------------------------------------------------
  // Inverse interpolation

  /** What an iteration refines: the time of the local maximum, or one of the four contacts. */
  datatype Target = LocalMax | Contact(isBefore: bool, isPenumbra: bool)

  /** The correction towards the target of the worksheet at each time, `sheet` giving the worksheet. */
  ghost function CorrectionsOf(sheet: real -> Geometry, trig: Trig, target: Target): real -> real {
    t => Correction(sheet(t), trig, target)
  }

  /** The correction the worksheet `g` gives towards the target: tauM, or `correctionToTimeOfContact`. */
  function Correction(g: Geometry, trig: Trig, target: Target): real {
    match target
    case LocalMax => g.tauM
    case Contact(isBefore, isPenumbra) => CorrectionToTimeOfContact(g, isBefore, isPenumbra, trig)
  }

  /** The n-th time of an iteration that never stops: each time plus the correction at it. */
  function Iterate(corr: real -> real, t: real, n: nat): real
    decreases n
  {
    if n == 0 then t else Iterate(corr, t + corr(t), n - 1)
  }

  /**
   The time the loops of `computeLocalMax` and `computeContact` stop at, `corr` giving the
   correction at each time: the first iterate whose correction is settled, or the one reached when
   `fuel` corrections have been applied.
   */
  function Converged(corr: real -> real, t: real, fuel: nat): real
    decreases fuel
  {
    if Settled(corr(t)) || fuel == 0 then t else Converged(corr, t + corr(t), fuel - 1)
  }

  /**
   The exit condition: the iteration stops at a settled correction, or else `fuel` ran out with
   every iterate before it unsettled.
   */
  lemma {:induction false} ConvergedExit(corr: real -> real, t: real, fuel: nat)
    ensures var r := Converged(corr, t, fuel);
      Settled(corr(r)) || (r == Iterate(corr, t, fuel) && forall j :: 0 <= j < fuel ==> !Settled(corr(Iterate(corr, t, j))))
    decreases fuel
  {
    if !Settled(corr(t)) && fuel > 0 {
      ConvergedExit(corr, t + corr(t), fuel - 1);
      assert Converged(corr, t, fuel) == Converged(corr, t + corr(t), fuel - 1);
      if !Settled(corr(Converged(corr, t, fuel))) {
        forall j | 0 <= j < fuel
          ensures !Settled(corr(Iterate(corr, t, j)))
        {
          if j > 0 {
            assert Iterate(corr, t, j) == Iterate(corr, t + corr(t), j - 1);
            assert 0 <= j - 1 < fuel - 1;
            assert !Settled(corr(Iterate(corr, t + corr(t), j - 1)));
          } else {
            assert Iterate(corr, t, j) == t;
          }
        }
      }
    }
  }

  /** Once settled, more fuel does not change where the iteration stops. */
  lemma {:induction false} ConvergedStable(corr: real -> real, t: real, fuel: nat)
    requires Settled(corr(Converged(corr, t, fuel)))
    ensures Converged(corr, t, fuel + 1) == Converged(corr, t, fuel)
    decreases fuel
  {
    if !Settled(corr(t)) && fuel > 0 {
      ConvergedStable(corr, t + corr(t), fuel - 1);
    }
  }

  /** One step of a loop: an unsettled correction is applied, at the cost of one unit of fuel. */
  lemma ConvergedStep(corr: real -> real, t: real, fuel: nat)
    requires !Settled(corr(t)) && fuel > 0
    ensures Converged(corr, t, fuel) == Converged(corr, t + corr(t), fuel - 1)
  {
  }

  /** The first time `computeContact` tries: the maximum's time plus its initial correction. */
  function ContactSeed(sheet: real -> Geometry, trig: Trig, tMax: real, isBefore: bool, isPenumbra: bool): (r: real)
    ensures Abs(r - tMax) == Abs(InitialCorrection(sheet(tMax), isBefore, isPenumbra, trig))
  {
    tMax + InitialCorrection(sheet(tMax), isBefore, isPenumbra, trig)
  }

  /**
   Starting from a maximum whose tauM is settled, the first correction towards a contact is the
   initial correction itself, give or take the tolerance.
   */
  lemma SeedCorrectionNearInitial(g: Geometry, trig: Trig, isBefore: bool, isPenumbra: bool)
    requires Coherent(g) && Settled(Correction(g, trig, LocalMax))
    ensures Abs(Correction(g, trig, Contact(isBefore, isPenumbra)) - InitialCorrection(g, isBefore, isPenumbra, trig)) <= FRACTION_OF_A_SECOND
  {
    ContactCorrectionFromMax(g, isPenumbra, trig);
  }

  /** The time `computeContact` converges to from the maximum at `tMax`, `sheet` giving the worksheet at each time. */
  ghost function ContactTimeOf(sheet: real -> Geometry, trig: Trig, tMax: real, isBefore: bool, isPenumbra: bool, fuel: nat): real {
    Converged(CorrectionsOf(sheet, trig, Contact(isBefore, isPenumbra)), ContactSeed(sheet, trig, tMax, isBefore, isPenumbra), fuel)
  }

  /** The UTC of `a` is after that of `b`. */
  predicate Late(a: Worksheet, b: Worksheet) {
    IsAfter(a.UTC(), b.UTC())
  }

  /** `w` holds, field by field, the worksheet `g`. */
  ghost predicate Agrees(w: Worksheet, g: Geometry)
    reads w
  {
    w.X == g.X && w.Y == g.Y && w.d == g.d && w.MU == g.MU && w.L1 == g.L1 && w.L2 == g.L2 &&
    w.Xprime == g.Xprime && w.Yprime == g.Yprime && w.H == g.H && w.xi == g.xi && w.eta == g.eta &&
    w.zeta == g.zeta && w.M1 == g.M1 && w.d1 == g.d1 && w.xiPrime == g.xiPrime && w.etaPrime == g.etaPrime &&
    w.u == g.u && w.v == g.v && w.m == g.m && w.a == g.a && w.b == g.b && w.n == g.n &&
    w.L1prime == g.L1prime && w.L2prime == g.L2prime && w.tauM == g.tauM && w.G == g.G && w.P == g.P &&
    w.A == g.A && w.h == g.h && w.az == g.az && w.q == g.q && w.Z == g.Z
  }

  /** Agreeing field by field is agreeing as a value. */
  lemma AgreesIffSnapshot(w: Worksheet, g: Geometry)
    ensures Agrees(w, g) <==> w.Snapshot() == g
  {
  }

  /** The partial phases at the given times, in order, each from the worksheet at its time. */
  ghost function PhasesAt(sheet: real -> Geometry, dT: real, bessel: BesselianElements, location: Location, times: seq<real>): (r: seq<PartialPhase>)
    ensures |r| == |times|
    ensures forall i :: 0 <= i < |times| ==> r[i] == PartialPhaseOf(sheet(times[i]), CivilTimeAt(bessel, location, times[i], dT))
  {
    seq(|times|, i requires 0 <= i < |times| => PartialPhaseOf(sheet(times[i]), CivilTimeAt(bessel, location, times[i], dT)))
  }

  /** The times of the partial phases lie on the side of the base time they are meant for. */
  lemma SamplesOnTheirSide(times: seq<real>, base: real, isBefore: bool, gap: int, lo: real, hi: real)
    requires gap > 0 && SamplingOf(times, base, Sign(isBefore), gap, lo, hi)
    ensures forall i :: 0 <= i < |times| ==> (times[i] < base <==> isBefore) && times[i] != base
  {
    forall i | 0 <= i < |times|
      ensures (times[i] < base <==> isBefore) && times[i] != base
    {
      var sign := Sign(isBefore);
      assert times[i] == Sample(base, sign, i + 1, gap);
      if isBefore {
        assert sign * (i + 1) * gap == -((i + 1) * gap) < 0;
      } else {
        assert sign * (i + 1) * gap == (i + 1) * gap > 0;
      }
    }
  }

  // ---------------------------------------------------------------------------
  // The calculation

  /**
   The local circumstances of one eclipse at one location. The constructor stores the inputs;
   `Compute` fills in the worksheets of the maximum and the contacts, the partial phases and the
   timeline. Fields the source leaves null until they are computed are `null` or `None` here.
   `sheetOf` is the worksheet at each time, as a value: it is what the computed worksheets are
   proved to hold.
   */
  class LocalCircumstances {
    const location: Location
    const bessel: BesselianElements
    const dT: real
    const gap: int
    const trig: Trig
    ghost const sheetOf: real -> Geometry
    /** The time `computeContact` converges to, by the time of the maximum, the side, the cone and the fuel. */
    ghost const contactAt: (real, bool, bool, nat) -> real

    var maximumEclipse: Worksheet?
    var startPartialEclipse: Worksheet?
    var endPartialEclipse: Worksheet?
    var partialPhasesStart: W.Option<seq<PartialPhase>>
    var partialPhasesEnd: W.Option<seq<PartialPhase>>
    var startTotalOrAnnularEclipse: Worksheet?
    var endTotalOrAnnularEclipse: Worksheet?
    var timelineEvents: W.Option<seq<TimelineEvent>>
    /** The sampled times the partial phases were computed at. */
    ghost var timesBefore: seq<real>
    ghost var timesAfter: seq<real>

    /** `sheetOf` is the worksheet of these elements, this location and this Delta T at every time. */
    ghost predicate Valid() {
      Usable(bessel) &&
      (forall t {:trigger SheetAt(t, dT, bessel, location, trig)} :: sheetOf(t) == SheetAt(t, dT, bessel, location, trig))
    }

    /** `contactAt` is where `computeContact` converges. */
    ghost predicate ContactsDefined() {
      (forall tMax, isBefore, isPenumbra, fuel: nat {:trigger ContactTime(tMax, isBefore, isPenumbra, fuel)} ::
        contactAt(tMax, isBefore, isPenumbra, fuel) == ContactTime(tMax, isBefore, isPenumbra, fuel))
    }

    constructor(location: Location, bessel: BesselianElements, dT: real, gap: int, trig: Trig)
      requires Usable(bessel)
      ensures this.location == location && this.bessel == bessel && this.dT == dT && this.gap == gap && this.trig == trig
      ensures maximumEclipse == null && startPartialEclipse == null && endPartialEclipse == null
      ensures startTotalOrAnnularEclipse == null && endTotalOrAnnularEclipse == null
      ensures partialPhasesStart.None? && partialPhasesEnd.None? && timelineEvents.None?
      ensures Valid() && ContactsDefined()
    {
      this.location := location;
      this.bessel := bessel;
      this.dT := dT;
      this.gap := gap;
      this.trig := trig;
      var sheet := t => SheetAt(t, dT, bessel, location, trig);
      sheetOf := sheet;
      contactAt := (tMax, isBefore, isPenumbra, fuel: nat) => ContactTimeOf(sheet, trig, tMax, isBefore, isPenumbra, fuel);
      maximumEclipse, startPartialEclipse, endPartialEclipse := null, null, null;
      startTotalOrAnnularEclipse, endTotalOrAnnularEclipse := null, null;
      partialPhasesStart, partialPhasesEnd, timelineEvents := W.None, W.None, W.None;
      new;
      forall tMax, isBefore, isPenumbra, fuel: nat
        ensures contactAt(tMax, isBefore, isPenumbra, fuel) == ContactTime(tMax, isBefore, isPenumbra, fuel)
      {
        assert contactAt(tMax, isBefore, isPenumbra, fuel) == ContactTimeOf(sheet, trig, tMax, isBefore, isPenumbra, fuel);
      }
    }

    /** `w` keeps the clock of this eclipse, location and Delta T: the inputs its times depend on. */
    ghost predicate SameClock(w: Worksheet) {
      w.dT == dT && w.location == location &&
      w.bessel.whenMaxEclipse == bessel.whenMaxEclipse && w.bessel.t0 == bessel.t0
    }

    /** A worksheet with the same clock tells the same local civil time. */
    lemma ClockOf(w: Worksheet)
      requires SameClock(w)
      ensures w.LocalCivilTime() == CivilTimeAt(bessel, location, w.t, dT)
      ensures w.UTC() == ConvertToDateTime(bessel, w.t, dT)
    {
    }

    /** `w` is a computed worksheet of this eclipse, location and Delta T. */
    ghost predicate IsSheetFor(w: Worksheet)
      reads w
    {
      SameClock(w) && w.Snapshot() == sheetOf(w.t)
    }

    /** The correction towards the target of the worksheet at each time. */
    ghost function CorrOf(target: Target): real -> real {
      CorrectionsOf(sheetOf, trig, target)
    }

    /** A computed worksheet holds the worksheet at its time. */
    lemma SnapshotOf(w: Worksheet)
      requires IsSheetFor(w)
      ensures w.Snapshot() == sheetOf(w.t)
    {
      AgreesIffSnapshot(w, sheetOf(w.t));
    }

    /** `new Worksheet(t, ΔT, bessel, location)` followed by `compute()`. */
    method NewSheet(t: real) returns (w: Worksheet)
      requires Valid()
      ensures fresh(w) && w.t == t && IsSheetFor(w)
    {
      w := new Worksheet(t, dT, bessel, location, trig);
      w.Compute();
      AgreesIffSnapshot(w, sheetOf(t));
    }

    /** The tauM of a computed worksheet is the correction towards the maximum at its time. */
    lemma TauMOf(w: Worksheet)
      requires Valid() && IsSheetFor(w)
      ensures w.tauM == CorrOf(LocalMax)(w.t)
    {
      assert Correction(sheetOf(w.t), trig, LocalMax) == w.tauM;
    }

    /** `computeLocalMax`: from t = 0, apply tauM until it settles. */
    method ComputeLocalMax(fuel: nat) returns (w: Worksheet)
      requires Valid()
      ensures fresh(w) && IsSheetFor(w)
      ensures w.t == Converged(CorrOf(LocalMax), 0.0, fuel)
    {
      w := NewSheet(0.0);
      TauMOf(w);
      var left := fuel;
      while !Settled(w.tauM) && left > 0
        invariant fresh(w) && IsSheetFor(w) && w.tauM == CorrOf(LocalMax)(w.t)
        invariant Converged(CorrOf(LocalMax), w.t, left) == Converged(CorrOf(LocalMax), 0.0, fuel)
      {
        ConvergedStep(CorrOf(LocalMax), w.t, left);
        w := NewSheet(w.t + w.tauM);
        TauMOf(w);
        left := left - 1;
      }
    }

    /**
     `corr` is the correction towards the target of the worksheet at each time. The trigger keeps
     the correction's formula out of sight until a worksheet's own correction is computed.
     */
    ghost predicate CorrectsTowards(corr: real -> real, target: Target) {
      forall t {:trigger Correction(sheetOf(t), trig, target)} :: corr(t) == Correction(sheetOf(t), trig, target)
    }

    /** The correction function of a target corrects towards it. */
    lemma CorrOfCorrects(target: Target)
      ensures CorrectsTowards(CorrOf(target), target)
    {
    }

    /** `correctionToTimeOfContact` of a computed worksheet. */
    method ContactCorrectionOf(w: Worksheet, isBefore: bool, isPenumbra: bool, ghost corr: real -> real) returns (c: real)
      requires IsSheetFor(w) && CorrectsTowards(corr, Contact(isBefore, isPenumbra))
      ensures c == corr(w.t)
    {
      SnapshotOf(w);
      c := CorrectionToTimeOfContact(w.Snapshot(), isBefore, isPenumbra, trig);
      assert c == Correction(sheetOf(w.t), trig, Contact(isBefore, isPenumbra));
    }

    /** `initialCorrectionToTimeOfContact` of a computed worksheet, added to its time. */
    method ContactSeedOf(localMaxEclipse: Worksheet, isBefore: bool, isPenumbra: bool) returns (t: real)
      requires IsSheetFor(localMaxEclipse)
      ensures t == ContactSeed(sheetOf, trig, localMaxEclipse.t, isBefore, isPenumbra)
    {
      SnapshotOf(localMaxEclipse);
      t := localMaxEclipse.t + InitialCorrection(localMaxEclipse.Snapshot(), isBefore, isPenumbra, trig);
    }

    /** The loop of `computeContact`: from the seed's worksheet, apply the correction until it settles. */
    method RefineContact(isBefore: bool, isPenumbra: bool, seed: real, fuel: nat, ghost corr: real -> real) returns (w: Worksheet)
      requires Valid() && CorrectsTowards(corr, Contact(isBefore, isPenumbra))
      ensures fresh(w) && IsSheetFor(w)
      ensures w.t == Converged(corr, seed, fuel)
    {
      w := NewSheet(seed);
      var left := fuel;
      var c := ContactCorrectionOf(w, isBefore, isPenumbra, corr);
      while !Settled(c) && left > 0
        invariant fresh(w) && IsSheetFor(w)
        invariant c == corr(w.t)
        invariant Converged(corr, w.t, left) == Converged(corr, seed, fuel)
      {
        ConvergedStep(corr, w.t, left);
        w := NewSheet(w.t + c);
        c := ContactCorrectionOf(w, isBefore, isPenumbra, corr);
        left := left - 1;
      }
    }

    /** `computeContact`: from the seed, apply `correctionToTimeOfContact` until it settles. */
    method ComputeContact(isBefore: bool, isPenumbra: bool, localMaxEclipse: Worksheet, fuel: nat) returns (w: Worksheet)
      requires Valid() && IsSheetFor(localMaxEclipse)
      ensures fresh(w) && IsSheetFor(w)
      ensures w.t == Converged(CorrOf(Contact(isBefore, isPenumbra)), ContactSeed(sheetOf, trig, localMaxEclipse.t, isBefore, isPenumbra), fuel)
    {
      var seed := ContactSeedOf(localMaxEclipse, isBefore, isPenumbra);
      CorrOfCorrects(Contact(isBefore, isPenumbra));
      w := RefineContact(isBefore, isPenumbra, seed, fuel, CorrOf(Contact(isBefore, isPenumbra)));
    }

    /**
     `confirmTheOrderOf`: the positions i at which the UTC of `ws[i]` is after that of `ws[i+1]`,
     which the source reports in its log.
     */
    method ConfirmTheOrderOf(ws: seq<Worksheet>) returns (outOfOrder: seq<int>)
      ensures forall i :: i in outOfOrder <==> 0 <= i < |ws| - 1 && Late(ws[i], ws[i + 1])
      ensures forall j, k :: 0 <= j < k < |outOfOrder| ==> outOfOrder[j] < outOfOrder[k]
    {
      outOfOrder := [];
      var idx := 0;
      while idx < |ws| - 1
        invariant 0 <= idx <= if |ws| == 0 then 0 else |ws| - 1
        invariant forall j :: 0 <= j < |outOfOrder| ==> 0 <= outOfOrder[j] < idx && Late(ws[outOfOrder[j]], ws[outOfOrder[j] + 1])
        invariant forall i :: 0 <= i < idx && Late(ws[i], ws[i + 1]) ==> i in outOfOrder
        invariant forall j, k :: 0 <= j < k < |outOfOrder| ==> outOfOrder[j] < outOfOrder[k]
      {
        if Late(ws[idx], ws[idx + 1]) {
          outOfOrder := outOfOrder + [idx];
        }
        idx := idx + 1;
      }
    }

    /** The time `computeContact` converges to, from the maximum at `tMax`. */
    ghost function ContactTime(tMax: real, isBefore: bool, isPenumbra: bool, fuel: nat): real {
      ContactTimeOf(sheetOf, trig, tMax, isBefore, isPenumbra, fuel)
    }

    /** The first and the last contact with one cone, each refined from the maximum. */
    method ComputeContactPair(isPenumbra: bool, max: Worksheet, fuel: nat) returns (start: Worksheet, end: Worksheet)
      requires Valid() && ContactsDefined() && IsSheetFor(max)
      ensures fresh(start) && fresh(end) && IsSheetFor(start) && IsSheetFor(end)
      ensures start.t == contactAt(max.t, START, isPenumbra, fuel)
      ensures end.t == contactAt(max.t, END, isPenumbra, fuel)
    {
      start := ComputeContact(START, isPenumbra, max, fuel);
      end := ComputeContact(END, isPenumbra, max, fuel);
      assert start.t == ContactTime(max.t, START, isPenumbra, fuel);
      assert end.t == ContactTime(max.t, END, isPenumbra, fuel);
    }

    /**
     The contacts step of `compute`: the start and end of the partial phase and, unless the local
     eclipse is partial, the start and end of the total or annular phase (null otherwise). The time
     order is confirmed as the source confirms it; the source only logs what it finds.
     */
    method ComputeContacts(max: Worksheet, fuel: nat) returns (start: Worksheet, end: Worksheet, startUmbra: Worksheet?, endUmbra: Worksheet?)
      requires Valid() && ContactsDefined() && IsSheetFor(max)
      ensures fresh(start) && fresh(end) && IsSheetFor(start) && IsSheetFor(end)
      ensures start.t == contactAt(max.t, START, PENUMBRA, fuel)
      ensures end.t == contactAt(max.t, END, PENUMBRA, fuel)
      ensures LocalEclipseType(sheetOf(max.t)) != Partial <==> startUmbra != null && endUmbra != null
      ensures startUmbra != null ==> fresh(startUmbra) && IsSheetFor(startUmbra) && startUmbra.t == contactAt(max.t, START, UMBRA, fuel)
      ensures endUmbra != null ==> fresh(endUmbra) && IsSheetFor(endUmbra) && endUmbra.t == contactAt(max.t, END, UMBRA, fuel)
    {
      SnapshotOf(max);
      var kind := LocalEclipseType(max.Snapshot());
      start, end := ComputeContactPair(PENUMBRA, max, fuel);
      var partialOrder := ConfirmTheOrderOf([start, end]);
      startUmbra, endUmbra := null, null;
      if kind != Partial {
        var s, e := ComputeContactPair(UMBRA, max, fuel);
        var umbralOrder := ConfirmTheOrderOf([start, s, e, end]);
        startUmbra, endUmbra := s, e;
      }
    }

    /** The times of the maximum and of the contacts; absent umbral contacts count as the maximum. */
    function Times(): (at: Moments)
      reads this`maximumEclipse, this`startPartialEclipse, this`endPartialEclipse, this`startTotalOrAnnularEclipse, this`endTotalOrAnnularEclipse
      requires maximumEclipse != null && startPartialEclipse != null && endPartialEclipse != null
      ensures at.max == maximumEclipse.t && at.startPartial == startPartialEclipse.t && at.endPartial == endPartialEclipse.t
      ensures at.startUmbra == if startTotalOrAnnularEclipse == null then at.max else startTotalOrAnnularEclipse.t
      ensures at.endUmbra == if endTotalOrAnnularEclipse == null then at.max else endTotalOrAnnularEclipse.t
    {
      Moments(maximumEclipse.t, startPartialEclipse.t, endPartialEclipse.t,
        if startTotalOrAnnularEclipse == null then maximumEclipse.t else startTotalOrAnnularEclipse.t,
        if endTotalOrAnnularEclipse == null then maximumEclipse.t else endTotalOrAnnularEclipse.t)
    }

    /** The local type of the eclipse, from the worksheet of the maximum. */
    ghost function Kind(): EclipseType
      reads this`maximumEclipse
      requires maximumEclipse != null
    {
      KindAt(maximumEclipse.t)
    }

    /** The local type of the eclipse, from the worksheet at the time of the maximum. */
    ghost function KindAt(tMax: real): EclipseType {
      LocalEclipseType(sheetOf(tMax))
    }

    /** The worksheets the partial phases and the timeline need: the umbral contacts only for a total or annular eclipse. */
    ghost predicate ContactsReady()
      reads this`maximumEclipse, this`startPartialEclipse, this`endPartialEclipse, this`startTotalOrAnnularEclipse, this`endTotalOrAnnularEclipse
      reads maximumEclipse, startPartialEclipse, endPartialEclipse, startTotalOrAnnularEclipse, endTotalOrAnnularEclipse
    {
      maximumEclipse != null && startPartialEclipse != null && endPartialEclipse != null &&
      IsSheetFor(maximumEclipse) && IsSheetFor(startPartialEclipse) && IsSheetFor(endPartialEclipse) &&
      (Kind() == Total || Kind() == Annular ==>
        startTotalOrAnnularEclipse != null && endTotalOrAnnularEclipse != null &&
        IsSheetFor(startTotalOrAnnularEclipse) && IsSheetFor(endTotalOrAnnularEclipse))
    }

    /** The local type of the computed maximum. */
    method KindOfMax() returns (k: EclipseType)
      requires maximumEclipse != null && IsSheetFor(maximumEclipse)
      ensures k == Kind()
    {
      SnapshotOf(maximumEclipse);
      k := LocalEclipseType(maximumEclipse.Snapshot());
    }

    /**
     `evenlySpacedTimesWithRespectToPeak`: the samples k = 1, 2, ... minutes-gaps away from the base
     time, while they lie strictly inside the partial phase. It stops because the samples move away
     from the base by at least a minute each; with a gap of 0 the source loops for ever.
     */
    method EvenlySpacedTimesWithRespectToPeak(isBefore: bool) returns (result: seq<real>)
      requires gap != 0 && ContactsReady()
      ensures SamplingOf(result, BaseTime(isBefore, Kind(), Times()), Sign(isBefore), gap, startPartialEclipse.t, endPartialEclipse.t)
    {
      var kind := KindOfMax();
      var baseTime := BaseTime(isBefore, kind, Times());
      var sign := Sign(isBefore);
      var lo, hi := startPartialEclipse.t, endPartialEclipse.t;
      var bound := (60.0 * (Abs(hi - baseTime) + Abs(lo - baseTime))).Floor + 1;
      result := [];
      var count := 1;
      while true
        invariant count == |result| + 1
        invariant forall i :: 0 <= i < |result| ==> result[i] == Sample(baseTime, sign, i + 1, gap) && lo < result[i] < hi
        decreases bound - count
      {
        var t := Sample(baseTime, sign, count, gap);
        if lo < t && t < hi {
          SampleWithinBound(baseTime, sign, count, gap, lo, hi);
          result := result + [t];
          count := count + 1;
        } else {
          break;
        }
      }
    }

    /** The events `computeTimelineEvents` adds for a total eclipse up to the start of totality. */
    method TotalStartTimeline() returns (r: seq<TimelineEvent>)
      requires Valid() && ContactsReady() && Kind() == Total
      ensures r == RealizeAll(TotalStartPlan(Times()), sheetOf, dT, bessel, location)
    {
      var base := startTotalOrAnnularEclipse;
      var e0 := EventFor(PARTIAL_STARTS, startPartialEclipse, base);
      var e1 := StandardOffsetEventFor(PINHOLES_START, 20.0, START, base);
      var e2 := StandardOffsetEventFor(BANDS_START, 2.0, START, base);
      var e3 := StandardOffsetEventFor(BEADS_START, 10.0 / 60.0, START, base);
      var e4 := EventFor(TOTALITY_STARTS, startTotalOrAnnularEclipse, base);
      r := [e0, e1, e2, e3, e4];
    }

    /** The events `computeTimelineEvents` adds for a total eclipse from the end of totality. */
    method TotalEndTimeline() returns (r: seq<TimelineEvent>)
      requires Valid() && ContactsReady() && Kind() == Total
      ensures r == RealizeAll(TotalEndPlan(Times()), sheetOf, dT, bessel, location)
    {
      var base := endTotalOrAnnularEclipse;
      var e0 := EventFor(TOTALITY_ENDS, endTotalOrAnnularEclipse, base);
      var e1 := StandardOffsetEventFor(BEADS_END, 3.0 / 60.0, END, base);
      var e2 := StandardOffsetEventFor(BANDS_END, 2.0, END, base);
      var e3 := StandardOffsetEventFor(PINHOLES_END, 20.0, END, base);
      var e4 := EventFor(PARTIAL_ENDS, endPartialEclipse, base);
      r := [e0, e1, e2, e3, e4];
    }

    /** The events `computeTimelineEvents` adds for a total eclipse, in the order it adds them. */
    method TotalTimeline() returns (r: seq<TimelineEvent>)
      requires Valid() && ContactsReady() && Kind() == Total
      ensures r == RealizeAll(TotalPlan(Times()), sheetOf, dT, bessel, location)
    {
      var before := TotalStartTimeline();
      var max := EventFor(MAXIMUM, maximumEclipse, maximumEclipse);
      var after := TotalEndTimeline();
      r := before + [max] + after;
      var at := Times();
      RealizeAllAppend(TotalStartPlan(at), [AtTime(MAXIMUM, at.max, at.max)], sheetOf, dT, bessel, location);
      RealizeAllAppend(TotalStartPlan(at) + [AtTime(MAXIMUM, at.max, at.max)], TotalEndPlan(at), sheetOf, dT, bessel, location);
    }

    /** The events `computeTimelineEvents` adds for a partial eclipse, in the order it adds them. */
    method PartialTimeline() returns (r: seq<TimelineEvent>)
      requires Valid() && ContactsReady() && partialPhasesStart.Some? && partialPhasesEnd.Some?
      ensures r == RealizeAll(PartialPlan(Times(), partialPhasesStart.value, partialPhasesEnd.value), sheetOf, dT, bessel, location)
    {
      var base := maximumEclipse;
      var e0 := EventFor(PARTIAL_STARTS, startPartialEclipse, base);
      var increasing := EventsFor(INCREASING, partialPhasesStart.value, base);
      var e1 := EventFor(MAXIMUM_PARTIAL, maximumEclipse, base);
      var decreasing := EventsFor(DECREASING, partialPhasesEnd.value, base);
      var e2 := EventFor(PARTIAL_ENDS, endPartialEclipse, base);
      r := [e0] + increasing + [e1] + decreasing + [e2];
      RealizePartialPlan(Times(), partialPhasesStart.value, partialPhasesEnd.value, sheetOf, dT, bessel, location);
    }

    /** The events `computeTimelineEvents` adds for an annular eclipse, in the order it adds them. */
    method AnnularTimeline() returns (r: seq<TimelineEvent>)
      requires Valid() && ContactsReady() && Kind() == Annular && partialPhasesStart.Some? && partialPhasesEnd.Some?
      ensures r == RealizeAll(AnnularPlan(Times(), partialPhasesStart.value, partialPhasesEnd.value), sheetOf, dT, bessel, location)
    {
      var base := maximumEclipse;
      var e0 := EventFor(PARTIAL_STARTS, startPartialEclipse, base);
      var increasing := EventsFor(INCREASING, partialPhasesStart.value, base);
      var e1 := EventFor(ANNULARITY_STARTS, startTotalOrAnnularEclipse, base);
      var e2 := EventFor(MAXIMUM, maximumEclipse, base);
      var e3 := EventFor(ANNULARITY_ENDS, endTotalOrAnnularEclipse, base);
      var decreasing := EventsFor(DECREASING, partialPhasesEnd.value, base);
      var e4 := EventFor(PARTIAL_ENDS, endPartialEclipse, base);
      r := [e0] + increasing + [e1, e2, e3] + decreasing + [e4];
      RealizeAnnularPlan(Times(), partialPhasesStart.value, partialPhasesEnd.value, sheetOf, dT, bessel, location);
    }

    /** `buildPartialPhaseFrom`: the partial phase a computed worksheet shows, at its local civil time. */
    function BuildPartialPhaseFrom(w: Worksheet): (r: PartialPhase)
      reads w
      ensures IsSheetFor(w) ==> r == PartialPhaseOf(sheetOf(w.t), CivilTimeAt(bessel, location, w.t, dT))
    {
      AgreesIffSnapshot(w, sheetOf(w.t));
      PartialPhaseOf(w.Snapshot(), w.LocalCivilTime())
    }

    /** `computePartialPhases`: one partial phase per time, each from a worksheet computed at that time. */
    method ComputePartialPhases(times: seq<real>) returns (result: seq<PartialPhase>)
      requires Valid()
      ensures result == PhasesAt(sheetOf, dT, bessel, location, times)
    {
      result := [];
      for i := 0 to |times|
        invariant result == PhasesAt(sheetOf, dT, bessel, location, times[..i])
      {
        var worksheet := NewSheet(times[i]);
        var partial := BuildPartialPhaseFrom(worksheet);
        assert times[..i + 1] == times[..i] + [times[i]];
        result := result + [partial];
      }
      assert times[..|times|] == times;
    }

    /** `eventFor`: the event at a computed worksheet, timed from the base worksheet. */
    function EventFor(text: string, w: Worksheet, base: Worksheet): (r: TimelineEvent)
      reads w
      ensures IsSheetFor(w) && SameClock(base) ==> r == Realize(AtTime(text, w.t, base.t), sheetOf, dT, bessel, location)
    {
      MakeEvent(w.LocalCivilTime().time, text, Between(base.LocalCivilTime(), w.LocalCivilTime()), w.G, w.h)
    }

    /** `eventsFor`: one event per partial phase, in order, timed from the base worksheet. */
    method EventsFor(text: string, partialPhases: seq<PartialPhase>, base: Worksheet) returns (result: seq<TimelineEvent>)
      requires SameClock(base)
      ensures result == RealizeAll(PhaseSources(text, partialPhases, base.t), sheetOf, dT, bessel, location)
    {
      result := [];
      for i := 0 to |partialPhases|
        invariant |result| == i
        invariant forall j :: 0 <= j < i ==> result[j] == Realize(OfPhase(text, partialPhases[j], base.t), sheetOf, dT, bessel, location)
      {
        var phase := partialPhases[i];
        var event := MakeEvent(phase.when.time, text, Between(base.LocalCivilTime(), phase.when), phase.magnitude, phase.altitude);
        result := result + [event];
      }
    }

    /**
     `standardOffsetEventFor`: the event at a worksheet computed a number of minutes before or after
     the base time of the peak, timed from the base worksheet.
     */
    method StandardOffsetEventFor(text: string, minutes: real, isBefore: bool, base: Worksheet) returns (r: TimelineEvent)
      requires Valid() && ContactsReady() && SameClock(base)
      ensures r == Realize(AtTime(text, SpecificTime(BaseTime(isBefore, Kind(), Times()), isBefore, minutes), base.t), sheetOf, dT, bessel, location)
    {
      var kind := KindOfMax();
      var t := SpecificTime(BaseTime(isBefore, kind, Times()), isBefore, minutes);
      var w := NewSheet(t);
      r := EventFor(text, w, base);
    }

    /**
     `computeTimelineEvents`: the events of the local type's plan, sorted by `compareTo`. A local
     type without a plan has no events.
     */
    method ComputeTimelineEvents() returns (r: seq<TimelineEvent>)
      requires Valid() && ContactsReady() && partialPhasesStart.Some? && partialPhasesEnd.Some?
      ensures Sorted(r)
      ensures multiset(r) == multiset(RealizeAll(TimelinePlan(Kind(), Times(), partialPhasesStart.value, partialPhasesEnd.value), sheetOf, dT, bessel, location))
    {
      var kind := KindOfMax();
      var events: seq<TimelineEvent> := [];
      if kind == Total {
        events := TotalTimeline();
      } else if kind == Partial {
        events := PartialTimeline();
      } else if kind == Annular {
        events := AnnularTimeline();
      }
      r := Sort(events);
    }

    /** The partial phases on one side of the peak, with the times they were sampled at. */
    method PhasesFor(isBefore: bool) returns (times: seq<real>, phases: seq<PartialPhase>)
      requires Valid() && gap != 0 && ContactsReady()
      ensures phases == PhasesAt(sheetOf, dT, bessel, location, times)
      ensures SamplingOf(times, BaseTime(isBefore, Kind(), Times()), Sign(isBefore), gap, startPartialEclipse.t, endPartialEclipse.t)
    {
      times := EvenlySpacedTimesWithRespectToPeak(isBefore);
      phases := ComputePartialPhases(times);
    }

    /** The partial phases step of `compute`: the phases before and after the peak, at their sampled times. */
    method ComputePhases()
      requires Valid() && gap != 0 && ContactsReady()
      modifies this`partialPhasesStart, this`partialPhasesEnd, this`timesBefore, this`timesAfter
      ensures PhasesHold()
    {
      var before, phasesBefore := PhasesFor(START);
      var after, phasesAfter := PhasesFor(END);
      StorePhases(before, phasesBefore, after, phasesAfter);
    }

    /** Stores the phases on each side of the peak with the times they were computed at. */
    method StorePhases(before: seq<real>, phasesBefore: seq<PartialPhase>, after: seq<real>, phasesAfter: seq<PartialPhase>)
      requires maximumEclipse != null && startPartialEclipse != null && endPartialEclipse != null
      requires phasesBefore == PhasesAt(sheetOf, dT, bessel, location, before)
      requires phasesAfter == PhasesAt(sheetOf, dT, bessel, location, after)
      requires SamplingOf(before, BaseTime(START, Kind(), Times()), Sign(START), gap, startPartialEclipse.t, endPartialEclipse.t)
      requires SamplingOf(after, BaseTime(END, Kind(), Times()), Sign(END), gap, startPartialEclipse.t, endPartialEclipse.t)
      modifies this`partialPhasesStart, this`partialPhasesEnd, this`timesBefore, this`timesAfter
      ensures PhasesHold()
    {
      partialPhasesStart, partialPhasesEnd := W.Some(phasesBefore), W.Some(phasesAfter);
      timesBefore, timesAfter := before, after;
    }

    /** The contacts were refined from the maximum with the given fuel. */
    ghost predicate ContactTimesHold(fuel: nat)
      reads this`maximumEclipse, this`startPartialEclipse, this`endPartialEclipse, this`startTotalOrAnnularEclipse, this`endTotalOrAnnularEclipse
    {
      maximumEclipse != null && startPartialEclipse != null && endPartialEclipse != null &&
      startPartialEclipse.t == contactAt(maximumEclipse.t, START, PENUMBRA, fuel) &&
      endPartialEclipse.t == contactAt(maximumEclipse.t, END, PENUMBRA, fuel) &&
      (Kind() != Partial ==>
        startTotalOrAnnularEclipse != null && endTotalOrAnnularEclipse != null &&
        startTotalOrAnnularEclipse.t == contactAt(maximumEclipse.t, START, UMBRA, fuel) &&
        endTotalOrAnnularEclipse.t == contactAt(maximumEclipse.t, END, UMBRA, fuel))
    }

    /** The partial phases are those at the times sampled on each side of the peak. */
    ghost predicate PhasesHold()
      reads this`maximumEclipse, this`startPartialEclipse, this`endPartialEclipse, this`startTotalOrAnnularEclipse, this`endTotalOrAnnularEclipse
      reads this`partialPhasesStart, this`partialPhasesEnd, this`timesBefore, this`timesAfter
    {
      maximumEclipse != null && startPartialEclipse != null && endPartialEclipse != null &&
      partialPhasesStart == W.Some(PhasesAt(sheetOf, dT, bessel, location, timesBefore)) &&
      partialPhasesEnd == W.Some(PhasesAt(sheetOf, dT, bessel, location, timesAfter)) &&
      SamplingOf(timesBefore, BaseTime(START, Kind(), Times()), Sign(START), gap, startPartialEclipse.t, endPartialEclipse.t) &&
      SamplingOf(timesAfter, BaseTime(END, Kind(), Times()), Sign(END), gap, startPartialEclipse.t, endPartialEclipse.t)
    }

    /** The timeline holds the events of the local type's plan, sorted. */
    ghost predicate TimelineHolds()
      reads this`maximumEclipse, this`startPartialEclipse, this`endPartialEclipse, this`startTotalOrAnnularEclipse, this`endTotalOrAnnularEclipse
      reads this`partialPhasesStart, this`partialPhasesEnd, this`timelineEvents
    {
      maximumEclipse != null && startPartialEclipse != null && endPartialEclipse != null &&
      partialPhasesStart.Some? && partialPhasesEnd.Some? && timelineEvents.Some? && Sorted(timelineEvents.value) &&
      multiset(timelineEvents.value) == multiset(RealizeAll(TimelinePlan(Kind(), Times(), partialPhasesStart.value, partialPhasesEnd.value), sheetOf, dT, bessel, location))
    }

    /**
     Everything `compute` fills in once the eclipse is seen: the contacts refined from the maximum,
     the partial phases at their sampled times and the sorted timeline.
     */
    ghost predicate Complete(fuel: nat)
      reads this, maximumEclipse, startPartialEclipse, endPartialEclipse, startTotalOrAnnularEclipse, endTotalOrAnnularEclipse
    {
      ContactsReady() && ContactTimesHold(fuel) && PhasesHold() && TimelineHolds()
    }

    /** The contact steps of `compute`: the contacts, stored. */
    method StoreContacts(start: Worksheet, end: Worksheet, startUmbra: Worksheet?, endUmbra: Worksheet?, ghost fuel: nat)
      requires maximumEclipse != null && IsSheetFor(maximumEclipse)
      requires IsSheetFor(start) && IsSheetFor(end)
      requires start.t == contactAt(maximumEclipse.t, START, PENUMBRA, fuel)
      requires end.t == contactAt(maximumEclipse.t, END, PENUMBRA, fuel)
      requires LocalEclipseType(sheetOf(maximumEclipse.t)) != Partial <==> startUmbra != null && endUmbra != null
      requires startUmbra != null ==> IsSheetFor(startUmbra) && startUmbra.t == contactAt(maximumEclipse.t, START, UMBRA, fuel)
      requires endUmbra != null ==> IsSheetFor(endUmbra) && endUmbra.t == contactAt(maximumEclipse.t, END, UMBRA, fuel)
      modifies this`startPartialEclipse, this`endPartialEclipse, this`startTotalOrAnnularEclipse, this`endTotalOrAnnularEclipse
      ensures ContactsReady()
      ensures ContactTimesHold(fuel)
    {
      SetPartialContacts(start, end);
      if startUmbra != null && endUmbra != null {
        SetUmbralContacts(startUmbra, endUmbra);
      }
    }

    /** Assigns the contacts of the partial phase. */
    method SetPartialContacts(start: Worksheet, end: Worksheet)
      modifies this`startPartialEclipse, this`endPartialEclipse
      ensures startPartialEclipse == start && endPartialEclipse == end
    {
      startPartialEclipse, endPartialEclipse := start, end;
    }

    /** Assigns the contacts of the total or annular phase. */
    method SetUmbralContacts(start: Worksheet, end: Worksheet)
      modifies this`startTotalOrAnnularEclipse, this`endTotalOrAnnularEclipse
      ensures startTotalOrAnnularEclipse == start && endTotalOrAnnularEclipse == end
    {
      startTotalOrAnnularEclipse, endTotalOrAnnularEclipse := start, end;
    }

    /** The timeline step of `compute`: the timeline, stored. */
    method StoreTimeline()
      requires Valid() && ContactsReady() && PhasesHold()
      modifies this`timelineEvents
      ensures PhasesHold() && TimelineHolds()
    {
      var events := ComputeTimelineEvents();
      SetTimeline(events);
    }

    /** Stores the sorted timeline. */
    method SetTimeline(events: seq<TimelineEvent>)
      requires ContactsReady() && PhasesHold() && Sorted(events)
      requires multiset(events) == multiset(RealizeAll(TimelinePlan(Kind(), Times(), partialPhasesStart.value, partialPhasesEnd.value), sheetOf, dT, bessel, location))
      modifies this`timelineEvents
      ensures PhasesHold() && TimelineHolds()
    {
      timelineEvents := W.Some(events);
    }

    /** The steps of `compute` after the maximum, once it shows an eclipse. */
    method ComputeRest(fuel: nat)
      requires Valid() && ContactsDefined() && gap != 0 && maximumEclipse != null && IsSheetFor(maximumEclipse)
      modifies this`startPartialEclipse, this`endPartialEclipse, this`startTotalOrAnnularEclipse, this`endTotalOrAnnularEclipse
      modifies this`partialPhasesStart, this`partialPhasesEnd, this`timesBefore, this`timesAfter, this`timelineEvents
      ensures Complete(fuel)
    {
      ComputeAndStoreContacts(fuel);
      ComputePhasesAndTimeline(fuel);
    }

    /** The contact steps of `compute`: the contacts, computed and stored. */
    method ComputeAndStoreContacts(fuel: nat)
      requires Valid() && ContactsDefined() && maximumEclipse != null && IsSheetFor(maximumEclipse)
      modifies this`startPartialEclipse, this`endPartialEclipse, this`startTotalOrAnnularEclipse, this`endTotalOrAnnularEclipse
      ensures ContactsReady() && ContactTimesHold(fuel)
    {
      var start, end, startUmbra, endUmbra := ComputeContacts(maximumEclipse, fuel);
      StoreContacts(start, end, startUmbra, endUmbra, fuel);
    }

    /** The last steps of `compute`: the partial phases, then the timeline that needs them. */
    method ComputePhasesAndTimeline(ghost fuel: nat)
      requires Valid() && gap != 0 && ContactsReady() && ContactTimesHold(fuel)
      modifies this`partialPhasesStart, this`partialPhasesEnd, this`timesBefore, this`timesAfter, this`timelineEvents
      ensures ContactsReady() && ContactTimesHold(fuel) && PhasesHold() && TimelineHolds()
    {
      ComputePhases();
      StoreTimeline();
    }

    /**
     `compute`: the maximum, and only when its magnitude is not negative the contacts, the partial
     phases and the timeline; otherwise the other results keep their values.
     */
    method Compute(fuel: nat)
      requires Valid() && ContactsDefined() && gap != 0
      modifies this
      ensures maximumEclipse != null && fresh(maximumEclipse) && IsSheetFor(maximumEclipse)
      ensures maximumEclipse.t == Converged(CorrOf(LocalMax), 0.0, fuel)
      ensures sheetOf(maximumEclipse.t).G >= 0.0 ==> Complete(fuel)
      ensures sheetOf(maximumEclipse.t).G < 0.0 ==>
        startPartialEclipse == old(startPartialEclipse) && endPartialEclipse == old(endPartialEclipse) &&
        startTotalOrAnnularEclipse == old(startTotalOrAnnularEclipse) && endTotalOrAnnularEclipse == old(endTotalOrAnnularEclipse) &&
        partialPhasesStart == old(partialPhasesStart) && partialPhasesEnd == old(partialPhasesEnd) && timelineEvents == old(timelineEvents)
    {
      var max := ComputeLocalMax(fuel);
      maximumEclipse := max;
      SnapshotOf(max);
      if max.G < 0.0 {
      } else {
        ComputeRest(fuel);
      }
    }
  }

  /**
   `buildFrom`: the displayed local circumstances, or None when there is no eclipse at the location.
   The totality (or annularity) times are absent exactly when the local eclipse is partial. The
   source does not check the looked-up elements for null, so they must be present here.
   */
  method BuildFrom(location: Location, lookedUp: W.Option<BesselianElements>, dT: real, gap: int, trig: Trig, fuel: nat)
    returns (result: W.Option<EclipseDisplay>, ghost circum: LocalCircumstances)
    requires lookedUp.Some? && Usable(lookedUp.value) && gap != 0
    ensures circum.Valid() && circum.bessel == lookedUp.value && circum.location == location && circum.dT == dT
    ensures circum.maximumEclipse != null && circum.maximumEclipse.t == Converged(circum.CorrOf(LocalMax), 0.0, fuel)
    ensures result.None? <==> circum.Kind() == None
    ensures result.Some? ==>
      var max := circum.maximumEclipse.t;
      var g := circum.sheetOf(max);
      result.value.eclipseType == circum.Kind() &&
      (result.value.totalityAnnularityStarts.None? <==> result.value.eclipseType == Partial) &&
      (result.value.totalityAnnularityEnds.None? <==> result.value.eclipseType == Partial) &&
      result.value.partialStarts == CivilTimeAt(lookedUp.value, location, circum.contactAt(max, START, PENUMBRA, fuel), dT) &&
      result.value.partialEnds == CivilTimeAt(lookedUp.value, location, circum.contactAt(max, END, PENUMBRA, fuel), dT) &&
      result.value.maxEclipse == PartialPhaseOf(g, CivilTimeAt(lookedUp.value, location, max, dT)) &&
      result.value.altitude == g.h && result.value.azimuth == g.az && result.value.magnitude == g.G
    ensures result.Some? ==>
      var max := circum.maximumEclipse.t;
      circum.Complete(fuel) &&
      result.value.totalityAnnularityStarts ==
        (if circum.Kind() == Partial then W.None
         else W.Some(CivilTimeAt(lookedUp.value, location, circum.contactAt(max, START, UMBRA, fuel), dT))) &&
      result.value.totalityAnnularityEnds ==
        (if circum.Kind() == Partial then W.None
         else W.Some(CivilTimeAt(lookedUp.value, location, circum.contactAt(max, END, UMBRA, fuel), dT))) &&
      result.value.phasesBefore == circum.partialPhasesStart.value &&
      result.value.phasesAfter == circum.partialPhasesEnd.value &&
      result.value.timelineEvents == circum.timelineEvents.value
  {
    var lc := new LocalCircumstances(location, lookedUp.value, dT, gap, trig);
    lc.Compute(fuel);
    circum := lc;
    var max := lc.maximumEclipse;
    lc.SnapshotOf(max);
    var kind := LocalEclipseType(max.Snapshot());
    if kind == None {
      result := W.None;
    } else {
      var display := DisplayOf(lc, fuel);
      result := W.Some(display);
    }
  }

  /** The display `buildFrom` assembles from local circumstances computed in full. */
  method DisplayOf(lc: LocalCircumstances, ghost fuel: nat) returns (d: EclipseDisplay)
    requires lc.Complete(fuel) && lc.Kind() != None
    ensures
      var max := lc.maximumEclipse.t;
      var g := lc.sheetOf(max);
      d.eclipseType == lc.Kind() &&
      d.partialStarts == CivilTimeAt(lc.bessel, lc.location, lc.contactAt(max, START, PENUMBRA, fuel), lc.dT) &&
      d.partialEnds == CivilTimeAt(lc.bessel, lc.location, lc.contactAt(max, END, PENUMBRA, fuel), lc.dT) &&
      d.maxEclipse == PartialPhaseOf(g, CivilTimeAt(lc.bessel, lc.location, max, lc.dT)) &&
      d.altitude == g.h && d.azimuth == g.az && d.magnitude == g.G
    ensures
      var max := lc.maximumEclipse.t;
      d.totalityAnnularityStarts ==
        (if lc.Kind() == Partial then W.None
         else W.Some(CivilTimeAt(lc.bessel, lc.location, lc.contactAt(max, START, UMBRA, fuel), lc.dT))) &&
      d.totalityAnnularityEnds ==
        (if lc.Kind() == Partial then W.None
         else W.Some(CivilTimeAt(lc.bessel, lc.location, lc.contactAt(max, END, UMBRA, fuel), lc.dT))) &&
      d.phasesBefore == lc.partialPhasesStart.value && d.phasesAfter == lc.partialPhasesEnd.value &&
      d.timelineEvents == lc.timelineEvents.value
  {
    var max, start, end := lc.maximumEclipse, lc.startPartialEclipse, lc.endPartialEclipse;
    lc.SnapshotOf(max);
    lc.ClockOf(start);
    lc.ClockOf(end);
    lc.ClockOf(max);
    var kind := LocalEclipseType(max.Snapshot());
    var startUmbra: W.Option<LocalDateTime> := W.None;
    var endUmbra: W.Option<LocalDateTime> := W.None;
    if kind != Partial {
      lc.ClockOf(lc.startTotalOrAnnularEclipse);
      lc.ClockOf(lc.endTotalOrAnnularEclipse);
      startUmbra := W.Some(lc.startTotalOrAnnularEclipse.LocalCivilTime());
      endUmbra := W.Some(lc.endTotalOrAnnularEclipse.LocalCivilTime());
    }
    d := EclipseDisplay(kind, start.LocalCivilTime(), end.LocalCivilTime(),
      lc.BuildPartialPhaseFrom(max), lc.partialPhasesStart.value, lc.partialPhasesEnd.value,
      max.h, max.az, max.G, startUmbra, endUmbra, lc.timelineEvents.value);
  }
}
