/**
 The immutable data carriers of the calculation: the Besselian elements of an eclipse, one partial
 phase as seen from a location, and the data displayed for the local circumstances.
 */
module Carriers {
  import opened Wrappers
  import opened Time
  import opened EclipseTypes
  import opened Polynomials
  import opened Timeline

  /**
   The Besselian elements of one eclipse. `whenMaxEclipse` is in TT; `t0` is the integral hour the
   polynomials are centred on; `d` and `mu` produce radians.
   */
  datatype BesselianElements = BesselianElements(
    whenMaxEclipse: LocalDateTime, jdMaxEclipse: real, eclipseType: EclipseType, t0: int,
    x: Polynomial, y: Polynomial, d: Polynomial, mu: Polynomial, l1: Polynomial, l2: Polynomial,
    tanF1: real, tanF2: real)

  /**
   What the worksheet needs of the elements without failing: `x` and `y` are differentiated, and
   the first-order coefficients of `d` and `mu` are read.
   */
  predicate Usable(b: BesselianElements) {
    |b.x.coefficients| >= 1 && |b.y.coefficients| >= 1 && |b.d.coefficients| >= 2 && |b.mu.coefficients| >= 2
  }

  /**
   The disk of the Moon against the disk of the Sun. Angles are in radians, distances in units of
   the Sun's apparent radius, `when` in local civil time.
   */
  datatype PartialPhase = PartialPhase(when: LocalDateTime, zenithAngle: real, lunarSolarDistance: real,
    lunarRadius: real, magnitude: real, altitude: real)

  /** The displayed local circumstances; the totality (or annularity) times are absent for a partial eclipse. */
  datatype EclipseDisplay = EclipseDisplay(
    eclipseType: EclipseType, partialStarts: LocalDateTime, partialEnds: LocalDateTime,
    maxEclipse: PartialPhase, phasesBefore: seq<PartialPhase>, phasesAfter: seq<PartialPhase>,
    altitude: real, azimuth: real, magnitude: real,
    totalityAnnularityStarts: Option<LocalDateTime>, totalityAnnularityEnds: Option<LocalDateTime>,
    timelineEvents: seq<TimelineEvent>)

  /** `durationPartial`: the time from the start to the end of the partial phase. */
  function DurationPartial(e: EclipseDisplay): (r: Duration)
    ensures PlusNanos(e.partialStarts, r) == e.partialEnds
    ensures r > 0 <==> IsBefore(e.partialStarts, e.partialEnds)
  {
    IsBeforeInstant(e.partialStarts, e.partialEnds);
    Between(e.partialStarts, e.partialEnds)
  }

  /** `durationTotalityAnnularity`: defined only when both times are present (else a null dereference). */
  function DurationTotalityAnnularity(e: EclipseDisplay): (r: Duration)
    requires e.totalityAnnularityStarts.Some? && e.totalityAnnularityEnds.Some?
    ensures PlusNanos(e.totalityAnnularityStarts.value, r) == e.totalityAnnularityEnds.value
    ensures r > 0 <==> IsBefore(e.totalityAnnularityStarts.value, e.totalityAnnularityEnds.value)
  {
    IsBeforeInstant(e.totalityAnnularityStarts.value, e.totalityAnnularityEnds.value);
    Between(e.totalityAnnularityStarts.value, e.totalityAnnularityEnds.value)
  }
}
