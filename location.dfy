/** Location: the place on the Earth for which the local circumstances are calculated. */
module Locations {
  import opened JavaMath

  /** The Earth's equatorial radius, in meters. */
  const EARTHS_RADIUS: real := 6378140.0
  /** 1 - 1/298.257: the ratio of the polar to the equatorial radius. */
  const FLATTEN_EARTH: real := 0.99664719

  /** The reduced latitude u = atan(f tan phi). */
  function ReducedLatitude(trig: Trig, phi: real): real {
    trig.atan(FLATTEN_EARTH * trig.tan(phi))
  }

  /** rho sin phi', in units of the Earth's radius: the geocentric height above the equator plane. */
  function RhoSinPhi(trig: Trig, phi: real, height: real): real {
    FLATTEN_EARTH * trig.sin(ReducedLatitude(trig, phi)) + (height / EARTHS_RADIUS) * trig.sin(phi)
  }

  /** rho cos phi', in units of the Earth's radius: the geocentric distance from the polar axis. */
  function RhoCosPhi(trig: Trig, phi: real, height: real): real {
    trig.cos(ReducedLatitude(trig, phi)) + (height / EARTHS_RADIUS) * trig.cos(phi)
  }

  /** At sea level the geocentric terms are those of the reference ellipsoid alone. */
  lemma SeaLevelTerms(trig: Trig, phi: real)
    ensures RhoSinPhi(trig, phi, 0.0) == FLATTEN_EARTH * trig.sin(ReducedLatitude(trig, phi))
    ensures RhoCosPhi(trig, phi, 0.0) == trig.cos(ReducedLatitude(trig, phi))
  {
  }

  /** The height adds a term proportional to it, along the direction of the geographic latitude. */
  lemma HeightTerms(trig: Trig, phi: real, height: real)
    ensures RhoSinPhi(trig, phi, height) - RhoSinPhi(trig, phi, 0.0) == (height / EARTHS_RADIUS) * trig.sin(phi)
    ensures RhoCosPhi(trig, phi, height) - RhoCosPhi(trig, phi, 0.0) == (height / EARTHS_RADIUS) * trig.cos(phi)
  {
    var sinU, cosU := trig.sin(ReducedLatitude(trig, phi)), trig.cos(ReducedLatitude(trig, phi));
    assert 0.0 / EARTHS_RADIUS == 0.0;
    assert RhoSinPhi(trig, phi, 0.0) == FLATTEN_EARTH * sinU;
    assert RhoCosPhi(trig, phi, 0.0) == cosU;
  }

  /**
   A location. Angles are in radians, positive north and east; the height is in meters; the
   offsets from Greenwich are negative to the west. The geocentric terms are computed once, by
   the constructor, and being `const` they are never reassigned.
   */
  class Location {
    const name: string
    const phi: real
    const lambda: real
    const height: real
    const offsetHours: int
    const offsetMinutes: int
    const rhoSinPhi: real
    const rhoCosPhi: real

    constructor(name: string, phi: real, lambda: real, height: real, offsetHours: int, offsetMinutes: int, trig: Trig)
      ensures this.name == name && this.phi == phi && this.lambda == lambda && this.height == height
      ensures this.offsetHours == offsetHours && this.offsetMinutes == offsetMinutes
      ensures rhoSinPhi == RhoSinPhi(trig, phi, height) && rhoCosPhi == RhoCosPhi(trig, phi, height)
    {
      this.name := name;
      this.phi := phi;
      this.lambda := lambda;
      this.height := height;
      this.offsetHours := offsetHours;
      this.offsetMinutes := offsetMinutes;
      rhoSinPhi := RhoSinPhi(trig, phi, height);
      rhoCosPhi := RhoCosPhi(trig, phi, height);
    }

    /** `λrev()`: the longitude measured positive to the west, as the Besselian formulas use it. */
    function LambdaRev(): (r: real)
      ensures r + lambda == 0.0
    {
      -lambda
    }

    /** The documented requirement on the two offsets: they never have opposite signs. */
    predicate OffsetsAgree() {
      (offsetHours >= 0 && offsetMinutes >= 0) || (offsetHours <= 0 && offsetMinutes <= 0)
    }

    /** The whole offset from Greenwich in minutes: hours and minutes added together. */
    function OffsetInMinutes(): (r: int)
      ensures OffsetsAgree() ==> Abs(r as real) == Abs(offsetHours as real) * 60.0 + Abs(offsetMinutes as real)
      ensures OffsetsAgree() && r >= 0 ==> offsetHours >= 0 && offsetMinutes >= 0
    {
      offsetHours * 60 + offsetMinutes
    }
  }
}
