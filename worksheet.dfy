/**
 Worksheet: the core data of the local circumstances of an eclipse at one time, computed from the
 Besselian elements and the location as in Meeus, Elements of Solar Eclipses 1951-2200, page 24ff,
 together with the decisions and corrections the inverse interpolation is built on.
 */
module Worksheets {
  import W = Wrappers
  import opened JavaMath
  import opened Time
  import opened EclipseTypes
  import opened Polynomials
  import opened Carriers
  import opened Locations
  import Maths

  const DEGREES_PER_SIDEREAL_DAY: real := 360.0 / 86164.0905
  const SECONDS_PER_HOUR: int := 60 * 60
  /** Degrees to radians, to seven places, as Meeus uses it for the hourly variations. */
  const FACTOR: real := 0.01745329

  /** The data of a computed worksheet, one field per quantity of Meeus' worksheet. */
  datatype Geometry = Geometry(
    X: real, Y: real, d: real, MU: real, L1: real, L2: real, Xprime: real, Yprime: real,
    H: real, xi: real, eta: real, zeta: real, M1: real, d1: real, xiPrime: real, etaPrime: real,
    u: real, v: real, m: real, a: real, b: real, n: real, L1prime: real, L2prime: real,
    tauM: real, G: real, P: real, A: real, h: real, az: real, q: real, Z: real)

  // ---------------------------------------------------------------------------
  // The steps of `compute`

  /** The local hour angle H, in radians, from the ephemeris hour angle, the longitude (west) and Delta T. */
  function HourAngle(mu: real, lambdaRev: real, dT: real): real {
    Maths.DegToRads(Maths.RadsToDegs(mu) - Maths.RadsToDegs(lambdaRev) - DEGREES_PER_SIDEREAL_DAY * dT)
  }

  function Xi(trig: Trig, rhoCosPhi: real, H: real): real {
    rhoCosPhi * trig.sin(H)
  }

  function Eta(trig: Trig, rhoSinPhi: real, rhoCosPhi: real, H: real, d: real): real {
    rhoSinPhi * trig.cos(d) - rhoCosPhi * trig.cos(H) * trig.sin(d)
  }

  function Zeta(trig: Trig, rhoSinPhi: real, rhoCosPhi: real, H: real, d: real): real {
    rhoSinPhi * trig.sin(d) + rhoCosPhi * trig.cos(H) * trig.cos(d)
  }

  function XiPrime(trig: Trig, M1: real, rhoCosPhi: real, H: real): real {
    FACTOR * M1 * rhoCosPhi * trig.cos(H)
  }

  function EtaPrime(trig: Trig, M1: real, xi: real, d: real, zeta: real, d1: real): real {
    FACTOR * (M1 * xi * trig.sin(d) - zeta * d1)
  }

  /** The length of the vector (p, q), as `sqrt(p*p + q*q)`. */
  function Hypot(trig: Trig, p: real, q: real): (r: real)
    ensures r >= 0.0
  {
    trig.sqrt(p * p + q * q)
  }

  /** The correction tau_M to the time of maximum: `-(u a + v b) / n^2`, hours. */
  function TimeOfMaxCorrection(u: real, v: real, a: real, b: real, n: real): (r: real)
    ensures n != 0.0 ==> r * (n * n) == -(u * a + v * b)
  {
    assert n != 0.0 ==> n * n > 0.0;
    Quot(-(u * a + v * b), n * n)
  }

  /** The radius of a shadow cone in the plane of the observer, L - zeta tan f. */
  function ShadowRadius(L: real, zeta: real, tanF: real): real {
    L - zeta * tanF
  }

  /** The magnitude G = (L1' - m) / (L1' + L2'). */
  function MagnitudeOf(L1prime: real, L2prime: real, m: real): (r: real)
    ensures L1prime + L2prime != 0.0 ==> r * (L1prime + L2prime) == L1prime - m
  {
    Quot(L1prime - m, L1prime + L2prime)
  }

  /** A = (L1' - L2') / (L1' + L2'): the ratio of the Moon's apparent diameter to the Sun's. */
  function DiameterRatio(L1prime: real, L2prime: real): (r: real)
    ensures L1prime + L2prime != 0.0 ==> r * (L1prime + L2prime) == L1prime - L2prime
  {
    Quot(L1prime - L2prime, L1prime + L2prime)
  }

  /** The altitude h of the Sun. */
  function SolarAltitude(trig: Trig, d: real, phi: real, H: real): real {
    trig.asin(trig.sin(d) * trig.sin(phi) + trig.cos(d) * trig.cos(phi) * trig.cos(H))
  }

  /** The azimuth of the Sun, measured from the north: `atan2` turned by pi, then normalised. */
  function SolarAzimuth(trig: Trig, d: real, phi: real, H: real): (r: real)
    ensures 0.0 <= r < TWO_PI
  {
    Maths.In2Pi(trig.atan2(trig.sin(H), trig.cos(H) * trig.sin(phi) - trig.tan(d) * trig.cos(phi)) + PI)
  }

  /** The parallactic angle before the hemisphere rule: `asin(cos phi sin H / cos h)`. */
  function RawParallacticAngle(trig: Trig, phi: real, H: real, h: real): real {
    trig.asin(Quot(trig.cos(phi) * trig.sin(H), trig.cos(h)))
  }

  /**
   The parallactic angle q. South of the equator it is measured from the south celestial pole,
   pi - q; then it is normalised to 0..2pi.
   */
  function ParallacticAngle(trig: Trig, phi: real, H: real, h: real): (r: real)
    ensures 0.0 <= r < TWO_PI
  {
    var q := RawParallacticAngle(trig, phi, H, h);
    Maths.In2Pi(if phi < 0.0 then PI - q else q)
  }

  /**
   The hemisphere rule: the parallactic angle is, up to whole turns, pi - q south of the equator
   and q itself elsewhere.
   */
  lemma ParallacticFlip(trig: Trig, phi: real, H: real, h: real)
    ensures var q0 := RawParallacticAngle(trig, phi, H, h);
      exists k: int :: ParallacticAngle(trig, phi, H, h) == (if phi < 0.0 then PI - q0 else q0) - Maths.Turns(k)
  {
    var q0 := RawParallacticAngle(trig, phi, H, h);
    Maths.In2PiWholeTurns(if phi < 0.0 then PI - q0 else q0);
  }

  /** The angle Z, zenith - Sun - Moon: P - q normalised. */
  function ZenithAngle(P: real, q: real): (r: real)
    ensures 0.0 <= r < TWO_PI
  {
    Maths.In2Pi(P - q)
  }

  /** Z is P - q up to whole turns. */
  lemma ZenithAngleWholeTurns(P: real, q: real)
    ensures exists k: int :: ZenithAngle(P, q) == P - q - Maths.Turns(k)
  {
    Maths.In2PiWholeTurns(P - q);
  }

  /** The first stage of the worksheet: the Besselian elements and the hourly variations of x and y at `t`. */
  ghost predicate ElementsAt(g: Geometry, t: real, bessel: BesselianElements)
    requires Usable(bessel)
  {
    g.X == Eval(bessel.x, t) && g.Y == Eval(bessel.y, t) && g.d == Eval(bessel.d, t) &&
    g.MU == Eval(bessel.mu, t) && g.L1 == Eval(bessel.l1, t) && g.L2 == Eval(bessel.l2, t) &&
    g.Xprime == Eval(Polynomial(bessel.x.converter, Differentiate(bessel.x.coefficients)), t) &&
    g.Yprime == Eval(Polynomial(bessel.y.converter, Differentiate(bessel.y.coefficients)), t)
  }

  /** The second stage: the hour angle, the observer's coordinates and their hourly variations. */
  ghost predicate ObserverAt(g: Geometry, dT: real, bessel: BesselianElements, location: Location, trig: Trig)
    requires Usable(bessel)
  {
    g.H == HourAngle(g.MU, location.LambdaRev(), dT) &&
    g.xi == Xi(trig, location.rhoCosPhi, g.H) &&
    g.eta == Eta(trig, location.rhoSinPhi, location.rhoCosPhi, g.H, g.d) &&
    g.zeta == Zeta(trig, location.rhoSinPhi, location.rhoCosPhi, g.H, g.d) &&
    g.M1 == Coefficient(bessel.mu, 1) && g.d1 == Coefficient(bessel.d, 1) &&
    g.xiPrime == XiPrime(trig, g.M1, location.rhoCosPhi, g.H) &&
    g.etaPrime == EtaPrime(trig, g.M1, g.xi, g.d, g.zeta, g.d1)
  }

  /** The third stage: the shadow axis relative to the observer, and the radii of the cones there. */
  ghost predicate ShadowAt(g: Geometry, bessel: BesselianElements, trig: Trig) {
    g.u == g.X - g.xi && g.v == g.Y - g.eta && g.m == Hypot(trig, g.u, g.v) &&
    g.a == g.Xprime - g.xiPrime && g.b == g.Yprime - g.etaPrime && g.n == Hypot(trig, g.a, g.b) &&
    g.L1prime == ShadowRadius(g.L1, g.zeta, bessel.tanF1) &&
    g.L2prime == ShadowRadius(g.L2, g.zeta, bessel.tanF2)
  }

  /** The last stage: the correction to maximum, the magnitude, the angles and the Sun's position. */
  ghost predicate CircumstancesAt(g: Geometry, location: Location, trig: Trig) {
    g.tauM == TimeOfMaxCorrection(g.u, g.v, g.a, g.b, g.n) &&
    g.G == MagnitudeOf(g.L1prime, g.L2prime, g.m) &&
    g.P == Maths.In2Pi(trig.atan2(g.u, g.v)) &&
    g.A == DiameterRatio(g.L1prime, g.L2prime) &&
    g.h == SolarAltitude(trig, g.d, location.phi, g.H) &&
    g.az == SolarAzimuth(trig, g.d, location.phi, g.H) &&
    g.q == ParallacticAngle(trig, location.phi, g.H, g.h) &&
    g.Z == ZenithAngle(g.P, g.q)
  }

  /**
   What `compute` assigns: the worksheet at `t` hours from T0, each quantity from those before it,
   in the order of Meeus' worksheet.
   */
  ghost predicate WorksheetAt(g: Geometry, t: real, dT: real, bessel: BesselianElements, location: Location, trig: Trig)
    requires Usable(bessel)
  {
    ElementsAt(g, t, bessel) && ObserverAt(g, dT, bessel, location, trig) &&
    ShadowAt(g, bessel, trig) && CircumstancesAt(g, location, trig)
  }

  /** The inputs determine the worksheet: two worksheets for the same time and place are equal. */
  lemma WorksheetDeterministic(g1: Geometry, g2: Geometry, t: real, dT: real, bessel: BesselianElements, location: Location, trig: Trig)
    requires Usable(bessel)
    requires WorksheetAt(g1, t, dT, bessel, location, trig) && WorksheetAt(g2, t, dT, bessel, location, trig)
    ensures g1 == g2
  {
    ObserverDeterministic(g1, g2, dT, bessel, location, trig);
    ShadowDeterministic(g1, g2, bessel, trig);
    CircumstancesDeterministic(g1, g2, location, trig);
  }

  lemma ObserverDeterministic(g1: Geometry, g2: Geometry, dT: real, bessel: BesselianElements, location: Location, trig: Trig)
    requires Usable(bessel) && g1.MU == g2.MU && g1.d == g2.d
    requires ObserverAt(g1, dT, bessel, location, trig) && ObserverAt(g2, dT, bessel, location, trig)
    ensures g1.H == g2.H && g1.xi == g2.xi && g1.eta == g2.eta && g1.zeta == g2.zeta
    ensures g1.M1 == g2.M1 && g1.d1 == g2.d1 && g1.xiPrime == g2.xiPrime && g1.etaPrime == g2.etaPrime
  {
  }

  lemma ShadowDeterministic(g1: Geometry, g2: Geometry, bessel: BesselianElements, trig: Trig)
    requires g1.X == g2.X && g1.Y == g2.Y && g1.L1 == g2.L1 && g1.L2 == g2.L2 && g1.Xprime == g2.Xprime && g1.Yprime == g2.Yprime
    requires g1.xi == g2.xi && g1.eta == g2.eta && g1.zeta == g2.zeta && g1.xiPrime == g2.xiPrime && g1.etaPrime == g2.etaPrime
    requires ShadowAt(g1, bessel, trig) && ShadowAt(g2, bessel, trig)
    ensures g1.u == g2.u && g1.v == g2.v && g1.m == g2.m && g1.a == g2.a
    ensures g1.b == g2.b && g1.n == g2.n && g1.L1prime == g2.L1prime && g1.L2prime == g2.L2prime
  {
  }

  lemma CircumstancesDeterministic(g1: Geometry, g2: Geometry, location: Location, trig: Trig)
    requires g1.u == g2.u && g1.v == g2.v && g1.m == g2.m && g1.a == g2.a && g1.b == g2.b && g1.n == g2.n
    requires g1.L1prime == g2.L1prime && g1.L2prime == g2.L2prime && g1.d == g2.d && g1.H == g2.H
    requires CircumstancesAt(g1, location, trig) && CircumstancesAt(g2, location, trig)
    ensures g1.tauM == g2.tauM && g1.G == g2.G && g1.P == g2.P && g1.A == g2.A
    ensures g1.h == g2.h && g1.az == g2.az && g1.q == g2.q && g1.Z == g2.Z
  {
  }

  /** The quantities of the first stage agree. */
  predicate SameElements(g1: Geometry, g2: Geometry) {
    g1.X == g2.X && g1.Y == g2.Y && g1.d == g2.d && g1.MU == g2.MU &&
    g1.L1 == g2.L1 && g1.L2 == g2.L2 && g1.Xprime == g2.Xprime && g1.Yprime == g2.Yprime
  }

  /** The quantities of the second stage agree. */
  predicate SameObserver(g1: Geometry, g2: Geometry) {
    g1.H == g2.H && g1.xi == g2.xi && g1.eta == g2.eta && g1.zeta == g2.zeta &&
    g1.M1 == g2.M1 && g1.d1 == g2.d1 && g1.xiPrime == g2.xiPrime && g1.etaPrime == g2.etaPrime
  }

  /** The quantities of the third stage agree. */
  predicate SameShadow(g1: Geometry, g2: Geometry) {
    g1.u == g2.u && g1.v == g2.v && g1.m == g2.m && g1.a == g2.a &&
    g1.b == g2.b && g1.n == g2.n && g1.L1prime == g2.L1prime && g1.L2prime == g2.L2prime
  }

  /** The first stage on its own; the later quantities are left at 0. */
  function ElementsStage(t: real, bessel: BesselianElements): (r: Geometry)
    requires Usable(bessel)
    ensures ElementsAt(r, t, bessel)
  {
    Geometry(Eval(bessel.x, t), Eval(bessel.y, t), Eval(bessel.d, t), Eval(bessel.mu, t),
      Eval(bessel.l1, t), Eval(bessel.l2, t),
      Eval(Polynomial(bessel.x.converter, Differentiate(bessel.x.coefficients)), t),
      Eval(Polynomial(bessel.y.converter, Differentiate(bessel.y.coefficients)), t),
      0.0, 0.0, 0.0, 0.0, 0.0, 0.0, 0.0, 0.0, 0.0, 0.0, 0.0, 0.0, 0.0, 0.0, 0.0, 0.0,
      0.0, 0.0, 0.0, 0.0, 0.0, 0.0, 0.0, 0.0)
  }

  /** The second stage added to `g`. */
  function ObserverStage(g: Geometry, dT: real, bessel: BesselianElements, location: Location, trig: Trig): (r: Geometry)
    requires Usable(bessel)
    ensures SameElements(r, g) && ObserverAt(r, dT, bessel, location, trig)
  {
    var H := HourAngle(g.MU, location.LambdaRev(), dT);
    var xi := Xi(trig, location.rhoCosPhi, H);
    var zeta := Zeta(trig, location.rhoSinPhi, location.rhoCosPhi, H, g.d);
    var M1, d1 := Coefficient(bessel.mu, 1), Coefficient(bessel.d, 1);
    g.(H := H, xi := xi, eta := Eta(trig, location.rhoSinPhi, location.rhoCosPhi, H, g.d), zeta := zeta,
      M1 := M1, d1 := d1, xiPrime := XiPrime(trig, M1, location.rhoCosPhi, H),
      etaPrime := EtaPrime(trig, M1, xi, g.d, zeta, d1))
  }

  /** The third stage added to `g`. */
  function ShadowStage(g: Geometry, bessel: BesselianElements, trig: Trig): (r: Geometry)
    ensures SameElements(r, g) && SameObserver(r, g) && ShadowAt(r, bessel, trig)
  {
    var u, v := g.X - g.xi, g.Y - g.eta;
    var a, b := g.Xprime - g.xiPrime, g.Yprime - g.etaPrime;
    g.(u := u, v := v, m := Hypot(trig, u, v), a := a, b := b, n := Hypot(trig, a, b),
      L1prime := ShadowRadius(g.L1, g.zeta, bessel.tanF1), L2prime := ShadowRadius(g.L2, g.zeta, bessel.tanF2))
  }

  /** The last stage added to `g`. */
  function CircumstancesStage(g: Geometry, location: Location, trig: Trig): (r: Geometry)
    ensures SameElements(r, g) && SameObserver(r, g) && SameShadow(r, g) && CircumstancesAt(r, location, trig)
  {
    var P := Maths.In2Pi(trig.atan2(g.u, g.v));
    var h := SolarAltitude(trig, g.d, location.phi, g.H);
    var q := ParallacticAngle(trig, location.phi, g.H, h);
    g.(tauM := TimeOfMaxCorrection(g.u, g.v, g.a, g.b, g.n), G := MagnitudeOf(g.L1prime, g.L2prime, g.m),
      P := P, A := DiameterRatio(g.L1prime, g.L2prime), h := h,
      az := SolarAzimuth(trig, g.d, location.phi, g.H), q := q, Z := ZenithAngle(P, q))
  }

  /** The worksheet at `t`, stage after stage: the one value the worksheet relation allows. */
  function SheetAt(t: real, dT: real, bessel: BesselianElements, location: Location, trig: Trig): (g: Geometry)
    requires Usable(bessel)
    ensures WorksheetAt(g, t, dT, bessel, location, trig)
  {
    var e := ElementsStage(t, bessel);
    var o := ObserverStage(e, dT, bessel, location, trig);
    var s := ShadowStage(o, bessel, trig);
    CircumstancesStage(s, location, trig)
  }

  /** Every computed worksheet is coherent. */
  lemma WorksheetCoherent(g: Geometry, t: real, dT: real, bessel: BesselianElements, location: Location, trig: Trig)
    requires Usable(bessel) && WorksheetAt(g, t, dT, bessel, location, trig)
    ensures Coherent(g)
  {
  }

  /**
   The arithmetic of `compute`: every quantity in the order of the worksheet, each from those
   before it.
   */
  method ComputeGeometry(t: real, dT: real, bessel: BesselianElements, location: Location, trig: Trig) returns (g: Geometry)
    requires Usable(bessel)
    ensures WorksheetAt(g, t, dT, bessel, location, trig)
  {
    var x := ValueAt(bessel.x, t);
    var y := ValueAt(bessel.y, t);
    var d := ValueAt(bessel.d, t);
    var mu := ValueAt(bessel.mu, t);
    var l1 := ValueAt(bessel.l1, t);
    var l2 := ValueAt(bessel.l2, t);
    var dx := Derivative(bessel.x);
    var xPrime := ValueAt(dx, t);
    var dy := Derivative(bessel.y);
    var yPrime := ValueAt(dy, t);
    var hourAngle := HourAngle(mu, location.LambdaRev(), dT);
    var xi := Xi(trig, location.rhoCosPhi, hourAngle);
    var eta := Eta(trig, location.rhoSinPhi, location.rhoCosPhi, hourAngle, d);
    var zeta := Zeta(trig, location.rhoSinPhi, location.rhoCosPhi, hourAngle, d);
    var m1 := Coefficient(bessel.mu, 1);
    var d1 := Coefficient(bessel.d, 1);
    var xiPrime := XiPrime(trig, m1, location.rhoCosPhi, hourAngle);
    var etaPrime := EtaPrime(trig, m1, xi, d, zeta, d1);
    var u := x - xi;
    var v := y - eta;
    var m := Hypot(trig, u, v);
    var a := xPrime - xiPrime;
    var b := yPrime - etaPrime;
    var n := Hypot(trig, a, b);
    var l1Prime := ShadowRadius(l1, zeta, bessel.tanF1);
    var l2Prime := ShadowRadius(l2, zeta, bessel.tanF2);
    var tauM := TimeOfMaxCorrection(u, v, a, b, n);
    var magnitude := MagnitudeOf(l1Prime, l2Prime, m);
    var p := trig.atan2(u, v);
    p := Maths.In2Pi(p);
    var ratio := DiameterRatio(l1Prime, l2Prime);
    var h := SolarAltitude(trig, d, location.phi, hourAngle);
    var az := SolarAzimuth(trig, d, location.phi, hourAngle);
    var q := ParallacticAngle(trig, location.phi, hourAngle, h);
    var z := ZenithAngle(p, q);
    g := Geometry(x, y, d, mu, l1, l2, xPrime, yPrime, hourAngle, xi, eta, zeta, m1, d1, xiPrime, etaPrime,
      u, v, m, a, b, n, l1Prime, l2Prime, tauM, magnitude, p, ratio, h, az, q, z);
  }

  /**
   The relations between the fields of every computed worksheet: m and n are lengths, tau_M, G
   and A are the quotients they are defined as, and the angles are normalised.
   */
  predicate Coherent(g: Geometry) {
    g.m >= 0.0 && g.n >= 0.0 &&
    g.tauM == TimeOfMaxCorrection(g.u, g.v, g.a, g.b, g.n) &&
    g.G == MagnitudeOf(g.L1prime, g.L2prime, g.m) &&
    g.A == DiameterRatio(g.L1prime, g.L2prime) &&
    0.0 <= g.P < TWO_PI && 0.0 <= g.az < TWO_PI && 0.0 <= g.q < TWO_PI && 0.0 <= g.Z < TWO_PI
  }

  // ---------------------------------------------------------------------------
  // Decisions and corrections over a computed worksheet

  /** `localEclipseType`: none, partial, total or annular, from the magnitude and the umbral radius. */
  function LocalEclipseType(g: Geometry): (r: EclipseType)
    ensures r != Hybrid
    ensures r == None <==> g.G < 0.0
    ensures r == Partial <==> g.G >= 0.0 && g.m > Abs(g.L2prime)
    ensures r == Total <==> g.G >= 0.0 && g.m <= Abs(g.L2prime) && g.L2prime < 0.0
    ensures r == Annular <==> g.G >= 0.0 && g.m <= Abs(g.L2prime) && g.L2prime >= 0.0
  {
    if g.G < 0.0 then None
    else if g.m > Abs(g.L2prime) then Partial
    else if g.L2prime < 0.0 then Total
    else Annular
  }

  /**
   With the cones of their usual shape (L1' + L2' > 0), there is an eclipse exactly when the
   observer is within the penumbra, m <= L1'.
   */
  lemma EclipseIffInsidePenumbra(g: Geometry)
    requires Coherent(g) && g.L1prime + g.L2prime > 0.0
    ensures LocalEclipseType(g) != None <==> g.m <= g.L1prime
  {
    var s := g.L1prime + g.L2prime;
    assert g.G * s == g.L1prime - g.m;
    if g.G < 0.0 {
      assert g.G * s < 0.0;
    } else {
      assert g.G * s >= 0.0;
    }
  }

  /** `sign`: -1 before the maximum, +1 after it. */
  function Sign(before: bool): (r: int)
    ensures r == -1 || r == 1
    ensures r < 0 <==> before
  {
    if before then -1 else 1
  }

  /** `S(L')`: (a v - u b) / (n L'). */
  function S(g: Geometry, Lprime: real): real {
    Quot(g.a * g.v - g.u * g.b, g.n * Lprime)
  }

  /** The cone the contact is with: L1' for the penumbra, L2' for the umbra. */
  function ConeRadius(g: Geometry, penumbra: bool): (r: real)
    ensures r == (if penumbra then g.L1prime else g.L2prime)
  {
    if penumbra then g.L1prime else g.L2prime
  }

  /** The size of the initial correction, (|L'| / n) sqrt(1 - S^2); never negative. */
  function ContactOffset(g: Geometry, penumbra: bool, trig: Trig): (r: real)
    ensures g.n >= 0.0 ==> r >= 0.0
  {
    var Lprime := ConeRadius(g, penumbra);
    var s := S(g, Lprime);
    var ratio := Quot(Abs(Lprime), g.n);
    var root := trig.sqrt(1.0 - s * s);
    assert g.n >= 0.0 ==> ratio >= 0.0 by {
      if g.n > 0.0 {
        assert ratio * g.n == Abs(Lprime);
      }
    }
    ratio * root
  }

  /** `initialCorrectionToTimeOfContact`: sign * (|L'| / n) * sqrt(1 - S^2). */
  function InitialCorrection(g: Geometry, before: bool, penumbra: bool, trig: Trig): real {
    Sign(before) as real * ContactOffset(g, penumbra, trig)
  }

  /**
   The initial correction points the right way: back in time for the first contact, forward for
   the last, by the same amount for the same cone.
   */
  lemma InitialCorrectionSign(g: Geometry, penumbra: bool, trig: Trig)
    requires g.n >= 0.0
    ensures InitialCorrection(g, true, penumbra, trig) <= 0.0 <= InitialCorrection(g, false, penumbra, trig)
    ensures InitialCorrection(g, true, penumbra, trig) == -InitialCorrection(g, false, penumbra, trig)
  {
    assert Sign(true) as real == -1.0 && Sign(false) as real == 1.0;
  }

  /** `correctionToTimeOfContact`: -(u a + v b) / n^2 plus the initial correction. */
  function CorrectionToTimeOfContact(g: Geometry, before: bool, penumbra: bool, trig: Trig): real {
    var one := TimeOfMaxCorrection(g.u, g.v, g.a, g.b, g.n);
    var two := InitialCorrection(g, before, penumbra, trig);
    one + two
  }

  /**
   On a computed worksheet the contact correction is the correction towards the maximum followed
   by the initial correction, so the corrections for the two contacts straddle tau_M symmetrically.
   */
  lemma ContactCorrectionFromMax(g: Geometry, penumbra: bool, trig: Trig)
    requires Coherent(g)
    ensures CorrectionToTimeOfContact(g, true, penumbra, trig) == g.tauM + InitialCorrection(g, true, penumbra, trig)
    ensures CorrectionToTimeOfContact(g, false, penumbra, trig) == g.tauM + InitialCorrection(g, false, penumbra, trig)
    ensures CorrectionToTimeOfContact(g, true, penumbra, trig) <= g.tauM <= CorrectionToTimeOfContact(g, false, penumbra, trig)
    ensures CorrectionToTimeOfContact(g, true, penumbra, trig) + CorrectionToTimeOfContact(g, false, penumbra, trig) == 2.0 * g.tauM
  {
    InitialCorrectionSign(g, penumbra, trig);
  }

  // ---------------------------------------------------------------------------
  // Times

  /** T0 + t - Delta T / 3600: the hours since the start of the day of maximum eclipse. */
  function HoursOfDay(bessel: BesselianElements, t: real, dT: real): real {
    bessel.t0 as real + t - dT / SECONDS_PER_HOUR as real
  }

  /**
   `convertToDateTime` as written: a negative hour count moves to the previous day once, and
   `LocalTime.ofNanoOfDay` then fails (None) unless the rounded nanoseconds lie within one day.
   */
  function ConvertToDateTimeAsWritten(bessel: BesselianElements, t: real, dT: real): (r: W.Option<LocalDateTime>)
    ensures r.Some? ==> r.value.date == bessel.whenMaxEclipse.date || r.value.date == bessel.whenMaxEclipse.date - 1
  {
    var hours := HoursOfDay(bessel, t, dT);
    var date := if hours < 0.0 then bessel.whenMaxEclipse.date - 1 else bessel.whenMaxEclipse.date;
    var hoursOfDate := if hours < 0.0 then hours + 24.0 else hours;
    var nanos := JavaRound(hoursOfDate * NANOS_PER_HOUR as real);
    if 0 <= nanos < NANOS_PER_DAY then W.Some(LocalDateTime(date, nanos)) else W.None
  }

  /**
   The conversion as it is evidently meant: the rounded nanoseconds added to the start of the day
   of maximum eclipse, carrying into the neighbouring days in either direction.
   */
  function ConvertToDateTime(bessel: BesselianElements, t: real, dT: real): (r: LocalDateTime)
    ensures Instant(r) == bessel.whenMaxEclipse.date * NANOS_PER_DAY + JavaRound(HoursOfDay(bessel, t, dT) * NANOS_PER_HOUR as real)
  {
    PlusNanos(LocalDateTime(bessel.whenMaxEclipse.date, 0), JavaRound(HoursOfDay(bessel, t, dT) * NANOS_PER_HOUR as real))
  }

  /**
   Whenever the conversion as written succeeds, it gives the corrected result: the single step
   back by one day plus 24 hours denotes the same instant.
   */
  lemma ConvertAgreesWhereDefined(bessel: BesselianElements, t: real, dT: real)
    requires ConvertToDateTimeAsWritten(bessel, t, dT).Some?
    ensures ConvertToDateTimeAsWritten(bessel, t, dT).value == ConvertToDateTime(bessel, t, dT)
  {
    var hours := HoursOfDay(bessel, t, dT);
    var x := hours * NANOS_PER_HOUR as real;
    if hours < 0.0 {
      assert (hours + 24.0) * NANOS_PER_HOUR as real == x + NANOS_PER_DAY as real;
      JavaRoundShift(x, NANOS_PER_DAY);
    }
    InstantInjective(ConvertToDateTimeAsWritten(bessel, t, dT).value, ConvertToDateTime(bessel, t, dT));
  }

  /**
   Exactly when the conversion as written fails, in terms of the rounded nanoseconds R of the
   hour count: R reaches a whole day (every time from midnight on), R lies more than a day before
   the day of maximum, or a negative hour count rounds to R = 0, which the step back by one day
   turns into 24:00.
   */
  lemma ConvertAsWrittenFails(bessel: BesselianElements, t: real, dT: real)
    ensures var hours := HoursOfDay(bessel, t, dT);
      var rounded := JavaRound(hours * NANOS_PER_HOUR as real);
      ConvertToDateTimeAsWritten(bessel, t, dT).None? <==>
        (rounded >= NANOS_PER_DAY || rounded < -NANOS_PER_DAY || (hours < 0.0 && rounded == 0))
    ensures HoursOfDay(bessel, t, dT) >= 24.0 ==> ConvertToDateTimeAsWritten(bessel, t, dT).None?
  {
    var hours := HoursOfDay(bessel, t, dT);
    var x := hours * NANOS_PER_HOUR as real;
    if hours < 0.0 {
      assert (hours + 24.0) * NANOS_PER_HOUR as real == x + NANOS_PER_DAY as real;
      JavaRoundShift(x, NANOS_PER_DAY);
    } else {
      assert x >= 0.0;
    }
    if hours >= 24.0 {
      assert x >= NANOS_PER_DAY as real;
    }
  }

  /**
   A contact after midnight TT fails as written: with T0 = 23 h, 1.5 h later is 24.5 h into the
   day, which no `LocalTime` holds, while the corrected conversion gives 00:30 the next day.
   */
  lemma ConvertFailsPastMidnight(bessel: BesselianElements)
    requires bessel.t0 == 23
    ensures ConvertToDateTimeAsWritten(bessel, 1.5, 0.0).None?
    ensures ConvertToDateTime(bessel, 1.5, 0.0) == LocalDateTime(bessel.whenMaxEclipse.date + 1, 30 * NANOS_PER_MINUTE)
  {
    assert HoursOfDay(bessel, 1.5, 0.0) == 24.5;
    assert JavaRound(24.5 * NANOS_PER_HOUR as real) == NANOS_PER_DAY + 30 * NANOS_PER_MINUTE;
    var expected := LocalDateTime(bessel.whenMaxEclipse.date + 1, 30 * NANOS_PER_MINUTE);
    InstantInjective(ConvertToDateTime(bessel, 1.5, 0.0), expected);
  }

  /**
   TT and UTC are Delta T apart, to within the nanosecond lost by rounding each of them.
   */
  lemma TTAndUTCDifferByDeltaT(bessel: BesselianElements, t: real, dT: real)
    ensures var gap := (Instant(ConvertToDateTime(bessel, t, 0.0)) - Instant(ConvertToDateTime(bessel, t, dT))) as real;
      dT * NANOS_PER_SECOND as real - 1.0 < gap < dT * NANOS_PER_SECOND as real + 1.0
  {
    var x1 := HoursOfDay(bessel, t, 0.0) * NANOS_PER_HOUR as real;
    var x2 := HoursOfDay(bessel, t, dT) * NANOS_PER_HOUR as real;
    assert x1 - x2 == dT * NANOS_PER_SECOND as real;
  }

  /**
   The local civil time of `t`: the UTC date-time T0 + t - Delta T, plus the location's offset hours,
   then its offset minutes.
   */
  function CivilTimeAt(bessel: BesselianElements, location: Location, t: real, dT: real): (r: LocalDateTime)
    ensures Instant(r) == Instant(ConvertToDateTime(bessel, t, dT)) + location.OffsetInMinutes() * NANOS_PER_MINUTE
  {
    PlusMinutes(PlusHours(ConvertToDateTime(bessel, t, dT), location.offsetHours), location.offsetMinutes)
  }

  // ---------------------------------------------------------------------------
  // The worksheet object

  /**
   A worksheet for the time `t` (hours from T0). The constructor stores the inputs; `Compute`
   fills in every other field.
   */
  class Worksheet {
    const t: real
    const dT: real
    const bessel: BesselianElements
    const location: Location
    const trig: Trig

    var X: real
    var Y: real
    var d: real
    var MU: real
    var L1: real
    var L2: real
    var Xprime: real
    var Yprime: real
    var H: real
    var xi: real
    var eta: real
    var zeta: real
    var M1: real
    var d1: real
    var xiPrime: real
    var etaPrime: real
    var u: real
    var v: real
    var m: real
    var a: real
    var b: real
    var n: real
    var L1prime: real
    var L2prime: real
    var tauM: real
    var G: real
    var P: real
    var A: real
    var h: real
    var az: real
    var q: real
    var Z: real

    constructor(t: real, dT: real, bessel: BesselianElements, location: Location, trig: Trig)
      ensures this.t == t && this.dT == dT && this.bessel == bessel && this.location == location
      ensures this.trig == trig
    {
      this.t := t;
      this.dT := dT;
      this.bessel := bessel;
      this.location := location;
      this.trig := trig;
    }

    /** The computed fields, as one value. */
    function Snapshot(): Geometry
      reads this
    {
      Geometry(X, Y, d, MU, L1, L2, Xprime, Yprime, H, xi, eta, zeta, M1, d1, xiPrime, etaPrime,
        u, v, m, a, b, n, L1prime, L2prime, tauM, G, P, A, h, az, q, Z)
    }

    /** The fields hold the worksheet at `t`. */
    ghost predicate Computed()
      reads this
    {
      Usable(bessel) && Snapshot() == SheetAt(t, dT, bessel, location, trig)
    }

    /**
     `compute`: the quantities in the order of the worksheet, each from those before it, then
     assigned to the fields.
     */
    method Compute()
      requires Usable(bessel)
      modifies this
      ensures Computed()
    {
      var g := ComputeGeometry(t, dT, bessel, location, trig);
      Store(g);
      WorksheetDeterministic(g, SheetAt(t, dT, bessel, location, trig), t, dT, bessel, location, trig);
    }

    /** Assigns every field from one computed value, stage by stage. */
    method Store(g: Geometry)
      modifies this
      ensures X == g.X && Y == g.Y && d == g.d && MU == g.MU && L1 == g.L1 && L2 == g.L2 && Xprime == g.Xprime && Yprime == g.Yprime
      ensures H == g.H && xi == g.xi && eta == g.eta && zeta == g.zeta && M1 == g.M1 && d1 == g.d1 && xiPrime == g.xiPrime && etaPrime == g.etaPrime
      ensures u == g.u && v == g.v && m == g.m && a == g.a && b == g.b && n == g.n && L1prime == g.L1prime && L2prime == g.L2prime
      ensures tauM == g.tauM && G == g.G && P == g.P && A == g.A && h == g.h && az == g.az && q == g.q && Z == g.Z
    {
      StoreElements(g);
      StoreObserver(g);
      StoreShadow(g);
      StoreCircumstances(g);
    }

    /** Assigns the Besselian elements at `t` and the hourly variations of x and y. */
    method StoreElements(g: Geometry)
      modifies this`X, this`Y, this`d, this`MU, this`L1, this`L2, this`Xprime, this`Yprime
      ensures X == g.X && Y == g.Y && d == g.d && MU == g.MU
      ensures L1 == g.L1 && L2 == g.L2 && Xprime == g.Xprime && Yprime == g.Yprime
    {
      X, Y, d, MU, L1, L2, Xprime, Yprime := g.X, g.Y, g.d, g.MU, g.L1, g.L2, g.Xprime, g.Yprime;
    }

    /** Assigns the hour angle, the observer's coordinates and their hourly variations. */
    method StoreObserver(g: Geometry)
      modifies this`H, this`xi, this`eta, this`zeta, this`M1, this`d1, this`xiPrime, this`etaPrime
      ensures H == g.H && xi == g.xi && eta == g.eta && zeta == g.zeta
      ensures M1 == g.M1 && d1 == g.d1 && xiPrime == g.xiPrime && etaPrime == g.etaPrime
    {
      H, xi, eta, zeta, M1, d1, xiPrime, etaPrime := g.H, g.xi, g.eta, g.zeta, g.M1, g.d1, g.xiPrime, g.etaPrime;
    }

    /** Assigns the shadow axis relative to the observer and the radii of the cones there. */
    method StoreShadow(g: Geometry)
      modifies this`u, this`v, this`m, this`a, this`b, this`n, this`L1prime, this`L2prime
      ensures u == g.u && v == g.v && m == g.m && a == g.a
      ensures b == g.b && n == g.n && L1prime == g.L1prime && L2prime == g.L2prime
    {
      u, v, m, a, b, n, L1prime, L2prime := g.u, g.v, g.m, g.a, g.b, g.n, g.L1prime, g.L2prime;
    }

    /** Assigns the correction to maximum, the magnitude, the angles and the Sun's position. */
    method StoreCircumstances(g: Geometry)
      modifies this`tauM, this`G, this`P, this`A, this`h, this`az, this`q, this`Z
      ensures tauM == g.tauM && G == g.G && P == g.P && A == g.A
      ensures h == g.h && az == g.az && q == g.q && Z == g.Z
    {
      tauM, G, P, A, h, az, q, Z := g.tauM, g.G, g.P, g.A, g.h, g.az, g.q, g.Z;
    }

    /** `TT()`: T0 + t as a date-time, without Delta T. */
    function TT(): (r: LocalDateTime)
      ensures Instant(r) == bessel.whenMaxEclipse.date * NANOS_PER_DAY + JavaRound((bessel.t0 as real + t) * NANOS_PER_HOUR as real)
    {
      ConvertToDateTime(bessel, t, 0.0)
    }

    /** `UTC()`: T0 + t - Delta T. */
    function UTC(): (r: LocalDateTime)
      ensures Instant(r) == bessel.whenMaxEclipse.date * NANOS_PER_DAY + JavaRound(HoursOfDay(bessel, t, dT) * NANOS_PER_HOUR as real)
    {
      ConvertToDateTime(bessel, t, dT)
    }

    /** `localCivilTime()`: UTC plus the offset hours, then plus the offset minutes. */
    function LocalCivilTime(): (r: LocalDateTime)
      ensures Instant(r) == Instant(UTC()) + location.OffsetInMinutes() * NANOS_PER_MINUTE
    {
      CivilTimeAt(bessel, location, t, dT)
    }
  }
}
