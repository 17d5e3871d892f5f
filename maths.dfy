/**
 Maths: angle conversion and normalisation, rounding to a number of places, and the signed text
 forms of durations and angles used on the printed viewer.
 */
module Maths {
  import opened JavaMath
  import opened JavaStrings
  import opened Time

  /** Radians per degree (`DEG_TO_RADS`, computed as 2 pi / 360). */
  const DEG_TO_RADS: real := TWO_PI / 360.0
  /** Degrees per radian (`RADS_TO_DEG`, computed as 360 / (2 pi)). */
  const RADS_TO_DEG: real := 360.0 / (2.0 * PI)
  const ARCMINUTES_PER_DEGREE: int := 60
  const SECONDS_PER_ARCMIN: int := 60

  function DegToRads(deg: real): real {
    deg * DEG_TO_RADS
  }

  function RadsToDegs(rad: real): real {
    rad * RADS_TO_DEG
  }

  /** Over the reals the two conversions undo each other. */
  lemma DegreesRadiansInverse(x: real)
    ensures RadsToDegs(DegToRads(x)) == x
    ensures DegToRads(RadsToDegs(x)) == x
  {
    assert DEG_TO_RADS * RADS_TO_DEG == 1.0;
  }

  /** Both conversions preserve sign and order (the constants are positive). */
  lemma ConversionsMonotonic(x: real, y: real)
    requires x < y
    ensures DegToRads(x) < DegToRads(y) && RadsToDegs(x) < RadsToDegs(y)
  {
  }

  /** `roundToOnePlace`: `Math.round(val * 10) / 10`. */
  function RoundToOnePlace(val: real): (r: real)
    ensures -0.05 < r - val <= 0.05
    ensures (r * 10.0).Floor as real == r * 10.0
  {
    (JavaRound(val * 10.0) as real) / 10.0
  }

  /** `roundToThreePlaces`: `Math.round(val * 1000) / 1000`. */
  function RoundToThreePlaces(val: real): (r: real)
    ensures -0.0005 < r - val <= 0.0005
    ensures (r * 1000.0).Floor as real == r * 1000.0
  {
    (JavaRound(val * 1000.0) as real) / 1000.0
  }

  /** `atan3`: `atan2` moved into 0..2pi by adding a full turn to negative results. */
  function Atan3(trig: Trig, y: real, x: real): (r: real)
    ensures 0.0 <= r < TWO_PI
    ensures r == trig.atan2(y, x) || r == trig.atan2(y, x) + TWO_PI
    ensures trig.atan2(y, x) >= 0.0 ==> r == trig.atan2(y, x)
  {
    var result := trig.atan2(y, x);
    if result < 0.0 then result + TWO_PI else result
  }

  /** `in2pi`: the Java remainder by 2 pi, moved up by a full turn when it is negative. */
  function In2Pi(rads: real): (r: real)
    ensures 0.0 <= r < TWO_PI
  {
    var result := DoubleRem(rads, TWO_PI);
    if result < 0.0 then result + TWO_PI else result
  }

  /** `k` full turns, in radians. */
  function Turns(k: int): real {
    k as real * TWO_PI
  }

  /** `in2pi` only ever removes whole turns: the angle it returns points the same way. */
  lemma In2PiWholeTurns(rads: real)
    ensures exists k: int :: rads - In2Pi(rads) == Turns(k)
  {
    var k := Trunc(rads / TWO_PI);
    if DoubleRem(rads, TWO_PI) < 0.0 {
      assert rads - In2Pi(rads) == Turns(k - 1);
    } else {
      assert rads - In2Pi(rads) == Turns(k);
    }
  }

  /** An angle already in 0..2pi is left as it is. */
  lemma In2PiIdentity(rads: real)
    requires 0.0 <= rads < TWO_PI
    ensures In2Pi(rads) == rads
  {
    assert Trunc(rads / TWO_PI) == 0;
  }

  /** The result depends only on the direction: angles a whole number of turns apart agree. */
  lemma In2PiPeriodic(rads: real, k: int)
    ensures In2Pi(rads + Turns(k)) == In2Pi(rads)
  {
    In2PiWholeTurns(rads);
    In2PiWholeTurns(rads + Turns(k));
    var k1 :| rads - In2Pi(rads) == Turns(k1);
    var k2 :| rads + Turns(k) - In2Pi(rads + Turns(k)) == Turns(k2);
    var a, b := In2Pi(rads), In2Pi(rads + Turns(k));
    // a and b lie in 0..2pi and differ by a whole number of turns, so they are equal
    assert b - a == Turns(k + k1 - k2);
    SameTurnClass(a, b, k + k1 - k2);
  }

  /** Two angles in 0..2pi that differ by whole turns are the same angle. */
  lemma SameTurnClass(a: real, b: real, k: int)
    requires 0.0 <= a < TWO_PI && 0.0 <= b < TWO_PI
    requires b - a == Turns(k)
    ensures a == b
  {
    assert -TWO_PI < k as real * TWO_PI < TWO_PI;
    assert k == 0;
  }

  // ---------------------------------------------------------------------------
  // Signed durations

  /** "-" for a negative duration, "+" for every other. */
  function SignOf(d: Duration): string {
    if IsNegative(d) then "-" else "+"
  }

  /** Whole hours without padding, ":" and the minutes part padded to two digits, of a magnitude. */
  function HoursMinutes(a: Duration): (r: string)
    requires a >= 0
    ensures |r| >= 4 && r[|r| - 3] == ':'
  {
    DurationParts(a);
    ZeroPaddedTwoDigits(ToMinutesPart(a));
    NatToString(ToHours(a)) + ":" + ZeroPadded(ToMinutesPart(a))
  }

  /** As HoursMinutes, then ":" and the seconds part padded to two digits. */
  function HoursMinutesSeconds(a: Duration): (r: string)
    requires a >= 0
    ensures |r| >= 7 && r[|r| - 6] == ':' && r[|r| - 3] == ':'
  {
    DurationParts(a);
    ZeroPaddedTwoDigits(ToSecondsPart(a));
    HoursMinutes(a) + ":" + ZeroPadded(ToSecondsPart(a))
  }

  /** `hhmm`: sign, whole hours without padding, ":" and the minutes part padded to two digits. */
  function Hhmm(d: Duration): (r: string)
    ensures |r| >= 5 && r[0] == (if d < 0 then '-' else '+') && r[|r| - 3] == ':'
  {
    SignOf(d) + HoursMinutes(DurationAbs(d))
  }

  /** `hhmmss`: as `hhmm`, then ":" and the seconds part padded to two digits. */
  function Hhmmss(d: Duration): (r: string)
    ensures |r| >= 8 && r[0] == (if d < 0 then '-' else '+') && r[|r| - 6] == ':' && r[|r| - 3] == ':'
  {
    SignOf(d) + HoursMinutesSeconds(DurationAbs(d))
  }

  /**
   `t` reads as hours and minutes: digits before the colon, two digits after it naming a minute
   0..59, together `minutes` whole minutes.
   */
  predicate ReadsAsMinutes(t: string, minutes: int) {
    |t| >= 4 && t[|t| - 3] == ':' && AllDigits(t[..|t| - 3]) && AllDigits(t[|t| - 2..]) &&
    ParseNat(t[|t| - 2..]) < 60 && ParseNat(t[..|t| - 3]) * 60 + ParseNat(t[|t| - 2..]) == minutes
  }

  /** `t` reads as hours, minutes (0..59) and seconds (0..59), together `seconds` whole seconds. */
  predicate ReadsAsSeconds(t: string, seconds: int) {
    |t| >= 7 && t[|t| - 6] == ':' && t[|t| - 3] == ':' &&
    AllDigits(t[..|t| - 6]) && AllDigits(t[|t| - 5..|t| - 3]) && AllDigits(t[|t| - 2..]) &&
    ParseNat(t[|t| - 5..|t| - 3]) < 60 && ParseNat(t[|t| - 2..]) < 60 &&
    ParseNat(t[..|t| - 6]) * 3600 + ParseNat(t[|t| - 5..|t| - 3]) * 60 + ParseNat(t[|t| - 2..]) == seconds
  }

  /** Reading `hhmm` back after its sign gives the whole minutes of the magnitude of the duration. */
  lemma HhmmReadsBack(d: Duration)
    ensures ReadsAsMinutes(Hhmm(d)[1..], ToMinutes(DurationAbs(d)))
  {
    var a := DurationAbs(d);
    DurationParts(a);
    var h, m := NatToString(ToHours(a)), ZeroPadded(ToMinutesPart(a));
    ZeroPaddedTwoDigits(ToMinutesPart(a));
    ParseNatToString(ToHours(a));
    var t := Hhmm(d)[1..];
    assert t == HoursMinutes(a) == h + ":" + m;
    assert t[..|t| - 3] == h;
    assert t[|t| - 2..] == m;
    assert ToHours(a) * 60 + ToMinutesPart(a) == ToMinutes(a);
  }

  /** Reading `hhmmss` back after its sign gives the whole seconds of the magnitude of the duration. */
  lemma HhmmssReadsBack(d: Duration)
    ensures ReadsAsSeconds(Hhmmss(d)[1..], Seconds(DurationAbs(d)))
  {
    var a := DurationAbs(d);
    DurationParts(a);
    var h, m, s := NatToString(ToHours(a)), ZeroPadded(ToMinutesPart(a)), ZeroPadded(ToSecondsPart(a));
    ZeroPaddedTwoDigits(ToMinutesPart(a));
    ZeroPaddedTwoDigits(ToSecondsPart(a));
    ParseNatToString(ToHours(a));
    var t := Hhmmss(d)[1..];
    assert t == HoursMinutesSeconds(a) == h + ":" + m + ":" + s;
    assert t[..|t| - 6] == h;
    assert t[|t| - 5..|t| - 3] == m;
    assert t[|t| - 2..] == s;
  }

  /** A duration and its negation print alike except for the sign, unless the duration is zero. */
  lemma HhmmNegation(d: Duration)
    ensures Hhmm(d)[1..] == Hhmm(-d)[1..]
    ensures Hhmmss(d)[1..] == Hhmmss(-d)[1..]
    ensures d != 0 ==> Hhmm(d)[0] != Hhmm(-d)[0] && Hhmmss(d)[0] != Hhmmss(-d)[0]
  {
    assert DurationAbs(-d) == DurationAbs(d);
  }

  // ---------------------------------------------------------------------------
  // Degrees, arcminutes and arcseconds

  /** The pieces `radsToDegreeString` prints. */
  datatype DegreeParts = DegreeParts(sign: string, degrees: real, arcminutes: real, arcseconds: real)

  /** The computation of `radsToDegreeString` before anything is turned into text. */
  function DegreePartsOf(rads: real): (r: DegreeParts)
    ensures r.sign == (if rads > 0.0 then "+" else "-")
    ensures r.degrees >= 0.0 && r.degrees.Floor as real == r.degrees
    ensures 0.0 <= r.arcminutes < 60.0 && r.arcminutes.Floor as real == r.arcminutes
    ensures 0.0 <= r.arcseconds < 60.0
    ensures r.degrees * 3600.0 + r.arcminutes * 60.0 + r.arcseconds == RadsToDegs(Abs(rads)) * 3600.0
  {
    var degs := RadsToDegs(Abs(rads));
    var degrees := Floor(degs);
    var arcmins := (degs - degrees) * ARCMINUTES_PER_DEGREE as real;
    var arcminutes := Floor(arcmins);
    var arcsecs := (arcmins - arcminutes) * SECONDS_PER_ARCMIN as real;
    DegreeParts(if rads > 0.0 then "+" else "-", degrees, arcminutes, arcsecs)
  }

  /**
   `radsToDegreeString`, for example +2° 16' 22.2''. `showDouble` stands for `Double.toString`,
   which is not modelled.
   */
  function RadsToDegreeString(rads: real, showDouble: real -> string): (r: string)
    ensures |r| > 0 && r[0] == (if rads > 0.0 then '+' else '-')
  {
    var p := DegreePartsOf(rads);
    p.sign + IntToString(IntCast(p.degrees)) + "°" + IntToString(IntCast(p.arcminutes)) + "'"
      + showDouble(RoundToThreePlaces(p.arcseconds)) + "''"
  }

  /** Zero is printed with a minus sign, because only a positive angle gets "+". */
  lemma ZeroAngleIsMinus(showDouble: real -> string)
    ensures RadsToDegreeString(0.0, showDouble)[..2] == "-0"
  {
    var p := DegreePartsOf(0.0);
    assert p.degrees == 0.0;
    assert IntCast(0.0) == 0;
  }

  /** The arcminute field is always a whole number from 0 to 59 and prints without a sign. */
  lemma ArcminuteField(rads: real)
    ensures 0 <= IntCast(DegreePartsOf(rads).arcminutes) < 60
    ensures IntCast(DegreePartsOf(rads).arcminutes) as real == DegreePartsOf(rads).arcminutes
  {
  }
}
