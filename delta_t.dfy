/**
 ApproximateDeltaT: an approximation of Delta T (TT - UTC, in seconds) for a year and month, by
 polynomials over five ranges of years.
 */
module DeltaT {
  import opened Polynomials

  /** The first year of each range, from the latest down, in the order the source tests them. */
  const THRESHOLDS: seq<int> := [2015, 2005, 1986, 1961, 1941]
  /** The year each range's polynomial is centred on; the 1986-2005 range is centred on 2000. */
  const EPOCHS: seq<real> := [2015.0, 2005.0, 2000.0, 1975.0, 1950.0]
  /** The coefficients of each range's polynomial, in increasing order of power. */
  const COEFFICIENTS: seq<seq<real>> := [
    [67.62, 0.3645, 0.0039755],
    [64.69, 0.2930],
    [63.86, 0.3345, -0.060374, 0.0017275, 0.000651814, 0.00002373599],
    [45.45, 1.067, -1.0 / 260.0, -1.0 / 718.0],
    [29.07, 0.407, -1.0 / 233.0, 1.0 / 2547.0]]

  /** `y`: the year as a real number, at the middle of the month. */
  function Y(year: int, month: int): (r: real)
    ensures 1 <= month <= 12 ==> year as real < r < (year + 1) as real
  {
    year as real + (month as real - 0.5) / 12.0
  }

  /** `polynomial(t, c...)`: the value of `new Polynomial(c)` (no converter) at t. */
  function PolynomialAt(t: real, coefficients: seq<real>): (r: real)
    ensures r == Sum(coefficients, t)
  {
    Eval(Plain(coefficients), t)
  }

  /** The range a year falls in: the first threshold, from the top, that the year reaches. */
  function RangeOf(year: int): (i: nat)
    ensures i <= |THRESHOLDS|
    ensures i < |THRESHOLDS| ==> year >= THRESHOLDS[i]
    ensures forall j :: 0 <= j < i ==> year < THRESHOLDS[j]
    ensures i == |THRESHOLDS| <==> year < 1941
  {
    FirstReached(year, 0)
  }

  function FirstReached(year: int, from: nat): (i: nat)
    requires from <= |THRESHOLDS|
    ensures from <= i <= |THRESHOLDS|
    ensures i < |THRESHOLDS| ==> year >= THRESHOLDS[i]
    ensures forall j :: from <= j < i ==> year < THRESHOLDS[j]
    decreases |THRESHOLDS| - from
  {
    if from == |THRESHOLDS| || year >= THRESHOLDS[from] then from else FirstReached(year, from + 1)
  }

  /**
   `lookup`: the polynomial of the first range whose threshold the year reaches, evaluated at y
   less that range's epoch; 0 before 1941. There is no upper bound on the year.
   */
  function Lookup(year: int, month: int): (r: real)
    ensures var i := RangeOf(year);
      if i == |THRESHOLDS| then r == 0.0 else r == Sum(COEFFICIENTS[i], Y(year, month) - EPOCHS[i])
  {
    var y := Y(year, month);
    if year >= 2015 then PolynomialAt(y - 2015.0, [67.62, 0.3645, 0.0039755])
    else if year >= 2005 then PolynomialAt(y - 2005.0, [64.69, 0.2930])
    else if year >= 1986 then PolynomialAt(y - 2000.0, [63.86, 0.3345, -0.060374, 0.0017275, 0.000651814, 0.00002373599])
    else if year >= 1961 then PolynomialAt(y - 1975.0, [45.45, 1.067, -1.0 / 260.0, -1.0 / 718.0])
    else if year >= 1941 then PolynomialAt(y - 1950.0, [29.07, 0.407, -1.0 / 233.0, 1.0 / 2547.0])
    else 0.0
  }

  /** Years far beyond 3000 are not rejected: they fall in the latest range. */
  lemma NoUpperBound(year: int, month: int)
    requires year >= 2015
    ensures Lookup(year, month) == Sum(COEFFICIENTS[0], Y(year, month) - 2015.0)
  {
  }
}
