/**
 Polynomial: a polynomial in one variable, given by its coefficients in increasing order of power,
 with an optional conversion applied to every value it produces (degrees to radians, for example).
 */
module Polynomials {
  import opened Wrappers

  /** A polynomial; a `None` converter is the Java `null` one. */
  datatype Polynomial = Polynomial(converter: Option<real -> real>, coefficients: seq<real>)

  /** `new Polynomial(coefficients)`: the constructor without a converter. */
  function Plain(coefficients: seq<real>): (p: Polynomial)
    ensures p.converter.None? && p.coefficients == coefficients
  {
    Polynomial(None, coefficients)
  }

  function Pow(t: real, n: nat): real {
    if n == 0 then 1.0 else t * Pow(t, n - 1)
  }

  /** The textbook value c[0] + c[1] t + c[2] t^2 + ..., summed from the highest power down. */
  function Sum(c: seq<real>, t: real): real {
    if |c| == 0 then 0.0 else Sum(c[..|c| - 1], t) + c[|c| - 1] * Pow(t, |c| - 1)
  }

  /** The nested form c[0] + t (c[1] + t (c[2] + ...)) that Horner's method computes. */
  function Horner(c: seq<real>, t: real): real {
    if |c| == 0 then 0.0 else c[0] + t * Horner(c[1..], t)
  }

  /** The sum splits off its constant term: Sum(c) = c[0] + t Sum(c[1..]). */
  lemma {:induction false} SumShift(c: seq<real>, t: real)
    requires |c| >= 1
    ensures Sum(c, t) == c[0] + t * Sum(c[1..], t)
    decreases |c|
  {
    if |c| > 1 {
      var n := |c| - 1;
      var p, q := c[..n], c[1..];
      assert p[1..] == q[..n - 1];
      assert p[0] == c[0] && q[n - 1] == c[n];
      SumShift(p, t);
      var a, pw := Sum(q[..n - 1], t), Pow(t, n - 1);
      assert Sum(q, t) == a + c[n] * pw;
      assert Sum(c, t) == (c[0] + t * a) + c[n] * (t * pw);
      assert c[n] * (t * pw) == t * (c[n] * pw);
      assert t * (a + c[n] * pw) == t * a + t * (c[n] * pw);
    } else {
      assert c[..0] == [];
      assert c[1..] == [];
    }
  }

  /** Horner's nesting computes the textbook sum. */
  lemma {:induction false} HornerIsSum(c: seq<real>, t: real)
    ensures Horner(c, t) == Sum(c, t)
    decreases |c|
  {
    if |c| > 0 {
      HornerIsSum(c[1..], t);
      SumShift(c, t);
    }
  }

  /** The converter applied to a raw value, or the value itself when there is none. */
  function Convert(p: Polynomial, x: real): (r: real)
    ensures p.converter.None? ==> r == x
  {
    match p.converter
    case None => x
    case Some(f) => f(x)
  }

  /** What `valueAt(t)` promises: the converted value of the sum of c[i] t^i. */
  function Eval(p: Polynomial, t: real): real {
    Convert(p, Sum(p.coefficients, t))
  }

  /**
   `valueAt`: Horner's method, running backwards over the coefficients from an accumulator of 0,
   then the converter if there is one.
   */
  method ValueAt(p: Polynomial, t: real) returns (result: real)
    ensures result == Eval(p, t)
  {
    var c := p.coefficients;
    result := 0.0;
    var idx := |c| - 1;
    while idx > -1
      invariant -1 <= idx < |c|
      invariant result == Horner(c[idx + 1..], t)
      decreases idx
    {
      assert c[idx..][1..] == c[idx + 1..];
      result := c[idx] + t * result;
      idx := idx - 1;
    }
    assert c[0..] == c;
    HornerIsSum(c, t);
    if p.converter.Some? {
      result := p.converter.value(result);
    }
  }

  /** With no coefficients the loop never runs: the value is the converter applied to 0. */
  lemma EmptyPolynomialValue(p: Polynomial, t: real)
    requires p.coefficients == []
    ensures Eval(p, t) == Convert(p, 0.0)
  {
  }

  /** The constant term is the value at 0. */
  lemma {:induction false} SumAtZero(c: seq<real>)
    requires |c| >= 1
    ensures Sum(c, 0.0) == c[0]
  {
    SumShift(c, 0.0);
  }

  /** The coefficients of the formal derivative: (i+1) c[i+1] for each i. */
  function Differentiate(c: seq<real>): (d: seq<real>)
    requires |c| >= 1
    ensures |d| == |c| - 1
  {
    seq(|c| - 1, i requires 0 <= i < |c| - 1 => (i + 1) as real * c[i + 1])
  }

  /**
   `derivative()`: a new coefficient array one shorter, filled in a loop, sharing the converter.
   An empty polynomial has no derivative (the Java array size would be negative).
   */
  method Derivative(p: Polynomial) returns (d: Polynomial)
    requires |p.coefficients| >= 1
    ensures d.converter == p.converter
    ensures d.coefficients == Differentiate(p.coefficients)
  {
    var c := p.coefficients;
    var derivCoeff := new real[|c| - 1];
    for idx := 1 to |c|
      invariant forall i :: 0 <= i < idx - 1 ==> derivCoeff[i] == (i + 1) as real * c[i + 1]
    {
      derivCoeff[idx - 1] := idx as real * c[idx];
    }
    var dc := Differentiate(c);
    assert forall i :: 0 <= i < |dc| ==> derivCoeff[..][i] == dc[i];
    assert derivCoeff[..] == dc;
    d := Polynomial(p.converter, derivCoeff[..]);
  }

  /** A constant polynomial has the empty polynomial as derivative. */
  lemma DerivativeOfConstant(c: seq<real>)
    requires |c| == 1
    ensures Differentiate(c) == []
  {
  }

  /**
   The derivative is the rate of change: Sum(Differentiate(c)) is the derivative of the sum, term
   by term (d/dt t^n = n t^(n-1)).
   */
  lemma {:induction false} DifferentiateSum(c: seq<real>, t: real)
    requires |c| >= 1
    ensures Sum(Differentiate(c), t) == DerivSum(c, t)
    decreases |c|
  {
    if |c| > 1 {
      var n := |c| - 1;
      var d := Differentiate(c);
      var e := Differentiate(c[..n]);
      assert |d[..|d| - 1]| == |e|;
      forall i | 0 <= i < |e|
        ensures d[..|d| - 1][i] == e[i]
      {
        assert c[..n][i + 1] == c[i + 1];
      }
      assert d[..|d| - 1] == e;
      DifferentiateSum(c[..n], t);
    }
  }

  /** The term-by-term derivative sum n c[n] t^(n-1) + ... + 1 c[1] t^0. */
  function DerivSum(c: seq<real>, t: real): real
    requires |c| >= 1
  {
    if |c| == 1 then 0.0 else DerivSum(c[..|c| - 1], t) + (|c| - 1) as real * c[|c| - 1] * Pow(t, |c| - 2)
  }

  /** `coefficient(idx)`: the raw coefficient, without the converter. */
  function Coefficient(p: Polynomial, idx: nat): real
    requires idx < |p.coefficients|
  {
    p.coefficients[idx]
  }

  /**
   The first-order coefficient is the rate of change at t = 0 before conversion: it is what the
   derivative evaluates to there, when no converter is involved.
   */
  lemma CoefficientOneIsRateAtZero(p: Polynomial)
    requires |p.coefficients| >= 2
    ensures Coefficient(p, 1) == Sum(Differentiate(p.coefficients), 0.0)
  {
    SumAtZero(Differentiate(p.coefficients));
  }
}
