/** EclipseType: the general character of a solar eclipse, and its decoding from data codes. */
module EclipseTypes {
  import W = Wrappers
  import opened JavaStrings

  datatype EclipseType = Total | Annular | Hybrid | Partial | None

  /** `values()`: the constants in declaration order. */
  const Values: seq<EclipseType> := [Total, Annular, Hybrid, Partial, None]

  /** `name()`. */
  function Name(e: EclipseType): string {
    match e
    case Total => "Total"
    case Annular => "Annular"
    case Hybrid => "Hybrid"
    case Partial => "Partial"
    case None => "None"
  }

  /** What `parse` throws. */
  datatype ParseError =
    | EmptyInput         // `substring(0, 1)` of ""
    | UnknownType(raw: string)  // the IllegalArgumentException

  /** Every constant is listed once in `values()`. */
  lemma ValuesComplete(e: EclipseType)
    ensures e in Values
  {
  }

  /** The first of `candidates` whose name starts with `firstChar`. */
  function FirstMatching(candidates: seq<EclipseType>, firstChar: string): (r: W.Option<nat>)
    ensures r.Some? ==> r.value < |candidates| && StartsWith(Name(candidates[r.value]), firstChar)
    ensures r.Some? ==> forall j :: 0 <= j < r.value ==> !StartsWith(Name(candidates[j]), firstChar)
    ensures r.None? ==> forall j :: 0 <= j < |candidates| ==> !StartsWith(Name(candidates[j]), firstChar)
  {
    if |candidates| == 0 then W.None
    else if StartsWith(Name(candidates[0]), firstChar) then W.Some(0)
    else match FirstMatching(candidates[1..], firstChar)
      case None => W.None
      case Some(i) => W.Some(i + 1)
  }

  /** The position of a constant in declaration order. */
  function Ordinal(e: EclipseType): (r: nat)
    ensures r < |Values| && Values[r] == e
  {
    match e
    case Total => 0
    case Annular => 1
    case Hybrid => 2
    case Partial => 3
    case None => 4
  }

  /** Does the name start with the first character (the one-character prefix) of `raw`? */
  lemma StartsWithFirstChar(e: EclipseType, raw: string)
    requires raw != ""
    ensures StartsWith(Name(e), raw[..1]) <==> Name(e)[0] == raw[0]
  {
    assert Name(e)[..1] == [Name(e)[0]];
    assert raw[..1] == [raw[0]];
  }

  /**
   The result `parse` is specified to give: the first constant, in declaration order, whose name
   starts with the first character of the input; an error when there is no such constant, or no
   first character.
   */
  function Decode(raw: string): (r: W.Result<EclipseType, ParseError>)
    ensures raw == "" <==> r == W.Failure(EmptyInput)
    ensures r.Success? ==> Name(r.value)[0] == raw[0]
    ensures r.Success? ==> forall e :: Name(e)[0] == raw[0] ==> Ordinal(r.value) <= Ordinal(e)
    ensures raw != "" && r.Failure? ==> r.error == UnknownType(raw) && forall e :: Name(e)[0] != raw[0]
  {
    if raw == "" then W.Failure(EmptyInput)
    else
      var firstChar := raw[..1];
      forall e | true
        ensures StartsWith(Name(e), firstChar) <==> Name(e)[0] == raw[0]
      {
        StartsWithFirstChar(e, raw);
      }
      match FirstMatching(Values, firstChar)
      case None =>
        forall e | true
          ensures Name(e)[0] != raw[0]
        {
          assert !StartsWith(Name(Values[Ordinal(e)]), firstChar);
        }
        W.Failure(UnknownType(raw))
      case Some(i) =>
        assert forall e :: Values[Ordinal(e)] == e;
        W.Success(Values[i])
  }

  /** `parse`: a loop over `values()` that breaks at the first name starting with the first character. */
  method Parse(raw: string) returns (r: W.Result<EclipseType, ParseError>)
    ensures r == Decode(raw)
  {
    if raw == "" {
      return W.Failure(EmptyInput);
    }
    var firstChar := raw[..1];
    // `found` false plays the part of the Java `result == null`
    var found := false;
    var result := Total;
    var i := 0;
    while i < |Values|
      invariant 0 <= i <= |Values|
      invariant !found && forall j :: 0 <= j < i ==> !StartsWith(Name(Values[j]), firstChar)
    {
      if StartsWith(Name(Values[i]), firstChar) {
        result := Values[i];
        found := true;
        i := i + 1;
        break;
      }
      i := i + 1;
    }
    if !found {
      return W.Failure(UnknownType(raw));
    }
    return W.Success(result);
  }

  /** Only the first character matters: inputs that share it decode alike. */
  lemma FirstCharacterOnly(a: string, b: string)
    requires a != "" && b != "" && a[0] == b[0]
    ensures Decode(a).Success? <==> Decode(b).Success?
    ensures Decode(a).Success? ==> Decode(a).value == Decode(b).value
  {
    if Decode(a).Success? && Decode(b).Success? {
      var x, y := Decode(a).value, Decode(b).value;
      assert Ordinal(x) == Ordinal(y);
      assert x == Values[Ordinal(x)] && y == Values[Ordinal(y)];
    }
  }

  /** Matching is case-sensitive: every name starts with a capital, so a lower-case code is refused. */
  lemma LowercaseRejected(raw: string)
    requires raw != "" && 'a' <= raw[0] <= 'z'
    ensures Decode(raw) == W.Failure(UnknownType(raw))
  {
  }

  /** An input decodes to a constant whose name starts with its first character when no earlier constant's does. */
  lemma DecodesToFirstNamed(raw: string, e: EclipseType)
    requires raw != "" && Name(e)[0] == raw[0]
    requires forall f :: Ordinal(f) < Ordinal(e) ==> Name(f)[0] != raw[0]
    ensures Decode(raw) == W.Success(e)
  {
    var r := Decode(raw);
    assert r.Success?;
    assert Ordinal(r.value) == Ordinal(e);
    assert r.value == Values[Ordinal(e)] == e;
  }

  /** The codes of the eclipse data file decode by their first letter. */
  lemma DataCodes()
    ensures Decode("Pb") == W.Success(Partial) && Decode("Pe") == W.Success(Partial)
    ensures Decode("A+") == W.Success(Annular) && Decode("As") == W.Success(Annular)
    ensures Decode("H3") == W.Success(Hybrid) && Decode("Hm") == W.Success(Hybrid)
    ensures Decode("Tm") == W.Success(Total) && Decode("T+") == W.Success(Total)
  {
    DecodesToFirstNamed("Pb", Partial);
    DecodesToFirstNamed("Pe", Partial);
    DecodesToFirstNamed("A+", Annular);
    DecodesToFirstNamed("As", Annular);
    DecodesToFirstNamed("H3", Hybrid);
    DecodesToFirstNamed("Hm", Hybrid);
    DecodesToFirstNamed("Tm", Total);
    DecodesToFirstNamed("T+", Total);
  }
}
