/**
 TimelineEvent: something a person might want to know about during an eclipse, with the ordering,
 equality and hash code the timeline is sorted and compared by.
 */
module Timeline {
  import opened JavaMath
  import opened Time
  import Maths

  /**
   An event. `when` is the local time of day, `plusMinus` the interval from a reference event,
   `altitude` the Sun's altitude in degrees, already rounded to one decimal place.
   */
  datatype TimelineEvent = TimelineEvent(when: NanoOfDay, text: string, plusMinus: Duration, magnitude: real, altitude: real)

  /** The constructor: the altitude is given in radians and stored in degrees, rounded to one place. */
  function MakeEvent(when: NanoOfDay, text: string, plusMinus: Duration, magnitude: real, altitudeRads: real): (r: TimelineEvent)
    ensures r.when == when && r.text == text && r.plusMinus == plusMinus && r.magnitude == magnitude
    ensures -0.05 < r.altitude - Maths.RadsToDegs(altitudeRads) <= 0.05
    ensures (r.altitude * 10.0).Floor as real == r.altitude * 10.0
  {
    TimelineEvent(when, text, plusMinus, magnitude, Maths.RoundToOnePlace(Maths.RadsToDegs(altitudeRads)))
  }

  // ---------------------------------------------------------------------------
  // String.compareTo

  /** `a.compareTo(b)`: the difference of the first differing characters, else of the lengths. */
  function StringCompare(a: string, b: string): int {
    if |a| == 0 || |b| == 0 then |a| - |b|
    else if a[0] != b[0] then a[0] as int - b[0] as int
    else StringCompare(a[1..], b[1..])
  }

  lemma {:induction false} StringCompareZero(a: string, b: string)
    ensures StringCompare(a, b) == 0 <==> a == b
  {
    if |a| > 0 && |b| > 0 && a[0] == b[0] {
      StringCompareZero(a[1..], b[1..]);
      if a[1..] == b[1..] {
        assert a == [a[0]] + a[1..] && b == [b[0]] + b[1..];
      }
    }
  }

  lemma {:induction false} StringCompareAntisymmetric(a: string, b: string)
    ensures StringCompare(a, b) == -StringCompare(b, a)
  {
    if |a| > 0 && |b| > 0 && a[0] == b[0] {
      StringCompareAntisymmetric(a[1..], b[1..]);
    }
  }

  lemma {:induction false} StringCompareTransitive(a: string, b: string, c: string)
    requires StringCompare(a, b) < 0 && StringCompare(b, c) < 0
    ensures StringCompare(a, c) < 0
  {
    if |a| > 0 && |b| > 0 && |c| > 0 && a[0] == b[0] && b[0] == c[0] {
      StringCompareTransitive(a[1..], b[1..], c[1..]);
    }
  }

  // ---------------------------------------------------------------------------
  // compareTo

  /** A comparison of two reals by `<` and `>`, as `compareTo` does for the magnitude. */
  function RealCompare(x: real, y: real): (r: int)
    ensures r < 0 <==> x < y
    ensures r == 0 <==> x == y
  {
    if x < y then -1 else if x > y then 1 else 0
  }

  /**
   `compareTo` as written: lexicographic on the time of day, the text, the offset and the
   magnitude. The altitude is not compared.
   */
  function CompareAsWritten(x: TimelineEvent, y: TimelineEvent): int {
    var byWhen := TimeCompare(x.when, y.when);
    if byWhen != 0 then byWhen
    else
      var byText := StringCompare(x.text, y.text);
      if byText != 0 then byText
      else
        var byOffset := DurationCompare(x.plusMinus, y.plusMinus);
        if byOffset != 0 then byOffset
        else RealCompare(x.magnitude, y.magnitude)
  }

  /**
   Two events that differ only in altitude compare as equal, although `equals` tells them apart:
   the `assert this.equals(that)` in `compareTo` fails for them.
   */
  lemma AltitudeIgnoredByCompareTo()
    ensures var x, y := TimelineEvent(0, "Maximum eclipse.", 0, 0.5, 10.0), TimelineEvent(0, "Maximum eclipse.", 0, 0.5, 10.1);
      CompareAsWritten(x, y) == 0 && x != y
  {
    var x, y := TimelineEvent(0, "Maximum eclipse.", 0, 0.5, 10.0), TimelineEvent(0, "Maximum eclipse.", 0, 0.5, 10.1);
    StringCompareZero(x.text, y.text);
    DurationCompareSign(0, 0);
  }

  /**
   `compareTo` made consistent with `equals`: after the magnitude the altitude decides, so that
   only equal events compare as 0.
   */
  function Compare(x: TimelineEvent, y: TimelineEvent): int {
    var asWritten := CompareAsWritten(x, y);
    if asWritten != 0 then asWritten else RealCompare(x.altitude, y.altitude)
  }

  /** The corrected ordering returns 0 exactly for equal events. */
  lemma CompareZeroIffEqual(x: TimelineEvent, y: TimelineEvent)
    ensures Compare(x, y) == 0 <==> x == y
  {
    StringCompareZero(x.text, y.text);
    DurationCompareSign(x.plusMinus, y.plusMinus);
  }

  /** Comparing an event with itself gives 0, in either version. */
  lemma CompareReflexive(x: TimelineEvent)
    ensures CompareAsWritten(x, x) == 0 && Compare(x, x) == 0
  {
    CompareZeroIffEqual(x, x);
  }

  /** Swapping the two events turns the sign of the result, in either version. */
  lemma CompareAntisymmetric(x: TimelineEvent, y: TimelineEvent)
    ensures (CompareAsWritten(x, y) < 0 <==> CompareAsWritten(y, x) > 0)
    ensures (Compare(x, y) < 0 <==> Compare(y, x) > 0)
  {
    StringCompareAntisymmetric(x.text, y.text);
    DurationCompareSign(x.plusMinus, y.plusMinus);
    DurationCompareSign(y.plusMinus, x.plusMinus);
  }

  /** The corrected ordering is transitive. */
  lemma CompareTransitive(x: TimelineEvent, y: TimelineEvent, z: TimelineEvent)
    requires Compare(x, y) <= 0 && Compare(y, z) <= 0
    ensures Compare(x, z) <= 0
  {
    CompareZeroIffEqual(x, y);
    CompareZeroIffEqual(y, z);
    if x != y && y != z {
      StringCompareZero(x.text, y.text);
      StringCompareZero(y.text, z.text);
      StringCompareZero(x.text, z.text);
      DurationCompareSign(x.plusMinus, y.plusMinus);
      DurationCompareSign(y.plusMinus, z.plusMinus);
      DurationCompareSign(x.plusMinus, z.plusMinus);
      if StringCompare(x.text, y.text) < 0 && StringCompare(y.text, z.text) < 0 {
        StringCompareTransitive(x.text, y.text, z.text);
      }
    }
  }

  /** The correction only breaks the ties left by the original order. */
  lemma CompareRefinesAsWritten(x: TimelineEvent, y: TimelineEvent)
    requires CompareAsWritten(x, y) != 0
    ensures Compare(x, y) == CompareAsWritten(x, y)
  {
  }

  // ---------------------------------------------------------------------------
  // equals and hashCode

  /** One entry of `getSigFields()`. */
  datatype SigField = When(t: NanoOfDay) | Text(s: string) | PlusMinus(d: Duration) | Magnitude(m: real) | Altitude(a: real)

  /** `getSigFields()`: the five fields that take part in `equals` and `hashCode`. */
  function SigFields(e: TimelineEvent): (r: seq<SigField>)
    ensures |r| == 5
  {
    [When(e.when), Text(e.text), PlusMinus(e.plusMinus), Magnitude(e.magnitude), Altitude(e.altitude)]
  }

  /** The significant fields determine the event: no two different events share them. */
  lemma SigFieldsInjective(x: TimelineEvent, y: TimelineEvent)
    ensures SigFields(x) == SigFields(y) <==> x == y
  {
    if SigFields(x) == SigFields(y) {
      assert SigFields(x)[0] == SigFields(y)[0] && SigFields(x)[1] == SigFields(y)[1];
      assert SigFields(x)[2] == SigFields(y)[2] && SigFields(x)[3] == SigFields(y)[3];
      assert SigFields(x)[4] == SigFields(y)[4];
    }
  }

  /** `equals`: a loop over the significant fields that returns false at the first difference. */
  method Equals(x: TimelineEvent, y: TimelineEvent) returns (b: bool)
    ensures b <==> x == y
  {
    var mine, theirs := SigFields(x), SigFields(y);
    for i := 0 to |mine|
      invariant forall j :: 0 <= j < i ==> mine[j] == theirs[j]
    {
      if mine[i] != theirs[i] {
        SigFieldsInjective(x, y);
        return false;
      }
    }
    assert mine == theirs;
    SigFieldsInjective(x, y);
    return true;
  }

  /** Java `int` arithmetic: the value reduced to the signed 32-bit range. */
  function Wrap32(n: int): (r: int)
    ensures INT_MIN <= r <= INT_MAX
    ensures (r - n) % 0x1_0000_0000 == 0
  {
    var m := n % 0x1_0000_0000;
    if m > INT_MAX then m - 0x1_0000_0000 else m
  }

  /**
   `Arrays.hashCode` of the fields as `Objects.hash` computes it: start from 1 and, for each field,
   multiply by 31 and add its hash, in 32-bit arithmetic. `fieldHash` stands for the `hashCode`
   methods of the field types, which are not modelled.
   */
  function ArraysHash(fields: seq<SigField>, fieldHash: SigField -> int): int {
    if |fields| == 0 then 1
    else Wrap32(31 * ArraysHash(fields[..|fields| - 1], fieldHash) + fieldHash(fields[|fields| - 1]))
  }

  /** `hashCode`. */
  function HashCode(e: TimelineEvent, fieldHash: SigField -> int): (r: int)
    ensures INT_MIN <= r <= INT_MAX
  {
    ArraysHash(SigFields(e), fieldHash)
  }

  /**
   `equals` and `hashCode` agree: both are computed from the same significant fields, so events
   that are equal, field by field, have the same hash code.
   */
  lemma HashCodeConsistentWithEquals(x: TimelineEvent, y: TimelineEvent, fieldHash: SigField -> int)
    requires forall i :: 0 <= i < 5 ==> SigFields(x)[i] == SigFields(y)[i]
    ensures x == y && HashCode(x, fieldHash) == HashCode(y, fieldHash)
  {
    assert SigFields(x) == SigFields(y);
    SigFieldsInjective(x, y);
  }

  // ---------------------------------------------------------------------------
  // Sorting (`Collections.sort` with the corrected order)

  predicate Sorted(s: seq<TimelineEvent>) {
    forall i, j :: 0 <= i < j < |s| ==> Compare(s[i], s[j]) <= 0
  }

  /** An ordered insertion of one event into an already sorted list. */
  method Insert(s: seq<TimelineEvent>, x: TimelineEvent) returns (r: seq<TimelineEvent>)
    requires Sorted(s)
    ensures Sorted(r) && multiset(r) == multiset(s) + multiset{x}
  {
    var i := 0;
    while i < |s| && Compare(s[i], x) <= 0
      invariant 0 <= i <= |s|
      invariant forall j :: 0 <= j < i ==> Compare(s[j], x) <= 0
    {
      i := i + 1;
    }
    forall j | i <= j < |s|
      ensures Compare(x, s[j]) <= 0
    {
      CompareAntisymmetric(s[i], x);
      if j > i {
        CompareTransitive(x, s[i], s[j]);
      }
    }
    r := s[..i] + [x] + s[i..];
    SortedInsertAt(s, i, x);
    assert s == s[..i] + s[i..];
  }

  /** Placing an event between the events not after it and the events not before it keeps the order. */
  lemma SortedInsertAt(s: seq<TimelineEvent>, i: nat, x: TimelineEvent)
    requires Sorted(s) && i <= |s|
    requires forall j :: 0 <= j < i ==> Compare(s[j], x) <= 0
    requires forall j :: i <= j < |s| ==> Compare(x, s[j]) <= 0
    ensures Sorted(s[..i] + [x] + s[i..])
  {
    var r := s[..i] + [x] + s[i..];
    forall a, b | 0 <= a < b < |r|
      ensures Compare(r[a], r[b]) <= 0
    {
      if b < i {
        assert r[a] == s[a] && r[b] == s[b];
      } else if b == i {
        assert r[a] == s[a] && r[b] == x;
      } else if a < i {
        assert r[a] == s[a] && r[b] == s[b - 1];
      } else if a == i {
        assert r[a] == x && r[b] == s[b - 1];
      } else {
        assert r[a] == s[a - 1] && r[b] == s[b - 1];
      }
    }
  }

  /** `Collections.sort`: the events in order, none lost and none added. */
  method Sort(events: seq<TimelineEvent>) returns (sorted: seq<TimelineEvent>)
    ensures Sorted(sorted) && multiset(sorted) == multiset(events)
  {
    sorted := [];
    for i := 0 to |events|
      invariant Sorted(sorted) && multiset(sorted) == multiset(events[..i])
    {
      sorted := Insert(sorted, events[i]);
      assert events[..i + 1] == events[..i] + [events[i]];
    }
    assert events[..|events|] == events;
  }
}
