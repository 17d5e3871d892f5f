/**
 BesselianElementsLookup: finds the row of the NASA table of Besselian elements for a calendar
 date and reads the elements from its columns. Reading the file and Java's parsing of numbers and
 times are given as functions; the row selection, the column arithmetic, the quote stripping and
 the assembly of the polynomials are modelled, with the exceptions the source would throw on a
 malformed row as errors.
 */
module ElementsLookup {
  import W = Wrappers
  import opened JavaMath
  import opened JavaStrings
  import opened Time
  import opened EclipseTypes
  import opened Polynomials
  import opened Carriers
  import opened Maths

  // Column numbers of the table, counted from 1.
  const YEAR: int := 1
  const MONTH: int := 2
  const DAY: int := 3
  const TIME_OF_DAY: int := 4
  const ECLIPSE_TYPE: int := 8
  const JULIAN_DATE: int := 22
  const T0: int := 23
  const X0: int := 24
  const Y0: int := 28
  const D0: int := 32
  const MU0: int := 35
  const L10: int := 38
  const L20: int := 41
  const TAN_F1: int := 44
  const TAN_F2: int := 45

  /** The parsing the source leaves to Java: `Double.valueOf`, `Integer.valueOf`, `LocalTime.parse` and `LocalDate.of`. */
  datatype Readers = Readers(
    double: string -> real,
    integer: string -> int,
    timeOfDay: string -> NanoOfDay,
    epochDay: (int, int, int) -> int)

  /** The exceptions a malformed row raises: an index past its end, a field too short to hold quotes, an unknown type. */
  datatype LookupError =
    | ShortLine(line: nat)          // a line with too few fields for the date test
    | ShortRow(column: int)         // the first column read that the row does not have
    | MissingQuotes(column: int)    // a field shorter than its two quotes
    | BadType(error: ParseError)    // an eclipse type `EclipseType.parse` rejects

  /** `idx`: the position in the split row of a column numbered from 1. */
  function Idx(columnNumber: int): int {
    columnNumber - 1
  }

  /** The columns are numbered from 1, so the last one the elements need is the 45th field of the row. */
  lemma ColumnsFromOne()
    ensures Idx(YEAR) == 0 && Idx(MONTH) == 1 && Idx(DAY) == 2
    ensures forall c :: YEAR <= c <= TAN_F2 ==> 0 <= Idx(c) < TAN_F2
  {
  }

  /** The date a line must start with, as the three decimal strings its first fields are compared to. */
  datatype DateKey = DateKey(year: string, month: string, day: string)

  /** The strings `Integer.toString` gives for the year, the month and the day. */
  function KeyOf(year: int, month: int, day: int): DateKey {
    DateKey(IntToString(year), IntToString(month), IntToString(day))
  }

  /** The outcome of the date test on one split line. */
  datatype RowTest = Match | NoMatch | OutOfBounds

  /**
   The condition of `findLineMatching`: fields 1, 2 and 3 equal the decimal strings of the year,
   the month and the day, compared left to right with `&&`, so a field is read only when the
   previous ones matched (reading one past the end of the row throws).
   */
  function TestRow(parts: seq<string>, key: DateKey): (r: RowTest)
    ensures r == Match <==> |parts| >= 3 && parts[0] == key.year && parts[1] == key.month && parts[2] == key.day
    ensures r == OutOfBounds ==> |parts| < 3
    ensures |parts| >= 3 ==> r != OutOfBounds
  {
    if |parts| < 1 then OutOfBounds
    else if parts[0] != key.year then NoMatch
    else if |parts| < 2 then OutOfBounds
    else if parts[1] != key.month then NoMatch
    else if |parts| < 3 then OutOfBounds
    else if parts[2] != key.day then NoMatch
    else Match
  }

  /** The fields of one line of the table: `line.split(Pattern.quote(","))`. */
  function Fields(line: string): seq<string> {
    JavaSplit(line, ',')
  }

  /**
   The result `findLineMatching` is specified to give, looking from line `k` on: the fields of
   the first line that matches, None when no line matches, or the exception of the first line
   too short to test.
   */
  function FirstMatchFrom(lines: seq<string>, k: nat, key: DateKey): W.Result<W.Option<seq<string>>, LookupError>
    requires k <= |lines|
    decreases |lines| - k
  {
    if k == |lines| then W.Success(W.None)
    else
      match TestRow(Fields(lines[k]), key)
      case Match => W.Success(W.Some(Fields(lines[k])))
      case OutOfBounds => W.Failure(ShortLine(k))
      case NoMatch => FirstMatchFrom(lines, k + 1, key)
  }

  /**
   What the search finds: the fields of a line that matches after lines that do not; None exactly
   when no line matches and none is too short; otherwise the first line too short to test.
   */
  lemma {:induction false} FirstMatchFromMeaning(lines: seq<string>, k: nat, key: DateKey)
    requires k <= |lines|
    ensures var r := FirstMatchFrom(lines, k, key);
      (r.Success? && r.value.Some? ==>
        exists i :: k <= i < |lines| && r.value.value == Fields(lines[i]) && FirstMatchAt(lines, k, i, key)) &&
      (r == W.Success(W.None) <==> NoMatchIn(lines, k, |lines|, key)) &&
      (r.Failure? ==>
        r.error.ShortLine? && k <= r.error.line < |lines| && NoMatchIn(lines, k, r.error.line, key) &&
        TestRow(Fields(lines[r.error.line]), key) == OutOfBounds)
    decreases |lines| - k
  {
    if k < |lines| {
      var t := TestRow(Fields(lines[k]), key);
      if t == Match {
        assert FirstMatchAt(lines, k, k, key);
      } else if t == NoMatch {
        FirstMatchFromMeaning(lines, k + 1, key);
        var r := FirstMatchFrom(lines, k + 1, key);
        assert FirstMatchFrom(lines, k, key) == r;
        if r.Success? && r.value.Some? {
          var i :| k + 1 <= i < |lines| && r.value.value == Fields(lines[i]) && FirstMatchAt(lines, k + 1, i, key);
          NoMatchFrom(lines, k, i, key);
          assert FirstMatchAt(lines, k, i, key);
        } else if r.Success? {
          NoMatchFrom(lines, k, |lines|, key);
        } else {
          NoMatchFrom(lines, k, r.error.line, key);
        }
        if NoMatchIn(lines, k, |lines|, key) {
          assert NoMatchIn(lines, k + 1, |lines|, key);
        }
      } else {
        assert !NoMatchIn(lines, k, |lines|, key);
      }
    }
  }

  /** A line that does not match, before a stretch of lines that do not match, lengthens the stretch. */
  lemma NoMatchFrom(lines: seq<string>, k: nat, i: nat, key: DateKey)
    requires k < i <= |lines|
    requires TestRow(Fields(lines[k]), key) == NoMatch
    requires NoMatchIn(lines, k + 1, i, key)
    ensures NoMatchIn(lines, k, i, key)
  {
    forall j | k <= j < i
      ensures TestRow(Fields(lines[j]), key) == NoMatch
    {
      if j > k {
        assert k + 1 <= j < i;
      }
    }
  }

  /** No line from `k` up to `i` (excluded) matches, and none is too short to test. */
  ghost predicate NoMatchIn(lines: seq<string>, k: nat, i: nat, key: DateKey)
    requires k <= i <= |lines|
  {
    forall j :: k <= j < i ==> TestRow(Fields(lines[j]), key) == NoMatch
  }

  /** Line `i` is the first line from `k` on that matches. */
  ghost predicate FirstMatchAt(lines: seq<string>, k: nat, i: nat, key: DateKey)
    requires k <= i < |lines|
  {
    NoMatchIn(lines, k, i, key) && TestRow(Fields(lines[i]), key) == Match
  }

  /** `findLineMatching`: a loop over the lines with an early return at the first match. */
  method FindLineMatching(year: int, month: int, day: int, lines: seq<string>) returns (r: W.Result<W.Option<seq<string>>, LookupError>)
    ensures r == FirstMatchFrom(lines, 0, KeyOf(year, month, day))
  {
    var key := KeyOf(year, month, day);
    var i := 0;
    while i < |lines|
      invariant 0 <= i <= |lines|
      invariant FirstMatchFrom(lines, 0, key) == FirstMatchFrom(lines, i, key)
    {
      var parts := Fields(lines[i]);
      var test := TestRow(parts, key);
      if test == OutOfBounds {
        return W.Failure(ShortLine(i));
      }
      if test == Match {
        return W.Success(W.Some(parts));
      }
      i := i + 1;
    }
    return W.Success(W.None);
  }

  /** Only the first matching line counts: a later line with the same date never changes the result. */
  lemma {:induction false} LaterLinesIgnored(lines: seq<string>, more: seq<string>, k: nat, key: DateKey)
    requires k <= |lines|
    requires FirstMatchFrom(lines, k, key) != W.Success(W.None)
    ensures FirstMatchFrom(lines + more, k, key) == FirstMatchFrom(lines, k, key)
    decreases |lines| - k
  {
    assert (lines + more)[k] == lines[k];
    if TestRow(Fields(lines[k]), key) == NoMatch {
      LaterLinesIgnored(lines, more, k + 1, key);
    }
  }

  /**
   `withoutQuotes`: the field with its first and last characters removed. `substring(1, length-1)`
   throws on a field of fewer than two characters.
   */
  function WithoutQuotes(raw: string): (r: W.Option<string>)
    ensures r.None? <==> |raw| < 2
    ensures r.Some? ==> [raw[0]] + r.value + [raw[|raw| - 1]] == raw
  {
    if |raw| < 2 then W.None else W.Some(raw[1..|raw| - 1])
  }

  /** `dropUselessDecimals`: the `intValue` of the parsed double, truncated toward zero. */
  function DropUselessDecimals(row: seq<string>, columnNumber: int, read: Readers): (r: int)
    requires 1 <= columnNumber <= |row|
    ensures INT_MIN <= Trunc(read.double(row[Idx(columnNumber)])) <= INT_MAX ==> r == Trunc(read.double(row[Idx(columnNumber)]))
    ensures Abs(r as real) <= Abs(read.double(row[Idx(columnNumber)]))
  {
    IntCast(read.double(row[Idx(columnNumber)]))
  }

  /** `count` consecutive columns from `first`, each read as a double. */
  function Doubles(row: seq<string>, first: int, count: nat, read: Readers): (r: seq<real>)
    requires 1 <= first && first + count - 1 <= |row|
    ensures |r| == count
    ensures forall i :: 0 <= i < count ==> r[i] == read.double(row[Idx(first) + i])
  {
    seq(count, i requires 0 <= i < count => read.double(row[Idx(first) + i]))
  }

  /** The cubic X and Y and the quadratic L1 and L2 have no converter; d and mu convert degrees to radians. */
  function Cubic(row: seq<string>, first: int, read: Readers): (p: Polynomial)
    requires 1 <= first && first + 3 <= |row|
    ensures p.converter.None? && |p.coefficients| == 4
    ensures forall i :: 0 <= i < 4 ==> p.coefficients[i] == read.double(row[Idx(first) + i])
  {
    Plain(Doubles(row, first, 4, read))
  }

  function Quadratic(row: seq<string>, first: int, converter: W.Option<real -> real>, read: Readers): (p: Polynomial)
    requires 1 <= first && first + 2 <= |row|
    ensures p.converter == converter && |p.coefficients| == 3
    ensures forall i :: 0 <= i < 3 ==> p.coefficients[i] == read.double(row[Idx(first) + i])
  {
    Polynomial(converter, Doubles(row, first, 3, read))
  }

  /**
   `besselianElements`: the elements read from a row, the columns in the order the source reads
   them, so that the first exception it would raise is the error reported.
   */
  function ElementsOf(row: seq<string>, read: Readers): (r: W.Result<BesselianElements, LookupError>)
    ensures r.Success? <==>
      (|row| >= TAN_F2 && |row[Idx(TIME_OF_DAY)]| >= 2 && |row[Idx(ECLIPSE_TYPE)]| >= 2 &&
       Decode(row[Idx(ECLIPSE_TYPE)][1..|row[Idx(ECLIPSE_TYPE)]| - 1]).Success?)
    ensures r.Success? ==>
      var e := r.value;
      e.x.converter.None? && e.y.converter.None? && e.l1.converter.None? && e.l2.converter.None? &&
      e.d.converter == W.Some(DegToRads) && e.mu.converter == W.Some(DegToRads) &&
      e.x.coefficients == Doubles(row, X0, 4, read) && e.y.coefficients == Doubles(row, Y0, 4, read) &&
      e.d.coefficients == Doubles(row, D0, 3, read) && e.mu.coefficients == Doubles(row, MU0, 3, read) &&
      e.l1.coefficients == Doubles(row, L10, 3, read) && e.l2.coefficients == Doubles(row, L20, 3, read) &&
      e.tanF1 == read.double(row[Idx(TAN_F1)]) && e.tanF2 == read.double(row[Idx(TAN_F2)]) &&
      e.t0 == DropUselessDecimals(row, T0, read) && e.jdMaxEclipse == read.double(row[Idx(JULIAN_DATE)]) &&
      e.eclipseType == Decode(row[Idx(ECLIPSE_TYPE)][1..|row[Idx(ECLIPSE_TYPE)]| - 1]).value &&
      e.whenMaxEclipse == LocalDateTime(
        read.epochDay(read.integer(row[Idx(YEAR)]), read.integer(row[Idx(MONTH)]), read.integer(row[Idx(DAY)])),
        read.timeOfDay(row[Idx(TIME_OF_DAY)][1..|row[Idx(TIME_OF_DAY)]| - 1]))
    ensures r == W.Failure(ShortRow(TIME_OF_DAY)) <==> |row| < TIME_OF_DAY
  {
    if |row| < TIME_OF_DAY then W.Failure(ShortRow(TIME_OF_DAY))
    else match WithoutQuotes(row[Idx(TIME_OF_DAY)])
    case None => W.Failure(MissingQuotes(TIME_OF_DAY))
    case Some(time) =>
      var date := read.epochDay(read.integer(row[Idx(YEAR)]), read.integer(row[Idx(MONTH)]), read.integer(row[Idx(DAY)]));
      var when := LocalDateTime(date, read.timeOfDay(time));
      if |row| < JULIAN_DATE then W.Failure(ShortRow(JULIAN_DATE))
      else
        var jd := read.double(row[Idx(JULIAN_DATE)]);
        match WithoutQuotes(row[Idx(ECLIPSE_TYPE)])
        case None => W.Failure(MissingQuotes(ECLIPSE_TYPE))
        case Some(code) =>
          match Decode(code)
          case Failure(e) => W.Failure(BadType(e))
          case Success(eclipseType) =>
            if |row| < TAN_F2 then W.Failure(ShortRow(|row| + 1))
            else
              W.Success(BesselianElements(when, jd, eclipseType, DropUselessDecimals(row, T0, read),
                Cubic(row, X0, read), Cubic(row, Y0, read),
                Quadratic(row, D0, W.Some(DegToRads), read), Quadratic(row, MU0, W.Some(DegToRads), read),
                Quadratic(row, L10, W.None, read), Quadratic(row, L20, W.None, read),
                read.double(row[Idx(TAN_F1)]), read.double(row[Idx(TAN_F2)])))
  }

  /** A row too short for the columns the elements need is reported at the first column it lacks. */
  lemma ShortRowReported(row: seq<string>, read: Readers)
    requires JULIAN_DATE <= |row| < TAN_F2
    requires |row[Idx(TIME_OF_DAY)]| >= 2 && |row[Idx(ECLIPSE_TYPE)]| >= 2
    requires Decode(row[Idx(ECLIPSE_TYPE)][1..|row[Idx(ECLIPSE_TYPE)]| - 1]).Success?
    ensures ElementsOf(row, read) == W.Failure(ShortRow(|row| + 1))
  {
  }

  /**
   The lookup, which keeps the matching row in `rawEclipseData` for the column readers. The table
   is passed in as its lines.
   */
  class BesselianElementsLookup {
    var rawEclipseData: W.Option<seq<string>>

    constructor()
      ensures rawEclipseData.None?
    {
      rawEclipseData := W.None;
    }

    /**
     `lookup`: the elements of the eclipse on the given date, or None (null in the source) exactly
     when no line of the table matches the date.
     */
    method Lookup(year: int, month: int, day: int, lines: seq<string>, read: Readers) returns (r: W.Result<W.Option<BesselianElements>, LookupError>)
      modifies this`rawEclipseData
      ensures var found := FirstMatchFrom(lines, 0, KeyOf(year, month, day));
        (found.Failure? ==> r == W.Failure(found.error) && rawEclipseData == old(rawEclipseData)) &&
        (found.Success? ==> rawEclipseData == found.value) &&
        (r == W.Success(W.None) <==> found == W.Success(W.None)) &&
        (found.Success? && found.value.Some? ==>
          match ElementsOf(found.value.value, read)
          case Success(e) => r == W.Success(W.Some(e))
          case Failure(err) => r == W.Failure(err))
    {
      var found := FindLineMatching(year, month, day, lines);
      if found.Failure? {
        return W.Failure(found.error);
      }
      rawEclipseData := found.value;
      if rawEclipseData.None? {
        r := W.Success(W.None);
      } else {
        var elements := ElementsOf(rawEclipseData.value, read);
        match elements
        case Success(e) => r := W.Success(W.Some(e));
        case Failure(err) => r := W.Failure(err);
      }
    }
  }
}
