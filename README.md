# Custom solar eclipse viewer: a verified model of the calculation core

The custom solar eclipse viewer is a Java program that prints a cardboard eclipse viewer for
one place on Earth. This Dafny project models the core of that program:

- the numbers on the viewer: the Besselian elements of an eclipse, read from a data file;
- the local circumstances computed from those elements for one location, using the standard
  Besselian-element method;
- the text and tables built from the local circumstances: the timeline table, the captions of
  the partial-phases chart, and the lines under the viewer hole (the times, the Sun's altitude
  and its compass direction);
- the configuration file that chooses the eclipse and the location.

The modules follow the Java packages:

| Dafny file | module | Java source |
|---|---|---|
| `polynomials.dfy` | `Polynomials` | `math/Polynomial.java` |
| `maths.dfy` | `Maths` | `math/Maths.java` |
| `java_math.dfy`, `java_strings.dfy`, `time.dfy`, `wrappers.dfy` | `JavaMath`, `JavaStrings`, `Time`, `Wrappers` | what the core takes from `java.lang` and `java.time` |
| `eclipse_types.dfy` | `EclipseTypes` | `astrocalc/EclipseType.java` |
| `delta_t.dfy` | `DeltaT` | `astrocalc/ApproximateDeltaT.java` |
| `carriers.dfy` | `Carriers` | `astrocalc/BesselianElements.java`, `PartialPhase.java`, `EclipseDisplay.java` |
| `location.dfy` | `Locations` | `astrocalc/Location.java` |
| `lookup.dfy` | `ElementsLookup` | `astrocalc/BesselianElementsLookup.java` |
| `worksheet.dfy` | `Worksheets` | `astrocalc/Worksheet.java` |
| `local_circumstances.dfy` | `Circumstances` | `astrocalc/LocalCircumstances.java` |
| `timeline_event.dfy` | `Timeline` | `draw/TimelineEvent.java` |
| `timeline_table.dfy` | `TimelineTables` | `draw/TimelineTable.java` |
| `phases_chart.dfy` | `PhasesChart` | `draw/PartialPhasesChart.java` |
| `location_etc.dfy` | `LocationText` | `draw/LocationEtc.java` |
| `qr_code.dfy`, `config.dfy` | `QRCodes`, `Configuration` | `config/QRCode.java`, `config/Setting.java`, `config/ConfigFromFile.java` |

Pure code is modelled with datatypes, functions and lemmas. Code that changes state step by
step is modelled imperatively:

- `LocalCircumstances`, `Worksheet`, `ConfigFromFile` and `TimelineTable` are classes whose
  methods update their fields;
- the loops of `Polynomial`, `EclipseType.parse`, `BesselianElementsLookup`, the timeline table
  and the direction finder of `LocationEtc` are `while`/`for` loops with invariants;
- each method is proved against a specification function, and the source's promises are proved
  about that function as lemmas.

Java's `double` is modelled as a mathematical real. The transcendental functions of
`java.lang.Math` are a `Trig` parameter that records only two facts: `sqrt` is never negative
and `atan2` lies in -pi..pi. `Duration` is a count of nanoseconds; `LocalDateTime` is a day number and a nanosecond of the day.

## Model

| member | source | states |
|---|---|---|
| `Polynomials.Plain` | src/custom/solar/eclipse/viewer/math/Polynomial.java:21-23 | the constructor without a converter keeps the coefficients and has no converter |
| `Polynomials.SumShift` | src/custom/solar/eclipse/viewer/math/Polynomial.java:44-48 | the sum of c[i] t^i splits off its constant term: c[0] + t times the sum of the remaining coefficients |
| `Polynomials.HornerIsSum` | src/custom/solar/eclipse/viewer/math/Polynomial.java:41-48 | the nested Horner form computes the textbook sum of c[i] t^i |
| `Polynomials.Convert` | src/custom/solar/eclipse/viewer/math/Polynomial.java:49-51 | without a converter the raw value is returned unchanged |
| `Polynomials.Eval` | src/custom/solar/eclipse/viewer/math/Polynomial.java:41-53 | no contract of its own; the reference meaning of `valueAt` (the converter applied to the sum of c[i] t^i), which Polynomials.ValueAt is proved to compute |
| `Polynomials.ValueAt` | src/custom/solar/eclipse/viewer/math/Polynomial.java:41-53 | the backwards loop returns the converter applied to the sum of c[i] t^i |
| `Polynomials.EmptyPolynomialValue` | src/custom/solar/eclipse/viewer/math/Polynomial.java:44-51 | with no coefficients the loop never runs and the value is the converter applied to 0 |
| `Polynomials.SumAtZero` | src/custom/solar/eclipse/viewer/math/Polynomial.java:41-48 | the value at 0 is the constant term |
| `Polynomials.Derivative` | src/custom/solar/eclipse/viewer/math/Polynomial.java:26-34 | the derivative keeps the converter and has one coefficient fewer, the coefficients of the formal derivative |
| `Polynomials.Differentiate` | src/custom/solar/eclipse/viewer/math/Polynomial.java:29-32 | the derivative has one coefficient fewer than the polynomial |
| `Polynomials.DerivativeOfConstant` | src/custom/solar/eclipse/viewer/math/Polynomial.java:29-33 | a constant polynomial has the empty polynomial as derivative |
| `Polynomials.DifferentiateSum` | src/custom/solar/eclipse/viewer/math/Polynomial.java:26-32 | the sum of the derivative's coefficients is the term-by-term derivative n c[n] t^(n-1) + ... + c[1] |
| `Polynomials.Coefficient` | src/custom/solar/eclipse/viewer/math/Polynomial.java:36-38 | no contract of its own; `coefficient(idx)`, whose meaning for idx = 1 is proved in Polynomials.CoefficientOneIsRateAtZero |
| `Polynomials.CoefficientOneIsRateAtZero` | src/custom/solar/eclipse/viewer/math/Polynomial.java:36-38 | the first-order coefficient read by `coefficient(1)` is the derivative at 0 |
| `JavaMath.Abs` | src/custom/solar/eclipse/viewer/math/Maths.java:94 | `Math.abs` is non-negative and is either the value or its negation |
| `JavaMath.Quot` | src/custom/solar/eclipse/viewer/math/Maths.java:35 | floating-point division: the quotient times a non-zero divisor is the dividend |
| `JavaMath.JavaRound` | src/custom/solar/eclipse/viewer/math/Maths.java:29-32 | `Math.round` is the nearest integer, halves rounded upwards |
| `JavaMath.JavaRoundShift` | src/custom/solar/eclipse/viewer/math/Maths.java:29-32 | rounding commutes with a shift by a whole number |
| `JavaMath.Trunc` | src/custom/solar/eclipse/viewer/math/Maths.java:103 | a cast truncates toward zero: it lies within one of the value, on the side of zero |
| `JavaMath.IntCast` | src/custom/solar/eclipse/viewer/math/Maths.java:103 | an `(int)` cast truncates toward zero and saturates at the 32-bit bounds |
| `JavaMath.Floor` | src/custom/solar/eclipse/viewer/math/Maths.java:98 | `Math.floor` is the largest whole number not above the value |
| `JavaMath.DoubleRem` | src/custom/solar/eclipse/viewer/math/Maths.java:57 | the `%` of doubles: smaller in magnitude than the divisor, a whole multiple of the divisor away from the dividend, with the dividend's sign |
| `JavaMath.LongDiv` | src/custom/solar/eclipse/viewer/math/Maths.java:70-71 | integer division of `long`s truncates toward zero |
| `JavaMath.LongRem` | src/custom/solar/eclipse/viewer/math/Maths.java:70-71 | the integer remainder completes the division and takes the dividend's sign |
| `Maths.DegToRads` | src/custom/solar/eclipse/viewer/math/Maths.java:8-10 | no contract of its own; its properties are proved in Maths.DegreesRadiansInverse and Maths.ConversionsMonotonic |
| `Maths.RadsToDegs` | src/custom/solar/eclipse/viewer/math/Maths.java:12-14 | no contract of its own; its properties are proved in Maths.DegreesRadiansInverse and Maths.ConversionsMonotonic |
| `Maths.DegreesRadiansInverse` | src/custom/solar/eclipse/viewer/math/Maths.java:8-14 | `degToRads` and `radsToDegs` undo each other |
| `Maths.ConversionsMonotonic` | src/custom/solar/eclipse/viewer/math/Maths.java:108-109 | both conversions preserve order, since their constants are positive |
| `Maths.RoundToOnePlace` | src/custom/solar/eclipse/viewer/math/Maths.java:34-36 | the result is within 0.05 of the value and a whole number of tenths |
| `Maths.RoundToThreePlaces` | src/custom/solar/eclipse/viewer/math/Maths.java:42-44 | the result is within 0.0005 of the value and a whole number of thousandths |
| `Maths.Atan3` | src/custom/solar/eclipse/viewer/math/Maths.java:46-53 | the result is in 0..2pi and is `atan2` itself, or `atan2` plus a full turn when that is negative |
| `Maths.In2Pi` | src/custom/solar/eclipse/viewer/math/Maths.java:55-63 | the result is in 0..2pi |
| `Maths.In2PiWholeTurns` | src/custom/solar/eclipse/viewer/math/Maths.java:55-63 | only whole turns are removed, so the angle points the same way |
| `Maths.In2PiIdentity` | src/custom/solar/eclipse/viewer/math/Maths.java:55-63 | an angle already in 0..2pi is returned unchanged |
| `Maths.In2PiPeriodic` | src/custom/solar/eclipse/viewer/math/Maths.java:55-63 | angles a whole number of turns apart give the same result |
| `Maths.SameTurnClass` | src/custom/solar/eclipse/viewer/math/Maths.java:55-63 | two angles in 0..2pi that differ by whole turns are equal, so the normal form is unique |
| `Maths.HoursMinutes` | src/custom/solar/eclipse/viewer/math/Maths.java:70-74 | hours, ":" and two minute digits: at least four characters, the colon third from the end |
| `Maths.HoursMinutesSeconds` | src/custom/solar/eclipse/viewer/math/Maths.java:81-86 | hours, minutes and seconds with colons third and sixth from the end |
| `Maths.Hhmm` | src/custom/solar/eclipse/viewer/math/Maths.java:69-75 | the text starts with "-" exactly for a negative duration (else "+") and has the minutes after the last colon |
| `Maths.Hhmmss` | src/custom/solar/eclipse/viewer/math/Maths.java:77-87 | the same sign rule, with colons before the minutes and the seconds |
| `Maths.HhmmReadsBack` | src/custom/solar/eclipse/viewer/math/Maths.java:69-75 | after the sign, the text reads back as digits giving hours and minutes (0..59) that make up the whole minutes of the duration's magnitude |
| `Maths.HhmmssReadsBack` | src/custom/solar/eclipse/viewer/math/Maths.java:77-87 | after the sign, the text reads back as hours, minutes and seconds making up the whole seconds of the magnitude |
| `Maths.HhmmNegation` | src/custom/solar/eclipse/viewer/math/Maths.java:69-87 | a duration and its negation print alike after the sign, and a non-zero duration gets opposite signs |
| `Maths.DegreePartsOf` | src/custom/solar/eclipse/viewer/math/Maths.java:93-102 | whole degrees, whole arcminutes below 60 and arcseconds below 60, which add up to the magnitude of the angle in degrees; the sign is "+" only for a positive angle |
| `Maths.RadsToDegreeString` | src/custom/solar/eclipse/viewer/math/Maths.java:93-104 | the text starts with "+" for a positive angle and "-" otherwise |
| `Maths.ZeroAngleIsMinus` | src/custom/solar/eclipse/viewer/math/Maths.java:95 | an angle of zero prints as "-0" |
| `Maths.ArcminuteField` | src/custom/solar/eclipse/viewer/math/Maths.java:99-103 | the `(int)` of the arcminutes is a whole number from 0 to 59 equal to the arcminutes |
| `Time.FromInstant` | src/custom/solar/eclipse/viewer/astrocalc/Worksheet.java:193-194 | a point on the nanosecond time line is the date-time at that point |
| `Time.InstantInjective` | src/custom/solar/eclipse/viewer/astrocalc/Worksheet.java:193-194 | two date-times at the same instant are the same |
| `Time.FromInstantOfInstant` | src/custom/solar/eclipse/viewer/astrocalc/Worksheet.java:193-194 | the date and the time of day are recovered from the instant |
| `Time.PlusNanos` | src/custom/solar/eclipse/viewer/astrocalc/LocalCircumstances.java:352 | adding nanoseconds moves the instant by that amount, carrying into the date |
| `Time.PlusHours` | src/custom/solar/eclipse/viewer/astrocalc/Worksheet.java:193 | `plusHours` moves the instant by whole hours |
| `Time.PlusMinutes` | src/custom/solar/eclipse/viewer/astrocalc/Worksheet.java:194 | `plusMinutes` moves the instant by whole minutes |
| `Time.Between` | src/custom/solar/eclipse/viewer/astrocalc/EclipseDisplay.java:52 | `Duration.between(start, end)` is what takes `start` to `end` |
| `Time.BetweenAntisymmetric` | src/custom/solar/eclipse/viewer/draw/PartialPhasesChart.java:248-254 | swapping the ends negates the duration, and it is zero only between equal date-times |
| `Time.IsBeforeInstant` | src/custom/solar/eclipse/viewer/draw/PartialPhasesChart.java:258-260 | `isBefore`, compared field by field, is the order of the time line |
| `Time.TimeCompare` | src/custom/solar/eclipse/viewer/draw/TimelineEvent.java:43 | `LocalTime.compareTo` returns -1, 0 or 1 according to the order of the times |
| `Time.Seconds` | src/custom/solar/eclipse/viewer/math/Maths.java:81-83 | whole seconds, rounded toward negative infinity |
| `Time.NanoPart` | src/custom/solar/eclipse/viewer/math/Maths.java:81-83 | the non-negative nanoseconds left over after the whole seconds |
| `Time.DurationCompareSign` | src/custom/solar/eclipse/viewer/draw/TimelineEvent.java:49 | the sign of `Duration.compareTo` is the sign of the difference, and it is antisymmetric |
| `Time.DurationAbs` | src/custom/solar/eclipse/viewer/math/Maths.java:70 | `Duration.abs` is non-negative and is either the duration or its negation |
| `Time.ToHours` | src/custom/solar/eclipse/viewer/math/Maths.java:70 | no contract of its own; `Duration.toHours` (truncating division of the seconds); its properties are proved in Time.DurationParts |
| `Time.ToMinutes` | src/custom/solar/eclipse/viewer/draw/LocationEtc.java:65 | no contract of its own; `Duration.toMinutes` (truncating division of the seconds); its properties are proved in Time.DurationParts and LocationText.DurationTextReadsBack |
| `Time.ToMinutesPart` | src/custom/solar/eclipse/viewer/math/Maths.java:71 | no contract of its own; `Duration.toMinutesPart` (Java's remainder); its properties are proved in Time.DurationParts |
| `Time.ToSecondsPart` | src/custom/solar/eclipse/viewer/math/Maths.java:83 | no contract of its own; `Duration.toSecondsPart` (Java's remainder); its properties are proved in Time.DurationParts |
| `Time.DurationParts` | src/custom/solar/eclipse/viewer/math/Maths.java:81-83 | for a non-negative duration, minutes and seconds parts are below 60 and hours, minutes and seconds add up to the whole seconds |
| `Time.Hour` | src/custom/solar/eclipse/viewer/draw/TimelineTable.java:78 | the hour of the day is in 0..23 |
| `Time.MinuteOfHour` | src/custom/solar/eclipse/viewer/draw/TimelineTable.java:78 | the minute of the hour is in 0..59 |
| `Time.SecondOfMinute` | src/custom/solar/eclipse/viewer/draw/TimelineTable.java:78 | the second of the minute is in 0..59 |
| `Time.ClockHourOfAmPm` | src/custom/solar/eclipse/viewer/draw/TimelineTable.java:78 | the twelve-hour clock shows 1..12, the hour of the day modulo 12 |
| `Time.FormatHhMmSs` | src/custom/solar/eclipse/viewer/draw/TimelineTable.java:78 | the pattern "hh:mm:ss" gives eight characters with colons at positions 2 and 5 |
| `Time.FormatHMm` | src/custom/solar/eclipse/viewer/draw/PartialPhasesChart.java:240 | the pattern "h:mm" gives four or five characters, the colon third from the end |
| `EclipseTypes.Name` | src/custom/solar/eclipse/viewer/astrocalc/EclipseType.java:6-11 | no contract of its own; `name()` of each constant; what `parse` makes of it is proved in EclipseTypes.Decode and EclipseTypes.DecodesToFirstNamed |
| `EclipseTypes.ValuesComplete` | src/custom/solar/eclipse/viewer/astrocalc/EclipseType.java:6-11 | `values()` lists every constant |
| `EclipseTypes.FirstMatching` | src/custom/solar/eclipse/viewer/astrocalc/EclipseType.java:17-22 | the index found is the first candidate whose name starts with the prefix; none is found only when no candidate's name does |
| `EclipseTypes.Ordinal` | src/custom/solar/eclipse/viewer/astrocalc/EclipseType.java:6-11 | each constant's position in declaration order |
| `EclipseTypes.StartsWithFirstChar` | src/custom/solar/eclipse/viewer/astrocalc/EclipseType.java:16-18 | a name starts with the one-character prefix exactly when its first letter is the input's first character |
| `EclipseTypes.Decode` | src/custom/solar/eclipse/viewer/astrocalc/EclipseType.java:14-27 | the empty input fails (Java throws on `substring(0,1)`); otherwise the result is the first constant in declaration order whose name starts with the input's first character, and the unknown-type error is raised exactly when none does |
| `EclipseTypes.Parse` | src/custom/solar/eclipse/viewer/astrocalc/EclipseType.java:14-27 | the loop with its `break` computes `Decode` |
| `EclipseTypes.FirstCharacterOnly` | src/custom/solar/eclipse/viewer/astrocalc/EclipseType.java:16 | inputs that share their first character decode alike |
| `EclipseTypes.LowercaseRejected` | src/custom/solar/eclipse/viewer/astrocalc/EclipseType.java:18 | matching is case-sensitive: an input starting with a lower-case letter is rejected |
| `EclipseTypes.DecodesToFirstNamed` | src/custom/solar/eclipse/viewer/astrocalc/EclipseType.java:17-22 | an input decodes to a constant whose name starts with its first character when no earlier constant's does |
| `EclipseTypes.DataCodes` | src/custom/solar/eclipse/viewer/astrocalc/EclipseType.java:13-27 | the codes of the eclipse data file ("Pb", "A+", "H3", "Tm", ...) decode by their first letter |
| `DeltaT.Y` | src/custom/solar/eclipse/viewer/astrocalc/ApproximateDeltaT.java:45-48 | for a month in 1..12 the year as a real lies strictly inside that year |
| `DeltaT.PolynomialAt` | src/custom/solar/eclipse/viewer/astrocalc/ApproximateDeltaT.java:75-79 | the value is the sum of c[i] t^i |
| `DeltaT.RangeOf` | src/custom/solar/eclipse/viewer/astrocalc/ApproximateDeltaT.java:27-41 | the range is the first threshold, from the top, that the year reaches, and no range applies exactly when the year is before 1941 |
| `DeltaT.FirstReached` | src/custom/solar/eclipse/viewer/astrocalc/ApproximateDeltaT.java:27-41 | from a given range on, the first threshold the year reaches |
| `DeltaT.Lookup` | src/custom/solar/eclipse/viewer/astrocalc/ApproximateDeltaT.java:24-43 | the result is 0 before 1941; otherwise it is the polynomial of the year's range, evaluated at the mid-month year less that range's epoch |
| `DeltaT.NoUpperBound` | src/custom/solar/eclipse/viewer/astrocalc/ApproximateDeltaT.java:23-29 | years far past 3000 are not rejected; they use the 2015 polynomial |
| `Carriers.DurationPartial` | src/custom/solar/eclipse/viewer/astrocalc/EclipseDisplay.java:52 | the duration takes the start of the partial phase to its end, and is positive exactly when the start is before the end |
| `Carriers.DurationTotalityAnnularity` | src/custom/solar/eclipse/viewer/astrocalc/EclipseDisplay.java:54-58 | the same for totality or annularity, defined only when both times are present |
| `JavaStrings.IndexOf` | src/custom/solar/eclipse/viewer/config/ConfigFromFile.java:217-218 | `indexOf` gives the first position of the character, and nothing (-1) exactly when it is absent |
| `JavaStrings.TrimStartIndex` | src/custom/solar/eclipse/viewer/config/ConfigFromFile.java:42 | the first loop of `trim` stops at the first character that is not trimmable, passing over only trimmable ones |
| `JavaStrings.TrimEndIndex` | src/custom/solar/eclipse/viewer/config/ConfigFromFile.java:42 | the second loop of `trim` moves the end left over trimmable characters only, never past the start |
| `JavaStrings.Trim` | src/custom/solar/eclipse/viewer/config/ConfigFromFile.java:42 | the result neither starts nor ends with a character up to the space, and is empty exactly when every character is trimmable |
| `JavaStrings.TrimOfTrimmed` | src/custom/solar/eclipse/viewer/config/ConfigFromFile.java:220-221 | a string with nothing trimmable at its ends is unchanged by `trim` |
| `JavaStrings.TrimIdempotent` | src/custom/solar/eclipse/viewer/config/ConfigFromFile.java:42 | trimming twice is trimming once |
| `JavaStrings.SplitAll` | src/custom/solar/eclipse/viewer/config/ConfigFromFile.java:209-211 | at least one field, none containing the separator |
| `JavaStrings.DropTrailingEmpty` | src/custom/solar/eclipse/viewer/config/ConfigFromFile.java:210 | a prefix of the fields that does not end with an empty field, with only empty fields cut away |
| `JavaStrings.JavaSplit` | src/custom/solar/eclipse/viewer/config/ConfigFromFile.java:210 | no field contains the separator |
| `JavaStrings.JoinSplitAll` | src/custom/solar/eclipse/viewer/config/ConfigFromFile.java:209-211 | joining the fields with the separator gives back the string |
| `JavaStrings.SplitAllJoin` | src/custom/solar/eclipse/viewer/config/ConfigFromFile.java:209-211 | splitting fields joined by a separator they do not contain gives back the fields |
| `JavaStrings.JoinFirstSeparator` | src/custom/solar/eclipse/viewer/config/ConfigFromFile.java:209-211 | in the joined string, the first separator is the one written after the first field |
| `JavaStrings.LastFieldEmpty` | src/custom/solar/eclipse/viewer/config/ConfigFromFile.java:210 | the last field is empty exactly when the string is empty or ends with the separator |
| `JavaStrings.JoinJavaSplit` | src/custom/solar/eclipse/viewer/config/ConfigFromFile.java:209-211 | Java's split loses nothing when the string does not end with the separator |
| `JavaStrings.SplitLosesTrailingSeparators` | src/custom/solar/eclipse/viewer/config/ConfigFromFile.java:210 | trailing separators are lost: ",a," splits into "" and "a" only |
| `JavaStrings.DigitChar` | src/custom/solar/eclipse/viewer/math/Maths.java:74 | the digit character of a value below 10 |
| `JavaStrings.NatToString` | src/custom/solar/eclipse/viewer/math/Maths.java:74 | `Long.toString` of a non-negative number: decimal digits with no leading zero |
| `JavaStrings.IntToString` | src/custom/solar/eclipse/viewer/astrocalc/BesselianElementsLookup.java:117-119 | `Integer.toString` starts with "-" exactly for a negative number |
| `JavaStrings.ParseNatToString` | src/custom/solar/eclipse/viewer/math/Maths.java:74 | the digits read back as the number |
| `JavaStrings.IntToStringInjective` | src/custom/solar/eclipse/viewer/astrocalc/BesselianElementsLookup.java:117-119 | different integers have different decimal strings, so comparing the strings compares the numbers |
| `JavaStrings.ZeroPaddedTwoDigits` | src/custom/solar/eclipse/viewer/math/Maths.java:72-74 | a value below 100 with its "0" pad has two digits and reads back as the value |
| `JavaStrings.Repeat` | src/custom/solar/eclipse/viewer/draw/TimelineTable.java:140-146 | n copies of a string are n times as long |
| `QRCodes.ToString` | src/custom/solar/eclipse/viewer/config/QRCode.java:20-22 | the label, then the separator, then the link |
| `Configuration.Name` | src/custom/solar/eclipse/viewer/config/Setting.java:4-29 | no contract of its own; the name of each setting; Configuration.EverySettingInChain proves every setting reachable by its name |
| `Configuration.Matches` | src/custom/solar/eclipse/viewer/config/ConfigFromFile.java:165-167 | no contract of its own; `matches`: the name equals the setting's name ignoring case (ASCII letters only, see "## Left out"); its use is proved in Configuration.FirstMatching and Configuration.SameSettingIgnoringCase |
| `Configuration.FirstMatching` | src/custom/solar/eclipse/viewer/config/ConfigFromFile.java:90-161 | the setting found is one of the candidates and matches the name; none is found exactly when no candidate matches |
| `Configuration.SettingNamed` | src/custom/solar/eclipse/viewer/config/ConfigFromFile.java:90-161 | the setting a name selects matches it; none is selected exactly when no setting matches |
| `Configuration.EverySettingInChain` | src/custom/solar/eclipse/viewer/config/ConfigFromFile.java:90-161 | the chain of tests in `processEach` covers every constant of `Setting` |
| `JavaStrings.EqualsIgnoreCase` | src/custom/solar/eclipse/viewer/config/ConfigFromFile.java:166 | no contract of its own; `equalsIgnoreCase` with ASCII case folding, as "## Left out" admits; proved to make case differences irrelevant in Configuration.SameSettingIgnoringCase |
| `Configuration.SameSettingIgnoringCase` | src/custom/solar/eclipse/viewer/config/ConfigFromFile.java:165-167 | names that differ only in the case of their letters select the same setting |
| `Configuration.Parse` | src/custom/solar/eclipse/viewer/config/ConfigFromFile.java:214-228 | there is no pair exactly when the line has no "="; otherwise the name holds no "=" and both parts are trimmed |
| `Configuration.TrimInfix` | src/custom/solar/eclipse/viewer/config/ConfigFromFile.java:220-221 | every character of a trimmed string comes from the original |
| `Configuration.ParseNameValue` | src/custom/solar/eclipse/viewer/config/ConfigFromFile.java:214-228 | a line `name=value` with no "=" in the name parses to the trimmed name and the trimmed value, so a value may itself hold "=" |
| `Configuration.IndexOfFirst` | src/custom/solar/eclipse/viewer/config/ConfigFromFile.java:217 | the first occurrence of a character is where it is and nowhere before |
| `Configuration.AsQRCode` | src/custom/solar/eclipse/viewer/config/ConfigFromFile.java:194-207 | there is no QR code (null) exactly when the value has no '|'; otherwise the label holds no '|' |
| `Configuration.AsQRCodeSplit` | src/custom/solar/eclipse/viewer/config/ConfigFromFile.java:194-207 | a value written label, '|', link with no '|' in the label reads as the QR code of the trimmed label and the trimmed link, so the split is at the first '|' |
| `Configuration.QRCodeRoundTrip` | src/custom/solar/eclipse/viewer/config/ConfigFromFile.java:194-207 | a QR code whose label has no '|' and whose parts are trimmed reads back from its `toString` |
| `Configuration.QRCodeRoundTripFails` | src/custom/solar/eclipse/viewer/config/QRCode.java:12-22 | a label holding '|' does not read back: label "a|b" with link "c" reads back as label "a" with link "b|c" |
| `Configuration.AsStringList` | src/custom/solar/eclipse/viewer/config/ConfigFromFile.java:209-212 | no item holds '|', and joining the items gives back a value that does not end with '|' |
| `Configuration.ValueOf` | src/custom/solar/eclipse/viewer/config/ConfigFromFile.java:90-192 | the value each setting stores: inches as points (times 72) for the page and viewer sizes, the eyehole sizes as read, degrees as radians, altitude, arm's length and Delta T as read doubles, the offsets and the gap as read integers, text unchanged, a QR code, a list of texts |
| `Configuration.Processed` | src/custom/solar/eclipse/viewer/config/ConfigFromFile.java:83-163 | a comment or empty line changes nothing; the line fails exactly when it is not ignored and has no "="; an unknown name changes nothing |
| `Configuration.ProcessedAllAppend` | src/custom/solar/eclipse/viewer/config/ConfigFromFile.java:41-43 | reading one more line continues from the settings the earlier lines left |
| `Configuration.LastLineWins` | src/custom/solar/eclipse/viewer/config/ConfigFromFile.java:41-43 | after a line naming a setting, that setting holds the value of the line, whatever earlier lines held |
| `Configuration.ProcessedSetsNamedSetting` | src/custom/solar/eclipse/viewer/config/ConfigFromFile.java:83-163 | a line naming a setting replaces that setting's value and leaves every other one as it was |
| `Configuration.ConfigFromFile.constructor` | src/custom/solar/eclipse/viewer/config/ConfigFromFile.java:53-81 | the builder fields start with their initial values: empty texts and an empty advice list |
| `Configuration.ConfigFromFile.ProcessEach` | src/custom/solar/eclipse/viewer/config/ConfigFromFile.java:83-163 | the fields become what `Processed` gives, or stay as they were with the error reported |
| `Configuration.ProcessedAll` | src/custom/solar/eclipse/viewer/config/ConfigFromFile.java:41-43 | no contract of its own; the meaning of the `init` loop, which Configuration.ConfigFromFile.Init is proved to compute; its properties are proved in Configuration.ProcessedAllAppend and Configuration.LastLineWins |
| `Configuration.ConfigFromFile.Init` | src/custom/solar/eclipse/viewer/config/ConfigFromFile.java:41-43 | the loop over the trimmed lines leaves the fields `ProcessedAll` gives, or reports the first failing line |
| `ElementsLookup.ColumnsFromOne` | src/custom/solar/eclipse/viewer/astrocalc/BesselianElementsLookup.java:74-110 | the columns are numbered from 1: year, month and day are the first three fields, and every column used is within the 45 fields |
| `ElementsLookup.TestRow` | src/custom/solar/eclipse/viewer/astrocalc/BesselianElementsLookup.java:116-120 | a row matches exactly when its first three fields are the decimal strings of the year, month and day; a row too short to test raises the index error |
| `ElementsLookup.FirstMatchFrom` | src/custom/solar/eclipse/viewer/astrocalc/BesselianElementsLookup.java:112-126 | no contract of its own; the meaning of `findLineMatching`, proved in ElementsLookup.FirstMatchFromMeaning and computed by ElementsLookup.FindLineMatching |
| `ElementsLookup.FirstMatchFromMeaning` | src/custom/solar/eclipse/viewer/astrocalc/BesselianElementsLookup.java:112-126 | the search gives the fields of the first matching line; nothing (null) exactly when no line matches and none is too short; otherwise the first short line's error |
| `ElementsLookup.NoMatchFrom` | src/custom/solar/eclipse/viewer/astrocalc/BesselianElementsLookup.java:114-124 | a line that does not match extends a stretch of lines that do not match |
| `ElementsLookup.FindLineMatching` | src/custom/solar/eclipse/viewer/astrocalc/BesselianElementsLookup.java:112-126 | the loop with its early return computes the first-match search for the date's strings |
| `ElementsLookup.LaterLinesIgnored` | src/custom/solar/eclipse/viewer/astrocalc/BesselianElementsLookup.java:121-122 | once a line has matched (or failed), lines added after it never change the result |
| `ElementsLookup.WithoutQuotes` | src/custom/solar/eclipse/viewer/astrocalc/BesselianElementsLookup.java:145-148 | the field loses exactly its first and last characters; a field of fewer than two characters fails |
| `ElementsLookup.DropUselessDecimals` | src/custom/solar/eclipse/viewer/astrocalc/BesselianElementsLookup.java:136-139 | the parsed double truncated toward zero, never larger in magnitude |
| `ElementsLookup.Doubles` | src/custom/solar/eclipse/viewer/astrocalc/BesselianElementsLookup.java:128-130 | consecutive columns, each read as a double |
| `ElementsLookup.Cubic` | src/custom/solar/eclipse/viewer/astrocalc/BesselianElementsLookup.java:186-191 | the X and Y polynomials: four coefficients from consecutive columns, no converter |
| `ElementsLookup.Quadratic` | src/custom/solar/eclipse/viewer/astrocalc/BesselianElementsLookup.java:192-203 | the d, mu, L1 and L2 polynomials: three coefficients from consecutive columns, with the given converter |
| `ElementsLookup.ElementsOf` | src/custom/solar/eclipse/viewer/astrocalc/BesselianElementsLookup.java:154-215 | the elements are read exactly when the row is long enough, the quoted fields have quotes and the type decodes; d and mu convert degrees to radians and every polynomial takes its own columns; the type is the decoded type field without its quotes, and the time of maximum is the row's date with the time-of-day field without its quotes |
| `ElementsLookup.ShortRowReported` | src/custom/solar/eclipse/viewer/astrocalc/BesselianElementsLookup.java:141-143 | a row too short for the polynomial columns is reported at the first column it lacks |
| `ElementsLookup.BesselianElementsLookup.constructor` | src/custom/solar/eclipse/viewer/astrocalc/BesselianElementsLookup.java:53 | no row is held at the start |
| `ElementsLookup.BesselianElementsLookup.Lookup` | src/custom/solar/eclipse/viewer/astrocalc/BesselianElementsLookup.java:28-46 | nothing (null) exactly when no line matches; otherwise the matching row is kept and its elements, or its error, are returned |
| `Locations.RhoSinPhi` | src/custom/solar/eclipse/viewer/astrocalc/Location.java:71-72 | no contract of its own; rho sin phi'; its properties are proved in Locations.SeaLevelTerms and Locations.HeightTerms |
| `Locations.RhoCosPhi` | src/custom/solar/eclipse/viewer/astrocalc/Location.java:71-73 | no contract of its own; rho cos phi'; its properties are proved in Locations.SeaLevelTerms and Locations.HeightTerms |
| `Locations.SeaLevelTerms` | src/custom/solar/eclipse/viewer/astrocalc/Location.java:70-74 | at sea level rho sin phi' and rho cos phi' are those of the reference ellipsoid, through the reduced latitude u = atan(0.99664719 tan phi) |
| `Locations.HeightTerms` | src/custom/solar/eclipse/viewer/astrocalc/Location.java:72-73 | the height adds (height / 6378140) times sin phi and cos phi to the two terms |
| `Locations.Location.constructor` | src/custom/solar/eclipse/viewer/astrocalc/Location.java:21-29 | the inputs are kept and the geocentric terms computed once, by `compute` |
| `Locations.Location.LambdaRev` | src/custom/solar/eclipse/viewer/astrocalc/Location.java:41-42 | the longitude measured positive to the west is the negated longitude |
| `Locations.Location.OffsetInMinutes` | src/custom/solar/eclipse/viewer/astrocalc/Location.java:16-19 | when the two offsets have the same sign, as documented, the whole offset is hours times 60 plus minutes in magnitude, and a non-negative offset has both parts non-negative |
| `Worksheets.Hypot` | src/custom/solar/eclipse/viewer/astrocalc/Worksheet.java:79 | `sqrt(u*u + v*v)` is never negative |
| `Worksheets.TimeOfMaxCorrection` | src/custom/solar/eclipse/viewer/astrocalc/Worksheet.java:92 | for n != 0, tau_M times n^2 is -(u a + v b) |
| `Worksheets.MagnitudeOf` | src/custom/solar/eclipse/viewer/astrocalc/Worksheet.java:96 | for L1' + L2' != 0, G times (L1' + L2') is L1' - m |
| `Worksheets.DiameterRatio` | src/custom/solar/eclipse/viewer/astrocalc/Worksheet.java:103 | for L1' + L2' != 0, A times (L1' + L2') is L1' - L2' |
| `Worksheets.SolarAzimuth` | src/custom/solar/eclipse/viewer/astrocalc/Worksheet.java:113-115 | the azimuth is in 0..2pi |
| `Worksheets.ParallacticAngle` | src/custom/solar/eclipse/viewer/astrocalc/Worksheet.java:118-125 | the parallactic angle is in 0..2pi |
| `Worksheets.ParallacticFlip` | src/custom/solar/eclipse/viewer/astrocalc/Worksheet.java:119-125 | up to whole turns, q is pi - q south of the equator and q itself elsewhere |
| `Worksheets.ZenithAngle` | src/custom/solar/eclipse/viewer/astrocalc/Worksheet.java:127 | Z is in 0..2pi |
| `Worksheets.ZenithAngleWholeTurns` | src/custom/solar/eclipse/viewer/astrocalc/Worksheet.java:127 | Z is P - q up to whole turns |
| `Worksheets.WorksheetDeterministic` | src/custom/solar/eclipse/viewer/astrocalc/Worksheet.java:49-128 | the time, Delta T, the elements and the location determine every quantity of the worksheet |
| `Worksheets.ObserverDeterministic` | src/custom/solar/eclipse/viewer/astrocalc/Worksheet.java:64-75 | the hour angle and the observer's coordinates are determined by mu and d |
| `Worksheets.ShadowDeterministic` | src/custom/solar/eclipse/viewer/astrocalc/Worksheet.java:77-89 | u, v, m, a, b, n, L1' and L2' are determined by the quantities before them |
| `Worksheets.CircumstancesDeterministic` | src/custom/solar/eclipse/viewer/astrocalc/Worksheet.java:92-127 | tau_M, G, P, A, h, az, q and Z are determined by the quantities before them |
| `Worksheets.ElementsStage` | src/custom/solar/eclipse/viewer/astrocalc/Worksheet.java:52-61 | the elements and the rates of x and y at t, as the polynomials give them |
| `Worksheets.HourAngle` | src/custom/solar/eclipse/viewer/astrocalc/Worksheet.java:64-65 | no contract of its own; the hour angle H, converted through degrees as the source does; Worksheets.ObserverStage records it in the worksheet |
| `Worksheets.ObserverStage` | src/custom/solar/eclipse/viewer/astrocalc/Worksheet.java:64-75 | the hour angle and the observer's coordinates added, the earlier quantities kept |
| `Worksheets.ShadowStage` | src/custom/solar/eclipse/viewer/astrocalc/Worksheet.java:77-89 | the shadow axis relative to the observer and the cone radii added, the earlier quantities kept |
| `Worksheets.SolarAltitude` | src/custom/solar/eclipse/viewer/astrocalc/Worksheet.java:106-109 | no contract of its own; the altitude h of the Sun; Worksheets.CircumstancesStage records it in the worksheet |
| `Worksheets.CircumstancesStage` | src/custom/solar/eclipse/viewer/astrocalc/Worksheet.java:92-127 | tau_M, G, P, A, h, az, q and Z added, the earlier quantities kept |
| `Worksheets.SheetAt` | src/custom/solar/eclipse/viewer/astrocalc/Worksheet.java:49-128 | the worksheet at t, one quantity after another as `compute` assigns them |
| `Worksheets.WorksheetCoherent` | src/custom/solar/eclipse/viewer/astrocalc/Worksheet.java:79-127 | on a computed worksheet m and n are not negative and P, az, q and Z are in 0..2pi |
| `Worksheets.ComputeGeometry` | src/custom/solar/eclipse/viewer/astrocalc/Worksheet.java:49-128 | the arithmetic of `compute` yields the worksheet at t |
| `Worksheets.LocalEclipseType` | src/custom/solar/eclipse/viewer/astrocalc/Worksheet.java:159-178 | never Hybrid; None exactly when G < 0; Partial exactly when G >= 0 and m > abs(L2'); Total or Annular otherwise, by the sign of L2' |
| `Worksheets.EclipseIffInsidePenumbra` | src/custom/solar/eclipse/viewer/astrocalc/Worksheet.java:159-178 | with L1' + L2' > 0, there is an eclipse exactly when m <= L1' |
| `Worksheets.Sign` | src/custom/solar/eclipse/viewer/astrocalc/Worksheet.java:293-295 | -1 exactly before the maximum, +1 after |
| `Worksheets.ConeRadius` | src/custom/solar/eclipse/viewer/astrocalc/Worksheet.java:145 | L1' for the penumbra, L2' for the umbra |
| `Worksheets.S` | src/custom/solar/eclipse/viewer/astrocalc/Worksheet.java:287-291 | no contract of its own; S = (av - ub)/(n L'), with Java's division by 0 admitted under JavaMath.Quot; used by Worksheets.ContactOffset |
| `Worksheets.ContactOffset` | src/custom/solar/eclipse/viewer/astrocalc/Worksheet.java:146-149 | the size of the initial correction, with the absolute value of L', is never negative |
| `Worksheets.InitialCorrection` | src/custom/solar/eclipse/viewer/astrocalc/Worksheet.java:144-150 | no contract of its own; its direction and size are proved in Worksheets.InitialCorrectionSign |
| `Worksheets.InitialCorrectionSign` | src/custom/solar/eclipse/viewer/astrocalc/Worksheet.java:144-150 | the initial correction points back in time for the first contact and forward for the last, by the same amount |
| `Worksheets.CorrectionToTimeOfContact` | src/custom/solar/eclipse/viewer/astrocalc/Worksheet.java:153-157 | no contract of its own; its relation to tau_M is proved in Worksheets.ContactCorrectionFromMax |
| `Worksheets.ContactCorrectionFromMax` | src/custom/solar/eclipse/viewer/astrocalc/Worksheet.java:153-157 | the contact correction is tau_M plus the initial correction, so the two contacts' corrections straddle tau_M symmetrically |
| `Worksheets.ConvertToDateTimeAsWritten` | src/custom/solar/eclipse/viewer/astrocalc/Worksheet.java:305-317 | a negative hour count steps back one day; the result is on the day of maximum or the day before |
| `Worksheets.ConvertAsWrittenFails` | src/custom/solar/eclipse/viewer/astrocalc/Worksheet.java:305-317 | the conversion as written fails exactly when the rounded nanoseconds reach a whole day, lie more than a day before the day of maximum, or are 0 for a negative hour count (the step back then gives 24:00); in particular every hour count of 24 or more fails |
| `Worksheets.ConvertToDateTime` | src/custom/solar/eclipse/viewer/astrocalc/Worksheet.java:305-317 | the instant is the start of the day of maximum plus the rounded nanoseconds of T0 + t - Delta T / 3600 hours |
| `Worksheets.ConvertAgreesWhereDefined` | src/custom/solar/eclipse/viewer/astrocalc/Worksheet.java:308-316 | where the conversion as written succeeds, it agrees with the corrected one |
| `Worksheets.ConvertFailsPastMidnight` | src/custom/solar/eclipse/viewer/astrocalc/Worksheet.java:305-317 | with T0 = 23 h, a time 1.5 h later fails as written, while the corrected conversion gives 00:30 the next day |
| `Worksheets.TTAndUTCDifferByDeltaT` | src/custom/solar/eclipse/viewer/astrocalc/Worksheet.java:180-188 | TT and UTC are Delta T apart, to within one nanosecond of rounding |
| `Worksheets.CivilTimeAt` | src/custom/solar/eclipse/viewer/astrocalc/Worksheet.java:190-196 | local civil time is UTC moved by the location's whole offset in minutes |
| `Worksheets.Worksheet.constructor` | src/custom/solar/eclipse/viewer/astrocalc/Worksheet.java:36-41 | the time, Delta T, the elements and the location are kept |
| `Worksheets.Worksheet.Compute` | src/custom/solar/eclipse/viewer/astrocalc/Worksheet.java:49-128 | afterwards the fields hold the worksheet at t |
| `Worksheets.Worksheet.Store` | src/custom/solar/eclipse/viewer/astrocalc/Worksheet.java:52-127 | every field is assigned from the computed value |
| `Worksheets.Worksheet.StoreElements` | src/custom/solar/eclipse/viewer/astrocalc/Worksheet.java:52-61 | the element fields are assigned |
| `Worksheets.Worksheet.StoreObserver` | src/custom/solar/eclipse/viewer/astrocalc/Worksheet.java:64-75 | the observer fields are assigned |
| `Worksheets.Worksheet.StoreShadow` | src/custom/solar/eclipse/viewer/astrocalc/Worksheet.java:77-89 | the shadow fields are assigned |
| `Worksheets.Worksheet.StoreCircumstances` | src/custom/solar/eclipse/viewer/astrocalc/Worksheet.java:92-127 | the remaining fields are assigned |
| `Worksheets.Worksheet.TT` | src/custom/solar/eclipse/viewer/astrocalc/Worksheet.java:180-183 | T0 + t as a date-time, without Delta T |
| `Worksheets.Worksheet.UTC` | src/custom/solar/eclipse/viewer/astrocalc/Worksheet.java:185-188 | T0 + t - Delta T as a date-time |
| `Worksheets.Worksheet.LocalCivilTime` | src/custom/solar/eclipse/viewer/astrocalc/Worksheet.java:190-196 | UTC moved by the location's offset in minutes |
| `Circumstances.PartialPhaseOf` | src/custom/solar/eclipse/viewer/astrocalc/LocalCircumstances.java:284-297 | the phase keeps the time, Z, G, A and h of the worksheet, and its centre distance plus twice the magnitude is the Sun's radius plus the Moon's |
| `Circumstances.PhaseDistanceIsSeparation` | src/custom/solar/eclipse/viewer/astrocalc/LocalCircumstances.java:285-293 | the centre distance 1 - 2G + A times L1' + L2' is twice the separation m of the shadow axis from the observer, so the Sun's radius is (L1' + L2') / 2 on that scale |
| `Circumstances.DisksOverlapIffEclipse` | src/custom/solar/eclipse/viewer/astrocalc/LocalCircumstances.java:290-293 | the disks overlap (distance at most 1 + A) exactly when the worksheet shows an eclipse |
| `Circumstances.SampleStep` | src/custom/solar/eclipse/viewer/astrocalc/LocalCircumstances.java:252 | consecutive sampled times are one gap apart, in the direction of the side |
| `Circumstances.SamplingUnique` | src/custom/solar/eclipse/viewer/astrocalc/LocalCircumstances.java:245-262 | the sampled times are determined by the base time, the side, the gap and the partial phase |
| `Circumstances.SampleInside` | src/custom/solar/eclipse/viewer/astrocalc/LocalCircumstances.java:253-255 | every sampled time lies strictly inside the partial phase |
| `Circumstances.NoSamplesWhenFirstOutside` | src/custom/solar/eclipse/viewer/astrocalc/LocalCircumstances.java:251-259 | there are no samples exactly when the first one falls outside the partial phase |
| `Circumstances.SampleWithinBound` | src/custom/solar/eclipse/viewer/astrocalc/LocalCircumstances.java:251-260 | a sample inside the partial phase has a count below a bound set by the phase, so the loop stops |
| `Circumstances.SamplesOnTheirSide` | src/custom/solar/eclipse/viewer/astrocalc/LocalCircumstances.java:233-262 | the samples before the peak are earlier than the base time and those after it later |
| `Circumstances.SpecificTime` | src/custom/solar/eclipse/viewer/astrocalc/LocalCircumstances.java:265-269 | a positive number of minutes moves the base time back before the peak and forward after it, by minutes / 60 hours |
| `Circumstances.Realize` | src/custom/solar/eclipse/viewer/astrocalc/LocalCircumstances.java:348-356 | no contract of its own; `eventFor` and the phase events of `eventsFor`; their fields are proved in Circumstances.RealizeMeaning |
| `Circumstances.RealizeMeaning` | src/custom/solar/eclipse/viewer/astrocalc/LocalCircumstances.java:348-371 | an event carries the clock time it happens at, its text, the time from the base to it and the magnitude of its worksheet or partial phase |
| `Circumstances.RealizeAll` | src/custom/solar/eclipse/viewer/astrocalc/LocalCircumstances.java:305-346 | one event per source, in the same order |
| `Circumstances.RealizeAllAppend` | src/custom/solar/eclipse/viewer/astrocalc/LocalCircumstances.java:305-343 | the events of a list of sources built piece by piece are those built whole |
| `Circumstances.PhaseSources` | src/custom/solar/eclipse/viewer/astrocalc/LocalCircumstances.java:358-371 | one source per partial phase, in order, with the same text and base |
| `Circumstances.BaseTime` | src/custom/solar/eclipse/viewer/astrocalc/LocalCircumstances.java:271-280 | a total eclipse is timed from the start of totality before the peak and from its end after it; any other type from the maximum |
| `Circumstances.TotalStartPlan` | src/custom/solar/eclipse/viewer/astrocalc/LocalCircumstances.java:308-314 | five events up to the start of totality, all timed from it, the three standard offsets before it |
| `Circumstances.TotalEndPlan` | src/custom/solar/eclipse/viewer/astrocalc/LocalCircumstances.java:319-324 | five events from the end of totality, all timed from it, the three standard offsets after it |
| `Circumstances.TotalPlan` | src/custom/solar/eclipse/viewer/astrocalc/LocalCircumstances.java:308-325 | eleven events: the offsets before totality precede the start of totality, those after it follow its end |
| `Circumstances.PartialPlan` | src/custom/solar/eclipse/viewer/astrocalc/LocalCircumstances.java:326-333 | three events plus one per partial phase, all timed from the maximum |
| `Circumstances.AnnularPlan` | src/custom/solar/eclipse/viewer/astrocalc/LocalCircumstances.java:334-343 | five events plus one per partial phase, all timed from the maximum |
| `Circumstances.RealizePartialPlan` | src/custom/solar/eclipse/viewer/astrocalc/LocalCircumstances.java:326-333 | the events of a partial eclipse are the start, the increasing phases, the maximum, the decreasing phases and the end, in that order |
| `Circumstances.RealizeAnnularPlan` | src/custom/solar/eclipse/viewer/astrocalc/LocalCircumstances.java:334-343 | the events of an annular eclipse in the order `computeTimelineEvents` adds them |
| `Circumstances.TimelinePlan` | src/custom/solar/eclipse/viewer/astrocalc/LocalCircumstances.java:305-346 | 11 events for a total eclipse and 3 or 5 plus the phases for a partial or annular one; none exactly for no eclipse (or hybrid); each timeline opens with the start and closes with the end of the partial phase |
| `Circumstances.ConvergedExit` | src/custom/solar/eclipse/viewer/astrocalc/LocalCircumstances.java:166-171 | the iteration stops at a settled correction, or else the fuel ran out with every earlier correction unsettled |
| `Circumstances.ConvergedStable` | src/custom/solar/eclipse/viewer/astrocalc/LocalCircumstances.java:166-170 | once settled, more fuel does not change where the iteration stops |
| `Circumstances.ConvergedStep` | src/custom/solar/eclipse/viewer/astrocalc/LocalCircumstances.java:166-170 | one step applies an unsettled correction |
| `Circumstances.ContactSeed` | src/custom/solar/eclipse/viewer/astrocalc/LocalCircumstances.java:181-184 | the first time tried is the maximum's time moved by the size of its initial correction |
| `Circumstances.SeedCorrectionNearInitial` | src/custom/solar/eclipse/viewer/astrocalc/LocalCircumstances.java:180-187 | from a settled maximum, the first contact correction is the initial correction, give or take the tolerance |
| `Circumstances.PhasesAt` | src/custom/solar/eclipse/viewer/astrocalc/LocalCircumstances.java:222-231 | one partial phase per time, in order, each from the worksheet at its time and at its local civil time |
| `Circumstances.BuildFrom` | src/custom/solar/eclipse/viewer/astrocalc/LocalCircumstances.java:111-141 | nothing (null) exactly when there is no eclipse at the location; otherwise the displayed type is the local type, the totality times are absent exactly for a partial eclipse, the partial phase runs between the refined contacts, and the maximum, altitude, azimuth and magnitude come from the worksheet at the maximum; for an eclipse the computation is complete, the totality times are the civil times of the refined umbral contacts, and the phases and the sorted timeline are those the circumstances computed |
| `Circumstances.DisplayOf` | src/custom/solar/eclipse/viewer/astrocalc/LocalCircumstances.java:122-138 | every field of the display comes from the computed circumstances: the type, the civil times of the contacts, the phase at the maximum, the phases on each side, the altitude, azimuth and magnitude, and the timeline |
| `Circumstances.LocalCircumstances.constructor` | src/custom/solar/eclipse/viewer/astrocalc/LocalCircumstances.java:55-60 | the inputs are kept and every result starts null |
| `Circumstances.LocalCircumstances.ClockOf` | src/custom/solar/eclipse/viewer/astrocalc/LocalCircumstances.java:348-356 | a worksheet of this eclipse, location and Delta T tells the local civil time of its own t |
| `Circumstances.LocalCircumstances.SnapshotOf` | src/custom/solar/eclipse/viewer/astrocalc/LocalCircumstances.java:225-226 | a computed worksheet holds the worksheet at its time |
| `Circumstances.LocalCircumstances.NewSheet` | src/custom/solar/eclipse/viewer/astrocalc/LocalCircumstances.java:164-165 | a new worksheet at t, computed |
| `Circumstances.LocalCircumstances.TauMOf` | src/custom/solar/eclipse/viewer/astrocalc/LocalCircumstances.java:166-167 | the tau_M of a computed worksheet is the correction towards the maximum at its time |
| `Circumstances.LocalCircumstances.ComputeLocalMax` | src/custom/solar/eclipse/viewer/astrocalc/LocalCircumstances.java:162-172 | from t = 0, tau_M is applied until it is settled; the result is where that iteration converges |
| `Circumstances.LocalCircumstances.CorrOfCorrects` | src/custom/solar/eclipse/viewer/astrocalc/LocalCircumstances.java:186-187 | the correction read at each time is the worksheet's `correctionToTimeOfContact` |
| `Circumstances.LocalCircumstances.ContactCorrectionOf` | src/custom/solar/eclipse/viewer/astrocalc/LocalCircumstances.java:186-187 | the correction of a computed worksheet is the correction at its time |
| `Circumstances.LocalCircumstances.ContactSeedOf` | src/custom/solar/eclipse/viewer/astrocalc/LocalCircumstances.java:181-184 | the maximum's time plus its initial correction |
| `Circumstances.LocalCircumstances.RefineContact` | src/custom/solar/eclipse/viewer/astrocalc/LocalCircumstances.java:184-191 | from the seed, the contact correction is applied until it is settled |
| `Circumstances.LocalCircumstances.ComputeContact` | src/custom/solar/eclipse/viewer/astrocalc/LocalCircumstances.java:180-192 | the contact is where the iteration from the seed converges |
| `Circumstances.LocalCircumstances.ConfirmTheOrderOf` | src/custom/solar/eclipse/viewer/astrocalc/LocalCircumstances.java:213-219 | the positions reported, in increasing order, are exactly those where a worksheet's UTC is after the next one's |
| `Circumstances.LocalCircumstances.ComputeContactPair` | src/custom/solar/eclipse/viewer/astrocalc/LocalCircumstances.java:75-81 | the first and last contacts with one cone, each refined from the maximum |
| `Circumstances.LocalCircumstances.ComputeContacts` | src/custom/solar/eclipse/viewer/astrocalc/LocalCircumstances.java:75-95 | the partial contacts always; the umbral contacts exactly when the local eclipse is not partial |
| `Circumstances.LocalCircumstances.Times` | src/custom/solar/eclipse/viewer/astrocalc/LocalCircumstances.java:271-280 | the times of the maximum and the contacts; missing umbral contacts count as the maximum |
| `Circumstances.LocalCircumstances.KindOfMax` | src/custom/solar/eclipse/viewer/astrocalc/LocalCircumstances.java:85 | the local type of the maximum's worksheet |
| `Circumstances.LocalCircumstances.EvenlySpacedTimesWithRespectToPeak` | src/custom/solar/eclipse/viewer/astrocalc/LocalCircumstances.java:245-262 | the samples one gap apart from the base time, while they lie strictly inside the partial phase |
| `Circumstances.LocalCircumstances.TotalStartTimeline` | src/custom/solar/eclipse/viewer/astrocalc/LocalCircumstances.java:308-314 | the events of a total eclipse up to the start of totality |
| `Circumstances.LocalCircumstances.TotalEndTimeline` | src/custom/solar/eclipse/viewer/astrocalc/LocalCircumstances.java:319-324 | the events of a total eclipse from the end of totality |
| `Circumstances.LocalCircumstances.TotalTimeline` | src/custom/solar/eclipse/viewer/astrocalc/LocalCircumstances.java:308-325 | the eleven events of a total eclipse, in the order they are added |
| `Circumstances.LocalCircumstances.PartialTimeline` | src/custom/solar/eclipse/viewer/astrocalc/LocalCircumstances.java:326-333 | the events of a partial eclipse, in the order they are added |
| `Circumstances.LocalCircumstances.AnnularTimeline` | src/custom/solar/eclipse/viewer/astrocalc/LocalCircumstances.java:334-343 | the events of an annular eclipse, in the order they are added |
| `Circumstances.LocalCircumstances.BuildPartialPhaseFrom` | src/custom/solar/eclipse/viewer/astrocalc/LocalCircumstances.java:284-297 | the partial phase a computed worksheet shows, at its local civil time |
| `Circumstances.LocalCircumstances.ComputePartialPhases` | src/custom/solar/eclipse/viewer/astrocalc/LocalCircumstances.java:222-231 | one partial phase per time, each from a worksheet computed at that time |
| `Circumstances.LocalCircumstances.EventFor` | src/custom/solar/eclipse/viewer/astrocalc/LocalCircumstances.java:348-356 | the event at a computed worksheet, timed from the base worksheet |
| `Circumstances.LocalCircumstances.EventsFor` | src/custom/solar/eclipse/viewer/astrocalc/LocalCircumstances.java:358-371 | one event per partial phase, in order, timed from the base worksheet |
| `Circumstances.LocalCircumstances.StandardOffsetEventFor` | src/custom/solar/eclipse/viewer/astrocalc/LocalCircumstances.java:376-382 | the event at a worksheet a number of minutes before or after the base time |
| `Circumstances.LocalCircumstances.ComputeTimelineEvents` | src/custom/solar/eclipse/viewer/astrocalc/LocalCircumstances.java:305-346 | the events of the local type's plan, sorted by the corrected `compareTo` (which also orders by altitude) and a permutation of the plan's events |
| `Circumstances.LocalCircumstances.PhasesFor` | src/custom/solar/eclipse/viewer/astrocalc/LocalCircumstances.java:97-98 | the partial phases on one side of the peak, at the sampled times |
| `Circumstances.LocalCircumstances.ComputePhases` | src/custom/solar/eclipse/viewer/astrocalc/LocalCircumstances.java:97-98 | the phases before and after the peak are stored with the times sampled |
| `Circumstances.LocalCircumstances.StorePhases` | src/custom/solar/eclipse/viewer/astrocalc/LocalCircumstances.java:97-98 | the phases are stored with the times they were computed at |
| `Circumstances.LocalCircumstances.StoreContacts` | src/custom/solar/eclipse/viewer/astrocalc/LocalCircumstances.java:75-95 | the refined contacts are stored; the umbral ones only when the eclipse is not partial |
| `Circumstances.LocalCircumstances.SetPartialContacts` | src/custom/solar/eclipse/viewer/astrocalc/LocalCircumstances.java:75-79 | the partial contacts are assigned |
| `Circumstances.LocalCircumstances.SetUmbralContacts` | src/custom/solar/eclipse/viewer/astrocalc/LocalCircumstances.java:86-90 | the umbral contacts are assigned |
| `Circumstances.LocalCircumstances.StoreTimeline` | src/custom/solar/eclipse/viewer/astrocalc/LocalCircumstances.java:100 | the sorted timeline of the plan is stored |
| `Circumstances.LocalCircumstances.SetTimeline` | src/custom/solar/eclipse/viewer/astrocalc/LocalCircumstances.java:100 | the sorted timeline is assigned |
| `Circumstances.LocalCircumstances.ComputeRest` | src/custom/solar/eclipse/viewer/astrocalc/LocalCircumstances.java:75-100 | the contacts, the partial phases and the timeline, all computed |
| `Circumstances.LocalCircumstances.ComputeAndStoreContacts` | src/custom/solar/eclipse/viewer/astrocalc/LocalCircumstances.java:75-95 | the contacts are refined from the maximum and stored |
| `Circumstances.LocalCircumstances.ComputePhasesAndTimeline` | src/custom/solar/eclipse/viewer/astrocalc/LocalCircumstances.java:97-100 | the partial phases, then the timeline that uses them |
| `Circumstances.LocalCircumstances.Compute` | src/custom/solar/eclipse/viewer/astrocalc/LocalCircumstances.java:63-102 | the maximum is refined from t = 0; only when its magnitude is not negative are the contacts, phases and timeline computed, otherwise they keep their values |
| `Timeline.MakeEvent` | src/custom/solar/eclipse/viewer/draw/TimelineEvent.java:22-28 | the time, text, offset and magnitude are kept; the altitude given in radians is stored in degrees, within 0.05 of the exact value and a whole number of tenths |
| `Timeline.StringCompare` | src/custom/solar/eclipse/viewer/draw/TimelineEvent.java:46 | no contract of its own; `String.compareTo`; its properties are proved in Timeline.StringCompareZero, Timeline.StringCompareAntisymmetric and Timeline.StringCompareTransitive |
| `Timeline.StringCompareZero` | src/custom/solar/eclipse/viewer/draw/TimelineEvent.java:46 | `String.compareTo` gives 0 exactly for equal texts |
| `Timeline.StringCompareAntisymmetric` | src/custom/solar/eclipse/viewer/draw/TimelineEvent.java:46 | swapping the texts negates `String.compareTo` |
| `Timeline.StringCompareTransitive` | src/custom/solar/eclipse/viewer/draw/TimelineEvent.java:46 | `String.compareTo` orders texts transitively |
| `Timeline.RealCompare` | src/custom/solar/eclipse/viewer/draw/TimelineEvent.java:52-53 | negative exactly when the first magnitude is smaller, 0 exactly when they are equal |
| `Timeline.CompareAsWritten` | src/custom/solar/eclipse/viewer/draw/TimelineEvent.java:37-58 | no contract of its own; `compareTo` as written (time, text, offset, magnitude); its properties are proved in Timeline.AltitudeIgnoredByCompareTo, Timeline.CompareReflexive and Timeline.CompareAntisymmetric |
| `Timeline.Compare` | src/custom/solar/eclipse/viewer/draw/TimelineEvent.java:37-58 | no contract of its own; `compareTo` with the altitude as a last key, the corrected ordering of the second "## Findings" row; its properties are proved in Timeline.CompareZeroIffEqual, Timeline.CompareTransitive and Timeline.CompareRefinesAsWritten |
| `Timeline.AltitudeIgnoredByCompareTo` | src/custom/solar/eclipse/viewer/draw/TimelineEvent.java:37-58 | two events that differ only in altitude compare as 0 under `compareTo` as written, although they are not equal |
| `Timeline.CompareZeroIffEqual` | src/custom/solar/eclipse/viewer/draw/TimelineEvent.java:55 | the ordering with the altitude as the last key gives 0 exactly for equal events, which is what the assertion in `compareTo` expects |
| `Timeline.CompareReflexive` | src/custom/solar/eclipse/viewer/draw/TimelineEvent.java:41 | an event compares as 0 with itself, under both orderings |
| `Timeline.CompareAntisymmetric` | src/custom/solar/eclipse/viewer/draw/TimelineEvent.java:37-58 | x comes before y exactly when y comes after x, under both orderings |
| `Timeline.CompareTransitive` | src/custom/solar/eclipse/viewer/draw/TimelineEvent.java:37-58 | the corrected ordering is transitive, so sorting by it is well defined |
| `Timeline.CompareRefinesAsWritten` | src/custom/solar/eclipse/viewer/draw/TimelineEvent.java:37-58 | wherever `compareTo` as written gives a non-zero answer, the corrected ordering gives the same one |
| `Timeline.SigFields` | src/custom/solar/eclipse/viewer/draw/TimelineEvent.java:86-91 | five significant fields |
| `Timeline.SigFieldsInjective` | src/custom/solar/eclipse/viewer/draw/TimelineEvent.java:86-91 | two events have the same significant fields exactly when they are equal |
| `Timeline.Equals` | src/custom/solar/eclipse/viewer/draw/TimelineEvent.java:60-70 | the loop over the significant fields returns true exactly for equal events |
| `Timeline.Wrap32` | src/custom/solar/eclipse/viewer/draw/TimelineEvent.java:72-74 | a Java `int`: in the signed 32-bit range and congruent to the exact value modulo 2^32 |
| `Timeline.HashCode` | src/custom/solar/eclipse/viewer/draw/TimelineEvent.java:72-74 | a Java `int` |
| `Timeline.HashCodeConsistentWithEquals` | src/custom/solar/eclipse/viewer/draw/TimelineEvent.java:60-74 | events equal field by field are equal and have the same hash code |
| `Timeline.Insert` | src/custom/solar/eclipse/viewer/astrocalc/LocalCircumstances.java:344 | inserting into a sorted list gives a sorted list holding the old events plus the new one |
| `Timeline.Sort` | src/custom/solar/eclipse/viewer/astrocalc/LocalCircumstances.java:344 | the result is sorted and a permutation of the input |
| `TimelineTables.Text` | src/custom/solar/eclipse/viewer/draw/TimelineTable.java:81-87 | the offset starts with a minus sign exactly when it is negative; the time reads hh:mm:ss; the altitude ends with a degree sign; names and comments appear unchanged |
| `TimelineTables.ColumnNames` | src/custom/solar/eclipse/viewer/draw/TimelineTable.java:59-61 | four columns for a total eclipse, five otherwise |
| `TimelineTables.ColumnNamesContent` | src/custom/solar/eclipse/viewer/draw/TimelineTable.java:53-61 | the offset, time and magnitude columns first, the altitude next except for a total eclipse, and only the last column is "Comment" |
| `TimelineTables.RelativeColWidths` | src/custom/solar/eclipse/viewer/draw/TimelineTable.java:54-65 | one width per column, 1 for each column but the comment, which is 5 |
| `TimelineTables.Header` | src/custom/solar/eclipse/viewer/draw/TimelineTable.java:73-76 | one shaded header cell per column name, left-aligned only for "Comment" |
| `TimelineTables.RowCells` | src/custom/solar/eclipse/viewer/draw/TimelineTable.java:80-88 | four cells per event for a total eclipse, five otherwise |
| `TimelineTables.RowUnderHeader` | src/custom/solar/eclipse/viewer/draw/TimelineTable.java:80-88 | each cell of an event's row is unshaded, aligned as its column's header, and shows that column's field of the event |
| `TimelineTables.Rows` | src/custom/solar/eclipse/viewer/draw/TimelineTable.java:80-88 | one row per event |
| `TimelineTables.RowOfEvent` | src/custom/solar/eclipse/viewer/draw/TimelineTable.java:80-88 | row k holds the cells of event k, one per column |
| `TimelineTables.AddHeaderCells` | src/custom/solar/eclipse/viewer/draw/TimelineTable.java:73-76 | the header cells are appended after the cells already in the table |
| `TimelineTables.AddRowCells` | src/custom/solar/eclipse/viewer/draw/TimelineTable.java:80-88 | one event's cells are appended after the cells already in the table |
| `TimelineTables.TableFor` | src/custom/solar/eclipse/viewer/draw/TimelineTable.java:67-91 | a table with one column per name, 68% wide, with the column widths and one header row; its cells are the header then every event's row |
| `TimelineTables.AddEventRows` | src/custom/solar/eclipse/viewer/draw/TimelineTable.java:80-88 | the rows of all events, in order, are appended |
| `TimelineTables.EventCell` | src/custom/solar/eclipse/viewer/draw/TimelineTable.java:67-91 | the cell in column j of event k's row is that row's j-th cell and is aligned as the header of column j |
| `TimelineTables.EventCellAt` | src/custom/solar/eclipse/viewer/draw/TimelineTable.java:80-88 | the data cells are laid out row by row, one cell per column |
| `TimelineTables.RowsUniform` | src/custom/solar/eclipse/viewer/draw/TimelineTable.java:80-88 | every data row has one cell per column |
| `TimelineTables.SomeEmptyLines` | src/custom/solar/eclipse/viewer/draw/TimelineTable.java:140-146 | n copies of the line separator, none for a negative n |
| `TimelineTables.TimelineTable.constructor` | src/custom/solar/eclipse/viewer/draw/TimelineTable.java:27-32 | the eclipse type, the events and the document are kept |
| `TimelineTables.TimelineTable.EmptyLines` | src/custom/solar/eclipse/viewer/draw/TimelineTable.java:128-133 | one paragraph of num empty lines is added to the document |
| `TimelineTables.TimelineTable.Draw` | src/custom/solar/eclipse/viewer/draw/TimelineTable.java:40-43 | the document gains a paragraph of 17 empty lines and then the timeline table of the events |
| `PhasesChart.Flipped` | src/custom/solar/eclipse/viewer/draw/PartialPhasesChart.java:152-154 | the mirror image in the vertical axis, not the base point |
| `PhasesChart.FlippedTwice` | src/custom/solar/eclipse/viewer/draw/PartialPhasesChart.java:152-154 | flipping twice restores the point, and the intersection itself exactly when it was not the base |
| `PhasesChart.Rotate` | src/custom/solar/eclipse/viewer/draw/PartialPhasesChart.java:155-159 | the rotation keeps whether the point is the base |
| `PhasesChart.RotatePreservesDistance` | src/custom/solar/eclipse/viewer/draw/PartialPhasesChart.java:155-159 | a rotation keeps the distance from the Sun's centre, so the rotated point stays on the solar rim |
| `PhasesChart.ForPoint` | src/custom/solar/eclipse/viewer/draw/PartialPhasesChart.java:212-229 | north exactly when y is negative, east exactly when x is positive |
| `PhasesChart.OriginIsSouthWest` | src/custom/solar/eclipse/viewer/draw/PartialPhasesChart.java:212-229 | the centre itself counts as south-west |
| `PhasesChart.RightAlignedIffWest` | src/custom/solar/eclipse/viewer/draw/PartialPhasesChart.java:191-193 | the text is right-aligned exactly when the point is not east of the centre |
| `PhasesChart.FlipSwapsAlignment` | src/custom/solar/eclipse/viewer/draw/PartialPhasesChart.java:170-193 | the two annotations of a phase, off the vertical axis, are aligned on opposite sides and shifted down alike |
| `PhasesChart.OffsetBase` | src/custom/solar/eclipse/viewer/draw/PartialPhasesChart.java:244-256 | the maximum for a partial eclipse; otherwise the start or the end of totality or annularity |
| `PhasesChart.OffsetText` | src/custom/solar/eclipse/viewer/draw/PartialPhasesChart.java:244-256 | a signed hours and minutes that is negative exactly when the phase comes before its base time |
| `PhasesChart.ClockText` | src/custom/solar/eclipse/viewer/draw/PartialPhasesChart.java:239-241 | the clock time, starting with a digit |
| `PhasesChart.DisplayText` | src/custom/solar/eclipse/viewer/draw/PartialPhasesChart.java:262-271 | the clock time when the point is the base exactly when the phase is after the maximum, else the offset |
| `PhasesChart.ClockIffNotSigned` | src/custom/solar/eclipse/viewer/draw/PartialPhasesChart.java:262-271 | the text is unsigned (a clock time) exactly when the switch of `displayText` applies |
| `PhasesChart.OneClockOneOffset` | src/custom/solar/eclipse/viewer/draw/PartialPhasesChart.java:165-178 | of the two annotations of one phase, one shows the clock time and the other the offset |
| `PhasesChart.PhasesTitle` | src/custom/solar/eclipse/viewer/draw/PartialPhasesChart.java:81-85 | "Before" on the left and "After" on the right, then " Totality" exactly for a total eclipse, else " Maximum" |
| `PhasesChart.Drawn` | src/custom/solar/eclipse/viewer/draw/PartialPhasesChart.java:65-70 | the phases whose centre distance is below 1.95, and all of them |
| `PhasesChart.PhasesChartOf` | src/custom/solar/eclipse/viewer/draw/PartialPhasesChart.java:59-71 | the chart's title, and the phases the loop draws, in order |
| `PhasesChart.Charts` | src/custom/solar/eclipse/viewer/draw/PartialPhasesChart.java:38-44 | the charts before and after on the left and right, and the chart of the maximum exactly when the eclipse is not total, titled "Maximum ", the magnitude rounded to three places, " at " and its time |
| `LocationText.ClosestFrom` | src/custom/solar/eclipse/viewer/draw/LocationEtc.java:84-90 | the rest of the loop keeps the first direction strictly closer than pi and than every earlier one, or finds none |
| `LocationText.Closest` | src/custom/solar/eclipse/viewer/draw/LocationEtc.java:82-90 | the first of the nearest directions, measured without wrap-around, when one is closer than pi; none exactly when every direction is at least pi away |
| `LocationText.ChosenUnique` | src/custom/solar/eclipse/viewer/draw/LocationEtc.java:82-90 | the loop can settle on only one direction |
| `LocationText.IndexOfValue` | src/custom/solar/eclipse/viewer/draw/LocationEtc.java:91 | `indexOf`: the first index holding the value, or none when no element holds it |
| `LocationText.Directions` | src/custom/solar/eclipse/viewer/draw/LocationEtc.java:76-80 | eight directions, the k-th at k times 2 pi / 8 |
| `LocationText.ClosestDirection` | src/custom/solar/eclipse/viewer/draw/LocationEtc.java:82-90 | the direction the loop keeps is that of `Closest`, or null |
| `LocationText.Direction` | src/custom/solar/eclipse/viewer/draw/LocationEtc.java:74-92 | the name of the nearest direction, or nothing where Java's `get(-1)` would throw |
| `LocationText.DirectionsDistinct` | src/custom/solar/eclipse/viewer/draw/LocationEtc.java:91 | `indexOf` finds each direction at its own index |
| `LocationText.DirectionDefinedInRange` | src/custom/solar/eclipse/viewer/draw/LocationEtc.java:74-92 | every azimuth from 0 up to 2 pi names a direction |
| `LocationText.NoWrapAround` | src/custom/solar/eclipse/viewer/draw/LocationEtc.java:85 | an azimuth within half a step below 2 pi is named North-West, although North is nearer on the compass |
| `LocationText.TieGoesToEarlier` | src/custom/solar/eclipse/viewer/draw/LocationEtc.java:86 | half way between two directions the earlier one is kept |
| `LocationText.DurationText` | src/custom/solar/eclipse/viewer/draw/LocationEtc.java:61-66 | no contract of its own; `duration()`; its text is proved to read back in LocationText.DurationTextReadsBack |
| `LocationText.DurationTextReadsBack` | src/custom/solar/eclipse/viewer/draw/LocationEtc.java:61-66 | for a non-negative duration: whole minutes, "m ", two digits of seconds below 60 that read back, and "s"; the minutes and seconds make up the whole seconds |
| `LocationText.DurationTextExample` | src/custom/solar/eclipse/viewer/draw/LocationEtc.java:61-66 | 65 seconds reads "1m 05s" |
| `LocationText.AltitudeText` | src/custom/solar/eclipse/viewer/draw/LocationEtc.java:68-72 | no contract of its own; `altitude()`: the altitude in degrees rounded to one place (Maths.RoundToOnePlace), shown as LocationText.Lines states |
| `LocationText.Lines` | src/custom/solar/eclipse/viewer/draw/LocationEtc.java:35-49 | the location first; nothing else when only the location is wanted; otherwise two lines for a total or annular eclipse and three for a partial one, with the texts `draw` renders; the direction shown is the name of the direction `direction()` chooses for the azimuth |
| `LocationText.YLevel` | src/custom/solar/eclipse/viewer/draw/LocationEtc.java:116-118 | each line sits lower than the one before |
| `LocationText.NearestFrom` | src/custom/solar/eclipse/viewer/draw/LocationEtc.java:82-90 | the search keeps a direction no farther around the compass than any other |
| `LocationText.CompassDirection` | src/custom/solar/eclipse/viewer/draw/LocationEtc.java:74-92 | the corrected `direction()`: the name of a direction no farther around the compass than any other |
| `LocationText.CompassWrapsToNorth` | src/custom/solar/eclipse/viewer/draw/LocationEtc.java:82-91 | within half a step below 2 pi the corrected version names North while the loop as written names North-West |

## Left out

- The values of `sin`, `cos`, `tan`, `asin`, `acos`, `atan`, `atan2` and `sqrt` are not modelled: they are the fields of a `Trig` parameter, and only the range of `atan2` and the sign of `sqrt` are known. Meeus' worked-example numbers are therefore not reproduced.
- Floating point is not modelled: `double` and `float` are reals, so `Math.round`, `roundToOnePlace`, `roundToThreePlaces` and the nanosecond rounding of `convertToDateTime` round exact values, and nothing overflows or becomes NaN.
- JavaMath.Quot: a division by zero gives 0 where Java's `double` division gives an infinity or NaN; the source never relies on either.
- Java's `int` and `long` overflow is not modelled except in `hashCode` (Timeline.Wrap32): the sample counter of the partial phases, the nanosecond counts and the offsets are unbounded integers.
- Circumstances.LocalCircumstances.ComputeLocalMax: the loop is bounded by a fuel count. The result is the first settled iterate, or the iterate reached when the fuel runs out; whether the iteration converges depends on the numbers and is not proved.
- Circumstances.LocalCircumstances.RefineContact: bounded by fuel in the same way, and so are ComputeContact, Compute and BuildFrom, which use it.
- Circumstances.LocalCircumstances.EvenlySpacedTimesWithRespectToPeak: requires a gap other than 0. With a gap of 0 every time the Java loop tries is the base time, so it never stops when the base time lies strictly inside the partial phase, and returns an empty list at once otherwise.
- JavaStrings.EqualsIgnoreCase: folds the case of the ASCII letters only. Java's `equalsIgnoreCase` compares `Character.toUpperCase` and `Character.toLowerCase` over all of Unicode, so a name such as "wıdth" (dotless i) or "armſ_length" (long s) names a setting in Java and nothing here.
- Configuration.SettingNamed: inherits the ASCII-only case folding of JavaStrings.EqualsIgnoreCase; a name that matches a setting only through non-ASCII case folding selects nothing here, and Configuration.Processed then ignores its line.
- Configuration.SameSettingIgnoringCase: covers names that differ in the case of ASCII letters only, for the same reason.
- Worksheets.Worksheet.TT: uses the corrected conversion of the first "## Findings" row, and so do Worksheets.Worksheet.UTC, Worksheets.Worksheet.LocalCivilTime, Worksheets.CivilTimeAt and, through them, Circumstances.Realize, Circumstances.BuildFrom and Circumstances.DisplayOf. Where Java's `convertToDateTime` throws (Worksheets.ConvertAsWrittenFails), these give a time on the next day instead.
- Circumstances.BuildFrom: requires the looked-up elements to be present, because the source dereferences them without a null check. It also requires polynomials with enough coefficients to differentiate, which every row read by the lookup has.
- Worksheets.Worksheet.Compute: requires the same polynomial lengths (`Usable`), and so do the worksheet stages and the time conversions that evaluate them.
- Circumstances.LocalCircumstances.ConfirmTheOrderOf: the source only logs; the model returns the positions it would log instead.
- Logging (`LogUtil`, `showLogging`) and the `toString` debug texts are not modelled, apart from `QRCode.toString`, which the configuration round trip needs.
- Number parsing (`Double.valueOf`, `Float.valueOf`, `Integer.valueOf`) is a `Readers` parameter of the configuration and of the lookup; a malformed number, which makes Java throw, is not modelled.
- Java's `Double.toString`, used for the altitude and the maximum's magnitude, is a `showDouble` parameter.
- File and system I/O are not modelled. `DataFileReader` is not part of this model: the lines of the configuration file and of the elements file, and the comment prefix, are parameters. `System.getProperty` is left out too.
- Configuration.Processed: a non-comment line without "=" gives an error result where Java dereferences a null pair and throws.
- LocationText.Direction: gives nothing where Java's `get(-1)` throws. That happens only for an azimuth at least pi from every direction, never for an azimuth in 0..2 pi.
- PhasesChart.OffsetText: requires the totality or annularity times when the eclipse is not partial; Java dereferences them, and so do PhasesChart.DisplayText, LocationText.Lines and Carriers.DurationTotalityAnnularity.
- LocationText.Lines: also requires a direction for the azimuth unless only the location is shown, because `direction()` fails without one; every azimuth in 0..2 pi has one (LocationText.DirectionDefinedInRange).
- Polynomials.Derivative: requires at least one coefficient, because Java's `new double[length - 1]` throws on an empty polynomial.
- EclipseTypes.StartsWithFirstChar: speaks of a non-empty input only. The empty input is handled by EclipseTypes.Decode, as the failure Java raises.
- Timeline.HashCode: the hash codes of the field types are a parameter, so only the combination (`Objects.hash`) and the 32-bit range are modelled.
- Timeline.Sort: an insertion sort by the corrected ordering stands in for `Collections.sort` by `compareTo` as written. Under the corrected ordering only equal events compare as 0, so there is one sorted permutation. Java's stable sort keeps insertion order for two events that differ only in altitude, where the model orders them by altitude; elsewhere the two orderings agree (Timeline.CompareRefinesAsWritten), so the results differ only for a timeline holding such a pair. Circumstances.LocalCircumstances.ComputeTimelineEvents inherits this.
- PDF generation (iText `Document`, `PdfPTable`, fonts, colours, cell padding), AWT drawing (circles, clipping, text placement, `fromCosineLawForTriangles`) and the QR images (zxing) are not modelled. The timeline table is a list of cells with their content, alignment and shading; the charts are the titles and phases they draw; `LocationEtc` is the lines it renders and their levels.
- `Config`, `Constants` and `Setting` hold values only; the settings are a datatype, and the processed configuration is a map from setting to value.

## Findings

| source | as written | input that shows it | evidently intended | confidence | as-written member | corrected member |
|---|---|---|---|---|---|---|
| src/custom/solar/eclipse/viewer/astrocalc/Worksheet.java:305-317 | only a negative hour count is rolled back a day; an hour count of 24 or more makes `LocalTime.ofNanoOfDay` throw, and so does a negative hour count that rounds to 0 nanoseconds, which the step back turns into 24:00 (Worksheets.ConvertAsWrittenFails states exactly when it throws) | T0 = 23 h, t = 1.5 h, Delta T = 0: the nanoseconds of 24.5 h exceed one day | the time carries into the next day as well | high; not executed | `Worksheets.ConvertFailsPastMidnight` | `Worksheets.ConvertToDateTime` |
| src/custom/solar/eclipse/viewer/draw/TimelineEvent.java:37-58 | `compareTo` ignores the altitude that `equals` compares, so its assertion fails for events that differ only in altitude | two "Maximum eclipse." events at the same time, offset and magnitude, with altitudes 10.0 and 10.1 | the altitude as a last key, so that only equal events compare as 0 | high; not executed | `Timeline.AltitudeIgnoredByCompareTo` | `Timeline.CompareZeroIffEqual` |
| src/custom/solar/eclipse/viewer/draw/LocationEtc.java:82-91 | the distance from each direction is measured without wrapping around 2 pi | an azimuth within 22.5 degrees below 360 degrees is named North-West | the nearest direction on the compass, North | high; not executed | `LocationText.NoWrapAround` | `LocationText.CompassDirection` |
