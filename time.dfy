/**
 The parts of java.time the program uses. A `LocalDateTime` is a day number together with the
 nanosecond of that day; a `Duration` is a signed count of nanoseconds. Calendar fields (year,
 month, day of month) play no part in the logic modelled here, so a date is just its day number.
 */
module Time {
  import opened JavaMath
  import opened JavaStrings

  const NANOS_PER_SECOND: int := 1_000_000_000
  const NANOS_PER_MINUTE: int := 60 * NANOS_PER_SECOND
  const NANOS_PER_HOUR: int := 60 * NANOS_PER_MINUTE
  const NANOS_PER_DAY: int := 24 * NANOS_PER_HOUR

  /** A `LocalTime`, as its nanosecond of the day. */
  type NanoOfDay = n: int | 0 <= n < NANOS_PER_DAY

  /** A `LocalDateTime`: a day (counted from any fixed epoch) and a time of that day. */
  datatype LocalDateTime = LocalDateTime(date: int, time: NanoOfDay)

  /** A `Duration`, in nanoseconds. */
  type Duration = int

  /** The position of a date-time on a single nanosecond time line. */
  function Instant(dt: LocalDateTime): int {
    dt.date * NANOS_PER_DAY + dt.time
  }

  /** The date-time at a position of the time line. */
  function FromInstant(i: int): (r: LocalDateTime)
    ensures Instant(r) == i
  {
    LocalDateTime(i / NANOS_PER_DAY, i % NANOS_PER_DAY)
  }

  /** Two date-times at the same instant are the same date-time. */
  lemma InstantInjective(a: LocalDateTime, b: LocalDateTime)
    requires Instant(a) == Instant(b)
    ensures a == b
  {
    FromInstantOfInstant(a);
    FromInstantOfInstant(b);
  }

  /** The day and the time of day are recovered from the instant. */
  lemma FromInstantOfInstant(dt: LocalDateTime)
    ensures FromInstant(Instant(dt)) == dt
  {
    var i := Instant(dt);
    assert i / NANOS_PER_DAY == dt.date;
  }

  /** `LocalDateTime.plusNanos`, carrying into the date in either direction. */
  function PlusNanos(dt: LocalDateTime, n: int): (r: LocalDateTime)
    ensures Instant(r) == Instant(dt) + n
  {
    FromInstant(Instant(dt) + n)
  }

  /** `LocalDateTime.plusHours`. */
  function PlusHours(dt: LocalDateTime, hours: int): (r: LocalDateTime)
    ensures Instant(r) == Instant(dt) + hours * NANOS_PER_HOUR
  {
    PlusNanos(dt, hours * NANOS_PER_HOUR)
  }

  /** `LocalDateTime.plusMinutes`. */
  function PlusMinutes(dt: LocalDateTime, minutes: int): (r: LocalDateTime)
    ensures Instant(r) == Instant(dt) + minutes * NANOS_PER_MINUTE
  {
    PlusNanos(dt, minutes * NANOS_PER_MINUTE)
  }

  /** `Duration.between(start, end)`: the nanoseconds that take `start` to `end`. */
  function Between(start: LocalDateTime, end: LocalDateTime): (r: Duration)
    ensures PlusNanos(start, r) == end
  {
    FromInstantOfInstant(end);
    Instant(end) - Instant(start)
  }

  lemma BetweenAntisymmetric(a: LocalDateTime, b: LocalDateTime)
    ensures Between(a, b) == -Between(b, a)
    ensures Between(a, b) == 0 <==> a == b
  {
    if Between(a, b) == 0 {
      InstantInjective(a, b);
    }
  }

  /** `LocalDateTime.isBefore`: an earlier date, or the same date and an earlier time. */
  predicate IsBefore(a: LocalDateTime, b: LocalDateTime) {
    a.date < b.date || (a.date == b.date && a.time < b.time)
  }

  /** `LocalDateTime.isAfter`. */
  predicate IsAfter(a: LocalDateTime, b: LocalDateTime) {
    IsBefore(b, a)
  }

  /** The field-by-field order of `isBefore` is the order of the time line. */
  lemma IsBeforeInstant(a: LocalDateTime, b: LocalDateTime)
    ensures IsBefore(a, b) <==> Instant(a) < Instant(b)
  {
    if a.date < b.date {
      assert Instant(a) < (a.date + 1) * NANOS_PER_DAY <= Instant(b);
    } else if a.date > b.date {
      assert Instant(b) < (b.date + 1) * NANOS_PER_DAY <= Instant(a);
    }
  }

  /**
   `LocalTime.compareTo`, which compares hour, minute, second and nanosecond in turn and so orders
   times of day by their nanosecond of the day; the result is -1, 0 or 1.
   */
  function TimeCompare(a: NanoOfDay, b: NanoOfDay): (r: int)
    ensures r == -1 || r == 0 || r == 1
    ensures r < 0 <==> a < b
    ensures r == 0 <==> a == b
  {
    if a < b then -1 else if a > b then 1 else 0
  }

  // ---------------------------------------------------------------------------
  // Duration accessors

  /** `Duration.getSeconds`: whole seconds, rounded toward negative infinity. */
  function Seconds(d: Duration): (r: int)
    ensures r * NANOS_PER_SECOND <= d < r * NANOS_PER_SECOND + NANOS_PER_SECOND
  {
    d / NANOS_PER_SECOND
  }

  /** `Duration.getNano`: the nanoseconds left over after `Seconds`, never negative. */
  function NanoPart(d: Duration): (r: int)
    ensures 0 <= r < NANOS_PER_SECOND
    ensures d == Seconds(d) * NANOS_PER_SECOND + r
  {
    d % NANOS_PER_SECOND
  }

  /**
   `Duration.compareTo`: the seconds are compared first, and on a tie the difference of the
   nanosecond parts is returned.
   */
  function DurationCompare(a: Duration, b: Duration): int {
    if Seconds(a) < Seconds(b) then -1
    else if Seconds(a) > Seconds(b) then 1
    else NanoPart(a) - NanoPart(b)
  }

  /** The sign of `Duration.compareTo` is the sign of the difference of the two durations. */
  lemma DurationCompareSign(a: Duration, b: Duration)
    ensures DurationCompare(a, b) < 0 <==> a < b
    ensures DurationCompare(a, b) == 0 <==> a == b
    ensures DurationCompare(a, b) == -DurationCompare(b, a)
  {
    var sa, sb := Seconds(a), Seconds(b);
    if sa < sb {
      assert a < (sa + 1) * NANOS_PER_SECOND <= sb * NANOS_PER_SECOND <= b;
    } else if sa > sb {
      assert b < (sb + 1) * NANOS_PER_SECOND <= sa * NANOS_PER_SECOND <= a;
    }
  }

  /** `Duration.isNegative`. */
  predicate IsNegative(d: Duration) {
    d < 0
  }

  /** `Duration.abs`. */
  function DurationAbs(d: Duration): (r: Duration)
    ensures r >= 0 && (r == d || r == -d)
  {
    if d < 0 then -d else d
  }

  /** `Duration.toHours`: seconds divided by 3600 with Java's truncating division. */
  function ToHours(d: Duration): int {
    LongDiv(Seconds(d), 3600)
  }

  /** `Duration.toMinutes`: seconds divided by 60 with Java's truncating division. */
  function ToMinutes(d: Duration): int {
    LongDiv(Seconds(d), 60)
  }

  /** `Duration.toMinutesPart`: `toMinutes() % 60`, with Java's remainder. */
  function ToMinutesPart(d: Duration): int {
    LongRem(ToMinutes(d), 60)
  }

  /** `Duration.toSecondsPart`: `getSeconds() % 60`, with Java's remainder. */
  function ToSecondsPart(d: Duration): int {
    LongRem(Seconds(d), 60)
  }

  /**
   For a non-negative duration the hours, minutes part and seconds part are the usual clock
   reading: both parts lie in 0..59 and together they add back up to the whole seconds.
   */
  lemma {:induction false} DurationParts(d: Duration)
    requires d >= 0
    ensures 0 <= ToMinutesPart(d) < 60 && 0 <= ToSecondsPart(d) < 60 && ToHours(d) >= 0
    ensures ToHours(d) * 3600 + ToMinutesPart(d) * 60 + ToSecondsPart(d) == Seconds(d)
    ensures ToMinutes(d) * 60 + ToSecondsPart(d) == Seconds(d)
  {
    var s := Seconds(d);
    assert s >= 0;
    var mins := s / 60;
    assert ToMinutes(d) == mins;
    assert ToSecondsPart(d) == s % 60;
    assert ToMinutesPart(d) == mins % 60;
    assert ToHours(d) == s / 3600;
    assert s / 3600 == mins / 60;
  }

  // ---------------------------------------------------------------------------
  // Fields and formatting of a time of day

  function Hour(t: NanoOfDay): (r: int)
    ensures 0 <= r < 24
  {
    t / NANOS_PER_HOUR
  }

  function MinuteOfHour(t: NanoOfDay): (r: int)
    ensures 0 <= r < 60
  {
    (t / NANOS_PER_MINUTE) % 60
  }

  function SecondOfMinute(t: NanoOfDay): (r: int)
    ensures 0 <= r < 60
  {
    (t / NANOS_PER_SECOND) % 60
  }

  /** The clock-hour-of-am-pm field a `DateTimeFormatter` prints for `h`: 12, 1, 2, ... 11. */
  function ClockHourOfAmPm(t: NanoOfDay): (r: int)
    ensures 1 <= r <= 12
    ensures r % 12 == Hour(t) % 12
  {
    if Hour(t) % 12 == 0 then 12 else Hour(t) % 12
  }

  /** A `DateTimeFormatter` pattern letter group: a width of two pads with a leading zero. */
  function Padded(n: nat, twoWide: bool): string {
    if twoWide then ZeroPadded(n) else NatToString(n)
  }

  /** The pattern "hh:mm:ss": twelve-hour clock, every field two digits. */
  function FormatHhMmSs(dt: LocalDateTime): (r: string)
    ensures |r| == 8 && r[2] == ':' && r[5] == ':'
  {
    ZeroPaddedTwoDigits(ClockHourOfAmPm(dt.time));
    ZeroPaddedTwoDigits(MinuteOfHour(dt.time));
    ZeroPaddedTwoDigits(SecondOfMinute(dt.time));
    Padded(ClockHourOfAmPm(dt.time), true) + ":" + Padded(MinuteOfHour(dt.time), true) + ":"
      + Padded(SecondOfMinute(dt.time), true)
  }

  /** The pattern "h:mm": twelve-hour clock without padding, minutes two digits. */
  function FormatHMm(dt: LocalDateTime): (r: string)
    ensures |r| == 4 || |r| == 5
    ensures r[|r| - 3] == ':'
  {
    var h := ClockHourOfAmPm(dt.time);
    ZeroPaddedTwoDigits(MinuteOfHour(dt.time));
    assert |NatToString(h)| <= 2 by {
      if h >= 10 {
        assert NatToString(h) == NatToString(h / 10) + [DigitChar(h % 10)];
      }
    }
    Padded(h, false) + ":" + Padded(MinuteOfHour(dt.time), true)
  }
}
