/**
 * The time scaler: conversions between simulation minutes and wall-clock
 * seconds under a scale of `unit` simulation minutes per real second, and the
 * `HH:MM` rendering of an elapsed wall-clock span.
 *
 * Python floats are modelled as exact `real`s; Python ints as `int`s.
 */
module TimeConverter {
  import opened Wrappers

  const NonPositiveUnitMessage := "sim_time_unit must be positive integer"
  const CurrBeforeStartMessage := "curr_unix_time must be greater than unix_time_start"

  // ---------------------------------------------------------------------
  // Rounding: Python's round() on a float is roundTiesToEven
  // (section 4.3.1 of IEEE 754-2008).
  // ---------------------------------------------------------------------

  /** n is a nearest integer to x and, on an exact tie, the even one. */
  ghost predicate IsRoundTiesToEven(x: real, n: int) {
    x - 0.5 <= n as real <= x + 0.5 &&
    ((n as real == x - 0.5 || n as real == x + 0.5) ==> n % 2 == 0)
  }

  /** Python's round(x) for a float x. */
  function Round(x: real): (n: int)
    ensures IsRoundTiesToEven(x, n)
  {
    var f := x.Floor;
    var d := x - f as real;
    if d < 0.5 then f
    else if d > 0.5 then f + 1
    else if f % 2 == 0 then f
    else f + 1
  }

  /** roundTiesToEven has exactly one answer, so Round is that answer. */
  lemma RoundIsUnique(x: real, n: int)
    requires IsRoundTiesToEven(x, n)
    ensures n == Round(x)
  {
  }

  // ---------------------------------------------------------------------
  // Minutes <-> seconds
  // ---------------------------------------------------------------------

  /** convert_sim_time_to_real_time_in_sec: minutes / unit, rejecting unit <= 0. */
  function SimToRealSeconds(minutes: int, unit: int): (r: Result<real, PyError>)
    ensures r.Failure? <==> unit <= 0
    ensures r.Failure? ==> r.error == ValueError(NonPositiveUnitMessage)
    ensures r.Success? ==> r.value * unit as real == minutes as real
  {
    if unit <= 0 then Failure(ValueError(NonPositiveUnitMessage))
    else Success(minutes as real / unit as real)
  }

  /** convert_real_time_to_sim_time: round(realTime * unit), rejecting unit <= 0. */
  function RealToSimMinutes(realTime: real, unit: int): (r: Result<int, PyError>)
    ensures r.Failure? <==> unit <= 0
    ensures r.Failure? ==> r.error == ValueError(NonPositiveUnitMessage)
    ensures r.Success? ==> IsRoundTiesToEven(realTime * unit as real, r.value)
  {
    if unit <= 0 then Failure(ValueError(NonPositiveUnitMessage))
    else Success(Round(realTime * unit as real))
  }

  /** Whole minutes survive a trip to seconds and back exactly. */
  lemma SimRealRoundTrip(minutes: int, unit: int)
    requires unit > 0
    ensures SimToRealSeconds(minutes, unit).Success?
    ensures RealToSimMinutes(SimToRealSeconds(minutes, unit).value, unit) == Success(minutes)
  {
  }

  /** Seconds that go to minutes and back move by at most half a minute's worth of seconds. */
  lemma RealSimRoundTrip(realTime: real, unit: int)
    requires unit > 0
    ensures RealToSimMinutes(realTime, unit).Success?
    ensures var back := SimToRealSeconds(RealToSimMinutes(realTime, unit).value, unit);
            back.Success? &&
            -0.5 <= (back.value - realTime) * unit as real <= 0.5
  {
  }

  // ---------------------------------------------------------------------
  // Timestamp rendering
  // ---------------------------------------------------------------------

  /** Python's int() on a float: truncation toward zero. */
  function Truncate(x: real): (n: int)
    ensures 0.0 <= x ==> 0 <= n && n as real <= x < n as real + 1.0
    ensures x < 0.0 ==> n <= 0 && n as real - 1.0 < x <= n as real
  {
    if x >= 0.0 then x.Floor else -((-x).Floor)
  }

  predicate IsDigit(c: char) {
    '0' <= c <= '9'
  }

  predicate AllDigits(s: string) {
    forall i :: 0 <= i < |s| ==> IsDigit(s[i])
  }

  function DigitValue(c: char): (d: nat)
    requires IsDigit(c)
    ensures d < 10
  {
    c as int - '0' as int
  }

  function DigitChar(d: nat): (c: char)
    requires d < 10
    ensures IsDigit(c) && DigitValue(c) == d
  {
    ('0' as int + d) as char
  }

  /** The decimal numeral of n, without leading zeros (Python's str of a non-negative int). */
  function Decimal(n: nat): (s: string)
    ensures AllDigits(s)
    ensures 1 <= |s|
    ensures |s| == 1 <==> n < 10
    ensures n < 100 ==> |s| <= 2
    ensures n >= 10 ==> s[0] != '0'
  {
    if n < 10 then [DigitChar(n)] else Decimal(n / 10) + [DigitChar(n % 10)]
  }

  /** The value of a string of decimal digits. */
  function ParseDecimal(s: string): nat
    requires AllDigits(s)
  {
    if s == [] then 0 else 10 * ParseDecimal(s[..|s| - 1]) + DigitValue(s[|s| - 1])
  }

  lemma {:induction false} DecimalRoundTrip(n: nat)
    ensures ParseDecimal(Decimal(n)) == n
  {
    if n >= 10 {
      var s := Decimal(n);
      assert s[..|s| - 1] == Decimal(n / 10);
      DecimalRoundTrip(n / 10);
    }
  }

  /** A leading zero does not change the value of a numeral. */
  lemma {:induction false} LeadingZero(s: string)
    requires AllDigits(s)
    ensures AllDigits(['0'] + s) && ParseDecimal(['0'] + s) == ParseDecimal(s)
  {
    var t := ['0'] + s;
    if s != [] {
      assert t[..|t| - 1] == ['0'] + s[..|s| - 1];
      LeadingZero(s[..|s| - 1]);
    }
  }

  /** Python's f"{n:02d}" for a non-negative int: at least two digits, zero-padded. */
  function ZeroPad2(n: nat): (s: string)
    ensures AllDigits(s)
    ensures 2 <= |s|
    ensures n < 100 ==> |s| == 2
    ensures n >= 10 ==> s == Decimal(n)
  {
    if n < 10 then ['0'] + Decimal(n) else Decimal(n)
  }

  lemma ZeroPad2Value(n: nat)
    ensures ParseDecimal(ZeroPad2(n)) == n
  {
    DecimalRoundTrip(n);
    if n < 10 {
      LeadingZero(Decimal(n));
    }
  }

  /** The f-string of time_converter.py: hours, ':', minutes, each :02d. */
  function FormatHHMM(minutes: nat): string {
    ZeroPad2(minutes / 60) + ":" + ZeroPad2(minutes % 60)
  }

  /**
   * Reads an `HH:MM` timestamp back: at least two hour digits, ':', exactly
   * two minute digits below 60; the result is 60 * HH + MM.
   */
  function ParseTimestamp(s: string): Option<nat> {
    if |s| >= 5 && s[|s| - 3] == ':' && AllDigits(s[..|s| - 3]) && AllDigits(s[|s| - 2..])
       && ParseDecimal(s[|s| - 2..]) < 60
    then Some(60 * ParseDecimal(s[..|s| - 3]) + ParseDecimal(s[|s| - 2..]))
    else None
  }

  /** The shape of a rendered timestamp: HH (two or more digits), ':', MM (two digits, 00..59). */
  lemma FormatHHMMParts(minutes: nat)
    ensures var s := FormatHHMM(minutes);
            |s| >= 5 && s[|s| - 3] == ':' &&
            AllDigits(s[..|s| - 3]) && ParseDecimal(s[..|s| - 3]) == minutes / 60 &&
            AllDigits(s[|s| - 2..]) && ParseDecimal(s[|s| - 2..]) == minutes % 60 &&
            ParseDecimal(s[|s| - 2..]) < 60
  {
    var s := FormatHHMM(minutes);
    var hh, mm := ZeroPad2(minutes / 60), ZeroPad2(minutes % 60);
    assert s[..|s| - 3] == hh;
    assert s[|s| - 2..] == mm;
    ZeroPad2Value(minutes / 60);
    ZeroPad2Value(minutes % 60);
  }

  lemma FormatHHMMRoundTrip(minutes: nat)
    ensures ParseTimestamp(FormatHHMM(minutes)) == Some(minutes)
  {
    FormatHHMMParts(minutes);
  }

  /** convert_unix_time_to_sim_timestamp: the elapsed span in simulation minutes as HH:MM. */
  function Timestamp(unixTimeStart: real, currUnixTime: real, unit: int): (r: Result<string, PyError>)
    ensures r.Success? <==> unit > 0 && unixTimeStart <= currUnixTime
    ensures unit <= 0 ==> r == Failure(ValueError(NonPositiveUnitMessage))
    ensures unit > 0 && currUnixTime < unixTimeStart ==> r == Failure(ValueError(CurrBeforeStartMessage))
  {
    if unit <= 0 then Failure(ValueError(NonPositiveUnitMessage))
    else if currUnixTime < unixTimeStart then Failure(ValueError(CurrBeforeStartMessage))
    else
      var elapsed := (currUnixTime - unixTimeStart) * unit as real;
      Success(FormatHHMM(Truncate(elapsed)))
  }

  /**
   * A rendered timestamp parses back to the whole number of simulation
   * minutes in the elapsed span: the largest m with m <= (curr - start) * unit.
   */
  lemma TimestampRoundTrip(unixTimeStart: real, currUnixTime: real, unit: int)
    requires unit > 0 && unixTimeStart <= currUnixTime
    ensures Timestamp(unixTimeStart, currUnixTime, unit).Success?
    ensures var p := ParseTimestamp(Timestamp(unixTimeStart, currUnixTime, unit).value);
            p.Some? &&
            p.value as real <= (currUnixTime - unixTimeStart) * unit as real < p.value as real + 1.0
  {
    var elapsed := (currUnixTime - unixTimeStart) * unit as real;
    var minutes := elapsed.Floor;
    TimestampOfWholeMinutes(unixTimeStart, currUnixTime, unit, minutes);
    FormatHHMMRoundTrip(minutes);
  }

  /**
   * The timestamp of a span renders the floor of its length in simulation
   * minutes: int() truncation and the floor agree on a non-negative span.
   */
  lemma TimestampOfWholeMinutes(unixTimeStart: real, currUnixTime: real, unit: int, minutes: int)
    requires unit > 0 && unixTimeStart <= currUnixTime
    requires minutes == ((currUnixTime - unixTimeStart) * unit as real).Floor
    ensures 0 <= minutes
    ensures Timestamp(unixTimeStart, currUnixTime, unit) == Success(FormatHHMM(minutes))
  {
    var span := currUnixTime - unixTimeStart;
    assert 0.0 <= span * unit as real by {
      assert 0.0 <= span && 0.0 < unit as real;
    }
  }

  /** The conversions on the values the unit tests of this module use. */
  lemma ConversionExamples()
    ensures SimToRealSeconds(10, 1) == Success(10.0)
    ensures SimToRealSeconds(0, 1) == Success(0.0)
    ensures SimToRealSeconds(1, 10) == Success(0.1)
    ensures SimToRealSeconds(10, 2) == Success(5.0)
    ensures SimToRealSeconds(50, 5) == Success(10.0)
    ensures SimToRealSeconds(10, 0).Failure? && SimToRealSeconds(10, -2).Failure?
  {
  }

  lemma TimestampExamples()
    ensures Timestamp(1000.0, 1000.0, 1) == Success("00:00")
    ensures Timestamp(1000.0, 1060.0, 1) == Success("01:00")
    ensures Timestamp(1000.0, 1090.0, 1) == Success("01:30")
    ensures Timestamp(1000.0, 1030.0, 2) == Success("01:00")
    ensures Timestamp(1000.0, 1090.0, 5) == Success("07:30")
    ensures Timestamp(1000.0, 1050.0, 0).Failure? && Timestamp(1000.0, 1050.0, -1).Failure?
    ensures Timestamp(100.0, 50.0, 1) == Failure(ValueError(CurrBeforeStartMessage))
  {
    assert FormatHHMM(0) == "00:00";
    assert FormatHHMM(60) == "01:00";
    assert FormatHHMM(90) == "01:30";
    assert FormatHHMM(450) == "07:30";
    TimestampOfWholeMinutes(1000.0, 1000.0, 1, 0);
    TimestampOfWholeMinutes(1000.0, 1060.0, 1, 60);
    TimestampOfWholeMinutes(1000.0, 1090.0, 1, 90);
    TimestampOfWholeMinutes(1000.0, 1030.0, 2, 60);
    TimestampOfWholeMinutes(1000.0, 1090.0, 5, 450);
  }
}
