/** The `formattedTime` of the kick counter and the contraction timer:
    `String(format: "%02d:%02d", t / 60, t % 60)` for whole elapsed seconds,
    and the decimal digits it is made of. */
module TimeFormat {
  import opened Wrappers

  function DigitChar(d: int): (c: char)
    requires 0 <= d < 10
    ensures '0' <= c <= '9'
  {
    ('0' as int + d) as char
  }

  function DigitValue(c: char): int
  {
    c as int - '0' as int
  }

  predicate AllDigits(s: string)
  {
    forall i :: 0 <= i < |s| ==> '0' <= s[i] <= '9'
  }

  /** `%d` of a non-negative number: its decimal digits, no leading zero. */
  function Decimal(n: nat): (s: string)
    ensures |s| >= 1 && AllDigits(s)
    ensures n < 10 <==> |s| == 1
    ensures 10 <= n < 100 ==> |s| == 2
    decreases n
  {
    if n < 10 then [DigitChar(n)] else Decimal(n / 10) + [DigitChar(n % 10)]
  }

  /** `%02d`: at least two digits, padded with a leading zero. */
  function Pad2(n: nat): (s: string)
    ensures |s| >= 2 && AllDigits(s)
    ensures n < 100 ==> |s| == 2
  {
    if n < 10 then "0" + Decimal(n) else Decimal(n)
  }

  /** The number a string of decimal digits denotes. */
  function DecimalValue(s: string): int
    decreases |s|
  {
    if |s| == 0 then 0 else DecimalValue(s[..|s| - 1]) * 10 + DigitValue(s[|s| - 1])
  }

  /** Reading the digits back gives the number written. */
  lemma {:induction false} DecimalRoundTrip(n: nat)
    ensures DecimalValue(Decimal(n)) == n
    decreases n
  {
    if n >= 10 {
      DecimalRoundTrip(n / 10);
      var s := Decimal(n);
      assert s[..|s| - 1] == Decimal(n / 10);
    }
  }

  /** A leading zero does not change the number. */
  lemma {:induction false} LeadingZero(s: string)
    ensures DecimalValue("0" + s) == DecimalValue(s)
    decreases |s|
  {
    if |s| > 0 {
      LeadingZero(s[..|s| - 1]);
      assert ("0" + s)[..|"0" + s| - 1] == "0" + s[..|s| - 1];
    }
  }

  /** Reading a padded number back gives the number written. */
  lemma Pad2RoundTrip(n: nat)
    ensures DecimalValue(Pad2(n)) == n
  {
    DecimalRoundTrip(n);
    if n < 10 {
      LeadingZero(Decimal(n));
    }
  }

  /** `formattedTime`: minutes and seconds of the elapsed whole seconds. */
  function FormatClock(elapsed: nat): (s: string)
    ensures |s| >= 5 && s[|s| - 3] == ':'
    ensures AllDigits(s[..|s| - 3]) && AllDigits(s[|s| - 2..])
  {
    var minutes := elapsed / 60;
    var seconds := elapsed % 60;
    var s := Pad2(minutes) + ":" + Pad2(seconds);
    assert s[..|s| - 3] == Pad2(minutes);
    assert s[|s| - 2..] == Pad2(seconds);
    s
  }

  /** The elapsed seconds a clock string shows: minutes before the colon,
      seconds after it. */
  function ClockSeconds(s: string): int
    requires |s| >= 3
  {
    60 * DecimalValue(s[..|s| - 3]) + DecimalValue(s[|s| - 2..])
  }

  /** The two fields of "a:b" with a two-character `b`. */
  lemma ClockFields(a: string, b: string)
    requires |b| == 2
    ensures var s := a + ":" + b; |s| >= 3 && s[..|s| - 3] == a && s[|s| - 2..] == b
  {
    var s := a + ":" + b;
    assert s[..|s| - 3] == a;
    assert s[|s| - 2..] == b;
  }

  /** The clock shows exactly the elapsed time, its seconds field below 60:
      nothing is lost by splitting into `t / 60` and `t % 60`. */
  lemma FormatClockRoundTrip(elapsed: nat)
    ensures ClockSeconds(FormatClock(elapsed)) == elapsed
    ensures 0 <= DecimalValue(FormatClock(elapsed)[|FormatClock(elapsed)| - 2..]) < 60
  {
    var minutes, seconds := elapsed / 60, elapsed % 60;
    var a, b := Pad2(minutes), Pad2(seconds);
    ClockFields(a, b);
    assert FormatClock(elapsed) == a + ":" + b;
    Pad2RoundTrip(minutes);
    Pad2RoundTrip(seconds);
    assert ClockSeconds(a + ":" + b) == 60 * minutes + seconds;
  }

  /** Different elapsed times show different clocks. */
  lemma FormatClockInjective(a: nat, b: nat)
    ensures FormatClock(a) == FormatClock(b) ==> a == b
  {
    FormatClockRoundTrip(a);
    FormatClockRoundTrip(b);
  }
}
