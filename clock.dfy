/**
 * The `mm:ss` display shared by the main timer (src/components/Timer.tsx) and
 * the floating widget (src/components/FloatingTimer.tsx): whole minutes and the
 * remaining seconds, each padded with a leading '0' when its decimal text has
 * a single character.
 */
module Clock {
  import opened Wrappers
  import opened Decimal

  /** JavaScript's `%`: the remainder takes the sign of the dividend. */
  function JsRem(a: int, b: int): (r: int)
    requires b > 0
    ensures -b < r < b
    ensures a >= 0 ==> r == a % b
  {
    if a >= 0 then a % b else -((-a) % b)
  }

  /** `formatTime(seconds)`; `Math.floor(s / 60)` is Dafny's `/` for a positive divisor. */
  function FormatClock(seconds: int): string {
    Pad2(seconds / 60) + ":" + Pad2(JsRem(seconds, 60))
  }

  /** Reads an `mm:ss` text back into seconds. */
  function ReadClock(r: string): Option<int> {
    if |r| == 5 && r[2] == ':' && AllDigits(r[..2]) && AllDigits(r[3..])
    then Some(DigitsValue(r[..2]) * 60 + DigitsValue(r[3..]))
    else None
  }

  /**
   * Below 100 minutes the display is exactly five characters, `mm:ss`, and
   * reads back to the same number of seconds.
   */
  lemma FormatClockRoundTrip(seconds: int)
    requires 0 <= seconds < 6000
    ensures |FormatClock(seconds)| == 5
    ensures FormatClock(seconds)[2] == ':'
    ensures ReadClock(FormatClock(seconds)) == Some(seconds)
  {
    var m, s := seconds / 60, seconds % 60;
    Pad2Digits(m);
    Pad2Digits(s);
    var r := FormatClock(seconds);
    assert r == Pad2(m) + ":" + Pad2(s);
    assert r[..2] == Pad2(m);
    assert r[3..] == Pad2(s);
  }

  /** From 100 minutes on, the minutes are printed in full and the text grows. */
  lemma FormatClockLong(seconds: int)
    requires seconds >= 6000
    ensures FormatClock(seconds) == IntToString(seconds / 60) + ":" + Pad2(seconds % 60)
    ensures |FormatClock(seconds)| > 5
  {
    Pad2Digits(seconds / 60);
    Pad2Digits(seconds % 60);
    assert |IntToString(seconds / 60)| >= 3 by {
      NatDigitsAtLeast3(seconds / 60);
    }
  }

  lemma NatDigitsAtLeast3(n: nat)
    requires n >= 100
    ensures |IntToString(n)| >= 3
  {
    assert IntToString(n) == NatToString(n / 10) + [DigitChar(n % 10)];
    assert n / 10 >= 10;
  }
}
