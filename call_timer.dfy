/**
 * The call timer on the dialer screen: a counter of seconds that starts at
 * the duration it is given and goes up by one every second, shown as
 * `mm:ss`.
 */
module CallTimer {
  import opened Common

  /** JavaScript's `a % 60`: the remainder takes the sign of the dividend. */
  function Rem60(a: int): (r: int)
    ensures a >= 0 ==> r == a % 60
    ensures a < 0 ==> -60 < r <= 0 && (a - r) % 60 == 0
  {
    if a >= 0 then a % 60 else -((-a) % 60)
  }

  /** `s.padStart(2, '0')`. */
  function Pad2(s: string): (r: string)
    ensures |s| >= 2 ==> r == s
    ensures |s| < 2 ==> |r| == 2 && r[2 - |s|..] == s && forall i :: 0 <= i < 2 - |s| ==> r[i] == '0'
  {
    if |s| >= 2 then s
    else
      var r := (if |s| == 0 then "00" else "0") + s;
      assert r[2 - |s|..] == s;
      r
  }

  /** `formatTime(seconds)`: floored minutes and the JavaScript remainder, each padded to two digits. */
  function FormatTime(seconds: int): string {
    Pad2(IntToString(seconds / 60)) + ":" + Pad2(IntToString(Rem60(seconds)))
  }

  /** For a running timer the fields are whole minutes and seconds below sixty. */
  lemma FormatFields(seconds: int)
    requires seconds >= 0
    ensures 0 <= Rem60(seconds) < 60
    ensures (seconds / 60) * 60 + Rem60(seconds) == seconds
  {
  }

  /** A leading zero does not change the value of a string of digits. */
  lemma {:induction false} LeadingZero(s: string)
    requires forall i :: 0 <= i < |s| ==> IsDigit(s[i])
    ensures DigitsValue("0" + s) == DigitsValue(s)
    decreases |s|
  {
    if s != [] {
      var t := "0" + s;
      assert t[..|t| - 1] == "0" + s[..|s| - 1];
      LeadingZero(s[..|s| - 1]);
    }
  }

  /** A padded number reads back as itself. */
  lemma PadRoundTrip(n: nat)
    ensures forall i :: 0 <= i < |Pad2(NatToString(n))| ==> IsDigit(Pad2(NatToString(n))[i])
    ensures DigitsValue(Pad2(NatToString(n))) == n
    ensures n < 100 ==> |Pad2(NatToString(n))| == 2
  {
    NatToStringDigits(n);
    NatToStringRoundTrip(n);
    if n < 100 {
      NatToStringSmall(n);
    }
    if n < 10 {
      LeadingZero(NatToString(n));
      assert Pad2(NatToString(n)) == "0" + NatToString(n);
    }
  }

  /** A timer text: digits, a colon, and two more digits at the end. */
  predicate IsClockText(t: string) {
    && |t| >= 5 && t[|t| - 3] == ':'
    && (forall i :: 0 <= i < |t| && i != |t| - 3 ==> IsDigit(t[i]))
  }

  /** The number of seconds a timer text stands for: minutes before the colon, seconds after it. */
  function ClockValue(t: string): nat
    requires IsClockText(t)
  {
    DigitsValue(t[..|t| - 3]) * 60 + DigitsValue(t[|t| - 2..])
  }

  /** A text made of two digit fields around a colon. */
  lemma SplitFields(m: string, s: string)
    requires |m| >= 2 && |s| == 2
    requires forall i :: 0 <= i < |m| ==> IsDigit(m[i])
    requires forall i :: 0 <= i < |s| ==> IsDigit(s[i])
    ensures IsClockText(m + ":" + s)
    ensures ClockValue(m + ":" + s) == DigitsValue(m) * 60 + DigitsValue(s)
  {
    var t := m + ":" + s;
    assert t[..|t| - 3] == m && t[|t| - 2..] == s;
    forall i | 0 <= i < |t| && i != |t| - 3
      ensures IsDigit(t[i])
    {
      if i < |m| {
        assert t[i] == m[i];
      } else {
        assert t[i] == s[i - |m| - 1];
      }
    }
  }

  /**
   * For any non-negative duration the text is the minutes, a colon and two
   * digits of seconds, and reading the two fields back gives the duration.
   */
  lemma FormatRoundTrip(seconds: int)
    requires seconds >= 0
    ensures IsClockText(FormatTime(seconds))
    ensures ClockValue(FormatTime(seconds)) == seconds
  {
    var mins, secs := seconds / 60, seconds % 60;
    FormatNonNegative(seconds);
    PadRoundTrip(mins);
    PadRoundTrip(secs);
    SplitFields(Pad2(NatToString(mins)), Pad2(NatToString(secs)));
  }

  /** For a non-negative count both fields are printed without a sign. */
  lemma FormatNonNegative(seconds: int)
    requires seconds >= 0
    ensures FormatTime(seconds) == Pad2(NatToString(seconds / 60)) + ":" + Pad2(NatToString(seconds % 60))
  {
  }

  /** Under one hundred minutes the text is exactly `mm:ss`. */
  lemma FormatLength(seconds: int)
    requires 0 <= seconds < 6000
    ensures |FormatTime(seconds)| == 5
  {
    PadRoundTrip(seconds / 60);
    PadRoundTrip(seconds % 60);
  }

  lemma MinusOneText()
    ensures IntToString(-1) == "-1"
  {
    assert NatToString(1) == "1";
  }

  /** A negative count is not clamped: minus one second shows as `-1:-1`. */
  lemma FormatNegative()
    ensures FormatTime(-1) == "-1:-1"
  {
    var m, s := -1 / 60, Rem60(-1);
    assert m == -1;
    assert s == -1;
    MinusOneText();
    assert Pad2("-1") == "-1";
    assert FormatTime(-1) == Pad2(IntToString(m)) + ":" + Pad2(IntToString(s));
  }

  class Timer {
    var time: int

    /** `useState(duration || 0)`. */
    constructor (duration: Option<int>)
      ensures time == IntOr(duration, 0)
      ensures !IntTruthy(duration) ==> time == 0
    {
      time := IntOr(duration, 0);
    }

    /** One interval tick: `prev + 1`. */
    method Tick()
      modifies this
      ensures time == old(time) + 1
    {
      time := time + 1;
    }

    /** What the timer shows. */
    function Display(): string
      reads this
    {
      FormatTime(time)
    }
  }
}
