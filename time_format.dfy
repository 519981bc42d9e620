/**
  `formatTime`, which music-player-bar.tsx and progress-bar.tsx both define
  word for word: seconds rendered as `m:ss`, with JavaScript's `Math.floor`,
  its `%` and its number-to-string conversion written out.
*/
module TimeFormat {

  function Digit(d: int): (c: char)
    requires 0 <= d < 10
    ensures '0' <= c <= '9' && c as int - '0' as int == d
  {
    ('0' as int + d) as char
  }

  /** How JavaScript prints a whole number (below 10^21) that is not negative. */
  function NatToDecimal(n: nat): (s: string)
    ensures |s| >= 1
    ensures forall i :: 0 <= i < |s| ==> '0' <= s[i] <= '9'
    ensures n < 10 <==> |s| == 1
    decreases n
  {
    if n < 10 then [Digit(n)] else NatToDecimal(n / 10) + [Digit(n % 10)]
  }

  /** How JavaScript prints a whole number (of magnitude below 10^21). */
  function IntToDecimal(i: int): (s: string)
    ensures i >= 0 ==> s == NatToDecimal(i)
    ensures i < 0 ==> s == "-" + NatToDecimal(-i)
  {
    if i < 0 then "-" + NatToDecimal(-i) else NatToDecimal(i)
  }

  /** The number a string of decimal digits denotes; the reading side of `NatToDecimal`. */
  function DecimalValue(s: string): int {
    if s == [] then 0 else DecimalValue(s[..|s| - 1]) * 10 + (s[|s| - 1] as int - '0' as int)
  }

  lemma {:induction false} DecimalRoundTrip(n: nat)
    ensures DecimalValue(NatToDecimal(n)) == n
  {
    if n >= 10 {
      var s := NatToDecimal(n);
      assert s[..|s| - 1] == NatToDecimal(n / 10);
      DecimalRoundTrip(n / 10);
    }
  }

  /** `Math.trunc` */
  function Trunc(x: real): (r: int)
    ensures x >= 0.0 ==> r == x.Floor
    ensures x < 0.0 ==> r == -((-x).Floor)
  {
    if x >= 0.0 then x.Floor else -((-x).Floor)
  }

  /** JavaScript's `%` on numbers: the remainder takes the sign of the dividend. */
  function JsRem(a: real, b: real): (r: real)
    requires b != 0.0
    ensures b > 0.0 && a >= 0.0 ==> 0.0 <= r < b
    ensures b > 0.0 && a < 0.0 ==> -b < r <= 0.0
  {
    JsRemBounds(a, b);
    a - b * Trunc(a / b) as real
  }

  /** The quotient `Math.trunc(a / b)` times `b` lies within `b` of `a`, on the side of zero. */
  lemma JsRemBounds(a: real, b: real)
    requires b != 0.0
    ensures var q := Trunc(a / b) as real;
            && (b > 0.0 && a >= 0.0 ==> b * q <= a < b * q + b)
            && (b > 0.0 && a < 0.0 ==> b * q - b < a <= b * q)
  {
    var q := Trunc(a / b) as real;
    if b > 0.0 {
      if a >= 0.0 {
        assert a / b >= 0.0;
        assert q <= a / b < q + 1.0;
        ScaleBetween(a, b, q, q + 1.0);
      } else {
        assert a / b < 0.0;
        assert q - 1.0 < a / b <= q;
        ScaleBetween(a, b, q - 1.0, q);
      }
    }
  }

  /** `lo <= a / b <= hi` for a positive `b` puts `a` between `b * lo` and `b * hi`. */
  lemma ScaleBetween(a: real, b: real, lo: real, hi: real)
    requires b > 0.0 && lo <= a / b <= hi
    ensures b * lo <= a <= b * hi
    ensures a / b < hi ==> a < b * hi
    ensures lo < a / b ==> b * lo < a
    ensures b * (lo + 1.0) == b * lo + b && b * (hi - 1.0) == b * hi - b
  {
    var x := a / b;
    assert b * x == a;
    assert b * (x - lo) >= 0.0 && b * (hi - x) >= 0.0;
    assert x < hi ==> b * (hi - x) > 0.0;
    assert lo < x ==> b * (x - lo) > 0.0;
  }

  /**
    `formatTime(seconds)`: for a time that is not negative, the whole minutes
    unpadded, a colon, and the whole seconds past the minute as two digits.
  */
  function FormatTime(seconds: real): (t: string)
    ensures seconds >= 0.0 ==>
              t == NatToDecimal((seconds / 60.0).Floor) + ":" + TwoDigits(seconds.Floor % 60)
  {
    var mins := (seconds / 60.0).Floor;
    var secs := JsRem(seconds, 60.0).Floor;
    var t := IntToDecimal(mins) + ":" + (if secs < 10 then "0" else "") + IntToDecimal(secs);
    assert seconds >= 0.0 ==> t == NatToDecimal((seconds / 60.0).Floor) + ":" + TwoDigits(seconds.Floor % 60) by {
      if seconds >= 0.0 {
        FormatTimeShape(seconds);
        MinutesAndSeconds(mins, secs, seconds.Floor);
      }
    }
    t
  }

  /** `n == m * 60 + s` with `s` in [0, 60) makes `s` the remainder of `n` by 60. */
  lemma MinutesAndSeconds(m: int, s: int, n: int)
    requires 0 <= s < 60 && m * 60 + s == n
    ensures n % 60 == s
  {
  }

  /** Two characters for a seconds count below 60. */
  function TwoDigits(n: int): (s: string)
    requires 0 <= n < 100
    ensures |s| == 2 && DecimalValue(s) == n
  {
    var s := [Digit(n / 10), Digit(n % 10)];
    assert [Digit(n / 10)][..0] == [];
    assert DecimalValue([Digit(n / 10)]) == n / 10;
    assert s[..1] == [Digit(n / 10)];
    s
  }

  /**
    For a time that is not negative, `formatTime` writes the whole minutes,
    a colon, and the remaining whole seconds (0 to 59) as exactly two digits,
    zero-padded below 10.
  */
  lemma FormatTimeShape(seconds: real)
    requires seconds >= 0.0
    ensures var mins := (seconds / 60.0).Floor;
            var secs := JsRem(seconds, 60.0).Floor;
            && mins >= 0 && 0 <= secs <= 59
            && mins * 60 + secs == seconds.Floor
            && IntToDecimal(mins) + ":" + (if secs < 10 then "0" else "") + IntToDecimal(secs)
               == NatToDecimal(mins) + ":" + TwoDigits(secs)
  {
    var mins := (seconds / 60.0).Floor;
    assert Trunc(seconds / 60.0) == mins;
    var rest := seconds - 60.0 * mins as real;
    assert 0.0 <= rest < 60.0;
    assert JsRem(seconds, 60.0) == rest;
    var secs := rest.Floor;
    assert seconds == rest + (60 * mins) as real;
    assert seconds.Floor == secs + 60 * mins;
    if secs >= 10 {
      assert NatToDecimal(secs) == NatToDecimal(secs / 10) + [Digit(secs % 10)];
    }
  }

  /** Reads an `m:ss` text back as a number of seconds. */
  function ClockSeconds(t: string): int {
    if |t| < 3 then 0 else DecimalValue(t[..|t| - 3]) * 60 + DecimalValue(t[|t| - 2..])
  }

  /** Reading the text back gives the whole number of seconds that was formatted. */
  lemma FormatTimeReadBack(seconds: real)
    requires seconds >= 0.0
    ensures |FormatTime(seconds)| >= 4 && FormatTime(seconds)[|FormatTime(seconds)| - 3] == ':'
    ensures ClockSeconds(FormatTime(seconds)) == seconds.Floor
  {
    FormatTimeShape(seconds);
    var mins := (seconds / 60.0).Floor;
    var secs := JsRem(seconds, 60.0).Floor;
    var t := FormatTime(seconds);
    assert t == NatToDecimal(mins) + ":" + TwoDigits(secs);
    assert t[..|t| - 3] == NatToDecimal(mins);
    assert t[|t| - 2..] == TwoDigits(secs);
    DecimalRoundTrip(mins);
  }
}
