/** `formatTime`: milliseconds shown as `M:SS` (src/lib/utils/time.js). */
module TimeFormat {
  import opened Wrappers

  predicate IsDigit(c: char) {
    '0' <= c <= '9'
  }

  predicate AllDigits(s: string) {
    forall k :: 0 <= k < |s| ==> IsDigit(s[k])
  }

  function DigitChar(d: nat): (c: char)
    requires d < 10
    ensures IsDigit(c) && c as int - '0' as int == d
  {
    ('0' as int + d) as char
  }

  /** `n.toString()` for a non-negative integer: its decimal digits, with no
      leading zero unless `n` is 0. */
  function Decimal(n: nat): (s: string)
    ensures |s| >= 1 && AllDigits(s)
    ensures n < 10 ==> |s| == 1
    ensures 10 <= n < 100 ==> |s| == 2
    ensures s[0] == '0' ==> n == 0
  {
    if n < 10 then [DigitChar(n)] else Decimal(n / 10) + [DigitChar(n % 10)]
  }

  /** The number a string of decimal digits denotes. */
  function DigitsValue(s: string): nat
    requires AllDigits(s)
  {
    if s == [] then 0 else DigitsValue(s[..|s| - 1]) * 10 + (s[|s| - 1] as int - '0' as int)
  }

  lemma {:induction false} DecimalRoundTrip(n: nat)
    ensures DigitsValue(Decimal(n)) == n
  {
    if n >= 10 {
      DecimalRoundTrip(n / 10);
      var s := Decimal(n);
      assert s[..|s| - 1] == Decimal(n / 10);
    }
  }

  /** A leading zero does not change the value of a digit string. */
  lemma {:induction false} LeadingZero(s: string)
    requires AllDigits(s)
    ensures AllDigits("0" + s) && DigitsValue("0" + s) == DigitsValue(s)
  {
    if s != [] {
      LeadingZero(s[..|s| - 1]);
      assert ("0" + s)[..|s|] == "0" + s[..|s| - 1];
    }
  }

  /** `n` zero characters. */
  function Zeros(n: nat): (z: string)
    ensures |z| == n
  {
    if n == 0 then "" else Zeros(n - 1) + "0"
  }

  /** `s.padStart(width, '0')`: zeros in front of `s` until it is `width` long. */
  function PadZeros(s: string, width: nat): (r: string)
    ensures |r| == if |s| >= width then |s| else width
    ensures |s| >= width ==> r == s
    ensures |s| < width ==> r == Zeros(width - |s|) + s
    decreases width - |s|
  {
    if |s| >= width then s
    else
      var r := PadZeros("0" + s, width);
      assert Zeros(width - |s| - 1) + ("0" + s) == Zeros(width - |s|) + s;
      r
  }

  /** `Math.floor(ms / 1000)`: the whole seconds in `ms`, the rest dropped. */
  function WholeSeconds(ms: real): (t: nat)
    requires ms >= 0.0
    ensures (t as real) * 1000.0 <= ms < ((t + 1) as real) * 1000.0
  {
    (ms / 1000.0).Floor
  }

  /** `Math.floor(total / 60)` and `total % 60` for a non-negative count. */
  function SplitMinutes(total: nat): (r: (nat, nat))
    ensures r.1 < 60 && r.0 * 60 + r.1 == total
  {
    (total / 60, total % 60)
  }

  /** The seconds field: `n.toString().padStart(2, '0')` for `n` below 60,
      two digits that read back as `n`. */
  function TwoDigits(n: nat): (r: string)
    requires n < 60
    ensures |r| == 2 && AllDigits(r)
    ensures DigitsValue(r) == n
  {
    var d := Decimal(n);
    DecimalRoundTrip(n);
    if |d| == 1 then
      LeadingZero(d);
      assert PadZeros(d, 2) == "0" + d;
      PadZeros(d, 2)
    else
      assert PadZeros(d, 2) == d;
      PadZeros(d, 2)
  }

  /** The text `minutes:SS`. */
  function ClockText(minutes: nat, seconds: nat): (r: string)
    requires seconds < 60
    ensures |r| >= 4 && r[|r| - 3] == ':'
    ensures AllDigits(r[..|r| - 3]) && AllDigits(r[|r| - 2..])
    ensures r[..|r| - 3] == Decimal(minutes) && r[|r| - 2..] == TwoDigits(seconds)
  {
    var m := Decimal(minutes);
    var p := TwoDigits(seconds);
    assert (m + ":" + p)[..|m|] == m;
    assert (m + ":" + p)[|m| + 1..] == p;
    m + ":" + p
  }

  /** `M:SS` for a whole number of seconds. */
  function Clock(total: nat): (r: string)
    ensures |r| >= 4 && r[|r| - 3] == ':'
    ensures AllDigits(r[..|r| - 3]) && AllDigits(r[|r| - 2..])
  {
    var split := SplitMinutes(total);
    ClockText(split.0, split.1)
  }

  /** `formatTime`. `None` stands for a value that is not a number, NaN
      included. Any input yields minutes, a colon and exactly two seconds
      digits. */
  function FormatTime(milliseconds: Option<real>): (r: string)
    ensures milliseconds.None? || milliseconds.value < 0.0 ==> r == "0:00"
    ensures |r| >= 4 && r[|r| - 3] == ':'
    ensures AllDigits(r[..|r| - 3]) && AllDigits(r[|r| - 2..])
  {
    if milliseconds.None? || milliseconds.value < 0.0 then "0:00"
    else Clock(WholeSeconds(milliseconds.value))
  }

  /** The number of minutes a clock text shows. */
  function MinutesShown(r: string): nat
    requires |r| >= 3 && AllDigits(r[..|r| - 3])
  {
    DigitsValue(r[..|r| - 3])
  }

  /** The number of seconds a clock text shows. */
  function SecondsShown(r: string): nat
    requires |r| >= 2 && AllDigits(r[|r| - 2..])
  {
    DigitsValue(r[|r| - 2..])
  }

  /** Reading a clock back: the seconds field is below 60 and minutes * 60 +
      seconds is the whole number of seconds shown; the minutes field is not
      capped at 59. */
  lemma ClockRoundTrip(total: nat)
    ensures SecondsShown(Clock(total)) < 60
    ensures MinutesShown(Clock(total)) * 60 + SecondsShown(Clock(total)) == total
  {
    var split := SplitMinutes(total);
    var r := ClockText(split.0, split.1);
    assert Clock(total) == r;
    DecimalRoundTrip(split.0);
    assert MinutesShown(r) == split.0;
    assert SecondsShown(r) == split.1;
  }

  /** `formatTime` round trip: the text read back is the whole number of
      seconds in the input, the sub-second remainder discarded. */
  lemma FormatTimeRoundTrip(ms: real)
    requires ms >= 0.0
    ensures SecondsShown(FormatTime(Some(ms))) < 60
    ensures MinutesShown(FormatTime(Some(ms))) * 60 + SecondsShown(FormatTime(Some(ms))) == WholeSeconds(ms)
    ensures (WholeSeconds(ms) as real) * 1000.0 <= ms < ((WholeSeconds(ms) + 1) as real) * 1000.0
  {
    ClockRoundTrip(WholeSeconds(ms));
  }
}
