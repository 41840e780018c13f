/** The arithmetic of the audio player's periodic update: the `mm:ss` clock string shown
    under the slider and the slider's percentage. */
module AudioClock {

  /** What `parseInt` gives for the non-negative numbers the player reads: a whole number, or
      NaN (an unknown duration, or a division by a zero duration). */
  datatype Parsed = Int(value: nat) | NaN

  predicate IsDigit(c: char) {
    '0' <= c <= '9'
  }

  predicate AllDigits(s: string) {
    forall k :: 0 <= k < |s| ==> IsDigit(s[k])
  }

  function DigitChar(d: nat): (c: char)
    requires d < 10
    ensures IsDigit(c)
  {
    ('0' as int + d) as char
  }

  function DigitValue(c: char): (d: nat)
    requires IsDigit(c)
    ensures d < 10 && DigitChar(d) == c
  {
    c as int - '0' as int
  }

  /** The decimal numeral of `n`, as `'' + n` writes it: digits only, no leading zero. */
  function Decimal(n: nat): (s: string)
    ensures 1 <= |s| && AllDigits(s)
    ensures |s| > 1 ==> s[0] != '0'
    decreases n
  {
    if n < 10 then [DigitChar(n)] else Decimal(n / 10) + [DigitChar(n % 10)]
  }

  /** The number a string of decimal digits denotes. */
  function NumeralValue(s: string): nat
    requires AllDigits(s)
    decreases |s|
  {
    if s == [] then 0 else 10 * NumeralValue(s[..|s| - 1]) + DigitValue(s[|s| - 1])
  }

  /** Reading back a numeral gives the number written. */
  lemma {:induction false} DecimalRoundTrip(n: nat)
    ensures NumeralValue(Decimal(n)) == n
    decreases n
  {
    if n >= 10 {
      DecimalRoundTrip(n / 10);
      var s := Decimal(n);
      assert s[..|s| - 1] == Decimal(n / 10);
    }
  }

  /** A numeral has one digit exactly below 10 and two digits exactly from 10 to 99. */
  lemma {:induction false} DecimalLength(n: nat)
    ensures |Decimal(n)| == 1 <==> n < 10
    ensures |Decimal(n)| == 2 <==> 10 <= n < 100
    decreases n
  {
    if n >= 10 {
      DecimalLength(n / 10);
    }
  }

  /** A two-digit string with a leading zero denotes its last digit. */
  lemma LeadingZero(s: string)
    requires |s| == 1 && AllDigits(s)
    ensures AllDigits("0" + s) && NumeralValue("0" + s) == NumeralValue(s)
  {
    assert ("0" + s)[..1] == "0";
  }

  /** The seconds field: `currentTime % 60` in decimal, padded to two digits. */
  function SecondsField(currentTime: nat): (s: string)
    ensures |s| == 2 && AllDigits(s)
    ensures NumeralValue(s) == currentTime % 60
  {
    var d := Decimal(currentTime % 60);
    DecimalLength(currentTime % 60);
    DecimalRoundTrip(currentTime % 60);
    if |d| == 1 then LeadingZero(d); "0" + d else d
  }

  /** The minutes field: the whole minutes padded to two digits, or "99" once they have more
      than two digits. */
  function MinutesField(currentTime: nat): (m: string)
    ensures |m| == 2 && AllDigits(m)
    ensures currentTime / 60 < 100 ==> NumeralValue(m) == currentTime / 60
    ensures currentTime / 60 >= 100 ==> m == "99"
  {
    var d := Decimal(currentTime / 60);
    DecimalLength(currentTime / 60);
    DecimalRoundTrip(currentTime / 60);
    if |d| == 1 then LeadingZero(d); "0" + d
    else if |d| > 2 then "99"
    else d
  }

  /** A clock string: two digits, a colon, two digits of seconds below 60. */
  predicate IsClockString(t: string) {
    |t| == 5 && t[2] == ':' && AllDigits(t[..2]) && AllDigits(t[3..]) && NumeralValue(t[3..]) < 60
  }

  /** The time shown for `currentTime` whole seconds. */
  function ClockString(currentTime: nat): (t: string)
    ensures IsClockString(t)
    ensures NumeralValue(t[3..]) == currentTime % 60
    ensures currentTime / 60 < 100 ==> NumeralValue(t[..2]) == currentTime / 60
    ensures currentTime / 60 >= 100 ==> t[..2] == "99"
  {
    var m := MinutesField(currentTime);
    var s := SecondsField(currentTime);
    assert (m + ":" + s)[..2] == m && (m + ":" + s)[3..] == s;
    m + ":" + s
  }

  /** The clock starts at the string the player shows before it plays and after a reset. */
  lemma ClockStartsAtZero()
    ensures ClockString(0) == "00:00"
  {
    assert Decimal(0) == "0";
  }

  /** Below 100 minutes the clock string determines the time; from 100 minutes on only the
      seconds still change. */
  lemma ClockStringDetermines(a: nat, b: nat)
    requires ClockString(a) == ClockString(b)
    ensures a % 60 == b % 60
    ensures a < 6000 && b < 6000 ==> a == b
  {
    assert ClockString(a)[3..] == ClockString(b)[3..];
    if a < 6000 && b < 6000 {
      assert ClockString(a)[..2] == ClockString(b)[..2];
    }
  }

  /** The slider percentage `parseInt(100 * currentTime / duration)`: the truncated quotient, or
      NaN when the duration is unknown or zero. */
  function SliderValue(currentTime: nat, duration: Parsed): (r: Parsed)
    ensures r.Int? <==> duration.Int? && duration.value > 0
    ensures r.Int? ==>
      r.value * duration.value <= 100 * currentTime < (r.value + 1) * duration.value
  {
    if duration.NaN? || duration.value == 0 then NaN
    else Int(100 * currentTime / duration.value)
  }

  /** While the playback time is within a known, positive duration the slider stays within
      0 to 100. */
  lemma SliderWithinPercent(currentTime: nat, duration: nat)
    requires 0 < duration && currentTime <= duration
    ensures SliderValue(currentTime, Int(duration)).Int?
    ensures SliderValue(currentTime, Int(duration)).value <= 100
  {
    var r := SliderValue(currentTime, Int(duration)).value;
    assert r * duration <= 100 * duration;
    CancelFactor(r, 100, duration);
  }

  /** At the end of a known, positive duration the slider is at 100. */
  lemma SliderFullAtEnd(duration: nat)
    requires 0 < duration
    ensures SliderValue(duration, Int(duration)) == Int(100)
  {
    var e := SliderValue(duration, Int(duration)).value;
    assert e * duration <= 100 * duration < (e + 1) * duration;
    CancelFactor(e, 100, duration);
    StrictCancelFactor(100, e + 1, duration);
  }

  lemma CancelFactor(a: int, b: int, d: int)
    requires 0 < d && a * d <= b * d
    ensures a <= b
  {
    assert (b - a) * d == b * d - a * d;
  }

  lemma StrictCancelFactor(a: int, b: int, d: int)
    requires 0 < d && a * d < b * d
    ensures a < b
  {
    assert (b - a) * d == b * d - a * d;
  }
}
