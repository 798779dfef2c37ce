/** The `m:ss` clock text shown for a session's elapsed time and for a saved
    scream's duration: whole minutes, a colon, and the remaining seconds
    left-padded with '0' to two digits. */
module TimeFormat {
  import opened Options

  predicate IsDigit(c: char) {
    '0' <= c <= '9'
  }

  predicate AllDigits(s: string) {
    forall i :: 0 <= i < |s| ==> IsDigit(s[i])
  }

  function DigitChar(d: nat): (c: char)
    requires d < 10
    ensures IsDigit(c)
  {
    ('0' as int + d) as char
  }

  function DigitValue(c: char): (d: nat)
    requires IsDigit(c)
    ensures d < 10 && DigitChar(d) == c
  {
    c as int - '0' as int
  }

  /** `n.toString()` for a whole number: its decimal digits, most significant first. */
  function Decimal(n: nat): (r: string)
    ensures 1 <= |r| && AllDigits(r)
    ensures |r| == 1 <==> n < 10
    decreases n
  {
    if n < 10 then [DigitChar(n)] else Decimal(n / 10) + [DigitChar(n % 10)]
  }

  /** The number a string of decimal digits denotes. */
  function DecimalValue(s: string): nat
    requires AllDigits(s)
  {
    if |s| == 0 then 0 else DecimalValue(s[..|s| - 1]) * 10 + DigitValue(s[|s| - 1])
  }

  /** `s.padStart(width, c)`: prefix copies of `c` until `s` is `width` long. */
  function PadStart(s: string, width: nat, c: char): (r: string)
    ensures |s| >= width ==> r == s
    ensures |s| < width ==> r == seq(width - |s|, _ => c) + s
    decreases width - |s|
  {
    if |s| >= width then s else PadStart([c] + s, width, c)
  }

  /** The `${mins}:${secs.toString().padStart(2, '0')}` text for a number of seconds. */
  function MinSec(seconds: nat): string {
    Decimal(seconds / 60) + ":" + PadStart(Decimal(seconds % 60), 2, '0')
  }

  /** Reads a `m:ss` text back: digits, a colon, and exactly two digits below 60. */
  function ParseMinSec(s: string): Option<nat> {
    if |s| >= 4 && s[|s| - 3] == ':' && AllDigits(s[..|s| - 3]) && AllDigits(s[|s| - 2..])
       && DecimalValue(s[|s| - 2..]) < 60
    then Some(DecimalValue(s[..|s| - 3]) * 60 + DecimalValue(s[|s| - 2..]))
    else None
  }

  lemma {:induction false} DecimalRoundTrip(n: nat)
    ensures DecimalValue(Decimal(n)) == n
    decreases n
  {
    if n >= 10 {
      DecimalRoundTrip(n / 10);
      var s := Decimal(n);
      assert s[..|s| - 1] == Decimal(n / 10);
    }
  }

  /** Zero-padding does not change the value a digit string denotes. */
  lemma {:induction false} LeadingZeroValue(s: string)
    requires AllDigits(s)
    ensures AllDigits("0" + s) && DecimalValue("0" + s) == DecimalValue(s)
    decreases |s|
  {
    if |s| > 0 {
      LeadingZeroValue(s[..|s| - 1]);
      assert ("0" + s)[..|s|] == "0" + s[..|s| - 1];
    }
  }

  /** The seconds field always has exactly two digits and denotes `seconds % 60`. */
  lemma SecondsField(seconds: nat)
    ensures var f := PadStart(Decimal(seconds % 60), 2, '0');
      |f| == 2 && AllDigits(f) && DecimalValue(f) == seconds % 60
  {
    var d := Decimal(seconds % 60);
    DecimalRoundTrip(seconds % 60);
    assert seconds % 60 >= 10 ==> |d| == 2 by {
      if seconds % 60 >= 10 { assert d == Decimal(seconds % 60 / 10) + [DigitChar(seconds % 60 % 10)]; }
    }
    if |d| < 2 {
      assert PadStart(d, 2, '0') == "0" + d;
      LeadingZeroValue(d);
    }
  }

  /** Reading back a minutes field, a colon and a two-digit seconds field. */
  lemma ParseJoined(m: string, f: string)
    requires 1 <= |m| && AllDigits(m)
    requires |f| == 2 && AllDigits(f) && DecimalValue(f) < 60
    ensures ParseMinSec(m + ":" + f) == Some(DecimalValue(m) * 60 + DecimalValue(f))
  {
    var s := m + ":" + f;
    assert |s| >= 4 && s[|s| - 3] == ':';
    assert s[..|s| - 3] == m && s[|s| - 2..] == f;
  }

  /** The clock text determines the number of seconds: reading it back gives
      `seconds`, so the minutes are `seconds / 60` and the field after the
      colon is `seconds % 60`, two digits wide. */
  lemma MinSecRoundTrip(seconds: nat)
    ensures ParseMinSec(MinSec(seconds)) == Some(seconds)
  {
    var mins, secs := seconds / 60, seconds % 60;
    SecondsField(seconds);
    DecimalRoundTrip(mins);
    ParseJoined(Decimal(mins), PadStart(Decimal(secs), 2, '0'));
  }

  /** Under a minute the text is `0:ss`. */
  lemma UnderAMinute(seconds: nat)
    requires seconds < 60
    ensures MinSec(seconds)[..2] == "0:"
    ensures |MinSec(seconds)| == 4
  {
    SecondsField(seconds);
    assert seconds / 60 == 0;
    var f := PadStart(Decimal(seconds % 60), 2, '0');
    assert MinSec(seconds) == "0:" + f;
  }
}
