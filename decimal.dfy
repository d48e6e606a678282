/** Decimal text for non-negative integers, as JavaScript's `toString()` and
    `padStart(2, '0')` produce it, and the `MM:SS` clock text that two of the
    screens show. */
module Decimal {
  import opened Base

  predicate IsDigit(c: char) {
    '0' <= c <= '9'
  }

  predicate AllDigits(s: string) {
    forall i | 0 <= i < |s| :: IsDigit(s[i])
  }

  function DigitChar(d: nat): (c: char)
    requires d < 10
    ensures IsDigit(c)
  {
    "0123456789"[d]
  }

  function DigitValue(c: char): (d: nat)
    requires IsDigit(c)
    ensures d < 10
  {
    c as int - '0' as int
  }

  /** `n.toString()`: the decimal digits of `n`, most significant first. */
  function NatToString(n: nat): (r: string)
    ensures |r| >= 1 && AllDigits(r)
  {
    if n < 10 then [DigitChar(n)] else NatToString(n / 10) + [DigitChar(n % 10)]
  }

  /** The number a string of decimal digits denotes (the empty string is 0). */
  function DigitsValue(s: string): nat
    requires AllDigits(s)
  {
    if |s| == 0 then 0 else DigitsValue(s[..|s| - 1]) * 10 + DigitValue(s[|s| - 1])
  }

  /** Reading back the text of `n` gives `n`. */
  lemma {:induction false} NatToStringValue(n: nat)
    ensures DigitsValue(NatToString(n)) == n
  {
    if n >= 10 {
      NatToStringValue(n / 10);
      var r := NatToString(n);
      assert r[..|r| - 1] == NatToString(n / 10);
    }
  }

  /** Different numbers have different texts. */
  lemma NatToStringInjective(a: nat, b: nat)
    requires NatToString(a) == NatToString(b)
    ensures a == b
  {
    NatToStringValue(a);
    NatToStringValue(b);
  }

  /** One digit below ten, two digits from ten to ninety-nine, more above. */
  lemma {:induction false} NatToStringLength(n: nat)
    ensures n < 10 <==> |NatToString(n)| == 1
    ensures 10 <= n < 100 <==> |NatToString(n)| == 2
  {
    if n >= 10 {
      NatToStringLength(n / 10);
    }
  }

  /** The text of `n` starts with `0` only when `n` is 0: `toString()`
      writes no leading zeros. */
  lemma {:induction false} NatToStringLeadingZero(n: nat)
    ensures NatToString(n)[0] == '0' <==> n == 0
  {
    if n >= 10 {
      NatToStringLeadingZero(n / 10);
    }
  }

  /** `n.toString().padStart(2, '0')`. */
  function TwoDigits(n: nat): (r: string)
    ensures AllDigits(r)
  {
    var t := NatToString(n);
    if |t| < 2 then "0" + t else t
  }

  /** The padded text still denotes `n`; it is exactly two characters long
      when `n` is below 100 and longer otherwise (it is never truncated). */
  lemma TwoDigitsValue(n: nat)
    ensures DigitsValue(TwoDigits(n)) == n
    ensures |TwoDigits(n)| >= 2
    ensures |TwoDigits(n)| == 2 <==> n < 100
  {
    NatToStringValue(n);
    NatToStringLength(n);
    var r := TwoDigits(n);
    if n < 10 {
      assert r[..1] == "0";
    }
  }

  /** `MM:SS` text of a number of seconds: padded whole minutes, a colon,
      padded remaining seconds. Minutes are not capped. */
  function MinutesSeconds(seconds: nat): string {
    TwoDigits(seconds / 60) + ":" + TwoDigits(seconds % 60)
  }

  /** Reads `MM:SS` text back: digits, a colon, two digits below 60. */
  function ParseMinutesSeconds(t: string): Option<nat> {
    if |t| >= 4 && t[|t| - 3] == ':' && AllDigits(t[..|t| - 3]) && AllDigits(t[|t| - 2..])
       && DigitsValue(t[|t| - 2..]) < 60
    then Some(DigitsValue(t[..|t| - 3]) * 60 + DigitsValue(t[|t| - 2..]))
    else None
  }

  /** The clock text reads back as the number of seconds it was made from,
      and it is five characters long exactly below 100 minutes. The minutes
      start with a zero exactly below ten minutes, and from 100 minutes on
      they are the plain text of the minutes, never padded. */
  lemma MinutesSecondsRoundTrip(seconds: nat)
    ensures ParseMinutesSeconds(MinutesSeconds(seconds)) == Some(seconds)
    ensures |MinutesSeconds(seconds)| == 5 <==> seconds < 6000
    ensures MinutesSeconds(seconds)[0] == '0' <==> seconds < 600
    ensures seconds >= 6000 ==> MinutesSeconds(seconds)[..|MinutesSeconds(seconds)| - 3] == NatToString(seconds / 60)
  {
    var m, s := TwoDigits(seconds / 60), TwoDigits(seconds % 60);
    TwoDigitsValue(seconds / 60);
    TwoDigitsValue(seconds % 60);
    NatToStringLength(seconds / 60);
    NatToStringLeadingZero(seconds / 60);
    var t := MinutesSeconds(seconds);
    assert t[..|t| - 3] == m;
    assert t[|t| - 3] == ':';
    assert t[|t| - 2..] == s;
    assert t[0] == m[0];
  }
}
