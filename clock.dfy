/** Number-to-text and rounding helpers shared by the screens: the decimal
    rendering of `Number.prototype.toString` on non-negative integers,
    `String.prototype.padStart(2, '0')`, `Math.ceil`, `Math.round`, and the
    `m:ss` / `h:mm:ss` countdown renderings built from them. */
module Clock {

  /** The decimal digit character for 0 <= d < 10. */
  function DigitChar(d: nat): (c: char)
    requires d < 10
    ensures '0' <= c <= '9'
  {
    "0123456789"[d]
  }

  predicate IsDigit(c: char) { '0' <= c <= '9' }

  predicate AllDigits(s: string) { forall i :: 0 <= i < |s| ==> IsDigit(s[i]) }

  function DigitValue(c: char): nat
    requires IsDigit(c)
  {
    (c as int) - ('0' as int)
  }

  /** `n.toString()` for a non-negative integer: no sign, no leading zeros. */
  function NatToString(n: nat): (s: string)
    ensures |s| >= 1 && AllDigits(s)
    ensures n < 10 <==> |s| == 1
    ensures |s| > 1 ==> s[0] != '0'
    decreases n
  {
    if n < 10 then [DigitChar(n)] else NatToString(n / 10) + [DigitChar(n % 10)]
  }

  /** The value of a string of decimal digits (the empty string reads as 0). */
  function ParseNat(s: string): nat
    requires AllDigits(s)
    decreases |s|
  {
    if |s| == 0 then 0 else ParseNat(s[..|s| - 1]) * 10 + DigitValue(s[|s| - 1])
  }

  lemma DigitCharValue(d: nat)
    requires d < 10
    ensures IsDigit(DigitChar(d)) && DigitValue(DigitChar(d)) == d
  {
  }

  /** Reading back what `NatToString` wrote gives the number again. */
  lemma {:induction false} NatToStringRoundTrip(n: nat)
    ensures ParseNat(NatToString(n)) == n
    decreases n
  {
    var s := NatToString(n);
    if n < 10 {
      DigitCharValue(n);
    } else {
      NatToStringRoundTrip(n / 10);
      DigitCharValue(n % 10);
      assert s[..|s| - 1] == NatToString(n / 10);
    }
  }

  /** A leading '0' does not change the value of a digit string. */
  lemma {:induction false} ParseLeadingZero(s: string)
    requires AllDigits(s)
    ensures AllDigits("0" + s) && ParseNat("0" + s) == ParseNat(s)
    decreases |s|
  {
    if |s| > 0 {
      var t := "0" + s;
      assert t[..|t| - 1] == "0" + s[..|s| - 1];
      ParseLeadingZero(s[..|s| - 1]);
    }
  }

  /** `str.padStart(2, '0')`. */
  function PadStart2(s: string): (r: string)
    ensures |s| < 2 ==> r == ['0'] + s
    ensures |s| >= 2 ==> r == s
  {
    if |s| < 2 then "0" + s else s
  }

  /** `Math.ceil` on a real number. */
  function Ceil(x: real): (c: int)
    ensures x <= c as real < x + 1.0
  {
    -((-x).Floor)
  }

  /** `Math.round`: the nearest integer, halves rounded up (toward +infinity). */
  function Round(x: real): (r: int)
    ensures x - 0.5 < r as real <= x + 0.5
  {
    (x + 0.5).Floor
  }

  /** `Math.ceil(a / 1000)` for a whole number of milliseconds `a`. */
  function CeilSeconds(a: int): (c: int)
    ensures a > 0 ==> c > 0
    ensures a <= 0 ==> c <= 0
    ensures (c - 1) * 1000 < a <= c * 1000
  {
    Ceil(a as real / 1000.0)
  }

  /** The pieces of a string between ':' separators, like `str.split(':')`. */
  function Split(s: string): (r: seq<string>)
    ensures |r| >= 1
    decreases |s|
  {
    if |s| == 0 then [""]
    else if s[0] == ':' then [""] + Split(s[1..])
    else
      var rest := Split(s[1..]);
      [[s[0]] + rest[0]] + rest[1..]
  }

  lemma {:induction false} SplitNoColon(a: string)
    requires ':' !in a
    ensures Split(a) == [a]
    decreases |a|
  {
    if |a| > 0 {
      assert a[0] != ':' && ':' !in a[1..];
      SplitNoColon(a[1..]);
      assert [a[0]] + a[1..] == a;
    }
  }

  lemma {:induction false} SplitAtColon(a: string, b: string)
    requires ':' !in a
    ensures Split(a + ":" + b) == [a] + Split(b)
    decreases |a|
  {
    var s := a + ":" + b;
    if |a| == 0 {
      assert s == ":" + b;
      assert s[1..] == b;
    } else {
      assert s[0] == a[0] != ':' && ':' !in a[1..];
      assert s[1..] == a[1..] + ":" + b;
      SplitAtColon(a[1..], b);
      assert [a[0]] + a[1..] == a;
    }
  }

  lemma DigitsHaveNoColon(s: string)
    requires AllDigits(s)
    ensures ':' !in s
  {
    forall i | 0 <= i < |s| ensures s[i] != ':' {
      assert IsDigit(s[i]);
    }
  }

  /** A clock field below 60, rendered as exactly two digits. */
  function TwoDigits(n: nat): (r: string)
    requires n < 60
    ensures |r| == 2 && AllDigits(r) && ParseNat(r) == n
  {
    NatToStringRoundTrip(n);
    if n < 10 then
      ParseLeadingZero(NatToString(n));
      PadStart2(NatToString(n))
    else
      PadStart2(NatToString(n))
  }

  /** `${m}:${s.toString().padStart(2, '0')}` with m = floor(sec / 60) and
      s = sec % 60: the minutes-and-seconds countdown. */
  function FormatMinSec(sec: nat): string
  {
    NatToString(sec / 60) + ":" + TwoDigits(sec % 60)
  }

  /** The m:ss rendering splits into a minutes field and a two-digit seconds
      field below 60, and together they give back the number of seconds. */
  lemma FormatMinSecRoundTrip(sec: nat)
    ensures var f := Split(FormatMinSec(sec));
      && |f| == 2
      && AllDigits(f[0]) && AllDigits(f[1]) && |f[1]| == 2
      && ParseNat(f[1]) < 60
      && ParseNat(f[0]) * 60 + ParseNat(f[1]) == sec
  {
    var m, s := NatToString(sec / 60), TwoDigits(sec % 60);
    DigitsHaveNoColon(m);
    DigitsHaveNoColon(s);
    SplitAtColon(m, s);
    SplitNoColon(s);
    NatToStringRoundTrip(sec / 60);
  }
}
