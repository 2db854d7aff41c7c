/**
 * Decimal rendering of integers as Python's `str(n)`, `"%d"` and `"%02d"`
 * produce it, and a parser that reads such digit strings back.
 */
module Text {

  predicate IsDigit(c: char) {
    '0' <= c <= '9'
  }

  predicate AllDigits(s: string) {
    forall i :: 0 <= i < |s| ==> IsDigit(s[i])
  }

  /** A string that holds neither a line feed nor a carriage return. */
  predicate NoLineBreak(s: string) {
    forall i :: 0 <= i < |s| ==> s[i] != '\n' && s[i] != '\r'
  }

  function DigitChar(d: nat): (c: char)
    requires d < 10
    ensures IsDigit(c)
  {
    (('0' as int) + d) as char
  }

  function DigitValue(c: char): (d: nat)
    requires IsDigit(c)
    ensures d < 10
  {
    (c as int) - ('0' as int)
  }

  /** `str(n)` for a non-negative `n`: its decimal digits, most significant first. */
  function NatToString(n: nat): (s: string)
    ensures |s| > 0 && AllDigits(s)
    ensures n < 10 <==> |s| == 1
  {
    if n < 10 then [DigitChar(n)] else NatToString(n / 10) + [DigitChar(n % 10)]
  }

  /** The value of a string of decimal digits (leading zeros allowed). */
  function ParseNat(s: string): nat
    requires AllDigits(s)
  {
    if s == [] then 0 else 10 * ParseNat(s[..|s| - 1]) + DigitValue(s[|s| - 1])
  }

  function Zeros(k: nat): (s: string)
    ensures |s| == k && AllDigits(s)
  {
    if k == 0 then "" else "0" + Zeros(k - 1)
  }

  /** `"%0wd"` for a non-negative value: the digits, zero-filled on the left to width `w`. */
  function Padded(n: nat, w: nat): (s: string)
    ensures AllDigits(s)
    ensures |s| == if |NatToString(n)| < w then w else |NatToString(n)|
  {
    var digits := NatToString(n);
    if |digits| < w then Zeros(w - |digits|) + digits else digits
  }

  /** `"%d"` (and `str`) for any integer: a minus sign before the magnitude's digits. */
  function IntToString(i: int): (s: string)
    ensures |s| > 0 && NoLineBreak(s)
    ensures i >= 0 ==> s == NatToString(i)
    ensures i < 0 ==> s[0] == '-' && s[1..] == NatToString(-i)
  {
    if i < 0 then "-" + NatToString(-i) else NatToString(i)
  }

  /**
   * `"%02d"` for any integer. Python counts the sign in the field width, so a
   * negative value is never zero-filled: `-5` becomes `"-5"`.
   */
  function Int02(i: int): (s: string)
    ensures |s| >= 2 && NoLineBreak(s)
    ensures i >= 0 ==> s == Padded(i, 2)
    ensures i < 0 ==> s[0] == '-' && s[1..] == NatToString(-i)
  {
    if i < 0 then "-" + NatToString(-i) else Padded(i, 2)
  }

  lemma AllDigitsNoLineBreak(s: string)
    requires AllDigits(s)
    ensures NoLineBreak(s)
  {
  }

  /** Reading back what `NatToString` wrote gives the number. */
  lemma {:induction false} NatToStringRoundTrip(n: nat)
    ensures ParseNat(NatToString(n)) == n
  {
    if n >= 10 {
      var s := NatToString(n);
      assert s[..|s| - 1] == NatToString(n / 10);
      NatToStringRoundTrip(n / 10);
    }
  }

  /** A leading zero does not change the value of a digit string. */
  lemma {:induction false} LeadingZero(s: string)
    requires AllDigits(s)
    ensures ParseNat("0" + s) == ParseNat(s)
  {
    if s != [] {
      var t := "0" + s;
      assert t[..|t| - 1] == "0" + s[..|s| - 1];
      LeadingZero(s[..|s| - 1]);
    }
  }

  lemma {:induction false} LeadingZeros(k: nat, s: string)
    requires AllDigits(s)
    ensures ParseNat(Zeros(k) + s) == ParseNat(s)
  {
    if k > 0 {
      var rest := Zeros(k - 1) + s;
      assert AllDigits(rest);
      assert Zeros(k) + s == "0" + rest;
      LeadingZeros(k - 1, s);
      LeadingZero(rest);
    } else {
      assert Zeros(k) + s == s;
    }
  }

  /** Reading back a zero-filled field gives the number. */
  lemma PaddedRoundTrip(n: nat, w: nat)
    ensures ParseNat(Padded(n, w)) == n
  {
    var digits := NatToString(n);
    NatToStringRoundTrip(n);
    if |digits| < w {
      assert Padded(n, w) == Zeros(w - |digits|) + digits;
      LeadingZeros(w - |digits|, digits);
    } else {
      assert Padded(n, w) == digits;
    }
  }

  /** Two values render alike only when they are equal. */
  lemma NatToStringInjective(m: nat, n: nat)
    ensures NatToString(m) == NatToString(n) <==> m == n
  {
    NatToStringRoundTrip(m);
    NatToStringRoundTrip(n);
  }
}
