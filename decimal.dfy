/**
 Decimal text conversions of the Arduino `String` class, as used by the
 controller: `String(n)` for a non-negative count, and `String::toInt()`,
 which hands the text to C's `atol`: skip leading white space, accept one
 optional sign, then read the longest run of decimal digits (0 when there is
 none).
 */
module DecimalText {

  predicate IsDigit(c: char) {
    '0' <= c <= '9'
  }

  /** The white-space characters of C's `isspace` in the "C" locale. */
  predicate IsSpace(c: char) {
    c == ' ' || (9 <= c as int <= 13)
  }

  predicate AllDigits(s: string) {
    forall i :: 0 <= i < |s| ==> IsDigit(s[i])
  }

  function DigitValue(c: char): (d: nat)
    requires IsDigit(c)
    ensures d < 10
  {
    c as int - '0' as int
  }

  function DigitChar(d: nat): (c: char)
    requires d < 10
    ensures IsDigit(c) && DigitValue(c) == d
  {
    ('0' as int + d) as char
  }

  /** `String(n)` for `n >= 0`: base-ten digits, most significant first. */
  function NatToString(n: nat): (s: string)
    ensures |s| > 0 && AllDigits(s)
    ensures |s| > 1 ==> s[0] != '0'
    ensures n < 10 <==> |s| == 1
    decreases n
  {
    if n < 10 then [DigitChar(n)] else NatToString(n / 10) + [DigitChar(n % 10)]
  }

  /** The value of a string of digits read in base ten. */
  function DigitsValue(d: string): nat
    requires AllDigits(d)
  {
    if |d| == 0 then 0 else 10 * DigitsValue(d[..|d| - 1]) + DigitValue(d[|d| - 1])
  }

  /** The longest prefix of `s` made of digits. */
  function LeadingDigits(s: string): (d: string)
    ensures d <= s && AllDigits(d)
    ensures |d| < |s| ==> !IsDigit(s[|d|])
  {
    if |s| > 0 && IsDigit(s[0]) then [s[0]] + LeadingDigits(s[1..]) else []
  }

  /** `s` with its leading white space removed. */
  function SkipSpace(s: string): (t: string)
  {
    if |s| > 0 && IsSpace(s[0]) then SkipSpace(s[1..]) else s
  }

  /** `String::toInt()`: the text read as `atol` reads it; 0 when no digit follows. */
  function ToInt(s: string): (r: int)
    ensures s == "" ==> r == 0
    ensures |s| > 0 && AllDigits(s) ==> r == DigitsValue(s)
  {
    LeadingDigitsOfDigitsWhenAll(s);
    var t := SkipSpace(s);
    if |t| > 0 && t[0] == '-' then -(DigitsValue(LeadingDigits(t[1..])) as int)
    else if |t| > 0 && t[0] == '+' then DigitsValue(LeadingDigits(t[1..]))
    else DigitsValue(LeadingDigits(t))
  }

  lemma {:induction false} LeadingDigitsOfDigits(s: string)
    requires AllDigits(s)
    ensures LeadingDigits(s) == s
  {
    if |s| > 0 {
      LeadingDigitsOfDigits(s[1..]);
    }
  }

  lemma LeadingDigitsOfDigitsWhenAll(s: string)
    ensures |s| > 0 && AllDigits(s) ==> SkipSpace(s) == s && LeadingDigits(s) == s
  {
    if |s| > 0 && AllDigits(s) {
      LeadingDigitsOfDigits(s);
    }
  }

  lemma DigitsValueAppend(a: string, c: char)
    requires AllDigits(a) && IsDigit(c)
    ensures AllDigits(a + [c]) && DigitsValue(a + [c]) == 10 * DigitsValue(a) + DigitValue(c)
  {
    assert (a + [c])[..|a|] == a;
  }

  /** Reading back the digits `String(n)` writes gives `n`. */
  lemma {:induction false} DigitsValueOfNatToString(n: nat)
    ensures DigitsValue(NatToString(n)) == n
    decreases n
  {
    if n >= 10 {
      DigitsValueOfNatToString(n / 10);
      DigitsValueAppend(NatToString(n / 10), DigitChar(n % 10));
    }
  }

  /** `String(n).toInt() == n` for every non-negative `n`. */
  lemma ToIntOfNatToString(n: nat)
    ensures ToInt(NatToString(n)) == n
  {
    var s := NatToString(n);
    assert !IsSpace(s[0]) && s[0] != '-' && s[0] != '+';
    assert SkipSpace(s) == s;
    LeadingDigitsOfDigits(s);
    DigitsValueOfNatToString(n);
  }

  /** `String(n)` is injective, so the count it renders can be recovered from the text. */
  lemma NatToStringInjective(m: nat, n: nat)
    ensures NatToString(m) == NatToString(n) <==> m == n
  {
    if NatToString(m) == NatToString(n) {
      ToIntOfNatToString(m);
      ToIntOfNatToString(n);
    }
  }

  /** Text with no digit after its white space and sign reads as 0, never as an error. */
  lemma ToIntWithoutDigits(s: string)
    requires var t := SkipSpace(s);
      var u := if |t| > 0 && (t[0] == '-' || t[0] == '+') then t[1..] else t;
      |u| == 0 || !IsDigit(u[0])
    ensures ToInt(s) == 0
  {
  }

  /** The two constant flag texts the controller writes: the empty string and "1". */
  lemma ToIntOfFlags()
    ensures ToInt("") == 0 && ToInt("1") == 1
  {
    assert NatToString(1) == "1";
    ToIntOfNatToString(1);
  }
}
