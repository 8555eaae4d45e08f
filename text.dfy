/**
 * The two pieces of java.lang behaviour the authenticator relies on:
 * `String.equalsIgnoreCase` (member selection) and `Integer.toString`
 * (the `deptDepth` attribute).  Case mapping is restricted to ASCII.
 */
module Text {

  // ---------------------------------------------------------------------
  // Case-insensitive comparison
  // ---------------------------------------------------------------------

  function UpperAscii(c: char): char {
    if 'a' <= c <= 'z' then (c as int - 32) as char else c
  }

  function LowerAscii(c: char): char {
    if 'A' <= c <= 'Z' then (c as int + 32) as char else c
  }

  /**
   * One step of `String.regionMatches(true, ...)`: the characters are equal,
   * or their upper cases are, or the lower cases of their upper cases are.
   */
  predicate CharEqualsIgnoreCase(a: char, b: char) {
    a == b || UpperAscii(a) == UpperAscii(b) || LowerAscii(UpperAscii(a)) == LowerAscii(UpperAscii(b))
  }

  /** `s.equalsIgnoreCase(t)` for a non-null `s` and `t`. */
  predicate EqualsIgnoreCase(s: string, t: string) {
    |s| == |t| && forall i :: 0 <= i < |s| ==> CharEqualsIgnoreCase(s[i], t[i])
  }

  /** Independent reference: the string with every ASCII letter upper-cased. */
  function UpperString(s: string): (r: string)
    ensures |r| == |s|
    ensures forall i :: 0 <= i < |s| ==> r[i] == UpperAscii(s[i])
  {
    if s == [] then [] else [UpperAscii(s[0])] + UpperString(s[1..])
  }

  lemma CharEqualsIgnoreCaseIffSameUpper(a: char, b: char)
    ensures CharEqualsIgnoreCase(a, b) <==> UpperAscii(a) == UpperAscii(b)
  {
  }

  /** Java's case-insensitive equality is equality of the upper-cased strings. */
  lemma EqualsIgnoreCaseIffSameUpper(s: string, t: string)
    ensures EqualsIgnoreCase(s, t) <==> UpperString(s) == UpperString(t)
  {
    if EqualsIgnoreCase(s, t) {
      forall i | 0 <= i < |s| ensures UpperString(s)[i] == UpperString(t)[i] {
        CharEqualsIgnoreCaseIffSameUpper(s[i], t[i]);
      }
    }
    if UpperString(s) == UpperString(t) {
      forall i | 0 <= i < |s| ensures CharEqualsIgnoreCase(s[i], t[i]) {
        assert UpperString(s)[i] == UpperString(t)[i];
        CharEqualsIgnoreCaseIffSameUpper(s[i], t[i]);
      }
    }
  }

  lemma EqualsIgnoreCaseSymmetric(s: string, t: string)
    requires EqualsIgnoreCase(s, t)
    ensures EqualsIgnoreCase(t, s)
  {
    EqualsIgnoreCaseIffSameUpper(s, t);
    EqualsIgnoreCaseIffSameUpper(t, s);
  }

  lemma EqualsIgnoreCaseTransitive(s: string, t: string, u: string)
    requires EqualsIgnoreCase(s, t) && EqualsIgnoreCase(t, u)
    ensures EqualsIgnoreCase(s, u)
  {
    EqualsIgnoreCaseIffSameUpper(s, t);
    EqualsIgnoreCaseIffSameUpper(t, u);
    EqualsIgnoreCaseIffSameUpper(s, u);
  }

  // ---------------------------------------------------------------------
  // Decimal rendering of integers
  // ---------------------------------------------------------------------

  predicate IsDigit(c: char) { '0' <= c <= '9' }

  function DigitChar(d: nat): (c: char)
    requires d < 10
    ensures IsDigit(c)
  {
    ('0' as int + d) as char
  }

  function DigitValue(c: char): nat {
    if IsDigit(c) then c as int - '0' as int else 0
  }

  /** Shortest decimal digits of `n`. */
  function NatToDecimal(n: nat): string
    decreases n
  {
    if n < 10 then [DigitChar(n)] else NatToDecimal(n / 10) + [DigitChar(n % 10)]
  }

  /** `Integer.toString(n)`: a minus sign for negatives, then the digits. */
  function IntToDecimal(n: int): string {
    if n < 0 then "-" + NatToDecimal(-n) else NatToDecimal(n)
  }

  function ParseNat(s: string): nat
    decreases |s|
  {
    if s == [] then 0 else ParseNat(s[..|s| - 1]) * 10 + DigitValue(s[|s| - 1])
  }

  function ParseInt(s: string): int {
    if |s| > 0 && s[0] == '-' then -(ParseNat(s[1..]) as int) else ParseNat(s)
  }

  /** Canonical decimal form: optional minus, digits, no leading zero, no "-0". */
  predicate IsCanonicalDecimal(s: string) {
    var digits := if |s| > 0 && s[0] == '-' then s[1..] else s;
    && |digits| > 0
    && (forall i :: 0 <= i < |digits| ==> IsDigit(digits[i]))
    && (digits[0] == '0' ==> s == "0")
  }

  lemma {:induction false} NatToDecimalDigits(n: nat)
    ensures |NatToDecimal(n)| > 0
    ensures forall i :: 0 <= i < |NatToDecimal(n)| ==> IsDigit(NatToDecimal(n)[i])
    ensures NatToDecimal(n)[0] == '0' ==> n == 0
    decreases n
  {
    if n >= 10 {
      NatToDecimalDigits(n / 10);
      var s := NatToDecimal(n / 10);
      assert NatToDecimal(n) == s + [DigitChar(n % 10)];
      assert NatToDecimal(n)[0] == s[0];
    }
  }

  lemma {:induction false} NatRoundTrip(n: nat)
    ensures ParseNat(NatToDecimal(n)) == n
    decreases n
  {
    if n >= 10 {
      var s := NatToDecimal(n / 10);
      var t := s + [DigitChar(n % 10)];
      assert t[..|t| - 1] == s;
      NatRoundTrip(n / 10);
    }
  }

  /** `Integer.toString` produces the one canonical decimal that parses back to `n`. */
  lemma IntToDecimalRoundTrip(n: int)
    ensures ParseInt(IntToDecimal(n)) == n
    ensures IsCanonicalDecimal(IntToDecimal(n))
  {
    NatToDecimalDigits(if n < 0 then -n else n);
    if n < 0 {
      var s := NatToDecimal(-n);
      assert IntToDecimal(n)[1..] == s;
      NatRoundTrip(-n);
    } else {
      NatRoundTrip(n);
    }
  }
}
