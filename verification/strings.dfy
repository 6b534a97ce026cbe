/**
 * String operations the source relies on: `startsWith`, the digit strip
 * `replace(/\D/g, '')`, `parseInt` on what is left, and the decimal spelling of a
 * non-negative integer (as in a template literal `${n}`).
 */
module Strings {
  import opened Wrappers

  predicate StartsWith(s: string, prefix: string)
  {
    |prefix| <= |s| && s[..|prefix|] == prefix
  }

  /** The characters `\d` matches: ASCII digits only. */
  predicate IsDigit(c: char)
  {
    '0' <= c <= '9'
  }

  predicate AllDigits(s: string)
  {
    forall i :: 0 <= i < |s| ==> IsDigit(s[i])
  }

  predicate NoDigits(s: string)
  {
    forall i :: 0 <= i < |s| ==> !IsDigit(s[i])
  }

  function DigitValue(c: char): (d: nat)
    requires IsDigit(c)
    ensures d < 10
  {
    c as int - '0' as int
  }

  function DigitChar(d: nat): (c: char)
    requires d < 10
    ensures IsDigit(c) && DigitValue(c) == d
  {
    ('0' as int + d) as char
  }

  /** `s.replace(/\D/g, '')`: the digits of `s`, in order, every other character dropped. */
  function KeepDigits(s: string): (r: string)
    ensures AllDigits(r)
    ensures |r| <= |s|
    ensures AllDigits(s) ==> r == s
    ensures NoDigits(s) ==> r == ""
  {
    if s == [] then [] else (if IsDigit(s[0]) then [s[0]] else []) + KeepDigits(s[1..])
  }

  /** Stripping distributes over concatenation, so it keeps the digits in their order. */
  lemma {:induction false} KeepDigitsAppend(a: string, b: string)
    ensures KeepDigits(a + b) == KeepDigits(a) + KeepDigits(b)
  {
    if a == [] {
      assert a + b == b;
    } else {
      var head := if IsDigit(a[0]) then [a[0]] else [];
      assert (a + b)[0] == a[0];
      assert (a + b)[1..] == a[1..] + b;
      KeepDigitsAppend(a[1..], b);
      calc {
        KeepDigits(a + b);
        head + KeepDigits(a[1..] + b);
        head + (KeepDigits(a[1..]) + KeepDigits(b));
        (head + KeepDigits(a[1..])) + KeepDigits(b);
        KeepDigits(a) + KeepDigits(b);
      }
    }
  }

  /** The number a non-empty or empty string of decimal digits spells (most significant first). */
  function DigitsValue(s: string): nat
    requires AllDigits(s)
  {
    if s == [] then 0 else 10 * DigitsValue(s[..|s| - 1]) + DigitValue(s[|s| - 1])
  }

  /** The longest prefix of `s` made of digits. */
  function LeadingDigits(s: string): (r: string)
    ensures AllDigits(r) && StartsWith(s, r)
    ensures |r| < |s| ==> !IsDigit(s[|r|])
    ensures AllDigits(s) ==> r == s
  {
    if s == [] || !IsDigit(s[0]) then [] else [s[0]] + LeadingDigits(s[1..])
  }

  /**
   * `parseInt(s)` for a string with no leading blank or sign: the value of the
   * leading digits, or `None` (JavaScript's `NaN`) when there are none.
   */
  function ParseInt(s: string): (r: Option<nat>)
    ensures r.None? <==> (s == [] || !IsDigit(s[0]))
    ensures AllDigits(s) && s != [] ==> r == Some(DigitsValue(s))
  {
    var digits := LeadingDigits(s);
    if digits == [] then None else Some(DigitsValue(digits))
  }

  /** The decimal spelling of `n`, without leading zeros: what `${n}` produces for a non-negative integer. */
  function Decimal(n: nat): (r: string)
    ensures AllDigits(r) && r != []
    ensures r[0] == '0' ==> n == 0
  {
    if n < 10 then [DigitChar(n)] else Decimal(n / 10) + [DigitChar(n % 10)]
  }

  /** Reading back the decimal spelling gives the number. */
  lemma {:induction false} DecimalRoundTrip(n: nat)
    ensures DigitsValue(Decimal(n)) == n
  {
    var s := Decimal(n);
    if n >= 10 {
      assert s[..|s| - 1] == Decimal(n / 10);
      assert s[|s| - 1] == DigitChar(n % 10);
      DecimalRoundTrip(n / 10);
    }
  }

  /** Different numbers have different decimal spellings. */
  lemma DecimalInjective(m: nat, n: nat)
    requires Decimal(m) == Decimal(n)
    ensures m == n
  {
    DecimalRoundTrip(m);
    DecimalRoundTrip(n);
  }
}
