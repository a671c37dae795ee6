/**
 * Decimal digits as the scripts read and write them: `parseInt` on a run of digits,
 * `Number.prototype.toString()` on a natural number, `padStart` to a fixed width, and
 * the canonical array-index property names ("0", "1", ..., never "01").
 */
module Decimal {
  import opened Wrappers

  predicate IsDigit(c: char) {
    '0' <= c <= '9'
  }

  predicate AllDigits(s: string) {
    forall i :: 0 <= i < |s| ==> IsDigit(s[i])
  }

  function DigitChar(d: nat): (c: char)
    requires d < 10
    ensures IsDigit(c) && c as int - '0' as int == d
  {
    ('0' as int + d) as char
  }

  function DigitValue(c: char): (d: nat)
    requires IsDigit(c)
    ensures d < 10 && DigitChar(d) == c
  {
    c as int - '0' as int
  }

  function Pow10(n: nat): (p: nat)
    ensures p >= 1
  {
    if n == 0 then 1 else 10 * Pow10(n - 1)
  }

  /**
   * `parseInt(s, 10)` for a run of decimal digits (leading zeros allowed). The runs the scripts
   * read are the fixed-width fields of a timestamp, never empty; the empty run, which `parseInt`
   * reads as `NaN`, is given 0 only to end the recursion.
   */
  function DigitsValue(s: string): (v: nat)
    requires AllDigits(s)
    ensures v < Pow10(|s|)
  {
    if s == [] then 0 else DigitsValue(s[..|s| - 1]) * 10 + DigitValue(s[|s| - 1])
  }

  /** `String(n)`: the shortest decimal spelling of `n`, without leading zeros. */
  function NatToString(n: nat): (s: string)
    ensures |s| > 0 && AllDigits(s)
    ensures |s| > 1 ==> s[0] != '0'
  {
    if n < 10 then [DigitChar(n)] else NatToString(n / 10) + [DigitChar(n % 10)]
  }

  /** `n.toString().padStart(2, '0')` for n below 100. */
  function Pad2(n: nat): (s: string)
    requires n < 100
    ensures |s| == 2 && AllDigits(s) && DigitsValue(s) == n
  {
    var s := [DigitChar(n / 10), DigitChar(n % 10)];
    assert s[..1] == [DigitChar(n / 10)];
    s
  }

  /** Two digits are the padded spelling of their value. */
  lemma Pad2Digits(s: string)
    requires |s| == 2 && AllDigits(s)
    ensures Pad2(DigitsValue(s)) == s
  {
    assert s[..1][..0] == [];
    assert DigitsValue(s) == DigitValue(s[0]) * 10 + DigitValue(s[1]);
  }

  /** Three zero-padded digits, as in the millisecond field of a SubRip timestamp. */
  function Pad3(n: nat): (s: string)
    requires n < 1000
    ensures |s| == 3 && AllDigits(s) && DigitsValue(s) == n
  {
    var s := Pad2(n / 10) + [DigitChar(n % 10)];
    assert s[..2] == Pad2(n / 10);
    s
  }

  /** A canonical array-index property name: digits, and no leading zero unless it is "0". */
  predicate IsIndexName(s: string) {
    |s| > 0 && AllDigits(s) && (|s| == 1 || s[0] != '0')
  }

  /** The array index a property name denotes, if it is a canonical one. */
  function IndexOfName(s: string): (r: Option<nat>)
    ensures r.Some? <==> IsIndexName(s)
  {
    if IsIndexName(s) then Some(DigitsValue(s)) else None
  }

  /** Reading back what `String(n)` wrote gives `n`. */
  lemma {:induction false} NatToStringRoundTrip(n: nat)
    ensures DigitsValue(NatToString(n)) == n
  {
    if n >= 10 {
      var s := NatToString(n);
      assert s[..|s| - 1] == NatToString(n / 10);
      NatToStringRoundTrip(n / 10);
    }
  }

  lemma {:induction false} LeadingDigitPositive(s: string)
    requires AllDigits(s) && |s| > 0 && s[0] != '0'
    ensures DigitsValue(s) > 0
  {
    if |s| > 1 {
      LeadingDigitPositive(s[..|s| - 1]);
    }
  }

  /** Writing out the value of a canonical index name gives the name back. */
  lemma {:induction false} IndexNameRoundTrip(s: string)
    requires IsIndexName(s)
    ensures NatToString(DigitsValue(s)) == s
  {
    if |s| > 1 {
      var t := s[..|s| - 1];
      LeadingDigitPositive(t);
      IndexNameRoundTrip(t);
      assert s == t + [s[|s| - 1]];
    }
  }

  /** Array index names and natural numbers are in one-to-one correspondence. */
  lemma IndexOfNameIff(s: string, i: nat)
    ensures IndexOfName(s) == Some(i) <==> s == NatToString(i)
  {
    if s == NatToString(i) {
      NatToStringRoundTrip(i);
    }
    if IndexOfName(s) == Some(i) {
      IndexNameRoundTrip(s);
    }
  }
}
