/** Decimal notation of non-negative integers: how a template literal renders
    a JavaScript number (`${n}`), and `parseInt` on a string of digits. */
module Decimal {

  predicate IsDigit(c: char) { '0' <= c <= '9' }

  predicate AllDigits(s: string) { forall i :: 0 <= i < |s| ==> IsDigit(s[i]) }

  /** A non-empty string of decimal digits, leading zeros allowed. */
  predicate IsDecimal(s: string) { |s| > 0 && AllDigits(s) }

  /** Shortest notation: no leading zero unless the number is zero. */
  predicate IsCanonical(s: string) { IsDecimal(s) && (|s| > 1 ==> s[0] != '0') }

  function DigitValue(c: char): (d: nat)
    requires IsDigit(c)
    ensures d < 10
  {
    c as int - '0' as int
  }

  function DigitChar(d: nat): (c: char)
    requires d < 10
    ensures IsDigit(c) && DigitValue(c) == d
  {
    ('0' as int + d) as char
  }

  /** `parseInt(s)` for a string of decimal digits. */
  function ParseDecimal(s: string): nat
    requires AllDigits(s)
  {
    if s == [] then 0 else ParseDecimal(s[..|s| - 1]) * 10 + DigitValue(s[|s| - 1])
  }

  /** `${n}` for a non-negative integer: its canonical decimal notation,
      which `parseInt` reads back as `n`. */
  function NatToString(n: nat): (s: string)
    ensures IsCanonical(s)
    ensures ParseDecimal(s) == n
  {
    if n < 10 then [DigitChar(n)]
    else
      var p := NatToString(n / 10);
      var s := p + [DigitChar(n % 10)];
      assert s[..|s| - 1] == p;
      s
  }

  lemma {:induction false} ParsePositive(s: string)
    requires IsDecimal(s) && s[0] != '0'
    ensures ParseDecimal(s) > 0
  {
    if |s| > 1 {
      var p := s[..|s| - 1];
      assert p[0] == s[0];
      ParsePositive(p);
    }
  }

  /** The other half of the round trip: a canonical digit string is exactly
      what `${parseInt(s)}` gives back. */
  lemma {:induction false} CanonicalRoundTrip(s: string)
    requires IsCanonical(s)
    ensures NatToString(ParseDecimal(s)) == s
  {
    var n := ParseDecimal(s);
    var c := s[|s| - 1];
    if |s| == 1 {
      assert s[..0] == [];
      assert ParseDecimal(s[..0]) == 0;
      assert n == DigitValue(c);
      assert NatToString(n) == [DigitChar(DigitValue(c))];
      assert s == [c];
    } else {
      var p := s[..|s| - 1];
      assert p[0] == s[0];
      ParsePositive(p);
      CanonicalRoundTrip(p);
      assert n / 10 == ParseDecimal(p) && n % 10 == DigitValue(c);
      assert NatToString(n) == p + [DigitChar(DigitValue(c))];
      assert s == p + [c];
    }
  }
}
