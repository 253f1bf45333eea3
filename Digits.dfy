/** Decimal digit strings: what `parseInt(s, 10)` reads from a string of
    ASCII digits, and the decimal text JavaScript writes for a whole number. */
module Digits {

  predicate IsDigit(c: char) {
    '0' <= c <= '9'
  }

  predicate AllDigits(s: string) {
    forall k :: 0 <= k < |s| ==> IsDigit(s[k])
  }

  function DigitValue(c: char): (d: nat)
    requires IsDigit(c)
    ensures d < 10
  {
    (c as int) - ('0' as int)
  }

  function DigitChar(d: nat): (c: char)
    requires d < 10
    ensures IsDigit(c) && DigitValue(c) == d
  {
    (('0' as int) + d) as char
  }

  /** The value of a string of decimal digits, most significant first. */
  function DigitsToNat(s: string): (n: nat)
    requires AllDigits(s)
    ensures n < Pow10(|s|)
  {
    if |s| == 0 then 0
    else DigitsToNat(s[..|s| - 1]) * 10 + DigitValue(s[|s| - 1])
  }

  /** The shortest decimal text of n (no leading zero unless n is 0). */
  function NatToDigits(n: nat): (s: string)
    ensures |s| >= 1 && AllDigits(s)
    ensures |s| > 1 ==> s[0] != '0'
    ensures n < 10 <==> |s| == 1
  {
    if n < 10 then [DigitChar(n)] else NatToDigits(n / 10) + [DigitChar(n % 10)]
  }

  /** JavaScript's decimal text of a whole number in its plain range. */
  function IntToString(n: int): (s: string)
    ensures |s| >= 1
    ensures forall k :: 0 <= k < |s| ==> IsDigit(s[k]) || s[k] == '-'
    ensures n >= 0 ==> s == NatToDigits(n)
    ensures n < 0 ==> s[0] == '-' && s[1..] == NatToDigits(-n)
  {
    if n < 0 then "-" + NatToDigits(-n) else NatToDigits(n)
  }

  /** The value of a two-digit string. */
  lemma TwoDigits(s: string)
    requires |s| == 2 && AllDigits(s)
    ensures DigitsToNat(s) == 10 * DigitValue(s[0]) + DigitValue(s[1])
  {
    var p := s[..1];
    assert p[..0] == [] && p[0] == s[0];
    assert DigitsToNat(p) == DigitsToNat(p[..0]) * 10 + DigitValue(s[0]);
  }

  /** The value of a four-digit string. */
  lemma FourDigits(s: string)
    requires |s| == 4 && AllDigits(s)
    ensures DigitsToNat(s) == 1000 * DigitValue(s[0]) + 100 * DigitValue(s[1])
                              + 10 * DigitValue(s[2]) + DigitValue(s[3])
  {
    var p3 := s[..3];
    var p2 := p3[..2];
    assert p2 == s[..2];
    TwoDigits(p2);
    assert DigitsToNat(p3) == DigitsToNat(p2) * 10 + DigitValue(s[2]);
  }

  /** A string made of two digit strings is a digit string. */
  lemma AllDigitsConcat(p: string, q: string)
    requires AllDigits(p) && AllDigits(q)
    ensures AllDigits(p + q)
  {
    var s := p + q;
    forall k | 0 <= k < |s| ensures IsDigit(s[k]) {
      if k < |p| { assert s[k] == p[k]; } else { assert s[k] == q[k - |p|]; }
    }
  }

  /** One more digit after `b` multiplies the weight of `a` by ten. */
  lemma ShiftDigit(a: int, w: int, b: int, c: int)
    ensures (a * w + b) * 10 + c == a * (10 * w) + (b * 10 + c)
  {
    var aw := a * w;
    assert aw * 10 == a * (10 * w);
    assert (aw + b) * 10 == aw * 10 + b * 10;
  }

  /** The value of two digit strings written one after the other. */
  lemma {:induction false} DigitsConcat(p: string, q: string)
    requires AllDigits(p) && AllDigits(q)
    ensures AllDigits(p + q)
    ensures DigitsToNat(p + q) == DigitsToNat(p) * Pow10(|q|) + DigitsToNat(q)
    decreases |q|
  {
    var s := p + q;
    AllDigitsConcat(p, q);
    if |q| == 0 {
      assert s == p;
    } else {
      var q' := q[..|q| - 1];
      var last := q[|q| - 1];
      assert s[..|s| - 1] == p + q' && s[|s| - 1] == last;
      DigitsConcat(p, q');
      ShiftDigit(DigitsToNat(p), Pow10(|q'|), DigitsToNat(q'), DigitValue(last));
    }
  }

  /** A digit string with a non-zero first digit has a value of at least
      10^(|s|-1); in particular it is not 0. */
  lemma {:induction false} LeadingDigitBound(s: string)
    requires AllDigits(s) && |s| >= 1 && s[0] != '0'
    ensures DigitsToNat(s) >= Pow10(|s| - 1)
  {
    if |s| > 1 {
      var p := s[..|s| - 1];
      assert p[0] == s[0];
      LeadingDigitBound(p);
    }
  }

  /** A digit string is worth less than 10^|s|. */
  lemma {:induction false} DigitsBound(s: string)
    requires AllDigits(s)
    ensures DigitsToNat(s) < Pow10(|s|)
  {
    if |s| > 0 {
      DigitsBound(s[..|s| - 1]);
    }
  }

  function Pow10(k: nat): (p: nat)
    ensures p >= 1
  {
    if k == 0 then 1 else 10 * Pow10(k - 1)
  }

  /** A number below 10^k has at most k digits. */
  lemma {:induction false} NatToDigitsLength(n: nat, k: nat)
    requires 1 <= k && n < Pow10(k)
    ensures |NatToDigits(n)| <= k
  {
    if n >= 10 {
      NatToDigitsLength(n / 10, k - 1);
    }
  }

  lemma {:induction false} Pow10Monotone(i: nat, j: nat)
    requires i <= j
    ensures Pow10(i) <= Pow10(j)
  {
    if i < j {
      Pow10Monotone(i, j - 1);
    }
  }

  lemma Pow10Value21()
    ensures Pow10(21) == 1_000_000_000_000_000_000_000
  {
    assert Pow10(7) == 10_000_000;
    assert Pow10(14) == 100_000_000_000_000;
  }

  /** Reading the text JavaScript writes for n gives n back. */
  lemma {:induction false} NatToDigitsRoundTrip(n: nat)
    ensures DigitsToNat(NatToDigits(n)) == n
  {
    if n >= 10 {
      var s := NatToDigits(n);
      NatToDigitsRoundTrip(n / 10);
      assert s[..|s| - 1] == NatToDigits(n / 10);
    }
  }

  /** Writing the value of a digit string without a leading zero gives the
      same string back. */
  lemma {:induction false} DigitsToNatRoundTrip(s: string)
    requires AllDigits(s) && |s| >= 1 && s[0] != '0'
    ensures NatToDigits(DigitsToNat(s)) == s
  {
    if |s| > 1 {
      var p := s[..|s| - 1];
      assert p[0] == s[0];
      LeadingDigitBound(p);
      DigitsToNatRoundTrip(p);
      var n := DigitsToNat(s);
      assert n / 10 == DigitsToNat(p) && n % 10 == DigitValue(s[|s| - 1]);
      assert s == p + [s[|s| - 1]];
    }
  }
}
