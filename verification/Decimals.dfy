/** Decimal numerals as Go's `%d` and `%010d` print them, and as a reader takes them back. */
module Decimals {
  predicate IsDigit(c: char) { '0' <= c <= '9' }

  predicate AllDigits(s: string) {
    forall i :: 0 <= i < |s| ==> IsDigit(s[i])
  }

  function Digit(d: nat): (c: char)
    requires d < 10
    ensures IsDigit(c) && DigitValue(c) == d
  {
    ('0' as int + d) as char
  }

  function DigitValue(c: char): nat
    requires IsDigit(c)
  {
    c as int - '0' as int
  }

  function Value(s: string): nat
    requires AllDigits(s)
  {
    if s == [] then 0 else 10 * Value(s[..|s| - 1]) + DigitValue(s[|s| - 1])
  }

  /** `%d` for a number that is not negative. */
  function Decimal(n: nat): (s: string)
    ensures |s| > 0 && AllDigits(s)
  {
    if n < 10 then [Digit(n)] else Decimal(n / 10) + [Digit(n % 10)]
  }

  lemma {:induction false} DecimalValue(n: nat)
    ensures Value(Decimal(n)) == n
  {
    var s := Decimal(n);
    if n >= 10 {
      DecimalValue(n / 10);
      assert s[..|s| - 1] == Decimal(n / 10);
    } else {
      assert s[..|s| - 1] == [];
    }
  }

  /** A numeral other than `0` does not start with a zero. */
  lemma {:induction false} DecimalNoZero(n: nat)
    ensures Decimal(n)[0] == '0' ==> n == 0
    ensures Decimal(n)[0] == '0' ==> |Decimal(n)| == 1
  {
    if n >= 10 { DecimalNoZero(n / 10); }
  }

  /** And digits that do not are the numeral of their value. */
  lemma {:induction false} ValueDecimal(s: string)
    requires s != "" && AllDigits(s) && (s[0] == '0' ==> |s| == 1)
    ensures Decimal(Value(s)) == s
    ensures |s| > 1 ==> Value(s) >= 10
  {
    var init, d := s[..|s| - 1], DigitValue(s[|s| - 1]);
    assert Digit(d) == s[|s| - 1];
    if |s| == 1 {
      assert init == "" && Value(s) == d;
    } else {
      ValueDecimal(init);
      assert |init| == 1 ==> Value(init) == DigitValue(init[0]) by {
        if |init| == 1 { assert init[..0] == ""; }
      }
      assert s == init + [s[|s| - 1]];
    }
  }

  function Zeros(k: nat): (s: string)
    ensures |s| == k && AllDigits(s)
  {
    if k == 0 then "" else "0" + Zeros(k - 1)
  }

  /** `%0<width>d`: a numeral that is too long is not cut. */
  function Padded(n: nat, width: nat): (s: string)
    ensures AllDigits(s) && |s| >= width
  {
    var digits := Decimal(n);
    if |digits| >= width then digits else Zeros(width - |digits|) + digits
  }

  lemma {:induction false} LeadingZero(s: string)
    requires AllDigits(s)
    ensures Value("0" + s) == Value(s)
  {
    var t := "0" + s;
    if s == [] {
      assert t[..|t| - 1] == [];
    } else {
      LeadingZero(s[..|s| - 1]);
      assert t[..|t| - 1] == "0" + s[..|s| - 1];
    }
  }

  lemma {:induction false} LeadingZeros(k: nat, s: string)
    requires AllDigits(s)
    ensures Value(Zeros(k) + s) == Value(s)
  {
    if k == 0 {
      assert Zeros(0) + s == s;
    } else {
      LeadingZeros(k - 1, s);
      LeadingZero(Zeros(k - 1) + s);
      assert Zeros(k) + s == "0" + (Zeros(k - 1) + s);
    }
  }

  lemma PaddedValue(n: nat, width: nat)
    ensures Value(Padded(n, width)) == n
  {
    DecimalValue(n);
    if |Decimal(n)| < width { LeadingZeros(width - |Decimal(n)|, Decimal(n)); }
  }

  function Pow10(k: nat): nat {
    if k == 0 then 1 else 10 * Pow10(k - 1)
  }

  lemma {:induction false} DecimalWidth(n: nat, k: nat)
    requires k > 0
    ensures |Decimal(n)| <= k <==> n < Pow10(k)
    decreases k
  {
    if k == 1 {
      assert Pow10(1) == 10 * Pow10(0);
    } else if n < 10 {
      PowPositive(k - 1);
    } else {
      DecimalWidth(n / 10, k - 1);
    }
  }

  lemma PowPositive(k: nat)
    ensures Pow10(k) >= 1
  {}

  /** A padded numeral has its nominal width exactly when the number fits. */
  lemma PaddedWidth(n: nat, width: nat)
    requires width > 0
    ensures |Padded(n, width)| == width <==> n < Pow10(width)
  {
    DecimalWidth(n, width);
  }

  // -------------------------------------------------------------------- runs of digits

  predicate DigitsIn(s: string, p: nat, q: nat)
    requires p <= q <= |s|
    ensures DigitsIn(s, p, q) ==> AllDigits(s[p..q])
  {
    forall i :: p <= i < q ==> IsDigit(s[i])
  }

  function RunEnd(s: string, p: nat): (q: nat)
    requires p <= |s|
    ensures p <= q <= |s| && DigitsIn(s, p, q) && (q < |s| ==> !IsDigit(s[q]))
    decreases |s| - p
  {
    if p == |s| || !IsDigit(s[p]) then p else RunEnd(s, p + 1)
  }

  function RunStart(s: string, e: nat): (p: nat)
    requires e <= |s|
    ensures p <= e && DigitsIn(s, p, e) && (p > 0 ==> !IsDigit(s[p - 1]))
    decreases e
  {
    if e == 0 || !IsDigit(s[e - 1]) then e else RunStart(s, e - 1)
  }

  lemma {:induction false} RunEndIs(s: string, p: nat, q: nat)
    requires p <= q <= |s| && DigitsIn(s, p, q)
    ensures q == |s| || !IsDigit(s[q]) ==> RunEnd(s, p) == q
    decreases q - p
  {
    if p < q { RunEndIs(s, p + 1, q); }
  }

  lemma {:induction false} RunStartIs(s: string, p: nat, q: nat)
    requires p <= q <= |s| && DigitsIn(s, p, q)
    ensures p == 0 || !IsDigit(s[p - 1]) ==> RunStart(s, q) == p
    decreases q - p
  {
    if p < q { RunStartIs(s, p, q - 1); }
  }

  /** A numeral between other text is read back whole, forwards and backwards. */
  lemma RunAt(before: string, digits: string, after: string)
    requires AllDigits(digits)
    ensures
      var s, p, q := before + digits + after, |before|, |before| + |digits|;
      && s[p..q] == digits
      && ((after == [] || !IsDigit(after[0])) ==> RunEnd(s, p) == q)
      && ((before == [] || !IsDigit(before[p - 1])) ==> RunStart(s, q) == p)
  {
    var s, p, q := before + digits + after, |before|, |before| + |digits|;
    assert forall i :: p <= i < q ==> s[i] == digits[i - p];
    assert q < |s| ==> s[q] == after[0];
    assert p > 0 ==> s[p - 1] == before[p - 1];
    assert DigitsIn(s, p, q);
    RunEndIs(s, p, q);
    RunStartIs(s, p, q);
  }
}
