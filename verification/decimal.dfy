/** Decimal rendering of integers, as Go's `fmt` prints an `int64` with the `%d` verb,
    together with its inverse so that rendering can be shown injective. */
module Decimal {

  const MinInt64: int := -0x8000_0000_0000_0000
  const MaxInt64: int := 0x7FFF_FFFF_FFFF_FFFF

  /** Go's `int64`, the type of `time.Time.UnixNano()`. */
  type Int64 = x: int | MinInt64 <= x <= MaxInt64

  predicate IsDigit(c: char) {
    '0' <= c <= '9'
  }

  predicate AllDigits(s: string) {
    forall i :: 0 <= i < |s| ==> IsDigit(s[i])
  }

  function DigitValue(c: char): (d: nat)
    requires IsDigit(c)
    ensures d < 10
  {
    c as int - '0' as int
  }

  function DigitChar(d: nat): (c: char)
    requires d < 10
    ensures IsDigit(c) && DigitValue(c) == d
  {
    ('0' as int + d) as char
  }

  /** The digits of `n`, most significant first, with no leading zero. */
  function FormatNat(n: nat): (s: string)
    ensures |s| > 0
    ensures AllDigits(s)
    ensures s[0] != '0' || s == "0"
    decreases n
  {
    if n < 10 then [DigitChar(n)] else FormatNat(n / 10) + [DigitChar(n % 10)]
  }

  /** `%d`: a minus sign for negative values, then the digits of the magnitude. */
  function FormatInt(x: int): (s: string)
    ensures |s| > 0
    ensures s[0] == '-' <==> x < 0
    ensures AllDigits(if x < 0 then s[1..] else s)
    ensures x < 0 ==> |s| > 1
    ensures (if x < 0 then s[1..] else s)[0] != '0' || x == 0
  {
    if x < 0 then "-" + FormatNat(-x) else FormatNat(x)
  }

  /** The value of a string of decimal digits (the empty string reads as zero). */
  function ParseNat(s: string): nat
    requires AllDigits(s)
  {
    if |s| == 0 then 0 else ParseNat(s[..|s| - 1]) * 10 + DigitValue(s[|s| - 1])
  }

  /** The value of an optionally signed decimal numeral as `FormatInt` writes it. */
  function ParseInt(s: string): int
    requires |s| > 0
    requires AllDigits(if s[0] == '-' then s[1..] else s)
  {
    if s[0] == '-' then -(ParseNat(s[1..]) as int) else ParseNat(s)
  }

  lemma {:induction false} ParseFormatNat(n: nat)
    ensures ParseNat(FormatNat(n)) == n
    decreases n
  {
    var s := FormatNat(n);
    if n < 10 {
      assert s[..|s| - 1] == [];
    } else {
      ParseFormatNat(n / 10);
      assert s[..|s| - 1] == FormatNat(n / 10);
    }
  }

  lemma ParseFormatInt(x: int)
    ensures ParseInt(FormatInt(x)) == x
  {
    var s := FormatInt(x);
    if x < 0 {
      assert s[1..] == FormatNat(-x);
      ParseFormatNat(-x);
    } else {
      ParseFormatNat(x);
    }
  }

  /** Distinct integers are printed differently. */
  lemma FormatIntInjective(x: int, y: int)
    ensures FormatInt(x) == FormatInt(y) ==> x == y
  {
    ParseFormatInt(x);
    ParseFormatInt(y);
  }
}
