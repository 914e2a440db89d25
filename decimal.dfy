/**
 * Decimal digits as Go's `time` and `fmt` packages read and write them:
 * the numbers inside dates and clock times, and `%d`.
 */
module Decimal {
  import opened Wrappers

  predicate IsDigit(c: char) {
    '0' <= c <= '9'
  }

  predicate AllDigits(s: string) {
    forall i :: 0 <= i < |s| ==> IsDigit(s[i])
  }

  function DigitValue(c: char): (d: nat)
    requires IsDigit(c)
    ensures d < 10
  {
    c as int - '0' as int
  }

  function DigitChar(d: nat): (c: char)
    requires d < 10
    ensures IsDigit(c) && DigitValue(c) == d
  {
    ('0' as int + d) as char
  }

  function Pow10(k: nat): (p: nat)
    ensures p >= 1
  {
    if k == 0 then 1 else 10 * Pow10(k - 1)
  }

  /** The value of a string of decimal digits, most significant digit first. */
  function Number(s: string): (n: nat)
    requires AllDigits(s)
    ensures n < Pow10(|s|)
  {
    if s == [] then 0 else Number(s[..|s| - 1]) * 10 + DigitValue(s[|s| - 1])
  }

  lemma NumberOfTwo(s: string)
    requires |s| == 2 && AllDigits(s)
    ensures Number(s) == DigitValue(s[0]) * 10 + DigitValue(s[1])
  {
    assert s[..1][..0] == [];
  }

  /** `n` written with exactly `width` digits, padded with zeros on the left. */
  function Padded(n: nat, width: nat): (s: string)
    requires n < Pow10(width)
    ensures |s| == width && AllDigits(s) && Number(s) == n
  {
    if width == 0 then ""
    else
      var front := Padded(n / 10, width - 1);
      var s := front + [DigitChar(n % 10)];
      assert s[..|s| - 1] == front;
      s
  }

  /** Reading a digit string and padding it back to its width gives the string again. */
  lemma {:induction false} PaddedNumber(s: string)
    requires AllDigits(s)
    ensures Padded(Number(s), |s|) == s
  {
    if s != [] {
      var front := s[..|s| - 1];
      PaddedNumber(front);
      assert Number(s) / 10 == Number(front);
      assert Number(s) % 10 == DigitValue(s[|s| - 1]);
      assert s == front + [s[|s| - 1]];
    }
  }

  /** `n` in decimal without leading zeros, as `fmt` prints `%d` of a non-negative int. */
  function FormatNat(n: nat): (s: string)
    ensures |s| >= 1 && AllDigits(s) && Number(s) == n
    ensures |s| > 1 ==> s[0] != '0'
  {
    if n < 10 then [DigitChar(n)]
    else
      var front := FormatNat(n / 10);
      var s := front + [DigitChar(n % 10)];
      assert s[..|s| - 1] == front;
      s
  }

  /** `%d` of a Go int. */
  function FormatInt(i: int): (s: string)
    ensures |s| >= 1
    ensures i >= 0 ==> AllDigits(s) && Number(s) == i
    ensures i < 0 ==> s[0] == '-' && AllDigits(s[1..]) && Number(s[1..]) == -i
  {
    if i < 0 then "-" + FormatNat(-i) else FormatNat(i)
  }

  /**
   * Go's `getnum`, the reader behind the numeric fields of a time layout:
   * one or two leading digits, exactly two when `fixed`; yields the value and
   * the text after it.
   */
  function GetNum(s: string, fixed: bool): (r: Option<(nat, string)>)
    ensures r.Some? ==> r.value.0 < 100
    ensures r.Some? && (fixed || (|s| >= 2 && IsDigit(s[1]))) ==>
              |s| >= 2 && AllDigits(s[..2]) && r.value == (Number(s[..2]), s[2..])
    ensures r.Some? && !fixed && !(|s| >= 2 && IsDigit(s[1])) ==>
              |s| >= 1 && IsDigit(s[0]) && r.value == (DigitValue(s[0]), s[1..])
    ensures r.None? <==> (|s| == 0 || !IsDigit(s[0]) || (fixed && (|s| == 1 || !IsDigit(s[1]))))
  {
    if |s| == 0 || !IsDigit(s[0]) then None
    else if |s| == 1 || !IsDigit(s[1]) then
      if fixed then None else Some((DigitValue(s[0]), s[1..]))
    else
      NumberOfTwo(s[..2]);
      Some((DigitValue(s[0]) * 10 + DigitValue(s[1]), s[2..]))
  }
}
