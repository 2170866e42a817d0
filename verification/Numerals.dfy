/** What a digit is and what a numeral denotes, by the place of its characters in the
    written-out row of digits; and that the tests and sums of the parsers agree with it. */
module Numerals {
  import opened Ascii
  import opened Digits

  const LOWER: string := "0123456789abcdef"
  const UPPER: string := "0123456789ABCDEF"

  /** The character is the digit `k`. */
  predicate IsThe(c: char, k: int) { 0 <= k < 16 && (c == LOWER[k] || c == UPPER[k]) }

  /** Its place among the first `base` digits, or -1. */
  function Place(c: char, base: nat): (k: int)
    requires base <= 16
    ensures -1 <= k < base
    ensures k >= 0 ==> IsThe(c, k)
    ensures k < 0 ==> forall j :: 0 <= j < base ==> !IsThe(c, j)
  {
    if base == 0 then -1 else if IsThe(c, base - 1) then base - 1 else Place(c, base - 1)
  }

  predicate Numeral(s: string, base: nat)
    requires base <= 16
  {
    forall i :: 0 <= i < |s| ==> Place(s[i], base) >= 0
  }

  /** The number a numeral denotes in its base. */
  function ValueOf(s: string, base: nat): nat
    requires base <= 16 && Numeral(s, base)
  {
    if s == "" then 0 else ValueOf(s[..|s| - 1], base) * base + Place(s[|s| - 1], base)
  }

  lemma Row()
    ensures LOWER[0] == '0' && LOWER[1] == '1' && LOWER[2] == '2' && LOWER[3] == '3' && LOWER[4] == '4' && LOWER[5] == '5'
    ensures LOWER[6] == '6' && LOWER[7] == '7' && LOWER[8] == '8' && LOWER[9] == '9'
    ensures LOWER[10] == 'a' && LOWER[11] == 'b' && LOWER[12] == 'c' && LOWER[13] == 'd' && LOWER[14] == 'e' && LOWER[15] == 'f'
    ensures UPPER[0] == '0' && UPPER[1] == '1' && UPPER[2] == '2' && UPPER[3] == '3' && UPPER[4] == '4' && UPPER[5] == '5'
    ensures UPPER[6] == '6' && UPPER[7] == '7' && UPPER[8] == '8' && UPPER[9] == '9'
    ensures UPPER[10] == 'A' && UPPER[11] == 'B' && UPPER[12] == 'C' && UPPER[13] == 'D' && UPPER[14] == 'E' && UPPER[15] == 'F'
  {}

  /** The digit `k`, by its code. */
  lemma CodeOf(c: char, k: int)
    ensures IsThe(c, k) <==>
            || (0 <= k < 10 && c as int == '0' as int + k)
            || (10 <= k < 16 && (c as int == 'a' as int + k - 10 || c as int == 'A' as int + k - 10))
  {
    Row();
  }

  /** No character is two digits. */
  lemma OnePlace(c: char, base: nat, k: int)
    requires base <= 16 && 0 <= k < base && IsThe(c, k)
    ensures Place(c, base) == k
  {
    CodeOf(c, k);
    CodeOf(c, Place(c, base));
  }

  lemma DigitExactly(c: char)
    ensures IsDigit(c) <==> Place(c, 10) >= 0
    ensures IsDigit(c) ==> DigitOf(c) == Place(c, 10)
  {
    if IsDigit(c) {
      CodeOf(c, DigitOf(c));
      OnePlace(c, 10, DigitOf(c));
    } else {
      CodeOf(c, Place(c, 10));
    }
  }

  /** The decimal numerals the parsers sum up are these, with this value. */
  lemma {:induction false} DecimalExactly(s: string)
    ensures AllDigits(s) <==> Numeral(s, 10)
    ensures AllDigits(s) ==> NumberOf(s) == ValueOf(s, 10)
    decreases |s|
  {
    forall i | 0 <= i < |s|
      ensures IsDigit(s[i]) <==> Place(s[i], 10) >= 0
    {
      DigitExactly(s[i]);
    }
    if s != "" && AllDigits(s) {
      DigitExactly(s[|s| - 1]);
      DecimalExactly(s[..|s| - 1]);
    }
  }

  /** Four digits, place by place. */
  lemma FourDigits(h: string, base: nat)
    requires base <= 16 && |h| == 4 && Numeral(h, base)
    ensures ValueOf(h, base)
            == ((Place(h[0], base) * base + Place(h[1], base)) * base + Place(h[2], base)) * base + Place(h[3], base)
  {
    assert h[..3][..2] == h[..2] && h[..2][..1] == h[..1] && h[..1][..0] == "";
    assert ValueOf(h[..1], base) == Place(h[0], base);
    assert ValueOf(h[..2], base) == Place(h[0], base) * base + Place(h[1], base);
    assert ValueOf(h[..3], base) == ValueOf(h[..2], base) * base + Place(h[2], base);
  }
}
