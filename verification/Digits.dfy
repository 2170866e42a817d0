/** Characters, bytes below 256 throughout. */
module Ascii {
  predicate IsControl(c: char) { c < ' ' || c == 0x7F as char }

  predicate IsDigit(c: char) { '0' <= c <= '9' }
}

/** Decimal numerals: their mathematical value, how they are printed, and the
    guarded accumulation both parsers use to read them without overflow. */
module Digits {
  import opened Jobs
  import opened Ascii

  const UINT64_MAX: nat := 0xFFFF_FFFF_FFFF_FFFF
  const INT64_MAX: nat := 0x7FFF_FFFF_FFFF_FFFF

  predicate AllDigits(s: string) {
    forall i :: 0 <= i < |s| ==> IsDigit(s[i])
  }

  /** Where the run of digits at `i` ends. */
  function DigitsEnd(s: string, i: nat): (j: nat)
    requires i <= |s|
    ensures i <= j <= |s| && AllDigits(s[i..j]) && (j < |s| ==> !IsDigit(s[j]))
    decreases |s| - i
  {
    if i < |s| && IsDigit(s[i]) then
      var j := DigitsEnd(s, i + 1);
      assert s[i..j] == [s[i]] + s[i + 1..j];
      j
    else i
  }

  function DigitOf(c: char): nat
    requires IsDigit(c)
  {
    c as int - '0' as int
  }

  /** The number a numeral denotes. */
  function NumberOf(s: string): nat
    requires AllDigits(s)
  {
    if s == "" then 0 else NumberOf(s[..|s| - 1]) * 10 + DigitOf(s[|s| - 1])
  }

  function Decimal(n: nat): string {
    if n < 10 then [('0' as int + n) as char] else Decimal(n / 10) + [('0' as int + n % 10) as char]
  }

  lemma {:induction false} DecimalReads(n: nat)
    ensures AllDigits(Decimal(n)) && Decimal(n) != "" && NumberOf(Decimal(n)) == n
    ensures Decimal(n)[0] == '0' ==> n == 0 && |Decimal(n)| == 1
  {
    if n >= 10 {
      DecimalReads(n / 10);
      assert Decimal(n)[..|Decimal(n)| - 1] == Decimal(n / 10);
    } else {
      assert Decimal(n)[..0] == "";
    }
  }

  lemma DecimalInjective(a: nat, b: nat)
    requires Decimal(a) == Decimal(b)
    ensures a == b
  {
    DecimalReads(a);
    DecimalReads(b);
  }

  lemma {:induction false} ValueGrows(s: string, k: nat)
    requires AllDigits(s) && k <= |s|
    ensures NumberOf(s[..k]) <= NumberOf(s)
    decreases |s| - k
  {
    if k < |s| {
      assert s[..k + 1][..k] == s[..k];
      ValueGrows(s, k + 1);
    } else {
      assert s[..k] == s;
    }
  }

  /** The accumulation loop of both parsers. It yields the numeral's value exactly
      when that is within `limit`, and no intermediate result leaves uint64. */
  method Accumulate(s: string, limit: nat) returns (r: Option<nat>)
    requires AllDigits(s) && 9 <= limit <= UINT64_MAX
    ensures r == if NumberOf(s) <= limit then Some(NumberOf(s)) else None
  {
    var acc := 0;
    var k := 0;
    while k < |s|
      invariant 0 <= k <= |s|
      invariant acc == NumberOf(s[..k]) && acc <= limit
    {
      var d := DigitOf(s[k]);
      assert s[..k + 1][..k] == s[..k];
      if acc > (limit - d) / 10 {
        ValueGrows(s, k + 1);
        return None;
      }
      assert acc * 10 + d <= UINT64_MAX;
      acc := acc * 10 + d;
      k := k + 1;
    }
    assert s[..k] == s;
    return Some(acc);
  }
}
