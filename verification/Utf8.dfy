/** UTF-8 as the JSON parser sees it: the encoder used for \u escapes, the byte
    table used to vet raw text, and the proof that they describe the same strings,
    the well-formed ones of section 4 of RFC 3629. A byte is a character below 256. */
module Utf8 {

  predicate IsScalar(cp: nat) { cp <= 0x10FFFF && !(0xD800 <= cp <= 0xDFFF) }

  /** `append_utf8`: the bytes of one code point. */
  function Encode(cp: nat): string
    requires cp <= 0x10FFFF
  {
    if cp < 0x80 then [cp as char]
    else if cp < 0x800 then [(0xC0 + cp / 64) as char, (0x80 + cp % 64) as char]
    else if cp < 0x10000 then
      [(0xE0 + cp / 4096) as char, (0x80 + cp / 64 % 64) as char, (0x80 + cp % 64) as char]
    else
      [(0xF0 + cp / 262144) as char, (0x80 + cp / 4096 % 64) as char,
       (0x80 + cp / 64 % 64) as char, (0x80 + cp % 64) as char]
  }

  /** The number a byte sequence carries: the payload of its first byte, then six bits a byte. */
  function Carried(e: string): int
    requires 1 <= |e| <= 4
  {
    if |e| == 1 then e[0] as int
    else if |e| == 2 then (e[0] as int - 0xC0) * 64 + (e[1] as int - 0x80)
    else if |e| == 3 then ((e[0] as int - 0xE0) * 64 + (e[1] as int - 0x80)) * 64 + (e[2] as int - 0x80)
    else (((e[0] as int - 0xF0) * 64 + (e[1] as int - 0x80)) * 64 + (e[2] as int - 0x80)) * 64 + (e[3] as int - 0x80)
  }

  /** The encoder writes the number it was given, in the shortest form. */
  lemma EncodeCarries(cp: nat)
    requires cp <= 0x10FFFF
    ensures |Encode(cp)| == (if cp < 0x80 then 1 else if cp < 0x800 then 2 else if cp < 0x10000 then 3 else 4)
    ensures Carried(Encode(cp)) == cp
    ensures forall k :: 1 <= k < |Encode(cp)| ==> 0x80 <= Encode(cp)[k] as int <= 0xBF
  {
    var q := cp / 64;
    assert cp == q * 64 + cp % 64;
    assert cp / 4096 == q / 64 && q == q / 64 * 64 + q % 64;
    var r := q / 64;
    assert cp / 262144 == r / 64 && r == r / 64 * 64 + r % 64;
  }

  predicate AllScalars(cps: seq<nat>) {
    forall i :: 0 <= i < |cps| ==> IsScalar(cps[i]) && cps[i] != 0
  }

  function EncodeAll(cps: seq<nat>): string
    requires AllScalars(cps)
  {
    if cps == [] then "" else Encode(cps[0]) + EncodeAll(cps[1..])
  }

  /** The encoding of some sequence of scalar values, none of them NUL. */
  ghost predicate WellFormed(t: string) {
    exists cps :: AllScalars(cps) && t == EncodeAll(cps)
  }

  predicate Within(c: char, lo: int, hi: int) { lo <= c as int <= hi }

  /** `consume_utf8`: the length of the sequence the table accepts at `i`, or 0. */
  function UnitLen(s: string, i: nat): (len: nat)
    requires i < |s|
    ensures len <= 4 && i + len <= |s|
  {
    var c := s[i] as int;
    if c < 0x80 then 1
    else if 0xC2 <= c <= 0xDF then
      if i + 2 <= |s| && Within(s[i+1], 0x80, 0xBF) then 2 else 0
    else if 0xE0 <= c <= 0xEF then
      if i + 3 <= |s| && Within(s[i+1], if c == 0xE0 then 0xA0 else 0x80, if c == 0xED then 0x9F else 0xBF)
         && Within(s[i+2], 0x80, 0xBF) then 3 else 0
    else if 0xF0 <= c <= 0xF4 then
      if i + 4 <= |s| && Within(s[i+1], if c == 0xF0 then 0x90 else 0x80, if c == 0xF4 then 0x8F else 0xBF)
         && Within(s[i+2], 0x80, 0xBF) && Within(s[i+3], 0x80, 0xBF) then 4 else 0
    else 0
  }

  /** The table accepts every encoded scalar, whole. */
  lemma TableAcceptsEncoding(s: string, i: nat, cp: nat)
    requires IsScalar(cp) && i + |Encode(cp)| <= |s| && s[i..i + |Encode(cp)|] == Encode(cp)
    ensures UnitLen(s, i) == |Encode(cp)|
  {
    var e := Encode(cp);
    forall k | 0 <= k < |e| ensures s[i + k] == e[k] {
      assert s[i..i + |e|][k] == e[k];
    }
    assert s[i] == s[i + 0] == e[0];
    if 0x800 <= cp < 0x10000 {
      SecondOfThree(cp);
      assert s[i + 1] == e[1] && s[i + 2] == e[2];
    } else if 0x10000 <= cp {
      SecondOfFour(cp);
      assert s[i + 1] == e[1] && s[i + 2] == e[2] && s[i + 3] == e[3];
    } else if 0x80 <= cp {
      assert s[i + 1] == e[1];
    }
  }

  lemma SecondOfThree(cp: nat)
    requires 0x800 <= cp < 0x10000 && IsScalar(cp)
    ensures cp / 4096 == 0 ==> 32 <= cp / 64 % 64
    ensures cp / 4096 == 13 ==> cp / 64 % 64 < 32
  {
    var q := cp / 64;
    assert q / 64 == cp / 4096 && q == q / 64 * 64 + q % 64;
  }

  lemma SecondOfFour(cp: nat)
    requires 0x10000 <= cp <= 0x10FFFF
    ensures cp / 262144 == 0 ==> 16 <= cp / 4096 % 64
    ensures cp / 262144 == 4 ==> cp / 4096 % 64 < 16
  {
    var q := cp / 4096;
    assert q / 64 == cp / 262144 && q == q / 64 * 64 + q % 64;
  }

  /** Whatever the table accepts is one encoded scalar: overlong forms, surrogates,
      truncated sequences and values past U+10FFFF are all refused. */
  lemma TableDecodes(s: string, i: nat) returns (cp: nat)
    requires i < |s| && UnitLen(s, i) > 0
    ensures IsScalar(cp) && s[i..i + UnitLen(s, i)] == Encode(cp)
    ensures cp == 0 <==> s[i] == '\0'
  {
    var len := UnitLen(s, i);
    if len == 1 {
      cp := s[i] as int;
    } else if len == 2 {
      cp := Decode2(s[i] as int - 0xC0, s[i+1] as int - 0x80);
    } else if len == 3 {
      cp := Decode3(s[i] as int - 0xE0, s[i+1] as int - 0x80, s[i+2] as int - 0x80);
    } else {
      cp := Decode4(s[i] as int - 0xF0, s[i+1] as int - 0x80, s[i+2] as int - 0x80, s[i+3] as int - 0x80);
    }
    var e := Encode(cp);
    assert |e| == len && forall k :: 0 <= k < len ==> s[i + k] == e[k];
  }

  lemma Decode2(a: nat, b: nat) returns (cp: nat)
    requires 2 <= a < 32 && b < 64
    ensures IsScalar(cp) && cp != 0 && Encode(cp) == [(0xC0 + a) as char, (0x80 + b) as char]
  {
    cp := a * 64 + b;
  }

  lemma Decode3(a: nat, b: nat, c: nat) returns (cp: nat)
    requires a < 16 && b < 64 && c < 64 && (a == 0 ==> b >= 32) && (a == 13 ==> b < 32)
    ensures IsScalar(cp) && cp != 0
    ensures Encode(cp) == [(0xE0 + a) as char, (0x80 + b) as char, (0x80 + c) as char]
  {
    cp := a * 4096 + b * 64 + c;
    assert cp / 64 == a * 64 + b;
    assert cp / 4096 == a;
    assert cp % 64 == c;
    assert (a * 64 + b) % 64 == b;
  }

  lemma Decode4(a: nat, b: nat, c: nat, d: nat) returns (cp: nat)
    requires a < 5 && b < 64 && c < 64 && d < 64 && (a == 0 ==> b >= 16) && (a == 4 ==> b < 16)
    ensures IsScalar(cp) && cp != 0
    ensures Encode(cp) == [(0xF0 + a) as char, (0x80 + b) as char, (0x80 + c) as char, (0x80 + d) as char]
  {
    cp := a * 262144 + b * 4096 + c * 64 + d;
    assert cp / 64 == a * 4096 + b * 64 + c;
    assert cp / 4096 == a * 64 + b;
    assert cp / 262144 == a;
    assert cp % 64 == d;
    assert (a * 4096 + b * 64 + c) % 64 == c;
    assert (a * 64 + b) % 64 == b;
  }

  lemma {:induction false} EncodeAllConcat(a: seq<nat>, b: seq<nat>)
    requires AllScalars(a) && AllScalars(b)
    ensures AllScalars(a + b) && EncodeAll(a + b) == EncodeAll(a) + EncodeAll(b)
    decreases |a|
  {
    if a == [] {
      assert a + b == b;
    } else {
      EncodeAllConcat(a[1..], b);
      assert (a + b)[1..] == a[1..] + b;
    }
  }

  lemma WellFormedAppend(t: string, cp: nat)
    requires WellFormed(t) && IsScalar(cp) && cp != 0
    ensures WellFormed(t + Encode(cp))
  {
    var cps :| AllScalars(cps) && t == EncodeAll(cps);
    EncodeAllConcat(cps, [cp]);
    assert [cp][1..] == [];
    assert EncodeAll([cp]) == Encode(cp);
  }
}
