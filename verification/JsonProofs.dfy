/** What the parser accepts: only sound values, and only by looking at what it consumed. */
module JsonProofs {
  import opened Jobs
  import opened Digits
  import opened Ascii
  import opened Utf8
  import opened Json

  // ---- Acceptance soundness ---------------------------------------------------------

  /** Well-formed UTF-8 without NUL, within the string bound. */
  ghost predicate TextOk(t: string, lim: Limits) {
    WellFormed(t) && |t| <= lim.maxStringBytes
  }

  predicate DistinctKeys(ms: seq<Member>) {
    forall i, j :: 0 <= i < j < |ms| ==> ms[i].key != ms[j].key
  }

  ghost predicate MemberOk(m: Member, depth: nat, lim: Limits) {
    TextOk(m.key, lim) && ValueOk(m.value, depth, lim)
  }

  /** A value every part of which respects the limits, at nesting `depth`. */
  ghost predicate ValueOk(v: Value, depth: nat, lim: Limits) {
    && depth <= lim.maxDepth
    && match v
       case Bool(_) => true
       case Int(n) => -(INT64_MAX as int) - 1 <= n <= INT64_MAX
       case Str(t) => TextOk(t, lim)
       case Arr(items) =>
         |items| <= lim.maxElements && forall k :: 0 <= k < |items| ==> ValueOk(items[k], depth + 1, lim)
       case Obj(ms) =>
         && |ms| <= lim.maxMembers && DistinctKeys(ms)
         && forall k :: 0 <= k < |ms| ==> MemberOk(ms[k], depth + 1, lim)
  }

  /** Raw bytes, escapes and surrogate pairs alike: one unit is one scalar other than NUL. */
  lemma UnitSound(s: string, i: nat) returns (cp: nat)
    requires i < |s| && ParseUnit(s, i).Ok?
    ensures IsScalar(cp) && cp != 0 && ParseUnit(s, i).value == Encode(cp)
  {
    if s[i] == '\\' {
      cp := EscapeSound(s, i);
    } else {
      cp := TableDecodes(s, i);
    }
  }

  lemma EscapeSound(s: string, i: nat) returns (cp: nat)
    requires i < |s| && ParseEscape(s, i).Ok?
    ensures IsScalar(cp) && cp != 0 && ParseEscape(s, i).value == Encode(cp)
  {
    hide ParseHex4;
    if s[i + 1] == 'u' {
      var first := ParseHex4(s, i + 2);
      if 0xD800 <= first.value <= 0xDBFF {
        cp := 0x10000 + (first.value - 0xD800) * 1024 + (ParseHex4(s, first.next + 2).value - 0xDC00);
      } else {
        cp := first.value;
      }
    } else {
      cp := ParseEscape(s, i).value[0] as int;
    }
  }

  lemma {:induction false} BodySound(s: string, i: nat, out: string, lim: Limits)
    requires i <= |s| && WellFormed(out) && ParseBody(s, i, out, lim).Ok?
    ensures TextOk(ParseBody(s, i, out, lim).value, lim)
    decreases |s| - i
  {
    hide ParseUnit, WellFormed;
    if s[i] != '"' {
      var cp := UnitSound(s, i);
      WellFormedAppend(out, cp);
      BodySound(s, ParseUnit(s, i).next, out + ParseUnit(s, i).value, lim);
    }
  }

  lemma StringSound(s: string, i: nat, lim: Limits)
    requires i < |s| && ParseString(s, i, lim).Ok?
    ensures TextOk(ParseString(s, i, lim).value, lim)
  {
    assert EncodeAll([]) == "";
    BodySound(s, i + 1, "", lim);
  }

  /** Every accepted value is sound: unique keys, bounded nesting and sizes,
      well-formed strings, integers within int64. */
  lemma {:induction false} ValueSound(s: string, i: nat, depth: nat, lim: Limits)
    requires i <= |s| && ParseValue(s, i, depth, lim).Ok?
    ensures ValueOk(ParseValue(s, i, depth, lim).value, depth, lim)
    decreases |s| - i, 0
  {
    hide ParseMembers, ParseElements, ParseString, TextOk, DigitsEnd, NumberOf;
    if s[i] == '{' {
      var j := SkipWs(s, i + 1);
      if s[j] != '}' {
        MembersSound(s, j, depth, [], lim);
      }
    } else if s[i] == '[' {
      var j := SkipWs(s, i + 1);
      if s[j] != ']' {
        ElementsSound(s, j, depth, [], lim);
      }
    } else if s[i] == '"' {
      StringSound(s, i, lim);
    }
  }

  ghost predicate MembersOk(ms: seq<Member>, depth: nat, lim: Limits) {
    && |ms| <= lim.maxMembers && DistinctKeys(ms)
    && forall k :: 0 <= k < |ms| ==> MemberOk(ms[k], depth + 1, lim)
  }

  lemma {:induction false} MembersSound(s: string, i: nat, depth: nat, acc: seq<Member>, lim: Limits)
    requires i <= |s| && MembersOk(acc, depth, lim) && ParseMembers(s, i, depth, acc, lim).Ok?
    ensures MembersOk(ParseMembers(s, i, depth, acc, lim).value, depth, lim)
    decreases |s| - i, 2
  {
    hide ParseMember, MemberOk, SkipWs;
    MemberSound(s, i, depth, acc, lim);
    var p := ParseMember(s, i, depth, acc, lim);
    var f := SkipWs(s, p.next);
    assert MembersOk(acc + [p.value], depth, lim);
    if s[f] == ',' {
      MembersSound(s, f + 1, depth, acc + [p.value], lim);
    }
  }

  lemma {:induction false} MemberSound(s: string, i: nat, depth: nat, acc: seq<Member>, lim: Limits)
    requires i <= |s| && ParseMember(s, i, depth, acc, lim).Ok?
    ensures var m := ParseMember(s, i, depth, acc, lim).value;
            MemberOk(m, depth + 1, lim) && |acc| < lim.maxMembers && forall k :: 0 <= k < |acc| ==> acc[k].key != m.key
    decreases |s| - i, 1
  {
    hide ParseValue, ParseString, SkipWs, ValueOk, TextOk;
    var j := SkipWs(s, i);
    StringSound(s, j, lim);
    var c := SkipWs(s, ParseString(s, j, lim).next);
    ValueSound(s, SkipWs(s, c + 1), depth + 1, lim);
  }

  lemma {:induction false} ElementsSound(s: string, i: nat, depth: nat, acc: seq<Value>, lim: Limits)
    requires i <= |s| && ParseElements(s, i, depth, acc, lim).Ok?
    requires |acc| <= lim.maxElements && forall k :: 0 <= k < |acc| ==> ValueOk(acc[k], depth + 1, lim)
    ensures var vs := ParseElements(s, i, depth, acc, lim).value;
            |vs| <= lim.maxElements && forall k :: 0 <= k < |vs| ==> ValueOk(vs[k], depth + 1, lim)
    decreases |s| - i, 2
  {
    hide ParseValue, SkipWs, ValueOk;
    ValueSound(s, SkipWs(s, i), depth + 1, lim);
    var p := ParseElement(s, i, depth, |acc|, lim);
    var f := SkipWs(s, p.next);
    if s[f] == ',' {
      ElementsSound(s, f + 1, depth, acc + [p.value], lim);
    }
  }

  lemma DocumentSound(s: string, lim: Limits)
    requires ParseDocument(s, lim).Some?
    ensures var v := ParseDocument(s, lim).value; v.Obj? && ValueOk(v, 1, lim)
  {
    hide SkipWs, ValueOk, ParseMembers;
    ValueSound(s, SkipWs(s, 0), 1, lim);
  }

  // ---- Locality -----------------------------------------------------------------------

  /** Two inputs with the same first `m` bytes. */
  predicate Agree(s: string, t: string, m: nat) {
    m <= |s| && m <= |t| && forall k :: 0 <= k < m ==> s[k] == t[k]
  }

  lemma {:induction false} SkipWsLocal(s: string, t: string, m: nat, i: nat)
    requires Agree(s, t, m) && i <= |s| && SkipWs(s, i) < m
    ensures SkipWs(t, i) == SkipWs(s, i)
    decreases |s| - i
  {
    if IsWs(s[i]) {
      SkipWsLocal(s, t, m, i + 1);
    }
  }

  lemma UnitLocal(s: string, t: string, m: nat, i: nat)
    requires Agree(s, t, m) && i < |s| && ParseUnit(s, i).Ok? && ParseUnit(s, i).next <= m
    ensures ParseUnit(t, i) == ParseUnit(s, i)
  {
    hide Encode;
    if s[i] == '\\' && s[i + 1] == 'u' {
      Hex4Local(s, t, m, i + 2);
      var j := ParseHex4(s, i + 2).next;
      if 0xD800 <= ParseHex4(s, i + 2).value <= 0xDBFF {
        Hex4Local(s, t, m, j + 2);
      }
    } else if s[i] != '\\' {
      var n := ParseUnit(s, i).next;
      assert s[i..n] == t[i..n];
    }
  }

  lemma Hex4Local(s: string, t: string, m: nat, i: nat)
    requires Agree(s, t, m) && i <= |s| && ParseHex4(s, i).Ok? && ParseHex4(s, i).next <= m
    ensures ParseHex4(t, i) == ParseHex4(s, i)
  {}

  lemma {:induction false} BodyLocal(s: string, t: string, m: nat, i: nat, out: string, lim: Limits)
    requires Agree(s, t, m) && i <= |s| && ParseBody(s, i, out, lim).Ok? && ParseBody(s, i, out, lim).next <= m
    ensures ParseBody(t, i, out, lim) == ParseBody(s, i, out, lim)
    decreases |s| - i
  {
    hide ParseUnit;
    if s[i] != '"' {
      UnitLocal(s, t, m, i);
      BodyLocal(s, t, m, ParseUnit(s, i).next, out + ParseUnit(s, i).value, lim);
    }
  }

  lemma {:induction false} DigitsEndLocal(s: string, t: string, m: nat, i: nat)
    requires Agree(s, t, m) && i <= |s| && DigitsEnd(s, i) < m
    ensures DigitsEnd(t, i) == DigitsEnd(s, i)
    decreases |s| - i
  {
    if IsDigit(s[i]) {
      DigitsEndLocal(s, t, m, i + 1);
    }
  }

  /** A number is local once the byte after it is seen too. */
  lemma NumberLocal(s: string, t: string, m: nat, i: nat)
    requires Agree(s, t, m) && i < |s| && ParseNumber(s, i).Ok? && ParseNumber(s, i).next < m
    ensures ParseNumber(t, i) == ParseNumber(s, i)
  {
    hide NumberOf;
    var start := if s[i] == '-' then i + 1 else i;
    var end := ParseNumber(s, i).next;
    if s[start] != '0' {
      DigitsEndLocal(s, t, m, start);
    }
    assert s[start..end] == t[start..end];
  }

  lemma {:induction false} ValueLocal(s: string, t: string, m: nat, i: nat, depth: nat, lim: Limits)
    requires Agree(s, t, m) && i <= |s| && ParseValue(s, i, depth, lim).Ok?
    requires ParseValue(s, i, depth, lim).next <= m
    requires ParseValue(s, i, depth, lim).value.Int? ==> ParseValue(s, i, depth, lim).next < m
    ensures i <= |t| && ParseValue(t, i, depth, lim) == ParseValue(s, i, depth, lim)
    decreases |s| - i, 0
  {
    hide ParseMembers, ParseElements, ParseBody, ParseNumber, SkipWs;
    var n := ParseValue(s, i, depth, lim).next;
    if s[i] == '{' {
      SkipWsLocal(s, t, m, i + 1);
      if s[SkipWs(s, i + 1)] != '}' {
        MembersLocal(s, t, m, SkipWs(s, i + 1), depth, [], lim);
      }
    } else if s[i] == '[' {
      SkipWsLocal(s, t, m, i + 1);
      if s[SkipWs(s, i + 1)] != ']' {
        ElementsLocal(s, t, m, SkipWs(s, i + 1), depth, [], lim);
      }
    } else if s[i] == '"' {
      BodyLocal(s, t, m, i + 1, "", lim);
    } else if s[i] == '-' || IsDigit(s[i]) {
      NumberLocal(s, t, m, i);
    } else {
      assert s[i..n] == t[i..n];
    }
  }

  lemma {:induction false} MembersLocal(s: string, t: string, m: nat, i: nat, depth: nat, acc: seq<Member>, lim: Limits)
    requires Agree(s, t, m) && i <= |s| && ParseMembers(s, i, depth, acc, lim).Ok?
    requires ParseMembers(s, i, depth, acc, lim).next <= m
    ensures i <= |t| && ParseMembers(t, i, depth, acc, lim) == ParseMembers(s, i, depth, acc, lim)
    decreases |s| - i, 2
  {
    hide ParseMember, SkipWs;
    var p := ParseMember(s, i, depth, acc, lim);
    var f := SkipWs(s, p.next);
    MemberLocal(s, t, m, i, depth, acc, lim);
    SkipWsLocal(s, t, m, p.next);
    if s[f] == ',' {
      MembersLocal(s, t, m, f + 1, depth, acc + [p.value], lim);
    }
  }

  lemma {:induction false} MemberLocal(s: string, t: string, m: nat, i: nat, depth: nat, acc: seq<Member>, lim: Limits)
    requires Agree(s, t, m) && i <= |s| && ParseMember(s, i, depth, acc, lim).Ok?
    requires ParseMember(s, i, depth, acc, lim).next < m
    ensures i <= |t| && ParseMember(t, i, depth, acc, lim) == ParseMember(s, i, depth, acc, lim)
    decreases |s| - i, 1
  {
    hide ParseValue, ParseBody, SkipWs;
    var j := SkipWs(s, i);
    var k := ParseString(s, j, lim).next;
    var c := SkipWs(s, k);
    SkipWsLocal(s, t, m, i);
    BodyLocal(s, t, m, j + 1, "", lim);
    SkipWsLocal(s, t, m, k);
    SkipWsLocal(s, t, m, c + 1);
    ValueLocal(s, t, m, SkipWs(s, c + 1), depth + 1, lim);
  }

  lemma {:induction false} ElementsLocal(s: string, t: string, m: nat, i: nat, depth: nat, acc: seq<Value>, lim: Limits)
    requires Agree(s, t, m) && i <= |s| && ParseElements(s, i, depth, acc, lim).Ok?
    requires ParseElements(s, i, depth, acc, lim).next <= m
    ensures i <= |t| && ParseElements(t, i, depth, acc, lim) == ParseElements(s, i, depth, acc, lim)
    decreases |s| - i, 2
  {
    hide ParseValue, SkipWs;
    var j := SkipWs(s, i);
    var p := ParseElement(s, i, depth, |acc|, lim);
    var f := SkipWs(s, p.next);
    SkipWsLocal(s, t, m, i);
    ValueLocal(s, t, m, j, depth + 1, lim);
    SkipWsLocal(s, t, m, p.next);
    if s[f] == ',' {
      ElementsLocal(s, t, m, f + 1, depth, acc + [p.value], lim);
    }
  }

  /** An object read from a text is read the same, and ends the same, whatever follows it. */
  lemma ObjectIsLocal(s: string, i: nat, depth: nat, lim: Limits, more: string)
    requires i < |s| && s[i] == '{' && ParseValue(s, i, depth, lim).Ok?
    ensures var p := ParseValue(s, i, depth, lim); ParseValue(s[..p.next] + more, i, depth, lim) == p
  {
    hide ParseMembers, SkipWs;
    var n := ParseValue(s, i, depth, lim).next;
    ValueLocal(s, s[..n] + more, n, i, depth, lim);
  }

  /** No document that ends in '}' has a proper prefix that is also accepted. */
  lemma NoPrefixAccepted(s: string, k: nat, lim: Limits)
    requires ParseDocument(s, lim).Some? && s[|s| - 1] == '}' && k < |s|
    ensures ParseDocument(s[..k], lim).None?
  {
    hide ParseMembers, SkipWs;
    var p := s[..k];
    if ParseDocument(p, lim).Some? {
      var i := SkipWs(p, 0);
      var n := ParseValue(p, i, 1, lim).next;
      SkipWsLocal(p, s, k, 0);
      ValueLocal(p, s, n, i, 1, lim);
    }
  }
}
