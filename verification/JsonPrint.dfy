/** The printer side (json.cpp `escape`, api_codec.cpp): compact JSON text, one of the
    grammar's for its value, so the parser reads every printed value back. */
module JsonPrint {
  import opened Jobs
  import opened Digits
  import opened Numerals
  import opened Ascii
  import opened Utf8
  import opened Json
  import opened JsonProofs
  import opened JsonGrammar
  import opened JsonReads
  import opened JsonDerives

  function HexDigit(d: nat): char
    requires d < 16
  {
    if d < 10 then ('0' as int + d) as char else ('a' as int + d - 10) as char
  }

  function EscapeByte(c: char): string {
    if c == '"' then "\\\""
    else if c == '\\' then "\\\\"
    else if c == 8 as char then "\\b"
    else if c == 12 as char then "\\f"
    else if c == '\n' then "\\n"
    else if c == '\r' then "\\r"
    else if c == '\t' then "\\t"
    else if c < ' ' then "\\u00" + [HexDigit(c as int / 16), HexDigit(c as int % 16)]
    else [c]
  }

  /** Only what must be escaped is: quotes, backslashes and control bytes. */
  lemma EscapedExactly(c: char)
    ensures EscapeByte(c) == [c] <==> c as int >= 32 && c as int != 34 && c as int != 92
  {}

  function Escape(t: string): string {
    if t == "" then "" else EscapeByte(t[0]) + Escape(t[1..])
  }

  method EscapeText(t: string) returns (out: string)
    ensures out == Escape(t)
  {
    out := "";
    var i := 0;
    while i < |t|
      invariant 0 <= i <= |t|
      invariant out + Escape(t[i..]) == Escape(t)
    {
      assert t[i..][1..] == t[i + 1..];
      out := out + EscapeByte(t[i]);
      i := i + 1;
    }
  }

  function PrintInt(n: int): string {
    if n < 0 then "-" + Decimal(-n) else Decimal(n)
  }

  function Quoted(t: string): string { "\"" + Escape(t) + "\"" }

  function Print(v: Value): string {
    match v
    case Bool(b) => if b then "true" else "false"
    case Int(n) => PrintInt(n)
    case Str(t) => Quoted(t)
    case Arr(items) => "[" + PrintItems(items) + "]"
    case Obj(ms) => "{" + PrintMembers(ms) + "}"
  }

  function PrintItems(items: seq<Value>): string {
    if items == [] then ""
    else Print(items[0]) + (if |items| == 1 then "" else "," + PrintItems(items[1..]))
  }

  function PrintMembers(ms: seq<Member>): string {
    if ms == [] then ""
    else Quoted(ms[0].key) + ":" + Print(ms[0].value) + (if |ms| == 1 then "" else "," + PrintMembers(ms[1..]))
  }

  // ---- Printed text is text of the grammar ----------------------------------------------------

  lemma EscapeKeepsLong(cp: nat)
    requires IsScalar(cp) && 0x80 <= cp
    ensures forall k :: 0 <= k < |Encode(cp)| ==> Encode(cp)[k] as int >= 0x80
  {}

  lemma {:induction false} EscapeConcat(a: string, b: string)
    ensures Escape(a + b) == Escape(a) + Escape(b)
    decreases |a|
  {
    hide EscapeByte;
    if a == "" {
      assert a + b == b;
    } else {
      EscapeConcat(a[1..], b);
      assert (a + b)[1..] == a[1..] + b;
    }
  }

  lemma {:induction false} EscapeHigh(t: string)
    requires forall k :: 0 <= k < |t| ==> t[k] as int >= 0x80
    ensures Escape(t) == t
    decreases |t|
  {
    if t != "" {
      EscapeHigh(t[1..]);
      assert t == [t[0]] + t[1..];
    }
  }

  /** How the printer writes one scalar. */
  function PrintedUnit(cp: nat): Unit
    requires IsScalar(cp) && cp != 0
  {
    if cp == '"' as int then Short('"')
    else if cp == '\\' as int then Short('\\')
    else if cp == 8 then Short('b')
    else if cp == 12 then Short('f')
    else if cp == 10 then Short('n')
    else if cp == 13 then Short('r')
    else if cp == 9 then Short('t')
    else if cp < 0x20 then Escaped("00" + [HexDigit(cp / 16), HexDigit(cp % 16)])
    else Raw(cp)
  }

  lemma ControlUnit(cp: nat)
    requires 0 < cp < 0x20
    ensures var h := "00" + [HexDigit(cp / 16), HexDigit(cp % 16)]; IsHex4(h) && HexNumber(h) == cp
  {
    var h := "00" + [HexDigit(cp / 16), HexDigit(cp % 16)];
    HexPlace(0);
    HexPlace(cp / 16);
    HexPlace(cp % 16);
    assert h == [HexDigit(0), HexDigit(0), HexDigit(cp / 16), HexDigit(cp % 16)];
    FourDigits(h, 16);
  }

  lemma HexPlace(d: nat)
    requires d < 16
    ensures Place(HexDigit(d), 16) == d
  {
    CodeOf(HexDigit(d), d);
    OnePlace(HexDigit(d), 16, d);
  }

  lemma UnitPrinted(cp: nat)
    requires IsScalar(cp) && cp != 0
    ensures var u := PrintedUnit(cp);
            ProperUnit(u) && UnitText(u) == Escape(Encode(cp)) && UnitMeaning(u) == Encode(cp)
  {
    if cp < 0x80 {
      assert Encode(cp) == [cp as char] && Encode(cp)[1..] == "";
      assert Escape(Encode(cp)) == EscapeByte(cp as char) + "";
      if cp < 0x20 {
        ControlUnit(cp);
      }
    } else {
      EscapeKeepsLong(cp);
      EscapeHigh(Encode(cp));
    }
  }

  lemma {:induction false} UnitsPrinted(cps: seq<nat>) returns (us: seq<Unit>)
    requires AllScalars(cps)
    ensures ProperUnits(us) && UnitsText(us) == Escape(EncodeAll(cps)) && UnitsMeaning(us) == EncodeAll(cps)
    decreases |cps|
  {
    if cps == [] {
      us := [];
    } else {
      hide Encode, Escape, UnitText, UnitMeaning, ProperUnit;
      UnitPrinted(cps[0]);
      var rest := UnitsPrinted(cps[1..]);
      us := [PrintedUnit(cps[0])] + rest;
      assert us[1..] == rest;
      EscapeConcat(Encode(cps[0]), EncodeAll(cps[1..]));
    }
  }

  lemma TextPrinted(t: string, lim: Limits) returns (us: seq<Unit>)
    requires TextOk(t, lim)
    ensures ProperUnits(us) && Quote(us) == Quoted(t) && UnitsMeaning(us) == t
  {
    var cps :| AllScalars(cps) && t == EncodeAll(cps);
    us := UnitsPrinted(cps);
  }

  lemma NumeralPrinted(n: int) returns (t: Tree)
    ensures t.Numeral? && Proper(t) && Written(t) == PrintInt(n) && Means(t) == Int(n)
  {
    hide Decimal, NumberOf, ValueOf;
    DecimalReads(if n < 0 then -n else n);
    DecimalExactly(Decimal(if n < 0 then -n else n));
    t := Tree.Numeral(n < 0, Decimal(if n < 0 then -n else n));
    assert "" + Decimal(if n < 0 then -n else n) == Decimal(if n < 0 then -n else n);
  }

  lemma ListPrinted(slots: seq<Slot>, items: seq<Value>)
    requires ProperItems(slots) && Values(slots) == items && |slots| == |items| && ItemsText(slots) == PrintItems(items)
    ensures var t := List(slots, ""); Proper(t) && Written(t) == Print(Arr(items)) && Means(t) == Arr(items)
  {
    hide ProperItems, Values;
    assert "[" + (PrintItems(items) + "]") == "[" + PrintItems(items) + "]";
    if slots == [] {
      assert ItemsText(slots) == "";
    }
  }

  lemma TablePrinted(fields: seq<Field>, ms: seq<Member>)
    requires ProperFields(fields) && Members(fields) == ms && |fields| == |ms| && FieldsText(fields) == PrintMembers(ms)
    ensures var t := Table(fields, ""); Proper(t) && Written(t) == Print(Obj(ms)) && Means(t) == Obj(ms)
  {
    hide ProperFields, Members;
    assert "{" + (PrintMembers(ms) + "}") == "{" + PrintMembers(ms) + "}";
    if fields == [] {
      assert FieldsText(fields) == "";
    }
  }

  /** Every sound value is printed as a text of the grammar that means it. */
  lemma {:induction false} TreePrinted(v: Value, depth: nat, lim: Limits) returns (t: Tree)
    requires ValueOk(v, depth, lim)
    ensures Proper(t) && Written(t) == Print(v) && Means(t) == v && (t.Table? <==> v.Obj?) && (t.Numeral? <==> v.Int?)
    decreases v
  {
    match v
    case Bool(b) => t := Word(b);
    case Int(n) =>
      hide Written, Proper, Means, PrintInt;
      t := NumeralPrinted(n);
    case Str(text) =>
      hide Quote, Quoted, UnitsMeaning, TextOk, ProperUnits;
      var us := TextPrinted(text, lim);
      t := Text(us);
    case Arr(items) =>
      hide Written, Print, Means, Proper;
      var slots := ItemsPrinted(items, depth, lim);
      ListPrinted(slots, items);
      t := List(slots, "");
    case Obj(ms) =>
      hide Written, Print, Means, Proper;
      var fields := MembersPrinted(ms, depth, lim);
      TablePrinted(fields, ms);
      t := Table(fields, "");
  }

  lemma {:induction false} ItemsPrinted(items: seq<Value>, depth: nat, lim: Limits) returns (slots: seq<Slot>)
    requires forall k :: 0 <= k < |items| ==> ValueOk(items[k], depth + 1, lim)
    ensures ProperItems(slots) && Values(slots) == items && |slots| == |items|
    ensures ItemsText(slots) == PrintItems(items)
    decreases items
  {
    if items == [] {
      slots := [];
    } else {
      hide Written, Print, Means, ValueOk;
      var t := TreePrinted(items[0], depth + 1, lim);
      var rest := ItemsPrinted(items[1..], depth, lim);
      slots := [Slot("", t, "")] + rest;
      assert slots[1..] == rest;
      assert items == [items[0]] + items[1..];
    }
  }

  lemma PrintMembersFront(m: Member, ms: seq<Member>)
    ensures PrintMembers([m] + ms) + "}"
            == Quoted(m.key) + ":" + Print(m.value) + (if ms == [] then "}" else "," + (PrintMembers(ms) + "}"))
  {
    hide Print, Quoted;
    assert ([m] + ms)[1..] == ms;
  }

  lemma SameButLast(a: string, b: string, c: char)
    requires a + [c] == b + [c]
    ensures a == b
  {
    assert a == (a + [c])[..|a + [c]| - 1] == (b + [c])[..|b + [c]| - 1] == b;
  }

  lemma FrontField(us: seq<Unit>, t: Tree, rest: seq<Field>, m: Member, ms: seq<Member>)
    requires ProperUnits(us) && Quote(us) == Quoted(m.key) && UnitsMeaning(us) == m.key
    requires Proper(t) && Written(t) == Print(m.value) && Means(t) == m.value
    requires ProperFields(rest) && Members(rest) == ms && |rest| == |ms| && FieldsText(rest) == PrintMembers(ms)
    ensures var fields := [Field("", us, "", Slot("", t, ""))] + rest;
            ProperFields(fields) && Members(fields) == [m] + ms && FieldsText(fields) == PrintMembers([m] + ms)
  {
    hide Written, Print, Means, Proper, Quote, Quoted, UnitsMeaning, ProperUnits, FieldsText, PrintMembers, Members, ProperFields;
    var f := Field("", us, "", Slot("", t, ""));
    OneMoreField(f, rest);
    PrintMembersFront(m, ms);
    PlainField(f);
    SameButLast(FieldsText([f] + rest), PrintMembers([m] + ms), '}');
  }

  lemma PlainField(f: Field)
    requires f.before == "" && ProperUnits(f.key) && f.mid == "" && f.slot.before == "" && Proper(f.slot.tree) && f.slot.after == ""
    ensures FieldText(f) == Quote(f.key) + ":" + Written(f.slot.tree)
  {
    hide Written, Proper, Quote, ProperUnits;
  }

  lemma {:induction false} MembersPrinted(ms: seq<Member>, depth: nat, lim: Limits) returns (fields: seq<Field>)
    requires forall k :: 0 <= k < |ms| ==> MemberOk(ms[k], depth + 1, lim)
    ensures ProperFields(fields) && Members(fields) == ms && |fields| == |ms|
    ensures FieldsText(fields) == PrintMembers(ms)
    decreases ms
  {
    if ms == [] {
      fields := [];
    } else {
      hide Written, Print, Means, Proper, ValueOk, TextOk, Quote, Quoted, UnitsMeaning, FieldsText, PrintMembers, Members, ProperFields;
      assert MemberOk(ms[0], depth + 1, lim);
      var us := TextPrinted(ms[0].key, lim);
      var t := TreePrinted(ms[0].value, depth + 1, lim);
      var rest := MembersPrinted(ms[1..], depth, lim);
      FrontField(us, t, rest, ms[0], ms[1..]);
      fields := [Field("", us, "", Slot("", t, ""))] + rest;
      assert ms == [ms[0]] + ms[1..];
    }
  }

  // ---- Reading it back ----------------------------------------------------------------------------

  /** An integer's numeral is accepted, as that integer, exactly when it lies within int64. */
  lemma IntReads(n: int, s: string, i: nat)
    requires Here(s, i, PrintInt(n)) && Stops(s, i + |PrintInt(n)|)
    ensures i < |s| && ParseNumber(s, i) == if Int64(n) then Ok(n, i + |PrintInt(n)|) else Err
  {
    hide Here, Decimal, NumberOf, ValueOf;
    var digits := Decimal(if n < 0 then -n else n);
    DecimalReads(if n < 0 then -n else n);
    DecimalExactly(digits);
    assert PrintInt(n) == (if n < 0 then "-" else "") + digits;
    NumeralReads(n < 0, digits, s, i);
  }

  /** Every sound value, printed, reads back as itself and exactly to its end. */
  lemma ValueReads(v: Value, s: string, i: nat, depth: nat, lim: Limits)
    requires ValueOk(v, depth, lim) && Here(s, i, Print(v)) && (v.Int? ==> Stops(s, i + |Print(v)|))
    ensures i <= |s| && ParseValue(s, i, depth, lim) == Ok(v, i + |Print(v)|)
  {
    hide ValueOk, Here, Print, Written, Means, ParseValue;
    var t := TreePrinted(v, depth, lim);
    TreeReads(t, s, i, depth, lim);
  }

  /** Round trip: every sound object whose text fits is what parsing its text yields. */
  lemma RoundTrip(v: Value, lim: Limits)
    requires v.Obj? && ValueOk(v, 1, lim) && |Print(v)| <= lim.maxInputBytes
    ensures ParseDocument(Print(v), lim) == Some(v)
  {
    hide ValueOk, Print, Written, Means, ParseDocument;
    var t := TreePrinted(v, 1, lim);
    var d := Document("", t, "");
    assert DocumentText(d) == Written(t);
    DocumentReads(d, lim);
  }
}
