/** Whatever the parser accepts is a text of the grammar, so parsing and deriving are the same. */
module JsonDerives {
  import opened Jobs
  import opened Digits
  import opened Numerals
  import opened Ascii
  import opened Utf8
  import opened Json
  import opened JsonProofs
  import opened JsonGrammar
  import opened JsonReads

  /** A slice cut in two. */
  lemma Cut(s: string, i: nat, j: nat, k: nat)
    requires i <= j <= k <= |s|
    ensures s[i..k] == s[i..j] + s[j..k]
  {}

  lemma Single(s: string, i: nat)
    requires i < |s|
    ensures s[i..i + 1] == [s[i]]
  {}

  lemma SkippedIsWs(s: string, i: nat)
    requires i <= |s|
    ensures Ws(s[i..SkipWs(s, i)])
  {}

  // ---- Strings ---------------------------------------------------------------------------------

  lemma UnitOf(s: string, i: nat) returns (u: Unit)
    requires i < |s| && s[i] != '"' && ParseUnit(s, i).Ok?
    ensures ProperUnit(u) && UnitMeaning(u) == ParseUnit(s, i).value && UnitText(u) == s[i..ParseUnit(s, i).next]
  {
    if s[i] == '\\' {
      u := EscapeOf(s, i);
    } else {
      hide Encode;
      var cp := TableDecodes(s, i);
      FirstByte(cp);
      assert s[i..i + UnitLen(s, i)][0] == s[i];
      u := Raw(cp);
    }
  }

  lemma HexOf(s: string, i: nat)
    requires i <= |s| && ParseHex4(s, i).Ok?
    ensures i + 4 <= |s| && ParseHex4(s, i).next == i + 4 && IsHex4(s[i..i + 4]) && HexNumber(s[i..i + 4]) == ParseHex4(s, i).value
  {
    hide Place, ValueOf, HexValue;
    var h := s[i..i + 4];
    HexExactly(h[0]);
    HexExactly(h[1]);
    HexExactly(h[2]);
    HexExactly(h[3]);
    FourDigits(h, 16);
  }

  lemma EscapeOf(s: string, i: nat) returns (u: Unit)
    requires i < |s| && s[i] == '\\' && ParseEscape(s, i).Ok?
    ensures ProperUnit(u) && UnitMeaning(u) == ParseEscape(s, i).value && UnitText(u) == s[i..ParseEscape(s, i).next]
  {
    hide Encode, ParseHex4, HexNumber, IsHex4;
    if s[i + 1] != 'u' {
      u := Short(s[i + 1]);
      assert s[i..i + 2] == ['\\', s[i + 1]];
    } else {
      var h := s[i + 2..i + 6];
      HexOf(s, i + 2);
      Cut(s, i, i + 2, i + 6);
      assert s[i..i + 2] == "\\u";
      if 0xD800 <= HexNumber(h) <= 0xDBFF {
        var lo := s[i + 8..i + 12];
        HexOf(s, i + 8);
        u := Pair(h, lo);
        assert s[i + 6..i + 8] == "\\u";
        Cut(s, i, i + 6, i + 8);
        Cut(s, i, i + 8, i + 12);
      } else {
        u := Escaped(h);
      }
    }
  }

  lemma {:induction false} UnitsOf(s: string, i: nat, out: string, lim: Limits) returns (us: seq<Unit>)
    requires i <= |s| && ParseBody(s, i, out, lim).Ok?
    ensures ProperUnits(us) && ParseBody(s, i, out, lim).value == out + UnitsMeaning(us)
    ensures s[i..ParseBody(s, i, out, lim).next] == UnitsText(us) + "\""
    decreases |s| - i
  {
    hide ParseUnit, UnitMeaning, UnitText;
    var n := ParseBody(s, i, out, lim).next;
    if s[i] == '"' {
      us := [];
      assert out + "" == out;
      Single(s, i);
    } else {
      var u := UnitOf(s, i);
      var j := ParseUnit(s, i).next;
      var rest := UnitsOf(s, j, out + UnitMeaning(u), lim);
      us := [u] + rest;
      assert us[1..] == rest;
      Cut(s, i, j, n);
      assert UnitText(u) + (UnitsText(rest) + "\"") == UnitsText(us) + "\"";
      assert (out + UnitMeaning(u)) + UnitsMeaning(rest) == out + UnitsMeaning(us);
    }
  }

  lemma QuoteOf(s: string, i: nat, lim: Limits) returns (us: seq<Unit>)
    requires i < |s| && s[i] == '"' && ParseString(s, i, lim).Ok?
    ensures ProperUnits(us) && ParseString(s, i, lim).value == UnitsMeaning(us)
    ensures s[i..ParseString(s, i, lim).next] == Quote(us)
  {
    hide ParseBody, UnitsText, UnitsMeaning;
    us := UnitsOf(s, i + 1, "", lim);
    assert "" + UnitsMeaning(us) == UnitsMeaning(us);
    Cut(s, i, i + 1, ParseString(s, i, lim).next);
    Single(s, i);
    assert "\"" + (UnitsText(us) + "\"") == Quote(us);
  }

  lemma NumeralOf(s: string, i: nat) returns (negative: bool, digits: string)
    requires i < |s| && ParseNumber(s, i).Ok?
    ensures ProperNumeral(digits) && ParseNumber(s, i).value == Signed(negative, digits)
    ensures s[i..ParseNumber(s, i).next] == (if negative then "-" else "") + digits
  {
    hide NumberOf, ValueOf;
    negative := s[i] == '-';
    var start := if negative then i + 1 else i;
    var end := ParseNumber(s, i).next;
    digits := s[start..end];
    DecimalExactly(digits);
    assert digits[0] == s[start];
    if negative {
      Cut(s, i, start, end);
      Single(s, i);
    }
  }

  // ---- Trees -------------------------------------------------------------------------------------

  /** Soundness: every accepted value was written as a proper tree that means it. */
  lemma {:induction false} TreeOf(s: string, i: nat, depth: nat, lim: Limits) returns (t: Tree)
    requires i <= |s| && ParseValue(s, i, depth, lim).Ok?
    ensures Proper(t) && Means(t) == ParseValue(s, i, depth, lim).value
    ensures Written(t) == s[i..ParseValue(s, i, depth, lim).next]
    decreases |s| - i, 0
  {
    hide ParseNumber, ParseString, ParseArray, ParseObject, UnitsMeaning, ValueOf;
    if s[i] == '{' {
      t := TableOf(s, i, depth, lim);
    } else if s[i] == '[' {
      t := ListOf(s, i, depth, lim);
    } else if s[i] == '"' {
      var us := QuoteOf(s, i, lim);
      t := Text(us);
    } else if s[i] == 't' || s[i] == 'f' {
      t := Word(s[i] == 't');
    } else {
      var negative, digits := NumeralOf(s, i);
      t := Numeral(negative, digits);
    }
  }

  lemma ListOf(s: string, i: nat, depth: nat, lim: Limits) returns (t: Tree)
    requires i < |s| && s[i] == '[' && ParseArray(s, i, depth, lim).Ok?
    ensures Proper(t) && Means(t) == ParseArray(s, i, depth, lim).value
    ensures Written(t) == s[i..ParseArray(s, i, depth, lim).next]
    decreases |s| - i - 1, 4
  {
    hide ParseElements, ItemsText, Values, ProperItems;
    var n := ParseArray(s, i, depth, lim).next;
    var j := SkipWs(s, i + 1);
    Cut(s, i, i + 1, n);
    Single(s, i);
    if s[j] == ']' {
      var pad := s[i + 1..j];
      SkippedIsWs(s, i + 1);
      NoItems();
      t := List([], pad);
      Cut(s, i + 1, j, n);
      Single(s, j);
      assert Written(t) == "[" + (pad + "]");
    } else {
      ElementsSkip(s, i + 1, depth, [], lim);
      var items := ItemsOf(s, i + 1, depth, [], lim);
      assert [] + Values(items) == Values(items);
      t := List(items, "");
      assert Written(t) == "[" + (ItemsText(items) + "]");
    }
  }

  lemma NoItems()
    ensures ProperItems([]) && Values([]) == [] && ProperFields([]) && Members([]) == []
  {}

  function SlotText(x: Slot): string
    requires Proper(x.tree)
  {
    x.before + (Written(x.tree) + x.after)
  }

  /** A list of one item, or with one more item in front. */
  lemma OneMoreItem(x: Slot, rest: seq<Slot>)
    requires Ws(x.before) && Ws(x.after) && Proper(x.tree) && ProperItems(rest)
    ensures ProperItems([x] + rest) && Values([x] + rest) == [Means(x.tree)] + Values(rest)
    ensures ItemsText([x] + rest) + "]"
            == SlotText(x) + (if rest == [] then "]" else "," + (ItemsText(rest) + "]"))
  {
    hide Written, Means;
    assert ([x] + rest)[1..] == rest;
  }

  lemma {:induction false} ItemsOf(s: string, i: nat, depth: nat, acc: seq<Value>, lim: Limits) returns (items: seq<Slot>)
    requires i <= |s| && ParseElements(s, i, depth, acc, lim).Ok?
    ensures items != [] && ProperItems(items) && ParseElements(s, i, depth, acc, lim).value == acc + Values(items)
    ensures s[i..ParseElements(s, i, depth, acc, lim).next] == ItemsText(items) + "]"
    decreases |s| - i, 3
  {
    hide ParseElement, Written, Means, Proper, SkipWs, ItemsText, Values, ProperItems, SlotText;
    var n := ParseElements(s, i, depth, acc, lim).next;
    var x := SlotOf(s, i, depth, |acc|, lim);
    var v := Means(x.tree);
    var f := SkipWs(s, ParseElement(s, i, depth, |acc|, lim).next);
    Cut(s, i, f, n);
    Cut(s, f, f + 1, n);
    Single(s, f);
    var rest := [];
    NoItems();
    if s[f] == ',' {
      rest := ItemsOf(s, f + 1, depth, acc + [v], lim);
    }
    OneMoreItem(x, rest);
    items := [x] + rest;
    assert acc + [v] + Values(rest) == acc + Values(items);
  }

  /** One element with the whitespace on both sides of it. */
  lemma SlotOf(s: string, i: nat, depth: nat, count: nat, lim: Limits) returns (x: Slot)
    requires i <= |s| && ParseElement(s, i, depth, count, lim).Ok?
    ensures Ws(x.before) && Ws(x.after) && Proper(x.tree) && Means(x.tree) == ParseElement(s, i, depth, count, lim).value
    ensures var f := SkipWs(s, ParseElement(s, i, depth, count, lim).next);
            s[i..f] == SlotText(x)
    decreases |s| - i, 1
  {
    hide ParseValue, Written, Means, Proper;
    var j := SkipWs(s, i);
    var t := TreeOf(s, j, depth + 1, lim);
    var e := ParseValue(s, j, depth + 1, lim).next;
    x := WithSpace(s, i, j, e, t);
  }

  lemma WithSpace(s: string, i: nat, j: nat, e: nat, t: Tree) returns (x: Slot)
    requires i <= j <= e <= |s| && j == SkipWs(s, i) && Proper(t) && Written(t) == s[j..e]
    ensures x.tree == t && Ws(x.before) && Ws(x.after) && s[i..SkipWs(s, e)] == x.before + (Written(t) + x.after)
  {
    hide Written, Proper;
    var f := SkipWs(s, e);
    SkippedIsWs(s, i);
    SkippedIsWs(s, e);
    x := Slot(s[i..j], t, s[e..f]);
    Cut(s, i, j, f);
    Cut(s, j, e, f);
  }

  lemma TableOf(s: string, i: nat, depth: nat, lim: Limits) returns (t: Tree)
    requires i < |s| && s[i] == '{' && ParseObject(s, i, depth, lim).Ok?
    ensures t.Table? && Proper(t) && Means(t) == ParseObject(s, i, depth, lim).value
    ensures Written(t) == s[i..ParseObject(s, i, depth, lim).next]
    decreases |s| - i - 1, 4
  {
    hide ParseMembers, FieldsText, Members, ProperFields;
    var n := ParseObject(s, i, depth, lim).next;
    var j := SkipWs(s, i + 1);
    Cut(s, i, i + 1, n);
    Single(s, i);
    if s[j] == '}' {
      var pad := s[i + 1..j];
      SkippedIsWs(s, i + 1);
      NoItems();
      t := Table([], pad);
      Cut(s, i + 1, j, n);
      Single(s, j);
      assert Written(t) == "{" + (pad + "}");
    } else {
      MembersSkip(s, i + 1, depth, [], lim);
      var fields := FieldsOf(s, i + 1, depth, [], lim);
      assert [] + Members(fields) == Members(fields);
      t := Table(fields, "");
      assert Written(t) == "{" + (FieldsText(fields) + "}");
    }
  }

  function FieldText(f: Field): string
    requires ProperUnits(f.key) && Proper(f.slot.tree)
  {
    f.before + (Quote(f.key) + (f.mid + (":" + (f.slot.before + (Written(f.slot.tree) + f.slot.after)))))
  }

  lemma OneMoreField(f: Field, rest: seq<Field>)
    requires Ws(f.before) && ProperUnits(f.key) && Ws(f.mid) && Ws(f.slot.before) && Ws(f.slot.after) && Proper(f.slot.tree)
    requires ProperFields(rest)
    ensures ProperFields([f] + rest)
    ensures Members([f] + rest) == [Member(UnitsMeaning(f.key), Means(f.slot.tree))] + Members(rest)
    ensures FieldsText([f] + rest) + "}"
            == FieldText(f) + (if rest == [] then "}" else "," + (FieldsText(rest) + "}"))
  {
    hide Written, Quote, Means, UnitsMeaning;
    assert ([f] + rest)[1..] == rest;
  }

  lemma {:induction false} FieldsOf(s: string, i: nat, depth: nat, acc: seq<Member>, lim: Limits) returns (fields: seq<Field>)
    requires i <= |s| && ParseMembers(s, i, depth, acc, lim).Ok?
    ensures fields != [] && ProperFields(fields) && ParseMembers(s, i, depth, acc, lim).value == acc + Members(fields)
    ensures s[i..ParseMembers(s, i, depth, acc, lim).next] == FieldsText(fields) + "}"
    decreases |s| - i, 3
  {
    hide ParseMember, Written, Means, Proper, SkipWs, Quote, UnitsMeaning, FieldsText, FieldText, Members, ProperFields;
    var n := ParseMembers(s, i, depth, acc, lim).next;
    var f := FieldOf(s, i, depth, acc, lim);
    var m := Member(UnitsMeaning(f.key), Means(f.slot.tree));
    var g := SkipWs(s, ParseMember(s, i, depth, acc, lim).next);
    Cut(s, i, g, n);
    Cut(s, g, g + 1, n);
    Single(s, g);
    var rest := [];
    NoItems();
    if s[g] == ',' {
      rest := FieldsOf(s, g + 1, depth, acc + [m], lim);
    }
    OneMoreField(f, rest);
    fields := [f] + rest;
    assert acc + [m] + Members(rest) == acc + Members(fields);
  }

  lemma FiveCuts(s: string, i: nat, j: nat, k: nat, c: nat, g: nat)
    requires i <= j <= k <= c < g <= |s|
    ensures s[i..g] == s[i..j] + (s[j..k] + (s[k..c] + ([s[c]] + s[c + 1..g])))
  {
    Cut(s, i, j, g);
    Cut(s, j, k, g);
    Cut(s, k, c, g);
    Cut(s, c, c + 1, g);
    Single(s, c);
  }

  lemma FieldOf(s: string, i: nat, depth: nat, acc: seq<Member>, lim: Limits) returns (f: Field)
    requires i <= |s| && ParseMember(s, i, depth, acc, lim).Ok?
    ensures Ws(f.before) && ProperUnits(f.key) && Ws(f.mid) && Ws(f.slot.before) && Ws(f.slot.after) && Proper(f.slot.tree)
    ensures ParseMember(s, i, depth, acc, lim).value == Member(UnitsMeaning(f.key), Means(f.slot.tree))
    ensures s[i..SkipWs(s, ParseMember(s, i, depth, acc, lim).next)] == FieldText(f)
    decreases |s| - i, 1
  {
    hide ParseValue, ParseString, Written, Means, Proper, Quote, UnitsMeaning, ProperUnits, Ws;
    var j := SkipWs(s, i);
    var us := QuoteOf(s, j, lim);
    var k := ParseString(s, j, lim).next;
    var c := SkipWs(s, k);
    var b := SkipWs(s, c + 1);
    var t := TreeOf(s, b, depth + 1, lim);
    var e := ParseValue(s, b, depth + 1, lim).next;
    var x := WithSpace(s, c + 1, b, e, t);
    SkippedIsWs(s, i);
    SkippedIsWs(s, k);
    f := Field(s[i..j], us, s[k..c], x);
    FiveCuts(s, i, j, k, c, SkipWs(s, e));
  }

  // ---- Documents ----------------------------------------------------------------------------------

  /** The text is one of the grammar's for the value. */
  ghost predicate Derives(s: string, v: Value) {
    exists d :: ProperDocument(d) && DocumentText(d) == s && Means(d.tree) == v
  }

  lemma DocumentReads(d: Document, lim: Limits)
    requires ProperDocument(d) && ValueOk(Means(d.tree), 1, lim) && |DocumentText(d)| <= lim.maxInputBytes
    ensures ParseDocument(DocumentText(d), lim) == Some(Means(d.tree))
  {
    hide ParseValue, ValueOk, Written, Means, Proper;
    var s, w := DocumentText(d), Written(d.tree);
    var i := |d.lead|;
    assert Here(s, 0, d.lead + (w + d.trail)) by { assert s[0..|s|] == s; }
    HereSplit(s, 0, d.lead, w + d.trail);
    HereSplit(s, i, w, d.trail);
    TreeStarts(d.tree);
    HereAt(s, i, w, 0);
    SkipOver(s, 0, d.lead);
    TreeReads(d.tree, s, i, 1, lim);
    SkipOver(s, i + |w|, d.trail);
    if i > 0 {
      HereAt(s, 0, d.lead, 0);
    }
  }

  lemma DocumentOf(s: string, lim: Limits) returns (d: Document)
    requires ParseDocument(s, lim).Some?
    ensures ProperDocument(d) && DocumentText(d) == s && Means(d.tree) == ParseDocument(s, lim).value
    ensures |s| <= lim.maxInputBytes
  {
    hide ParseObject, Written, Means, Proper;
    var i := SkipWs(s, 0);
    var n := ParseValue(s, i, 1, lim).next;
    var t := TableOf(s, i, 1, lim);
    SkippedIsWs(s, 0);
    SkippedIsWs(s, n);
    d := Document(s[..i], t, s[n..]);
    Cut(s, 0, i, |s|);
    Cut(s, i, n, |s|);
  }

  /** The accepted documents, exactly: a text yields a value if and only if the grammar
      derives the one from the other, the value is sound and the text is not too long. */
  lemma ParsesExactly(s: string, v: Value, lim: Limits)
    ensures ParseDocument(s, lim) == Some(v) <==> Derives(s, v) && ValueOk(v, 1, lim) && |s| <= lim.maxInputBytes
  {
    hide ValueOk, ParseDocument, Written, Means;
    if ParseDocument(s, lim) == Some(v) {
      DocumentSound(s, lim);
      var d := DocumentOf(s, lim);
    }
    if Derives(s, v) && ValueOk(v, 1, lim) && |s| <= lim.maxInputBytes {
      var d :| ProperDocument(d) && DocumentText(d) == s && Means(d.tree) == v;
      DocumentReads(d, lim);
    }
  }
}
