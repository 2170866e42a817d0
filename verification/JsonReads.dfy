/** Every text of the grammar is read as what it means: whatever whitespace, escapes and
    signs its writer chose, wherever it stands in a longer text. */
module JsonReads {
  import opened Jobs
  import opened Digits
  import opened Numerals
  import opened Ascii
  import opened Utf8
  import opened Json
  import opened JsonProofs
  import opened JsonGrammar

  // ---- A text standing at a position ------------------------------------------------------------

  /** The text `p` stands at position `i`. */
  predicate Here(s: string, i: nat, p: string) {
    i + |p| <= |s| && s[i..i + |p|] == p
  }

  lemma HereSplit(s: string, i: nat, a: string, b: string)
    requires Here(s, i, a + b)
    ensures Here(s, i, a) && Here(s, i + |a|, b) && i + |a| + |b| <= |s|
  {
    assert s[i..i + |a|] == s[i..i + |a + b|][..|a|];
    assert s[i + |a|..i + |a| + |b|] == s[i..i + |a + b|][|a|..];
  }

  lemma HereAt(s: string, i: nat, p: string, k: nat)
    requires Here(s, i, p) && k < |p|
    ensures i + k < |s| && s[i + k] == p[k]
  {
    assert s[i..i + |p|][k] == p[k];
  }

  /** A single character and what follows it. */
  lemma HereChar(s: string, i: nat, c: char, rest: string)
    requires Here(s, i, [c] + rest)
    ensures i < |s| && s[i] == c && Here(s, i + 1, rest) && i + 1 + |rest| <= |s|
  {
    HereSplit(s, i, [c], rest);
    HereAt(s, i, [c], 0);
  }

  lemma HereThree(s: string, i: nat, a: string, b: string, c: string, rest: string)
    requires Here(s, i, a + (b + (c + rest)))
    ensures Here(s, i, a) && Here(s, i + |a|, b) && Here(s, i + |a| + |b|, c) && Here(s, i + |a| + |b| + |c|, rest)
    ensures i + |a| + |b| + |c| + |rest| <= |s|
  {
    hide Here;
    HereSplit(s, i, a, b + (c + rest));
    HereSplit(s, i + |a|, b, c + rest);
    HereSplit(s, i + |a| + |b|, c, rest);
  }

  lemma {:induction false} SkipOver(s: string, i: nat, w: string)
    requires Here(s, i, w) && Ws(w) && (i + |w| < |s| ==> !IsWs(s[i + |w|]))
    ensures i <= |s| && SkipWs(s, i) == i + |w|
    decreases |w|
  {
    if w != "" {
      HereChar(s, i, w[0], w[1..]) by {
        assert w == [w[0]] + w[1..];
      }
      SkipOver(s, i + 1, w[1..]);
    }
  }

  /** What follows a number does not continue it. */
  predicate Stops(s: string, i: nat) {
    i < |s| ==> !IsDigit(s[i]) && s[i] != '.' && s[i] != 'e' && s[i] != 'E'
  }

  // ---- Strings -------------------------------------------------------------------------------------

  lemma FirstByte(cp: nat)
    requires IsScalar(cp)
    ensures Encode(cp) != "" && (if cp < 0x80 then Encode(cp) == [cp as char] else Encode(cp)[0] as int >= 0x80)
  {}

  /** The parser's hexadecimal digits are the sixteen, in either case, with their value. */
  lemma HexExactly(c: char)
    ensures HexValue(c) == Place(c, 16)
  {
    if HexValue(c) >= 0 {
      CodeOf(c, HexValue(c));
      OnePlace(c, 16, HexValue(c));
    } else {
      CodeOf(c, Place(c, 16));
    }
  }

  lemma Hex4Reads(s: string, i: nat, h: string)
    requires IsHex4(h) && Here(s, i, h)
    ensures i <= |s| && ParseHex4(s, i) == Ok(HexNumber(h), i + 4)
  {
    hide Place, ValueOf, HexValue, Here;
    HereAt(s, i, h, 0);
    HereAt(s, i, h, 1);
    HereAt(s, i, h, 2);
    HereAt(s, i, h, 3);
    FourDigits(h, 16);
    HexExactly(h[0]);
    HexExactly(h[1]);
    HexExactly(h[2]);
    HexExactly(h[3]);
  }

  lemma EscapedReads(s: string, i: nat, h: string, rest: string)
    requires IsHex4(h) && Here(s, i, "\\u" + (h + rest))
    ensures i + 6 <= |s| && s[i] == '\\' && s[i + 1] == 'u' && ParseHex4(s, i + 2) == Ok(HexNumber(h), i + 6)
    ensures Here(s, i + 6, rest)
  {
    HereSplit(s, i, "\\u", h + rest);
    HereAt(s, i, "\\u", 0);
    HereAt(s, i, "\\u", 1);
    HereSplit(s, i + 2, h, rest);
    Hex4Reads(s, i + 2, h);
  }

  lemma RawReads(u: Unit, s: string, i: nat)
    requires u.Raw? && ProperUnit(u) && Here(s, i, UnitText(u))
    ensures i < |s| && s[i] != '"' && ParseUnit(s, i) == Ok(UnitMeaning(u), i + |UnitText(u)|)
  {
    hide Encode, ParseEscape;
    FirstByte(u.cp);
    HereAt(s, i, Encode(u.cp), 0);
    TableAcceptsEncoding(s, i, u.cp);
  }

  lemma EscapeReads(u: Unit, s: string, i: nat)
    requires !u.Raw? && ProperUnit(u) && Here(s, i, UnitText(u))
    ensures i < |s| && s[i] == '\\' && ParseEscape(s, i) == Ok(UnitMeaning(u), i + |UnitText(u)|)
  {
    hide Encode, ParseHex4, IsHex4, HexNumber;
    match u
    case Short(c) =>
      HereAt(s, i, UnitText(u), 0);
      HereAt(s, i, UnitText(u), 1);
    case Escaped(h) =>
      hide Here;
      assert UnitText(u) == "\\u" + (h + "");
      EscapedReads(s, i, h, "");
      HexLength(h);
    case Pair(hi, lo) =>
      hide Here;
      assert UnitText(u) == "\\u" + (hi + ("\\u" + (lo + "")));
      EscapedReads(s, i, hi, "\\u" + (lo + ""));
      EscapedReads(s, i + 6, lo, "");
      HexLength(hi);
      HexLength(lo);
  }

  lemma HexLength(h: string)
    requires IsHex4(h)
    ensures |h| == 4
  {}

  /** One unit of a string, however it is written. */
  lemma UnitReads(u: Unit, s: string, i: nat)
    requires ProperUnit(u) && Here(s, i, UnitText(u))
    ensures i < |s| && s[i] != '"' && ParseUnit(s, i) == Ok(UnitMeaning(u), i + |UnitText(u)|)
  {
    hide UnitText, UnitMeaning, ProperUnit, Here, ParseEscape, UnitLen;
    if u.Raw? {
      RawReads(u, s, i);
    } else {
      EscapeReads(u, s, i);
    }
  }

  lemma {:induction false} UnitsRead(us: seq<Unit>, s: string, i: nat, out: string, lim: Limits)
    requires ProperUnits(us) && Here(s, i, UnitsText(us) + "\"")
    requires |out| + |UnitsMeaning(us)| <= lim.maxStringBytes
    ensures i <= |s| && ParseBody(s, i, out, lim) == Ok(out + UnitsMeaning(us), i + |UnitsText(us)| + 1)
    decreases |us|
  {
    hide ParseUnit, UnitText, UnitMeaning, Here;
    if us == [] {
      assert UnitsText(us) + "\"" == ['"'] + "";
      HereChar(s, i, '"', "");
      assert out + "" == out;
    } else {
      var head, rest := UnitText(us[0]), UnitsText(us[1..]);
      assert UnitsText(us) + "\"" == head + (rest + "\"");
      HereSplit(s, i, head, rest + "\"");
      UnitReads(us[0], s, i);
      var out1 := out + UnitMeaning(us[0]);
      UnitsRead(us[1..], s, i + |head|, out1, lim);
      assert out1 + UnitsMeaning(us[1..]) == out + UnitsMeaning(us);
    }
  }

  lemma QuoteReads(us: seq<Unit>, s: string, i: nat, lim: Limits)
    requires ProperUnits(us) && |UnitsMeaning(us)| <= lim.maxStringBytes && Here(s, i, Quote(us))
    ensures i < |s| && s[i] == '"' && ParseString(s, i, lim) == Ok(UnitsMeaning(us), i + |Quote(us)|)
  {
    hide UnitsText, UnitsMeaning, ParseBody, Here;
    assert Quote(us) == ['"'] + (UnitsText(us) + "\"");
    HereChar(s, i, '"', UnitsText(us) + "\"");
    UnitsRead(us, s, i + 1, "", lim);
    assert "" + UnitsMeaning(us) == UnitsMeaning(us);
  }

  // ---- Numbers ---------------------------------------------------------------------------------------

  lemma {:induction false} DigitsEndReads(s: string, i: nat, e: nat)
    requires i <= e <= |s| && AllDigits(s[i..e]) && (e < |s| ==> !IsDigit(s[e]))
    ensures DigitsEnd(s, i) == e
    decreases e - i
  {
    if i < e {
      assert s[i] == s[i..e][0];
      assert s[i..e][1..] == s[i + 1..e];
      DigitsEndReads(s, i + 1, e);
    }
  }

  predicate Int64(n: int) { -(INT64_MAX as int) - 1 <= n <= INT64_MAX }

  function Signed(negative: bool, digits: string): int
    requires Numerals.Numeral(digits, 10)
  {
    if negative then -(ValueOf(digits, 10) as int) else ValueOf(digits, 10)
  }

  /** A numeral is accepted, as the integer it denotes, exactly when that lies within int64. */
  lemma NumeralReads(negative: bool, digits: string, s: string, i: nat)
    requires ProperNumeral(digits) && Here(s, i, (if negative then "-" else "") + digits)
    requires Stops(s, i + (if negative then 1 else 0) + |digits|)
    ensures i < |s| && (s[i] == '-' || IsDigit(s[i]))
    ensures ParseNumber(s, i)
            == if Int64(Signed(negative, digits)) then Ok(Signed(negative, digits), i + (if negative then 1 else 0) + |digits|)
               else Err
  {
    hide NumberOf, ValueOf;
    DecimalExactly(digits);
    HereSplit(s, i, if negative then "-" else "", digits);
    var start := if negative then i + 1 else i;
    var end := start + |digits|;
    if negative {
      HereAt(s, i, "-", 0);
    }
    HereAt(s, start, digits, 0);
    assert s[start..end] == digits;
    DigitsEndReads(s, start, end);
  }

  // ---- Trees -------------------------------------------------------------------------------------------

  /** The first byte of a tree, as the parser's switch sees it. */
  lemma TreeStarts(t: Tree)
    requires Proper(t)
    ensures Written(t) != "" && !IsWs(Written(t)[0]) && Written(t)[0] != ']' && Written(t)[0] != '}'
    ensures t.Table? <==> Written(t)[0] == '{'
    ensures t.List? <==> Written(t)[0] == '['
    ensures t.Text? <==> Written(t)[0] == '"'
  {
    if t.Numeral? {
      hide Place, ValueOf;
      DecimalExactly(t.digits);
    }
  }

  /** What may stand after a value: whitespace, a comma or a closing bracket. */
  predicate Closes(c: char) { IsWs(c) || c == ',' || c == ']' || c == '}' }

  lemma AfterValue(s: string, e: nat, after: string)
    requires Here(s, e, after) && Ws(after) && e + |after| < |s| && Closes(s[e + |after|])
    ensures Stops(s, e)
  {
    if after != "" {
      HereAt(s, e, after, 0);
    }
  }

  function ItemsTail(items: seq<Slot>): (string, string)
    requires ProperItems(items) && items != []
  {
    if |items| == 1 then ("]", "") else (",", ItemsText(items[1..]) + "]")
  }

  lemma ItemsHead(items: seq<Slot>)
    requires ProperItems(items) && items != []
    ensures var (x, w, (last, more)) := (items[0], Written(items[0].tree), ItemsTail(items));
            && ItemsText(items) + "]" == x.before + (w + (x.after + (last + more)))
            && |ItemsText(items)| == |x.before| + |w| + |x.after| + |more|
  {
    hide Written;
  }

  function FieldsTail(fields: seq<Field>): (string, string)
    requires ProperFields(fields) && fields != []
  {
    if |fields| == 1 then ("}", "") else (",", FieldsText(fields[1..]) + "}")
  }

  lemma FieldsHead(fields: seq<Field>)
    requires ProperFields(fields) && fields != []
    ensures var (f, x, q, w) := (fields[0], fields[0].slot, Quote(fields[0].key), Written(fields[0].slot.tree));
            var (last, more) := FieldsTail(fields);
            && FieldsText(fields) + "}" == f.before + (q + (f.mid + (":" + (x.before + (w + (x.after + (last + more)))))))
            && |FieldsText(fields)| == |f.before| + |q| + |f.mid| + 1 + |x.before| + |w| + |x.after| + |more|
  {
    hide Written, Quote, Proper, ProperUnits, Ws;
    var (f, x, q, w) := (fields[0], fields[0].slot, Quote(fields[0].key), Written(fields[0].slot.tree));
    var more := if |fields| == 1 then "" else "," + FieldsText(fields[1..]);
    var r1 := x.after + more;
    var r2 := x.before + (w + r1);
    assert FieldsText(fields) == f.before + (q + (f.mid + (":" + r2)));
    var (last, rest) := FieldsTail(fields);
    assert r1 + "}" == x.after + (last + rest);
    assert r2 + "}" == x.before + (w + (r1 + "}"));
    assert FieldsText(fields) + "}" == f.before + (q + (f.mid + (":" + (r2 + "}"))));
  }

  /** The printed items: the first one with its whitespace, then a comma and the others, or the bracket. */
  lemma ItemsSplit(items: seq<Slot>, s: string, i: nat)
    requires ProperItems(items) && items != [] && Here(s, i, ItemsText(items) + "]")
    ensures var (x, w) := (items[0], Written(items[0].tree));
            var e := i + |x.before| + |w|;
            var f := e + |x.after|;
            && Here(s, i, x.before) && Here(s, i + |x.before|, w) && Here(s, e, x.after) && f < |s|
            && s[f] == (if |items| == 1 then ']' else ',')
            && (|items| == 1 ==> i + |ItemsText(items)| == f)
            && (|items| > 1 ==> Here(s, f + 1, ItemsText(items[1..]) + "]")
                                && i + |ItemsText(items)| == f + 1 + |ItemsText(items[1..])|)
  {
    hide Here, Written, ItemsText;
    var (x, w) := (items[0], Written(items[0].tree));
    var (last, more) := ItemsTail(items);
    ItemsHead(items);
    HereThree(s, i, x.before, w, x.after, last + more);
    HereChar(s, i + |x.before| + |w| + |x.after|, last[0], more);
  }

  lemma FieldsSplit(fields: seq<Field>, s: string, i: nat)
    requires ProperFields(fields) && fields != [] && Here(s, i, FieldsText(fields) + "}")
    ensures var (f, x, q, w) := (fields[0], fields[0].slot, Quote(fields[0].key), Written(fields[0].slot.tree));
            var c := i + |f.before| + |q| + |f.mid|;
            var e := c + 1 + |x.before| + |w|;
            var g := e + |x.after|;
            && Here(s, i, f.before) && Here(s, i + |f.before|, q) && Here(s, i + |f.before| + |q|, f.mid)
            && c < |s| && s[c] == ':'
            && Here(s, c + 1, x.before) && Here(s, c + 1 + |x.before|, w) && Here(s, e, x.after) && g < |s|
            && s[g] == (if |fields| == 1 then '}' else ',')
            && (|fields| == 1 ==> i + |FieldsText(fields)| == g)
            && (|fields| > 1 ==> Here(s, g + 1, FieldsText(fields[1..]) + "}")
                                 && i + |FieldsText(fields)| == g + 1 + |FieldsText(fields[1..])|)
  {
    hide Here, Quote, Written, FieldsText;
    var (f, x, q, w) := (fields[0], fields[0].slot, Quote(fields[0].key), Written(fields[0].slot.tree));
    var (last, more) := FieldsTail(fields);
    var tail := x.before + (w + (x.after + (last + more)));
    FieldsHead(fields);
    HereThree(s, i, f.before, q, f.mid, ":" + tail);
    var c := i + |f.before| + |q| + |f.mid|;
    HereChar(s, c, ':', tail);
    HereThree(s, c + 1, x.before, w, x.after, last + more);
    HereChar(s, c + 1 + |x.before| + |w| + |x.after|, last[0], more);
  }

  ghost predicate ItemsOk(vs: seq<Value>, depth: nat, lim: Limits) {
    |vs| <= lim.maxElements && forall k :: 0 <= k < |vs| ==> ValueOk(vs[k], depth + 1, lim)
  }

  /** Completeness: a proper tree that means a sound value, wherever it stands, is read as that
      value and exactly to its end. */
  lemma {:induction false} TreeReads(t: Tree, s: string, i: nat, depth: nat, lim: Limits)
    requires Proper(t) && ValueOk(Means(t), depth, lim) && Here(s, i, Written(t))
    requires t.Numeral? ==> Stops(s, i + |Written(t)|)
    ensures i <= |s| && ParseValue(s, i, depth, lim) == Ok(Means(t), i + |Written(t)|)
    decreases t, 0
  {
    hide Place;
    TreeStarts(t);
    HereAt(s, i, Written(t), 0);
    match t
    case Word(_) => WordReads(t, s, i, depth, lim);
    case Numeral(_, _) =>
      hide Written, Means, ParseValue, Here;
      NumeralTreeReads(t, s, i, depth, lim);
    case Text(_) =>
      hide Written, Means, ParseValue, Here;
      TextTreeReads(t, s, i, depth, lim);
    case List(items, pad) =>
      hide Here, ValueOk, ParseArray;
      ListReads(items, pad, s, i, depth, lim);
    case Table(fields, pad) =>
      hide Here, ValueOk, ParseObject;
      TableReads(fields, pad, s, i, depth, lim);
  }

  lemma NumeralTreeReads(t: Tree, s: string, i: nat, depth: nat, lim: Limits)
    requires t.Numeral? && Proper(t) && ValueOk(Means(t), depth, lim) && Here(s, i, Written(t))
    requires Stops(s, i + |Written(t)|)
    ensures i <= |s| && ParseValue(s, i, depth, lim) == Ok(Means(t), i + |Written(t)|)
  {
    hide ParseNumber, ValueOf, Place, Here, ParseString;
    NumeralReads(t.negative, t.digits, s, i);
  }

  lemma TextTreeReads(t: Tree, s: string, i: nat, depth: nat, lim: Limits)
    requires t.Text? && Proper(t) && ValueOk(Means(t), depth, lim) && Here(s, i, Written(t))
    ensures i <= |s| && ParseValue(s, i, depth, lim) == Ok(Means(t), i + |Written(t)|)
  {
    hide ParseString, Here, UnitsMeaning, ProperUnits;
    QuoteReads(t.units, s, i, lim);
  }

  lemma WordReads(t: Tree, s: string, i: nat, depth: nat, lim: Limits)
    requires t.Word? && depth <= lim.maxDepth && Here(s, i, Written(t))
    ensures i <= |s| && ParseValue(s, i, depth, lim) == Ok(Means(t), i + |Written(t)|)
  {
    HereAt(s, i, Written(t), 0);
  }

  lemma ListOk(items: seq<Slot>, pad: string, depth: nat, lim: Limits)
    requires Proper(List(items, pad)) && ValueOk(Means(List(items, pad)), depth, lim)
    ensures depth <= lim.maxDepth && ItemsOk(Values(items), depth, lim)
  {}

  lemma TableOk(fields: seq<Field>, pad: string, depth: nat, lim: Limits)
    requires Proper(Table(fields, pad)) && ValueOk(Means(Table(fields, pad)), depth, lim)
    ensures depth <= lim.maxDepth && MembersOk(Members(fields), depth, lim)
  {}

  lemma ListReads(items: seq<Slot>, pad: string, s: string, i: nat, depth: nat, lim: Limits)
    requires Proper(List(items, pad)) && ValueOk(Means(List(items, pad)), depth, lim)
    requires Here(s, i, Written(List(items, pad)))
    ensures i < |s| && depth <= lim.maxDepth
    ensures ParseArray(s, i, depth, lim) == Ok(Means(List(items, pad)), i + |Written(List(items, pad))|)
    decreases items, 3
  {
    hide ParseElements, ValueOk, Here, ItemsText, Values, ItemsOk;
    ListOk(items, pad, depth, lim);
    if items == [] {
      HereChar(s, i, '[', pad + "]");
      HereSplit(s, i + 1, pad, "]");
      HereAt(s, i + 1 + |pad|, "]", 0);
      SkipOver(s, i + 1, pad);
      EmptyValues();
    } else {
      HereChar(s, i, '[', ItemsText(items) + "]");
      assert [] + Values(items) == Values(items);
      ItemsRead(items, [], s, i + 1, depth, lim);
      FirstItem(items, s, i + 1);
      ElementsSkip(s, i + 1, depth, [], lim);
    }
  }

  lemma EmptyValues()
    ensures Values([]) == [] && Members([]) == []
  {}

  /** Where the first item of a list starts, past its whitespace, is no closing bracket. */
  lemma FirstItem(items: seq<Slot>, s: string, i: nat)
    requires ProperItems(items) && items != [] && Here(s, i, ItemsText(items) + "]")
    ensures i <= |s| && SkipWs(s, i) == i + |items[0].before| < |s| && s[SkipWs(s, i)] != ']'
  {
    hide Here, ItemsText, Written;
    ItemsSplit(items, s, i);
    TreeStarts(items[0].tree);
    HereAt(s, i + |items[0].before|, Written(items[0].tree), 0);
    SkipOver(s, i, items[0].before);
  }

  lemma SkipTwice(s: string, i: nat)
    requires i <= |s|
    ensures SkipWs(s, SkipWs(s, i)) == SkipWs(s, i)
  {}

  /** The elements read the same from before or after the whitespace they start with. */
  lemma ElementsSkip(s: string, i: nat, depth: nat, acc: seq<Value>, lim: Limits)
    requires i <= |s|
    ensures ParseElements(s, SkipWs(s, i), depth, acc, lim) == ParseElements(s, i, depth, acc, lim)
  {
    hide ParseValue, SkipWs;
    SkipTwice(s, i);
  }

  lemma MembersSkip(s: string, i: nat, depth: nat, acc: seq<Member>, lim: Limits)
    requires i <= |s|
    ensures ParseMembers(s, SkipWs(s, i), depth, acc, lim) == ParseMembers(s, i, depth, acc, lim)
  {
    hide ParseValue, ParseString, SkipWs;
    SkipTwice(s, i);
  }

  lemma {:induction false} ItemsRead(items: seq<Slot>, acc: seq<Value>, s: string, i: nat, depth: nat, lim: Limits)
    requires ProperItems(items) && items != [] && ItemsOk(acc + Values(items), depth, lim)
    requires Here(s, i, ItemsText(items) + "]")
    ensures i <= |s| && ParseElements(s, i, depth, acc, lim) == Ok(acc + Values(items), i + |ItemsText(items)| + 1)
    decreases items, 2
  {
    hide ParseElement, ItemsOk, SkipWs, Written, ItemsText, Here, Means;
    var x := items[0];
    var v := Means(x.tree);
    var e := i + |x.before| + |Written(x.tree)|;
    var f := e + |x.after|;
    ItemsSplit(items, s, i);
    ItemRead(items, acc, s, i, depth, lim);
    SkipOver(s, e, x.after);
    assert acc + Values(items) == (acc + [v]) + Values(items[1..]);
    if |items| > 1 {
      ItemsRead(items[1..], acc + [v], s, f + 1, depth, lim);
    } else {
      EmptyValues();
      assert items[1..] == [] && (acc + [v]) + [] == acc + [v];
    }
  }

  lemma NextOk(acc: seq<Value>, v: Value, rest: seq<Value>, depth: nat, lim: Limits)
    requires ItemsOk(acc + ([v] + rest), depth, lim)
    ensures |acc| < lim.maxElements && ValueOk(v, depth + 1, lim)
  {
    hide ValueOk;
    assert (acc + ([v] + rest))[|acc|] == v;
  }

  lemma ItemRead(items: seq<Slot>, acc: seq<Value>, s: string, i: nat, depth: nat, lim: Limits)
    requires ProperItems(items) && items != [] && ItemsOk(acc + Values(items), depth, lim)
    requires Here(s, i, ItemsText(items) + "]")
    ensures i <= |s| && ParseElement(s, i, depth, |acc|, lim)
                        == Ok(Means(items[0].tree), i + |items[0].before| + |Written(items[0].tree)|)
    decreases items, 1
  {
    hide ParseValue, ValueOk, ItemsOk, SkipWs, Written, ItemsText, Here, Means;
    var x := items[0];
    var b := i + |x.before|;
    NextOk(acc, Means(x.tree), Values(items[1..]), depth, lim);
    ItemsSplit(items, s, i);
    FirstItem(items, s, i);
    AfterValue(s, b + |Written(x.tree)|, x.after);
    TreeReads(x.tree, s, b, depth + 1, lim);
  }

  lemma TableReads(fields: seq<Field>, pad: string, s: string, i: nat, depth: nat, lim: Limits)
    requires Proper(Table(fields, pad)) && ValueOk(Means(Table(fields, pad)), depth, lim)
    requires Here(s, i, Written(Table(fields, pad)))
    ensures i < |s| && depth <= lim.maxDepth
    ensures ParseObject(s, i, depth, lim) == Ok(Means(Table(fields, pad)), i + |Written(Table(fields, pad))|)
    decreases fields, 3
  {
    hide ParseMembers, ValueOk, Here, FieldsText, Members, MembersOk;
    TableOk(fields, pad, depth, lim);
    if fields == [] {
      HereChar(s, i, '{', pad + "}");
      HereSplit(s, i + 1, pad, "}");
      HereAt(s, i + 1 + |pad|, "}", 0);
      SkipOver(s, i + 1, pad);
      EmptyValues();
    } else {
      HereChar(s, i, '{', FieldsText(fields) + "}");
      assert [] + Members(fields) == Members(fields);
      FieldsRead(fields, [], s, i + 1, depth, lim);
      FirstField(fields, s, i + 1);
      MembersSkip(s, i + 1, depth, [], lim);
    }
  }

  lemma QuoteStarts(us: seq<Unit>)
    requires ProperUnits(us)
    ensures Quote(us) != "" && Quote(us)[0] == '"'
  {}

  lemma FirstField(fields: seq<Field>, s: string, i: nat)
    requires ProperFields(fields) && fields != [] && Here(s, i, FieldsText(fields) + "}")
    ensures i <= |s| && SkipWs(s, i) == i + |fields[0].before| < |s| && s[SkipWs(s, i)] == '"'
  {
    hide Here, FieldsText, Written, Quote, Proper, ProperUnits;
    QuoteStarts(fields[0].key);
    FieldsSplit(fields, s, i);
    HereAt(s, i + |fields[0].before|, Quote(fields[0].key), 0);
    SkipOver(s, i, fields[0].before);
  }

  lemma {:induction false} FieldsRead(fields: seq<Field>, acc: seq<Member>, s: string, i: nat, depth: nat, lim: Limits)
    requires ProperFields(fields) && fields != [] && MembersOk(acc + Members(fields), depth, lim)
    requires Here(s, i, FieldsText(fields) + "}")
    ensures i <= |s| && ParseMembers(s, i, depth, acc, lim) == Ok(acc + Members(fields), i + |FieldsText(fields)| + 1)
    decreases fields, 2
  {
    hide ParseMember, MembersOk, SkipWs, Written, Quote, FieldsText, Here, Means, UnitsMeaning;
    var (f, x) := (fields[0], fields[0].slot);
    var m := Member(UnitsMeaning(f.key), Means(x.tree));
    var e := i + |f.before| + |Quote(f.key)| + |f.mid| + 1 + |x.before| + |Written(x.tree)|;
    var g := e + |x.after|;
    FieldsSplit(fields, s, i);
    FieldRead(fields, acc, s, i, depth, lim);
    SkipOver(s, e, x.after);
    assert acc + Members(fields) == (acc + [m]) + Members(fields[1..]);
    if |fields| > 1 {
      FieldsRead(fields[1..], acc + [m], s, g + 1, depth, lim);
    } else {
      EmptyValues();
      assert fields[1..] == [] && (acc + [m]) + [] == acc + [m];
    }
  }

  lemma NewKey(acc: seq<Member>, m: Member, rest: seq<Member>, depth: nat, lim: Limits)
    requires MembersOk(acc + ([m] + rest), depth, lim)
    ensures !HasKey(acc, m.key) && |acc| < lim.maxMembers && MemberOk(m, depth + 1, lim)
  {
    var all := acc + ([m] + rest);
    assert all[|acc|] == m;
    assert forall k :: 0 <= k < |acc| ==> all[k] == acc[k];
  }

  /** The key and the colon of the first field, read. */
  lemma KeyRead(fields: seq<Field>, s: string, i: nat, lim: Limits)
    requires ProperFields(fields) && fields != [] && Here(s, i, FieldsText(fields) + "}")
    requires |UnitsMeaning(fields[0].key)| <= lim.maxStringBytes
    ensures var f := fields[0];
            var (a, k) := (i + |f.before|, i + |f.before| + |Quote(f.key)|);
            && i <= |s| && SkipWs(s, i) == a < |s| && s[a] == '"'
            && ParseString(s, a, lim) == Ok(UnitsMeaning(f.key), k) && k <= |s|
            && SkipWs(s, k) == k + |f.mid| < |s| && s[k + |f.mid|] == ':'
  {
    hide ParseString, SkipWs, Written, Quote, FieldsText, Here, UnitsMeaning, Proper, ProperUnits;
    FieldsSplit(fields, s, i);
    FirstField(fields, s, i);
    QuoteReads(fields[0].key, s, i + |fields[0].before|, lim);
    SkipOver(s, i + |fields[0].before| + |Quote(fields[0].key)|, fields[0].mid);
  }

  lemma FieldRead(fields: seq<Field>, acc: seq<Member>, s: string, i: nat, depth: nat, lim: Limits)
    requires ProperFields(fields) && fields != [] && MembersOk(acc + Members(fields), depth, lim)
    requires Here(s, i, FieldsText(fields) + "}")
    ensures var (f, x) := (fields[0], fields[0].slot);
            && i <= |s|
            && ParseMember(s, i, depth, acc, lim)
               == Ok(Member(UnitsMeaning(f.key), Means(x.tree)),
                     i + |f.before| + |Quote(f.key)| + |f.mid| + 1 + |x.before| + |Written(x.tree)|)
    decreases fields, 1
  {
    hide ParseValue, ParseString, ValueOk, MembersOk, SkipWs, Written, Quote, FieldsText, Here, Means, UnitsMeaning, ProperUnits;
    var (f, x) := (fields[0], fields[0].slot);
    NewKey(acc, Member(UnitsMeaning(f.key), Means(x.tree)), Members(fields[1..]), depth, lim);
    KeyRead(fields, s, i, lim);
    ValueRead(fields, s, i, depth, lim);
  }

  /** The value of the first field, read from after its colon. */
  lemma ValueRead(fields: seq<Field>, s: string, i: nat, depth: nat, lim: Limits)
    requires ProperFields(fields) && fields != [] && Here(s, i, FieldsText(fields) + "}")
    requires ValueOk(Means(fields[0].slot.tree), depth + 1, lim)
    ensures var (f, x) := (fields[0], fields[0].slot);
            var c := i + |f.before| + |Quote(f.key)| + |f.mid|;
            && c < |s| && SkipWs(s, c + 1) == c + 1 + |x.before|
            && ParseValue(s, c + 1 + |x.before|, depth + 1, lim) == Ok(Means(x.tree), c + 1 + |x.before| + |Written(x.tree)|)
    decreases fields, 0
  {
    hide ParseValue, ValueOk, SkipWs, Written, Quote, FieldsText, Here, Means, Proper, ProperUnits;
    var (f, x) := (fields[0], fields[0].slot);
    FieldsSplit(fields, s, i);
    var c := i + |f.before| + |Quote(f.key)| + |f.mid|;
    var b := c + 1 + |x.before|;
    TreeStarts(x.tree);
    HereAt(s, b, Written(x.tree), 0);
    SkipOver(s, c + 1, x.before);
    AfterValue(s, b + |Written(x.tree)|, x.after);
    TreeReads(x.tree, s, b, depth + 1, lim);
  }
}
