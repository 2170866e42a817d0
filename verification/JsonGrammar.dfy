/** The grammar the parser reads, as concrete syntax: a tree with every free choice of the
    writer in it (whitespace, raw bytes or escapes, the sign of zero), the text it is written
    as and the value it means. A parse succeeds exactly on the texts of proper trees. */
module JsonGrammar {
  import opened Jobs
  import opened Numerals
  import opened Utf8
  import opened Json
  import opened JsonProofs

  /** One unit of a string: a scalar in UTF-8, a two-character escape, a \u escape, a surrogate pair. */
  datatype Unit = Raw(cp: nat) | Short(c: char) | Escaped(h: string) | Pair(hi: string, lo: string)

  datatype Slot = Slot(before: string, tree: Tree, after: string)

  datatype Field = Field(before: string, key: seq<Unit>, mid: string, slot: Slot)

  /** `pad` is what stands between the brackets when there is nothing else. */
  datatype Tree =
    | Word(b: bool)
    | Numeral(negative: bool, digits: string)
    | Text(units: seq<Unit>)
    | List(items: seq<Slot>, pad: string)
    | Table(fields: seq<Field>, pad: string)

  datatype Document = Document(lead: string, tree: Tree, trail: string)

  // ---- Strings ------------------------------------------------------------------------------

  predicate IsHex4(h: string) { |h| == 4 && Numerals.Numeral(h, 16) }

  function HexNumber(h: string): (n: nat)
    requires IsHex4(h)
    ensures n < 0x10000
  {
    FourDigits(h, 16);
    ValueOf(h, 16)
  }

  function ShortMeaning(c: char): Option<char> {
    if c == '"' || c == '\\' || c == '/' then Some(c)
    else if c == 'b' then Some(8 as char)
    else if c == 'f' then Some(12 as char)
    else if c == 'n' then Some('\n')
    else if c == 'r' then Some('\r')
    else if c == 't' then Some('\t')
    else None
  }

  predicate ProperUnit(u: Unit) {
    match u
    case Raw(cp) => IsScalar(cp) && 0x20 <= cp && cp != '"' as int && cp != '\\' as int
    case Short(c) => ShortMeaning(c).Some?
    case Escaped(h) => IsHex4(h) && IsScalar(HexNumber(h)) && HexNumber(h) != 0
    case Pair(hi, lo) => IsHex4(hi) && IsHex4(lo) && 0xD800 <= HexNumber(hi) <= 0xDBFF && 0xDC00 <= HexNumber(lo) <= 0xDFFF
  }

  function UnitText(u: Unit): string
    requires ProperUnit(u)
  {
    match u
    case Raw(cp) => Encode(cp)
    case Short(c) => ['\\', c]
    case Escaped(h) => "\\u" + h
    case Pair(hi, lo) => "\\u" + hi + "\\u" + lo
  }

  function UnitMeaning(u: Unit): string
    requires ProperUnit(u)
  {
    match u
    case Raw(cp) => Encode(cp)
    case Short(c) => [ShortMeaning(c).value]
    case Escaped(h) => Encode(HexNumber(h))
    case Pair(hi, lo) => Encode(0x10000 + (HexNumber(hi) - 0xD800) * 1024 + (HexNumber(lo) - 0xDC00))
  }

  predicate ProperUnits(us: seq<Unit>) { forall k :: 0 <= k < |us| ==> ProperUnit(us[k]) }

  function UnitsText(us: seq<Unit>): string
    requires ProperUnits(us)
  {
    if us == [] then "" else UnitText(us[0]) + UnitsText(us[1..])
  }

  function UnitsMeaning(us: seq<Unit>): string
    requires ProperUnits(us)
  {
    if us == [] then "" else UnitMeaning(us[0]) + UnitsMeaning(us[1..])
  }

  function Quote(us: seq<Unit>): string
    requires ProperUnits(us)
  {
    "\"" + UnitsText(us) + "\""
  }

  // ---- Trees ---------------------------------------------------------------------------------

  /** Spaces, tabs, line feeds and carriage returns, nothing else. */
  predicate Ws(t: string) { forall k :: 0 <= k < |t| ==> t[k] as int in {9, 10, 13, 32} }

  predicate ProperNumeral(digits: string) {
    digits != "" && Numerals.Numeral(digits, 10) && (digits[0] == '0' ==> |digits| == 1)
  }

  predicate Proper(t: Tree) {
    match t
    case Word(_) => true
    case Numeral(_, digits) => ProperNumeral(digits)
    case Text(us) => ProperUnits(us)
    case List(items, pad) => Ws(pad) && ProperItems(items)
    case Table(fields, pad) => Ws(pad) && ProperFields(fields)
  }

  predicate ProperItems(items: seq<Slot>) {
    items != [] ==>
      && Ws(items[0].before) && Ws(items[0].after) && Proper(items[0].tree)
      && ProperItems(items[1..])
  }

  predicate ProperFields(fields: seq<Field>) {
    fields != [] ==>
      && Ws(fields[0].before) && ProperUnits(fields[0].key) && Ws(fields[0].mid)
      && Ws(fields[0].slot.before) && Ws(fields[0].slot.after) && Proper(fields[0].slot.tree)
      && ProperFields(fields[1..])
  }

  function Written(t: Tree): string
    requires Proper(t)
    decreases t
  {
    match t
    case Word(b) => if b then "true" else "false"
    case Numeral(negative, digits) => (if negative then "-" else "") + digits
    case Text(us) => Quote(us)
    case List(items, pad) => "[" + ((if items == [] then pad else ItemsText(items)) + "]")
    case Table(fields, pad) => "{" + ((if fields == [] then pad else FieldsText(fields)) + "}")
  }

  function ItemsText(items: seq<Slot>): string
    requires ProperItems(items)
    decreases items
  {
    if items == [] then ""
    else
      var s := items[0];
      s.before + (Written(s.tree) + (s.after + (if |items| == 1 then "" else "," + ItemsText(items[1..]))))
  }

  function FieldsText(fields: seq<Field>): string
    requires ProperFields(fields)
    decreases fields
  {
    if fields == [] then ""
    else
      var (f, s) := (fields[0], fields[0].slot);
      f.before + (Quote(f.key) + (f.mid + (":" + (s.before + (Written(s.tree) + (s.after
        + (if |fields| == 1 then "" else "," + FieldsText(fields[1..]))))))))
  }

  function Means(t: Tree): Value
    requires Proper(t)
    decreases t
  {
    match t
    case Word(b) => Bool(b)
    case Numeral(negative, digits) => Int(if negative then -(ValueOf(digits, 10) as int) else ValueOf(digits, 10))
    case Text(us) => Str(UnitsMeaning(us))
    case List(items, _) => Arr(Values(items))
    case Table(fields, _) => Obj(Members(fields))
  }

  function Values(items: seq<Slot>): (vs: seq<Value>)
    requires ProperItems(items)
    ensures |vs| == |items|
    decreases items
  {
    if items == [] then [] else [Means(items[0].tree)] + Values(items[1..])
  }

  function Members(fields: seq<Field>): (ms: seq<Member>)
    requires ProperFields(fields)
    ensures |ms| == |fields|
    decreases fields
  {
    if fields == [] then []
    else [Member(UnitsMeaning(fields[0].key), Means(fields[0].slot.tree))] + Members(fields[1..])
  }

  predicate ProperDocument(d: Document) { Ws(d.lead) && Proper(d.tree) && d.tree.Table? && Ws(d.trail) }

  function DocumentText(d: Document): string
    requires ProperDocument(d)
  {
    d.lead + (Written(d.tree) + d.trail)
  }
}
