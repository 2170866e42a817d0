/** The strict-subset JSON parser (json.cpp): what it accepts, as functions of the
    input and a position. */
module Json {
  import opened Jobs
  import opened Digits
  import opened Ascii
  import opened Utf8

  datatype Member = Member(key: string, value: Value)

  datatype Value = Bool(b: bool) | Int(n: int) | Str(text: string) | Arr(items: seq<Value>) | Obj(members: seq<Member>)

  datatype Limits = Limits(maxDepth: nat, maxInputBytes: nat, maxStringBytes: nat, maxMembers: nat, maxElements: nat)

  /** A parse from some position: what was read and where it ended, or a refusal. */
  datatype Parse<+T> = Ok(value: T, next: nat) | Err

  predicate IsWs(c: char) { c == ' ' || c == '\t' || c == '\n' || c == '\r' }

  function SkipWs(s: string, i: nat): (j: nat)
    requires i <= |s|
    ensures i <= j <= |s| && (j < |s| ==> !IsWs(s[j]))
    ensures forall k :: i <= k < j ==> IsWs(s[k])
    decreases |s| - i
  {
    if i < |s| && IsWs(s[i]) then SkipWs(s, i + 1) else i
  }

  function HexValue(c: char): int {
    if '0' <= c <= '9' then c as int - '0' as int
    else if 'a' <= c <= 'f' then c as int - 'a' as int + 10
    else if 'A' <= c <= 'F' then c as int - 'A' as int + 10
    else -1
  }

  predicate IsHex(c: char) { HexValue(c) >= 0 }

  // ---- Strings --------------------------------------------------------------------

  function ParseHex4(s: string, i: nat): (r: Parse<nat>)
    requires i <= |s|
    ensures r.Ok? ==> r.next == i + 4 <= |s| && r.value < 0x10000
  {
    if i + 4 > |s| || !IsHex(s[i]) || !IsHex(s[i + 1]) || !IsHex(s[i + 2]) || !IsHex(s[i + 3]) then Err
    else Ok(((HexValue(s[i]) * 16 + HexValue(s[i + 1])) * 16 + HexValue(s[i + 2])) * 16 + HexValue(s[i + 3]), i + 4)
  }

  /** The escape at a backslash: the bytes it stands for. */
  function ParseEscape(s: string, i: nat): (r: Parse<string>)
    requires i < |s|
    ensures r.Ok? ==> i + 2 <= r.next <= |s|
  {
    if i + 1 >= |s| then Err
    else
      var e := s[i + 1];
      if e == '"' || e == '\\' || e == '/' then Ok([e], i + 2)
      else if e == 'b' then Ok([8 as char], i + 2)
      else if e == 'f' then Ok([12 as char], i + 2)
      else if e == 'n' then Ok(['\n'], i + 2)
      else if e == 'r' then Ok(['\r'], i + 2)
      else if e == 't' then Ok(['\t'], i + 2)
      else if e == 'u' then ParseUnicode(s, i + 2)
      else Err
  }

  function ParseUnicode(s: string, i: nat): (r: Parse<string>)
    requires i <= |s|
    ensures r.Ok? ==> i + 4 <= r.next <= |s|
  {
    match ParseHex4(s, i)
    case Err => Err
    case Ok(cp, j) =>
      if cp == 0 || 0xDC00 <= cp <= 0xDFFF then Err
      else if 0xD800 <= cp <= 0xDBFF then
        if j + 2 > |s| || s[j] != '\\' || s[j + 1] != 'u' then Err
        else
          match ParseHex4(s, j + 2)
          case Err => Err
          case Ok(lo, k) =>
            if lo < 0xDC00 || lo > 0xDFFF then Err
            else Ok(Encode(0x10000 + (cp - 0xD800) * 1024 + (lo - 0xDC00)), k)
      else Ok(Encode(cp), j)
  }

  /** One unit of a string body: a vetted UTF-8 sequence or an escape. */
  function ParseUnit(s: string, i: nat): (r: Parse<string>)
    requires i < |s|
    ensures r.Ok? ==> i < r.next <= |s|
  {
    if s[i] < ' ' then Err
    else if s[i] == '\\' then ParseEscape(s, i)
    else if UnitLen(s, i) == 0 then Err
    else Ok(s[i..i + UnitLen(s, i)], i + UnitLen(s, i))
  }

  /** The rest of a string whose decoded beginning is `out`, up to the closing quote. */
  function ParseBody(s: string, i: nat, out: string, lim: Limits): (r: Parse<string>)
    requires i <= |s|
    ensures r.Ok? ==> i < r.next <= |s|
    decreases |s| - i
  {
    if i >= |s| || |out| > lim.maxStringBytes then Err
    else if s[i] == '"' then Ok(out, i + 1)
    else
      match ParseUnit(s, i)
      case Err => Err
      case Ok(bytes, j) => ParseBody(s, j, out + bytes, lim)
  }

  function ParseString(s: string, i: nat, lim: Limits): (r: Parse<string>)
    requires i < |s|
    ensures r.Ok? ==> i + 1 < r.next <= |s|
  {
    ParseBody(s, i + 1, "", lim)
  }

  // ---- Numbers and literals -----------------------------------------------------------

  function ParseNumber(s: string, i: nat): (r: Parse<int>)
    requires i < |s|
    ensures r.Ok? ==> i < r.next <= |s|
  {
    var negative := s[i] == '-';
    var start := if negative then i + 1 else i;
    if start >= |s| || !IsDigit(s[start]) then Err
    else
      var end := if s[start] == '0' then start + 1 else DigitsEnd(s, start);
      assert s[start] == '0' ==> s[start..end] == "0";
      if s[start] == '0' && end < |s| && IsDigit(s[end]) then Err
      else if end < |s| && (s[end] == '.' || s[end] == 'e' || s[end] == 'E') then Err
      else
        var n: int := NumberOf(s[start..end]);
        if n > (if negative then INT64_MAX + 1 else INT64_MAX) then Err
        else Ok(if negative then -n else n, end)
  }

  function ParseLiteral(s: string, i: nat, word: string, v: Value): (r: Parse<Value>)
    requires i <= |s| && word != ""
    ensures r.Ok? ==> i < r.next <= |s|
  {
    if i + |word| <= |s| && s[i..i + |word|] == word then Ok(v, i + |word|) else Err
  }

  // ---- Values --------------------------------------------------------------------------

  function ParseValue(s: string, i: nat, depth: nat, lim: Limits): (r: Parse<Value>)
    requires i <= |s|
    ensures r.Ok? ==> i < r.next <= |s|
    decreases |s| - i, 0
  {
    if depth > lim.maxDepth || i >= |s| then Err
    else if s[i] == '{' then ParseObject(s, i, depth, lim)
    else if s[i] == '[' then ParseArray(s, i, depth, lim)
    else if s[i] == '"' then
      match ParseString(s, i, lim)
      case Err => Err
      case Ok(t, n) => Ok(Str(t), n)
    else if s[i] == 't' then ParseLiteral(s, i, "true", Bool(true))
    else if s[i] == 'f' then ParseLiteral(s, i, "false", Bool(false))
    else if s[i] == '-' || IsDigit(s[i]) then
      match ParseNumber(s, i)
      case Err => Err
      case Ok(n, e) => Ok(Int(n), e)
    else Err
  }

  function ParseObject(s: string, i: nat, depth: nat, lim: Limits): (r: Parse<Value>)
    requires i < |s|
    ensures r.Ok? ==> i < r.next <= |s|
    decreases |s| - i - 1, 3
  {
    var j := SkipWs(s, i + 1);
    if j >= |s| then Err
    else if s[j] == '}' then Ok(Obj([]), j + 1)
    else
      match ParseMembers(s, j, depth, [], lim)
      case Err => Err
      case Ok(ms, n) => Ok(Obj(ms), n)
  }

  function ParseArray(s: string, i: nat, depth: nat, lim: Limits): (r: Parse<Value>)
    requires i < |s|
    ensures r.Ok? ==> i < r.next <= |s|
    decreases |s| - i - 1, 3
  {
    var j := SkipWs(s, i + 1);
    if j >= |s| then Err
    else if s[j] == ']' then Ok(Arr([]), j + 1)
    else
      match ParseElements(s, j, depth, [], lim)
      case Err => Err
      case Ok(vs, n) => Ok(Arr(vs), n)
  }

  predicate HasKey(ms: seq<Member>, key: string) {
    exists k :: 0 <= k < |ms| && ms[k].key == key
  }

  /** Members from just after '{' or ',', those before being `acc`. */
  function ParseMembers(s: string, i: nat, depth: nat, acc: seq<Member>, lim: Limits): (r: Parse<seq<Member>>)
    requires i <= |s|
    ensures r.Ok? ==> i < r.next <= |s|
    decreases |s| - i, 2
  {
    match ParseMember(s, i, depth, acc, lim)
    case Err => Err
    case Ok(m, e) =>
      var f := SkipWs(s, e);
      if f >= |s| then Err
      else if s[f] == ',' then ParseMembers(s, f + 1, depth, acc + [m], lim)
      else if s[f] == '}' then Ok(acc + [m], f + 1)
      else Err
  }

  function ParseMember(s: string, i: nat, depth: nat, acc: seq<Member>, lim: Limits): (r: Parse<Member>)
    requires i <= |s|
    ensures r.Ok? ==> i < r.next <= |s|
    decreases |s| - i, 1
  {
    var j := SkipWs(s, i);
    if j >= |s| || s[j] != '"' then Err
    else
      match ParseString(s, j, lim)
      case Err => Err
      case Ok(key, k) =>
        if HasKey(acc, key) || |acc| >= lim.maxMembers then Err
        else
          var c := SkipWs(s, k);
          if c >= |s| || s[c] != ':' then Err
          else
            match ParseValue(s, SkipWs(s, c + 1), depth + 1, lim)
            case Err => Err
            case Ok(v, e) => Ok(Member(key, v), e)
  }

  /** Elements from just after '[' or ',', those before being `acc`. */
  function ParseElements(s: string, i: nat, depth: nat, acc: seq<Value>, lim: Limits): (r: Parse<seq<Value>>)
    requires i <= |s|
    ensures r.Ok? ==> i < r.next <= |s|
    decreases |s| - i, 2
  {
    match ParseElement(s, i, depth, |acc|, lim)
    case Err => Err
    case Ok(v, e) =>
      var f := SkipWs(s, e);
      if f >= |s| then Err
      else if s[f] == ',' then ParseElements(s, f + 1, depth, acc + [v], lim)
      else if s[f] == ']' then Ok(acc + [v], f + 1)
      else Err
  }

  function ParseElement(s: string, i: nat, depth: nat, count: nat, lim: Limits): (r: Parse<Value>)
    requires i <= |s|
    ensures r.Ok? ==> i < r.next <= |s|
    decreases |s| - i, 1
  {
    var j := SkipWs(s, i);
    if j >= |s| || count >= lim.maxElements then Err
    else ParseValue(s, j, depth + 1, lim)
  }

  predicate StartsWithBom(s: string) {
    |s| >= 3 && s[0] as int == 0xEF && s[1] as int == 0xBB && s[2] as int == 0xBF
  }

  /** A whole document: one object, with nothing but whitespace around it. */
  function ParseDocument(s: string, lim: Limits): Option<Value> {
    if |s| > lim.maxInputBytes || StartsWithBom(s) then None
    else
      var i := SkipWs(s, 0);
      if i >= |s| || s[i] != '{' then None
      else
        match ParseValue(s, i, 1, lim)
        case Err => None
        case Ok(v, n) => if SkipWs(s, n) < |s| then None else Some(v)
  }
}
