/** The recursive-descent parser itself (class Parser of json.cpp): one cursor moved
    over the input by loops and recursive calls, proved to compute the functions of
    module Json. */
module JsonParser {
  import opened Jobs
  import opened Digits
  import opened Ascii
  import opened Utf8
  import J = Json

  /** The parser's answer and cursor agree with the functional result. */
  predicate Got<T(==)>(r: Option<T>, i: nat, p: J.Parse<T>) {
    match p
    case Ok(v, n) => r == Some(v) && i == n
    case Err => r == None
  }

  class Parser {
    const s: string
    const lim: J.Limits
    var i: nat

    constructor (s: string, lim: J.Limits)
      ensures this.s == s && this.lim == lim && i == 0
    {
      this.s, this.lim, i := s, lim, 0;
    }

    method SkipWs()
      requires i <= |s|
      modifies this
      ensures i == J.SkipWs(s, old(i))
    {
      while i < |s| && J.IsWs(s[i])
        invariant old(i) <= i <= |s|
        invariant J.SkipWs(s, i) == J.SkipWs(s, old(i))
      {
        i := i + 1;
      }
    }

    method Hex4() returns (r: Option<nat>)
      requires i <= |s|
      modifies this
      ensures i <= |s| && Got(r, i, J.ParseHex4(s, old(i)))
    {
      if |s| - i < 4 {
        return None;
      }
      var v := 0;
      var k := 0;
      while k < 4
        invariant 0 <= k <= 4 && i == old(i)
        invariant forall j :: i <= j < i + k ==> J.IsHex(s[j])
        invariant k == 0 ==> v == 0
        invariant k == 1 ==> v == J.HexValue(s[i])
        invariant k == 2 ==> v == J.HexValue(s[i]) * 16 + J.HexValue(s[i + 1])
        invariant k == 3 ==> v == (J.HexValue(s[i]) * 16 + J.HexValue(s[i + 1])) * 16 + J.HexValue(s[i + 2])
        invariant k == 4 ==> Got(Some(v), i + 4, J.ParseHex4(s, i))
      {
        var d := J.HexValue(s[i + k]);
        if d < 0 {
          return None;
        }
        v := v * 16 + d;
        k := k + 1;
      }
      i := i + 4;
      return Some(v);
    }

    method Utf8Unit() returns (r: Option<string>)
      requires i < |s|
      modifies this
      ensures i <= |s|
      ensures r == if UnitLen(s, old(i)) == 0 then None else Some(s[old(i)..old(i) + UnitLen(s, old(i))])
      ensures r.Some? ==> i == old(i) + UnitLen(s, old(i))
    {
      var c := s[i] as int;
      var len: nat;
      var lo2, hi2 := 0x80, 0xBF;
      if c < 0x80 {
        len := 1;
      } else if 0xC2 <= c <= 0xDF {
        len := 2;
      } else if 0xE0 <= c <= 0xEF {
        len := 3;
        if c == 0xE0 { lo2 := 0xA0; }
        if c == 0xED { hi2 := 0x9F; }
      } else if 0xF0 <= c <= 0xF4 {
        len := 4;
        if c == 0xF0 { lo2 := 0x90; }
        if c == 0xF4 { hi2 := 0x8F; }
      } else {
        return None;
      }
      if |s| - i < len {
        return None;
      }
      var k := 1;
      while k < len
        invariant 1 <= k <= len && i == old(i)
        invariant 1 < k ==> Within(s[i + 1], lo2, hi2)
        invariant forall j :: i + 2 <= j < i + k ==> Within(s[j], 0x80, 0xBF)
      {
        var lo, hi := if k == 1 then lo2 else 0x80, if k == 1 then hi2 else 0xBF;
        if !Within(s[i + k], lo, hi) {
          return None;
        }
        k := k + 1;
      }
      r := Some(s[i..i + len]);
      i := i + len;
    }

    method Escape() returns (r: Option<string>)
      requires i < |s|
      modifies this
      ensures i <= |s| && Got(r, i, J.ParseEscape(s, old(i)))
    {
      i := i + 1;
      if i >= |s| {
        return None;
      }
      var e := s[i];
      i := i + 1;
      if e == '"' || e == '\\' || e == '/' {
        return Some([e]);
      } else if e == 'b' {
        return Some([8 as char]);
      } else if e == 'f' {
        return Some([12 as char]);
      } else if e == 'n' {
        return Some(['\n']);
      } else if e == 'r' {
        return Some(['\r']);
      } else if e == 't' {
        return Some(['\t']);
      } else if e != 'u' {
        return None;
      }
      var first := Hex4();
      if first.None? {
        return None;
      }
      var cp := first.value;
      if cp == 0 {
        return None;
      }
      if 0xD800 <= cp <= 0xDBFF {
        if |s| - i < 2 || s[i] != '\\' || s[i + 1] != 'u' {
          return None;
        }
        i := i + 2;
        var second := Hex4();
        if second.None? {
          return None;
        }
        if second.value < 0xDC00 || second.value > 0xDFFF {
          return None;
        }
        cp := 0x10000 + (cp - 0xD800) * 1024 + (second.value - 0xDC00);
      } else if 0xDC00 <= cp <= 0xDFFF {
        return None;
      }
      return Some(Encode(cp));
    }

    method String() returns (r: Option<string>)
      requires i < |s|
      modifies this
      ensures i <= |s| && Got(r, i, J.ParseString(s, old(i), lim))
    {
      i := i + 1;
      var out := "";
      while i < |s|
        invariant old(i) < i <= |s|
        invariant J.ParseBody(s, i, out, lim) == J.ParseString(s, old(i), lim)
        decreases |s| - i
      {
        if |out| > lim.maxStringBytes {
          return None;
        }
        var c := s[i];
        if c == '"' {
          i := i + 1;
          return Some(out);
        }
        if c < ' ' {
          return None;
        }
        var unit: Option<string>;
        if c != '\\' {
          unit := Utf8Unit();
        } else {
          unit := Escape();
        }
        if unit.None? {
          return None;
        }
        out := out + unit.value;
      }
      return None;
    }

    method Number() returns (r: Option<int>)
      requires i < |s|
      modifies this
      ensures i <= |s| && Got(r, i, J.ParseNumber(s, old(i)))
    {
      var negative := s[i] == '-';
      if negative {
        i := i + 1;
      }
      var start := i;
      if i >= |s| || !IsDigit(s[i]) {
        return None;
      }
      if s[i] == '0' {
        i := i + 1;
        assert s[start..i] == "0";
        if i < |s| && IsDigit(s[i]) {
          return None;
        }
      } else {
        while i < |s| && IsDigit(s[i])
          invariant start <= i <= |s|
          invariant DigitsEnd(s, i) == DigitsEnd(s, start)
        {
          i := i + 1;
        }
      }
      if i < |s| && s[i] == '.' {
        return None;
      }
      if i < |s| && (s[i] == 'e' || s[i] == 'E') {
        return None;
      }
      var acc := Accumulate(s[start..i], if negative then INT64_MAX + 1 else INT64_MAX);
      if acc.None? {
        return None;
      }
      return Some(if negative then -(acc.value as int) else acc.value);
    }

    method Literal(word: string, v: J.Value) returns (r: Option<J.Value>)
      requires i <= |s| && word != ""
      modifies this
      ensures i <= |s| && Got(r, i, J.ParseLiteral(s, old(i), word, v))
    {
      if |s| - i < |word| || s[i..i + |word|] != word {
        return None;
      }
      i := i + |word|;
      return Some(v);
    }

    method ParseValue(depth: nat) returns (r: Option<J.Value>)
      requires i <= |s|
      modifies this
      ensures i <= |s| && Got(r, i, J.ParseValue(s, old(i), depth, lim))
      decreases |s| - i, 0
    {
      if depth > lim.maxDepth || i >= |s| {
        return None;
      }
      var c := s[i];
      if c == '{' {
        r := Object(depth);
      } else if c == '[' {
        r := Array(depth);
      } else if c == '"' {
        var t := String();
        return if t.None? then None else Some(J.Str(t.value));
      } else if c == 't' {
        r := Literal("true", J.Bool(true));
      } else if c == 'f' {
        r := Literal("false", J.Bool(false));
      } else if c == '-' || IsDigit(c) {
        var n := Number();
        return if n.None? then None else Some(J.Int(n.value));
      } else {
        return None;
      }
    }

    method Object(depth: nat) returns (r: Option<J.Value>)
      requires i < |s|
      modifies this
      ensures i <= |s| && Got(r, i, J.ParseObject(s, old(i), depth, lim))
      decreases |s| - i - 1, 3
    {
      hide J.ParseMember, J.SkipWs;
      i := i + 1;
      var members: seq<J.Member> := [];
      SkipWs();
      if i >= |s| {
        return None;
      }
      if s[i] == '}' {
        i := i + 1;
        return Some(J.Obj(members));
      }
      ghost var start := i;
      while true
        invariant start <= i <= |s|
        invariant J.ParseMembers(s, i, depth, members, lim) == J.ParseMembers(s, start, depth, [], lim)
        decreases |s| - i
      {
        var m := NextMember(depth, members);
        if m.None? {
          return None;
        }
        members := members + [m.value];
        SkipWs();
        if i >= |s| {
          return None;
        }
        if s[i] == ',' {
          i := i + 1;
        } else if s[i] == '}' {
          i := i + 1;
          return Some(J.Obj(members));
        } else {
          return None;
        }
      }
    }

    /** The part of the member loop that reads one `name: value`. */
    method NextMember(depth: nat, members: seq<J.Member>) returns (r: Option<J.Member>)
      requires i <= |s|
      modifies this
      ensures i <= |s| && Got(r, i, J.ParseMember(s, old(i), depth, members, lim))
      decreases |s| - i, 1
    {
      hide J.ParseValue, J.ParseString, J.SkipWs;
      SkipWs();
      if i >= |s| || s[i] != '"' {
        return None;
      }
      var key := String();
      if key.None? {
        return None;
      }
      var k := 0;
      while k < |members|
        invariant 0 <= k <= |members|
        invariant forall j :: 0 <= j < k ==> members[j].key != key.value
      {
        if members[k].key == key.value {
          return None;
        }
        k := k + 1;
      }
      if |members| >= lim.maxMembers {
        return None;
      }
      SkipWs();
      if i >= |s| || s[i] != ':' {
        return None;
      }
      i := i + 1;
      SkipWs();
      var v := ParseValue(depth + 1);
      return if v.None? then None else Some(J.Member(key.value, v.value));
    }

    method Array(depth: nat) returns (r: Option<J.Value>)
      requires i < |s|
      modifies this
      ensures i <= |s| && Got(r, i, J.ParseArray(s, old(i), depth, lim))
      decreases |s| - i - 1, 3
    {
      hide J.ParseElement, J.SkipWs;
      i := i + 1;
      var elems: seq<J.Value> := [];
      SkipWs();
      if i >= |s| {
        return None;
      }
      if s[i] == ']' {
        i := i + 1;
        return Some(J.Arr(elems));
      }
      ghost var start := i;
      while true
        invariant start <= i <= |s|
        invariant J.ParseElements(s, i, depth, elems, lim) == J.ParseElements(s, start, depth, [], lim)
        decreases |s| - i
      {
        var v := NextElement(depth, |elems|);
        if v.None? {
          return None;
        }
        elems := elems + [v.value];
        SkipWs();
        if i >= |s| {
          return None;
        }
        if s[i] == ',' {
          i := i + 1;
        } else if s[i] == ']' {
          i := i + 1;
          return Some(J.Arr(elems));
        } else {
          return None;
        }
      }
    }

    method NextElement(depth: nat, count: nat) returns (r: Option<J.Value>)
      requires i <= |s|
      modifies this
      ensures i <= |s| && Got(r, i, J.ParseElement(s, old(i), depth, count, lim))
      decreases |s| - i, 1
    {
      hide J.ParseValue, J.SkipWs;
      SkipWs();
      if i >= |s| || count >= lim.maxElements {
        return None;
      }
      r := ParseValue(depth + 1);
    }

    method Run() returns (r: Option<J.Value>)
      requires i == 0
      modifies this
      ensures r == J.ParseDocument(s, lim)
    {
      if |s| > lim.maxInputBytes {
        return None;
      }
      if J.StartsWithBom(s) {
        return None;
      }
      SkipWs();
      if i >= |s| {
        return None;
      }
      if s[i] != '{' {
        return None;
      }
      r := ParseValue(1);
      if r.None? {
        return;
      }
      SkipWs();
      if i < |s| {
        return None;
      }
    }
  }
}
