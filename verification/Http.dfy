/** The HTTP/1.1 head parser (http_parser.cpp), as a function of the bytes received
    so far. A byte is a character below 256. */
module Http {
  import opened Jobs
  import opened Digits
  import opened Ascii

  datatype Request = Request(method_: string, target: string, version: string, headers: map<string, string>, body: string)

  datatype HeadParse = Ready(request: Request, headLen: nat) | NeedMore | Bad | TooLarge

  const MAX_HEADERS: nat := 64

  // ---- Characters and tokens -----------------------------------------------------------

  predicate IsUpper(c: char) { 'A' <= c <= 'Z' }
  predicate IsLower(c: char) { 'a' <= c <= 'z' }
  predicate IsOws(c: char) { c == ' ' || c == '\t' }

  function ToLower(c: char): char {
    if IsUpper(c) then (c as int - 'A' as int + 'a' as int) as char else c
  }

  function LowerAscii(s: string): string {
    seq(|s|, i requires 0 <= i < |s| => ToLower(s[i]))
  }

  predicate ValidMethod(s: string) {
    1 <= |s| <= 16 && forall i :: 0 <= i < |s| ==> IsUpper(s[i])
  }

  predicate ValidTarget(s: string) {
    s != "" && s[0] == '/' && forall i :: 0 <= i < |s| ==> s[i] != ' ' && !IsControl(s[i])
  }

  predicate ValidHeaderName(s: string) {
    s != "" && forall i :: 0 <= i < |s| ==> IsLower(s[i]) || IsUpper(s[i]) || IsDigit(s[i]) || s[i] == '-' || s[i] == '_'
  }

  predicate NoCtl(s: string) { forall i :: 0 <= i < |s| ==> !IsControl(s[i]) }

  /** The first index at or after `i` holding `c`, or -1. */
  function Find(s: string, c: char, i: nat): (r: int)
    requires i <= |s|
    ensures r == -1 || (i <= r < |s| && s[r] == c)
    ensures forall k :: i <= k < |s| && (r == -1 || k < r) ==> s[k] != c
    decreases |s| - i
  {
    if i == |s| then -1 else if s[i] == c then i else Find(s, c, i + 1)
  }

  function TrimLeft(s: string): string {
    if s != "" && IsOws(s[0]) then TrimLeft(s[1..]) else s
  }

  function TrimRight(s: string): string {
    if s != "" && IsOws(s[|s| - 1]) then TrimRight(s[..|s| - 1]) else s
  }

  function TrimOws(s: string): string { TrimRight(TrimLeft(s)) }

  // ---- The head ----------------------------------------------------------------------------

  predicate EndAt(data: string, i: int) {
    0 <= i && i + 4 <= |data| && data[i] == '\r' && data[i + 1] == '\n' && data[i + 2] == '\r' && data[i + 3] == '\n'
  }

  /** Where the blank line starts, or -1. */
  function FindEnd(data: string, i: nat): (r: int)
    ensures r == -1 || (i <= r && EndAt(data, r))
    ensures forall k :: i <= k && (r == -1 || k < r) ==> !EndAt(data, k)
    decreases |data| - i
  {
    if i + 4 > |data| then -1 else if EndAt(data, i) then i else FindEnd(data, i + 1)
  }

  /** What successive getline calls deliver. */
  function LinesOf(h: string): seq<string>
    decreases |h|
  {
    if h == "" then []
    else
      var k := Find(h, '\n', 0);
      if k < 0 then [h] else [h[..k]] + LinesOf(h[k + 1..])
  }

  /** A line without its carriage return, or None when it does not end in one. */
  function Framed(line: string): Option<string> {
    if line == "" || line[|line| - 1] != '\r' then None else Some(line[..|line| - 1])
  }

  /** METHOD SP target SP version, with exactly two spaces. */
  function ParseRequestLine(line: string): Option<Request> {
    var sp1 := Find(line, ' ', 0);
    if sp1 < 0 then None
    else
      var sp2 := Find(line, ' ', sp1 + 1);
      if sp2 < 0 || Find(line, ' ', sp2 + 1) >= 0 then None
      else
        var m, t, v := line[..sp1], line[sp1 + 1..sp2], line[sp2 + 1..];
        if ValidMethod(m) && ValidTarget(t) && (v == "HTTP/1.1" || v == "HTTP/1.0")
        then Some(Request(m, t, v, map[], "")) else None
  }

  /** One header line: its lowercased name and trimmed value. */
  function ParseHeader(line: string): Option<(string, string)> {
    if line == "" || IsOws(line[0]) then None
    else
      var colon := Find(line, ':', 0);
      if colon < 0 then None
      else
        var name, value := line[..colon], TrimOws(line[colon + 1..]);
        if ValidHeaderName(name) && NoCtl(value) then Some((LowerAscii(name), value)) else None
  }

  /** The headers from line `k` on, `acc` being those before it. */
  function ParseHeaders(lines: seq<string>, k: nat, acc: map<string, string>, count: nat): Option<map<string, string>>
    requires k <= |lines|
    decreases |lines| - k
  {
    if k == |lines| then Some(acc)
    else
      match Framed(lines[k])
      case None => None
      case Some(line) =>
        if line == "" then Some(acc)
        else
          match ParseHeader(line)
          case None => None
          case Some((key, value)) =>
            if count + 1 > MAX_HEADERS || key in acc then None
            else ParseHeaders(lines, k + 1, acc[key := value], count + 1)
  }

  function ParseHeadText(head: string, headLen: nat): HeadParse {
    var lines := LinesOf(head);
    if lines == [] || Framed(lines[0]).None? then Bad
    else
      match ParseRequestLine(Framed(lines[0]).value)
      case None => Bad
      case Some(req) =>
        match ParseHeaders(lines, 1, map[], 0)
        case None => Bad
        case Some(headers) => Ready(req.(headers := headers), headLen)
  }

  function ParseHead(data: string, maxHead: nat): HeadParse {
    var end := FindEnd(data, 0);
    if end < 0 then (if |data| > maxHead then TooLarge else NeedMore)
    else if end + 4 > maxHead then TooLarge
    else ParseHeadText(data[..end + 2], end + 4)
  }

  method ParseRequestHead(data: string, maxHead: nat) returns (r: HeadParse)
    ensures r == ParseHead(data, maxHead)
  {
    hide ParseHeader, ParseRequestLine, LinesOf, FindEnd;
    var end := FindEnd(data, 0);
    if end < 0 {
      if |data| > maxHead {
        return TooLarge;
      }
      return NeedMore;
    }
    if end + 4 > maxHead {
      return TooLarge;
    }
    var lines := LinesOf(data[..end + 2]);
    if lines == [] || lines[0] == "" || lines[0][|lines[0]| - 1] != '\r' {
      return Bad;
    }
    var first := ParseRequestLine(lines[0][..|lines[0]| - 1]);
    if first.None? {
      return Bad;
    }
    var headers: map<string, string> := map[];
    var count := 0;
    var k := 1;
    while k < |lines|
      invariant 1 <= k <= |lines|
      invariant ParseHeaders(lines, k, headers, count) == ParseHeaders(lines, 1, map[], 0)
    {
      var line := lines[k];
      if line == "" || line[|line| - 1] != '\r' {
        return Bad;
      }
      line := line[..|line| - 1];
      if line == "" {
        break;
      }
      var header := ParseHeader(line);
      if header.None? {
        return Bad;
      }
      count := count + 1;
      if count > MAX_HEADERS {
        return Bad;
      }
      var (key, value) := header.value;
      if key in headers {
        return Bad;
      }
      headers := headers[key := value];
      k := k + 1;
    }
    return Ready(first.value.(headers := headers), end + 4);
  }

  // ---- The declared body length ----------------------------------------------------------------

  datatype LengthResult = Length(n: nat) | Refused(status: nat)

  /** The answer, from the numeral's value: digits only, the whole token, at most `maxBody`.
      A run of digits past uint64 is refused as too large before what follows it is looked at. */
  function LengthOf(headers: map<string, string>, maxBody: nat): LengthResult {
    if "transfer-encoding" in headers then Refused(400)
    else if "content-length" !in headers then Length(0)
    else
      var v := headers["content-length"];
      var k := DigitsEnd(v, 0);
      if v == "" then Refused(400)
      else if NumberOf(v[..k]) > UINT64_MAX then Refused(413)
      else if k < |v| then Refused(400)
      else if NumberOf(v) > maxBody then Refused(413)
      else Length(NumberOf(v))
  }

  method ContentLengthFor(headers: map<string, string>, maxBody: nat) returns (r: LengthResult)
    requires maxBody <= UINT64_MAX
    ensures r == LengthOf(headers, maxBody)
  {
    if "transfer-encoding" in headers {
      return Refused(400);
    }
    if "content-length" !in headers {
      return Length(0);
    }
    var v := headers["content-length"];
    if v == "" {
      return Refused(400);
    }
    var parsed := 0;
    var i := 0;
    while i < |v|
      invariant 0 <= i <= |v| && AllDigits(v[..i])
      invariant parsed == NumberOf(v[..i]) && parsed <= UINT64_MAX
      invariant DigitsEnd(v, i) == DigitsEnd(v, 0)
    {
      if !IsDigit(v[i]) {
        return Refused(400);
      }
      var digit := DigitOf(v[i]);
      assert v[..i + 1][..i] == v[..i];
      if parsed > (UINT64_MAX - digit) / 10 {
        var run := v[..DigitsEnd(v, 0)];
        assert run[..i + 1] == v[..i + 1];
        ValueGrows(run, i + 1);
        return Refused(413);
      }
      parsed := parsed * 10 + digit;
      i := i + 1;
    }
    assert v[..i] == v;
    if parsed > maxBody {
      return Refused(413);
    }
    return Length(parsed);
  }

  /** Exactly the numerals up to the bound are accepted, and with their value. */
  lemma LengthIsExact(headers: map<string, string>, maxBody: nat, n: nat)
    requires maxBody <= UINT64_MAX
    ensures LengthOf(headers, maxBody) == Length(n) <==>
            && "transfer-encoding" !in headers
            && (if "content-length" !in headers then n == 0
                else var v := headers["content-length"];
                     v != "" && AllDigits(v) && NumberOf(v) == n && n <= maxBody)
  {
    if "content-length" in headers {
      var v := headers["content-length"];
      if AllDigits(v) {
        assert v[..|v|] == v;
      }
    }
  }

  /** Some digits at the start of the text already denote more than uint64 holds. */
  ghost predicate StartsTooLarge(v: string) {
    exists k :: 0 <= k <= |v| && AllDigits(v[..k]) && NumberOf(v[..k]) > 0xFFFF_FFFF_FFFF_FFFF
  }

  lemma RunReaches(v: string, k: nat)
    requires k <= |v| && AllDigits(v[..k])
    ensures k <= DigitsEnd(v, 0) && AllDigits(v[..DigitsEnd(v, 0)])
  {
    var e := DigitsEnd(v, 0);
    assert v[0..e] == v[..e];
    assert forall i :: 0 <= i < k ==> v[i] == v[..k][i];
  }

  lemma DigitsBefore(v: string, k: nat)
    requires k <= |v| && AllDigits(v[..k])
    ensures k <= DigitsEnd(v, 0) && AllDigits(v[..DigitsEnd(v, 0)])
    ensures NumberOf(v[..k]) <= NumberOf(v[..DigitsEnd(v, 0)])
  {
    RunReaches(v, k);
    hide NumberOf, AllDigits, DigitsEnd;
    var e := DigitsEnd(v, 0);
    assert v[..e][..k] == v[..k];
    ValueGrows(v[..e], k);
  }

  /** Every refusal, exactly: 413 for a number too large, be it past uint64 before anything
      else is looked at or past the bound; 400 for a transfer-encoding, an empty value or
      one that is not all digits. */
  lemma StatusIsExact(headers: map<string, string>, maxBody: nat, status: nat)
    requires maxBody <= 0xFFFF_FFFF_FFFF_FFFF
    ensures LengthOf(headers, maxBody) == Refused(status) <==>
            if "transfer-encoding" in headers then status == 400
            else
              && "content-length" in headers
              && var v := headers["content-length"];
                 if StartsTooLarge(v) || (v != "" && AllDigits(v) && NumberOf(v) > maxBody) then status == 413
                 else status == 400 && (v == "" || !AllDigits(v))
  {
    if "content-length" in headers {
      var v := headers["content-length"];
      var e := DigitsEnd(v, 0);
      assert v[0..e] == v[..e];
      if k :| 0 <= k <= |v| && AllDigits(v[..k]) && NumberOf(v[..k]) > 0xFFFF_FFFF_FFFF_FFFF {
        DigitsBefore(v, k);
      }
      if AllDigits(v) {
        assert v[..|v|] == v;
        DigitsBefore(v, |v|);
      }
    }
  }

  // ---- Streaming -------------------------------------------------------------------------------

  lemma FindEndExtends(data: string, more: string)
    ensures FindEnd(data, 0) >= 0 ==> FindEnd(data + more, 0) == FindEnd(data, 0)
    ensures FindEnd(data, 0) < 0 ==> FindEnd(data + more, 0) < 0 || FindEnd(data + more, 0) + 4 > |data|
  {
    var a, b := FindEnd(data, 0), FindEnd(data + more, 0);
    assert forall k :: EndAt(data, k) ==> EndAt(data + more, k);
    assert forall k :: k + 4 <= |data| && EndAt(data + more, k) ==> EndAt(data, k);
  }

  /** Any verdict but NeedMore, with its request and head length, survives every extension of the data. */
  lemma VerdictIsFinal(data: string, more: string, maxHead: nat)
    requires ParseHead(data, maxHead) != NeedMore
    ensures ParseHead(data + more, maxHead) == ParseHead(data, maxHead)
  {
    hide ParseHeadText;
    FindEndExtends(data, more);
    var end := FindEnd(data, 0);
    if end >= 0 {
      assert (data + more)[..end + 2] == data[..end + 2];
    }
  }

  /** Two readers of one stream, stopping wherever their chunks made them stop, agree. */
  lemma ChunkingIndependent(stream: string, a: nat, b: nat, maxHead: nat)
    requires a <= |stream| && b <= |stream|
    requires ParseHead(stream[..a], maxHead) != NeedMore && ParseHead(stream[..b], maxHead) != NeedMore
    ensures ParseHead(stream[..a], maxHead) == ParseHead(stream[..b], maxHead) == ParseHead(stream, maxHead)
  {
    hide ParseHead;
    VerdictIsFinal(stream[..a], stream[a..], maxHead);
    VerdictIsFinal(stream[..b], stream[b..], maxHead);
    assert stream == stream[..a] + stream[a..] == stream[..b] + stream[b..];
  }

  /** Every proper prefix of a valid head still needs more. */
  lemma PrefixNeedsMore(data: string, maxHead: nat, k: nat)
    requires ParseHead(data, maxHead).Ready? && k < ParseHead(data, maxHead).headLen
    ensures k <= |data| && ParseHead(data[..k], maxHead) == NeedMore
  {
    hide ParseHeadText;
    HeadLenIsEnd(data, maxHead);
    var p := data[..k];
    FindEndExtends(p, data[k..]);
    assert p + data[k..] == data;
  }

  lemma HeadLenIsEnd(data: string, maxHead: nat)
    requires ParseHead(data, maxHead).Ready?
    ensures ParseHead(data, maxHead).headLen == FindEnd(data, 0) + 4 <= |data|
    ensures ParseHead(data, maxHead).headLen <= maxHead
    ensures ParseHead(data, maxHead).request.body == ""
  {}

  /** What a delivered request looks like: valid line, at most 64 distinct lowercase
      header names, trimmed values free of control characters. */
  predicate HeadersOk(h: map<string, string>) {
    && |h| <= MAX_HEADERS
    && forall k :: k in h ==> k == LowerAscii(k) && ValidHeaderName(k) && NoCtl(h[k]) && TrimOws(h[k]) == h[k]
  }

  predicate RequestOk(r: Request) {
    ValidMethod(r.method_) && ValidTarget(r.target) && (r.version == "HTTP/1.1" || r.version == "HTTP/1.0") && HeadersOk(r.headers)
  }

  lemma {:induction false} TrimLeftTwice(s: string)
    ensures TrimLeft(s) == "" || !IsOws(TrimLeft(s)[0])
    ensures exists k :: 0 <= k <= |s| && TrimLeft(s) == s[k..]
    decreases |s|
  {
    if s != "" && IsOws(s[0]) {
      TrimLeftTwice(s[1..]);
      var k :| 0 <= k <= |s[1..]| && TrimLeft(s[1..]) == s[1..][k..];
      assert s[1..][k..] == s[k + 1..];
    } else {
      assert s == s[0..];
    }
  }

  lemma {:induction false} TrimRightTwice(s: string)
    ensures TrimRight(s) == "" || !IsOws(TrimRight(s)[|TrimRight(s)| - 1])
    ensures TrimRight(TrimRight(s)) == TrimRight(s)
    ensures TrimRight(s) <= s
    decreases |s|
  {
    if s != "" && IsOws(s[|s| - 1]) {
      TrimRightTwice(s[..|s| - 1]);
    }
  }

  lemma TrimTwice(s: string)
    ensures TrimOws(TrimOws(s)) == TrimOws(s)
  {
    TrimLeftTwice(s);
    TrimRightTwice(TrimLeft(s));
    var t := TrimOws(s);
    if t != "" {
      assert t[0] == TrimLeft(s)[0];
    }
  }

  lemma LowerName(name: string)
    requires ValidHeaderName(name)
    ensures var k := LowerAscii(name); ValidHeaderName(k) && LowerAscii(k) == k
  {
    var k := LowerAscii(name);
    assert forall i :: 0 <= i < |k| ==> ToLower(k[i]) == k[i];
  }

  lemma {:induction false} HeadersSound(lines: seq<string>, k: nat, acc: map<string, string>, count: nat)
    requires k <= |lines| && HeadersOk(acc) && |acc| == count && ParseHeaders(lines, k, acc, count).Some?
    ensures HeadersOk(ParseHeaders(lines, k, acc, count).value)
    decreases |lines| - k
  {
    hide ParseHeader, ValidHeaderName, TrimOws;
    if k < |lines| && Framed(lines[k]).value != "" {
      var line := Framed(lines[k]).value;
      var (key, value) := ParseHeader(line).value;
      HeaderSound(line);
      HeadersSound(lines, k + 1, acc[key := value], count + 1);
    }
  }

  lemma HeaderSound(line: string)
    requires ParseHeader(line).Some?
    ensures var (k, v) := ParseHeader(line).value;
            k == LowerAscii(k) && ValidHeaderName(k) && NoCtl(v) && TrimOws(v) == v
  {
    var colon := Find(line, ':', 0);
    LowerName(line[..colon]);
    TrimTwice(line[colon + 1..]);
  }

  /** Every request the parser delivers is well-formed. */
  lemma RequestSound(data: string, maxHead: nat)
    requires ParseHead(data, maxHead).Ready?
    ensures RequestOk(ParseHead(data, maxHead).request)
  {
    var lines := LinesOf(data[..FindEnd(data, 0) + 2]);
    HeadersSound(lines, 1, map[], 0);
  }
}
