/** The heads the HTTP parser accepts, written out: a request line, header lines with any
    blanks around their values, and an empty line. Every such text is read as what it says,
    and nothing else is accepted. */
module HttpGrammar {
  import opened Jobs
  import opened Digits
  import opened Ascii
  import opened Http

  /** A header line: name, colon, blanks, value, blanks. */
  datatype Field = Field(name: string, before: string, value: string, after: string)

  datatype Head = Head(verb: string, target: string, version: string, fields: seq<Field>)

  // ---- What may be written, by character codes ------------------------------------------------

  predicate VerbOk(s: string) { 1 <= |s| <= 16 && forall i :: 0 <= i < |s| ==> 65 <= s[i] as int <= 90 }

  predicate Printable(s: string) { forall i :: 0 <= i < |s| ==> 32 <= s[i] as int && s[i] as int != 127 }

  predicate TargetOk(s: string) { s != "" && s[0] == '/' && Printable(s) && forall i :: 0 <= i < |s| ==> s[i] as int != 32 }

  predicate NameOk(s: string) {
    s != "" && forall i :: 0 <= i < |s| ==>
      var c := s[i] as int; 48 <= c <= 57 || 65 <= c <= 90 || 97 <= c <= 122 || c == 45 || c == 95
  }

  predicate Blanks(s: string) { forall i :: 0 <= i < |s| ==> s[i] as int in {9, 32} }

  predicate FieldOk(f: Field) {
    && NameOk(f.name) && Blanks(f.before) && Blanks(f.after)
    && Printable(f.value) && (f.value != "" ==> f.value[0] as int != 32 && f.value[|f.value| - 1] as int != 32)
  }

  /** Letters in small, everything else as it is. */
  function Small(s: string): (r: string)
    ensures |r| == |s|
  {
    if s == "" then "" else [if 65 <= s[0] as int <= 90 then (s[0] as int + 32) as char else s[0]] + Small(s[1..])
  }

  predicate DistinctNames(fs: seq<Field>) { forall i, j :: 0 <= i < j < |fs| ==> Small(fs[i].name) != Small(fs[j].name) }

  predicate FieldsOk(fs: seq<Field>) { forall i :: 0 <= i < |fs| ==> FieldOk(fs[i]) }

  predicate Proper(h: Head) {
    && VerbOk(h.verb) && TargetOk(h.target) && (h.version == "HTTP/1.1" || h.version == "HTTP/1.0")
    && FieldsOk(h.fields) && DistinctNames(h.fields) && |h.fields| <= 64
  }

  // ---- How it is written, and what it says --------------------------------------------------------

  function FirstLine(h: Head): string { h.verb + " " + h.target + " " + h.version }

  function FieldLine(f: Field): string { f.name + ":" + (f.before + f.value + f.after) }

  function FieldLines(fs: seq<Field>): (ls: seq<string>)
    ensures |ls| == |fs| && forall i :: 0 <= i < |fs| ==> ls[i] == FieldLine(fs[i])
  {
    seq(|fs|, i requires 0 <= i < |fs| => FieldLine(fs[i]))
  }

  function LinesFor(h: Head): seq<string> { [FirstLine(h)] + FieldLines(h.fields) }

  /** Every line with its line break. */
  function Joined(lines: seq<string>): string {
    if lines == [] then "" else lines[0] + "\r\n" + Joined(lines[1..])
  }

  function HeadText(h: Head): string { Joined(LinesFor(h)) + "\r\n" }

  /** Each name in small letters, with its value. */
  function HeadersOf(fs: seq<Field>): map<string, string> {
    if fs == [] then map[] else HeadersOf(fs[..|fs| - 1])[Small(fs[|fs| - 1].name) := fs[|fs| - 1].value]
  }

  function Says(h: Head): Request { Request(h.verb, h.target, h.version, HeadersOf(h.fields), "") }

  lemma {:induction false} HeaderKeys(fs: seq<Field>)
    ensures forall k :: k in HeadersOf(fs) <==> exists i :: 0 <= i < |fs| && Small(fs[i].name) == k
    decreases |fs|
  {
    if fs != [] {
      var n := |fs| - 1;
      HeaderKeys(fs[..n]);
      forall k
        ensures k in HeadersOf(fs) <==> exists i :: 0 <= i < |fs| && Small(fs[i].name) == k
      {
        if k in HeadersOf(fs[..n]) {
          var i :| 0 <= i < n && Small(fs[..n][i].name) == k;
          assert Small(fs[i].name) == k;
        }
        if i :| 0 <= i < |fs| && Small(fs[i].name) == k {
          assert i < n ==> fs[..n][i] == fs[i];
        }
      }
    }
  }

  /** So every header line is in the map, under its name in small letters. */
  lemma {:induction false} HeaderValues(fs: seq<Field>, i: nat)
    requires DistinctNames(fs) && i < |fs|
    ensures Small(fs[i].name) in HeadersOf(fs) && HeadersOf(fs)[Small(fs[i].name)] == fs[i].value
    decreases |fs|
  {
    var n := |fs| - 1;
    if i < n {
      HeaderValues(fs[..n], i);
    }
  }

  lemma {:induction false} SmallIsLower(s: string)
    ensures LowerAscii(s) == Small(s)
    decreases |s|
  {
    if s != "" {
      SmallIsLower(s[1..]);
      assert forall i :: 0 < i < |s| ==> LowerAscii(s)[i] == LowerAscii(s[1..])[i - 1];
    }
  }

  lemma SameClasses(s: string)
    ensures ValidMethod(s) <==> VerbOk(s)
    ensures ValidTarget(s) <==> TargetOk(s)
    ensures ValidHeaderName(s) <==> NameOk(s)
    ensures NoCtl(s) <==> Printable(s)
  {}

  // ---- Lines -------------------------------------------------------------------------------------------

  predicate Clean(l: string) { l != "" && forall i :: 0 <= i < |l| ==> l[i] != '\r' && l[i] != '\n' }

  predicate AllClean(lines: seq<string>) { forall i :: 0 <= i < |lines| ==> Clean(lines[i]) }

  function Marked(lines: seq<string>): (ms: seq<string>)
    ensures |ms| == |lines| && forall i :: 0 <= i < |lines| ==> ms[i] == lines[i] + "\r"
  {
    seq(|lines|, i requires 0 <= i < |lines| => lines[i] + "\r")
  }

  lemma EndIsAt(data: string, e: nat)
    requires EndAt(data, e) && forall i :: 0 <= i < e ==> !EndAt(data, i)
    ensures FindEnd(data, 0) == e
  {}

  lemma EndFirst(l: string, more: string)
    requires Clean(l)
    ensures FindEnd(l + "\r\n\r\n" + more, 0) == |l|
  {
    var data := l + "\r\n\r\n" + more;
    assert forall i :: 0 <= i < |l| ==> data[i] == l[i];
    EndIsAt(data, |l|);
  }

  lemma EndShifts(l: string, tail: string, e: nat)
    requires Clean(l) && tail != "" && tail[0] != '\r' && FindEnd(tail, 0) == e
    ensures FindEnd(l + "\r\n" + tail, 0) == |l| + 2 + e
  {
    var data, k := l + "\r\n" + tail, |l| + 2;
    assert forall i :: 0 <= i < |l| ==> data[i] == l[i];
    assert forall i :: 0 <= i < |tail| ==> data[k + i] == tail[i];
    forall i | 0 <= i < k + e
      ensures !EndAt(data, i)
    {
      if i >= k {
        assert !EndAt(tail, i - k);
      }
    }
    EndIsAt(data, k + e);
  }

  /** The first empty line is the one after the last line. */
  lemma {:induction false} EndOfLines(lines: seq<string>, more: string)
    requires lines != [] && AllClean(lines)
    ensures |Joined(lines)| >= 2 && FindEnd(Joined(lines) + "\r\n" + more, 0) == |Joined(lines)| - 2
    decreases |lines|
  {
    hide FindEnd, Clean;
    var l, rest := lines[0], lines[1..];
    assert Clean(l);
    if rest == [] {
      assert Joined(rest) == "";
      assert Joined(lines) + "\r\n" + more == l + "\r\n\r\n" + more;
      EndFirst(l, more);
    } else {
      assert AllClean(rest);
      EndOfLines(rest, more);
      var tail := Joined(rest) + "\r\n" + more;
      assert Joined(lines) + "\r\n" + more == l + "\r\n" + tail;
      StartsClean(rest);
      assert tail[0] == Joined(rest)[0];
      EndShifts(l, tail, |Joined(rest)| - 2);
    }
  }

  lemma StartsClean(lines: seq<string>)
    requires lines != [] && AllClean(lines)
    ensures Joined(lines) != "" && Joined(lines)[0] != '\r'
  {
    assert Clean(lines[0]);
  }

  lemma FindIs(s: string, c: char, i: nat, k: nat)
    requires i <= k < |s| && s[k] == c && forall j :: i <= j < k ==> s[j] != c
    ensures Find(s, c, i) == k
  {}

  lemma {:induction false} LinesOfJoined(lines: seq<string>)
    requires AllClean(lines)
    ensures LinesOf(Joined(lines)) == Marked(lines)
    decreases |lines|
  {
    if lines != [] {
      var l, rest := lines[0], lines[1..];
      var h := Joined(lines);
      assert h == l + "\r\n" + Joined(rest);
      assert forall i :: 0 <= i < |l| ==> h[i] == l[i];
      FindIs(h, '\n', 0, |l| + 1);
      assert h[..|l| + 1] == l + "\r" && h[|l| + 2..] == Joined(rest);
      LinesOfJoined(rest);
      assert Marked(lines) == [l + "\r"] + Marked(rest);
    }
  }

  // ---- Reading ----------------------------------------------------------------------------------------

  predicate NoSpace(s: string) { forall i :: 0 <= i < |s| ==> s[i] != ' ' }

  /** Three words with single spaces between them. */
  lemma ThreeWords(a: string, b: string, c: string)
    requires NoSpace(a) && NoSpace(b) && NoSpace(c)
    ensures var line := a + " " + b + " " + c;
            && Find(line, ' ', 0) == |a| && Find(line, ' ', |a| + 1) == |a| + 1 + |b|
            && Find(line, ' ', |a| + |b| + 2) == -1
            && line[..|a|] == a && line[|a| + 1..|a| + 1 + |b|] == b && line[|a| + |b| + 2..] == c
  {
    var line := a + " " + b + " " + c;
    assert forall i :: 0 <= i < |a| ==> line[i] == a[i];
    assert forall i :: |a| + 1 <= i < |a| + 1 + |b| ==> line[i] == b[i - |a| - 1];
    assert forall i :: |a| + |b| + 2 <= i < |line| ==> line[i] == c[i - |a| - |b| - 2];
    FindIs(line, ' ', 0, |a|);
    FindIs(line, ' ', |a| + 1, |a| + 1 + |b|);
  }

  lemma LineReads(h: Head)
    requires Proper(h)
    ensures ParseRequestLine(FirstLine(h)) == Some(Request(h.verb, h.target, h.version, map[], ""))
  {
    hide ValidMethod, ValidTarget, Find, VerbOk, TargetOk, FieldsOk, DistinctNames, NoSpace;
    NoSpaces(h);
    ThreeWords(h.verb, h.target, h.version);
    SameClasses(h.verb);
    SameClasses(h.target);
  }

  lemma NoSpaces(h: Head)
    requires Proper(h)
    ensures NoSpace(h.verb) && NoSpace(h.target) && NoSpace(h.version)
  {}

  lemma LineIsClean(h: Head)
    requires Proper(h)
    ensures Clean(FirstLine(h))
  {
    var line := FirstLine(h);
    forall i | 0 <= i < |line|
      ensures line[i] != '\r' && line[i] != '\n'
    {
      assert line[i] == ' ' || line[i] in h.verb || line[i] in h.target || line[i] in h.version;
    }
  }

  lemma {:induction false} TrimsLeft(blanks: string, rest: string)
    requires Blanks(blanks) && (rest != "" ==> !IsOws(rest[0]))
    ensures TrimLeft(blanks + rest) == rest
    decreases |blanks|
  {
    if blanks == "" {
      assert blanks + rest == rest;
    } else {
      assert (blanks + rest)[1..] == blanks[1..] + rest;
      TrimsLeft(blanks[1..], rest);
    }
  }

  lemma {:induction false} TrimsRight(rest: string, blanks: string)
    requires Blanks(blanks) && (rest != "" ==> !IsOws(rest[|rest| - 1]))
    ensures TrimRight(rest + blanks) == rest
    decreases |blanks|
  {
    if blanks == "" {
      assert rest + blanks == rest;
    } else {
      var n := |blanks| - 1;
      assert (rest + blanks)[..|rest + blanks| - 1] == rest + blanks[..n];
      TrimsRight(rest, blanks[..n]);
    }
  }

  lemma {:induction false} AllBlank(blanks: string)
    requires Blanks(blanks)
    ensures TrimLeft(blanks) == ""
    decreases |blanks|
  {
    if blanks != "" {
      AllBlank(blanks[1..]);
    }
  }

  lemma ValueTrims(f: Field)
    requires FieldOk(f)
    ensures TrimOws(f.before + f.value + f.after) == f.value
  {
    if f.value == "" {
      assert f.before + f.value + f.after == f.before + f.after;
      AllBlank(f.before + f.after);
    } else {
      assert f.before + f.value + f.after == f.before + (f.value + f.after);
      TrimsLeft(f.before, f.value + f.after);
      TrimsRight(f.value, f.after);
    }
  }

  lemma FieldReads(f: Field)
    requires FieldOk(f)
    ensures ParseHeader(FieldLine(f)) == Some((Small(f.name), f.value)) && Clean(FieldLine(f))
  {
    hide TrimOws, ValidHeaderName, LowerAscii, NoCtl;
    var line, n := FieldLine(f), |f.name|;
    assert forall i :: 0 <= i < n ==> line[i] == f.name[i];
    FindIs(line, ':', 0, n);
    assert line[..n] == f.name && line[n + 1..] == f.before + f.value + f.after;
    ValueTrims(f);
    SameClasses(f.name);
    SameClasses(f.value);
    SmallIsLower(f.name);
    assert forall i :: 0 <= i < |line| ==> line[i] in line[..n] || line[i] == ':' || line[i] in f.before || line[i] in f.value || line[i] in f.after;
  }

  lemma {:induction false} FieldsRead(fs: seq<Field>, lines: seq<string>, k: nat)
    requires FieldsOk(fs) && DistinctNames(fs) && |fs| <= 64 && k <= |fs| && |lines| == |fs| + 1
    requires forall i :: 0 <= i < |fs| ==> lines[i + 1] == FieldLine(fs[i]) + "\r"
    ensures ParseHeaders(lines, k + 1, HeadersOf(fs[..k]), k) == Some(HeadersOf(fs))
    decreases |fs| - k
  {
    hide ParseHeader, FieldLine, Clean;
    if k == |fs| {
      assert fs[..k] == fs;
    } else {
      var f := fs[k];
      FieldReads(f);
      CleanIsSome(FieldLine(f));
      assert Framed(lines[k + 1]) == Some(FieldLine(f));
      NewName(fs, k);
      assert fs[..k + 1][..k] == fs[..k];
      FieldsRead(fs, lines, k + 1);
    }
  }

  lemma NewName(fs: seq<Field>, k: nat)
    requires DistinctNames(fs) && k < |fs|
    ensures Small(fs[k].name) !in HeadersOf(fs[..k])
  {
    HeaderKeys(fs[..k]);
    assert forall i :: 0 <= i < k ==> fs[..k][i] == fs[i];
  }

  lemma CleanIsSome(l: string)
    requires Clean(l)
    ensures l != ""
  {}

  lemma AllLinesClean(h: Head)
    requires Proper(h)
    ensures AllClean(LinesFor(h))
  {
    hide Clean, FirstLine, FieldLine;
    LineIsClean(h);
    forall i | 0 <= i < |LinesFor(h)|
      ensures Clean(LinesFor(h)[i])
    {
      if i > 0 {
        FieldReads(h.fields[i - 1]);
      }
    }
  }

  /** Every proper head, whatever follows it, is read as what it says, exactly to its end. */
  lemma HeadReads(h: Head, more: string, maxHead: nat)
    requires Proper(h) && |HeadText(h)| <= maxHead
    ensures ParseHead(HeadText(h) + more, maxHead) == Ready(Says(h), |HeadText(h)|)
  {
    hide ParseHeaders, ParseRequestLine, LinesOf, Joined, FirstLine, FieldLine, HeadersOf, FindEnd, Clean;
    var lines := LinesFor(h);
    AllLinesClean(h);
    EndOfLines(lines, more);
    LinesOfJoined(lines);
    LineReads(h);
    var data, j := HeadText(h) + more, Joined(lines);
    assert data == j + "\r\n" + more;
    assert data[..|j|] == j;
    var ms := Marked(lines);
    assert Framed(ms[0]) == Some(FirstLine(h));
    forall i | 0 <= i < |h.fields|
      ensures ms[i + 1] == FieldLine(h.fields[i]) + "\r"
    {
      assert lines[i + 1] == FieldLine(h.fields[i]);
    }
    FieldsRead(h.fields, ms, 0);
    assert h.fields[..0] == [];
    NoHeaders();
  }

  lemma NoHeaders()
    ensures HeadersOf([]) == map[]
  {}

  // ---- Nothing else is accepted -----------------------------------------------------------------------

  lemma LineOf(line: string) returns (verb: string, target: string, version: string)
    requires ParseRequestLine(line).Some?
    ensures VerbOk(verb) && TargetOk(target) && (version == "HTTP/1.1" || version == "HTTP/1.0")
    ensures line == verb + " " + target + " " + version
    ensures ParseRequestLine(line).value == Request(verb, target, version, map[], "")
  {
    var sp1 := Find(line, ' ', 0);
    var sp2 := Find(line, ' ', sp1 + 1);
    verb, target, version := line[..sp1], line[sp1 + 1..sp2], line[sp2 + 1..];
    assert line == line[..sp1] + [line[sp1]] + line[sp1 + 1..sp2] + [line[sp2]] + line[sp2 + 1..];
    hide ValidMethod, ValidTarget, VerbOk, TargetOk, Find;
    SameClasses(verb);
    SameClasses(target);
  }

  lemma {:induction false} LeftPart(s: string) returns (pre: string)
    ensures s == pre + TrimLeft(s) && Blanks(pre) && (TrimLeft(s) != "" ==> !IsOws(TrimLeft(s)[0]))
    decreases |s|
  {
    if s != "" && IsOws(s[0]) {
      var rest := LeftPart(s[1..]);
      pre := [s[0]] + rest;
      assert s == [s[0]] + s[1..];
    } else {
      pre := "";
    }
  }

  lemma {:induction false} RightPart(s: string) returns (post: string)
    ensures s == TrimRight(s) + post && Blanks(post) && (TrimRight(s) != "" ==> !IsOws(TrimRight(s)[|TrimRight(s)| - 1]))
    decreases |s|
  {
    if s != "" && IsOws(s[|s| - 1]) {
      var n := |s| - 1;
      var rest := RightPart(s[..n]);
      post := rest + [s[n]];
      assert s == s[..n] + [s[n]];
    } else {
      post := "";
    }
  }

  lemma FieldOf(line: string) returns (f: Field)
    requires ParseHeader(line).Some?
    ensures FieldOk(f) && FieldLine(f) == line && ParseHeader(line).value == (Small(f.name), f.value)
  {
    var colon := Find(line, ':', 0);
    var name, raw := line[..colon], line[colon + 1..];
    var pre := LeftPart(raw);
    var post := RightPart(TrimLeft(raw));
    var value := TrimOws(raw);
    f := Field(name, pre, value, post);
    assert raw == pre + (value + post);
    assert pre + (value + post) == pre + value + post;
    assert line == line[..colon] + [line[colon]] + line[colon + 1..];
    SameClasses(name);
    SameClasses(value);
    SmallIsLower(name);
    assert value != "" ==> value[0] == TrimLeft(raw)[0];
  }

  predicate EndsInCr(l: string) { l != "" && l[|l| - 1] == '\r' }

  /** No line that is only a carriage return follows a line that ends in one. */
  predicate NoGap(lines: seq<string>) {
    forall k :: 1 <= k < |lines| ==> !(lines[k] == "\r" && EndsInCr(lines[k - 1]))
  }

  lemma FirstBreak(text: string) returns (j: nat)
    requires text != "" && text[|text| - 1] == '\n'
    ensures Find(text, '\n', 0) == j < |text| && text[j] == '\n'
    ensures LinesOf(text) == [text[..j]] + LinesOf(text[j + 1..])
    ensures text[j + 1..] == "" || text[j + 1..][|text[j + 1..]| - 1] == '\n'
  {
    j := Find(text, '\n', 0);
  }

  /** A gap is an empty line. */
  lemma {:induction false} GapIsEnd(text: string, k: nat) returns (p: nat)
    requires text != "" && text[|text| - 1] == '\n' && 1 <= k < |LinesOf(text)|
    requires LinesOf(text)[k] == "\r" && EndsInCr(LinesOf(text)[k - 1])
    ensures EndAt(text, p)
    decreases |text|
  {
    hide LinesOf, Find;
    var j := FirstBreak(text);
    var rest := text[j + 1..];
    NoLines();
    var j2 := FirstBreak(rest);
    if k == 1 {
      assert rest[..j2] == "\r";
      assert text[j - 1] == text[..j][j - 1] == '\r';
      assert rest[0] == rest[..j2][0] == '\r' && rest[1] == '\n';
      p := j - 1;
    } else {
      var q := GapIsEnd(rest, k - 1);
      p := j + 1 + q;
    }
  }

  lemma NoLines()
    ensures LinesOf("") == []
  {}

  lemma EndLifts(data: string, e: nat, p: nat)
    requires e + 2 <= |data| && EndAt(data[..e + 2], p)
    ensures EndAt(data, p) && p < e
  {}

  lemma NoGapBeforeEnd(data: string)
    requires FindEnd(data, 0) >= 0
    ensures NoGap(LinesOf(data[..FindEnd(data, 0) + 2]))
  {
    hide LinesOf;
    var e := FindEnd(data, 0);
    var text := data[..e + 2];
    forall k | 1 <= k < |LinesOf(text)|
      ensures !(LinesOf(text)[k] == "\r" && EndsInCr(LinesOf(text)[k - 1]))
    {
      if LinesOf(text)[k] == "\r" && EndsInCr(LinesOf(text)[k - 1]) {
        var p := GapIsEnd(text, k);
        EndLifts(data, e, p);
        assert false;
      }
    }
  }

  /** Lines that all end in a carriage return, put together again. */
  lemma {:induction false} TextIsJoined(text: string, lines: seq<string>)
    requires (text != "" ==> text[|text| - 1] == '\n') && LinesOf(text) == Marked(lines)
    ensures text == Joined(lines)
    decreases |text|
  {
    hide LinesOf, Find;
    NoLines();
    if text == "" {
      assert lines == [];
    } else {
      var j := FirstBreak(text);
      assert |lines| > 0 && Marked(lines)[0] == lines[0] + "\r" == text[..j];
      assert Marked(lines)[1..] == Marked(lines[1..]);
      TextIsJoined(text[j + 1..], lines[1..]);
      assert text == text[..j] + [text[j]] + text[j + 1..];
      assert lines[0] + "\r" + "\n" == lines[0] + "\r\n";
    }
  }

  /** The header lines from `k` on, those before it being `done`. */
  lemma {:induction false} FieldsOf(lines: seq<string>, done: seq<Field>) returns (fs: seq<Field>)
    requires |done| + 1 <= |lines| && |done| <= 64 && FieldsOk(done) && DistinctNames(done) && NoGap(lines) && EndsInCr(lines[0])
    requires forall i :: 0 <= i < |done| ==> lines[i + 1] == FieldLine(done[i]) + "\r"
    requires ParseHeaders(lines, |done| + 1, HeadersOf(done), |done|).Some?
    ensures FieldsOk(fs) && DistinctNames(fs) && |fs| <= 64 && |lines| == |fs| + 1
    ensures forall i :: 0 <= i < |fs| ==> lines[i + 1] == FieldLine(fs[i]) + "\r"
    ensures ParseHeaders(lines, |done| + 1, HeadersOf(done), |done|) == Some(HeadersOf(fs))
    decreases |lines| - |done|
  {
    hide ParseHeader, FieldLine, FieldOk, Small;
    var k := |done| + 1;
    if k == |lines| {
      return done;
    }
    var line := Framed(lines[k]).value;
    var marked := lines[k];
    assert marked == line + "\r";
    assert EndsInCr(lines[k - 1]);
    assert line == "" ==> marked == "\r";
    assert line != "";
    var f := FieldOf(line);
    var more := done + [f];
    assert more[..|more| - 1] == done;
    HeaderKeys(done);
    assert DistinctNames(more);
    fs := FieldsOf(lines, more);
  }

  /** The head behind the lines of an accepted text. */
  lemma LinesSay(lines: seq<string>) returns (h: Head)
    requires NoGap(lines) && lines != [] && Framed(lines[0]).Some? && ParseRequestLine(Framed(lines[0]).value).Some?
    requires ParseHeaders(lines, 1, map[], 0).Some?
    ensures Proper(h) && lines == Marked(LinesFor(h))
    ensures Says(h) == ParseRequestLine(Framed(lines[0]).value).value.(headers := ParseHeaders(lines, 1, map[], 0).value)
  {
    hide ParseRequestLine, ParseHeaders, Find, FieldLine, HeadersOf, ParseHeader, FieldOk, VerbOk, TargetOk;
    var verb, target, version := LineOf(Framed(lines[0]).value);
    NoHeaders();
    var fs := FieldsOf(lines, []);
    h := Head(verb, target, version, fs);
    var ls := LinesFor(h);
    forall i | 0 <= i < |lines|
      ensures lines[i] == ls[i] + "\r"
    {
      if i == 0 {
        assert lines[0] == Framed(lines[0]).value + "\r";
      } else {
        assert lines[i - 1 + 1] == FieldLine(fs[i - 1]) + "\r";
      }
    }
  }

  /** Every accepted head is the text of a proper one. */
  lemma HeadOf(data: string, maxHead: nat) returns (h: Head)
    requires ParseHead(data, maxHead).Ready?
    ensures Proper(h) && ParseHead(data, maxHead) == Ready(Says(h), |HeadText(h)|)
    ensures |HeadText(h)| <= maxHead && |HeadText(h)| <= |data| && data[..|HeadText(h)|] == HeadText(h)
  {
    hide LinesOf, ParseRequestLine, ParseHeaders, FindEnd, LinesFor, Says, Proper, Joined, Marked;
    var e := FindEnd(data, 0);
    var text := data[..e + 2];
    var lines := LinesOf(text);
    NoGapBeforeEnd(data);
    h := LinesSay(lines);
    EndIsThere(data);
    TextIsJoined(text, LinesFor(h));
    assert data[..e + 4] == text + "\r\n";
  }

  lemma EndIsThere(data: string)
    requires FindEnd(data, 0) >= 0
    ensures var e := FindEnd(data, 0); e + 4 <= |data| && data[e + 1] == '\n' && data[e + 2] == '\r' && data[e + 3] == '\n'
  {}

  /** The accepted heads, exactly: data is Ready with a request and a length if and only if it
      begins with a proper head of that length, within the cap, that says that request. */
  lemma HeadsExactly(data: string, maxHead: nat, req: Request, n: nat)
    ensures ParseHead(data, maxHead) == Ready(req, n) <==>
            exists h :: Proper(h) && Says(h) == req && n == |HeadText(h)| && n <= maxHead && n <= |data| && data[..n] == HeadText(h)
  {
    hide ParseHead, Proper, HeadText, Says;
    if ParseHead(data, maxHead) == Ready(req, n) {
      var h := HeadOf(data, maxHead);
    }
    if h :| Proper(h) && Says(h) == req && n == |HeadText(h)| && n <= maxHead && n <= |data| && data[..n] == HeadText(h) {
      HeadReads(h, data[n..], maxHead);
      assert data == data[..n] + data[n..];
    }
  }

  /** An empty line after the line before it. */
  predicate EmptyLineAt(data: string, i: int) { 0 <= i <= |data| - 4 && data[i..i + 4] == "\r\n\r\n" }

  /** The other verdicts, exactly, by where the first empty line is. */
  lemma VerdictsExactly(data: string, maxHead: nat)
    ensures ParseHead(data, maxHead) == NeedMore <==> |data| <= maxHead && forall i :: !EmptyLineAt(data, i)
    ensures ParseHead(data, maxHead) == TooLarge <==> |data| > maxHead && forall i :: EmptyLineAt(data, i) ==> i + 4 > maxHead
  {
    hide ParseHeadText;
    forall i
      ensures EmptyLineAt(data, i) <==> EndAt(data, i)
    {
      if 0 <= i <= |data| - 4 {
        assert data[i..i + 4] == [data[i], data[i + 1], data[i + 2], data[i + 3]];
      }
    }
    hide EmptyLineAt;
    var e := FindEnd(data, 0);
    if e >= 0 {
      assert EmptyLineAt(data, e);
      if e + 4 <= maxHead {
        TextDecides(data[..e + 2], e + 4);
      }
    }
  }

  lemma TextDecides(head: string, n: nat)
    ensures ParseHeadText(head, n) != NeedMore && ParseHeadText(head, n) != TooLarge
  {}
}
