/** The REST codec's encoders (api_codec.cpp): jobs as JSON text, built by appending
    member after member, and read back by the parser field for field. */
module Codec {
  import opened Jobs
  import opened Digits
  import opened Utf8
  import opened Json
  import opened JsonProofs
  import opened JsonReads
  import opened JsonPrint

  function StateToken(s: JobState): string {
    match s
    case Queued => "QUEUED"
    case Renaming => "RENAMING"
    case Transferring => "TRANSFERRING"
    case Done => "DONE"
    case Failed => "FAILED"
  }

  /** Byte counters are unsigned; JSON integers are not. */
  function Clamped(n: nat): nat { if n > INT64_MAX then INT64_MAX else n }

  /** The member names of an encoded job, in order. */
  function Key(k: nat): string {
    if k == 0 then "id" else if k == 1 then "source" else if k == 2 then "dest" else if k == 3 then "state"
    else if k == 4 then "created_at_ms" else if k == 5 then "updated_at_ms" else if k == 6 then "finished_at_ms"
    else if k == 7 then "bytes_total" else if k == 8 then "bytes_moved" else "error"
  }

  /** What a client reads for a job. */
  function JobMembers(j: JobData): seq<Member> {
    [Member(Key(0), Str(j.id)), Member(Key(1), Str(j.source)), Member(Key(2), Str(j.dest)),
     Member(Key(3), Str(StateToken(j.state))),
     Member(Key(4), Int(j.createdAt)), Member(Key(5), Int(j.updatedAt)), Member(Key(6), Int(j.finishedAt)),
     Member(Key(7), Int(Clamped(j.bytesTotal))), Member(Key(8), Int(Clamped(j.bytesMoved))),
     Member(Key(9), Str(j.error))]
  }

  function JobValue(j: JobData): Value { Obj(JobMembers(j)) }

  function JobListValue(jobs: seq<JobData>): Value {
    Obj([Member("jobs", Arr(JobValues(jobs)))])
  }

  function JobValues(jobs: seq<JobData>): (vs: seq<Value>)
    ensures |vs| == |jobs| && forall k :: 0 <= k < |jobs| ==> vs[k] == JobValue(jobs[k])
  {
    seq(|jobs|, k requires 0 <= k < |jobs| => JobValue(jobs[k]))
  }

  // ---- The encoders -------------------------------------------------------------------

  /** Bytes the escaper leaves alone. */
  predicate Plain(t: string) {
    forall k :: 0 <= k < |t| ==> ' ' <= t[k] && t[k] as int < 0x7F && t[k] != '"' && t[k] != '\\'
  }

  lemma {:induction false} PlainEscapes(t: string)
    requires Plain(t)
    ensures Escape(t) == t
    decreases |t|
  {
    if t != "" {
      PlainEscapes(t[1..]);
      assert t == [t[0]] + t[1..];
    }
  }

  function MemberText(m: Member, comma: bool): string {
    Quoted(m.key) + ":" + Print(m.value) + (if comma then "," else "")
  }

  method AppendString(out: string, name: string, value: string, comma: bool) returns (r: string)
    requires Plain(name)
    ensures r == out + MemberText(Member(name, Str(value)), comma)
  {
    hide Escape;
    PlainEscapes(name);
    r := out + "\"" + name + "\"" + ":" + "\"";
    assert r == out + Quoted(name) + ":" + "\"";
    var text := EscapeText(value);
    r := r + text + "\"";
    assert r == out + Quoted(name) + ":" + Quoted(value);
    if comma {
      r := r + ",";
    }
  }

  method AppendInt(out: string, name: string, value: int, comma: bool) returns (r: string)
    requires Plain(name)
    ensures r == out + MemberText(Member(name, Int(value)), comma)
  {
    hide Escape, PrintInt;
    PlainEscapes(name);
    r := out + "\"" + name + "\":" + PrintInt(value);
    assert r == out + Quoted(name) + ":" + PrintInt(value);
    if comma {
      r := r + ",";
    }
  }

  /** The text so far is that of the members before `k`. */
  predicate Built(out: string, ms: seq<Member>, k: nat)
    requires k <= |ms|
  {
    out + PrintMembers(ms[k..]) == PrintMembers(ms)
  }

  lemma AppendStep(out: string, ms: seq<Member>, k: nat, next: string)
    requires k < |ms| && Built(out, ms, k) && next == out + MemberText(ms[k], k + 1 < |ms|)
    ensures Built(next, ms, k + 1)
  {
    hide Print, Quoted;
    assert ms[k..][1..] == ms[k + 1..];
  }

  lemma BuiltEnds(ms: seq<Member>)
    ensures Built("", ms, 0)
    ensures forall out :: Built(out, ms, |ms|) ==> Print(Obj(ms)) == "{" + out + "}"
  {
    hide Quoted;
    assert ms[0..] == ms && ms[|ms|..] == [];
    assert "" + PrintMembers(ms) == PrintMembers(ms);
    forall out | Built(out, ms, |ms|)
      ensures out == PrintMembers(ms)
    {
      assert out + "" == out;
    }
  }

  method EncodeJob(j: JobData) returns (out: string)
    ensures out == Print(JobValue(j))
  {
    hide Print, Plain, Key, Built, MemberText, StateToken, Clamped;
    ghost var ms := JobMembers(j);
    forall k | 0 <= k < 10 ensures Plain(Key(k)) { KeyIsPlain(k); }
    BuiltEnds(ms);
    out := "";
    var o1 := AppendString(out, Key(0), j.id, true);
    AppendStep(out, ms, 0, o1);
    var o2 := AppendString(o1, Key(1), j.source, true);
    AppendStep(o1, ms, 1, o2);
    var o3 := AppendString(o2, Key(2), j.dest, true);
    AppendStep(o2, ms, 2, o3);
    var o4 := AppendString(o3, Key(3), StateToken(j.state), true);
    AppendStep(o3, ms, 3, o4);
    var o5 := AppendInt(o4, Key(4), j.createdAt, true);
    AppendStep(o4, ms, 4, o5);
    var o6 := AppendInt(o5, Key(5), j.updatedAt, true);
    AppendStep(o5, ms, 5, o6);
    var o7 := AppendInt(o6, Key(6), j.finishedAt, true);
    AppendStep(o6, ms, 6, o7);
    var o8 := AppendInt(o7, Key(7), Clamped(j.bytesTotal), true);
    AppendStep(o7, ms, 7, o8);
    var o9 := AppendInt(o8, Key(8), Clamped(j.bytesMoved), true);
    AppendStep(o8, ms, 8, o9);
    var o10 := AppendString(o9, Key(9), j.error, false);
    AppendStep(o9, ms, 9, o10);
    out := "{" + o10 + "}";
  }

  method EncodeJobList(jobs: seq<JobData>) returns (out: string)
    ensures out == Print(JobListValue(jobs))
  {
    hide Print, PrintItems;
    ghost var vs := JobValues(jobs);
    out := "{\"jobs\":[";
    var i := 0;
    while i < |jobs|
      invariant 0 <= i <= |jobs|
      invariant out + Separator(i, |jobs|) + PrintItems(vs[i..]) == "{\"jobs\":[" + PrintItems(vs)
    {
      if i != 0 {
        out := out + ",";
      }
      var one := EncodeJob(jobs[i]);
      ItemsAt(vs, i);
      out := out + one;
      i := i + 1;
      ItemsAt(vs, i);
    }
    ItemsAt(vs, i);
    out := out + "]}";
    PrintJobList(vs);
  }

  /** The printed items from position `i` on, one item further. */
  lemma ItemsAt(vs: seq<Value>, i: nat)
    requires i <= |vs|
    ensures PrintItems(vs[i..])
            == if i == |vs| then "" else Print(vs[i]) + (if i + 1 < |vs| then "," + PrintItems(vs[i + 1..]) else "")
  {
    hide Print;
    if i < |vs| {
      assert vs[i..][1..] == vs[i + 1..];
    }
  }

  function Separator(i: nat, n: nat): string { if 0 < i < n then "," else "" }

  lemma PrintJobList(vs: seq<Value>)
    ensures Print(Obj([Member("jobs", Arr(vs))])) == "{\"jobs\":[" + PrintItems(vs) + "]}"
  {
    hide Escape, PrintItems;
    PlainEscapes("jobs");
    var ms := [Member("jobs", Arr(vs))];
    assert Quoted("jobs") == "\"jobs\"";
    assert PrintMembers(ms) == Quoted("jobs") + ":" + Print(Arr(vs));
  }

  // ---- Reading jobs back ----------------------------------------------------------------

  /** The text fields a job carries from outside. */
  ghost predicate TextsOk(j: JobData, lim: Limits) {
    TextOk(j.id, lim) && TextOk(j.source, lim) && TextOk(j.dest, lim) && TextOk(j.error, lim)
  }

  predicate TimesFit(j: JobData) { Int64(j.createdAt) && Int64(j.updatedAt) && Int64(j.finishedAt) }

  lemma {:induction false} PlainIsWellFormed(t: string)
    requires Plain(t)
    ensures WellFormed(t)
    decreases |t|
  {
    if t == "" {
      assert EncodeAll([]) == "";
    } else {
      var n := |t| - 1;
      PlainIsWellFormed(t[..n]);
      WellFormedAppend(t[..n], t[n] as int);
      assert t == t[..n] + [t[n]];
    }
  }

  lemma PlainIsOk(t: string, lim: Limits)
    requires Plain(t) && |t| <= lim.maxStringBytes
    ensures TextOk(t, lim)
  {
    PlainIsWellFormed(t);
  }

  lemma KeyIsPlain(k: nat)
    ensures Plain(Key(k)) && |Key(k)| <= 14
  {}

  lemma KeysDiffer(i: nat, j: nat)
    requires i < j < 10
    ensures Key(i) != Key(j)
  {
    assert "bytes_total"[6] != "bytes_moved"[6];
    assert "created_at_ms"[0] != "updated_at_ms"[0];
    assert "state"[0] != "error"[0];
  }

  lemma TokenIsPlain(s: JobState)
    ensures Plain(StateToken(s)) && |StateToken(s)| <= 14
  {}

  /** A job is a sound value exactly when its four free texts are. */
  lemma JobValueOk(j: JobData, depth: nat, lim: Limits)
    requires TimesFit(j) && depth < lim.maxDepth && lim.maxMembers >= 10 && lim.maxStringBytes >= 14
    ensures ValueOk(JobValue(j), depth, lim) <==> TextsOk(j, lim)
  {
    hide TextOk, Plain, Key, StateToken;
    var ms := JobMembers(j);
    assert forall k :: 0 <= k < 10 ==> ms[k].key == Key(k);
    assert DistinctKeys(ms) by {
      forall i, j | 0 <= i < j < 10 ensures Key(i) != Key(j) { KeysDiffer(i, j); }
    }
    TokenIsPlain(j.state);
    PlainIsOk(StateToken(j.state), lim);
    forall k | 0 <= k < 10
      ensures TextOk(ms[k].key, lim)
    {
      KeyIsPlain(k);
      PlainIsOk(Key(k), lim);
    }
    assert ms[0].value == Str(j.id) && ms[1].value == Str(j.source) && ms[2].value == Str(j.dest) && ms[9].value == Str(j.error);
    if TextsOk(j, lim) {
      forall k | 0 <= k < 10
        ensures MemberOk(ms[k], depth + 1, lim)
      {
        assert k < 3 ==> ms[k].value in [Str(j.id), Str(j.source), Str(j.dest)];
        assert 4 <= k < 9 ==> ms[k].value.Int? && Int64(ms[k].value.n);
      }
    }
    if ValueOk(JobValue(j), depth, lim) {
      assert MemberOk(ms[0], depth + 1, lim) && MemberOk(ms[1], depth + 1, lim)
          && MemberOk(ms[2], depth + 1, lim) && MemberOk(ms[9], depth + 1, lim);
      assert ValueOk(Str(j.id), depth + 1, lim) && ValueOk(Str(j.source), depth + 1, lim)
          && ValueOk(Str(j.dest), depth + 1, lim) && ValueOk(Str(j.error), depth + 1, lim);
    }
  }

  /** An encoded job reads back field for field, byte counters clamped, exactly when
      its texts are well-formed and within bounds. */
  lemma JobRoundTrip(j: JobData, lim: Limits)
    requires TimesFit(j) && lim.maxDepth >= 2 && lim.maxMembers >= 10 && lim.maxStringBytes >= 14
    requires |Print(JobValue(j))| <= lim.maxInputBytes
    ensures ParseDocument(Print(JobValue(j)), lim) == Some(JobValue(j)) <==> TextsOk(j, lim)
  {
    hide Print, ValueOk, ParseDocument, TextsOk;
    JobValueOk(j, 1, lim);
    if TextsOk(j, lim) {
      RoundTrip(JobValue(j), lim);
    }
    if ParseDocument(Print(JobValue(j)), lim) == Some(JobValue(j)) {
      DocumentSound(Print(JobValue(j)), lim);
    }
  }

  /** A job list reads back in order, job for job, exactly when every job in it would and the
      list is within the element limit. */
  lemma JobListRoundTrip(jobs: seq<JobData>, lim: Limits)
    requires forall k :: 0 <= k < |jobs| ==> TimesFit(jobs[k])
    requires lim.maxDepth >= 4 && lim.maxMembers >= 10 && lim.maxStringBytes >= 14
    requires |Print(JobListValue(jobs))| <= lim.maxInputBytes
    ensures ParseDocument(Print(JobListValue(jobs)), lim) == Some(JobListValue(jobs))
            <==> |jobs| <= lim.maxElements && forall k :: 0 <= k < |jobs| ==> TextsOk(jobs[k], lim)
  {
    hide Print, ParseDocument, TextsOk, JobMembers, TextOk;
    var vs := JobValues(jobs);
    var v := JobListValue(jobs);
    forall k | 0 <= k < |jobs|
      ensures ValueOk(vs[k], 3, lim) <==> TextsOk(jobs[k], lim)
    {
      JobValueOk(jobs[k], 3, lim);
    }
    PlainIsOk("jobs", lim);
    assert v.members[0] == Member("jobs", Arr(vs));
    assert ValueOk(v, 1, lim) <==> MemberOk(v.members[0], 2, lim);
    assert MemberOk(v.members[0], 2, lim) <==> ValueOk(Arr(vs), 2, lim);
    assert ValueOk(Arr(vs), 2, lim) <==> |vs| <= lim.maxElements && forall k :: 0 <= k < |vs| ==> ValueOk(vs[k], 3, lim);
    if ValueOk(v, 1, lim) {
      RoundTrip(v, lim);
    }
    if ParseDocument(Print(v), lim) == Some(v) {
      DocumentSound(Print(v), lim);
    }
  }

  /** The values the parser can produce are exactly the sound objects, as far as their text fits. */
  lemma AcceptedExactly(v: Value, lim: Limits)
    requires v.Obj? && |Print(v)| <= lim.maxInputBytes
    ensures (exists s :: ParseDocument(s, lim) == Some(v)) <==> ValueOk(v, 1, lim)
  {
    hide Print, ValueOk, ParseDocument;
    forall s | ParseDocument(s, lim) == Some(v)
      ensures ValueOk(v, 1, lim)
    {
      DocumentSound(s, lim);
    }
    if ValueOk(v, 1, lim) {
      RoundTrip(v, lim);
    }
  }

  // ---- A reader of its own ----------------------------------------------------------------------

  /** The value under a name, as a client looks it up. */
  function Lookup(ms: seq<Member>, name: string): Option<Value> {
    if ms == [] then None else if ms[0].key == name then Some(ms[0].value) else Lookup(ms[1..], name)
  }

  function TextAt(ms: seq<Member>, name: string): Option<string> {
    match Lookup(ms, name)
    case Some(Str(t)) => Some(t)
    case _ => None
  }

  function NumberAt(ms: seq<Member>, name: string): Option<int> {
    match Lookup(ms, name)
    case Some(Int(n)) => Some(n)
    case _ => None
  }

  /** The state a word names. */
  function StateNamed(t: string): Option<JobState> {
    if t == "QUEUED" then Some(Queued)
    else if t == "RENAMING" then Some(Renaming)
    else if t == "TRANSFERRING" then Some(Transferring)
    else if t == "DONE" then Some(Done)
    else if t == "FAILED" then Some(Failed)
    else None
  }

  /** A client's reading of a job: every field by its name. */
  predicate ReadsAs(v: Value, j: JobData) {
    && v.Obj?
    && TextAt(v.members, "id") == Some(j.id)
    && TextAt(v.members, "source") == Some(j.source)
    && TextAt(v.members, "dest") == Some(j.dest)
    && (TextAt(v.members, "state").Some? && StateNamed(TextAt(v.members, "state").value) == Some(j.state))
    && NumberAt(v.members, "created_at_ms") == Some(j.createdAt)
    && NumberAt(v.members, "updated_at_ms") == Some(j.updatedAt)
    && NumberAt(v.members, "finished_at_ms") == Some(j.finishedAt)
    && NumberAt(v.members, "bytes_total") == Some(if j.bytesTotal > 0x7FFF_FFFF_FFFF_FFFF then 0x7FFF_FFFF_FFFF_FFFF else j.bytesTotal)
    && NumberAt(v.members, "bytes_moved") == Some(if j.bytesMoved > 0x7FFF_FFFF_FFFF_FFFF then 0x7FFF_FFFF_FFFF_FFFF else j.bytesMoved)
    && TextAt(v.members, "error") == Some(j.error)
  }

  lemma {:induction false} LookupAt(ms: seq<Member>, k: nat)
    requires k < |ms| && forall i :: 0 <= i < k ==> ms[i].key != ms[k].key
    ensures Lookup(ms, ms[k].key) == Some(ms[k].value)
    decreases k
  {
    if k > 0 {
      LookupAt(ms[1..], k - 1);
    }
  }

  lemma JobLookups(j: JobData, k: nat)
    requires k < 10
    ensures Lookup(JobMembers(j), Key(k)) == Some(JobMembers(j)[k].value)
  {
    hide Key, Lookup;
    var ms := JobMembers(j);
    assert forall i :: 0 <= i < 10 ==> ms[i].key == Key(i);
    forall i | 0 <= i < k
      ensures ms[i].key != ms[k].key
    {
      KeysDiffer(i, k);
    }
    LookupAt(ms, k);
  }

  lemma TokenNames(s: JobState)
    ensures StateNamed(StateToken(s)) == Some(s)
  {
    assert "RENAMING"[0] != "QUEUED"[0] && "TRANSFERRING"[0] != "QUEUED"[0] && "TRANSFERRING"[0] != "RENAMING"[0];
    assert "DONE"[0] != "QUEUED"[0] && "DONE"[0] != "RENAMING"[0] && "DONE"[0] != "TRANSFERRING"[0];
    assert "FAILED"[0] != "QUEUED"[0] && "FAILED"[0] != "RENAMING"[0] && "FAILED"[0] != "TRANSFERRING"[0] && "FAILED"[0] != "DONE"[0];
  }

  lemma ValueReadsAs(j: JobData)
    ensures ReadsAs(JobValue(j), j)
  {
    hide Lookup, StateNamed, StateToken;
    forall k | 0 <= k < 10
      ensures Lookup(JobMembers(j), Key(k)) == Some(JobMembers(j)[k].value)
    {
      JobLookups(j, k);
    }
    TokenNames(j.state);
    assert Key(0) == "id" && Key(1) == "source" && Key(2) == "dest" && Key(3) == "state" && Key(4) == "created_at_ms";
    assert Key(5) == "updated_at_ms" && Key(6) == "finished_at_ms" && Key(7) == "bytes_total" && Key(8) == "bytes_moved" && Key(9) == "error";
  }

  /** A client that parses an encoded job and looks its members up by name gets every field
      back, the state by its word and the counters cut off at int64 max. */
  lemma ClientReadsJob(j: JobData, lim: Limits)
    requires TimesFit(j) && TextsOk(j, lim) && lim.maxDepth >= 2 && lim.maxMembers >= 10 && lim.maxStringBytes >= 14
    requires |Print(JobValue(j))| <= lim.maxInputBytes
    ensures ParseDocument(Print(JobValue(j)), lim).Some? && ReadsAs(ParseDocument(Print(JobValue(j)), lim).value, j)
  {
    hide Print, ParseDocument, TextsOk, ReadsAs;
    JobRoundTrip(j, lim);
    ValueReadsAs(j);
  }

  /** And for a list, the jobs under "jobs", in order. */
  lemma ClientReadsList(jobs: seq<JobData>, lim: Limits)
    requires forall k :: 0 <= k < |jobs| ==> TimesFit(jobs[k]) && TextsOk(jobs[k], lim)
    requires lim.maxDepth >= 4 && lim.maxMembers >= 10 && lim.maxStringBytes >= 14 && |jobs| <= lim.maxElements
    requires |Print(JobListValue(jobs))| <= lim.maxInputBytes
    ensures var v := ParseDocument(Print(JobListValue(jobs)), lim);
            && v.Some? && v.value.Obj?
            && match Lookup(v.value.members, "jobs")
               case Some(Arr(items)) => |items| == |jobs| && forall k :: 0 <= k < |jobs| ==> ReadsAs(items[k], jobs[k])
               case _ => false
  {
    hide Print, ParseDocument, TextsOk, ReadsAs;
    JobListRoundTrip(jobs, lim);
    forall k | 0 <= k < |jobs|
      ensures ReadsAs(JobValues(jobs)[k], jobs[k])
    {
      ValueReadsAs(jobs[k]);
    }
  }
}
