/** Exactly which replies depend on how the network cuts the stream into pieces. */
module HttpChunking {
  import opened Jobs
  import opened Digits
  import opened Http
  import opened HttpService

  /** At least so many pieces, none of them empty: the peer's bytes keep arriving. */
  predicate Flowing(pieces: seq<nat>, needed: int) {
    |pieces| >= needed && forall k :: 0 <= k < |pieces| ==> pieces[k] > 0
  }

  lemma FlowsOn(pieces: seq<nat>, needed: nat, capacity: nat)
    requires Flowing(pieces, needed) && needed > 0 && capacity > 0
    ensures 0 < Took(pieces, capacity, needed) <= needed
    ensures Flowing(Rest(pieces), needed - Took(pieces, capacity, needed))
  {}

  /** While the bytes keep arriving the head loop ends with the verdict of the whole stream. */
  lemma {:induction false} HeadVerdict(data: string, pos: nat, pieces: seq<nat>, maxHead: nat)
    requires pos <= |data| && Flowing(pieces, |data| - pos)
    ensures var (p, rest) := HeadStop(data, pos, pieces, maxHead);
            && ParseHead(data[..p], maxHead) == ParseHead(data, maxHead)
            && Flowing(rest, |data| - p)
    decreases |data| - pos
  {
    hide ParseHead;
    if ParseHead(data[..pos], maxHead) != NeedMore {
      VerdictIsFinal(data[..pos], data[pos..], maxHead);
      assert data[..pos] + data[pos..] == data;
    } else if pos == |data| {
      assert data[..pos] == data;
    } else {
      FlowsOn(pieces, |data| - pos, HEAD_CHUNK);
      HeadVerdict(data, pos + Took(pieces, HEAD_CHUNK, |data| - pos), Rest(pieces), maxHead);
    }
  }

  /** The loop stops at the first read that completes the head, so at most one chunk less one byte past it. */
  lemma {:induction false} HeadOvershoot(data: string, pos: nat, pieces: seq<nat>, maxHead: nat)
    requires ParseHead(data, maxHead).Ready? && pos < ParseHead(data, maxHead).headLen && pos <= |data|
    ensures HeadStop(data, pos, pieces, maxHead).0 < ParseHead(data, maxHead).headLen + HEAD_CHUNK
    decreases |data| - pos
  {
    hide ParseHead;
    var headLen := ParseHead(data, maxHead).headLen;
    var n := Took(pieces, HEAD_CHUNK, |data| - pos);
    PrefixNeedsMore(data, maxHead, pos);
    if n > 0 {
      if pos + n < headLen {
        HeadOvershoot(data, pos + n, Rest(pieces), maxHead);
      } else {
        WholeHead(data, maxHead, pos + n);
      }
    }
  }

  /** From its last byte on, every prefix shows the head. */
  lemma WholeHead(data: string, maxHead: nat, p: nat)
    requires ParseHead(data, maxHead).Ready? && ParseHead(data, maxHead).headLen <= p <= |data|
    ensures ParseHead(data[..p], maxHead) == ParseHead(data, maxHead)
  {
    hide ParseHeadText;
    HeadLenIsEnd(data, maxHead);
    var end := FindEnd(data, 0);
    assert EndAt(data[..p], end);
    assert forall k :: EndAt(data[..p], k) ==> EndAt(data, k);
    assert FindEnd(data[..p], 0) == end;
    assert data[..p][..end + 2] == data[..end + 2];
  }

  lemma {:induction false} BodyArrives(data: string, pos: nat, pieces: seq<nat>, missing: nat)
    requires pos <= |data| && Flowing(pieces, |data| - pos)
    ensures BodyStop(data, pos, pieces, missing) == pos + Min(missing, |data| - pos)
    decreases missing
  {
    if missing > 0 && pos < |data| {
      FlowsOn(pieces, |data| - pos, Min(missing, BODY_CHUNK));
      var n := Took(pieces, Min(missing, BODY_CHUNK), |data| - pos);
      BodyArrives(data, pos + n, Rest(pieces), missing - n);
    }
  }

  /** The reply to a complete stream, in terms of where the head loop stopped. */
  function Answer(data: string, opts: Options, stop: nat): Option<Reply> {
    match ParseHead(data, opts.maxHead)
    case NeedMore => None
    case Bad => Some(Refusal(400))
    case TooLarge => Some(Refusal(431))
    case Ready(req, headLen) =>
      match LengthOf(req.headers, opts.maxBody)
      case Refused(status) => Some(Refusal(status))
      case Length(n) =>
        if stop > headLen + n || |data| < headLen + n then Some(Refusal(400))
        else Some(Routed(req.(body := data[headLen..headLen + n])))
  }

  lemma OutcomeIsAnswer(data: string, pieces: seq<nat>, opts: Options)
    requires Flowing(pieces, |data|)
    ensures Outcome(data, pieces, opts).0 == Answer(data, opts, HeadStop(data, 0, pieces, opts.maxHead).0)
  {
    hide ParseHead, LengthOf, HeadStop, BodyStop;
    HeadVerdict(data, 0, pieces, opts.maxHead);
    var (pos, rest) := HeadStop(data, 0, pieces, opts.maxHead);
    var state := ParseHead(data[..pos], opts.maxHead);
    if state.Ready? {
      HeadLenIsEnd(data[..pos], opts.maxHead);
      var declared := LengthOf(state.request.headers, opts.maxBody);
      if declared.Length? && pos <= state.headLen + declared.n {
        BodyArrives(data, pos, rest, state.headLen + declared.n - pos);
      }
    }
  }

  /** Nothing follows the declared body, or the body is too long for one read to overshoot it;
      or the declared body plays no part at all. */
  predicate Steady(data: string, opts: Options) {
    match ParseHead(data, opts.maxHead)
    case Ready(req, headLen) =>
      (match LengthOf(req.headers, opts.maxBody)
       case Length(n) => |data| <= headLen + n || n >= 2047
       case Refused(_) => true)
    case _ => true
  }

  lemma SteadyAnswer(data: string, opts: Options, pieces: seq<nat>)
    requires Steady(data, opts) && Flowing(pieces, |data|)
    ensures Outcome(data, pieces, opts).0 == Answer(data, opts, 0)
  {
    hide ParseHead, LengthOf, HeadStop, Outcome;
    OutcomeIsAnswer(data, pieces, opts);
    if ParseHead(data, opts.maxHead).Ready? {
      HeadLenIsEnd(data, opts.maxHead);
      HeadOvershoot(data, 0, pieces, opts.maxHead);
    }
  }

  // ---- The two chunkings of an unsteady stream -----------------------------------------------------

  function Ones(k: nat): seq<nat> { if k == 0 then [] else [1] + Ones(k - 1) }

  lemma {:induction false} OnesFlow(k: nat)
    ensures |Ones(k)| == k && forall i :: 0 <= i < k ==> Ones(k)[i] == 1
  {
    if k > 0 {
      OnesFlow(k - 1);
    }
  }

  /** Byte by byte, while more is needed. */
  lemma {:induction false} OnesAdvance(data: string, pos: nat, k: nat, tail: seq<nat>, maxHead: nat)
    requires pos + k <= |data| && forall q :: pos <= q < pos + k ==> ParseHead(data[..q], maxHead) == NeedMore
    ensures HeadStop(data, pos, Ones(k) + tail, maxHead) == HeadStop(data, pos + k, tail, maxHead)
    decreases k
  {
    hide ParseHead;
    if k == 0 {
      assert Ones(0) + tail == tail;
    } else {
      assert (Ones(k) + tail)[1..] == Ones(k - 1) + tail;
      assert Took(Ones(k) + tail, HEAD_CHUNK, |data| - pos) == 1;
      OnesAdvance(data, pos + 1, k - 1, tail, maxHead);
    }
  }

  lemma ByteByByte(data: string, maxHead: nat, lead: nat, tail: seq<nat>)
    requires ParseHead(data, maxHead).Ready? && lead <= ParseHead(data, maxHead).headLen
    ensures ParseHead(data, maxHead).headLen <= |data|
    ensures HeadStop(data, 0, Ones(lead) + tail, maxHead) == HeadStop(data, lead, tail, maxHead)
  {
    hide ParseHead, HeadStop;
    HeadLenIsEnd(data, maxHead);
    forall q | 0 <= q < lead
      ensures ParseHead(data[..q], maxHead) == NeedMore
    {
      PrefixNeedsMore(data, maxHead, q);
    }
    OnesAdvance(data, 0, lead, tail, maxHead);
  }

  /** Byte by byte up to the end of the head: the surplus is never seen. */
  lemma GentleRoutes(data: string, opts: Options) returns (pieces: seq<nat>)
    requires ParseHead(data, opts.maxHead).Ready? && !Steady(data, opts)
    ensures Flowing(pieces, |data|) && Outcome(data, pieces, opts).0.Some? && Outcome(data, pieces, opts).0.value.Routed?
  {
    hide ParseHead, LengthOf, HeadStop, Outcome;
    var headLen := ParseHead(data, opts.maxHead).headLen;
    pieces := Ones(headLen) + Ones(|data|);
    OnesFlow(headLen);
    OnesFlow(|data|);
    ByteByByte(data, opts.maxHead, headLen, Ones(|data|));
    WholeHead(data, opts.maxHead, headLen);
    StopsThere(data, headLen, Ones(|data|), opts.maxHead);
    OutcomeIsAnswer(data, pieces, opts);
  }

  lemma StopsThere(data: string, p: nat, pieces: seq<nat>, maxHead: nat)
    requires p <= |data| && ParseHead(data[..p], maxHead) != NeedMore
    ensures HeadStop(data, p, pieces, maxHead) == (p, pieces)
  {
    hide ParseHead;
  }

  /** All but the last byte of the head, then one full chunk: the surplus is in the buffer. */
  lemma GreedyRefuses(data: string, opts: Options) returns (pieces: seq<nat>)
    requires ParseHead(data, opts.maxHead).Ready? && !Steady(data, opts)
    ensures Flowing(pieces, |data|) && Outcome(data, pieces, opts).0 == Some(Refusal(400))
  {
    hide ParseHead, LengthOf, HeadStop, Outcome;
    var headLen := ParseHead(data, opts.maxHead).headLen;
    HeadLenIsEnd(data, opts.maxHead);
    var tail := [HEAD_CHUNK] + Ones(|data|);
    pieces := Ones(headLen - 1) + tail;
    OnesFlow(headLen - 1);
    OnesFlow(|data|);
    ByteByByte(data, opts.maxHead, headLen - 1, tail);
    PrefixNeedsMore(data, opts.maxHead, headLen - 1);
    LastChunk(data, opts.maxHead, headLen - 1, tail);
    OutcomeIsAnswer(data, pieces, opts);
  }

  lemma LastChunk(data: string, maxHead: nat, p: nat, pieces: seq<nat>)
    requires ParseHead(data, maxHead).Ready? && p == ParseHead(data, maxHead).headLen - 1 && p < |data|
    requires pieces != [] && pieces[0] == HEAD_CHUNK && ParseHead(data[..p], maxHead) == NeedMore
    ensures HeadStop(data, p, pieces, maxHead).0 == p + Min(HEAD_CHUNK, |data| - p)
  {
    hide ParseHead;
    var n := Min(HEAD_CHUNK, |data| - p);
    WholeHead(data, maxHead, p + n);
  }

  /** Chunking independence of the reply, exactly: as long as bytes keep arriving, every
      chunking of the stream gets the same reply if and only if nothing follows the declared
      body or that body is at least one chunk less one byte long. */
  lemma ReplyIndependentExactly(data: string, opts: Options)
    ensures Steady(data, opts) <==>
            forall p, q :: Flowing(p, |data|) && Flowing(q, |data|) ==> Outcome(data, p, opts).0 == Outcome(data, q, opts).0
  {
    hide ParseHead, LengthOf, HeadStop, Outcome, Steady, Flowing;
    if Steady(data, opts) {
      forall p, q | Flowing(p, |data|) && Flowing(q, |data|)
        ensures Outcome(data, p, opts).0 == Outcome(data, q, opts).0
      {
        SteadyAnswer(data, opts, p);
        SteadyAnswer(data, opts, q);
      }
    } else {
      UnsteadyIsReady(data, opts);
      var p := GentleRoutes(data, opts);
      var q := GreedyRefuses(data, opts);
      assert Outcome(data, p, opts).0 != Outcome(data, q, opts).0;
    }
  }

  lemma UnsteadyIsReady(data: string, opts: Options)
    requires !Steady(data, opts)
    ensures ParseHead(data, opts.maxHead).Ready?
  {
    hide ParseHead;
  }

  /** A stream that is exactly one request is routed, however it is cut up. */
  lemma OneRequestIsRouted(data: string, opts: Options, pieces: seq<nat>)
    requires Flowing(pieces, |data|) && ParseHead(data, opts.maxHead).Ready?
    requires var h := ParseHead(data, opts.maxHead);
             var n := LengthOf(h.request.headers, opts.maxBody);
             n.Length? && |data| == h.headLen + n.n
    ensures Outcome(data, pieces, opts).0.Some? && Outcome(data, pieces, opts).0.value.Routed?
  {
    hide ParseHead, LengthOf, Outcome;
    SteadyAnswer(data, opts, pieces);
  }

  // ---- One stream, two replies -----------------------------------------------------------------------

  const LINE: string := "GET / HTTP/1.1"
  const SURPLUS: string := LINE + "\r\n\r\n" + "X"

  lemma SurplusHead(maxHead: nat)
    requires maxHead >= 18
    ensures ParseHead(SURPLUS, maxHead) == Ready(Request("GET", "/", "HTTP/1.1", map[], ""), 18)
  {
    assert EndAt(SURPLUS, 14);
    assert forall k :: 0 <= k < 14 ==> SURPLUS[k] != '\r';
    assert FindEnd(SURPLUS, 0) == 14;
    var head := LINE + "\r\n";
    assert SURPLUS[..16] == head;
    SurplusLines();
    SurplusLine();
  }

  lemma SurplusLines()
    ensures LinesOf(LINE + "\r\n") == [LINE + "\r"]
  {
    var h := LINE + "\r\n";
    assert forall k :: 0 <= k < 15 ==> h[k] != '\n';
    assert h[15] == '\n';
    assert Find(h, '\n', 0) == 15;
    assert h[..15] == LINE + "\r" && h[16..] == "";
  }

  lemma SurplusLine()
    ensures ParseRequestLine(LINE) == Some(Request("GET", "/", "HTTP/1.1", map[], ""))
  {
    assert Find(LINE, ' ', 0) == 3;
    assert Find(LINE, ' ', 4) == 5;
    assert Find(LINE, ' ', 6) == -1;
    assert LINE[..3] == "GET" && LINE[4..5] == "/" && LINE[6..] == "HTTP/1.1";
  }

  /** The same nineteen bytes, routed or refused, depending on their pieces alone. */
  lemma SurplusGoesBothWays(opts: Options) returns (p: seq<nat>, q: seq<nat>)
    requires opts.maxHead >= 18
    ensures Flowing(p, |SURPLUS|) && Outcome(SURPLUS, p, opts).0.Some? && Outcome(SURPLUS, p, opts).0.value.Routed?
    ensures Flowing(q, |SURPLUS|) && Outcome(SURPLUS, q, opts).0 == Some(Refusal(400))
  {
    hide ParseHead, Outcome;
    SurplusHead(opts.maxHead);
    p := GentleRoutes(SURPLUS, opts);
    q := GreedyRefuses(SURPLUS, opts);
  }
}
