/** The loop that drives one connection (http_service.cpp): read a head, read exactly
    the declared body, answer once. The socket delivers its bytes in whatever pieces
    the environment chooses, and may go silent at any point. */
module HttpService {
  import opened Jobs
  import opened Digits
  import opened Http

  const HEAD_CHUNK: nat := 2048
  const BODY_CHUNK: nat := 4096

  datatype Options = Options(maxHead: nat, maxBody: nat)

  /** What goes back to the client: an error status, or the routed request's answer. */
  datatype Reply = Refusal(status: nat) | Routed(request: Request)

  function Min(a: nat, b: nat): nat { if a < b then a else b }
  function Max(a: nat, b: nat): nat { if a < b then b else a }

  /** How many bytes the next read yields: 0 is a timeout, a close or an error. */
  function Took(pieces: seq<nat>, capacity: nat, left: nat): nat {
    if pieces == [] then 0 else Min(pieces[0], Min(capacity, left))
  }

  function Rest(pieces: seq<nat>): seq<nat> { if pieces == [] then [] else pieces[1..] }

  /** A connection: the bytes the peer will ever send, how many were taken, the sizes of
      the pieces still to come (0, or none left, is a timeout, a close or an error). */
  class Connection {
    const data: string
    var pos: nat
    var pieces: seq<nat>
    var sent: seq<Reply>

    constructor (data: string, pieces: seq<nat>)
      ensures this.data == data && this.pieces == pieces && pos == 0 && sent == []
    {
      this.data, this.pieces, pos, sent := data, pieces, 0, [];
    }

    method ReadSome(capacity: nat) returns (chunk: Option<string>)
      requires pos <= |data| && capacity > 0
      modifies this`pos, this`pieces
      ensures pos == old(pos) + Took(old(pieces), capacity, |data| - old(pos)) && pos <= |data|
      ensures chunk == if pos > old(pos) then Some(data[old(pos)..pos]) else None
      ensures pieces == Rest(old(pieces))
    {
      if pieces == [] {
        return None;
      }
      var n := Min(pieces[0], Min(capacity, |data| - pos));
      pieces := pieces[1..];
      if n == 0 {
        return None;
      }
      chunk := Some(data[pos..pos + n]);
      pos := pos + n;
    }

    method Send(r: Reply)
      modifies this`sent
      ensures sent == old(sent) + [r]
    {
      sent := sent + [r];
    }
  }

  /** The one reply a connection may get, given what its bytes say. */
  ghost predicate ReplyFits(data: string, opts: Options, taken: nat, r: Reply) {
    match ParseHead(data, opts.maxHead)
    case NeedMore => false
    case Bad => r == Refusal(400)
    case TooLarge => r == Refusal(431)
    case Ready(req, headLen) =>
      match LengthOf(req.headers, opts.maxBody)
      case Refused(status) => r == Refusal(status)
      case Length(n) =>
        match r
        case Routed(q) =>
          // Exactly the declared body, and not one byte beyond it was taken.
          taken == headLen + n <= |data| && q == req.(body := data[headLen..headLen + n])
        // Short of the declared body, or bytes past it already in the buffer.
        case Refusal(status) => status == 400 && taken != headLen + n
  }

  // ---- The outcome, as a function of the bytes and their pieces ------------------------------

  /** Where the head loop stops, and the pieces left then. */
  function HeadStop(data: string, pos: nat, pieces: seq<nat>, maxHead: nat): (r: (nat, seq<nat>))
    requires pos <= |data|
    ensures pos <= r.0 <= |data|
    decreases |data| - pos
  {
    if ParseHead(data[..pos], maxHead) != NeedMore then (pos, pieces)
    else
      var n := Took(pieces, HEAD_CHUNK, |data| - pos);
      if n == 0 then (pos, Rest(pieces)) else HeadStop(data, pos + n, Rest(pieces), maxHead)
  }

  /** Where the body loop stops; it was complete exactly when that is `missing` bytes on. */
  function BodyStop(data: string, pos: nat, pieces: seq<nat>, missing: nat): (r: nat)
    requires pos <= |data|
    ensures pos <= r <= |data| && r - pos <= missing
    decreases missing
  {
    if missing == 0 then pos
    else
      var n := Took(pieces, Min(missing, BODY_CHUNK), |data| - pos);
      if n == 0 then pos else BodyStop(data, pos + n, Rest(pieces), missing - n)
  }

  /** The reply, if any, and how many bytes were read. */
  function Outcome(data: string, pieces: seq<nat>, opts: Options): (Option<Reply>, nat) {
    var (pos, rest) := HeadStop(data, 0, pieces, opts.maxHead);
    match ParseHead(data[..pos], opts.maxHead)
    case NeedMore => (None, pos)
    case Bad => (Some(Refusal(400)), pos)
    case TooLarge => (Some(Refusal(431)), pos)
    case Ready(req, headLen) =>
      match LengthOf(req.headers, opts.maxBody)
      case Refused(status) => (Some(Refusal(status)), pos)
      case Length(n) =>
        HeadLenIsEnd(data[..pos], opts.maxHead);
        if pos - headLen > n then (Some(Refusal(400)), pos)
        else
          var end := BodyStop(data, pos, rest, headLen + n - pos);
          if end < headLen + n then (Some(Refusal(400)), end)
          else (Some(Routed(req.(body := data[headLen..headLen + n]))), end)
  }

  function Sent(r: Option<Reply>): seq<Reply> { if r.None? then [] else [r.value] }

  method Serve(conn: Connection, opts: Options)
    requires conn.pos == 0 && conn.sent == [] && opts.maxBody <= UINT64_MAX
    modifies conn
    ensures conn.sent == Sent(Outcome(conn.data, old(conn.pieces), opts).0)
    ensures conn.pos == Outcome(conn.data, old(conn.pieces), opts).1
  {
    hide ParseHead, LengthOf, HeadStop, BodyStop;
    var state, buffer := ReadHead(conn, opts);
    if state.NeedMore? {
      return;
    }
    if state.Bad? {
      conn.Send(Refusal(400));
      return;
    }
    if state.TooLarge? {
      conn.Send(Refusal(431));
      return;
    }
    HeadLenIsEnd(buffer, opts.maxHead);
    var request, headLen := state.request, state.headLen;
    var declared := ContentLengthFor(request.headers, opts.maxBody);
    if declared.Refused? {
      conn.Send(Refusal(declared.status));
      return;
    }
    var have := |buffer| - headLen;
    if have > declared.n {
      conn.Send(Refusal(400));
      return;
    }
    var complete;
    complete, buffer := ReadBody(conn, buffer, declared.n - have);
    if !complete {
      conn.Send(Refusal(400));
      return;
    }
    assert buffer[headLen..headLen + declared.n] == conn.data[headLen..headLen + declared.n];
    conn.Send(Routed(request.(body := buffer[headLen..headLen + declared.n])));
  }

  lemma LengthFits(headers: map<string, string>, maxBody: nat)
    ensures LengthOf(headers, maxBody).Length? ==> LengthOf(headers, maxBody).n <= maxBody || LengthOf(headers, maxBody).n == 0
    ensures LengthOf(headers, maxBody).Refused? ==> LengthOf(headers, maxBody).status in {400, 413}
  {}

  method ReadHead(conn: Connection, opts: Options) returns (state: HeadParse, buffer: string)
    requires conn.pos == 0
    modifies conn`pos, conn`pieces
    ensures (conn.pos, conn.pieces) == HeadStop(conn.data, 0, old(conn.pieces), opts.maxHead)
    ensures buffer == conn.data[..conn.pos] && state == ParseHead(buffer, opts.maxHead)
  {
    hide ParseHead;
    buffer := "";
    while true
      invariant conn.pos <= |conn.data| && buffer == conn.data[..conn.pos]
      invariant HeadStop(conn.data, conn.pos, conn.pieces, opts.maxHead)
                == HeadStop(conn.data, 0, old(conn.pieces), opts.maxHead)
      decreases |conn.data| - conn.pos
    {
      state := ParseRequestHead(buffer, opts.maxHead);
      if state != NeedMore {
        return;
      }
      var chunk := conn.ReadSome(HEAD_CHUNK);
      if chunk.None? {
        return;
      }
      buffer := buffer + chunk.value;
    }
  }

  lemma NeedMoreIsSmall(data: string, maxHead: nat)
    requires ParseHead(data, maxHead) == NeedMore
    ensures |data| <= maxHead
  {
    hide ParseHeadText;
    var end := FindEnd(data, 0);
    if end >= 0 && end + 4 <= maxHead {
      HeadTextDecides(data[..end + 2], end + 4);
    }
  }

  lemma HeadTextDecides(head: string, headLen: nat)
    ensures ParseHeadText(head, headLen) != NeedMore
  {}

  /** The body loop: never asks for more than what is still missing. */
  method ReadBody(conn: Connection, head: string, missing: nat) returns (complete: bool, buffer: string)
    requires conn.pos <= |conn.data| && head == conn.data[..conn.pos]
    modifies conn`pos, conn`pieces
    ensures conn.pos == BodyStop(conn.data, old(conn.pos), old(conn.pieces), missing)
    ensures conn.pos - old(conn.pos) <= missing && (complete <==> conn.pos - old(conn.pos) == missing)
    ensures buffer == conn.data[..conn.pos]
  {
    buffer := head;
    var remaining := missing;
    while remaining > 0
      invariant old(conn.pos) <= conn.pos <= |conn.data| && buffer == conn.data[..conn.pos]
      invariant 0 <= remaining && conn.pos - old(conn.pos) + remaining == missing
      invariant BodyStop(conn.data, conn.pos, conn.pieces, remaining)
                == BodyStop(conn.data, old(conn.pos), old(conn.pieces), missing)
      decreases remaining
    {
      var want := Min(remaining, BODY_CHUNK);
      var chunk := conn.ReadSome(want);
      if chunk.None? {
        return false, buffer;
      }
      buffer := buffer + chunk.value;
      remaining := remaining - |chunk.value|;
    }
    complete := true;
  }

  // ---- What the outcome keeps -------------------------------------------------------------------

  /** At most one chunk past the cap is read for the head, and its verdict is that of the stream. */
  lemma {:induction false} HeadStopShape(data: string, pos: nat, pieces: seq<nat>, maxHead: nat)
    requires pos <= |data| && pos <= maxHead + HEAD_CHUNK
    ensures var (p, rest) := HeadStop(data, pos, pieces, maxHead);
            && p <= maxHead + HEAD_CHUNK
            && (ParseHead(data[..p], maxHead) != NeedMore ==> ParseHead(data[..p], maxHead) == ParseHead(data, maxHead))
    decreases |data| - pos
  {
    hide ParseHead;
    if ParseHead(data[..pos], maxHead) != NeedMore {
      VerdictIsFinal(data[..pos], data[pos..], maxHead);
      assert data[..pos] + data[pos..] == data;
    } else {
      NeedMoreIsSmall(data[..pos], maxHead);
      var n := Took(pieces, HEAD_CHUNK, |data| - pos);
      if n > 0 {
        HeadStopShape(data, pos + n, Rest(pieces), maxHead);
      }
    }
  }

  /** Body framing and the read bound: on every path at most max_head + max(2048, max_body)
      bytes are read, and any reply is one the bytes call for; a routed request carries
      exactly the declared body and not one byte beyond it was read. */
  lemma OutcomeFits(data: string, pieces: seq<nat>, opts: Options)
    ensures var (r, taken) := Outcome(data, pieces, opts);
            && taken <= |data| && taken <= opts.maxHead + Max(2048, opts.maxBody)
            && (r.Some? ==> ReplyFits(data, opts, taken, r.value))
            && (r.None? ==> ParseHead(data[..taken], opts.maxHead) == NeedMore)
  {
    hide ParseHead, LengthOf, HeadStop, BodyStop;
    HeadStopShape(data, 0, pieces, opts.maxHead);
    var (pos, rest) := HeadStop(data, 0, pieces, opts.maxHead);
    var state := ParseHead(data[..pos], opts.maxHead);
    if state.Ready? {
      HeadLenIsEnd(data[..pos], opts.maxHead);
      LengthFits(state.request.headers, opts.maxBody);
    }
  }

}
