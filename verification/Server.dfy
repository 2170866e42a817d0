/** The connection server (server.cpp): one acceptor, a fixed pool of handlers, slots
    reserved at accept time, and a drain on shutdown. Threads interleave at every
    critical section and every close. */
module Server {
  import opened Jobs
  import opened Sequences

  type Conn = nat
  type Hid = nat

  datatype Acceptor = Polling | Holding(conn: Conn) | Rejecting(conn: Conn) | AcceptorDone

  datatype Handler = Idle | Serving(conn: Conn) | Releasing | Exited

  /** The fields the mutex guards. */
  datatype Slots = Slots(queued: seq<Conn>, idle: nat, stopping: bool, running: bool, served: nat, rejected: nat) {
    /** The slot is reserved here, not when a handler wakes. */
    function Admit(conn: Conn): (bool, Slots) {
      if !stopping && idle > 0
      then (true, this.(idle := idle - 1, queued := queued + [conn], served := served + 1))
      else (false, this.(rejected := rejected + 1))
    }
    function Dequeue(): (Conn, Slots) requires queued != [] { (queued[0], this.(queued := queued[1..])) }
    function Release(): Slots { this.(idle := idle + 1) }
    function Stop(): Slots { if running then this.(stopping := true, running := false) else this }
  }

  /** `accepted` and `closed` record the connections ever accepted and the closes ever made. */
  datatype State = State(
    slots: Slots, acceptor: Acceptor, handlers: map<Hid, Handler>, accepted: set<Conn>, closed: seq<Conn>)

  datatype Action =
    | Accept(conn: Conn) | Decide | CloseRejected | AcceptorExit
    | Take(h: Hid) | CloseServed(h: Hid) | ReleaseSlot(h: Hid) | Exit(h: Hid)
    | Shutdown

  function Step(s: State, a: Action): Option<State> {
    match a
    case Accept(c) =>
      if s.acceptor.Polling? && c !in s.accepted then Some(s.(acceptor := Holding(c), accepted := s.accepted + {c})) else None
    case Decide =>
      if !s.acceptor.Holding? then None
      else
        var (ok, slots) := s.slots.Admit(s.acceptor.conn);
        Some(s.(slots := slots, acceptor := if ok then Polling else Rejecting(s.acceptor.conn)))
    case CloseRejected =>
      if s.acceptor.Rejecting? then Some(s.(acceptor := Polling, closed := s.closed + [s.acceptor.conn])) else None
    case AcceptorExit =>
      // Woken by the self-pipe, or the listener is unusable.
      if s.acceptor.Polling? then Some(s.(acceptor := AcceptorDone)) else None
    case Take(h) =>
      if h in s.handlers && s.handlers[h].Idle? && s.slots.queued != [] then
        var (c, slots) := s.slots.Dequeue();
        Some(s.(slots := slots, handlers := s.handlers[h := Serving(c)]))
      else None
    case CloseServed(h) =>
      if h in s.handlers && s.handlers[h].Serving?
      then Some(s.(handlers := s.handlers[h := Releasing], closed := s.closed + [s.handlers[h].conn])) else None
    case ReleaseSlot(h) =>
      if h in s.handlers && s.handlers[h].Releasing?
      then Some(s.(slots := s.slots.Release(), handlers := s.handlers[h := Idle])) else None
    case Exit(h) =>
      if h in s.handlers && s.handlers[h].Idle? && s.slots.queued == [] && s.slots.stopping
      then Some(s.(handlers := s.handlers[h := Exited])) else None
    case Shutdown => Some(s.(slots := s.slots.Stop()))
  }

  // ---- The invariant -----------------------------------------------------------------------

  function Busy(s: State): set<Hid> {
    set h | h in s.handlers && (s.handlers[h].Serving? || s.handlers[h].Releasing?)
  }

  function Free(s: State): set<Hid> { set h | h in s.handlers && s.handlers[h].Idle? }

  predicate Held(s: State, c: Conn) {
    (s.acceptor.Holding? || s.acceptor.Rejecting?) && s.acceptor.conn == c
  }

  predicate Served(s: State, c: Conn) {
    exists h :: h in s.handlers && s.handlers[h].Serving? && s.handlers[h].conn == c
  }

  /** Every accepted connection is in exactly one hand: the acceptor's, the queue's, one
      handler's, or closed, once. */
  ghost predicate OneHand(s: State) {
    && NoRepeats(s.slots.queued) && NoRepeats(s.closed)
    && (forall c :: c in s.accepted <==> Held(s, c) || c in s.slots.queued || Served(s, c) || c in s.closed)
    && (forall c :: Held(s, c) ==> c !in s.slots.queued && !Served(s, c) && c !in s.closed)
    && (forall c :: c in s.slots.queued ==> !Served(s, c) && c !in s.closed)
    && (forall c :: Served(s, c) ==> c !in s.closed)
    && (forall g, h :: g in s.handlers && h in s.handlers && g != h && s.handlers[g].Serving? && s.handlers[h].Serving?
          ==> s.handlers[g].conn != s.handlers[h].conn)
  }

  /** Slots are conserved, and a handler has exited only after the queue ran dry for good. */
  ghost predicate SlotsOk(s: State) {
    && s.slots.idle + |s.slots.queued| + |Busy(s)| == |s.handlers|
    && (forall h :: h in s.handlers && s.handlers[h].Exited? ==> s.slots.stopping && s.slots.queued == [])
  }

  ghost predicate CountsOk(s: State) {
    |s.accepted| == s.slots.served + s.slots.rejected + (if s.acceptor.Holding? then 1 else 0)
  }

  ghost predicate Inv(s: State) { OneHand(s) && SlotsOk(s) && CountsOk(s) }

  /** What `start` sets up. */
  predicate Started(s: State) {
    && s.slots == Slots([], |s.handlers|, false, true, 0, 0)
    && s.acceptor == Polling && s.accepted == {} && s.closed == []
    && forall h :: h in s.handlers ==> s.handlers[h] == Idle
  }

  lemma SlotsKeep(s: State, a: Action)
    requires SlotsOk(s) && Step(s, a).Some?
    ensures SlotsOk(Step(s, a).value)
  {
    var s' := Step(s, a).value;
    if a.Take? || a.CloseServed? || a.ReleaseSlot? || a.Exit? {
      assert s'.handlers.Keys == s.handlers.Keys;
      if a.Take? {
        assert Busy(s') == Busy(s) + {a.h};
      } else if a.ReleaseSlot? {
        assert Busy(s') == Busy(s) - {a.h} && a.h in Busy(s);
      } else {
        assert Busy(s') == Busy(s);
      }
    } else {
      assert Busy(s') == Busy(s);
    }
  }

  lemma CountsKeep(s: State, a: Action)
    requires CountsOk(s) && Step(s, a).Some?
    ensures CountsOk(Step(s, a).value) && Step(s, a).value.handlers.Keys == s.handlers.Keys
  {
    assert Step(s, a).value.handlers.Keys == s.handlers.Keys;
  }

  lemma AcceptorKeepsHands(s: State, a: Action)
    requires OneHand(s) && Step(s, a).Some? && (a.Accept? || a.Decide? || a.CloseRejected? || a.AcceptorExit? || a.Shutdown?)
    ensures OneHand(Step(s, a).value)
  {
    var s' := Step(s, a).value;
    assert forall c :: Served(s', c) <==> Served(s, c);
    if a.Decide? || a.CloseRejected? {
      assert Held(s, s.acceptor.conn);
      NoRepeatsConcat(s.slots.queued, [s.acceptor.conn]);
      NoRepeatsConcat(s.closed, [s.acceptor.conn]);
      hide Served, NoRepeats;
    } else {
      hide Served, NoRepeats;
    }
  }

  lemma HandlerKeepsHands(s: State, a: Action)
    requires OneHand(s) && Step(s, a).Some? && (a.Take? || a.CloseServed? || a.ReleaseSlot? || a.Exit?)
    ensures OneHand(Step(s, a).value)
  {
    if a.Take? {
      TakeKeepsHands(s, a.h);
    } else if a.CloseServed? {
      CloseKeepsHands(s, a.h);
    } else {
      var s' := Step(s, a).value;
      forall c ensures Served(s', c) <==> Served(s, c) { SameServed(s, a.h, s', c); }
    }
  }

  lemma TakeKeepsHands(s: State, h: Hid)
    requires OneHand(s) && Step(s, Take(h)).Some?
    ensures OneHand(Step(s, Take(h)).value)
  {
    var s' := Step(s, Take(h)).value;
    var c0 := s.slots.queued[0];
    assert s.slots.queued == [c0] + s'.slots.queued;
    assert c0 !in s'.slots.queued;
    ServedByTake(s, h, c0, s');
    assert !Served(s, c0);
  }

  lemma CloseKeepsHands(s: State, h: Hid)
    requires OneHand(s) && Step(s, CloseServed(h)).Some?
    ensures OneHand(Step(s, CloseServed(h)).value)
  {
    var s' := Step(s, CloseServed(h)).value;
    ServedByClose(s, h, s');
    NoRepeatsConcat(s.closed, [s.handlers[h].conn]);
  }

  lemma SameServed(s: State, h: Hid, s': State, c: Conn)
    requires h in s.handlers && !s.handlers[h].Serving? && h in s'.handlers && !s'.handlers[h].Serving?
    requires s'.handlers == s.handlers[h := s'.handlers[h]]
    ensures Served(s', c) <==> Served(s, c)
  {
    if Served(s, c) {
      var g :| g in s.handlers && s.handlers[g].Serving? && s.handlers[g].conn == c;
      assert s'.handlers[g] == s.handlers[g];
    }
  }

  lemma ServedByTake(s: State, h: Hid, c0: Conn, s': State)
    requires h in s.handlers && s.handlers[h].Idle? && s'.handlers == s.handlers[h := Serving(c0)]
    ensures forall c :: Served(s', c) <==> Served(s, c) || c == c0
  {
    assert s'.handlers[h].Serving?;
    forall c
      ensures Served(s', c) <==> Served(s, c) || c == c0
    {
      if Served(s, c) {
        var g :| g in s.handlers && s.handlers[g].Serving? && s.handlers[g].conn == c;
        assert s'.handlers[g] == s.handlers[g];
      }
    }
  }

  lemma ServedByClose(s: State, h: Hid, s': State)
    requires OneHand(s) && h in s.handlers && s.handlers[h].Serving? && s'.handlers == s.handlers[h := Releasing]
    ensures forall c :: Served(s', c) <==> Served(s, c) && c != s.handlers[h].conn
    ensures Served(s, s.handlers[h].conn)
  {
    forall c
      ensures Served(s', c) <==> Served(s, c) && c != s.handlers[h].conn
    {
      if Served(s, c) && c != s.handlers[h].conn {
        var g :| g in s.handlers && s.handlers[g].Serving? && s.handlers[g].conn == c;
        assert s'.handlers[g] == s.handlers[g];
      }
    }
  }

  /** Every step keeps slots, counters and ownership. */
  lemma StepKeeps(s: State, a: Action)
    requires Inv(s) && Step(s, a).Some?
    ensures Inv(Step(s, a).value) && Step(s, a).value.handlers.Keys == s.handlers.Keys
  {
    hide OneHand, SlotsOk, CountsOk;
    SlotsKeep(s, a);
    CountsKeep(s, a);
    if a.Take? || a.CloseServed? || a.ReleaseSlot? || a.Exit? {
      HandlerKeepsHands(s, a);
    } else {
      AcceptorKeepsHands(s, a);
    }
  }

  ghost predicate Runs(s: State, tr: seq<Action>, s': State)
    decreases |tr|
  {
    if tr == [] then s' == s else Step(s, tr[0]).Some? && Runs(Step(s, tr[0]).value, tr[1..], s')
  }

  lemma {:induction false} RunKeeps(s: State, tr: seq<Action>, s': State)
    requires Inv(s) && Runs(s, tr, s')
    ensures Inv(s') && s'.handlers.Keys == s.handlers.Keys
    decreases |tr|
  {
    hide Step, Inv;
    if tr != [] {
      StepKeeps(s, tr[0]);
      RunKeeps(Step(s, tr[0]).value, tr[1..], s');
    }
  }

  lemma StartedOk(s: State)
    requires Started(s)
    ensures Inv(s)
  {
    assert Busy(s) == {};
    assert forall c :: !Served(s, c);
  }

  /** Slot conservation over every run from `start`: idle, queued and busy add up to the pool;
      every queued connection has an idle handler left for it; every accepted connection
      was counted as served or rejected, save one the acceptor is deciding on; and no
      connection was closed twice. */
  lemma SlotConservation(s: State, tr: seq<Action>, s': State)
    requires Started(s) && Runs(s, tr, s')
    ensures s'.slots.idle + |s'.slots.queued| + |Busy(s')| == |s.handlers|
    ensures |s'.slots.queued| <= |Free(s')|
    ensures s'.slots.served + s'.slots.rejected + (if s'.acceptor.Holding? then 1 else 0) == |s'.accepted|
    ensures NoRepeats(s'.closed) && (forall c :: c in s'.closed ==> c in s'.accepted)
  {
    StartedOk(s);
    RunKeeps(s, tr, s');
    assert |s'.handlers| == |s'.handlers.Keys| == |s.handlers.Keys|;
    if s'.slots.queued != [] {
      assert Free(s') + Busy(s') == s'.handlers.Keys;
      assert Free(s') !! Busy(s');
      assert |s'.handlers.Keys| == |Free(s')| + |Busy(s')|;
    }
  }

  /** Once every thread has been joined the queue is already empty, so the clean-up loop
      closes nothing, and each accepted connection has been closed exactly once. */
  lemma DrainIsComplete(s: State, tr: seq<Action>, s': State)
    requires Started(s) && s.handlers != map[] && Runs(s, tr, s')
    requires s'.acceptor.AcceptorDone? && forall h :: h in s'.handlers ==> s'.handlers[h].Exited?
    ensures s'.slots.queued == []
    ensures NoRepeats(s'.closed) && forall c :: c in s'.closed <==> c in s'.accepted
    ensures s'.slots.served + s'.slots.rejected == |s'.closed|
  {
    StartedOk(s);
    RunKeeps(s, tr, s');
    var h :| h in s.handlers;
    assert h in s'.handlers.Keys;
    assert forall c :: !Served(s', c) && !Held(s', c);
    DistinctCount(s'.closed, s'.accepted);
  }

  // ---- Who is served, and in what order -----------------------------------------------------------

  /** A connection is queued exactly when the server is not stopping and some handler is neither
      busy nor spoken for; otherwise it is turned away. */
  lemma AdmittedExactly(s: State, s': State)
    requires Inv(s) && s.acceptor.Holding? && Step(s, Decide) == Some(s')
    ensures var (c, free) := (s.acceptor.conn, !s.slots.stopping && |s.slots.queued| + |Busy(s)| < |s.handlers|);
            if free then s'.slots.queued == s.slots.queued + [c] && s'.acceptor == Polling && s'.slots.served == s.slots.served + 1
            else s'.slots.queued == s.slots.queued && s'.acceptor == Rejecting(c) && s'.slots.rejected == s.slots.rejected + 1
  {
    hide OneHand, CountsOk;
  }

  /** The connection a step queues, and the one it hands to a handler. */
  function AdmittedNow(s: State, a: Action): seq<Conn> {
    if a.Decide? && Step(s, a).Some? && Step(s, a).value.acceptor.Polling? then [s.acceptor.conn] else []
  }

  function TakenNow(s: State, a: Action): seq<Conn> {
    if a.Take? && Step(s, a).Some? && Step(s, a).value.handlers[a.h].Serving?
    then [Step(s, a).value.handlers[a.h].conn] else []
  }

  /** The connections queued along a run, in the order they arrived. */
  function Admitted(s: State, tr: seq<Action>): seq<Conn>
    decreases |tr|
  {
    if tr == [] || Step(s, tr[0]).None? then [] else AdmittedNow(s, tr[0]) + Admitted(Step(s, tr[0]).value, tr[1..])
  }

  /** The connections handlers took up along a run, in order. */
  function Taken(s: State, tr: seq<Action>): seq<Conn>
    decreases |tr|
  {
    if tr == [] || Step(s, tr[0]).None? then [] else TakenNow(s, tr[0]) + Taken(Step(s, tr[0]).value, tr[1..])
  }

  lemma QueueStep(s: State, a: Action, s': State)
    requires Step(s, a) == Some(s')
    ensures s.slots.queued + AdmittedNow(s, a) == TakenNow(s, a) + s'.slots.queued
  {
    if a.Take? {
      assert s.slots.queued == [s.slots.queued[0]] + s.slots.queued[1..];
    }
  }

  /** First come, first served: those taken up and then those still queued are those queued at
      the start and then those admitted, in that order. */
  lemma {:induction false} FirstComeFirstServed(s: State, tr: seq<Action>, s': State)
    requires Runs(s, tr, s')
    ensures s.slots.queued + Admitted(s, tr) == Taken(s, tr) + s'.slots.queued
    decreases |tr|
  {
    hide Step, AdmittedNow, TakenNow;
    if tr == [] {
      assert s.slots.queued + [] == [] + s.slots.queued;
    } else {
      var s1 := Step(s, tr[0]).value;
      QueueStep(s, tr[0], s1);
      FirstComeFirstServed(s1, tr[1..], s');
      var (a, b) := (AdmittedNow(s, tr[0]), TakenNow(s, tr[0]));
      var (as1, bs1) := (Admitted(s1, tr[1..]), Taken(s1, tr[1..]));
      assert s.slots.queued + (a + as1) == (s.slots.queued + a) + as1;
      assert (b + s1.slots.queued) + as1 == b + (s1.slots.queued + as1);
      assert b + (bs1 + s'.slots.queued) == (b + bs1) + s'.slots.queued;
    }
  }

  /** From a start to the end of all threads, everybody admitted was taken up, in order. */
  lemma EverybodyAdmittedIsServed(s: State, tr: seq<Action>, s': State)
    requires Started(s) && s.handlers != map[] && Runs(s, tr, s')
    requires s'.acceptor.AcceptorDone? && forall h :: h in s'.handlers ==> s'.handlers[h].Exited?
    ensures Taken(s, tr) == Admitted(s, tr)
  {
    hide Runs, Taken, Admitted;
    DrainIsComplete(s, tr, s');
    FirstComeFirstServed(s, tr, s');
    assert [] + Admitted(s, tr) == Admitted(s, tr) && Taken(s, tr) + [] == Taken(s, tr);
  }

  // ---- The server object --------------------------------------------------------------------

  class ConnectionServer {
    var queued: seq<Conn>
    var idle: nat
    var stopping: bool
    var running: bool
    var served: nat
    var rejected: nat

    function View(): Slots
      reads this
    {
      Slots(queued, idle, stopping, running, served, rejected)
    }

    method AdmitConnection(conn: Conn) returns (ok: bool)
      modifies this
      ensures (ok, View()) == old(View()).Admit(conn)
    {
      ok := false;
      if !stopping && idle > 0 {
        idle := idle - 1;
        queued := queued + [conn];
        ok := true;
        served := served + 1;
      } else {
        rejected := rejected + 1;
      }
    }

    method TakeConnection() returns (conn: Option<Conn>)
      modifies this
      ensures if old(queued) == [] then conn == None && View() == old(View())
              else conn == Some(old(View()).Dequeue().0) && View() == old(View()).Dequeue().1
    {
      if queued == [] {
        return None;
      }
      conn := Some(queued[0]);
      queued := queued[1..];
    }

    method ReleaseHandler()
      modifies this
      ensures View() == old(View()).Release()
    {
      idle := idle + 1;
    }

    method BeginShutdown()
      modifies this
      ensures View() == old(View()).Stop()
    {
      if running {
        stopping := true;
        running := false;
      }
    }

    /** Closes whatever is still queued after the threads were joined. */
    method CloseLeftovers() returns (closes: seq<Conn>)
      modifies this`queued
      ensures queued == [] && closes == old(queued)
    {
      closes := [];
      while queued != []
        invariant closes + queued == old(queued)
        decreases |queued|
      {
        closes := closes + [queued[0]];
        queued := queued[1..];
      }
    }
  }
}
