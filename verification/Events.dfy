/** The event publisher (events.cpp): subscribers are snapshotted under the lock and
    called outside it, and unsubscribing from outside a callback waits for every
    snapshot to be gone. Threads interleave at every lock, callback entry and exit. */
module Events {
  import opened Jobs
  import opened Sequences

  type Tid = nat
  type Pid = nat

  /** A subscriber is the pair of a callback and its user data. */
  datatype Sub = Sub(callback: nat, user: nat)

  /** The fields the mutex guards. */
  datatype Registry = Registry(subscribers: seq<Sub>, inFlight: nat) {
    function Add(sub: Sub): (bool, Registry) {
      if sub.callback == 0 || sub in subscribers then (false, this) else (true, this.(subscribers := subscribers + [sub]))
    }
    function Remove(sub: Sub): Registry { this.(subscribers := Without(subscribers, sub)) }
    function Begin(): Registry { this.(inFlight := inFlight + 1) }
    function End(): Registry requires inFlight > 0 { this.(inFlight := inFlight - 1) }
  }

  /** One live publish: its snapshot, how far delivery got, and whether a callback is running. */
  datatype Frame = Frame(owner: Tid, snapshot: seq<Sub>, next: nat, calling: bool) {
    predicate Ok() { next <= |snapshot| && (calling ==> next < |snapshot|) }
    /** The first callback not yet entered. */
    function Undelivered(): nat { if calling then next + 1 else next }
    predicate StillDue(sub: Sub) { exists k :: Undelivered() <= k < |snapshot| && snapshot[k] == sub }
  }

  /** `stacks` are the nested publishes of each thread, innermost last; its length is
      the thread's publish depth. `waiting` are the threads blocked in unsubscribe. */
  datatype State = State(reg: Registry, live: map<Pid, Frame>, stacks: map<Tid, seq<Pid>>, waiting: map<Tid, Sub>) {
    function Stack(t: Tid): seq<Pid> { if t in stacks then stacks[t] else [] }
    function Depth(t: Tid): nat { |Stack(t)| }
    /** The thread runs its own code: outside any publish, or inside a callback. */
    predicate InUserCode(t: Tid) {
      && t !in waiting
      && (Depth(t) > 0 ==> Top(t) in live && live[Top(t)].calling)
    }
    function Top(t: Tid): Pid requires Depth(t) > 0 { Stack(t)[|Stack(t)| - 1] }
  }

  datatype Action =
    | Subscribe(sub: Sub)
    | Unsubscribe(sub: Sub)
    | Drained
    | PublishBegin(pid: Pid)
    | CallNext
    | CallbackEnd(threw: bool)
    | PublishEnd

  /** The snapshot is taken and counted in one critical section. */
  function Begun(s: State, t: Tid, pid: Pid): State {
    s.(reg := s.reg.Begin(),
       live := s.live[pid := Frame(t, s.reg.subscribers, 0, false)],
       stacks := s.stacks[t := s.Stack(t) + [pid]])
  }

  function Step(s: State, t: Tid, a: Action): Option<State> {
    match a
    case Subscribe(sub) =>
      if !s.InUserCode(t) then None
      else Some(s.(reg := s.reg.Add(sub).1))
    case Unsubscribe(sub) =>
      if !s.InUserCode(t) then None
      else
        var s1 := s.(reg := s.reg.Remove(sub));
        Some(if s.Depth(t) == 0 then s1.(waiting := s.waiting[t := sub]) else s1)
    case Drained =>
      if t in s.waiting && s.reg.inFlight == 0 then Some(s.(waiting := s.waiting - {t})) else None
    case PublishBegin(pid) =>
      if !s.InUserCode(t) || pid in s.live then None
      else Some(Begun(s, t, pid))
    case CallNext =>
      if s.Depth(t) == 0 || s.Top(t) !in s.live then None
      else
        var f := s.live[s.Top(t)];
        if f.calling || f.next >= |f.snapshot| then None
        else Some(s.(live := s.live[s.Top(t) := f.(calling := true)]))
    case CallbackEnd(_) =>
      // A callback that throws is caught and reported; delivery goes on either way.
      if s.Depth(t) == 0 || s.Top(t) !in s.live || !s.live[s.Top(t)].calling || t in s.waiting then None
      else
        var f := s.live[s.Top(t)];
        Some(s.(live := s.live[s.Top(t) := f.(calling := false, next := f.next + 1)]))
    case PublishEnd =>
      if s.Depth(t) == 0 || s.Top(t) !in s.live || s.reg.inFlight == 0 then None
      else
        var f := s.live[s.Top(t)];
        if f.calling || f.next < |f.snapshot| then None
        else Some(s.(reg := s.reg.End(), live := s.live - {s.Top(t)},
                     stacks := s.stacks[t := s.Stack(t)[..s.Depth(t) - 1]]))
  }

  /** The callback a step enters, if it enters one. */
  function Called(s: State, t: Tid, a: Action): Option<Sub> {
    if a.CallNext? && Step(s, t, a).Some? then
      var f := s.live[s.Top(t)];
      Some(f.snapshot[f.next])
    else None
  }

  // ---- The invariant ----------------------------------------------------------------

  /** A thread's stack holds live publishes of its own, each once; all but the
      innermost are inside a callback; a thread waiting in unsubscribe has none. */
  predicate StackOk(s: State, t: Tid)
    requires t in s.stacks
  {
    && NoRepeats(s.stacks[t])
    && (forall k :: 0 <= k < |s.stacks[t]| ==>
          s.stacks[t][k] in s.live && s.live[s.stacks[t][k]].owner == t
          && (k < |s.stacks[t]| - 1 ==> s.live[s.stacks[t][k]].calling))
    && (t in s.waiting ==> s.stacks[t] == [])
  }

  ghost predicate Inv(s: State) {
    && NoRepeats(s.reg.subscribers)
    && s.reg.inFlight == |s.live|
    && (forall t :: t in s.stacks ==> StackOk(s, t))
    && (forall p :: p in s.live ==>
          s.live[p].Ok() && s.live[p].owner in s.stacks && p in s.stacks[s.live[p].owner])
  }

  lemma FrameStepKeeps(s: State, t: Tid, f': Frame)
    requires Inv(s) && s.Depth(t) > 0 && s.Top(t) in s.live && f'.owner == s.live[s.Top(t)].owner && f'.Ok()
    ensures Inv(s.(live := s.live[s.Top(t) := f']))
  {
    var s' := s.(live := s.live[s.Top(t) := f']);
    assert s'.live.Keys == s.live.Keys;
    assert |s'.live| == |s.live|;
    forall u | u in s'.stacks
      ensures StackOk(s', u)
    {
      assert StackOk(s, u);
      assert StackOk(s, t);
    }
  }

  lemma BeginKeeps(s: State, t: Tid, pid: Pid)
    requires Inv(s) && s.InUserCode(t) && pid !in s.live
    ensures Inv(Begun(s, t, pid))
  {
    var s' := Begun(s, t, pid);
    BeginCounts(s, t, pid);
    forall u | u in s'.stacks
      ensures StackOk(s', u)
    {
      BeginKeepsStack(s, t, pid, u);
    }
    forall p | p in s'.live
      ensures s'.live[p].Ok() && s'.live[p].owner in s'.stacks && p in s'.stacks[s'.live[p].owner]
    {
      BeginKeepsOwner(s, t, pid, p);
    }
    hide NoRepeats, StackOk, Begun, State.InUserCode;
  }

  lemma BeginCounts(s: State, t: Tid, pid: Pid)
    requires Inv(s) && pid !in s.live
    ensures var s' := Begun(s, t, pid);
            s'.reg.inFlight == |s'.live| && s'.reg.subscribers == s.reg.subscribers
  {
    hide NoRepeats, StackOk;
    assert Begun(s, t, pid).live.Keys == s.live.Keys + {pid};
  }

  lemma BeginKeepsOwner(s: State, t: Tid, pid: Pid, p: Pid)
    requires Inv(s) && s.InUserCode(t) && pid !in s.live && (p == pid || p in s.live)
    ensures var s' := Begun(s, t, pid);
            s'.live[p].Ok() && s'.live[p].owner in s'.stacks && p in s'.stacks[s'.live[p].owner]
  {
    hide NoRepeats, StackOk;
    var s' := Begun(s, t, pid);
    assert s'.stacks[t] == s.Stack(t) + [pid];
    assert pid in [pid];
  }

  lemma BeginKeepsStack(s: State, t: Tid, pid: Pid, u: Tid)
    requires Inv(s) && s.InUserCode(t) && pid !in s.live
    requires u == t || u in s.stacks
    ensures StackOk(Begun(s, t, pid), u)
  {
    if u == t {
      BeginKeepsOwn(s, t, pid);
    } else {
      assert StackOk(s, u);
    }
  }

  lemma BeginKeepsOwn(s: State, t: Tid, pid: Pid)
    requires Inv(s) && s.InUserCode(t) && pid !in s.live
    ensures StackOk(Begun(s, t, pid), t)
  {
    var s' := Begun(s, t, pid);
    var q, q' := s.Stack(t), s'.stacks[t];
    assert q' == q + [pid];
    OwnStack(s, t);
    assert NoRepeats([pid]);
    NoRepeatsConcat(q, [pid]);
    hide NoRepeats;
    forall k | 0 <= k < |q'|
      ensures q'[k] in s'.live && s'.live[q'[k]].owner == t && (k < |q'| - 1 ==> s'.live[q'[k]].calling)
    {
      if k < |q| {
        assert q'[k] == q[k] && s'.live[q[k]] == s.live[q[k]];
      }
    }
  }

  /** What a thread's stack holds when the thread runs its own code: publishes of its own,
      every one of them inside a callback. */
  lemma OwnStack(s: State, t: Tid)
    requires Inv(s) && s.InUserCode(t)
    ensures NoRepeats(s.Stack(t))
    ensures forall k :: 0 <= k < |s.Stack(t)| ==>
              s.Stack(t)[k] in s.live && s.live[s.Stack(t)[k]].owner == t && s.live[s.Stack(t)[k]].calling
  {
    assert t in s.stacks ==> StackOk(s, t);
  }

  lemma EndKeeps(s: State, t: Tid)
    requires Inv(s) && Step(s, t, PublishEnd).Some?
    ensures Inv(Step(s, t, PublishEnd).value)
  {
    var s' := Step(s, t, PublishEnd).value;
    var pid := s.Top(t);
    assert s'.live.Keys == s.live.Keys - {pid};
    assert s.Stack(t) == s'.Stack(t) + [pid];
    assert StackOk(s, t);
    forall u | u in s'.stacks
      ensures StackOk(s', u)
    {
      assert StackOk(s, u);
    }
    forall p | p in s'.live
      ensures s'.live[p].Ok() && s'.live[p].owner in s'.stacks && p in s'.stacks[s'.live[p].owner]
    {
      assert p in s.live;
    }
  }

  lemma TopIsLive(s: State, u: Tid)
    requires Inv(s) && s.Depth(u) > 0
    ensures s.Top(u) in s.live && s.live[s.Top(u)].Ok() && s.reg.inFlight > 0 && u !in s.waiting
  {
    assert StackOk(s, u);
    assert s.Top(u) in s.live.Keys;
  }

  /** In every step of every thread, `inFlight` keeps counting the live snapshots. */
  lemma StepKeeps(s: State, t: Tid, a: Action)
    requires Inv(s) && Step(s, t, a).Some?
    ensures Inv(Step(s, t, a).value)
  {
    hide Inv;
    if a.CallNext? || a.CallbackEnd? {
      TopIsLive(s, t);
    }
    match a
    case Subscribe(_) => SubscriptionKeeps(s, t, a);
    case Unsubscribe(_) => SubscriptionKeeps(s, t, a);
    case Drained => SubscriptionKeeps(s, t, a);
    case PublishBegin(pid) => BeginKeeps(s, t, pid);
    case CallNext => FrameStepKeeps(s, t, s.live[s.Top(t)].(calling := true));
    case CallbackEnd(_) =>
      FrameStepKeeps(s, t, s.live[s.Top(t)].(calling := false, next := s.live[s.Top(t)].next + 1));
    case PublishEnd => EndKeeps(s, t);
  }

  lemma SubscriptionKeeps(s: State, t: Tid, a: Action)
    requires Inv(s) && Step(s, t, a).Some? && (a.Subscribe? || a.Unsubscribe? || a.Drained?)
    ensures Inv(Step(s, t, a).value)
  {
    var s' := Step(s, t, a).value;
    if a.Unsubscribe? {
      WithoutElements(s.reg.subscribers, a.sub);
    }
    forall u | u in s'.stacks
      ensures StackOk(s', u)
    {
      assert StackOk(s, u);
    }
  }

  // ---- Runs --------------------------------------------------------------------------

  type Trace = seq<(Tid, Action)>

  ghost predicate Runs(s: State, tr: Trace, s': State)
    decreases |tr|
  {
    if tr == [] then s' == s
    else Step(s, tr[0].0, tr[0].1).Some? && Runs(Step(s, tr[0].0, tr[0].1).value, tr[1..], s')
  }

  predicate NeverSubscribes(tr: Trace, sub: Sub) {
    forall k :: 0 <= k < |tr| ==> tr[k].1 != Subscribe(sub)
  }

  /** No step of the run enters a callback of `sub`. */
  ghost predicate NeverCalls(s: State, tr: Trace, sub: Sub)
    decreases |tr|
  {
    tr != [] && Step(s, tr[0].0, tr[0].1).Some? ==>
      && Called(s, tr[0].0, tr[0].1) != Some(sub)
      && NeverCalls(Step(s, tr[0].0, tr[0].1).value, tr[1..], sub)
  }

  /** The pair is not subscribed, and no live snapshot still has to deliver to it. */
  predicate Clear(s: State, sub: Sub) {
    sub !in s.reg.subscribers && forall p :: p in s.live ==> !s.live[p].StillDue(sub)
  }

  lemma FrameStaysClear(f: Frame, sub: Sub)
    requires !f.StillDue(sub)
    ensures !f.(calling := true).StillDue(sub)
    ensures f.calling ==> !f.(calling := false, next := f.next + 1).StillDue(sub)
    ensures !f.calling && f.next < |f.snapshot| ==> f.snapshot[f.next] != sub
  {}

  lemma NewFrameIsClear(t: Tid, subs: seq<Sub>, sub: Sub)
    requires sub !in subs
    ensures !Frame(t, subs, 0, false).StillDue(sub)
  {}

  lemma StepStaysGone(s: State, t: Tid, a: Action, sub: Sub)
    requires NoRepeats(s.reg.subscribers) && Step(s, t, a).Some? && a != Subscribe(sub) && sub !in s.reg.subscribers
    ensures sub !in Step(s, t, a).value.reg.subscribers
    ensures Clear(s, sub) ==> Clear(Step(s, t, a).value, sub) && Called(s, t, a) != Some(sub)
  {
    if a.Unsubscribe? {
      WithoutElements(s.reg.subscribers, a.sub);
    }
    if Clear(s, sub) {
      hide Frame.StillDue;
      NewFrameIsClear(t, s.reg.subscribers, sub);
      if a.CallNext? || a.CallbackEnd? {
        FrameStaysClear(s.live[s.Top(t)], sub);
      }
    }
  }

  lemma {:induction false} RunKeeps(s: State, tr: Trace, s': State)
    requires Inv(s) && Runs(s, tr, s')
    ensures Inv(s') && s'.reg.inFlight == |s'.live|
    decreases |tr|
  {
    hide Step;
    if tr != [] {
      StepKeeps(s, tr[0].0, tr[0].1);
      RunKeeps(Step(s, tr[0].0, tr[0].1).value, tr[1..], s');
    }
  }

  const START := State(Registry([], 0), map[], map[], map[])

  /** From a new publisher, over every interleaving, `inFlight` is the number of live snapshots. */
  lemma InFlightCounts(tr: Trace, s: State)
    requires Runs(START, tr, s)
    ensures Inv(s) && s.reg.inFlight == |s.live|
  {
    RunKeeps(START, tr, s);
  }

  lemma {:induction false} RunStaysGone(s: State, tr: Trace, s': State, sub: Sub)
    requires Inv(s) && Runs(s, tr, s') && NeverSubscribes(tr, sub) && sub !in s.reg.subscribers
    ensures sub !in s'.reg.subscribers
    ensures Clear(s, sub) ==> Clear(s', sub) && NeverCalls(s, tr, sub)
    decreases |tr|
  {
    hide Step, StackOk, NoRepeats, Called, Clear;
    if tr != [] {
      var (t, a) := tr[0];
      StepKeeps(s, t, a);
      StepStaysGone(s, t, a, sub);
      assert NeverSubscribes(tr[1..], sub);
      RunStaysGone(Step(s, t, a).value, tr[1..], s', sub);
    }
  }

  /** Unsubscribe safety. A thread outside any callback unsubscribes a pair (s to s1),
      other threads run (tr1, to s2), and the call returns (s2 to s3). Then no snapshot
      is left at all, and until the pair is subscribed again no callback on it is ever
      entered, whatever the threads do (tr2). */
  lemma UnsubscribeIsSafe(s: State, t: Tid, sub: Sub, s1: State, tr1: Trace, s2: State, s3: State, tr2: Trace, s4: State)
    requires Inv(s) && s.Depth(t) == 0 && Step(s, t, Unsubscribe(sub)) == Some(s1)
    requires Runs(s1, tr1, s2) && NeverSubscribes(tr1, sub)
    requires Step(s2, t, Drained) == Some(s3)
    requires Runs(s3, tr2, s4) && NeverSubscribes(tr2, sub)
    ensures s3.live == map[] && sub !in s3.reg.subscribers
    ensures NeverCalls(s3, tr2, sub) && sub !in s4.reg.subscribers
  {
    hide NeverCalls, Runs;
    StepKeeps(s, t, Unsubscribe(sub));
    WithoutElements(s.reg.subscribers, sub);
    RunKeeps(s1, tr1, s2);
    RunStaysGone(s1, tr1, s2, sub);
    StepKeeps(s2, t, Drained);
    assert |s2.live.Keys| == 0;
    assert s3.live == map[];
    RunStaysGone(s3, tr2, s4, sub);
  }

  /** A thread that unsubscribes outside any callback does nothing more until it has seen that
      no snapshot is left, and it sees that as soon as there is none. */
  lemma UnsubscribeWaits(s: State, t: Tid, sub: Sub, s1: State)
    requires Inv(s) && s.Depth(t) == 0 && Step(s, t, Unsubscribe(sub)) == Some(s1)
    ensures forall a :: Step(s1, t, a).Some? ==> a.Drained?
    ensures Step(s1, t, Drained).Some? <==> s1.live == map[]
  {
    StepKeeps(s, t, Unsubscribe(sub));
    assert s1.live == map[] <==> s1.live.Keys == {};
    assert s1.live.Keys == {} <==> |s1.live.Keys| == 0;
  }

  /** The thread that waits is never one of those it waits for. */
  lemma WaiterIsNotPublishing(s: State, t: Tid, p: Pid)
    requires Inv(s) && t in s.waiting && p in s.live
    ensures s.live[p].owner != t
  {
    assert t in s.stacks ==> StackOk(s, t);
  }

  // ---- After an unsubscribe that did not wait ----------------------------------------------

  /** A thread with a publish that still has to deliver to the pair can go on until it does:
      it ends the callbacks and publishes nested above that one, and then delivers. */
  lemma {:induction false} GoesOnToCall(s: State, u: Tid, p: Pid, sub: Sub) returns (tr: Trace, s': State)
    requires Inv(s) && p in s.Stack(u) && p in s.live && s.live[p].StillDue(sub)
    ensures Runs(s, tr, s') && NeverSubscribes(tr, sub) && !NeverCalls(s, tr, sub)
    decreases s.Depth(u), Work(s, u)
  {
    hide Inv, StackOk;
    var a, s1 := NextStep(s, u, p, sub);
    if Called(s, u, a) == Some(sub) {
      tr, s' := [(u, a)], s1;
      assert Runs(s1, tr[1..], s1);
    } else {
      var rest;
      rest, s' := GoesOnToCall(s1, u, p, sub);
      tr := [(u, a)] + rest;
      assert tr[1..] == rest;
    }
  }

  /** What is left of the innermost publish of a thread. */
  function Work(s: State, u: Tid): nat {
    if s.Depth(u) == 0 || s.Top(u) !in s.live || !s.live[s.Top(u)].Ok() then 0
    else
      var f := s.live[s.Top(u)];
      2 * (|f.snapshot| - f.next) + (if f.calling then 0 else 1)
  }

  lemma NextStep(s: State, u: Tid, p: Pid, sub: Sub) returns (a: Action, s1: State)
    requires Inv(s) && p in s.Stack(u) && p in s.live && s.live[p].StillDue(sub)
    ensures Step(s, u, a) == Some(s1) && !a.Subscribe? && Inv(s1)
    ensures Called(s, u, a) == Some(sub) ||
            (&& p in s1.Stack(u) && p in s1.live && s1.live[p].StillDue(sub)
             && (s1.Depth(u) < s.Depth(u) || (s1.Depth(u) == s.Depth(u) && Work(s1, u) < Work(s, u))))
  {
    TopIsLive(s, u);
    var f := s.live[s.Top(u)];
    a := if f.calling then CallbackEnd(false) else if f.next < |f.snapshot| then CallNext else PublishEnd;
    if a.PublishEnd? {
      s1 := EndingStep(s, u, p, sub);
    } else {
      s1 := DeliveryStep(s, u, p, sub, a);
    }
    StepKeeps(s, u, a);
  }

  lemma EndingStep(s: State, u: Tid, p: Pid, sub: Sub) returns (s1: State)
    requires Inv(s) && p in s.Stack(u) && p in s.live && s.live[p].StillDue(sub)
    requires !s.live[s.Top(u)].calling && s.live[s.Top(u)].next >= |s.live[s.Top(u)].snapshot|
    ensures Step(s, u, PublishEnd) == Some(s1)
    ensures p in s1.Stack(u) && p in s1.live && s1.live[p].StillDue(sub) && s1.Depth(u) < s.Depth(u)
  {
    TopIsLive(s, u);
    s1 := Step(s, u, PublishEnd).value;
    assert s.Stack(u) == s1.Stack(u) + [s.Top(u)];
    assert p != s.Top(u);
  }

  lemma DeliveryStep(s: State, u: Tid, p: Pid, sub: Sub, a: Action) returns (s1: State)
    requires Inv(s) && p in s.Stack(u) && p in s.live && s.live[p].StillDue(sub)
    requires s.Top(u) in s.live && s.live[s.Top(u)].Ok() && u !in s.waiting
    requires var f := s.live[s.Top(u)];
             (f.calling && a == CallbackEnd(false)) || (!f.calling && f.next < |f.snapshot| && a == CallNext)
    ensures Step(s, u, a) == Some(s1)
    ensures Called(s, u, a) == Some(sub) ||
            (&& p in s1.Stack(u) && p in s1.live && s1.live[p].StillDue(sub)
             && s1.Depth(u) == s.Depth(u) && Work(s1, u) < Work(s, u))
  {
    hide Inv;
    s1 := Step(s, u, a).value;
    assert s1.Stack(u) == s.Stack(u);
  }

  /** From a state in which the pair is not subscribed, it is called again by some run that
      does not subscribe it if and only if a live snapshot still has to deliver to it. */
  lemma CalledAgainExactly(s: State, sub: Sub)
    requires Inv(s) && sub !in s.reg.subscribers
    ensures (exists tr, s' :: Runs(s, tr, s') && NeverSubscribes(tr, sub) && !NeverCalls(s, tr, sub))
            <==> exists p :: p in s.live && s.live[p].StillDue(sub)
  {
    hide Step, NeverCalls, Runs, NeverSubscribes, Frame.StillDue;
    if p :| p in s.live && s.live[p].StillDue(sub) {
      var tr, s' := GoesOnToCall(s, s.live[p].owner, p, sub);
    } else {
      forall tr, s' | Runs(s, tr, s') && NeverSubscribes(tr, sub)
        ensures NeverCalls(s, tr, sub)
      {
        RunStaysGone(s, tr, s', sub);
      }
    }
  }

  /** So an unsubscribe from inside a callback, which does not wait, ends all calls to the pair
      exactly when no live snapshot has one outstanding, this thread's own included. */
  lemma CallbackUnsubscribeExactly(s: State, t: Tid, sub: Sub, s1: State)
    requires Inv(s) && s.Depth(t) > 0 && Step(s, t, Unsubscribe(sub)) == Some(s1)
    ensures t !in s1.waiting && s1.live == s.live
    ensures (exists tr, s' :: Runs(s1, tr, s') && NeverSubscribes(tr, sub) && !NeverCalls(s1, tr, sub))
            <==> exists p :: p in s.live && s.live[p].StillDue(sub)
  {
    hide Runs, NeverCalls, NeverSubscribes, Frame.StillDue, StackOk;
    StepKeeps(s, t, Unsubscribe(sub));
    WithoutElements(s.reg.subscribers, sub);
    CalledAgainExactly(s1, sub);
  }

  /** And one can be outstanding: a subscriber that unsubscribes the one after it. */
  lemma OutstandingIsReachable(a: Sub, b: Sub) returns (tr: Trace, s: State)
    requires a != b && a.callback != 0 && b.callback != 0
    ensures Runs(START, tr, s) && s.InUserCode(1) && s.Depth(1) > 0
    ensures exists p :: p in s.live && s.live[p].StillDue(b)
  {
    var s1 := START.(reg := Registry([a], 0));
    var s2 := START.(reg := Registry([a, b], 0));
    var f := Frame(1, [a, b], 0, false);
    var s3 := State(Registry([a, b], 1), map[0 := f], map[1 := [0]], map[]);
    s := s3.(live := map[0 := f.(calling := true)]);
    assert Step(START, 0, Subscribe(a)) == Some(s1) by { assert [] + [a] == [a]; }
    assert Step(s1, 0, Subscribe(b)) == Some(s2) by { assert [a] + [b] == [a, b]; }
    assert Step(s2, 1, PublishBegin(0)) == Some(s3) by {
      assert s2.live[0 := f] == map[0 := f];
      assert s2.Stack(1) + [0] == [0];
      assert s2.stacks[1 := [0]] == map[1 := [0]];
    }
    assert Step(s3, 1, CallNext) == Some(s) by {
      assert s3.live[0 := f.(calling := true)] == s.live;
    }
    assert s.live[0].snapshot[1] == b;
    tr := [(0, Subscribe(a)), (0, Subscribe(b)), (1, PublishBegin(0)), (1, CallNext)];
    hide Step;
    assert Runs(s3, [(1, CallNext)], s) by { assert [(1, CallNext)][1..] == []; assert Runs(s, [], s); }
    assert tr[3..] == [(1, CallNext)] && tr[2..][1..] == tr[3..] && tr[1..][1..] == tr[2..];
    assert Runs(s2, tr[2..], s);
    assert Runs(s1, tr[1..], s);
  }

  // ---- A publish delivers ----------------------------------------------------------------------

  /** The step ends the publish. */
  predicate EndsIt(s: State, t: Tid, a: Action, pid: Pid) { a.PublishEnd? && s.Depth(t) > 0 && s.Top(t) == pid }

  /** The step is one of that publish entering a callback. */
  predicate CallsFrom(s: State, t: Tid, a: Action, pid: Pid) { a.CallNext? && s.Depth(t) > 0 && s.Top(t) == pid }

  /** The callbacks the publish enters along a run, in order. */
  function CallsOf(s: State, tr: Trace, pid: Pid): seq<Sub>
    decreases |tr|
  {
    if tr == [] || Step(s, tr[0].0, tr[0].1).None? then []
    else
      (if CallsFrom(s, tr[0].0, tr[0].1, pid) then [Called(s, tr[0].0, tr[0].1).value] else [])
      + CallsOf(Step(s, tr[0].0, tr[0].1).value, tr[1..], pid)
  }

  /** The publish does not end along the run. */
  ghost predicate GoesOn(s: State, tr: Trace, pid: Pid)
    decreases |tr|
  {
    tr != [] && Step(s, tr[0].0, tr[0].1).Some? ==>
      !EndsIt(s, tr[0].0, tr[0].1, pid) && GoesOn(Step(s, tr[0].0, tr[0].1).value, tr[1..], pid)
  }

  /** One step on: the publish is still there with its snapshot, one callback further exactly
      when the step entered one of its callbacks, the next one. */
  lemma DeliveryAdvances(s: State, t: Tid, a: Action, pid: Pid)
    requires pid in s.live && s.live[pid].Ok() && Step(s, t, a).Some? && !EndsIt(s, t, a, pid)
    ensures var (f, s') := (s.live[pid], Step(s, t, a).value);
            && pid in s'.live && s'.live[pid].snapshot == f.snapshot && s'.live[pid].Ok()
            && (if CallsFrom(s, t, a, pid)
                then f.Undelivered() < |f.snapshot| && Called(s, t, a) == Some(f.snapshot[f.Undelivered()])
                     && s'.live[pid].Undelivered() == f.Undelivered() + 1
                else s'.live[pid].Undelivered() == f.Undelivered())
  {}

  lemma {:induction false} DeliveryGoesOn(s: State, tr: Trace, s': State, pid: Pid)
    requires pid in s.live && s.live[pid].Ok() && Runs(s, tr, s') && GoesOn(s, tr, pid)
    ensures pid in s'.live && s'.live[pid].snapshot == s.live[pid].snapshot && s'.live[pid].Ok()
    ensures s.live[pid].Undelivered() <= s'.live[pid].Undelivered() <= |s.live[pid].snapshot|
    ensures CallsOf(s, tr, pid) == s.live[pid].snapshot[s.live[pid].Undelivered()..s'.live[pid].Undelivered()]
    decreases |tr|
  {
    hide Step, Called;
    if tr != [] {
      var (t, a) := tr[0];
      DeliveryAdvances(s, t, a, pid);
      DeliveryGoesOn(Step(s, t, a).value, tr[1..], s', pid);
    }
  }

  /** Every publish delivers: from its beginning (s to s1) to its end (s2 to s3), whatever
      callbacks threw, whatever was nested and whatever other threads did in between, the
      callbacks it entered are the subscribers there were at its beginning, in their order,
      each once. */
  lemma PublishDelivers(before: Trace, s: State, t: Tid, pid: Pid, s1: State, tr: Trace, s2: State, u: Tid, s3: State)
    requires Runs(START, before, s)
    requires Step(s, t, PublishBegin(pid)) == Some(s1)
    requires Runs(s1, tr, s2) && GoesOn(s1, tr, pid)
    requires EndsIt(s2, u, PublishEnd, pid) && Step(s2, u, PublishEnd) == Some(s3)
    ensures CallsOf(s1, tr, pid) == s.reg.subscribers
    ensures pid !in s3.live
  {
    hide Runs, GoesOn, CallsOf;
    assert s1.live[pid] == Frame(t, s.reg.subscribers, 0, false);
    DeliveryGoesOn(s1, tr, s2, pid);
  }

  // ---- Who is subscribed, and in what order ------------------------------------------------

  /** Whether the pair is subscribed after the trace: its last subscribe or unsubscribe decides. */
  function Subscribed(tr: Trace, sub: Sub, before: bool): bool
    decreases |tr|
  {
    if tr == [] then before
    else Subscribed(tr[1..], sub, if tr[0].1 == Subscribe(sub) then sub.callback != 0
                                  else if tr[0].1 == Unsubscribe(sub) then false else before)
  }

  lemma RegistryStep(s: State, t: Tid, a: Action, s': State, sub: Sub)
    requires Inv(s) && (forall x :: x in s.reg.subscribers ==> x.callback != 0) && Step(s, t, a) == Some(s')
    ensures forall x :: x in s'.reg.subscribers ==> x.callback != 0
    ensures sub in s'.reg.subscribers <==>
            if a == Subscribe(sub) then sub.callback != 0 else if a == Unsubscribe(sub) then false else sub in s.reg.subscribers
  {
    if a.Unsubscribe? {
      WithoutElements(s.reg.subscribers, a.sub);
    }
  }

  lemma {:induction false} RegistryRun(s: State, tr: Trace, s': State, sub: Sub)
    requires Inv(s) && (forall x :: x in s.reg.subscribers ==> x.callback != 0) && Runs(s, tr, s')
    ensures sub in s'.reg.subscribers <==> Subscribed(tr, sub, sub in s.reg.subscribers)
    decreases |tr|
  {
    hide Step, Inv;
    if tr != [] {
      var s1 := Step(s, tr[0].0, tr[0].1).value;
      StepKeeps(s, tr[0].0, tr[0].1);
      RegistryStep(s, tr[0].0, tr[0].1, s1, sub);
      RegistryRun(s1, tr[1..], s', sub);
    }
  }

  /** Over every run, exactly those are subscribed whose last subscribe, with a callback, no
      unsubscribe has followed. */
  lemma SubscribedExactly(tr: Trace, s: State, sub: Sub)
    requires Runs(START, tr, s)
    ensures sub in s.reg.subscribers <==> Subscribed(tr, sub, false)
  {
    RegistryRun(START, tr, s, sub);
  }

  /** The pair is subscribed at every moment of the run. */
  ghost predicate StaysSubscribed(s: State, tr: Trace, sub: Sub)
    decreases |tr|
  {
    && sub in s.reg.subscribers
    && (tr != [] && Step(s, tr[0].0, tr[0].1).Some? ==> StaysSubscribed(Step(s, tr[0].0, tr[0].1).value, tr[1..], sub))
  }

  lemma OrderStep(s: State, t: Tid, a: Action, s': State, x: Sub, y: Sub)
    requires Inv(s) && Step(s, t, a) == Some(s') && x in s.reg.subscribers && !Ahead(s.reg.subscribers, y, x)
    ensures !Ahead(s'.reg.subscribers, y, x)
  {
    var q, q' := s.reg.subscribers, s'.reg.subscribers;
    if a.Unsubscribe? {
      WithoutKeepsOrder(q, a.sub, y, x);
    } else {
      assert forall i, j :: AheadAt(q', i, j, y, x) ==> AheadAt(q, i, j, y, x);
    }
  }

  /** Subscribers are called in the order of their subscriptions: while a pair stays
      subscribed, no pair that is not ahead of it gets ahead of it. */
  lemma {:induction false} OrderOfSubscription(s: State, tr: Trace, s': State, x: Sub, y: Sub)
    requires Inv(s) && Runs(s, tr, s') && StaysSubscribed(s, tr, x) && !Ahead(s.reg.subscribers, y, x)
    ensures !Ahead(s'.reg.subscribers, y, x)
    decreases |tr|
  {
    hide Step, Inv, Ahead;
    if tr != [] {
      var s1 := Step(s, tr[0].0, tr[0].1).value;
      StepKeeps(s, tr[0].0, tr[0].1);
      OrderStep(s, tr[0].0, tr[0].1, s1, x, y);
      assert StaysSubscribed(s1, tr[1..], x);
      OrderOfSubscription(s1, tr[1..], s', x, y);
    }
  }

  // ---- The publisher object -----------------------------------------------------------

  class EventPublisher {
    var subscribers: seq<Sub>
    var inFlight: nat

    function View(): Registry
      reads this
    {
      Registry(subscribers, inFlight)
    }

    method AddSubscriber(sub: Sub) returns (ok: bool)
      modifies this`subscribers
      ensures (ok, View()) == old(View()).Add(sub)
    {
      if sub.callback == 0 {
        return false;
      }
      var i := 0;
      while i < |subscribers|
        invariant 0 <= i <= |subscribers| && subscribers == old(subscribers)
        invariant forall k :: 0 <= k < i ==> subscribers[k] != sub
      {
        if subscribers[i] == sub {
          return false;
        }
        i := i + 1;
      }
      subscribers := subscribers + [sub];
      return true;
    }

    /** The removal under the lock; the caller waits afterwards unless it is publishing. */
    method RemoveSubscriber(sub: Sub) returns (removed: bool)
      modifies this`subscribers
      ensures removed <==> sub in old(subscribers)
      ensures View() == old(View()).Remove(sub)
    {
      var i := 0;
      while i < |subscribers|
        invariant 0 <= i <= |subscribers| && subscribers == old(subscribers)
        invariant forall k :: 0 <= k < i ==> subscribers[k] != sub
      {
        if subscribers[i] == sub {
          WithoutAt(subscribers, i);
          subscribers := subscribers[..i] + subscribers[i + 1..];
          return true;
        }
        i := i + 1;
      }
      WithoutAbsent(subscribers, sub);
      return false;
    }

    method TakeSnapshot() returns (snapshot: seq<Sub>)
      modifies this`inFlight
      ensures snapshot == subscribers && View() == old(View()).Begin()
    {
      snapshot := subscribers;
      inFlight := inFlight + 1;
    }

    method DropSnapshot() returns (drained: bool)
      requires inFlight > 0
      modifies this`inFlight
      ensures View() == old(View()).End() && drained == (inFlight == 0)
    {
      inFlight := inFlight - 1;
      drained := inFlight == 0;
    }
  }
}
