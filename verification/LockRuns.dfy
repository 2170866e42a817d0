/** Threads over the two mutexes of the manager: any number of them, each running
    operations along with the commands its subscribers issue. */
module LockRuns {
  import opened Jobs
  import opened Locks
  import opened LockCallbacks

  /** `depth` is the thread's count of manager locks, as ManagerLock keeps it. */
  datatype Thread = Thread(todo: seq<Event>, depth: nat, hasStore: bool) {
    function Holds(): Held { Held(depth > 0, hasStore, false) }
  }

  type Tid = nat

  datatype State = State(manager: Option<Tid>, store: Option<Tid>, threads: seq<Thread>, workers: set<Tid>)

  predicate WorkersDone(s: State) {
    forall u :: u in s.workers && 0 <= u < |s.threads| ==> s.threads[u].todo == []
  }

  /** The next event would block: on a mutex somebody holds, the thread itself included, or
      on a worker that has not ended. */
  predicate Blocked(s: State, t: Tid)
    requires t < |s.threads| && s.threads[t].todo != []
  {
    var e := s.threads[t].todo[0];
    (e.TakeManager? && s.manager.Some?) || (e.TakeStore? && s.store.Some?) || (e.Join? && !WorkersDone(s))
  }

  /** `assert_no_manager_lock` fails. */
  predicate Aborts(s: State, t: Tid)
    requires t < |s.threads| && s.threads[t].todo != []
  {
    var e := s.threads[t].todo[0];
    (e.StoreCall? || e.Emit?) && s.threads[t].depth != 0
  }

  predicate CanGo(s: State, t: Tid) {
    t < |s.threads| && s.threads[t].todo != [] && !Blocked(s, t)
  }

  /** What the event does to the mutexes and the counter, disciplined or not. */
  function Go(s: State, t: Tid): State
    requires CanGo(s, t)
  {
    var th := s.threads[t];
    var th' := th.(todo := th.todo[1..]);
    match th.todo[0]
    case TakeManager => s.(manager := Some(t), threads := s.threads[t := th'.(depth := th.depth + 1)])
    case DropManager => s.(manager := None, threads := s.threads[t := th'.(depth := if th.depth > 0 then th.depth - 1 else 0)])
    case TakeStore => s.(store := Some(t), threads := s.threads[t := th'.(hasStore := true)])
    case DropStore => s.(store := None, threads := s.threads[t := th'.(hasStore := false)])
    case _ => s.(threads := s.threads[t := th'])
  }

  datatype Action = Launch(program: Program) | Advance

  /** A thread starts its next operation, with whatever its subscribers answer, or takes one
      step of the one it is in. No subscriber answers a cancellation with something that
      waits, and none that a worker calls shuts the manager down. */
  function Step(s: State, t: Tid, a: Action): Option<State> {
    match a
    case Launch(p) =>
      if t < |s.threads| && s.threads[t].todo == [] && Fits(p) && (t in s.workers ==> Join !in EventsOf(p))
      then Some(s.(threads := s.threads[t := s.threads[t].(todo := EventsOf(p))])) else None
    case Advance => if CanGo(s, t) then Some(Go(s, t)) else None
  }

  type Trace = seq<(Tid, Action)>

  ghost predicate Runs(s: State, tr: Trace, s': State)
    decreases |tr|
  {
    if tr == [] then s' == s
    else Step(s, tr[0].0, tr[0].1).Some? && Runs(Step(s, tr[0].0, tr[0].1).value, tr[1..], s')
  }

  predicate ThreadOk(th: Thread) { th.depth <= 1 && After(th.todo, th.Holds()) == Some(Nothing(false)) }

  /** Every thread is on a disciplined path, and the mutexes belong to those who count them. */
  ghost predicate Inv(s: State) {
    && (forall t :: 0 <= t < |s.threads| ==> ThreadOk(s.threads[t]))
    && (forall t :: 0 <= t < |s.threads| ==> (s.manager == Some(t) <==> s.threads[t].depth > 0))
    && (forall t :: 0 <= t < |s.threads| ==> (s.store == Some(t) <==> s.threads[t].hasStore))
    && (s.manager.Some? ==> s.manager.value < |s.threads|)
    && (s.store.Some? ==> s.store.value < |s.threads|)
    && (forall t :: 0 <= t < |s.threads| && t in s.workers ==> Join !in s.threads[t].todo)
  }

  predicate Started(s: State) {
    s.manager.None? && s.store.None? && forall t :: 0 <= t < |s.threads| ==> s.threads[t] == Thread([], 0, false)
  }

  lemma NextIsAllowed(th: Thread)
    requires ThreadOk(th) && th.todo != []
    ensures Allowed(th.Holds(), th.todo[0]).Some?
    ensures After(th.todo[1..], Allowed(th.Holds(), th.todo[0]).value) == Some(Nothing(false))
  {}

  lemma GoKeeps(s: State, t: Tid)
    requires Inv(s) && CanGo(s, t)
    ensures Inv(Go(s, t)) && |Go(s, t).threads| == |s.threads| && Go(s, t).workers == s.workers
  {
    hide After;
    assert ThreadOk(s.threads[t]);
    NextIsAllowed(s.threads[t]);
  }

  lemma StepKeeps(s: State, t: Tid, a: Action)
    requires Inv(s) && Step(s, t, a).Some?
    ensures Inv(Step(s, t, a).value) && |Step(s, t, a).value.threads| == |s.threads|
    ensures Step(s, t, a).value.workers == s.workers
  {
    hide EventsOf, Go, After;
    if a.Launch? {
      assert ThreadOk(s.threads[t]);
      LaunchOk(s.threads[t], a.program);
    } else {
      GoKeeps(s, t);
    }
  }

  lemma LaunchOk(th: Thread, p: Program)
    requires ThreadOk(th) && th.todo == [] && Fits(p)
    ensures ThreadOk(th.(todo := EventsOf(p)))
  {
    hide EventsOf;
    ProgramIsDisciplined(p);
  }

  lemma {:induction false} RunKeeps(s: State, tr: Trace, s': State)
    requires Inv(s) && Runs(s, tr, s')
    ensures Inv(s') && |s'.threads| == |s.threads|
    decreases |tr|
  {
    hide Step, Inv;
    if tr != [] {
      StepKeeps(s, tr[0].0, tr[0].1);
      RunKeeps(Step(s, tr[0].0, tr[0].1).value, tr[1..], s');
    }
  }

  /** Lock discipline over every run of any number of threads: the assertion never aborts,
      the shared connection is used by one thread at a time, nobody waits for the store
      mutex with the manager mutex in hand, and the holder of the manager mutex is never
      blocked. */
  lemma LockDiscipline(s: State, tr: Trace, s': State, t: Tid)
    requires Started(s) && Runs(s, tr, s') && t < |s'.threads| && s'.threads[t].todo != []
    ensures !Aborts(s', t)
    ensures s'.threads[t].todo[0].StoreCall? ==> s'.store == Some(t)
    ensures s'.threads[t].todo[0].TakeStore? ==> s'.threads[t].depth == 0 && s'.store != Some(t)
    ensures s'.threads[t].todo[0].Touch? ==> s'.manager == Some(t)
    ensures s'.manager == Some(t) ==> !Blocked(s', t)
  {
    RunKeeps(s, tr, s');
    assert ThreadOk(s'.threads[t]);
  }

  /** While anything is left to do, some thread can go on: the holder of the manager mutex,
      else the holder of the store mutex, else a worker, else anybody. */
  lemma SomeoneCanGo(s: State, t: Tid) returns (u: Tid)
    requires Inv(s) && t < |s.threads| && s.threads[t].todo != []
    ensures CanGo(s, u)
  {
    if s.manager.Some? {
      u := s.manager.value;
    } else if s.store.Some? {
      u := s.store.value;
    } else if !WorkersDone(s) {
      u :| u in s.workers && 0 <= u < |s.threads| && s.threads[u].todo != [];
      assert s.threads[u].todo[0] in s.threads[u].todo;
    } else {
      u := t;
    }
    assert ThreadOk(s.threads[u]);
  }

  function Load(ths: seq<Thread>): nat {
    if ths == [] then 0 else |ths[0].todo| + Load(ths[1..])
  }

  lemma {:induction false} LoadUpdate(ths: seq<Thread>, t: nat, th: Thread)
    requires t < |ths|
    ensures Load(ths[t := th]) == Load(ths) - |ths[t].todo| + |th.todo|
    decreases |ths|
  {
    if t > 0 {
      assert ths[t := th][1..] == ths[1..][t - 1 := th];
      LoadUpdate(ths[1..], t - 1, th);
    } else {
      assert ths[t := th][1..] == ths[1..];
    }
  }

  predicate AllIdle(s: State) { forall t :: 0 <= t < |s.threads| ==> s.threads[t].todo == [] }

  /** From every reachable state every operation in progress, with the commands its
      subscribers issue and the join of a shutdown, can be brought to its end with no lock
      left behind: there is no deadlock. */
  lemma {:induction false} NoDeadlock(s: State) returns (tr: Trace, s': State)
    requires Inv(s)
    ensures Runs(s, tr, s') && AllIdle(s') && s'.manager.None? && s'.store.None?
    ensures |tr| == Load(s.threads) && forall k :: 0 <= k < |tr| ==> tr[k].1.Advance?
    decreases Load(s.threads)
  {
    hide Go;
    if AllIdle(s) {
      LoadOfIdle(s.threads);
      assert forall t :: 0 <= t < |s.threads| ==> ThreadOk(s.threads[t]);
      return [], s;
    }
    var t :| 0 <= t < |s.threads| && s.threads[t].todo != [];
    var u := SomeoneCanGo(s, t);
    StepKeeps(s, u, Advance);
    GoLightens(s, u);
    var rest;
    rest, s' := NoDeadlock(Go(s, u));
    tr := [(u, Advance)] + rest;
    assert tr[1..] == rest;
  }

  lemma GoLightens(s: State, u: Tid)
    requires CanGo(s, u)
    ensures Load(Go(s, u).threads) == Load(s.threads) - 1
  {
    LoadUpdate(s.threads, u, Go(s, u).threads[u]);
  }

  lemma {:induction false} LoadOfIdle(ths: seq<Thread>)
    requires forall t :: 0 <= t < |ths| ==> ths[t].todo == []
    ensures Load(ths) == 0
    decreases |ths|
  {
    if ths != [] {
      LoadOfIdle(ths[1..]);
    }
  }

  // ---- Where it hangs ---------------------------------------------------------------------------

  /** The thread waits for the store mutex it holds itself. */
  predicate WaitsForItself(s: State, t: Tid) {
    t < |s.threads| && s.threads[t].todo != [] && s.threads[t].todo[0].TakeStore? && s.store == Some(t)
  }

  /** Such a thread never moves again, and no other thread ever gets the store mutex. */
  lemma {:induction false} WaitsForever(s: State, tr: Trace, s': State, t: Tid)
    requires Runs(s, tr, s') && WaitsForItself(s, t)
    requires forall u :: 0 <= u < |s.threads| && u != t ==> ThreadOk(s.threads[u]) && !s.threads[u].hasStore
    ensures WaitsForItself(s', t) && s'.threads[t] == s.threads[t]
    decreases |tr|
  {
    hide EventsOf, After;
    if tr != [] {
      var (u, a) := tr[0];
      if u != t {
        if a.Launch? {
          LaunchOk(s.threads[u], a.program);
        } else {
          NextIsAllowed(s.threads[u]);
        }
      }
      WaitsForever(Step(s, u, a).value, tr[1..], s', t);
    }
  }

  /** One thread on its own, holding `h`. */
  function Solo(todo: seq<Event>, h: Held): State {
    State(if h.manager then Some(0) else None, if h.store then Some(0) else None,
          [Thread(todo, if h.manager then 1 else 0, h.store)], {})
  }

  lemma {:induction false} SoloRuns(es: seq<Event>, rest: seq<Event>, h: Held) returns (tr: Trace)
    requires After(es, h).Some?
    ensures Runs(Solo(es + rest, h), tr, Solo(rest, After(es, h).value))
    decreases |es|
  {
    if es == [] {
      assert es + rest == rest;
      return [];
    }
    var s, h1 := Solo(es + rest, h), Allowed(h, es[0]).value;
    assert (es + rest)[0] == es[0] && (es + rest)[1..] == es[1..] + rest;
    assert CanGo(s, 0) && Go(s, 0) == Solo(es[1..] + rest, h1);
    var more := SoloRuns(es[1..], rest, h1);
    tr := [(0, Advance)] + more;
    assert tr[1..] == more;
  }

  lemma {:induction false} NestedSkips(es: seq<Event>, rest: seq<Event>, inner: seq<Event>)
    requires Emit !in es
    ensures Nested(es + rest, inner) == es + Nested(rest, inner)
    decreases |es|
  {
    if es == [] {
      assert es + rest == rest;
    } else {
      assert (es + rest)[1..] == es[1..] + rest;
      NestedSkips(es[1..], rest, inner);
    }
  }

  lemma {:induction false} FirstTake(es: seq<Event>) returns (k: nat)
    requires TakeStore in es
    ensures k < |es| && es[k].TakeStore? && TakeStore !in es[..k]
    decreases |es|
  {
    if es[0].TakeStore? {
      return 0;
    }
    k := FirstTake(es[1..]);
    k := k + 1;
    assert es[..k] == [es[0]] + es[1..][..k - 1];
  }

  /** A path from and to nothing first takes the store mutex with no lock in hand, so on
      top of the store mutex it gets exactly that far. */
  lemma UpToFirstTake(inner: seq<Event>, k: nat)
    requires Neutral(inner, Nothing(false)) && k < |inner| && inner[k].TakeStore? && !Waits(inner[..k])
    ensures Neutral(inner[..k], OfStore(false))
  {
    assert inner == inner[..k] + inner[k..];
    AfterConcat(inner[..k], inner[k..], Nothing(false));
    OnTopOfStore(inner[..k], Nothing(false));
    StrictIsFixed(inner[..k], Nothing(false));
  }

  lemma {:induction false} StrictIsFixed(es: seq<Event>, h: Held)
    requires After(es, h).Some?
    ensures After(es, h).value.strict == h.strict
    decreases |es|
  {
    if es != [] {
      StrictIsFixed(es[1..], Allowed(h, es[0]).value);
    }
  }

  /** What a cancellation does up to and including its event. */
  const UP_TO_EVENT := SECTION + [TakeStore] + [StoreCall] + [StoreCall] + [Emit]

  lemma CancellationHoldsStore()
    ensures After(UP_TO_EVENT, Nothing(false)) == Some(OfStore(false))
  {
    hide After;
    Parts(false);
    One(TakeStore, Nothing(false));
    AfterConcat(SECTION, [TakeStore], Nothing(false));
    AfterConcat(SECTION + [TakeStore], [StoreCall], Nothing(false));
    AfterConcat(SECTION + [TakeStore] + [StoreCall], [StoreCall], Nothing(false));
    AfterConcat(SECTION + [TakeStore] + [StoreCall] + [StoreCall], [Emit], Nothing(false));
  }

  lemma CancellationNested(inner: seq<Event>)
    ensures Nested(Path(Cancel(true, Cancelled)), inner) == UP_TO_EVENT + inner + [DropStore]
  {
    var before := SECTION + [TakeStore] + [StoreCall] + [StoreCall];
    assert Path(Cancel(true, Cancelled)) == before + [Emit, DropStore];
    NestedSkips(before, [Emit, DropStore], inner);
    NestedAtEvent(inner);
    hide Path, Nested;
    assert before + ([Emit] + inner + [DropStore]) == UP_TO_EVENT + inner + [DropStore];
  }

  lemma NestedAtEvent(inner: seq<Event>)
    ensures Nested([Emit, DropStore], inner) == [Emit] + inner + [DropStore]
  {
    assert [Emit, DropStore][1..] == [DropStore] && [DropStore][1..] == [];
    assert Nested([DropStore], inner) == [DropStore];
  }

  lemma {:induction false} RunsSnoc(s: State, tr: Trace, s1: State, t: Tid, a: Action, s2: State)
    requires Runs(s, tr, s1) && Step(s1, t, a) == Some(s2)
    ensures Runs(s, tr + [(t, a)], s2)
    decreases |tr|
  {
    hide Step;
    if tr == [] {
      assert [(t, a)][1..] == [] && tr + [(t, a)] == [(t, a)];
      assert Runs(s2, [], s2);
    } else {
      assert (tr + [(t, a)])[1..] == tr[1..] + [(t, a)];
      RunsSnoc(Step(s, tr[0].0, tr[0].1).value, tr[1..], s1, t, a, s2);
    }
  }

  /** A subscriber that answers a cancellation with any command on the store hangs for good. */
  lemma CallbackHangs(inner: Op) returns (tr: Trace, s: State)
    requires TakeStore in Path(inner)
    ensures Runs(Solo(Nested(Path(Cancel(true, Cancelled)), Path(inner)), Nothing(false)), tr, s)
    ensures WaitsForItself(s, 0)
  {
    hide Path, Nested, After, Runs;
    var es := Path(inner);
    PathIsDisciplined(inner, false);
    OnlyShutdownJoins(inner);
    CancellationNested(es);
    CancellationHoldsStore();
    if inner == ShutDown(true) {
      tr, s := ShutdownHangs();
    } else {
      var k := FirstTake(es);
      UpToFirstTake(es, k);
      AfterConcat(UP_TO_EVENT, es[..k], Nothing(false));
      var rest := es[k..] + [DropStore];
      assert UP_TO_EVENT + es + [DropStore] == (UP_TO_EVENT + es[..k]) + rest;
      tr := SoloRuns(UP_TO_EVENT + es[..k], rest, Nothing(false));
      s := Solo(rest, OfStore(false));
    }
  }

  lemma ShutdownHangs() returns (tr: Trace, s: State)
    ensures Runs(Solo(UP_TO_EVENT + Path(ShutDown(true)) + [DropStore], Nothing(false)), tr, s)
    ensures WaitsForItself(s, 0)
  {
    hide After, Runs;
    CancellationHoldsStore();
    SectionIsNeutral(OfStore(false));
    AfterConcat(UP_TO_EVENT, SECTION, Nothing(false));
    var rest := [TakeStore, StoreCall, DropStore] + [DropStore];
    assert Path(ShutDown(true)) == SECTION + [Join] + [TakeStore, StoreCall, DropStore];
    assert UP_TO_EVENT + Path(ShutDown(true)) + [DropStore] == (UP_TO_EVENT + SECTION) + ([Join] + rest);
    tr := SoloRuns(UP_TO_EVENT + SECTION, [Join] + rest, Nothing(false));
    var s1 := Solo([Join] + rest, OfStore(false));
    s := Solo(rest, OfStore(false));
    assert ([Join] + rest)[0] == Join && ([Join] + rest)[1..] == rest;
    assert WorkersDone(s1) && CanGo(s1, 0);
    assert Go(s1, 0).threads == s.threads;
    RunsSnoc(Solo(UP_TO_EVENT + Path(ShutDown(true)) + [DropStore], Nothing(false)), tr, s1, 0, Advance, s);
    tr := tr + [(0, Advance)];
  }

  /** A worker about to wait for the workers. */
  predicate JoinsItself(s: State, t: Tid) {
    t in s.workers && t < |s.threads| && s.threads[t].todo != [] && s.threads[t].todo[0].Join?
  }

  /** A subscriber that shuts the manager down from a worker never returns. */
  lemma {:induction false} JoinsForever(s: State, tr: Trace, s': State, t: Tid)
    requires Runs(s, tr, s') && JoinsItself(s, t)
    ensures JoinsItself(s', t) && s'.threads[t] == s.threads[t]
    decreases |tr|
  {
    hide EventsOf;
    if tr != [] {
      JoinsForever(Step(s, tr[0].0, tr[0].1).value, tr[1..], s', t);
    }
  }
}
