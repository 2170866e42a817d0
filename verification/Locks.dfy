/** The lock discipline of manager.cpp. Every operation is the sequence of lock
    and blocking events along one of its paths, and any number of threads
    interleave such sequences over the manager mutex and the store mutex. */
module Locks {
  import opened Jobs

  datatype Event =
    | TakeManager | DropManager
    | TakeStore | DropStore
    | Touch          // reads or writes dispatch state
    | StoreCall      // `store_for_command`, the connection the command threads share
    | OwnStoreCall   // a worker on its own connection
    | Emit           // `emit`: subscribers run arbitrary code
    | Join           // waits for every worker thread to end

  // ---- The paths ---------------------------------------------------------------------------

  const SECTION := [TakeManager, Touch, DropManager]

  datatype CancelEnd = Cancelled | Refused(wrote: bool, restored: bool)

  datatype RetryEnd = NotRetryable | ProbeFailed | Claimed(recorded: bool)

  /** One job of a worker: how often it woke for nothing first, and its store calls. */
  datatype Item = Item(wakes: nat, calls: nat)

  /** An operation with the branches it takes. */
  datatype Op =
    | Query(polls: nat)                                  // the getters, the setters, pump, wait_idle
    | StartUp(running: bool, ready: bool)
    | ShutDown(running: bool)
    | Submit(claimed: bool, recorded: bool)
    | SubmitNew(running: bool, sequenced: bool, claimed: bool, recorded: bool)
    | PauseOrResume(accepted: bool)
    | Cancel(claimed: bool, end: CancelEnd)
    | Retry(known: bool, probes: seq<bool>, last: RetryEnd)
    | Work(items: seq<Item>, wakes: nat)

  function Repeat(es: seq<Event>, n: nat): seq<Event> {
    if n == 0 then [] else es + Repeat(es, n - 1)
  }

  function OnStore(body: seq<Event>): seq<Event> { [TakeStore] + body + [DropStore] }

  function Path(op: Op): seq<Event> {
    match op
    case Query(polls) => Repeat(SECTION, polls)
    case StartUp(running, ready) =>
      SECTION + (if running then [] else OnStore([StoreCall]) + (if ready then SECTION + SECTION else []))
    case ShutDown(running) => SECTION + (if running then [Join] + OnStore([StoreCall]) else [])
    case Submit(claimed, recorded) => SubmitPath(claimed, recorded)
    case SubmitNew(running, sequenced, claimed, recorded) =>
      SECTION + (if !running then []
                 else OnStore([StoreCall]) + (if sequenced then SubmitPath(claimed, recorded) else []))
    case PauseOrResume(accepted) => SECTION + (if accepted then [Emit] else [])
    case Cancel(claimed, end) =>
      // The store guard lives to the end of the function, past the event.
      SECTION + (if claimed then OnStore(CancelBody(end)) else [])
    case Retry(known, probes, last) =>
      SECTION + (if !known then []
                 else OnStore([StoreCall] + RetryBody(probes, last))
                      + (if last == Claimed(true) then [Emit] else []))
    case Work(items, wakes) => [TakeManager] + WorkBody(items) + Naps(wakes) + [DropManager]
  }

  function SubmitPath(claimed: bool, recorded: bool): seq<Event> {
    SECTION + (if !claimed then [] else OnStore([StoreCall]) + SECTION + (if recorded then [Emit] else []))
  }

  function CancelBody(end: CancelEnd): seq<Event> {
    match end
    case Cancelled => [StoreCall, StoreCall, Emit]
    case Refused(wrote, restored) =>
      [StoreCall] + (if wrote then [StoreCall] else []) + (if restored then SECTION else [])
  }

  /** Names already taken, in the record or (true) only in the live maps, then the end. */
  function RetryBody(probes: seq<bool>, last: RetryEnd): seq<Event> {
    if probes != [] then [StoreCall] + (if probes[0] then SECTION else []) + RetryBody(probes[1..], last)
    else
      match last
      case NotRetryable => []
      case ProbeFailed => [StoreCall]
      case Claimed(_) => [StoreCall] + SECTION + [StoreCall] + SECTION
  }

  /** A condition-variable wait gives the mutex up and takes it again. */
  function Naps(wakes: nat): seq<Event> { Repeat([DropManager, TakeManager], wakes) }

  function WorkBody(items: seq<Item>): seq<Event> {
    if items == [] then []
    else
      ItemPath(items[0]) + WorkBody(items[1..])
  }

  function ItemPath(item: Item): seq<Event> {
    Naps(item.wakes) + [Touch, DropManager, Emit] + Repeat([OwnStoreCall], item.calls) + [Emit, TakeManager, Touch]
  }

  // ---- The discipline ------------------------------------------------------------------------

  /** The locks a thread holds. `strict` is fixed along a path: whether it must not
      publish with the store mutex in hand either. */
  datatype Held = Held(manager: bool, store: bool, strict: bool)

  function Nothing(q: bool): Held { Held(false, false, q) }
  function OfManager(q: bool): Held { Held(true, false, q) }
  function OfStore(q: bool): Held { Held(false, true, q) }

  /** What a thread may do with the locks it holds: never block on anything while
      holding the manager mutex, and touch shared things only under their lock. */
  function Allowed(h: Held, e: Event): Option<Held> {
    match e
    case TakeManager => if h.manager then None else Some(h.(manager := true))
    case DropManager => if h.manager then Some(h.(manager := false)) else None
    case TakeStore => if h.manager || h.store then None else Some(h.(store := true))
    case DropStore => if h.store && !h.manager then Some(h.(store := false)) else None
    case Touch => if h.manager then Some(h) else None
    case StoreCall => if h.store && !h.manager then Some(h) else None
    case OwnStoreCall => if h.manager then None else Some(h)
    case Emit => if h.manager || (h.strict && h.store) then None else Some(h)
    case Join => if h.manager || h.store then None else Some(h)
  }

  /** The locks held after the events, or None when one of them broke the discipline. */
  function After(es: seq<Event>, h: Held): Option<Held>
    decreases |es|
  {
    if es == [] then Some(h)
    else if Allowed(h, es[0]).None? then None
    else After(es[1..], Allowed(h, es[0]).value)
  }

  lemma {:induction false} AfterConcat(a: seq<Event>, b: seq<Event>, h: Held)
    ensures After(a + b, h) == if After(a, h).None? then None else After(b, After(a, h).value)
    decreases |a|
  {
    hide Allowed;
    if a == [] {
      assert a + b == b;
    } else {
      assert (a + b)[1..] == a[1..] + b;
      if Allowed(h, a[0]).Some? {
        AfterConcat(a[1..], b, Allowed(h, a[0]).value);
      }
    }
  }

  lemma One(e: Event, h: Held)
    ensures After([e], h) == Allowed(h, e)
  {
    hide Allowed;
    assert [e][1..] == [];
  }

  /** `es` may run while holding `h` and leaves it as it was. */
  predicate Neutral(es: seq<Event>, h: Held) { After(es, h) == Some(h) }

  lemma NeutralConcat(a: seq<Event>, b: seq<Event>, h: Held)
    requires Neutral(a, h) && Neutral(b, h)
    ensures Neutral(a + b, h)
  {
    AfterConcat(a, b, h);
  }

  lemma {:induction false} NeutralRepeat(es: seq<Event>, n: nat, h: Held)
    requires Neutral(es, h)
    ensures Neutral(Repeat(es, n), h)
  {
    hide Neutral;
    if n == 0 {
      NeutralEmpty(h);
    } else {
      NeutralRepeat(es, n - 1, h);
      NeutralConcat(es, Repeat(es, n - 1), h);
    }
  }

  lemma NeutralEmpty(h: Held)
    ensures Neutral([], h)
  {}

  /** Between two events that take `h` to `k` and back. */
  lemma NeutralBetween(take: Event, body: seq<Event>, drop: Event, h: Held, k: Held)
    requires Allowed(h, take) == Some(k) && Neutral(body, k) && Allowed(k, drop) == Some(h)
    ensures Neutral([take] + body + [drop], h)
  {
    One(take, h);
    One(drop, k);
    AfterConcat([take], body, h);
    AfterConcat([take] + body, [drop], h);
  }

  lemma SectionIsNeutral(h: Held)
    requires !h.manager
    ensures Neutral(SECTION, h)
  {
    var k := h.(manager := true);
    One(Touch, k);
    NeutralBetween(TakeManager, [Touch], DropManager, h, k);
    assert [TakeManager] + [Touch] + [DropManager] == SECTION;
  }

  /** The parts every operation is made of. */
  lemma Parts(q: bool)
    ensures forall h: Held :: !h.manager ==> Neutral(SECTION, h) && Neutral([OwnStoreCall], h)
    ensures Neutral([Emit], Nothing(q)) && (!q ==> Neutral([Emit], OfStore(q)))
    ensures Neutral([StoreCall], OfStore(q)) && Neutral(OnStore([StoreCall]), Nothing(q))
    ensures Neutral([DropManager, TakeManager], OfManager(q))
    ensures forall h :: Neutral([], h)
  {
    forall h: Held | !h.manager
      ensures Neutral(SECTION, h) && Neutral([OwnStoreCall], h)
    {
      SectionIsNeutral(h);
      One(OwnStoreCall, h);
    }
    One(Emit, Nothing(q));
    One(Emit, OfStore(q));
    One(StoreCall, OfStore(q));
    NeutralBetween(TakeStore, [StoreCall], DropStore, Nothing(q), OfStore(q));
    NeutralBetween(DropManager, [], TakeManager, OfManager(q), Nothing(q));
    assert [DropManager] + [] + [TakeManager] == [DropManager, TakeManager];
    forall h ensures Neutral([], h) { NeutralEmpty(h); }
  }

  lemma JoinIsNeutral(q: bool)
    ensures Neutral([Join], Nothing(q))
  {
    One(Join, Nothing(q));
  }

  lemma SubmitIsDisciplined(claimed: bool, recorded: bool, q: bool)
    ensures Neutral(SubmitPath(claimed, recorded), Nothing(q))
  {
    hide Neutral;
    Parts(q);
    var tail := if recorded then [Emit] else [];
    NeutralConcat(OnStore([StoreCall]), SECTION, Nothing(q));
    NeutralConcat(OnStore([StoreCall]) + SECTION, tail, Nothing(q));
    NeutralConcat(SECTION, if !claimed then [] else OnStore([StoreCall]) + SECTION + tail, Nothing(q));
  }

  lemma CancelIsDisciplined(end: CancelEnd, q: bool)
    requires q ==> !end.Cancelled?
    ensures Neutral(CancelBody(end), OfStore(q)) && Neutral(OnStore(CancelBody(end)), Nothing(q))
  {
    assert Neutral(CancelBody(end), OfStore(q)) by {
      hide Neutral;
      Parts(q);
      match end
      case Cancelled =>
        NeutralConcat([StoreCall], [StoreCall], OfStore(q));
        NeutralConcat([StoreCall] + [StoreCall], [Emit], OfStore(q));
        assert [StoreCall] + [StoreCall] + [Emit] == CancelBody(end);
      case Refused(wrote, restored) =>
        NeutralConcat([StoreCall], if wrote then [StoreCall] else [], OfStore(q));
        NeutralConcat([StoreCall] + (if wrote then [StoreCall] else []), if restored then SECTION else [], OfStore(q));
    }
    NeutralBetween(TakeStore, CancelBody(end), DropStore, Nothing(q), OfStore(q));
  }

  lemma {:induction false} RetryIsDisciplined(probes: seq<bool>, last: RetryEnd, q: bool)
    ensures Neutral(RetryBody(probes, last), OfStore(q))
    decreases |probes|
  {
    hide Neutral;
    Parts(q);
    if probes != [] {
      RetryIsDisciplined(probes[1..], last, q);
      var one := if probes[0] then SECTION else [];
      NeutralConcat([StoreCall], one, OfStore(q));
      NeutralConcat([StoreCall] + one, RetryBody(probes[1..], last), OfStore(q));
    } else if last.Claimed? {
      NeutralConcat([StoreCall], SECTION, OfStore(q));
      NeutralConcat([StoreCall] + SECTION, [StoreCall], OfStore(q));
      NeutralConcat([StoreCall] + SECTION + [StoreCall], SECTION, OfStore(q));
    }
  }

  lemma {:induction false} WorkIsDisciplined(items: seq<Item>, q: bool)
    ensures Neutral(WorkBody(items), OfManager(q))
    decreases |items|
  {
    hide Neutral;
    Parts(q);
    if items != [] {
      WorkIsDisciplined(items[1..], q);
      ItemIsDisciplined(items[0], q);
      NeutralConcat(ItemPath(items[0]), WorkBody(items[1..]), OfManager(q));
    }
  }

  lemma ItemIsDisciplined(item: Item, q: bool)
    ensures Neutral(ItemPath(item), OfManager(q))
  {
    Parts(q);
    NeutralRepeat([DropManager, TakeManager], item.wakes, OfManager(q));
    NeutralRepeat([OwnStoreCall], item.calls, Nothing(q));
    var job := [Emit] + Repeat([OwnStoreCall], item.calls) + [Emit];
    NeutralConcat([Emit], Repeat([OwnStoreCall], item.calls), Nothing(q));
    NeutralConcat([Emit] + Repeat([OwnStoreCall], item.calls), [Emit], Nothing(q));
    NeutralBetween(DropManager, job, TakeManager, OfManager(q), Nothing(q));
    One(Touch, OfManager(q));
    NeutralConcat([Touch], [DropManager] + job + [TakeManager], OfManager(q));
    NeutralConcat([Touch] + ([DropManager] + job + [TakeManager]), [Touch], OfManager(q));
    var rest := [Touch] + ([DropManager] + job + [TakeManager]) + [Touch];
    NeutralConcat(Naps(item.wakes), rest, OfManager(q));
    assert ItemPath(item) == Naps(item.wakes) + rest;
  }

  /** A cancellation that goes through. */
  predicate IsCancellation(op: Op) { op.Cancel? && op.claimed && op.end.Cancelled? }

  /** Every path of every operation keeps the discipline and ends holding nothing; all
      but a cancellation that goes through also publish with no lock in hand at all. */
  lemma PathIsDisciplined(op: Op, q: bool)
    requires q ==> !IsCancellation(op)
    ensures Neutral(Path(op), Nothing(q))
  {
    hide Neutral;
    Parts(q);
    match op
    case Query(polls) => NeutralRepeat(SECTION, polls, Nothing(q));
    case StartUp(running, ready) =>
      NeutralConcat(SECTION, SECTION, Nothing(q));
      var tail := if ready then SECTION + SECTION else [];
      NeutralConcat(OnStore([StoreCall]), tail, Nothing(q));
      NeutralConcat(SECTION, if running then [] else OnStore([StoreCall]) + tail, Nothing(q));
    case ShutDown(running) =>
      JoinIsNeutral(q);
      NeutralConcat([Join], OnStore([StoreCall]), Nothing(q));
      NeutralConcat(SECTION, if running then [Join] + OnStore([StoreCall]) else [], Nothing(q));
    case Submit(claimed, recorded) => SubmitIsDisciplined(claimed, recorded, q);
    case SubmitNew(running, sequenced, claimed, recorded) =>
      SubmitIsDisciplined(claimed, recorded, q);
      var tail := if sequenced then SubmitPath(claimed, recorded) else [];
      NeutralConcat(OnStore([StoreCall]), tail, Nothing(q));
      NeutralConcat(SECTION, if !running then [] else OnStore([StoreCall]) + tail, Nothing(q));
    case PauseOrResume(accepted) => NeutralConcat(SECTION, if accepted then [Emit] else [], Nothing(q));
    case Cancel(claimed, end) =>
      if claimed {
        CancelIsDisciplined(end, q);
      }
      NeutralConcat(SECTION, if claimed then OnStore(CancelBody(end)) else [], Nothing(q));
    case Retry(known, probes, last) => RetryPathIsDisciplined(known, probes, last, q);
    case Work(items, wakes) =>
      WorkIsDisciplined(items, q);
      NeutralRepeat([DropManager, TakeManager], wakes, OfManager(q));
      NeutralConcat(WorkBody(items), Naps(wakes), OfManager(q));
      NeutralBetween(TakeManager, WorkBody(items) + Naps(wakes), DropManager, Nothing(q), OfManager(q));
      assert [TakeManager] + (WorkBody(items) + Naps(wakes)) + [DropManager] == Path(op);
  }

  lemma RetryPathIsDisciplined(known: bool, probes: seq<bool>, last: RetryEnd, q: bool)
    ensures Neutral(Path(Retry(known, probes, last)), Nothing(q))
  {
    hide Neutral, RetryBody;
    Parts(q);
    RetryIsDisciplined(probes, last, q);
    var body := [StoreCall] + RetryBody(probes, last);
    NeutralConcat([StoreCall], RetryBody(probes, last), OfStore(q));
    NeutralBetween(TakeStore, body, DropStore, Nothing(q), OfStore(q));
    var tail := if last == Claimed(true) then [Emit] else [];
    NeutralConcat(OnStore(body), tail, Nothing(q));
    NeutralConcat(SECTION, if !known then [] else OnStore(body) + tail, Nothing(q));
  }

  // ---- Who waits for the workers -----------------------------------------------------------

  lemma {:induction false} RepeatNeverJoins(es: seq<Event>, n: nat)
    requires Join !in es
    ensures Join !in Repeat(es, n)
  {
    if n > 0 {
      RepeatNeverJoins(es, n - 1);
    }
  }

  lemma {:induction false} RetryNeverJoins(probes: seq<bool>, last: RetryEnd)
    ensures Join !in RetryBody(probes, last)
    decreases |probes|
  {
    if probes != [] {
      RetryNeverJoins(probes[1..], last);
    }
  }

  lemma {:induction false} WorkNeverJoins(items: seq<Item>)
    ensures Join !in WorkBody(items)
    decreases |items|
  {
    if items != [] {
      WorkNeverJoins(items[1..]);
      RepeatNeverJoins([DropManager, TakeManager], items[0].wakes);
      RepeatNeverJoins([OwnStoreCall], items[0].calls);
    }
  }

  /** Only a shutdown waits for the workers, and it takes the store mutex after that. */
  lemma OnlyShutdownJoins(op: Op)
    ensures Join in Path(op) ==> op == ShutDown(true)
  {
    match op
    case Query(polls) => RepeatNeverJoins(SECTION, polls);
    case Retry(_, probes, last) => RetryNeverJoins(probes, last);
    case Work(items, wakes) =>
      WorkNeverJoins(items);
      RepeatNeverJoins([DropManager, TakeManager], wakes);
    case _ =>
  }
}
