/** Commands issued from inside a subscriber, on top of whatever the publishing
    operation of manager.cpp holds: exactly when they can hang, and that they do. */
module LockCallbacks {
  import opened Jobs
  import opened Locks

  /** The path with `inner` run by a subscriber at every event. */
  function Nested(es: seq<Event>, inner: seq<Event>): seq<Event>
    decreases |es|
  {
    if es == [] then [] else [es[0]] + (if es[0].Emit? then inner else []) + Nested(es[1..], inner)
  }

  /** The path may have to wait with the store mutex in hand: for that mutex, or for the workers. */
  predicate Waits(es: seq<Event>) { TakeStore in es || Join in es }

  /** A path that needs no lock, run on top of the store mutex, breaks the discipline exactly when it waits. */
  lemma {:induction false} OnTopOfStore(es: seq<Event>, h: Held)
    requires After(es, h).Some? && !h.store && !h.strict
    ensures Waits(es) ==> After(es, h.(store := true)).None?
    ensures !Waits(es) ==>
              !After(es, h).value.store && After(es, h.(store := true)) == Some(After(es, h).value.(store := true))
    decreases |es|
  {
    if es != [] {
      assert es == [es[0]] + es[1..];
      if !es[0].TakeStore? && !es[0].Join? {
        OnTopOfStore(es[1..], Allowed(h, es[0]).value);
      }
    }
  }

  lemma {:induction false} NestedKeeps(es: seq<Event>, h: Held, inner: seq<Event>)
    requires !h.strict && After(es, h).Some? && Neutral(inner, Nothing(false))
    ensures After(Nested(es, inner), h) == After(es, h)
            <==> After(es, h.(strict := true)).Some? || !Waits(inner)
    ensures After(Nested(es, inner), h) == After(es, h) || After(Nested(es, inner), h).None?
    decreases |es|
  {
    if es != [] {
      var e, h1 := es[0], Allowed(h, es[0]).value;
      NestedKeeps(es[1..], h1, inner);
      One(e, h);
      var mid := if e.Emit? then inner else [];
      AfterConcat([e], mid, h);
      AfterConcat([e] + mid, Nested(es[1..], inner), h);
      OnTopOfStore(inner, Nothing(false));
    }
  }

  lemma CancellationPublishesOnStore(op: Op)
    requires IsCancellation(op)
    ensures After(Path(op), Nothing(true)).None?
  {
    var before := [StoreCall] + [StoreCall];
    assert Path(op) == SECTION + ([TakeStore] + (before + ([Emit] + [DropStore])));
    Parts(true);
    AfterConcat(SECTION, [TakeStore] + (before + ([Emit] + [DropStore])), Nothing(true));
    One(TakeStore, Nothing(true));
    AfterConcat([TakeStore], before + ([Emit] + [DropStore]), Nothing(true));
    NeutralConcat([StoreCall], [StoreCall], OfStore(true));
    AfterConcat(before, [Emit] + [DropStore], OfStore(true));
    AfterConcat([Emit], [DropStore], OfStore(true));
    One(Emit, OfStore(true));
  }

  /** What a subscriber may do: a command, whose own events are answered in turn, and then others. */
  datatype Program = Plain(op: Op) | Answered(op: Op, answer: Program) | Then(first: Program, second: Program)

  function EventsOf(p: Program): seq<Event> {
    match p
    case Plain(op) => Path(op)
    case Answered(op, answer) => Nested(Path(op), EventsOf(answer))
    case Then(a, b) => EventsOf(a) + EventsOf(b)
  }

  /** No event of a cancellation is answered with anything that waits. */
  predicate Fits(p: Program) {
    match p
    case Plain(_) => true
    case Answered(op, answer) => Fits(answer) && !(IsCancellation(op) && Waits(EventsOf(answer)))
    case Then(a, b) => Fits(a) && Fits(b)
  }

  /** An operation may be answered from a callback exactly when it is not a cancellation or
      the answer keeps off the store and the workers: `cancel` publishes with the store mutex
      still in hand, so a command on the store would wait for itself. */
  lemma AnswerExactly(op: Op, answer: seq<Event>)
    requires Neutral(answer, Nothing(false))
    ensures Neutral(Nested(Path(op), answer), Nothing(false)) <==> !(IsCancellation(op) && Waits(answer))
  {
    hide Path;
    PathIsDisciplined(op, false);
    NestedKeeps(Path(op), Nothing(false), answer);
    if IsCancellation(op) {
      CancellationPublishesOnStore(op);
    } else {
      PathIsDisciplined(op, true);
    }
  }

  /** Programs that fit keep the discipline, to any depth of nesting. */
  lemma {:induction false} ProgramIsDisciplined(p: Program)
    requires Fits(p)
    ensures Neutral(EventsOf(p), Nothing(false))
  {
    hide Path, Neutral;
    match p
    case Plain(op) => PathIsDisciplined(op, false);
    case Answered(op, answer) =>
      ProgramIsDisciplined(answer);
      AnswerExactly(op, EventsOf(answer));
    case Then(a, b) =>
      ProgramIsDisciplined(a);
      ProgramIsDisciplined(b);
      NeutralConcat(EventsOf(a), EventsOf(b), Nothing(false));
  }

  /** For one command answering another: exactly when the outer one is no cancellation or the
      inner one keeps off the store. */
  lemma CommandFromCallback(op: Op, inner: Op)
    ensures Neutral(Nested(Path(op), Path(inner)), Nothing(false))
            <==> !(IsCancellation(op) && TakeStore in Path(inner))
  {
    PathIsDisciplined(inner, false);
    AnswerExactly(op, Path(inner));
    OnlyShutdownJoins(inner);
    if inner == ShutDown(true) {
      assert Path(inner)[4] == TakeStore;
    }
  }
}
