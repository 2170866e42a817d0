/** What commands and workers do to a job's place, to the order of the queue and to the
    attempt counters, told without the collections that hold them. */
module Commands {
  import opened Jobs
  import opened Sequences
  import opened Stores
  import opened Dispatching
  import opened Manager
  import opened ManagerProofs
  import opened ManagerRuns

  // ---- One place per job --------------------------------------------------------------------

  /** Where a job is. `Apart` is known, but in the hands of nobody or of a command. */
  datatype Place = Unheard | Apart | InQueue | Waits(due: int) | Paused | Active

  function PlaceOf(d: Dispatch, id: Id): Place {
    if id !in d.requests then Unheard
    else if id in d.runnable then InQueue
    else if id in d.waiting then Waits(d.waiting[id])
    else if id in d.paused then Paused
    else if id in d.active then Active
    else Apart
  }

  /** How the place `p` of the job `id` changes when a thread in `l` does `a`; `front` says
      whether it is the first of the queue. */
  function Moved(p: Place, id: Id, running: bool, front: bool, l: Local, a: Action): Place {
    match (l, a)
    case (Free, PauseJob(x)) => if x == id && running && p != Unheard && p != Active then Paused else p
    case (Free, ResumeJob(x)) => if x == id && running && p == Paused then InQueue else p
    case (Free, CancelClaim(x)) => if x == id && running && p != Unheard && p != Active then Apart else p
    case (Free, PumpDue(now, _)) => if running && p.Waits? && p.due <= now then InQueue else p
    case (Free, WorkerTake(_)) => if front then Active else p
    case (Settling(x, reschedule, due), _) => if x != id then p else if reschedule then Waits(due) else Apart
    case (Publishing(x, _, recorded), _) => if x == id && recorded then InQueue else p
    case (CancelEnding(x, was, cancelled), _) => if x == id && was && !cancelled then InQueue else p
    case _ => p
  }

  predicate Front(d: Dispatch, id: Id) { d.runnable != [] && d.runnable[0] == id }

  /** Queue, wait, pause and work are one map from jobs to places: every step of every thread
      moves every job as `Moved` says, and no other. */
  lemma PlacesExactly(s: Machine, t: Tid, a: Action, s': Machine, id: Id)
    requires Inv(s) && Step(s, t, a) == Some(s')
    ensures PlaceOf(s'.d, id) == Moved(PlaceOf(s.d, id), id, s.d.running, Front(s.d, id), s.At(t), a)
  {
    hide FreeStep, WorkerStep, ClaimStep, CancelStep, Inv, PlaceOf, Moved;
    var l := s.At(t);
    InvParts(s, t);
    if l.Free? {
      FreePlaces(s, t, a, id);
    } else if l.IsWorker() {
      WorkerPlaces(s, t, l, a, id);
    } else if l.IsClaim() {
      ClaimPlaces(s, t, l, a, id);
    } else {
      CancelPlaces(s, t, l, a, id);
    }
  }

  lemma InvParts(s: Machine, t: Tid)
    requires Inv(s)
    ensures Exclusive(s.d) && LocalOk(s, s.At(t))
  {}

  lemma FreePlaces(s: Machine, t: Tid, a: Action, id: Id)
    requires Exclusive(s.d) && FreeStep(s, t, a).Some?
    ensures PlaceOf(FreeStep(s, t, a).value.d, id) == Moved(PlaceOf(s.d, id), id, s.d.running, Front(s.d, id), Free, a)
  {
    hide Exclusive, PlaceOf;
    match a
    case WorkerTake(_) => TakePlaces(s.d, id);
    case PauseJob(x) => PausePlaces(s.d, x, id);
    case ResumeJob(x) => ResumePlaces(s.d, x, id);
    case CancelClaim(x) => CancelledPlaces(s.d, x, id);
    case PumpDue(now, due) => PumpPlaces(s.d, now, due, id);
    case SubmitClaim(_, _, _) => PlacesElsewhere(s.d, FreeStep(s, t, a).value.d, id);
    case RetryClaim(_, _, _) => PlacesElsewhere(s.d, FreeStep(s, t, a).value.d, id);
    case Stop => PlacesElsewhere(s.d, FreeStep(s, t, a).value.d, id);
    case _ =>
  }

  lemma PlacesElsewhere(d: Dispatch, d': Dispatch, id: Id)
    requires d' == d.(running := d'.running, stopping := d'.stopping, pending := d'.pending)
    ensures PlaceOf(d', id) == PlaceOf(d, id)
  {}

  predicate AtHand(d: Dispatch, x: Id) {
    d.running && PlaceOf(d, x) != Unheard && PlaceOf(d, x) != Active
  }

  lemma PausePlaces(d: Dispatch, x: Id, id: Id)
    requires Exclusive(d)
    ensures PlaceOf(d.Pause(x).1, id) == if x == id && AtHand(d, x) then Paused else PlaceOf(d, id)
  {
    WithoutElements(d.runnable, x);
    hide Without, NoRepeats;
  }

  lemma ResumePlaces(d: Dispatch, x: Id, id: Id)
    requires Exclusive(d)
    ensures PlaceOf(d.Resume(x).1, id) == if x == id && d.running && PlaceOf(d, x) == Paused then InQueue else PlaceOf(d, id)
  {
    hide NoRepeats;
  }

  lemma CancelledPlaces(d: Dispatch, x: Id, id: Id)
    requires Exclusive(d)
    ensures PlaceOf(d.ClaimCancel(x).2, id) == if x == id && AtHand(d, x) then Apart else PlaceOf(d, id)
  {
    WithoutElements(d.runnable, x);
    hide Without, NoRepeats;
  }

  lemma TakePlaces(d: Dispatch, id: Id)
    requires Exclusive(d) && d.runnable != []
    ensures PlaceOf(d.Take().1, id) == if Front(d, id) then Active else PlaceOf(d, id)
  {
    assert d.runnable == [d.runnable[0]] + d.runnable[1..];
    assert d.runnable[0] in d.runnable;
    assert d.runnable[0] !in d.runnable[1..];
  }

  lemma PumpPlaces(d: Dispatch, now: int, due: seq<Id>, id: Id)
    requires Exclusive(d) && (set x | x in due) == d.DueNow(now)
    ensures var p := PlaceOf(d, id); PlaceOf(d.Pump(due), id) == if d.running && p.Waits? && p.due <= now then InQueue else p
  {
    assert id in due <==> id in d.DueNow(now) by { assert id in due <==> id in (set x | x in due); }
  }

  lemma WorkerPlaces(s: Machine, t: Tid, l: Local, a: Action, id: Id)
    requires l.IsWorker() && s.At(t) == l && Exclusive(s.d) && LocalOk(s, l) && WorkerStep(s, t, l, a).Some?
    ensures PlaceOf(WorkerStep(s, t, l, a).value.d, id) == Moved(PlaceOf(s.d, id), id, s.d.running, Front(s.d, id), l, a)
  {}

  lemma ClaimPlaces(s: Machine, t: Tid, l: Local, a: Action, id: Id)
    requires l.IsClaim() && s.At(t) == l && Exclusive(s.d) && LocalOk(s, l) && ClaimStep(s, t, l, a).Some?
    ensures PlaceOf(ClaimStep(s, t, l, a).value.d, id) == Moved(PlaceOf(s.d, id), id, s.d.running, Front(s.d, id), l, a)
  {}

  lemma CancelPlaces(s: Machine, t: Tid, l: Local, a: Action, id: Id)
    requires l.IsCancel() && s.At(t) == l && Exclusive(s.d) && LocalOk(s, l) && CancelStep(s, t, l, a).Some?
    ensures PlaceOf(CancelStep(s, t, l, a).value.d, id) == Moved(PlaceOf(s.d, id), id, s.d.running, Front(s.d, id), l, a)
  {}

  // ---- First in, first out -------------------------------------------------------------------

  /** What a step does to the queue: nothing, or the front goes, or one job goes, or some come
      in behind, none of them queued before. */
  ghost predicate QueueGoes(q: seq<Id>, q': seq<Id>, a: Action) {
    || q' == q
    || (a.WorkerTake? && q != [] && q' == q[1..])
    || ((a.PauseJob? || a.CancelClaim?) && q' == Without(q, a.id))
    || (|q'| >= |q| && q'[..|q|] == q && forall k :: |q| <= k < |q'| ==> q'[k] !in q)
  }

  lemma QueueStep(s: Machine, t: Tid, a: Action, s': Machine)
    requires Inv(s) && Step(s, t, a) == Some(s')
    ensures QueueGoes(s.d.runnable, s'.d.runnable, a)
    ensures a.WorkerTake? ==> s.d.runnable != [] && s'.At(t).Moving? && s'.At(t).id == s.d.runnable[0]
  {
    hide Inv, FreeStep, WorkerStep, ClaimStep, CancelStep, QueueGoes, Exclusive;
    InvParts(s, t);
    var l := s.At(t);
    if l.Free? {
      FreeQueue(s, t, a);
    } else if l.IsWorker() {
      WorkerQueue(s, t, l, a);
    } else if l.IsClaim() {
      ClaimQueue(s, t, l, a);
    } else {
      CancelQueue(s, t, l, a);
    }
  }

  lemma FreeQueue(s: Machine, t: Tid, a: Action)
    requires Exclusive(s.d) && FreeStep(s, t, a).Some?
    ensures QueueGoes(s.d.runnable, FreeStep(s, t, a).value.d.runnable, a)
    ensures var s' := FreeStep(s, t, a).value;
            a.WorkerTake? ==> s.d.runnable != [] && s'.At(t).Moving? && s'.At(t).id == s.d.runnable[0]
  {
    hide Without, NoRepeats;
    if a.PumpDue? {
      PumpQueue(s.d, a.now, a.due);
    }
  }

  lemma PumpQueue(d: Dispatch, now: int, due: seq<Id>)
    requires Exclusive(d) && (set x | x in due) == d.DueNow(now)
    ensures forall k :: 0 <= k < |due| ==> due[k] !in d.runnable
  {
    forall k | 0 <= k < |due|
      ensures due[k] !in d.runnable
    {
      assert due[k] in (set x | x in due);
      assert due[k] in d.DueNow(now);
    }
  }

  lemma WorkerQueue(s: Machine, t: Tid, l: Local, a: Action)
    requires l.IsWorker() && WorkerStep(s, t, l, a).Some?
    ensures WorkerStep(s, t, l, a).value.d.runnable == s.d.runnable && !a.WorkerTake?
    ensures QueueGoes(s.d.runnable, WorkerStep(s, t, l, a).value.d.runnable, a)
  {}

  lemma ClaimQueue(s: Machine, t: Tid, l: Local, a: Action)
    requires l.IsClaim() && Exclusive(s.d) && LocalOk(s, l) && ClaimStep(s, t, l, a).Some?
    ensures QueueGoes(s.d.runnable, ClaimStep(s, t, l, a).value.d.runnable, a) && !a.WorkerTake?
  {
    hide NoRepeats;
  }

  lemma CancelQueue(s: Machine, t: Tid, l: Local, a: Action)
    requires l.IsCancel() && LocalOk(s, l) && CancelStep(s, t, l, a).Some?
    ensures QueueGoes(s.d.runnable, CancelStep(s, t, l, a).value.d.runnable, a) && !a.WorkerTake?
  {}

  /** The job is queued at every moment of the run. */
  ghost predicate StaysQueued(s: Machine, tr: Trace, id: Id)
    decreases |tr|
  {
    id in s.d.runnable && (tr != [] && Step(s, tr[0].0, tr[0].1).Some? ==> StaysQueued(Step(s, tr[0].0, tr[0].1).value, tr[1..], id))
  }

  /** No worker takes the job along the run. */
  ghost predicate NeverTaken(s: Machine, tr: Trace, id: Id)
    decreases |tr|
  {
    tr != [] && Step(s, tr[0].0, tr[0].1).Some? ==>
      var s1 := Step(s, tr[0].0, tr[0].1).value;
      && (tr[0].1.WorkerTake? && s1.At(tr[0].0).Moving? ==> s1.At(tr[0].0).id != id)
      && NeverTaken(s1, tr[1..], id)
  }

  /** While a job is queued, none that is not ahead of it gets ahead of it, whatever is
      submitted, resumed, released, put back or retried meanwhile, and none such is taken. */
  lemma {:induction false} NoOvertaking(s: Machine, tr: Trace, s': Machine, x: Id, y: Id)
    requires Inv(s) && Runs(s, tr, s') && StaysQueued(s, tr, x)
    requires x != y && !Ahead(s.d.runnable, y, x)
    ensures !Ahead(s'.d.runnable, y, x) && NeverTaken(s, tr, y)
    decreases |tr|
  {
    hide Step, Inv, Disciplined, QueueGoes, Ahead;
    if tr != [] {
      var (t, a) := tr[0];
      var s1 := Step(s, t, a).value;
      StepKeeps(s, t, a);
      QueueStep(s, t, a, s1);
      InvParts(s, t);
      OrderKept(s.d.runnable, s1.d.runnable, a, x, y);
      if a.WorkerTake? && s.d.runnable[0] == y {
        FirstIsAhead(s.d.runnable, x);
      }
      assert StaysQueued(s1, tr[1..], x);
      NoOvertaking(s1, tr[1..], s', x, y);
    }
  }

  lemma FirstIsAhead(q: seq<Id>, x: Id)
    requires q != [] && x in q && x != q[0]
    ensures Ahead(q, q[0], x)
  {
    var j :| 0 <= j < |q| && q[j] == x;
    assert AheadAt(q, 0, j, q[0], x);
  }

  lemma OrderKept(q: seq<Id>, q': seq<Id>, a: Action, x: Id, y: Id)
    requires NoRepeats(q) && QueueGoes(q, q', a) && x in q && x in q' && !Ahead(q, y, x)
    ensures !Ahead(q', y, x)
  {
    if q' == q {
    } else if a.WorkerTake? && q != [] && q' == q[1..] {
      if i, j :| AheadAt(q', i, j, y, x) {
        assert AheadAt(q, i + 1, j + 1, y, x);
      }
    } else if (a.PauseJob? || a.CancelClaim?) && q' == Without(q, a.id) {
      WithoutKeepsOrder(q, a.id, y, x);
    } else {
      if i, j :| AheadAt(q', i, j, y, x) {
        assert forall k :: |q| <= k < |q'| ==> q'[k] != x;
        assert q[i] == q'[..|q|][i] && q[j] == q'[..|q|][j];
        assert AheadAt(q, i, j, y, x);
      }
    }
  }

  // ---- Attempts ------------------------------------------------------------------------------

  /** The step makes an attempt on the job durable. */
  predicate Attempts(s: Machine, t: Tid, a: Action, id: Id) {
    var l := s.At(t);
    (l.Deciding? || l.Condemning?) && l.id == id && (a == AttemptWrite(true) || a == CondemnAttempt(true)) && id in s.rows
  }

  function AttemptsIn(s: Machine, tr: Trace, id: Id): nat
    decreases |tr|
  {
    if tr == [] || Step(s, tr[0].0, tr[0].1).None? then 0
    else (if Attempts(s, tr[0].0, tr[0].1, id) then 1 else 0) + AttemptsIn(Step(s, tr[0].0, tr[0].1).value, tr[1..], id)
  }

  lemma AttemptStep(s: Machine, t: Tid, a: Action, s': Machine, id: Id)
    requires Step(s, t, a) == Some(s') && id in s.rows
    ensures id in s'.rows && s'.rows[id].attempts == s.rows[id].attempts + if Attempts(s, t, a, id) then 1 else 0
  {
    hide WorkerStep;
    if s.At(t).IsWorker() {
      WorkerAttempts(s, t, s.At(t), a, id);
    }
  }

  lemma WorkerAttempts(s: Machine, t: Tid, l: Local, a: Action, id: Id)
    requires l.IsWorker() && s.At(t) == l && WorkerStep(s, t, l, a).Some? && id in s.rows
    ensures id in WorkerStep(s, t, l, a).value.rows
    ensures WorkerStep(s, t, l, a).value.rows[id].attempts == s.rows[id].attempts + if Attempts(s, t, a, id) then 1 else 0
  {}

  /** Over every run a row's counter grows by the attempts made durable along it, those that
      lead to a reschedule and those that end the job alike, and by nothing else. */
  lemma {:induction false} AttemptsAreCounted(s: Machine, tr: Trace, s': Machine, id: Id)
    requires Runs(s, tr, s') && id in s.rows
    ensures id in s'.rows && s'.rows[id].attempts == s.rows[id].attempts + AttemptsIn(s, tr, id)
    decreases |tr|
  {
    hide Step, Attempts, Disciplined;
    if tr != [] {
      var (t, a) := tr[0];
      var s1 := Step(s, t, a).value;
      AttemptStep(s, t, a, s1, id);
      AttemptsAreCounted(s1, tr[1..], s', id);
    }
  }

  /** In the step from the first rows to the second the job turns FAILED. */
  predicate TurnsFailed(rows: map<Id, Row>, rows': map<Id, Row>, id: Id) {
    id in rows && id in rows' && rows[id].State() != Failed && rows'[id].State() == Failed
  }

  /** A row turns FAILED by a worker that gives its reason, or by a cancel. */
  lemma FailureSays(s: Machine, t: Tid, a: Action, s': Machine, id: Id)
    requires Step(s, t, a) == Some(s') && TurnsFailed(s.rows, s'.rows, id)
    ensures var (l, error) := (s.At(t), s'.rows[id].Job().error);
            || (l.CondemnWriting? && l.id == id && error == l.reason)
            || (l.CancelWriting? && l.id == id && error == "cancelled by operator")
  {
    hide FreeStep, WorkerStep, ClaimStep, CancelStep;
    var l := s.At(t);
    if l.Free? {
      FreeWritesNothing(s, t, a);
    } else if l.IsWorker() {
      WorkerFails(s, t, l, a, id);
    } else if l.IsClaim() {
      ClaimFailsNobody(s, t, l, a, id);
    } else {
      CancelFails(s, t, l, a, id);
    }
  }

  lemma FreeWritesNothing(s: Machine, t: Tid, a: Action)
    requires FreeStep(s, t, a).Some?
    ensures FreeStep(s, t, a).value.rows == s.rows
  {}

  lemma WorkerFails(s: Machine, t: Tid, l: Local, a: Action, id: Id)
    requires l.IsWorker() && WorkerStep(s, t, l, a).Some? && TurnsFailed(s.rows, WorkerStep(s, t, l, a).value.rows, id)
    ensures l.CondemnWriting? && l.id == id && WorkerStep(s, t, l, a).value.rows[id].Job().error == l.reason
  {}

  lemma ClaimFailsNobody(s: Machine, t: Tid, l: Local, a: Action, id: Id)
    requires l.IsClaim() && ClaimStep(s, t, l, a).Some?
    ensures !TurnsFailed(s.rows, ClaimStep(s, t, l, a).value.rows, id)
  {}

  lemma CancelFails(s: Machine, t: Tid, l: Local, a: Action, id: Id)
    requires l.IsCancel() && CancelStep(s, t, l, a).Some? && TurnsFailed(s.rows, CancelStep(s, t, l, a).value.rows, id)
    ensures l.CancelWriting? && l.id == id && CancelStep(s, t, l, a).value.rows[id].Job().error == "cancelled by operator"
  {}
}
