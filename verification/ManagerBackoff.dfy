/** Whether a job sits out its backoff: exactly when no pause gets in first. */
module ManagerBackoff {
  import opened Jobs
  import opened Sequences
  import opened Mover
  import opened Dispatching
  import opened Manager
  import opened ManagerProofs
  import opened ManagerRuns
  import opened ManagerScenes

  /** The step accepts a pause of the job. */
  predicate PausesIt(s: Machine, a: Action, id: Id) {
    a == PauseJob(id) && s.d.Pause(id).0.Accepted?
  }

  /** The step is a pump that finds the job due. */
  predicate ReleasesIt(s: Machine, a: Action, id: Id) {
    a.PumpDue? && s.d.running && id in a.due
  }

  /** The job waits until `d`, or was taken out of its wait by a cancel that will not put it back. */
  ghost predicate HeldBack(s: Machine, id: Id, d: int) {
    && id in s.d.requests && id !in s.d.runnable && id !in s.d.paused && id !in s.d.active && id !in s.d.pending
    && (id in s.d.waiting ==> s.d.waiting[id] == d)
    && (forall t :: t in s.threads && !s.threads[t].Free? && s.threads[t].id == id
          ==> s.threads[t].IsCancel() && !s.threads[t].wasRunnable)
  }

  lemma WaitingIsHeldBack(s: Machine, id: Id)
    requires Inv(s) && id in s.d.waiting
    ensures HeldBack(s, id, s.d.waiting[id])
  {
    assert id in s.d.requests.Keys && id in s.d.waiting.Keys;
    forall t | t in s.threads && !s.threads[t].Free?
      ensures s.threads[t].id != id
    {
      assert LocalOk(s, s.threads[t]);
    }
  }

  lemma CommandHoldsBack(s: Machine, t: Tid, a: Action, id: Id, d: int)
    requires Inv(s) && HeldBack(s, id, d) && s.At(t).Free? && FreeStep(s, t, a).Some?
    requires (a.PauseJob? || a.ResumeJob? || a.CancelClaim?) && !PausesIt(s, a, id)
    ensures HeldBack(FreeStep(s, t, a).value, id, d)
  {
    hide OneOwner, Bounded, LocalOk;
    WithoutElements(s.d.runnable, a.id);
  }

  lemma FreeStepHoldsBack(s: Machine, t: Tid, a: Action, id: Id, d: int)
    requires HeldBack(s, id, d) && s.At(t).Free? && FreeStep(s, t, a).Some? && !ReleasesIt(s, a, id)
    requires !(a.PauseJob? || a.ResumeJob? || a.CancelClaim?)
    ensures HeldBack(FreeStep(s, t, a).value, id, d)
  {
    if a.WorkerTake? {
      assert s.d.runnable[0] in s.d.runnable;
    }
  }

  /** A worker's step changes dispatch only by letting its own job go. */
  lemma WorkerStepShape(s: Machine, t: Tid, a: Action)
    requires s.At(t).IsWorker() && WorkerStep(s, t, s.At(t), a).Some?
    ensures var (l, s') := (s.At(t), WorkerStep(s, t, s.At(t), a).value);
            && s'.threads == s.threads[t := s'.At(t)] && (s'.At(t).Free? || s'.At(t).id == l.id)
            && (s'.d == s.d || (l.Settling? && s'.d == s.d.Settle(l.id, l.reschedule, l.due)))
  {
    if a.EngineFlag? {
      assert s.threads[t := s.At(t)] == s.threads;
    }
  }

  lemma WorkerHoldsBack(s: Machine, t: Tid, a: Action, id: Id, d: int)
    requires HeldBack(s, id, d) && s.At(t).IsWorker() && WorkerStep(s, t, s.At(t), a).Some?
    ensures HeldBack(WorkerStep(s, t, s.At(t), a).value, id, d)
  {
    hide WorkerStep;
    WorkerStepShape(s, t, a);
    assert s.At(t).id != id;
  }

  lemma ClaimHoldsBack(s: Machine, t: Tid, a: Action, id: Id, d: int)
    requires HeldBack(s, id, d) && s.At(t).IsClaim() && ClaimStep(s, t, s.At(t), a).Some?
    ensures HeldBack(ClaimStep(s, t, s.At(t), a).value, id, d)
  {
    assert s.At(t).id != id;
  }

  lemma CancelHoldsBack(s: Machine, t: Tid, a: Action, id: Id, d: int)
    requires HeldBack(s, id, d) && s.At(t).IsCancel() && CancelStep(s, t, s.At(t), a).Some?
    ensures HeldBack(CancelStep(s, t, s.At(t), a).value, id, d)
  {
    assert s.At(t).id == id ==> !s.At(t).wasRunnable;
  }

  /** Nothing but a pause or a pump that finds it due lets the job go. */
  lemma StepHoldsBack(s: Machine, t: Tid, a: Action, id: Id, d: int)
    requires Inv(s) && HeldBack(s, id, d) && Step(s, t, a).Some?
    requires !PausesIt(s, a, id) && !ReleasesIt(s, a, id)
    ensures HeldBack(Step(s, t, a).value, id, d)
  {
    hide Inv, HeldBack, FreeStep, WorkerStep, ClaimStep, CancelStep;
    if s.At(t).Free? {
      if a.PauseJob? || a.ResumeJob? || a.CancelClaim? {
        CommandHoldsBack(s, t, a, id, d);
      } else {
        FreeStepHoldsBack(s, t, a, id, d);
      }
    } else if s.At(t).IsWorker() {
      WorkerHoldsBack(s, t, a, id, d);
    } else if s.At(t).IsClaim() {
      ClaimHoldsBack(s, t, a, id, d);
    } else {
      CancelHoldsBack(s, t, a, id, d);
    }
  }

  /** An accepted pause of the job comes before any pump that finds it due. */
  ghost predicate PausedFirst(s: Machine, tr: Trace, id: Id)
    decreases |tr|
  {
    tr != [] && Step(s, tr[0].0, tr[0].1).Some? &&
      (PausesIt(s, tr[0].1, id) ||
       (!ReleasesIt(s, tr[0].1, id) && PausedFirst(Step(s, tr[0].0, tr[0].1).value, tr[1..], id)))
  }

  /** A pump at time `d` or later that finds the job due comes before any accepted pause of it. */
  ghost predicate ReleasedFirst(s: Machine, tr: Trace, id: Id, d: int)
    decreases |tr|
  {
    tr != [] && Step(s, tr[0].0, tr[0].1).Some? &&
      if ReleasesIt(s, tr[0].1, id) then tr[0].1.now >= d
      else !PausesIt(s, tr[0].1, id) && ReleasedFirst(Step(s, tr[0].0, tr[0].1).value, tr[1..], id, d)
  }

  lemma ReleaseIsDue(s: Machine, t: Tid, a: Action, id: Id, d: int)
    requires HeldBack(s, id, d) && Step(s, t, a).Some? && ReleasesIt(s, a, id)
    ensures a.now >= d
  {
    assert s.At(t).Free?;
    assert id in (set x | x in a.due);
    assert id in s.d.DueNow(a.now);
  }

  lemma {:induction false} HeldBackOtherwise(s: Machine, tr: Trace, s': Machine, id: Id, d: int)
    requires Inv(s) && HeldBack(s, id, d) && Runs(s, tr, s')
    ensures !PausedFirst(s, tr, id) && !ReleasedFirst(s, tr, id, d) ==> HeldBack(s', id, d)
    ensures !(PausedFirst(s, tr, id) && ReleasedFirst(s, tr, id, d))
    decreases |tr|
  {
    hide Step, Inv, Disciplined, HeldBack, ReleasesIt, PausesIt;
    if tr != [] {
      var (t, a) := tr[0];
      if ReleasesIt(s, a, id) {
        ReleaseIsDue(s, t, a, id, d);
        PauseIsNoPump(s, a, id);
      } else if !PausesIt(s, a, id) {
        StepKeeps(s, t, a);
        StepHoldsBack(s, t, a, id, d);
        HeldBackOtherwise(Step(s, t, a).value, tr[1..], s', id, d);
      }
    }
  }

  lemma PauseIsNoPump(s: Machine, a: Action, id: Id)
    ensures !(PausesIt(s, a, id) && ReleasesIt(s, a, id))
  {}

  /** The backoff, exactly. A job waits until `d`, the manager runs on, and some worker is
      about to take the job. A pump at `d` or later has released it if and only if no
      accepted pause got in before such a pump. */
  lemma BackoffRespectedExactly(s: Machine, tr: Trace, s': Machine, id: Id)
    requires Inv(s) && id in s.d.waiting && Runs(s, tr, s')
    requires s'.d.runnable != [] && s'.d.runnable[0] == id
    ensures ReleasedFirst(s, tr, id, s.d.waiting[id]) <==> !PausedFirst(s, tr, id)
  {
    hide Inv, PausedFirst, ReleasedFirst;
    WaitingIsHeldBack(s, id);
    HeldBackOtherwise(s, tr, s', id, s.d.waiting[id]);
    assert id in s'.d.runnable;
  }

  // ---- A job that was let go -----------------------------------------------------------------

  /** Known, in no place of the dispatch state, and held by nobody: a job a worker has let go,
      finished or not, or one a refused cancel left behind. */
  ghost predicate LetGo(s: Machine, id: Id) {
    && OutOfDispatch(s.d, id) && id !in s.d.pending
    && (forall t :: t in s.threads && !s.threads[t].Free? ==> s.threads[t].id != id)
  }

  /** A worker that does not reschedule its job lets it go, whatever became of it. */
  lemma SettleLetsGo(s: Machine, t: Tid, s': Machine)
    requires Inv(s) && s.At(t).Settling? && !s.At(t).reschedule && Step(s, t, WorkerSettle) == Some(s')
    ensures LetGo(s', s.At(t).id)
  {
    hide FreeStep, ClaimStep, CancelStep;
    assert LocalOk(s, s.At(t));
    assert s.At(t).id in s.d.requests.Keys;
  }

  /** Later than every pump of the trace. */
  function AfterPumps(tr: Trace): int
    decreases |tr|
  {
    if tr == [] then 0
    else
      var d := AfterPumps(tr[1..]);
      if tr[0].1.PumpDue? && tr[0].1.now >= d then tr[0].1.now + 1 else d
  }

  lemma {:induction false} NotReleasedThen(s: Machine, tr: Trace, id: Id, d: int)
    requires d >= AfterPumps(tr)
    ensures !ReleasedFirst(s, tr, id, d)
    decreases |tr|
  {
    hide Step, PausesIt;
    if tr != [] && Step(s, tr[0].0, tr[0].1).Some? {
      NotReleasedThen(Step(s, tr[0].0, tr[0].1).value, tr[1..], id, d);
    }
  }

  /** A job that was let go is queued again only by way of an accepted pause. */
  lemma LetGoNeedsPause(s: Machine, tr: Trace, s': Machine, id: Id)
    requires Inv(s) && LetGo(s, id) && Runs(s, tr, s') && id in s'.d.runnable
    ensures PausedFirst(s, tr, id)
  {
    hide Inv, PausedFirst, ReleasedFirst, Runs;
    var d := AfterPumps(tr);
    assert HeldBack(s, id, d);
    HeldBackOtherwise(s, tr, s', id, d);
    NotReleasedThen(s, tr, id, d);
  }

  lemma StoppedStep(s: Machine, t: Tid, a: Action)
    requires Step(s, t, a).Some?
    ensures Step(s, t, a).value.d.running ==> s.d.running
  {
    hide FreeStep, WorkerStep, ClaimStep, CancelStep;
    var l := s.At(t);
    if l.Free? {
      StoppedFree(s, t, a);
    } else if l.IsWorker() {
      WorkerStepShape(s, t, a);
    } else {
      StoppedOther(s, t, l, a);
    }
  }

  lemma StoppedFree(s: Machine, t: Tid, a: Action)
    requires FreeStep(s, t, a).Some?
    ensures FreeStep(s, t, a).value.d.running ==> s.d.running
  {}

  lemma StoppedOther(s: Machine, t: Tid, l: Local, a: Action)
    ensures l.IsClaim() && ClaimStep(s, t, l, a).Some? ==> ClaimStep(s, t, l, a).value.d.running == s.d.running
    ensures l.IsCancel() && CancelStep(s, t, l, a).Some? ==> CancelStep(s, t, l, a).value.d.running == s.d.running
  {}

  lemma {:induction false} StoppedNeverPauses(s: Machine, tr: Trace, s': Machine, id: Id)
    requires !s.d.running && Runs(s, tr, s')
    ensures !PausedFirst(s, tr, id)
    decreases |tr|
  {
    hide Step, Disciplined, ReleasesIt;
    if tr != [] {
      StoppedStep(s, tr[0].0, tr[0].1);
      StoppedNeverPauses(Step(s, tr[0].0, tr[0].1).value, tr[1..], s', id);
    }
  }

  lemma {:induction false} FreshNat(taken: set<nat>) returns (n: nat)
    ensures forall x :: x in taken ==> x < n
  {
    if taken == {} {
      return 0;
    }
    var x :| x in taken;
    var m := FreshNat(taken - {x});
    n := if x < m then m else x + 1;
    assert forall y :: y in taken ==> y == x || y in taken - {x};
  }

  /** Re-dispatch, exactly. A job that was let go, finished ones included, is queued again by
      some run if and only if the manager is running; every such run accepts a pause of it
      first, and a pause and a resume always do it. */
  lemma ComesBackExactly(s: Machine, id: Id)
    requires Inv(s) && LetGo(s, id)
    ensures (exists tr, s' :: Runs(s, tr, s') && id in s'.d.runnable) <==> s.d.running
    ensures forall tr, s' :: Runs(s, tr, s') && id in s'.d.runnable ==> PausedFirst(s, tr, id)
  {
    hide Inv, PausedFirst, Runs;
    forall tr, s' | Runs(s, tr, s') && id in s'.d.runnable
      ensures PausedFirst(s, tr, id) && s.d.running
    {
      LetGoNeedsPause(s, tr, s', id);
      if !s.d.running {
        StoppedNeverPauses(s, tr, s', id);
      }
    }
    if s.d.running {
      var t := FreshNat(s.threads.Keys);
      assert t !in s.threads.Keys;
      var tr, s' := PauseScene(s, t, id);
      assert id in s'.d.runnable;
    }
  }
}
