/** What every interleaving of workers and commands keeps. */
module ManagerProofs {
  import opened Jobs
  import opened Sequences
  import opened Mover
  import opened Dispatching
  import opened Manager

  /** Some thread other than `t` holds the job. */
  predicate HeldByOther(s: Machine, t: Tid, id: Id) {
    exists u :: u in s.threads && u != t && !s.threads[u].Free? && s.threads[u].id == id
  }

  /** Two dispatch states place every job outside `ids` alike. */
  ghost predicate AgreeElsewhere(d: Dispatch, d': Dispatch, ids: set<Id>) {
    forall x :: x !in ids ==>
      && (x in d.requests <==> x in d'.requests) && (x in d.runnable <==> x in d'.runnable)
      && (x in d.waiting <==> x in d'.waiting) && (x in d.paused <==> x in d'.paused)
      && (x in d.active <==> x in d'.active) && (x in d.pending <==> x in d'.pending)
  }

  /** A step that rewrites nothing but the row and the local state of the job its thread holds. */
  lemma RowStepKeeps(s: Machine, t: Tid, s': Machine)
    requires Inv(s) && !s.At(t).Free? && !s'.At(t).Free? && s'.At(t).id == s.At(t).id
    requires s' == s.(rows := s'.rows, rescheduled := s'.rescheduled, threads := s.threads[t := s'.At(t)])
    requires s.rows.Keys <= s'.rows.Keys
    requires forall x :: x in s.rows && x != s.At(t).id ==> s'.rows[x] == s.rows[x]
    requires LocalOk(s', s'.At(t)) && Bounded(s')
    ensures Inv(s')
  {
    var id := s.At(t).id;
    forall u | u in s'.threads
      ensures LocalOk(s', s'.threads[u])
    {
      if u != t {
        assert LocalOk(s, s.threads[u]);
      }
    }
  }

  /** A critical section that moves only jobs no other thread holds. */
  lemma DispatchStepKeeps(s: Machine, t: Tid, s': Machine, ids: set<Id>)
    requires Inv(s)
    requires s'.cfg == s.cfg && s'.rows == s.rows && s'.rescheduled == s.rescheduled
    requires s'.threads == s.threads || (t in s'.threads && s'.threads == s.threads[t := s'.threads[t]])
    requires AgreeElsewhere(s.d, s'.d, ids)
    requires forall x :: x in ids ==> !HeldByOther(s, t, x)
    requires s'.threads != s.threads ==> LocalOk(s', s'.At(t)) && (s'.At(t).Free? || !HeldByOther(s, t, s'.At(t).id))
    requires s'.threads == s.threads ==> s.At(t).Free?
    requires Exclusive(s'.d) && s'.d.requests.Keys <= s'.rows.Keys
    ensures Inv(s')
  {
    hide Exclusive;
    forall u | u in s'.threads
      ensures LocalOk(s', s'.threads[u])
    {
      if u != t {
        var l := s.threads[u];
        assert LocalOk(s, l);
        if !l.Free? {
          assert l.id !in ids;
        }
      }
    }
  }

  /** A job that is not being worked on, claimed or cancelled is held by nobody. */
  lemma NobodyHolds(s: Machine, t: Tid, id: Id)
    requires Inv(s) && id !in s.d.active && id !in s.d.pending && !MidCancel(s, id)
    ensures !HeldByOther(s, t, id)
  {
    hide Exclusive;
    forall u | u in s.threads && !s.threads[u].Free?
      ensures s.threads[u].id != id
    {
      assert LocalOk(s, s.threads[u]);
    }
  }

  lemma EngineWriteKeeps(s: Machine, t: Tid, a: Action)
    requires Inv(s) && s.At(t).Moving? && a.EngineWrite? && WorkerStep(s, t, s.At(t), a).Some?
    ensures Inv(WorkerStep(s, t, s.At(t), a).value)
  {
    hide Exclusive, OneOwner;
    assert LocalOk(s, s.At(t));
    var s' := WorkerStep(s, t, s.At(t), a).value;
    assert LocalOk(s', s'.At(t));
    RowStepKeeps(s, t, s');
  }

  /** Only the row of the held job and the thread's local state may differ. */
  predicate RowStep(s: Machine, t: Tid, s': Machine) {
    && !s.At(t).Free? && !s'.At(t).Free? && s'.At(t).id == s.At(t).id
    && s' == s.(rows := s'.rows, threads := s.threads[t := s'.At(t)])
    && s.rows.Keys == s'.rows.Keys
    && (forall x :: x in s.rows && x != s.At(t).id ==> s'.rows[x] == s.rows[x])
    && (forall x :: x in s.rows ==> s'.rows[x].attempts == s.rows[x].attempts)
  }

  lemma RowStepsKeep(s: Machine, t: Tid, s': Machine)
    requires Inv(s) && RowStep(s, t, s') && LocalOk(s', s'.At(t))
    ensures Inv(s')
  {
    hide Exclusive, OneOwner, LocalOk;
    RowStepKeeps(s, t, s');
  }

  lemma EngineShape(s: Machine, t: Tid, a: Action)
    requires s.At(t).Moving? && !a.EngineWrite? && !a.EngineFlag? && WorkerStep(s, t, s.At(t), a).Some?
    ensures RowStep(s, t, WorkerStep(s, t, s.At(t), a).value)
  {}

  lemma EngineLocal(s: Machine, t: Tid, a: Action)
    requires LocalOk(s, s.At(t)) && s.At(t).Moving? && !a.EngineWrite? && !a.EngineFlag? && WorkerStep(s, t, s.At(t), a).Some?
    ensures var s' := WorkerStep(s, t, s.At(t), a).value; LocalOk(s', s'.At(t))
  {}

  lemma EngineStepKeeps(s: Machine, t: Tid, a: Action)
    requires Inv(s) && s.At(t).Moving? && !a.EngineWrite? && !a.EngineFlag? && WorkerStep(s, t, s.At(t), a).Some?
    ensures Inv(WorkerStep(s, t, s.At(t), a).value)
  {
    hide Exclusive, OneOwner, WorkerStep, RowStep, Bounded;
    assert LocalOk(s, s.At(t));
    EngineShape(s, t, a);
    EngineLocal(s, t, a);
    RowStepsKeep(s, t, WorkerStep(s, t, s.At(t), a).value);
  }

  lemma EngineFlagKeeps(s: Machine, t: Tid)
    requires Inv(s) && s.At(t).Moving? && s.At(t).id in s.rows
    ensures Inv(s.Flag(s.At(t).id))
  {
    hide Exclusive, OneOwner;
    var s' := s.Flag(s.At(t).id);
    assert LocalOk(s, s.At(t));
    assert LocalOk(s', s'.At(t));
    assert s.threads[t := s'.At(t)] == s.threads;
    RowStepKeeps(s, t, s');
  }

  lemma FlagStep(s: Machine, t: Tid)
    requires s.At(t).Moving? && WorkerStep(s, t, s.At(t), EngineFlag).Some?
    ensures s.At(t).id in s.rows && WorkerStep(s, t, s.At(t), EngineFlag).value == s.Flag(s.At(t).id)
  {}

  lemma RetryStepKeeps(s: Machine, t: Tid, a: Action)
    requires Inv(s) && (s.At(t).Aborted? || s.At(t).Deciding?) && WorkerStep(s, t, s.At(t), a).Some?
    ensures Inv(WorkerStep(s, t, s.At(t), a).value)
  {
    hide Exclusive, OneOwner;
    assert LocalOk(s, s.At(t));
    RowStepKeeps(s, t, WorkerStep(s, t, s.At(t), a).value);
  }

  lemma CondemnStepKeeps(s: Machine, t: Tid, a: Action)
    requires Inv(s) && s.At(t).IsCondemning()
    requires WorkerStep(s, t, s.At(t), a).Some?
    ensures Inv(WorkerStep(s, t, s.At(t), a).value)
  {
    hide Exclusive;
    assert LocalOk(s, s.At(t));
    RowStepKeeps(s, t, WorkerStep(s, t, s.At(t), a).value);
  }

  lemma SettleStepKeeps(s: Machine, t: Tid, a: Action)
    requires Inv(s) && s.At(t).Settling? && WorkerStep(s, t, s.At(t), a).Some?
    ensures Inv(WorkerStep(s, t, s.At(t), a).value)
  {
    hide Exclusive;
    var l := s.At(t);
    assert LocalOk(s, l);
    SettleKeepsExclusive(s.d, l.id, l.reschedule, l.due);
    DispatchStepKeeps(s, t, WorkerStep(s, t, l, a).value, {l.id});
  }

  lemma SettleKeepsExclusive(d: Dispatch, id: Id, reschedule: bool, due: int)
    requires Exclusive(d) && id in d.active
    ensures Exclusive(d.Settle(id, reschedule, due))
    ensures AgreeElsewhere(d, d.Settle(id, reschedule, due), {id})
  {}

  lemma ClaimStepKeeps(s: Machine, t: Tid, a: Action)
    requires Inv(s) && s.At(t).IsClaim() && ClaimStep(s, t, s.At(t), a).Some?
    ensures Inv(ClaimStep(s, t, s.At(t), a).value)
  {
    hide Exclusive;
    var l := s.At(t);
    var s' := ClaimStep(s, t, l, a).value;
    assert LocalOk(s, l);
    if l.Publishing? {
      PublishKeepsExclusive(s.d, l.id, l.req, l.recorded);
      DispatchStepKeeps(s, t, s', {l.id});
    } else {
      RowStepKeeps(s, t, s');
    }
  }

  lemma PublishKeepsExclusive(d: Dispatch, id: Id, req: Request, recorded: bool)
    requires Exclusive(d) && id in d.pending
    ensures Exclusive(d.Publish(id, req, recorded))
    ensures AgreeElsewhere(d, d.Publish(id, req, recorded), {id})
  {}

  lemma CancelStoreShape(s: Machine, t: Tid, a: Action)
    requires s.At(t).IsCancel() && !s.At(t).CancelEnding? && CancelStep(s, t, s.At(t), a).Some?
    ensures RowStep(s, t, CancelStep(s, t, s.At(t), a).value)
  {}

  lemma CancelStoreLocal(s: Machine, t: Tid, a: Action)
    requires LocalOk(s, s.At(t)) && s.At(t).IsCancel() && !s.At(t).CancelEnding? && CancelStep(s, t, s.At(t), a).Some?
    ensures var s' := CancelStep(s, t, s.At(t), a).value; LocalOk(s', s'.At(t))
  {}

  lemma CancelStoreKeeps(s: Machine, t: Tid, a: Action)
    requires Inv(s) && s.At(t).IsCancel() && !s.At(t).CancelEnding? && CancelStep(s, t, s.At(t), a).Some?
    ensures Inv(CancelStep(s, t, s.At(t), a).value)
  {
    hide Exclusive, OneOwner, CancelStep, RowStep, Bounded;
    assert LocalOk(s, s.At(t));
    CancelStoreShape(s, t, a);
    CancelStoreLocal(s, t, a);
    RowStepsKeep(s, t, CancelStep(s, t, s.At(t), a).value);
  }

  lemma CancelEndKeeps(s: Machine, t: Tid, a: Action)
    requires Inv(s) && s.At(t).CancelEnding? && CancelStep(s, t, s.At(t), a).Some?
    ensures Inv(CancelStep(s, t, s.At(t), a).value)
  {
    hide Exclusive, OneOwner, Bounded;
    var l := s.At(t);
    assert LocalOk(s, l);
    RestoreKeepsExclusive(s.d, l.id);
    NobodyElse(s, t);
    DispatchStepKeeps(s, t, CancelStep(s, t, l, a).value, {l.id});
  }

  lemma NobodyElse(s: Machine, t: Tid)
    requires Inv(s) && !s.At(t).Free?
    ensures !HeldByOther(s, t, s.At(t).id)
  {
    hide Exclusive, Bounded, LocalOk;
  }

  lemma RestoreKeepsExclusive(d: Dispatch, id: Id)
    requires Exclusive(d) && OutOfDispatch(d, id)
    ensures Exclusive(d.Restore(id)) && AgreeElsewhere(d, d.Restore(id), {id})
  {}

  lemma TakeStepKeeps(s: Machine, t: Tid, a: Action)
    requires Inv(s) && s.At(t).Free? && a.WorkerTake? && FreeStep(s, t, a).Some?
    ensures Inv(FreeStep(s, t, a).value)
  {
    hide Exclusive;
    var id := s.d.runnable[0];
    TakeKeepsExclusive(s.d);
    NotMidCancel(s, id);
    NobodyHolds(s, t, id);
    DispatchStepKeeps(s, t, FreeStep(s, t, a).value, {id});
  }

  lemma TakeKeepsExclusive(d: Dispatch)
    requires Exclusive(d) && d.runnable != []
    ensures Exclusive(d.Take().1) && AgreeElsewhere(d, d.Take().1, {d.Take().0})
    ensures d.Take().0 !in d.active && d.Take().0 !in d.pending
  {
    assert d.runnable == [d.runnable[0]] + d.runnable[1..];
  }

  /** A job in the queue, waiting or paused is not between the halves of a cancel. */
  lemma NotMidCancel(s: Machine, id: Id)
    requires Inv(s) && (id in s.d.runnable || id in s.d.waiting || id in s.d.paused || id !in s.d.requests)
    ensures !MidCancel(s, id)
  {
    hide Exclusive;
    forall u | u in s.threads && s.threads[u].IsCancel()
      ensures s.threads[u].id != id
    {
      assert LocalOk(s, s.threads[u]);
    }
  }

  lemma NewClaimKeeps(s: Machine, t: Tid, a: Action)
    requires Inv(s) && s.At(t).Free? && (a.SubmitClaim? || a.RetryClaim?) && FreeStep(s, t, a).Some?
    ensures Inv(FreeStep(s, t, a).value)
  {
    hide Exclusive;
    var id := if a.SubmitClaim? then a.id else a.candidate;
    var s' := FreeStep(s, t, a).value;
    if s' != s {
      NewClaimKeepsExclusive(s.d, id);
      NotMidCancel(s, id);
      NobodyHolds(s, t, id);
      DispatchStepKeeps(s, t, s', {id});
    }
  }

  lemma NewClaimKeepsExclusive(d: Dispatch, id: Id)
    requires Exclusive(d) && id !in d.requests
    ensures Exclusive(d.(pending := d.pending + {id})) && AgreeElsewhere(d, d.(pending := d.pending + {id}), {id})
    ensures id !in d.active
  {}

  lemma LifecycleKeeps(s: Machine, t: Tid, a: Action)
    requires Inv(s) && s.At(t).Free? && (a.PauseJob? || a.ResumeJob? || a.CancelClaim?) && FreeStep(s, t, a).Some?
    requires !MidCancel(s, a.id)
    ensures Inv(FreeStep(s, t, a).value)
  {
    hide Exclusive;
    var s' := FreeStep(s, t, a).value;
    if s' != s {
      PendingUnknown(s.d);
      LifecycleKeepsExclusive(s.d, a.id);
      NobodyHolds(s, t, a.id);
      DispatchStepKeeps(s, t, s', {a.id});
    }
  }

  lemma PendingUnknown(d: Dispatch)
    requires Exclusive(d)
    ensures d.pending !! d.requests.Keys && d.paused !! d.active
  {}

  lemma LifecycleKeepsExclusive(d: Dispatch, id: Id)
    requires Exclusive(d)
    ensures Exclusive(d.Pause(id).1) && AgreeElsewhere(d, d.Pause(id).1, {id})
    ensures Exclusive(d.Resume(id).1) && AgreeElsewhere(d, d.Resume(id).1, {id})
    ensures Exclusive(d.ClaimCancel(id).2) && AgreeElsewhere(d, d.ClaimCancel(id).2, {id})
    ensures d.ClaimCancel(id).0.Accepted? ==> OutOfDispatch(d.ClaimCancel(id).2, id)
  {
    WithoutElements(d.runnable, id);
  }

  lemma PumpKeeps(s: Machine, t: Tid, a: Action)
    requires Inv(s) && s.At(t).Free? && (a.PumpDue? || a.Stop?) && FreeStep(s, t, a).Some?
    ensures Inv(FreeStep(s, t, a).value)
  {
    hide Exclusive;
    var s' := FreeStep(s, t, a).value;
    if a.Stop? {
      assert Exclusive(s.d.Shutdown()) by { StopKeepsExclusive(s.d); }
      DispatchStepKeeps(s, t, s', {});
    } else {
      PumpKeepsExclusive(s.d, a.now, a.due);
      var ids := set x | x in a.due;
      forall x | x in ids
        ensures !HeldByOther(s, t, x)
      {
        NotMidCancel(s, x);
        NobodyHolds(s, t, x);
      }
      DispatchStepKeeps(s, t, s', ids);
    }
  }

  lemma StopKeepsExclusive(d: Dispatch)
    requires Exclusive(d)
    ensures Exclusive(d.Shutdown())
  {}

  lemma PumpKeepsExclusive(d: Dispatch, now: int, due: seq<Id>)
    requires Exclusive(d) && NoRepeats(due) && (set x | x in due) == d.DueNow(now)
    ensures Exclusive(d.Pump(due)) && AgreeElsewhere(d, d.Pump(due), set x | x in due)
    ensures forall x :: x in due ==> x in d.waiting && x !in d.active && x !in d.pending
  {
    assert forall x :: x in due ==> x in d.DueNow(now);
    NoRepeatsConcat(d.runnable, due);
  }

  /** Every disciplined step of every thread keeps the invariant. */
  lemma StepKeeps(s: Machine, t: Tid, a: Action)
    requires Inv(s) && Step(s, t, a).Some? && Disciplined(s, a)
    ensures Inv(Step(s, t, a).value)
  {
    hide FreeStep, WorkerStep, ClaimStep, CancelStep, Inv, MidCancel;
    var l := s.At(t);
    if l.Free? {
      match a
      case WorkerTake(_) => TakeStepKeeps(s, t, a);
      case SubmitClaim(_, _, _) => NewClaimKeeps(s, t, a);
      case RetryClaim(_, _, _) => NewClaimKeeps(s, t, a);
      case PauseJob(_) => LifecycleKeeps(s, t, a);
      case ResumeJob(_) => LifecycleKeeps(s, t, a);
      case CancelClaim(_) => LifecycleKeeps(s, t, a);
      case PumpDue(_, _) => PumpKeeps(s, t, a);
      case Stop => PumpKeeps(s, t, a);
      case _ => OtherFreeSteps(s, t, a);
    } else if l.IsWorker() {
      if l.Moving? {
        if a.EngineWrite? {
          EngineWriteKeeps(s, t, a);
        } else if a.EngineFlag? {
          FlagStep(s, t);
          EngineFlagKeeps(s, t);
        } else {
          EngineStepKeeps(s, t, a);
        }
      } else if l.Settling? {
        SettleStepKeeps(s, t, a);
      } else if l.Aborted? || l.Deciding? {
        RetryStepKeeps(s, t, a);
      } else {
        CondemnStepKeeps(s, t, a);
      }
    } else if l.IsClaim() {
      ClaimStepKeeps(s, t, a);
    } else {
      if l.CancelEnding? {
        CancelEndKeeps(s, t, a);
      } else {
        CancelStoreKeeps(s, t, a);
      }
    }
  }

  lemma OtherFreeSteps(s: Machine, t: Tid, a: Action)
    requires !a.WorkerTake? && !a.SubmitClaim? && !a.RetryClaim? && !a.PauseJob? && !a.ResumeJob?
             && !a.CancelClaim? && !a.PumpDue? && !a.Stop?
    ensures FreeStep(s, t, a).None?
  {}
}
