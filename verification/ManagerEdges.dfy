/** Where the manager's protection ends: backoffs skipped, finished jobs run again, cancels
    that strand their job, with the runs that get there. */
module ManagerEdges {
  import opened Jobs
  import opened Sequences
  import opened Stores
  import opened Mover
  import opened Dispatching
  import opened Manager
  import opened ManagerProofs
  import opened ManagerRuns
  import opened ManagerBackoff
  import opened ManagerScenes

  lemma NoCancelAbout(s: Machine, id: Id)
    requires forall t :: t in s.threads ==> s.threads[t].Free?
    ensures !MidCancel(s, id)
  {}

  /** A job submitted to a fresh manager and sent back to wait is taken again before its
      time: a pause and a resume are all it needs. */
  lemma BackoffIsSkipped(s: Machine, id: Id, req: Request, now: int)
      returns (tr1: Trace, s1: Machine, tr2: Trace, s2: Machine)
    requires Started(s) && id !in s.rows && s.cfg.maxAttempts >= 2 && s.cfg.initialMs > 0 && s.cfg.maxMs > 0
    ensures Runs(s, tr1, s1) && id in s1.d.waiting && now < s1.d.waiting[id]
    ensures Runs(s1, tr2, s2) && PausedFirst(s1, tr2, id)
    ensures Step(s2, 1, WorkerTake(now)).Some? && Step(s2, 1, WorkerTake(now)).value.At(1) == Moving(id, now, None, None)
  {
    hide Step, Runs, Recorded, Disciplined;
    var f := Fresh(s, id, req, now);
    var a := SubmitScene(s, id, req, now);
    var b;
    b, s1 := AbortScene(f, id, now);
    RunsConcat(s, a, f, b, s1);
    tr1 := a + b;
    NoCancelAbout(s1, id);
    tr2, s2 := PauseScene(s1, 0, id);
    PauseComesFirst(s1, tr2, s2, id);
    assert s2.d.runnable == [id];
    TakeGoes(s2, 1, id, now);
  }

  lemma PauseComesFirst(s: Machine, tr: Trace, s': Machine, id: Id)
    requires Runs(s, tr, s') && tr != [] && tr[0] == (0, PauseJob(id))
    requires s.d.running && id in s.d.requests && id !in s.d.active
    ensures PausedFirst(s, tr, id)
  {
    hide Step;
  }

  /** A worker carries the job all the way to DONE and lets it go. */
  lemma MoveScene(s: Machine, id: Id, now: int) returns (tr: Trace, s': Machine)
    requires s.At(1) == Moving(id, now, None, None) && id in s.rows && s.rows[id].State().Queued?
    ensures Runs(s, tr, s') && id in s'.rows && s'.rows[id].State().Done?
    ensures s'.d == s.d.(active := s.d.active - {id}) && s'.threads == s.threads[1 := Free]
  {
    hide Step, Disciplined, Runs;
    var base := s.rows[id].Job().updatedAt;
    var s0 := s.Put(1, Moving(id, now, Some(base), None));
    LoadGoes(s, 1, id, now);
    RunsOne(s, 1, EngineLoad, s0);
    var j1 := Transitioned(s.rows[id].Job(), Renaming, base + 1, "").value;
    var s1 := s0.Write(id, j1);
    var t1 := WriteScene(s0, 1, id, now, base, Renaming);
    var j2 := Transitioned(j1, Transferring, base + 2, "").value;
    var s2 := s1.Write(id, j2);
    var t2 := WriteScene(s1, 1, id, now, base, Transferring);
    var j3 := Transitioned(j2, Done, base + 3, "").value;
    var s3 := s2.Write(id, j3);
    var t3 := WriteScene(s2, 1, id, now, base, Done);
    RunsConcat(s, [(1, EngineLoad)], s0, t1, s1);
    RunsConcat(s, [(1, EngineLoad)] + t1, s1, t2, s2);
    RunsConcat(s, [(1, EngineLoad)] + t1 + t2, s2, t3, s3);
    var t4;
    t4, s' := LetGoScene(s3, 1, id, now, base);
    RunsConcat(s, [(1, EngineLoad)] + t1 + t2 + t3, s3, t4, s');
    tr := [(1, EngineLoad)] + t1 + t2 + t3 + t4;
    assert s3.threads[1 := Free] == s.threads[1 := Free];
  }

  /** A finished job runs again: only its terminal row stands in the way of what follows. */
  lemma FinishedJobRunsAgain(s: Machine, id: Id, req: Request, now: int) returns (tr: Trace, s': Machine)
    requires Started(s) && id !in s.rows
    ensures Runs(s, tr, s') && id in s'.rows && s'.rows[id].State().Done?
    ensures s'.At(1) == Moving(id, now, None, None)
  {
    hide Step, Runs, Recorded, Disciplined, Goes;
    var f := Fresh(s, id, req, now);
    var a := SubmitScene(s, id, req, now);
    TakeGoes(f, 1, id, now);
    var f1 := f.With(f.d.(runnable := f.d.runnable[1..], active := f.d.active + {id})).Put(1, Moving(id, now, None, None));
    RunsOne(f, 1, WorkerTake(now), f1);
    var b, f2 := MoveScene(f1, id, now);
    NoCancelAbout(f2, id);
    var c, f3 := PauseScene(f2, 0, id);
    TakeGoes(f3, 1, id, now);
    s' := f3.With(f3.d.(runnable := f3.d.runnable[1..], active := f3.d.active + {id})).Put(1, Moving(id, now, None, None));
    RunsOne(f3, 1, WorkerTake(now), s');
    RunsConcat(s, a, f, [(1, WorkerTake(now))], f1);
    RunsConcat(s, a + [(1, WorkerTake(now))], f1, b, f2);
    RunsConcat(s, a + [(1, WorkerTake(now))] + b, f2, c, f3);
    RunsConcat(s, a + [(1, WorkerTake(now))] + b + c, f3, [(1, WorkerTake(now))], s');
    tr := a + [(1, WorkerTake(now))] + b + c + [(1, WorkerTake(now))];
  }

  /** Known, not finished, in no place of the dispatch state, and held by nobody. */
  ghost predicate Stranded(s: Machine, id: Id) {
    && OutOfDispatch(s.d, id) && id in s.rows && !IsTerminal(s.rows[id].State())
    && (forall u :: u in s.threads && !s.threads[u].Free? ==> s.threads[u].id != id)
  }

  /** The end of a cancel strands its job exactly when the job was waiting, paused or
      nowhere to begin with and its record is still open: only a queued job is put back. */
  lemma CancelStrandsExactly(s: Machine, t: Tid, a: Action)
    requires Inv(s) && s.At(t).CancelEnding? && Step(s, t, a).Some?
    ensures var (l, s') := (s.At(t), Step(s, t, a).value);
            && l.id in s.rows
            && (Stranded(s', l.id) <==> !l.wasRunnable && !IsTerminal(s.rows[l.id].State()))
  {
    hide Exclusive;
    var l := s.At(t);
    assert LocalOk(s, l);
  }

  /** Submit, pause, cancel with the store out of reach: the job is stranded. */
  lemma StrandedIsReachable(s: Machine, id: Id, req: Request, now: int) returns (tr: Trace, s': Machine)
    requires Started(s) && id !in s.rows
    ensures Runs(s, tr, s') && Stranded(s', id)
  {
    hide Step, Runs, Recorded;
    var f := Fresh(s, id, req, now);
    var a := SubmitScene(s, id, req, now);
    var f1 := f.With(f.d.Pause(id).1);
    PauseShape(f, 0, id);
    assert Without([id], id) == [];
    var f2 := f1.With(f1.d.ClaimCancel(id).2).Put(0, Cancelling(id, false));
    ClaimShape(f1, 0, id);
    RunsTwo(f, 0, PauseJob(id), f1, 0, CancelClaim(id), f2);
    var f3 := f2.Put(0, CancelEnding(id, false, false));
    RefusedShape(f2, 0, id, false);
    s' := f3.Put(0, Free);
    EndShape(f3, 0);
    RunsTwo(f2, 0, CancelRead(false), f3, 0, CancelEnd, s');
    var b, c := [(0, PauseJob(id)), (0, CancelClaim(id))], [(0, CancelRead(false)), (0, CancelEnd)];
    RunsConcat(s, a, f, b, f2);
    RunsConcat(s, a + b, f2, c, s');
    tr := a + b + c;
  }
}
