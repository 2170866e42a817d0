/** Short stretches of manager runs, each from any state that allows it, out of which
    the concrete runs of ManagerEdges are put together. */
module ManagerScenes {
  import opened Jobs
  import opened Sequences
  import opened Stores
  import opened Mover
  import opened Dispatching
  import opened Manager
  import opened ManagerProofs
  import opened ManagerRuns

  /** The outcome of a trace, disciplined or not. */
  function Follow(s: Machine, tr: Trace): Option<Machine>
    decreases |tr|
  {
    if tr == [] then Some(s)
    else if Step(s, tr[0].0, tr[0].1).None? then None
    else Follow(Step(s, tr[0].0, tr[0].1).value, tr[1..])
  }

  lemma {:induction false} FollowConcat(s: Machine, a: Trace, m: Machine, b: Trace)
    requires Follow(s, a) == Some(m)
    ensures Follow(s, a + b) == Follow(m, b)
    decreases |a|
  {
    hide Step;
    if a == [] {
      assert a + b == b;
    } else {
      assert (a + b)[1..] == a[1..] + b;
      FollowConcat(Step(s, a[0].0, a[0].1).value, a[1..], m, b);
    }
  }

  lemma {:induction false} RunsConcat(s: Machine, a: Trace, m: Machine, b: Trace, s': Machine)
    requires Runs(s, a, m) && Runs(m, b, s')
    ensures Runs(s, a + b, s')
    decreases |a|
  {
    hide Step, Disciplined;
    if a == [] {
      assert a + b == b;
    } else {
      assert (a + b)[1..] == a[1..] + b;
      RunsConcat(Step(s, a[0].0, a[0].1).value, a[1..], m, b, s');
    }
  }

  lemma {:induction false} RunsFollow(s: Machine, tr: Trace, s': Machine)
    requires Runs(s, tr, s')
    ensures Follow(s, tr) == Some(s')
    decreases |tr|
  {
    hide Step, Disciplined;
    if tr != [] {
      RunsFollow(Step(s, tr[0].0, tr[0].1).value, tr[1..], s');
    }
  }

  /** One step that breaks no discipline. */
  predicate Goes(s: Machine, t: Tid, a: Action, s': Machine) {
    Step(s, t, a) == Some(s') && Disciplined(s, a)
  }

  lemma RunsOne(s: Machine, t: Tid, a: Action, s': Machine)
    requires Goes(s, t, a, s')
    ensures Runs(s, [(t, a)], s')
  {
    hide Step, Disciplined;
    assert [(t, a)][1..] == [];
    assert Runs(s', [], s');
  }

  lemma RunsTwo(s: Machine, t: Tid, a: Action, s1: Machine, u: Tid, b: Action, s2: Machine)
    requires Goes(s, t, a, s1) && Goes(s1, u, b, s2)
    ensures Runs(s, [(t, a), (u, b)], s2)
  {
    hide Goes, Runs;
    RunsOne(s, t, a, s1);
    RunsOne(s1, u, b, s2);
    RunsConcat(s, [(t, a)], s1, [(u, b)], s2);
    assert [(t, a)] + [(u, b)] == [(t, a), (u, b)];
  }

  lemma RunsThree(s: Machine, t: Tid, a: Action, s1: Machine, u: Tid, b: Action, s2: Machine, v: Tid, c: Action, s3: Machine)
    requires Goes(s, t, a, s1) && Goes(s1, u, b, s2) && Goes(s2, v, c, s3)
    ensures Runs(s, [(t, a), (u, b), (v, c)], s3)
  {
    hide Goes, Runs;
    RunsTwo(s, t, a, s1, u, b, s2);
    RunsOne(s2, v, c, s3);
    RunsConcat(s, [(t, a), (u, b)], s2, [(v, c)], s3);
    assert [(t, a), (u, b)] + [(v, c)] == [(t, a), (u, b), (v, c)];
  }

  /** The dispatch state of a running manager that knows one job. */
  function Known(id: Id, req: Request): Dispatch {
    Dispatch(true, false, [], map[id := req], map[], {}, {}, {})
  }

  function FirstRow(id: Id, req: Request, now: int): Row { Row(Record(Intent(id, req, now), false, []), 0) }

  /** The manager right after one job was submitted to it. */
  function Fresh(s: Machine, id: Id, req: Request, now: int): Machine {
    s.(d := Known(id, req).(runnable := [id]), rows := s.rows[id := FirstRow(id, req, now)], threads := map[0 := Free])
  }

  lemma SubmitGoes(s: Machine, t: Tid, id: Id, req: Request, now: int)
    requires s.At(t).Free? && s.d.running && id !in s.d.requests && id !in s.d.pending
    ensures Goes(s, t, SubmitClaim(id, req, now), s.With(s.d.(pending := s.d.pending + {id})).Put(t, Claimed(id, req, now)))
  {
    hide WorkerStep, ClaimStep, CancelStep;
  }

  lemma IntentGoes(s: Machine, t: Tid, id: Id, req: Request, now: int)
    requires s.At(t) == Claimed(id, req, now) && id !in s.rows
    ensures Goes(s, t, IntentWrite(true),
                 s.(rows := s.rows[id := FirstRow(id, req, now)]).Put(t, Publishing(id, req, true)))
  {
    hide WorkerStep, FreeStep, CancelStep;
  }

  lemma PublishGoes(s: Machine, t: Tid, id: Id, req: Request)
    requires s.At(t) == Publishing(id, req, true)
    ensures Goes(s, t, PublishJob, s.With(s.d.Publish(id, req, true)).Put(t, Free))
  {
    hide WorkerStep, FreeStep, CancelStep;
  }

  lemma TakeGoes(s: Machine, t: Tid, id: Id, now: int)
    requires s.At(t).Free? && s.d.runnable != [] && s.d.runnable[0] == id
    ensures Goes(s, t, WorkerTake(now),
                 s.With(s.d.(runnable := s.d.runnable[1..], active := s.d.active + {id})).Put(t, Moving(id, now, None, None)))
  {
    hide WorkerStep, ClaimStep, CancelStep;
  }

  lemma SubmitScene(s: Machine, id: Id, req: Request, now: int) returns (tr: Trace)
    requires Started(s) && id !in s.rows
    ensures Runs(s, tr, Fresh(s, id, req, now))
  {
    hide Step, Disciplined, Recorded, Runs;
    var s1 := s.With(s.d.(pending := s.d.pending + {id})).Put(0, Claimed(id, req, now));
    SubmitGoes(s, 0, id, req, now);
    var s2 := s1.(rows := s1.rows[id := FirstRow(id, req, now)]).Put(0, Publishing(id, req, true));
    IntentGoes(s1, 0, id, req, now);
    var s3 := s2.With(s2.d.Publish(id, req, true)).Put(0, Free);
    PublishGoes(s2, 0, id, req);
    RunsThree(s, 0, SubmitClaim(id, req, now), s1, 0, IntentWrite(true), s2, 0, PublishJob, s3);
    tr := [(0, SubmitClaim(id, req, now)), (0, IntentWrite(true)), (0, PublishJob)];
    assert s3.threads == map[0 := Free];
    assert s3.d == Known(id, req).(runnable := [id]);
    assert s3 == Fresh(s, id, req, now);
  }

  /** Pausing and resuming a job that is not queued, from a free thread, with no cancel about. */
  lemma PauseScene(s: Machine, t: Tid, id: Id) returns (tr: Trace, s': Machine)
    requires s.d.running && id in s.d.requests && id !in s.d.active && id !in s.d.runnable && id !in s.d.paused
    requires s.At(t).Free? && !MidCancel(s, id)
    ensures Runs(s, tr, s') && tr == [(t, PauseJob(id)), (t, ResumeJob(id))]
    ensures s' == s.With(s.d.(waiting := s.d.waiting - {id}, runnable := s.d.runnable + [id]))
  {
    hide WorkerStep, ClaimStep, CancelStep, Runs, Exclusive;
    WithoutAbsent(s.d.runnable, id);
    var s1 := s.With(s.d.(waiting := s.d.waiting - {id}, paused := s.d.paused + {id}));
    assert Goes(s, t, PauseJob(id), s1);
    s' := s.With(s.d.(waiting := s.d.waiting - {id}, runnable := s.d.runnable + [id]));
    assert Goes(s1, t, ResumeJob(id), s') by {
      assert s1.d.paused - {id} == s.d.paused;
    }
    RunsTwo(s, t, PauseJob(id), s1, t, ResumeJob(id), s');
    tr := [(t, PauseJob(id)), (t, ResumeJob(id))];
  }

  /** A worker takes the job and sees it fail before the commit; it is sent back to wait. */
  lemma AbortScene(s: Machine, id: Id, now: int) returns (tr: Trace, s': Machine)
    requires s.d.runnable == [id] && id !in s.d.active && s.At(1).Free? && id in s.rows
    requires s.rows[id].attempts + 1 < s.cfg.maxAttempts
    ensures Runs(s, tr, s')
    ensures s'.d == s.d.(runnable := [], waiting := s.d.waiting[id := now + Backoff(s.rows[id].attempts + 1, s.cfg)])
    ensures s'.threads == s.threads[1 := Free] && s'.cfg == s.cfg
  {
    hide Runs, Goes, Backoff;
    var n := s.rows[id].attempts + 1;
    var s1 := s.With(s.d.(runnable := s.d.runnable[1..], active := s.d.active + {id})).Put(1, Moving(id, now, None, None));
    TakeGoes(s, 1, id, now);
    var s3 := s1.Put(1, Aborted(id, now, "unreachable")).Put(1, Deciding(id, now, n));
    EngineAborts(s1, id, now, n);
    var tr3 := [(1, WorkerTake(now))] + [(1, EngineEnd(AbortedBeforeCommit, "unreachable")), (1, RetryRead(true))];
    RunsOne(s, 1, WorkerTake(now), s1);
    RunsConcat(s, [(1, WorkerTake(now))], s1, [(1, EngineEnd(AbortedBeforeCommit, "unreachable")), (1, RetryRead(true))], s3);
    var s4, tr4 := AttemptScene(s3, id, now, n);
    RunsConcat(s, tr3, s3, tr4, s4);
    tr, s' := tr3 + tr4, s4;
    assert s.d.active + {id} - {id} == s.d.active;
    assert s3.threads[1 := Free] == s.threads[1 := Free];
  }

  lemma EngineAborts(s: Machine, id: Id, now: int, n: nat)
    requires s.At(1).Moving? && s.At(1).id == id && s.At(1).now == now
    requires id in s.rows && n == s.rows[id].attempts + 1 < s.cfg.maxAttempts
    ensures Runs(s, [(1, EngineEnd(AbortedBeforeCommit, "unreachable")), (1, RetryRead(true))],
                 s.Put(1, Aborted(id, now, "unreachable")).Put(1, Deciding(id, now, n)))
  {
    hide Runs, FreeStep, ClaimStep, CancelStep;
    var s2 := s.Put(1, Aborted(id, now, "unreachable"));
    var s3 := s2.Put(1, Deciding(id, now, n));
    assert Goes(s, 1, EngineEnd(AbortedBeforeCommit, "unreachable"), s2);
    assert Goes(s2, 1, RetryRead(true), s3);
    RunsTwo(s, 1, EngineEnd(AbortedBeforeCommit, "unreachable"), s2, 1, RetryRead(true), s3);
  }

  lemma AttemptScene(s: Machine, id: Id, now: int, n: nat) returns (s': Machine, tr: Trace)
    requires s.At(1) == Deciding(id, now, n) && id in s.rows
    ensures Runs(s, tr, s')
    ensures s'.d == s.d.(active := s.d.active - {id}, waiting := s.d.waiting[id := now + Backoff(n, s.cfg)])
    ensures s'.threads == s.threads[1 := Free] && s'.cfg == s.cfg
  {
    hide Runs, Exclusive;
    var due := now + Backoff(n, s.cfg);
    var s1 := s.AddAttempt(id).(rescheduled := s.rescheduled[id := s.Times(id) + 1]).Put(1, Settling(id, true, due));
    assert Goes(s, 1, AttemptWrite(true), s1);
    s' := s1.With(s1.d.Settle(id, true, due)).Put(1, Free);
    assert Goes(s1, 1, WorkerSettle, s');
    RunsTwo(s, 1, AttemptWrite(true), s1, 1, WorkerSettle, s');
    tr := [(1, AttemptWrite(true)), (1, WorkerSettle)];
  }

  /** A worker's read and write of one transition. */
  lemma WriteScene(s: Machine, t: Tid, id: Id, now: int, base: int, to: JobState) returns (tr: Trace)
    requires s.At(t) == Moving(id, now, Some(base), None) && id in s.rows
    requires Transitioned(s.rows[id].Job(), to, base + Rank(to), "").Some?
    ensures Runs(s, tr, s.Write(id, Transitioned(s.rows[id].Job(), to, base + Rank(to), "").value))
  {
    hide Runs, FreeStep, ClaimStep, CancelStep;
    var next := Transitioned(s.rows[id].Job(), to, base + Rank(to), "").value;
    var s1 := s.Put(t, Moving(id, now, Some(base), Some(s.rows[id].Job())));
    assert Goes(s, t, EngineRead, s1);
    var s2 := s1.Write(id, next).Put(t, Moving(id, now, Some(base), None));
    assert Goes(s1, t, EngineWrite(to), s2);
    RunsTwo(s, t, EngineRead, s1, t, EngineWrite(to), s2);
    assert s2.threads == s.threads;
    tr := [(t, EngineRead), (t, EngineWrite(to))];
  }

  lemma LoadGoes(s: Machine, t: Tid, id: Id, now: int)
    requires s.At(t) == Moving(id, now, None, None) && id in s.rows
    ensures Goes(s, t, EngineLoad, s.Put(t, Moving(id, now, Some(s.rows[id].Job().updatedAt), None)))
  {
    hide FreeStep, ClaimStep, CancelStep;
  }

  lemma LetGoScene(s: Machine, t: Tid, id: Id, now: int, base: int) returns (tr: Trace, s': Machine)
    requires s.At(t) == Moving(id, now, Some(base), None)
    ensures Runs(s, tr, s') && s'.rows == s.rows
    ensures s'.d == s.d.(active := s.d.active - {id}) && s'.threads == s.threads[t := Free]
  {
    hide Runs, FreeStep, ClaimStep, CancelStep;
    var s1 := s.Put(t, Settling(id, false, 0));
    assert Goes(s, t, EngineEnd(Completed, ""), s1);
    s' := s1.With(s1.d.Settle(id, false, 0)).Put(t, Free);
    assert Goes(s1, t, WorkerSettle, s');
    RunsTwo(s, t, EngineEnd(Completed, ""), s1, t, WorkerSettle, s');
    tr := [(t, EngineEnd(Completed, "")), (t, WorkerSettle)];
  }

  lemma EndShape(s: Machine, u: Tid)
    requires s.At(u).CancelEnding?
    ensures var l := s.At(u);
            Step(s, u, CancelEnd)
            == Some((if l.wasRunnable && !l.cancelled then s.With(s.d.Restore(l.id)) else s).Put(u, Free))
  {
    hide FreeStep, WorkerStep, ClaimStep;
  }

  lemma ClaimShape(s: Machine, t: Tid, id: Id)
    requires s.At(t).Free? && s.d.running && id in s.d.requests && id !in s.d.active
    ensures Step(s, t, CancelClaim(id)) == Some(s.With(s.d.ClaimCancel(id).2).Put(t, Cancelling(id, id in s.d.runnable)))
  {
    hide WorkerStep, ClaimStep, CancelStep;
  }

  lemma RefusedShape(s: Machine, t: Tid, id: Id, was: bool)
    requires s.At(t) == Cancelling(id, was)
    ensures Step(s, t, CancelRead(false)) == Some(s.Put(t, CancelEnding(id, was, false)))
  {
    hide FreeStep, WorkerStep, ClaimStep;
  }

  lemma PauseShape(s: Machine, t: Tid, id: Id)
    requires s.At(t).Free? && s.d.Pause(id).0.Accepted?
    ensures Step(s, t, PauseJob(id)) == Some(s.With(s.d.Pause(id).1))
  {
    hide WorkerStep, ClaimStep, CancelStep;
  }

  lemma Then(s: Machine, tr: Trace, s1: Machine, t: Tid, a: Action, s2: Machine)
    requires Follow(s, tr) == Some(s1) && Step(s1, t, a) == Some(s2)
    ensures Follow(s, tr + [(t, a)]) == Some(s2)
  {
    hide Step;
    FollowConcat(s, tr, s1, [(t, a)]);
    assert [(t, a)][1..] == [];
    assert Follow(s2, []) == Some(s2);
  }

  lemma ResumeShape(s: Machine, t: Tid, id: Id)
    requires s.At(t).Free? && s.d.running && id in s.d.requests && id in s.d.paused
    ensures Step(s, t, ResumeJob(id)) == Some(s.With(s.d.(paused := s.d.paused - {id}, runnable := s.d.runnable + [id])))
  {
    hide WorkerStep, ClaimStep, CancelStep;
  }
}
