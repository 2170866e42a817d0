/** What other commands on a job do inside the window of a cancel, exactly, and the
    interleavings that show it. */
module CancelWindow {
  import opened Jobs
  import opened Sequences
  import opened Stores
  import opened Mover
  import opened Dispatching
  import opened Manager
  import opened ManagerProofs
  import opened ManagerRuns
  import opened ManagerBackoff
  import opened ManagerScenes

  // ---- The window of a cancel ---------------------------------------------------------------

  /** A pause, resume or cancel of the job. */
  predicate CommandOn(a: Action, id: Id) { (a.PauseJob? || a.ResumeJob? || a.CancelClaim?) && a.id == id }

  /** The store call of a cancel step goes through. */
  predicate WentThrough(a: Action) {
    (a.CancelRead? || a.CancelReload? || a.CancelWrite?) ==> a.ok
  }

  /** What a cancel has read is still so. */
  predicate StageOk(s: Machine, l: Local) {
    && (l.CancelTimed? ==> l.id in s.rows && s.rows[l.id].State().Queued?)
    && (l.CancelWriting? ==> l.id in s.rows && s.rows[l.id].Job() == l.version && l.version.state.Queued?)
  }

  /** Thread `u` is inside a cancel of the job, which nobody else holds and which is nowhere,
      except perhaps paused. */
  ghost predicate Window(s: Machine, u: Tid, id: Id) {
    && s.At(u).IsCancel() && s.At(u).id == id && id in s.rows && StageOk(s, s.At(u))
    && id in s.d.requests && id !in s.d.runnable && id !in s.d.waiting && id !in s.d.active && id !in s.d.pending
    && (forall t :: t in s.threads && t != u && !s.threads[t].Free? ==> s.threads[t].id != id)
  }

  lemma CancelIsWindow(s: Machine, u: Tid, id: Id)
    requires Inv(s) && s.At(u).IsCancel() && s.At(u).id == id
    ensures Window(s, u, id) && id !in s.d.paused
  {
    assert LocalOk(s, s.At(u));
    assert id in s.d.requests.Keys;
  }

  /** A step inside the window that is neither a command on the job nor the cancel's last. */
  predicate Inside(t: Tid, a: Action, u: Tid, id: Id) {
    !CommandOn(a, id) && !(t == u && a.CancelEnd?)
  }

  /** What a step of another thread leaves alone. */
  predicate LeavesAlone(s: Machine, u: Tid, id: Id, s': Machine)
    requires id in s.rows
  {
    && s'.At(u) == s.At(u) && id in s'.rows && s'.rows[id] == s.rows[id]
    && (id in s'.d.paused <==> id in s.d.paused)
  }

  lemma OtherFreeStep(s: Machine, t: Tid, a: Action, u: Tid, id: Id)
    requires Window(s, u, id) && t != u && s.At(t).Free? && FreeStep(s, t, a).Some? && !CommandOn(a, id)
    ensures Window(FreeStep(s, t, a).value, u, id) && LeavesAlone(s, u, id, FreeStep(s, t, a).value)
  {
    if a.PauseJob? || a.CancelClaim? {
      WithoutAddsNothing(s.d.runnable, a.id);
    }
    if a.WorkerTake? {
      assert s.d.runnable[0] in s.d.runnable;
    }
    if a.PumpDue? {
      assert id !in s.d.DueNow(a.now);
      assert id !in (set y | y in a.due);
    }
  }

  lemma OtherWorkerStep(s: Machine, t: Tid, a: Action, u: Tid, id: Id)
    requires Window(s, u, id) && t != u && s.At(t).IsWorker() && WorkerStep(s, t, s.At(t), a).Some?
    ensures Window(WorkerStep(s, t, s.At(t), a).value, u, id) && LeavesAlone(s, u, id, WorkerStep(s, t, s.At(t), a).value)
  {
    hide WorkerStep;
    assert s.At(t).id != id;
    WorkerStepShape(s, t, a);
    WorkerSparesRow(s, t, s.At(t), a, id);
  }

  lemma WorkerSparesRow(s: Machine, t: Tid, l: Local, a: Action, id: Id)
    requires l.IsWorker() && l.id != id && id in s.rows && WorkerStep(s, t, l, a).Some?
    ensures id in WorkerStep(s, t, l, a).value.rows && WorkerStep(s, t, l, a).value.rows[id] == s.rows[id]
  {}

  lemma OtherClaimStep(s: Machine, t: Tid, a: Action, u: Tid, id: Id)
    requires Window(s, u, id) && t != u && s.At(t).IsClaim() && ClaimStep(s, t, s.At(t), a).Some?
    ensures Window(ClaimStep(s, t, s.At(t), a).value, u, id) && LeavesAlone(s, u, id, ClaimStep(s, t, s.At(t), a).value)
  {
    assert s.At(t).id != id;
  }

  lemma OtherCancelStep(s: Machine, t: Tid, a: Action, u: Tid, id: Id)
    requires Window(s, u, id) && t != u && s.At(t).IsCancel() && CancelStep(s, t, s.At(t), a).Some?
    ensures Window(CancelStep(s, t, s.At(t), a).value, u, id) && LeavesAlone(s, u, id, CancelStep(s, t, s.At(t), a).value)
  {
    assert s.At(t).id != id;
  }

  lemma OtherStep(s: Machine, t: Tid, a: Action, u: Tid, id: Id)
    requires Window(s, u, id) && t != u && Step(s, t, a).Some? && !CommandOn(a, id)
    ensures Window(Step(s, t, a).value, u, id) && LeavesAlone(s, u, id, Step(s, t, a).value)
  {
    hide Window, LeavesAlone, FreeStep, WorkerStep, ClaimStep, CancelStep;
    if s.At(t).Free? {
      OtherFreeStep(s, t, a, u, id);
    } else if s.At(t).IsWorker() {
      OtherWorkerStep(s, t, a, u, id);
    } else if s.At(t).IsClaim() {
      OtherClaimStep(s, t, a, u, id);
    } else {
      OtherCancelStep(s, t, a, u, id);
    }
  }

  /** What one step of a cancel makes of its local state, and the version it writes, if any. */
  function Advance(s: Machine, l: Local, a: Action): (Local, Option<JobData>)
    requires l.IsCancel() && l.id in s.rows
  {
    var row := s.rows[l.id];
    match l
    case Cancelling(id, was) =>
      (if WentThrough(a) && row.State().Queued? then CancelTimed(id, was, row.Job().updatedAt + 1)
       else CancelEnding(id, was, false), None)
    case CancelTimed(id, was, tick) =>
      (if WentThrough(a) then CancelWriting(id, was, tick, row.Job()) else CancelEnding(id, was, false), None)
    case CancelWriting(id, was, tick, version) =>
      var next := Transitioned(version, Failed, tick, CANCELLED);
      (CancelEnding(id, was, WentThrough(a) && next.Some?), if WentThrough(a) then next else None)
    case _ => (l, None)
  }

  /** A cancel's step up to its last critical section touches its local state and its row, nothing else. */
  lemma CancelShape(s: Machine, u: Tid, a: Action)
    requires s.At(u).IsCancel() && s.At(u).id in s.rows && !a.CancelEnd? && Step(s, u, a).Some?
    ensures !s.At(u).CancelEnding?
    ensures var (l', write) := Advance(s, s.At(u), a);
            Step(s, u, a).value == (if write.Some? then s.Write(s.At(u).id, write.value) else s).Put(u, l')
  {
    hide FreeStep, WorkerStep, ClaimStep;
  }

  /** The cancel's own steps up to its last critical section. */
  lemma OwnStep(s: Machine, u: Tid, a: Action, id: Id)
    requires Window(s, u, id) && Step(s, u, a).Some? && !a.CancelEnd?
    ensures var s' := Step(s, u, a).value;
            && Window(s', u, id) && s'.d == s.d && s'.At(u).wasRunnable == s.At(u).wasRunnable
            && !s.At(u).CancelEnding?
            && (s'.At(u).CancelEnding? ==>
                  (s'.At(u).cancelled <==> s.At(u).CancelWriting? && WentThrough(a))
                  && (!s'.At(u).cancelled ==> !s.rows[id].State().Queued? || !WentThrough(a)))
            && (!s'.At(u).CancelEnding? ==> WentThrough(a) && s.rows[id].State().Queued? && s'.rows == s.rows)
  {
    hide Step, WentThrough;
    CancelShape(s, u, a);
  }

  /** The cancel will write FAILED: it has already, or the record is still QUEUED and every
      store call it makes along the trace goes through. */
  predicate GoesThrough(s: Machine, u: Tid, id: Id, tr: Trace) {
    if s.At(u).CancelEnding? then s.At(u).cancelled
    else id in s.rows && s.rows[id].State().Queued? && forall k :: 0 <= k < |tr| && tr[k].0 == u ==> WentThrough(tr[k].1)
  }

  predicate AllInside(tr: Trace, u: Tid, id: Id) {
    forall k :: 0 <= k < |tr| ==> Inside(tr[k].0, tr[k].1, u, id)
  }

  /** Whatever the other threads do meanwhile, short of commands on the job, the cancel comes
      out as its own store calls decide, and the job stays where it was. */
  lemma {:induction false} WindowRun(s: Machine, u: Tid, id: Id, tr: Trace, s': Machine)
    requires Window(s, u, id) && Follow(s, tr) == Some(s') && AllInside(tr, u, id)
    ensures Window(s', u, id) && s'.At(u).wasRunnable == s.At(u).wasRunnable
    ensures id in s'.d.paused <==> id in s.d.paused
    ensures s.At(u).CancelEnding? ==> forall k :: 0 <= k < |tr| ==> tr[k].0 != u
    ensures s'.At(u).CancelEnding? ==> (s'.At(u).cancelled <==> GoesThrough(s, u, id, tr))
    decreases |tr|
  {
    hide Step, Window, WentThrough;
    if tr == [] {
      InWindow(s, u, id);
    } else {
      var (t, a) := tr[0];
      var s1 := Step(s, t, a).value;
      InWindow(s, u, id);
      if t == u {
        OwnStep(s, u, a, id);
      } else {
        OtherStep(s, t, a, u, id);
      }
      InWindow(s1, u, id);
      WindowRun(s1, u, id, tr[1..], s');
      assert forall k :: 0 < k < |tr| ==> tr[k] == tr[1..][k - 1];
      assert (forall k :: 0 <= k < |tr| && tr[k].0 == u ==> WentThrough(tr[k].1)) <==>
             ((t == u ==> WentThrough(a)) && forall k :: 0 <= k < |tr[1..]| && tr[1..][k].0 == u ==> WentThrough(tr[1..][k].1));
    }
  }

  lemma InWindow(s: Machine, u: Tid, id: Id)
    requires Window(s, u, id)
    ensures s.At(u).IsCancel() && id in s.rows
    ensures s.At(u).CancelTimed? || s.At(u).CancelWriting? ==> s.rows[id].State().Queued?
  {}

  /** A pause inside a cancel of the same job, with the other threads going on as they like: at
      the end of the cancel the job is in two places at once if and only if it was queued and
      the cancel does not go through. */
  lemma PauseDoublesExactly(s: Machine, t: Tid, u: Tid, id: Id, s1: Machine, tr: Trace, s2: Machine, s3: Machine)
    requires Inv(s) && s.At(u).IsCancel() && s.At(u).id == id
    requires s.At(t).Free? && s.d.Pause(id).0.Accepted? && Step(s, t, PauseJob(id)) == Some(s1)
    requires Follow(s1, tr) == Some(s2) && AllInside(tr, u, id)
    requires s2.At(u).CancelEnding? && Step(s2, u, CancelEnd) == Some(s3)
    ensures Places(s3.d, id) == if s.At(u).wasRunnable && !GoesThrough(s, u, id, tr) then 2 else 1
  {
    hide Step, Inv, Follow;
    PauseShape(s, t, id);
    CancelIsWindow(s, u, id);
    WithoutAddsNothing(s.d.runnable, id);
    assert Window(s1, u, id);
    WindowRun(s1, u, id, tr, s2);
    RestoreCounts(s2, u);
  }

  lemma RestoreCounts(s: Machine, u: Tid)
    requires s.At(u).CancelEnding?
    ensures var (l, s') := (s.At(u), Step(s, u, CancelEnd).value);
            Places(s'.d, l.id) == Places(s.d, l.id) + if l.wasRunnable && !l.cancelled then 1 else 0
  {
    hide FreeStep, WorkerStep, ClaimStep;
  }

  // ---- A second cancel -------------------------------------------------------------------------

  /** The steps of one thread. */
  function Own(u: Tid, acts: seq<Action>): Trace { seq(|acts|, i requires 0 <= i < |acts| => (u, acts[i])) }

  /** A cancel's store steps do not look at the other threads. */
  lemma CancelCommutes(s: Machine, t: Tid, l: Local, u: Tid, a: Action)
    requires t != u && s.At(u).IsCancel() && s.At(u).id in s.rows && !a.CancelEnd? && Step(s.Put(t, l), u, a).Some?
    ensures Step(s, u, a).Some? && Step(s.Put(t, l), u, a).value == Step(s, u, a).value.Put(t, l)
    ensures Step(s, u, a).value.At(u).IsCancel() && Step(s, u, a).value.At(t) == s.At(t)
  {
    StillEnabled(s, t, l, u, a);
    hide Step, Advance;
    CancelShape(s, u, a);
    CancelShape(s.Put(t, l), u, a);
    AdvanceFits(s, s.Put(t, l), s.At(u), a);
    var (l', write) := Advance(s, s.At(u), a);
    assert s.threads[t := l][u := l'] == s.threads[u := l'][t := l];
  }

  lemma AdvanceFits(s: Machine, s1: Machine, l: Local, a: Action)
    requires l.IsCancel() && l.id in s.rows && s1.rows == s.rows
    ensures Advance(s1, l, a) == Advance(s, l, a) && Advance(s, l, a).0.IsCancel()
  {}

  lemma StillEnabled(s: Machine, t: Tid, l: Local, u: Tid, a: Action)
    requires t != u && s.At(u).IsCancel() && Step(s.Put(t, l), u, a).Some?
    ensures Step(s, u, a).Some?
  {
    hide FreeStep, WorkerStep, ClaimStep;
  }

  lemma {:induction false} CancelRunCommutes(s: Machine, t: Tid, l: Local, u: Tid, acts: seq<Action>, s': Machine) returns (m: Machine)
    requires Inv(s) && t != u && s.At(u).IsCancel() && CancelEnd !in acts && Follow(s.Put(t, l), Own(u, acts)) == Some(s')
    ensures Follow(s, Own(u, acts)) == Some(m) && s' == m.Put(t, l) && Inv(m) && m.At(t) == s.At(t)
    decreases |acts|
  {
    hide Step, Inv;
    if acts == [] {
      return s;
    }
    var a := acts[0];
    assert Own(u, acts)[0] == (u, a) && Own(u, acts)[1..] == Own(u, acts[1..]);
    CancelKnown(s, u);
    CancelCommutes(s, t, l, u, a);
    CancelIsNoCommand(s, u, a);
    StepKeeps(s, u, a);
    m := CancelRunCommutes(Step(s, u, a).value, t, l, u, acts[1..], s');
  }

  lemma CancelKnown(s: Machine, u: Tid)
    requires Inv(s) && s.At(u).IsCancel()
    ensures s.At(u).id in s.rows
  {
    assert LocalOk(s, s.At(u));
    assert s.At(u).id in s.d.requests.Keys;
  }

  lemma CancelIsNoCommand(s: Machine, u: Tid, a: Action)
    requires s.At(u).IsCancel() && Step(s, u, a).Some?
    ensures Disciplined(s, a) && (forall id :: !CommandOn(a, id))
  {
    hide FreeStep, WorkerStep, ClaimStep;
  }

  lemma {:induction false} OwnIsInside(s: Machine, u: Tid, acts: seq<Action>, s': Machine, id: Id)
    requires s.At(u).IsCancel() && CancelEnd !in acts && Follow(s, Own(u, acts)) == Some(s')
    ensures AllInside(Own(u, acts), u, id)
    decreases |acts|
  {
    hide Step;
    if acts != [] {
      var a := acts[0];
      assert Own(u, acts)[0] == (u, a) && Own(u, acts)[1..] == Own(u, acts[1..]);
      CancelIsNoCommand(s, u, a);
      StaysCancel(s, u, a);
      OwnIsInside(Step(s, u, a).value, u, acts[1..], s', id);
      forall k | 0 <= k < |acts|
        ensures Inside(Own(u, acts)[k].0, Own(u, acts)[k].1, u, id)
      {
        if k > 0 {
          assert Own(u, acts)[k] == Own(u, acts[1..])[k - 1];
        }
      }
    }
  }

  lemma StaysCancel(s: Machine, u: Tid, a: Action)
    requires s.At(u).IsCancel() && !a.CancelEnd? && Step(s, u, a).Some?
    ensures Step(s, u, a).value.At(u).IsCancel()
  {
    hide FreeStep, WorkerStep, ClaimStep;
  }

  /** A second cancel inside the window, wherever the first has got to, is accepted and finds
      nothing to take out. The job is never doubled; but when the first was of a queued job and
      does not go through, it puts the job back while the second still holds it, and then and
      only then the invariant is gone. */
  lemma SecondCancelExactly(s: Machine, t: Tid, u: Tid, id: Id, s1: Machine, acts: seq<Action>, s2: Machine, s3: Machine)
    requires Inv(s) && s.At(t).Free? && s.At(u).IsCancel() && s.At(u).id == id && s.d.running
    requires Step(s, t, CancelClaim(id)) == Some(s1)
    requires CancelEnd !in acts && Follow(s1, Own(u, acts)) == Some(s2)
    requires s2.At(u).CancelEnding? && Step(s2, u, CancelEnd) == Some(s3)
    ensures s1.At(t) == Cancelling(id, false) && s3.At(t) == Cancelling(id, false)
    ensures var back := s.At(u).wasRunnable && !GoesThrough(s, u, id, Own(u, acts));
            && Places(s3.d, id) == (if back then 1 else 0)
            && (id in s3.d.runnable <==> back)
            && (Inv(s3) <==> !back)
  {
    hide Step, Inv, GoesThrough;
    CancelIsWindow(s, u, id);
    OutInWindow(s, u, id);
    var _ := SecondClaim(s, t, id);
    var m := CancelRunCommutes(s, t, Cancelling(id, false), u, acts, s2);
    OwnIsInside(s, u, acts, m, id);
    WindowRun(s, u, id, Own(u, acts), m);
    SecondAtTheEnd(m, t, u, id, s2, s3);
  }

  lemma OutInWindow(s: Machine, u: Tid, id: Id)
    requires Window(s, u, id) && id !in s.d.paused
    ensures OutOfDispatch(s.d, id)
  {}

  lemma SecondAtTheEnd(s: Machine, t: Tid, u: Tid, id: Id, s1: Machine, s2: Machine)
    requires Inv(s) && s.At(t).Free? && s.At(u).CancelEnding? && s.At(u).id == id
    requires s1 == s.Put(t, Cancelling(id, false)) && Step(s1, u, CancelEnd) == Some(s2)
    ensures s2.At(t) == Cancelling(id, false)
    ensures var back := s.At(u).wasRunnable && !s.At(u).cancelled;
            && Places(s2.d, id) == (if back then 1 else 0)
            && (id in s2.d.runnable <==> back)
            && (Inv(s2) <==> !back)
  {
    hide Exclusive, Bounded, OneOwner, Step;
    var l := s.At(u);
    assert LocalOk(s, l);
    assert s1.At(u) == l;
    EndShape(s1, u);
    RestoreCounts(s1, u);
    NowherePlaces(s, id);
    if l.wasRunnable && !l.cancelled {
      assert id in s2.d.runnable;
      assert !LocalOk(s2, s2.threads[t]);
    } else {
      SecondKeeps(s, t, u, s2);
    }
  }

  lemma SecondClaim(s: Machine, t: Tid, id: Id) returns (s1: Machine)
    requires s.At(t).Free? && s.d.running && OutOfDispatch(s.d, id)
    ensures Step(s, t, CancelClaim(id)) == Some(s1) && s1 == s.Put(t, Cancelling(id, false))
  {
    hide WorkerStep, ClaimStep, CancelStep;
    WithoutAbsent(s.d.runnable, id);
    assert s.d.waiting - {id} == s.d.waiting && s.d.paused - {id} == s.d.paused;
    s1 := s.Put(t, Cancelling(id, false));
  }

  lemma NowherePlaces(s: Machine, id: Id)
    requires Exclusive(s.d) && OutOfDispatch(s.d, id)
    ensures Places(s.d, id) == 0
  {
    assert id in s.d.requests.Keys;
    CountedOnce(s.d.runnable, id);
  }

  lemma SecondKeeps(s: Machine, t: Tid, u: Tid, s2: Machine)
    requires Inv(s) && s.At(t).Free? && s.At(u).CancelEnding?
    requires s2 == s.Put(t, Cancelling(s.At(u).id, false)).Put(u, Free)
    ensures Inv(s2)
  {
    hide Exclusive;
    assert LocalOk(s, s.At(u));
    forall v | v in s2.threads
      ensures LocalOk(s2, s2.threads[v])
    {
      if v != t && v != u {
        assert LocalOk(s, s.threads[v]);
      }
    }
  }

  // ---- What an overlap does -------------------------------------------------------------------

  /** The job alone in the queue and a cancel of it that is refused, with `mid` in between. */
  lemma RefusedAround(s: Machine, id: Id, mid: Trace, m: Machine) returns (tr: Trace, s': Machine)
    requires s.At(1).Free? && s.d.running && s.d.runnable == [id] && id in s.d.requests && id !in s.d.active
    requires Follow(s.With(s.d.ClaimCancel(id).2).Put(1, Cancelling(id, true)), mid) == Some(m)
    requires m.At(1) == Cancelling(id, true)
    ensures Follow(s, tr) == Some(s') && s' == m.With(m.d.Restore(id)).Put(1, Free)
  {
    hide Step;
    var s1 := s.With(s.d.ClaimCancel(id).2).Put(1, Cancelling(id, true));
    ClaimShape(s, 1, id);
    assert Follow(s, []) == Some(s);
    Then(s, [], s, 1, CancelClaim(id), s1);
    FollowConcat(s, [] + [(1, CancelClaim(id))], s1, mid);
    var tr1 := [] + [(1, CancelClaim(id))] + mid;
    var m1 := m.Put(1, CancelEnding(id, true, false));
    RefusedShape(m, 1, id, true);
    Then(s, tr1, m, 1, CancelRead(false), m1);
    EndShape(m1, 1);
    s' := m.With(m.d.Restore(id)).Put(1, Free);
    assert m1.threads[1 := Free] == m.threads[1 := Free];
    Then(s, tr1 + [(1, CancelRead(false))], m1, 1, CancelEnd, s');
    tr := tr1 + [(1, CancelRead(false))] + [(1, CancelEnd)];
  }

  /** A pause inside the window of a cancel that is then refused, and a resume: two workers run the job at once. */
  lemma OverlapRunsTwice(s: Machine, id: Id, req: Request, now: int) returns (tr: Trace, s': Machine)
    requires Started(s) && id !in s.rows
    ensures Follow(s, tr) == Some(s') && s'.At(3) == s'.At(4) == Moving(id, now, None, None)
  {
    hide Step, Runs, Recorded;
    var f := Fresh(s, id, req, now);
    var a := SubmitScene(s, id, req, now);
    RunsFollow(s, a, f);
    var f1 := f.With(f.d.ClaimCancel(id).2).Put(1, Cancelling(id, true));
    assert Without([id], id) == [];
    var f2 := f1.With(f1.d.Pause(id).1);
    PauseShape(f1, 2, id);
    assert Follow(f1, []) == Some(f1);
    Then(f1, [], f1, 2, PauseJob(id), f2);
    var b, f3 := RefusedAround(f, id, [] + [(2, PauseJob(id))], f2);
    FollowConcat(s, a, f, b);
    var c, f4 := BothTake(f3, id, now);
    FollowConcat(s, a + b, f3, c);
    tr, s' := a + b + c, f4;
  }

  lemma BothTake(s: Machine, id: Id, now: int) returns (tr: Trace, s': Machine)
    requires s.d.running && s.d.runnable == [id] && id in s.d.requests && id in s.d.paused
    requires s.At(2).Free? && s.At(3).Free? && s.At(4).Free?
    ensures Follow(s, tr) == Some(s') && s'.At(3) == s'.At(4) == Moving(id, now, None, None)
  {
    hide Step, Disciplined;
    var s1 := s.With(s.d.(paused := s.d.paused - {id}, runnable := s.d.runnable + [id]));
    ResumeShape(s, 2, id);
    assert Follow(s, []) == Some(s);
    Then(s, [], s, 2, ResumeJob(id), s1);
    var s2 := s1.With(s1.d.(runnable := s1.d.runnable[1..], active := s1.d.active + {id})).Put(3, Moving(id, now, None, None));
    TakeGoes(s1, 3, id, now);
    Then(s, [] + [(2, ResumeJob(id))], s1, 3, WorkerTake(now), s2);
    s' := s2.With(s2.d.(runnable := s2.d.runnable[1..], active := s2.d.active + {id})).Put(4, Moving(id, now, None, None));
    TakeGoes(s2, 4, id, now);
    tr := [] + [(2, ResumeJob(id))] + [(3, WorkerTake(now))] + [(4, WorkerTake(now))];
    Then(s, [] + [(2, ResumeJob(id))] + [(3, WorkerTake(now))], s2, 4, WorkerTake(now), s');
  }

  /** Two cancels of one queued job, the first refused: the job is back in the queue while
      the second still holds it. */
  lemma TwoCancels(s: Machine, id: Id, req: Request, now: int) returns (tr: Trace, s': Machine)
    requires Started(s) && id !in s.rows
    ensures Follow(s, tr) == Some(s') && s'.d.runnable == [id] && s'.At(2) == Cancelling(id, false) && s'.At(3).Free?
    ensures id in s'.rows && s'.rows[id] == FirstRow(id, req, now)
  {
    hide Step, Runs, Recorded;
    var f := Fresh(s, id, req, now);
    var a := SubmitScene(s, id, req, now);
    RunsFollow(s, a, f);
    var f1 := f.With(f.d.ClaimCancel(id).2).Put(1, Cancelling(id, true));
    assert Without([id], id) == [];
    var f2 := SecondClaim(f1, 2, id);
    assert Follow(f1, []) == Some(f1);
    Then(f1, [], f1, 2, CancelClaim(id), f2);
    var b;
    b, s' := RefusedAround(f, id, [] + [(2, CancelClaim(id))], f2);
    FollowConcat(s, a, f, b);
    tr := a + b;
  }

  /** A second cancel inside the window, a worker that takes the job in between, and the
      second cancel's write under the worker's feet: FAILED is overwritten by RENAMING. */
  lemma SecondCancelOverwrites(s: Machine, id: Id, req: Request, now: int) returns (tr: Trace, s': Machine)
    requires Started(s) && id !in s.rows
    ensures Follow(s, tr) == Some(s') && id in s'.rows
    ensures var h := s'.rows[id].History();
            |h| == 3 && h[1].state.Failed? && h[2].state.Renaming? && !LegalHistory(h)
  {
    hide Step, Recorded, Follow;
    var a, f1 := TwoCancels(s, id, req, now);
    var b, f2 := WorkerReads(f1, id, now);
    FollowConcat(s, a, f1, b);
    var c, f3 := CancelWrites(f2, id);
    FollowConcat(s, a + b, f2, c);
    s' := f3.Write(id, Transitioned(Intent(id, req, now), Renaming, now + 1, "").value).Put(3, Moving(id, now, Some(now), None));
    StaleWrite(f3, id, req, now);
    Then(s, a + b + c, f3, 3, EngineWrite(Renaming), s');
    tr := a + b + c + [(3, EngineWrite(Renaming))];
    assert f3.rows[id].History() == [Intent(id, req, now), f3.rows[id].Job()];
    var h := s'.rows[id].History();
    assert h == [Intent(id, req, now), f3.rows[id].Job(), s'.rows[id].Job()];
    NotLegal(h);
  }

  lemma NotLegal(h: seq<JobData>)
    requires |h| == 3 && h[1].state.Failed?
    ensures !LegalHistory(h)
  {
    assert !IsLegalTransition(h[2 - 1].state, h[2].state);
  }

  lemma WorkerReads(s: Machine, id: Id, now: int) returns (tr: Trace, s': Machine)
    requires s.At(3).Free? && s.d.runnable == [id] && id in s.rows
    ensures Follow(s, tr) == Some(s') && s'.rows == s.rows && s'.At(2) == s.At(2)
    ensures s'.At(3) == Moving(id, now, Some(s.rows[id].Job().updatedAt), Some(s.rows[id].Job()))
  {
    hide Disciplined;
    var s1 := s.With(s.d.(runnable := s.d.runnable[1..], active := s.d.active + {id})).Put(3, Moving(id, now, None, None));
    TakeGoes(s, 3, id, now);
    var job := s.rows[id].Job();
    var s2 := s1.Put(3, Moving(id, now, Some(job.updatedAt), None));
    s' := s2.Put(3, Moving(id, now, Some(job.updatedAt), Some(job)));
    assert Step(s1, 3, EngineLoad) == Some(s2) && Step(s2, 3, EngineRead) == Some(s') by {
      hide FreeStep, ClaimStep, CancelStep;
    }
    hide Step;
    assert Follow(s, []) == Some(s);
    Then(s, [], s, 3, WorkerTake(now), s1);
    Then(s, [] + [(3, WorkerTake(now))], s1, 3, EngineLoad, s2);
    Then(s, [] + [(3, WorkerTake(now))] + [(3, EngineLoad)], s2, 3, EngineRead, s');
    tr := [] + [(3, WorkerTake(now))] + [(3, EngineLoad)] + [(3, EngineRead)];
  }

  lemma CancelWrites(s: Machine, id: Id) returns (tr: Trace, s': Machine)
    requires s.At(2) == Cancelling(id, false) && id in s.rows && s.rows[id].State().Queued?
    ensures Follow(s, tr) == Some(s') && s'.At(3) == s.At(3)
    ensures var job := s.rows[id].Job();
            s'.rows == s.Write(id, Transitioned(job, Failed, job.updatedAt + 1, CANCELLED).value).rows
  {
    hide Step, Follow;
    var job := s.rows[id].Job();
    var tick := job.updatedAt + 1;
    var s1 := s.Put(2, CancelTimed(id, false, tick));
    var s2 := s1.Put(2, CancelWriting(id, false, tick, job));
    s' := s2.Write(id, Transitioned(job, Failed, tick, CANCELLED).value).Put(2, CancelEnding(id, false, true));
    CancelReads(s, id, job, tick);
    CancelWriteShape(s2, id, job, tick);
    Then(s, [(2, CancelRead(true)), (2, CancelReload(true))], s2, 2, CancelWrite(true), s');
    tr := [(2, CancelRead(true)), (2, CancelReload(true))] + [(2, CancelWrite(true))];
  }

  lemma CancelReads(s: Machine, id: Id, job: JobData, tick: int)
    requires s.At(2) == Cancelling(id, false) && id in s.rows && s.rows[id].Job() == job
    requires job.state.Queued? && tick == job.updatedAt + 1
    ensures Follow(s, [(2, CancelRead(true)), (2, CancelReload(true))])
            == Some(s.Put(2, CancelTimed(id, false, tick)).Put(2, CancelWriting(id, false, tick, job)))
  {
    hide FreeStep, WorkerStep, ClaimStep, Runs;
    var s1 := s.Put(2, CancelTimed(id, false, tick));
    var s2 := s1.Put(2, CancelWriting(id, false, tick, job));
    assert Goes(s, 2, CancelRead(true), s1);
    assert Goes(s1, 2, CancelReload(true), s2);
    RunsTwo(s, 2, CancelRead(true), s1, 2, CancelReload(true), s2);
    RunsFollow(s, [(2, CancelRead(true)), (2, CancelReload(true))], s2);
  }

  lemma CancelWriteShape(s: Machine, id: Id, job: JobData, tick: int)
    requires s.At(2) == CancelWriting(id, false, tick, job) && id in s.rows && job.state.Queued?
    ensures Step(s, 2, CancelWrite(true))
            == Some(s.Write(id, Transitioned(job, Failed, tick, CANCELLED).value).Put(2, CancelEnding(id, false, true)))
  {
    hide FreeStep, WorkerStep, ClaimStep;
  }

  lemma StaleWrite(s: Machine, id: Id, req: Request, now: int)
    requires s.At(3) == Moving(id, now, Some(now), Some(Intent(id, req, now))) && id in s.rows
    ensures Step(s, 3, EngineWrite(Renaming))
            == Some(s.Write(id, Transitioned(Intent(id, req, now), Renaming, now + 1, "").value)
                     .Put(3, Moving(id, now, Some(now), None)))
  {
    hide FreeStep, ClaimStep, CancelStep;
  }
}
