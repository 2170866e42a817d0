/** The manager and the disk together. One job is followed through the whole machine:
    its workers' engine calls act on the real disk and table, with every fault, while all
    other threads interleave as before. Every run, seen from that job, is a life. */
module Together {
  import opened Jobs
  import opened Faults
  import opened Stores
  import opened FileOps
  import opened Mover
  import opened MoverRuns
  import opened Lifetime
  import opened Dispatching
  import opened Manager
  import opened ManagerProofs
  import opened ManagerRuns
  import opened ManagerRows
  import opened ManagerBackoff
  import P = MoverProofs

  datatype Joint = Joint(s: Machine, files: Files)

  /** What a job can see: the disk, and its own row. */
  function View(m: P.Move, j: Joint): World
    requires m.id in j.s.rows
  {
    World(j.files.(faults := []), Store(map[m.id := j.s.rows[m.id].rec], []))
  }

  predicate InEngine(m: P.Move, s: Machine, t: Tid) { s.At(t).Moving? && s.At(t).id == m.id }

  function SetRecord(s: Machine, id: Id, rec: Record): Machine
    requires id in s.rows
  {
    s.(rows := s.rows[id := s.rows[id].(rec := rec)])
  }

  /** A step of the manager. Where a worker is in the engine with the followed job, the step
      is the whole call `c`, on the disk and the job's row, and the worker gets its outcome. */
  function JStep(m: P.Move, j: Joint, t: Tid, a: Action, c: Call): Option<Joint> {
    if InEngine(m, j.s, t) then
      if a.EngineEnd? && m.id in j.s.rows && !c.recover then
        var (e, w) := Apply(m, View(m, j), c);
        if e == Returned(a.outcome) && m.id in w.store.rows
        then
          match Step(SetRecord(j.s, m.id, w.store.rows[m.id]), t, a)
          case None => None
          case Some(s') => Some(Joint(s', w.files))
        else None
      else None
    else
      match Step(j.s, t, a)
      case None => None
      case Some(s') => Some(Joint(s', j.files))
  }

  type JTrace = seq<(Tid, Action, Call)>

  ghost predicate JRuns(m: P.Move, j: Joint, tr: JTrace, j': Joint)
    decreases |tr|
  {
    if tr == [] then j' == j
    else
      var (t, a, c) := tr[0];
      && Disciplined(j.s, a) && JStep(m, j, t, a, c).Some?
      && JRuns(m, JStep(m, j, t, a, c).value, tr[1..], j')
  }

  /** The manager's invariant; the job is known; its workers are in the engine or past it. */
  ghost predicate JInv(m: P.Move, j: Joint) {
    && Inv(j.s) && m.id in j.s.d.requests && m.id in j.s.rows
    && (forall t :: t in j.s.threads && InEngine(m, j.s, t) ==> j.s.threads[t].base.None? && j.s.threads[t].seen.None?)
  }

  // ---- Keeping the manager's invariant ------------------------------------------------------

  lemma CallKeeps(m: P.Move, s: Machine, t: Tid, rec: Record, a: Action)
    requires Inv(s) && InEngine(m, s, t) && m.id in s.rows && a.EngineEnd?
    ensures var s1 := SetRecord(s, m.id, rec);
            var l := if a.outcome.AbortedBeforeCommit? then Aborted(m.id, s.At(t).now, a.error)
                     else if a.outcome.Rejected? then Condemning(m.id, a.error)
                     else Settling(m.id, false, 0);
            Step(s1, t, a) == Some(s1.Put(t, l)) && Inv(s1.Put(t, l))
  {
    hide Exclusive, OneOwner, FreeStep, ClaimStep, CancelStep;
    var s1 := SetRecord(s, m.id, rec);
    var s' := Step(s1, t, a).value;
    assert LocalOk(s, s.At(t));
    assert s1.At(t) == s.At(t);
    assert LocalOk(s', s'.At(t));
    RowStepKeeps(s, t, s');
  }

  lemma JobStaysKnown(s: Machine, t: Tid, a: Action, id: Id)
    requires Inv(s) && Step(s, t, a).Some? && id in s.d.requests && id in s.rows
    ensures id in Step(s, t, a).value.d.requests && id in Step(s, t, a).value.rows
  {
    hide Inv, FreeStep, WorkerStep, ClaimStep, CancelStep;
    RowWritesAreLegal(s, t, a, id);
    if s.At(t).Free? {
      KnownStaysFree(s, t, a, id);
    } else {
      KnownStaysBusy(s, t, a, id);
    }
  }

  lemma KnownStaysFree(s: Machine, t: Tid, a: Action, id: Id)
    requires id in s.d.requests
    ensures FreeStep(s, t, a).Some? ==> id in FreeStep(s, t, a).value.d.requests
  {}

  lemma KnownStaysBusy(s: Machine, t: Tid, a: Action, id: Id)
    requires id in s.d.requests && !s.At(t).Free? && Step(s, t, a).Some?
    ensures id in Step(s, t, a).value.d.requests
  {
    hide FreeStep, WorkerStep, ClaimStep, CancelStep;
    if s.At(t).IsWorker() {
      WorkerStepShape(s, t, a);
    } else {
      KnownStaysCommand(s, t, s.At(t), a, id);
    }
  }

  lemma KnownStaysCommand(s: Machine, t: Tid, l: Local, a: Action, id: Id)
    requires id in s.d.requests
    ensures l.IsClaim() && ClaimStep(s, t, l, a).Some? ==> id in ClaimStep(s, t, l, a).value.d.requests
    ensures l.IsCancel() && CancelStep(s, t, l, a).Some? ==> id in CancelStep(s, t, l, a).value.d.requests
  {}

  /** Outside the engine, a thread that comes to be in it with the job has just taken it. */
  lemma EntersFresh(s: Machine, t: Tid, a: Action, id: Id)
    requires Step(s, t, a).Some? && !(s.At(t).Moving? && s.At(t).id == id)
    ensures var l := Step(s, t, a).value.At(t);
            l.Moving? && l.id == id ==> l.base.None? && l.seen.None?
    ensures forall u :: u != t ==> Step(s, t, a).value.At(u) == s.At(u)
  {
    hide FreeStep, WorkerStep, ClaimStep, CancelStep;
    if s.At(t).Free? {
      FreeEnters(s, t, a);
    } else if s.At(t).IsWorker() {
      WorkerEnters(s, t, a);
    } else if s.At(t).IsClaim() {
      ClaimEnters(s, t, a);
    } else {
      CancelEnters(s, t, a);
    }
  }

  lemma FreeEnters(s: Machine, t: Tid, a: Action)
    ensures FreeStep(s, t, a).Some? ==>
              var s' := FreeStep(s, t, a).value;
              && (s'.At(t).Moving? ==> s'.At(t) == s.At(t) || (s'.At(t).base.None? && s'.At(t).seen.None?))
              && forall u :: u != t ==> s'.At(u) == s.At(u)
  {}

  lemma LeavesEngine(s: Machine, t: Tid, a: Action)
    requires s.At(t).IsWorker() && !s.At(t).Moving? && WorkerStep(s, t, s.At(t), a).Some?
    ensures !WorkerStep(s, t, s.At(t), a).value.At(t).Moving?
  {}

  lemma WorkerEnters(s: Machine, t: Tid, a: Action)
    requires s.At(t).IsWorker() && WorkerStep(s, t, s.At(t), a).Some?
    ensures var s' := WorkerStep(s, t, s.At(t), a).value;
            (s'.At(t).Moving? ==> s.At(t).Moving? && s'.At(t).id == s.At(t).id) && forall u :: u != t ==> s'.At(u) == s.At(u)
  {
    hide WorkerStep;
    WorkerStepShape(s, t, a);
    if !s.At(t).Moving? {
      LeavesEngine(s, t, a);
    }
  }

  lemma ClaimEnters(s: Machine, t: Tid, a: Action)
    requires s.At(t).IsClaim() && ClaimStep(s, t, s.At(t), a).Some?
    ensures var s' := ClaimStep(s, t, s.At(t), a).value;
            !s'.At(t).Moving? && forall u :: u != t ==> s'.At(u) == s.At(u)
  {}

  lemma CancelEnters(s: Machine, t: Tid, a: Action)
    requires s.At(t).IsCancel() && CancelStep(s, t, s.At(t), a).Some?
    ensures var s' := CancelStep(s, t, s.At(t), a).value;
            !s'.At(t).Moving? && forall u :: u != t ==> s'.At(u) == s.At(u)
  {}

  lemma JStepKeeps(m: P.Move, j: Joint, t: Tid, a: Action, c: Call)
    requires JInv(m, j) && Disciplined(j.s, a) && JStep(m, j, t, a, c).Some?
    ensures JInv(m, JStep(m, j, t, a, c).value)
  {
    hide Step, Inv, Apply, Disciplined;
    var j' := JStep(m, j, t, a, c).value;
    if InEngine(m, j.s, t) {
      CallKeeps(m, j.s, t, Apply(m, View(m, j), c).1.store.rows[m.id], a);
    } else {
      StepKeeps(j.s, t, a);
      JobStaysKnown(j.s, t, a, m.id);
      EntersFresh(j.s, t, a, m.id);
      forall u | u in j'.s.threads && InEngine(m, j'.s, u)
        ensures j'.s.threads[u].base.None? && j'.s.threads[u].seen.None?
      {
        if u != t {
          assert j'.s.At(u) == j.s.At(u);
        }
      }
    }
  }
}
