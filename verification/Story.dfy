/** Every run of the manager and the disk together, seen from one job, is one of its lives;
    so whatever holds of every life holds in the program. */
module Story {
  import opened Jobs
  import opened Faults
  import opened Stores
  import opened FileOps
  import opened Mover
  import opened MoverRuns
  import opened Lifetime
  import opened Dispatching
  import opened Manager
  import opened ManagerProofs
  import opened ManagerRuns
  import opened ManagerRows
  import opened ManagerBackoff
  import opened Together
  import P = MoverProofs
  import C = Convergence

  // ---- Lives, one happening at a time --------------------------------------------------------

  lemma {:induction false} LifeSnoc(m: P.Move, w: World, hs: seq<Happening>, h: Happening)
    ensures Life(m, w, hs + [h]) == Happen(m, Life(m, w, hs), h)
    decreases |hs|
  {
    hide Happen;
    if hs == [] {
      assert hs + [h] == [h] && [h][1..] == [];
      assert Life(m, Happen(m, w, h), []) == Happen(m, w, h);
    } else {
      assert (hs + [h])[1..] == hs[1..] + [h];
      LifeSnoc(m, Happen(m, w, hs[0]), hs[1..], h);
    }
  }

  /** What happens depends on the disk and the table alone, not on old faults. */
  lemma SameApply(m: P.Move, w: World, v: World, c: Call)
    requires P.SameDurable(w, v)
    ensures Apply(m, w, c) == Apply(m, v, c)
  {
    hide Execute, Recover;
    assert Armed(w, c) == Armed(v, c);
  }

  function Last(hs: seq<Happening>): Happening requires hs != [] { hs[|hs| - 1] }
  function Before(hs: seq<Happening>): seq<Happening> requires hs != [] { hs[..|hs| - 1] }

  /** How the last dispatch of the story ended. */
  function LastEnd(m: P.Move, w: World, hs: seq<Happening>): End
    requires hs != [] && Last(hs).Dispatched?
  {
    Apply(m, Life(m, w, Before(hs)), Attempt(Last(hs))).0
  }

  /** The story accounts for where a thread is with the job: a worker that has seen its execute
      abort, or is about to give the job up and has not written yet. */
  predicate Told(m: P.Move, w: World, hs: seq<Happening>, l: Local) {
    && (l.Aborted? ==>
          hs != [] && Last(hs).Dispatched? && !Last(hs).ceiling && LastEnd(m, w, hs) == Returned(AbortedBeforeCommit))
    && (l.IsCondemning() ==>
          && hs != [] && Last(hs).Dispatched? && Last(hs).reason == l.reason && Last(hs).after == [Crash]
          && Ends(LastEnd(m, w, hs), Last(hs).ceiling))
  }

  /** The story `hs`, begun in `w`, has led to where the job is now. */
  ghost predicate Tells(m: P.Move, w: World, hs: seq<Happening>, j: Joint) {
    && m.id in j.s.rows && P.SameDurable(Life(m, w, hs), View(m, j))
    && (forall t :: t in j.s.threads && !j.s.threads[t].Free? && j.s.threads[t].id == m.id ==> Told(m, w, hs, j.s.threads[t]))
  }

  // ---- One step ------------------------------------------------------------------------------------

  /** A worker that crashes at the first access of giving up has given nothing up. */
  lemma CrashedGiveUp(w: World, id: string, reason: string)
    ensures P.SameDurable(w, GiveUp(Rearmed(w, [Crash]), id, reason))
  {}

  /** The engine call: one more dispatch, its follow-up still to come. */
  lemma CallTold(m: P.Move, w: World, hs: seq<Happening>, v: World, c: Call, a: Action) returns (hs': seq<Happening>)
    requires P.SameDurable(Life(m, w, hs), v) && !c.recover && a.EngineEnd? && Apply(m, v, c).0 == Returned(a.outcome)
    ensures P.SameDurable(Life(m, w, hs'), Apply(m, v, c).1)
    ensures hs' != [] && Last(hs').Dispatched? && !Last(hs').ceiling && Last(hs').reason == a.error && Last(hs').after == [Crash]
    ensures LastEnd(m, w, hs') == Returned(a.outcome)
  {
    hide Apply, Life, GiveUp;
    var h := Dispatched(c.strategy, c.fs, c.db, false, a.error, [Crash]);
    hs' := hs + [h];
    LifeSnoc(m, w, hs, h);
    assert Before(hs') == hs && Attempt(h) == c;
    SameApply(m, Life(m, w, hs), v, c);
    CrashedGiveUp(Apply(m, v, c).1, m.id, a.error);
  }

  /** The attempt ceiling turns an abort into a job to give up. */
  lemma CeilingTold(m: P.Move, w: World, hs: seq<Happening>, reason: string) returns (hs': seq<Happening>)
    requires hs != [] && Last(hs).Dispatched? && !Last(hs).ceiling && LastEnd(m, w, hs) == Returned(AbortedBeforeCommit)
    ensures P.SameDurable(Life(m, w, hs), Life(m, w, hs'))
    ensures hs' != [] && Last(hs').Dispatched? && Last(hs').reason == reason && Last(hs').after == [Crash]
    ensures Ends(LastEnd(m, w, hs'), Last(hs').ceiling)
  {
    hide Apply, Life, GiveUp;
    var h := Last(hs).(ceiling := true, reason := reason, after := [Crash]);
    hs' := Before(hs) + [h];
    assert hs == Before(hs) + [Last(hs)] && Before(hs') == Before(hs) && Attempt(h) == Attempt(Last(hs));
    LifeSnoc(m, w, Before(hs), h);
    LifeSnoc(m, w, Before(hs), Last(hs));
    CrashedGiveUp(Apply(m, Life(m, w, Before(hs)), Attempt(h)).1, m.id, reason);
  }

  /** The follow-up write goes through: the same dispatch, given up to the end. */
  lemma WriteTold(m: P.Move, w: World, hs: seq<Happening>, v: World) returns (hs': seq<Happening>)
    requires hs != [] && Last(hs).Dispatched? && Last(hs).after == [Crash] && Ends(LastEnd(m, w, hs), Last(hs).ceiling)
    requires P.SameDurable(Life(m, w, hs), v)
    ensures P.SameDurable(Life(m, w, hs'), GiveUp(Rearmed(v, []), m.id, Last(hs).reason))
  {
    hide Apply, Life;
    var h := Last(hs).(after := []);
    hs' := Before(hs) + [h];
    assert hs == Before(hs) + [Last(hs)] && Before(hs') == Before(hs) && Attempt(h) == Attempt(Last(hs));
    LifeSnoc(m, w, Before(hs), h);
    LifeSnoc(m, w, Before(hs), Last(hs));
    var w1 := Apply(m, Life(m, w, Before(hs)), Attempt(h)).1;
    CrashedGiveUp(w1, m.id, h.reason);
    SameGiveUp(w1, v, m.id, h.reason);
  }

  lemma SameGiveUp(w: World, v: World, id: string, reason: string)
    requires P.SameDurable(w, v)
    ensures P.SameDurable(GiveUp(Rearmed(w, []), id, reason), GiveUp(Rearmed(v, []), id, reason))
  {}

  /** What giving up writes, undisturbed. */
  lemma GiveUpWrites(m: P.Move, v: World, reason: string, next: JobData)
    requires m.id in v.store.rows && !v.store.rows[m.id].job.state.Failed?
    requires var job := v.store.rows[m.id].job; Transitioned(job, Failed, NextTick(job.updatedAt), reason) == Some(next)
    ensures var (w', rec) := (GiveUp(Rearmed(v, []), m.id, reason), v.store.rows[m.id]);
            w'.files == v.files && w'.store.rows == v.store.rows[m.id := Record(next, rec.attention, rec.History())]
  {}

  lemma WithdrawTold(m: P.Move, w: World, hs: seq<Happening>, v: World, next: JobData) returns (hs': seq<Happening>)
    requires P.SameDurable(Life(m, w, hs), v) && m.id in v.store.rows && v.store.rows[m.id].job.state.Queued?
    requires var job := v.store.rows[m.id].job; Transitioned(job, Failed, NextTick(job.updatedAt), CANCELLED) == Some(next)
    ensures var rec := v.store.rows[m.id];
            && Life(m, w, hs').files.disk == v.files.disk && Life(m, w, hs').files.roots == v.files.roots
            && Life(m, w, hs').store.rows == v.store.rows[m.id := Record(next, rec.attention, rec.History())]
    ensures hs' != []
  {
    hide Life;
    hs' := hs + [Lifetime.Cancelled([])];
    LifeSnoc(m, w, hs, Lifetime.Cancelled([]));
  }

  // ---- The manager's side of a step -------------------------------------------------------------

  predicate Holds(s: Machine, t: Tid, id: Id) { !s.At(t).Free? && s.At(t).id == id }

  /** A thread past the engine goes on with the job and leaves its versions alone. */
  predicate GoesOn(l: Local, l': Local) {
    && !l'.Aborted?
    && (l'.IsCondemning() ==> (l.IsCondemning() && l'.reason == l.reason) || l.Aborted?)
  }

  /** FAILED is written over the current version, one tick later. */
  predicate WritesFailed(s: Machine, id: Id, reason: string, s': Machine)
    requires id in s.rows && id in s'.rows
  {
    var (rec, job) := (s.rows[id].rec, s.rows[id].Job());
    var next := Transitioned(job, Failed, NextTick(job.updatedAt), reason);
    next.Some? && s'.rows[id].rec == Record(next.value, rec.attention, rec.History())
  }

  lemma WorkerHolds(s: Machine, t: Tid, a: Action, id: Id)
    requires LocalOk(s, s.At(t)) && s.At(t).IsWorker() && !s.At(t).Moving? && s.At(t).id == id && id in s.rows
    requires WorkerStep(s, t, s.At(t), a).Some?
    ensures var (l, s') := (s.At(t), WorkerStep(s, t, s.At(t), a).value);
            && id in s'.rows
            && (|| (s'.rows[id].rec == s.rows[id].rec && GoesOn(l, s'.At(t)))
                || (l.CondemnWriting? && WritesFailed(s, id, l.reason, s') && s'.At(t).Settling?))
  {}

  lemma CancelHolds(s: Machine, t: Tid, a: Action, id: Id)
    requires LocalOk(s, s.At(t)) && s.At(t).IsCancel() && s.At(t).id == id && id in s.rows
    requires CancelStep(s, t, s.At(t), a).Some?
    ensures var (l, s') := (s.At(t), CancelStep(s, t, s.At(t), a).value);
            && id in s'.rows && GoesOn(l, s'.At(t)) && !s'.At(t).IsCondemning()
            && (s'.rows[id].rec == s.rows[id].rec
                || (s.rows[id].State().Queued? && WritesFailed(s, id, CANCELLED, s')))
  {}

  lemma Outsider(s: Machine, t: Tid, a: Action, id: Id)
    requires Inv(s) && Step(s, t, a).Some? && id in s.rows && id in s.d.requests && !Holds(s, t, id)
    ensures var s' := Step(s, t, a).value;
            && id in s'.rows && s'.rows[id].rec == s.rows[id].rec
            && (Holds(s', t, id) ==> !s'.At(t).Aborted? && !s'.At(t).IsCondemning())
  {
    hide Inv, FreeStep, WorkerStep, ClaimStep, CancelStep;
    RowWritesAreLegal(s, t, a, id);
    if s.At(t).Free? {
      OutsiderFree(s, t, a);
    } else if s.At(t).IsWorker() {
      WorkerStepShape(s, t, a);
    } else {
      OutsiderCommand(s, t, s.At(t), a);
    }
  }

  lemma OutsiderFree(s: Machine, t: Tid, a: Action)
    requires s.At(t).Free? && FreeStep(s, t, a).Some?
    ensures !FreeStep(s, t, a).value.At(t).Aborted? && !FreeStep(s, t, a).value.At(t).IsCondemning()
  {}

  lemma OutsiderCommand(s: Machine, t: Tid, l: Local, a: Action)
    requires s.At(t) == l
    ensures l.IsClaim() && ClaimStep(s, t, l, a).Some? ==> !ClaimStep(s, t, l, a).value.At(t).IsWorker()
    ensures l.IsCancel() && CancelStep(s, t, l, a).Some? ==> !CancelStep(s, t, l, a).value.At(t).IsWorker()
  {}

  // ---- The step theorem --------------------------------------------------------------------------

  lemma Sole(s: Machine, t: Tid, id: Id)
    requires Inv(s) && Holds(s, t, id)
    ensures forall u :: u in s.threads && u != t && !s.threads[u].Free? ==> s.threads[u].id != id
  {
    hide Exclusive, Bounded, LocalOk;
  }

  /** A call on the job's view leaves a table of that one row. */
  lemma OneRow(m: P.Move, v: World, c: Call)
    requires P.Inv(m, v) && v.store.rows.Keys == {m.id}
    ensures var w' := Apply(m, v, c).1;
            m.id in w'.store.rows && w'.store.rows == map[m.id := w'.store.rows[m.id]] && w'.files.roots == v.files.roots
  {
    hide Apply, LegalHistory;
    ApplyKeeps(m, v, c);
    var w' := Apply(m, v, c).1;
    assert v.store.rows - {m.id} == map[];
    assert w'.store.rows - {m.id} == map[];
    assert forall k :: k in w'.store.rows && k != m.id ==> k in w'.store.rows - {m.id};
  }

  lemma ViewIsOk(m: P.Move, w: World, hs: seq<Happening>, j: Joint)
    requires P.Inv(m, w) && Tells(m, w, hs, j)
    ensures P.Inv(m, View(m, j)) && View(m, j).store.rows.Keys == {m.id}
  {
    hide LegalHistory, Life, Told;
    LifeIsSafe(m, w, hs);
  }

  lemma CallStep(m: P.Move, w: World, hs: seq<Happening>, j: Joint, t: Tid, a: Action, c: Call, j': Joint)
      returns (hs': seq<Happening>)
    requires P.Inv(m, w) && JInv(m, j) && Tells(m, w, hs, j) && InEngine(m, j.s, t) && JStep(m, j, t, a, c) == Some(j')
    ensures Tells(m, w, hs', j')
  {
    hide Apply, Life, Inv, Step, LegalHistory, LastEnd;
    var v := View(m, j);
    var w' := Apply(m, v, c).1;
    ViewIsOk(m, w, hs, j);
    OneRow(m, v, c);
    CallKeeps(m, j.s, t, w'.store.rows[m.id], a);
    hs' := CallTold(m, w, hs, v, c, a);
    Sole(j.s, t, m.id);
    assert P.SameDurable(w', View(m, j'));
    forall u | u in j'.s.threads && !j'.s.threads[u].Free? && j'.s.threads[u].id == m.id
      ensures Told(m, w, hs', j'.s.threads[u])
    {
      assert u == t;
    }
  }

  /** Nothing of the job changed but, perhaps, how far the holding thread has got. */
  lemma SameStory(m: P.Move, w: World, hs: seq<Happening>, j: Joint, t: Tid, s': Machine)
    requires Tells(m, w, hs, j) && m.id in s'.rows && s'.rows[m.id].rec == j.s.rows[m.id].rec
    requires forall u :: u != t ==> s'.At(u) == j.s.At(u)
    requires Holds(s', t, m.id) ==> Told(m, w, hs, s'.At(t))
    ensures Tells(m, w, hs, j.(s := s'))
  {
    hide Life, Told;
    var j' := j.(s := s');
    forall u | u in s'.threads && !s'.threads[u].Free? && s'.threads[u].id == m.id
      ensures Told(m, w, hs, s'.threads[u])
    {
      if u != t {
        assert s'.At(u) == j.s.At(u);
      }
    }
  }

  lemma OutsiderStep(m: P.Move, w: World, hs: seq<Happening>, j: Joint, t: Tid, a: Action, s': Machine)
    requires JInv(m, j) && Tells(m, w, hs, j) && !Holds(j.s, t, m.id) && Step(j.s, t, a) == Some(s')
    ensures Tells(m, w, hs, j.(s := s'))
  {
    hide Step, Inv, Life, LastEnd;
    Outsider(j.s, t, a, m.id);
    EntersFresh(j.s, t, a, m.id);
    SameStory(m, w, hs, j, t, s');
  }

  lemma SoleTold(m: P.Move, w: World, hs: seq<Happening>, j: Joint, t: Tid, s': Machine)
    requires Inv(j.s) && Holds(j.s, t, m.id) && (forall u :: u != t ==> s'.At(u) == j.s.At(u))
    requires m.id in s'.rows && P.SameDurable(Life(m, w, hs), View(m, j.(s := s')))
    requires Holds(s', t, m.id) ==> Told(m, w, hs, s'.At(t))
    ensures Tells(m, w, hs, j.(s := s'))
  {
    hide Life, Told, Inv;
    Sole(j.s, t, m.id);
    forall u | u in s'.threads && !s'.threads[u].Free? && s'.threads[u].id == m.id
      ensures Told(m, w, hs, s'.threads[u])
    {
      assert s'.At(u) == s'.threads[u];
      assert u == t;
    }
  }

  lemma WorkerTells(m: P.Move, w: World, hs: seq<Happening>, j: Joint, t: Tid, a: Action, s': Machine)
      returns (hs': seq<Happening>)
    requires JInv(m, j) && Tells(m, w, hs, j) && Holds(j.s, t, m.id) && j.s.At(t).IsWorker() && !j.s.At(t).Moving?
    requires WorkerStep(j.s, t, j.s.At(t), a) == Some(s')
    ensures Tells(m, w, hs', j.(s := s'))
  {
    hide WorkerStep, Life, LastEnd, Apply, GiveUp;
    var l := j.s.At(t);
    assert LocalOk(j.s, l) && Told(m, w, hs, j.s.threads[t]);
    WorkerHolds(j.s, t, a, m.id);
    WorkerEnters(j.s, t, a);
    hide Inv;
    var v, v' := View(m, j), View(m, j.(s := s'));
    if s'.rows[m.id].rec == j.s.rows[m.id].rec && GoesOn(l, s'.At(t)) {
      hs' := hs;
      if s'.At(t).IsCondemning() && l.Aborted? {
        hs' := CeilingTold(m, w, hs, s'.At(t).reason);
      }
      assert v' == v;
      SoleTold(m, w, hs', j, t, s');
    } else {
      hs' := WriteTold(m, w, hs, v);
      var job := j.s.rows[m.id].Job();
      var next := Transitioned(job, Failed, NextTick(job.updatedAt), l.reason).value;
      GiveUpWrites(m, v, l.reason, next);
      assert v.store.rows[m.id := s'.rows[m.id].rec] == v'.store.rows;
      SoleTold(m, w, hs', j, t, s');
    }
  }

  lemma CancelTells(m: P.Move, w: World, hs: seq<Happening>, j: Joint, t: Tid, a: Action, s': Machine)
      returns (hs': seq<Happening>)
    requires JInv(m, j) && Tells(m, w, hs, j) && Holds(j.s, t, m.id) && j.s.At(t).IsCancel()
    requires CancelStep(j.s, t, j.s.At(t), a) == Some(s')
    ensures Tells(m, w, hs', j.(s := s'))
  {
    hide CancelStep, Life, LastEnd, Apply;
    assert LocalOk(j.s, j.s.At(t));
    CancelHolds(j.s, t, a, m.id);
    CancelEnters(j.s, t, a);
    hide Inv;
    var v, v' := View(m, j), View(m, j.(s := s'));
    if s'.rows[m.id].rec == j.s.rows[m.id].rec {
      hs' := hs;
      assert v' == v;
    } else {
      var job := j.s.rows[m.id].Job();
      var next := Transitioned(job, Failed, NextTick(job.updatedAt), CANCELLED).value;
      hs' := WithdrawTold(m, w, hs, v, next);
      assert v.store.rows[m.id := s'.rows[m.id].rec] == v'.store.rows;
    }
    SoleTold(m, w, hs', j, t, s');
  }

  lemma NoClaimOfKnown(s: Machine, t: Tid, id: Id)
    requires Inv(s) && id in s.d.requests && Holds(s, t, id)
    ensures !s.At(t).IsClaim()
  {
    assert LocalOk(s, s.At(t));
    assert id in s.d.requests.Keys;
  }

  /** Every step of the whole machine goes on with the story, by one happening more, the last
      one told anew, or none. */
  lemma StoryStep(m: P.Move, w: World, hs: seq<Happening>, j: Joint, t: Tid, a: Action, c: Call, j': Joint)
      returns (hs': seq<Happening>)
    requires P.Inv(m, w) && JInv(m, j) && Tells(m, w, hs, j) && JStep(m, j, t, a, c) == Some(j')
    ensures Tells(m, w, hs', j')
  {
    hide Tells, Apply, FreeStep, WorkerStep, ClaimStep, CancelStep;
    if InEngine(m, j.s, t) {
      hs' := CallStep(m, w, hs, j, t, a, c, j');
    } else if !Holds(j.s, t, m.id) {
      hs' := hs;
      OutsiderStep(m, w, hs, j, t, a, j'.s);
    } else {
      NoClaimOfKnown(j.s, t, m.id);
      if j.s.At(t).IsWorker() {
        hs' := WorkerTells(m, w, hs, j, t, a, j'.s);
      } else {
        hs' := CancelTells(m, w, hs, j, t, a, j'.s);
      }
    }
  }

  lemma {:induction false} StoryRun(m: P.Move, w: World, hs: seq<Happening>, j: Joint, tr: JTrace, j': Joint)
      returns (hs': seq<Happening>)
    requires P.Inv(m, w) && JInv(m, j) && Tells(m, w, hs, j) && JRuns(m, j, tr, j')
    ensures JInv(m, j') && Tells(m, w, hs', j')
    decreases |tr|
  {
    hide JStep, JInv, Tells, Disciplined;
    if tr == [] {
      return hs;
    }
    var (t, a, c) := tr[0];
    var j1 := JStep(m, j, t, a, c).value;
    JStepKeeps(m, j, t, a, c);
    var hs1 := StoryStep(m, w, hs, j, t, a, c, j1);
    hs' := StoryRun(m, w, hs1, j1, tr[1..], j');
  }

  /** The job has just been submitted: its intent is recorded, its source in place, and no
      thread holds it yet. */
  ghost predicate JStarted(m: P.Move, j: Joint) {
    JInv(m, j) && Initial(m, View(m, j)) && forall t :: t in j.s.threads ==> !Holds(j.s, t, m.id)
  }

  /** Every run of the whole machine is, for the followed job, a life: some sequence of
      dispatches and cancels leads to the same disk and the same row. */
  lemma RunIsLife(m: P.Move, j: Joint, tr: JTrace, j': Joint) returns (hs: seq<Happening>)
    requires JStarted(m, j) && JRuns(m, j, tr, j')
    ensures m.id in j'.s.rows && P.SameDurable(Life(m, View(m, j), hs), View(m, j'))
  {
    hide JRuns, Inv, LegalHistory;
    assert forall t :: t in j.s.threads ==> j.s.threads[t] == j.s.At(t);
    assert Life(m, View(m, j), []) == View(m, j);
    assert Tells(m, View(m, j), [], j);
    hs := StoryRun(m, View(m, j), [], j, tr, j');
  }

  /** So over every run of the whole program the object is never lost, DONE is never early, the
      rest of the disk is untouched and the row's history is legal; and one undisturbed
      recovery delivers if and only if nothing in the job's life harmed it. */
  lemma ProgramIsSafe(m: P.Move, j: Joint, tr: JTrace, j': Joint, strategy: MoveStrategy) returns (hs: seq<Happening>)
    requires JStarted(m, j) && JRuns(m, j, tr, j')
    ensures m.id in j'.s.rows && P.Inv(m, View(m, j')) && P.Framed(m, View(m, j), View(m, j'))
    ensures P.SameDurable(Life(m, View(m, j), hs), View(m, j'))
    ensures Delivered(m, Apply(m, View(m, j'), Call(true, strategy, C.QUIET, C.QUIET))) <==> NeverHarmed(m, View(m, j), hs)
  {
    hide JRuns, Life, NeverHarmed, LegalHistory, Apply;
    hs := RunIsLife(m, j, tr, j');
    var w := View(m, j);
    LifeIsSafe(m, w, hs);
    LifeConvergence(m, w, hs, strategy);
    SameApply(m, Life(m, w, hs), View(m, j'), Call(true, strategy, C.QUIET, C.QUIET));
  }
}
