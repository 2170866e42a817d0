/** The job table under the manager: rows have one writer, and over whole runs, and
    over restarts, every row holds a legal history. */
module ManagerRows {
  import opened Jobs
  import opened Sequences
  import opened Stores
  import opened Mover
  import opened Dispatching
  import opened Manager
  import opened ManagerProofs
  import opened ManagerRuns

  /** The row `id` is left alone, or changes on behalf of the job `l` holds: its attempts
      never go down, and its history stays or grows by one legal version of a later time
      that records an error exactly in FAILED. */
  ghost predicate RowMoves(s: Machine, l: Local, s': Machine, id: Id) {
    && id in s.rows && id in s'.rows
    && (s'.rows[id] != s.rows[id] ==> !l.Free? && l.id == id)
    && s.rows[id].attempts <= s'.rows[id].attempts
    && (s'.rows[id].History() == s.rows[id].History() || Extended(s.rows[id], s'.rows[id]))
  }

  /** One accepted transition at a later time. */
  ghost predicate Extended(r: Row, r': Row) {
    && r'.History() == r.History() + [r'.Job()]
    && r.Job().updatedAt < r'.Job().updatedAt
    && exists message ::
         Transitioned(r.Job(), r'.State(), r'.Job().updatedAt, message) == Some(r'.Job())
  }

  lemma WriteExtends(s: Machine, id: Id, to: JobState, tick: int, message: string)
    requires id in s.rows && s.rows[id].Job().updatedAt < tick
    requires Transitioned(s.rows[id].Job(), to, tick, message).Some?
    ensures var next := Transitioned(s.rows[id].Job(), to, tick, message).value;
            Extended(s.rows[id], s.Write(id, next).rows[id])
  {
    var r := s.Write(id, Transitioned(s.rows[id].Job(), to, tick, message).value).rows[id];
    assert Transitioned(s.rows[id].Job(), r.State(), r.Job().updatedAt, message) == Some(r.Job());
  }

  lemma WorkerRowMoves(s: Machine, t: Tid, l: Local, a: Action, id: Id)
    requires l.IsWorker() && LocalOk(s, l) && WorkerStep(s, t, l, a).Some? && id in s.rows
    ensures RowMoves(s, l, WorkerStep(s, t, l, a).value, id)
  {
    hide Extended;
    if l.Moving? && a.EngineWrite? {
      WriteExtends(s, l.id, a.to, l.base.value + Rank(a.to), "");
    } else if l.CondemnWriting? && Transitioned(l.version, Failed, l.tick, l.reason).Some? {
      WriteExtends(s, l.id, Failed, l.tick, l.reason);
    }
  }

  lemma CancelRowMoves(s: Machine, t: Tid, l: Local, a: Action, id: Id)
    requires l.IsCancel() && LocalOk(s, l) && CancelStep(s, t, l, a).Some? && id in s.rows
    ensures RowMoves(s, l, CancelStep(s, t, l, a).value, id)
  {
    hide Extended;
    if l.CancelWriting? {
      WriteExtends(s, l.id, Failed, l.tick, CANCELLED);
    }
  }

  lemma OtherRowMoves(s: Machine, t: Tid, l: Local, a: Action, id: Id)
    requires LocalOk(s, l) && id in s.rows
    ensures l.IsClaim() && ClaimStep(s, t, l, a).Some? ==> RowMoves(s, l, ClaimStep(s, t, l, a).value, id)
  {}

  /** Rows have one writer: a step changes a row only for the job its thread holds, and
      although the state machine judged the version read earlier, and the time counts from
      one read earlier still, no update is lost and no time repeats. */
  lemma RowWritesAreLegal(s: Machine, t: Tid, a: Action, id: Id)
    requires Inv(s) && Step(s, t, a).Some? && id in s.rows
    ensures RowMoves(s, s.At(t), Step(s, t, a).value, id)
  {
    hide Exclusive, FreeStep, WorkerStep, ClaimStep, CancelStep;
    var l := s.At(t);
    assert LocalOk(s, l);
    FreeKeepsConfig(s, t, a);
    OtherRowMoves(s, t, l, a, id);
    if l.IsWorker() {
      WorkerRowMoves(s, t, l, a, id);
    } else if l.IsCancel() {
      CancelRowMoves(s, t, l, a, id);
    }
  }

  // ---- Durable history ---------------------------------------------------------------

  lemma MovesKeepLegal(r: Row, r': Row)
    requires LegalHistory(r.History())
    requires r'.History() == r.History() || Extended(r, r')
    ensures LegalHistory(r'.History())
  {
    hide LegalHistory;
    var h := r.History();
    assert h[|h| - 1] == r.Job();
    if r'.History() != h {
      var message :| Transitioned(r.Job(), r'.State(), r'.Job().updatedAt, message) == Some(r'.Job());
      HistoryExtends(h, r'.State(), r'.Job().updatedAt, message);
    }
  }

  lemma ClaimRowIsIntent(s: Machine, t: Tid, l: Local, a: Action, id: Id)
    requires l.IsClaim() && ClaimStep(s, t, l, a).Some? && id in ClaimStep(s, t, l, a).value.rows && id !in s.rows
    ensures LegalHistory(ClaimStep(s, t, l, a).value.rows[id].History())
  {
    var r := ClaimStep(s, t, l, a).value.rows[id];
    assert r.Job() == Intent(id, l.req, l.now) && r.History() == [r.Job()];
  }

  /** A row that was not there before is a fresh intent. */
  lemma NewRowIsIntent(s: Machine, t: Tid, a: Action, id: Id)
    requires Step(s, t, a).Some? && id in Step(s, t, a).value.rows && id !in s.rows
    ensures LegalHistory(Step(s, t, a).value.rows[id].History())
  {
    hide FreeStep, WorkerStep, ClaimStep, CancelStep, LegalHistory;
    var l := s.At(t);
    if l.Free? {
      FreeKeepsConfig(s, t, a);
    } else if l.IsWorker() {
      WorkerKeepsConfig(s, t, l, a);
    } else if l.IsCancel() {
      CancelKeepsConfig(s, t, l, a);
    }
    assert id !in s.rows.Keys;
    assert l.IsClaim();
    ClaimRowIsIntent(s, t, l, a, id);
  }

  lemma StepKeepsRecord(s: Machine, t: Tid, a: Action)
    requires Inv(s) && Recorded(s) && Step(s, t, a).Some?
    ensures Recorded(Step(s, t, a).value)
    ensures forall id :: id in s.rows ==> id in Step(s, t, a).value.rows
                                          && s.rows[id].History() <= Step(s, t, a).value.rows[id].History()
  {
    hide Step, Inv, LegalHistory, Extended;
    var s' := Step(s, t, a).value;
    forall id | id in s'.rows
      ensures LegalHistory(s'.rows[id].History())
    {
      if id in s.rows {
        RowWritesAreLegal(s, t, a, id);
        MovesKeepLegal(s.rows[id], s'.rows[id]);
      } else {
        NewRowIsIntent(s, t, a, id);
      }
    }
    forall id | id in s.rows
      ensures id in s'.rows && s.rows[id].History() <= s'.rows[id].History()
    {
      RowWritesAreLegal(s, t, a, id);
      GrowsByOne(s.rows[id], s'.rows[id]);
    }
  }

  lemma GrowsByOne(r: Row, r': Row)
    requires r'.History() == r.History() || Extended(r, r')
    ensures r.History() <= r'.History()
  {}

  lemma {:induction false} RunKeepsRecord(s: Machine, tr: Trace, s': Machine)
    requires Inv(s) && Recorded(s) && Runs(s, tr, s')
    ensures Recorded(s')
    ensures forall id :: id in s.rows ==> id in s'.rows && s.rows[id].History() <= s'.rows[id].History()
    decreases |tr|
  {
    hide Step, Inv, Recorded, Disciplined;
    if tr != [] {
      var (t, a) := tr[0];
      StepKeeps(s, t, a);
      StepKeepsRecord(s, t, a);
      RunKeepsRecord(Step(s, t, a).value, tr[1..], s');
    }
  }

  /** Durable history. In every state reachable from a start, whatever workers and commands
      write, every row's versions form a path of the legal graph of at most three
      transitions with strictly increasing times, an error exactly in FAILED and the finish
      time equal to the update time once terminal; and no version is ever taken back. */
  lemma DurableHistory(s: Machine, tr: Trace, s': Machine, id: Id)
    requires Started(s) && Runs(s, tr, s') && id in s'.rows
    ensures LegalHistory(s'.rows[id].History()) && |s'.rows[id].History()| <= 4
    ensures id in s.rows ==> s.rows[id].History() <= s'.rows[id].History()
    ensures RowOk(s'.rows[id].Job())
  {
    hide LegalHistory;
    RunKeepsRecord(s, tr, s');
    var h := s'.rows[id].History();
    HistoryIsShort(h);
    LegalRow(s'.rows[id]);
  }

  lemma LegalRow(r: Row)
    requires LegalHistory(r.History())
    ensures RowOk(r.Job())
  {
    assert r.History()[|r.History()| - 1] == r.Job();
  }

  /** What a process leaves behind is what the next one may start from. */
  lemma RestartIsStart(s: Machine, tr: Trace, s': Machine)
    requires Started(s) && Runs(s, tr, s')
    ensures Started(s.(rows := s'.rows))
  {
    hide LegalHistory;
    RunKeepsRecord(s, tr, s');
  }

  lemma TerminalRow(r: Row, r': Row)
    requires IsTerminal(r.State()) && (r'.History() == r.History() || Extended(r, r'))
    ensures r'.Job() == r.Job()
  {
    assert r.History()[|r.History()| - 1] == r.Job() && r'.History()[|r'.History()| - 1] == r'.Job();
  }

  /** So a terminal version is never replaced, whatever is re-dispatched. */
  lemma {:induction false} TerminalIsFinal(s: Machine, tr: Trace, s': Machine, id: Id)
    requires Inv(s) && Runs(s, tr, s') && id in s.rows && IsTerminal(s.rows[id].State())
    ensures id in s'.rows && s'.rows[id].Job() == s.rows[id].Job()
    decreases |tr|
  {
    hide Step, Inv, Disciplined, Extended;
    if tr != [] {
      var (t, a) := tr[0];
      StepKeeps(s, t, a);
      RowWritesAreLegal(s, t, a, id);
      TerminalRow(s.rows[id], Step(s, t, a).value.rows[id]);
      TerminalIsFinal(Step(s, t, a).value, tr[1..], s', id);
    }
  }
}
