/** What the move engine keeps over every run of execute and recover calls, each
    cut short by a crash or disturbed by failing calls wherever the environment likes. */
module MoverProofs {
  import opened Jobs
  import opened Faults
  import opened Stores
  import opened FileOps
  import opened Mover

  /** One move: the job, its request, the object it is to deliver, and the open directories. */
  datatype Move = Move(id: string, req: MoveRequest, obj: FileIdentity, roots: map<string, nat>) {
    /** The standing assumptions: usable names and paths, three distinct locations. */
    predicate Sound() {
      && ValidExternalPath(req.sourceDir) && ValidExternalPath(req.destDir)
      && req.sourceDir in roots && req.destDir in roots
      && IsPlainName(req.sourceName) && IsPlainName(req.destName) && IsPlainName(StagingName(id))
      && obj.kind.Regular?
      && S() != T() && S() != D() && T() != D()
    }
    function S(): Loc requires req.sourceDir in roots { Loc(roots[req.sourceDir], req.sourceName) }
    function T(): Loc requires req.destDir in roots { Loc(roots[req.destDir], StagingName(id)) }
    function D(): Loc requires req.destDir in roots { Loc(roots[req.destDir], req.destName) }
  }

  // ---- Where the object is -------------------------------------------------

  predicate Placed(m: Move, disk: Disk, atS: bool, atT: bool, atD: bool)
    requires m.Sound()
  {
    && (m.S() in disk <==> atS) && (atS ==> disk[m.S()] == m.obj)
    && (m.T() in disk <==> atT) && (atT ==> disk[m.T()] == m.obj)
    && (m.D() in disk <==> atD) && (atD ==> disk[m.D()] == m.obj)
  }

  predicate AtSource(m: Move, w: World) requires m.Sound() { Placed(m, w.files.disk, true, false, false) }
  predicate AtBoth(m: Move, w: World) requires m.Sound() { Placed(m, w.files.disk, true, true, false) }
  predicate AtStaging(m: Move, w: World) requires m.Sound() { Placed(m, w.files.disk, false, true, false) }
  predicate AtDest(m: Move, w: World) requires m.Sound() { Placed(m, w.files.disk, false, false, true) }

  function JobOf(m: Move, w: World): JobData
    requires m.id in w.store.rows
  {
    w.store.rows[m.id].job
  }

  /** The record and the disk agree up to the one step a crash can separate them. */
  ghost predicate Inv(m: Move, w: World) {
    && m.Sound()
    && w.files.roots == m.roots
    && m.id in w.store.rows
    && LegalHistory(HistoryOf(w.store, m.id))
    && match JobOf(m, w).state
       case Queued => AtSource(m, w)
       case Renaming => AtSource(m, w) || AtBoth(m, w) || AtStaging(m, w)
       case Transferring => AtStaging(m, w) || AtDest(m, w)
       case Done => AtDest(m, w)
       case Failed => AtSource(m, w) || AtBoth(m, w) || AtStaging(m, w) || AtDest(m, w)
  }

  /** Nothing but the three names and the one row changes, and the row only grows. */
  ghost predicate Framed(m: Move, w: World, w': World)
    requires m.Sound()
  {
    && w'.files.roots == w.files.roots
    && w'.files.disk - {m.S(), m.T(), m.D()} == w.files.disk - {m.S(), m.T(), m.D()}
    && OthersKept(w.store, w'.store, m.id)
    && (m.id in w.store.rows ==> HistoryOf(w.store, m.id) <= HistoryOf(w'.store, m.id))
  }

  predicate SameDurable(w: World, w': World) {
    w'.files.disk == w.files.disk && w'.files.roots == w.files.roots && w'.store.rows == w.store.rows
  }

  /** What a caller may conclude from how a call ended. */
  predicate OutcomeSound(m: Move, w: World, end: End, w': World)
    requires m.Sound() && m.id in w'.store.rows
  {
    match end
    case Crashed => true
    case Returned(Rejected) => SameDurable(w, w')
    case Returned(AbortedBeforeCommit) =>
      && !IsTerminal(JobOf(m, w').state)
      && (AtSource(m, w') || AtBoth(m, w'))
    case Returned(Completed) => JobOf(m, w').state.Done? && AtDest(m, w')
    case Returned(HaltedAfterCommit) =>
      || SameDurable(w, w')
      || (!JobOf(m, w').state.Done? && (AtBoth(m, w') || AtStaging(m, w') || AtDest(m, w')))
    case Returned(FailedExternal) =>
      && (AtStaging(m, w') || AtDest(m, w'))
      && (JobOf(m, w').state.Done? ==> SameDurable(w, w'))
  }

  ghost predicate Keeps(m: Move, w: World, r: (End, World)) {
    && Inv(m, r.1) && Framed(m, w, r.1) && OutcomeSound(m, w, r.0, r.1)
  }

  // ---- The pieces of one call -----------------------------------------------

  /** A store write that leaves the invariant's placement clause true. */
  ghost predicate Advances(m: Move, w: World, w': World) {
    Inv(m, w') && Framed(m, w, w')
  }

  lemma FlagAdvances(m: Move, w: World, o: MoveOutcome)
    requires Inv(m, w)
    ensures var (e, w') := Flag(w, m.id, o);
            && Advances(m, w, w') && w'.files == w.files && JobOf(m, w') == JobOf(m, w)
            && (e == Crashed || e == Returned(o))
  {
    var w' := Flag(w, m.id, o).1;
    assert HistoryOf(w'.store, m.id) == HistoryOf(w.store, m.id);
  }

  /** A transition is recorded exactly when it is, and the row is otherwise untouched. */
  lemma RecordAdvances(m: Move, w: World, to: JobState, now: int, message: string)
    requires Inv(m, w) && JobOf(m, w).updatedAt < now
    requires (to.Transferring? || to.Done?) ==> m.S() !in w.files.disk
    requires to.Done? ==> AtDest(m, w)
    ensures var (v, st) := w.store.UpdateState(m.id, to, now, message);
            && Advances(m, w, w.(store := st))
            && (v == Proceed ==> st.rows[m.id].job.state == to && st.rows[m.id].job.updatedAt == now)
            && (v != Proceed ==> st.rows == w.store.rows)
            && (v == Proceed ==> IsLegalTransition(JobOf(m, w).state, to))
  {
    UpdateKeepsHistory(w.store, m.id, to, now, message);
  }

  /** Publishing moves the object from the staging name to the final one or does nothing. */
  lemma PublishAdvances(m: Move, w: World)
    requires Inv(m, w) && AtStaging(m, w) && !JobOf(m, w).state.Renaming?
    ensures var (v, f) := w.files.Publish(m.T(), m.D());
            && Advances(m, w, w.(files := f))
            && (AtStaging(m, w.(files := f)) || AtDest(m, w.(files := f)))
            && (v == Proceed ==> AtDest(m, w.(files := f)))
  {
    var f := w.files.Publish(m.T(), m.D()).1;
    assert f.disk == w.files.disk || f.disk == (w.files.disk - {m.T()})[m.D() := m.obj];
  }

  /** Past the commit point no call comes back with a verdict from before it. */
  predicate PastCommit(end: End) {
    end != Returned(Rejected) && end != Returned(AbortedBeforeCommit)
  }

  lemma AdvancesTrans(m: Move, a: World, b: World, c: World)
    requires m.id in a.store.rows && Advances(m, a, b) && Advances(m, b, c)
    ensures Advances(m, a, c)
  {}

  lemma RecordDoneKeeps(m: Move, w: World, tick: int)
    requires Inv(m, w) && AtDest(m, w) && JobOf(m, w).state.Transferring? && JobOf(m, w).updatedAt < tick
    ensures Keeps(m, w, RecordDone(w, m.id, tick))
    ensures PastCommit(RecordDone(w, m.id, tick).0)
  {
    RecordAdvances(m, w, Done, tick, "");
    var (v, st) := w.store.UpdateState(m.id, Done, tick, "");
    var w1 := w.(store := st);
    if v == Fail {
      FlagAdvances(m, w1, HaltedAfterCommit);
      AdvancesTrans(m, w, w1, Flag(w1, m.id, HaltedAfterCommit).1);
    }
  }

  lemma DeliverKeeps(m: Move, w: World, tick: int)
    requires Inv(m, w) && JobOf(m, w).state.Transferring? && JobOf(m, w).updatedAt <= tick
    ensures Keeps(m, w, Deliver(w, m.id, m.req, m.roots[m.req.destDir], tick))
    ensures PastCommit(Deliver(w, m.id, m.req, m.roots[m.req.destDir], tick).0)
  {
    hide RecordDone, LegalHistory;
    var (v1, f1) := w.files.Classify(m.T());
    var (v2, f2) := f1.Classify(m.D());
    var w2 := w.(files := f2);
    assert Advances(m, w, w2);
    if v1 == Crash || v2 == Crash {
    } else if v1 == Proceed && m.T() in f1.disk {
      PublishAdvances(m, w2);
      var (v3, f3) := f2.Publish(m.T(), m.D());
      var w3 := w2.(files := f3);
      AdvancesTrans(m, w, w2, w3);
      if v3 == Fail {
        FlagAdvances(m, w3, HaltedAfterCommit);
        AdvancesTrans(m, w, w3, Flag(w3, m.id, HaltedAfterCommit).1);
      } else if v3 == Proceed {
        RecordDoneKeeps(m, w3, NextTick(tick));
        AdvancesTrans(m, w, w3, RecordDone(w3, m.id, NextTick(tick)).1);
      }
    } else if v2 == Proceed && m.D() in f2.disk {
      RecordDoneKeeps(m, w2, NextTick(tick));
    } else {
      FlagAdvances(m, w2, FailedExternal);
    }
  }

  lemma FinishKeeps(m: Move, w: World, tick: int)
    requires Inv(m, w) && m.S() !in w.files.disk && JobOf(m, w).updatedAt < tick
    ensures Keeps(m, w, FinishAfterCommit(w, m.id, m.req, m.roots[m.req.destDir], tick))
    ensures PastCommit(FinishAfterCommit(w, m.id, m.req, m.roots[m.req.destDir], tick).0)
  {
    hide Deliver, LegalHistory;
    var (v1, st1) := w.store.Load();
    var w1 := w.(store := st1);
    var dest := m.roots[m.req.destDir];
    if v1 == Proceed && JobOf(m, w).state.Renaming? {
      RecordAdvances(m, w1, Transferring, tick, "");
      var (v2, st2) := st1.UpdateState(m.id, Transferring, tick, "");
      var w2 := w1.(store := st2);
      if v2 == Proceed {
        DeliverKeeps(m, w2, tick);
        AdvancesTrans(m, w, w2, Deliver(w2, m.id, m.req, dest, tick).1);
      } else if v2 == Fail {
        FlagAdvances(m, w2, HaltedAfterCommit);
        AdvancesTrans(m, w, w2, Flag(w2, m.id, HaltedAfterCommit).1);
      }
    } else if v1 == Proceed && JobOf(m, w).state.Transferring? {
      DeliverKeeps(m, w1, tick);
    }
  }

  /** The commit: the object leaves the source name or the source name keeps it. */
  lemma CommitAdvances(m: Move, w: World, strategy: MoveStrategy)
    requires Inv(m, w) && JobOf(m, w).state.Renaming? && (AtSource(m, w) || AtBoth(m, w))
    ensures var (v, f) := w.files.MoveWithin(m.S(), m.T(), strategy);
            && Advances(m, w, w.(files := f))
            && (v == Proceed ==> AtStaging(m, w.(files := f)))
            && (v != Proceed ==> AtSource(m, w.(files := f)) || AtBoth(m, w.(files := f)))
            && (v != Proceed && strategy.RenameNoReplace? ==> f.disk == w.files.disk)
            && (AtBoth(m, w) ==> v != Proceed && f.disk == w.files.disk)
  {
    var f := w.files.MoveWithin(m.S(), m.T(), strategy).1;
    var d := w.files.disk;
    var linked := d[m.T() := m.obj];
    var moved := (d - {m.S()})[m.T() := m.obj];
    assert linked - {m.S()} == moved;
    assert f.disk == d || f.disk == linked || f.disk == moved;
  }

  lemma CommitKeeps(m: Move, w: World, strategy: MoveStrategy)
    requires Inv(m, w) && !IsTerminal(JobOf(m, w).state) && (AtSource(m, w) || AtBoth(m, w))
    ensures Keeps(m, w, Commit(w, m.id, JobOf(m, w), m.req, strategy))
  {
    hide FinishAfterCommit, LegalHistory;
    var tick := NextTick(JobOf(m, w).updatedAt);
    if JobOf(m, w).state.Queued? {
      RecordAdvances(m, w, Renaming, tick, "");
    }
    var (v1, st1) := if JobOf(m, w).state.Queued? then w.store.UpdateState(m.id, Renaming, tick, "") else (Proceed, w.store);
    var w1 := w.(store := st1);
    if v1 == Proceed {
      CommitAdvances(m, w1, strategy);
      var (v2, f2) := w1.files.MoveWithin(m.S(), m.T(), strategy);
      var w2 := w1.(files := f2);
      AdvancesTrans(m, w, w1, w2);
      if v2 == Proceed {
        FinishKeeps(m, w2, NextTick(tick));
        AdvancesTrans(m, w, w2, FinishAfterCommit(w2, m.id, m.req, m.roots[m.req.destDir], NextTick(tick)).1);
      }
    }
  }

  // ---- One call ---------------------------------------------------------------

  lemma ValidatedKeeps(m: Move, w: World, strategy: MoveStrategy)
    requires Inv(m, w)
    ensures Keeps(m, w, Validated(w, m.id, JobOf(m, w), m.req, strategy))
  {
    hide Commit, LegalHistory;
    var (v1, f1) := w.files.Classify(m.S());
    if v1 == Proceed && m.S() in f1.disk {
      var (v2, f2) := f1.OpenRegular(m.S());
      var (v3, f3) := f2.Classify(m.S());
      var w3 := w.(files := f3);
      assert Advances(m, w, w3) && SameDurable(w, w3);
      if !IsTerminal(JobOf(m, w).state) {
        CommitKeeps(m, w3, strategy);
      }
    }
  }

  /** Every execute call, whatever fails in it and wherever it is cut short. */
  lemma ExecuteKeeps(m: Move, w: World, strategy: MoveStrategy)
    requires Inv(m, w)
    ensures Keeps(m, w, Execute(w, m.id, m.req, strategy))
  {
    hide Validated, LegalHistory;
    var (v1, st1) := w.store.Load();
    var (v2, f2) := w.files.OpenRoot(m.req.sourceDir);
    var (v3, f3) := f2.OpenRoot(m.req.destDir);
    if v1 == Proceed && v2 == Proceed && v3 == Proceed {
      ValidatedKeeps(m, World(f3, st1), strategy);
    }
  }

  /** Every recover call, likewise. */
  lemma RecoverKeeps(m: Move, w: World, strategy: MoveStrategy)
    requires Inv(m, w)
    ensures Keeps(m, w, Recover(w, m.id, m.req, strategy))
  {
    hide Redrive, LegalHistory;
    var (v1, f1) := w.files.OpenRoot(m.req.sourceDir);
    var (v2, f2) := f1.OpenRoot(m.req.destDir);
    var (v3, f3) := f2.ClassifyMoveState(m.S(), m.T());
    var (v4, st4) := w.store.Load();
    var w4 := World(f3, st4);
    if v1 == Proceed && v2 == Proceed && v3 == Proceed && v4 == Proceed {
      assert Advances(m, w, w4) && SameDurable(w, w4);
      RedriveKeeps(m, w, w4, strategy);
    }
  }

  lemma RedriveKeeps(m: Move, w0: World, w: World, strategy: MoveStrategy)
    requires Inv(m, w) && SameDurable(w0, w)
    ensures Keeps(m, w0, Redrive(w, m.id, m.req, strategy, m.S(), m.roots[m.req.destDir]))
  {
    hide Execute, FinishAfterCommit, LegalHistory;
    var tick := NextTick(JobOf(m, w).updatedAt);
    var r := Redrive(w, m.id, m.req, strategy, m.S(), m.roots[m.req.destDir]);
    if AtSource(m, w) {
      ExecuteKeeps(m, w, strategy);
    } else if AtBoth(m, w) {
      var (v, f) := w.files.MoveWithin(m.S(), m.T(), LinkThenUnlink);
      assert v != Proceed && f.disk == w.files.disk;
      FlagAdvances(m, w.(files := f), HaltedAfterCommit);
    } else if AtStaging(m, w) {
      FinishKeeps(m, w, tick);
    } else {
      var (v, f) := w.files.Classify(m.D());
      var w1 := w.(files := f);
      FinishKeeps(m, w1, tick);
      RecordAdvances(m, w1, Failed, tick, REMOVED);
    }
  }
}
