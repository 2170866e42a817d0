/** Whole runs of the move engine: any number of execute and recover calls, each
    with its own crash and its own failing calls, and what one undisturbed
    recovery makes of the result. */
module MoverRuns {
  import opened Jobs
  import opened Faults
  import opened Stores
  import opened FileOps
  import opened Mover
  import opened MoverProofs

  /** One call of a run, with everything the environment does to it. */
  datatype Call = Call(recover: bool, strategy: MoveStrategy, fs: seq<Verdict>, db: seq<Verdict>)

  function Armed(w: World, c: Call): World {
    World(w.files.(faults := c.fs), w.store.(faults := c.db))
  }

  function Apply(m: Move, w: World, c: Call): (End, World) {
    if c.recover then Recover(Armed(w, c), m.id, m.req, c.strategy)
    else Execute(Armed(w, c), m.id, m.req, c.strategy)
  }

  function Run(m: Move, w: World, calls: seq<Call>): World
    decreases |calls|
  {
    if calls == [] then w else Run(m, Apply(m, w, calls[0]).1, calls[1..])
  }

  /** Intent recorded, source in place, staging and destination names free. */
  ghost predicate Initial(m: Move, w: World) {
    && m.Sound() && w.files.roots == m.roots && AtSource(m, w)
    && m.id in w.store.rows
    && JobOf(m, w).state.Queued?
    && LegalHistory(HistoryOf(w.store, m.id))
  }

  lemma ApplyKeeps(m: Move, w: World, c: Call)
    requires Inv(m, w)
    ensures Keeps(m, w, Apply(m, w, c))
  {
    hide Execute, Recover, LegalHistory;
    var w0 := Armed(w, c);
    if c.recover {
      RecoverKeeps(m, w0, c.strategy);
    } else {
      ExecuteKeeps(m, w0, c.strategy);
    }
  }

  lemma {:induction false} RunKeeps(m: Move, w: World, calls: seq<Call>)
    requires Inv(m, w)
    ensures Advances(m, w, Run(m, w, calls))
    decreases |calls|
  {
    hide Apply, LegalHistory;
    if calls != [] {
      ApplyKeeps(m, w, calls[0]);
      var w1 := Apply(m, w, calls[0]).1;
      RunKeeps(m, w1, calls[1..]);
      AdvancesTrans(m, w, w1, Run(m, w, calls));
    }
  }

  /** Over every run, under both strategies: the object is bound to one of the
      three names and to no other object's, DONE is recorded only for a
      delivered object, the rest of the disk and the other rows are untouched,
      and the row's versions are a legal path of at most three transitions. */
  lemma RunIsSafe(m: Move, w: World, calls: seq<Call>)
    requires Initial(m, w)
    ensures var w' := Run(m, w, calls);
            && Inv(m, w') && Framed(m, w, w')
            && (AtSource(m, w') || AtBoth(m, w') || AtStaging(m, w') || AtDest(m, w'))
            && (JobOf(m, w').state.Done? ==> AtDest(m, w'))
            && LegalHistory(HistoryOf(w'.store, m.id)) && |HistoryOf(w'.store, m.id)| <= 4
  {
    RunKeeps(m, w, calls);
    HistoryIsShort(HistoryOf(Run(m, w, calls).store, m.id));
  }

  // ---- An undisturbed recovery -----------------------------------------------

  predicate Quiet(w: World) { w.files.faults == [] && w.store.faults == [] }

  ghost predicate Delivered(m: Move, r: (End, World)) {
    && r.0 == Returned(Completed)
    && m.Sound() && m.id in r.1.store.rows
    && JobOf(m, r.1).state.Done? && AtDest(m, r.1)
  }

  lemma QuietDeliver(m: Move, w: World, tick: int)
    requires Inv(m, w) && Quiet(w) && JobOf(m, w).state.Transferring?
    ensures Delivered(m, Deliver(w, m.id, m.req, m.roots[m.req.destDir], tick))
  {}

  lemma QuietFinish(m: Move, w: World, tick: int)
    requires Inv(m, w) && Quiet(w) && m.S() !in w.files.disk && JobOf(m, w).updatedAt < tick
    ensures Delivered(m, FinishAfterCommit(w, m.id, m.req, m.roots[m.req.destDir], tick))
            <==> !JobOf(m, w).state.Failed?
  {
    hide Deliver, LegalHistory;
    if JobOf(m, w).state.Renaming? {
      var (v, st) := w.store.UpdateState(m.id, Transferring, tick, "");
      RecordAdvances(m, w, Transferring, tick, "");
      QuietDeliver(m, w.(store := st), tick);
    } else if JobOf(m, w).state.Transferring? {
      QuietDeliver(m, w, tick);
    }
  }

  lemma QuietExecute(m: Move, w: World, strategy: MoveStrategy)
    requires Inv(m, w) && Quiet(w) && AtSource(m, w)
    ensures Delivered(m, Execute(w, m.id, m.req, strategy)) <==> !JobOf(m, w).state.Failed?
  {
    hide FinishAfterCommit, LegalHistory;
    if !JobOf(m, w).state.Failed? {
      var tick := NextTick(JobOf(m, w).updatedAt);
      if JobOf(m, w).state.Queued? {
        RecordAdvances(m, w, Renaming, tick, "");
      }
      var (v1, st1) := if JobOf(m, w).state.Queued? then w.store.UpdateState(m.id, Renaming, tick, "") else (Proceed, w.store);
      var w1 := w.(store := st1);
      CommitAdvances(m, w1, strategy);
      var (v2, f2) := w1.files.MoveWithin(m.S(), m.T(), strategy);
      QuietFinish(m, w1.(files := f2), NextTick(tick));
    }
  }

  /** From every state of the invariant, one undisturbed recovery delivers the
      object and records it, unless the disk holds both names of an interrupted
      link or the record says FAILED; in those two cases it never does. */
  lemma QuietRecover(m: Move, w: World, strategy: MoveStrategy)
    requires Inv(m, w) && Quiet(w)
    ensures Delivered(m, Recover(w, m.id, m.req, strategy))
            <==> !AtBoth(m, w) && !JobOf(m, w).state.Failed?
  {
    hide Execute, FinishAfterCommit, LegalHistory;
    if AtSource(m, w) {
      QuietExecute(m, w, strategy);
    } else if !AtBoth(m, w) {
      QuietFinish(m, w, NextTick(JobOf(m, w).updatedAt));
    }
  }

  // ---- What no run undoes -----------------------------------------------------

  /** Delivery records no FAILED and never binds the source name again. */
  ghost predicate Calm(m: Move, w: World, w': World)
    requires m.Sound() && m.id in w.store.rows
  {
    && m.id in w'.store.rows
    && (JobOf(m, w').state.Failed? <==> JobOf(m, w).state.Failed?)
    && (m.S() !in w.files.disk ==> m.S() !in w'.files.disk)
  }

  lemma FinishIsCalm(m: Move, w: World, tick: int)
    requires m.Sound() && m.id in w.store.rows && m.S() !in w.files.disk
    ensures Calm(m, w, FinishAfterCommit(w, m.id, m.req, m.roots[m.req.destDir], tick).1)
  {
    hide Deliver;
    var (v1, st1) := w.store.Load();
    var w1 := w.(store := st1);
    DeliverIsCalm(m, w1, tick);
    if JobOf(m, w).state.Renaming? {
      var (v2, st2) := st1.UpdateState(m.id, Transferring, tick, "");
      DeliverIsCalm(m, w1.(store := st2), tick);
    }
  }

  lemma DeliverIsCalm(m: Move, w: World, tick: int)
    requires m.Sound() && m.id in w.store.rows && m.S() !in w.files.disk
    ensures Calm(m, w, Deliver(w, m.id, m.req, m.roots[m.req.destDir], tick).1)
  {
    hide RecordDone, Files.Publish;
    var (v1, f1) := w.files.Classify(m.T());
    var (v2, f2) := f1.Classify(m.D());
    PublishSparesSource(m, f2);
    var (v3, f3) := f2.Publish(m.T(), m.D());
    RecordDoneIsCalm(m, w.(files := f2), NextTick(tick));
    RecordDoneIsCalm(m, w.(files := f3), NextTick(tick));
  }

  lemma PublishSparesSource(m: Move, f: Files)
    requires m.Sound() && m.S() !in f.disk
    ensures m.S() !in f.Publish(m.T(), m.D()).1.disk
  {}

  lemma RecordDoneIsCalm(m: Move, w: World, tick: int)
    requires m.Sound() && m.id in w.store.rows && m.S() !in w.files.disk
    ensures Calm(m, w, RecordDone(w, m.id, tick).1)
  {}

  lemma InterruptedExecute(m: Move, w: World, strategy: MoveStrategy)
    requires Inv(m, w) && AtBoth(m, w)
    ensures var (e, w') := Execute(w, m.id, m.req, strategy);
            SameDurable(w, w') && e != Returned(Completed)
  {
    hide Commit, LegalHistory;
    var (v1, st1) := w.store.Load();
    var (v2, f2) := w.files.OpenRoot(m.req.sourceDir);
    var (v3, f3) := f2.OpenRoot(m.req.destDir);
    var (v4, f4) := f3.Classify(m.S());
    var (v5, f5) := f4.OpenRegular(m.S());
    var (v6, f6) := f5.Classify(m.S());
    var w6 := World(f6, st1);
    if v1 == v2 == v3 == v4 == v5 == Proceed && v6 != Crash && !JobOf(m, w).state.Failed? {
      InterruptedCommit(m, w6, strategy);
    }
  }

  lemma InterruptedCommit(m: Move, w: World, strategy: MoveStrategy)
    requires Inv(m, w) && AtBoth(m, w) && !JobOf(m, w).state.Failed?
    ensures var (e, w') := Commit(w, m.id, JobOf(m, w), m.req, strategy);
            SameDurable(w, w') && e != Returned(Completed)
  {
    hide FinishAfterCommit, LegalHistory;
  }

  /** Once both names are bound by an interrupted link, no call of any kind, with
      any faults, changes the disk or the job's recorded state again: recovery
      re-issues the link onto the existing name instead of finishing the unlink. */
  lemma InterruptedIsStuck(m: Move, w: World, c: Call)
    requires Inv(m, w) && AtBoth(m, w)
    ensures var (e, w') := Apply(m, w, c);
            && w'.files.disk == w.files.disk && w'.files.roots == w.files.roots
            && m.id in w'.store.rows && HistoryOf(w'.store, m.id) == HistoryOf(w.store, m.id)
            && e != Returned(Completed)
  {
    hide Execute, FinishAfterCommit, LegalHistory;
    var w0 := Armed(w, c);
    if !c.recover {
      InterruptedExecute(m, w0, c.strategy);
    }
  }

  /** So an interrupted link is not recovered by any run. */
  lemma {:induction false} InterruptedNeverRecovers(m: Move, w: World, calls: seq<Call>)
    requires Inv(m, w) && AtBoth(m, w)
    ensures var w' := Run(m, w, calls);
            && w'.files.disk == w.files.disk
            && m.id in w'.store.rows && HistoryOf(w'.store, m.id) == HistoryOf(w.store, m.id)
    decreases |calls|
  {
    hide Apply, LegalHistory;
    if calls != [] {
      InterruptedIsStuck(m, w, calls[0]);
      ApplyKeeps(m, w, calls[0]);
      InterruptedNeverRecovers(m, Apply(m, w, calls[0]).1, calls[1..]);
    }
  }

  lemma DoneExecute(m: Move, w: World, strategy: MoveStrategy)
    requires Inv(m, w) && JobOf(m, w).state.Done?
    ensures SameDurable(w, Execute(w, m.id, m.req, strategy).1)
  {
    hide Commit, LegalHistory;
  }

  /** A finished job stays finished: no later call changes its row or the disk. */
  lemma DoneIsFinal(m: Move, w: World, c: Call)
    requires Inv(m, w) && JobOf(m, w).state.Done?
    ensures SameDurable(w, Apply(m, w, c).1)
  {
    hide Execute, LegalHistory, Deliver, Head, Tail;
    var w0 := Armed(w, c);
    if !c.recover {
      DoneExecute(m, w0, c.strategy);
    }
  }
}
