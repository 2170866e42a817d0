/** Exactly when one call refuses, aborts, is cut between link and unlink, or condemns
    a delivered move, read off the disk, the record and the faults it will meet. */
module MoverVerdicts {
  import opened Jobs
  import opened Faults
  import opened Stores
  import opened FileOps
  import opened Mover
  import opened MoverProofs
  import opened MoverRuns

  /** The k-th verdict a script holds. */
  function Nth(script: seq<Verdict>, k: nat): Verdict {
    if k < |script| then script[k] else Proceed
  }

  function Drop(script: seq<Verdict>, k: nat): seq<Verdict> {
    if k < |script| then script[k..] else []
  }

  /** The same disk and table, so many filesystem and store calls later. */
  function Later(w: World, fs: nat, db: nat): World {
    World(w.files.(faults := Drop(w.files.faults, fs)), w.store.(faults := Drop(w.store.faults, db)))
  }

  function Fs(w: World, k: nat): Verdict { Nth(w.files.faults, k) }
  function Db(w: World, k: nat): Verdict { Nth(w.store.faults, k) }

  lemma ScriptParts(script: seq<Verdict>, k: nat)
    ensures Drop(script, 0) == script && Head(Drop(script, k)) == Nth(script, k)
    ensures Tail(Drop(script, k)) == Drop(script, k + 1)
  {
    if k < |script| {
      assert script[k..][1..] == script[k + 1..];
    }
  }

  /** The first `n` verdicts, taken one at a time. */
  lemma {:induction false} ScriptStarts(script: seq<Verdict>, n: nat)
    ensures forall k :: 0 <= k <= n ==> Head(Drop(script, k)) == Nth(script, k) && Tail(Drop(script, k)) == Drop(script, k + 1)
    ensures Drop(script, 0) == script
  {
    hide Head, Tail, Nth, Drop;
    if n > 0 {
      ScriptStarts(script, n - 1);
    }
    ScriptParts(script, n);
  }

  // ---- The commit -------------------------------------------------------------------------

  /** The record may go to RENAMING, or is there. */
  predicate RecordReady(m: Move, w: World)
    requires m.id in w.store.rows
  {
    JobOf(m, w).state.Queued? ==> Db(w, 0) == Proceed && Db(w, 1) == Proceed
  }

  /** The commit ends in a failure from before it. */
  predicate CommitAborts(m: Move, w: World, strategy: MoveStrategy)
    requires m.id in w.store.rows
  {
    || (JobOf(m, w).state.Queued? && (Db(w, 0) == Fail || (Db(w, 0) == Proceed && Db(w, 1) == Fail)))
    || (RecordReady(m, w) && (Fs(w, 0) == Fail || (strategy.LinkThenUnlink? && Fs(w, 0) == Proceed && Fs(w, 1) == Fail)))
  }

  /** The link goes through and the unlink does not. */
  predicate CommitCut(m: Move, w: World, strategy: MoveStrategy)
    requires m.id in w.store.rows
  {
    RecordReady(m, w) && strategy.LinkThenUnlink? && Fs(w, 0) == Proceed && Fs(w, 1) != Proceed
  }

  lemma CommitShape(m: Move, w: World, strategy: MoveStrategy)
    requires Inv(m, w) && AtSource(m, w) && !IsTerminal(JobOf(m, w).state)
    ensures var (e, w') := Commit(w, m.id, JobOf(m, w), m.req, strategy);
            && m.id in w'.store.rows && !JobOf(m, w').state.Failed?
            && e != Returned(Rejected)
            && (e == Returned(AbortedBeforeCommit) <==> CommitAborts(m, w, strategy))
            && (AtBoth(m, w') <==> CommitCut(m, w, strategy))
  {
    hide FinishAfterCommit, LegalHistory;
    var tick := NextTick(JobOf(m, w).updatedAt);
    if JobOf(m, w).state.Queued? {
      RecordAdvances(m, w, Renaming, tick, "");
    }
    var (v1, st1) := if JobOf(m, w).state.Queued? then w.store.UpdateState(m.id, Renaming, tick, "") else (Proceed, w.store);
    var w1 := w.(store := st1);
    assert v1 == Proceed <==> RecordReady(m, w);
    if v1 == Proceed {
      CommitAdvances(m, w1, strategy);
      var (v2, f2) := w1.files.MoveWithin(m.S(), m.T(), strategy);
      if v2 == Proceed {
        FinishKeeps(m, w1.(files := f2), NextTick(tick));
        FinishIsCalm(m, w1.(files := f2), NextTick(tick));
      }
    }
  }

  // ---- Execute ------------------------------------------------------------------------------

  /** Execute comes back before it has looked past the source name. */
  predicate Refuses(m: Move, w: World)
    requires m.Sound()
  {
    || Db(w, 0) == Fail
    || (Db(w, 0) == Proceed &&
        (Fs(w, 0) == Fail || (Fs(w, 0) == Proceed &&
         (Fs(w, 1) == Fail || (Fs(w, 1) == Proceed &&
          (Fs(w, 2) == Fail || (Fs(w, 2) == Proceed &&
           (m.S() !in w.files.disk || Fs(w, 3) == Fail))))))))
  }

  /** Everything up to the commit goes through. */
  predicate Validates(m: Move, w: World)
    requires m.Sound()
  {
    && Db(w, 0) == Proceed && Fs(w, 0) == Fs(w, 1) == Fs(w, 2) == Fs(w, 3) == Proceed && Fs(w, 4) != Crash
    && m.S() in w.files.disk
  }

  predicate Aborts(m: Move, w: World, strategy: MoveStrategy)
    requires m.Sound() && m.id in w.store.rows
  {
    Validates(m, w) && CommitAborts(m, Later(w, 5, 1), strategy)
  }

  /** Execute is cut between the link and the unlink. */
  predicate Cut(m: Move, w: World, strategy: MoveStrategy)
    requires m.Sound() && m.id in w.store.rows
  {
    Validates(m, w) && CommitCut(m, Later(w, 5, 1), strategy)
  }

  lemma ExecuteShape(m: Move, w: World, strategy: MoveStrategy)
    requires Inv(m, w) && !AtBoth(m, w) && !JobOf(m, w).state.Failed?
    ensures var (e, w') := Execute(w, m.id, m.req, strategy);
            && m.id in w'.store.rows && !JobOf(m, w').state.Failed?
            && (e == Returned(Rejected) <==> Refuses(m, w))
            && (e == Returned(AbortedBeforeCommit) <==> Aborts(m, w, strategy))
            && (AtBoth(m, w') <==> Cut(m, w, strategy))
  {
    hide Commit, LegalHistory, Head, Tail, Nth, Drop;
    ScriptStarts(w.files.faults, 5);
    ScriptStarts(w.store.faults, 1);
    if Validates(m, w) {
      var w1 := Later(w, 5, 1);
      CommitShape(m, w1, strategy);
      assert Execute(w, m.id, m.req, strategy) == Commit(w1, m.id, JobOf(m, w1), m.req, strategy);
    }
  }

  // ---- Recover ------------------------------------------------------------------------------

  /** Recovery has opened both directories and read both names and the record. */
  predicate Surveys(w: World) {
    Fs(w, 0) == Fs(w, 1) == Fs(w, 2) == Fs(w, 3) == Proceed && Db(w, 0) == Proceed
  }

  /** The destination holds the object but the record is one write behind, and the
      recovery's look at the final name fails after everything before it went
      through: the move is then recorded as FAILED although it was delivered. */
  predicate Misjudges(m: Move, w: World)
    requires m.Sound() && m.id in w.store.rows
  {
    && Surveys(w) && AtDest(m, w) && JobOf(m, w).state.Transferring?
    && Fs(w, 4) == Fail && Db(w, 1) == Proceed && Db(w, 2) == Proceed
  }

  predicate RecoverCut(m: Move, w: World, strategy: MoveStrategy)
    requires m.Sound() && m.id in w.store.rows
  {
    Surveys(w) && Cut(m, Later(w, 4, 1), strategy)
  }

  lemma RedriveShape(m: Move, w: World, strategy: MoveStrategy)
    requires Inv(m, w) && !AtBoth(m, w) && !JobOf(m, w).state.Failed?
    ensures var w' := Redrive(w, m.id, m.req, strategy, m.S(), m.roots[m.req.destDir]).1;
            && m.id in w'.store.rows
            && (JobOf(m, w').state.Failed? <==>
                  && AtDest(m, w) && JobOf(m, w).state.Transferring?
                  && Fs(w, 0) == Fail && Db(w, 0) == Proceed && Db(w, 1) == Proceed)
            && (AtBoth(m, w') <==> Cut(m, w, strategy))
  {
    hide Execute, FinishAfterCommit, LegalHistory;
    var tick := NextTick(JobOf(m, w).updatedAt);
    if AtSource(m, w) {
      ExecuteShape(m, w, strategy);
    } else {
      FinishIsCalm(m, w, tick);
      FinishIsCalm(m, w.(files := w.files.Classify(m.D()).1), tick);
    }
  }

  lemma RecoverShape(m: Move, w: World, strategy: MoveStrategy)
    requires Inv(m, w) && !AtBoth(m, w) && !JobOf(m, w).state.Failed?
    ensures var w' := Recover(w, m.id, m.req, strategy).1;
            && m.id in w'.store.rows
            && (JobOf(m, w').state.Failed? <==> Misjudges(m, w))
            && (AtBoth(m, w') <==> RecoverCut(m, w, strategy))
  {
    hide Redrive, LegalHistory, Head, Tail, Nth, Drop;
    ScriptStarts(w.files.faults, 4);
    ScriptStarts(w.store.faults, 2);
    if Surveys(w) {
      var w1 := Later(w, 4, 1);
      RedriveShape(m, w1, strategy);
      LaterReads(w, 4, 1);
      assert Recover(w, m.id, m.req, strategy) == Redrive(w1, m.id, m.req, strategy, m.S(), m.roots[m.req.destDir]);
    }
  }

  lemma LaterReads(w: World, fs: nat, db: nat)
    ensures Fs(Later(w, fs, db), 0) == Fs(w, fs)
    ensures Db(Later(w, fs, db), 0) == Db(w, db) && Db(Later(w, fs, db), 1) == Db(w, db + 1)
  {}

  /** A misjudged move stays where it is. */
  lemma MisjudgedStaysPut(m: Move, w: World, strategy: MoveStrategy)
    requires Inv(m, w) && Misjudges(m, w)
    ensures Recover(w, m.id, m.req, strategy).1.files.disk == w.files.disk
  {
    hide Execute, FinishAfterCommit, LegalHistory, Head, Tail, Nth, Drop;
    ScriptStarts(w.files.faults, 5);
    ScriptStarts(w.store.faults, 2);
  }

  // ---- One call -----------------------------------------------------------------------------

  predicate CallMisjudges(m: Move, w: World, c: Call)
    requires m.Sound() && m.id in w.store.rows
  {
    c.recover && Misjudges(m, Armed(w, c))
  }

  predicate CallCut(m: Move, w: World, c: Call)
    requires m.Sound() && m.id in w.store.rows
  {
    if c.recover then RecoverCut(m, Armed(w, c), c.strategy) else Cut(m, Armed(w, c), c.strategy)
  }

  /** A call records FAILED exactly when it misjudges, and leaves both names bound exactly
      when it is cut between link and unlink, under either strategy. */
  lemma FailsExactlyWhenMisjudged(m: Move, w: World, c: Call)
    requires Inv(m, w) && !AtBoth(m, w) && !JobOf(m, w).state.Failed?
    ensures var w' := Apply(m, w, c).1;
            && Inv(m, w')
            && (JobOf(m, w').state.Failed? <==> CallMisjudges(m, w, c))
            && (AtBoth(m, w') <==> CallCut(m, w, c))
  {
    hide Execute, Recover, LegalHistory, Misjudges, RecoverCut, Cut;
    ApplyKeeps(m, w, c);
    if c.recover {
      RecoverShape(m, Armed(w, c), c.strategy);
    } else {
      ExecuteShape(m, Armed(w, c), c.strategy);
    }
  }

  /** A failed record is final. */
  lemma FailedStays(m: Move, w: World, w': World)
    requires Inv(m, w) && Advances(m, w, w') && JobOf(m, w).state.Failed?
    ensures JobOf(m, w').state.Failed?
  {
    hide LegalHistory;
    var h, h' := HistoryOf(w.store, m.id), HistoryOf(w'.store, m.id);
    HistoryIsShort(h');
    assert h[|h| - 1] == h'[|h| - 1] && h'[|h'| - 1] == JobOf(m, w');
  }

  lemma FailedExecute(m: Move, w: World, strategy: MoveStrategy)
    requires Inv(m, w) && JobOf(m, w).state.Failed?
    ensures SameDurable(w, Execute(w, m.id, m.req, strategy).1)
  {
    hide Commit, LegalHistory;
  }

  /** And once it is recorded no call moves the object any more. */
  lemma FailedFreezes(m: Move, w: World, c: Call)
    requires Inv(m, w) && JobOf(m, w).state.Failed?
    ensures Apply(m, w, c).1.files.disk == w.files.disk
  {
    hide Execute, LegalHistory, Deliver;
    if !c.recover || AtSource(m, w) {
      FailedAnywhere(m, w, c);
    }
  }

  lemma FailedAnywhere(m: Move, w: World, c: Call)
    requires Inv(m, w) && JobOf(m, w).state.Failed? && (!c.recover || AtSource(m, w))
    ensures Apply(m, w, c).1.files.disk == w.files.disk
  {
    hide Execute, LegalHistory, Deliver;
    var w0 := Armed(w, c);
    if !c.recover {
      FailedExecute(m, w0, c.strategy);
    } else {
      var (v1, f1) := w0.files.OpenRoot(m.req.sourceDir);
      var (v2, f2) := f1.OpenRoot(m.req.destDir);
      var (v3, f3) := f2.ClassifyMoveState(m.S(), m.T());
      FailedExecute(m, World(f3, w0.store.Load().1), c.strategy);
    }
  }
}
