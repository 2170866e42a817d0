/** Exactly when a call reports that the object was removed from outside: under the
    standing assumptions it never was, so every such report is a mistaken look. */
module External {
  import opened Jobs
  import opened Faults
  import opened Stores
  import opened FileOps
  import opened Mover
  import opened MoverProofs
  import opened MoverRuns
  import opened MoverVerdicts
  import opened Convergence

  const REPORT := Returned(FailedExternal)

  /** Both looks of the delivery miss the object, and the process lives to say so. */
  predicate DeliverMisses(m: Move, w: World)
    requires m.Sound()
  {
    && Db(w, 0) != Crash
    && (if m.T() in w.files.disk then Fs(w, 0) == Fail && Fs(w, 1) != Crash else Fs(w, 0) != Crash && Fs(w, 1) == Fail)
  }

  lemma DeliverReports(m: Move, w: World, tick: int)
    requires Inv(m, w) && JobOf(m, w).state.Transferring?
    ensures Deliver(w, m.id, m.req, m.roots[m.req.destDir], tick).0 == REPORT <==> DeliverMisses(m, w)
  {
    hide LegalHistory, RecordDone, Files.Publish, Head, Tail, Nth, Drop;
    ScriptStarts(w.files.faults, 2);
    ScriptStarts(w.store.faults, 1);
    var f2 := w.files.Classify(m.T()).1.Classify(m.D()).1;
    RecordNeverReports(w.(files := f2), m.id, NextTick(tick));
    RecordNeverReports(w.(files := f2.Publish(m.T(), m.D()).1), m.id, NextTick(tick));
  }

  lemma RecordNeverReports(w: World, id: string, tick: int)
    ensures RecordDone(w, id, tick).0 != REPORT
  {}

  /** The record is read, and brought to TRANSFERRING where it is not there yet. */
  predicate FinishMisses(m: Move, w: World)
    requires m.Sound() && m.id in w.store.rows
  {
    && Db(w, 0) == Proceed
    && (match JobOf(m, w).state
        case Renaming => Db(w, 1) == Db(w, 2) == Proceed && DeliverMisses(m, Later(w, 0, 3))
        case Transferring => DeliverMisses(m, Later(w, 0, 1))
        case _ => false)
  }

  lemma FinishReports(m: Move, w: World, tick: int)
    requires Inv(m, w) && m.S() !in w.files.disk && JobOf(m, w).updatedAt < tick
    ensures FinishAfterCommit(w, m.id, m.req, m.roots[m.req.destDir], tick).0 == REPORT <==> FinishMisses(m, w)
  {
    hide Deliver, LegalHistory, Head, Tail, Nth, Drop;
    ScriptStarts(w.store.faults, 3);
    ScriptStarts(w.files.faults, 0);
    var w1 := Later(w, 0, 1);
    if JobOf(m, w).state.Renaming? {
      RecordAdvances(m, w1, Transferring, tick, "");
      var w2 := w1.(store := w1.store.UpdateState(m.id, Transferring, tick, "").1);
      if Db(w, 1) == Db(w, 2) == Proceed {
        DeliverReports(m, w2, tick);
        assert w2.files == Later(w, 0, 3).files && w2.store.faults == Later(w, 0, 3).store.faults;
      }
    } else if JobOf(m, w).state.Transferring? {
      DeliverReports(m, w1, tick);
    }
  }

  /** The commit goes through, and the delivery after it misses the object at the staging name. */
  predicate CommitMisses(m: Move, w: World, strategy: MoveStrategy)
    requires m.id in w.store.rows
  {
    var k := if JobOf(m, w).state.Queued? then 2 else 0;
    var j := if strategy.LinkThenUnlink? then 2 else 1;
    && RecordReady(m, w) && Fs(w, 0) == Proceed && (strategy.LinkThenUnlink? ==> Fs(w, 1) == Proceed)
    && Db(w, k) == Db(w, k + 1) == Db(w, k + 2) == Proceed
    && Fs(w, j) == Fail && Fs(w, j + 1) != Crash && Db(w, k + 3) != Crash
  }

  /** The world right after a commit that went through. */
  lemma CommitDone(m: Move, w: World, strategy: MoveStrategy) returns (w2: World)
    requires Inv(m, w) && AtSource(m, w) && !IsTerminal(JobOf(m, w).state)
    requires RecordReady(m, w) && Fs(w, 0) == Proceed && (strategy.LinkThenUnlink? ==> Fs(w, 1) == Proceed)
    ensures Inv(m, w2) && AtStaging(m, w2) && JobOf(m, w2).state.Renaming?
    ensures JobOf(m, w2).updatedAt < NextTick(NextTick(JobOf(m, w).updatedAt))
    ensures Commit(w, m.id, JobOf(m, w), m.req, strategy)
            == FinishAfterCommit(w2, m.id, m.req, m.roots[m.req.destDir], NextTick(NextTick(JobOf(m, w).updatedAt)))
    ensures w2.files.faults == Drop(w.files.faults, if strategy.LinkThenUnlink? then 2 else 1)
    ensures w2.store.faults == Drop(w.store.faults, if JobOf(m, w).state.Queued? then 2 else 0)
  {
    hide FinishAfterCommit, LegalHistory, Head, Tail, Nth, Drop;
    ScriptStarts(w.files.faults, 2);
    ScriptStarts(w.store.faults, 2);
    var tick := NextTick(JobOf(m, w).updatedAt);
    if JobOf(m, w).state.Queued? {
      RecordAdvances(m, w, Renaming, tick, "");
    }
    var (v1, st1) := if JobOf(m, w).state.Queued? then w.store.UpdateState(m.id, Renaming, tick, "") else (Proceed, w.store);
    var w1 := w.(store := st1);
    CommitAdvances(m, w1, strategy);
    w2 := w1.(files := w1.files.MoveWithin(m.S(), m.T(), strategy).1);
  }

  lemma CommitReports(m: Move, w: World, strategy: MoveStrategy)
    requires Inv(m, w) && AtSource(m, w) && !IsTerminal(JobOf(m, w).state)
    ensures Commit(w, m.id, JobOf(m, w), m.req, strategy).0 == REPORT <==> CommitMisses(m, w, strategy)
  {
    hide FinishAfterCommit, LegalHistory, Nth, Drop, Head, Tail;
    ScriptStarts(w.files.faults, 2);
    ScriptStarts(w.store.faults, 2);
    if RecordReady(m, w) && Fs(w, 0) == Proceed && (strategy.LinkThenUnlink? ==> Fs(w, 1) == Proceed) {
      var w2 := CommitDone(m, w, strategy);
      FinishReports(m, w2, NextTick(NextTick(JobOf(m, w).updatedAt)));
      hide Commit;
      DropReads(w.files.faults, if strategy.LinkThenUnlink? then 2 else 1);
      DropReads(w.store.faults, if JobOf(m, w).state.Queued? then 2 else 0);
      DropReads(w2.store.faults, 3);
      DropReads(w2.files.faults, 0);
    } else {
      CommitStopsEarly(m, w, strategy);
    }
  }

  lemma DropReads(script: seq<Verdict>, k: nat)
    ensures forall i: nat :: Nth(Drop(script, k), i) == Nth(script, k + i)
    ensures Drop(script, 0) == script
  {}

  lemma CommitStopsEarly(m: Move, w: World, strategy: MoveStrategy)
    requires Inv(m, w) && AtSource(m, w) && !IsTerminal(JobOf(m, w).state)
    requires !(RecordReady(m, w) && Fs(w, 0) == Proceed && (strategy.LinkThenUnlink? ==> Fs(w, 1) == Proceed))
    ensures Commit(w, m.id, JobOf(m, w), m.req, strategy).0 != REPORT
  {
    hide FinishAfterCommit, LegalHistory, Nth, Drop, Head, Tail;
    ScriptStarts(w.files.faults, 2);
    ScriptStarts(w.store.faults, 2);
  }

  predicate ExecuteMisses(m: Move, w: World, strategy: MoveStrategy)
    requires m.Sound() && m.id in w.store.rows
  {
    && Validates(m, w) && m.T() !in w.files.disk && !JobOf(m, w).state.Failed?
    && CommitMisses(m, Later(w, 5, 1), strategy)
  }

  lemma ExecuteReports(m: Move, w: World, strategy: MoveStrategy)
    requires Inv(m, w)
    ensures Execute(w, m.id, m.req, strategy).0 == REPORT <==> ExecuteMisses(m, w, strategy)
  {
    hide Commit, LegalHistory, Head, Tail, Nth, Drop, CommitMisses;
    ScriptStarts(w.files.faults, 5);
    ScriptStarts(w.store.faults, 1);
    if Validates(m, w) && !JobOf(m, w).state.Failed? {
      var w1 := Later(w, 5, 1);
      assert Execute(w, m.id, m.req, strategy) == Commit(w1, m.id, JobOf(m, w1), m.req, strategy);
      if AtSource(m, w1) {
        CommitReports(m, w1, strategy);
      } else {
        BothNeverReport(m, w1, strategy);
      }
    }
  }

  lemma BothNeverReport(m: Move, w: World, strategy: MoveStrategy)
    requires Inv(m, w) && AtBoth(m, w) && !JobOf(m, w).state.Failed?
    ensures Commit(w, m.id, JobOf(m, w), m.req, strategy).0 != REPORT
  {
    hide FinishAfterCommit, LegalHistory;
  }

  /** Recovery finds neither name bound, its look at the final name fails, and the write of
      FAILED that follows, whether or not it goes through, is survived. */
  predicate LookMisses(m: Move, w: World)
    requires m.Sound() && m.id in w.store.rows
  {
    && Fs(w, 0) == Fail && Db(w, 0) != Crash
    && (Db(w, 0) == Proceed && !IsTerminal(JobOf(m, w).state) ==> Db(w, 1) != Crash)
  }

  predicate RedriveMisses(m: Move, w: World, strategy: MoveStrategy)
    requires m.Sound() && m.id in w.store.rows
  {
    if m.S() in w.files.disk then ExecuteMisses(m, w, strategy)
    else if m.T() in w.files.disk then FinishMisses(m, w)
    else LookMisses(m, w) || (Fs(w, 0) == Proceed && FinishMisses(m, Later(w, 1, 0)))
  }

  lemma RedriveReports(m: Move, w: World, strategy: MoveStrategy)
    requires Inv(m, w)
    ensures Redrive(w, m.id, m.req, strategy, m.S(), m.roots[m.req.destDir]).0 == REPORT <==> RedriveMisses(m, w, strategy)
  {
    hide Execute, FinishAfterCommit, LegalHistory, Head, Tail, Nth, Drop, FinishMisses;
    ScriptStarts(w.files.faults, 1);
    ScriptStarts(w.store.faults, 1);
    var tick := NextTick(JobOf(m, w).updatedAt);
    if AtSource(m, w) {
      ExecuteReports(m, w, strategy);
    } else if AtStaging(m, w) {
      FinishReports(m, w, tick);
    } else if AtDest(m, w) {
      FinishReports(m, Later(w, 1, 0), tick);
    }
  }

  predicate RecoverMisses(m: Move, w: World, strategy: MoveStrategy)
    requires m.Sound() && m.id in w.store.rows
  {
    Surveys(w) && RedriveMisses(m, Later(w, 4, 1), strategy)
  }

  lemma RecoverReports(m: Move, w: World, strategy: MoveStrategy)
    requires Inv(m, w)
    ensures Recover(w, m.id, m.req, strategy).0 == REPORT <==> RecoverMisses(m, w, strategy)
  {
    hide Redrive, LegalHistory, Head, Tail, Nth, Drop, RedriveMisses;
    ScriptStarts(w.files.faults, 4);
    ScriptStarts(w.store.faults, 2);
    if Surveys(w) {
      var w1 := Later(w, 4, 1);
      RedriveReports(m, w1, strategy);
      assert Recover(w, m.id, m.req, strategy) == Redrive(w1, m.id, m.req, strategy, m.S(), m.roots[m.req.destDir]);
    }
  }

  predicate CallMisses(m: Move, w: World, c: Call)
    requires m.Sound() && m.id in w.store.rows
  {
    if c.recover then RecoverMisses(m, Armed(w, c), c.strategy) else ExecuteMisses(m, Armed(w, c), c.strategy)
  }

  /** FailedExternal, exactly. The outcome promises that neither source nor destination is
      present. From every state of the invariant it is returned if and only if the looks the
      call takes fail at the wrong moment, and then the object is at the staging name or
      delivered, and the source name free: the promise fails every time. */
  lemma ExternalExactly(m: Move, w: World, c: Call)
    requires Inv(m, w)
    ensures Apply(m, w, c).0 == REPORT <==> CallMisses(m, w, c)
    ensures CallMisses(m, w, c) ==> AtStaging(m, Apply(m, w, c).1) || AtDest(m, Apply(m, w, c).1)
  {
    hide Execute, Recover, LegalHistory, RecoverMisses, ExecuteMisses;
    ApplyKeeps(m, w, c);
    if c.recover {
      RecoverReports(m, Armed(w, c), c.strategy);
    } else {
      ExecuteReports(m, Armed(w, c), c.strategy);
    }
  }

  // ---- Both branches are reachable -----------------------------------------------------------

  /** An execute whose look at the staging name fails right after the commit... */
  const BLIND_DELIVERY := Call(false, RenameNoReplace, [Proceed, Proceed, Proceed, Proceed, Proceed, Proceed, Fail], [])

  /** ...reports the object gone with the record not FAILED. */
  lemma DeliveryReports(m: Move, w: World)
    requires Initial(m, w)
    ensures var (e, w') := Apply(m, w, BLIND_DELIVERY);
            && e == REPORT && Inv(m, w') && !JobOf(m, w').state.Failed?
            && (AtStaging(m, w') || AtDest(m, w'))
  {
    hide Apply, LegalHistory;
    assert CallMisses(m, w, BLIND_DELIVERY);
    ExternalExactly(m, w, BLIND_DELIVERY);
    FailsExactlyWhenMisjudged(m, w, BLIND_DELIVERY);
  }

  /** A recovery whose look at the final name fails reports a delivered object gone and records FAILED. */
  lemma RecoveryReports(m: Move, w: World)
    requires Initial(m, w)
    ensures var w1 := Apply(m, w, LosesDone(Crash)).1;
            var (e, w2) := Apply(m, w1, BLIND_RECOVERY);
            e == REPORT && AtDest(m, w2) && m.id in w2.store.rows && JobOf(m, w2).state.Failed?
  {
    hide Apply, LegalHistory;
    DeliversWithoutDone(m, w, Crash);
    var w1 := Apply(m, w, LosesDone(Crash)).1;
    assert CallMisses(m, w1, BLIND_RECOVERY);
    ExternalExactly(m, w1, BLIND_RECOVERY);
    DeliveredYetFailed(m, w);
    RunTwo(m, w, LosesDone(Crash), BLIND_RECOVERY);
  }

  lemma RunTwo(m: Move, w: World, a: Call, b: Call)
    ensures Run(m, w, [a, b]) == Apply(m, Apply(m, w, a).1, b).1
  {
    hide Apply;
    assert [a, b][1..] == [b] && [b][1..] == [];
    var w1 := Apply(m, w, a).1;
    assert Run(m, w1, [b]) == Run(m, Apply(m, w1, b).1, []);
  }
}
