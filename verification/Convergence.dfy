/** Whole runs of execute and recover calls: exactly when one undisturbed recovery
    delivers the object, and runs for both exceptions. */
module Convergence {
  import opened Jobs
  import opened Faults
  import opened Stores
  import opened FileOps
  import opened Mover
  import opened MoverProofs
  import opened MoverRuns
  import opened MoverVerdicts

  /** The object can still be delivered: no interrupted link, no FAILED record. */
  ghost predicate Open(m: Move, w: World) {
    Inv(m, w) && !AtBoth(m, w) && !JobOf(m, w).state.Failed?
  }

  /** No call of the run misjudges a delivered move or is cut between link and unlink. */
  predicate NeverSpoiled(m: Move, w: World, calls: seq<Call>)
    requires m.Sound()
    decreases |calls|
  {
    calls != [] && m.id in w.store.rows ==>
      && !CallMisjudges(m, w, calls[0]) && !CallCut(m, w, calls[0])
      && NeverSpoiled(m, Apply(m, w, calls[0]).1, calls[1..])
  }

  /** FAILED is never left, and nothing moves any more once it is recorded. */
  lemma {:induction false} FailedIsFinal(m: Move, w: World, calls: seq<Call>)
    requires Inv(m, w) && JobOf(m, w).state.Failed?
    ensures var w' := Run(m, w, calls);
            Inv(m, w') && JobOf(m, w').state.Failed? && w'.files.disk == w.files.disk
    decreases |calls|
  {
    hide Apply, LegalHistory;
    if calls != [] {
      var w1 := Apply(m, w, calls[0]).1;
      ApplyKeeps(m, w, calls[0]);
      FailedStays(m, w, w1);
      FailedFreezes(m, w, calls[0]);
      FailedIsFinal(m, w1, calls[1..]);
    }
  }

  /** Once closed, closed for good. */
  lemma {:induction false} ClosedForGood(m: Move, w: World, calls: seq<Call>)
    requires Inv(m, w) && !Open(m, w)
    ensures Inv(m, Run(m, w, calls)) && !Open(m, Run(m, w, calls))
  {
    hide LegalHistory;
    RunKeeps(m, w, calls);
    if AtBoth(m, w) {
      InterruptedNeverRecovers(m, w, calls);
    } else {
      FailedIsFinal(m, w, calls);
    }
  }

  lemma {:induction false} RunOutcome(m: Move, w: World, calls: seq<Call>)
    requires Open(m, w)
    ensures Inv(m, Run(m, w, calls)) && (Open(m, Run(m, w, calls)) <==> NeverSpoiled(m, w, calls))
    decreases |calls|
  {
    hide Apply, LegalHistory, CallMisjudges, CallCut;
    if calls != [] {
      FailsExactlyWhenMisjudged(m, w, calls[0]);
      var w1 := Apply(m, w, calls[0]).1;
      if Open(m, w1) {
        RunOutcome(m, w1, calls[1..]);
      } else {
        ClosedForGood(m, w1, calls[1..]);
      }
    }
  }

  const QUIET: seq<Verdict> := []

  /** Crash convergence. After any run of calls, under either strategy, with crashes and
      failures anywhere, one undisturbed recovery delivers the original object and records
      DONE if and only if no call of the run misjudged a delivered move and none was cut
      between link and unlink. */
  lemma CrashConvergence(m: Move, w: World, calls: seq<Call>, strategy: MoveStrategy)
    requires Initial(m, w)
    ensures Delivered(m, Apply(m, Run(m, w, calls), Call(true, strategy, QUIET, QUIET))) <==> NeverSpoiled(m, w, calls)
  {
    hide Recover, LegalHistory, NeverSpoiled;
    RunOutcome(m, w, calls);
    QuietRecover(m, Armed(Run(m, w, calls), Call(true, strategy, QUIET, QUIET)), strategy);
  }

  /** In particular, under RenameNoReplace, crashes and failing store writes alone never
      prevent it, and recovering once more changes nothing. */
  lemma CrashesAndLostWritesConverge(m: Move, w: World, calls: seq<Call>)
    requires Initial(m, w)
    requires forall i :: 0 <= i < |calls| ==> calls[i].strategy.RenameNoReplace? && Never(calls[i].fs, Fail)
    ensures var c := Call(true, RenameNoReplace, QUIET, QUIET);
            var r := Apply(m, Run(m, w, calls), c);
            && Delivered(m, r) && SameDurable(r.1, Apply(m, r.1, c).1)
  {
    hide Recover, LegalHistory, NeverSpoiled;
    RunOutcome(m, w, calls);
    NoProbeFailureNoHarm(m, w, calls);
    CrashConvergence(m, w, calls, RenameNoReplace);
    var c := Call(true, RenameNoReplace, QUIET, QUIET);
    var w' := Run(m, w, calls);
    ApplyKeeps(m, w', c);
    DoneIsFinal(m, Apply(m, w', c).1, c);
  }

  lemma {:induction false} NoProbeFailureNoHarm(m: Move, w: World, calls: seq<Call>)
    requires m.Sound()
    requires forall i :: 0 <= i < |calls| ==> calls[i].strategy.RenameNoReplace? && Never(calls[i].fs, Fail)
    ensures NeverSpoiled(m, w, calls)
    decreases |calls|
  {
    hide Apply;
    if calls != [] && m.id in w.store.rows {
      assert !CallMisjudges(m, w, calls[0]) by {
        assert Never(calls[0].fs, Fail);
      }
      NoProbeFailureNoHarm(m, Apply(m, w, calls[0]).1, calls[1..]);
    }
  }

  // ---- Both exceptions are reachable -----------------------------------------------------------

  /** An execute whose last store write does not go through... */
  function LosesDone(v: Verdict): Call {
    Call(false, RenameNoReplace, [], [Proceed, Proceed, Proceed, Proceed, Proceed, Proceed, v])
  }
  /** ...and a recovery whose look at the final name fails. */
  const BLIND_RECOVERY := Call(true, RenameNoReplace, [Proceed, Proceed, Proceed, Proceed, Fail], [])
  /** An execute that dies between the link and the unlink. */
  const DIES_AFTER_LINK := Call(false, LinkThenUnlink,
                                [Proceed, Proceed, Proceed, Proceed, Proceed, Proceed, Crash], [])

  function LastWriteLost(v: Verdict): seq<Verdict> { [Proceed, Proceed, Proceed, v] }

  lemma NothingLeft()
    ensures Head([]) == Proceed && Tail([]) == []
  {}

  lemma FinishLosesDone(m: Move, w: World, tick: int, v: Verdict)
    requires Inv(m, w) && AtStaging(m, w) && JobOf(m, w).state.Renaming? && v != Proceed
    requires w.files.faults == [] && w.store.faults == LastWriteLost(v)
    ensures var w' := FinishAfterCommit(w, m.id, m.req, m.roots[m.req.destDir], tick).1;
            m.id in w'.store.rows && AtDest(m, w') && JobOf(m, w').state.Transferring?
  {
    assert Nth(LastWriteLost(v), 3) == v && forall k :: 0 <= k < 3 ==> Nth(LastWriteLost(v), k) == Proceed;
    hide LegalHistory, Nth, Drop, Head, Tail;
    ScriptStarts(LastWriteLost(v), 4);
    NothingLeft();
  }

  /** The object is delivered and the record one write behind, the process dead or alive. */
  lemma DeliversWithoutDone(m: Move, w: World, v: Verdict)
    requires Initial(m, w) && v != Proceed
    ensures var w' := Apply(m, w, LosesDone(v)).1;
            Inv(m, w') && AtDest(m, w') && JobOf(m, w').state.Transferring?
  {
    hide LegalHistory, FinishAfterCommit;
    ApplyKeeps(m, w, LosesDone(v));
    var tick := NextTick(JobOf(m, w).updatedAt);
    var script := [Proceed, Proceed, Proceed] + LastWriteLost(v);
    assert LosesDone(v).db == script;
    assert Tail(Tail(Tail(script))) == LastWriteLost(v);
    var w0 := Armed(w, LosesDone(v));
    var w1 := w0.(store := w0.store.Next());
    RecordAdvances(m, w1, Renaming, tick, "");
    var w2 := w1.(store := w1.store.UpdateState(m.id, Renaming, tick, "").1);
    CommitAdvances(m, w2, RenameNoReplace);
    FinishLosesDone(m, w2.(files := w2.files.MoveWithin(m.S(), m.T(), RenameNoReplace).1), NextTick(tick), v);
  }

  /** A delivered move can end up recorded as FAILED. */
  lemma DeliveredYetFailed(m: Move, w: World)
    requires Initial(m, w)
    ensures var w' := Run(m, w, [LosesDone(Crash), BLIND_RECOVERY]);
            m.id in w'.store.rows && JobOf(m, w').state.Failed? && AtDest(m, w')
  {
    hide Recover, Execute, LegalHistory;
    DeliversWithoutDone(m, w, Crash);
    var w1 := Apply(m, w, LosesDone(Crash)).1;
    assert CallMisjudges(m, w1, BLIND_RECOVERY);
    FailsExactlyWhenMisjudged(m, w1, BLIND_RECOVERY);
    var w2 := Apply(m, w1, BLIND_RECOVERY).1;
    MisjudgedStaysPut(m, Armed(w1, BLIND_RECOVERY), RenameNoReplace);
    assert [LosesDone(Crash), BLIND_RECOVERY][1..] == [BLIND_RECOVERY];
    assert Run(m, w1, [BLIND_RECOVERY]) == Run(m, w2, []);
  }

  /** A link/unlink move can be left with both names bound, for good. */
  lemma InterruptedIsReachable(m: Move, w: World)
    requires Initial(m, w)
    ensures var w' := Apply(m, w, DIES_AFTER_LINK).1;
            Inv(m, w') && AtBoth(m, w') && JobOf(m, w').state.Renaming?
  {
    hide LegalHistory, Apply;
    ApplyKeeps(m, w, DIES_AFTER_LINK);
    assert CallCut(m, w, DIES_AFTER_LINK);
    FailsExactlyWhenMisjudged(m, w, DIES_AFTER_LINK);
  }
}
