/** A move over its whole life in the program: besides calls of the engine on their own,
    a worker's execute with what the manager records after it, and a cancel. */
module Lifetime {
  import opened Jobs
  import opened Faults
  import opened Stores
  import opened FileOps
  import opened Mover
  import opened MoverProofs
  import opened MoverRuns
  import opened MoverVerdicts
  import opened Convergence
  import Manager

  /** `fail_permanently`: the attempt is counted (best effort, no version of the row), the
      record read, and FAILED written unless it is there already. */
  function GiveUp(w: World, id: string, reason: string): World {
    var (v1, st1) := w.store.Load();
    if v1 == Crash then w.(store := st1)
    else
      var (v2, st2) := st1.Load();
      if v2 != Proceed || id !in st2.rows || st2.rows[id].job.state.Failed? then w.(store := st2)
      else w.(store := st2.UpdateState(id, Failed, NextTick(st2.rows[id].job.updatedAt), reason).1)
  }

  /** The store part of `cancel`. */
  function Withdraw(w: World, id: string): World {
    var (v1, st1) := w.store.Load();
    if v1 != Proceed || id !in st1.rows || !st1.rows[id].job.state.Queued? then w.(store := st1)
    else w.(store := st1.UpdateState(id, Failed, NextTick(st1.rows[id].job.updatedAt), Manager.CANCELLED).1)
  }

  /** What can happen to a job: an engine call on its own; a worker's execute, followed by
      `fail_permanently` when it was rejected, or aborted at the attempt ceiling; a cancel. */
  datatype Happening =
    | Direct(call: Call)
    | Dispatched(strategy: MoveStrategy, fs: seq<Verdict>, db: seq<Verdict>,
                 ceiling: bool, reason: string, after: seq<Verdict>)
    | Cancelled(db: seq<Verdict>)

  function Attempt(h: Happening): Call
    requires h.Dispatched?
  {
    Call(false, h.strategy, h.fs, h.db)
  }

  /** The worker gives the job up after this end of its execute. */
  predicate Ends(end: End, ceiling: bool) {
    end == Returned(Rejected) || (end == Returned(AbortedBeforeCommit) && ceiling)
  }

  function Rearmed(w: World, db: seq<Verdict>): World { w.(store := w.store.(faults := db)) }

  function Happen(m: Move, w: World, h: Happening): World {
    match h
    case Direct(c) => Apply(m, w, c).1
    case Dispatched(_, _, _, ceiling, reason, after) =>
      var (e, w1) := Apply(m, w, Attempt(h));
      if Ends(e, ceiling) then GiveUp(Rearmed(w1, after), m.id, reason) else w1
    case Cancelled(db) => Withdraw(Rearmed(w, db), m.id)
  }

  function Life(m: Move, w: World, hs: seq<Happening>): World
    decreases |hs|
  {
    if hs == [] then w else Life(m, Happen(m, w, hs[0]), hs[1..])
  }

  // ---- What is kept ------------------------------------------------------------------------

  lemma GiveUpShape(m: Move, w: World, reason: string)
    requires Inv(m, w)
    ensures var w' := GiveUp(w, m.id, reason);
            && Advances(m, w, w') && w'.files == w.files
            && (JobOf(m, w').state.Failed? <==>
                  || JobOf(m, w).state.Failed?
                  || (!IsTerminal(JobOf(m, w).state) && reason != "" && Db(w, 0) != Crash
                      && Db(w, 1) == Db(w, 2) == Db(w, 3) == Proceed))
  {
    hide LegalHistory, Head, Tail, Nth, Drop;
    ScriptStarts(w.store.faults, 4);
    var w1 := w.(store := w.store.Next().Next());
    RecordAdvances(m, w1, Failed, NextTick(JobOf(m, w).updatedAt), reason);
  }

  lemma WithdrawShape(m: Move, w: World)
    requires Inv(m, w)
    ensures var w' := Withdraw(w, m.id);
            && Advances(m, w, w') && w'.files == w.files
            && (JobOf(m, w').state.Failed? <==>
                  || JobOf(m, w).state.Failed?
                  || (JobOf(m, w).state.Queued? && Db(w, 0) == Db(w, 1) == Db(w, 2) == Proceed))
  {
    hide LegalHistory, Head, Tail, Nth, Drop;
    ScriptStarts(w.store.faults, 3);
    var w1 := w.(store := w.store.Next());
    RecordAdvances(m, w1, Failed, NextTick(JobOf(m, w).updatedAt), Manager.CANCELLED);
  }

  lemma HappenKeeps(m: Move, w: World, h: Happening)
    requires Inv(m, w)
    ensures Advances(m, w, Happen(m, w, h))
  {
    hide Apply, GiveUp, Withdraw, LegalHistory;
    match h
    case Direct(c) => ApplyKeeps(m, w, c);
    case Dispatched(_, _, _, ceiling, reason, after) =>
      ApplyKeeps(m, w, Attempt(h));
      var w1 := Apply(m, w, Attempt(h)).1;
      GiveUpShape(m, Rearmed(w1, after), reason);
      if Ends(Apply(m, w, Attempt(h)).0, ceiling) {
        AdvancesTrans(m, w, Rearmed(w1, after), Happen(m, w, h));
      }
    case Cancelled(db) => WithdrawShape(m, Rearmed(w, db));
  }

  /** Over the whole life: the record/disk invariant, the frame and a legal history, whoever writes. */
  lemma {:induction false} LifeIsSafe(m: Move, w: World, hs: seq<Happening>)
    requires Inv(m, w)
    ensures Advances(m, w, Life(m, w, hs))
    decreases |hs|
  {
    hide Happen, LegalHistory;
    if hs != [] {
      var w1 := Happen(m, w, hs[0]);
      HappenKeeps(m, w, hs[0]);
      LifeIsSafe(m, w1, hs[1..]);
      AdvancesTrans(m, w, w1, Life(m, w, hs));
    }
  }

  // ---- Exactly when a job is spoiled ----------------------------------------------------------

  /** The follow-up write after an execute goes through. */
  predicate WritesFailed(after: seq<Verdict>, reason: string) {
    reason != "" && Nth(after, 0) != Crash && Nth(after, 1) == Nth(after, 2) == Nth(after, 3) == Proceed
  }

  /** FAILED is recorded: by a recovery that misjudges, by a worker that gives the job up, or by a cancel. */
  predicate Condemns(m: Move, w: World, h: Happening)
    requires m.Sound() && m.id in w.store.rows
  {
    match h
    case Direct(c) => CallMisjudges(m, w, c)
    case Dispatched(strategy, _, _, ceiling, reason, after) =>
      var w0 := Armed(w, Attempt(h));
      && (Refuses(m, w0) || (ceiling && Aborts(m, w0, strategy)))
      && !IsTerminal(JobOf(m, w).state) && WritesFailed(after, reason)
    case Cancelled(db) => JobOf(m, w).state.Queued? && Nth(db, 0) == Nth(db, 1) == Nth(db, 2) == Proceed
  }

  /** The object is left under both names. */
  predicate CutsShort(m: Move, w: World, h: Happening)
    requires m.Sound() && m.id in w.store.rows
  {
    match h
    case Direct(c) => CallCut(m, w, c)
    case Dispatched(_, _, _, _, _, _) => CallCut(m, w, Attempt(h))
    case Cancelled(_) => false
  }

  lemma DispatchShape(m: Move, w: World, h: Happening)
    requires Open(m, w) && h.Dispatched?
    ensures var w' := Happen(m, w, h);
            && Inv(m, w')
            && (JobOf(m, w').state.Failed? <==> Condemns(m, w, h))
            && (AtBoth(m, w') <==> CutsShort(m, w, h))
  {
    hide Execute, GiveUp, LegalHistory, Refuses, Aborts, Cut;
    var w0 := Armed(w, Attempt(h));
    ExecuteShape(m, w0, h.strategy);
    ApplyKeeps(m, w, Attempt(h));
    var (e, w1) := Apply(m, w, Attempt(h));
    GiveUpShape(m, Rearmed(w1, h.after), h.reason);
    if e == Returned(AbortedBeforeCommit) {
      AbortNeedsSource(m, w0, h.strategy);
    }
  }

  /** What spoils an open job, exactly. */
  lemma HappenShape(m: Move, w: World, h: Happening)
    requires Open(m, w)
    ensures var w' := Happen(m, w, h);
            && Inv(m, w')
            && (JobOf(m, w').state.Failed? <==> Condemns(m, w, h))
            && (AtBoth(m, w') <==> CutsShort(m, w, h))
  {
    hide Apply, GiveUp, Withdraw, LegalHistory, CallMisjudges, CallCut;
    match h
    case Direct(c) => FailsExactlyWhenMisjudged(m, w, c);
    case Dispatched(_, _, _, _, _, _) => DispatchShape(m, w, h);
    case Cancelled(db) => WithdrawShape(m, Rearmed(w, db));
  }

  predicate NeverHarmed(m: Move, w: World, hs: seq<Happening>)
    requires m.Sound()
    decreases |hs|
  {
    hs != [] && m.id in w.store.rows ==>
      && !Condemns(m, w, hs[0]) && !CutsShort(m, w, hs[0])
      && NeverHarmed(m, Happen(m, w, hs[0]), hs[1..])
  }

  /** An interrupted link stays, whatever happens. */
  lemma StuckStays(m: Move, w: World, h: Happening)
    requires Inv(m, w) && AtBoth(m, w)
    ensures Inv(m, Happen(m, w, h)) && AtBoth(m, Happen(m, w, h))
  {
    hide Apply, GiveUp, Withdraw, LegalHistory;
    HappenKeeps(m, w, h);
    match h
    case Direct(c) => InterruptedIsStuck(m, w, c);
    case Dispatched(_, _, _, _, reason, after) =>
      InterruptedIsStuck(m, w, Attempt(h));
      ApplyKeeps(m, w, Attempt(h));
      GiveUpShape(m, Rearmed(Apply(m, w, Attempt(h)).1, after), reason);
    case Cancelled(db) => WithdrawShape(m, Rearmed(w, db));
  }

  lemma HappenClosed(m: Move, w: World, h: Happening)
    requires Inv(m, w) && !Open(m, w)
    ensures Inv(m, Happen(m, w, h)) && !Open(m, Happen(m, w, h))
  {
    hide Happen, LegalHistory;
    HappenKeeps(m, w, h);
    if AtBoth(m, w) {
      StuckStays(m, w, h);
    } else {
      FailedStays(m, w, Happen(m, w, h));
    }
  }

  lemma {:induction false} LifeClosed(m: Move, w: World, hs: seq<Happening>)
    requires Inv(m, w) && !Open(m, w)
    ensures Inv(m, Life(m, w, hs)) && !Open(m, Life(m, w, hs))
    decreases |hs|
  {
    hide Happen, Inv, Open;
    if hs != [] {
      HappenClosed(m, w, hs[0]);
      LifeClosed(m, Happen(m, w, hs[0]), hs[1..]);
    }
  }

  lemma {:induction false} LifeOutcome(m: Move, w: World, hs: seq<Happening>)
    requires Open(m, w)
    ensures Inv(m, Life(m, w, hs)) && (Open(m, Life(m, w, hs)) <==> NeverHarmed(m, w, hs))
    decreases |hs|
  {
    hide Happen, LegalHistory, Condemns, CutsShort;
    if hs != [] {
      var w1 := Happen(m, w, hs[0]);
      HappenShape(m, w, hs[0]);
      if Open(m, w1) {
        LifeOutcome(m, w1, hs[1..]);
      } else {
        LifeClosed(m, w1, hs[1..]);
      }
    }
  }

  /** Convergence over the whole life of a job. One undisturbed recovery delivers the object
      and records DONE if and only if nothing that happened condemned the job, be it a
      recovery that misjudged, a worker that gave up or a cancel, and nothing was cut
      between link and unlink. */
  lemma LifeConvergence(m: Move, w: World, hs: seq<Happening>, strategy: MoveStrategy)
    requires Initial(m, w)
    ensures Delivered(m, Apply(m, Life(m, w, hs), Call(true, strategy, QUIET, QUIET))) <==> NeverHarmed(m, w, hs)
  {
    hide Recover, LegalHistory, NeverHarmed, Life;
    LifeOutcome(m, w, hs);
    QuietRecover(m, Armed(Life(m, w, hs), Call(true, strategy, QUIET, QUIET)), strategy);
  }

  // ---- Condemned after the commit ----------------------------------------------------------------

  /** A moved job is condemned: its source name is free, and a recovery misjudges it or a
      worker is sent to it all the same and its refusal is recorded. */
  predicate CondemnsMoved(m: Move, w: World, h: Happening)
    requires m.Sound() && m.id in w.store.rows
  {
    && m.S() !in w.files.disk && !IsTerminal(JobOf(m, w).state)
    && match h
       case Direct(c) => CallMisjudges(m, w, c)
       case Dispatched(_, _, _, _, reason, after) => Refuses(m, Armed(w, Attempt(h))) && WritesFailed(after, reason)
       case Cancelled(_) => false
  }

  /** FAILED, and the source name free. */
  ghost predicate MovedYetFailed(m: Move, w: World) {
    Inv(m, w) && JobOf(m, w).state.Failed? && m.S() !in w.files.disk
  }

  lemma OpenCondemned(m: Move, w: World, h: Happening)
    requires Open(m, w)
    ensures MovedYetFailed(m, Happen(m, w, h)) <==> CondemnsMoved(m, w, h)
  {
    hide Execute, Recover, GiveUp, Withdraw, LegalHistory, Refuses, Aborts, Misjudges;
    HappenShape(m, w, h);
    match h
    case Direct(c) => MisjudgedKeepsSource(m, w, c);
    case Dispatched(_, _, _, ceiling, reason, after) =>
      var w0 := Armed(w, Attempt(h));
      ExecuteShape(m, w0, h.strategy);
      ApplyKeeps(m, w, Attempt(h));
      GiveUpShape(m, Rearmed(Apply(m, w, Attempt(h)).1, after), reason);
      if Aborts(m, w0, h.strategy) {
        AbortNeedsSource(m, w0, h.strategy);
      }
    case Cancelled(db) => WithdrawShape(m, Rearmed(w, db));
  }

  lemma AbortNeedsSource(m: Move, w: World, strategy: MoveStrategy)
    requires Inv(m, w) && !JobOf(m, w).state.Failed? && Aborts(m, w, strategy)
    ensures m.S() in w.files.disk && !IsTerminal(JobOf(m, w).state)
  {
    hide LegalHistory;
  }

  lemma MisjudgedKeepsSource(m: Move, w: World, c: Call)
    requires Inv(m, w)
    ensures CallMisjudges(m, w, c) ==> m.S() !in w.files.disk && m.S() !in Apply(m, w, c).1.files.disk
                                       && !IsTerminal(JobOf(m, w).state)
  {
    hide Recover, LegalHistory;
    if CallMisjudges(m, w, c) {
      MisjudgedStaysPut(m, Armed(w, c), c.strategy);
    }
  }

  lemma FailedHappens(m: Move, w: World, h: Happening)
    requires Inv(m, w) && JobOf(m, w).state.Failed?
    ensures Inv(m, Happen(m, w, h)) && JobOf(m, Happen(m, w, h)).state.Failed?
    ensures Happen(m, w, h).files.disk == w.files.disk
  {
    hide Apply, GiveUp, Withdraw, LegalHistory;
    HappenKeeps(m, w, h);
    FailedStays(m, w, Happen(m, w, h));
    match h
    case Direct(c) => FailedFreezes(m, w, c);
    case Dispatched(_, _, _, _, reason, after) =>
      FailedFreezes(m, w, Attempt(h));
      ApplyKeeps(m, w, Attempt(h));
      GiveUpShape(m, Rearmed(Apply(m, w, Attempt(h)).1, after), reason);
    case Cancelled(db) => WithdrawShape(m, Rearmed(w, db));
  }

  /** One happening leaves a moved job FAILED exactly when it was so already or is condemned now. */
  lemma HappenCondemned(m: Move, w: World, h: Happening)
    requires Inv(m, w)
    ensures Inv(m, Happen(m, w, h))
    ensures MovedYetFailed(m, Happen(m, w, h)) <==> MovedYetFailed(m, w) || CondemnsMoved(m, w, h)
  {
    hide Happen, LegalHistory, CallMisjudges, Refuses;
    HappenKeeps(m, w, h);
    if JobOf(m, w).state.Failed? {
      FailedHappens(m, w, h);
    } else if AtBoth(m, w) {
      StuckStays(m, w, h);
    } else {
      OpenCondemned(m, w, h);
    }
  }

  predicate EverCondemnedMoved(m: Move, w: World, hs: seq<Happening>)
    requires m.Sound()
    decreases |hs|
  {
    hs != [] && m.id in w.store.rows &&
      (CondemnsMoved(m, w, hs[0]) || EverCondemnedMoved(m, Happen(m, w, hs[0]), hs[1..]))
  }

  lemma {:induction false} LifeCondemned(m: Move, w: World, hs: seq<Happening>)
    requires Inv(m, w)
    ensures MovedYetFailed(m, Life(m, w, hs)) <==> MovedYetFailed(m, w) || EverCondemnedMoved(m, w, hs)
    decreases |hs|
  {
    hide Happen, LegalHistory, CondemnsMoved, MovedYetFailed;
    if hs != [] {
      HappenCondemned(m, w, hs[0]);
      LifeCondemned(m, Happen(m, w, hs[0]), hs[1..]);
    }
  }

  /** A job ends up FAILED with its source name free exactly when at some point a recovery
      misjudged it or a worker was sent to it after its source name was free. */
  lemma MovedYetFailedExactly(m: Move, w: World, hs: seq<Happening>)
    requires Initial(m, w)
    ensures MovedYetFailed(m, Life(m, w, hs)) <==> EverCondemnedMoved(m, w, hs)
  {
    hide Life, EverCondemnedMoved, LegalHistory;
    LifeCondemned(m, w, hs);
  }

  /** A worker whose last write fails, the job dispatched once more (a pause and a resume
      do that), and nothing else going wrong: delivered, FAILED, and beyond recovery. */
  lemma RedispatchedYetFailed(m: Move, w: World, strategy: MoveStrategy)
    requires Initial(m, w)
    ensures var again := Dispatched(RenameNoReplace, QUIET, QUIET, false, "source is missing", QUIET);
            var w' := Life(m, w, [LOSES_LAST_WRITE, again]);
            && MovedYetFailed(m, w') && AtDest(m, w')
            && !Delivered(m, Apply(m, w', Call(true, strategy, QUIET, QUIET)))
  {
    hide Apply, Happen, LegalHistory;
    var again := Dispatched(RenameNoReplace, QUIET, QUIET, false, "source is missing", QUIET);
    DeliversWithoutDone(m, w, Fail);
    var w1 := Happen(m, w, LOSES_LAST_WRITE);
    CarriedOn(m, w, LOSES_LAST_WRITE);
    assert CondemnsMoved(m, w1, again);
    HappenCondemned(m, w1, again);
    var w2 := Happen(m, w1, again);
    RefusalMovesNothing(m, w1, again);
    assert [LOSES_LAST_WRITE, again][1..] == [again];
    assert Life(m, w1, [again]) == Life(m, w2, []);
    NotDelivered(m, w2, strategy);
  }

  const LOSES_LAST_WRITE := Dispatched(RenameNoReplace, QUIET, LosesDone(Fail).db, false, "", QUIET)

  /** Nothing follows an execute that was neither rejected nor at the ceiling. */
  lemma CarriedOn(m: Move, w: World, h: Happening)
    requires Open(m, w) && h.Dispatched? && !h.ceiling && !Refuses(m, Armed(w, Attempt(h)))
    ensures Happen(m, w, h) == Apply(m, w, Attempt(h)).1
  {
    hide Execute, LegalHistory, Refuses;
    ExecuteShape(m, Armed(w, Attempt(h)), h.strategy);
  }

  /** One failing look at the record before anything was done is enough to end a job for
      good, with the source untouched: the worker takes it for a refusal. */
  lemma TransientFailureCondemns(m: Move, w: World)
    requires Initial(m, w)
    ensures var w' := Happen(m, w, Dispatched(RenameNoReplace, QUIET, [Fail], false, "store is busy", QUIET));
            Inv(m, w') && JobOf(m, w').state.Failed? && AtSource(m, w')
  {
    hide Happen, LegalHistory;
    var h := Dispatched(RenameNoReplace, QUIET, [Fail], false, "store is busy", QUIET);
    assert Condemns(m, w, h);
    HappenShape(m, w, h);
    HappenCondemned(m, w, h);
  }

  lemma NotDelivered(m: Move, w: World, strategy: MoveStrategy)
    requires Inv(m, w) && JobOf(m, w).state.Failed?
    ensures !Delivered(m, Apply(m, w, Call(true, strategy, QUIET, QUIET)))
  {
    hide Recover, LegalHistory;
    QuietRecover(m, Armed(w, Call(true, strategy, QUIET, QUIET)), strategy);
  }

  lemma RefusalMovesNothing(m: Move, w: World, h: Happening)
    requires Open(m, w) && h.Dispatched? && m.S() !in w.files.disk
    ensures Happen(m, w, h).files.disk == w.files.disk
  {
    hide Execute, GiveUp, LegalHistory, Refuses, Aborts, Cut;
    ApplyKeeps(m, w, Attempt(h));
    SourceGone(m, Armed(w, Attempt(h)), h.strategy);
    GiveUpShape(m, Rearmed(Apply(m, w, Attempt(h)).1, h.after), h.reason);
  }

  lemma SourceGone(m: Move, w: World, strategy: MoveStrategy)
    requires Inv(m, w) && m.S() !in w.files.disk
    ensures Execute(w, m.id, m.req, strategy).1.files.disk == w.files.disk
  {
    hide Commit, LegalHistory;
  }
}
