/** The machine with the disk is the manager machine: an engine call taken whole amounts, for
    the job's row, to the loads and writes the manager machine takes one by one. */
module EngineSteps {
  import opened Jobs
  import opened Faults
  import opened Stores
  import opened FileOps
  import opened Mover
  import opened MoverRuns
  import opened Dispatching
  import opened Manager
  import opened ManagerProofs
  import opened ManagerRuns
  import opened ManagerScenes
  import opened Together
  import opened Story
  import P = MoverProofs

  /** What the engine does to a row: record a transition, or raise the flag. */
  datatype RowOp = Enter(to: JobState) | Raise

  /** The row after some of these, the times counting from what execute loaded. */
  function AfterOps(rec: Record, base: int, ops: seq<RowOp>): Option<Record>
    decreases |ops|
  {
    if ops == [] then Some(rec)
    else if ops[0].Raise? then AfterOps(rec.(attention := true), base, ops[1..])
    else
      var next := Transitioned(rec.job, ops[0].to, base + Rank(ops[0].to), "");
      if next.None? then None
      else AfterOps(Record(next.value, rec.attention, rec.History()), base, ops[1..])
  }

  lemma {:induction false} OpsConcat(rec: Record, base: int, a: seq<RowOp>, b: seq<RowOp>)
    requires AfterOps(rec, base, a).Some?
    ensures AfterOps(rec, base, a + b) == AfterOps(AfterOps(rec, base, a).value, base, b)
    decreases |a|
  {
    if a == [] {
      assert a + b == b;
    } else {
      assert (a + b)[1..] == a[1..] + b;
      if a[0].Raise? {
        OpsConcat(rec.(attention := true), base, a[1..], b);
      } else {
        var next := Transitioned(rec.job, a[0].to, base + Rank(a[0].to), "").value;
        OpsConcat(Record(next, rec.attention, rec.History()), base, a[1..], b);
      }
    }
  }

  /** The row of the job went from `w` to `w'` by these. */
  predicate By(w: World, id: string, base: int, ops: seq<RowOp>, w': World) {
    id in w.store.rows && id in w'.store.rows && AfterOps(w.store.rows[id], base, ops) == Some(w'.store.rows[id])
  }

  lemma ByConcat(w: World, id: string, base: int, a: seq<RowOp>, w1: World, b: seq<RowOp>, w2: World)
    requires By(w, id, base, a, w1) && By(w1, id, base, b, w2)
    ensures By(w, id, base, a + b, w2)
  {
    hide AfterOps;
    OpsConcat(w.store.rows[id], base, a, b);
  }

  lemma UpdateBy(w: World, id: string, base: int, to: JobState) returns (ops: seq<RowOp>)
    requires id in w.store.rows
    ensures By(w, id, base, ops, w.(store := w.store.UpdateState(id, to, base + Rank(to), "").1))
  {
    var st' := w.store.UpdateState(id, to, base + Rank(to), "").1;
    ops := if st'.rows == w.store.rows then [] else [Enter(to)];
    assert ops != [] ==> ops[1..] == [];
  }

  lemma FlagBy(w: World, id: string, base: int, o: MoveOutcome) returns (ops: seq<RowOp>)
    requires id in w.store.rows
    ensures By(w, id, base, ops, Flag(w, id, o).1)
  {
    var w' := Flag(w, id, o).1;
    ops := if w'.store.rows == w.store.rows then [] else [Raise];
    assert ops != [] ==> ops[1..] == [];
  }

  lemma UpdateOrFlagBy(w: World, id: string, base: int, to: JobState, o: MoveOutcome) returns (ops: seq<RowOp>)
    requires id in w.store.rows
    ensures var w1 := w.(store := w.store.UpdateState(id, to, base + Rank(to), "").1);
            By(w, id, base, ops, Flag(w1, id, o).1)
  {
    hide AfterOps;
    var w1 := w.(store := w.store.UpdateState(id, to, base + Rank(to), "").1);
    var a := UpdateBy(w, id, base, to);
    var b := FlagBy(w1, id, base, o);
    ByConcat(w, id, base, a, w1, b, Flag(w1, id, o).1);
    ops := a + b;
  }

  lemma RecordDoneBy(w: World, id: string, base: int) returns (ops: seq<RowOp>)
    requires id in w.store.rows
    ensures By(w, id, base, ops, RecordDone(w, id, base + 3).1)
  {
    hide By, Flag, Store.UpdateState;
    var v := w.store.UpdateState(id, Done, base + 3, "").0;
    if v == Fail {
      ops := UpdateOrFlagBy(w, id, base, Done, HaltedAfterCommit);
    } else {
      ops := UpdateBy(w, id, base, Done);
    }
  }

  lemma FilesDoNotCount(w: World, f: Files, id: string, base: int, ops: seq<RowOp>, w': World)
    requires By(w.(files := f), id, base, ops, w')
    ensures By(w, id, base, ops, w')
  {}

  lemma NothingBy(w: World, id: string, base: int, w': World)
    requires id in w.store.rows && w'.store.rows == w.store.rows
    ensures By(w, id, base, [], w')
  {}

  lemma DeliverBy(w: World, id: string, req: MoveRequest, dest: nat, base: int) returns (ops: seq<RowOp>)
    requires id in w.store.rows
    ensures By(w, id, base, ops, Deliver(w, id, req, dest, base + 2).1)
  {
    hide By, Flag, RecordDone, Files.Publish;
    var staging, final := Loc(dest, StagingName(id)), Loc(dest, req.destName);
    var (v1, f1) := w.files.Classify(staging);
    var (v2, f2) := f1.Classify(final);
    var seen := v1 == Proceed && staging in f1.disk;
    var (v3, f3) := if seen then f2.Publish(staging, final) else (Proceed, f2);
    if v1 == Crash || v2 == Crash || (seen && v3 == Crash) {
      ops := [];
      NothingBy(w, id, base, Deliver(w, id, req, dest, base + 2).1);
    } else if !seen && !(v2 == Proceed && final in f2.disk) {
      ops := FlagBy(w.(files := f2), id, base, FailedExternal);
      FilesDoNotCount(w, f2, id, base, ops, Deliver(w, id, req, dest, base + 2).1);
    } else if v3 == Fail {
      ops := FlagBy(w.(files := f3), id, base, HaltedAfterCommit);
      FilesDoNotCount(w, f3, id, base, ops, Deliver(w, id, req, dest, base + 2).1);
    } else {
      ops := RecordDoneBy(w.(files := f3), id, base);
      FilesDoNotCount(w, f3, id, base, ops, Deliver(w, id, req, dest, base + 2).1);
    }
  }

  lemma FinishBy(w: World, id: string, req: MoveRequest, dest: nat, base: int) returns (ops: seq<RowOp>)
    requires id in w.store.rows
    ensures By(w, id, base, ops, FinishAfterCommit(w, id, req, dest, base + 2).1)
  {
    hide By, Flag, Deliver, Store.UpdateState;
    var (v1, st1) := w.store.Load();
    var w1 := w.(store := st1);
    var end := FinishAfterCommit(w, id, req, dest, base + 2).1;
    NothingBy(w, id, base, w1);
    var job := st1.rows[id].job;
    if v1 != Proceed || IsTerminal(job.state) {
      ops := [];
    } else if job.state.Renaming? {
      var (v2, st2) := st1.UpdateState(id, Transferring, base + 2, "");
      var w2 := w1.(store := st2);
      var a := UpdateBy(w1, id, base, Transferring);
      HasRow(w1, id, base, a, w2);
      if v2 == Crash {
        ops := a;
      } else if v2 == Fail {
        ops := UpdateOrFlagBy(w1, id, base, Transferring, HaltedAfterCommit);
      } else {
        var b := DeliverBy(w2, id, req, dest, base);
        ByConcat(w1, id, base, a, w2, b, end);
        ops := a + b;
      }
      ByConcat(w, id, base, [], w1, ops, end);
      assert [] + ops == ops;
    } else {
      ops := DeliverBy(w1, id, req, dest, base);
      ByConcat(w, id, base, [], w1, ops, end);
      assert [] + ops == ops;
    }
  }

  lemma HasRow(w: World, id: string, base: int, ops: seq<RowOp>, w': World)
    requires By(w, id, base, ops, w')
    ensures id in w'.store.rows
  {}

  lemma CommitBy(w: World, id: string, job: JobData, req: MoveRequest, strategy: MoveStrategy) returns (ops: seq<RowOp>)
    requires id in w.store.rows && req.sourceDir in w.files.roots && req.destDir in w.files.roots
    ensures By(w, id, job.updatedAt, ops, Commit(w, id, job, req, strategy).1)
  {
    hide By, FinishAfterCommit, Store.UpdateState, Files.MoveWithin;
    var base := job.updatedAt;
    var dest := w.files.roots[req.destDir];
    var (v1, st1) := if job.state.Queued? then w.store.UpdateState(id, Renaming, base + 1, "") else (Proceed, w.store);
    var w1 := w.(store := st1);
    var a := [];
    if job.state.Queued? {
      a := UpdateBy(w, id, base, Renaming);
    } else {
      NothingBy(w, id, base, w1);
    }
    HasRow(w, id, base, a, w1);
    var (v2, f2) := w1.files.MoveWithin(Loc(w.files.roots[req.sourceDir], req.sourceName), Loc(dest, StagingName(id)), strategy);
    var end := Commit(w, id, job, req, strategy).1;
    if v1 != Proceed {
      ops := a;
    } else if v2 != Proceed {
      NothingBy(w1, id, base, end);
      ByConcat(w, id, base, a, w1, [], end);
      ops := a + [];
    } else {
      var b := FinishBy(w1.(files := f2), id, req, dest, base);
      FilesDoNotCount(w1, f2, id, base, b, end);
      ByConcat(w, id, base, a, w1, b, end);
      ops := a + b;
    }
  }

  /** Whatever an execute does to the row of its job is a series of such steps. */
  lemma ExecuteBy(w: World, id: string, req: MoveRequest, strategy: MoveStrategy) returns (ops: seq<RowOp>)
    requires id in w.store.rows
    ensures By(w, id, w.store.rows[id].job.updatedAt, ops, Execute(w, id, req, strategy).1)
  {
    hide By, Commit, Files.Classify, Files.OpenRegular, ValidExternalPath;
    var base := w.store.rows[id].job.updatedAt;
    var end := Execute(w, id, req, strategy).1;
    var (v2, f2) := w.files.OpenRoot(req.sourceDir);
    var (v3, f3) := f2.OpenRoot(req.destDir);
    if end.store.rows == w.store.rows {
      ops := [];
      NothingBy(w, id, base, end);
    } else {
      var source := Loc(f3.roots[req.sourceDir], req.sourceName);
      RootsStay(f3, source);
      var f4 := f3.Classify(source).1.OpenRegular(source).1.Classify(source).1;
      var w1 := World(f4, w.store.Load().1);
      ops := CommitBy(w1, id, w.store.rows[id].job, req, strategy);
      FilesDoNotCount(w.(store := w1.store), f4, id, base, ops, end);
      NothingBy(w, id, base, w.(store := w1.store));
      ByConcat(w, id, base, [], w.(store := w1.store), ops, end);
      assert [] + ops == ops;
    }
  }

  lemma RootsStay(f: Files, l: Loc)
    ensures f.Classify(l).1.OpenRegular(l).1.Classify(l).1.roots == f.roots
    ensures f.Classify(l).1.OpenRegular(l).1.roots == f.roots && f.Classify(l).1.roots == f.roots
  {}

  // ---- The same, step by step ---------------------------------------------------------------------

  lemma FlagGoes(s: Machine, t: Tid, id: Id)
    requires s.At(t).Moving? && s.At(t).id == id && id in s.rows
    ensures Goes(s, t, EngineFlag, s.Flag(id))
  {
    hide FreeStep, ClaimStep, CancelStep;
  }

  /** The engine's steps on the row, taken by the manager machine. */
  lemma {:induction false} OpsRun(s: Machine, t: Tid, id: Id, now: int, base: int, ops: seq<RowOp>) returns (tr: Trace)
    requires s.At(t) == Moving(id, now, Some(base), None) && id in s.rows && AfterOps(s.rows[id].rec, base, ops).Some?
    ensures Runs(s, tr, SetRecord(s, id, AfterOps(s.rows[id].rec, base, ops).value))
    decreases |ops|
  {
    hide Runs, Goes;
    var rec := s.rows[id].rec;
    if ops == [] {
      tr := [];
      assert SetRecord(s, id, rec) == s;
      NoSteps(s);
    } else {
      var first, s1;
      if ops[0].Raise? {
        s1 := s.Flag(id);
        FlagGoes(s, t, id);
        RunsOne(s, t, EngineFlag, s1);
        first := [(t, EngineFlag)];
      } else {
        first := WriteScene(s, t, id, now, base, ops[0].to);
        s1 := s.Write(id, Transitioned(rec.job, ops[0].to, base + Rank(ops[0].to), "").value);
      }
      var rest := OpsRun(s1, t, id, now, base, ops[1..]);
      var end := AfterOps(rec, base, ops).value;
      assert SetRecord(s1, id, end) == SetRecord(s, id, end);
      RunsConcat(s, first, s1, rest, SetRecord(s, id, end));
      tr := first + rest;
    }
  }

  lemma NoSteps(s: Machine)
    ensures Runs(s, [], s)
  {}

  function Ended(id: Id, now: int, a: Action): Local
    requires a.EngineEnd?
  {
    if a.outcome.AbortedBeforeCommit? then Aborted(id, now, a.error)
    else if a.outcome.Rejected? then Condemning(id, a.error)
    else Settling(id, false, 0)
  }

  lemma EndGoes(s: Machine, t: Tid, a: Action)
    requires s.At(t).Moving? && a.EngineEnd?
    ensures Goes(s, t, a, s.Put(t, Ended(s.At(t).id, s.At(t).now, a)))
  {
    hide FreeStep, ClaimStep, CancelStep;
  }

  /** An engine call taken whole is a run of the manager machine. */
  lemma CallIsRun(m: P.Move, j: Joint, t: Tid, a: Action, c: Call, j': Joint) returns (tr: Trace)
    requires JInv(m, j) && InEngine(m, j.s, t) && JStep(m, j, t, a, c) == Some(j')
    ensures Runs(j.s, tr, j'.s)
  {
    hide Runs, Goes, Execute, Step, Inv, AfterOps;
    var (s, now) := (j.s, j.s.At(t).now);
    var base := s.rows[m.id].Job().updatedAt;
    var s0 := s.Put(t, Moving(m.id, now, Some(base), None));
    LoadGoes(s, t, m.id, now);
    RunsOne(s, t, EngineLoad, s0);
    var w := Armed(View(m, j), c);
    var ops := ExecuteBy(w, m.id, m.req, c.strategy);
    var rec := Execute(w, m.id, m.req, c.strategy).1.store.rows[m.id];
    var mid := OpsRun(s0, t, m.id, now, base, ops);
    var s1 := SetRecord(s0, m.id, rec);
    RunsConcat(s, [(t, EngineLoad)], s0, mid, s1);
    EndGoes(s1, t, a);
    CallKeeps(m, s, t, rec, a);
    var s2 := s1.Put(t, Ended(m.id, now, a));
    assert s2 == j'.s by {
      assert s.threads[t := s0.At(t)][t := Ended(m.id, now, a)] == s.threads[t := Ended(m.id, now, a)];
    }
    RunsOne(s1, t, a, s2);
    RunsConcat(s, [(t, EngineLoad)] + mid, s1, [(t, a)], s2);
    tr := [(t, EngineLoad)] + mid + [(t, a)];
  }

  /** Every run with the disk is, for the manager, one of its runs: what holds of those, one
      place and one thread per job, legal histories, bounded retries, holds here too. */
  lemma {:induction false} RunIsManagerRun(m: P.Move, j: Joint, tr: JTrace, j': Joint) returns (plain: Trace)
    requires JInv(m, j) && JRuns(m, j, tr, j')
    ensures Runs(j.s, plain, j'.s)
    decreases |tr|
  {
    hide Runs, JInv, Step, Apply, Disciplined;
    if tr == [] {
      NoSteps(j.s);
      return [];
    }
    var (t, a, c) := tr[0];
    var j1 := JStep(m, j, t, a, c).value;
    JStepKeeps(m, j, t, a, c);
    var first;
    if InEngine(m, j.s, t) {
      first := CallIsRun(m, j, t, a, c, j1);
    } else {
      RunsOne(j.s, t, a, j1.s);
      first := [(t, a)];
    }
    var rest := RunIsManagerRun(m, j1, tr[1..], j');
    RunsConcat(j.s, first, j1.s, rest, j'.s);
    plain := first + rest;
  }

  /** A job just submitted to a fresh manager, its file in place, is where such runs start. */
  lemma SubmittedStarts(m: P.Move, s: Machine, now: int, files: Files)
    requires Started(s) && m.id !in s.rows && m.Sound() && files.roots == m.roots && P.Placed(m, files.disk, true, false, false)
    ensures JStarted(m, Joint(Fresh(s, m.id, m.req, now), files))
  {
    hide Runs, Recorded;
    var f := Fresh(s, m.id, m.req, now);
    var tr := SubmitScene(s, m.id, m.req, now);
    FreshIsOk(s);
    ManagerRuns.RunKeeps(s, tr, f);
    var rec := f.rows[m.id].rec;
    assert rec.History() == [rec.job];
  }

  lemma FreshIsOk(s: Machine)
    requires Started(s)
    ensures Inv(s)
  {}
}
