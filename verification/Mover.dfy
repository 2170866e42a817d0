/** The move engine (mover.cpp): six phases around one commit rename, and the
    recovery that re-drives an interrupted move from what is on disk. */
module Mover {
  import opened Jobs
  import opened Faults
  import opened Stores
  import opened FileOps

  datatype MoveRequest = MoveRequest(sourceDir: string, sourceName: string, destDir: string, destName: string)

  datatype MoveOutcome = Completed | Rejected | AbortedBeforeCommit | HaltedAfterCommit | FailedExternal

  /** How a call ends: with an outcome, or with the process dying part-way. */
  datatype End = Returned(outcome: MoveOutcome) | Crashed

  /** Everything that survives a crash, with the environment's remaining choices. */
  datatype World = World(files: Files, store: Store)

  const COLLISION: string := "staging name exists and is not the object we moved"
  const REMOVED: string := "neither source nor staged destination exists"

  function StagingName(id: string): string { ".swit-partial-" + id }

  function NextTick(previous: int): int { previous + 1 }

  /** A call that did not proceed ends the run: by crashing, or with outcome `o`. */
  function Stop(v: Verdict, o: MoveOutcome, w: World): (End, World) {
    (if v == Crash then Crashed else Returned(o), w)
  }

  /** Flags the job for an operator, best effort, and ends with `o`. */
  function Flag(w: World, id: string, o: MoveOutcome): (End, World) {
    var (v, st) := w.store.MarkAttention(id);
    Stop(v, o, w.(store := st))
  }

  function Execute(w: World, id: string, req: MoveRequest, strategy: MoveStrategy): (End, World) {
    if !ValidExternalPath(req.sourceDir) || !ValidExternalPath(req.destDir) then (Returned(Rejected), w)
    else
      var (v1, st1) := w.store.Load();
      var w1 := w.(store := st1);
      if v1 != Proceed || id !in st1.rows then Stop(v1, Rejected, w1)
      else
        var (v2, f2) := w1.files.OpenRoot(req.sourceDir);
        if v2 != Proceed then Stop(v2, Rejected, w1.(files := f2))
        else
          var (v3, f3) := f2.OpenRoot(req.destDir);
          if v3 != Proceed then Stop(v3, Rejected, w1.(files := f3))
          else
            Validated(w1.(files := f3), id, st1.rows[id].job, req, strategy)
  }

  /** Phase 1 once the record and both directories are in hand, then phases 2 and 3. */
  function Validated(w: World, id: string, job: JobData, req: MoveRequest, strategy: MoveStrategy): (End, World)
    requires req.sourceDir in w.files.roots && req.destDir in w.files.roots
  {
    var source := Loc(w.files.roots[req.sourceDir], req.sourceName);
    var (v1, f1) := w.files.Classify(source);
    var w1 := w.(files := f1);
    if v1 != Proceed || source !in f1.disk || !f1.disk[source].kind.Regular? then Stop(v1, Rejected, w1)
    else
      var (v2, f2) := f1.OpenRegular(source);
      if v2 != Proceed then Stop(v2, Rejected, w.(files := f2))
      else
        // The second look only feeds the progress callback; a failure is ignored.
        var (v3, f3) := f2.Classify(source);
        var w3 := w.(files := f3);
        if v3 == Crash then (Crashed, w3)
        else if job.state.Done? then (Returned(Completed), w3)
        else if job.state.Failed? then (Returned(Rejected), w3)
        else Commit(w3, id, job, req, strategy)
  }

  function Commit(w: World, id: string, job: JobData, req: MoveRequest, strategy: MoveStrategy): (End, World)
    requires req.sourceDir in w.files.roots && req.destDir in w.files.roots
  {
    var source := Loc(w.files.roots[req.sourceDir], req.sourceName);
    var dest := w.files.roots[req.destDir];
    var tick := NextTick(job.updatedAt);
    var (v1, st1) := if job.state.Queued? then w.store.UpdateState(id, Renaming, tick, "") else (Proceed, w.store);
    var w1 := w.(store := st1);
    if v1 != Proceed then Stop(v1, AbortedBeforeCommit, w1)
    else
      var (v2, f2) := w1.files.MoveWithin(source, Loc(dest, StagingName(id)), strategy);
      var w2 := w1.(files := f2);
      if v2 != Proceed then Stop(v2, AbortedBeforeCommit, w2)
      else FinishAfterCommit(w2, id, req, dest, NextTick(tick))
  }

  /** Phases 4 to 6. Everything here is past the commit point. */
  function FinishAfterCommit(w: World, id: string, req: MoveRequest, dest: nat, tick: int): (End, World) {
    var (v1, st1) := w.store.Load();
    var w1 := w.(store := st1);
    if v1 != Proceed || id !in st1.rows then Stop(v1, HaltedAfterCommit, w1)
    else
      var job := st1.rows[id].job;
      if job.state.Done? then (Returned(Completed), w1)
      else if job.state.Failed? then (Returned(HaltedAfterCommit), w1)
      else
        var (v2, st2) := if job.state.Renaming? then st1.UpdateState(id, Transferring, tick, "") else (Proceed, st1);
        var w2 := w1.(store := st2);
        if v2 == Crash then (Crashed, w2)
        else if v2 == Fail then Flag(w2, id, HaltedAfterCommit)
        else Deliver(w2, id, req, dest, tick)
  }

  function Deliver(w: World, id: string, req: MoveRequest, dest: nat, tick: int): (End, World) {
    var staging, final := Loc(dest, StagingName(id)), Loc(dest, req.destName);
    var (v1, f1) := w.files.Classify(staging);
    if v1 == Crash then (Crashed, w.(files := f1))
    else
      var sawStaged := v1 == Proceed && staging in f1.disk;
      var (v2, f2) := f1.Classify(final);
      var w2 := w.(files := f2);
      if v2 == Crash then (Crashed, w2)
      else
        var sawFinal := v2 == Proceed && final in f2.disk;
        if !sawStaged && !sawFinal then Flag(w2, id, FailedExternal)
        else
          var (v3, f3) := if sawStaged then f2.Publish(staging, final) else (Proceed, f2);
          var w3 := w2.(files := f3);
          if v3 == Crash then (Crashed, w3)
          else if v3 == Fail then Flag(w3, id, HaltedAfterCommit)
          else RecordDone(w3, id, NextTick(tick))
  }

  function RecordDone(w: World, id: string, tick: int): (End, World) {
    var (v, st) := w.store.UpdateState(id, Done, tick, "");
    var w1 := w.(store := st);
    if v == Crash then (Crashed, w1)
    else if v == Fail then Flag(w1, id, HaltedAfterCommit)
    else (Returned(Completed), w1)
  }

  function Recover(w: World, id: string, req: MoveRequest, strategy: MoveStrategy): (End, World) {
    var (v1, f1) := w.files.OpenRoot(req.sourceDir);
    if v1 != Proceed then Stop(v1, Rejected, w.(files := f1))
    else
      var (v2, f2) := f1.OpenRoot(req.destDir);
      if v2 != Proceed then Stop(v2, Rejected, w.(files := f2))
      else
        var source, dest := Loc(f2.roots[req.sourceDir], req.sourceName), f2.roots[req.destDir];
        var staging := Loc(dest, StagingName(id));
        var (v3, f3) := f2.ClassifyMoveState(source, staging);
        if v3 != Proceed then Stop(v3, Rejected, w.(files := f3))
        else
          var (v4, st4) := w.store.Load();
          var w4 := World(f3, st4);
          if v4 != Proceed || id !in st4.rows then Stop(v4, Rejected, w4)
          else
            Redrive(w4, id, req, strategy, source, dest)
  }

  /** Recovery once the disk and the record have been read: the disk decides. */
  function Redrive(w: World, id: string, req: MoveRequest, strategy: MoveStrategy, source: Loc, dest: nat): (End, World)
    requires id in w.store.rows
  {
    var staging, final := Loc(dest, StagingName(id)), Loc(dest, req.destName);
    var tick := NextTick(w.store.rows[id].job.updatedAt);
    match JudgeMoveState(w.files.disk, source, staging)
    case NotStarted => Execute(w, id, req, strategy)
    case Interrupted =>
      var (v, f) := w.files.MoveWithin(source, staging, LinkThenUnlink);
      var w1 := w.(files := f);
      if v == Crash then (Crashed, w1)
      else if v == Fail then Flag(w1, id, HaltedAfterCommit)
      else FinishAfterCommit(w1, id, req, dest, tick)
    case MoveCompleted => FinishAfterCommit(w, id, req, dest, tick)
    case Collision => Condemn(w, id, tick, COLLISION, HaltedAfterCommit)
    case BothMissing =>
      var (v, f) := w.files.Classify(final);
      var w1 := w.(files := f);
      if v == Crash then (Crashed, w1)
      else if v == Proceed && final in f.disk then FinishAfterCommit(w1, id, req, dest, tick)
      else Condemn(w1, id, tick, REMOVED, FailedExternal)
  }

  /** Records FAILED, best effort, and ends with `o`. */
  function Condemn(w: World, id: string, tick: int, message: string, o: MoveOutcome): (End, World) {
    var (v, st) := w.store.UpdateState(id, Failed, tick, message);
    Stop(v, o, w.(store := st))
  }

  class MoveEngine {
    const store: JobStore
    const files: FileSystem

    constructor (store: JobStore, files: FileSystem)
      ensures this.store == store && this.files == files
    {
      this.store, this.files := store, files;
    }

    function State(): World
      reads store, files
    {
      World(files.State(), store.State())
    }

    method MarkAndEnd(id: string, o: MoveOutcome) returns (end: End)
      modifies store
      ensures (end, State()) == Flag(old(State()), id, o)
    {
      var v := store.MarkAttention(id);
      end := if v == Crash then Crashed else Returned(o);
    }

    method ExecuteMove(id: string, req: MoveRequest, strategy: MoveStrategy) returns (end: End)
      modifies store, files
      ensures (end, State()) == Execute(old(State()), id, req, strategy)
    {
      // Phase 1: validate.
      if !ValidExternalPath(req.sourceDir) || !ValidExternalPath(req.destDir) {
        return Returned(Rejected);
      }
      var v, loaded := store.Load(id);
      if v == Crash {
        return Crashed;
      }
      if v != Proceed || loaded.None? {
        return Returned(Rejected);
      }
      var job := loaded.value;
      var sourceDir: nat;
      var destDir: nat;
      v, sourceDir := files.OpenRoot(req.sourceDir);
      if v != Proceed {
        return if v == Crash then Crashed else Returned(Rejected);
      }
      v, destDir := files.OpenRoot(req.destDir);
      if v != Proceed {
        return if v == Crash then Crashed else Returned(Rejected);
      }
      var source := Loc(sourceDir, req.sourceName);
      var seen: Option<FileIdentity>;
      v, seen := files.Classify(source);
      if v != Proceed || seen.None? || !seen.value.kind.Regular? {
        return if v == Crash then Crashed else Returned(Rejected);
      }
      v := files.OpenRegular(source);
      if v != Proceed {
        return if v == Crash then Crashed else Returned(Rejected);
      }
      v, seen := files.Classify(source);
      if v == Crash {
        return Crashed;
      }
      // Phase 2: durable QUEUED -> RENAMING.
      if job.state.Done? {
        return Returned(Completed);
      }
      if job.state.Failed? {
        return Returned(Rejected);
      }
      var tick := NextTick(job.updatedAt);
      if job.state.Queued? {
        v := store.UpdateState(id, Renaming, tick, "");
        if v != Proceed {
          return if v == Crash then Crashed else Returned(AbortedBeforeCommit);
        }
      }
      // Phase 3: the commit point.
      v := files.MoveWithin(source, Loc(destDir, StagingName(id)), strategy);
      if v != Proceed {
        return if v == Crash then Crashed else Returned(AbortedBeforeCommit);
      }
      end := Finish(id, req, destDir, NextTick(tick));
    }

    method Finish(id: string, req: MoveRequest, dest: nat, tick: int) returns (end: End)
      modifies store, files
      ensures (end, State()) == FinishAfterCommit(old(State()), id, req, dest, tick)
    {
      var v, loaded := store.Load(id);
      if v == Crash {
        return Crashed;
      }
      if v != Proceed || loaded.None? {
        return Returned(HaltedAfterCommit);
      }
      var job := loaded.value;
      if job.state.Done? {
        return Returned(Completed);
      }
      if job.state.Failed? {
        return Returned(HaltedAfterCommit);
      }
      // Phase 4: durable RENAMING -> TRANSFERRING.
      if job.state.Renaming? {
        v := store.UpdateState(id, Transferring, tick, "");
        if v == Crash {
          return Crashed;
        }
        if v == Fail {
          end := MarkAndEnd(id, HaltedAfterCommit);
          return;
        }
      }
      // Phase 5: publish, unless an earlier attempt already did.
      var staging, final := Loc(dest, StagingName(id)), Loc(dest, req.destName);
      var staged: Option<FileIdentity>;
      var published: Option<FileIdentity>;
      v, staged := files.Classify(staging);
      if v == Crash {
        return Crashed;
      }
      v, published := files.Classify(final);
      if v == Crash {
        return Crashed;
      }
      if staged.Some? {
        v := files.Publish(staging, final);
        if v == Crash {
          return Crashed;
        }
        if v == Fail {
          end := MarkAndEnd(id, HaltedAfterCommit);
          return;
        }
      } else if published.None? {
        end := MarkAndEnd(id, FailedExternal);
        return;
      }
      // Phase 6: durable TRANSFERRING -> DONE.
      v := store.UpdateState(id, Done, NextTick(tick), "");
      if v == Crash {
        return Crashed;
      }
      if v == Fail {
        end := MarkAndEnd(id, HaltedAfterCommit);
        return;
      }
      return Returned(Completed);
    }

    method RecoverMove(id: string, req: MoveRequest, strategy: MoveStrategy) returns (end: End)
      modifies store, files
      ensures (end, State()) == Recover(old(State()), id, req, strategy)
    {
      var v, sourceDir := files.OpenRoot(req.sourceDir);
      if v != Proceed {
        return if v == Crash then Crashed else Returned(Rejected);
      }
      var destDir: nat;
      v, destDir := files.OpenRoot(req.destDir);
      if v != Proceed {
        return if v == Crash then Crashed else Returned(Rejected);
      }
      var source, staging := Loc(sourceDir, req.sourceName), Loc(destDir, StagingName(id));
      var state: MoveState;
      v, state := files.ClassifyMoveState(source, staging);
      if v != Proceed {
        return if v == Crash then Crashed else Returned(Rejected);
      }
      var loaded: Option<JobData>;
      v, loaded := store.Load(id);
      if v == Crash {
        return Crashed;
      }
      if v != Proceed || loaded.None? {
        return Returned(Rejected);
      }
      var tick := NextTick(loaded.value.updatedAt);
      match state {
        case NotStarted =>
          end := ExecuteMove(id, req, strategy);
        case Interrupted =>
          v := files.MoveWithin(source, staging, LinkThenUnlink);
          if v == Crash {
            return Crashed;
          }
          if v == Fail {
            end := MarkAndEnd(id, HaltedAfterCommit);
            return;
          }
          end := Finish(id, req, destDir, tick);
        case MoveCompleted =>
          end := Finish(id, req, destDir, tick);
        case Collision =>
          v := store.UpdateState(id, Failed, tick, COLLISION);
          end := if v == Crash then Crashed else Returned(HaltedAfterCommit);
        case BothMissing =>
          var published: Option<FileIdentity>;
          v, published := files.Classify(Loc(destDir, req.destName));
          if v == Crash {
            return Crashed;
          }
          if published.Some? {
            end := Finish(id, req, destDir, tick);
            return;
          }
          v := store.UpdateState(id, Failed, tick, REMOVED);
          end := if v == Crash then Crashed else Returned(FailedExternal);
      }
    }
  }
}
