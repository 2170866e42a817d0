/** What the engine refuses, on any disk, table and request, stated on the request itself:
    paths by their components, names by their characters, entries by their kind. Nothing
    here assumes that the job, its names or its directories are in order. */
module Refusals {
  import opened Jobs
  import opened Ascii
  import opened Faults
  import opened Stores
  import opened FileOps
  import opened Mover
  import opened MoverProofs
  import opened MoverRuns
  import opened MoverVerdicts

  // ---- Paths by their components -------------------------------------------------------------

  /** The components of a path: what stands between its slashes. */
  function Split(path: string): (parts: seq<string>)
    ensures parts != []
  {
    if path == "" then [""]
    else
      var rest := Split(path[1..]);
      if path[0] == '/' then [""] + rest else [[path[0]] + rest[0]] + rest[1..]
  }

  predicate ControlFree(s: string) { forall i :: 0 <= i < |s| ==> s[i] as int >= 32 && s[i] as int != 127 }

  /** Absolute, free of control bytes, and no component is "..". */
  predicate Acceptable(path: string) { path != "" && path[0] == '/' && ControlFree(path) && ".." !in Split(path) }

  lemma FirstPart(path: string)
    ensures Split(path)[0] == "" <==> path == "" || path[0] == '/'
    ensures Split(path)[0] == "." <==> path != "" && path[0] == '.' && (|path| == 1 || path[1] == '/')
    ensures Split(path)[0] == ".." <==> HasDotDotAt(path, 0)
  {
    if path != "" && path[0] != '/' {
      var rest := path[1..];
      assert Split(path)[0] == [path[0]] + Split(rest)[0];
      assert Split(rest)[0] == "" <==> rest == "" || rest[0] == '/';
      if rest != "" && rest[0] != '/' {
        assert Split(rest)[0] == [rest[0]] + Split(rest[1..])[0];
        assert Split(rest[1..])[0] == "" <==> rest[1..] == "" || rest[1..][0] == '/';
      }
    }
  }

  lemma DotDotShifts(path: string, i: int)
    requires path != "" && i >= 1
    ensures i >= 2 || path[0] == '/' ==> (HasDotDotAt(path, i) <==> HasDotDotAt(path[1..], i - 1))
    ensures i == 1 && path[0] != '/' ==> !HasDotDotAt(path, i)
  {}

  lemma {:induction false} LaterParts(path: string)
    ensures ".." in Split(path)[1..] <==> exists i :: i >= 1 && HasDotDotAt(path, i)
    decreases |path|
  {
    if path != "" {
      var rest := path[1..];
      LaterParts(rest);
      FirstPart(rest);
      assert Split(rest) == [Split(rest)[0]] + Split(rest)[1..];
      if path[0] == '/' {
        assert Split(path)[1..] == Split(rest);
      } else {
        assert Split(path)[1..] == Split(rest)[1..];
      }
      forall i | i >= 1
        ensures HasDotDotAt(path, i) <==> HasDotDotAt(rest, i - 1) && (i >= 2 || path[0] == '/')
      {
        DotDotShifts(path, i);
      }
      if i :| i >= 1 && HasDotDotAt(path, i) {
        assert HasDotDotAt(rest, i - 1);
      }
      if i :| i >= 1 && HasDotDotAt(rest, i) {
        assert HasDotDotAt(path, i + 1);
      }
      if path[0] == '/' && HasDotDotAt(rest, 0) {
        assert HasDotDotAt(path, 1);
      }
    }
  }

  lemma PathsExactly(path: string)
    ensures ValidExternalPath(path) <==> Acceptable(path)
  {
    FirstPart(path);
    LaterParts(path);
    assert Split(path) == [Split(path)[0]] + Split(path)[1..];
    assert forall i :: HasDotDotAt(path, i) ==> 0 <= i < |path|;
    if ".." in Split(path) {
      assert exists i :: HasDotDotAt(path, i);
    }
  }

  /** Two dots inside a name are no component. */
  lemma DotsInsideNames()
    ensures Acceptable("/my..file") && !Acceptable("/srv/../etc") && !Acceptable("/srv/..") && !Acceptable("srv") && !Acceptable("")
  {
    PathsExactly("/my..file");
    PathsExactly("/srv/../etc");
    PathsExactly("/srv/..");
    assert HasDotDotAt("/srv/../etc", 5);
    assert HasDotDotAt("/srv/..", 5);
  }

  /** Whether execute gets as far as its first access, a store that is about to fail shows:
      exactly when both directories are acceptable. Otherwise it is Rejected with nothing
      touched, not even looked at. */
  lemma BadPathsAreRejected(w: World, id: string, req: MoveRequest, strategy: MoveStrategy)
    ensures Acceptable(req.sourceDir) && Acceptable(req.destDir) && Head(w.store.faults) == Crash ==>
              Execute(w, id, req, strategy).0 == Crashed
    ensures !Acceptable(req.sourceDir) || !Acceptable(req.destDir) ==>
              Execute(w, id, req, strategy) == (Returned(Rejected), w)
  {
    PathsExactly(req.sourceDir);
    PathsExactly(req.destDir);
    hide Validated;
  }

  // ---- Names --------------------------------------------------------------------------------------

  /** A name, not a path. */
  predicate PlainName(name: string) {
    name != "" && name != "." && name != ".." && forall i :: 0 <= i < |name| ==> name[i] != '/' && name[i] as int != 0
  }

  /** Looks and moves reach the disk exactly for plain names. */
  lemma BadNamesAreRefused(f: Files, a: Loc, b: Loc, strategy: MoveStrategy)
    ensures !PlainName(a.name) ==> f.Classify(a) == (Fail, f)
    ensures PlainName(a.name) ==> f.Classify(a) == (Head(f.faults), f.Next())
    ensures !PlainName(a.name) || !PlainName(b.name) ==> f.MoveWithin(a, b, strategy) == (Fail, f) && f.Publish(a, b) == (Fail, f)
    ensures PlainName(a.name) && PlainName(b.name) && Head(f.faults) == Crash ==>
              f.MoveWithin(a, b, strategy).0 == Crash && f.Publish(a, b).0 == Crash
  {
    assert IsPlainName(a.name) <==> PlainName(a.name);
    assert IsPlainName(b.name) <==> PlainName(b.name);
  }

  /** A move within never replaces an entry: a target that is there stays what it is, and the
      moved object is afterwards at the one name or the other, or at both. */
  lemma NoClobber(f: Files, a: Loc, b: Loc, strategy: MoveStrategy)
    requires a != b
    ensures var (v, f') := f.MoveWithin(a, b, strategy);
            && (b in f.disk ==> v != Proceed && f'.disk == f.disk)
            && (v == Proceed ==> a in f.disk && f'.disk == (f.disk - {a})[b := f.disk[a]])
            && (v != Proceed ==> f'.disk == f.disk || (a in f.disk && strategy.LinkThenUnlink? && f'.disk == f.disk[b := f.disk[a]]))
  {
    var f' := f.MoveWithin(a, b, strategy).1;
    if a in f.disk {
      assert f.disk[b := f.disk[a]] - {a} == (f.disk - {a})[b := f.disk[a]];
    }
  }

  /** It goes through exactly for plain names, a source that is there, a target that is not,
      by link no directory, and no failure at its one call or its two. */
  lemma MovesExactly(f: Files, a: Loc, b: Loc, strategy: MoveStrategy)
    requires a != b
    ensures f.MoveWithin(a, b, strategy).0 == Proceed <==>
            && PlainName(a.name) && PlainName(b.name) && a in f.disk && b !in f.disk
            && Nth(f.faults, 0) == Proceed
            && (strategy.LinkThenUnlink? ==> f.disk[a].kind != Directory && Nth(f.faults, 1) == Proceed)
  {
    assert IsPlainName(a.name) <==> PlainName(a.name);
    assert IsPlainName(b.name) <==> PlainName(b.name);
    ScriptStarts(f.faults, 2);
  }

  /** Publishing replaces what is at the final name: exactly when the object can be opened and
      synced and the rename goes through. It has succeeded when the directory is synced too. */
  lemma PublishExactly(f: Files, a: Loc, b: Loc)
    ensures var ready := && PlainName(a.name) && PlainName(b.name) && a in f.disk
                         && Nth(f.faults, 0) == Nth(f.faults, 1) == Nth(f.faults, 2) == Proceed;
            && f.Publish(a, b).1.disk == (if ready then (f.disk - {a})[b := f.disk[a]] else f.disk)
            && (f.Publish(a, b).0 == Proceed <==> ready && Nth(f.faults, 3) == Proceed)
  {
    assert IsPlainName(a.name) <==> PlainName(a.name);
    assert IsPlainName(b.name) <==> PlainName(b.name);
    ScriptStarts(f.faults, 4);
  }

  // ---- Execute --------------------------------------------------------------------------------------

  lemma DeliverNeverRejects(w: World, id: string, req: MoveRequest, dest: nat, tick: int)
    ensures Deliver(w, id, req, dest, tick).0 != Returned(Rejected)
  {}

  lemma FinishNeverRejects(w: World, id: string, req: MoveRequest, dest: nat, tick: int)
    ensures FinishAfterCommit(w, id, req, dest, tick).0 != Returned(Rejected)
  {
    hide Deliver, Store.UpdateState;
    var (v1, st1) := w.store.Load();
    var w1 := w.(store := st1);
    DeliverNeverRejects(w1, id, req, dest, tick);
    DeliverNeverRejects(w1.(store := st1.UpdateState(id, Transferring, tick, "").1), id, req, dest, tick);
  }

  lemma CommitNeverRejects(w: World, id: string, job: JobData, req: MoveRequest, strategy: MoveStrategy)
    requires req.sourceDir in w.files.roots && req.destDir in w.files.roots
    ensures Commit(w, id, job, req, strategy).0 != Returned(Rejected)
  {
    hide FinishAfterCommit, Store.UpdateState, Files.MoveWithin;
    var dest := w.files.roots[req.destDir];
    var tick := NextTick(job.updatedAt);
    var st1 := if job.state.Queued? then w.store.UpdateState(id, Renaming, tick, "").1 else w.store;
    var w1 := w.(store := st1);
    var f2 := w1.files.MoveWithin(Loc(w.files.roots[req.sourceDir], req.sourceName), Loc(dest, StagingName(id)), strategy).1;
    FinishNeverRejects(w1.(files := f2), id, req, dest, NextTick(tick));
  }

  /** The looks at the source refuse it: not a plain name, a failing look, nothing there, not a
      regular file, or it will not open; or the record says FAILED. */
  predicate SourceRefused(w: World, id: string, source: Loc)
    requires id in w.store.rows
  {
    !PlainName(source.name) || Fs(w, 2) == Fail ||
    (Fs(w, 2) == Proceed &&
     (source !in w.files.disk || w.files.disk[source].kind != Regular || Fs(w, 3) == Fail ||
      (Fs(w, 3) == Proceed && Fs(w, 4) != Crash && w.store.rows[id].job.state == Failed)))
  }

  /** Rejection, exactly, on any disk, table and request. */
  predicate Refused(w: World, id: string, req: MoveRequest) {
    || !Acceptable(req.sourceDir) || !Acceptable(req.destDir)
    || Db(w, 0) == Fail
    || (Db(w, 0) == Proceed &&
        (id !in w.store.rows || Fs(w, 0) == Fail ||
         (Fs(w, 0) == Proceed &&
          (req.sourceDir !in w.files.roots || Fs(w, 1) == Fail ||
           (Fs(w, 1) == Proceed &&
            (req.destDir !in w.files.roots ||
             SourceRefused(w, id, Loc(w.files.roots[req.sourceDir], req.sourceName))))))))
  }

  /** Execute returns Rejected if and only if the request, the record or the source is refused,
      and then nothing durable has changed. */
  lemma RejectedExactly(w: World, id: string, req: MoveRequest, strategy: MoveStrategy)
    ensures Execute(w, id, req, strategy).0 == Returned(Rejected) <==> Refused(w, id, req)
    ensures Refused(w, id, req) ==> SameDurable(w, Execute(w, id, req, strategy).1)
  {
    hide Commit, Head, Tail, Nth, Drop, ValidExternalPath, Acceptable;
    PathsExactly(req.sourceDir);
    PathsExactly(req.destDir);
    ScriptStarts(w.files.faults, 5);
    ScriptStarts(w.store.faults, 1);
    assert IsPlainName(req.sourceName) <==> PlainName(req.sourceName);
    if req.sourceDir in w.files.roots && req.destDir in w.files.roots && id in w.store.rows {
      CommitNeverRejects(Later(w, 5, 1), id, w.store.rows[id].job, req, strategy);
    }
  }

  // ---- Recovery outside the standing assumptions -----------------------------------------------------

  /** Everything recovery needs is there, and nothing disturbs it. */
  predicate Undisturbed(w: World, id: string, req: MoveRequest) {
    && w.files.faults == [] && w.store.faults == [] && id in w.store.rows
    && req.sourceDir in w.files.roots && req.destDir in w.files.roots
    && PlainName(req.sourceName) && PlainName(".swit-partial-" + id) && PlainName(req.destName)
  }

  function SourceOf(w: World, req: MoveRequest): Loc
    requires req.sourceDir in w.files.roots
  {
    Loc(w.files.roots[req.sourceDir], req.sourceName)
  }

  function StagingOf(w: World, id: string, req: MoveRequest): Loc
    requires req.destDir in w.files.roots
  {
    Loc(w.files.roots[req.destDir], ".swit-partial-" + id)
  }

  function FinalOf(w: World, req: MoveRequest): Loc
    requires req.destDir in w.files.roots
  {
    Loc(w.files.roots[req.destDir], req.destName)
  }

  /** The disk is left alone, and the record says FAILED, with an error, unless it was terminal. */
  predicate GivenUp(w: World, id: string, w': World)
    requires id in w.store.rows
  {
    && w'.files.disk == w.files.disk && id in w'.store.rows
    && (IsTerminal(w.store.rows[id].job.state) ==> w'.store.rows == w.store.rows)
    && (!IsTerminal(w.store.rows[id].job.state) ==>
          w'.store.rows[id].job.state == Failed && w'.store.rows[id].job.error != "")
  }

  lemma Plain(w: World, id: string, req: MoveRequest)
    requires Undisturbed(w, id, req)
    ensures IsPlainName(req.sourceName) && IsPlainName(StagingName(id)) && IsPlainName(req.destName)
    ensures StagingName(id) == ".swit-partial-" + id
  {
    assert forall n: string :: PlainName(n) ==> IsPlainName(n);
  }

  /** Source and staging names bound to different objects: a collision. Recovery touches
      neither, gives the job up and halts. */
  lemma CollisionIsKept(w: World, id: string, req: MoveRequest, strategy: MoveStrategy)
    requires Undisturbed(w, id, req)
    requires SourceOf(w, req) in w.files.disk && StagingOf(w, id, req) in w.files.disk
    requires w.files.disk[SourceOf(w, req)] != w.files.disk[StagingOf(w, id, req)]
    ensures var (e, w') := Recover(w, id, req, strategy); e == Returned(HaltedAfterCommit) && GivenUp(w, id, w')
  {
    hide Execute, FinishAfterCommit;
    Plain(w, id, req);
  }

  /** Nothing at any of the three names: recovery reports it and gives the job up. */
  lemma GoneIsReported(w: World, id: string, req: MoveRequest, strategy: MoveStrategy)
    requires Undisturbed(w, id, req)
    requires SourceOf(w, req) !in w.files.disk && StagingOf(w, id, req) !in w.files.disk && FinalOf(w, req) !in w.files.disk
    ensures var (e, w') := Recover(w, id, req, strategy); e == Returned(FailedExternal) && GivenUp(w, id, w')
  {
    hide Execute, FinishAfterCommit;
    Plain(w, id, req);
  }

  /** Both names bound to one object: the link is not finished, the job flagged, nothing moved. */
  lemma InterruptedIsFlagged(w: World, id: string, req: MoveRequest, strategy: MoveStrategy)
    requires Undisturbed(w, id, req)
    requires SourceOf(w, req) in w.files.disk && StagingOf(w, id, req) in w.files.disk
    requires w.files.disk[SourceOf(w, req)] == w.files.disk[StagingOf(w, id, req)]
    ensures var (e, w') := Recover(w, id, req, strategy);
            && e == Returned(HaltedAfterCommit) && w'.files.disk == w.files.disk
            && id in w'.store.rows && w'.store.rows[id] == w.store.rows[id].(attention := true)
  {
    hide Execute, FinishAfterCommit;
    Plain(w, id, req);
  }

  /** The looks of a recovery fail, or the record cannot be read, or the move has not begun
      and execute would refuse it. */
  predicate RecoveryRefused(w: World, id: string, req: MoveRequest) {
    || Fs(w, 0) == Fail
    || (Fs(w, 0) == Proceed &&
        (req.sourceDir !in w.files.roots || Fs(w, 1) == Fail ||
         (Fs(w, 1) == Proceed && (req.destDir !in w.files.roots || LooksRefused(w, id, req)))))
  }

  predicate LooksRefused(w: World, id: string, req: MoveRequest)
    requires req.sourceDir in w.files.roots && req.destDir in w.files.roots
  {
    || !PlainName(req.sourceName) || Fs(w, 2) == Fail
    || (Fs(w, 2) == Proceed &&
        (!PlainName(".swit-partial-" + id) || Fs(w, 3) == Fail ||
         (Fs(w, 3) == Proceed &&
          (Db(w, 0) == Fail ||
           (Db(w, 0) == Proceed &&
            (id !in w.store.rows ||
             (SourceOf(w, req) in w.files.disk && StagingOf(w, id, req) !in w.files.disk && Refused(Later(w, 4, 1), id, req))))))))
  }

  /** Directories, looks and record are all read. */
  predicate AllRead(w: World, id: string, req: MoveRequest) {
    && Fs(w, 0) == Fs(w, 1) == Fs(w, 2) == Fs(w, 3) == Proceed && Db(w, 0) == Proceed
    && req.sourceDir in w.files.roots && req.destDir in w.files.roots && id in w.store.rows
    && PlainName(req.sourceName) && PlainName(".swit-partial-" + id)
  }

  lemma ReadRecovers(w: World, id: string, req: MoveRequest, strategy: MoveStrategy)
    requires AllRead(w, id, req)
    ensures Recover(w, id, req, strategy)
            == Redrive(Later(w, 4, 1), id, req, strategy, SourceOf(w, req), w.files.roots[req.destDir])
  {
    hide Redrive, Head, Tail, Nth, Drop;
    assert IsPlainName(req.sourceName) && IsPlainName(StagingName(id)) by {
      assert forall n: string :: PlainName(n) ==> IsPlainName(n);
    }
    ScriptStarts(w.files.faults, 4);
    ScriptStarts(w.store.faults, 1);
  }

  lemma UnreadRefuses(w: World, id: string, req: MoveRequest, strategy: MoveStrategy)
    requires !AllRead(w, id, req)
    ensures Recover(w, id, req, strategy).0 == Returned(Rejected) <==> RecoveryRefused(w, id, req)
    ensures RecoveryRefused(w, id, req) ==> SameDurable(w, Recover(w, id, req, strategy).1)
  {
    hide Redrive, Head, Tail, Nth, Drop, Refused;
    assert IsPlainName(req.sourceName) <==> PlainName(req.sourceName);
    assert IsPlainName(StagingName(id)) <==> PlainName(".swit-partial-" + id);
    ScriptStarts(w.files.faults, 4);
    ScriptStarts(w.store.faults, 1);
  }

  /** Recovery is Rejected if and only if that is so, and then nothing durable has changed:
      past the commit it never is. */
  lemma RecoveryRejectedExactly(w: World, id: string, req: MoveRequest, strategy: MoveStrategy)
    ensures Recover(w, id, req, strategy).0 == Returned(Rejected) <==> RecoveryRefused(w, id, req)
    ensures RecoveryRefused(w, id, req) ==> SameDurable(w, Recover(w, id, req, strategy).1)
  {
    hide Recover, Redrive, Refused, PlainName, Nth, Drop;
    if AllRead(w, id, req) {
      ReadRecovers(w, id, req, strategy);
      RedriveRejectedExactly(Later(w, 4, 1), id, req, strategy, SourceOf(w, req), w.files.roots[req.destDir]);
    } else {
      UnreadRefuses(w, id, req, strategy);
    }
  }

  lemma RedriveRejectedExactly(w: World, id: string, req: MoveRequest, strategy: MoveStrategy, source: Loc, dest: nat)
    requires id in w.store.rows
    ensures var (e, w') := Redrive(w, id, req, strategy, source, dest);
            && (e == Returned(Rejected) <==>
                  source in w.files.disk && Loc(dest, ".swit-partial-" + id) !in w.files.disk && Refused(w, id, req))
            && (e == Returned(Rejected) ==> SameDurable(w, w'))
  {
    hide Execute, FinishAfterCommit, Refused;
    RejectedExactly(w, id, req, strategy);
    if Redrive(w, id, req, strategy, source, dest).0 == Returned(Rejected) {
      RedriveNeverRejects(w, id, req, strategy, source, dest);
    }
  }

  lemma RedriveNeverRejects(w: World, id: string, req: MoveRequest, strategy: MoveStrategy, source: Loc, dest: nat)
    requires id in w.store.rows && Redrive(w, id, req, strategy, source, dest).0 == Returned(Rejected)
    ensures source in w.files.disk && Loc(dest, StagingName(id)) !in w.files.disk
  {
    hide Execute, FinishAfterCommit;
    var tick := NextTick(w.store.rows[id].job.updatedAt);
    var f1 := w.files.MoveWithin(source, Loc(dest, StagingName(id)), LinkThenUnlink).1;
    var f2 := w.files.Classify(Loc(dest, req.destName)).1;
    FinishNeverRejects(w, id, req, dest, tick);
    FinishNeverRejects(w.(files := f1), id, req, dest, tick);
    FinishNeverRejects(w.(files := f2), id, req, dest, tick);
  }

  // ---- Halts call for an operator -------------------------------------------------------------------

  /** The last store access of a call was its flag: with `script` what the store was going to
      do, and enough of it to last, the flag is up if that access went through. */
  predicate Raised(script: seq<Verdict>, id: string, w': World) {
    var left := |w'.store.faults|;
    0 < left < |script| && script[|script| - left - 1] == Proceed ==> id in w'.store.rows && w'.store.rows[id].attention
  }

  lemma FlagRaises(script: seq<Verdict>, k: nat, w: World, id: string, o: MoveOutcome)
    requires id in w.store.rows && w.store.faults == Drop(script, k)
    ensures Raised(script, id, Flag(w, id, o).1)
  {
    ScriptParts(script, k);
  }

  lemma UpdateConsumes(script: seq<Verdict>, k: nat, st: Store, id: string, to: JobState, tick: int, message: string)
      returns (n: nat)
    requires st.faults == Drop(script, k)
    ensures st.UpdateState(id, to, tick, message).1.faults == Drop(script, n)
    ensures id in st.rows ==> id in st.UpdateState(id, to, tick, message).1.rows
  {
    ScriptParts(script, k);
    ScriptParts(script, k + 1);
    n := if st.UpdateState(id, to, tick, message).1.faults == Drop(script, k + 1) then k + 1 else k + 2;
  }

  predicate Halts(e: End) { e == Returned(HaltedAfterCommit) || e == Returned(FailedExternal) }

  lemma RecordDoneRaises(script: seq<Verdict>, k: nat, w: World, id: string, tick: int)
    requires id in w.store.rows && w.store.faults == Drop(script, k) && Halts(RecordDone(w, id, tick).0)
    ensures Raised(script, id, RecordDone(w, id, tick).1)
  {
    hide Raised, Drop, Flag, Store.UpdateState;
    var n := UpdateConsumes(script, k, w.store, id, Done, tick, "");
    FlagRaises(script, n, w.(store := w.store.UpdateState(id, Done, tick, "").1), id, HaltedAfterCommit);
  }

  lemma DeliverRaises(script: seq<Verdict>, k: nat, w: World, id: string, req: MoveRequest, dest: nat, tick: int)
    requires id in w.store.rows && w.store.faults == Drop(script, k) && Halts(Deliver(w, id, req, dest, tick).0)
    ensures Raised(script, id, Deliver(w, id, req, dest, tick).1)
  {
    hide Raised, Drop, RecordDone, Flag, Files.Publish;
    var staging, final := Loc(dest, StagingName(id)), Loc(dest, req.destName);
    var f2 := w.files.Classify(staging).1.Classify(final).1;
    var f3 := f2.Publish(staging, final).1;
    FlagRaises(script, k, w.(files := f2), id, FailedExternal);
    FlagRaises(script, k, w.(files := f3), id, HaltedAfterCommit);
    if Halts(RecordDone(w.(files := f2), id, NextTick(tick)).0) {
      RecordDoneRaises(script, k, w.(files := f2), id, NextTick(tick));
    }
    if Halts(RecordDone(w.(files := f3), id, NextTick(tick)).0) {
      RecordDoneRaises(script, k, w.(files := f3), id, NextTick(tick));
    }
  }

  /** Past the commit, with the record read and not yet terminal, every halt raises the flag
      as its last act: the flag is up unless that very write failed. */
  lemma HaltsAreFlagged(w: World, id: string, req: MoveRequest, dest: nat, tick: int)
    requires id in w.store.rows && Head(w.store.faults) == Proceed && !IsTerminal(w.store.rows[id].job.state)
    requires Halts(FinishAfterCommit(w, id, req, dest, tick).0)
    ensures Raised(w.store.faults, id, FinishAfterCommit(w, id, req, dest, tick).1)
  {
    hide Raised, Drop, Deliver, Flag, Store.UpdateState;
    var script := w.store.faults;
    ScriptParts(script, 0);
    var st1 := w.store.Load().1;
    var w1 := w.(store := st1);
    if w.store.rows[id].job.state.Renaming? {
      var n := UpdateConsumes(script, 1, st1, id, Transferring, tick, "");
      var (v2, st2) := st1.UpdateState(id, Transferring, tick, "");
      var w2 := w1.(store := st2);
      if v2 == Fail {
        FlagRaises(script, n, w2, id, HaltedAfterCommit);
      } else {
        DeliverRaises(script, n, w2, id, req, dest, tick);
      }
    } else {
      DeliverRaises(script, 1, w1, id, req, dest, tick);
    }
  }

  /** The flag of the job is as it was, unless the call halts. */
  predicate FlagKept(st: Store, id: string, e: End, st': Store) {
    id in st.rows ==> id in st'.rows && (st'.rows[id].attention == st.rows[id].attention || Halts(e))
  }

  lemma UpdateKeepsFlag(st: Store, id: string, to: JobState, tick: int, message: string)
    ensures FlagKept(st, id, Crashed, st.UpdateState(id, to, tick, message).1)
  {}

  lemma DeliverKeepsFlag(w: World, id: string, req: MoveRequest, dest: nat, tick: int)
    ensures var (e, w') := Deliver(w, id, req, dest, tick); FlagKept(w.store, id, e, w'.store)
  {
    hide Files.Publish, Files.Classify, Store.UpdateState;
    UpdateKeepsFlag(w.store, id, Done, NextTick(tick), "");
  }

  lemma FinishKeepsFlag(w: World, id: string, req: MoveRequest, dest: nat, tick: int)
    ensures var (e, w') := FinishAfterCommit(w, id, req, dest, tick); FlagKept(w.store, id, e, w'.store)
  {
    hide Deliver, Store.UpdateState;
    var st1 := w.store.Load().1;
    var st2 := st1.UpdateState(id, Transferring, tick, "").1;
    UpdateKeepsFlag(st1, id, Transferring, tick, "");
    DeliverKeepsFlag(w.(store := st1), id, req, dest, tick);
    DeliverKeepsFlag(w.(store := st2), id, req, dest, tick);
  }

  lemma CommitKeepsFlag(w: World, id: string, job: JobData, req: MoveRequest, strategy: MoveStrategy)
    requires req.sourceDir in w.files.roots && req.destDir in w.files.roots
    ensures var (e, w') := Commit(w, id, job, req, strategy); FlagKept(w.store, id, e, w'.store)
  {
    hide FinishAfterCommit, Store.UpdateState, Files.MoveWithin;
    var dest := w.files.roots[req.destDir];
    var tick := NextTick(job.updatedAt);
    UpdateKeepsFlag(w.store, id, Renaming, tick, "");
    var st1 := if job.state.Queued? then w.store.UpdateState(id, Renaming, tick, "").1 else w.store;
    var f2 := w.files.MoveWithin(Loc(w.files.roots[req.sourceDir], req.sourceName), Loc(dest, StagingName(id)), strategy).1;
    FinishKeepsFlag(World(f2, st1), id, req, dest, NextTick(tick));
  }

  lemma ValidatedKeepsFlag(w: World, id: string, job: JobData, req: MoveRequest, strategy: MoveStrategy)
    requires req.sourceDir in w.files.roots && req.destDir in w.files.roots
    ensures var (e, w') := Validated(w, id, job, req, strategy); FlagKept(w.store, id, e, w'.store)
  {
    hide Commit;
    var source := Loc(w.files.roots[req.sourceDir], req.sourceName);
    var f3 := w.files.Classify(source).1.OpenRegular(source).1.Classify(source).1;
    CommitKeepsFlag(w.(files := f3), id, job, req, strategy);
  }

  lemma ExecuteKeepsFlag(w: World, id: string, req: MoveRequest, strategy: MoveStrategy)
    ensures var (e, w') := Execute(w, id, req, strategy); FlagKept(w.store, id, e, w'.store)
  {
    hide Validated, ValidExternalPath;
    var f3 := w.files.OpenRoot(req.sourceDir).1.OpenRoot(req.destDir).1;
    if req.sourceDir in w.files.roots && req.destDir in w.files.roots && id in w.store.rows {
      ValidatedKeepsFlag(World(f3, w.store.Load().1), id, w.store.rows[id].job, req, strategy);
    }
  }

  lemma RedriveKeepsFlag(w: World, id: string, req: MoveRequest, strategy: MoveStrategy, source: Loc, dest: nat)
    requires id in w.store.rows
    ensures var (e, w') := Redrive(w, id, req, strategy, source, dest); FlagKept(w.store, id, e, w'.store)
  {
    hide Execute, FinishAfterCommit, Files.MoveWithin, Store.UpdateState;
    var tick := NextTick(w.store.rows[id].job.updatedAt);
    var f1 := w.files.MoveWithin(source, Loc(dest, StagingName(id)), LinkThenUnlink).1;
    var f2 := w.files.Classify(Loc(dest, req.destName)).1;
    ExecuteKeepsFlag(w, id, req, strategy);
    FinishKeepsFlag(w, id, req, dest, tick);
    FinishKeepsFlag(w.(files := f1), id, req, dest, tick);
    FinishKeepsFlag(w.(files := f2), id, req, dest, tick);
    UpdateKeepsFlag(w.store, id, Failed, tick, COLLISION);
    UpdateKeepsFlag(w.store, id, Failed, tick, REMOVED);
  }

  /** And the other way round: on any world, a call that raises the flag of its job halts. */
  lemma OnlyHaltsFlag(w: World, id: string, req: MoveRequest, strategy: MoveStrategy)
    ensures var (e, w') := Execute(w, id, req, strategy); FlagKept(w.store, id, e, w'.store)
    ensures var (e, w') := Recover(w, id, req, strategy); FlagKept(w.store, id, e, w'.store)
  {
    hide Execute, Redrive;
    ExecuteKeepsFlag(w, id, req, strategy);
    var f2 := w.files.OpenRoot(req.sourceDir).1.OpenRoot(req.destDir).1;
    if req.sourceDir in f2.roots && req.destDir in f2.roots && id in w.store.rows {
      var source, dest := Loc(f2.roots[req.sourceDir], req.sourceName), f2.roots[req.destDir];
      var f3 := f2.ClassifyMoveState(source, Loc(dest, StagingName(id))).1;
      RedriveKeepsFlag(World(f3, w.store.Load().1), id, req, strategy, source, dest);
    }
  }
}
