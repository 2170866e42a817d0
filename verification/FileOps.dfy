/** The descriptor-relative filesystem layer (fsops.cpp). A directory is opened
    by path once; after that every operation names an entry inside it. */
module FileOps {
  import opened Jobs
  import opened Ascii
  import opened Faults

  datatype EntryKind = Regular | Directory | Symlink | Fifo | Socket | BlockDevice | CharDevice | Unknown

  /** What identifies an object; a missing entry is simply not bound. */
  datatype FileIdentity = FileIdentity(dev: int, ino: int, kind: EntryKind)

  datatype Loc = Loc(dir: nat, name: string)

  datatype MoveStrategy = RenameNoReplace | LinkThenUnlink

  datatype MoveState = NotStarted | Interrupted | Collision | MoveCompleted | BothMissing

  type Disk = map<Loc, FileIdentity>

  datatype Files = Files(roots: map<string, nat>, disk: Disk, faults: seq<Verdict>) {
    function Next(): Files { this.(faults := Tail(faults)) }
    function Bind(l: Loc, o: FileIdentity): Files { this.(disk := disk[l := o]) }
    function Unbind(l: Loc): Files { this.(disk := disk - {l}) }

    // ---- One fallible call each ---------------------------------------------

    function OpenRoot(path: string): (Verdict, Files) {
      var v := Head(faults);
      (if v == Proceed && path !in roots then Fail else v, Next())
    }

    /** `classify`: whether the stat went through; the entry is read off `disk`. */
    function Classify(l: Loc): (Verdict, Files) {
      if !IsPlainName(l.name) then (Fail, this) else (Head(faults), Next())
    }

    function OpenRegular(l: Loc): (Verdict, Files) {
      var v := Head(faults);
      (if v == Proceed && (l !in disk || !disk[l].kind.Regular?) then Fail else v, Next())
    }

    function RenameExclusive(from: Loc, to: Loc): (Verdict, Files) {
      var v := Head(faults);
      if v != Proceed then (v, Next())
      else if from !in disk || to in disk then (Fail, Next())
      else (Proceed, Next().Unbind(from).Bind(to, disk[from]))
    }

    function Link(from: Loc, to: Loc): (Verdict, Files) {
      var v := Head(faults);
      if v != Proceed then (v, Next())
      else if from !in disk || to in disk || disk[from].kind.Directory? then (Fail, Next())
      else (Proceed, Next().Bind(to, disk[from]))
    }

    function Unlink(l: Loc): (Verdict, Files) {
      var v := Head(faults);
      if v != Proceed then (v, Next())
      else if l !in disk || disk[l].kind.Directory? then (Fail, Next())
      else (Proceed, Next().Unbind(l))
    }

    /** Plain `renameat`: an existing target is replaced. */
    function RenameOver(from: Loc, to: Loc): (Verdict, Files) {
      var v := Head(faults);
      if v != Proceed then (v, Next())
      else if from !in disk then (Fail, Next())
      else (Proceed, Next().Unbind(from).Bind(to, disk[from]))
    }

    /** A call that changes no name: open for reading, fsync. */
    function Probe(): (Verdict, Files) {
      (Head(faults), Next())
    }

    // ---- The composed operations --------------------------------------------

    function MoveWithin(from: Loc, to: Loc, strategy: MoveStrategy): (Verdict, Files) {
      if !IsPlainName(from.name) || !IsPlainName(to.name) then (Fail, this)
      else if strategy.RenameNoReplace? then RenameExclusive(from, to)
      else
        var (v, f1) := Link(from, to);
        if v != Proceed then (v, f1) else f1.Unlink(from)
    }

    function Publish(staging: Loc, final: Loc): (Verdict, Files) {
      if !IsPlainName(staging.name) || !IsPlainName(final.name) then (Fail, this)
      else
        var (v1, f1) := Probe();
        if v1 != Proceed then (v1, f1)
        else if staging !in f1.disk then (Fail, f1)
        else
          var (v2, f2) := f1.Probe();
          if v2 != Proceed then (v2, f2)
          else
            var (v3, f3) := f2.RenameOver(staging, final);
            if v3 != Proceed then (v3, f3) else f3.Probe()
    }

    function ClassifyMoveState(from: Loc, to: Loc): (Verdict, Files) {
      var (v, f1) := Classify(from);
      if v != Proceed then (v, f1) else f1.Classify(to)
    }
  }

  predicate IsPlainName(name: string) {
    && name != "" && name != "." && name != ".."
    && '/' !in name && '\0' !in name
  }

  /** A ".." standing between separators (or the ends of the path). */
  predicate HasDotDotAt(path: string, i: int)
  {
    && 0 <= i && i + 2 <= |path|
    && path[i] == '.' && path[i+1] == '.'
    && (i == 0 || path[i-1] == '/')
    && (i + 2 == |path| || path[i+2] == '/')
  }

  predicate ValidExternalPath(path: string) {
    && path != "" && path[0] == '/'
    && (forall i :: 0 <= i < |path| ==> !IsControl(path[i]))
    && (forall i :: 0 <= i < |path| ==> !HasDotDotAt(path, i))
  }

  function JudgeMoveState(disk: Disk, from: Loc, to: Loc): MoveState {
    if from in disk && to in disk then (if disk[from] == disk[to] then Interrupted else Collision)
    else if from in disk then NotStarted
    else if to in disk then MoveCompleted
    else BothMissing
  }

  class FileSystem {
    const roots: map<string, nat>
    var disk: Disk
    var faults: seq<Verdict>

    constructor (f: Files)
      ensures State() == f
    {
      roots, disk, faults := f.roots, f.disk, f.faults;
    }

    function State(): Files
      reads this
    {
      Files(roots, disk, faults)
    }

    method Take() returns (v: Verdict)
      modifies this
      ensures v == Head(old(faults)) && State() == old(State()).Next()
    {
      v := Head(faults);
      faults := Tail(faults);
    }

    method OpenRoot(path: string) returns (v: Verdict, dir: nat)
      modifies this
      ensures (v, State()) == old(State()).OpenRoot(path)
      ensures v == Proceed ==> path in roots && dir == roots[path]
    {
      v := Take();
      dir := 0;
      if v == Proceed {
        if path !in roots {
          return Fail, 0;
        }
        dir := roots[path];
      }
    }

    method Classify(l: Loc) returns (v: Verdict, entry: Option<FileIdentity>)
      modifies this
      ensures (v, State()) == old(State()).Classify(l)
      ensures entry == if v == Proceed && l in disk then Some(disk[l]) else None
    {
      if !IsPlainName(l.name) {
        return Fail, None;
      }
      v := Take();
      entry := if v == Proceed && l in disk then Some(disk[l]) else None;
    }

    method OpenRegular(l: Loc) returns (v: Verdict)
      modifies this
      ensures (v, State()) == old(State()).OpenRegular(l)
    {
      v := Take();
      if v == Proceed && (l !in disk || !disk[l].kind.Regular?) {
        v := Fail;
      }
    }

    method MoveWithin(from: Loc, to: Loc, strategy: MoveStrategy) returns (v: Verdict)
      modifies this
      ensures (v, State()) == old(State()).MoveWithin(from, to, strategy)
    {
      if !IsPlainName(from.name) || !IsPlainName(to.name) {
        return Fail;
      }
      v := Take();
      if v != Proceed {
        return;
      }
      if strategy.RenameNoReplace? {
        if from !in disk || to in disk {
          return Fail;
        }
        disk := (disk - {from})[to := disk[from]];
        return;
      }
      if from !in disk || to in disk || disk[from].kind.Directory? {
        return Fail;
      }
      disk := disk[to := disk[from]];
      v := Take();
      if v != Proceed {
        return;
      }
      disk := disk - {from};
    }

    method Publish(staging: Loc, final: Loc) returns (v: Verdict)
      modifies this
      ensures (v, State()) == old(State()).Publish(staging, final)
    {
      if !IsPlainName(staging.name) || !IsPlainName(final.name) {
        return Fail;
      }
      v := Take();
      if v != Proceed {
        return;
      }
      if staging !in disk {
        return Fail;
      }
      v := Take();
      if v != Proceed {
        return;
      }
      v := Take();
      if v != Proceed {
        return;
      }
      disk := (disk - {staging})[final := disk[staging]];
      v := Take();
    }

    method ClassifyMoveState(from: Loc, to: Loc) returns (v: Verdict, state: MoveState)
      modifies this
      ensures (v, State()) == old(State()).ClassifyMoveState(from, to)
      ensures v == Proceed ==> state == JudgeMoveState(disk, from, to)
    {
      state := NotStarted;
      var a: Option<FileIdentity>;
      var b: Option<FileIdentity>;
      v, a := Classify(from);
      if v != Proceed {
        return;
      }
      v, b := Classify(to);
      if v != Proceed {
        return;
      }
      if a.Some? && b.Some? {
        state := if a.value == b.value then Interrupted else Collision;
      } else if a.Some? {
        state := NotStarted;
      } else if b.Some? {
        state := MoveCompleted;
      } else {
        state := BothMissing;
      }
    }
  }
}
