/** The job manager as a machine. Workers and command threads interleave at the
    granularity of the source: a critical section of the manager mutex is one
    step, and every durable read or write outside it is another. */
module Manager {
  import opened Jobs
  import opened Sequences
  import opened Digits
  import opened Stores
  import opened Mover
  import opened Dispatching

  type Tid = nat

  datatype Config = Config(maxAttempts: nat, initialMs: nat, maxMs: nat)

  /** A row of the job table, with its attempt counter. */
  datatype Row = Row(rec: Record, attempts: nat) {
    function Job(): JobData { rec.job }
    function State(): JobState { rec.job.state }
    function History(): seq<JobData> { rec.History() }
  }

  const CANCELLED: string := "cancelled by operator"

  function GaveUp(attempts: nat, failure: string): string {
    "gave up after " + Decimal(attempts) + " attempts: " + failure
  }

  /** What a thread holds between two of its steps. */
  datatype Local =
    | Free
    // A worker, from taking a job to letting it go. `base` is the update time execute
    // loaded, `seen` the version the store's update has loaded and not yet written over.
    | Moving(id: Id, now: int, base: Option<int>, seen: Option<JobData>)
    | Aborted(id: Id, now: int, reason: string)
    | Deciding(id: Id, now: int, attempts: nat)
    | Condemning(id: Id, reason: string)
    | CondemnLooking(id: Id, reason: string)
    | CondemnTimed(id: Id, reason: string, tick: int)
    | CondemnWriting(id: Id, reason: string, tick: int, version: JobData)
    | Settling(id: Id, reschedule: bool, due: int)
    // submit, and retry from its claim onwards.
    | Claimed(id: Id, req: Request, now: int)
    | Publishing(id: Id, req: Request, recorded: bool)
    // cancel.
    | Cancelling(id: Id, wasRunnable: bool)
    | CancelTimed(id: Id, wasRunnable: bool, tick: int)
    | CancelWriting(id: Id, wasRunnable: bool, tick: int, version: JobData)
    | CancelEnding(id: Id, wasRunnable: bool, cancelled: bool)
  {
    predicate IsWorker() {
      Moving? || Aborted? || Deciding? || IsCondemning() || Settling?
    }
    predicate IsCondemning() { Condemning? || CondemnLooking? || CondemnTimed? || CondemnWriting? }
    predicate IsClaim() { Claimed? || Publishing? }
    predicate IsCancel() { Cancelling? || CancelTimed? || CancelWriting? || CancelEnding? }
  }

  /** `rescheduled` counts how often each job was sent back to wait. */
  datatype Machine = Machine(
    cfg: Config, d: Dispatch, rows: map<Id, Row>, threads: map<Tid, Local>, rescheduled: map<Id, nat>)
  {
    function At(t: Tid): Local { if t in threads then threads[t] else Free }
    function Put(t: Tid, l: Local): Machine { this.(threads := threads[t := l]) }
    function With(d': Dispatch): Machine { this.(d := d') }
    function Times(id: Id): nat { if id in rescheduled then rescheduled[id] else 0 }
    /** The UPDATE statement: a new version over whatever the row holds. */
    function Write(id: Id, job: JobData): Machine
      requires id in rows
    {
      var rec := rows[id].rec;
      this.(rows := rows[id := rows[id].(rec := Record(job, rec.attention, rec.History()))])
    }
    function Flag(id: Id): Machine
      requires id in rows
    {
      this.(rows := rows[id := rows[id].(rec := rows[id].rec.(attention := true))])
    }
    function AddAttempt(id: Id): Machine
      requires id in rows
    {
      this.(rows := rows[id := rows[id].(attempts := rows[id].attempts + 1)])
    }
  }

  /** One step of one thread; `ok` says whether a store call goes through. */
  datatype Action =
    | WorkerTake(now: int)
    | EngineLoad
    | EngineRead
    | EngineWrite(to: JobState)
    | EngineFlag
    | EngineEnd(outcome: MoveOutcome, error: string)
    | RetryRead(ok: bool)
    | AttemptWrite(ok: bool)
    | CondemnAttempt(ok: bool)
    | CondemnRead(ok: bool)
    | CondemnReload(ok: bool)
    | CondemnWrite(ok: bool)
    | WorkerSettle
    | SubmitClaim(id: Id, req: Request, now: int)
    | RetryClaim(failed: Id, candidate: Id, now: int)
    | IntentWrite(ok: bool)
    | PublishJob
    | PauseJob(id: Id)
    | ResumeJob(id: Id)
    | CancelClaim(id: Id)
    | CancelRead(ok: bool)
    | CancelReload(ok: bool)
    | CancelWrite(ok: bool)
    | CancelEnd
    | PumpDue(now: int, due: seq<Id>)
    | Stop

  /** How long a job waits after its attempts-th failure. */
  function Backoff(attempts: nat, cfg: Config): nat {
    var d := cfg.initialMs * Pow2(attempts - 1);
    if d < cfg.maxMs then d else cfg.maxMs
  }

  function Pow2(n: int): nat {
    if n <= 0 then 1 else 2 * Pow2(n - 1)
  }

  /** The step `a` of thread `t`, or None when it is not enabled there. */
  function Step(s: Machine, t: Tid, a: Action): Option<Machine> {
    var l := s.At(t);
    if l.Free? then FreeStep(s, t, a)
    else if l.IsWorker() then WorkerStep(s, t, l, a)
    else if l.IsClaim() then ClaimStep(s, t, l, a)
    else CancelStep(s, t, l, a)
  }

  /** Critical sections a thread enters from nothing: taking work, or starting a command. */
  function FreeStep(s: Machine, t: Tid, a: Action): Option<Machine> {
    match a
    case WorkerTake(now) =>
      if s.d.runnable == [] then None
      else var (id, d) := s.d.Take(); Some(s.With(d).Put(t, Moving(id, now, None, None)))
    case SubmitClaim(id, req, now) =>
      var (r, d) := s.d.ClaimSubmit(id);
      Some(if r.Accepted? then s.With(d).Put(t, Claimed(id, req, now)) else s)
    case RetryClaim(failed, candidate, now) =>
      if failed in s.d.requests && failed in s.rows && s.rows[failed].State().Failed? && candidate !in s.rows then
        var (ok, d) := s.d.ClaimRetry(candidate);
        Some(if ok then s.With(d).Put(t, Claimed(candidate, s.d.requests[failed], now)) else s)
      else Some(s)
    case PauseJob(id) => Some(s.With(s.d.Pause(id).1))
    case ResumeJob(id) => Some(s.With(s.d.Resume(id).1))
    case CancelClaim(id) =>
      var (r, was, d) := s.d.ClaimCancel(id);
      Some(if r.Accepted? then s.With(d).Put(t, Cancelling(id, was)) else s)
    case PumpDue(now, due) =>
      if NoRepeats(due) && (set x | x in due) == s.d.DueNow(now) then Some(s.With(s.d.Pump(due))) else None
    case Stop => Some(s.With(s.d.Shutdown()))
    case _ => None
  }

  /** A worker with a job: the engine's row accesses, then recording a failure, then letting go. */
  function WorkerStep(s: Machine, t: Tid, l: Local, a: Action): Option<Machine>
    requires l.IsWorker()
  {
    var id := l.id;
    match (l, a)
    case (Moving(_, now, None, seen), EngineLoad) =>
      if id in s.rows then Some(s.Put(t, Moving(id, now, Some(s.rows[id].Job().updatedAt), seen))) else None
    case (Moving(_, now, base, _), EngineRead) =>
      if id in s.rows then Some(s.Put(t, Moving(id, now, base, Some(s.rows[id].Job())))) else None
    case (Moving(_, now, Some(base), Some(version)), EngineWrite(to)) =>
      // The row is overwritten; legality was judged on the version read before, and the
      // time counts up from the one execute loaded.
      var next := Transitioned(version, to, base + Rank(to), "");
      if next.Some? && id in s.rows
      then Some(s.Write(id, next.value).Put(t, Moving(id, now, Some(base), None))) else None
    case (Moving(_, _, _, _), EngineFlag) =>
      if id in s.rows then Some(s.Flag(id)) else None
    case (Moving(_, now, _, _), EngineEnd(o, error)) =>
      Some(s.Put(t, if o.AbortedBeforeCommit? then Aborted(id, now, error)
                    else if o.Rejected? then Condemning(id, error)
                    else Settling(id, false, 0)))
    case (Aborted(_, now, failure), RetryRead(ok)) =>
      if !ok || id !in s.rows then Some(s.Put(t, Settling(id, false, 0)))
      else
        var attempts := s.rows[id].attempts + 1;
        Some(s.Put(t, if attempts < s.cfg.maxAttempts then Deciding(id, now, attempts)
                      else Condemning(id, GaveUp(attempts, failure))))
    case (Deciding(_, now, attempts), AttemptWrite(ok)) =>
      if !ok || id !in s.rows then Some(s.Put(t, Settling(id, false, 0)))
      else Some(s.AddAttempt(id).(rescheduled := s.rescheduled[id := s.Times(id) + 1])
                 .Put(t, Settling(id, true, now + Backoff(attempts, s.cfg))))
    case (Condemning(_, reason), CondemnAttempt(ok)) =>
      Some((if ok && id in s.rows then s.AddAttempt(id) else s).Put(t, CondemnLooking(id, reason)))
    case (CondemnLooking(_, reason), CondemnRead(ok)) =>
      if !ok || id !in s.rows || s.rows[id].State().Failed? then Some(s.Put(t, Settling(id, false, 0)))
      else Some(s.Put(t, CondemnTimed(id, reason, s.rows[id].Job().updatedAt + 1)))
    case (CondemnTimed(_, reason, tick), CondemnReload(ok)) =>
      if !ok || id !in s.rows then Some(s.Put(t, Settling(id, false, 0)))
      else Some(s.Put(t, CondemnWriting(id, reason, tick, s.rows[id].Job())))
    case (CondemnWriting(_, reason, tick, version), CondemnWrite(ok)) =>
      var next := Transitioned(version, Failed, tick, reason);
      Some((if ok && next.Some? && id in s.rows then s.Write(id, next.value) else s).Put(t, Settling(id, false, 0)))
    case (Settling(_, reschedule, due), WorkerSettle) =>
      Some(s.With(s.d.Settle(id, reschedule, due)).Put(t, Free))
    case _ => None
  }

  /** The row `record_intent` inserts. */
  function Intent(id: Id, req: Request, now: int): JobData {
    FreshJob(id, req.sourceDir + "/" + req.sourceName, req.destDir + "/" + req.destName, now)
  }

  /** submit, and retry after its claim: the intent row first, the dispatch state second. */
  function ClaimStep(s: Machine, t: Tid, l: Local, a: Action): Option<Machine>
    requires l.IsClaim()
  {
    match (l, a)
    case (Claimed(id, req, now), IntentWrite(ok)) =>
      if ok && id !in s.rows
      then Some(s.(rows := s.rows[id := Row(Record(Intent(id, req, now), false, []), 0)]).Put(t, Publishing(id, req, true)))
      else Some(s.Put(t, Publishing(id, req, false)))
    case (Publishing(id, req, recorded), PublishJob) =>
      Some(s.With(s.d.Publish(id, req, recorded)).Put(t, Free))
    case _ => None
  }

  function CancelStep(s: Machine, t: Tid, l: Local, a: Action): Option<Machine>
    requires l.IsCancel()
  {
    match (l, a)
    case (Cancelling(id, was), CancelRead(ok)) =>
      if !ok || id !in s.rows || !s.rows[id].State().Queued? then Some(s.Put(t, CancelEnding(id, was, false)))
      else Some(s.Put(t, CancelTimed(id, was, s.rows[id].Job().updatedAt + 1)))
    case (CancelTimed(id, was, tick), CancelReload(ok)) =>
      if !ok || id !in s.rows then Some(s.Put(t, CancelEnding(id, was, false)))
      else Some(s.Put(t, CancelWriting(id, was, tick, s.rows[id].Job())))
    case (CancelWriting(id, was, tick, version), CancelWrite(ok)) =>
      var next := Transitioned(version, Failed, tick, CANCELLED);
      if ok && next.Some? && id in s.rows
      then Some(s.Write(id, next.value).Put(t, CancelEnding(id, was, true)))
      else Some(s.Put(t, CancelEnding(id, was, false)))
    case (CancelEnding(id, was, cancelled), CancelEnd) =>
      Some((if was && !cancelled then s.With(s.d.Restore(id)) else s).Put(t, Free))
    case _ => None
  }

  // ---- The invariant -------------------------------------------------------------

  /** A job is in at most one place of the dispatch state, and in the queue at most once. */
  ghost predicate Exclusive(d: Dispatch) {
    && NoRepeats(d.runnable)
    && (forall x :: x in d.runnable ==> x in d.requests && x !in d.waiting && x !in d.paused && x !in d.active)
    && d.waiting.Keys <= d.requests.Keys && d.paused <= d.requests.Keys && d.active <= d.requests.Keys
    && d.waiting.Keys !! d.paused && d.waiting.Keys !! d.active && d.paused !! d.active
    && d.pending !! d.requests.Keys
  }

  predicate OutOfDispatch(d: Dispatch, id: Id) {
    id in d.requests && id !in d.runnable && id !in d.waiting && id !in d.paused && id !in d.active
  }

  /** What a thread's local state says about the shared one; a version it has
      read and not yet acted on is still the current one. */
  predicate LocalOk(s: Machine, l: Local) {
    match l
    case Free => true
    case Moving(id, _, base, seen) =>
      && id in s.d.active
      && (base.Some? ==> id in s.rows && s.rows[id].Job().updatedAt <= base.value + Rank(s.rows[id].State()))
      && (seen.Some? ==> id in s.rows && s.rows[id].Job() == seen.value)
    case Aborted(id, _, _) => id in s.d.active
    case Deciding(id, _, attempts) =>
      id in s.d.active && id in s.rows && attempts == s.rows[id].attempts + 1 && attempts < s.cfg.maxAttempts
    case Condemning(id, _) => id in s.d.active
    case CondemnLooking(id, _) => id in s.d.active
    case CondemnTimed(id, _, tick) => id in s.d.active && id in s.rows && tick == s.rows[id].Job().updatedAt + 1
    case CondemnWriting(id, _, tick, version) =>
      id in s.d.active && id in s.rows && s.rows[id].Job() == version && tick == version.updatedAt + 1
    case Settling(id, _, _) => id in s.d.active
    case Claimed(id, _, _) => id in s.d.pending
    case Publishing(id, _, recorded) => id in s.d.pending && (recorded ==> id in s.rows)
    case Cancelling(id, _) => OutOfDispatch(s.d, id)
    case CancelTimed(id, _, tick) =>
      OutOfDispatch(s.d, id) && id in s.rows && s.rows[id].State().Queued? && tick == s.rows[id].Job().updatedAt + 1
    case CancelWriting(id, _, tick, version) =>
      OutOfDispatch(s.d, id) && id in s.rows && s.rows[id].Job() == version && version.state.Queued? && tick == version.updatedAt + 1
    case CancelEnding(id, _, cancelled) =>
      OutOfDispatch(s.d, id) && (cancelled ==> id in s.rows && s.rows[id].State().Failed?)
  }

  /** No two threads hold the same job, in whatever capacity. */
  ghost predicate OneOwner(s: Machine) {
    forall t, u :: t in s.threads && u in s.threads && t != u && !s.threads[t].Free? && !s.threads[u].Free?
      ==> s.threads[t].id != s.threads[u].id
  }

  /** Rescheduling is paid for by durable attempts. */
  ghost predicate Bounded(s: Machine) {
    forall id :: id in s.rescheduled ==>
      && id in s.rows && s.rescheduled[id] <= s.rows[id].attempts
      && s.rescheduled[id] + 1 <= s.cfg.maxAttempts
  }

  ghost predicate Inv(s: Machine) {
    && Exclusive(s.d)
    && s.d.requests.Keys <= s.rows.Keys
    && (forall t :: t in s.threads ==> LocalOk(s, s.threads[t]))
    && OneOwner(s)
    && Bounded(s)
  }

  /** Every row holds a legal history. */
  ghost predicate Recorded(s: Machine) {
    forall id :: id in s.rows ==> LegalHistory(s.rows[id].History())
  }

  /** Another command on this job is between its two critical sections. */
  predicate MidCancel(s: Machine, id: Id) {
    exists t :: t in s.threads && s.threads[t].IsCancel() && s.threads[t].id == id
  }

  /** Lifecycle commands on one job do not overlap a cancel of the same job. */
  predicate Disciplined(s: Machine, a: Action) {
    (a.PauseJob? || a.ResumeJob? || a.CancelClaim?) ==> !MidCancel(s, a.id)
  }
}
