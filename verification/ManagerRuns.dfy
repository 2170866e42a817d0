/** The manager over whole runs, and exactly where its protection ends. */
module ManagerRuns {
  import opened Jobs
  import opened Sequences
  import opened Mover
  import opened Dispatching
  import opened Manager
  import opened ManagerProofs

  /** A fresh process over the rows earlier ones left behind, if any. */
  ghost predicate Started(s: Machine) {
    && Recorded(s)
    && s.d == Dispatch(true, false, [], map[], map[], {}, {}, {})
    && s.threads == map[] && s.rescheduled == map[]
  }

  type Trace = seq<(Tid, Action)>

  /** `s` goes to `s'` by the steps of `tr`, lifecycle commands never overlapping a cancel of their job. */
  ghost predicate Runs(s: Machine, tr: Trace, s': Machine)
    decreases |tr|
  {
    if tr == [] then s' == s
    else
      var (t, a) := tr[0];
      Step(s, t, a).Some? && Disciplined(s, a) && Runs(Step(s, t, a).value, tr[1..], s')
  }

  lemma {:induction false} RunKeeps(s: Machine, tr: Trace, s': Machine)
    requires Inv(s) && Runs(s, tr, s')
    ensures Inv(s') && s'.cfg == s.cfg
    decreases |tr|
  {
    hide Step, Inv, Disciplined;
    if tr != [] {
      var (t, a) := tr[0];
      StepKeeps(s, t, a);
      StepKeepsConfig(s, t, a);
      RunKeeps(Step(s, t, a).value, tr[1..], s');
    }
  }

  lemma StepKeepsConfig(s: Machine, t: Tid, a: Action)
    requires Step(s, t, a).Some?
    ensures Step(s, t, a).value.cfg == s.cfg
  {
    hide FreeStep, WorkerStep, ClaimStep, CancelStep;
    var l := s.At(t);
    if l.Free? {
      FreeKeepsConfig(s, t, a);
    } else if l.IsWorker() {
      WorkerKeepsConfig(s, t, l, a);
    } else if l.IsClaim() {
      ClaimKeepsConfig(s, t, l, a);
    } else {
      CancelKeepsConfig(s, t, l, a);
    }
  }

  lemma FreeKeepsConfig(s: Machine, t: Tid, a: Action)
    ensures FreeStep(s, t, a).Some? ==> FreeStep(s, t, a).value.cfg == s.cfg && FreeStep(s, t, a).value.rows == s.rows
  {}

  lemma WorkerKeepsConfig(s: Machine, t: Tid, l: Local, a: Action)
    requires l.IsWorker() && WorkerStep(s, t, l, a).Some?
    ensures WorkerStep(s, t, l, a).value.cfg == s.cfg && WorkerStep(s, t, l, a).value.rows.Keys == s.rows.Keys
  {}

  lemma ClaimKeepsConfig(s: Machine, t: Tid, l: Local, a: Action)
    requires l.IsClaim() && ClaimStep(s, t, l, a).Some?
    ensures ClaimStep(s, t, l, a).value.cfg == s.cfg
  {}

  lemma CancelKeepsConfig(s: Machine, t: Tid, l: Local, a: Action)
    requires l.IsCancel() && CancelStep(s, t, l, a).Some?
    ensures CancelStep(s, t, l, a).value.cfg == s.cfg && CancelStep(s, t, l, a).value.rows.Keys == s.rows.Keys
  {}

  /** How many places of the dispatch state a job is in, counting the queue with repetition. */
  function Places(d: Dispatch, id: Id): nat {
    multiset(d.runnable)[id] + (if id in d.waiting then 1 else 0) + (if id in d.paused then 1 else 0)
    + (if id in d.active then 1 else 0) + (if id in d.pending then 1 else 0)
  }

  /** Dispatch exclusivity. In every reachable state every job is in at most one
      place, no two threads hold the same job, every job the manager knows has
      its intent row, and none was sent back to wait more often than the ceiling allows. */
  lemma DispatchExclusivity(s: Machine, tr: Trace, s': Machine, id: Id)
    requires Started(s) && Runs(s, tr, s')
    ensures Places(s'.d, id) <= 1
    ensures forall t, u :: t in s'.threads && u in s'.threads && t != u && !s'.threads[t].Free? && !s'.threads[u].Free?
              ==> s'.threads[t].id != s'.threads[u].id
    ensures Places(s'.d, id) == 1 && id !in s'.d.pending ==> id in s'.rows
    ensures id in s'.d.requests ==> id in s'.rows
    ensures s'.Times(id) == 0 || s'.Times(id) <= s'.cfg.maxAttempts - 1
  {
    RunKeeps(s, tr, s');
    CountedOnce(s'.d.runnable, id);
  }

  /** A failed attempt waits for the backoff of the attempt count it has just made durable. */
  lemma RescheduleDelay(s: Machine, t: Tid, a: Action)
    requires Inv(s) && s.At(t).Deciding? && Step(s, t, a).Some?
    ensures var (l, s') := (s.At(t), Step(s, t, a).value);
            var l' := s'.At(t);
            && l'.Settling?
            && (l'.reschedule <==> s'.Times(l.id) == s.Times(l.id) + 1)
            && (l'.reschedule ==> l.id in s'.rows && l'.due == l.now + Backoff(s'.rows[l.id].attempts, s.cfg))
  {
    assert LocalOk(s, s.threads[t]);
  }
}
