/** What a job's row says was asked: its paths are those of the request it was submitted
    with, or of the job it is a retry of, and its first version is a job just queued. */
module Requests {
  import opened Jobs
  import opened Stores
  import opened Dispatching
  import opened Manager
  import opened ManagerProofs
  import opened ManagerRuns
  import opened ManagerRows
  import opened ManagerBackoff

  /** The paths of the row are the directories and names of the request, put together. */
  predicate Names(job: JobData, id: Id, req: Request) {
    && job.id == id
    && job.source == req.sourceDir + "/" + req.sourceName
    && job.dest == req.destDir + "/" + req.destName
  }

  /** A job just queued, at its time of creation. */
  predicate Newborn(job: JobData) {
    && job.state == Queued && job.updatedAt == job.createdAt && job.finishedAt == 0
    && job.bytesTotal == 0 && job.bytesMoved == 0 && job.error == ""
  }

  predicate Fits(row: Row, id: Id, req: Request) {
    && row.History() != [] && Newborn(row.History()[0]) && row.History()[0].createdAt == row.Job().createdAt
    && Names(row.Job(), id, req)
  }

  /** Every known job's row fits its request, and so does a row whose publication is due. */
  ghost predicate Matched(s: Machine) {
    && (forall id :: id in s.d.requests ==> id in s.rows && Fits(s.rows[id], id, s.d.requests[id]))
    && (forall t :: t in s.threads && s.threads[t].Publishing? && s.threads[t].recorded ==>
          s.threads[t].id in s.rows && Fits(s.rows[s.threads[t].id], s.threads[t].id, s.threads[t].req))
  }

  lemma FitsStays(r: Row, r': Row, id: Id, req: Request)
    requires Fits(r, id, req) && (r'.History() == r.History() || Extended(r, r'))
    ensures Fits(r', id, req)
  {
    assert r.History()[|r.History()| - 1] == r.Job() && r'.History()[|r'.History()| - 1] == r'.Job();
  }

  /** What a step does to the requests: nothing, or the publication of a recorded claim. */
  lemma RequestsGrow(s: Machine, t: Tid, a: Action)
    requires Inv(s) && Step(s, t, a).Some?
    ensures var (l, s') := (s.At(t), Step(s, t, a).value);
            && (s'.d.requests == s.d.requests
                || (l.Publishing? && l.recorded && l.id !in s.d.requests && s'.d.requests == s.d.requests[l.id := l.req]))
  {
    hide Inv, FreeStep, WorkerStep, ClaimStep, CancelStep;
    var l := s.At(t);
    if l.Free? {
      FreeAsksNothing(s, t, a);
    } else if l.IsWorker() {
      WorkerStepShape(s, t, a);
    } else if l.IsClaim() {
      PendingIsUnknown(s, t);
      ClaimAsks(s, t, l, a);
    } else {
      CancelAsksNothing(s, t, l, a);
    }
  }

  lemma PendingIsUnknown(s: Machine, t: Tid)
    requires Inv(s) && s.At(t).IsClaim()
    ensures s.At(t).id !in s.d.requests
  {
    assert LocalOk(s, s.At(t));
    assert s.At(t).id in s.d.pending && s.d.pending !! s.d.requests.Keys;
  }

  lemma FreeAsksNothing(s: Machine, t: Tid, a: Action)
    requires FreeStep(s, t, a).Some?
    ensures FreeStep(s, t, a).value.d.requests == s.d.requests
  {}

  lemma ClaimAsks(s: Machine, t: Tid, l: Local, a: Action)
    requires l.IsClaim() && ClaimStep(s, t, l, a).Some?
    ensures var s' := ClaimStep(s, t, l, a).value;
            s'.d.requests == s.d.requests || (l.Publishing? && l.recorded && s'.d.requests == s.d.requests[l.id := l.req])
  {}

  lemma CancelAsksNothing(s: Machine, t: Tid, l: Local, a: Action)
    requires l.IsCancel() && CancelStep(s, t, l, a).Some?
    ensures CancelStep(s, t, l, a).value.d.requests == s.d.requests
  {}

  /** How a thread comes to claim a name: by a submit, by a retry, or by going on with its claim. */
  predicate ClaimFrom(s: Machine, l: Local, a: Action, l': Local, rows': map<Id, Row>) {
    || l' == l
    || (l'.Claimed? && a == SubmitClaim(l'.id, l'.req, l'.now))
    || (l'.Claimed? && a.RetryClaim? && a.candidate == l'.id && a.now == l'.now
        && a.failed in s.d.requests && l'.req == s.d.requests[a.failed])
    || (l.Claimed? && l'.Publishing? && l'.id == l.id && l'.req == l.req
        && (l'.recorded ==> l.id in rows' && Fits(rows'[l.id], l.id, l.req) && rows'[l.id].Job().createdAt == l.now))
  }

  lemma ClaimsComeFrom(s: Machine, t: Tid, a: Action)
    requires Step(s, t, a).Some?
    ensures var s' := Step(s, t, a).value;
            && (s'.At(t).IsClaim() ==> ClaimFrom(s, s.At(t), a, s'.At(t), s'.rows))
            && forall u :: u != t ==> s'.At(u) == s.At(u)
  {
    hide FreeStep, WorkerStep, ClaimStep, CancelStep;
    var l := s.At(t);
    if l.Free? {
      FreeClaims(s, t, a);
    } else if l.IsWorker() {
      WorkerStepShape(s, t, a);
      WorkerClaimsNot(s, t, l, a);
    } else if l.IsClaim() {
      ClaimGoesOn(s, t, l, a);
    } else {
      CancelClaimsNot(s, t, l, a);
    }
  }

  lemma FreeClaims(s: Machine, t: Tid, a: Action)
    requires s.At(t).Free? && FreeStep(s, t, a).Some?
    ensures var s' := FreeStep(s, t, a).value;
            && (s'.At(t).IsClaim() ==> ClaimFrom(s, s.At(t), a, s'.At(t), s'.rows))
            && forall u :: u != t ==> s'.At(u) == s.At(u)
  {}

  lemma WorkerClaimsNot(s: Machine, t: Tid, l: Local, a: Action)
    requires l.IsWorker() && s.At(t) == l && WorkerStep(s, t, l, a).Some?
    ensures !WorkerStep(s, t, l, a).value.At(t).IsClaim()
  {}

  lemma CancelClaimsNot(s: Machine, t: Tid, l: Local, a: Action)
    requires l.IsCancel() && s.At(t) == l && CancelStep(s, t, l, a).Some?
    ensures !CancelStep(s, t, l, a).value.At(t).IsClaim()
    ensures forall u :: u != t ==> CancelStep(s, t, l, a).value.At(u) == s.At(u)
  {}

  lemma ClaimGoesOn(s: Machine, t: Tid, l: Local, a: Action)
    requires l.IsClaim() && s.At(t) == l && ClaimStep(s, t, l, a).Some?
    ensures var s' := ClaimStep(s, t, l, a).value;
            && (s'.At(t).IsClaim() ==> ClaimFrom(s, l, a, s'.At(t), s'.rows))
            && forall u :: u != t ==> s'.At(u) == s.At(u)
  {
    var s' := ClaimStep(s, t, l, a).value;
    if s'.At(t).Publishing? && s'.At(t).recorded && l.Claimed? {
      assert s'.rows[l.id].History() == [s'.rows[l.id].Job()];
    }
  }

  lemma StepKeepsMatched(s: Machine, t: Tid, a: Action)
    requires Inv(s) && Matched(s) && Step(s, t, a).Some?
    ensures Matched(Step(s, t, a).value)
  {
    hide Step, Inv, Fits, Extended;
    var s' := Step(s, t, a).value;
    RequestsGrow(s, t, a);
    ClaimsComeFrom(s, t, a);
    forall id, req | id in s.rows && Fits(s.rows[id], id, req)
      ensures id in s'.rows && Fits(s'.rows[id], id, req)
    {
      RowWritesAreLegal(s, t, a, id);
      FitsStays(s.rows[id], s'.rows[id], id, req);
    }
    forall u | u in s'.threads && s'.threads[u].Publishing? && s'.threads[u].recorded
      ensures s'.threads[u].id in s'.rows && Fits(s'.rows[s'.threads[u].id], s'.threads[u].id, s'.threads[u].req)
    {
      assert s'.threads[u] == s'.At(u);
    }
  }

  // ---- Where a request came from -----------------------------------------------------------------

  /** The name was claimed, at that time, by a submit with this request, or by a retry of a job
      that had it. */
  predicate BornAt(tr: Trace, k: nat, s: Machine, id: Id, req: Request, now: int)
    requires k < |tr|
  {
    var a := tr[k].1;
    || a == SubmitClaim(id, req, now)
    || (a.RetryClaim? && a.candidate == id && a.now == now && a.failed in s.d.requests && s.d.requests[a.failed] == req)
  }

  ghost predicate Born(tr: Trace, s: Machine, id: Id, req: Request, now: int) {
    exists k :: 0 <= k < |tr| && BornAt(tr, k, s, id, req, now)
  }

  ghost predicate LocalBorn(tr: Trace, s: Machine, l: Local) {
    && (l.Claimed? ==> Born(tr, s, l.id, l.req, l.now))
    && (l.Publishing? && l.recorded ==> l.id in s.rows && Born(tr, s, l.id, l.req, s.rows[l.id].Job().createdAt))
  }

  /** Every known job, and every claim under way, was asked for along the trace. */
  ghost predicate AllBorn(tr: Trace, s: Machine) {
    && (forall id :: id in s.d.requests ==> id in s.rows && Born(tr, s, id, s.d.requests[id], s.rows[id].Job().createdAt))
    && (forall t :: t in s.threads ==> LocalBorn(tr, s, s.threads[t]))
  }

  lemma BornStays(tr: Trace, s: Machine, e: (Tid, Action), s': Machine, id: Id, req: Request, now: int)
    requires Born(tr, s, id, req, now)
    requires forall x :: x in s.d.requests ==> x in s'.d.requests && s'.d.requests[x] == s.d.requests[x]
    ensures Born(tr + [e], s', id, req, now)
  {
    var k :| 0 <= k < |tr| && BornAt(tr, k, s, id, req, now);
    assert BornAt(tr + [e], k, s', id, req, now);
  }

  lemma BornNow(tr: Trace, s: Machine, t: Tid, a: Action, s': Machine, id: Id, req: Request, now: int)
    requires a == SubmitClaim(id, req, now)
             || (a.RetryClaim? && a.candidate == id && a.now == now && a.failed in s.d.requests && s.d.requests[a.failed] == req)
    requires forall x :: x in s.d.requests ==> x in s'.d.requests && s'.d.requests[x] == s.d.requests[x]
    ensures Born(tr + [(t, a)], s', id, req, now)
  {
    assert BornAt(tr + [(t, a)], |tr|, s', id, req, now);
  }

  /** The time of creation of a row does not change. */
  lemma CreationStays(r: Row, r': Row)
    requires r'.History() == r.History() || Extended(r, r')
    ensures r'.Job().createdAt == r.Job().createdAt
  {
    assert r.History()[|r.History()| - 1] == r.Job() && r'.History()[|r'.History()| - 1] == r'.Job();
  }

  lemma StepKeepsBorn(tr: Trace, s: Machine, t: Tid, a: Action, s': Machine)
    requires Inv(s) && AllBorn(tr, s) && Step(s, t, a) == Some(s')
    ensures AllBorn(tr + [(t, a)], s')
  {
    hide Step, Inv, Born, Fits, Extended;
    RequestsGrow(s, t, a);
    ClaimsComeFrom(s, t, a);
    var tr' := tr + [(t, a)];
    forall id | id in s.rows
      ensures id in s'.rows && s'.rows[id].Job().createdAt == s.rows[id].Job().createdAt
    {
      RowWritesAreLegal(s, t, a, id);
      CreationStays(s.rows[id], s'.rows[id]);
    }
    forall id, req, now | Born(tr, s, id, req, now)
      ensures Born(tr', s', id, req, now)
    {
      BornStays(tr, s, (t, a), s', id, req, now);
    }
    forall u | u in s'.threads
      ensures LocalBorn(tr', s', s'.threads[u])
    {
      assert s'.threads[u] == s'.At(u);
      if u == t {
        MoverBorn(tr, s, t, a, s');
      } else {
        assert s'.At(u) == s.At(u);
        assert u in s.threads ==> LocalBorn(tr, s, s.threads[u]);
      }
    }
    assert t in s.threads ==> LocalBorn(tr, s, s.threads[t]);
  }

  lemma MoverBorn(tr: Trace, s: Machine, t: Tid, a: Action, s': Machine)
    requires s'.At(t).IsClaim() ==> ClaimFrom(s, s.At(t), a, s'.At(t), s'.rows)
    requires forall x :: x in s.d.requests ==> x in s'.d.requests && s'.d.requests[x] == s.d.requests[x]
    requires forall id :: id in s.rows ==> id in s'.rows && s'.rows[id].Job().createdAt == s.rows[id].Job().createdAt
    requires forall id, req, now :: Born(tr, s, id, req, now) ==> Born(tr + [(t, a)], s', id, req, now)
    requires t in s.threads ==> LocalBorn(tr, s, s.threads[t])
    ensures LocalBorn(tr + [(t, a)], s', s'.At(t))
  {
    hide Born, Fits;
    var l' := s'.At(t);
    if l'.Claimed? && l' != s.At(t) {
      BornNow(tr, s, t, a, s', l'.id, l'.req, l'.now);
    }
  }

  lemma {:induction false} RunKeepsRequests(before: Trace, s: Machine, tr: Trace, s': Machine)
    requires Inv(s) && Matched(s) && AllBorn(before, s) && Runs(s, tr, s')
    ensures Inv(s') && Matched(s') && AllBorn(before + tr, s')
    decreases |tr|
  {
    hide Step, Inv, Matched, AllBorn, Disciplined;
    if tr == [] {
      assert before + tr == before;
    } else {
      var (t, a) := tr[0];
      var s1 := Step(s, t, a).value;
      StepKeeps(s, t, a);
      StepKeepsMatched(s, t, a);
      StepKeepsBorn(before, s, t, a, s1);
      RunKeepsRequests(before + [tr[0]], s1, tr[1..], s');
      assert before + [tr[0]] + tr[1..] == before + tr;
    }
  }

  /** Over every run from a start, every job the manager knows was asked for along it, by a
      submit with the request the manager holds for it or by a retry of a job with that
      request, at the row's time of creation; the row names the source and destination of that
      request; and its first version is a job just queued. */
  lemma RecordedAsAsked(s: Machine, tr: Trace, s': Machine, id: Id)
    requires Started(s) && Runs(s, tr, s') && id in s'.d.requests
    ensures id in s'.rows
    ensures var (job, req) := (s'.rows[id].Job(), s'.d.requests[id]);
            && job.id == id
            && job.source == req.sourceDir + "/" + req.sourceName
            && job.dest == req.destDir + "/" + req.destName
            && Born(tr, s', id, req, job.createdAt)
    ensures s'.rows[id].History() != [] && Newborn(s'.rows[id].History()[0])
  {
    hide Runs, Recorded;
    RunKeepsRequests([], s, tr, s');
    assert [] + tr == tr;
  }

  /** A retry is claimed exactly for a known job whose record says FAILED, under a name free in
      the record and in the live maps, and it carries that job's request. */
  lemma RetryClaimsExactly(s: Machine, t: Tid, failed: Id, candidate: Id, now: int)
    requires s.At(t).Free?
    ensures var s' := Step(s, t, RetryClaim(failed, candidate, now));
            && s'.Some?
            && (s'.value.At(t) != Free <==>
                  && failed in s.d.requests && failed in s.rows && s.rows[failed].Job().state == Failed
                  && candidate !in s.rows && candidate !in s.d.requests && candidate !in s.d.pending)
            && (s'.value.At(t) != Free ==> s'.value.At(t) == Claimed(candidate, s.d.requests[failed], now))
  {
    hide WorkerStep, ClaimStep, CancelStep;
  }

  /** After an abort the worker reschedules exactly while attempts are left, and otherwise gives up. */
  lemma CeilingExactly(s: Machine, t: Tid, s': Machine)
    requires s.At(t).Aborted? && s.At(t).id in s.rows && Step(s, t, RetryRead(true)) == Some(s')
    ensures s'.At(t).Deciding? <==> s.rows[s.At(t).id].attempts + 1 < s.cfg.maxAttempts
    ensures s'.At(t).Deciding? ==> s'.At(t).attempts == s.rows[s.At(t).id].attempts + 1
    ensures !s'.At(t).Deciding? ==> s'.At(t).Condemning?
  {
    hide FreeStep, ClaimStep, CancelStep;
  }

  /** A pump leaves no job waiting that is due and not paused, and queues those it found, each
      once, behind what was queued. */
  lemma PumpIsComplete(s: Machine, t: Tid, now: int, due: seq<Id>, s': Machine)
    requires s.d.running && s.At(t).Free? && Step(s, t, PumpDue(now, due)) == Some(s')
    ensures s'.d.runnable == s.d.runnable + due
    ensures forall id :: id in due <==> id in s.d.waiting && s.d.waiting[id] <= now && id !in s.d.paused
    ensures forall id :: id in s'.d.waiting <==> id in s.d.waiting && id !in due
    ensures forall i, j :: 0 <= i < j < |due| ==> due[i] != due[j]
  {
    hide WorkerStep, ClaimStep, CancelStep;
    var found := set x | x in due;
    assert forall id :: id in due <==> id in found;
    assert found == s.d.DueNow(now);
  }

  /** After a shutdown no command is accepted any more; the queue is left as it was. */
  lemma StoppedRefuses(s: Machine, t: Tid, s': Machine, id: Id)
    requires s.At(t).Free? && Step(s, t, Stop) == Some(s')
    ensures s'.d.ClaimSubmit(id).0 == NotRunning && s'.d.Pause(id).0 == NotRunning
    ensures s'.d.Resume(id).0 == NotRunning && s'.d.ClaimCancel(id).0 == NotRunning
    ensures s'.d.runnable == s.d.runnable && s'.d.waiting == s.d.waiting && s'.d.active == s.d.active
    ensures s.d.running ==> s'.d.stopping
  {
    hide WorkerStep, ClaimStep, CancelStep;
  }
}
