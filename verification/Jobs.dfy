/** The job state machine (job.cpp): five states, the legal graph between them,
    and the in-memory job whose `Transition` is the only way along an edge. */
module Jobs {

  datatype Option<+T> = None | Some(value: T)

  datatype JobState = Queued | Renaming | Transferring | Done | Failed

  predicate IsTerminal(s: JobState) {
    s.Done? || s.Failed?
  }

  predicate IsLegalTransition(from: JobState, to: JobState) {
    match from
    case Queued => to.Renaming? || to.Failed?
    case Renaming => to.Transferring? || to.Failed?
    case Transferring => to.Done? || to.Failed?
    case Done => false
    case Failed => false
  }

  /** One version of a job, as held in memory and as written to its row. */
  datatype JobData = JobData(
    id: string, source: string, dest: string, state: JobState,
    createdAt: int, updatedAt: int, finishedAt: int,
    bytesTotal: nat, bytesMoved: nat, error: string)

  function FreshJob(id: string, source: string, dest: string, now: int): JobData {
    JobData(id, source, dest, Queued, now, now, 0, 0, 0, "")
  }

  /** What a transition does to a job, or None when it is refused. */
  function Transitioned(j: JobData, to: JobState, now: int, message: string): Option<JobData> {
    if !IsLegalTransition(j.state, to) || (to.Failed? <==> message == "") then
      None
    else
      Some(j.(state := to, updatedAt := now,
              finishedAt := if IsTerminal(to) then now else j.finishedAt,
              error := if to.Failed? then message else j.error))
  }

  /** The edges, and the message exactly for FAILED; what a transition leaves alone. */
  lemma TransitionsExactly(j: JobData, to: JobState, now: int, message: string)
    ensures Transitioned(j, to, now, message).Some? <==>
            && (j.state, to) in {(Queued, Renaming), (Renaming, Transferring), (Transferring, Done),
                                 (Queued, Failed), (Renaming, Failed), (Transferring, Failed)}
            && (message != "" <==> to == Failed)
    ensures Transitioned(j, to, now, message).Some? ==>
              Transitioned(j, to, now, message).value
              == (match to
                  case Failed => j.(state := Failed, updatedAt := now, finishedAt := now, error := message)
                  case Done => j.(state := Done, updatedAt := now, finishedAt := now)
                  case _ => j.(state := to, updatedAt := now))
  {}

  class Job {
    const id: string
    const source: string
    const dest: string
    const createdAt: int
    const bytesTotal: nat
    const bytesMoved: nat
    var state: JobState
    var updatedAt: int
    var finishedAt: int
    var error: string

    constructor (d: JobData)
      ensures Data() == d
    {
      id, source, dest := d.id, d.source, d.dest;
      createdAt, bytesTotal, bytesMoved := d.createdAt, d.bytesTotal, d.bytesMoved;
      state, updatedAt, finishedAt, error := d.state, d.updatedAt, d.finishedAt, d.error;
    }

    function Data(): JobData
      reads this
    {
      JobData(id, source, dest, state, createdAt, updatedAt, finishedAt, bytesTotal, bytesMoved, error)
    }

    method Transition(to: JobState, now: int, message: string) returns (ok: bool)
      modifies this
      ensures ok <==> Transitioned(old(Data()), to, now, message).Some?
      ensures Data() == if ok then Transitioned(old(Data()), to, now, message).value else old(Data())
    {
      if !IsLegalTransition(state, to) {
        return false;
      }
      if to.Failed? && message == "" {
        return false;
      }
      if !to.Failed? && message != "" {
        return false;
      }
      state := to;
      updatedAt := now;
      if IsTerminal(to) {
        finishedAt := now;
      }
      if to.Failed? {
        error := message;
      }
      return true;
    }
  }

  // ---- Durable history -------------------------------------------------

  /** The row constraint of the schema, and what terminal rows record. */
  predicate RowOk(j: JobData) {
    && (j.error != "" <==> j.state.Failed?)
    && (IsTerminal(j.state) ==> j.finishedAt == j.updatedAt)
    && (!IsTerminal(j.state) ==> j.finishedAt == 0)
  }

  /** The committed versions of one row, oldest first, form a path of the legal
      graph with strictly increasing update times. */
  ghost predicate LegalHistory(h: seq<JobData>) {
    && h != []
    && h[0] == FreshJob(h[0].id, h[0].source, h[0].dest, h[0].createdAt)
    && (forall i :: 0 <= i < |h| ==> RowOk(h[i]) && SameJob(h[0], h[i]))
    && (forall i :: 0 < i < |h| ==>
          IsLegalTransition(h[i-1].state, h[i].state) && h[i-1].updatedAt < h[i].updatedAt)
  }

  predicate SameJob(a: JobData, b: JobData) {
    a.(state := b.state, updatedAt := b.updatedAt, finishedAt := b.finishedAt, error := b.error) == b
  }

  function Rank(s: JobState): nat {
    match s
    case Queued => 0
    case Renaming => 1
    case Transferring => 2
    case Done => 3
    case Failed => 3
  }

  lemma {:induction false} HistoryRank(h: seq<JobData>, k: nat)
    requires LegalHistory(h) && k < |h|
    ensures Rank(h[k].state) >= k
  {
    if k > 0 {
      HistoryRank(h, k - 1);
      assert IsLegalTransition(h[k-1].state, h[k].state);
    }
  }

  /** A job records at most three transitions, and a terminal version is the last one. */
  lemma HistoryIsShort(h: seq<JobData>)
    requires LegalHistory(h)
    ensures |h| <= 4
    ensures forall i :: 0 <= i < |h| - 1 ==> !IsTerminal(h[i].state)
  {
    HistoryRank(h, |h| - 1);
    forall i | 0 <= i < |h| - 1
      ensures !IsTerminal(h[i].state)
    {
      assert IsLegalTransition(h[i + 1 - 1].state, h[i + 1].state);
    }
  }

  /** Extending a legal history by an accepted transition at a later time keeps it legal. */
  lemma HistoryExtends(h: seq<JobData>, to: JobState, now: int, message: string)
    requires LegalHistory(h)
    requires Transitioned(h[|h|-1], to, now, message).Some?
    requires h[|h|-1].updatedAt < now
    ensures LegalHistory(h + [Transitioned(h[|h|-1], to, now, message).value])
  {
    var last := h[|h|-1];
    var next := Transitioned(last, to, now, message).value;
    assert RowOk(last) && SameJob(h[0], last);
    assert RowOk(next) && SameJob(h[0], next);
  }

  function StatesOf(h: seq<JobData>): seq<JobState> { seq(|h|, i requires 0 <= i < |h| => h[i].state) }

  /** The seven lives a record can have, spelled out. */
  const LIVES: set<seq<JobState>> := {
    [Queued], [Queued, Renaming], [Queued, Renaming, Transferring], [Queued, Renaming, Transferring, Done],
    [Queued, Failed], [Queued, Renaming, Failed], [Queued, Renaming, Transferring, Failed]}

  lemma LivesAreLegal(h: seq<JobData>)
    requires LegalHistory(h)
    ensures StatesOf(h) in LIVES
  {
    HistoryIsShort(h);
    var ss := StatesOf(h);
    assert ss[0] == Queued;
    if |h| >= 2 {
      assert IsLegalTransition(h[1 - 1].state, h[1].state);
      if |h| >= 3 {
        assert IsLegalTransition(h[2 - 1].state, h[2].state);
        if |h| >= 4 {
          assert IsLegalTransition(h[3 - 1].state, h[3].state);
          assert ss == [Queued, Renaming, Transferring, h[3].state];
        } else {
          assert ss == [Queued, Renaming, h[2].state];
        }
      } else {
        assert ss == [Queued, h[1].state];
      }
    } else {
      assert ss == [Queued];
    }
  }

  /** One step of a life, taken at the next moment. */
  lemma LifeGoesOn(h: seq<JobData>, to: JobState) returns (h': seq<JobData>)
    requires LegalHistory(h) && IsLegalTransition(h[|h| - 1].state, to)
    ensures LegalHistory(h') && StatesOf(h') == StatesOf(h) + [to] && h'[|h'| - 1].state == to
  {
    var last := h[|h| - 1];
    var message := if to.Failed? then "failed" else "";
    HistoryExtends(h, to, last.updatedAt + 1, message);
    h' := h + [Transitioned(last, to, last.updatedAt + 1, message).value];
    assert StatesOf(h') == StatesOf(h) + [to];
  }

  /** The recorded states of a job are one of the seven lives, and each of them occurs. */
  lemma LivesExactly(ss: seq<JobState>)
    ensures (exists h :: LegalHistory(h) && StatesOf(h) == ss) <==> ss in LIVES
  {
    if h :| LegalHistory(h) && StatesOf(h) == ss {
      LivesAreLegal(h);
    }
    var q := [FreshJob("", "", "", 0)];
    assert LegalHistory(q) && StatesOf(q) == [Queued];
    hide LegalHistory, StatesOf;
    var qf := LifeGoesOn(q, Failed);
    var qr := LifeGoesOn(q, Renaming);
    var qrf := LifeGoesOn(qr, Failed);
    var qrt := LifeGoesOn(qr, Transferring);
    var qrtd := LifeGoesOn(qrt, Done);
    var qrtf := LifeGoesOn(qrt, Failed);
  }
}
