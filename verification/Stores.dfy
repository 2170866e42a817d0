/** Environment choices. Every fallible call takes the next verdict of a script:
    it proceeds, it fails without effect, or the process dies just before it.
    A script that has run out means the rest of the run is undisturbed. */
module Faults {
  datatype Verdict = Proceed | Fail | Crash

  function Head(script: seq<Verdict>): Verdict {
    if script == [] then Proceed else script[0]
  }

  function Tail(script: seq<Verdict>): seq<Verdict> {
    if script == [] then [] else script[1..]
  }

  predicate Never(script: seq<Verdict>, v: Verdict) {
    forall i :: 0 <= i < |script| ==> script[i] != v
  }
}

/** The durable job table (store.cpp) as a row map. A failed write leaves its row alone. */
module Stores {
  import opened Jobs
  import opened Faults

  /** One row. `past` holds the versions the row went through before `job`; the
      table itself keeps only the latest one, and nothing below reads `past`. */
  datatype Record = Record(job: JobData, attention: bool, past: seq<JobData>) {
    function History(): seq<JobData> { past + [job] }
  }

  type Rows = map<string, Record>

  datatype Store = Store(rows: Rows, faults: seq<Verdict>) {
    function Next(): Store { this.(faults := Tail(faults)) }

    /** `record_intent`: a plain INSERT, so an existing id is refused. */
    function RecordIntent(job: JobData): (Verdict, Store) {
      var v := Head(faults);
      if v != Proceed then (v, Next())
      else if job.id in rows || !(job.error != "" <==> job.state.Failed?) then (Fail, Next())
      else (Proceed, Next().(rows := rows[job.id := Record(job, false, [])]))
    }

    /** `load`: only whether the query went through; the row is read off `rows`. */
    function Load(): (Verdict, Store) {
      (Head(faults), Next())
    }

    /** `update_state`: load, let the state machine decide, then write. */
    function UpdateState(id: string, to: JobState, now: int, message: string): (Verdict, Store) {
      var (v, st1) := Load();
      if v != Proceed then (v, st1)
      else if id !in st1.rows then (Fail, st1)
      else
        var row := st1.rows[id];
        var t := Transitioned(row.job, to, now, message);
        if t.None? then (Fail, st1)
        else
          var w := Head(st1.faults);
          if w != Proceed then (w, st1.Next())
          else (Proceed, st1.Next().(rows := st1.rows[id := row.(job := t.value, past := row.past + [row.job])]))
    }

    /** `mark_needs_attention` with a non-empty reason: only the flag changes. */
    function MarkAttention(id: string): (Verdict, Store) {
      var v := Head(faults);
      if v != Proceed then (v, Next())
      else if id !in rows then (Fail, Next())
      else (Proceed, Next().(rows := rows[id := rows[id].(attention := true)]))
    }
  }

  /** Everything a row keeps except for what `MarkAttention` may touch. */
  function HistoryOf(st: Store, id: string): seq<JobData>
    requires id in st.rows
  {
    st.rows[id].History()
  }

  /** No store call ever touches a row other than the one it names. */
  predicate OthersKept(a: Store, b: Store, id: string) {
    a.rows - {id} == b.rows - {id} && (id in a.rows ==> id in b.rows)
  }

  /** An update either leaves the row's history alone or appends one legal, later version. */
  lemma UpdateKeepsHistory(st: Store, id: string, to: JobState, now: int, message: string)
    requires id in st.rows && LegalHistory(HistoryOf(st, id))
    requires st.rows[id].job.updatedAt < now
    ensures var st' := st.UpdateState(id, to, now, message).1;
            && OthersKept(st, st', id)
            && LegalHistory(HistoryOf(st', id))
            && (st.UpdateState(id, to, now, message).0 == Proceed ==>
                  && Transitioned(st.rows[id].job, to, now, message) == Some(st'.rows[id].job)
                  && HistoryOf(st', id) == HistoryOf(st, id) + [st'.rows[id].job])
            && (st.UpdateState(id, to, now, message).0 != Proceed ==> st'.rows == st.rows)
  {
    var h := HistoryOf(st, id);
    assert h[|h|-1] == st.rows[id].job;
    var st' := st.UpdateState(id, to, now, message).1;
    if st'.rows != st.rows {
      HistoryExtends(h, to, now, message);
      assert HistoryOf(st', id) == h + [st'.rows[id].job];
    }
  }

  /** A fresh intent is recorded exactly when the insert goes through and the id is new; it
      then starts a legal history, and no other row is touched. */
  lemma IntentStartsHistory(st: Store, id: string, source: string, dest: string, now: int)
    ensures var (v, st') := st.RecordIntent(FreshJob(id, source, dest, now));
            && (v == Proceed <==> Head(st.faults) == Proceed && id !in st.rows)
            && (v != Proceed ==> st'.rows == st.rows)
            && (v == Proceed ==>
                  && OthersKept(st, st', id) && id in st'.rows
                  && HistoryOf(st', id) == [FreshJob(id, source, dest, now)] && LegalHistory(HistoryOf(st', id)))
  {
    var (v, st') := st.RecordIntent(FreshJob(id, source, dest, now));
    if v == Proceed {
      assert HistoryOf(st', id) == [FreshJob(id, source, dest, now)];
      assert st'.rows - {id} == st.rows - {id};
    }
  }

  class JobStore {
    var rows: Rows
    var faults: seq<Verdict>

    constructor (st: Store)
      ensures State() == st
    {
      rows, faults := st.rows, st.faults;
    }

    function State(): Store
      reads this
    {
      Store(rows, faults)
    }

    method Take() returns (v: Verdict)
      modifies this
      ensures v == Head(old(faults)) && State() == old(State()).Next()
    {
      v := Head(faults);
      faults := Tail(faults);
    }

    method RecordIntent(job: JobData) returns (v: Verdict)
      modifies this
      ensures (v, State()) == old(State()).RecordIntent(job)
    {
      v := Take();
      if v != Proceed {
        return;
      }
      if job.id in rows || !(job.error != "" <==> job.state.Failed?) {
        return Fail;
      }
      rows := rows[job.id := Record(job, false, [])];
    }

    method Load(id: string) returns (v: Verdict, job: Option<JobData>)
      modifies this
      ensures (v, State()) == old(State()).Load()
      ensures job == if v == Proceed && id in rows then Some(rows[id].job) else None
    {
      v := Take();
      job := if v == Proceed && id in rows then Some(rows[id].job) else None;
    }

    method UpdateState(id: string, to: JobState, now: int, message: string) returns (v: Verdict)
      modifies this
      ensures (v, State()) == old(State()).UpdateState(id, to, now, message)
    {
      var loaded: Option<JobData>;
      v, loaded := Load(id);
      if v != Proceed {
        return;
      }
      if loaded.None? {
        return Fail;
      }
      var job := new Job(loaded.value);
      var ok := job.Transition(to, now, message);
      if !ok {
        return Fail;
      }
      v := Take();
      if v != Proceed {
        return;
      }
      rows := rows[id := rows[id].(job := job.Data(), past := rows[id].past + [rows[id].job])];
    }

    method MarkAttention(id: string) returns (v: Verdict)
      modifies this
      ensures (v, State()) == old(State()).MarkAttention(id)
    {
      v := Take();
      if v != Proceed {
        return;
      }
      if id !in rows {
        return Fail;
      }
      rows := rows[id := rows[id].(attention := true)];
    }
  }
}
