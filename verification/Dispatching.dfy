/** The manager's in-memory dispatch state (manager.cpp) and its critical
    sections: one function per stretch of code that runs under the manager mutex. */
module Dispatching {
  import opened Jobs
  import opened Sequences
  import Mover

  type Id = string
  type Request = Mover.MoveRequest

  datatype CommandResult = Accepted | UnknownJob | InvalidState | NotRunning | StoreError

  datatype Dispatch = Dispatch(
    running: bool, stopping: bool,
    runnable: seq<Id>, requests: map<Id, Request>, waiting: map<Id, int>,
    paused: set<Id>, active: set<Id>, pending: set<Id>)
  {
    /** A worker takes the front of the queue. */
    function Take(): (Id, Dispatch)
      requires runnable != []
    {
      (runnable[0], this.(runnable := runnable[1..], active := active + {runnable[0]}))
    }

    /** A worker is done with its job, which may have to wait for another attempt. */
    function Settle(id: Id, reschedule: bool, due: int): Dispatch {
      this.(active := active - {id}, waiting := if reschedule then waiting[id := due] else waiting)
    }

    function ClaimSubmit(id: Id): (CommandResult, Dispatch) {
      if !running then (NotRunning, this)
      else if id in requests || id in pending then (InvalidState, this)
      else (Accepted, this.(pending := pending + {id}))
    }

    /** Publishes a claimed job once its intent is recorded, or drops the claim. */
    function Publish(id: Id, req: Request, recorded: bool): Dispatch {
      var d := this.(pending := pending - {id});
      if recorded then d.(requests := requests[id := req], runnable := runnable + [id]) else d
    }

    /** The claim inside `retry`: free in the live maps, and now reserved. */
    function ClaimRetry(candidate: Id): (bool, Dispatch) {
      if candidate in requests || candidate in pending then (false, this)
      else (true, this.(pending := pending + {candidate}))
    }

    function Pause(id: Id): (CommandResult, Dispatch) {
      if !running then (NotRunning, this)
      else if id !in requests then (UnknownJob, this)
      else if id in active then (InvalidState, this)
      else (Accepted, this.(runnable := Without(runnable, id), waiting := waiting - {id}, paused := paused + {id}))
    }

    function Resume(id: Id): (CommandResult, Dispatch) {
      if !running then (NotRunning, this)
      else if id !in requests then (UnknownJob, this)
      else if id !in paused then (InvalidState, this)
      else (Accepted, this.(paused := paused - {id}, runnable := runnable + [id]))
    }

    /** `cancel` takes the job out of dispatch before its durable write. */
    function ClaimCancel(id: Id): (CommandResult, bool, Dispatch) {
      if !running then (NotRunning, false, this)
      else if id !in requests then (UnknownJob, false, this)
      else if id in active then (InvalidState, false, this)
      else (Accepted, id in runnable,
            this.(runnable := Without(runnable, id), waiting := waiting - {id}, paused := paused - {id}))
    }

    function Restore(id: Id): Dispatch { this.(runnable := runnable + [id]) }

    /** The jobs `pump` would move now. */
    function DueNow(now: int): set<Id> {
      set id | id in waiting && waiting[id] <= now && id !in paused
    }

    function Pump(due: seq<Id>): Dispatch {
      if !running then this
      else this.(waiting := waiting - (set x | x in due), runnable := runnable + due)
    }

    function Shutdown(): Dispatch {
      if !running then this else this.(stopping := true, running := false)
    }
  }

  class DispatchState {
    var running: bool
    var stopping: bool
    var runnable: seq<Id>
    var requests: map<Id, Request>
    var waiting: map<Id, int>
    var paused: set<Id>
    var active: set<Id>
    var pending: set<Id>

    function View(): Dispatch
      reads this
    {
      Dispatch(running, stopping, runnable, requests, waiting, paused, active, pending)
    }

    /** Scans the queue and erases the job if it is there. */
    method TakeRunnable(id: Id) returns (found: bool)
      modifies this`runnable
      ensures found == (id in old(runnable)) && runnable == Without(old(runnable), id)
    {
      var k := 0;
      while k < |runnable|
        invariant 0 <= k <= |runnable|
        invariant runnable == old(runnable)
        invariant forall i :: 0 <= i < k ==> runnable[i] != id
      {
        if runnable[k] == id {
          WithoutAt(runnable, k);
          runnable := runnable[..k] + runnable[k + 1..];
          return true;
        }
        k := k + 1;
      }
      WithoutAbsent(runnable, id);
      return false;
    }

    method WorkerTake() returns (id: Id)
      requires runnable != []
      modifies this
      ensures (id, View()) == old(View()).Take()
    {
      id := runnable[0];
      runnable := runnable[1..];
      active := active + {id};
    }

    method WorkerSettle(id: Id, reschedule: bool, due: int)
      modifies this
      ensures View() == old(View()).Settle(id, reschedule, due)
    {
      active := active - {id};
      if reschedule {
        waiting := waiting[id := due];
      }
    }

    method ClaimSubmit(id: Id) returns (r: CommandResult)
      modifies this
      ensures (r, View()) == old(View()).ClaimSubmit(id)
    {
      if !running {
        return NotRunning;
      }
      if id in requests || id in pending {
        return InvalidState;
      }
      pending := pending + {id};
      return Accepted;
    }

    method Publish(id: Id, req: Request, recorded: bool) returns (r: CommandResult)
      modifies this
      ensures View() == old(View()).Publish(id, req, recorded)
      ensures r == if recorded then Accepted else StoreError
    {
      pending := pending - {id};
      if !recorded {
        return StoreError;
      }
      requests := requests[id := req];
      runnable := runnable + [id];
      return Accepted;
    }

    method ClaimRetry(candidate: Id) returns (ok: bool)
      modifies this
      ensures (ok, View()) == old(View()).ClaimRetry(candidate)
    {
      if candidate in requests || candidate in pending {
        return false;
      }
      pending := pending + {candidate};
      return true;
    }

    method Pause(id: Id) returns (r: CommandResult)
      modifies this
      ensures (r, View()) == old(View()).Pause(id)
    {
      if !running {
        return NotRunning;
      }
      if id !in requests {
        return UnknownJob;
      }
      if id in active {
        return InvalidState;
      }
      var _ := TakeRunnable(id);
      waiting := waiting - {id};
      paused := paused + {id};
      return Accepted;
    }

    method Resume(id: Id) returns (r: CommandResult)
      modifies this
      ensures (r, View()) == old(View()).Resume(id)
    {
      if !running {
        return NotRunning;
      }
      if id !in requests {
        return UnknownJob;
      }
      if id !in paused {
        return InvalidState;
      }
      paused := paused - {id};
      runnable := runnable + [id];
      return Accepted;
    }

    method ClaimCancel(id: Id) returns (r: CommandResult, wasRunnable: bool)
      modifies this
      ensures (r, wasRunnable, View()) == old(View()).ClaimCancel(id)
    {
      if !running {
        return NotRunning, false;
      }
      if id !in requests {
        return UnknownJob, false;
      }
      if id in active {
        return InvalidState, false;
      }
      wasRunnable := TakeRunnable(id);
      waiting := waiting - {id};
      paused := paused - {id};
      r := Accepted;
    }

    /** Intake stops; what is queued and active stays. */
    method Shutdown()
      modifies this
      ensures View() == old(View()).Shutdown()
    {
      if !running {
        return;
      }
      stopping := true;
      running := false;
    }

    /** Puts a job back that was taken out and not cancelled. */
    method Restore(id: Id)
      modifies this
      ensures View() == old(View()).Restore(id)
    {
      runnable := runnable + [id];
    }

    /** Collects the due jobs, then moves each from the wait to the queue. */
    method Pump(now: int) returns (due: seq<Id>)
      modifies this
      ensures NoRepeats(due)
      ensures (set x | x in due) == if old(running) then old(View()).DueNow(now) else {}
      ensures View() == old(View()).Pump(due)
    {
      due := [];
      if !running {
        return;
      }
      var keys := waiting.Keys;
      while keys != {}
        invariant View() == old(View())
        invariant keys <= waiting.Keys && NoRepeats(due)
        invariant forall x :: x in due <==> x in waiting && x !in keys && waiting[x] <= now && x !in paused
        decreases keys
      {
        var x :| x in keys;
        keys := keys - {x};
        if waiting[x] <= now && x !in paused {
          due := due + [x];
        }
      }
      var moved := 0;
      while moved < |due|
        invariant 0 <= moved <= |due|
        invariant waiting == old(waiting) - (set x | x in due[..moved])
        invariant runnable == old(runnable) + due[..moved]
        invariant View() == old(View()).(waiting := waiting, runnable := runnable)
      {
        waiting := waiting - {due[moved]};
        runnable := runnable + [due[moved]];
        assert due[..moved + 1] == due[..moved] + [due[moved]];
        moved := moved + 1;
      }
      assert due[..moved] == due;
    }
  }
}
