/** `CDataWrapper`, the owner of one hold, proved against `WrapperSpec`. */
module DataWrapper {
  import opened LockTypes
  import opened Tracker
  import Spec = TrackerSpec
  import opened WrapperSpec

  class Wrapper {
    var tracker: ThreadTracker?
    var hasData: bool
    var mutexId: MutexId
    var result: WrapperResult
    var phase: Phase
    var waitingOn: Lock?
    ghost var thread: ThreadId
    ghost var request: LockType

    ghost function Value(): WrapperSpec.Wrapper
      reads this
    {
      WrapperSpec.Wrapper(thread, mutexId, request, result, tracker != null, hasData, phase)
    }

    /** The constructor up to its wait; `waitingOn` is the lock it waits for, if any. */
    constructor (tracker: ThreadTracker?, hasData: bool, hasMutex: bool, m: MutexId, request: LockType, t: ThreadId)
      requires tracker != null ==> tracker.Valid()
      modifies if tracker != null then {tracker} + tracker.Repr else {}
      ensures this.tracker == tracker
      ensures tracker == null ==>
        Value() == Construct(Spec.EMPTY, Arguments(t, m, request, false, hasData, hasMutex)).1
      ensures tracker != null ==>
        && tracker.Valid() && fresh(tracker.Repr - old(tracker.Repr)) && this !in tracker.Repr
        && (tracker.State(), Value())
           == Construct(old(tracker.State()), Arguments(t, m, request, true, hasData, hasMutex))
      ensures phase.Waiting? ==> tracker != null && m in tracker.mutexes && waitingOn == tracker.mutexes[m].lock
    {
      this.tracker, this.hasData, this.mutexId := tracker, hasData, m;
      this.result, this.phase, this.waitingOn := DataNotExists, Settled, null;
      this.thread, this.request := t, request;
      new;
      hide ThreadTracker.Valid, Spec.TryAcquire, Spec.Erases, Spec.LastValue;
      if tracker == null || !hasData || m == 0 || !hasMutex { return; }
      var lock, ok := tracker.TryAcquireLock(t, m, request);
      if !ok {
        this.result := Busy;
        this.hasData := false;
        return;
      }
      if lock != null {
        this.phase, this.waitingOn := Waiting, lock;
        return;
      }
      this.result := Success;
    }

    /** The end of the wait: its last look at the lock, which may meanwhile have left the table. */
    method Look(t: ThreadId, request: LockType)
      requires phase.Waiting? && waitingOn != null && t == thread && request == this.request
      modifies this
      ensures tracker == old(tracker)
      ensures Value() == WrapperSpec.Look(old(Value()), old(waitingOn.Value()))
    {
      var answer := waitingOn.Wait(t, request);
      phase, waitingOn := Told(answer), null;
    }

    /** The constructor once the wait has answered. */
    method Retry(t: ThreadId, request: LockType)
      requires phase.Told? && t == thread && request == this.request
      requires tracker != null && tracker.Valid() && this !in tracker.Repr
      modifies this, tracker, tracker.Repr
      ensures tracker == old(tracker) && tracker.Valid() && fresh(tracker.Repr - old(tracker.Repr))
      ensures (tracker.State(), Value()) == WrapperSpec.Retry(old(tracker.State()), old(Value()))
    {
      hide ThreadTracker.Valid, Spec.TryAcquire, Spec.Release, Spec.Erases, Spec.LastValue;
      var answer := phase.answer;
      phase := Settled;
      if answer == NeedToConvert {
        tracker.ReleaseLock(t, mutexId, false);
        var _, ok := tracker.TryAcquireLock(t, mutexId, Write);
        if !ok {
          result := Busy;
          hasData := false;
          return;
        }
      } else if answer == Avail {
        var _, ok := tracker.TryAcquireLock(t, mutexId, request);
        if !ok {
          result := Busy;
          return;
        }
      } else {
        return;
      }
      result := Success;
    }

    /** The destructor, run by thread `u`. The tracker is used unchecked. */
    method Destroy(u: ThreadId)
      requires result == Success ==> tracker != null
      requires tracker != null ==> tracker.Valid() && this !in tracker.Repr
      modifies if tracker != null then {tracker} + tracker.Repr else {}
      ensures tracker != null ==>
        tracker.Valid() && tracker.State() == WrapperSpec.Destroy(old(tracker.State()), old(Value()), u)
    {
      if result == Success {
        tracker.ReleaseLock(u, mutexId, false);
      }
    }

    constructor Move(other: Wrapper)
      requires other.phase.Settled?
      modifies other
      ensures tracker == old(other.tracker)
      ensures Value() == old(other.Value()) && other.Value() == MovedFrom(old(other.Value()))
    {
      tracker, hasData, mutexId := other.tracker, other.hasData, other.mutexId;
      result, phase, waitingOn := other.result, Settled, null;
      thread, request := other.thread, other.request;
      new;
      other.tracker, other.hasData := null, false;
      other.result := DataNotExists;
    }

    /** Move assignment. Whatever this wrapper held before is forgotten, not released. */
    method MoveAssign(other: Wrapper)
      requires phase.Settled? && other.phase.Settled?
      modifies this, other
      ensures other == this ==> Value() == old(Value()) && tracker == old(tracker)
      ensures other != this ==>
        && tracker == old(other.tracker)
        && Value() == old(other.Value()) && other.Value() == MovedFrom(old(other.Value()))
    {
      if this != other {
        tracker, hasData, mutexId := other.tracker, other.hasData, other.mutexId;
        result := other.result;
        thread, request := other.thread, other.request;
        other.tracker, other.hasData := null, false;
        other.result := DataNotExists;
      }
    }
  }
}
