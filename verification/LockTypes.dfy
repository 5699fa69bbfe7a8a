/** One lock object: the ownership counter shared by both kinds of lock, and the single guard.
    `LockState` is the value of a lock; class `Lock` is the object that is updated in place. */
module LockTypes {

  type ThreadId = nat
  type MutexId = nat

  datatype LockType = NoLock | Read | Write

  datatype AcquireResult = Avail | Cannot | NeedToConvert

  /** The optional guard. A guard carries the moment it was created, so that the order of
      acquisitions can be spoken of; the program does not store that moment. */
  datatype Guard = NoGuard | Guarded(stamp: nat)

  datatype LockState = LockState(kind: LockType, owners: map<ThreadId, nat>, guard: Guard) {

    /** How often `t` holds this lock; 0 when `t` is not an owner. */
    function Count(t: ThreadId): nat {
      if t in owners then owners[t] else 0
    }

    predicate IsOnlyOwner(t: ThreadId)
      ensures IsOnlyOwner(t) <==> owners.Keys == {t}
    {
      assert owners.Keys == {t} ==> |owners| == |owners.Keys| == 1;
      assert |owners| <= 1 && t in owners ==> |owners.Keys - {t}| == 0;
      |owners| <= 1 && t in owners
    }

    /** A lock stays exactly while it has a guard and somebody owns it. */
    predicate ShouldRemove()
      ensures !ShouldRemove() ==> guard.Guarded? && |owners| > 0
    {
      guard.NoGuard? || owners == map[]
    }

    /** A guarded lock is shared by readers, refused to whoever would have to exclude an owner, and
        to be converted by the one who would exclude nobody but itself. */
    function CanAcquire(t: ThreadId, request: LockType): (r: AcquireResult)
      ensures guard.NoGuard? ==> r == Avail
      ensures guard.Guarded? ==> (r == Avail <==> if kind == Write then t in owners else request == Read)
      ensures r == NeedToConvert <==> guard.Guarded? && kind != Write && request == Write && owners.Keys == {t}
    {
      if guard.NoGuard? then Avail
      else if kind == Write then
        if t in owners then Avail else Cannot
      else if request == Read then Avail
      else if request == Write && IsOnlyOwner(t) then NeedToConvert
      else Cannot
    }

    function AddOwnership(t: ThreadId): (r: LockState)
      ensures r.Count(t) == if t in owners then Count(t) else 1
      ensures forall u :: u != t ==> r.Count(u) == Count(u)
    {
      if t in owners then this else this.(owners := owners[t := 1])
    }

    /** Give up one hold of `t`; the last one takes `t` out of the owner map. */
    function RemoveOwnership(t: ThreadId): (r: LockState)
      ensures r.kind == kind && r.guard == guard && (t !in owners ==> r == this)
      ensures r.Count(t) == if Count(t) <= 1 then 0 else Count(t) - 1
      ensures r.owners.Keys == if Count(t) <= 1 then owners.Keys - {t} else owners.Keys
      ensures forall u :: u != t ==> r.Count(u) == Count(u)
    {
      if t !in owners then this
      else if owners[t] <= 1 then this.(owners := owners - {t})
      else this.(owners := owners[t := owners[t] - 1])
    }

    /** Take the guard anew and count one more hold of `t`. A read lock ignores a request
        that is not a read. */
    function AcquireLock(t: ThreadId, request: LockType, now: nat): (r: LockState)
      ensures kind == Write || request == Read ==> r.Count(t) == Count(t) + 1 && r.guard == Guarded(now)
      ensures kind != Write && request != Read ==> r == this
      ensures forall u :: u != t ==> r.Count(u) == Count(u)
    {
      if kind != Write && request != Read then this
      else LockState(kind, owners[t := Count(t) + 1], Guarded(now))
    }
  }

  /** `AbstractLock` with `CReadLock` and `CWriteLock`, which differ in `kind` only. The calling
      thread is a parameter. */
  class Lock {
    const kind: LockType
    const mutexId: MutexId
    var owners: map<ThreadId, nat>
    var hasGuard: bool
    ghost var stamp: nat

    ghost function Value(): LockState
      reads this
    {
      LockState(kind, owners, if hasGuard then Guarded(stamp) else NoGuard)
    }

    constructor (kind: LockType, mutexId: MutexId)
      ensures Value() == LockState(kind, map[], NoGuard) && this.mutexId == mutexId
    {
      this.kind, this.mutexId := kind, mutexId;
      owners, hasGuard, stamp := map[], false, 0;
    }

    method IsOwner(t: ThreadId) returns (r: bool)
      ensures r <==> t in Value().owners
    {
      r := t in owners;
    }

    method IsOnlyOwner(t: ThreadId) returns (r: bool)
      ensures r <==> Value().IsOnlyOwner(t)
    {
      r := IsOwner(t);
      r := |owners| <= 1 && r;
    }

    method RemoveOwnership(t: ThreadId)
      modifies this
      ensures Value() == old(Value()).RemoveOwnership(t)
    {
      if t !in owners { return; }
      var current := owners[t];
      owners := owners[t := if current > 0 then current - 1 else 0];
      if current <= 1 {
        owners := owners - {t};
        assert owners == old(owners) - {t};
      }
    }

    method AddOwnership(t: ThreadId)
      modifies this
      ensures Value() == old(Value()).AddOwnership(t)
    {
      if t in owners { return; }
      owners := owners[t := 1];
    }

    method CounterIncrease(t: ThreadId)
      modifies this
      ensures Value() == if t in old(owners)
                         then old(Value()).(owners := old(owners)[t := old(owners)[t] + 1])
                         else old(Value())
    {
      if t !in owners { return; }
      owners := owners[t := owners[t] + 1];
    }

    method ShouldRemove() returns (r: bool)
      ensures r <==> Value().ShouldRemove()
    {
      if !hasGuard { return true; }
      r := |owners| <= 0;
    }

    method RemoveGuard()
      modifies this
      ensures Value() == old(Value()).(guard := NoGuard)
    {
      hasGuard := false;
    }

    method CreateGuard(ghost now: nat)
      modifies this
      ensures Value() == old(Value()).(guard := Guarded(now))
    {
      hasGuard, stamp := true, now;
    }

    method CanAcquire(t: ThreadId, request: LockType) returns (r: AcquireResult)
      ensures r == Value().CanAcquire(t, request)
    {
      if !hasGuard { return Avail; }
      if kind == Write {
        var owner := IsOwner(t);
        return if owner then Avail else Cannot;
      }
      if request == Read { return Avail; }
      if request == Write {
        var only := IsOnlyOwner(t);
        if only { return NeedToConvert; }
      }
      return Cannot;
    }

    /** The predicate a waiter re-evaluates, at the moment it is last evaluated. It gives the
        same answer as `CanAcquire`; a timeout is the answer Cannot. */
    method Wait(t: ThreadId, request: LockType) returns (r: AcquireResult)
      ensures r == Value().CanAcquire(t, request)
    {
      r := Cannot;
      if !hasGuard {
        r := Avail;
      } else if kind == Write {
        var owner := IsOwner(t);
        if owner { r := Avail; }
      } else if request == Read {
        r := Avail;
      } else if request == Write {
        var only := IsOnlyOwner(t);
        if only { r := NeedToConvert; }
      }
    }

    method AcquireLock(t: ThreadId, request: LockType, ghost now: nat)
      modifies this
      ensures Value() == old(Value()).AcquireLock(t, request, now)
    {
      if kind != Write && request != Read { return; }
      CreateGuard(now);
      var owner := IsOwner(t);
      if owner {
        CounterIncrease(t);
      } else {
        AddOwnership(t);
      }
    }
  }
}
