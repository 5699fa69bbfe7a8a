/** `CNewThreadTracker`: the table of lock records, the per-thread vectors and the scheduled
    background tasks, updated in place. Every method is proved to do what `TrackerSpec` says. */
module Tracker {
  import opened Sequences
  import opened LockTypes
  import opened LockData
  import Spec = TrackerSpec

  class ThreadTracker {
    var mutexes: map<MutexId, LockRecord>
    var heldLocks: map<ThreadId, seq<MutexId>>
    var scheduled: seq<MutexId>

    ghost var table: map<MutexId, Entry>  // the values of the records in `mutexes`
    ghost var clock: nat
    ghost var Repr: set<object>           // at least the records and locks in `mutexes`

    ghost function State(): Spec.TrackerState
      reads this
    {
      Spec.TrackerState(table, heldLocks, scheduled, clock)
    }

    /** `table` tells the values of the records, every lock knows the mutex it is registered for
        (so no two entries share a lock), and no vector lists a mutex twice. */
    ghost predicate Valid()
      reads this, Repr
      ensures Valid() ==> this !in Repr && table.Keys == mutexes.Keys
    {
      && this !in Repr
      && table.Keys == mutexes.Keys
      && (forall m :: m in mutexes ==>
            var record := mutexes[m];
            && record in Repr && record.lock in Repr && record.lock.mutexId == m
            && record.Value() == table[m])
      && (forall t :: t in heldLocks ==> NoDup(heldLocks[t]))
    }

    constructor ()
      ensures Valid() && State() == Spec.EMPTY && Repr == {}
    {
      mutexes, heldLocks, scheduled := map[], map[], [];
      table, clock, Repr := map[], 0, {};
    }

    method AddToHeldLocks(t: ThreadId, m: MutexId)
      requires Valid()
      modifies this`heldLocks
      ensures Valid() && heldLocks == Spec.Listed(old(heldLocks), t, m)
      ensures m != 0 ==> t in heldLocks && m in heldLocks[t]
    {
      if m == 0 { return; }
      if t !in heldLocks {
        heldLocks := heldLocks[t := [m]];
      } else if m !in heldLocks[t] {
        heldLocks := heldLocks[t := heldLocks[t] + [m]];
      }
    }

    method RemoveFromHeldLocks(t: ThreadId, m: MutexId)
      requires Valid()
      modifies this`heldLocks
      ensures Valid() && heldLocks == Spec.Unlisted(old(heldLocks), t, m)
    {
      if m == 0 || t !in heldLocks { return; }
      SwapPopRemoves(heldLocks[t], m);
      var vec := heldLocks[t];
      var elem := IndexOf(vec, m);
      if elem != |vec| {
        if elem != |vec| - 1 {
          vec := vec[elem := vec[|vec| - 1]];
        }
        vec := vec[..|vec| - 1];
      }
      assert vec == SwapPop(heldLocks[t], m);
      heldLocks := heldLocks[t := vec];
    }

    /** A record taken out of the table is the tracker's no longer, and so is its lock. */
    method RemoveFromMutexes(m: MutexId)
      requires Valid()
      modifies this`mutexes, this`table, this`Repr
      ensures Valid() && table == old(table) - {m} && Repr <= old(Repr)
      ensures m in old(mutexes) ==> old(mutexes)[m] !in Repr && old(mutexes)[m].lock !in Repr
    {
      if m !in mutexes {
        assert table - {m} == table;
        return;
      }
      Repr := Repr - {mutexes[m], mutexes[m].lock};
      mutexes, table := mutexes - {m}, table - {m};
    }

    /** Does the thread hold a mutex with a greater ID? The vector must not be empty when it
        exists, since its maximum is taken unchecked. */
    method NeedToReset(t: ThreadId, m: MutexId) returns (r: bool)
      requires t in heldLocks ==> heldLocks[t] != []
      ensures r <==> Spec.NeedToReset(State(), t, m)
    {
      if m == 0 || t !in heldLocks { return false; }
      r := Max(heldLocks[t]) > m;
    }

    method GetType(m: MutexId) returns (kind: LockType)
      requires Valid() && m in table
      ensures kind == table[m].lock.kind
    {
      kind := mutexes[m].lock.kind;
    }

    method GetLockData(m: MutexId) returns (r: Lock?)
      requires Valid()
      ensures r == null <==> m == 0 || m !in table
      ensures r != null ==> r == mutexes[m].lock && r.Value() == table[m].lock
    {
      if m == 0 || m !in mutexes { return null; }
      r := mutexes[m].lock;
    }

    /** Overwrite the vector of a thread. */
    method SetVector(t: ThreadId, vec: seq<MutexId>)
      requires Valid() && NoDup(vec)
      modifies this`heldLocks
      ensures Valid() && heldLocks == old(heldLocks)[t := vec]
    {
      heldLocks := heldLocks[t := vec];
    }

    /** Drop the guard of one registered lock. */
    method DropGuard(m: MutexId)
      requires Valid() && m in table
      modifies this`table, Repr
      ensures Valid() && table == Spec.DropGuards(old(table), [m])
    {
      mutexes[m].lock.RemoveGuard();
      table := table[m := mutexes[m].Value()];
    }

    /** Create the guard of one registered lock. */
    method TakeGuard(m: MutexId)
      requires Valid() && m in table
      modifies this`table, this`clock, Repr
      ensures Valid() && clock == old(clock) + 1
      ensures var e := old(table)[m];
        table == old(table)[m := e.(lock := e.lock.(guard := Guarded(old(clock))))]
    {
      mutexes[m].lock.CreateGuard(clock);
      table, clock := table[m := mutexes[m].Value()], clock + 1;
    }

    lemma VectorIsValid(t: ThreadId)
      requires Valid() && t in heldLocks
      ensures NoDup(heldLocks[t])
    {
    }

    /** First phase of `ReorderAll`: drop the guards, and note which listed mutexes are gone. */
    method DropHeldGuards(t: ThreadId) returns (garbage: seq<MutexId>)
      requires Valid() && t in heldLocks
      modifies this`table, Repr
      ensures Valid() && table == Spec.DropGuards(old(table), heldLocks[t])
      ensures NoDup(garbage) && Elems(garbage) == Elems(heldLocks[t]) - mutexes.Keys
    {
      hide Valid;
      VectorIsValid(t);
      garbage := [];
      var ids := heldLocks[t];
      for i := 0 to |ids|
        invariant Valid() && table == Spec.DropGuards(old(table), ids[..i])
        invariant NoDup(garbage) && forall m :: m in garbage <==> m in ids[..i] && m !in mutexes
      {
        var m := ids[i];
        assert ids[..i + 1] == ids[..i] + [m];
        if m !in mutexes {
          garbage := garbage + [m];
        } else {
          DropGuard(m);
        }
        assert table == Spec.DropGuards(old(table), ids[..i + 1]);
      }
      assert ids[..|ids|] == ids;
    }

    /** Second and third phase: swap-and-pop the garbage, then sort the vector. */
    method PurgeAndSort(t: ThreadId, garbage: seq<MutexId>)
      requires Valid() && t in heldLocks
      requires NoDup(garbage) && Elems(garbage) == Elems(heldLocks[t]) - mutexes.Keys
      modifies this`heldLocks
      ensures Valid()
      ensures heldLocks == old(heldLocks)[t := Spec.Kept(old(State()), old(heldLocks)[t])]
    {
      hide Valid, Spec.Kept, Sort, SwapPop;
      VectorIsValid(t);
      for i := 0 to |garbage|
        invariant Valid() && t in heldLocks && heldLocks == old(heldLocks)[t := heldLocks[t]]
        invariant NoDup(heldLocks[t]) && Elems(heldLocks[t]) == Elems(old(heldLocks)[t]) - Elems(garbage[..i])
      {
        SwapPopRemoves(heldLocks[t], garbage[i]);
        assert garbage[..i + 1] == garbage[..i] + [garbage[i]];
        SetVector(t, SwapPop(heldLocks[t], garbage[i]));
      }
      assert garbage[..|garbage|] == garbage;
      SortedRest(heldLocks[t], old(State()), old(heldLocks)[t], garbage);
      SetVector(t, Sort(heldLocks[t]));
    }

    /** Last phase: take the guards again, in the order of the vector. The table is looked up
        unchecked, which is safe because every listed mutex is registered. */
    method RecreateGuards(t: ThreadId)
      requires Valid() && t in heldLocks
      requires Ascending(heldLocks[t]) && forall m :: m in heldLocks[t] ==> m in table
      modifies this`clock, this`table, Repr
      ensures Valid() && clock == old(clock) + |heldLocks[t]|
      ensures table == Spec.CreateGuards(old(table), heldLocks[t], old(clock))
    {
      hide Valid, Ascending;
      var vec := heldLocks[t];
      for i := 0 to |vec|
        invariant Valid() && clock == old(clock) + i
        invariant table == Spec.CreateGuards(old(table), vec[..i], old(clock))
      {
        var m := vec[i];
        TakeGuard(m);
        CreateOneMore(old(table), vec, i, old(clock));
      }
      assert vec[..|vec|] == vec;
    }

    /** Drop all guards of the thread, clean its vector, sort it, and take the guards again from
        the smallest ID upwards. Counters are left alone. */
    method ReorderAll(t: ThreadId)
      requires Valid() && t in heldLocks
      modifies this`heldLocks, this`clock, this`table, Repr
      ensures Valid() && State() == Spec.Reorder(old(State()), t)
    {
      hide Valid, NoDup, Elems, Spec.DropGuards, Spec.CreateGuards;
      ghost var before := State();
      KeptIsRegistered(before, heldLocks[t], clock);
      var garbage := DropHeldGuards(t);
      PurgeAndSort(t, garbage);
      RecreateGuards(t);
    }

    /** Put a new, unowned lock into the table. */
    method Emplace(m: MutexId, request: LockType)
      requires Valid() && m !in table
      modifies this`mutexes, this`table, this`Repr
      ensures Valid() && fresh(Repr - old(Repr)) && old(Repr) <= Repr
      ensures table == old(table)[m := Entry(LockState(request, map[], NoGuard), [])]
    {
      var lock := new Lock(request, m);
      var record := new LockRecord(lock);
      mutexes, table, Repr := mutexes[m := record], table[m := record.Value()], Repr + {record, lock};
    }

    /** Put a new lock into the table unless the mutex is registered, and acquire it. */
    method EmplaceAndAcquire(t: ThreadId, m: MutexId, request: LockType) returns (ok: bool)
      requires Valid() && m != 0 && request != NoLock
      modifies this, Repr
      ensures Valid() && fresh(Repr - old(Repr)) && old(Repr) <= Repr
      ensures ok <==> m !in old(table)
      ensures !ok ==> State() == old(State())
      ensures ok ==> t in heldLocks && m in heldLocks[t]
      ensures ok ==> State() == Spec.Install(old(State()), t, m, Spec.FirstHold(t, request, old(clock)))
    {
      hide Valid;
      if m in mutexes { return false; }
      Emplace(m, request);
      AcquireRegistered(t, m, request);
      return true;
    }

    /** Register a mutex nobody holds yet. */
    method RegisterMutex(t: ThreadId, m: MutexId, request: LockType) returns (ok: bool)
      requires Valid()
      modifies this, Repr
      ensures Valid() && fresh(Repr - old(Repr)) && old(Repr) <= Repr
      ensures (State(), ok) == Spec.Register(old(State()), t, m, request)
    {
      hide Valid;
      if m == 0 { return false; }
      if request == Read {
        ok := EmplaceAndAcquire(t, m, Read);
        if !ok { return; }
      } else if request == Write {
        ok := EmplaceAndAcquire(t, m, Write);
        if !ok { return; }
      } else {
        return false;
      }
      if request == Write {
        var reset := NeedToReset(t, m);
        if reset { ReorderAll(t); }
      }
    }

    /** List the mutex and take one more hold of its lock. */
    method AcquireRegistered(t: ThreadId, m: MutexId, request: LockType)
      requires Valid() && m != 0 && m in table
      modifies this`heldLocks, this`clock, this`table, Repr
      ensures Valid() && t in heldLocks && m in heldLocks[t]
      ensures var e := old(table)[m];
        State() == Spec.Install(old(State()), t, m, e.(lock := e.lock.AcquireLock(t, request, old(clock))))
    {
      hide Valid;
      AddToHeldLocks(t, m);
      CountHold(t, m, request);
    }

    method CountHold(t: ThreadId, m: MutexId, request: LockType)
      requires Valid() && m in table
      modifies this`clock, this`table, Repr
      ensures Valid() && clock == old(clock) + 1
      ensures var e := old(table)[m];
        table == old(table)[m := e.(lock := e.lock.AcquireLock(t, request, old(clock)))]
    {
      mutexes[m].lock.AcquireLock(t, request, clock);
      table, clock := table[m := mutexes[m].Value()], clock + 1;
    }

    /** The lock to wait for, if any, and whether waiting or holding makes sense. A conversion leaves
        the lock object it takes out to those who still wait for it. */
    method TryAcquireLock(t: ThreadId, m: MutexId, request: LockType) returns (lock: Lock?, ok: bool)
      requires Valid()
      modifies this, Repr
      ensures Valid() && fresh(Repr - old(Repr))
      ensures State() == Spec.TryAcquire(old(State()), t, m, request).0
      ensures Spec.TryAcquire(old(State()), t, m, request).1
              == if !ok then Spec.Refused else if lock != null then Spec.MustWait else Spec.Granted
      ensures lock != null ==> m in mutexes && lock == mutexes[m].lock
      ensures var step := Spec.Acquiring(t, m, request);
        Spec.Erases(old(State()), step) ==>
          && m in old(mutexes) && old(mutexes)[m].lock !in Repr
          && old(mutexes)[m].lock.Value() == Spec.LastValue(old(State()), step)
    {
      hide Valid;
      lock := null;
      if m == 0 { return null, false; }
      var data := GetLockData(m);
      if data == null {
        ok := RegisterMutex(t, m, request);
        return;
      }
      var result := data.CanAcquire(t, request);
      if result == Cannot { return data, true; }
      if result == NeedToConvert {
        ReleaseLock(t, m, false);
        ok := RegisterMutex(t, m, Write);
        return;
      }
      AcquireRegistered(t, m, request);
      if request != Write { return null, true; }
      var reset := NeedToReset(t, m);
      if !reset { return null, true; }
      ReorderAll(t);
      return null, true;
    }

    lemma RecordIs(m: MutexId)
      requires Valid() && m in mutexes
      ensures m in table && mutexes[m].Value() == table[m]
    {
    }

    /** Take one hold of `t` back. */
    method DiscountHold(t: ThreadId, m: MutexId)
      requires Valid() && m in table
      modifies this`table, Repr
      ensures Valid()
      ensures var e := old(table)[m]; table == old(table)[m := e.(lock := e.lock.RemoveOwnership(t))]
    {
      hide LockState.RemoveOwnership;
      var record := mutexes[m];
      ghost var lock := table[m].lock.RemoveOwnership(t);
      record.lock.RemoveOwnership(t);
      table := table[m := table[m].(lock := lock)];
    }

    /** Whether a registered entry should now go, and how many operations wait on it. */
    method IsFinished(m: MutexId) returns (remove: bool, operations: nat)
      requires Valid() && m in table
      ensures remove <==> table[m].lock.ShouldRemove()
      ensures operations == |table[m].pending|
    {
      remove := mutexes[m].lock.ShouldRemove();
      operations := |mutexes[m].operations|;
    }

    /** Own the lock again on behalf of the queued operations, and schedule them. */
    method KeepForOperations(t: ThreadId, m: MutexId)
      requires Valid() && m in table
      modifies this`scheduled, this`table, Repr
      ensures Valid() && scheduled == old(scheduled) + [m]
      ensures var e := old(table)[m]; table == old(table)[m := e.(lock := e.lock.AddOwnership(t))]
    {
      mutexes[m].lock.AddOwnership(t);
      table, scheduled := table[m := mutexes[m].Value()], scheduled + [m];
    }

    /** Take the entry out of the table and out of the thread's vector. */
    method RemoveEntry(t: ThreadId, m: MutexId)
      requires Valid()
      modifies this`mutexes, this`heldLocks, this`table, this`Repr
      ensures Valid() && State() == Spec.Erase(old(State()), t, m) && Repr <= old(Repr)
      ensures m in old(mutexes) ==> old(mutexes)[m].lock !in Repr
    {
      hide Valid, Spec.Unlisted;
      RemoveFromMutexes(m);
      RemoveFromHeldLocks(t, m);
    }

    /** Give up one hold of a registered lock. */
    method ReleaseHold(t: ThreadId, m: MutexId)
      requires Valid() && m != 0 && m in mutexes
      modifies this`mutexes, this`heldLocks, this`scheduled, this`table, this`Repr, Repr
      ensures Valid() && Repr <= old(Repr)
      ensures State() == Spec.Release(old(State()), t, m)
      ensures m !in mutexes ==>
        && old(mutexes)[m].lock !in Repr
        && old(mutexes)[m].lock.Value() == Spec.LastValue(old(State()), Spec.Releasing(t, m))
    {
      hide Valid, LockState.RemoveOwnership, LockState.AddOwnership, LockState.ShouldRemove, Spec.Release, Spec.Erase;
      ReleaseIs(State(), t, m);
      DiscountHold(t, m);
      RecordIs(m);
      var remove, operations := IsFinished(m);
      if remove {
        if operations > 0 {
          KeepForOperations(t, m);
          return;
        }
        RemoveEntry(t, m);
      }
    }

    /** Give up one hold; the last one removes the entry, unless operations are queued on it. The
        lock object of a removed entry may still be waited for: how it is left. */
    method ReleaseLock(t: ThreadId, m: MutexId, operationCall: bool)
      requires Valid()
      modifies this`mutexes, this`heldLocks, this`scheduled, this`table, this`Repr, Repr
      ensures Valid() && Repr <= old(Repr)
      ensures State() == if operationCall then Spec.ForcedRelease(old(State()), t, m)
                         else Spec.Release(old(State()), t, m)
      ensures m in old(mutexes) && m !in mutexes ==>
        && old(mutexes)[m].lock !in Repr
        && old(mutexes)[m].lock.Value()
           == Spec.LastValue(old(State()), if operationCall then Spec.ForcedReleasing(t, m) else Spec.Releasing(t, m))
    {
      hide Valid, Spec.Erase, LockState.RemoveOwnership, LockState.AddOwnership, LockState.ShouldRemove;
      if m == 0 { return; }
      if operationCall {
        if m in mutexes { RecordIs(m); }
        RemoveEntry(t, m);
        return;
      }
      if m !in mutexes { return; }
      ReleaseHold(t, m);
    }

    /** Run the operations queued on a registered lock. */
    method RunQueue(m: MutexId, force: Force) returns (executed: seq<Operation>)
      requires Valid() && m in table
      modifies this`table, Repr
      ensures Valid() && |executed| == Runs(|old(table)[m].pending|, force)
      ensures m in table && table == old(table)[m := old(table)[m].(pending := table[m].pending)]
      ensures executed + table[m].pending == old(table)[m].pending
    {
      var record := mutexes[m];
      executed := record.RunOperations(force);
      table := table[m := table[m].(pending := record.operations)];
    }

    /** Run the queued operations of a registered lock, under a write lock of its mutex: its own, or,
        for a read lock, one taken in place of its guard. */
    method RunOperationsOf(m: MutexId, force: Force) returns (executed: seq<Operation>)
      requires Valid() && m in table
      modifies this`table, Repr
      ensures Valid() && table - {m} == old(table) - {m}
      ensures var lock := old(table)[m].lock;
        m in table && table[m].lock == if lock.kind == Write then lock else lock.(guard := NoGuard)
      ensures var pending := old(table)[m].pending; executed == pending[..Runs(|pending|, force)]
    {
      hide Valid;
      var kind := GetType(m);
      if kind != Write {
        DropGuard(m);
      }
      executed := RunQueue(m, force);
      assert executed == old(table)[m].pending[..|executed|];
    }

    method Unschedule(i: nat) returns (m: MutexId)
      requires Valid() && i < |scheduled|
      modifies this`scheduled
      ensures Valid() && m == old(scheduled)[i] && scheduled == old(scheduled)[..i] + old(scheduled)[i + 1..]
    {
      m := scheduled[i];
      scheduled := scheduled[..i] + scheduled[i + 1..];
    }

    /** The body of scheduled background task number `i`, run by thread `u`. */
    method RunScheduledTask(u: ThreadId, i: nat, force: Force) returns (executed: seq<Operation>)
      requires Valid() && i < |scheduled|
      modifies this`mutexes, this`heldLocks, this`scheduled, this`table, this`Repr, Repr
      ensures Valid() && Repr <= old(Repr)
      ensures (State(), executed) == Spec.RunTask(old(State()), u, i, force)
      ensures var m := old(scheduled)[i];
        m in old(mutexes) && m !in mutexes ==>
          && old(mutexes)[m].lock !in Repr
          && old(mutexes)[m].lock.Value() == Spec.LastValue(old(State()), Spec.RunningTask(u, i, force))
    {
      hide Valid, Runs, Spec.Unlisted;
      var m := Unschedule(i);
      if m == 0 || m !in mutexes { return []; }
      executed := RunOperationsOf(m, force);
      ReleaseLock(u, m, true);
    }

    method AddOperationWithData(m: MutexId, op: Operation) returns (r: Spec.AddResult)
      requires Valid()
      modifies this`table, Repr
      ensures Valid() && (State(), r) == Spec.AddOperation(old(State()), m, op)
    {
      if m !in mutexes { return Spec.LockAvail; }
      mutexes[m].AddOperation(op);
      table := table[m := mutexes[m].Value()];
      return Spec.Added;
    }
  }

  /** A release, told from the state with the hold already taken back. */
  lemma ReleaseIs(s: Spec.TrackerState, t: ThreadId, m: MutexId)
    requires m != 0 && m in s.table
    ensures var e := s.table[m];
      var lock := e.lock.RemoveOwnership(t);
      var s1 := s.(table := s.table[m := e.(lock := lock)]);
      Spec.Release(s, t, m) ==
        if !lock.ShouldRemove() then s1
        else if e.pending == [] then Spec.Erase(s1, t, m)
        else s1.(table := s1.table[m := e.(lock := lock.AddOwnership(t))], scheduled := s.scheduled + [m])
  {
    hide LockState.RemoveOwnership, LockState.AddOwnership, LockState.ShouldRemove, Spec.Unlisted;
    var e := s.table[m];
    assert s.table[m := e.(lock := e.lock.RemoveOwnership(t))] - {m} == s.table - {m};
  }

  /** Sorting what the purge leaves enumerates the registered mutexes of the vector. */
  lemma SortedRest(rest: seq<MutexId>, s: Spec.TrackerState, ids: seq<MutexId>, garbage: seq<MutexId>)
    requires NoDup(rest) && Elems(rest) == Elems(ids) - Elems(garbage)
    requires Elems(garbage) == Elems(ids) - s.table.Keys
    ensures Sort(rest) == Spec.Kept(s, ids) && NoDup(Sort(rest))
  {
    assert Elems(rest) == Elems(ids) * s.table.Keys;
    AscendingUnique(Sort(rest), Spec.Kept(s, ids));
  }

  /** The mutexes kept are registered, also once guards are dropped; and dropping a thread's guards
      first makes no difference to the guards it ends up with. */
  lemma KeptIsRegistered(s: Spec.TrackerState, ids: seq<MutexId>, now: nat)
    ensures var kept, dropped := Spec.Kept(s, ids), Spec.DropGuards(s.table, ids);
      && Ascending(kept)
      && (forall m :: m in kept ==> m in dropped)
      && dropped.Keys == s.table.Keys
      && Spec.CreateGuards(dropped, kept, now) == Spec.CreateGuards(s.table, kept, now)
  {
    var table, kept := s.table, Spec.Kept(s, ids);
    assert forall m :: m in kept <==> m in Elems(kept);
    forall m | m in table ensures m in kept <==> m in ids {
      assert m in Elems(kept) <==> m in Elems(ids);
    }
  }

  /** Creating guards along a prefix, one mutex further. */
  lemma CreateOneMore(table: map<MutexId, Entry>, ids: seq<MutexId>, i: nat, now: nat)
    requires Ascending(ids) && i < |ids| && ids[i] in table
    ensures var m, done := ids[i], Spec.CreateGuards(table, ids[..i], now);
      Spec.CreateGuards(table, ids[..i + 1], now)
      == done[m := table[m].(lock := table[m].lock.(guard := Guarded(now + i)))]
  {
    assert ids[..i + 1] == ids[..i] + [ids[i]];
    forall m | m in ids[..i + 1] ensures IndexOf(ids[..i + 1], m) == if m == ids[i] then i else IndexOf(ids[..i], m) {
      var k := IndexOf(ids[..i + 1], m);
      assert ids[..i + 1][k] == m;
      if m != ids[i] {
        var j := IndexOf(ids[..i], m);
        assert ids[..i][j] == m;
      }
    }
  }
}
