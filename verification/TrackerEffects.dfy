/** What a call changes and what it leaves alone, told from the state before it: which guards a request
    creates anew, which vector loses an ID, and which operations a background task runs. */
module TrackerEffects {
  import opened Sequences
  import opened LockTypes
  import opened LockData
  import opened TrackerSpec
  import opened TrackerInvariant
  import opened LockOrder

  // ----- Requests

  /** `t` lists no mutex greater than `m`. */
  predicate NothingAbove(s: TrackerState, t: ThreadId, m: MutexId) {
    forall x :: x in HeldBy(s, t) ==> x <= m
  }

  /** The entry put in, without reordering. */
  lemma InstallLeaves(s: TrackerState, t: ThreadId, m: MutexId, request: LockType, e: Entry)
    requires m != 0 && (request == Write ==> NothingAbove(s, t, m))
    ensures var s' := Settle(Install(s, t, m, e), t, m, request);
      && s'.table == s.table[m := e] && s'.scheduled == s.scheduled
      && HeldBy(s', t) == if m in HeldBy(s, t) then HeldBy(s, t) else HeldBy(s, t) + [m]
  {
    assert t in Install(s, t, m, e).held;
    assert forall x :: x in HeldBy(Install(s, t, m, e), t) ==> x in HeldBy(s, t) || x == m;
  }

  /** A request that converts nothing, and is no write below a listed mutex, leaves every other lock as
      it is, its guard included, and lists the mutex at the end if it was not listed. */
  lemma RequestLeavesOthers(s: TrackerState, t: ThreadId, m: MutexId, request: LockType)
    requires Inv(s) && Grantable(s, t, m, request) && !Converts(s, t, m, request)
    requires request == Write ==> NothingAbove(s, t, m)
    ensures var s' := TryAcquire(s, t, m, request).0;
      && (forall n :: n in s.table && n != m ==> n in s'.table && s'.table[n] == s.table[n])
      && (forall n :: n in s'.table ==> n in s.table || n == m)
      && s'.scheduled == s.scheduled
      && HeldBy(s', t) == (if m in HeldBy(s, t) then HeldBy(s, t) else HeldBy(s, t) + [m])
  {
    hide Inv, Settle, Install, NothingAbove;
    var e := if m in s.table
             then s.table[m].(lock := s.table[m].lock.AcquireLock(t, request, s.clock))
             else FirstHold(t, request, s.clock);
    InstallLeaves(s, t, m, request, e);
  }

  /** So does a conversion of the greatest listed mutex, which ends up last in the vector. */
  lemma ConversionLeavesOthers(s: TrackerState, t: ThreadId, m: MutexId)
    requires Inv(s) && Grantable(s, t, m, Write) && Converts(s, t, m, Write) && NothingAbove(s, t, m)
    ensures var s' := TryAcquire(s, t, m, Write).0;
      && (forall n :: n in s.table && n != m ==> n in s'.table && s'.table[n] == s.table[n])
      && (forall n :: n in s'.table ==> n in s.table)
      && s'.scheduled == s.scheduled
      && Elems(HeldBy(s', t)) == Elems(HeldBy(s, t))
      && HeldBy(s', t) != [] && HeldBy(s', t)[|HeldBy(s', t)| - 1] == m
  {
    hide Inv, TryAcquire, Settle, Install;
    ConversionInstalls(s, t, m);
    var s0 := Erase(s, t, m);
    VectorWithout(s, t, m);
    assert forall x :: x in HeldBy(s0, t) ==> x in Elems(HeldBy(s0, t));
    InstallLeaves(s0, t, m, Write, FirstHold(t, Write, s.clock));
    assert m !in HeldBy(s0, t) by { assert m !in Elems(HeldBy(s0, t)); }
    OwnerLists(s, t, m);
    assert m in Elems(HeldBy(s, t));
    ElemsAppend(HeldBy(s0, t), m);
  }

  lemma ElemsAppend(ids: seq<MutexId>, m: MutexId)
    ensures Elems(ids + [m]) == Elems(ids) + {m}
  {
    assert forall x :: x in Elems(ids + [m]) <==> x in Elems(ids) || x == m;
  }

  lemma OwnerLists(s: TrackerState, t: ThreadId, m: MutexId)
    requires Inv(s) && Converts(s, t, m, Write)
    ensures m in HeldBy(s, t) && t in s.held
  {
    assert t in s.table[m].lock.owners.Keys;
  }

  /** An entry taken out and unlisted: the thread's vector loses exactly that ID. */
  lemma VectorWithout(s: TrackerState, t: ThreadId, m: MutexId)
    requires Inv(s) && m != 0
    ensures Elems(HeldBy(Erase(s, t, m), t)) == Elems(HeldBy(s, t)) - {m}
    ensures forall u :: u != t ==> HeldBy(Erase(s, t, m), u) == HeldBy(s, u)
  {
    if t in s.held { SwapPopRemoves(s.held[t], m); }
  }

  /** From `s` to `s'`, the guards of `mine` were created anew, in ascending order, the vector of `t` lists
      just these mutexes, in ascending order, and no other lock was touched. */
  ghost predicate PutInOrder(s: TrackerState, s': TrackerState, t: ThreadId, mine: set<MutexId>) {
    && (forall n :: n in mine ==>
          n in s'.table && s'.table[n].lock.guard.Guarded? && s'.table[n].lock.guard.stamp >= s.clock)
    && (forall a, b :: a in mine && b in mine && a < b ==>
          s'.table[a].lock.guard.stamp < s'.table[b].lock.guard.stamp)
    && (forall n :: n in s.table && n !in mine ==> n in s'.table && s'.table[n] == s.table[n])
    && Ascending(HeldBy(s', t)) && Elems(HeldBy(s', t)) == mine
  }

  /** A granted write below a listed mutex, conversions included, creates the guards of all listed and
      registered mutexes and of its own anew, in ascending order, leaves every other lock as it is, and
      leaves in the vector just those mutexes, in ascending order. */
  lemma WriteBelowRenews(s: TrackerState, t: ThreadId, m: MutexId)
    requires Inv(s) && Grantable(s, t, m, Write) && !NothingAbove(s, t, m)
    ensures var s' := TryAcquire(s, t, m, Write).0;
      PutInOrder(s, s', t, Elems(HeldBy(s, t)) * s.table.Keys + {m})
  {
    hide Inv, TryAcquire, Settle, Install, Erase;
    GrantedWhen(s, t, m, Write);
    if Converts(s, t, m, Write) {
      ConversionInstalls(s, t, m);
      ConversionBelow(s, t, m);
    } else {
      var e := if m in s.table
               then s.table[m].(lock := s.table[m].lock.AcquireLock(t, Write, s.clock))
               else FirstHold(t, Write, s.clock);
      PlainWrite(s, t, m, e);
      ReorderedBelow(s, t, m, e);
    }
  }

  lemma PlainWrite(s: TrackerState, t: ThreadId, m: MutexId, e: Entry)
    requires Inv(s) && Grantable(s, t, m, Write) && !Converts(s, t, m, Write)
    requires m in s.table ==> e == s.table[m].(lock := s.table[m].lock.AcquireLock(t, Write, s.clock))
    requires m !in s.table ==> e == FirstHold(t, Write, s.clock)
    ensures TryAcquire(s, t, m, Write).0 == Settle(Install(s, t, m, e), t, m, Write)
  {
    hide Settle, Install, Inv;
  }

  lemma InstalledVector(s: TrackerState, t: ThreadId, m: MutexId, e: Entry)
    requires m != 0 && !NothingAbove(s, t, m)
    ensures var s1 := Install(s, t, m, e);
      && t in s1.held && Elems(s1.held[t]) == Elems(HeldBy(s, t)) + {m} && NeedToReset(s1, t, m)
      && s1.table == s.table[m := e] && s1.clock > s.clock
  {
    var s1 := Install(s, t, m, e);
    ElemsAppend(HeldBy(s, t), m);
    var x :| x in HeldBy(s, t) && x > m;
    assert x in HeldBy(s1, t);
  }

  lemma ReorderedBelow(s: TrackerState, t: ThreadId, m: MutexId, e: Entry)
    requires m != 0 && !NothingAbove(s, t, m)
    ensures var s' := Settle(Install(s, t, m, e), t, m, Write);
      PutInOrder(s, s', t, Elems(HeldBy(s, t)) * s.table.Keys + {m})
  {
    hide Reorder, Ascending, Install, NeedToReset;
    var s1 := Install(s, t, m, e);
    InstalledVector(s, t, m, e);
    ReorderEffect(s1, t);
    assert Elems(s1.held[t]) * s1.table.Keys == Elems(HeldBy(s, t)) * s.table.Keys + {m};
    assert forall n :: n in Elems(s1.held[t]) <==> n in s1.held[t];
  }

  lemma ConversionBelow(s: TrackerState, t: ThreadId, m: MutexId)
    requires Inv(s) && Converts(s, t, m, Write) && m != 0 && !NothingAbove(s, t, m)
    ensures var s' := Settle(Install(Erase(s, t, m), t, m, FirstHold(t, Write, s.clock)), t, m, Write);
      PutInOrder(s, s', t, Elems(HeldBy(s, t)) * s.table.Keys + {m})
  {
    hide Inv, Settle, Install, Ascending;
    var s0 := Erase(s, t, m);
    VectorWithout(s, t, m);
    var x :| x in HeldBy(s, t) && x > m;
    assert x in HeldBy(s0, t) by { assert x in Elems(HeldBy(s0, t)); }
    assert Elems(HeldBy(s0, t)) * s0.table.Keys + {m} == Elems(HeldBy(s, t)) * s.table.Keys + {m};
    ReorderedBelow(s0, t, m, FirstHold(t, Write, s.clock));
  }

  // ----- Releases

  /** A forced release takes the lock out of the table whoever owns it, and the ID out of the calling
      thread's vector, and touches no other lock or vector. */
  lemma ForcedReleaseEffect(s: TrackerState, t: ThreadId, m: MutexId)
    requires Inv(s) && m != 0
    ensures var s' := ForcedRelease(s, t, m);
      && s'.table == s.table - {m} && s'.scheduled == s.scheduled
      && Elems(HeldBy(s', t)) == Elems(HeldBy(s, t)) - {m}
      && (forall u :: u != t ==> HeldBy(s', u) == HeldBy(s, u))
  {
    VectorWithout(s, t, m);
  }

  /** A release that ends the lock unlists it for the releasing thread; any other changes no vector. */
  lemma ReleaseUnlists(s: TrackerState, t: ThreadId, m: MutexId)
    requires Inv(s)
    ensures var s' := Release(s, t, m);
      && Elems(HeldBy(s', t)) == Elems(HeldBy(s, t)) - (if m in s.table && m !in s'.table then {m} else {})
      && (forall u :: u != t ==> HeldBy(s', u) == HeldBy(s, u))
      && (forall n :: n != m ==> (n in s'.table <==> n in s.table) && (n in s.table ==> s'.table[n] == s.table[n]))
  {
    hide Inv, LockState.RemoveOwnership, Unlisted, Elems;
    if m in s.table {
      ReleaseCases(s, t, m);
      RegisteredIsOk(s, m);
      VectorWithout(s, t, m);
      hide Release;
    }
  }

  // ----- Background tasks

  /** A background task on a registered lock: it runs a prefix of the queued operations, no more than its
      flag lets it, and stops early only because of the flag; then the lock is gone, and unlisted for
      the thread that ran it. */
  lemma TaskEffect(s: TrackerState, u: ThreadId, i: nat, force: Force)
    requires Inv(s) && i < |s.scheduled| && s.scheduled[i] in s.table
    ensures var (m, (s', executed)) := (s.scheduled[i], RunTask(s, u, i, force));
      var pending := s.table[m].pending;
      && executed <= pending
      && (force.After? ==> |executed| <= force.count)
      && (executed != pending ==> force.After? && |executed| == force.count)
      && s'.table == s.table - {m}
      && Elems(HeldBy(s', u)) == Elems(HeldBy(s, u)) - {m}
      && (forall v :: v != u ==> HeldBy(s', v) == HeldBy(s, v))
  {
    RegisteredIsOk(s, s.scheduled[i]);
    var s1 := s.(scheduled := s.scheduled[..i] + s.scheduled[i + 1..]);
    assert Inv(s1);
    VectorWithout(s1, u, s.scheduled[i]);
    hide Inv, Unlisted, Runs;
  }

  /** A task that finds nothing registered does nothing. Either way exactly it leaves the schedule. */
  lemma TaskLeavesSchedule(s: TrackerState, u: ThreadId, i: nat, force: Force)
    requires Inv(s) && i < |s.scheduled|
    ensures var (s', executed) := RunTask(s, u, i, force);
      && (forall k :: 0 <= k < i ==> k < |s'.scheduled| && s'.scheduled[k] == s.scheduled[k])
      && |s'.scheduled| == |s.scheduled| - 1
      && (forall k :: i <= k < |s'.scheduled| ==> s'.scheduled[k] == s.scheduled[k + 1])
      && (s.scheduled[i] !in s.table ==> executed == [] && s'.table == s.table && s'.held == s.held)
  {
    hide Unlisted, Runs;
    if s.scheduled[i] in s.table { RegisteredIsOk(s, s.scheduled[i]); }
  }

  // ----- Operations

  /** An operation goes to the end of those queued on a registered lock, and nothing else changes; on an
      unregistered mutex nothing does, and the answer is to try for the lock again. */
  lemma AddingEffect(s: TrackerState, m: MutexId, op: Operation)
    ensures var (s', result) := AddOperation(s, m, op);
      && (result == Added <==> m in s.table) && (result == LockAvail <==> m !in s.table)
      && (m !in s.table ==> s' == s)
      && s'.table.Keys == s.table.Keys && s'.held == s.held && s'.scheduled == s.scheduled
      && (m in s.table ==> s'.table[m].pending == s.table[m].pending + [op] && s'.table[m].lock == s.table[m].lock)
      && (forall n :: n in s.table && n != m ==> s'.table[n] == s.table[n])
  {
  }
}
