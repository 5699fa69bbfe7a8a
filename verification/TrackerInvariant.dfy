/** What every call keeps, in every run: the shape of the table and of the vectors, and what an
    answer of `TryAcquireLock` means. */
module TrackerInvariant {
  import opened Sequences
  import opened LockTypes
  import opened LockData
  import opened TrackerSpec

  /** A registered lock has a guard and at least one owner, counts start at 1, and a write lock
      has a single owner. */
  ghost predicate LockOk(l: LockState) {
    && l.kind != NoLock
    && l.guard.Guarded?
    && l.owners != map[]
    && (forall t :: t in l.owners ==> l.owners[t] >= 1)
    && (l.kind == Write ==> forall t, u :: t in l.owners && u in l.owners ==> t == u)
  }

  ghost predicate TableOk(table: map<MutexId, Entry>) {
    forall m :: m in table ==> m != 0 && LockOk(table[m].lock)
  }

  /** A vector lists no mutex twice, and never the null mutex. */
  ghost predicate VectorOk(ids: seq<MutexId>) {
    NoDup(ids) && 0 !in ids
  }

  /** Whoever owns a mutex has it in its vector. The converse fails: a shared release leaves the
      mutex listed. */
  ghost predicate OwnedAreListed(table: map<MutexId, Entry>, held: map<ThreadId, seq<MutexId>>) {
    forall m, t :: m in table && t in table[m].lock.owners ==> t in held && m in held[t]
  }

  ghost predicate Inv(s: TrackerState) {
    && TableOk(s.table)
    && (forall t :: t in s.held ==> VectorOk(s.held[t]))
    && OwnedAreListed(s.table, s.held)
  }

  /** The same locks with the same counters and operations; guards may differ in their age. */
  ghost predicate SameButGuards(a: map<MutexId, Entry>, b: map<MutexId, Entry>) {
    && a.Keys == b.Keys
    && forall m :: m in a ==>
         && b[m].lock.kind == a[m].lock.kind
         && b[m].lock.owners == a[m].lock.owners
         && b[m].pending == a[m].pending
         && (a[m].lock.guard.Guarded? ==> b[m].lock.guard.Guarded?)
  }

  /** A lock is to be removed after a release exactly when it was the last hold of the last owner. */
  lemma LastHold(l: LockState, t: ThreadId)
    requires LockOk(l)
    ensures l.RemoveOwnership(t).ShouldRemove() <==> l.owners.Keys == {t} && l.Count(t) == 1
  {
    var rest := l.RemoveOwnership(t).owners;
    assert rest == map[] <==> rest.Keys == {};
    assert l.owners.Keys != {};
  }

  lemma RegisteredIsOk(s: TrackerState, m: MutexId)
    requires Inv(s) && m in s.table
    ensures m != 0 && LockOk(s.table[m].lock)
  {
  }

  lemma OwnersCount(s: TrackerState, t: ThreadId, m: MutexId)
    requires Inv(s)
    ensures Count(s, m, t) > 0 <==> m in s.table && t in s.table[m].lock.owners
  {
  }

  /** The three outcomes of a release, told from the state before it. Deferred to the queued
      operations, it leaves the table as it was. */
  lemma ReleaseCases(s: TrackerState, t: ThreadId, m: MutexId)
    requires Inv(s) && m in s.table
    ensures var e := s.table[m];
      Release(s, t, m) ==
        if e.lock.owners.Keys != {t} || e.lock.Count(t) > 1 then
          s.(table := s.table[m := e.(lock := e.lock.RemoveOwnership(t))])
        else if e.pending != [] then s.(scheduled := s.scheduled + [m])
        else Erase(s, t, m)
  {
    var e := s.table[m];
    LastHold(e.lock, t);
    if e.lock.owners.Keys == {t} && e.lock.Count(t) == 1 {
      assert e.lock.owners == map[t := 1];
      assert e.lock.RemoveOwnership(t).AddOwnership(t) == e.lock;
      assert s.table[m := e] == s.table;
    }
  }

  // ----- The vectors

  lemma ListedVector(held: map<ThreadId, seq<MutexId>>, t: ThreadId, m: MutexId)
    requires forall u :: u in held ==> VectorOk(held[u])
    ensures var after := Listed(held, t, m);
      && (forall u :: u in after ==> VectorOk(after[u]))
      && (forall u :: u in held ==> u in after && Elems(held[u]) <= Elems(after[u]))
      && (m != 0 ==> t in after && m in after[t])
  {
  }

  lemma UnlistedVector(held: map<ThreadId, seq<MutexId>>, t: ThreadId, m: MutexId)
    requires forall u :: u in held ==> VectorOk(held[u])
    ensures var after := Unlisted(held, t, m);
      && after.Keys == held.Keys
      && (forall u :: u in after ==> VectorOk(after[u]) && Elems(held[u]) - {m} <= Elems(after[u]))
  {
    if t in held && m != 0 {
      SwapPopRemoves(held[t], m);
      assert 0 !in Elems(held[t]);
      assert 0 !in Elems(SwapPop(held[t], m));
    }
  }

  // ----- Reordering

  /** The mutexes kept are the registered ones of the vector, and stand in order. */
  lemma KeptFacts(s: TrackerState, ids: seq<MutexId>)
    ensures var kept := Kept(s, ids);
      && (forall m :: m in kept <==> m in ids && m in s.table)
      && (forall m :: m in kept ==> IndexOf(kept, m) < |kept|)
      && (forall m, n :: m in kept && n in kept && m < n ==> IndexOf(kept, m) < IndexOf(kept, n))
  {
    hide Enumerate, IndexOf;
    var kept := Kept(s, ids);
    assert Elems(kept) == Elems(ids) * s.table.Keys;
    assert forall m :: m in kept <==> m in Elems(kept);
    forall m, n | m in kept && n in kept && m < n ensures IndexOf(kept, m) < IndexOf(kept, n) {
      assert kept[IndexOf(kept, m)] == m && kept[IndexOf(kept, n)] == n;
    }
  }

  /** `ReorderAll` of a thread: its vector becomes the strictly ascending enumeration of its
      registered mutexes, no counter and no other vector changes, the guards of the thread are
      created anew in that order, after everything that happened before, and all other guards
      are left as they are. */
  lemma ReorderEffect(s: TrackerState, t: ThreadId)
    requires t in s.held
    ensures var s' := Reorder(s, t);
      && t in s'.held && Ascending(s'.held[t]) && Elems(s'.held[t]) == Elems(s.held[t]) * s.table.Keys
      && (forall u :: u != t ==> HeldBy(s', u) == HeldBy(s, u))
      && SameButGuards(s.table, s'.table)
      && (forall m :: m in s.held[t] && m in s.table ==>
            s'.table[m].lock.guard.Guarded? && s.clock <= s'.table[m].lock.guard.stamp < s'.clock)
      && (forall m, n :: m in s.held[t] && m in s.table && n in s.held[t] && n in s.table && m < n ==>
            s'.table[m].lock.guard.stamp < s'.table[n].lock.guard.stamp)
      && (forall m :: m in s.table && m !in s.held[t] ==> s'.table[m] == s.table[m])
  {
    KeptFacts(s, s.held[t]);
    assert Ascending(Kept(s, s.held[t])) && Elems(Kept(s, s.held[t])) == Elems(s.held[t]) * s.table.Keys;
    hide Ascending, Elems, Kept, IndexOf;
  }

  /** While the guards are being re-created, the thread's guards that exist are exactly those of
      the smaller IDs, which are the ones re-created so far. */
  lemma ReorderLadder(s: TrackerState, t: ThreadId, i: nat)
    requires t in s.held && i < |Kept(s, s.held[t])|
    ensures var kept := Kept(s, s.held[t]);
      var half := CreateGuards(DropGuards(s.table, s.held[t]), kept[..i], s.clock);
      forall m :: m in s.held[t] && m in s.table ==>
        m in half && (half[m].lock.guard.Guarded? <==> m < kept[i])
  {
    var kept := Kept(s, s.held[t]);
    forall m | m in s.held[t] && m in s.table ensures m in kept[..i] <==> m < kept[i] {
      assert m in Elems(kept);
      var k := IndexOf(kept, m);
      assert kept[k] == m;
    }
  }

  lemma ReorderKeepsInv(s: TrackerState, t: ThreadId)
    requires Inv(s) && t in s.held
    ensures Inv(Reorder(s, t))
  {
    ReorderEffect(s, t);
    var s' := Reorder(s, t);
    assert 0 !in Elems(s'.held[t]) by { assert 0 !in Elems(s.held[t]); }
    forall m, u | m in s'.table && u in s'.table[m].lock.owners ensures u in s'.held && m in s'.held[u] {
      assert m in s.table && u in s.table[m].lock.owners;
      assert u == t ==> m in Elems(s'.held[t]);
    }
  }

  // ----- Calls

  lemma InstallKeepsInv(s: TrackerState, t: ThreadId, m: MutexId, e: Entry)
    requires Inv(s) && m != 0 && LockOk(e.lock)
    requires forall u :: u in e.lock.owners ==> u == t || (m in s.table && u in s.table[m].lock.owners)
    ensures Inv(Install(s, t, m, e)) && m in HeldBy(Install(s, t, m, e), t)
  {
    ListedVector(s.held, t, m);
    var s' := Install(s, t, m, e);
    forall n, u | n in s'.table && u in s'.table[n].lock.owners ensures u in s'.held && n in s'.held[u] {
      assert n in s.table && u in s.table[n].lock.owners ==> n in Elems(s.held[u]);
    }
  }

  lemma SettleKeepsInv(s: TrackerState, t: ThreadId, m: MutexId, request: LockType)
    requires Inv(s) && m in HeldBy(s, t)
    ensures Inv(Settle(s, t, m, request)) && SameButGuards(s.table, Settle(s, t, m, request).table)
  {
    if request == Write && NeedToReset(s, t, m) {
      ReorderKeepsInv(s, t);
      ReorderEffect(s, t);
    }
  }

  lemma RegisterKeepsInv(s: TrackerState, t: ThreadId, m: MutexId, request: LockType)
    requires Inv(s)
    ensures Inv(Register(s, t, m, request).0)
  {
    if m != 0 && request != NoLock && m !in s.table {
      var e := FirstHold(t, request, s.clock);
      assert t in e.lock.owners;
      InstallKeepsInv(s, t, m, e);
      SettleKeepsInv(Install(s, t, m, e), t, m, request);
    }
  }

  lemma EraseKeepsInv(s: TrackerState, t: ThreadId, m: MutexId)
    requires Inv(s)
    ensures Inv(Erase(s, t, m))
  {
    UnlistedVector(s.held, t, m);
    var s' := Erase(s, t, m);
    forall n, u | n in s'.table && u in s'.table[n].lock.owners ensures u in s'.held && n in s'.held[u] {
      assert n in s.table && u in s.table[n].lock.owners;
      assert n in Elems(s.held[u]) - {m};
      assert n in Elems(s'.held[u]);
    }
  }

  lemma EntryKeepsInv(s: TrackerState, m: MutexId, e: Entry)
    requires Inv(s) && m in s.table && LockOk(e.lock) && e.lock.owners.Keys <= s.table[m].lock.owners.Keys
    ensures Inv(s.(table := s.table[m := e]))
  {
    hide LockOk, VectorOk;
    assert forall u :: u in e.lock.owners ==> u in s.table[m].lock.owners;
  }

  lemma ReleaseKeepsInv(s: TrackerState, t: ThreadId, m: MutexId)
    requires Inv(s)
    ensures Inv(Release(s, t, m))
  {
    if m in s.table {
      ReleaseCases(s, t, m);
      EraseKeepsInv(s, t, m);
      var e := s.table[m];
      assert LockOk(e.lock);
      if e.lock.owners.Keys != {t} || e.lock.Count(t) > 1 {
        RemovalIsOk(e.lock, t);
        EntryKeepsInv(s, m, e.(lock := e.lock.RemoveOwnership(t)));
      }
      assert Inv(s.(scheduled := s.scheduled + [m]));
      hide Inv, LockOk, Release, Erase, LockState.RemoveOwnership;
    }
  }

  lemma RemovalIsOk(l: LockState, t: ThreadId)
    requires LockOk(l) && (l.owners.Keys != {t} || l.Count(t) > 1)
    ensures LockOk(l.RemoveOwnership(t)) && l.RemoveOwnership(t).owners.Keys <= l.owners.Keys
  {
    LastHold(l, t);
  }

  lemma TryAcquireKeepsInv(s: TrackerState, t: ThreadId, m: MutexId, request: LockType)
    requires Inv(s)
    ensures Inv(TryAcquire(s, t, m, request).0)
  {
    if m == 0 {
    } else if m !in s.table {
      RegisterKeepsInv(s, t, m, request);
    } else {
      var e := s.table[m];
      match e.lock.CanAcquire(t, request)
      case Cannot =>
      case NeedToConvert =>
        ReleaseKeepsInv(s, t, m);
        RegisterKeepsInv(Release(s, t, m), t, m, Write);
      case Avail =>
        var e' := e.(lock := e.lock.AcquireLock(t, request, s.clock));
        assert t in e'.lock.owners;
        InstallKeepsInv(s, t, m, e');
        SettleKeepsInv(Install(s, t, m, e'), t, m, request);
    }
  }

  lemma ApplyKeepsInv(s: TrackerState, step: Step)
    requires Inv(s)
    ensures Inv(Apply(s, step).0)
  {
    match step
    case Acquiring(t, m, request) => TryAcquireKeepsInv(s, t, m, request);
    case Releasing(t, m) => ReleaseKeepsInv(s, t, m);
    case ForcedReleasing(t, m) => EraseKeepsInv(s, t, m);
    case AddingOperation(m, op) =>
    case RunningTask(u, i, force) =>
      if i < |s.scheduled| {
        var s' := s.(scheduled := s.scheduled[..i] + s.scheduled[i + 1..]);
        assert Inv(s');
        EraseKeepsInv(s', u, s.scheduled[i]);
      }
  }

  /** The table and the vectors are well formed after every run, conversions, operations and
      forced releases included. */
  lemma {:induction false} RunKeepsInv(steps: seq<Step>)
    ensures Inv(Run(EMPTY, steps))
  {
    if steps != [] {
      RunKeepsInv(steps[..|steps| - 1]);
      ApplyKeepsInv(Run(EMPTY, steps[..|steps| - 1]), steps[|steps| - 1]);
    }
  }

  /** A vector changes in calls of its own thread only, and adding an operation changes none. */
  lemma VectorsArePrivate(s: TrackerState, step: Step, u: ThreadId)
    requires u !in Callers(step)
    ensures HeldBy(Apply(s, step).0, u) == HeldBy(s, u)
  {
    match step
    case Acquiring(t, m, request) => AcquiringIsPrivate(s, t, m, request, u);
    case _ =>
  }

  lemma AcquiringIsPrivate(s: TrackerState, t: ThreadId, m: MutexId, request: LockType, u: ThreadId)
    requires u != t
    ensures HeldBy(TryAcquire(s, t, m, request).0, u) == HeldBy(s, u)
  {
    hide Kept, CreateGuards, NeedToReset, SwapPop, LockState.CanAcquire, LockState.AcquireLock, LockState.ShouldRemove,
         LockState.RemoveOwnership, LockState.AddOwnership;
  }

  /** A thread's last hold of a mutex given up: the mutex leaves its vector exactly when nobody else
      holds it and nothing is queued. So after a shared release the ID stays listed, and it is stale
      once the others are gone. */
  lemma ListedAfterLastRelease(s: TrackerState, t: ThreadId, m: MutexId)
    requires Inv(s) && Count(s, m, t) == 1
    ensures m in HeldBy(Release(s, t, m), t) <==> s.table[m].lock.owners.Keys != {t} || s.table[m].pending != []
  {
    ReleaseCases(s, t, m);
    assert t in s.table[m].lock.owners && m in s.held[t];
    SwapPopRemoves(s.held[t], m);
    hide Inv, Release, SwapPop;
    assert m !in Elems(SwapPop(s.held[t], m));
  }

  // ----- What an answer means

  /** The mutex is free and a lock was asked for, its lock can be had, or its only reader, with a
      single hold and nothing queued, asks to write. */
  predicate Grantable(s: TrackerState, t: ThreadId, m: MutexId, request: LockType) {
    m != 0 && if m !in s.table then request != NoLock
    else match s.table[m].lock.CanAcquire(t, request)
      case Avail => true
      case Cannot => false
      case NeedToConvert => Count(s, m, t) == 1 && s.table[m].pending == []
  }

  /** A request is granted exactly if it is grantable, and has to wait exactly if the registered lock
      cannot be had; waiting changes nothing. */
  lemma GrantedWhen(s: TrackerState, t: ThreadId, m: MutexId, request: LockType)
    requires Inv(s)
    ensures TryAcquire(s, t, m, request).1 == Granted <==> Grantable(s, t, m, request)
    ensures TryAcquire(s, t, m, request).1 == MustWait <==>
      m != 0 && m in s.table && s.table[m].lock.CanAcquire(t, request) == Cannot
    ensures TryAcquire(s, t, m, request).1 == MustWait ==> TryAcquire(s, t, m, request).0 == s
  {
    if Converts(s, t, m, request) {
      assert s.table[m].lock.RemoveOwnership(t).owners == map[] <==> Count(s, m, t) == 1;
    }
  }

  /** `t` has `n` holds of `m` in `s'`, and every other count is as in `s`. */
  ghost predicate Gained(s: TrackerState, s': TrackerState, t: ThreadId, m: MutexId, n: nat) {
    && m in s'.table && m in HeldBy(s', t)
    && Count(s', m, t) == n
    && (forall k, u :: k != m || u != t ==> Count(s', k, u) == Count(s, k, u))
  }

  lemma GrantInstalls(s: TrackerState, t: ThreadId, m: MutexId, request: LockType, e: Entry)
    requires Inv(s) && m != 0 && LockOk(e.lock)
    requires forall u :: u != t ==> e.lock.Count(u) == Count(s, m, u)
    ensures var s' := Settle(Install(s, t, m, e), t, m, request);
      && Inv(s') && SameButGuards(s.table[m := e], s'.table)
      && Gained(s, s', t, m, e.lock.Count(t))
  {
    forall u | u in e.lock.owners && u != t ensures m in s.table && u in s.table[m].lock.owners {
      assert e.lock.Count(u) == Count(s, m, u);
    }
    InstallKeepsInv(s, t, m, e);
    var s1 := Install(s, t, m, e);
    SettleKeepsInv(s1, t, m, request);
    SettleKeepsListed(s1, t, m, request);
    CountsAfterwards(s, Settle(s1, t, m, request), t, m, e);
  }

  lemma InstallSchedulesNothing(s: TrackerState, t: ThreadId, m: MutexId, request: LockType, e: Entry)
    ensures Settle(Install(s, t, m, e), t, m, request).scheduled == s.scheduled
  {
  }

  lemma CountsAfterwards(s: TrackerState, s': TrackerState, t: ThreadId, m: MutexId, e: Entry)
    requires SameButGuards(s.table[m := e], s'.table)
    requires forall u :: u != t ==> e.lock.Count(u) == Count(s, m, u)
    ensures m in s'.table && Count(s', m, t) == e.lock.Count(t)
    ensures forall k, u :: k != m || u != t ==> Count(s', k, u) == Count(s, k, u)
  {
  }

  lemma SettleKeepsListed(s: TrackerState, t: ThreadId, m: MutexId, request: LockType)
    requires m in HeldBy(s, t) && m in s.table
    ensures m in HeldBy(Settle(s, t, m, request), t)
  {
    if request == Write && NeedToReset(s, t, m) {
      ReorderEffect(s, t);
      assert m in Elems(Reorder(s, t).held[t]);
    }
  }

  lemma FirstHoldIsOk(t: ThreadId, request: LockType, now: nat)
    requires request != NoLock
    ensures LockOk(FirstHold(t, request, now).lock)
  {
    assert t in FirstHold(t, request, now).lock.owners;
  }

  /** A grant gives the caller one more hold (the first one after a conversion) and touches no
      other count; a granted write leaves a write lock owned by the caller alone. */
  lemma GrantMeansOwnership(s: TrackerState, t: ThreadId, m: MutexId, request: LockType)
    requires Inv(s) && TryAcquire(s, t, m, request).1 == Granted
    ensures var s' := TryAcquire(s, t, m, request).0;
      && Gained(s, s', t, m, if Converts(s, t, m, request) then 1 else Count(s, m, t) + 1)
      && (request == Write ==> s'.table[m].lock.kind == Write && s'.table[m].lock.owners.Keys == {t})
      && (m in s.table && !Converts(s, t, m, request) ==> s'.table[m].lock.kind == s.table[m].lock.kind)
  {
    hide TryAcquire, Inv, LockState.CanAcquire, Converted;
    GrantedWhen(s, t, m, request);
    if m !in s.table {
      FirstGrant(s, t, m, request);
    } else if Converts(s, t, m, request) {
      ConversionGrant(s, t, m);
      ConvertedMeans(s, TryAcquire(s, t, m, Write).0, t, m);
    } else {
      ReacquireGrant(s, t, m, request);
    }
  }

  lemma FirstGrant(s: TrackerState, t: ThreadId, m: MutexId, request: LockType)
    requires Inv(s) && m != 0 && m !in s.table && request != NoLock
    ensures var s' := TryAcquire(s, t, m, request).0;
      Gained(s, s', t, m, 1) && s'.table[m].lock.kind == request && s'.table[m].lock.owners.Keys == {t}
  {
    hide Inv, Settle, Install, Gained;
    FirstHoldIsOk(t, request, s.clock);
    GrantInstalls(s, t, m, request, FirstHold(t, request, s.clock));
  }

  lemma ConvertedMeans(s: TrackerState, s': TrackerState, t: ThreadId, m: MutexId)
    requires Converted(s, s', t, m)
    ensures Gained(s, s', t, m, 1) && s'.table[m].lock.kind == Write && s'.table[m].lock.owners.Keys == {t}
  {
  }

  /** Acquiring a lock that can be had leaves it well formed, with one hold more. */
  lemma AcquiredIsOk(l: LockState, t: ThreadId, request: LockType, now: nat)
    requires LockOk(l) && l.CanAcquire(t, request) == Avail
    ensures var after := l.AcquireLock(t, request, now);
      && LockOk(after) && after.kind == l.kind && after.Count(t) == l.Count(t) + 1
      && (request == Write ==> after.kind == Write && after.owners.Keys == {t})
  {
    assert t in l.AcquireLock(t, request, now).owners;
  }

  lemma ReacquireGrant(s: TrackerState, t: ThreadId, m: MutexId, request: LockType)
    requires Inv(s) && m != 0 && m in s.table && s.table[m].lock.CanAcquire(t, request) == Avail
    ensures var s' := TryAcquire(s, t, m, request).0;
      && Gained(s, s', t, m, Count(s, m, t) + 1)
      && (request == Write ==> s'.table[m].lock.kind == Write && s'.table[m].lock.owners.Keys == {t})
      && s'.table[m].lock.kind == s.table[m].lock.kind
  {
    var e := s.table[m];
    AcquiredIsOk(e.lock, t, request, s.clock);
    GrantInstalls(s, t, m, request, e.(lock := e.lock.AcquireLock(t, request, s.clock)));
    hide Inv, Settle, Install, LockState.AcquireLock, LockState.CanAcquire;
  }

  lemma ConversionGrant(s: TrackerState, t: ThreadId, m: MutexId)
    requires Inv(s) && m != 0 && Converts(s, t, m, Write) && TryAcquire(s, t, m, Write).1 == Granted
    ensures Converted(s, TryAcquire(s, t, m, Write).0, t, m)
  {
    hide TryAcquire, Inv, Settle, Install, Erase, Converted;
    GrantedWhen(s, t, m, Write);
    ConversionInstalls(s, t, m);
    ConversionGains(s, t, m);
  }

  /** The read lock of `m` has become a write lock held once by `t`; all else is as before. */
  ghost predicate Converted(s: TrackerState, s': TrackerState, t: ThreadId, m: MutexId) {
    && Gained(s, s', t, m, 1)
    && Inv(s') && SameButGuards(s.table[m := FirstHold(t, Write, s.clock)], s'.table)
  }

  /** A conversion that is granted: the read lock erased, a write lock registered in its place. */
  lemma ConversionInstalls(s: TrackerState, t: ThreadId, m: MutexId)
    requires Inv(s) && m in s.table && s.table[m].lock.CanAcquire(t, Write) == NeedToConvert
    requires Count(s, m, t) == 1 && s.table[m].pending == []
    ensures TryAcquire(s, t, m, Write)
            == (Settle(Install(Erase(s, t, m), t, m, FirstHold(t, Write, s.clock)), t, m, Write), Granted)
  {
    hide Settle, Install, Inv, Release, LockState.CanAcquire, Unlisted;
    RegisteredIsOk(s, m);
    ReleaseCases(s, t, m);
  }

  lemma ConversionGains(s: TrackerState, t: ThreadId, m: MutexId)
    requires Inv(s) && m in s.table && m != 0 && s.table[m].lock.owners.Keys == {t}
    ensures Converted(s, Settle(Install(Erase(s, t, m), t, m, FirstHold(t, Write, s.clock)), t, m, Write), t, m)
  {
    hide Inv, LockOk, Settle, SameButGuards, Install, Unlisted;
    var e := FirstHold(t, Write, s.clock);
    EraseKeepsInv(s, t, m);
    FirstHoldIsOk(t, Write, s.clock);
    GrantInstalls(Erase(s, t, m), t, m, Write, e);
    assert (s.table - {m})[m := e] == s.table[m := e];
    assert forall u :: u != t ==> u !in s.table[m].lock.owners.Keys;
  }

  /** A request other than a read never reaches a read lock that could silently ignore it. */
  lemma NothingIsIgnored(s: TrackerState, t: ThreadId, m: MutexId, request: LockType)
    requires Inv(s) && m in s.table && s.table[m].lock.CanAcquire(t, request) == Avail
    ensures s.table[m].lock.AcquireLock(t, request, s.clock) != s.table[m].lock
    ensures s.table[m].lock.AcquireLock(t, request, s.clock).Count(t) == Count(s, m, t) + 1
  {
  }

  /** Of any lock that can be had, an acquisition counts nothing exactly if it is no write lock, has no
      guard, and is not asked for to be read. */
  lemma IgnoredExactly(l: LockState, t: ThreadId, request: LockType, now: nat)
    requires l.CanAcquire(t, request) == Avail
    ensures l.AcquireLock(t, request, now).Count(t) == l.Count(t)
            <==> l.kind != Write && l.guard.NoGuard? && request != Read
  {
  }

  // ----- Conversion

  /** A write request of the only reader, which holds the lock `c` times with `p` operations
      queued, in all three cases: converted when c == 1 and p == 0; one hold lost when c > 1;
      and when c == 1 with operations queued, nothing lost but a background task scheduled. */
  lemma Conversion(s: TrackerState, t: ThreadId, m: MutexId)
    requires Inv(s) && m in s.table && s.table[m].lock.kind == Read && s.table[m].lock.owners.Keys == {t}
    ensures var (s', answer) := TryAcquire(s, t, m, Write);
      var c, pending := Count(s, m, t), s.table[m].pending;
      && m in s'.table
      && (answer == Granted <==> c == 1 && pending == [])
      && (answer == Granted ==>
            s'.table[m].lock.kind == Write && s'.table[m].lock.owners == map[t := 1] && s'.table[m].pending == [])
      && (answer != Granted ==> answer == Refused && s'.held == s.held && s'.table.Keys == s.table.Keys)
      && (c > 1 ==>
            && s'.table[m] == s.table[m].(lock := s.table[m].lock.(owners := map[t := c - 1]))
            && s'.scheduled == s.scheduled)
      && (c == 1 && pending != [] ==>
            && s'.table[m] == s.table[m]
            && s'.scheduled == s.scheduled + [m])
  {
    var e := s.table[m];
    var c := Count(s, m, t);
    assert e.lock.owners == map[t := c];
    if c == 1 && e.pending == [] {
      ConversionInstalls(s, t, m);
      ConversionGains(s, t, m);
      hide TryAcquire, Inv, Settle, Install, Erase;
    } else {
      ConversionRefused(s, t, m);
      hide TryAcquire, Inv;
    }
  }

  lemma ConversionRefused(s: TrackerState, t: ThreadId, m: MutexId)
    requires Inv(s) && m in s.table && s.table[m].lock.CanAcquire(t, Write) == NeedToConvert
    requires Count(s, m, t) != 1 || s.table[m].pending != []
    ensures TryAcquire(s, t, m, Write) == (Release(s, t, m), Refused)
    ensures Release(s, t, m)
      == if Count(s, m, t) > 1
         then s.(table := s.table[m := s.table[m].(lock := s.table[m].lock.(owners := map[t := Count(s, m, t) - 1]))])
         else s.(scheduled := s.scheduled + [m])
  {
    var l := s.table[m].lock;
    assert l.owners == map[t := Count(s, m, t)];
    assert Count(s, m, t) > 1 ==> l.RemoveOwnership(t) == l.(owners := map[t := Count(s, m, t) - 1]);
    ReleaseCases(s, t, m);
    assert m != 0;
    hide Inv, Release, LockState.RemoveOwnership, LockState.CanAcquire;
  }
}
