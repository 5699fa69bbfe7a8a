/** The simple machine the tracker implements: for each mutex on its own a reentrant
    reader/writer lock, with no guards, no vectors and no ordering. */
module ReentrantLock {
  import opened LockTypes
  import opened LockData
  import opened TrackerSpec

  datatype Simple =
    | Free
    | Shared(readers: multiset<ThreadId>, pending: seq<Operation>)
    | Exclusive(writer: ThreadId, depth: nat, pending: seq<Operation>)
  {
    function Add(op: Operation): Simple {
      match this
      case Free => Free
      case Shared(b, p) => Shared(b, p + [op])
      case Exclusive(w, n, p) => Exclusive(w, n, p + [op])
    }

    function Pending(): seq<Operation> {
      if Free? then [] else pending
    }
  }

  /** The lock afterwards, the answer, and whether its queued operations get scheduled. */
  datatype Outcome = Outcome(lock: Simple, answer: Answer, schedule: bool)

  ghost predicate OnlyReader(readers: multiset<ThreadId>, t: ThreadId) {
    t in readers && forall u :: u in readers ==> u == t
  }

  ghost function AcquireSimple(a: Simple, t: ThreadId, request: LockType): Outcome {
    match a
    case Free =>
      if request == Read then Outcome(Shared(multiset{t}, []), Granted, false)
      else if request == Write then Outcome(Exclusive(t, 1, []), Granted, false)
      else Outcome(Free, Refused, false)
    case Exclusive(w, n, p) =>
      if w == t then Outcome(Exclusive(t, n + 1, p), Granted, false) else Outcome(a, MustWait, false)
    case Shared(b, p) =>
      if request == Read then Outcome(Shared(b + multiset{t}, p), Granted, false)
      else if request == Write && OnlyReader(b, t) then
        if b[t] > 1 then Outcome(Shared(b - multiset{t}, p), Refused, false)
        else if p == [] then Outcome(Exclusive(t, 1, []), Granted, false)
        else Outcome(a, Refused, true)
      else Outcome(a, MustWait, false)
  }

  /** A release by a thread that does not hold the lock changes nothing. */
  ghost function ReleaseSimple(a: Simple, t: ThreadId): (Simple, bool) {
    match a
    case Free => (Free, false)
    case Exclusive(w, n, p) =>
      if w != t then (a, false)
      else if n > 1 then (Exclusive(w, n - 1, p), false)
      else if p == [] then (Free, false) else (a, true)
    case Shared(b, p) =>
      if t !in b then (a, false)
      else if b[t] > 1 || !OnlyReader(b, t) then (Shared(b - multiset{t}, p), false)
      else if p == [] then (Free, false) else (a, true)
  }

  /** All mutexes together; a mutex without an entry is free. */
  datatype Machine = Machine(locks: map<MutexId, Simple>, scheduled: seq<MutexId>) {

    function At(m: MutexId): Simple {
      if m in locks then locks[m] else Free
    }

    function Put(m: MutexId, a: Simple): Machine {
      this.(locks := if a.Free? then locks - {m} else locks[m := a])
    }

    function Schedule(m: MutexId, schedule: bool): Machine {
      if schedule then this.(scheduled := scheduled + [m]) else this
    }

    ghost function Apply(step: Step): (Machine, Reply) {
      match step
      case Acquiring(t, m, request) =>
        if m == 0 then (this, Answered(Refused)) else
        var out := AcquireSimple(At(m), t, request);
        (Put(m, out.lock).Schedule(m, out.schedule), Answered(out.answer))
      case Releasing(t, m) =>
        var (lock, schedule) := ReleaseSimple(At(m), t);
        (Put(m, lock).Schedule(m, schedule), Done)
      case ForcedReleasing(t, m) => (Put(m, Free), Done)
      case AddingOperation(m, op) =>
        if At(m).Free? then (this, OperationAdded(LockAvail))
        else (Put(m, At(m).Add(op)), OperationAdded(Added))
      case RunningTask(u, i, force) =>
        if i >= |scheduled| then (this, Done) else
        var m, rest := scheduled[i], this.(scheduled := scheduled[..i] + scheduled[i + 1..]);
        var p := At(m).Pending();
        (rest.Put(m, Free), Ran(p[..Runs(|p|, force)]))
    }

    /** The machine after a run, and everything it replied. */
    ghost function Run(steps: seq<Step>): (Machine, seq<Reply>) {
      if steps == [] then (this, [])
      else
        var (before, replies) := Run(steps[..|steps| - 1]);
        var (after, reply) := before.Apply(steps[|steps| - 1]);
        (after, replies + [reply])
    }
  }
}

/** The tracker refines the simple machine: after every run the same locks, and all along the
    same replies. */
module Refinement {
  import opened LockTypes
  import opened LockData
  import opened TrackerSpec
  import opened TrackerInvariant
  import R = ReentrantLock

  /** The owner map as a bag of threads. */
  ghost function Bag(owners: map<ThreadId, nat>): (b: multiset<ThreadId>)
    ensures forall t :: b[t] == if t in owners then owners[t] else 0
    decreases owners.Keys
  {
    if owners == map[] then multiset{}
    else
      var t :| t in owners;
      Bag(owners - {t})[t := owners[t]]
  }

  ghost function TheOwner(owners: map<ThreadId, nat>): (t: ThreadId)
    ensures owners != map[] ==> t in owners
  {
    if owners == map[] then 0 else var t :| t in owners; t
  }

  ghost function ViewEntry(e: Entry): R.Simple {
    if e.lock.kind == Write then
      var t := TheOwner(e.lock.owners);
      R.Exclusive(t, e.lock.Count(t), e.pending)
    else
      R.Shared(Bag(e.lock.owners), e.pending)
  }

  ghost function ViewTable(table: map<MutexId, Entry>): (locks: map<MutexId, R.Simple>)
    ensures locks.Keys == table.Keys
    ensures forall m :: m in table ==> locks[m] == ViewEntry(table[m])
  {
    map m | m in table :: ViewEntry(table[m])
  }

  ghost function View(s: TrackerState): R.Machine {
    R.Machine(ViewTable(s.table), s.scheduled)
  }

  lemma BagIs(owners: map<ThreadId, nat>, b: multiset<ThreadId>)
    requires forall t :: b[t] == if t in owners then owners[t] else 0
    ensures Bag(owners) == b
  {
    hide Bag;
  }

  lemma BagMembers(l: LockState, t: ThreadId)
    requires LockOk(l)
    ensures Bag(l.owners)[t] == l.Count(t)
    ensures t in l.owners <==> t in Bag(l.owners)
    ensures l.owners.Keys == {t} <==> R.OnlyReader(Bag(l.owners), t)
    ensures l.IsOnlyOwner(t) <==> R.OnlyReader(Bag(l.owners), t)
  {
    hide Bag;
    assert forall u :: u in Bag(l.owners) <==> u in l.owners;
  }

  // ----- One entry at a time

  lemma EntryFirst(t: ThreadId, request: LockType, now: nat)
    requires request != NoLock
    ensures ViewEntry(FirstHold(t, request, now)) == R.AcquireSimple(R.Free, t, request).lock
  {
    BagIs(map[t := 1], multiset{t});
  }

  lemma EntryAcquire(e: Entry, t: ThreadId, request: LockType, now: nat)
    requires LockOk(e.lock) && e.lock.CanAcquire(t, request) == Avail
    ensures R.AcquireSimple(ViewEntry(e), t, request)
            == R.Outcome(ViewEntry(e.(lock := e.lock.AcquireLock(t, request, now))), Granted, false)
  {
    hide Bag, TheOwner;
    BagMembers(e.lock, t);
    var after := e.lock.AcquireLock(t, request, now);
    if e.lock.kind == Read {
      BagIs(after.owners, Bag(e.lock.owners) + multiset{t});
    } else {
      assert after.owners.Keys == e.lock.owners.Keys;
    }
  }

  lemma EntryWait(e: Entry, t: ThreadId, request: LockType)
    requires LockOk(e.lock) && e.lock.CanAcquire(t, request) == Cannot
    ensures R.AcquireSimple(ViewEntry(e), t, request) == R.Outcome(ViewEntry(e), MustWait, false)
  {
    hide Bag, TheOwner;
    BagMembers(e.lock, t);
  }

  /** The lock an entry is left with when one hold is given up, operations being waited for. */
  function Remaining(e: Entry, t: ThreadId): Entry {
    var lock := e.lock.RemoveOwnership(t);
    e.(lock := if lock.ShouldRemove() then lock.AddOwnership(t) else lock)
  }

  lemma RemainingIs(e: Entry, t: ThreadId)
    requires LockOk(e.lock)
    ensures var last := e.lock.owners.Keys == {t} && e.lock.Count(t) == 1;
      && (e.lock.RemoveOwnership(t).ShouldRemove() <==> last)
      && Remaining(e, t) == if last then e else e.(lock := e.lock.RemoveOwnership(t))
  {
    LastHold(e.lock, t);
    if e.lock.owners.Keys == {t} && e.lock.Count(t) == 1 {
      assert e.lock.owners == map[t := 1];
      assert e.lock.RemoveOwnership(t).AddOwnership(t) == e.lock;
    }
  }

  /** A release that leaves owners, or that leaves none. */
  lemma EntryRelease(e: Entry, t: ThreadId)
    requires LockOk(e.lock)
    ensures var last := e.lock.RemoveOwnership(t).ShouldRemove();
      R.ReleaseSimple(ViewEntry(e), t)
      == if last && e.pending == [] then (R.Free, false) else (ViewEntry(Remaining(e, t)), last)
  {
    RemainingIs(e, t);
    if e.lock.kind == Write { WriteRelease(e, t); } else { ReadRelease(e, t); }
    hide Bag, TheOwner, LockOk, ViewEntry, Remaining, LockState.RemoveOwnership, R.ReleaseSimple;
  }

  lemma ReadRelease(e: Entry, t: ThreadId)
    requires LockOk(e.lock) && e.lock.kind != Write
    ensures var last := e.lock.owners.Keys == {t} && e.lock.Count(t) == 1;
      R.ReleaseSimple(ViewEntry(e), t) ==
        if !last then (ViewEntry(e.(lock := e.lock.RemoveOwnership(t))), false)
        else if e.pending == [] then (R.Free, false) else (ViewEntry(e), true)
  {
    hide Bag, TheOwner, LockOk;
    BagMembers(e.lock, t);
    BagIs(e.lock.RemoveOwnership(t).owners, Bag(e.lock.owners) - multiset{t});
  }

  lemma WriteRelease(e: Entry, t: ThreadId)
    requires LockOk(e.lock) && e.lock.kind == Write
    ensures var last := e.lock.owners.Keys == {t} && e.lock.Count(t) == 1;
      R.ReleaseSimple(ViewEntry(e), t) ==
        if !last then (ViewEntry(e.(lock := e.lock.RemoveOwnership(t))), false)
        else if e.pending == [] then (R.Free, false) else (ViewEntry(e), true)
  {
    hide TheOwner, LockState.RemoveOwnership;
    var w := TheOwner(e.lock.owners);
    assert e.lock.owners.Keys == {w};
  }

  /** A write request of the only reader. */
  lemma EntryConvert(e: Entry, t: ThreadId)
    requires LockOk(e.lock) && e.lock.CanAcquire(t, Write) == NeedToConvert
    ensures R.ReleaseSimple(ViewEntry(e), t).0.Free? ==> !R.ReleaseSimple(ViewEntry(e), t).1
    ensures var (lock, schedule) := R.ReleaseSimple(ViewEntry(e), t);
      R.AcquireSimple(ViewEntry(e), t, Write) ==
        if lock.Free? then R.Outcome(R.AcquireSimple(R.Free, t, Write).lock, Granted, false)
        else R.Outcome(lock, Refused, schedule)
  {
    hide Bag, TheOwner;
    BagMembers(e.lock, t);
  }

  // ----- The whole table

  lemma ViewOfUpdate(a: map<MutexId, Entry>, b: map<MutexId, Entry>, m: MutexId, e: Entry)
    requires SameButGuards(a[m := e], b)
    ensures ViewTable(b) == ViewTable(a)[m := ViewEntry(e)]
  {
    hide Bag, TheOwner;
  }

  lemma ViewOfErased(table: map<MutexId, Entry>, m: MutexId)
    ensures ViewTable(table - {m}) == ViewTable(table) - {m}
    ensures m !in table ==> ViewTable(table) - {m} == ViewTable(table)
  {
    hide ViewEntry;
  }

  lemma NeverFree(e: Entry)
    ensures !ViewEntry(e).Free?
  {
  }

  lemma ViewOfInstalled(s: TrackerState, t: ThreadId, m: MutexId, request: LockType, e: Entry)
    requires Inv(s) && m != 0 && LockOk(e.lock)
    requires forall u :: u != t ==> e.lock.Count(u) == Count(s, m, u)
    ensures View(Settle(Install(s, t, m, e), t, m, request)) == View(s).Put(m, ViewEntry(e))
  {
    hide LockOk, ViewEntry, ViewTable, Settle;
    GrantInstalls(s, t, m, request, e);
    hide Inv;
    InstallSchedulesNothing(s, t, m, request, e);
    ViewOfUpdate(s.table, Settle(Install(s, t, m, e), t, m, request).table, m, e);
    NeverFree(e);
  }

  lemma RegisterRefines(s: TrackerState, t: ThreadId, m: MutexId, request: LockType)
    requires Inv(s) && m != 0 && m !in s.table && request != NoLock
    ensures View(Register(s, t, m, request).0) == View(s).Put(m, R.AcquireSimple(R.Free, t, request).lock)
  {
    FirstHoldIsOk(t, request, s.clock);
    EntryFirst(t, request, s.clock);
    hide ViewEntry, ViewTable;
    ViewOfInstalled(s, t, m, request, FirstHold(t, request, s.clock));
  }

  lemma ReleaseRefines(s: TrackerState, t: ThreadId, m: MutexId)
    requires Inv(s)
    ensures var (lock, schedule) := R.ReleaseSimple(View(s).At(m), t);
      View(Release(s, t, m)) == View(s).Put(m, lock).Schedule(m, schedule)
  {
    ViewOfErased(s.table, m);
    if m in s.table {
      var e := s.table[m];
      EntryRelease(e, t);
      NeverFree(Remaining(e, t));
      hide ViewEntry, ViewTable, R.ReleaseSimple, Inv;
      ViewOfUpdate(s.table, s.table[m := Remaining(e, t)], m, Remaining(e, t));
    }
  }

  lemma ConversionUnfolds(s: TrackerState, t: ThreadId, m: MutexId)
    requires Inv(s) && Converts(s, t, m, Write)
    ensures var released := Release(s, t, m);
      TryAcquire(s, t, m, Write)
      == if m in released.table then (released, Refused) else (Register(released, t, m, Write).0, Granted)
  {
  }

  lemma ConversionRefines(s: TrackerState, t: ThreadId, m: MutexId)
    requires Inv(s) && m != 0 && Converts(s, t, m, Write)
    ensures var out := R.AcquireSimple(View(s).At(m), t, Write);
      && View(TryAcquire(s, t, m, Write).0) == View(s).Put(m, out.lock).Schedule(m, out.schedule)
      && TryAcquire(s, t, m, Write).1 == out.answer
  {
    EntryConvert(s.table[m], t);
    ConversionUnfolds(s, t, m);
    ReleaseRefines(s, t, m);
    ReleaseKeepsInv(s, t, m);
    hide TryAcquire, Release, Register, ViewEntry, R.ReleaseSimple, R.AcquireSimple, Inv;
    var released := Release(s, t, m);
    assert m in released.table <==> m in View(released).locks;
    hide ViewTable;
    if m !in released.table {
      RegisterRefines(released, t, m, Write);
      PutTwice(View(s), m, R.AcquireSimple(R.Free, t, Write).lock);
    }
  }

  lemma PutTwice(a: R.Machine, m: MutexId, lock: R.Simple)
    ensures a.Put(m, R.Free).Put(m, lock) == a.Put(m, lock)
  {
    assert !lock.Free? ==> (a.locks - {m})[m := lock] == a.locks[m := lock];
  }

  lemma AcquireRefines(s: TrackerState, t: ThreadId, m: MutexId, request: LockType)
    requires Inv(s) && m != 0
    ensures var out := R.AcquireSimple(View(s).At(m), t, request);
      && View(TryAcquire(s, t, m, request).0) == View(s).Put(m, out.lock).Schedule(m, out.schedule)
      && TryAcquire(s, t, m, request).1 == out.answer
  {
    if m !in s.table {
      if request != NoLock {
        RegisterRefines(s, t, m, request);
      } else {
        ViewOfErased(s.table, m);
      }
    } else {
      var e := s.table[m];
      match e.lock.CanAcquire(t, request)
      case Cannot =>
        EntryWait(e, t, request);
        NeverFree(e);
        assert View(s).locks == View(s).locks[m := ViewEntry(e)];
      case NeedToConvert =>
        ConversionRefines(s, t, m);
      case Avail =>
        AvailRefines(s, t, m, request);
    }
  }

  lemma AvailRefines(s: TrackerState, t: ThreadId, m: MutexId, request: LockType)
    requires Inv(s) && m in s.table && s.table[m].lock.CanAcquire(t, request) == Avail
    ensures var out := R.AcquireSimple(View(s).At(m), t, request);
      && View(TryAcquire(s, t, m, request).0) == View(s).Put(m, out.lock)
      && out.answer == Granted && !out.schedule
  {
    var e := s.table[m];
    var e' := e.(lock := e.lock.AcquireLock(t, request, s.clock));
    EntryAcquire(e, t, request, s.clock);
    assert t in e'.lock.owners;
    hide ViewEntry, ViewTable;
    ViewOfInstalled(s, t, m, request, e');
  }

  /** One call, on any mutex: the same reply, the same effect on that mutex, and none on others. */
  lemma StepRefines(s: TrackerState, step: Step)
    requires Inv(s)
    ensures var (s', reply) := Apply(s, step);
      View(s).Apply(step) == (View(s'), reply)
  {
    match step
    case Acquiring(t, m, request) =>
      if m != 0 { AcquireRefines(s, t, m, request); }
    case Releasing(t, m) =>
      ReleaseRefines(s, t, m);
    case ForcedReleasing(t, m) =>
      ViewOfErased(s.table, m);
    case AddingOperation(m, op) =>
      AddRefines(s, m, op);
    case RunningTask(u, i, force) =>
      if i < |s.scheduled| { TaskRefines(s, u, i, force); }
  }

  lemma AddRefines(s: TrackerState, m: MutexId, op: Operation)
    ensures View(s).Apply(AddingOperation(m, op)) ==
      (View(AddOperation(s, m, op).0), OperationAdded(AddOperation(s, m, op).1))
  {
    if m in s.table {
      var e := s.table[m];
      NeverFree(e);
      var e' := e.(pending := e.pending + [op]);
      assert ViewEntry(e') == ViewEntry(e).Add(op) && !ViewEntry(e').Free?;
      hide ViewEntry, ViewTable;
      ViewOfUpdate(s.table, s.table[m := e'], m, e');
    }
  }

  lemma SamePending(e: Entry)
    ensures ViewEntry(e).Pending() == e.pending
  {
    hide Bag, TheOwner;
  }

  lemma TaskRefines(s: TrackerState, u: ThreadId, i: nat, force: Force)
    requires Inv(s) && i < |s.scheduled|
    ensures View(s).Apply(RunningTask(u, i, force)) ==
      (View(RunTask(s, u, i, force).0), Ran(RunTask(s, u, i, force).1))
  {
    hide Runs, Unlisted, ViewEntry, ViewTable, Inv;
    var m := s.scheduled[i];
    if m in s.table {
      RegisteredIsOk(s, m);
      NeverFree(s.table[m]);
      SamePending(s.table[m]);
    }
    ViewOfErased(s.table, m);
  }

  ghost function Replies(s: TrackerState, steps: seq<Step>): seq<Reply> {
    if steps == [] then []
    else
      var front := steps[..|steps| - 1];
      Replies(s, front) + [Apply(Run(s, front), steps[|steps| - 1]).1]
  }

  lemma {:induction false} RunRefines(steps: seq<Step>)
    ensures View(EMPTY).Run(steps) == (View(Run(EMPTY, steps)), Replies(EMPTY, steps))
  {
    if steps != [] {
      var front := steps[..|steps| - 1];
      RunRefines(front);
      RunKeepsInv(front);
      StepRefines(Run(EMPTY, front), steps[|steps| - 1]);
    }
  }
}
