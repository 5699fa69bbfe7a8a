/** The automatic lock order: at the return of a call, were each thread's guards last created in
    ascending order of mutex ID? Exactly which requests keep that so, in which runs it holds, and
    that it holds in every run of write requests without queued operations. */
module LockOrder {
  import opened Sequences
  import opened LockTypes
  import opened LockData
  import opened TrackerSpec
  import opened TrackerInvariant

  ghost predicate Owns(s: TrackerState, t: ThreadId, m: MutexId) {
    m in s.table && t in s.table[m].lock.owners
  }

  function Stamp(s: TrackerState, m: MutexId): nat {
    if m in s.table && s.table[m].lock.guard.Guarded? then s.table[m].lock.guard.stamp else 0
  }

  /** The guards of `t` were created in the order of the mutex IDs. */
  ghost predicate InOrder(s: TrackerState, t: ThreadId) {
    forall m, n :: Owns(s, t, m) && Owns(s, t, n) && m < n ==> Stamp(s, m) < Stamp(s, n)
  }

  ghost predicate AllInOrder(s: TrackerState) {
    forall t :: InOrder(s, t)
  }

  /** No guard is younger than the clock. */
  ghost predicate Past(s: TrackerState) {
    forall m :: m in s.table ==> Stamp(s, m) < s.clock
  }

  // ----- What a granted request does to guards

  /** The mutexes whose guards a granted request of `t` creates anew: all that its vector lists and
      that are registered, when it writes below one of them, and otherwise just the one asked for. */
  ghost function Renewed(s: TrackerState, t: ThreadId, m: MutexId, request: LockType): set<MutexId> {
    if request == Write && NeedToReset(s, t, m) then Elems(HeldBy(s, t)) * s.table.Keys + {m} else {m}
  }

  /** What `u` owns once `t` has been granted `m`. */
  ghost predicate WillOwn(s: TrackerState, t: ThreadId, m: MutexId, u: ThreadId, n: MutexId) {
    Owns(s, u, n) || (u == t && n == m)
  }

  /** From `s` to `s'` exactly the guards of `renewed` were created anew, in ascending order. */
  ghost predicate RenewedFrom(s: TrackerState, s': TrackerState, renewed: set<MutexId>) {
    && (forall n :: n in renewed ==> s.clock <= Stamp(s', n))
    && (forall a, b :: a in renewed && b in renewed && a < b ==> Stamp(s', a) < Stamp(s', b))
    && (forall n :: n !in renewed && n in s'.table ==> n in s.table && Stamp(s', n) == Stamp(s, n))
  }

  /** An entry put in and settled. */
  lemma SettleRenews(s: TrackerState, t: ThreadId, m: MutexId, request: LockType, e: Entry)
    requires Past(s) && m != 0 && e.lock.guard == Guarded(s.clock)
    ensures var s' := Settle(Install(s, t, m, e), t, m, request);
      Past(s') && RenewedFrom(s, s', Renewed(s, t, m, request))
  {
    hide Install, Reorder, Past, RenewedFrom, Renewed, NeedToReset;
    InstallRenews(s, t, m, e);
    var s1 := Install(s, t, m, e);
    RenewedListed(s, s1, t, m);
    if request == Write && NeedToReset(s1, t, m) {
      ReorderRenews(s1, t);
      RenewedTwice(s, s1, Reorder(s1, t), m, Elems(s1.held[t]) * s1.table.Keys);
    }
  }

  lemma InstallRenews(s: TrackerState, t: ThreadId, m: MutexId, e: Entry)
    requires Past(s) && m != 0 && e.lock.guard == Guarded(s.clock)
    ensures var s1 := Install(s, t, m, e);
      && Past(s1) && RenewedFrom(s, s1, {m}) && s.clock <= s1.clock && s1.table.Keys == s.table.Keys + {m}
      && t in s1.held && Elems(s1.held[t]) == Elems(HeldBy(s, t)) + {m}
  {
    var s1 := Install(s, t, m, e);
    assert forall n :: n != m ==> Stamp(s1, n) == Stamp(s, n);
  }

  /** Listing `m` makes no difference to what a request for `m` renews. */
  lemma RenewedListed(s: TrackerState, s1: TrackerState, t: ThreadId, m: MutexId)
    requires s1.table.Keys == s.table.Keys + {m} && t in s1.held && Elems(s1.held[t]) == Elems(HeldBy(s, t)) + {m}
    ensures NeedToReset(s1, t, m) <==> NeedToReset(s, t, m)
    ensures Renewed(s, t, m, Write) == if NeedToReset(s, t, m) then Elems(s1.held[t]) * s1.table.Keys else {m}
    ensures forall request :: request != Write ==> Renewed(s, t, m, request) == {m}
  {
    forall x | x > m ensures x in HeldBy(s1, t) <==> x in HeldBy(s, t) {
      assert x in Elems(s1.held[t]) <==> x in Elems(HeldBy(s, t));
    }
  }

  lemma RenewedTwice(s: TrackerState, s1: TrackerState, s2: TrackerState, m: MutexId, renewed: set<MutexId>)
    requires RenewedFrom(s, s1, {m}) && RenewedFrom(s1, s2, renewed) && s.clock <= s1.clock && m in renewed
    ensures RenewedFrom(s, s2, renewed)
  {
    hide Stamp;
  }

  lemma ReorderTicks(s: TrackerState, t: ThreadId)
    ensures s.clock <= Reorder(s, t).clock
  {
    hide Kept;
  }

  lemma ReorderRenews(s: TrackerState, t: ThreadId)
    requires t in s.held && Past(s)
    ensures Past(Reorder(s, t)) && RenewedFrom(s, Reorder(s, t), Elems(s.held[t]) * s.table.Keys)
  {
    hide Reorder, Ascending;
    ReorderEffect(s, t);
    ReorderTicks(s, t);
    var s' := Reorder(s, t);
    forall n | n in s'.table ensures Stamp(s', n) < s'.clock {
      if n !in s.held[t] { assert Stamp(s', n) == Stamp(s, n); }
    }
  }

  /** A granted request: who owns what afterwards, and which guards are new. */
  lemma GrantRenews(s: TrackerState, t: ThreadId, m: MutexId, request: LockType)
    requires Inv(s) && Past(s) && Grantable(s, t, m, request)
    ensures var s' := TryAcquire(s, t, m, request).0;
      && Past(s') && RenewedFrom(s, s', Renewed(s, t, m, request))
      && (forall u, n :: Owns(s', u, n) <==> WillOwn(s, t, m, u, n))
  {
    GrantedWhen(s, t, m, request);
    GrantOwns(s, t, m, request);
    if Converts(s, t, m, request) {
      ConversionRenews(s, t, m);
    } else {
      var e := if m in s.table
               then s.table[m].(lock := s.table[m].lock.AcquireLock(t, request, s.clock))
               else FirstHold(t, request, s.clock);
      SettleRenews(s, t, m, request, e);
    }
    hide Settle, Install, Past, RenewedFrom, Renewed, Owns;
  }

  lemma GrantOwns(s: TrackerState, t: ThreadId, m: MutexId, request: LockType)
    requires Inv(s) && TryAcquire(s, t, m, request).1 == Granted
    ensures forall u, n :: Owns(TryAcquire(s, t, m, request).0, u, n) <==> WillOwn(s, t, m, u, n)
  {
    hide TryAcquire, Inv;
    GrantMeansOwnership(s, t, m, request);
    TryAcquireKeepsInv(s, t, m, request);
    var s' := TryAcquire(s, t, m, request).0;
    forall u, n ensures Owns(s', u, n) <==> WillOwn(s, t, m, u, n) {
      OwnersCount(s, u, n);
      OwnersCount(s', u, n);
    }
  }

  lemma ConversionRenews(s: TrackerState, t: ThreadId, m: MutexId)
    requires Inv(s) && Past(s) && Grantable(s, t, m, Write) && Converts(s, t, m, Write)
    ensures var s' := TryAcquire(s, t, m, Write).0;
      Past(s') && RenewedFrom(s, s', Renewed(s, t, m, Write))
  {
    hide Inv, Past, RenewedFrom, Renewed, TryAcquire, Settle, Install, Erase;
    ConversionInstalls(s, t, m);
    EraseRenewsNothing(s, t, m);
    var s0 := Erase(s, t, m);
    var s' := Settle(Install(s0, t, m, FirstHold(t, Write, s.clock)), t, m, Write);
    SettleRenews(s0, t, m, Write, FirstHold(t, Write, s.clock));
    RenewedErased(s, s0, s', m, Renewed(s, t, m, Write));
  }

  /** The lock of the thread erased, a request for it will renew what it would have renewed before. */
  lemma EraseRenewsNothing(s: TrackerState, t: ThreadId, m: MutexId)
    requires Inv(s) && Past(s) && m != 0 && Owns(s, t, m)
    ensures var s0 := Erase(s, t, m);
      && Past(s0) && s0.clock == s.clock && s0.table == s.table - {m}
      && Renewed(s0, t, m, Write) == Renewed(s, t, m, Write)
  {
    SwapPopRemoves(s.held[t], m);
    var s0 := Erase(s, t, m);
    assert Elems(HeldBy(s0, t)) == Elems(HeldBy(s, t)) - {m};
    forall x | x > m ensures x in HeldBy(s0, t) <==> x in HeldBy(s, t) {
      assert x in Elems(HeldBy(s0, t)) <==> x in Elems(HeldBy(s, t));
    }
    hide Erase, Inv, Elems;
  }

  lemma RenewedErased(s: TrackerState, s0: TrackerState, s': TrackerState, m: MutexId, renewed: set<MutexId>)
    requires s0.table == s.table - {m} && s0.clock == s.clock && RenewedFrom(s0, s', renewed)
    ensures RenewedFrom(s, s', renewed)
  {
  }

  // ----- Exactly the steps that keep the order

  /** A granted request leaves `u` with no guard created anew below one that was not. */
  ghost predicate Undisturbed(s: TrackerState, t: ThreadId, m: MutexId, request: LockType, u: ThreadId) {
    forall a, b :: WillOwn(s, t, m, u, a) && WillOwn(s, t, m, u, b) && a < b && a in Renewed(s, t, m, request) ==>
      b in Renewed(s, t, m, request)
  }

  /** Every step other than a granted request keeps the order. */
  ghost predicate KeepsOrder(s: TrackerState, step: Step) {
    step.Acquiring? && Grantable(s, step.t, step.m, step.request) ==>
      forall u :: Undisturbed(s, step.t, step.m, step.request, u)
  }

  lemma GrantKeepsOrder(s: TrackerState, t: ThreadId, m: MutexId, request: LockType, u: ThreadId)
    requires Inv(s) && Past(s) && InOrder(s, u) && Grantable(s, t, m, request)
    ensures InOrder(TryAcquire(s, t, m, request).0, u) <==> Undisturbed(s, t, m, request, u)
  {
    var renewed, s' := Renewed(s, t, m, request), TryAcquire(s, t, m, request).0;
    GrantRenews(s, t, m, request);
    assert m in renewed;
    hide Renewed, TryAcquire, Inv, Grantable, Stamp;
    if InOrder(s', u) {
      forall a, b | WillOwn(s, t, m, u, a) && WillOwn(s, t, m, u, b) && a < b && a in renewed ensures b in renewed {
        assert Owns(s', u, a) && Owns(s', u, b);
        assert b !in renewed ==> Stamp(s', b) == Stamp(s, b) < s.clock;
      }
    }
    if Undisturbed(s, t, m, request, u) {
      forall a, b | Owns(s', u, a) && Owns(s', u, b) && a < b ensures Stamp(s', a) < Stamp(s', b) {
        assert WillOwn(s, t, m, u, a) && WillOwn(s, t, m, u, b);
        assert a !in renewed ==> a != m && Stamp(s', a) == Stamp(s, a) < s.clock;
        assert b !in renewed ==> b != m && Stamp(s', b) == Stamp(s, b);
      }
    }
  }

  /** Ownership and guards carried over from `s`, the order carries over. */
  ghost predicate CarriesOver(s: TrackerState, s': TrackerState) {
    && s.clock <= s'.clock
    && (forall n :: n in s'.table ==> n in s.table && Stamp(s', n) == Stamp(s, n))
    && (forall u, n :: Owns(s', u, n) ==> Owns(s, u, n))
  }

  lemma OrderCarriesOver(s: TrackerState, s': TrackerState)
    requires Past(s) && CarriesOver(s, s')
    ensures Past(s') && (AllInOrder(s) ==> AllInOrder(s'))
  {
    if AllInOrder(s) {
      forall u ensures InOrder(s', u) { assert InOrder(s, u); }
    }
  }

  lemma ReleaseCarriesOver(s: TrackerState, t: ThreadId, m: MutexId)
    requires Inv(s)
    ensures CarriesOver(s, Release(s, t, m))
  {
    hide CarriesOver, Inv, Erase, LockState.RemoveOwnership;
    NoChangeCarriesOver(s, s.scheduled);
    if m in s.table {
      ReleaseCases(s, t, m);
      NoChangeCarriesOver(s, s.scheduled + [m]);
      EntryCarriesOver(s, m, s.table[m].(lock := s.table[m].lock.RemoveOwnership(t)));
      EraseCarriesOver(s, t, m);
      hide Release;
    }
  }

  lemma NoChangeCarriesOver(s: TrackerState, scheduled: seq<MutexId>)
    ensures CarriesOver(s, s.(scheduled := scheduled))
  {
  }

  lemma EntryCarriesOver(s: TrackerState, m: MutexId, e: Entry)
    requires m in s.table && e.lock.guard == s.table[m].lock.guard
    requires e.lock.owners.Keys <= s.table[m].lock.owners.Keys
    ensures CarriesOver(s, s.(table := s.table[m := e]))
  {
  }

  lemma EraseCarriesOver(s: TrackerState, t: ThreadId, m: MutexId)
    ensures CarriesOver(s, Erase(s, t, m))
  {
    hide Unlisted;
  }

  lemma OthersCarryOver(s: TrackerState, step: Step)
    requires Inv(s)
    requires step.Acquiring? ==> !Grantable(s, step.t, step.m, step.request)
    ensures CarriesOver(s, Apply(s, step).0)
  {
    hide Inv, Release, Unlisted;
    match step
    case Acquiring(t, m, request) =>
      GrantedWhen(s, t, m, request);
      if m != 0 && Converts(s, t, m, request) {
        ConversionRefused(s, t, m);
        ReleaseCarriesOver(s, t, m);
      }
    case Releasing(t, m) => ReleaseCarriesOver(s, t, m);
    case _ =>
  }

  /** From a state in order, a step leads to a state in order exactly if it meets the condition. */
  lemma StepKeepsOrder(s: TrackerState, step: Step)
    requires Inv(s) && Past(s)
    ensures Past(Apply(s, step).0)
    ensures AllInOrder(s) ==> (AllInOrder(Apply(s, step).0) <==> KeepsOrder(s, step))
  {
    hide Inv, Past, AllInOrder, KeepsOrder, CarriesOver, Grantable, TryAcquire, Release, RenewedFrom, Renewed,
         Undisturbed;
    if step.Acquiring? && Grantable(s, step.t, step.m, step.request) {
      GrantRenews(s, step.t, step.m, step.request);
      if AllInOrder(s) { AllKeepOrder(s, step); }
    } else {
      OthersCarryOver(s, step);
      OrderCarriesOver(s, Apply(s, step).0);
      OthersMeetIt(s, step);
    }
  }

  lemma OthersMeetIt(s: TrackerState, step: Step)
    requires step.Acquiring? ==> !Grantable(s, step.t, step.m, step.request)
    ensures KeepsOrder(s, step)
  {
  }

  lemma AllKeepOrder(s: TrackerState, step: Step)
    requires Inv(s) && Past(s) && AllInOrder(s)
    requires step.Acquiring? && Grantable(s, step.t, step.m, step.request)
    ensures AllInOrder(TryAcquire(s, step.t, step.m, step.request).0) <==> KeepsOrder(s, step)
  {
    hide Inv, Past, InOrder, Grantable, TryAcquire, Undisturbed;
    forall u { GrantKeepsOrder(s, step.t, step.m, step.request, u); }
  }

  /** For the requesting thread itself the condition is simple: a write is always put in order, and
      anything else keeps the order exactly if the thread owns no greater mutex. */
  lemma OwnOrder(s: TrackerState, t: ThreadId, m: MutexId, request: LockType)
    requires Inv(s) && Past(s) && InOrder(s, t) && Grantable(s, t, m, request)
    ensures InOrder(TryAcquire(s, t, m, request).0, t) <==>
      request == Write || forall n: MutexId :: Owns(s, t, n) ==> n <= m
  {
    hide Inv, Past, InOrder, TryAcquire;
    GrantKeepsOrder(s, t, m, request, t);
    OwnedAreRegistered(s, t);
    if request != Write && exists n: MutexId :: Owns(s, t, n) && n > m {
      var n: MutexId :| Owns(s, t, n) && n > m;
      assert WillOwn(s, t, m, t, m) && WillOwn(s, t, m, t, n);
    }
  }

  lemma OwnedAreRegistered(s: TrackerState, t: ThreadId)
    requires Inv(s)
    ensures forall n :: Owns(s, t, n) ==> n in HeldBy(s, t) && n in s.table.Keys
  {
  }

  /** Another thread keeps its order, unless the request makes the requesting one take its guards
      anew, exactly if it does not share the requested lock or owns no greater mutex. */
  lemma OthersOrder(s: TrackerState, t: ThreadId, m: MutexId, request: LockType, u: ThreadId)
    requires Inv(s) && Past(s) && InOrder(s, u) && Grantable(s, t, m, request) && u != t
    requires request == Write ==> !NeedToReset(s, t, m)
    ensures InOrder(TryAcquire(s, t, m, request).0, u) <==>
      (Owns(s, u, m) ==> forall n: MutexId :: Owns(s, u, n) ==> n <= m)
  {
    hide Inv, Past, InOrder, Grantable, TryAcquire, NeedToReset, Elems;
    GrantKeepsOrder(s, t, m, request, u);
    if Owns(s, u, m) && exists n: MutexId :: Owns(s, u, n) && n > m {
      var n: MutexId :| Owns(s, u, n) && n > m;
      assert WillOwn(s, t, m, u, m) && WillOwn(s, t, m, u, n);
    }
  }

  // ----- Runs

  lemma RunPrefix(steps: seq<Step>, k: nat)
    requires k < |steps|
    ensures Run(EMPTY, steps[..k + 1]) == Apply(Run(EMPTY, steps[..k]), steps[k]).0
  {
    assert steps[..k + 1][..k] == steps[..k];
  }

  lemma {:induction false} RunIsPast(steps: seq<Step>)
    ensures Past(Run(EMPTY, steps))
  {
    if steps != [] {
      var front := steps[..|steps| - 1];
      RunIsPast(front);
      RunKeepsInv(front);
      StepKeepsOrder(Run(EMPTY, front), steps[|steps| - 1]);
    }
  }

  ghost predicate OrderKept(steps: seq<Step>) {
    forall k :: 0 <= k < |steps| ==> KeepsOrder(Run(EMPTY, steps[..k]), steps[k])
  }

  lemma {:induction false} InOrderUpTo(steps: seq<Step>, k: nat)
    requires OrderKept(steps) && k <= |steps|
    ensures AllInOrder(Run(EMPTY, steps[..k]))
  {
    if k > 0 {
      InOrderUpTo(steps, k - 1);
      RunPrefix(steps, k - 1);
      RunKeepsInv(steps[..k - 1]);
      RunIsPast(steps[..k - 1]);
      StepKeepsOrder(Run(EMPTY, steps[..k - 1]), steps[k - 1]);
      hide Run, Apply, Inv, Past, AllInOrder, KeepsOrder;
    }
  }

  /** In any run at all, forced releases, operations and tasks included, every thread's guards are
      in order all along exactly if every step meets the condition. */
  lemma LockOrderIsExact(steps: seq<Step>)
    ensures (forall k :: 0 <= k <= |steps| ==> AllInOrder(Run(EMPTY, steps[..k]))) <==> OrderKept(steps)
  {
    hide Run, Apply, Inv, Past, AllInOrder, KeepsOrder;
    if OrderKept(steps) {
      forall k | 0 <= k <= |steps| ensures AllInOrder(Run(EMPTY, steps[..k])) { InOrderUpTo(steps, k); }
    }
    if forall k :: 0 <= k <= |steps| ==> AllInOrder(Run(EMPTY, steps[..k])) {
      forall k | 0 <= k < |steps| ensures KeepsOrder(Run(EMPTY, steps[..k]), steps[k]) {
        RunPrefix(steps, k);
        RunKeepsInv(steps[..k]);
        RunIsPast(steps[..k]);
        StepKeepsOrder(Run(EMPTY, steps[..k]), steps[k]);
        assert AllInOrder(Run(EMPTY, steps[..k + 1]));
      }
    }
  }

  // ----- Runs of writes

  /** What such a run may contain: write requests, releases, attempts to queue an operation that
      find nothing registered, and background tasks (none is ever scheduled). */
  predicate WriteOnly(s: TrackerState, step: Step) {
    match step
    case Acquiring(_, _, request) => request == Write
    case Releasing(_, _) => true
    case ForcedReleasing(_, _) => false
    case AddingOperation(m, _) => m !in s.table
    case RunningTask(_, _, _) => true
  }

  ghost predicate WriteRun(steps: seq<Step>) {
    forall k :: 0 <= k < |steps| ==> WriteOnly(Run(EMPTY, steps[..k]), steps[k])
  }

  ghost predicate WritesOnly(s: TrackerState) {
    s.scheduled == [] && forall m :: m in s.table ==> s.table[m].lock.kind == Write && s.table[m].pending == []
  }

  ghost predicate VectorsAreOwned(s: TrackerState) {
    forall t, m :: t in s.held && m in s.held[t] ==> Owns(s, t, m)
  }

  ghost predicate WriteInv(s: TrackerState) {
    Inv(s) && WritesOnly(s) && VectorsAreOwned(s)
  }

  /** When only write locks exist and vectors are exact, no request touches a guard of another
      thread, and every request is a write. */
  lemma WritesKeepOrder(s: TrackerState, step: Step)
    requires WriteInv(s) && WriteOnly(s, step)
    ensures KeepsOrder(s, step)
  {
    if step.Acquiring? && Grantable(s, step.t, step.m, step.request) {
      forall u { WriteDisturbsNobody(s, step.t, step.m, u); }
      hide WriteInv, Undisturbed, Grantable;
    }
  }

  lemma WriteDisturbsNobody(s: TrackerState, t: ThreadId, m: MutexId, u: ThreadId)
    requires WriteInv(s) && Grantable(s, t, m, Write)
    ensures Undisturbed(s, t, m, Write, u)
  {
    OwnedAreRegistered(s, t);
    forall a, b | WillOwn(s, t, m, u, a) && WillOwn(s, t, m, u, b) && a < b && a in Renewed(s, t, m, Write)
      ensures b in Renewed(s, t, m, Write)
    {
      assert a != m ==> a in HeldBy(s, t) && Owns(s, t, a);
      assert u == t;
    }
  }

  lemma AcquireKeepsWrites(s: TrackerState, t: ThreadId, m: MutexId)
    requires WriteInv(s)
    ensures WriteInv(TryAcquire(s, t, m, Write).0)
  {
    hide Inv, VectorsAreOwned, Settle, Install;
    GrantedWhen(s, t, m, Write);
    if Grantable(s, t, m, Write) {
      var e := if m in s.table
               then s.table[m].(lock := s.table[m].lock.AcquireLock(t, Write, s.clock))
               else FirstHold(t, Write, s.clock);
      WriteEntry(s, t, m, e);
      GrantInstalls(s, t, m, Write, e);
      SettleLists(s, t, m, e);
      GrantOwns(s, t, m, Write);
      VectorsStayOwned(s, TryAcquire(s, t, m, Write).0, t, m);
      hide LockOk;
    }
  }

  lemma WriteEntry(s: TrackerState, t: ThreadId, m: MutexId, e: Entry)
    requires WriteInv(s)
    requires m in s.table ==>
      s.table[m].lock.CanAcquire(t, Write) == Avail
      && e == s.table[m].(lock := s.table[m].lock.AcquireLock(t, Write, s.clock))
    requires m !in s.table ==> e == FirstHold(t, Write, s.clock)
    ensures LockOk(e.lock) && e.lock.kind == Write && e.pending == []
    ensures forall u :: u != t ==> e.lock.Count(u) == Count(s, m, u)
  {
    assert t in e.lock.owners;
  }

  lemma VectorsStayOwned(s: TrackerState, s': TrackerState, t: ThreadId, m: MutexId)
    requires VectorsAreOwned(s)
    requires forall u, n :: Owns(s', u, n) <==> WillOwn(s, t, m, u, n)
    requires forall u, n :: u in s'.held && n in s'.held[u] ==> n in HeldBy(s, u) || (u == t && n == m)
    ensures VectorsAreOwned(s')
  {
    forall u, n | u in s'.held && n in s'.held[u] ensures Owns(s', u, n) {
      assert WillOwn(s, t, m, u, n);
    }
  }

  /** The vectors after a write: nothing is listed that was not, except the mutex itself. */
  lemma SettleLists(s: TrackerState, t: ThreadId, m: MutexId, e: Entry)
    requires Inv(s) && m != 0
    ensures var s' := Settle(Install(s, t, m, e), t, m, Write);
      && s'.scheduled == s.scheduled
      && forall u, n :: u in s'.held && n in s'.held[u] ==> n in HeldBy(s, u) || (u == t && n == m)
  {
    var s1 := Install(s, t, m, e);
    ListedVector(s.held, t, m);
    if NeedToReset(s1, t, m) {
      ReorderEffect(s1, t);
      var s' := Reorder(s1, t);
      hide Reorder, Install, NeedToReset;
      forall n | n in s'.held[t] ensures n in s1.held[t] { assert n in Elems(s'.held[t]); }
    }
  }

  lemma ReleaseKeepsWrites(s: TrackerState, t: ThreadId, m: MutexId)
    requires WriteInv(s)
    ensures WriteInv(Release(s, t, m))
  {
    hide Inv, VectorsAreOwned, Erase, LockState.RemoveOwnership;
    ReleaseKeepsInv(s, t, m);
    if m in s.table {
      ReleaseCases(s, t, m);
      if s.table[m].lock.owners.Keys == {t} && s.table[m].lock.Count(t) == 1 {
        EraseKeepsVectors(s, t, m);
        EraseKeepsKinds(s, t, m);
      } else {
        RegisteredIsOk(s, m);
        OwnersStay(s, t, m);
      }
    }
  }

  lemma EraseKeepsKinds(s: TrackerState, t: ThreadId, m: MutexId)
    requires WritesOnly(s)
    ensures WritesOnly(Erase(s, t, m))
  {
    hide Unlisted;
  }

  lemma OwnersStay(s: TrackerState, t: ThreadId, m: MutexId)
    requires VectorsAreOwned(s) && m in s.table && LockOk(s.table[m].lock) && s.table[m].lock.kind == Write
    requires s.table[m].lock.owners.Keys != {t} || s.table[m].lock.Count(t) > 1
    ensures VectorsAreOwned(s.(table := s.table[m := s.table[m].(lock := s.table[m].lock.RemoveOwnership(t))]))
  {
    hide LockState.RemoveOwnership;
    assert s.table[m].lock.RemoveOwnership(t).owners.Keys == s.table[m].lock.owners.Keys;
  }

  lemma EraseKeepsVectors(s: TrackerState, t: ThreadId, m: MutexId)
    requires Inv(s) && VectorsAreOwned(s) && m in s.table && s.table[m].lock.owners.Keys == {t}
    ensures VectorsAreOwned(Erase(s, t, m))
  {
    assert t in s.table[m].lock.owners.Keys;
    SwapPopRemoves(s.held[t], m);
    var s' := Erase(s, t, m);
    forall u, n | u in s'.held && n in s'.held[u] ensures Owns(s', u, n) {
      assert n in Elems(s'.held[u]);
      assert Owns(s, u, n);
      assert n == m ==> u == t;
    }
  }

  lemma WriteStep(s: TrackerState, step: Step)
    requires WriteInv(s) && WriteOnly(s, step)
    ensures WriteInv(Apply(s, step).0) && KeepsOrder(s, step)
  {
    hide WriteInv, KeepsOrder, TryAcquire, Release;
    WritesKeepOrder(s, step);
    match step
    case Acquiring(t, m, _) => AcquireKeepsWrites(s, t, m);
    case Releasing(t, m) => ReleaseKeepsWrites(s, t, m);
    case RunningTask(_, _, _) => NothingScheduled(s);
    case _ =>
  }

  lemma NothingScheduled(s: TrackerState)
    requires WriteInv(s)
    ensures s.scheduled == []
  {
  }

  lemma WriteRunFront(steps: seq<Step>)
    requires WriteRun(steps) && steps != []
    ensures WriteRun(steps[..|steps| - 1]) && WriteOnly(Run(EMPTY, steps[..|steps| - 1]), steps[|steps| - 1])
  {
    hide Run, WriteOnly;
    var front := steps[..|steps| - 1];
    assert forall k :: 0 <= k < |front| ==> front[..k] == steps[..k] && front[k] == steps[k];
  }

  lemma OrderKeptOnce(steps: seq<Step>)
    requires steps != [] && OrderKept(steps[..|steps| - 1])
    requires KeepsOrder(Run(EMPTY, steps[..|steps| - 1]), steps[|steps| - 1])
    ensures OrderKept(steps)
  {
    hide Run, KeepsOrder;
    var front := steps[..|steps| - 1];
    forall k | 0 <= k < |steps| ensures KeepsOrder(Run(EMPTY, steps[..k]), steps[k]) {
      if k < |front| { assert front[..k] == steps[..k] && front[k] == steps[k]; }
    }
  }

  lemma {:induction false} WriteRunKeepsOrder(steps: seq<Step>)
    requires WriteRun(steps)
    ensures WriteInv(Run(EMPTY, steps)) && OrderKept(steps)
  {
    if steps != [] {
      hide KeepsOrder, OrderKept, WriteRun, WriteInv, Apply;
      WriteRunFront(steps);
      WriteRunKeepsOrder(steps[..|steps| - 1]);
      WriteStep(Run(EMPTY, steps[..|steps| - 1]), steps[|steps| - 1]);
      OrderKeptOnce(steps);
    }
  }

  /** The promise of the vector: after every such run each thread's vector is the set of mutexes
      it owns, without repetition, and its guards are as old as the mutex IDs are small. */
  lemma AscendingLockOrder(steps: seq<Step>, t: ThreadId)
    requires WriteRun(steps)
    ensures var s := Run(EMPTY, steps);
      && NoDup(HeldBy(s, t))
      && (forall m :: m in HeldBy(s, t) <==> m in s.table && t in s.table[m].lock.owners)
      && (forall m, n :: m in HeldBy(s, t) && n in HeldBy(s, t) && m < n ==>
            && s.table[m].lock.guard.Guarded? && s.table[n].lock.guard.Guarded?
            && s.table[m].lock.guard.stamp < s.table[n].lock.guard.stamp)
  {
    WriteRunKeepsOrder(steps);
    LockOrderIsExact(steps);
    var s := Run(EMPTY, steps);
    assert steps[..|steps|] == steps && InOrder(s, t);
    hide Run;
    forall m ensures m in HeldBy(s, t) <==> Owns(s, t, m) {}
    forall m, n | m in HeldBy(s, t) && n in HeldBy(s, t) && m < n
      ensures s.table[m].lock.guard.stamp < s.table[n].lock.guard.stamp
    {
      assert Owns(s, t, m) && Owns(s, t, n) && Stamp(s, m) < Stamp(s, n);
    }
  }

  /** Read requests are never put in order: a thread that reads 2 and then 1 is left with the guard
      of 1 younger than that of 2. */
  lemma ReadsAreNotOrdered(t: ThreadId)
    ensures var s := Run(EMPTY, [Acquiring(t, 2, Read), Acquiring(t, 1, Read)]);
      HeldBy(s, t) == [2, 1] && Stamp(s, 2) < Stamp(s, 1)
  {
    var first, both := [Acquiring(t, 2, Read)], [Acquiring(t, 2, Read), Acquiring(t, 1, Read)];
    assert first[..0] == [] && both[..1] == first;
    assert Run(EMPTY, first) == Apply(Run(EMPTY, []), first[0]).0;
    assert Run(EMPTY, both) == Apply(Run(EMPTY, first), both[1]).0;
  }

  /** Nor does a thread that reads in ascending order stay in order: another one's read of the first
      mutex creates the one guard they share anew. */
  lemma AnothersReadDisturbs(t: ThreadId, u: ThreadId)
    requires t != u
    ensures var s := Run(EMPTY, [Acquiring(t, 1, Read), Acquiring(t, 2, Read), Acquiring(u, 1, Read)]);
      Owns(s, t, 1) && Owns(s, t, 2) && Stamp(s, 2) < Stamp(s, 1)
  {
    var s1 := [Acquiring(t, 1, Read)];
    var s2 := [Acquiring(t, 1, Read), Acquiring(t, 2, Read)];
    var s3 := [Acquiring(t, 1, Read), Acquiring(t, 2, Read), Acquiring(u, 1, Read)];
    assert s1[..0] == [] && s2[..1] == s1 && s3[..2] == s2;
    assert Run(EMPTY, s1) == Apply(Run(EMPTY, []), s1[0]).0;
    assert Run(EMPTY, s2) == Apply(Run(EMPTY, s1), s2[1]).0;
    assert Run(EMPTY, s2).table == map[1 := FirstHold(t, Read, 0), 2 := FirstHold(t, Read, 1)];
    assert Run(EMPTY, s3) == Apply(Run(EMPTY, s2), s3[2]).0;
  }
}
