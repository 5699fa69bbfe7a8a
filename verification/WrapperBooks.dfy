/** The books of a history: how many holds the tracker counts, and how many wrappers say they have
    one. Exactly which events keep them balanced, and what balanced books promise. */
module WrapperBooks {
  import opened Sequences
  import opened LockTypes
  import opened LockData
  import opened TrackerSpec
  import opened TrackerInvariant
  import opened WrapperSpec
  import opened WrapperRuns

  predicate Holds(w: Wrapper, m: MutexId, t: ThreadId) {
    w.result == Success && w.m == m && w.thread == t
  }

  /** The live wrappers that say `t` holds `m`. */
  function Grants(ws: map<WrapperId, Wrapper>, m: MutexId, t: ThreadId): set<WrapperId> {
    set w | w in ws && Holds(ws[w], m, t)
  }

  function KeptFor(keepers: map<MutexId, ThreadId>, m: MutexId, t: ThreadId): nat {
    if m in keepers && keepers[m] == t then 1 else 0
  }

  /** For every mutex and thread, the tracker counts as many holds as there are live wrappers, and
      one more for the thread that keeps the lock for its operations. */
  ghost predicate Balanced(world: World) {
    forall m, t :: Count(world.tracker, m, t) == |Grants(world.wrappers, m, t)| + KeptFor(world.keepers, m, t)
  }

  /** The locks kept for their operations are those scheduled, each once; they are registered, and
      have operations. */
  ghost predicate KeepersOk(s: TrackerState, keepers: map<MutexId, ThreadId>) {
    && NoDup(s.scheduled)
    && Elems(s.scheduled) == keepers.Keys
    && forall m :: m in keepers ==> m in s.table && s.table[m].pending != []
  }

  /** A successful wrapper has its tracker and its data and is fully constructed; one still under
      construction is about a mutex. */
  ghost predicate Sound(w: Wrapper) {
    && (w.result == Success ==> w.hasTracker && w.hasData && w.phase.Settled?)
    && (!w.phase.Settled? ==> w.hasTracker && w.hasData && w.m != 0)
  }

  ghost predicate AllSound(ws: map<WrapperId, Wrapper>) {
    forall w :: w in ws ==> Sound(ws[w])
  }

  ghost predicate Good(world: World) {
    && Inv(world.tracker)
    && KeepersOk(world.tracker, world.keepers)
    && Balanced(world)
    && AllSound(world.wrappers)
  }

  predicate HasHolder(ws: map<WrapperId, Wrapper>, m: MutexId) {
    exists w :: w in ws && ws[w].result == Success && ws[w].m == m
  }

  /** What an event must respect: nobody asks to write what it alone reads; an answer that ends a
      wait still holds at the retry; a successful wrapper dies on its own thread and is not assigned
      over; and a call beside the wrappers does not interfere. */
  predicate Fair(world: World, event: Event) {
    Enabled(world, event) ==>
    var (s, ws) := (world.tracker, world.wrappers);
    match event
    case Constructing(_, a) => !a.Complete() || !Converts(s, a.thread, a.m, a.request)
    case Retrying(w) => StillTrue(s, ws[w])
    case Destroying(w, u) => ws[w].result == Success ==> u == ws[w].thread
    case MoveAssigning(_, dst) => ws[dst].result != Success
    case Calling(step) => Harmless(world, step)
    case _ => true
  }

  /** A call made beside the wrappers: it acquires nothing, or converts a lock in full; it releases
      nothing that is owned; an operation may always be queued; and a background task runs when no
      successful wrapper on its mutex is alive. */
  predicate Harmless(world: World, step: Step) {
    var s := world.tracker;
    match step
    case Acquiring(t, m, request) => Grantable(s, t, m, request) <==> Converts(s, t, m, request)
    case Releasing(t, m) => m !in s.table || t !in s.table[m].lock.owners
    case ForcedReleasing(_, m) => m !in s.table
    case AddingOperation(_, _) => true
    case RunningTask(_, i, _) => i < |s.scheduled| ==> !HasHolder(world.wrappers, s.scheduled[i])
  }

  predicate StillTrue(s: TrackerState, w: Wrapper)
    requires w.phase.Told?
  {
    match w.phase.answer
    case Cannot => true
    case Avail => w.m !in s.table || s.table[w.m].lock.CanAcquire(w.thread, w.request) == Avail
    case NeedToConvert => w.m !in s.table
  }

  // ----- How one entry in the books changes

  function One(ws: map<WrapperId, Wrapper>, w: WrapperId, m: MutexId, t: ThreadId): nat {
    if w in ws && Holds(ws[w], m, t) then 1 else 0
  }

  lemma GrantsWithout(ws: map<WrapperId, Wrapper>, w: WrapperId, m: MutexId, t: ThreadId)
    ensures |Grants(ws, m, t)| == |Grants(ws - {w}, m, t)| + One(ws, w, m, t)
  {
    assert Grants(ws - {w}, m, t) == Grants(ws, m, t) - {w};
  }

  lemma GrantsChange(a: map<WrapperId, Wrapper>, b: map<WrapperId, Wrapper>, w: WrapperId, m: MutexId, t: ThreadId)
    requires a - {w} == b - {w}
    ensures |Grants(b, m, t)| + One(a, w, m, t) == |Grants(a, m, t)| + One(b, w, m, t)
  {
    GrantsWithout(a, w, m, t);
    GrantsWithout(b, w, m, t);
  }

  /** A hold passes from one wrapper to another; a hold of the target is forgotten. */
  lemma GrantsMove(ws: map<WrapperId, Wrapper>, src: WrapperId, dst: WrapperId, m: MutexId, t: ThreadId)
    requires src in ws && src != dst
    ensures |Grants(ws[dst := ws[src]][src := MovedFrom(ws[src])], m, t)| + One(ws, dst, m, t) == |Grants(ws, m, t)|
  {
    var ws1 := ws[dst := ws[src]];
    assert ws - {dst} == ws1 - {dst};
    assert ws1 - {src} == ws1[src := MovedFrom(ws[src])] - {src};
    GrantsChange(ws, ws1, dst, m, t);
    GrantsChange(ws1, ws1[src := MovedFrom(ws[src])], src, m, t);
  }

  /** What one change of a wrapper and the tracker does to an entry of balanced books. */
  ghost predicate EntryBalances(world: World, after: World, w: WrapperId, m: MutexId, t: ThreadId) {
    Count(after.tracker, m, t) + One(world.wrappers, w, m, t) + KeptFor(world.keepers, m, t)
    == Count(world.tracker, m, t) + One(after.wrappers, w, m, t) + KeptFor(after.keepers, m, t)
  }

  /** Balanced books stay balanced when every entry does. */
  lemma BalancedAfter(world: World, after: World, w: WrapperId)
    requires Balanced(world) && world.wrappers - {w} == after.wrappers - {w}
    ensures Balanced(after) <==> forall m, t :: EntryBalances(world, after, w, m, t)
  {
    hide Grants, One, KeptFor, Count;
    forall m, t
      ensures EntryBalances(world, after, w, m, t) <==>
        Count(after.tracker, m, t) == |Grants(after.wrappers, m, t)| + KeptFor(after.keepers, m, t)
    {
      GrantsChange(world.wrappers, after.wrappers, w, m, t);
      assert Count(world.tracker, m, t) == |Grants(world.wrappers, m, t)| + KeptFor(world.keepers, m, t);
    }
  }

  // ----- How the tracker changes

  /** Every lock stays registered, with its kind and its operations, and a new one has none. */
  ghost predicate EntriesKept(s: TrackerState, s': TrackerState) {
    && (forall n :: n in s.table ==>
          && n in s'.table
          && s'.table[n].lock.kind == s.table[n].lock.kind
          && s'.table[n].pending == s.table[n].pending)
    && (forall n :: n in s'.table && n !in s.table ==> s'.table[n].pending == [])
  }

  ghost predicate KindsKept(s: TrackerState, s': TrackerState) {
    forall n :: n in s.table && n in s'.table ==> s'.table[n].lock.kind == s.table[n].lock.kind
  }

  /** An acquisition that converts nothing: one more hold if granted, otherwise no change. */
  lemma AcquireEffect(s: TrackerState, t: ThreadId, m: MutexId, request: LockType)
    requires Inv(s) && !Converts(s, t, m, request)
    ensures var (s', answer) := TryAcquire(s, t, m, request);
      && Inv(s') && EntriesKept(s, s') && s'.scheduled == s.scheduled
      && (answer == Granted ==> Gained(s, s', t, m, Count(s, m, t) + 1))
      && (answer == Granted && request == Write ==> s'.table[m].lock.kind == Write)
      && (answer != Granted ==> s' == s)
  {
    hide Inv, TryAcquire, EntriesKept, Gained;
    GrantedWhen(s, t, m, request);
    TryAcquireKeepsInv(s, t, m, request);
    if TryAcquire(s, t, m, request).1 == Granted {
      GrantMeansOwnership(s, t, m, request);
      GrantKeepsEntries(s, t, m, request);
    } else {
      RefusedQuietly(s, t, m, request);
    }
  }

  lemma RefusedQuietly(s: TrackerState, t: ThreadId, m: MutexId, request: LockType)
    requires Inv(s) && !Converts(s, t, m, request) && !Grantable(s, t, m, request)
    ensures TryAcquire(s, t, m, request).0 == s && EntriesKept(s, s)
  {
    hide Inv;
  }

  lemma GrantKeepsEntries(s: TrackerState, t: ThreadId, m: MutexId, request: LockType)
    requires Inv(s) && !Converts(s, t, m, request) && Grantable(s, t, m, request)
    ensures var s' := TryAcquire(s, t, m, request).0;
      EntriesKept(s, s') && s'.scheduled == s.scheduled
  {
    hide LockOk, Settle, Install, Gained;
    if m in s.table {
      var e := s.table[m].(lock := s.table[m].lock.AcquireLock(t, request, s.clock));
      AcquiredIsOk(s.table[m].lock, t, request, s.clock);
      GrantInstalls(s, t, m, request, e);
      InstallSchedulesNothing(s, t, m, request, e);
    } else {
      FirstHoldIsOk(t, request, s.clock);
      GrantInstalls(s, t, m, request, FirstHold(t, request, s.clock));
      InstallSchedulesNothing(s, t, m, request, FirstHold(t, request, s.clock));
    }
    hide Inv;
  }

  /** The last hold of the last owner, with operations waiting. */
  predicate Defers(s: TrackerState, t: ThreadId, m: MutexId) {
    m in s.table && s.table[m].lock.owners.Keys == {t} && Count(s, m, t) == 1 && s.table[m].pending != []
  }

  /** A release takes one hold from the thread, if it has any, and nothing from anybody else, unless
      it leaves the lock to its operations. Only a lock without operations goes. */
  lemma ReleaseEffect(s: TrackerState, t: ThreadId, m: MutexId)
    requires Inv(s)
    ensures var s' := Release(s, t, m);
      && Inv(s') && KindsKept(s, s')
      && (Defers(s, t, m) ==> s' == s.(scheduled := s.scheduled + [m]))
      && (!Defers(s, t, m) ==>
            && s'.scheduled == s.scheduled
            && Count(s', m, t) == (if Count(s, m, t) == 0 then 0 else Count(s, m, t) - 1)
            && (forall n, u :: n != m || u != t ==> Count(s', n, u) == Count(s, n, u)))
      && (forall n :: n in s.table && s.table[n].pending != [] ==>
            n in s'.table && s'.table[n].pending == s.table[n].pending)
  {
    hide Inv, Erase, LockState.RemoveOwnership;
    ReleaseKeepsInv(s, t, m);
    if m in s.table {
      ReleaseCases(s, t, m);
      RegisteredIsOk(s, m);
      if s.table[m].lock.owners.Keys == {t} && Count(s, m, t) == 1 {
        EraseEffect(s, t, m);
      } else {
        LessEffect(s, t, m);
      }
      hide Release, KindsKept;
    }
  }

  lemma EraseEffect(s: TrackerState, t: ThreadId, m: MutexId)
    requires m in s.table && s.table[m].lock.owners.Keys == {t}
    ensures var s' := Erase(s, t, m);
      && KindsKept(s, s') && KindsKept(s, s) && s'.scheduled == s.scheduled && s'.table == s.table - {m}
      && (forall n, u :: n != m || u != t ==> Count(s', n, u) == Count(s, n, u))
  {
    hide Unlisted;
    assert forall u :: u != t ==> u !in s.table[m].lock.owners.Keys;
  }

  lemma LessEffect(s: TrackerState, t: ThreadId, m: MutexId)
    requires m in s.table
    ensures var s' := s.(table := s.table[m := s.table[m].(lock := s.table[m].lock.RemoveOwnership(t))]);
      && KindsKept(s, s')
      && Count(s', m, t) == (if Count(s, m, t) <= 1 then 0 else Count(s, m, t) - 1)
      && (forall n, u :: n != m || u != t ==> Count(s', n, u) == Count(s, n, u))
      && (forall n :: n in s.table ==> s'.table[n].pending == s.table[n].pending)
  {
    hide LockState.RemoveOwnership;
  }

  lemma ReleaseByStranger(s: TrackerState, t: ThreadId, m: MutexId)
    requires Inv(s) && m in s.table && t !in s.table[m].lock.owners
    ensures Release(s, t, m) == s
  {
    ReleaseCases(s, t, m);
    assert s.table[m := s.table[m]] == s.table;
    assert s.table[m].lock.owners.Keys != {t};
    hide Release, Inv;
  }

  lemma ReleasesNothing(s: TrackerState, t: ThreadId, m: MutexId)
    requires Inv(s) && (m !in s.table || t !in s.table[m].lock.owners)
    ensures Release(s, t, m) == s
  {
    if m in s.table { ReleaseByStranger(s, t, m); }
  }

  // ----- Calls that end with a hold too few

  /** The calls scheduled nothing, one task or two, and gained `t` too few holds of `m` for a wrapper
      gained (`won` is 1) or not, even with a lock kept. */
  ghost predicate Lost(s: TrackerState, s': TrackerState, t: ThreadId, m: MutexId, won: nat) {
    || (s'.scheduled == s.scheduled && Count(s', m, t) < Count(s, m, t) + won)
    || (s'.scheduled == s.scheduled + [m] && Count(s', m, t) < Count(s, m, t) + won + 1)
    || s'.scheduled == s.scheduled + [m] + [m]
  }

  /** A conversion ends with a hold too few whatever its answer. */
  lemma ConversionLoses(s: TrackerState, t: ThreadId, m: MutexId)
    requires Inv(s) && Converts(s, t, m, Write)
    ensures var (s', answer) := TryAcquire(s, t, m, Write);
      && answer != MustWait
      && (s'.scheduled == s.scheduled || s'.scheduled == s.scheduled + [m])
      && Lost(s, s', t, m, if answer == Granted then 1 else 0)
  {
    GrantedWhen(s, t, m, Write);
    RegisteredIsOk(s, m);
    if Grantable(s, t, m, Write) {
      ConversionInstalls(s, t, m);
      InstallSchedulesNothing(Erase(s, t, m), t, m, Write, FirstHold(t, Write, s.clock));
      GrantMeansOwnership(s, t, m, Write);
    } else {
      ConversionRefused(s, t, m);
    }
    hide TryAcquire, Release, Inv, Settle, Install, Unlisted;
  }

  /** The conversion after a wait releases before it acquires: on a registered mutex that leaves the
      thread with too few holds. */
  lemma ReleaseAndWriteLoses(s: TrackerState, t: ThreadId, m: MutexId)
    requires Inv(s) && m in s.table
    ensures var (s', answer) := TryAcquire(Release(s, t, m), t, m, Write);
      && Lost(s, s', t, m, if answer != Refused then 1 else 0)
      && |s.scheduled| <= |Release(s, t, m).scheduled| <= |s'.scheduled|
  {
    hide TryAcquire, Release, Inv, Gained;
    ReleaseEffect(s, t, m);
    RegisteredIsOk(s, m);
    var s1 := Release(s, t, m);
    if t !in s.table[m].lock.owners {
      ReleaseByStranger(s, t, m);
      GrantedWhen(s, t, m, Write);
      AcquireEffect(s, t, m, Write);
    } else if Converts(s1, t, m, Write) {
      ConversionLoses(s1, t, m);
    } else {
      AcquireEffect(s1, t, m, Write);
      var (s', answer) := TryAcquire(s1, t, m, Write);
      if answer == Granted { GainedCount(s1, s', t, m, Count(s1, m, t) + 1); }
    }
  }

  lemma GainedCount(s: TrackerState, s': TrackerState, t: ThreadId, m: MutexId, n: nat)
    requires Gained(s, s', t, m, n)
    ensures Count(s', m, t) == n
  {
  }

  /** Too few holds never leave good books. */
  lemma LostIsNotGood(world: World, after: World, w: WrapperId, t: ThreadId, m: MutexId, won: nat)
    requires Good(world) && world.wrappers - {w} == after.wrappers - {w}
    requires One(after.wrappers, w, m, t) == One(world.wrappers, w, m, t) + won
    requires Lost(world.tracker, after.tracker, t, m, won)
    requires |after.tracker.scheduled| == |world.tracker.scheduled| ==> after.keepers == world.keepers
    requires |after.tracker.scheduled| > |world.tracker.scheduled| ==> after.keepers == world.keepers[m := t]
    ensures !Good(after)
  {
    hide Inv, AllSound, Balanced, Count, One;
    var scheduled := world.tracker.scheduled;
    BalancedAfter(world, after, w);
    if after.tracker.scheduled == scheduled + [m] + [m] {
      assert after.tracker.scheduled[|scheduled|] == after.tracker.scheduled[|scheduled| + 1];
    } else if after.tracker.scheduled == scheduled + [m] && m in world.keepers {
      assert m in Elems(scheduled);
      var i :| 0 <= i < |scheduled| && scheduled[i] == m;
      assert after.tracker.scheduled[i] == after.tracker.scheduled[|scheduled|];
    } else {
      assert !EntryBalances(world, after, w, m, t);
    }
  }

  // ----- Event by event

  /** The books balance again exactly if every entry does and the kept locks are in order. */
  lemma GoodAfter(world: World, after: World, w: WrapperId)
    requires Good(world) && world.wrappers - {w} == after.wrappers - {w}
    requires Inv(after.tracker) && AllSound(after.wrappers)
    ensures Good(after) <==>
      && KeepersOk(after.tracker, after.keepers)
      && forall m, t :: EntryBalances(world, after, w, m, t)
  {
    hide Inv, AllSound, KeepersOk, Balanced, EntryBalances;
    BalancedAfter(world, after, w);
  }

  lemma KeepersStay(s: TrackerState, s': TrackerState, keepers: map<MutexId, ThreadId>)
    requires KeepersOk(s, keepers) && s'.scheduled == s.scheduled
    requires forall n :: n in s.table && s.table[n].pending != [] ==> n in s'.table && s'.table[n].pending != []
    ensures KeepersOk(s', keepers)
  {
    hide NoDup, Elems;
  }

  /** One attempt to acquire for wrapper `w`, whose result says granted or, wrongly, waiting. */
  ghost predicate Attempts(world: World, after: World, w: WrapperId, t: ThreadId, m: MutexId, request: LockType) {
    && after.tracker == TryAcquire(world.tracker, t, m, request).0
    && after.keepers == Keepers(world, Acquiring(t, m, request), after.tracker.scheduled)
    && world.wrappers - {w} == after.wrappers - {w}
    && w in after.wrappers && after.wrappers[w].thread == t && after.wrappers[w].m == m
    && AllSound(after.wrappers)
    && (w in world.wrappers ==> world.wrappers[w].result != Success)
    && var answer := TryAcquire(world.tracker, t, m, request).1;
      && (answer == Granted ==> after.wrappers[w].result == Success)
      && (answer == Refused ==> after.wrappers[w].result != Success)
  }

  /** An attempt keeps the books balanced exactly when it converts nothing and is not taken for a
      success while it is told to wait. */
  lemma AttemptBalance(world: World, after: World, w: WrapperId, t: ThreadId, m: MutexId, request: LockType)
    requires Good(world) && Attempts(world, after, w, t, m, request)
    ensures Good(after) <==>
      && !Converts(world.tracker, t, m, request)
      && (TryAcquire(world.tracker, t, m, request).1 == MustWait ==> after.wrappers[w].result != Success)
  {
    hide TryAcquire, Inv, KeepersOk, Balanced, AllSound, EntriesKept, Gained, EntryBalances;
    var s := world.tracker;
    if Converts(s, t, m, request) {
      ConversionLoses(s, t, m);
      LostIsNotGood(world, after, w, t, m, One(after.wrappers, w, m, t));
    } else {
      AcquireEffect(s, t, m, request);
      EntriesKeepKeepers(s, after.tracker, world.keepers);
      GoodAfter(world, after, w);
      AttemptEntries(world, after, w, t, m, request);
    }
  }

  lemma EntriesKeepKeepers(s: TrackerState, s': TrackerState, keepers: map<MutexId, ThreadId>)
    requires KeepersOk(s, keepers) && s'.scheduled == s.scheduled && EntriesKept(s, s')
    ensures KeepersOk(s', keepers)
  {
    KeepersStay(s, s', keepers);
  }

  lemma AttemptEntries(world: World, after: World, w: WrapperId, t: ThreadId, m: MutexId, request: LockType)
    requires Inv(world.tracker) && Attempts(world, after, w, t, m, request) && !Converts(world.tracker, t, m, request)
    requires after.keepers == world.keepers
    ensures (forall n, u :: EntryBalances(world, after, w, n, u)) <==>
      (TryAcquire(world.tracker, t, m, request).1 == MustWait ==> after.wrappers[w].result != Success)
  {
    hide TryAcquire, Inv, AllSound, EntriesKept;
    AcquireEffect(world.tracker, t, m, request);
    var answer := TryAcquire(world.tracker, t, m, request).1;
    if answer == MustWait && after.wrappers[w].result == Success {
      assert !EntryBalances(world, after, w, m, t);
    }
  }

  lemma ConstructBalance(world: World, w: WrapperId, a: Arguments)
    requires Good(world) && Enabled(world, Constructing(w, a))
    ensures Good(Happen(world, Constructing(w, a))) <==> Fair(world, Constructing(w, a))
  {
    hide TryAcquire, Inv, KeepersOk, Balanced, Orphaned;
    var after := Happen(world, Constructing(w, a));
    assert world.wrappers - {w} == after.wrappers - {w};
    if a.Complete() {
      AttemptBalance(world, after, w, a.thread, a.m, a.request);
    } else {
      SameTracker(world, after, w);
    }
  }

  /** An event that touches one wrapper that neither was nor is successful. */
  lemma SameTracker(world: World, after: World, w: WrapperId)
    requires Good(world) && after.tracker == world.tracker && after.keepers == world.keepers
    requires world.wrappers - {w} == after.wrappers - {w} && AllSound(after.wrappers)
    requires forall m, t :: One(world.wrappers, w, m, t) == One(after.wrappers, w, m, t)
    ensures Good(after)
  {
    hide Inv, KeepersOk, Balanced, AllSound, One;
    GoodAfter(world, after, w);
  }

  /** The retry after a wait. It balances exactly when the answer of the wait still holds. */
  lemma RetryBalance(world: World, w: WrapperId)
    requires Good(world) && Enabled(world, Retrying(w))
    ensures Good(Happen(world, Retrying(w))) <==> Fair(world, Retrying(w))
  {
    hide TryAcquire, Release, Inv, KeepersOk, Balanced, Orphaned;
    var after, x := Happen(world, Retrying(w)), world.wrappers[w];
    assert world.wrappers - {w} == after.wrappers - {w};
    match x.phase.answer
    case Cannot => SameTracker(world, after, w);
    case Avail =>
      AttemptBalance(world, after, w, x.thread, x.m, x.request);
      GrantedWhen(world.tracker, x.thread, x.m, x.request);
    case NeedToConvert => ConvertBalance(world, w);
  }

  /** A conversion after the wait balances exactly when there is nothing left to release. */
  lemma ConvertBalance(world: World, w: WrapperId)
    requires Good(world) && Enabled(world, Retrying(w)) && world.wrappers[w].phase.answer == NeedToConvert
    ensures Good(Happen(world, Retrying(w))) <==> world.wrappers[w].m !in world.tracker.table
  {
    if world.wrappers[w].m in world.tracker.table {
      ConvertRegistered(world, w);
    } else {
      ConvertFree(world, w);
    }
    hide Good, Happen;
  }

  lemma ConvertRegistered(world: World, w: WrapperId)
    requires Good(world) && Enabled(world, Retrying(w)) && world.wrappers[w].phase.answer == NeedToConvert
    requires world.wrappers[w].m in world.tracker.table
    ensures !Good(Happen(world, Retrying(w)))
  {
    hide TryAcquire, Release, Inv, KeepersOk, Balanced, Orphaned, Lost;
    var s, after, x := world.tracker, Happen(world, Retrying(w)), world.wrappers[w];
    assert world.wrappers - {w} == after.wrappers - {w};
    ReleaseAndWriteLoses(s, x.thread, x.m);
    LostIsNotGood(world, after, w, x.thread, x.m, One(after.wrappers, w, x.m, x.thread));
  }

  lemma ConvertFree(world: World, w: WrapperId)
    requires Good(world) && Enabled(world, Retrying(w)) && world.wrappers[w].phase.answer == NeedToConvert
    requires world.wrappers[w].m !in world.tracker.table
    ensures Good(Happen(world, Retrying(w)))
  {
    hide TryAcquire, Release, Inv, KeepersOk, Balanced, Orphaned;
    var s, after, x := world.tracker, Happen(world, Retrying(w)), world.wrappers[w];
    assert world.wrappers - {w} == after.wrappers - {w};
    ReleasesNothing(s, x.thread, x.m);
    AttemptBalance(world, after, w, x.thread, x.m, Write);
    GrantedWhen(s, x.thread, x.m, Write);
  }

  /** In balanced books the lock of a successful wrapper is registered and owned by its thread. */
  lemma HeldIsRegistered(world: World, w: WrapperId)
    requires Balanced(world) && w in world.wrappers && world.wrappers[w].result == Success
    ensures var x := world.wrappers[w]; x.m in world.tracker.table && x.thread in world.tracker.table[x.m].lock.owners
  {
    var x := world.wrappers[w];
    assert w in Grants(world.wrappers, x.m, x.thread);
    assert Count(world.tracker, x.m, x.thread) > 0;
  }

  /** Likewise the lock a thread keeps for its operations. */
  lemma KeeperOwns(world: World, m: MutexId)
    requires Balanced(world)
    ensures m in world.keepers ==>
      m in world.tracker.table && world.keepers[m] in world.tracker.table[m].lock.owners.Keys
  {
    assert m in world.keepers ==> Count(world.tracker, m, world.keepers[m]) > 0;
  }

  lemma DestroyBalance(world: World, w: WrapperId, u: ThreadId)
    requires Good(world) && Enabled(world, Destroying(w, u))
    ensures Good(Happen(world, Destroying(w, u))) <==> Fair(world, Destroying(w, u))
  {
    hide Release, Inv, KeepersOk, Balanced, Orphaned, AllSound;
    var s, x, after := world.tracker, world.wrappers[w], Happen(world, Destroying(w, u));
    assert world.wrappers - {w} == after.wrappers - {w};
    SoundWithout(world.wrappers, w);
    if x.result == Success {
      HeldIsRegistered(world, w);
      ReleaseEffect(s, u, x.m);
      if u != x.thread {
        GoodAfter(world, after, w);
        assert !Defers(s, u, x.m) by { assert x.thread in s.table[x.m].lock.owners.Keys; }
        assert !EntryBalances(world, after, w, x.m, x.thread);
      } else if Defers(s, u, x.m) {
        DeferringBalances(world, after, w);
      } else {
        ReleasingBalances(world, after, w);
      }
    } else {
      SameTracker(world, after, w);
    }
  }

  lemma SoundWithout(ws: map<WrapperId, Wrapper>, w: WrapperId)
    requires AllSound(ws)
    ensures AllSound(ws - {w})
  {
  }

  /** A lock whose last hold is a wrapper's is not kept by anybody. */
  lemma NotYetKept(world: World, w: WrapperId)
    requires Balanced(world) && w in world.wrappers && world.wrappers[w].result == Success
    requires Defers(world.tracker, world.wrappers[w].thread, world.wrappers[w].m)
    ensures world.wrappers[w].m !in world.keepers
  {
    var (m, t) := (world.wrappers[w].m, world.wrappers[w].thread);
    KeeperOwns(world, m);
    assert w in Grants(world.wrappers, m, t);
    assert Count(world.tracker, m, t) == |Grants(world.wrappers, m, t)| + KeptFor(world.keepers, m, t);
    hide Balanced;
  }

  /** A last hold left to the operations: the wrapper's hold becomes the keeper's. */
  lemma DeferringBalances(world: World, after: World, w: WrapperId)
    requires Good(world) && w in world.wrappers && world.wrappers[w].result == Success
    requires after.wrappers == world.wrappers - {w}
    requires var (m, t) := (world.wrappers[w].m, world.wrappers[w].thread);
      && Defers(world.tracker, t, m)
      && after.tracker == world.tracker.(scheduled := world.tracker.scheduled + [m])
      && after.keepers == world.keepers[m := t]
    ensures Good(after)
  {
    hide AllSound, Balanced, TableOk, OwnedAreListed, VectorOk, KeepersOk;
    var (m, t) := (world.wrappers[w].m, world.wrappers[w].thread);
    assert world.wrappers - {w} == after.wrappers - {w};
    SoundWithout(world.wrappers, w);
    NotYetKept(world, w);
    KeeperJoins(world.tracker, world.keepers, m, t);
    assert Inv(after.tracker);
    GoodAfter(world, after, w);
    DeferringEntries(world, after, w, m, t);
  }

  lemma DeferringEntries(world: World, after: World, w: WrapperId, m: MutexId, t: ThreadId)
    requires w in world.wrappers && Holds(world.wrappers[w], m, t) && after.wrappers == world.wrappers - {w}
    requires after.tracker.table == world.tracker.table && m !in world.keepers && after.keepers == world.keepers[m := t]
    ensures forall n, u :: EntryBalances(world, after, w, n, u)
  {
  }

  lemma KeeperJoins(s: TrackerState, keepers: map<MutexId, ThreadId>, m: MutexId, t: ThreadId)
    requires KeepersOk(s, keepers) && m !in keepers && m in s.table && s.table[m].pending != []
    ensures KeepersOk(s.(scheduled := s.scheduled + [m]), keepers[m := t])
  {
    assert m !in Elems(s.scheduled);
    assert forall n :: n in s.scheduled <==> n in Elems(s.scheduled);
  }

  /** Any other release by the wrapper's own thread. */
  lemma ReleasingBalances(world: World, after: World, w: WrapperId)
    requires Good(world) && w in world.wrappers && world.wrappers[w].result == Success
    requires after.wrappers == world.wrappers - {w} && after.keepers == world.keepers
    requires var (m, t) := (world.wrappers[w].m, world.wrappers[w].thread);
      after.tracker == Release(world.tracker, t, m) && !Defers(world.tracker, t, m)
    ensures Good(after)
  {
    hide Release, Inv, KeepersOk, Balanced, AllSound, LockOk, KindsKept, EntryBalances;
    var (m, t) := (world.wrappers[w].m, world.wrappers[w].thread);
    assert world.wrappers - {w} == after.wrappers - {w};
    SoundWithout(world.wrappers, w);
    ReleaseEffect(world.tracker, t, m);
    KeepersStay(world.tracker, after.tracker, world.keepers);
    GoodAfter(world, after, w);
    ReleasingEntries(world, after, w);
  }

  lemma ReleasingEntries(world: World, after: World, w: WrapperId)
    requires Inv(world.tracker) && Balanced(world) && w in world.wrappers && world.wrappers[w].result == Success
    requires after.wrappers == world.wrappers - {w} && after.keepers == world.keepers
    requires var (m, t) := (world.wrappers[w].m, world.wrappers[w].thread);
      after.tracker == Release(world.tracker, t, m) && !Defers(world.tracker, t, m)
    ensures forall n, u :: EntryBalances(world, after, w, n, u)
  {
    hide Release, Inv, Balanced, KindsKept;
    HeldIsRegistered(world, w);
    RegisteredIsOk(world.tracker, world.wrappers[w].m);
    ReleaseEffect(world.tracker, world.wrappers[w].thread, world.wrappers[w].m);
  }

  lemma MoveBalance(world: World, event: Event)
    requires Good(world) && Enabled(world, event) && (event.MoveConstructing? || event.MoveAssigning?)
    ensures Good(Happen(world, event)) <==> Fair(world, event)
  {
    hide Inv, KeepersOk;
    var ws := world.wrappers;
    var after := Happen(world, event);
    forall n, v { GrantsMove(ws, event.src, event.dst, n, v); }
    if event.dst in ws && ws[event.dst].result == Success {
      var y := ws[event.dst];
      assert One(ws, event.dst, y.m, y.thread) == 1;
      assert Count(after.tracker, y.m, y.thread)
        != |Grants(after.wrappers, y.m, y.thread)| + KeptFor(after.keepers, y.m, y.thread);
    }
  }

  /** Operations may be queued at any time. */
  lemma QueueBalance(world: World, m: MutexId, op: Operation)
    requires Good(world)
    ensures Good(Happen(world, Calling(AddingOperation(m, op))))
  {
    hide AllSound, Inv, KeepersOk, Grants, KeptFor;
    ApplyKeepsInv(world.tracker, AddingOperation(m, op));
    AddingChangesNoCount(world.tracker, m, op);
    KeepersStay(world.tracker, AddOperation(world.tracker, m, op).0, world.keepers);
    hide AddOperation, Count;
  }

  lemma AddingChangesNoCount(s: TrackerState, m: MutexId, op: Operation)
    ensures var s' := AddOperation(s, m, op).0;
      && s'.scheduled == s.scheduled
      && (forall n, t :: Count(s', n, t) == Count(s, n, t))
      && (forall n :: n in s.table && s.table[n].pending != [] ==> n in s'.table && s'.table[n].pending != [])
  {
  }

  /** A background task keeps the books balanced exactly when no successful wrapper is alive on the
      mutex it erases. */
  lemma TaskBalance(world: World, u: ThreadId, i: nat, force: Force)
    requires Good(world) && Enabled(world, Calling(RunningTask(u, i, force)))
    ensures Good(Happen(world, Calling(RunningTask(u, i, force))))
            <==> !HasHolder(world.wrappers, world.tracker.scheduled[i])
  {
    hide AllSound, Inv, Erase, Runs, Orphaned, Balanced;
    var s, m := world.tracker, world.tracker.scheduled[i];
    var after := Happen(world, Calling(RunningTask(u, i, force)));
    ApplyKeepsInv(s, RunningTask(u, i, force));
    assert m in Elems(s.scheduled);
    KeeperOwns(world, m);
    RegisteredIsOk(s, m);
    TaskErases(s, u, i, force);
    KeeperLeaves(s, after.tracker, world.keepers, i);
    hide KeepersOk, Apply;
    TaskEntries(world, after, m);
  }

  lemma TaskErases(s: TrackerState, u: ThreadId, i: nat, force: Force)
    requires i < |s.scheduled| && s.scheduled[i] in s.table && s.scheduled[i] != 0
    ensures var s' := Apply(s, RunningTask(u, i, force)).0;
      s'.table == s.table - {s.scheduled[i]} && s'.scheduled == s.scheduled[..i] + s.scheduled[i + 1..]
  {
    hide Unlisted, Runs;
  }

  lemma KeeperLeaves(s: TrackerState, s': TrackerState, keepers: map<MutexId, ThreadId>, i: nat)
    requires KeepersOk(s, keepers) && i < |s.scheduled|
    requires s'.table == s.table - {s.scheduled[i]} && s'.scheduled == s.scheduled[..i] + s.scheduled[i + 1..]
    ensures KeepersOk(s', keepers - {s.scheduled[i]})
  {
    var m := s.scheduled[i];
    forall n ensures n in Elems(s'.scheduled) <==> n in keepers && n != m {
      assert n in Elems(s.scheduled) <==> n in keepers;
      if n in s.scheduled && n != m {
        var j :| 0 <= j < |s.scheduled| && s.scheduled[j] == n;
        assert s'.scheduled[if j < i then j else j - 1] == n;
      }
    }
  }

  lemma TaskEntries(world: World, after: World, m: MutexId)
    requires Balanced(world)
    requires after.wrappers == world.wrappers && after.keepers == world.keepers - {m}
    requires after.tracker.table == world.tracker.table - {m}
    ensures Balanced(after) <==> !HasHolder(world.wrappers, m)
  {
    var ws := world.wrappers;
    if w :| w in ws && ws[w].result == Success && ws[w].m == m {
      assert w in Grants(ws, m, ws[w].thread);
      assert Count(after.tracker, m, ws[w].thread) == 0;
    }
    if !HasHolder(ws, m) {
      forall n, t ensures Count(after.tracker, n, t) == |Grants(ws, n, t)| + KeptFor(after.keepers, n, t) {
        assert Count(world.tracker, n, t) == |Grants(ws, n, t)| + KeptFor(world.keepers, n, t);
        if n == m { assert Grants(ws, m, t) == {}; }
      }
    }
  }

  /** Nothing about the locks or the wrappers changed. */
  lemma SameBooks(world: World, after: World)
    requires Good(world) && Inv(after.tracker)
    requires after.tracker.table == world.tracker.table && after.tracker.scheduled == world.tracker.scheduled
    requires after.wrappers == world.wrappers && after.keepers == world.keepers
    ensures Good(after)
  {
    hide Inv, AllSound, Grants, NoDup, Elems;
  }

  /** An acquisition beside the wrappers keeps the books balanced exactly when it acquires nothing, or
      converts the lock of the only reader: then the one hold counted is again one hold. */
  lemma DirectAcquireBalance(world: World, t: ThreadId, m: MutexId, request: LockType)
    requires Good(world) && Enabled(world, Calling(Acquiring(t, m, request)))
    ensures Good(Happen(world, Calling(Acquiring(t, m, request)))) <==> Harmless(world, Acquiring(t, m, request))
  {
    hide TryAcquire, Inv, KeepersOk, Balanced, AllSound, EntriesKept, Gained, EntryBalances, Orphaned, Converted;
    var s, after := world.tracker, Happen(world, Calling(Acquiring(t, m, request)));
    GrantedWhen(s, t, m, request);
    if !Converts(s, t, m, request) {
      AcquireEffect(s, t, m, request);
      if Grantable(s, t, m, request) { OneHoldMore(world, after, t, m); } else { SameBooks(world, after); }
    } else if Grantable(s, t, m, request) {
      ConversionBalances(world, after, t, m);
    } else {
      ConversionLoses(s, t, m);
      LostIsNotGood(world, after, 0, t, m, 0);
    }
  }

  lemma OneHoldMore(world: World, after: World, t: ThreadId, m: MutexId)
    requires Balanced(world) && after.wrappers == world.wrappers && after.keepers == world.keepers
    requires Gained(world.tracker, after.tracker, t, m, Count(world.tracker, m, t) + 1)
    ensures !Balanced(after)
  {
    hide Balanced, Grants;
    BalancedAfter(world, after, 0);
    assert !EntryBalances(world, after, 0, m, t);
  }

  lemma ConversionBalances(world: World, after: World, t: ThreadId, m: MutexId)
    requires Good(world) && Converts(world.tracker, t, m, Write) && Grantable(world.tracker, t, m, Write)
    requires after.tracker == TryAcquire(world.tracker, t, m, Write).0
    requires after.keepers == Keepers(world, Acquiring(t, m, Write), after.tracker.scheduled)
    requires after.wrappers == world.wrappers
    ensures Good(after)
  {
    hide TryAcquire, Inv, KeepersOk, Balanced, AllSound, Grants;
    var s := world.tracker;
    GrantedWhen(s, t, m, Write);
    ConversionGrant(s, t, m);
    ConversionInstalls(s, t, m);
    InstallSchedulesNothing(Erase(s, t, m), t, m, Write, FirstHold(t, Write, s.clock));
    KeepersStay(s, after.tracker, world.keepers);
    hide SameButGuards, Settle, Install, Erase;
    BalancedAfter(world, after, 0);
  }

  /** A release beside the wrappers keeps them balanced exactly when the thread owns nothing there. */
  lemma DirectReleaseBalance(world: World, t: ThreadId, m: MutexId)
    requires Good(world) && Enabled(world, Calling(Releasing(t, m)))
    ensures Good(Happen(world, Calling(Releasing(t, m)))) <==> Harmless(world, Releasing(t, m))
  {
    hide Release, Inv, KeepersOk, Balanced, AllSound, KindsKept, Orphaned;
    var s, after := world.tracker, Happen(world, Calling(Releasing(t, m)));
    if m in s.table && t in s.table[m].lock.owners {
      ReleaseEffect(s, t, m);
      OwnersCount(s, t, m);
      LostIsNotGood(world, after, 0, t, m, 0);
    } else {
      ReleasesNothing(s, t, m);
      SameBooks(world, after);
    }
  }

  /** A forced release keeps them balanced exactly when there is nothing to release. */
  lemma ForcedReleaseBalance(world: World, t: ThreadId, m: MutexId)
    requires Good(world) && Enabled(world, Calling(ForcedReleasing(t, m)))
    ensures Good(Happen(world, Calling(ForcedReleasing(t, m)))) <==> Harmless(world, ForcedReleasing(t, m))
  {
    hide Inv, KeepersOk, Balanced, AllSound, Orphaned, Unlisted;
    var s, after := world.tracker, Happen(world, Calling(ForcedReleasing(t, m)));
    ApplyKeepsInv(s, ForcedReleasing(t, m));
    if m in s.table {
      RegisteredIsOk(s, m);
      var u :| u in s.table[m].lock.owners;
      LostIsNotGood(world, after, 0, u, m, 0);
    } else {
      assert s.table - {m} == s.table;
      SameBooks(world, after);
    }
  }

  lemma CallBalance(world: World, step: Step)
    requires Good(world) && Enabled(world, Calling(step))
    ensures Good(Happen(world, Calling(step))) <==> Harmless(world, step)
  {
    match step
    case Acquiring(t, m, request) => DirectAcquireBalance(world, t, m, request);
    case Releasing(t, m) => DirectReleaseBalance(world, t, m);
    case ForcedReleasing(t, m) => ForcedReleaseBalance(world, t, m);
    case AddingOperation(m, op) => QueueBalance(world, m, op);
    case RunningTask(u, i, force) => TaskBalance(world, u, i, force);
    hide Good, Happen;
  }

  /** The books stay balanced exactly across fair events. */
  lemma ExactlyFairEventsBalance(world: World, event: Event)
    requires Good(world)
    ensures Good(Happen(world, event)) <==> Fair(world, event)
  {
    if Enabled(world, event) {
      match event
      case Constructing(w, a) => ConstructBalance(world, w, a);
      case Looking(w) => LookBalance(world, w);
      case Retrying(w) => RetryBalance(world, w);
      case Destroying(w, u) => DestroyBalance(world, w, u);
      case MoveConstructing(_, _) => MoveBalance(world, event);
      case MoveAssigning(_, _) => MoveBalance(world, event);
      case Calling(step) => CallBalance(world, step);
      hide Good, Happen;
    }
  }

  lemma LookBalance(world: World, w: WrapperId)
    requires Good(world) && Enabled(world, Looking(w))
    ensures Good(Happen(world, Looking(w)))
  {
    hide Inv, KeepersOk, Balanced;
    var after := Happen(world, Looking(w));
    assert world.wrappers - {w} == after.wrappers - {w};
    SameTracker(world, after, w);
  }

  // ----- Whole histories

  ghost predicate FairHistory(events: seq<Event>) {
    forall k :: 0 <= k < |events| ==> Fair(History(events[..k]), events[k])
  }

  lemma {:induction false} FairHistoryPrefix(events: seq<Event>)
    requires FairHistory(events) && events != []
    ensures FairHistory(events[..|events| - 1])
    ensures Fair(History(events[..|events| - 1]), events[|events| - 1])
  {
    hide Fair, History;
    var front := events[..|events| - 1];
    assert forall k :: 0 <= k < |front| ==> front[..k] == events[..k] && front[k] == events[k];
  }

  /** Ownership is conserved: after every fair history, operations and background tasks included,
      the tracker counts for each thread and mutex exactly the live successful wrappers, and one
      hold more for the thread that keeps a lock for its operations. */
  lemma {:induction false} OwnershipIsConserved(events: seq<Event>)
    requires FairHistory(events)
    ensures Good(History(events))
  {
    if events == [] {
      assert forall m, t :: Grants(NOTHING.wrappers, m, t) == {};
    } else {
      hide Good, Fair, Happen, FairHistory;
      FairHistoryPrefix(events);
      OwnershipIsConserved(events[..|events| - 1]);
      ExactlyFairEventsBalance(History(events[..|events| - 1]), events[|events| - 1]);
    }
  }

  lemma FairHistoryOnce(events: seq<Event>)
    requires events != [] && FairHistory(events[..|events| - 1])
    requires Fair(History(events[..|events| - 1]), events[|events| - 1])
    ensures FairHistory(events)
  {
    hide Fair, History;
    var front := events[..|events| - 1];
    forall k | 0 <= k < |events| ensures Fair(History(events[..k]), events[k]) {
      if k < |front| { assert front[..k] == events[..k] && front[k] == events[k]; }
    }
  }

  lemma HistoryPrefix(events: seq<Event>, k: nat)
    requires k < |events|
    ensures History(events[..k + 1]) == Happen(History(events[..k]), events[k])
  {
    assert events[..k + 1][..k] == events[..k];
  }

  /** The fair histories are exactly those whose books are balanced all along. */
  lemma ConservationIsExact(events: seq<Event>)
    ensures (forall k :: 0 <= k <= |events| ==> Good(History(events[..k]))) <==> FairHistory(events)
  {
    hide Good, Fair, Happen, History;
    if FairHistory(events) {
      forall k | 0 <= k <= |events| ensures Good(History(events[..k])) {
        var front := events[..k];
        assert forall j :: 0 <= j < k ==> front[..j] == events[..j] && front[j] == events[j];
        OwnershipIsConserved(front);
      }
    }
    if forall k :: 0 <= k <= |events| ==> Good(History(events[..k])) {
      forall k | 0 <= k < |events| ensures Fair(History(events[..k]), events[k]) {
        HistoryPrefix(events, k);
        ExactlyFairEventsBalance(History(events[..k]), events[k]);
        assert Good(History(events[..k + 1]));
      }
    }
  }

  /** A mutex is registered exactly as long as a successful wrapper on it lives or a background task
      is scheduled for it. */
  lemma RegisteredWhileHeld(events: seq<Event>, m: MutexId)
    requires FairHistory(events)
    ensures var world := History(events);
      m in world.tracker.table <==> HasHolder(world.wrappers, m) || m in world.tracker.scheduled
  {
    hide History, FairHistory;
    OwnershipIsConserved(events);
    var world := History(events);
    assert m in world.tracker.scheduled <==> m in Elems(world.tracker.scheduled);
    if m in world.tracker.table {
      RegisteredIsOk(world.tracker, m);
      var t :| t in world.tracker.table[m].lock.owners;
      assert Count(world.tracker, m, t) > 0;
      if m !in world.keepers {
        assert Grants(world.wrappers, m, t) != {};
        var w :| w in Grants(world.wrappers, m, t);
        assert HasHolder(world.wrappers, m);
      }
    }
    if w :| w in world.wrappers && world.wrappers[w].result == Success && world.wrappers[w].m == m {
      HeldIsRegistered(world, w);
    }
  }
}
