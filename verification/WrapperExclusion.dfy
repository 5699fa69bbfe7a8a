/** Reader/writer exclusion between wrappers, in every fair history. */
module WrapperExclusion {
  import opened LockTypes
  import opened LockData
  import opened TrackerSpec
  import opened TrackerInvariant
  import opened WrapperSpec
  import opened WrapperRuns
  import opened WrapperBooks

  /** Who was granted a write holds a write lock. */
  ghost predicate WritersHoldWriteLocks(world: World) {
    forall w :: w in world.wrappers && world.wrappers[w].result == Success && world.wrappers[w].request == Write ==>
      var m := world.wrappers[w].m;
      m in world.tracker.table && world.tracker.table[m].lock.kind == Write
  }

  /** No write lock becomes another lock. */
  ghost predicate WriteLocksKept(s: TrackerState, s': TrackerState) {
    forall n :: n in s.table && n in s'.table && s.table[n].lock.kind == Write ==> s'.table[n].lock.kind == Write
  }

  lemma SameKinds(s: TrackerState)
    ensures WriteLocksKept(s, s)
    ensures forall t, m :: m !in s.table ==> Release(s, t, m) == s
  {
  }

  lemma TryAcquireKeepsWrites(s: TrackerState, t: ThreadId, m: MutexId, request: LockType)
    requires Inv(s) && (Converts(s, t, m, request) ==> Grantable(s, t, m, request))
    ensures WriteLocksKept(s, TryAcquire(s, t, m, request).0)
  {
    hide Inv, TryAcquire, Gained;
    if Converts(s, t, m, request) {
      RegisteredIsOk(s, m);
      GrantedWhen(s, t, m, Write);
      ConversionGrant(s, t, m);
    } else {
      AcquireEffect(s, t, m, request);
    }
  }

  lemma CallKeepsWrites(world: World, step: Step)
    requires Inv(world.tracker) && Harmless(world, step)
    ensures WriteLocksKept(world.tracker, Apply(world.tracker, step).0)
  {
    hide Inv, TryAcquire, Release, Unlisted, Runs;
    match step
    case Acquiring(t, m, request) => TryAcquireKeepsWrites(world.tracker, t, m, request);
    case Releasing(t, m) => ReleaseKeepsWrites(world.tracker, t, m);
    case _ =>
  }

  /** A fair event never turns a write lock that stays registered into another lock. */
  lemma WriteLocksStay(world: World, event: Event)
    requires Good(world) && Fair(world, event)
    ensures WriteLocksKept(world.tracker, Happen(world, event).tracker)
  {
    hide Inv, TryAcquire, Apply, Orphaned, Keepers, AllSound, WriteLocksKept, KeepersOk, Balanced, Harmless;
    var s := world.tracker;
    SameKinds(s);
    if Enabled(world, event) {
      EventsActAsWrappers(world, event);
      match event
      case Constructing(_, a) =>
        if a.Complete() { TryAcquireKeepsWrites(s, a.thread, a.m, a.request); }
      case Retrying(w) =>
        var x := world.wrappers[w];
        if x.phase.answer == Avail {
          TryAcquireKeepsWrites(s, x.thread, x.m, x.request);
        } else if x.phase.answer == NeedToConvert {
          TryAcquireKeepsWrites(s, x.thread, x.m, Write);
        }
      case Destroying(w, u) =>
        ReleaseKeepsWrites(s, u, world.wrappers[w].m);
      case Calling(step) =>
        CallKeepsWrites(world, step);
      case _ =>
    }
  }

  lemma ReleaseKeepsWrites(s: TrackerState, t: ThreadId, m: MutexId)
    requires Inv(s)
    ensures WriteLocksKept(s, Release(s, t, m))
  {
    hide Inv, Release;
    ReleaseEffect(s, t, m);
  }

  /** A wrapper that a fair event makes successful on a write request has got a write lock. */
  lemma NewWriters(world: World, event: Event)
    requires Good(world) && Fair(world, event) && Enabled(world, event) && (event.Constructing? || event.Retrying?)
    ensures var after := Happen(world, event);
      var x := after.wrappers[event.w];
      x.result == Success && x.request == Write ==>
        x.m in after.tracker.table && after.tracker.table[x.m].lock.kind == Write
  {
    hide TryAcquire, Release, Orphaned, Keepers, Inv, EntriesKept, KeepersOk, Balanced;
    var s := world.tracker;
    match event
    case Constructing(_, a) =>
      if a.Complete() { AcquireEffect(s, a.thread, a.m, a.request); }
    case Retrying(w) =>
      var x := world.wrappers[w];
      assert x.phase.answer == NeedToConvert ==> Release(s, x.thread, x.m) == s by { SameKinds(s); }
      if x.phase.answer != Cannot {
        var request := if x.phase.answer == Avail then x.request else Write;
        AcquireEffect(s, x.thread, x.m, request);
        GrantedWhen(s, x.thread, x.m, request);
      }
  }

  lemma FairEventKeepsWriters(world: World, event: Event)
    requires Good(world) && WritersHoldWriteLocks(world) && Fair(world, event)
    ensures WritersHoldWriteLocks(Happen(world, event))
  {
    ExactlyFairEventsBalance(world, event);
    WriteLocksStay(world, event);
    if Enabled(world, event) && (event.Constructing? || event.Retrying?) { NewWriters(world, event); }
    var after := Happen(world, event);
    forall w | w in after.wrappers && after.wrappers[w].result == Success && after.wrappers[w].request == Write
      ensures var m := after.wrappers[w].m;
        m in after.tracker.table && after.tracker.table[m].lock.kind == Write
    {
      HeldIsRegistered(after, w);
      if !(Enabled(world, event) && (event.Constructing? || event.Retrying?) && event.w == w) {
        OldWriters(world, event, w);
      }
      hide Good, Happen, Fair, Enabled;
    }
  }

  /** Any other successful wrapper was one before, under this name or another. */
  lemma OldWriters(world: World, event: Event, w: WrapperId)
    requires w in Happen(world, event).wrappers && Happen(world, event).wrappers[w].result == Success
    requires !(Enabled(world, event) && (event.Constructing? || event.Retrying?) && event.w == w)
    ensures var x := Happen(world, event).wrappers[w];
      exists v :: v in world.wrappers && world.wrappers[v].result == Success
               && world.wrappers[v].m == x.m && world.wrappers[v].request == x.request
  {
    hide Apply, Keepers, Orphaned, Construct, Retry, RetryCalls;
    var v := if Enabled(world, event) && (event.MoveConstructing? || event.MoveAssigning?) && event.dst == w
             then event.src else w;
    assert v in world.wrappers && world.wrappers[v].result == Success;
  }

  lemma {:induction false} WritersAlwaysHoldWriteLocks(events: seq<Event>)
    requires FairHistory(events)
    ensures WritersHoldWriteLocks(History(events))
  {
    if events != [] {
      hide Good, Fair, Happen, FairHistory, WritersHoldWriteLocks;
      FairHistoryPrefix(events);
      var front := events[..|events| - 1];
      OwnershipIsConserved(front);
      WritersAlwaysHoldWriteLocks(front);
      FairEventKeepsWriters(History(front), events[|events| - 1]);
    }
  }

  /** Reader/writer exclusion, end to end: after every fair history, while a thread has a
      successful wrapper that asked to write, every successful wrapper on that mutex is its own. */
  lemma ReaderWriterExclusion(events: seq<Event>, writer: WrapperId, other: WrapperId)
    requires FairHistory(events)
    requires var ws := History(events).wrappers;
      && writer in ws && ws[writer].result == Success && ws[writer].request == Write
      && other in ws && ws[other].result == Success && ws[other].m == ws[writer].m
    ensures History(events).wrappers[other].thread == History(events).wrappers[writer].thread
  {
    OwnershipIsConserved(events);
    WritersAlwaysHoldWriteLocks(events);
    hide History, FairHistory;
    HeldIsRegistered(History(events), writer);
    HeldIsRegistered(History(events), other);
    RegisteredIsOk(History(events).tracker, History(events).wrappers[writer].m);
  }
}
