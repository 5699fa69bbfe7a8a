/** What callers can see to themselves, before each call, is enough: while no operation is queued, no
    condition on the inside of a constructor is needed for conservation and exclusion. */
module WrapperCallers {
  import opened LockTypes
  import opened LockData
  import opened TrackerSpec
  import opened TrackerInvariant
  import opened WrapperSpec
  import opened WrapperRuns
  import opened WrapperBooks
  import opened WrapperExclusion
  import opened WrapperWaits

  /** `t` holds a lock of `m` that is no write lock. */
  predicate Reads(s: TrackerState, t: ThreadId, m: MutexId) {
    m in s.table && s.table[m].lock.kind != Write && t in s.table[m].lock.owners
  }

  /** What the callers respect: nobody asks to write what it already reads, alone or with others; a
      successful wrapper dies on its own thread and is not assigned over; no operation is queued on a
      registered lock; and no call beside the wrappers acquires or releases anything. When a wait
      ends, and what happens before its retry, is up to nobody. */
  predicate CallerFair(world: World, event: Event) {
    Enabled(world, event) ==>
    var (s, ws) := (world.tracker, world.wrappers);
    match event
    case Constructing(_, a) => a.Complete() && a.request == Write ==> !Reads(s, a.thread, a.m)
    case Destroying(w, u) => ws[w].result == Success ==> u == ws[w].thread
    case MoveAssigning(_, dst) => ws[dst].result != Success
    case Calling(step) => Outside(s, step)
    case _ => true
  }

  predicate Outside(s: TrackerState, step: Step) {
    match step
    case Acquiring(t, m, request) => !Grantable(s, t, m, request) && !Converts(s, t, m, request)
    case Releasing(t, m) => m !in s.table || t !in s.table[m].lock.owners
    case ForcedReleasing(_, m) => m !in s.table
    case AddingOperation(m, _) => m !in s.table
    case RunningTask(_, _, _) => true
  }

  ghost predicate CallerHistory(events: seq<Event>) {
    forall k :: 0 <= k < |events| ==> CallerFair(History(events[..k]), events[k])
  }

  ghost predicate NothingQueued(s: TrackerState) {
    s.scheduled == [] && forall m :: m in s.table ==> s.table[m].pending == []
  }

  predicate LooksAtItsOwn(world: World, w: WrapperId)
    requires w in world.wrappers
  {
    && (w in world.erased || world.wrappers[w].m in world.tracker.table)
    && world.wrappers[w].thread in Seen(world, w).owners
  }

  /** Who waits to write does not own the lock it looks at. */
  ghost predicate StrangersWait(world: World) {
    forall w :: Waits(world, w) && world.wrappers[w].request == Write ==> !LooksAtItsOwn(world, w)
  }

  ghost predicate NoTaskErased(world: World) {
    forall w :: w in world.erased ==> !world.erased[w].ending.ByTask?
  }

  ghost predicate ToldNo(ws: map<WrapperId, Wrapper>) {
    forall w :: w in ws && ws[w].phase.Told? ==> ws[w].phase.answer == Cannot
  }

  /** Nothing is queued, so that every wait can only end in vain. */
  ghost predicate Quiet(world: World) {
    && WaitInv(world)
    && NothingQueued(world.tracker)
    && StrangersWait(world)
    && NoTaskErased(world)
    && ToldNo(world.wrappers)
  }

  // ----- One call on the tracker

  lemma ReleaseQueuesNothing(s: TrackerState, t: ThreadId, m: MutexId)
    requires Inv(s) && NothingQueued(s)
    ensures NothingQueued(Release(s, t, m))
  {
    if m in s.table { ReleaseCases(s, t, m); }
    hide Inv, LockState.RemoveOwnership, LockState.ShouldRemove, LockState.AddOwnership, Unlisted;
  }

  /** The calls such histories make. */
  predicate Quietly(s: TrackerState, step: Step) {
    match step
    case Acquiring(t, m, request) => !Converts(s, t, m, request)
    case Releasing(_, _) => true
    case ForcedReleasing(_, _) => true
    case AddingOperation(m, _) => m !in s.table
    case RunningTask(_, _, _) => false
  }

  lemma CallQueuesNothing(s: TrackerState, step: Step)
    requires Inv(s) && NothingQueued(s) && Quietly(s, step)
    ensures NothingQueued(Apply(s, step).0)
  {
    hide Inv, TryAcquire, Release, Unlisted, Gained;
    match step
    case Acquiring(t, m, request) => AcquireEffect(s, t, m, request);
    case Releasing(t, m) => ReleaseQueuesNothing(s, t, m);
    case _ =>
  }

  lemma WaitersAreOk(world: World, w: WrapperId)
    requires WaitInv(world) && Waits(world, w)
    ensures WaiterOk(world, w)
    ensures w in world.erased || world.wrappers[w].m in world.tracker.table
  {
  }

  lemma CallStaysQuiet(world: World, step: Step)
    requires Quiet(world) && Quietly(world.tracker, step)
    requires forall w :: Waits(world, w) ==> world.wrappers[w].thread !in Callers(step)
    ensures Quiet(Call(world, step))
  {
    hide Inv, NothingQueued, WaiterOk, OneAtATime, Apply, LastValue, Erases, Keepers;
    var after := Call(world, step);
    CallQueuesNothing(world.tracker, step);
    CallKeepsWaitInv(world, step);
    forall w | Waits(after, w) && after.wrappers[w].request == Write ensures !LooksAtItsOwn(after, w) {
      assert Waits(world, w) && !LooksAtItsOwn(world, w);
      WaitersAreOk(world, w);
      CallKeepsWaiter(world, step, w);
    }
  }

  // ----- Events

  /** Wrappers that do not wait may change, as long as none is told anything new. */
  lemma WrappersChangeQuietly(world: World, ws: map<WrapperId, Wrapper>)
    requires Quiet(world) && OneAtATime(ws) && ToldNo(ws)
    requires forall w :: w in ws && ws[w].phase.Waiting? ==> w in world.wrappers && ws[w] == world.wrappers[w]
    requires forall w :: Waits(world, w) ==> w in ws && ws[w] == world.wrappers[w]
    ensures Quiet(world.(wrappers := ws))
  {
    hide Inv, NothingQueued, OneAtATime, ErasedOk;
    var after := world.(wrappers := ws);
    WrappersChange(world, ws);
    forall w | Waits(after, w) && after.wrappers[w].request == Write ensures !LooksAtItsOwn(after, w) {
      assert Waits(world, w) && !LooksAtItsOwn(world, w);
    }
  }

  lemma ConstructStaysQuiet(world: World, w: WrapperId, a: Arguments)
    requires Quiet(world) && Enabled(world, Constructing(w, a)) && CallerFair(world, Constructing(w, a))
    ensures Quiet(Happen(world, Constructing(w, a)))
  {
    hide Inv, WaiterOk, WaitInv, NothingQueued, TryAcquire, Orphaned, Keepers;
    var s, x := world.tracker, Construct(world.tracker, a).1;
    IdleMeansNoWaiter(world, a.thread);
    ConstructKeepsWaits(world, w, a);
    var mid := world;
    if a.Complete() {
      CallStaysQuiet(world, Acquiring(a.thread, a.m, a.request));
      mid := Call(world, Acquiring(a.thread, a.m, a.request));
    }
    var after := Happen(world, Constructing(w, a));
    assert after == mid.(wrappers := world.wrappers[w := x]);
    if x.phase.Waiting? { FirstLookIsStrange(world, w, a); }
    forall v | Waits(after, v) && after.wrappers[v].request == Write ensures !LooksAtItsOwn(after, v) {
      if v != w { assert Waits(mid, v) && !LooksAtItsOwn(mid, v); }
    }
  }

  lemma FirstLookIsStrange(world: World, w: WrapperId, a: Arguments)
    requires WaitInv(world) && Enabled(world, Constructing(w, a)) && CallerFair(world, Constructing(w, a))
    requires Construct(world.tracker, a).1.phase.Waiting?
    ensures a.request == Write ==> !LooksAtItsOwn(Happen(world, Constructing(w, a)), w)
  {
    hide TryAcquire, Keepers, Inv, WaiterOk;
    GrantedWhen(world.tracker, a.thread, a.m, a.request);
    RegisteredIsOk(world.tracker, a.m);
    assert w !in world.erased;
    assert !Erases(world.tracker, Acquiring(a.thread, a.m, a.request));
  }

  lemma LookStaysQuiet(world: World, w: WrapperId)
    requires Quiet(world) && Enabled(world, Looking(w))
    ensures Quiet(Happen(world, Looking(w)))
  {
    hide Inv, NothingQueued, ErasedOk;
    var after := Happen(world, Looking(w));
    LookKeepsWaits(world, w);
    AnswerNow(world, w);
    assert Seen(world, w).owners.Keys == {world.wrappers[w].thread} ==> LooksAtItsOwn(world, w);
    forall v | Waits(after, v) && after.wrappers[v].request == Write ensures !LooksAtItsOwn(after, v) {
      assert v != w && Waits(world, v) && !LooksAtItsOwn(world, v);
    }
  }

  lemma DestroyStaysQuiet(world: World, w: WrapperId, u: ThreadId)
    requires Quiet(world) && Enabled(world, Destroying(w, u))
    ensures Quiet(Happen(world, Destroying(w, u)))
  {
    hide Inv, WaiterOk, WaitInv, NothingQueued, NoTaskErased, StrangersWait, Apply, Orphaned, Keepers;
    var ws := world.wrappers;
    AtMostOne(world);
    IdleMeansNoWaiter(world, u);
    CallStaysQuiet(world, Releasing(u, ws[w].m));
    WrappersChangeQuietly(if ws[w].result == Success then Call(world, Releasing(u, ws[w].m)) else world, ws - {w});
  }

  lemma OthersStayQuiet(world: World, event: Event)
    requires Quiet(world) && Enabled(world, event) && CallerFair(world, event)
    requires !event.Constructing? && !event.Looking?
    ensures Quiet(Happen(world, event))
  {
    hide Inv, WaiterOk, WaitInv, NothingQueued, NoTaskErased, StrangersWait, Apply, Orphaned, Keepers;
    var after := Happen(world, event);
    AtMostOne(world);
    match event
    case Retrying(w) =>
      WrappersChangeQuietly(world, after.wrappers);
    case Destroying(w, u) => DestroyStaysQuiet(world, w, u);
    case MoveConstructing(_, _) => WrappersChangeQuietly(world, after.wrappers);
    case MoveAssigning(_, _) => WrappersChangeQuietly(world, after.wrappers);
    case Calling(step) =>
      NothingToRun(world.tracker);
      forall t | t in Callers(step) { IdleMeansNoWaiter(world, t); }
      CallStaysQuiet(world, step);
  }

  lemma AtMostOne(world: World)
    requires WaitInv(world)
    ensures OneAtATime(world.wrappers)
  {
  }

  lemma NothingToRun(s: TrackerState)
    requires NothingQueued(s)
    ensures s.scheduled == []
  {
  }

  lemma StaysQuiet(world: World, event: Event)
    requires Quiet(world) && CallerFair(world, event)
    ensures Quiet(Happen(world, event))
  {
    if Enabled(world, event) {
      match event
      case Constructing(w, a) => ConstructStaysQuiet(world, w, a);
      case Looking(w) => LookStaysQuiet(world, w);
      case _ => OthersStayQuiet(world, event);
      hide Quiet, Happen;
    }
  }

  /** While nothing is queued, what callers respect is fair. */
  lemma QuietIsFair(world: World, event: Event)
    requires Quiet(world) && CallerFair(world, event)
    ensures Fair(world, event)
  {
    hide WaitInv, StrangersWait, NoTaskErased;
    if event.Constructing? {
      var (s, a) := (world.tracker, event.a);
      assert Converts(s, a.thread, a.m, a.request) ==> a.thread in s.table[a.m].lock.owners.Keys;
    }
  }

  /** That the thread is not the only reader is not enough to respect: one that becomes the only
      reader while it waits to write is told to convert, and its retry breaks the books. */
  lemma WaitingReaderBreaksBooks(world: World, w: WrapperId)
    requires Good(world) && Waits(world, w) && w !in world.erased && world.wrappers[w].m in world.tracker.table
    requires Seen(world, w).CanAcquire(world.wrappers[w].thread, world.wrappers[w].request) == NeedToConvert
    ensures Good(Happen(world, Looking(w))) && !Good(Happen(Happen(world, Looking(w)), Retrying(w)))
  {
    LookBalance(world, w);
    hide Good;
    RetryBalance(Happen(world, Looking(w)), w);
  }

  // ----- Whole histories

  lemma {:induction false} QuietHistory(events: seq<Event>)
    requires CallerHistory(events)
    ensures Quiet(History(events)) && FairHistory(events)
  {
    if events != [] {
      hide Quiet, CallerFair, Fair, Happen, FairHistory;
      var front := events[..|events| - 1];
      assert forall k :: 0 <= k < |front| ==> front[..k] == events[..k] && front[k] == events[k];
      QuietHistory(front);
      StaysQuiet(History(front), events[|events| - 1]);
      QuietIsFair(History(front), events[|events| - 1]);
      FairHistoryOnce(events);
    }
  }

  /** Whatever the callers can see to themselves makes a fair history: that the answer of every wait
      still holds at its retry follows. */
  lemma CallersMakeFairHistories(events: seq<Event>)
    requires CallerHistory(events)
    ensures FairHistory(events)
  {
    QuietHistory(events);
  }

  /** Conservation for callers: the tracker counts exactly the live successful wrappers, and a mutex is
      registered exactly as long as one on it lives. */
  lemma ConservationForCallers(events: seq<Event>, m: MutexId, t: ThreadId)
    requires CallerHistory(events)
    ensures var world := History(events);
      && Count(world.tracker, m, t) == |Grants(world.wrappers, m, t)|
      && (m in world.tracker.table <==> HasHolder(world.wrappers, m))
  {
    QuietHistory(events);
    OwnershipIsConserved(events);
    RegisteredWhileHeld(events, m);
    hide History, FairHistory, CallerHistory, Inv, Count, Grants, HasHolder;
    var world := History(events);
    assert world.keepers.Keys == {};
  }

  /** Reader/writer exclusion for callers. */
  lemma ExclusionForCallers(events: seq<Event>, writer: WrapperId, other: WrapperId)
    requires CallerHistory(events)
    requires var ws := History(events).wrappers;
      && writer in ws && ws[writer].result == Success && ws[writer].request == Write
      && other in ws && ws[other].result == Success && ws[other].m == ws[writer].m
    ensures History(events).wrappers[other].thread == History(events).wrappers[writer].thread
  {
    QuietHistory(events);
    ReaderWriterExclusion(events, writer, other);
  }

  /** And a constructor that has to wait then waits in vain, whenever it stops waiting. */
  lemma WaitingIsInVain(events: seq<Event>, w: WrapperId)
    requires CallerHistory(events) && Waits(History(events), w)
    ensures Happen(History(events), Looking(w)).wrappers[w].phase == Told(Cannot)
  {
    QuietHistory(events);
    AnswerNow(History(events), w);
    LookStaysQuiet(History(events), w);
    hide History;
  }
}
