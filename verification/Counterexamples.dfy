/** Runs on which the program does not do what its comments promise. They are why `Fair` and the
    other hypotheses say what they say. */
module Counterexamples {
  import opened LockTypes
  import opened LockData
  import opened TrackerSpec
  import opened TrackerInvariant
  import opened WrapperSpec
  import opened WrapperRuns
  import opened WrapperBooks

  // ----- Histories of wrappers, one event at a time

  function Then(events: seq<Event>, event: Event): seq<Event> {
    events + [event]
  }

  lemma HistoryThen(events: seq<Event>, event: Event)
    ensures History(Then(events, event)) == Happen(History(events), event)
  {
    assert Then(events, event)[..|events|] == events;
  }

  function All(t: ThreadId, request: LockType): Arguments {
    Arguments(t, 7, request, true, true, true)
  }

  /** The first hold of mutex 7, taken by a new wrapper. */
  lemma FirstWrapper(world: World, w: WrapperId, t: ThreadId, request: LockType)
    requires Inv(world.tracker) && world.tracker.table == map[] && request != NoLock
    requires w !in world.wrappers && Idle(world.wrappers, t)
    ensures var after := Happen(world, Constructing(w, All(t, request)));
      && after.wrappers == world.wrappers[w := Wrapper(t, 7, request, Success, true, true, Settled)]
      && after.erased == world.erased && after.keepers == world.keepers
      && after.tracker.scheduled == world.tracker.scheduled
      && Inv(after.tracker) && after.tracker.table.Keys == {7} && after.tracker.table[7].pending == []
      && after.tracker.table[7].lock.kind == request && after.tracker.table[7].lock.owners == map[t := 1]
  {
    hide Inv, Settle, Install, Gained;
    var s := world.tracker;
    FirstHoldIsOk(t, request, s.clock);
    GrantInstalls(s, t, 7, request, FirstHold(t, request, s.clock));
    InstallSchedulesNothing(s, t, 7, request, FirstHold(t, request, s.clock));
  }

  /** A new wrapper that has to wait for mutex 7. */
  lemma WaitingWrapper(world: World, w: WrapperId, t: ThreadId)
    requires Inv(world.tracker) && 7 in world.tracker.table
    requires world.tracker.table[7].lock.owners.Keys != {t} && t !in world.tracker.table[7].lock.owners
    requires w !in world.wrappers && Idle(world.wrappers, t)
    ensures Happen(world, Constructing(w, All(t, Write)))
      == world.(wrappers := world.wrappers[w := Wrapper(t, 7, Write, DataNotExists, true, true, Waiting)])
  {
    RegisteredIsOk(world.tracker, 7);
    GrantedWhen(world.tracker, t, 7, Write);
    hide TryAcquire, Inv;
    assert world.erased + map[] == world.erased;
  }

  /** An operation queued on mutex 7. */
  lemma OneQueued(world: World, op: Operation)
    requires Inv(world.tracker) && 7 in world.tracker.table && world.tracker.table[7].pending == []
    ensures var after := Happen(world, Calling(AddingOperation(7, op)));
      && Inv(after.tracker) && after.wrappers == world.wrappers && after.erased == world.erased
      && after.tracker.scheduled == world.tracker.scheduled
      && after.tracker.table == world.tracker.table[7 := world.tracker.table[7].(pending := [op])]
  {
    hide Inv, WaitersOn, Idle;
    ApplyKeepsInv(world.tracker, AddingOperation(7, op));
    assert world.erased + map[] == world.erased;
    assert [] + [op] == [op];
  }

  /** The last hold of mutex 7 given up with its wrapper, the operation waiting. */
  lemma LastWrapperGone(world: World, w: WrapperId)
    requires Inv(world.tracker) && w in world.wrappers && world.wrappers[w].result == Success
    requires world.wrappers[w].m == 7 && world.wrappers[w].phase.Settled?
    requires Idle(world.wrappers, world.wrappers[w].thread)
    requires Defers(world.tracker, world.wrappers[w].thread, 7) && world.tracker.scheduled == []
    ensures var after := Happen(world, Destroying(w, world.wrappers[w].thread));
      && Inv(after.tracker) && after.wrappers == world.wrappers - {w} && after.erased == world.erased
      && after.tracker.scheduled == [7] && after.tracker.table == world.tracker.table
  {
    hide Inv, Release, KindsKept;
    ReleaseEffect(world.tracker, world.wrappers[w].thread, 7);
    assert [] + [7] == [7];
    assert world.erased + map[] == world.erased;
  }

  /** An operation queued, and then the last hold of mutex 7 given up with its wrapper. */
  lemma LeftToOperation(events: seq<Event>, op: Operation, w: WrapperId) returns (more: seq<Event>)
    requires var world := History(events);
      && Inv(world.tracker) && world.tracker.table.Keys == {7} && world.tracker.table[7].pending == []
      && w in world.wrappers && world.wrappers[w].result == Success && world.wrappers[w].m == 7
      && world.wrappers[w].phase.Settled? && Idle(world.wrappers, world.wrappers[w].thread)
      && world.tracker.table[7].lock.owners == map[world.wrappers[w].thread := 1]
      && world.tracker.scheduled == []
    ensures var (world, after) := (History(events), History(more));
      && after.wrappers == world.wrappers - {w} && after.erased == world.erased
      && Inv(after.tracker) && after.tracker.scheduled == [7]
      && after.tracker.table == world.tracker.table[7 := world.tracker.table[7].(pending := [op])]
  {
    hide Happen, History, Inv, Then, Idle;
    OneQueued(History(events), op);
    HistoryThen(events, Calling(AddingOperation(7, op)));
    more := Then(events, Calling(AddingOperation(7, op)));
    var t := History(events).wrappers[w].thread;
    LastWrapperGone(History(more), w);
    HistoryThen(more, Destroying(w, t));
    more := Then(more, Destroying(w, t));
  }

  /** A retry is taken for a success although another thread got there first. Thread 2 waits to write
      while thread 1 reads; thread 1 leaves the lock to a queued operation; the background task drops
      the guard and erases the lock, and the wait of thread 2 finds it available; before thread 2
      retries, thread 3 writes. Two threads then have a successful write wrapper on mutex 7. */
  lemma OvertakenRetry(op: Operation) returns (events: seq<Event>)
    ensures var ws := History(events).wrappers;
      && 2 in ws && ws[2].result == Success && ws[2].request == Write && ws[2].m == 7 && ws[2].thread == 2
      && 3 in ws && ws[3].result == Success && ws[3].request == Write && ws[3].m == 7 && ws[3].thread == 3
  {
    hide Happen, Inv, Then;
    assert History([]) == NOTHING;
    EmptyIsOk();
    FirstWrapper(NOTHING, 1, 1, Read);
    HistoryThen([], Constructing(1, All(1, Read)));
    events := Then([], Constructing(1, All(1, Read)));
    hide History;
    WaitingWrapper(History(events), 2, 2);
    HistoryThen(events, Constructing(2, All(2, Write)));
    events := Then(events, Constructing(2, All(2, Write)));
    events := LeftToOperation(events, op, 1);
    var waiter := Wrapper(2, 7, Write, DataNotExists, true, true, Waiting);
    assert History(events).wrappers == map[2 := waiter];
    TaskFrees(History(events), 9);
    HistoryThen(events, Calling(RunningTask(9, 0, Never)));
    events := Then(events, Calling(RunningTask(9, 0, Never)));
    LookIs(History(events), 2);
    HistoryThen(events, Looking(2));
    events := Then(events, Looking(2));
    FirstWrapper(History(events), 3, 3, Write);
    HistoryThen(events, Constructing(3, All(3, Write)));
    events := Then(events, Constructing(3, All(3, Write)));
    RetryAnyway(History(events), 2);
    HistoryThen(events, Retrying(2));
    events := Then(events, Retrying(2));
  }

  lemma EmptyIsOk()
    ensures Inv(EMPTY)
  {
  }

  /** The scheduled task erases mutex 7; whoever waited for a read lock there now looks at it without
      its guard. */
  lemma TaskFrees(world: World, u: ThreadId)
    requires Inv(world.tracker) && world.tracker.scheduled == [7] && world.tracker.table.Keys == {7}
    requires Idle(world.wrappers, u) && world.erased == map[]
    ensures var after := Happen(world, Calling(RunningTask(u, 0, Never)));
      && Inv(after.tracker) && after.tracker.table == map[] && after.tracker.scheduled == []
      && after.wrappers == world.wrappers
      && after.erased.Keys == WaitersOn(world, 7)
      && (world.tracker.table[7].lock.kind == Read ==>
            forall w :: w in after.erased ==> after.erased[w].lock.guard.NoGuard?)
  {
    ApplyKeepsInv(world.tracker, RunningTask(u, 0, Never));
    RegisteredIsOk(world.tracker, 7);
    TaskErases(world.tracker, u, 0, Never);
    hide Inv, RunTask;
    assert world.tracker.table - {7} == map[];
  }

  lemma LookIs(world: World, w: WrapperId)
    requires w in world.wrappers && world.wrappers[w].phase.Waiting? && w in world.erased
    requires world.erased[w].lock.guard.NoGuard?
    ensures Happen(world, Looking(w))
      == world.(wrappers := world.wrappers[w := world.wrappers[w].(phase := Told(Avail))], erased := world.erased - {w})
  {
  }

  lemma RetryAnyway(world: World, w: WrapperId)
    requires Inv(world.tracker) && w in world.wrappers && world.wrappers[w].phase == Told(Avail)
    requires world.wrappers[w].m == 7 && world.wrappers[w].request == Write && 7 in world.tracker.table
    requires world.tracker.table[7].lock.kind == Write
    requires world.wrappers[w].thread !in world.tracker.table[7].lock.owners
    ensures Happen(world, Retrying(w)).wrappers
      == world.wrappers[w := world.wrappers[w].(phase := Settled, result := Success)]
  {
    RegisteredIsOk(world.tracker, 7);
    GrantedWhen(world.tracker, world.wrappers[w].thread, 7, Write);
    hide TryAcquire, Inv, Orphaned, Keepers;
  }

  /** A background task takes away a lock acquired after it was scheduled. Thread 1 writes, queues an
      operation and leaves, and writes again on the lock kept for the operation; the background task then erases
      that lock, and thread 3 writes too. No thread waits, no wrapper is moved, each is destroyed by
      its own thread, and yet two threads have a successful write wrapper on mutex 7. */
  lemma LateTaskBreaksExclusion(op: Operation) returns (events: seq<Event>)
    ensures var ws := History(events).wrappers;
      && 2 in ws && ws[2].result == Success && ws[2].request == Write && ws[2].m == 7 && ws[2].thread == 1
      && 3 in ws && ws[3].result == Success && ws[3].request == Write && ws[3].m == 7 && ws[3].thread == 3
  {
    hide Happen, Inv, Then;
    assert History([]) == NOTHING;
    EmptyIsOk();
    FirstWrapper(NOTHING, 1, 1, Write);
    HistoryThen([], Constructing(1, All(1, Write)));
    events := Then([], Constructing(1, All(1, Write)));
    hide History;
    events := LeftToOperation(events, op, 1);
    assert History(events).wrappers == map[];
    SecondWrapper(History(events), 2, 1);
    HistoryThen(events, Constructing(2, All(1, Write)));
    events := Then(events, Constructing(2, All(1, Write)));
    TaskFrees(History(events), 9);
    HistoryThen(events, Calling(RunningTask(9, 0, Never)));
    events := Then(events, Calling(RunningTask(9, 0, Never)));
    FirstWrapper(History(events), 3, 3, Write);
    HistoryThen(events, Constructing(3, All(3, Write)));
    events := Then(events, Constructing(3, All(3, Write)));
  }

  /** The owner of the write lock of mutex 7 acquires it again. */
  lemma SecondWrapper(world: World, w: WrapperId, t: ThreadId)
    requires Inv(world.tracker) && world.tracker.table.Keys == {7} && world.tracker.table[7].lock.kind == Write
    requires t in world.tracker.table[7].lock.owners && w !in world.wrappers && Idle(world.wrappers, t)
    ensures var after := Happen(world, Constructing(w, All(t, Write)));
      && after.wrappers == world.wrappers[w := Wrapper(t, 7, Write, Success, true, true, Settled)]
      && after.erased == world.erased && after.tracker.scheduled == world.tracker.scheduled
      && Inv(after.tracker) && after.tracker.table.Keys == {7}
  {
    hide TryAcquire, Inv, EntriesKept, Gained;
    var s := world.tracker;
    RegisteredIsOk(s, 7);
    AcquireEffect(s, t, 7, Write);
    GrantedWhen(s, t, 7, Write);
    SameKeys(s, t);
  }

  lemma SameKeys(s: TrackerState, t: ThreadId)
    requires Inv(s) && s.table.Keys == {7} && s.table[7].lock.CanAcquire(t, Write) == Avail
    ensures TryAcquire(s, t, 7, Write).0.table.Keys == {7}
  {
    hide Inv, Settle, Install, Gained, LockOk, LockState.AcquireLock;
    RegisteredIsOk(s, 7);
    var e := s.table[7].(lock := s.table[7].lock.AcquireLock(t, Write, s.clock));
    AcquiredIsOk(s.table[7].lock, t, Write, s.clock);
    GrantInstalls(s, t, 7, Write, e);
  }

  /** Move assignment over a successful wrapper forgets its hold: the tracker goes on counting one
      hold more than there are wrappers and keepers. */
  lemma MoveAssignForgets(world: World, src: WrapperId, dst: WrapperId)
    requires Good(world) && Enabled(world, MoveAssigning(src, dst))
    requires world.wrappers[dst].result == Success
    ensures var after, x := Happen(world, MoveAssigning(src, dst)), world.wrappers[dst];
      Count(after.tracker, x.m, x.thread)
      == |Grants(after.wrappers, x.m, x.thread)| + KeptFor(after.keepers, x.m, x.thread) + 1
  {
    hide Inv, KeepersOk;
    var x := world.wrappers[dst];
    GrantsMove(world.wrappers, src, dst, x.m, x.thread);
    assert One(world.wrappers, dst, x.m, x.thread) == 1;
  }

  // ----- Inside a background task

  /** The registered read lock of `m` while a background task runs its operations: without a guard. */
  function DuringTask(s: TrackerState, m: MutexId): TrackerState
    requires m in s.table
  {
    s.(table := s.table[m := s.table[m].(lock := s.table[m].lock.(guard := NoGuard))])
  }

  lemma SettleKeepsCounts(s: TrackerState, t: ThreadId, m: MutexId, request: LockType)
    requires t in s.held
    ensures forall n, u :: Count(Settle(s, t, m, request), n, u) == Count(s, n, u)
  {
    if request == Write && NeedToReset(s, t, m) { ReorderEffect(s, t); }
    hide Reorder, NeedToReset;
  }

  /** What the tracker answers inside a background task, which the steps do not show: every request for
      the read lock is granted, but only a read is counted. A write is granted without a hold. */
  lemma GrantedWithoutAHold(s: TrackerState, t: ThreadId, m: MutexId, request: LockType)
    requires Inv(s) && m in s.table && s.table[m].lock.kind != Write
    ensures var (s', answer) := TryAcquire(DuringTask(s, m), t, m, request);
      && answer == Granted
      && Count(s', m, t) == Count(s, m, t) + (if request == Read then 1 else 0)
      && (forall n, u :: n != m || u != t ==> Count(s', n, u) == Count(s, n, u))
  {
    hide Settle, Listed;
    RegisteredIsOk(s, m);
    var s1 := DuringTask(s, m);
    var l := s1.table[m].lock;
    IgnoredExactly(l, t, request, s.clock);
    var e := s1.table[m].(lock := l.AcquireLock(t, request, s.clock));
    var s2 := Install(s1, t, m, e);
    ListsTheThread(s1, t, m);
    SettleKeepsCounts(s2, t, m, request);
    hide Inv;
    assert forall u :: u != t ==> e.lock.Count(u) == Count(s, m, u);
    assert TryAcquire(s1, t, m, request).0 == Settle(s2, t, m, request);
    hide TryAcquire;
  }

  lemma ListsTheThread(s: TrackerState, t: ThreadId, m: MutexId)
    requires m != 0
    ensures t in Listed(s.held, t, m)
  {
  }

  // ----- Runs of the tracker

  /** Two releases with an operation queued schedule two tasks. */
  lemma TwoTasksScheduled(op: Operation) returns (steps: seq<Step>)
    ensures var s := Run(EMPTY, steps);
      s.table == map[7 := FirstHold(1, Read, 0).(pending := [op])] && s.scheduled == [7, 7]
  {
    var s1 := [Acquiring(1, 7, Read)];
    var s2 := s1 + [AddingOperation(7, op)];
    var s3 := s2 + [Releasing(1, 7)];
    steps := s3 + [Releasing(1, 7)];
    assert s1[..0] == [] && s2[..1] == s1 && s3[..2] == s2 && steps[..3] == s3;
    var r1, r2 := Run(EMPTY, s1), Run(EMPTY, s2);
    assert r1 == Apply(EMPTY, s1[0]).0 by { assert Run(EMPTY, []) == EMPTY; }
    var e := FirstHold(1, Read, 0);
    assert r1.table == map[7 := e];
    assert e.pending + [op] == [op];
    assert r2.table == map[7 := e.(pending := [op])];
    assert e.lock.RemoveOwnership(1).owners == map[];
    assert Release(r2, 1, 7) == r2.(scheduled := [7]);
  }

  lemma FreeWrite(s: TrackerState, t: ThreadId)
    requires Inv(s) && s.table == map[]
    ensures var s' := TryAcquire(s, t, 7, Write).0; Count(s', 7, t) == 1 && s'.scheduled == s.scheduled
  {
    GrantMeansOwnership(s, t, 7, Write);
  }

  /** A background task erases whatever is registered under its mutex when it gets to run: of two
      tasks scheduled, the first ends the lock, and the second takes away the lock that thread 2
      has acquired meanwhile. */
  lemma LateTaskErasesNewLock(op: Operation) returns (steps: seq<Step>)
    ensures |steps| >= 2 && steps[|steps| - 2] == Acquiring(2, 7, Write) && steps[|steps| - 1].RunningTask?
    ensures Count(Run(EMPTY, steps[..|steps| - 1]), 7, 2) == 1
    ensures Count(Run(EMPTY, steps), 7, 2) == 0
  {
    var s4 := TwoTasksScheduled(op);
    var s5 := s4 + [RunningTask(9, 0, Never)];
    var s6 := s5 + [Acquiring(2, 7, Write)];
    steps := s6 + [RunningTask(9, 0, Never)];
    assert s5[..|s4|] == s4 && s6[..|s5|] == s5 && steps[..|s6|] == s6;
    hide TryAcquire, Unlisted;
    var r5 := Run(EMPTY, s5);
    assert r5.table == map[] && r5.scheduled == [7];
    RunKeepsInv(s5);
    FreeWrite(r5, 2);
    assert Run(EMPTY, s6) == TryAcquire(r5, 2, 7, Write).0;
  }
}
