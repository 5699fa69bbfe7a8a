/** What a waiting constructor can be told. Its lock may leave the table while it waits; the lock it
    then goes on looking at answers according to how it was taken out. */
module WrapperWaits {
  import opened LockTypes
  import opened LockData
  import opened TrackerSpec
  import opened TrackerInvariant
  import opened WrapperSpec
  import opened WrapperRuns
  import opened WrapperBooks
  import Ledger = OperationLedger

  /** A thread is inside at most one constructor. */
  ghost predicate OneAtATime(ws: map<WrapperId, Wrapper>) {
    forall v, w :: v in ws && w in ws && ws[v].thread == ws[w].thread ==>
      ws[v].phase.Settled? || ws[w].phase.Settled? || v == w
  }

  /** A lock that has left the table: a last release leaves it guarded and unowned; a forced one
      leaves it as it was; a task leaves a write lock guarded, and any other without its guard. */
  ghost predicate ErasedOk(e: Erased) {
    match e.ending
    case Released => e.lock.guard.Guarded? && e.lock.owners == map[]
    case Forced => LockOk(e.lock)
    case ByTask(_) => e.lock.guard.Guarded? <==> e.lock.kind == Write
  }

  /** A waiter has no result yet, and looks at no write lock of its own, nor at a read lock to read. */
  ghost predicate WaiterOk(world: World, w: WrapperId)
    requires w in world.wrappers
  {
    var x := world.wrappers[w];
    && x.result == DataNotExists
    && (w in world.erased || x.m in world.tracker.table)
    && (Seen(world, w).kind == Write ==> x.thread !in Seen(world, w).owners)
    && (Seen(world, w).kind != Write ==> x.request != Read)
    && (w in world.erased ==> ErasedOk(world.erased[w]))
  }

  predicate Waits(world: World, w: WrapperId) {
    w in world.wrappers && world.wrappers[w].phase.Waiting?
  }

  ghost predicate WaitInv(world: World) {
    && Inv(world.tracker)
    && OneAtATime(world.wrappers)
    && (forall w :: w in world.erased ==> Waits(world, w))
    && (forall w :: Waits(world, w) ==> WaiterOk(world, w))
  }

  // ----- One call on the tracker

  lemma ReleaseUntouched(s: TrackerState, t: ThreadId, m: MutexId, n: MutexId, u: ThreadId)
    requires Inv(s) && n in s.table && u != t && (n == m ==> n in Release(s, t, m).table)
    ensures var s' := Release(s, t, m);
      && n in s'.table && s'.table[n].lock.kind == s.table[n].lock.kind
      && (u in s'.table[n].lock.owners <==> u in s.table[n].lock.owners)
  {
    if m in s.table { ReleaseCases(s, t, m); }
    hide Inv, LockState.RemoveOwnership, Unlisted;
    if n == m { assert u in s.table[m].lock.RemoveOwnership(t).owners.Keys <==> u in s.table[m].lock.owners.Keys; }
  }

  lemma AcquireUntouched(s: TrackerState, t: ThreadId, m: MutexId, request: LockType, n: MutexId, u: ThreadId)
    requires Inv(s) && n in s.table && u != t
    requires Erases(s, Acquiring(t, m, request)) ==> n != m
    ensures var s' := TryAcquire(s, t, m, request).0;
      && n in s'.table && s'.table[n].lock.kind == s.table[n].lock.kind
      && (u in s'.table[n].lock.owners <==> u in s.table[n].lock.owners)
  {
    hide Inv, TryAcquire, Release, LockState.CanAcquire, SameButGuards;
    if !Converts(s, t, m, request) {
      AcquireEffect(s, t, m, request);
      OwnersCount(s, u, n);
      OwnersCount(TryAcquire(s, t, m, request).0, u, n);
    } else {
      RegisteredIsOk(s, m);
      GrantedWhen(s, t, m, Write);
      if Grantable(s, t, m, Write) {
        ConversionGrant(s, t, m);
        ConversionErases(s, t, m);
        OthersSame(s, TryAcquire(s, t, m, Write).0, t, m, n);
      } else {
        ConversionRefused(s, t, m);
        StillThere(s, t, m);
        ReleaseUntouched(s, t, m, n, u);
      }
    }
  }

  lemma ConversionErases(s: TrackerState, t: ThreadId, m: MutexId)
    requires Inv(s) && Converts(s, t, m, Write) && Grantable(s, t, m, Write)
    ensures m !in Release(s, t, m).table
  {
    ReleaseCases(s, t, m);
    hide Release, Inv;
  }

  lemma StillThere(s: TrackerState, t: ThreadId, m: MutexId)
    requires Inv(s) && m in s.table && (Count(s, m, t) != 1 || s.table[m].pending != [])
    ensures m in Release(s, t, m).table
  {
    RegisteredIsOk(s, m);
    ReleaseCases(s, t, m);
    hide Release, Inv;
  }

  lemma OthersSame(s: TrackerState, s': TrackerState, t: ThreadId, m: MutexId, n: MutexId)
    requires Converted(s, s', t, m) && n in s.table && n != m
    ensures n in s'.table && s'.table[n].lock.kind == s.table[n].lock.kind
    ensures s'.table[n].lock.owners == s.table[n].lock.owners
  {
  }

  /** A call that does not take a lock out of the table leaves its kind, and whether another thread
      owns it. */
  lemma Untouched(s: TrackerState, step: Step, n: MutexId, u: ThreadId)
    requires Inv(s) && n in s.table && u !in Callers(step)
    requires Erases(s, step) ==> n != Subject(s, step)
    ensures var s' := Apply(s, step).0;
      && n in s'.table && s'.table[n].lock.kind == s.table[n].lock.kind
      && (u in s'.table[n].lock.owners <==> u in s.table[n].lock.owners)
  {
    hide TryAcquire, Release, Runs, Unlisted;
    RegisteredIsOk(s, n);
    match step
    case Acquiring(t, m, request) => AcquireUntouched(s, t, m, request, n, u);
    case Releasing(t, m) => ReleaseUntouched(s, t, m, n, u);
    case _ =>
  }

  /** The calls counted as taking a lock out are exactly those after which it is not registered any
      more, or another one is in its place. */
  lemma ErasesExactly(s: TrackerState, step: Step)
    requires Inv(s)
    ensures Erases(s, step) <==> Ledger.Ended(s, Apply(s, step).0, Subject(s, step))
  {
    hide TryAcquire, Release, Runs, Unlisted, Converted;
    var m := Subject(s, step);
    if m in s.table { RegisteredIsOk(s, m); }
    if !Erases(s, step) {
      if m in s.table {
        var u: ThreadId := if 0 in Callers(step) then 1 else 0;
        Untouched(s, step, m, u);
      }
    } else if step.Acquiring? {
      ErasedHadOneHold(s, step.t, m);
      ConversionInstalls(s, step.t, m);
      GrantMeansOwnership(s, step.t, m, Write);
    }
  }

  lemma ErasedHadOneHold(s: TrackerState, t: ThreadId, m: MutexId)
    requires Inv(s) && m in s.table && m !in Release(s, t, m).table
    ensures Count(s, m, t) == 1 && s.table[m].pending == [] && s.table[m].lock.owners.Keys == {t}
  {
    RegisteredIsOk(s, m);
    ReleaseCases(s, t, m);
    OwnersCount(s, t, m);
    hide Release, Inv;
  }

  /** How a lock looks that a call takes out of the table. */
  lemma LastValueIsOk(s: TrackerState, step: Step)
    requires Inv(s) && Erases(s, step)
    ensures ErasedOk(Erased(LastValue(s, step), EndingOf(step)))
    ensures LastValue(s, step).kind == s.table[Subject(s, step)].lock.kind
    ensures LastValue(s, step).owners.Keys <= s.table[Subject(s, step)].lock.owners.Keys
  {
    hide Release, LockState.RemoveOwnership, Unlisted;
    var m := Subject(s, step);
    RegisteredIsOk(s, m);
    if step.Acquiring? || step.Releasing? {
      ReleaseCases(s, step.t, m);
      var rest := s.table[m].lock.RemoveOwnership(step.t).owners;
      assert rest.Keys == {} ==> rest == map[];
    }
    hide Inv;
  }

  lemma CallKeepsWaiter(world: World, step: Step, w: WrapperId)
    requires Inv(world.tracker) && Waits(world, w) && WaiterOk(world, w)
    requires world.wrappers[w].thread !in Callers(step)
    ensures WaiterOk(Call(world, step), w)
    ensures world.wrappers[w].thread in Seen(Call(world, step), w).owners ==>
      world.wrappers[w].thread in Seen(world, w).owners
  {
    hide Inv, Apply, LastValue, ErasedOk, Erases, Keepers;
    var s, m, after := world.tracker, world.wrappers[w].m, Call(world, step);
    if w in world.erased {
      assert after.erased[w] == world.erased[w];
    } else if Erases(s, step) && m == Subject(s, step) {
      LastValueIsOk(s, step);
      assert w in WaitersOn(world, m);
      assert after.erased[w] == Erased(LastValue(s, step), EndingOf(step));
      assert world.wrappers[w].thread in LastValue(s, step).owners.Keys ==>
        world.wrappers[w].thread in s.table[m].lock.owners.Keys;
    } else {
      Untouched(s, step, m, world.wrappers[w].thread);
      assert w !in after.erased;
    }
  }

  /** A call by threads that are not waiting keeps what waiters rely on. */
  lemma CallKeepsWaitInv(world: World, step: Step)
    requires WaitInv(world)
    requires forall w :: Waits(world, w) ==> world.wrappers[w].thread !in Callers(step)
    ensures WaitInv(Call(world, step))
  {
    hide Inv, WaiterOk, OneAtATime, Apply, LastValue, Erases, Keepers;
    var after := Call(world, step);
    ApplyKeepsInv(world.tracker, step);
    forall w | Waits(after, w) ensures WaiterOk(after, w) {
      assert Waits(world, w);
      CallKeepsWaiter(world, step, w);
    }
  }

  // ----- Events

  /** Wrappers that do not wait may change as they like, one constructor a thread. */
  lemma WrappersChange(world: World, ws: map<WrapperId, Wrapper>)
    requires WaitInv(world) && OneAtATime(ws)
    requires forall w :: w in ws && ws[w].phase.Waiting? ==> w in world.wrappers && ws[w] == world.wrappers[w]
    requires forall w :: Waits(world, w) ==> w in ws && ws[w] == world.wrappers[w]
    ensures WaitInv(world.(wrappers := ws))
  {
    hide Inv, OneAtATime, ErasedOk;
    var after := world.(wrappers := ws);
    forall w | Waits(after, w) ensures WaiterOk(after, w) {
      assert Waits(world, w) && WaiterOk(world, w);
    }
  }

  lemma IdleMeansNoWaiter(world: World, t: ThreadId)
    requires Idle(world.wrappers, t)
    ensures forall w :: Waits(world, w) ==> world.wrappers[w].thread != t
  {
  }

  lemma ConstructKeepsWaits(world: World, w: WrapperId, a: Arguments)
    requires WaitInv(world) && Enabled(world, Constructing(w, a))
    ensures WaitInv(Happen(world, Constructing(w, a)))
  {
    hide Inv, WaiterOk, TryAcquire, Orphaned, Keepers;
    var s, x := world.tracker, Construct(world.tracker, a).1;
    IdleMeansNoWaiter(world, a.thread);
    var mid := world;
    if a.Complete() {
      CallKeepsWaitInv(world, Acquiring(a.thread, a.m, a.request));
      mid := Call(world, Acquiring(a.thread, a.m, a.request));
    }
    assert Happen(world, Constructing(w, a)) == mid.(wrappers := world.wrappers[w := x]);
    if x.phase.Settled? {
      WrappersChange(mid, world.wrappers[w := x]);
    } else {
      assert Call(world, Acquiring(a.thread, a.m, a.request)).erased.Keys <= mid.wrappers.Keys;
      NewWaiter(mid, w, x);
      FirstLook(world, w, a);
    }
  }

  lemma NewWaiter(world: World, w: WrapperId, x: Wrapper)
    requires WaitInv(world) && w !in world.wrappers && Idle(world.wrappers, x.thread)
    ensures var after := world.(wrappers := world.wrappers[w := x]);
      (x.phase.Waiting? ==> WaiterOk(after, w)) ==> WaitInv(after)
  {
    hide Inv, ErasedOk;
    var after := world.(wrappers := world.wrappers[w := x]);
    assert w !in world.erased;
    forall v | Waits(after, v) && v != w ensures WaiterOk(after, v) {
      assert Waits(world, v) && WaiterOk(world, v);
    }
  }

  /** A constructor told to wait waits for a registered lock that cannot be had. */
  lemma FirstLook(world: World, w: WrapperId, a: Arguments)
    requires WaitInv(world) && Enabled(world, Constructing(w, a)) && Construct(world.tracker, a).1.phase.Waiting?
    ensures WaiterOk(Happen(world, Constructing(w, a)), w)
  {
    hide TryAcquire, Keepers, Inv, WaiterOk;
    GrantedWhen(world.tracker, a.thread, a.m, a.request);
    RegisteredIsOk(world.tracker, a.m);
    assert w !in world.erased;
    assert !Erases(world.tracker, Acquiring(a.thread, a.m, a.request));
    WaiterOkIs(Happen(world, Constructing(w, a)), w);
  }

  lemma WaiterOkIs(world: World, w: WrapperId)
    requires w in world.wrappers && w !in world.erased && world.wrappers[w].m in world.tracker.table
    requires world.wrappers[w].result == DataNotExists
    requires var l := world.tracker.table[world.wrappers[w].m].lock;
      l.guard.Guarded? && l.CanAcquire(world.wrappers[w].thread, world.wrappers[w].request) == Cannot
    ensures WaiterOk(world, w)
  {
  }

  lemma LookKeepsWaits(world: World, w: WrapperId)
    requires WaitInv(world) && Enabled(world, Looking(w))
    ensures WaitInv(Happen(world, Looking(w)))
  {
    hide Inv, ErasedOk;
    var after := Happen(world, Looking(w));
    forall v | Waits(after, v) ensures WaiterOk(after, v) {
      assert v != w && Waits(world, v) && WaiterOk(world, v);
    }
  }

  lemma RetryKeepsWaits(world: World, w: WrapperId)
    requires WaitInv(world) && Enabled(world, Retrying(w))
    ensures WaitInv(Happen(world, Retrying(w)))
  {
    hide WaitInv, TryAcquire, Release, Orphaned, Keepers;
    var x, ws := world.wrappers[w], world.wrappers;
    var mid := RetryCalls(world, x);
    NoOtherWaits(world, w);
    RetryCallsKeepWaits(world, x);
    hide RetryCalls;
    StillOne(ws, w, Retry(world.tracker, x).1);
    WrappersChange(mid, ws[w := Retry(world.tracker, x).1]);
  }

  lemma NoOtherWaits(world: World, w: WrapperId)
    requires WaitInv(world) && w in world.wrappers && world.wrappers[w].phase.Told?
    ensures forall v: WrapperId :: Waits(world, v) ==> world.wrappers[v].thread != world.wrappers[w].thread
    ensures OneAtATime(world.wrappers)
  {
    hide Inv, WaiterOk;
  }

  lemma StillOne(ws: map<WrapperId, Wrapper>, w: WrapperId, x: Wrapper)
    requires OneAtATime(ws) && x.phase.Settled?
    ensures OneAtATime(ws[w := x])
  {
  }

  lemma RetryCallsKeepWaits(world: World, x: Wrapper)
    requires WaitInv(world) && x.phase.Told?
    requires forall v: WrapperId :: Waits(world, v) ==> world.wrappers[v].thread != x.thread
    ensures WaitInv(RetryCalls(world, x)) && RetryCalls(world, x).wrappers == world.wrappers
  {
    hide WaitInv, Orphaned, Keepers, Apply;
    match x.phase.answer
    case Cannot =>
    case Avail =>
      CallKeepsWaitInv(world, Acquiring(x.thread, x.m, x.request));
    case NeedToConvert =>
      CallKeepsWaitInv(world, Releasing(x.thread, x.m));
      CallKeepsWaitInv(Call(world, Releasing(x.thread, x.m)), Acquiring(x.thread, x.m, Write));
  }

  lemma DestroyKeepsWaits(world: World, w: WrapperId, u: ThreadId)
    requires WaitInv(world) && Enabled(world, Destroying(w, u))
    ensures WaitInv(Happen(world, Destroying(w, u)))
  {
    hide Inv, WaiterOk, Apply, Orphaned, Keepers;
    var ws := world.wrappers;
    IdleMeansNoWaiter(world, u);
    CallKeepsWaitInv(world, Releasing(u, ws[w].m));
    WrappersChange(if ws[w].result == Success then Call(world, Releasing(u, ws[w].m)) else world, ws - {w});
  }

  lemma OthersKeepWaits(world: World, event: Event)
    requires WaitInv(world) && Enabled(world, event)
    requires !event.Constructing? && !event.Looking? && !event.Retrying?
    ensures WaitInv(Happen(world, event))
  {
    hide Inv, WaiterOk, Apply, Orphaned, Keepers;
    var after := Happen(world, event);
    match event
    case Destroying(w, u) => DestroyKeepsWaits(world, w, u);
    case MoveConstructing(_, _) => WrappersChange(world, after.wrappers);
    case MoveAssigning(_, _) => WrappersChange(world, after.wrappers);
    case Calling(step) =>
      forall t | t in Callers(step) { IdleMeansNoWaiter(world, t); }
      CallKeepsWaitInv(world, step);
  }

  lemma {:induction false} HistoryKeepsWaits(events: seq<Event>)
    ensures WaitInv(History(events))
  {
    if events != [] {
      var world, event := History(events[..|events| - 1]), events[|events| - 1];
      HistoryKeepsWaits(events[..|events| - 1]);
      if Enabled(world, event) {
        match event
        case Constructing(w, a) => ConstructKeepsWaits(world, w, a);
        case Looking(w) => LookKeepsWaits(world, w);
        case Retrying(w) => RetryKeepsWaits(world, w);
        case _ => OthersKeepWaits(world, event);
      }
      hide WaitInv, Happen, Enabled;
    }
  }

  // ----- What the wait can answer

  lemma AnswerNow(world: World, w: WrapperId)
    requires WaitInv(world) && Waits(world, w)
    ensures var x := world.wrappers[w];
      var told := Happen(world, Looking(w)).wrappers[w].phase;
      && Enabled(world, Looking(w)) && told.Told?
      && (told == Told(Avail) <==>
            w in world.erased && world.erased[w].ending.ByTask? && world.erased[w].lock.kind != Write)
      && (told == Told(NeedToConvert) <==>
            && !(w in world.erased && world.erased[w].ending.ByTask?)
            && x.request == Write && Seen(world, w).kind == Read && Seen(world, w).owners.Keys == {x.thread})
  {
    assert WaiterOk(world, w);
    if w !in world.erased { RegisteredIsOk(world.tracker, world.wrappers[w].m); }
  }

  /** In every history, fair or not, a wait can end at any time, and what the constructor is then told
      is this: available exactly if a background task has taken out a lock that was no write lock; to be
      converted exactly if no task has, and the waiter has become the only reader of the lock and asks
      to write; and it cannot be had otherwise. */
  lemma AnswersOfTheWait(events: seq<Event>, w: WrapperId)
    requires Waits(History(events), w)
    ensures var world := History(events);
      var x := world.wrappers[w];
      var told := Happen(world, Looking(w)).wrappers[w].phase;
      && Enabled(world, Looking(w)) && told.Told?
      && (told == Told(Avail) <==>
            w in world.erased && world.erased[w].ending.ByTask? && world.erased[w].lock.kind != Write)
      && (told == Told(NeedToConvert) <==>
            && !(w in world.erased && world.erased[w].ending.ByTask?)
            && x.request == Write && Seen(world, w).kind == Read && Seen(world, w).owners.Keys == {x.thread})
  {
    HistoryKeepsWaits(events);
    AnswerNow(History(events), w);
  }

  /** So the last release of a lock lets nobody in that waits for it: the lock it looks at has no
      owner but still its guard and answers that it cannot be had, and the wrapper ends up with
      nothing. */
  lemma LastReleaseLetsNobodyIn(events: seq<Event>, w: WrapperId)
    requires Waits(History(events), w)
    requires w in History(events).erased && History(events).erased[w].ending == Released
    ensures var told := Happen(History(events), Looking(w));
      && told.wrappers[w].phase == Told(Cannot)
      && Retry(told.tracker, told.wrappers[w])
         == (told.tracker, History(events).wrappers[w].(phase := Settled, result := DataNotExists))
  {
    HistoryKeepsWaits(events);
    AnswersOfTheWait(events, w);
    hide History;
    assert WaiterOk(History(events), w);
  }
}
