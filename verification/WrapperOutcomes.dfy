/** What a caller finds in a wrapper: its result, whether it still has its data, and what a move leaves,
    told from the state before. */
module WrapperOutcomes {
  import opened LockTypes
  import opened TrackerSpec
  import opened TrackerInvariant
  import opened WrapperSpec
  import opened WrapperRuns

  /** The registered lock cannot be had. */
  predicate MustWaitFor(s: TrackerState, t: ThreadId, m: MutexId, request: LockType) {
    m != 0 && m in s.table && s.table[m].lock.CanAcquire(t, request) == Cannot
  }

  lemma RefusedWhen(s: TrackerState, t: ThreadId, m: MutexId, request: LockType)
    requires Inv(s)
    ensures TryAcquire(s, t, m, request).1 == Refused <==>
      !Grantable(s, t, m, request) && !MustWaitFor(s, t, m, request)
  {
    hide Inv, TryAcquire, Grantable;
    GrantedWhen(s, t, m, request);
  }

  /** A wrapper constructed up to its wait. Without tracker, data, mutex or ID it is left without result,
      and the tracker alone. Otherwise it is successful exactly if the request can be granted, waits
      exactly if the lock cannot be had, and is busy in all other cases; only then it gives up its
      data. */
  lemma ConstructOutcome(s: TrackerState, a: Arguments)
    requires Inv(s)
    ensures var (s', w) := Construct(s, a);
      var complete := a.hasTracker && a.hasData && a.hasMutex && a.m != 0;
      var (granted, mustWait) :=
        (Grantable(s, a.thread, a.m, a.request), MustWaitFor(s, a.thread, a.m, a.request));
      && (w.result == Success <==> complete && granted)
      && (w.result == Busy <==> complete && !granted && !mustWait)
      && (w.phase == Waiting <==> complete && mustWait)
      && (w.phase == Waiting || w.phase == Settled)
      && (w.hasData <==> a.hasData && w.result != Busy)
      && w.hasTracker == a.hasTracker && w.thread == a.thread && w.m == a.m && w.request == a.request
      && (!complete || mustWait ==> s' == s)
  {
    hide Inv, TryAcquire, Grantable;
    GrantedWhen(s, a.thread, a.m, a.request);
    RefusedWhen(s, a.thread, a.m, a.request);
  }

  /** After a wait that timed out nothing changes. */
  lemma TimedOut(s: TrackerState, w: Wrapper)
    requires w.phase == Told(Cannot)
    ensures Retry(s, w) == (s, w.(phase := Settled))
  {
  }

  /** After a wait that found the lock available: busy exactly if the request is now refused, and
      successful otherwise, also when it would have to wait again. The data is kept in any case. */
  lemma RetryOutcome(s: TrackerState, w: Wrapper)
    requires Inv(s) && w.phase == Told(Avail)
    ensures var x := Retry(s, w).1;
      && (x.result == Busy <==>
            !Grantable(s, w.thread, w.m, w.request) && !MustWaitFor(s, w.thread, w.m, w.request))
      && (x.result == Busy || x.result == Success)
      && x == w.(phase := Settled, result := x.result)
  {
    hide Inv, TryAcquire, Grantable;
    RefusedWhen(s, w.thread, w.m, w.request);
  }

  /** The thread is the only owner of a lock that is no write lock, which a release and a conversion
      together cannot turn into a write lock. */
  predicate CannotConvert(s: TrackerState, t: ThreadId, m: MutexId) {
    && m in s.table && s.table[m].lock.kind != Write && s.table[m].lock.owners.Keys == {t}
    && (Count(s, m, t) > 2 || s.table[m].pending != [])
  }

  /** After a wait told to convert: busy exactly if there is no mutex or the thread alone reads it more
      than twice or with operations queued, and successful otherwise. Only the busy one gives up its
      data. */
  lemma ConvertOutcome(s: TrackerState, w: Wrapper)
    requires Inv(s) && w.phase == Told(NeedToConvert)
    ensures var x := Retry(s, w).1;
      && (x.result == Busy <==> w.m == 0 || CannotConvert(s, w.thread, w.m))
      && (x.result == Busy || x.result == Success)
      && x == w.(phase := Settled, result := x.result, hasData := w.hasData && x.result != Busy)
  {
    hide Inv, TryAcquire, Release, CannotConvert;
    RefusedAfterRelease(s, w.thread, w.m);
  }

  lemma RefusedAfterRelease(s: TrackerState, t: ThreadId, m: MutexId)
    requires Inv(s)
    ensures TryAcquire(Release(s, t, m), t, m, Write).1 == Refused <==> m == 0 || CannotConvert(s, t, m)
  {
    hide Inv, TryAcquire;
    ReleaseKeepsInv(s, t, m);
    var s1 := Release(s, t, m);
    RefusedWhen(s1, t, m, Write);
    if m in s.table {
      RegisteredIsOk(s, m);
      ReleaseCases(s, t, m);
      hide Release, Unlisted;
    }
  }

  /** A move passes everything to its target and leaves in the source no result, no data and no tracker,
      so that the source releases nothing; no other wrapper and nothing of the tracker changes. */
  lemma MoveOutcome(world: World, event: Event)
    requires Enabled(world, event) && (event.MoveConstructing? || event.MoveAssigning?)
    ensures var (ws, after) := (world.wrappers, Happen(world, event));
      var (src, dst) := (event.src, event.dst);
      && after.tracker == world.tracker && after.wrappers.Keys == ws.Keys + {dst}
      && after.wrappers[dst] == ws[src]
      && after.wrappers[src].result == DataNotExists
      && !after.wrappers[src].hasData && !after.wrappers[src].hasTracker
      && (forall u :: Destroy(world.tracker, after.wrappers[src], u) == world.tracker)
      && (forall v :: v in ws && v != src && v != dst ==> after.wrappers[v] == ws[v])
  {
  }
}
