/** The tracker as a value, and what each of its calls does to that value. */
module TrackerSpec {
  import opened Sequences
  import opened LockTypes
  import opened LockData

  /** `table`: registered locks. `held`: what each thread's vector lists. `scheduled`: background
      tasks not yet run, by mutex. `clock`: ticks once per call that may create a guard, and once
      per guard re-created; it only orders guard creations. */
  datatype TrackerState = TrackerState(
    table: map<MutexId, Entry>,
    held: map<ThreadId, seq<MutexId>>,
    scheduled: seq<MutexId>,
    clock: nat)

  const EMPTY := TrackerState(map[], map[], [], 0)

  /** (null, false), (lock, true) and (null, true). */
  datatype Answer = Refused | MustWait | Granted

  datatype AddResult = Added | Failed | LockAvail

  function HeldBy(s: TrackerState, t: ThreadId): seq<MutexId> {
    if t in s.held then s.held[t] else []
  }

  function Count(s: TrackerState, m: MutexId, t: ThreadId): nat {
    if m in s.table then s.table[m].lock.Count(t) else 0
  }

  /** `AddToHeldLocks`: append `m` to the vector of `t` unless it is listed or null. */
  function Listed(held: map<ThreadId, seq<MutexId>>, t: ThreadId, m: MutexId): map<ThreadId, seq<MutexId>> {
    if m == 0 then held
    else if t !in held then held[t := [m]]
    else if m in held[t] then held
    else held[t := held[t] + [m]]
  }

  /** `RemoveFromHeldLocks`: swap-and-pop `m` out of the vector of `t`. */
  function Unlisted(held: map<ThreadId, seq<MutexId>>, t: ThreadId, m: MutexId): map<ThreadId, seq<MutexId>> {
    if m == 0 || t !in held then held else held[t := SwapPop(held[t], m)]
  }

  predicate NeedToReset(s: TrackerState, t: ThreadId, m: MutexId) {
    m != 0 && exists x :: x in HeldBy(s, t) && x > m
  }

  /** The registered mutexes of a vector, in ascending order. */
  ghost function Kept(s: TrackerState, ids: seq<MutexId>): seq<MutexId> {
    Enumerate(Elems(ids) * s.table.Keys)
  }

  /** Guards of the listed mutexes dropped. */
  function DropGuards(table: map<MutexId, Entry>, ids: seq<MutexId>): map<MutexId, Entry> {
    map m | m in table ::
      if m in ids then table[m].(lock := table[m].lock.(guard := NoGuard)) else table[m]
  }

  /** Guards of the listed mutexes created one after the other, starting at time `now`. */
  function CreateGuards(table: map<MutexId, Entry>, ids: seq<MutexId>, now: nat): map<MutexId, Entry> {
    map m | m in table ::
      if m in ids then table[m].(lock := table[m].lock.(guard := Guarded(now + IndexOf(ids, m)))) else table[m]
  }

  /** A thread's guards taken anew in ascending order; its vector cleaned and sorted. */
  ghost function Reorder(s: TrackerState, t: ThreadId): TrackerState {
    var kept := Kept(s, HeldBy(s, t));
    TrackerState(CreateGuards(s.table, kept, s.clock), s.held[t := kept], s.scheduled, s.clock + |kept|)
  }

  /** What follows an acquisition: a write that breaks the ascending order is put in order. */
  ghost function Settle(s: TrackerState, t: ThreadId, m: MutexId, request: LockType): TrackerState {
    if request == Write && NeedToReset(s, t, m) then Reorder(s, t) else s
  }

  /** Entry `e` put into the table with a guard created now, and listed for `t`. */
  function Install(s: TrackerState, t: ThreadId, m: MutexId, e: Entry): TrackerState {
    TrackerState(s.table[m := e], Listed(s.held, t, m), s.scheduled, s.clock + 1)
  }

  /** A lock just registered and acquired for the first time. */
  function FirstHold(t: ThreadId, request: LockType, now: nat): Entry {
    Entry(LockState(request, map[t := 1], Guarded(now)), [])
  }

  ghost function Register(s: TrackerState, t: ThreadId, m: MutexId, request: LockType): (TrackerState, bool) {
    if m == 0 || request == NoLock || m in s.table then (s, false)
    else
      (Settle(Install(s, t, m, FirstHold(t, request, s.clock)), t, m, request), true)
  }

  ghost function TryAcquire(s: TrackerState, t: ThreadId, m: MutexId, request: LockType): (TrackerState, Answer) {
    if m == 0 then (s, Refused)
    else if m !in s.table then
      var (s', ok) := Register(s, t, m, request);
      (s', if ok then Granted else Refused)
    else
      var e := s.table[m];
      match e.lock.CanAcquire(t, request)
      case Cannot => (s, MustWait)
      case NeedToConvert =>
        var (s', ok) := Register(Release(s, t, m), t, m, Write);
        (s', if ok then Granted else Refused)
      case Avail =>
        var e' := e.(lock := e.lock.AcquireLock(t, request, s.clock));
        (Settle(Install(s, t, m, e'), t, m, request), Granted)
  }

  /** Take `m` out of the table and out of the vector of the calling thread. */
  function Erase(s: TrackerState, t: ThreadId, m: MutexId): TrackerState {
    s.(table := s.table - {m}, held := Unlisted(s.held, t, m))
  }

  /** `ReleaseLock` as a wrapper calls it. */
  function Release(s: TrackerState, t: ThreadId, m: MutexId): TrackerState {
    if m == 0 || m !in s.table then s
    else
      var e := s.table[m];
      var lock := e.lock.RemoveOwnership(t);
      if !lock.ShouldRemove() then
        s.(table := s.table[m := e.(lock := lock)])
      else if e.pending != [] then
        s.(table := s.table[m := e.(lock := lock.AddOwnership(t))], scheduled := s.scheduled + [m])
      else
        Erase(s, t, m)
  }

  /** `ReleaseLock` with `bOperationCall` set: no questions asked. */
  function ForcedRelease(s: TrackerState, t: ThreadId, m: MutexId): TrackerState {
    if m == 0 then s else Erase(s, t, m)
  }

  /** The scheduled background task number `i`, run by thread `u`. */
  function RunTask(s: TrackerState, u: ThreadId, i: nat, force: Force): (TrackerState, seq<Operation>)
    requires i < |s.scheduled|
  {
    var m := s.scheduled[i];
    var s' := s.(scheduled := s.scheduled[..i] + s.scheduled[i + 1..]);
    if m == 0 || m !in s.table then (s', [])
    else
      var pending := s.table[m].pending;
      (Erase(s', u, m), pending[..Runs(|pending|, force)])
  }

  function AddOperation(s: TrackerState, m: MutexId, op: Operation): (TrackerState, AddResult) {
    if m !in s.table then (s, LockAvail)
    else
      var e := s.table[m];
      (s.(table := s.table[m := e.(pending := e.pending + [op])]), Added)
  }

  /** One call on the tracker, or one background task, each taken as a single atomic step. */
  datatype Step =
    | Acquiring(t: ThreadId, m: MutexId, request: LockType)
    | Releasing(t: ThreadId, m: MutexId)
    | ForcedReleasing(t: ThreadId, m: MutexId)
    | AddingOperation(m: MutexId, op: Operation)
    | RunningTask(u: ThreadId, i: nat, force: Force)

  /** The mutex a step is about, given the scheduled tasks. */
  function SubjectOf(scheduled: seq<MutexId>, step: Step): MutexId {
    match step
    case Acquiring(_, m, _) => m
    case Releasing(_, m) => m
    case ForcedReleasing(_, m) => m
    case AddingOperation(m, _) => m
    case RunningTask(_, i, _) => if i < |scheduled| then scheduled[i] else 0
  }

  function Subject(s: TrackerState, step: Step): MutexId {
    SubjectOf(s.scheduled, step)
  }

  /** The thread a step is a step of, where that matters: adding an operation asks for no thread. */
  function Callers(step: Step): set<ThreadId> {
    match step
    case Acquiring(t, _, _) => {t}
    case Releasing(t, _) => {t}
    case ForcedReleasing(t, _) => {t}
    case AddingOperation(_, _) => {}
    case RunningTask(u, _, _) => {u}
  }

  /** How a lock ends: by a last release (also the one of a conversion), a forced one, or a background
      task. */
  datatype Ending = Released | Forced | ByTask(force: Force)

  function EndingOf(step: Step): Ending {
    match step
    case ForcedReleasing(_, _) => Forced
    case RunningTask(_, _, force) => ByTask(force)
    case _ => Released
  }

  datatype Reply = Answered(answer: Answer) | Done | OperationAdded(result: AddResult) | Ran(executed: seq<Operation>)

  ghost function Apply(s: TrackerState, step: Step): (TrackerState, Reply) {
    match step
    case Acquiring(t, m, request) => var (s', a) := TryAcquire(s, t, m, request); (s', Answered(a))
    case Releasing(t, m) => (Release(s, t, m), Done)
    case ForcedReleasing(t, m) => (ForcedRelease(s, t, m), Done)
    case AddingOperation(m, op) => var (s', r) := AddOperation(s, m, op); (s', OperationAdded(r))
    case RunningTask(u, i, force) =>
      if i < |s.scheduled| then var (s', ops) := RunTask(s, u, i, force); (s', Ran(ops)) else (s, Done)
  }

  /** A write request of the only reader. */
  predicate Converts(s: TrackerState, t: ThreadId, m: MutexId, request: LockType) {
    m in s.table && s.table[m].lock.CanAcquire(t, request) == NeedToConvert
  }

  /** The call takes the lock registered for its mutex out of the table. */
  predicate Erases(s: TrackerState, step: Step)
    ensures Erases(s, step) ==> Subject(s, step) in s.table
  {
    match step
    case Acquiring(t, m, request) => Converts(s, t, m, request) && m !in Release(s, t, m).table
    case Releasing(t, m) => m in s.table && m !in Release(s, t, m).table
    case ForcedReleasing(_, m) => m in s.table && m != 0
    case AddingOperation(_, _) => false
    case RunningTask(_, i, _) => i < |s.scheduled| && s.scheduled[i] in s.table && s.scheduled[i] != 0
  }

  /** The lock as the call leaves it: a release takes the last owner off it, and a task the guard,
      unless it is a write lock. */
  function LastValue(s: TrackerState, step: Step): LockState
    requires Subject(s, step) in s.table
  {
    var lock := s.table[Subject(s, step)].lock;
    match step
    case Acquiring(t, _, _) => lock.RemoveOwnership(t)
    case Releasing(t, _) => lock.RemoveOwnership(t)
    case RunningTask(_, _, _) => if lock.kind == Write then lock else lock.(guard := NoGuard)
    case _ => lock
  }

  /** The state after a whole run of steps of any threads. */
  ghost function Run(s: TrackerState, steps: seq<Step>): TrackerState {
    if steps == [] then s else Apply(Run(s, steps[..|steps| - 1]), steps[|steps| - 1]).0
  }
}
