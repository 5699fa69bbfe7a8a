/** Histories of many wrappers on one tracker, with operations queued and background tasks. */
module WrapperRuns {
  import opened LockTypes
  import opened LockData
  import opened TrackerSpec
  import opened WrapperSpec

  type WrapperId = nat

  /** A lock object that has left the table, as it was left, and what took it out. A constructor that
      waits on it goes on looking at it. */
  datatype Erased = Erased(lock: LockState, ending: Ending)

  /** `keepers`: for each lock kept for its operations, the thread that gave it up last and owns it
      on their behalf. `erased`: for each waiting wrapper whose lock has left the table, that lock.
      Both are history; the program stores neither. */
  datatype World = World(
    tracker: TrackerState,
    wrappers: map<WrapperId, Wrapper>,
    keepers: map<MutexId, ThreadId>,
    erased: map<WrapperId, Erased>)

  const NOTHING := World(EMPTY, map[], map[], map[])

  /** What may happen: the parts of a wrapper's life, and any call on the tracker made beside the
      wrappers, background tasks included. */
  datatype Event =
    | Constructing(w: WrapperId, a: Arguments)
    | Looking(w: WrapperId)
    | Retrying(w: WrapperId)
    | Destroying(w: WrapperId, u: ThreadId)
    | MoveConstructing(src: WrapperId, dst: WrapperId)
    | MoveAssigning(src: WrapperId, dst: WrapperId)
    | Calling(step: Step)

  /** A thread inside a constructor does nothing else. */
  predicate Idle(ws: map<WrapperId, Wrapper>, t: ThreadId) {
    forall w :: w in ws && ws[w].thread == t ==> ws[w].phase.Settled?
  }

  /** A wrapper under construction can be neither moved nor destroyed, a new one needs a new name,
      a wait ends once, and a retry follows the end of the wait. */
  predicate Enabled(world: World, event: Event) {
    var ws := world.wrappers;
    match event
    case Constructing(w, a) => w !in ws && Idle(ws, a.thread)
    case Looking(w) => w in ws && ws[w].phase.Waiting? && (w in world.erased || ws[w].m in world.tracker.table)
    case Retrying(w) => w in ws && ws[w].phase.Told?
    case Destroying(w, u) => w in ws && ws[w].phase.Settled? && Idle(ws, u)
    case MoveConstructing(src, dst) => src in ws && ws[src].phase.Settled? && dst !in ws
    case MoveAssigning(src, dst) =>
      src in ws && ws[src].phase.Settled? && dst in ws && ws[dst].phase.Settled? && src != dst
    case Calling(step) =>
      && (forall t :: t in Callers(step) ==> Idle(ws, t))
      && (step.RunningTask? ==> step.i < |world.tracker.scheduled|)
  }

  // ----- One call on the tracker, seen from the wrappers

  /** The wrappers that wait on the lock registered for `m`. */
  function WaitersOn(world: World, m: MutexId): set<WrapperId> {
    set w | w in world.wrappers && world.wrappers[w].phase.Waiting? && world.wrappers[w].m == m && w !in world.erased
  }

  function Orphaned(world: World, step: Step): map<WrapperId, Erased> {
    if Erases(world.tracker, step) then
      map w | w in WaitersOn(world, Subject(world.tracker, step)) ::
        Erased(LastValue(world.tracker, step), EndingOf(step))
    else map[]
  }

  /** The keepers after a call that leaves the scheduled tasks as told. */
  function Keepers(world: World, step: Step, scheduled: seq<MutexId>): map<MutexId, ThreadId> {
    if (step.Acquiring? || step.Releasing?) && |scheduled| > |world.tracker.scheduled| then
      world.keepers[step.m := step.t]
    else if step.RunningTask? then world.keepers - {Subject(world.tracker, step)}
    else world.keepers
  }

  ghost function Call(world: World, step: Step): World {
    var s' := Apply(world.tracker, step).0;
    World(s', world.wrappers, Keepers(world, step, s'.scheduled), world.erased + Orphaned(world, step))
  }

  // ----- Events

  /** The lock a waiting constructor looks at: the registered one, or the one that has gone. */
  function Seen(world: World, w: WrapperId): LockState
    requires w in world.wrappers && (w in world.erased || world.wrappers[w].m in world.tracker.table)
  {
    if w in world.erased then world.erased[w].lock else world.tracker.table[world.wrappers[w].m].lock
  }

  /** The calls a retry makes. */
  ghost function RetryCalls(world: World, x: Wrapper): World
    requires x.phase.Told?
  {
    match x.phase.answer
    case Cannot => world
    case Avail => Call(world, Acquiring(x.thread, x.m, x.request))
    case NeedToConvert => Call(Call(world, Releasing(x.thread, x.m)), Acquiring(x.thread, x.m, Write))
  }

  /** An event that is not enabled changes nothing (this covers self-assignment). */
  ghost function Happen(world: World, event: Event): World {
    if !Enabled(world, event) then world else
    var (s, ws) := (world.tracker, world.wrappers);
    match event
    case Constructing(w, a) =>
      var after := if a.Complete() then Call(world, Acquiring(a.thread, a.m, a.request)) else world;
      after.(wrappers := ws[w := Construct(s, a).1])
    case Looking(w) => world.(wrappers := ws[w := Look(ws[w], Seen(world, w))], erased := world.erased - {w})
    case Retrying(w) => RetryCalls(world, ws[w]).(wrappers := ws[w := Retry(s, ws[w]).1])
    case Destroying(w, u) =>
      var after := if ws[w].result == Success then Call(world, Releasing(u, ws[w].m)) else world;
      after.(wrappers := ws - {w})
    case MoveConstructing(src, dst) => world.(wrappers := ws[dst := ws[src]][src := MovedFrom(ws[src])])
    case MoveAssigning(src, dst) => world.(wrappers := ws[dst := ws[src]][src := MovedFrom(ws[src])])
    case Calling(step) => Call(world, step)
  }

  /** The tracker sees of an event exactly what the wrapper's code does to it. */
  lemma EventsActAsWrappers(world: World, event: Event)
    requires Enabled(world, event)
    ensures var (s, s') := (world.tracker, Happen(world, event).tracker);
      match event
      case Constructing(_, a) => s' == Construct(s, a).0
      case Retrying(w) => s' == Retry(s, world.wrappers[w]).0
      case Destroying(w, u) => s' == Destroy(s, world.wrappers[w], u)
      case Calling(step) => s' == Apply(s, step).0
      case _ => s' == s
  {
    hide TryAcquire, Release, RunTask, AddOperation, Orphaned, Keepers;
  }

  ghost function History(events: seq<Event>): World {
    if events == [] then NOTHING else Happen(History(events[..|events| - 1]), events[|events| - 1])
  }
}
