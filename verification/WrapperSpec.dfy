/** `CDataWrapper` as a value. The constructor is in three parts: what happens up to the point where
    it may have to wait, the last look of the wait at its lock, and what follows the answer. */
module WrapperSpec {
  import opened LockTypes
  import opened TrackerSpec

  datatype WrapperResult = Success | Busy | DataNotExists

  /** Where the constructor is: done, inside `Wait`, or back from `Wait` with an answer. */
  datatype Phase = Settled | Waiting | Told(answer: AcquireResult)

  /** `thread` and `request` remember who asked for what; the program does not store them. */
  datatype Wrapper = Wrapper(
    thread: ThreadId,
    m: MutexId,
    request: LockType,
    result: WrapperResult,
    hasTracker: bool,
    hasData: bool,
    phase: Phase)

  datatype Arguments = Arguments(
    thread: ThreadId,
    m: MutexId,
    request: LockType,
    hasTracker: bool,
    hasData: bool,
    hasMutex: bool)
  {
    predicate Complete() {
      hasTracker && hasData && hasMutex && m != 0
    }
  }

  /** The constructor up to its wait. */
  ghost function Construct(s: TrackerState, a: Arguments): (TrackerState, Wrapper) {
    var w := Wrapper(a.thread, a.m, a.request, DataNotExists, a.hasTracker, a.hasData, Settled);
    if !a.Complete() then (s, w)
    else
      var (s', answer) := TryAcquire(s, a.thread, a.m, a.request);
      match answer
      case Refused => (s', w.(result := Busy, hasData := false))
      case MustWait => (s', w.(phase := Waiting))
      case Granted => (s', w.(result := Success))
  }

  /** The last look of the wait at its lock; a timeout that finds nothing gives the answer Cannot. */
  function Look(w: Wrapper, lock: LockState): Wrapper {
    w.(phase := Told(lock.CanAcquire(w.thread, w.request)))
  }

  /** The rest of the constructor, given the answer of the wait. A retry is taken for a success
      unless it is refused, whether or not it acquired anything. */
  ghost function Retry(s: TrackerState, w: Wrapper): (TrackerState, Wrapper)
    requires w.phase.Told?
  {
    match w.phase.answer
    case Cannot => (s, w.(phase := Settled))
    case Avail =>
      var (s', answer) := TryAcquire(s, w.thread, w.m, w.request);
      (s', w.(phase := Settled, result := if answer == Refused then Busy else Success))
    case NeedToConvert =>
      var (s', answer) := TryAcquire(Release(s, w.thread, w.m), w.thread, w.m, Write);
      (s', if answer == Refused then w.(phase := Settled, result := Busy, hasData := false)
           else w.(phase := Settled, result := Success))
  }

  /** The destructor, run by thread `u`. */
  function Destroy(s: TrackerState, w: Wrapper, u: ThreadId): TrackerState {
    if w.result == Success then Release(s, u, w.m) else s
  }

  /** What a move leaves behind. */
  function MovedFrom(w: Wrapper): Wrapper {
    w.(result := DataNotExists, hasTracker := false, hasData := false)
  }
}
