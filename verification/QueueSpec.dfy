/** The bounded retry queue as a value: what is queued, what the workers hold, and what became of
    every task that is neither. */
module QueueSpec {

  const MAX_QUEUE_SIZE: nat := 20000
  const MAX_RETRY_COUNT: nat := 3
  const MIN_WORKERS: nat := 1
  const MAX_WORKERS: nat := 10
  const OPERATION_TIMEOUT: nat := 300     // seconds
  const TICKS: nat := 1_000_000_000       // clock ticks in a second

  type Data = nat

  /** `id` is the arrival number, which the program does not store. */
  datatype Task = Task(id: nat, data: Data, enqueued: int, retry: nat)

  datatype Mode = Working | Idle | ThreadsStopped

  datatype Fate = Succeeded | Exhausted | Evicted | Expired | Removed | Cleared

  datatype End = End(id: nat, fate: Fate)

  datatype Attempt = Attempt(id: nat, retry: nat)

  datatype Arrival = Arrival(data: Data, time: int)

  /** `inFlight`: taken by a worker and not yet processed. The last four fields are history:
      tasks ever added, what became of ended tasks, completed process calls, attempts started. */
  datatype Queue = Queue(
    container: seq<Task>,
    inFlight: seq<Task>,
    mode: Mode,
    workers: nat,
    arrived: nat,
    ended: seq<End>,
    calls: nat,
    attempts: seq<Attempt>)

  /** `std::clamp`. */
  function Clamp(x: nat, low: nat, high: nat): (r: nat)
    requires low <= high
    ensures low <= r <= high && (low <= x <= high ==> r == x)
    ensures r != x ==> (x < low && r == low) || (x > high && r == high)
  {
    if x < low then low else if high < x then high else x
  }

  function Start(workers: nat): Queue {
    Queue([], [], ThreadsStopped, workers, 0, [], 0, [])
  }

  /** The elements that satisfy `p`, in their order. */
  function Select<T>(s: seq<T>, p: T -> bool): seq<T> {
    if s == [] then []
    else if p(s[0]) then [s[0]] + Select(s[1..], p)
    else Select(s[1..], p)
  }

  function Not<T>(p: T -> bool): T -> bool {
    x => !p(x)
  }

  function Ends(tasks: seq<Task>, fate: Fate): seq<End> {
    seq(|tasks|, i requires 0 <= i < |tasks| => End(tasks[i].id, fate))
  }

  function Payloads(tasks: seq<Task>): seq<Data> {
    seq(|tasks|, i requires 0 <= i < |tasks| => tasks[i].data)
  }

  /** One arrival: at the limit the oldest task makes room, and above it too, one only. */
  function Add(q: Queue, a: Arrival): (r: Queue)
    ensures |r.container| + |r.ended| == |q.container| + |q.ended| + 1
    ensures |r.container| <= MAX_QUEUE_SIZE || |r.container| == |q.container|
    ensures |r.ended| > |q.ended| ==> |q.container| >= MAX_QUEUE_SIZE && r.ended[|q.ended|].id == q.container[0].id
  {
    var full := |q.container| >= MAX_QUEUE_SIZE;
    q.(container := (if full then q.container[1..] else q.container) + [Task(q.arrived, a.data, a.time, 0)],
       arrived := q.arrived + 1,
       ended := if full then q.ended + [End(q.container[0].id, Evicted)] else q.ended)
  }

  function AddAll(q: Queue, items: seq<Arrival>): Queue {
    if items == [] then q else Add(AddAll(q, items[..|items| - 1]), items[|items| - 1])
  }

  predicate CanTake(q: Queue) {
    q.container != [] && q.mode == Working && |q.inFlight| < q.workers
  }

  /** A worker takes the front task. */
  function Take(q: Queue): (r: Queue)
    requires CanTake(q)
    ensures |r.inFlight| == |q.inFlight| + 1 <= r.workers
    ensures [r.inFlight[|q.inFlight|]] + r.container == q.container
  {
    var task := q.container[0];
    q.(container := q.container[1..],
       inFlight := q.inFlight + [task],
       attempts := q.attempts + [Attempt(task.id, task.retry)])
  }

  /** The process function returns for in-flight task `i`; it may have changed the data. A failed
      task goes back to the end unless it was its last attempt; the size limit is not consulted. */
  function Finish(q: Queue, i: nat, ok: bool, data: Data): (r: Queue)
    requires i < |q.inFlight|
    ensures |r.inFlight| + 1 == |q.inFlight|
    ensures |r.container| + |r.ended| == |q.container| + |q.ended| + 1
    ensures |r.container| > |q.container| ==>
      !ok && r.container[|q.container|].id == q.inFlight[i].id && r.container[|q.container|].retry < MAX_RETRY_COUNT
  {
    var task := q.inFlight[i];
    var q' := q.(inFlight := q.inFlight[..i] + q.inFlight[i + 1..], calls := q.calls + 1);
    if ok then q'.(ended := q.ended + [End(task.id, Succeeded)])
    else if task.retry + 1 < MAX_RETRY_COUNT then
      q'.(container := q.container + [task.(data := data, retry := task.retry + 1)])
    else q'.(ended := q.ended + [End(task.id, Exhausted)])
  }

  /** Whole seconds of a duration, truncated toward zero. */
  function Seconds(d: int): int {
    if d >= 0 then d / TICKS else -((-d) / TICKS)
  }

  predicate IsExpired(task: Task, now: int) {
    Seconds(now - task.enqueued) > OPERATION_TIMEOUT
  }

  function ExpiredBy(now: int): Task -> bool {
    (task: Task) => IsExpired(task, now)
  }

  function OnData(p: Data -> bool): Task -> bool {
    (task: Task) => p(task.data)
  }

  /** Tasks that satisfy `p` leave the queue for that reason. */
  function Drop(q: Queue, p: Task -> bool, fate: Fate): Queue {
    q.(container := Select(q.container, Not(p)), ended := q.ended + Ends(Select(q.container, p), fate))
  }

  function StopThreads(q: Queue, clear: bool): (r: Queue)
    ensures r.mode == ThreadsStopped && r.inFlight == q.inFlight
    ensures |r.container| + |r.ended| == |q.container| + |q.ended|
    ensures r.container == [] || r.container == q.container
    ensures r.container != [] ==> !clear || q.mode == ThreadsStopped
  {
    if q.mode == ThreadsStopped then q
    else if clear then q.(mode := ThreadsStopped, container := [], ended := q.ended + Ends(q.container, Cleared))
    else q.(mode := ThreadsStopped)
  }

  datatype Step =
    | Adding(a: Arrival)
    | AddingBatch(items: seq<Arrival>)
    | Taking
    | Finishing(i: nat, ok: bool, data: Data)
    | Cleaning(now: int)
    | Removing(p: Data -> bool)
    | SettingMode(mode: Mode)
    | Stopping(clear: bool)

  /** A worker waits while it cannot take, so that step then changes nothing. */
  function Apply(q: Queue, step: Step): Queue {
    match step
    case Adding(a) => Add(q, a)
    case AddingBatch(items) => AddAll(q, items)
    case Taking => if CanTake(q) then Take(q) else q
    case Finishing(i, ok, data) => if i < |q.inFlight| then Finish(q, i, ok, data) else q
    case Cleaning(now) => Drop(q, ExpiredBy(now), Expired)
    case Removing(p) => Drop(q, OnData(p), Removed)
    case SettingMode(mode) => q.(mode := mode)
    case Stopping(clear) => StopThreads(q, clear)
  }

  ghost function Run(q: Queue, steps: seq<Step>): Queue {
    if steps == [] then q else Apply(Run(q, steps[..|steps| - 1]), steps[|steps| - 1])
  }

  /** Attempts a task has left. */
  function Left(task: Task): nat {
    if task.retry < MAX_RETRY_COUNT then MAX_RETRY_COUNT - task.retry else 0
  }

  function Weight(tasks: seq<Task>): nat {
    if tasks == [] then 0 else Left(tasks[0]) + Weight(tasks[1..])
  }

  lemma {:induction false} WeightAppend(tasks: seq<Task>, task: Task)
    ensures Weight(tasks + [task]) == Weight(tasks) + Left(task)
  {
    if tasks != [] {
      assert (tasks + [task])[1..] == tasks[1..] + [task];
      WeightAppend(tasks[1..], task);
    }
  }
}
