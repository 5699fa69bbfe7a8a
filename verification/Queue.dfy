/** `CNormalQueue`: the deque and the loops that push, pop and erase in place, proved against
    `QueueSpec`. A worker's turn is in two parts, since it lets go of the container while it
    processes a task. */
module NormalQueue {
  import Spec = QueueSpec
  import opened QueueSpec

  /** What the process function returned, and the data as it left them. */
  datatype Outcome = Outcome(ok: bool, data: Data)

  /** The steps of one worker that processes one task after the other with these outcomes. */
  function Turns(outcomes: seq<Outcome>): seq<Step> {
    if outcomes == [] then []
    else
      var last := outcomes[|outcomes| - 1];
      Turns(outcomes[..|outcomes| - 1]) + [Taking, Finishing(0, last.ok, last.data)]
  }

  class Queue {
    var container: seq<Task>
    var inFlight: seq<Task>
    var mode: Mode
    const workers: nat
    var arrived: nat              // numbers tasks as they arrive
    ghost var ended: seq<End>
    ghost var calls: nat
    ghost var attempts: seq<Attempt>

    ghost function Value(): Spec.Queue
      reads this
    {
      Spec.Queue(container, inFlight, mode, workers, arrived, ended, calls, attempts)
    }

    /** The number of workers is not the one requested: it is whatever was in the field before,
        `raw`, brought into range. */
    constructor (requested: nat, raw: nat)
      ensures Value() == Start(workers)
      ensures workers == Clamp(raw, MIN_WORKERS, MAX_WORKERS)
    {
      workers := Clamp(raw, MIN_WORKERS, MAX_WORKERS);
      container, inFlight, mode := [], [], ThreadsStopped;
      arrived, ended, calls, attempts := 0, [], 0, [];
    }

    method AddTask(a: Arrival)
      modifies this
      ensures Value() == Spec.Add(old(Value()), a)
    {
      if |container| >= MAX_QUEUE_SIZE {
        ended := ended + [End(container[0].id, Evicted)];
        container := container[1..];
      }
      container, arrived := container + [Task(arrived, a.data, a.time, 0)], arrived + 1;
    }

    method AddBatchTasks(items: seq<Arrival>)
      modifies this
      ensures Value() == AddAll(old(Value()), items)
    {
      for i := 0 to |items|
        invariant Value() == AddAll(old(Value()), items[..i])
      {
        assert items[..i + 1][..i] == items[..i];
        if |container| >= MAX_QUEUE_SIZE {
          ended := ended + [End(container[0].id, Evicted)];
          container := container[1..];
        }
        container, arrived := container + [Task(arrived, items[i].data, items[i].time, 0)], arrived + 1;
      }
      assert items[..|items|] == items;
    }

    /** Erase all tasks whose data satisfy `p`, calling `onRemove` on each, in queue order. */
    method RemoveTask(p: Data -> bool) returns (onRemove: seq<Data>)
      modifies this
      ensures Value() == Drop(old(Value()), OnData(p), Removed)
      ensures onRemove == Payloads(Select(old(container), OnData(p)))
      ensures |onRemove| + |container| == |old(container)| && forall t :: t in container ==> !p(t.data)
      ensures forall d :: d in onRemove ==> p(d)
    {
      hide Select;
      ghost var before, q := container, OnData(p);
      ghost var gone: seq<Task> := [];
      onRemove := [];
      var i := 0;
      while i < |container|
        invariant i <= |container|
        invariant container[..i] + Select(container[i..], Not(q)) == Select(before, Not(q))
        invariant gone + Select(container[i..], q) == Select(before, q)
        invariant onRemove == Payloads(gone) && |onRemove| + |container| == |before|
        invariant (forall k :: 0 <= k < i ==> !p(container[k].data)) && (forall d :: d in onRemove ==> p(d))
        invariant Value() == old(Value()).(container := container)
        decreases |container| - i
      {
        ScanOne(container, i, q);
        if p(container[i].data) {
          onRemove := onRemove + [container[i].data];
          gone := gone + [container[i]];
          container := container[..i] + container[i + 1..];
        } else {
          i := i + 1;
        }
      }
      ScanEnd(container, q);
      ended := ended + Ends(gone, Removed);
    }

    /** Erase all tasks that waited too long. */
    method Clean(now: int)
      modifies this
      ensures Value() == Drop(old(Value()), ExpiredBy(now), Expired)
    {
      hide ExpiredBy, Select;
      ghost var before := container;
      var q := ExpiredBy(now);
      ghost var gone: seq<Task> := [];
      var i := 0;
      while i < |container|
        invariant i <= |container|
        invariant container[..i] + Select(container[i..], Not(q)) == Select(before, Not(q))
        invariant gone + Select(container[i..], q) == Select(before, q)
        invariant Value() == old(Value()).(container := container)
        decreases |container| - i
      {
        ScanOne(container, i, q);
        if q(container[i]) {
          gone := gone + [container[i]];
          container := container[..i] + container[i + 1..];
        } else {
          i := i + 1;
        }
      }
      ScanEnd(container, q);
      ended := ended + Ends(gone, Expired);
    }

    /** A worker takes the front task, unless it has to wait. */
    method TakeTask() returns (taken: bool)
      modifies this
      ensures taken <==> CanTake(old(Value()))
      ensures Value() == if taken then Take(old(Value())) else old(Value())
    {
      if |container| == 0 || mode != Working || |inFlight| >= workers { return false; }
      var task := container[0];
      container := container[1..];
      inFlight := inFlight + [task];
      attempts := attempts + [Attempt(task.id, task.retry)];
      return true;
    }

    /** The process function has returned for in-flight task `i`. */
    method FinishTask(i: nat, outcome: Outcome)
      requires i < |inFlight|
      modifies this
      ensures Value() == Finish(old(Value()), i, outcome.ok, outcome.data)
    {
      var task := inFlight[i];
      inFlight, calls := inFlight[..i] + inFlight[i + 1..], calls + 1;
      if !outcome.ok {
        var retry := task.retry + 1;
        if retry < MAX_RETRY_COUNT {
          container := container + [task.(data := outcome.data, retry := retry)];
        } else {
          ended := ended + [End(task.id, Exhausted)];
        }
      } else {
        ended := ended + [End(task.id, Succeeded)];
      }
    }

    /** One turn of such a worker: take the front task, process it, put it back or not. */
    method ProcessOne(outcome: Outcome)
      requires mode == Working && inFlight == [] && workers >= 1 && container != []
      requires forall t :: t in container ==> t.retry < MAX_RETRY_COUNT
      modifies this
      ensures Value() == Apply(Apply(old(Value()), Taking), Finishing(0, outcome.ok, outcome.data))
      ensures mode == Working && inFlight == [] && arrived == old(arrived) && calls == old(calls) + 1
      ensures Weight(container) + 1 <= Weight(old(container))
      ensures forall t :: t in container ==> t.retry < MAX_RETRY_COUNT
    {
      ghost var task, rest := container[0], container[1..];
      WeightAppend(rest, task.(data := outcome.data, retry := task.retry + 1));
      var taken := TakeTask();
      FinishTask(0, outcome);
    }

    /** The loop of a worker that nobody disturbs, until it would wait or has been told to stop
        (after as many calls as there are outcomes). It makes at most as many calls as the queued
        tasks have attempts left, one turn for each of the first outcomes, and only stops early when
        the queue is empty. */
    method WorkerLoop(outcomes: seq<Outcome>) returns (made: nat)
      requires mode == Working && inFlight == [] && workers >= 1
      requires forall t :: t in container ==> t.retry < MAX_RETRY_COUNT
      modifies this
      ensures made <= |outcomes| && calls == old(calls) + made
      ensures Value() == Run(old(Value()), Turns(outcomes[..made]))
      ensures made < |outcomes| ==> container == []
      ensures made + Weight(container) <= Weight(old(container))
      ensures inFlight == [] && arrived == old(arrived)
    {
      made := 0;
      while made < |outcomes| && |container| > 0
        invariant made <= |outcomes| && calls == old(calls) + made
        invariant Value() == Run(old(Value()), Turns(outcomes[..made]))
        invariant made + Weight(container) <= Weight(old(container))
        invariant mode == Working && inFlight == [] && arrived == old(arrived)
        invariant forall t :: t in container ==> t.retry < MAX_RETRY_COUNT
      {
        hide Run, Apply, Turns, Weight;
        OneTurn(old(Value()), outcomes, made);
        ProcessOne(outcomes[made]);
        made := made + 1;
      }
    }

    method SetState(m: Mode)
      modifies this`mode
      ensures mode == m
    {
      if mode == m { return; }
      mode := m;
    }

    method StopThreads(clear: bool)
      modifies this
      ensures Value() == Spec.StopThreads(old(Value()), clear)
    {
      if mode == ThreadsStopped { return; }
      SetState(ThreadsStopped);
      if clear {
        ended := ended + Ends(container, Cleared);
        container := [];
      }
    }
  }

  lemma OneTurn(q: Spec.Queue, outcomes: seq<Outcome>, i: nat)
    requires i < |outcomes|
    ensures Run(q, Turns(outcomes[..i + 1]))
      == Apply(Apply(Run(q, Turns(outcomes[..i])), Taking), Finishing(0, outcomes[i].ok, outcomes[i].data))
  {
    assert outcomes[..i + 1][..i] == outcomes[..i];
    var front, taking, finishing := Turns(outcomes[..i]), Taking, Finishing(0, outcomes[i].ok, outcomes[i].data);
    assert Turns(outcomes[..i + 1]) == front + [taking] + [finishing];
    assert (front + [taking] + [finishing])[..|front| + 1] == front + [taking];
    assert (front + [taking])[..|front|] == front;
    hide Apply, Turns;
  }

  /** One step of a scan that erases as it goes: element `i` either leaves or is passed over. */
  lemma ScanOne(c: seq<Task>, i: nat, p: Task -> bool)
    requires i < |c|
    ensures var erased := c[..i] + c[i + 1..];
      && erased[..i] == c[..i] && erased[i..] == c[i + 1..]
      && c[..i + 1] == c[..i] + [c[i]]
      && Select(c[i..], p) == (if p(c[i]) then [c[i]] else []) + Select(c[i + 1..], p)
      && Select(c[i..], Not(p)) == (if p(c[i]) then [] else [c[i]]) + Select(c[i + 1..], Not(p))
  {
    assert c[i..][1..] == c[i + 1..];
  }

  lemma ScanEnd(c: seq<Task>, p: Task -> bool)
    ensures c[..|c|] == c && Select(c[|c|..], p) == [] && Select(c[|c|..], Not(p)) == []
  {
  }
}
