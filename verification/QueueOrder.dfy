/** In which order tasks are attempted. First attempts are made in order of arrival by any number
    of workers; with a single worker so are second and third attempts. */
module QueueOrder {
  import opened QueueSpec
  import opened QueueRuns

  // ----- First attempts

  predicate FirstInOrder(a: Task, b: Task) {
    a.retry == 0 && b.retry == 0 ==> a.id < b.id
  }

  predicate SameRetryInOrder(a: Attempt, b: Attempt) {
    a.retry == b.retry ==> a.id < b.id
  }

  predicate BothFirst(a: Attempt, b: Attempt) {
    a.retry == 0 && b.retry == 0 ==> a.id < b.id
  }

  ghost predicate AllArrived(q: Queue) {
    && (forall t :: t in q.container || t in q.inFlight ==> t.id < q.arrived)
    && (forall a :: a in q.attempts ==> a.id < q.arrived)
  }

  /** Untried tasks are queued in order of arrival, after all that were tried a first time. */
  ghost predicate FirstInv(q: Queue) {
    && AllArrived(q)
    && Pairwise(q.container, FirstInOrder)
    && Pairwise(q.attempts, BothFirst)
    && (forall a, t :: a in q.attempts && t in q.container && a.retry == 0 && t.retry == 0 ==> a.id < t.id)
  }

  lemma AddFirst(q: Queue, a: Arrival)
    requires FirstInv(q)
    ensures FirstInv(Add(q, a))
  {
    var rest := if |q.container| >= MAX_QUEUE_SIZE then q.container[1..] else q.container;
    assert forall t :: t in rest ==> t in q.container;
    PairwiseAppend(rest, Task(q.arrived, a.data, a.time, 0), FirstInOrder);
  }

  lemma {:induction false} AddAllFirst(q: Queue, items: seq<Arrival>)
    requires FirstInv(q)
    ensures FirstInv(AddAll(q, items))
  {
    if items != [] {
      AddAllFirst(q, items[..|items| - 1]);
      AddFirst(AddAll(q, items[..|items| - 1]), items[|items| - 1]);
    }
  }

  lemma DropFirst(q: Queue, p: Task -> bool, fate: Fate)
    requires FirstInv(q)
    ensures FirstInv(Drop(q, p, fate))
  {
    SelectIsStable(q.container, Not(p), FirstInOrder);
    SelectedAreElements(q.container, Not(p));
  }

  lemma TakeFirst(q: Queue)
    requires FirstInv(q) && CanTake(q)
    ensures FirstInv(Take(q))
  {
    var task := q.container[0];
    PairwiseAppend(q.attempts, Attempt(task.id, task.retry), BothFirst);
    assert forall t :: t in q.container[1..] ==> t in q.container;
  }

  lemma FinishFirst(q: Queue, i: nat, ok: bool, data: Data)
    requires FirstInv(q) && i < |q.inFlight|
    ensures FirstInv(Finish(q, i, ok, data))
  {
    var task := q.inFlight[i];
    PairwiseAppend(q.container, task.(data := data, retry := task.retry + 1), FirstInOrder);
  }

  lemma StepFirst(q: Queue, step: Step)
    requires FirstInv(q)
    ensures FirstInv(Apply(q, step))
  {
    match step
    case Adding(a) => AddFirst(q, a);
    case AddingBatch(items) => AddAllFirst(q, items);
    case Taking => if CanTake(q) { TakeFirst(q); }
    case Finishing(i, ok, data) => if i < |q.inFlight| { FinishFirst(q, i, ok, data); }
    case Cleaning(now) => DropFirst(q, ExpiredBy(now), Expired);
    case Removing(p) => DropFirst(q, OnData(p), Removed);
    case _ =>
  }

  lemma {:induction false} RunFirst(workers: nat, steps: seq<Step>)
    ensures FirstInv(Run(Start(workers), steps))
  {
    if steps != [] {
      RunFirst(workers, steps[..|steps| - 1]);
      StepFirst(Run(Start(workers), steps[..|steps| - 1]), steps[|steps| - 1]);
    }
  }

  /** Any number of workers start first attempts in order of arrival. */
  lemma FirstAttemptsInOrder(workers: nat, steps: seq<Step>, i: nat, j: nat)
    requires var log := Run(Start(workers), steps).attempts;
      i < j < |log| && log[i].retry == 0 && log[j].retry == 0
    ensures var log := Run(Start(workers), steps).attempts; log[i].id < log[j].id
  {
    RunFirst(workers, steps);
    PairwiseAt(Run(Start(workers), steps).attempts, BothFirst, i, j);
  }

  // ----- At most one worker

  /** How an earlier queued task relates to a later one: more retries means an earlier arrival, and
      among equals the earlier arrival comes first. */
  predicate ClassOrder(a: Task, b: Task) {
    if a.retry < b.retry then b.id < a.id else a.id < b.id
  }

  /** What is in flight, then what is queued. */
  function Line(q: Queue): seq<Task> {
    q.inFlight + q.container
  }

  /** An attempt with some retry count comes before every task that could still make it. */
  ghost predicate AttemptsAhead(q: Queue) {
    && (forall a, t :: a in q.attempts && t in q.container && t.retry <= a.retry ==> a.id < t.id)
    && (forall a, t :: a in q.attempts && t in q.inFlight && t.retry < a.retry ==> a.id < t.id)
  }

  ghost predicate OneInv(q: Queue) {
    && q.workers <= 1 && |q.inFlight| <= 1
    && AllArrived(q)
    && Pairwise(Line(q), ClassOrder)
    && Pairwise(q.attempts, SameRetryInOrder)
    && AttemptsAhead(q)
  }

  lemma {:induction false} PairwiseParts(a: seq<Task>, b: seq<Task>, r: (Task, Task) -> bool)
    ensures Pairwise(a + b, r) <==> Pairwise(a, r) && Pairwise(b, r) && forall x, y :: x in a && y in b ==> r(x, y)
  {
    if a == [] {
      assert a + b == b;
    } else {
      assert (a + b)[1..] == a[1..] + b;
      assert forall x :: x in a <==> x == a[0] || x in a[1..];
      assert forall x :: x in a[1..] + b <==> x in a[1..] || x in b;
      PairwiseParts(a[1..], b, r);
    }
  }

  lemma AddOne(q: Queue, a: Arrival)
    requires OneInv(q)
    ensures OneInv(Add(q, a))
  {
    AddAhead(q, a);
    AddLine(q, a);
    hide Add, AllArrived, AttemptsAhead, Pairwise, ClassOrder, Line;
  }

  lemma AddAhead(q: Queue, a: Arrival)
    requires AllArrived(q) && AttemptsAhead(q)
    ensures AllArrived(Add(q, a)) && AttemptsAhead(Add(q, a))
  {
  }

  lemma AddLine(q: Queue, a: Arrival)
    requires AllArrived(q) && Pairwise(Line(q), ClassOrder)
    ensures Pairwise(Line(Add(q, a)), ClassOrder)
    ensures Add(q, a).inFlight == q.inFlight && Add(q, a).workers == q.workers && Add(q, a).attempts == q.attempts
  {
    var rest := if |q.container| >= MAX_QUEUE_SIZE then q.container[1..] else q.container;
    LineAppend(q, rest, Task(q.arrived, a.data, a.time, 0));
    hide Pairwise, ClassOrder;
  }

  /** What is left of the queue, with a task appended that comes after everything in the line. */
  lemma LineAppend(q: Queue, rest: seq<Task>, task: Task)
    requires Pairwise(Line(q), ClassOrder) && (rest == q.container || (q.container != [] && rest == q.container[1..]))
    requires forall t :: t in q.inFlight || t in q.container ==> ClassOrder(t, task)
    ensures Pairwise(q.inFlight + (rest + [task]), ClassOrder)
  {
    PairwiseParts(q.inFlight, q.container, ClassOrder);
    assert forall t :: t in rest ==> t in q.container;
    hide ClassOrder;
    PairwiseParts(q.inFlight, rest, ClassOrder);
    PairwiseAppend(q.inFlight + rest, task, ClassOrder);
    assert q.inFlight + (rest + [task]) == q.inFlight + rest + [task];
  }

  lemma {:induction false} AddAllOne(q: Queue, items: seq<Arrival>)
    requires OneInv(q)
    ensures OneInv(AddAll(q, items))
  {
    if items != [] {
      AddAllOne(q, items[..|items| - 1]);
      AddOne(AddAll(q, items[..|items| - 1]), items[|items| - 1]);
    }
  }

  lemma DropOne(q: Queue, p: Task -> bool, fate: Fate)
    requires OneInv(q)
    ensures OneInv(Drop(q, p, fate))
  {
    PairwiseParts(q.inFlight, q.container, ClassOrder);
    SelectIsStable(q.container, Not(p), ClassOrder);
    SelectedAreElements(q.container, Not(p));
    PairwiseParts(q.inFlight, Select(q.container, Not(p)), ClassOrder);
  }

  lemma TakeOne(q: Queue)
    requires OneInv(q) && CanTake(q)
    ensures OneInv(Take(q))
  {
    TakeAhead(q);
    TakeLine(q);
    hide AllArrived, AttemptsAhead, Pairwise, ClassOrder, Line, SameRetryInOrder;
  }

  /** A taken task is ahead of all that stay, and no later attempt of its rank was made. */
  lemma TakeAhead(q: Queue)
    requires CanTake(q) && q.inFlight == [] && AllArrived(q) && AttemptsAhead(q) && Pairwise(Line(q), ClassOrder)
    ensures AllArrived(Take(q)) && AttemptsAhead(Take(q))
  {
    hide ClassOrder;
    var (task, rest) := (q.container[0], q.container[1..]);
    FrontFirst(q);
    hide Pairwise, Line;
    StillAhead(q.attempts, task, rest);
    TakeArrived(q);
    hide AllArrived;
  }

  lemma FrontFirst(q: Queue)
    requires CanTake(q) && q.inFlight == [] && Pairwise(Line(q), ClassOrder)
    ensures q.container[0] in q.container
    ensures forall t :: t in q.container[1..] ==> t in q.container && ClassOrder(q.container[0], t)
  {
    hide ClassOrder;
    assert Line(q) == q.container;
  }

  lemma TakeArrived(q: Queue)
    requires CanTake(q) && AllArrived(q)
    ensures AllArrived(Take(q))
  {
    assert q.container[0] in q.container && forall t :: t in q.container[1..] ==> t in q.container;
  }

  lemma StillAhead(attempts: seq<Attempt>, task: Task, rest: seq<Task>)
    requires forall t :: t in rest ==> ClassOrder(task, t)
    requires forall a, t :: a in attempts && (t == task || t in rest) && t.retry <= a.retry ==> a.id < t.id
    ensures var after := attempts + [Attempt(task.id, task.retry)];
      && (forall a, t :: a in after && t in rest && t.retry <= a.retry ==> a.id < t.id)
      && (forall a :: a in after && task.retry < a.retry ==> a.id < task.id)
  {
  }

  lemma TakeLine(q: Queue)
    requires CanTake(q) && q.inFlight == [] && AttemptsAhead(q)
    requires Pairwise(Line(q), ClassOrder) && Pairwise(q.attempts, SameRetryInOrder)
    ensures Pairwise(Line(Take(q)), ClassOrder) && Pairwise(Take(q).attempts, SameRetryInOrder)
  {
    hide ClassOrder, Pairwise;
    var task := q.container[0];
    assert Line(Take(q)) == Line(q) by { assert [task] + q.container[1..] == q.container; }
    PairwiseAppend(q.attempts, Attempt(task.id, task.retry), SameRetryInOrder);
  }

  lemma FinishOne(q: Queue, i: nat, ok: bool, data: Data)
    requires OneInv(q) && i < |q.inFlight|
    ensures OneInv(Finish(q, i, ok, data))
  {
    FinishAhead(q, ok, data);
    FinishLine(q, ok, data);
    hide AllArrived, AttemptsAhead, Pairwise, ClassOrder;
  }

  lemma FinishAhead(q: Queue, ok: bool, data: Data)
    requires |q.inFlight| == 1 && AllArrived(q) && AttemptsAhead(q)
    ensures AllArrived(Finish(q, 0, ok, data)) && AttemptsAhead(Finish(q, 0, ok, data))
  {
    assert q.inFlight[0] in q.inFlight;
  }

  lemma FinishLine(q: Queue, ok: bool, data: Data)
    requires |q.inFlight| == 1 && Pairwise(Line(q), ClassOrder)
    ensures Pairwise(Line(Finish(q, 0, ok, data)), ClassOrder)
  {
    hide ClassOrder, Pairwise;
    var task := q.inFlight[0];
    var again := task.(data := data, retry := task.retry + 1);
    PairwiseParts(q.inFlight, q.container, ClassOrder);
    assert task in q.inFlight;
    forall t | t in q.container ensures ClassOrder(t, again) { TriedOnceMore(task, again, t); }
    PairwiseAppend(q.container, again, ClassOrder);
    assert Line(Finish(q, 0, ok, data)) == Finish(q, 0, ok, data).container;
  }

  lemma TriedOnceMore(task: Task, again: Task, t: Task)
    requires ClassOrder(task, t) && again.id == task.id && again.retry == task.retry + 1
    ensures ClassOrder(t, again)
  {
  }

  lemma StepOne(q: Queue, step: Step)
    requires OneInv(q)
    ensures OneInv(Apply(q, step))
  {
    match step
    case Adding(a) => AddOne(q, a);
    case AddingBatch(items) => AddAllOne(q, items);
    case Taking => if CanTake(q) { TakeOne(q); }
    case Finishing(i, ok, data) => if i < |q.inFlight| { FinishOne(q, i, ok, data); }
    case Cleaning(now) => DropOne(q, ExpiredBy(now), Expired);
    case Removing(p) => DropOne(q, OnData(p), Removed);
    case SettingMode(mode) => assert Line(Apply(q, step)) == Line(q);
    case Stopping(clear) =>
      PairwiseParts(q.inFlight, q.container, ClassOrder);
      PairwiseParts(q.inFlight, [], ClassOrder);
  }

  lemma {:induction false} RunOne(workers: nat, steps: seq<Step>)
    requires workers <= 1
    ensures OneInv(Run(Start(workers), steps))
  {
    if steps != [] {
      RunOne(workers, steps[..|steps| - 1]);
      StepOne(Run(Start(workers), steps[..|steps| - 1]), steps[|steps| - 1]);
    }
  }

  /** Queued tasks that were tried equally often stand in order of arrival, and a task that was tried
      more often arrived earlier than one that was tried less often. */
  ghost predicate ClassesInOrder(c: seq<Task>) {
    forall i, j :: 0 <= i < |c| && 0 <= j < |c| ==>
      && (c[i].retry == c[j].retry && i < j ==> c[i].id < c[j].id)
      && (c[i].retry > c[j].retry ==> c[i].id < c[j].id)
  }

  /** For every r, the attempts number r + 1 were made in order of arrival. */
  ghost predicate RanksInOrder(log: seq<Attempt>) {
    forall i, j :: 0 <= i < j < |log| && log[i].retry == log[j].retry ==> log[i].id < log[j].id
  }

  lemma RetryClassesInOrder(workers: nat, steps: seq<Step>)
    requires workers <= 1
    ensures ClassesInOrder(Run(Start(workers), steps).container)
  {
    RunOne(workers, steps);
    var q := Run(Start(workers), steps);
    PairwiseParts(q.inFlight, q.container, ClassOrder);
    var c := q.container;
    forall i, j | 0 <= i < |c| && 0 <= j < |c|
      ensures c[i].retry == c[j].retry && i < j ==> c[i].id < c[j].id
      ensures c[i].retry > c[j].retry ==> c[i].id < c[j].id
    {
      if i < j { PairwiseAt(c, ClassOrder, i, j); }
      if j < i { PairwiseAt(c, ClassOrder, j, i); }
    }
  }

  lemma AttemptsInOrder(workers: nat, steps: seq<Step>)
    requires workers <= 1
    ensures RanksInOrder(Run(Start(workers), steps).attempts)
  {
    RunOne(workers, steps);
    var log := Run(Start(workers), steps).attempts;
    forall i, j | 0 <= i < j < |log| && log[i].retry == log[j].retry ensures log[i].id < log[j].id {
      PairwiseAt(log, SameRetryInOrder, i, j);
    }
  }

  // ----- More workers

  function Then(steps: seq<Step>, step: Step): seq<Step> {
    steps + [step]
  }

  lemma RunThen(q: Queue, steps: seq<Step>, step: Step)
    ensures Run(q, Then(steps, step)) == Apply(Run(q, steps), step)
  {
    assert Then(steps, step)[..|steps|] == steps;
  }

  lemma OneArrives(q: Queue, steps: seq<Step>, a: Arrival)
    requires Run(q, steps).container == []
    ensures var q' := Run(q, steps);
      Run(q, Then(steps, Adding(a)))
      == q'.(container := [Task(q'.arrived, a.data, a.time, 0)], arrived := q'.arrived + 1)
  {
    RunThen(q, steps, Adding(a));
  }

  lemma OneIsTaken(q: Queue, steps: seq<Step>)
    requires CanTake(Run(q, steps))
    ensures var q' := Run(q, steps);
      var task := q'.container[0];
      Run(q, Then(steps, Taking)) == q'.(container := q'.container[1..], inFlight := q'.inFlight + [task],
                                         attempts := q'.attempts + [Attempt(task.id, task.retry)])
  {
    RunThen(q, steps, Taking);
  }

  lemma OneFails(q: Queue, steps: seq<Step>, i: nat, data: Data)
    requires var q' := Run(q, steps); i < |q'.inFlight| && q'.inFlight[i].retry == 0
    ensures var q' := Run(q, steps);
      Run(q, Then(steps, Finishing(i, false, data)))
      == q'.(container := q'.container + [q'.inFlight[i].(data := data, retry := 1)],
             inFlight := q'.inFlight[..i] + q'.inFlight[i + 1..], calls := q'.calls + 1)
  {
    RunThen(q, steps, Finishing(i, false, data));
  }

  /** Two arrivals, each taken by a worker of its own. */
  lemma BothTaken(workers: nat, a: Arrival) returns (steps: seq<Step>)
    requires workers >= 2
    ensures var q := Run(Start(workers), steps);
      && q.inFlight == [Task(0, a.data, a.time, 0), Task(1, a.data, a.time, 0)] && q.container == []
      && q.mode == Working && q.workers == workers && q.attempts == [Attempt(0, 0), Attempt(1, 0)]
  {
    var start := Start(workers);
    RunThen(start, [], SettingMode(Working));
    steps := Then([], SettingMode(Working));
    assert Run(start, steps) == start.(mode := Working);
    hide Run, Then;
    OneArrives(start, steps, a);
    steps := Then(steps, Adding(a));
    OneIsTaken(start, steps);
    steps := Then(steps, Taking);
    assert Run(start, steps).inFlight == [Task(0, a.data, a.time, 0)];
    OneArrives(start, steps, a);
    steps := Then(steps, Adding(a));
    OneIsTaken(start, steps);
    steps := Then(steps, Taking);
  }

  /** Any two workers are enough to break the order of second attempts, in the queue and in the
      attempts made next: the one with the later task may fail first. */
  lemma TwoWorkersOvertake(workers: nat, a: Arrival) returns (steps: seq<Step>, more: seq<Step>)
    requires workers >= 2
    ensures !ClassesInOrder(Run(Start(workers), steps).container)
    ensures !RanksInOrder(Run(Start(workers), more).attempts)
  {
    hide Run, Then;
    var start := Start(workers);
    steps := BothTaken(workers, a);
    OneFails(start, steps, 1, 0);
    steps := Then(steps, Finishing(1, false, 0));
    OneFails(start, steps, 0, 0);
    steps := Then(steps, Finishing(0, false, 0));
    var q := Run(start, steps);
    assert q.container[0] == Task(1, 0, a.time, 1) && q.container[1] == Task(0, 0, a.time, 1) && q.inFlight == [];
    OneIsTaken(start, steps);
    more := Then(steps, Taking);
    OneIsTaken(start, more);
    more := Then(more, Taking);
    var log := Run(start, more).attempts;
    assert log[2] == Attempt(1, 1) && log[3] == Attempt(0, 1);
  }

  /** Retry order in the queue is kept by every run exactly if there is at most one worker. */
  lemma QueueOrderNeedsOneWorker(workers: nat)
    ensures (forall steps :: ClassesInOrder(Run(Start(workers), steps).container)) <==> workers <= 1
  {
    if workers <= 1 {
      forall steps ensures ClassesInOrder(Run(Start(workers), steps).container) { RetryClassesInOrder(workers, steps); }
    } else {
      var _, _ := TwoWorkersOvertake(workers, Arrival(0, 0));
    }
  }

  /** So is the order of attempts. */
  lemma AttemptOrderNeedsOneWorker(workers: nat)
    ensures (forall steps :: RanksInOrder(Run(Start(workers), steps).attempts)) <==> workers <= 1
  {
    if workers <= 1 {
      forall steps ensures RanksInOrder(Run(Start(workers), steps).attempts) { AttemptsInOrder(workers, steps); }
    } else {
      var _, _ := TwoWorkersOvertake(workers, Arrival(0, 0));
    }
  }
}
