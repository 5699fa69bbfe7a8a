/** What every run of producers, workers, the cleaner and removals keeps. */
module QueueRuns {
  import opened QueueSpec

  // ----- Selecting

  /** The two halves of a selection share out the elements. */
  lemma {:induction false} SelectShares<T>(s: seq<T>, p: T -> bool)
    ensures multiset(Select(s, p)) + multiset(Select(s, Not(p))) == multiset(s)
  {
    if s != [] {
      assert s == [s[0]] + s[1..];
      SelectShares(s[1..], p);
    }
  }

  lemma {:induction false} SelectedAreElements<T>(s: seq<T>, p: T -> bool)
    ensures forall x :: x in Select(s, p) ==> x in s && p(x)
    ensures |Select(s, p)| <= |s|
  {
    if s != [] {
      SelectedAreElements(s[1..], p);
      assert forall x :: x in Select(s[1..], p) ==> x in s;
    }
  }

  /** Every earlier element stands in relation `r` to every later one. */
  ghost predicate Pairwise<T>(s: seq<T>, r: (T, T) -> bool) {
    s == [] || ((forall x :: x in s[1..] ==> r(s[0], x)) && Pairwise(s[1..], r))
  }

  /** Selecting is stable: it keeps whatever holds of earlier and later elements. */
  lemma {:induction false} SelectIsStable<T>(s: seq<T>, p: T -> bool, r: (T, T) -> bool)
    requires Pairwise(s, r)
    ensures Pairwise(Select(s, p), r)
  {
    if s != [] {
      SelectIsStable(s[1..], p, r);
      SelectedAreElements(s[1..], p);
    }
  }

  lemma {:induction false} PairwiseAppend<T>(s: seq<T>, x: T, r: (T, T) -> bool)
    requires Pairwise(s, r) && forall y :: y in s ==> r(y, x)
    ensures Pairwise(s + [x], r)
  {
    if s != [] {
      assert (s + [x])[1..] == s[1..] + [x];
      PairwiseAppend(s[1..], x, r);
    }
  }

  lemma {:induction false} PairwiseAt<T>(s: seq<T>, r: (T, T) -> bool, i: nat, j: nat)
    requires Pairwise(s, r) && i < j < |s|
    ensures r(s[i], s[j])
  {
    if i == 0 {
      assert s[j] in s[1..] by { assert s[1..][j - 1] == s[j]; }
    } else {
      PairwiseAt(s[1..], r, i - 1, j - 1);
    }
  }

  // ----- Capacity

  ghost predicate Bounded(q: Queue) {
    && q.workers <= MAX_WORKERS
    && |q.inFlight| <= q.workers
    && |q.container| + |q.inFlight| <= MAX_QUEUE_SIZE + q.workers
  }

  lemma {:induction false} AddAllBounded(q: Queue, items: seq<Arrival>)
    requires Bounded(q)
    ensures Bounded(AddAll(q, items))
  {
    if items != [] { AddAllBounded(q, items[..|items| - 1]); }
  }

  lemma StepBounded(q: Queue, step: Step)
    requires Bounded(q)
    ensures Bounded(Apply(q, step))
  {
    match step
    case AddingBatch(items) => AddAllBounded(q, items);
    case Cleaning(now) => SelectedAreElements(q.container, Not(ExpiredBy(now)));
    case Removing(p) => SelectedAreElements(q.container, Not(OnData(p)));
    case _ =>
  }

  /** Queued and in-flight tasks together never exceed the limit by more than the workers. */
  lemma {:induction false} Capacity(workers: nat, steps: seq<Step>)
    requires workers <= MAX_WORKERS
    ensures Bounded(Run(Start(workers), steps))
  {
    if steps != [] {
      Capacity(workers, steps[..|steps| - 1]);
      StepBounded(Run(Start(workers), steps[..|steps| - 1]), steps[|steps| - 1]);
    }
  }

  predicate WithinLimit(q: Queue) {
    |q.container| <= MAX_QUEUE_SIZE
  }

  /** A failed task goes back to a queue that is already full. */
  predicate Overfills(q: Queue, step: Step) {
    && step.Finishing? && step.i < |q.inFlight| && !step.ok
    && q.inFlight[step.i].retry + 1 < MAX_RETRY_COUNT
    && |q.container| >= MAX_QUEUE_SIZE
  }

  lemma {:induction false} AddAllWithinLimit(q: Queue, items: seq<Arrival>)
    requires WithinLimit(q)
    ensures WithinLimit(AddAll(q, items))
  {
    if items != [] { AddAllWithinLimit(q, items[..|items| - 1]); }
  }

  /** From within the size limit, that is the one step which leaves it. */
  lemma StepWithinLimit(q: Queue, step: Step)
    requires WithinLimit(q)
    ensures WithinLimit(Apply(q, step)) <==> !Overfills(q, step)
  {
    match step
    case AddingBatch(items) => AddAllWithinLimit(q, items);
    case Cleaning(now) => SelectedAreElements(q.container, Not(ExpiredBy(now)));
    case Removing(p) => SelectedAreElements(q.container, Not(OnData(p)));
    case _ =>
  }

  ghost predicate NeverOverfills(q: Queue, steps: seq<Step>) {
    forall k :: 0 <= k < |steps| ==> !Overfills(Run(q, steps[..k]), steps[k])
  }

  lemma RunPrefix(q: Queue, steps: seq<Step>, k: nat)
    requires k < |steps|
    ensures Run(q, steps[..k + 1]) == Apply(Run(q, steps[..k]), steps[k])
  {
    assert steps[..k + 1][..k] == steps[..k];
  }

  lemma {:induction false} WithinLimitUpTo(q: Queue, steps: seq<Step>, k: nat)
    requires WithinLimit(q) && NeverOverfills(q, steps) && k <= |steps|
    ensures WithinLimit(Run(q, steps[..k]))
  {
    if k > 0 {
      WithinLimitUpTo(q, steps, k - 1);
      RunPrefix(q, steps, k - 1);
      StepWithinLimit(Run(q, steps[..k - 1]), steps[k - 1]);
      hide Run, Apply, WithinLimit, Overfills;
    }
  }

  /** In any run, with any number of workers, the queue stays within the size limit all along exactly
      if no failed task ever goes back to a full queue. */
  lemma LimitIsExact(workers: nat, steps: seq<Step>)
    ensures (forall k :: 0 <= k <= |steps| ==> WithinLimit(Run(Start(workers), steps[..k])))
            <==> NeverOverfills(Start(workers), steps)
  {
    var q := Start(workers);
    assert WithinLimit(q);
    hide Run, Apply, WithinLimit, Overfills;
    if NeverOverfills(q, steps) {
      forall k | 0 <= k <= |steps| ensures WithinLimit(Run(q, steps[..k])) { WithinLimitUpTo(q, steps, k); }
    }
    if forall k :: 0 <= k <= |steps| ==> WithinLimit(Run(q, steps[..k])) {
      forall k | 0 <= k < |steps| ensures !Overfills(Run(q, steps[..k]), steps[k]) {
        RunPrefix(q, steps, k);
        StepWithinLimit(Run(q, steps[..k]), steps[k]);
        assert WithinLimit(Run(q, steps[..k + 1]));
      }
    }
  }

  // The bound is reached by queued tasks alone: fill the queue, take one task per worker, fill up
  // again, and let every worker fail.

  function Times(step: Step, n: nat): seq<Step> {
    if n == 0 then [] else Times(step, n - 1) + [step]
  }

  lemma {:induction false} RunConcat(q: Queue, a: seq<Step>, b: seq<Step>)
    ensures Run(q, a + b) == Run(Run(q, a), b)
  {
    if b == [] {
      assert a + b == a;
    } else {
      var front := b[..|b| - 1];
      assert (a + b)[..|a + b| - 1] == a + front;
      RunConcat(q, a, front);
    }
  }

  /** `q` has `n` queued tasks and `k` in flight, none of them tried before, and is working. */
  ghost predicate Shape(q: Queue, n: nat, k: nat) {
    && |q.container| == n && |q.inFlight| == k && q.mode == Working
    && (forall t :: t in q.container || t in q.inFlight ==> t.retry == 0)
  }

  lemma {:induction false} AddTimes(q: Queue, a: Arrival, n: nat, k: nat, more: nat)
    requires Shape(q, n, k) && n + more <= MAX_QUEUE_SIZE
    ensures Shape(Run(q, Times(Adding(a), more)), n + more, k)
    ensures Run(q, Times(Adding(a), more)).workers == q.workers
  {
    if more != 0 {
      AddTimes(q, a, n, k, more - 1);
      assert Times(Adding(a), more)[..more - 1] == Times(Adding(a), more - 1) by { TimesLength(Adding(a), more - 1); }
      TimesLength(Adding(a), more);
    }
  }

  lemma {:induction false} TimesLength(step: Step, n: nat)
    ensures |Times(step, n)| == n
  {
    if n != 0 { TimesLength(step, n - 1); }
  }

  lemma {:induction false} TakeTimes(q: Queue, n: nat, more: nat)
    requires Shape(q, n, 0) && more <= n && more <= q.workers
    ensures Shape(Run(q, Times(Taking, more)), n - more, more)
    ensures Run(q, Times(Taking, more)).workers == q.workers
  {
    if more != 0 {
      TakeTimes(q, n, more - 1);
      TimesLength(Taking, more - 1);
      TimesLength(Taking, more);
      assert Times(Taking, more)[..more - 1] == Times(Taking, more - 1);
      TakeOnce(Run(q, Times(Taking, more - 1)), n - more + 1, more - 1);
      hide Apply, Shape;
    }
  }

  lemma TakeOnce(q: Queue, n: nat, k: nat)
    requires Shape(q, n, k) && n > 0 && k < q.workers
    ensures Shape(Apply(q, Taking), n - 1, k + 1) && Apply(q, Taking).workers == q.workers
  {
    assert q.container[0] in q.container;
  }

  /** A worker fails a task for the first time. */
  lemma FailOnce(q: Queue)
    requires q.inFlight != [] && forall t :: t in q.inFlight ==> t.retry == 0
    ensures var q' := Apply(q, Finishing(0, false, 0));
      && |q'.container| == |q.container| + 1 && |q'.inFlight| == |q.inFlight| - 1
      && forall t :: t in q'.inFlight ==> t.retry == 0
  {
    assert q.inFlight[0] in q.inFlight;
  }

  lemma {:induction false} FailTimes(q: Queue, n: nat, k: nat, more: nat)
    requires Shape(q, n, k) && more <= k
    ensures var q' := Run(q, Times(Finishing(0, false, 0), more));
      |q'.container| == n + more && |q'.inFlight| == k - more && forall t :: t in q'.inFlight ==> t.retry == 0
  {
    var step := Finishing(0, false, 0);
    if more != 0 {
      FailTimes(q, n, k, more - 1);
      TimesLength(step, more - 1);
      TimesLength(step, more);
      assert Times(step, more)[..more - 1] == Times(step, more - 1);
      FailOnce(Run(q, Times(step, more - 1)));
      hide Apply;
    }
  }

  /** So the size limit alone is no invariant: for any number of workers there is a run that leaves
      the limit exceeded by that many queued tasks. */
  lemma CapacityIsReached(workers: nat) returns (steps: seq<Step>)
    requires MIN_WORKERS <= workers <= MAX_WORKERS
    ensures |Run(Start(workers), steps).container| == MAX_QUEUE_SIZE + workers
  {
    var a, q0 := Arrival(0, 0), Start(workers);
    var s1, s2 := [SettingMode(Working)], Times(Adding(a), MAX_QUEUE_SIZE);
    var s3, s4 := Times(Taking, workers), Times(Adding(a), workers);
    var s5 := Times(Finishing(0, false, 0), workers);
    var q1 := Run(q0, s1);
    assert s1[..0] == [] && Run(q0, []) == q0;
    AddTimes(q1, a, 0, 0, MAX_QUEUE_SIZE);
    var q2 := Run(q1, s2);
    TakeTimes(q2, MAX_QUEUE_SIZE, workers);
    var q3 := Run(q2, s3);
    AddTimes(q3, a, MAX_QUEUE_SIZE - workers, workers, workers);
    var q4 := Run(q3, s4);
    FailTimes(q4, MAX_QUEUE_SIZE, workers, workers);
    RunConcat(q0, s1, s2);
    RunConcat(q0, s1 + s2, s3);
    RunConcat(q0, s1 + s2 + s3, s4);
    RunConcat(q0, s1 + s2 + s3 + s4, s5);
    steps := s1 + s2 + s3 + s4 + s5;
  }

  // ----- Retries end

  ghost predicate Paid(q: Queue) {
    && (forall t :: t in q.container || t in q.inFlight ==> t.retry < MAX_RETRY_COUNT)
    && q.calls + Weight(q.container) + Weight(q.inFlight) <= MAX_RETRY_COUNT * q.arrived
  }

  lemma {:induction false} WeightConcat(a: seq<Task>, b: seq<Task>)
    ensures Weight(a + b) == Weight(a) + Weight(b)
  {
    if a == [] {
      assert a + b == b;
    } else {
      assert (a + b)[1..] == a[1..] + b;
      WeightConcat(a[1..], b);
    }
  }

  lemma {:induction false} WeightSelect(tasks: seq<Task>, p: Task -> bool)
    ensures Weight(Select(tasks, p)) <= Weight(tasks)
  {
    if tasks != [] { WeightSelect(tasks[1..], p); }
  }

  lemma WeightFront(task: Task, rest: seq<Task>)
    ensures Weight([task] + rest) == Left(task) + Weight(rest)
  {
    assert ([task] + rest)[1..] == rest;
  }

  lemma WeightWithout(tasks: seq<Task>, i: nat)
    requires i < |tasks|
    ensures Weight(tasks) == Weight(tasks[..i] + tasks[i + 1..]) + Left(tasks[i])
  {
    hide Weight;
    var front, rest := tasks[..i], tasks[i + 1..];
    var tail := [tasks[i]] + rest;
    WeightFront(tasks[i], rest);
    assert tasks == front + tail;
    WeightConcat(front, tail);
    WeightConcat(front, rest);
  }

  /** The attempts left, queued and in flight. */
  function TotalWeight(q: Queue): nat {
    Weight(q.container) + Weight(q.inFlight)
  }

  lemma AddWeight(q: Queue, a: Arrival)
    requires forall t :: t in q.container || t in q.inFlight ==> t.retry < MAX_RETRY_COUNT
    ensures var q' := Add(q, a);
      && (forall t :: t in q'.container || t in q'.inFlight ==> t.retry < MAX_RETRY_COUNT)
      && TotalWeight(q') <= TotalWeight(q) + MAX_RETRY_COUNT
  {
    var rest := if |q.container| >= MAX_QUEUE_SIZE then q.container[1..] else q.container;
    WeightAppend(rest, Task(q.arrived, a.data, a.time, 0));
  }

  /** One completed call uses up one attempt at least. */
  lemma FinishWeight(q: Queue, i: nat, ok: bool, data: Data)
    requires Paid(q) && i < |q.inFlight|
    ensures var q' := Finish(q, i, ok, data);
      && (forall t :: t in q'.container || t in q'.inFlight ==> t.retry < MAX_RETRY_COUNT)
      && q'.calls == q.calls + 1 && TotalWeight(q') + 1 <= TotalWeight(q)
  {
    var task := q.inFlight[i];
    WeightWithout(q.inFlight, i);
    WeightAppend(q.container, task.(data := data, retry := task.retry + 1));
  }

  predicate Adds(step: Step) {
    step.Adding? || step.AddingBatch?
  }

  lemma {:induction false} AddAllPaid(q: Queue, items: seq<Arrival>)
    requires Paid(q)
    ensures Paid(AddAll(q, items)) && AddAll(q, items).calls == q.calls
  {
    if items != [] {
      AddAllPaid(q, items[..|items| - 1]);
      AddWeight(AddAll(q, items[..|items| - 1]), items[|items| - 1]);
    }
  }

  /** Without additions, calls made and attempts left never grow together. */
  lemma StepPaid(q: Queue, step: Step)
    requires Paid(q)
    ensures Paid(Apply(q, step))
    ensures !Adds(step) ==> Apply(q, step).calls + TotalWeight(Apply(q, step)) <= q.calls + TotalWeight(q)
  {
    match step
    case Adding(a) => AddWeight(q, a);
    case AddingBatch(items) => AddAllPaid(q, items);
    case Taking => if CanTake(q) { WeightAppend(q.inFlight, q.container[0]); }
    case Finishing(i, ok, data) => if i < |q.inFlight| { FinishWeight(q, i, ok, data); }
    case Cleaning(now) =>
      WeightSelect(q.container, Not(ExpiredBy(now)));
      SelectedAreElements(q.container, Not(ExpiredBy(now)));
    case Removing(p) =>
      WeightSelect(q.container, Not(OnData(p)));
      SelectedAreElements(q.container, Not(OnData(p)));
    case _ =>
  }

  /** Every task is tried at most three times: completed calls and attempts left are paid for by
      three attempts for each task ever added. */
  lemma {:induction false} RetriesArePaid(workers: nat, steps: seq<Step>)
    ensures Paid(Run(Start(workers), steps))
  {
    if steps != [] {
      RetriesArePaid(workers, steps[..|steps| - 1]);
      StepPaid(Run(Start(workers), steps[..|steps| - 1]), steps[|steps| - 1]);
    }
  }

  /** Once nothing is added any more, the calls still to come are bounded by the attempts left,
      whatever the process function returns. */
  lemma {:induction false} CallsStillToCome(q: Queue, steps: seq<Step>)
    requires Paid(q) && forall k :: 0 <= k < |steps| ==> !Adds(steps[k])
    ensures Paid(Run(q, steps))
    ensures Run(q, steps).calls + TotalWeight(Run(q, steps)) <= q.calls + TotalWeight(q)
  {
    if steps != [] {
      CallsStillToCome(q, steps[..|steps| - 1]);
      StepPaid(Run(q, steps[..|steps| - 1]), steps[|steps| - 1]);
    }
  }

  /** A step of a worker that does something. */
  predicate Works(q: Queue, step: Step) {
    (step.Taking? && CanTake(q)) || (step.Finishing? && step.i < |q.inFlight|)
  }

  /** How many steps the workers can still make: taking and finishing each attempt. */
  function StepsLeft(q: Queue): int {
    2 * TotalWeight(q) - |q.inFlight|
  }

  lemma {:induction false} FlightsAreWeighed(tasks: seq<Task>)
    requires forall t :: t in tasks ==> t.retry < MAX_RETRY_COUNT
    ensures |tasks| <= Weight(tasks)
  {
    if tasks != [] {
      assert tasks[0] in tasks;
      FlightsAreWeighed(tasks[1..]);
    }
  }

  lemma WorkCounts(q: Queue, step: Step)
    requires Paid(q) && Works(q, step)
    ensures StepsLeft(Apply(q, step)) < StepsLeft(q)
  {
    if step.Taking? {
      WeightAppend(q.inFlight, q.container[0]);
    } else {
      FinishWeight(q, step.i, step.ok, step.data);
    }
  }

  /** However the workers are scheduled and whatever the process function returns, they come to an
      end; and as long as a task is left while the queue is working, one of them can do something. */
  lemma {:induction false} WorkersComeToAnEnd(q: Queue, steps: seq<Step>)
    requires Paid(q) && forall k :: 0 <= k < |steps| ==> Works(Run(q, steps[..k]), steps[k])
    ensures Paid(Run(q, steps))
    ensures |steps| + StepsLeft(Run(q, steps)) <= StepsLeft(q) && StepsLeft(Run(q, steps)) >= 0
    ensures var q' := Run(q, steps);
      q'.mode == Working && q'.workers >= 1 && (q'.container != [] || q'.inFlight != [])
      ==> Works(q', Taking) || Works(q', Finishing(0, true, 0))
  {
    if steps != [] {
      var front := steps[..|steps| - 1];
      assert forall k :: 0 <= k < |front| ==> front[..k] == steps[..k] && front[k] == steps[k];
      WorkersComeToAnEnd(q, front);
      StepPaid(Run(q, front), steps[|steps| - 1]);
      WorkCounts(Run(q, front), steps[|steps| - 1]);
    }
    FlightsAreWeighed(Run(q, steps).inFlight);
  }

  // ----- No task is lost

  function Ids(tasks: seq<Task>): seq<nat> {
    seq(|tasks|, i requires 0 <= i < |tasks| => tasks[i].id)
  }

  function EndIds(ended: seq<End>): seq<nat> {
    seq(|ended|, i requires 0 <= i < |ended| => ended[i].id)
  }

  /** 0 up to `n`, each once. */
  function Arrivals(n: nat): multiset<nat> {
    if n == 0 then multiset{} else Arrivals(n - 1) + multiset{n - 1}
  }

  lemma {:induction false} ArrivedOnce(n: nat, id: nat)
    ensures Arrivals(n)[id] == if id < n then 1 else 0
  {
    if n != 0 { ArrivedOnce(n - 1, id); }
  }

  /** The numbers of all tasks, wherever they are. */
  function Places(q: Queue): multiset<nat> {
    multiset(Ids(q.container)) + multiset(Ids(q.inFlight)) + multiset(EndIds(q.ended))
  }

  lemma IdsConcat(a: seq<Task>, b: seq<Task>)
    ensures Ids(a + b) == Ids(a) + Ids(b)
  {
  }

  lemma EndIdsConcat(a: seq<End>, b: seq<End>)
    ensures EndIds(a + b) == EndIds(a) + EndIds(b)
  {
  }

  lemma EndsIds(tasks: seq<Task>, fate: Fate)
    ensures EndIds(Ends(tasks, fate)) == Ids(tasks)
  {
  }

  lemma {:induction false} SelectIds(tasks: seq<Task>, p: Task -> bool)
    ensures multiset(Ids(Select(tasks, p))) + multiset(Ids(Select(tasks, Not(p)))) == multiset(Ids(tasks))
  {
    if tasks != [] {
      var rest := tasks[1..];
      SelectIds(rest, p);
      IdsConcat([tasks[0]], rest);
      assert tasks == [tasks[0]] + rest;
      IdsConcat([tasks[0]], Select(rest, p));
      IdsConcat([tasks[0]], Select(rest, Not(p)));
    }
  }

  lemma IdsWithout(tasks: seq<Task>, i: nat)
    requires i < |tasks|
    ensures multiset(Ids(tasks)) == multiset(Ids(tasks[..i] + tasks[i + 1..])) + multiset{tasks[i].id}
  {
    assert tasks == tasks[..i] + ([tasks[i]] + tasks[i + 1..]);
    IdsConcat(tasks[..i], [tasks[i]] + tasks[i + 1..]);
    IdsConcat([tasks[i]], tasks[i + 1..]);
    IdsConcat(tasks[..i], tasks[i + 1..]);
    assert Ids([tasks[i]]) == [tasks[i].id];
  }

  lemma IdsFront(tasks: seq<Task>)
    requires tasks != []
    ensures multiset(Ids(tasks)) == multiset(Ids(tasks[1..])) + multiset{tasks[0].id}
  {
    IdsWithout(tasks, 0);
    assert tasks[..0] + tasks[1..] == tasks[1..];
  }

  lemma IdsAppend(tasks: seq<Task>, task: Task)
    ensures multiset(Ids(tasks + [task])) == multiset(Ids(tasks)) + multiset{task.id}
  {
    IdsConcat(tasks, [task]);
    assert Ids([task]) == [task.id];
  }

  lemma EndsAppend(ended: seq<End>, end: End)
    ensures multiset(EndIds(ended + [end])) == multiset(EndIds(ended)) + multiset{end.id}
  {
    EndIdsConcat(ended, [end]);
    assert EndIds([end]) == [end.id];
  }

  lemma AddPlaces(q: Queue, a: Arrival)
    requires Places(q) == Arrivals(q.arrived)
    ensures Places(Add(q, a)) == Arrivals(Add(q, a).arrived)
  {
    if |q.container| >= MAX_QUEUE_SIZE { AddToFull(q, a); } else { AddToFree(q, a); }
    hide Add, Places;
  }

  lemma AddToFree(q: Queue, a: Arrival)
    requires |q.container| < MAX_QUEUE_SIZE
    ensures Places(Add(q, a)) == Places(q) + multiset{q.arrived} && Add(q, a).arrived == q.arrived + 1
  {
    hide Ids, EndIds;
    IdsAppend(q.container, Task(q.arrived, a.data, a.time, 0));
  }

  lemma AddToFull(q: Queue, a: Arrival)
    requires |q.container| >= MAX_QUEUE_SIZE
    ensures Places(Add(q, a)) == Places(q) + multiset{q.arrived} && Add(q, a).arrived == q.arrived + 1
  {
    hide Ids, EndIds;
    IdsAppend(q.container[1..], Task(q.arrived, a.data, a.time, 0));
    IdsFront(q.container);
    EndsAppend(q.ended, End(q.container[0].id, Evicted));
  }

  lemma FinishPlaces(q: Queue, i: nat, ok: bool, data: Data)
    requires i < |q.inFlight|
    ensures Places(Finish(q, i, ok, data)) == Places(q)
  {
    hide Ids, EndIds;
    var task := q.inFlight[i];
    IdsWithout(q.inFlight, i);
    IdsAppend(q.container, task.(data := data, retry := task.retry + 1));
    EndsAppend(q.ended, End(task.id, Succeeded));
    EndsAppend(q.ended, End(task.id, Exhausted));
  }

  lemma DropPlaces(q: Queue, p: Task -> bool, fate: Fate)
    ensures Places(Drop(q, p, fate)) == Places(q)
  {
    var gone := Select(q.container, p);
    SelectIds(q.container, p);
    EndsIds(gone, fate);
    EndIdsConcat(q.ended, Ends(gone, fate));
  }

  lemma TakePlaces(q: Queue)
    requires CanTake(q)
    ensures Places(Take(q)) == Places(q)
  {
    hide Ids, EndIds;
    IdsFront(q.container);
    IdsAppend(q.inFlight, q.container[0]);
  }

  lemma ModePlaces(q: Queue, mode: Mode)
    ensures Places(q.(mode := mode)) == Places(q)
  {
  }

  lemma StopPlaces(q: Queue, clear: bool)
    ensures Places(StopThreads(q, clear)) == Places(q)
  {
    EndsIds(q.container, Cleared);
    EndIdsConcat(q.ended, Ends(q.container, Cleared));
    assert Ids([]) == [];
  }

  lemma {:induction false} AddAllPlaces(q: Queue, items: seq<Arrival>)
    requires Places(q) == Arrivals(q.arrived)
    ensures Places(AddAll(q, items)) == Arrivals(AddAll(q, items).arrived)
  {
    if items != [] {
      AddAllPlaces(q, items[..|items| - 1]);
      AddPlaces(AddAll(q, items[..|items| - 1]), items[|items| - 1]);
    }
  }

  lemma StepPlaces(q: Queue, step: Step)
    requires Places(q) == Arrivals(q.arrived)
    ensures Places(Apply(q, step)) == Arrivals(Apply(q, step).arrived)
  {
    hide Places, Arrivals, Select, Ends;
    match step
    case Adding(a) => AddPlaces(q, a);
    case AddingBatch(items) => AddAllPlaces(q, items);
    case Taking => if CanTake(q) { TakePlaces(q); }
    case Finishing(i, ok, data) => if i < |q.inFlight| { FinishPlaces(q, i, ok, data); }
    case Cleaning(now) => DropPlaces(q, ExpiredBy(now), Expired);
    case Removing(p) => DropPlaces(q, OnData(p), Removed);
    case SettingMode(mode) => ModePlaces(q, mode);
    case Stopping(clear) => StopPlaces(q, clear);
  }

  lemma {:induction false} RunPlaces(workers: nat, steps: seq<Step>)
    ensures var q := Run(Start(workers), steps); Places(q) == Arrivals(q.arrived)
  {
    if steps != [] {
      RunPlaces(workers, steps[..|steps| - 1]);
      StepPlaces(Run(Start(workers), steps[..|steps| - 1]), steps[|steps| - 1]);
    }
  }

  /** Every task ever added is in exactly one place: queued, in flight, or ended for one reason;
      and no task appears that was never added. */
  lemma NoTaskIsLost(workers: nat, steps: seq<Step>, id: nat)
    ensures var q := Run(Start(workers), steps);
      multiset(Ids(q.container))[id] + multiset(Ids(q.inFlight))[id] + multiset(EndIds(q.ended))[id]
      == if id < q.arrived then 1 else 0
  {
    RunPlaces(workers, steps);
    ArrivedOnce(Run(Start(workers), steps).arrived, id);
  }

  /** What became of a task is final: the log of ended tasks only grows. */
  lemma {:induction false} EndsAreFinal(q: Queue, steps: seq<Step>)
    ensures q.ended <= Run(q, steps).ended
  {
    if steps != [] {
      var before := Run(q, steps[..|steps| - 1]);
      EndsAreFinal(q, steps[..|steps| - 1]);
      if steps[|steps| - 1].AddingBatch? { AddAllEnds(before, steps[|steps| - 1].items); }
    }
  }

  lemma {:induction false} AddAllEnds(q: Queue, items: seq<Arrival>)
    ensures q.ended <= AddAll(q, items).ended
  {
    if items != [] { AddAllEnds(q, items[..|items| - 1]); }
  }

  // ----- Batches

  /** Adding a batch, which is adding its items one by one, leaves the longest suffix of old queue
      and batch that fits, where a queue already above the limit keeps its size. */
  lemma {:induction false} BatchClosedForm(q: Queue, items: seq<Arrival>)
    ensures var all := q.container + NewTasks(q.arrived, items);
      var size := Min(|all|, Max(|q.container|, MAX_QUEUE_SIZE));
      && AddAll(q, items).container == all[|all| - size..]
      && AddAll(q, items).ended == q.ended + Ends(all[..|all| - size], Evicted)
    ensures AddAll(q, items).arrived == q.arrived + |items|
  {
    hide NewTasks, Ends;
    if items == [] {
      NoNewTasks(q.arrived);
    } else {
      var front, last := items[..|items| - 1], items[|items| - 1];
      BatchClosedForm(q, front);
      NewTasksGrow(q.arrived, items);
      var all := q.container + NewTasks(q.arrived, front);
      var task := Task(q.arrived + |front|, last.data, last.time, 0);
      assert q.container + NewTasks(q.arrived, items) == all + [task];
      OneMore(all, |all| - Min(|all|, Max(|q.container|, MAX_QUEUE_SIZE)), task);
    }
  }

  lemma NoNewTasks(first: nat)
    ensures NewTasks(first, []) == [] && Ends([], Evicted) == []
  {
  }

  lemma NewTasksGrow(first: nat, items: seq<Arrival>)
    requires items != []
    ensures var front, last := items[..|items| - 1], items[|items| - 1];
      NewTasks(first, items) == NewTasks(first, front) + [Task(first + |front|, last.data, last.time, 0)]
  {
  }

  /** One task more at the end, and, at the limit, one task less at the front. */
  lemma OneMore(all: seq<Task>, gone: nat, task: Task)
    requires gone <= |all|
    ensures all[gone..] + [task] == (all + [task])[gone..]
    ensures all[..gone] == (all + [task])[..gone]
    ensures gone < |all| ==> all[gone..][1..] + [task] == (all + [task])[gone + 1..]
    ensures gone < |all| ==>
      Ends((all + [task])[..gone + 1], Evicted) == Ends(all[..gone], Evicted) + [End(all[gone..][0].id, Evicted)]
  {
  }

  function Min(a: nat, b: nat): nat {
    if a < b then a else b
  }

  function Max(a: nat, b: nat): nat {
    if a < b then b else a
  }

  function NewTasks(first: nat, items: seq<Arrival>): seq<Task> {
    seq(|items|, i requires 0 <= i < |items| => Task(first + i, items[i].data, items[i].time, 0))
  }

  /** A task expires 301 seconds after it was added, since the age is truncated to seconds. */
  lemma ExpiresAfter(task: Task, now: int)
    ensures IsExpired(task, now) <==> now - task.enqueued >= (OPERATION_TIMEOUT + 1) * TICKS
  {
  }
}
