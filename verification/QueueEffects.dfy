/** What a step changes and what it leaves alone: which tasks leave the queue, when an attempt starts,
    and what comes back of a failed one. */
module QueueEffects {
  import opened Sequences
  import opened QueueSpec
  import opened QueueRuns

  // ----- Filters

  /** The elements of `s` at the positions `at`, in that order. */
  function At<T>(s: seq<T>, at: seq<nat>): seq<T>
    requires forall k :: 0 <= k < |at| ==> at[k] < |s|
  {
    seq(|at|, k requires 0 <= k < |at| => s[at[k]])
  }

  /** `at` lists, in order, exactly the positions of the elements that satisfy `p`. */
  ghost predicate Picks<T>(s: seq<T>, p: T -> bool, at: seq<nat>) {
    && Ascending(at)
    && (forall k :: 0 <= k < |at| ==> at[k] < |s|)
    && (forall i: nat :: i in at <==> i < |s| && p(s[i]))
  }

  /** The same, except for the first element. */
  ghost predicate PicksLater<T>(s: seq<T>, p: T -> bool, at: seq<nat>) {
    && Ascending(at)
    && (forall k :: 0 <= k < |at| ==> 0 < at[k] < |s|)
    && (forall i: nat :: i in at <==> 0 < i < |s| && p(s[i]))
  }

  /** The positions that the rest of `s` has in `s`. */
  lemma Later<T>(s: seq<T>, p: T -> bool, rest: seq<nat>) returns (later: seq<nat>)
    requires s != [] && Picks(s[1..], p, rest)
    ensures PicksLater(s, p, later) && At(s, later) == At(s[1..], rest)
  {
    later := seq(|rest|, k requires 0 <= k < |rest| => rest[k] + 1);
    forall i: nat ensures i in later <==> 0 < i < |s| && p(s[i]) {
      if i in later {
        var k :| 0 <= k < |later| && later[k] == i;
        assert rest[k] in rest;
      }
      if 0 < i < |s| && p(s[i]) {
        assert s[1..][i - 1] == s[i];
        var k :| 0 <= k < |rest| && rest[k] == i - 1;
        assert later[k] == i;
      }
    }
  }

  lemma WithFirst<T>(s: seq<T>, p: T -> bool, later: seq<nat>)
    requires s != [] && p(s[0]) && PicksLater(s, p, later)
    ensures Picks(s, p, [0] + later) && At(s, [0] + later) == [s[0]] + At(s, later)
  {
    var at := [0] + later;
    assert forall i: nat :: i in at <==> i == 0 || i in later;
    assert forall k :: 0 < k < |at| ==> at[k] == later[k - 1];
  }

  lemma WithoutFirst<T>(s: seq<T>, p: T -> bool, later: seq<nat>)
    requires s != [] && !p(s[0]) && PicksLater(s, p, later)
    ensures Picks(s, p, later)
  {
  }

  /** Selecting takes the elements at exactly the positions that satisfy `p`, in their order. */
  lemma {:induction false} SelectPicks<T>(s: seq<T>, p: T -> bool) returns (at: seq<nat>)
    ensures Picks(s, p, at) && Select(s, p) == At(s, at)
  {
    if s == [] {
      at := [];
    } else {
      hide Picks, PicksLater, At;
      var rest := SelectPicks(s[1..], p);
      at := Later(s, p, rest);
      if p(s[0]) {
        WithFirst(s, p, at);
        at := [0] + at;
      } else {
        WithoutFirst(s, p, at);
      }
    }
  }

  /** The tasks that `gone` lists have left `q` for that reason, in queue order, and those that `kept`
      lists make up the queue. */
  ghost predicate LeftBehind(q: Queue, q': Queue, fate: Fate, kept: seq<nat>, gone: seq<nat>)
    requires forall k :: 0 <= k < |kept| ==> kept[k] < |q.container|
    requires forall k :: 0 <= k < |gone| ==> gone[k] < |q.container|
  {
    && q'.container == At(q.container, kept)
    && |q'.ended| == |q.ended| + |gone|
    && (forall k :: 0 <= k < |q.ended| ==> q'.ended[k] == q.ended[k])
    && (forall k :: 0 <= k < |gone| ==> q'.ended[|q.ended| + k] == End(q.container[gone[k]].id, fate))
  }

  lemma PicksMembers<T>(s: seq<T>, p: T -> bool, at: seq<nat>)
    requires Picks(s, p, at)
    ensures forall x :: x in At(s, at) <==> x in s && p(x)
  {
    forall x | x in s && p(x) ensures x in At(s, at) {
      var i :| 0 <= i < |s| && s[i] == x;
      var k :| 0 <= k < |at| && at[k] == i;
      assert At(s, at)[k] == x;
    }
    forall x | x in At(s, at) ensures x in s && p(x) {
      var k :| 0 <= k < |at| && At(s, at)[k] == x;
      assert at[k] in at;
    }
  }

  lemma DropExactly(q: Queue, p: Task -> bool, fate: Fate) returns (kept: seq<nat>, gone: seq<nat>)
    ensures Picks(q.container, Not(p), kept) && Picks(q.container, p, gone)
    ensures LeftBehind(q, Drop(q, p, fate), fate, kept, gone)
    ensures Select(q.container, p) == At(q.container, gone)
  {
    hide Select, Ascending;
    kept := SelectPicks(q.container, Not(p));
    gone := SelectPicks(q.container, p);
  }

  /** A removal leaves in the queue exactly the tasks whose data do not match, in their order, and ends
      exactly the others, in queue order, as removed; theirs are the payloads called back. */
  lemma RemovingExactly(q: Queue, p: Data -> bool) returns (kept: seq<nat>, gone: seq<nat>)
    ensures Picks(q.container, (t: Task) => !p(t.data), kept) && Picks(q.container, (t: Task) => p(t.data), gone)
    ensures LeftBehind(q, Apply(q, Removing(p)), Removed, kept, gone)
    ensures forall t :: t in Apply(q, Removing(p)).container <==> t in q.container && !p(t.data)
    ensures var called := Payloads(Select(q.container, OnData(p)));
      |called| == |gone| && forall k :: 0 <= k < |gone| ==> called[k] == q.container[gone[k]].data
  {
    kept, gone := DropExactly(q, OnData(p), Removed);
    PicksMembers(q.container, Not(OnData(p)), kept);
  }

  /** The cleaner leaves exactly the tasks that have been queued for less than 301 seconds, and ends
      exactly the others as expired. */
  lemma CleaningExactly(q: Queue, now: int) returns (kept: seq<nat>, gone: seq<nat>)
    ensures Picks(q.container, (t: Task) => now - t.enqueued < 301 * TICKS, kept)
    ensures Picks(q.container, (t: Task) => now - t.enqueued >= 301 * TICKS, gone)
    ensures LeftBehind(q, Apply(q, Cleaning(now)), Expired, kept, gone)
    ensures forall t :: t in Apply(q, Cleaning(now)).container <==>
      t in q.container && now - t.enqueued < 301 * TICKS
  {
    kept, gone := DropExactly(q, ExpiredBy(now), Expired);
    PicksMembers(q.container, Not(ExpiredBy(now)), kept);
    forall t: Task ensures ExpiredBy(now)(t) <==> now - t.enqueued >= 301 * TICKS { ExpiresAfter(t, now); }
    hide ExpiredBy;
  }

  // ----- Attempts

  /** An attempt starts exactly when a worker is free, the queue is working and a task is queued. */
  lemma TakingExactly(q: Queue)
    ensures var q' := Apply(q, Taking);
      var starts := q.container != [] && q.mode == Working && |q.inFlight| < q.workers;
      && (!starts ==> q' == q)
      && (starts ==>
            && [q'.inFlight[|q.inFlight|]] + q'.container == q.container
            && |q'.inFlight| == |q.inFlight| + 1 && q'.inFlight[..|q.inFlight|] == q.inFlight
            && q'.attempts == q.attempts + [Attempt(q.container[0].id, q.container[0].retry)]
            && q'.ended == q.ended && q'.calls == q.calls)
  {
  }

  lemma {:induction false} AddAllFrame(q: Queue, items: seq<Arrival>)
    ensures var q' := AddAll(q, items);
      && q'.mode == q.mode && q'.workers == q.workers && q'.inFlight == q.inFlight
      && q'.attempts == q.attempts && q'.calls == q.calls
  {
    if items != [] { AddAllFrame(q, items[..|items| - 1]); }
  }

  /** What a step leaves alone: only the two steps that are meant to change the mode do, the number of
      workers stays, only taking starts an attempt, only finishing completes a call, only these two
      change what is in flight, and only additions count as arrivals. */
  lemma StepFrame(q: Queue, step: Step)
    ensures var q' := Apply(q, step);
      && q'.workers == q.workers
      && q'.mode == (match step case SettingMode(m) => m case Stopping(_) => ThreadsStopped case _ => q.mode)
      && (!step.Taking? ==> q'.attempts == q.attempts)
      && (!step.Finishing? ==> q'.calls == q.calls)
      && (!step.Taking? && !step.Finishing? ==> q'.inFlight == q.inFlight)
      && (!step.Adding? && !step.AddingBatch? ==> q'.arrived == q.arrived)
  {
    if step.AddingBatch? { AddAllFrame(q, step.items); }
  }

  lemma NotWorkingStartsNothing(q: Queue, step: Step)
    requires q.mode != Working
    ensures Apply(q, step).attempts == q.attempts
  {
    StepFrame(q, step);
    TakingExactly(q);
    hide Apply;
  }

  /** From a queue that is not working, no attempt starts until it is set to working. */
  lemma {:induction false} NoAttemptBeforeWorking(q: Queue, steps: seq<Step>)
    requires q.mode != Working && forall k :: 0 <= k < |steps| ==> steps[k] != SettingMode(Working)
    ensures Run(q, steps).attempts == q.attempts && Run(q, steps).mode != Working
  {
    if steps != [] {
      var front := steps[..|steps| - 1];
      NoAttemptBeforeWorking(q, front);
      StepFrame(Run(q, front), steps[|steps| - 1]);
      NotWorkingStartsNothing(Run(q, front), steps[|steps| - 1]);
      hide Apply;
    }
  }

  /** So a new queue, which is a stopped one, attempts nothing before it is set to working, and one that
      is stopped later attempts nothing more. */
  lemma StoppedStartsNothing(workers: nat, before: seq<Step>, clear: bool, steps: seq<Step>)
    requires forall k :: 0 <= k < |steps| ==> steps[k] != SettingMode(Working)
    ensures Apply(Start(workers), Stopping(clear)) == Start(workers)
    ensures Run(Start(workers), steps).attempts == []
    ensures var q := Run(Start(workers), before);
      Run(Apply(q, Stopping(clear)), steps).attempts == q.attempts
  {
    NoAttemptBeforeWorking(Start(workers), steps);
    var q := Run(Start(workers), before);
    StepFrame(q, Stopping(clear));
    NoAttemptBeforeWorking(Apply(q, Stopping(clear)), steps);
  }

  /** Every attempt started is completed by a call or still in flight. */
  lemma {:induction false} AttemptsAreAccounted(workers: nat, steps: seq<Step>)
    ensures var q := Run(Start(workers), steps); |q.attempts| == q.calls + |q.inFlight|
  {
    if steps != [] {
      var q, step := Run(Start(workers), steps[..|steps| - 1]), steps[|steps| - 1];
      AttemptsAreAccounted(workers, steps[..|steps| - 1]);
      StepFrame(q, step);
      TakingExactly(q);
      if step.Finishing? { FinishingExactly(q, step.i, step.ok, step.data); }
      hide Apply;
    }
  }

  /** What comes back of a process call: a failed task that has attempts left, at the end of the queue,
      with the data as the call left it, its time of arrival and one more retry; nothing otherwise. The
      other tasks in flight stay. */
  lemma FinishingExactly(q: Queue, i: nat, ok: bool, data: Data)
    ensures var q' := Apply(q, Finishing(i, ok, data));
      if i >= |q.inFlight| then q' == q
      else
        var task := q.inFlight[i];
        var again := !ok && task.retry < 2;
        && q'.calls == q.calls + 1
        && q'.inFlight[..i] + [task] + q'.inFlight[i..] == q.inFlight
        && q'.container == q.container + (if again then [Task(task.id, data, task.enqueued, task.retry + 1)] else [])
        && q'.ended == q.ended + (if again then [] else [End(task.id, if ok then Succeeded else Exhausted)])
  {
  }

  /** Stopping: a stopped queue stays as it is; otherwise the tasks stay exactly if they are not to be
      cleared, and cleared ones end, in queue order. */
  lemma StoppingExactly(q: Queue, clear: bool)
    ensures var q' := Apply(q, Stopping(clear));
      if q.mode == ThreadsStopped then q' == q
      else
        && q'.mode == ThreadsStopped && |q'.ended| == |q.ended| + |q.container| - |q'.container|
        && q'.container == (if clear then [] else q.container)
        && (forall k :: 0 <= k < |q.ended| ==> q'.ended[k] == q.ended[k])
        && (clear ==> forall k :: 0 <= k < |q.container| ==>
              q'.ended[|q.ended| + k] == End(q.container[k].id, Cleared))
  {
  }
}
