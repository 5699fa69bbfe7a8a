/** How often a task is attempted, and what its end says about that. */
module QueueFates {
  import opened QueueSpec
  import opened QueueRuns

  /** The attempts made at task `id`. */
  function Tries(log: seq<Attempt>, id: nat): nat {
    if log == [] then 0
    else Tries(log[..|log| - 1], id) + if log[|log| - 1].id == id then 1 else 0
  }

  /** A queued task has been tried as often as its retry count says, one in flight once more. A task
      ends exhausted after exactly three attempts, succeeds with one of its three, and leaves the
      queue for any other reason before the third. */
  ghost predicate TriesInv(q: Queue) {
    && (forall t :: t in q.container ==> Tries(q.attempts, t.id) == t.retry < MAX_RETRY_COUNT)
    && (forall t :: t in q.inFlight ==> Tries(q.attempts, t.id) == t.retry + 1 <= MAX_RETRY_COUNT)
    && (forall e :: e in q.ended ==> EndFits(e.fate, Tries(q.attempts, e.id)))
    && (forall id :: id >= q.arrived ==> Tries(q.attempts, id) == 0)
  }

  predicate EndFits(fate: Fate, tries: nat) {
    match fate
    case Exhausted => tries == MAX_RETRY_COUNT
    case Succeeded => 1 <= tries <= MAX_RETRY_COUNT
    case _ => tries < MAX_RETRY_COUNT
  }

  ghost predicate FateInv(q: Queue) {
    TriesInv(q) && Places(q) == Arrivals(q.arrived)
  }

  lemma TaskIn(tasks: seq<Task>, t: Task)
    requires t in tasks
    ensures multiset(Ids(tasks))[t.id] >= 1
  {
    var i :| 0 <= i < |tasks| && tasks[i] == t;
    assert Ids(tasks)[i] == t.id;
  }

  lemma EndIn(ended: seq<End>, e: End)
    requires e in ended
    ensures multiset(EndIds(ended))[e.id] >= 1
  {
    var i :| 0 <= i < |ended| && ended[i] == e;
    assert EndIds(ended)[i] == e.id;
  }

  /** The front task shares its number with no other task, wherever that is. */
  lemma FrontIsUnique(q: Queue)
    requires Places(q) == Arrivals(q.arrived) && q.container != []
    ensures var id := q.container[0].id;
      && id < q.arrived
      && (forall t :: t in q.container[1..] || t in q.inFlight ==> t.id != id)
      && (forall e :: e in q.ended ==> e.id != id)
  {
    var id := q.container[0].id;
    IdsFront(q.container);
    ArrivedOnce(q.arrived, id);
    forall t | t in q.container[1..] || t in q.inFlight ensures t.id != id {
      if t in q.container[1..] { TaskIn(q.container[1..], t); } else { TaskIn(q.inFlight, t); }
    }
    forall e | e in q.ended ensures e.id != id { EndIn(q.ended, e); }
  }

  lemma TakeTries(q: Queue)
    requires FateInv(q) && CanTake(q)
    ensures TriesInv(Take(q))
  {
    FrontIsUnique(q);
    var q' := Take(q);
    assert q'.attempts[..|q.attempts|] == q.attempts;
    assert forall t :: t in q.container[1..] ==> t in q.container;
    assert q.container[0] in q.container;
  }

  lemma FinishTries(q: Queue, i: nat, ok: bool, data: Data)
    requires FateInv(q) && i < |q.inFlight|
    ensures TriesInv(Finish(q, i, ok, data))
  {
    assert q.inFlight[i] in q.inFlight;
  }

  lemma DropTries(q: Queue, p: Task -> bool, fate: Fate)
    requires FateInv(q) && fate != Exhausted && fate != Succeeded
    ensures TriesInv(Drop(q, p, fate))
  {
    SelectedAreElements(q.container, p);
    SelectedAreElements(q.container, Not(p));
    EndsOf(Select(q.container, p), fate);
  }

  lemma EndsOf(tasks: seq<Task>, fate: Fate)
    ensures forall e :: e in Ends(tasks, fate) ==> e.fate == fate && exists t :: t in tasks && t.id == e.id
  {
    forall e | e in Ends(tasks, fate) ensures e.fate == fate && exists t :: t in tasks && t.id == e.id {
      var i :| 0 <= i < |tasks| && Ends(tasks, fate)[i] == e;
      assert tasks[i] in tasks && tasks[i].id == e.id;
    }
  }

  lemma AddTries(q: Queue, a: Arrival)
    requires FateInv(q)
    ensures TriesInv(Add(q, a))
  {
    var rest := if |q.container| >= MAX_QUEUE_SIZE then q.container[1..] else q.container;
    assert forall t :: t in rest ==> t in q.container;
    assert q.container != [] ==> q.container[0] in q.container;
  }

  lemma {:induction false} AddAllTries(q: Queue, items: seq<Arrival>)
    requires FateInv(q)
    ensures FateInv(AddAll(q, items))
  {
    if items != [] {
      var front := AddAll(q, items[..|items| - 1]);
      AddAllTries(q, items[..|items| - 1]);
      AddTries(front, items[|items| - 1]);
      AddPlaces(front, items[|items| - 1]);
    }
  }

  lemma ModeTries(q: Queue, mode: Mode)
    requires TriesInv(q)
    ensures TriesInv(q.(mode := mode))
  {
  }

  lemma StopTries(q: Queue, clear: bool)
    requires TriesInv(q)
    ensures TriesInv(StopThreads(q, clear))
  {
    EndsOf(q.container, Cleared);
  }

  lemma StepTries(q: Queue, step: Step)
    requires FateInv(q)
    ensures FateInv(Apply(q, step))
  {
    StepPlaces(q, step);
    hide Places, TriesInv;
    match step
    case Adding(a) => AddTries(q, a);
    case AddingBatch(items) => AddAllTries(q, items);
    case Taking => if CanTake(q) { TakeTries(q); }
    case Finishing(i, ok, data) => if i < |q.inFlight| { FinishTries(q, i, ok, data); }
    case Cleaning(now) => DropTries(q, ExpiredBy(now), Expired);
    case Removing(p) => DropTries(q, OnData(p), Removed);
    case SettingMode(mode) => ModeTries(q, mode);
    case Stopping(clear) => StopTries(q, clear);
  }

  lemma {:induction false} TriesAreCounted(workers: nat, steps: seq<Step>)
    ensures FateInv(Run(Start(workers), steps))
  {
    if steps != [] {
      TriesAreCounted(workers, steps[..|steps| - 1]);
      StepTries(Run(Start(workers), steps[..|steps| - 1]), steps[|steps| - 1]);
    }
  }

  /** No task is ever attempted more than three times. */
  lemma AtMostThreeTries(workers: nat, steps: seq<Step>, id: nat)
    ensures Tries(Run(Start(workers), steps).attempts, id) <= MAX_RETRY_COUNT
  {
    TriesAreCounted(workers, steps);
    var q := Run(Start(workers), steps);
    ArrivedOnce(q.arrived, id);
    if id < q.arrived {
      assert id in Places(q);
      if id in Ids(q.container) {
        var i :| 0 <= i < |q.container| && q.container[i].id == id;
        assert q.container[i] in q.container;
      } else if id in Ids(q.inFlight) {
        var i :| 0 <= i < |q.inFlight| && q.inFlight[i].id == id;
        assert q.inFlight[i] in q.inFlight;
      } else {
        assert id in EndIds(q.ended);
        var i :| 0 <= i < |q.ended| && q.ended[i].id == id;
        assert q.ended[i] in q.ended;
      }
    }
  }
}
