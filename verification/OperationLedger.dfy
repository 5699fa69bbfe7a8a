/** No queued operation is lost, run twice or run out of order. A ledger watches a run from the
    outside: for every incarnation of a registered lock it records the operations the tracker
    accepted, and what a background task reported to have run when the incarnation ended. */
module OperationLedger {
  import opened LockTypes
  import opened LockData
  import opened TrackerSpec
  import opened TrackerInvariant
  import opened Refinement
  import R = ReentrantLock

  /** An ended incarnation: what was accepted for it, and what ran at its end. */
  datatype Record = Record(m: MutexId, added: seq<Operation>, executed: seq<Operation>, ending: Ending)

  /** `open`: what was accepted so far for the incarnation registered now. */
  datatype Ledger = Ledger(open: map<MutexId, seq<Operation>>, closed: seq<Record>)

  /** The lock registered for `m` is gone, or is another one: a lock never changes its kind. */
  predicate Ended(s: TrackerState, s': TrackerState, m: MutexId) {
    m in s.table && (m !in s'.table || s'.table[m].lock.kind != s.table[m].lock.kind)
  }

  predicate Started(s: TrackerState, s': TrackerState, m: MutexId) {
    m in s'.table && (m !in s.table || Ended(s, s', m))
  }

  function Executed(reply: Reply): seq<Operation> {
    if reply.Ran? then reply.executed else []
  }

  /** What is written down about a step from `s` to `s'` with that reply. */
  function Watch(ledger: Ledger, s: TrackerState, step: Step, s': TrackerState, reply: Reply): Ledger {
    var m := Subject(s, step);
    var added := if m in ledger.open then ledger.open[m] else [];
    var closed := if Ended(s, s', m)
                  then ledger.closed + [Record(m, added, Executed(reply), EndingOf(step))]
                  else ledger.closed;
    if Started(s, s', m) then Ledger(ledger.open[m := []], closed)
    else if Ended(s, s', m) then Ledger(ledger.open - {m}, closed)
    else if step.AddingOperation? && reply == OperationAdded(Added) then
      Ledger(ledger.open[m := added + [step.op]], closed)
    else Ledger(ledger.open, closed)
  }

  ghost function Watched(steps: seq<Step>): Ledger {
    if steps == [] then Ledger(map[], [])
    else
      var front := steps[..|steps| - 1];
      var s, step := Run(EMPTY, front), steps[|steps| - 1];
      Watch(Watched(front), s, step, Apply(s, step).0, Apply(s, step).1)
  }

  /** A release ends a lock only when no operation was accepted for it; a forced one runs none; a
      task runs the first operations, no more than its flag lets it, and not all of them only if the
      flag stops it. */
  predicate Accounted(added: seq<Operation>, executed: seq<Operation>, ending: Ending) {
    match ending
    case Released => added == [] && executed == []
    case Forced => executed == []
    case ByTask(force) =>
      && executed <= added
      && (force.After? ==> |executed| <= force.count)
      && (executed != added ==> force.After? && |executed| == force.count)
  }

  ghost predicate Agrees(ledger: Ledger, s: TrackerState) {
    && ledger.open.Keys == s.table.Keys
    && (forall m :: m in s.table ==> s.table[m].pending == ledger.open[m])
    && (forall r :: r in ledger.closed ==> Accounted(r.added, r.executed, r.ending))
  }

  /** What the simple machine tells about the tracker and an entry. */
  lemma Seen(s: TrackerState, m: MutexId)
    ensures View(s).scheduled == s.scheduled
    ensures m in s.table <==> !View(s).At(m).Free?
    ensures m in s.table ==>
      && View(s).At(m).Pending() == s.table[m].pending
      && (View(s).At(m).Exclusive? <==> s.table[m].lock.kind == Write)
  {
    hide Bag, TheOwner;
  }

  lemma KindsAreTwo(s: TrackerState, m: MutexId)
    requires Inv(s) && m in s.table
    ensures m != 0 && s.table[m].lock.kind != NoLock
  {
  }

  predicate EndedAs(a: R.Simple, a': R.Simple) {
    !a.Free? && (a'.Free? || a'.Exclusive? != a.Exclusive?)
  }

  /** One step of the simple machine, on the mutex it is about and on any other. */
  lemma MachineStep(machine: R.Machine, step: Step, m: MutexId, n: MutexId)
    requires m == SubjectOf(machine.scheduled, step)
    requires m == 0 ==> machine.At(m).Free?
    ensures var (after, reply) := machine.Apply(step);
      var a, a' := machine.At(m), after.At(m);
      && (EndedAs(a, a') ==> Accounted(a.Pending(), Executed(reply), EndingOf(step)))
      && (!a'.Free? && (a.Free? || EndedAs(a, a')) ==> a'.Pending() == [])
      && (!a.Free? && !EndedAs(a, a') ==>
            a'.Pending() == if step.AddingOperation? then a.Pending() + [step.op] else a.Pending())
      && (reply == OperationAdded(Added) <==> step.AddingOperation? && !a.Free?)
      && (n != m ==> after.At(n) == machine.At(n))
  {
    var a := machine.At(m);
    match step
    case Acquiring(t, _, request) =>
      assert R.AcquireSimple(a, t, request).lock.Pending() == a.Pending();
    case Releasing(t, _) =>
    case _ =>
  }

  /** The same step of the tracker, on the mutex it is about. */
  lemma SubjectSeen(s: TrackerState, step: Step)
    requires Inv(s)
    ensures var (s', reply) := Apply(s, step);
      var m := Subject(s, step);
      var pending := if m in s.table then s.table[m].pending else [];
      && (Ended(s, s', m) ==> Accounted(pending, Executed(reply), EndingOf(step)))
      && (Started(s, s', m) ==> s'.table[m].pending == [])
      && (m in s.table && !Ended(s, s', m) ==>
            s'.table[m].pending == if step.AddingOperation? then pending + [step.op] else pending)
      && (reply == OperationAdded(Added) <==> step.AddingOperation? && m in s.table)
  {
    hide Apply, View, Inv, R.Machine.At, R.Machine.Apply, R.Simple.Pending;
    ApplyKeepsInv(s, step);
    StepRefines(s, step);
    var (s', reply) := Apply(s, step);
    var m := Subject(s, step);
    if m in s.table { KindsAreTwo(s, m); }
    if m in s'.table { KindsAreTwo(s', m); }
    Seen(s, m);
    Seen(s', m);
    MachineStep(View(s), step, m, m);
  }

  /** The same step of the tracker, on any other mutex. */
  lemma OthersSeen(s: TrackerState, step: Step, n: MutexId)
    requires Inv(s) && n != Subject(s, step)
    ensures var s' := Apply(s, step).0;
      && (n in s'.table <==> n in s.table)
      && (n in s.table ==> s'.table[n].pending == s.table[n].pending)
  {
    hide Apply, View, Inv, R.Machine.At, R.Machine.Apply, R.Simple.Pending;
    StepRefines(s, step);
    var s' := Apply(s, step).0;
    var m := Subject(s, step);
    if m in s.table { KindsAreTwo(s, m); }
    Seen(s, m);
    Seen(s, n);
    Seen(s', n);
    MachineStep(View(s), step, m, n);
  }

  /** The ledger misses no end: a step that ends a lock adds one record, of that mutex, with what was
      pending on the lock, what the step reported to have run, and how it ended; any other adds none. */
  lemma EveryEndIsRecorded(ledger: Ledger, s: TrackerState, step: Step)
    requires Agrees(ledger, s)
    ensures var (s', reply) := Apply(s, step);
      var m := Subject(s, step);
      Watch(ledger, s, step, s', reply).closed ==
        if m in s.table && (m !in s'.table || s'.table[m].lock.kind != s.table[m].lock.kind)
        then ledger.closed + [Record(m, s.table[m].pending, Executed(reply), EndingOf(step))]
        else ledger.closed
  {
    hide Apply, Accounted;
  }

  lemma StepKeepsLedger(ledger: Ledger, s: TrackerState, step: Step)
    requires Inv(s) && Agrees(ledger, s)
    ensures Agrees(Watch(ledger, s, step, Apply(s, step).0, Apply(s, step).1), Apply(s, step).0)
  {
    var (s', reply) := Apply(s, step);
    var after := Watch(ledger, s, step, s', reply);
    hide Apply, Inv;
    SubjectSeen(s, step);
    forall n ensures n in after.open <==> n in s'.table
             ensures n in s'.table ==> s'.table[n].pending == after.open[n]
    {
      if n != Subject(s, step) { OthersSeen(s, step, n); }
    }
  }

  /** In every run: the operations pending on a registered lock are exactly those accepted for it,
      in order; and when a lock ends, exactly those operations ran that its way of ending allows. */
  lemma {:induction false} NoOperationIsLost(steps: seq<Step>)
    ensures Agrees(Watched(steps), Run(EMPTY, steps))
  {
    if steps != [] {
      var front := steps[..|steps| - 1];
      NoOperationIsLost(front);
      RunKeepsInv(front);
      StepKeepsLedger(Watched(front), Run(EMPTY, front), steps[|steps| - 1]);
    }
  }
}
