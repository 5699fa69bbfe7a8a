/** A table entry: a lock together with the operations queued on it. */
module LockData {
  import opened LockTypes

  /** A queued operation: which function is to run, and on which data. */
  datatype Operation = Operation(op: nat, data: nat)

  /** The stop flag of a background task: never raised, or raised once so many operations ran. */
  datatype Force = Never | After(count: nat)

  datatype Entry = Entry(lock: LockState, pending: seq<Operation>)

  /** How many of `n` queued operations run under a flag: no more than it lets run, and fewer than all
      only when it stops them. */
  function Runs(n: nat, force: Force): (k: nat)
    ensures k <= n
    ensures force.After? ==> k <= force.count
    ensures k < n ==> force.After? && k == force.count
  {
    if force.After? && force.count < n then force.count else n
  }

  class LockRecord {
    const lock: Lock
    var operations: seq<Operation>

    ghost function Value(): Entry
      reads this, lock
    {
      Entry(lock.Value(), operations)
    }

    constructor (lock: Lock)
      ensures this.lock == lock && operations == []
    {
      this.lock := lock;
      operations := [];
    }

    method AddOperation(op: Operation)
      modifies this
      ensures operations == old(operations) + [op]
    {
      operations := operations + [op];
    }

    /** Run queued operations in order until none is left or the flag is seen raised. */
    method RunOperations(force: Force) returns (executed: seq<Operation>)
      modifies this
      ensures executed + operations == old(operations)
      ensures force.After? ==> |executed| <= force.count
      ensures operations != [] ==> force.After? && |executed| == force.count
      ensures |executed| == Runs(old(|operations|), force)
    {
      executed := [];
      while operations != [] && !(force.After? && |executed| >= force.count)
        invariant executed + operations == old(operations)
        invariant force.After? ==> |executed| <= force.count
      {
        executed, operations := executed + [operations[0]], operations[1..];
      }
    }
  }
}
