# Lock tracker and retry queue: a verified model

The repository offers two independent components for multi-threaded C++ programs.

**The lock tracker** hands out reentrant read and write locks on registered mutexes. It keeps a
table of registered locks, an owner map in each lock, and for each thread a vector of the mutex IDs
it holds. It converts a read lock to a write lock, re-acquires a thread's guards in ascending ID
order after a write acquisition that breaks that order, and keeps a lock registered until a
background task has run the operations queued on it. A data wrapper owns one hold and gives it back
in its destructor.

**The retry queue** is a bounded queue served by several workers. A failed task goes back to the end
of the queue until its third attempt has failed; a full queue evicts its oldest task; a cleaner
removes tasks that have waited too long.

## How the model is built

Each component is described twice. A class holds the fields the program holds and updates them in
place, loop by loop (`LockTypes.Lock`, `LockData.LockRecord`, `Tracker.ThreadTracker`,
`DataWrapper.Wrapper`, `NormalQueue.Queue`). A module of functions says what each call does to the
component as a value (`TrackerSpec`, `WrapperSpec`, `QueueSpec`). Every method of a class is proved to
do exactly what the functions say, and the properties are proved about the functions, over all runs.

| module | content |
|---|---|
| `Sequences` | find, swap-and-pop, sort and maximum on vectors |
| `LockTypes`, `LockData` | one lock; a table entry with its queued operations |
| `TrackerSpec`, `Tracker` | the tracker as a value; the tracker as an object |
| `TrackerInvariant` | what every call keeps, what an answer means, conversion |
| `ReentrantLock`, `Refinement` | a simple reentrant lock per mutex, which the tracker refines |
| `TrackerEffects` | what each call changes and what it leaves alone |
| `LockOrder` | when guards are created in ascending order of mutex ID |
| `OperationLedger` | queued operations are not lost, repeated or reordered |
| `WrapperSpec`, `DataWrapper`, `WrapperOutcomes` | one wrapper as a value; as an object; what its caller finds |
| `WrapperRuns`, `WrapperWaits` | histories of many wrappers; what a wait can answer in them |
| `WrapperBooks`, `WrapperExclusion` | conservation of holds; reader/writer exclusion |
| `WrapperCallers` | both from conditions a caller can check beforehand |
| `QueueSpec`, `NormalQueue` | the queue as a value; the queue as an object |
| `QueueEffects` | what each step changes and what it leaves alone |
| `QueueRuns`, `QueueOrder`, `QueueFates` | capacity, retries, conservation, order, attempts |
| `Counterexamples` | runs on which the program's own comments do not hold |

Some history is kept beside the program's state: the moment each guard was created, the thread and
the request of each wrapper, who gave up a lock that is kept for its operations, the lock objects
that left the table while somebody waits on them, and the log of what became of each queue task. The
program stores none of it and no branch depends on it.

## Assumptions

- **Atomic calls.** One public call on the tracker, one background task, one wrapper destructor or
  move, and each of the three parts of the wrapper constructor is a single step of a named thread. The
  program takes its data mutex several times within such a call. So a guard that is dropped and
  created again within one call is never seen to be missing.
- **The wait.** The wrapper constructor is cut where it waits: up to the wait, the wait's last look at
  its lock, and what follows the answer. Other threads act in between; the waiting thread does
  nothing else. The wait may end at any time, and then answers what its lock gives, which is the
  registered one or, once that has left the table, the object it was.
- **Guards do not block.** A waiter's pointer can keep the guard of an erased lock alive, and the
  program then makes the next guard of that mutex wait for it. Here taking a guard just happens.
- **Operations** do not call back into the tracker. The flag that stops a background task is modelled
  by the number of operations after which it is seen raised, if ever.
- **Virtual calls.** The read and the write lock are one class with a kind, since each virtual method
  of the program differs by kind only.
- **Time, scheduling and the process function** of the queue are parameters of the steps.

## Where the code and its documentation differ

The model follows the code.

- The repository's README promises automatic lock order. `LockOrder.StepKeepsOrder` says exactly which
  calls keep it and `LockOrder.LockOrderIsExact` in which runs it holds. Only write requests are put
  in order (`LockOrder.ReadsAreNotOrdered`), and the guard of a read lock is shared, so one thread can
  disturb another (`LockOrder.AnothersReadDisturbs`).
- Source/Improved/data_wrapper.h:65 and 75 comment that the lock is held after the retry. The retry
  also counts as a success when it is told to wait again. `Counterexamples.OvertakenRetry` gives a
  history: a writer waits for a reader, whose lock ends with a background task, which drops the guard;
  another thread acquires before the retry. `WrapperBooks.RetryBalance` says exactly when a retry is
  sound. A lock that ends with its last release lets no waiter in at all
  (`WrapperWaits.LastReleaseLetsNobodyIn`): the waiter is left to time out. So while nothing is queued
  and callers keep to their own conditions, every wait is in vain (`WrapperCallers.WaitingIsInVain`),
  and retries do no harm (`WrapperCallers.CallersMakeFairHistories`).
- Source/Improved/thread_tracker.h:390-399 keeps a lock for its queued operations, and its background
  task erases it by ID. A thread that acquires meanwhile loses its hold, and two writers can both
  believe they hold the mutex (`Counterexamples.LateTaskBreaksExclusion`); `WrapperBooks.TaskBalance`
  says exactly when a task takes nothing away.
- Source/Improved/queue_normal.h:35-37 takes a number of workers and does not use it: the number is
  whatever the field held, brought into range.
- Source/Improved/common_types.h:91 names 20000 as the maximum queue size. It is kept exactly in the
  runs in which no failed task goes back to a full queue (`QueueRuns.LimitIsExact`). Returning tasks
  exceed it by up to one per worker; `QueueRuns.CapacityIsReached` attains the excess.

## Model

| member | source | states |
|---|---|---|
| `LockTypes.Lock.CanAcquire` | Source/Improved/lock_types.cpp:140-179 | A read lock admits readers, asks its only owner to convert for a write and refuses other writers; a write lock admits its owner only; an unguarded lock admits anybody |
| `LockTypes.Lock.Wait` | Source/Improved/lock_types.cpp:112-200 | At the moment it is last evaluated, a waiter's predicate answers exactly what `CanAcquire` would |
| `LockTypes.Lock.AcquireLock` | Source/Improved/lock_types.cpp:160-227 | Creates the guard anew and counts one hold more; a read lock ignores any request but a read |
| `LockTypes.Lock.RemoveOwnership` | Source/Improved/lock_types.cpp:36-54 | Takes one hold from the thread, drops it from the owner map at zero, and ignores a thread that is no owner |
| `LockTypes.Lock.ShouldRemove` | Source/Improved/lock_types.cpp:76-81 | True exactly when there is no guard or no owner |
| `TrackerInvariant.LastHold` | Source/Improved/lock_types.cpp:36-81 | After a release a lock is to be removed exactly when that was the only hold of the only owner |
| `LockData.LockRecord.RunOperations` | Source/Improved/common_types.h:72-79 | What ran followed by what is still queued is what was queued; no more ran than the flag lets run, and something is left only if the flag stopped it |
| `Tracker.ThreadTracker.AddToHeldLocks` | Source/Improved/thread_tracker.h:35-54 | Appends the ID to the thread's vector unless listed or null; afterwards it is listed, so the vector is not empty |
| `Tracker.ThreadTracker.RemoveFromHeldLocks` | Source/Improved/thread_tracker.h:55-78 | Swap-and-pop of the ID, leaving the vector free of repetitions |
| `Sequences.SwapPopMovesLast` | Source/Improved/thread_tracker.h:60-74 | The last ID moves into the place of the one removed, and all others stay where they are |
| `Tracker.ThreadTracker.NeedToReset` | Source/Improved/thread_tracker.h:94-107 | On a non-empty, possibly unsorted vector: true exactly when some listed ID exceeds the given one |
| `Tracker.ThreadTracker.DropHeldGuards` | Source/Improved/thread_tracker.h:120-150 | First loop of the reordering: the guards of the thread are gone, and the garbage is exactly the listed IDs that are not registered, each once |
| `Tracker.ThreadTracker.PurgeAndSort` | Source/Improved/thread_tracker.h:153-170 | Second loop and sort: the vector becomes the ascending enumeration of its registered IDs |
| `Tracker.ThreadTracker.RecreateGuards` | Source/Improved/thread_tracker.h:174-192 | Last loop: one guard after the other in vector order; the unchecked lookup always succeeds |
| `Tracker.ThreadTracker.ReorderAll` | Source/Improved/thread_tracker.h:109-193 | The four phases in place equal the closed form `Reorder` |
| `TrackerInvariant.ReorderEffect` | Source/Improved/thread_tracker.h:109-193 | The vector becomes the strictly ascending enumeration of held and registered IDs; counters, operations and other vectors are unchanged; the thread's guards are new and ascending by ID; no other guard is touched |
| `TrackerInvariant.ReorderLadder` | Source/Improved/thread_tracker.h:174-192 | Whenever a guard is about to be re-created, the thread's guards that exist are exactly those of smaller IDs |
| `TrackerInvariant.ReorderKeepsInv` | Source/Improved/thread_tracker.h:109-193 | Reordering keeps the invariant, every remaining lock having a guard |
| `Tracker.ThreadTracker.RegisterMutex` | Source/Improved/thread_tracker.h:266-310 | Registers and acquires an unregistered mutex and reorders after a write if needed; refuses a null ID, no lock type, or a registered mutex |
| `Tracker.ThreadTracker.TryAcquireLock` | Source/Improved/thread_tracker.h:313-355 | State and reply of every branch; a lock to wait for is returned exactly for the waiting answer, and is the registered one; a conversion leaves the lock object it takes out as `LastValue` says, and no later call touches it |
| `Tracker.ThreadTracker.ReleaseLock` | Source/Improved/thread_tracker.h:357-404 | One hold less; the last one erases the entry, or re-owns it and schedules the queued operations; the lock object of an erased entry is left as `LastValue` says, and no later call touches it |
| `TrackerInvariant.ReleaseCases` | Source/Improved/thread_tracker.h:390-403 | The three outcomes told from the state before: one hold less, nothing but a scheduled task, or the entry erased |
| `Tracker.ThreadTracker.RunScheduledTask` | Source/Improved/thread_tracker.h:409-451 | Runs a prefix of the queued operations, all of them without the flag, then erases the entry and unlists it for the running thread only; the lock object loses its guard unless it is a write lock |
| `Tracker.ThreadTracker.AddOperationWithData` | Source/Improved/thread_tracker.h:455-477 | Appends to the operations of a registered lock; otherwise reports the lock available |
| `TrackerInvariant.ApplyKeepsInv` | Source/Improved/thread_tracker.h:313-477 | Every call keeps: each registered lock has a guard, owners and counts from 1 up; a write lock has one owner; vectors list no ID twice and never null; an owner has the mutex listed |
| `TrackerInvariant.RunKeepsInv` | Source/Improved/thread_tracker.h:313-477 | That invariant holds after every run, conversions, operations and forced releases included |
| `TrackerInvariant.VectorsArePrivate` | Source/Improved/thread_tracker.h:35-78 | A thread's vector changes in its own calls only, and adding an operation changes no vector |
| `TrackerInvariant.ListedAfterLastRelease` | Source/Improved/thread_tracker.h:390-403 | After a thread's last release the ID stays listed exactly when others hold the mutex or operations are queued |
| `TrackerInvariant.GrantedWhen` | Source/Improved/thread_tracker.h:313-355 | The exact conditions of the granting and of the waiting answer; waiting changes nothing |
| `TrackerInvariant.GrantMeansOwnership` | Source/Improved/thread_tracker.h:327-355 | A grant gives the caller one more hold (the first after a conversion) and nobody else any change; a granted write leaves a write lock owned by the caller alone |
| `TrackerInvariant.NothingIsIgnored` | Source/Improved/lock_types.cpp:160-169 | Between two calls on the tracker no acquisition is silently ignored by a registered lock |
| `TrackerInvariant.IgnoredExactly` | Source/Improved/lock_types.cpp:140-169 | Of any lock that can be had, an acquisition counts nothing exactly if it is no write lock, has no guard and is not asked for to be read |
| `TrackerEffects.RequestLeavesOthers` | Source/Improved/thread_tracker.h:94-107 | A request that converts nothing and is no write below a listed mutex leaves every other lock as it is, its guard included, and lists the mutex last if it was not listed |
| `TrackerEffects.ConversionLeavesOthers` | Source/Improved/thread_tracker.h:334-337 | So does a conversion of the greatest listed mutex |
| `TrackerEffects.WriteBelowRenews` | Source/Improved/thread_tracker.h:94-193 | A granted write below a listed mutex, conversions included, creates the guards of all listed and registered mutexes anew in ascending order, leaves every other lock as it is, and sorts the vector |
| `TrackerEffects.ForcedReleaseEffect` | Source/Improved/thread_tracker.h:360-364 | A forced release takes out the lock whoever owns it, and the ID out of the calling thread's vector, and nothing else |
| `TrackerEffects.ReleaseUnlists` | Source/Improved/thread_tracker.h:390-403 | A release that ends the lock unlists it for the releasing thread; any other changes no vector, and none changes another lock |
| `TrackerEffects.TaskEffect` | Source/Improved/thread_tracker.h:409-450 | A background task runs a prefix of the queued operations, no more than its flag lets it and fewer than all only because of the flag; then the lock is gone and unlisted for the thread that ran it |
| `TrackerEffects.TaskLeavesSchedule` | Source/Improved/thread_tracker.h:411-419 | A task leaves the schedule of the others as it is, and one that finds nothing registered does nothing |
| `TrackerEffects.AddingEffect` | Source/Improved/thread_tracker.h:455-477 | An operation goes to the end of those queued on a registered lock; otherwise nothing changes and the lock is reported available |
| `TrackerInvariant.Conversion` | Source/Improved/thread_tracker.h:334-404 | A write request of the only reader: granted exactly with one hold and nothing queued, leaving a write lock with that owner; with more holds one hold is lost and the request refused; with operations queued they are scheduled and the request refused |
| `Refinement.Bag` | Source/Improved/lock_types.h:27 | The owner map read as a bag of threads |
| `Refinement.EntryRelease` | Source/Improved/lock_types.cpp:36-81 | One entry's release is a release of the simple lock, a release by a non-owner changing nothing |
| `Refinement.AcquireRefines` | Source/Improved/thread_tracker.h:313-355 | Acquiring, converting and being refused act on that mutex as on a simple reentrant lock, with the same answer, and on no other mutex |
| `Refinement.ReleaseRefines` | Source/Improved/thread_tracker.h:357-404 | The same for a release, including the deferred one |
| `Refinement.StepRefines` | Source/Improved/thread_tracker.h:313-477 | Every step of any thread is a step of the simple machine with the same reply |
| `Refinement.RunRefines` | Source/Improved/thread_tracker.h:313-477 | After every run the tracker shows the simple machine's locks, and has given the same replies all along |
| `LockOrder.GrantRenews` | Source/Improved/thread_tracker.h:327-354 | A granted request gives its thread the mutex and creates guards anew: just the one asked for, or, for a write below a listed mutex, all registered ones of the vector, in ascending order |
| `LockOrder.StepKeepsOrder` | Source/Improved/thread_tracker.h:313-477 | From a state in which every thread's guards are in order, a call keeps them so exactly if no thread owns a mutex whose guard it renews below one whose guard it does not; releases, operations and tasks always do |
| `LockOrder.OwnOrder` | Source/Improved/thread_tracker.h:346-354 | The requesting thread stays in order exactly if it asked to write or owns no greater mutex |
| `LockOrder.OthersOrder` | Source/Improved/thread_tracker.h:343-346 | When no vector is reordered, another thread stays in order exactly if it does not own the requested mutex or owns no greater one |
| `LockOrder.LockOrderIsExact` | Source/Improved/thread_tracker.h:313-477 | In any run, forced releases included, all guards are in order all along exactly if every call meets the condition |
| `LockOrder.AscendingLockOrder` | Source/Improved/thread_tracker.h:94-193 | After every run of write requests, releases and tasks without queued operations or forced releases, each vector is exactly the set of mutexes its thread owns, and its guards were last created in ascending ID order |
| `LockOrder.ReadsAreNotOrdered` | Source/Improved/thread_tracker.h:303-346 | A run of two reads that leaves the guards of a thread out of order |
| `LockOrder.AnothersReadDisturbs` | Source/Improved/lock_types.cpp:160-169 | A run of reads in ascending order in which another thread's read leaves the first one out of order |
| `OperationLedger.NoOperationIsLost` | Source/Improved/thread_tracker.h:390-477 | In every run, for every incarnation of a lock, the pending operations are those accepted, in order; a last release ends it only if there were none, a forced release runs none, and a background task runs the first ones, no more than its flag lets it and fewer than all only because of the flag |
| `OperationLedger.EveryEndIsRecorded` | Source/Improved/thread_tracker.h:390-477 | The ledger has a record of every end of a lock, with what was pending, what ran and how it ended, and no other |
| `DataWrapper.Wrapper.constructor` | Source/Improved/data_wrapper.h:32-52 | The constructor up to its wait: no data, busy, successful, or waiting for the registered lock |
| `WrapperOutcomes.ConstructOutcome` | Source/Improved/data_wrapper.h:32-52 | Without tracker, data, mutex or ID there is no result and the tracker is left alone; otherwise the wrapper is successful exactly if the request can be granted, waits exactly if the lock cannot be had, and is busy in all other cases, and only then gives up its data |
| `DataWrapper.Wrapper.Look` | Source/Improved/data_wrapper.h:53 | The wait ends with the answer of the lock it holds, whether or not that is still registered |
| `DataWrapper.Wrapper.Retry` | Source/Improved/data_wrapper.h:55-84 | The constructor after the wait, for each of its three answers |
| `WrapperOutcomes.TimedOut` | Source/Improved/data_wrapper.h:77-80 | After a wait that timed out nothing changes |
| `WrapperOutcomes.RetryOutcome` | Source/Improved/data_wrapper.h:67-76 | After a wait that found the lock available: busy exactly if the request is refused, successful otherwise, and the data is kept either way |
| `WrapperOutcomes.ConvertOutcome` | Source/Improved/data_wrapper.h:55-66 | After a wait told to convert: busy exactly if the thread alone reads the mutex more than twice or with operations queued, successful otherwise; only a busy one gives up its data |
| `DataWrapper.Wrapper.Destroy` | Source/Improved/data_wrapper.h:87-93 | A successful wrapper releases once, any other does nothing |
| `DataWrapper.Wrapper.Move` | Source/Improved/data_wrapper.h:96-104 | The hold passes to the new wrapper and the source is left without result, data and tracker |
| `DataWrapper.Wrapper.MoveAssign` | Source/Improved/data_wrapper.h:106-116 | The same for assignment; self-assignment changes nothing; what the target held is forgotten |
| `WrapperOutcomes.MoveOutcome` | Source/Improved/data_wrapper.h:96-116 | The target has everything the source had; the source has no result, no data and no tracker, and releases nothing; nothing else changes |
| `WrapperRuns.EventsActAsWrappers` | Source/Improved/data_wrapper.h:32-116 | An event of a history does to the tracker what the wrapper's constructor, retry or destructor does, or the call made beside the wrappers |
| `WrapperWaits.ErasesExactly` | Source/Improved/thread_tracker.h:334-451 | The calls taken to end a lock, forced releases included, are exactly those after which it is unregistered or replaced |
| `WrapperWaits.LastValueIsOk` | Source/Improved/thread_tracker.h:357-450 | A lock ended by a last release keeps its guard and has no owner; one ended by force is as it was; one ended by a task has lost its guard exactly if it is no write lock |
| `WrapperWaits.AnswersOfTheWait` | Source/Improved/lock_types.cpp:112-200 | In every history, whatever calls are made beside the wrappers, a wait can end, and it answers: available exactly if a background task ended a lock that was no write lock; to be converted exactly if no task ended the lock, the waiter is its only reader and asks to write; otherwise that the lock cannot be had |
| `WrapperWaits.LastReleaseLetsNobodyIn` | Source/Improved/thread_tracker.h:390-403 | A constructor that waits on a lock ended by its last release is told that it cannot be had and ends with no data |
| `WrapperBooks.ReleaseEffect` | Source/Improved/thread_tracker.h:390-403 | A release takes one hold from its thread and none from others, or leaves the lock to its operations; only a lock without operations goes |
| `WrapperBooks.ReleaseAndWriteLoses` | Source/Improved/data_wrapper.h:55-66 | Releasing and asking to write a registered mutex ends with too few holds for a wrapper, or schedules its operations twice |
| `WrapperBooks.AttemptBalance` | Source/Improved/data_wrapper.h:40-83 | An attempt keeps the books balanced exactly if it converts nothing and is not taken for a success while it is told to wait |
| `WrapperBooks.ConstructBalance` | Source/Improved/data_wrapper.h:32-52 | Construction keeps the books balanced exactly when it converts nothing |
| `WrapperBooks.RetryBalance` | Source/Improved/data_wrapper.h:55-83 | The retry keeps the books balanced exactly when the answer of the wait still holds: the mutex is free, or, told it was available, its lock can be acquired at that moment |
| `WrapperBooks.ConvertBalance` | Source/Improved/data_wrapper.h:55-66 | The conversion after a wait keeps the books balanced exactly when the mutex is not registered |
| `WrapperBooks.DestroyBalance` | Source/Improved/data_wrapper.h:87-93 | Destroying a successful wrapper keeps the books balanced exactly on the thread that acquired, whether or not the lock is left to its operations |
| `WrapperBooks.MoveBalance` | Source/Improved/data_wrapper.h:96-116 | Moves keep the books balanced exactly when no successful wrapper is assigned over |
| `WrapperBooks.QueueBalance` | Source/Improved/thread_tracker.h:455-477 | Queueing an operation always keeps the books balanced |
| `WrapperBooks.TaskBalance` | Source/Improved/thread_tracker.h:409-450 | A background task keeps the books balanced exactly when no successful wrapper is alive on the mutex it erases |
| `WrapperBooks.DirectAcquireBalance` | Source/Improved/thread_tracker.h:313-355 | A `TryAcquireLock` beside the wrappers keeps the books balanced exactly when it acquires nothing or converts a lock in full |
| `WrapperBooks.DirectReleaseBalance` | Source/Improved/thread_tracker.h:366-404 | A `ReleaseLock` beside the wrappers keeps them balanced exactly when the thread owns nothing there |
| `WrapperBooks.ForcedReleaseBalance` | Source/Improved/thread_tracker.h:360-364 | A forced release keeps them balanced exactly when the mutex is not registered |
| `WrapperBooks.ExactlyFairEventsBalance` | Source/Improved/data_wrapper.h:32-116 | From balanced books, the fair events, calls beside the wrappers included, are exactly those that keep them balanced |
| `WrapperBooks.ConservationIsExact` | Source/Improved/data_wrapper.h:32-116 | The histories whose books are balanced all along are exactly the fair ones |
| `WrapperBooks.OwnershipIsConserved` | Source/Improved/data_wrapper.h:32-116 | After every fair history, operations and tasks included, the tracker counts for each thread and mutex exactly the live successful wrappers, and one hold more for the thread that left the lock to its operations; each lock so kept is scheduled exactly once |
| `WrapperBooks.RegisteredWhileHeld` | Source/Improved/thread_tracker.h:390-403 | A mutex is registered exactly as long as a successful wrapper on it lives or a background task is scheduled for it |
| `WrapperExclusion.ReaderWriterExclusion` | Source/Improved/data_wrapper.h:32-93 | After every fair history, operations and tasks included, while a thread has a successful write wrapper, all successful wrappers on that mutex are its own |
| `WrapperCallers.CallersMakeFairHistories` | Source/Improved/data_wrapper.h:32-116 | If nobody asks to write what it already reads, successful wrappers die on their own thread and are not assigned over, nothing is queued on a registered lock and no call beside the wrappers acquires or releases, then the history is fair, whenever waits end and whatever happens before their retries |
| `WrapperCallers.ConservationForCallers` | Source/Improved/data_wrapper.h:32-116 | In such histories the tracker counts exactly the live successful wrappers, and a mutex is registered exactly as long as one on it lives |
| `WrapperCallers.ExclusionForCallers` | Source/Improved/data_wrapper.h:32-93 | In such histories, while a thread has a successful write wrapper, all successful wrappers on that mutex are its own |
| `WrapperCallers.WaitingIsInVain` | Source/Improved/data_wrapper.h:53-80 | In such histories every wait, whenever it ends, is told that the lock cannot be had |
| `WrapperCallers.WaitingReaderBreaksBooks` | Source/Improved/data_wrapper.h:53-66 | A reader that becomes the only one while it waits to write is told to convert, and its retry always breaks the books |
| `Counterexamples.OvertakenRetry` | Source/Improved/data_wrapper.h:67-83 | A history in which two threads have a successful write wrapper on one mutex: a wait ends because a background task dropped the guard, and the retry is overtaken |
| `Counterexamples.LateTaskBreaksExclusion` | Source/Improved/thread_tracker.h:409-450 | A history without waits or moves, each wrapper destroyed by its own thread, in which a background task erases a lock acquired again and two threads have a successful write wrapper on one mutex |
| `Counterexamples.MoveAssignForgets` | Source/Improved/data_wrapper.h:106-116 | Assigning over a successful wrapper always leaves one hold that no wrapper gives back |
| `Counterexamples.LateTaskErasesNewLock` | Source/Improved/thread_tracker.h:409-450 | A run in which a second scheduled task takes away a lock acquired after the first one ran |
| `Counterexamples.GrantedWithoutAHold` | Source/Improved/thread_tracker.h:435-450 | While a background task runs its operations on a read lock without its guard, every request for it is granted, but only a read is counted |
| `NormalQueue.Queue.constructor` | Source/Improved/queue_normal.h:35-38 | Starts empty, with the field's former value clamped to the range as number of workers, whatever number is requested |
| `NormalQueue.Queue.AddTask` | Source/Improved/queue_normal.h:172-182 | Appends, after evicting one oldest task at or above the limit |
| `NormalQueue.Queue.AddBatchTasks` | Source/Improved/queue_normal.h:190-203 | The batch loop equals adding one by one |
| `QueueRuns.BatchClosedForm` | Source/Improved/queue_normal.h:172-203 | A batch leaves exactly the suffix of old queue and batch of length min(n + k, max(n, limit)), and evicts exactly the rest, in order |
| `NormalQueue.Queue.RemoveTask` | Source/Improved/queue_normal.h:211-228 | The erase-in-loop pass leaves the tasks that do not match, and the callback gets each removed payload once, in queue order |
| `QueueEffects.RemovingExactly` | Source/Improved/queue_normal.h:211-228 | The tasks left are exactly those whose data do not match, at their positions in order; the ended ones and the payloads called back are exactly the others, in queue order |
| `NormalQueue.Queue.Clean` | Source/Improved/queue_normal.h:75-87 | The cleaner's pass in place erases by age |
| `QueueEffects.CleaningExactly` | Source/Improved/queue_normal.h:75-87 | The tasks left are exactly those queued for less than 301 seconds, in order, and exactly the others end as expired, in queue order |
| `QueueRuns.SelectIsStable` | Source/Improved/queue_normal.h:211-228 | Filtering keeps every relation between earlier and later elements |
| `QueueRuns.SelectShares` | Source/Improved/queue_normal.h:211-228 | Kept and removed elements together are the old ones, with multiplicity |
| `QueueRuns.ExpiresAfter` | Source/Improved/queue_normal.h:81 | A task expires at an age of 301 seconds, since ages are truncated to seconds |
| `NormalQueue.Queue.TakeTask` | Source/Improved/queue_normal.h:103-120 | A worker takes the front task exactly when the queue is working, not empty, and the worker is free |
| `QueueEffects.TakingExactly` | Source/Improved/queue_normal.h:103-120 | An attempt starts exactly when a task is queued, the queue is working and a worker is free, and it is one at the front task |
| `QueueEffects.StoppedStartsNothing` | Source/Improved/queue_normal.h:105-116 | A new queue is stopped and attempts nothing before it is set to working, and a queue stopped after any run attempts nothing more until then |
| `NormalQueue.Queue.FinishTask` | Source/Improved/queue_normal.h:122-129 | A failed task goes to the end with one more retry, unless that was its third attempt |
| `QueueEffects.FinishingExactly` | Source/Improved/queue_normal.h:122-129 | A failed task below its third attempt comes back at the end, with the data as the call left it, its time of arrival and one more retry; otherwise it ends; all others in flight stay |
| `QueueEffects.AttemptsAreAccounted` | Source/Improved/queue_normal.h:118-122 | In every run the attempts started are the calls completed and the tasks in flight |
| `QueueEffects.StepFrame` | Source/Improved/queue_normal.h:134-203 | The mode changes by setting or stopping only, attempts start by taking only, calls complete by finishing only, and the number of workers stays |
| `NormalQueue.Queue.WorkerLoop` | Source/Improved/queue_normal.h:102-130 | An undisturbed worker takes and finishes one task for each of the first outcomes, makes no more calls than there are attempts left, and stops early on an empty queue only |
| `NormalQueue.Queue.StopThreads` | Source/Improved/queue_normal.h:154-170 | Stops the queue and clears it if asked; does nothing when already stopped |
| `QueueEffects.StoppingExactly` | Source/Improved/queue_normal.h:154-170 | The queued tasks stay exactly if they are not to be cleared; cleared ones end, in queue order; a stopped queue stays as it is |
| `QueueRuns.Capacity` | Source/Improved/queue_normal.h:118-200 | In every run, queued and in-flight tasks together are at most the limit plus the workers |
| `QueueRuns.StepWithinLimit` | Source/Improved/queue_normal.h:122-200 | From within the size limit, the one step that leaves it is a failed task with attempts left that goes back to a full queue |
| `QueueRuns.LimitIsExact` | Source/Improved/queue_normal.h:122-200 | Any run with any number of workers stays within the size limit all along exactly if no failed task goes back to a full queue |
| `QueueRuns.CapacityIsReached` | Source/Improved/queue_normal.h:123-127 | For every number of workers, a run that leaves the queue alone at the limit plus the workers |
| `QueueRuns.RetriesArePaid` | Source/Improved/queue_normal.h:118-129 | In every run each queued or in-flight task has failed fewer than three times, and calls made plus attempts left are at most three per task added |
| `QueueRuns.CallsStillToCome` | Source/Improved/queue_normal.h:118-129 | Without additions, the calls still made are bounded by the attempts left, whatever the process function returns |
| `QueueRuns.WorkersComeToAnEnd` | Source/Improved/queue_normal.h:101-130 | Any schedule of any number of workers has a bounded number of steps, and while a task is left one of them can act |
| `QueueRuns.StepPlaces` | Source/Improved/queue_normal.h:56-228 | Every step keeps each arrived task in exactly one place |
| `QueueRuns.NoTaskIsLost` | Source/Improved/queue_normal.h:56-228 | In every run each task ever added is exactly once among queued, in flight and ended, and no other task is |
| `QueueRuns.EndsAreFinal` | Source/Improved/queue_normal.h:56-228 | What became of a task never changes |
| `QueueOrder.FirstAttemptsInOrder` | Source/Improved/queue_normal.h:118-119 | Any number of workers start first attempts in order of arrival |
| `QueueOrder.RetryClassesInOrder` | Source/Improved/queue_normal.h:118-203 | With at most one worker, tasks tried equally often are queued in order of arrival, and a task tried more often arrived earlier |
| `QueueOrder.AttemptsInOrder` | Source/Improved/queue_normal.h:118-129 | With at most one worker, first, second and third attempts are each made in order of arrival |
| `QueueOrder.TwoWorkersOvertake` | Source/Improved/queue_normal.h:118-129 | For any number of workers from two on, a run that queues second attempts out of order, and one that makes them out of order |
| `QueueOrder.QueueOrderNeedsOneWorker` | Source/Improved/queue_normal.h:118-203 | Every run keeps the order in the queue exactly if there is at most one worker |
| `QueueOrder.AttemptOrderNeedsOneWorker` | Source/Improved/queue_normal.h:118-129 | Every run makes attempts of each rank in order of arrival exactly if there is at most one worker |
| `QueueFates.TriesAreCounted` | Source/Improved/queue_normal.h:118-129 | In every run the retry count of a task is the number of its failed attempts; a task ends exhausted after exactly three attempts, succeeds within three, and is evicted, expired, removed or cleared before its third |
| `QueueFates.AtMostThreeTries` | Source/Improved/queue_normal.h:122-128 | No task is attempted more than three times |

## Left out

- ReaderWriterExclusion: holds on fair histories, since each unfair event breaks the books (`ExactlyFairEventsBalance`); callers can arrange for them while nothing is queued (`ExclusionForCallers`), and otherwise an overtaken retry (`OvertakenRetry`) or a late background task (`LateTaskBreaksExclusion`) breaks exclusion itself.
- AscendingLockOrder: excludes reads, which are not put in order, and the public `ReleaseLock(id, true)` (Source/Improved/interfaces.h:76), which leaves the ID in the vectors of other owners; what order such runs keep is `LockOrderIsExact`.
- OthersOrder: speaks of requests that reorder no vector; the condition for those that do is the one of `StepKeepsOrder`.
- NoOperationIsLost: speaks of one incarnation of a lock; a background task may run on a later incarnation than the one it was scheduled for (`LateTaskErasesNewLock`).
- AnswersOfTheWait: a background task is one step, so a waiter that looks while it runs its operations, between the guard dropped and the entry erased, is not modelled.
- WaitingIsInVain: a waiter that looks while another thread, inside one call, has dropped its guards to take them in order could be let in; calls are single steps here.
- GrantMeansOwnership: a background task is one step here too; a request made while it runs its operations on a read lock is granted without a hold (`GrantedWithoutAHold`).
- NothingIsIgnored: likewise, in the same moment; what is ignored then is `IgnoredExactly`.
- Real threads, memory orders, condition-variable wake-ups and timeouts: calls are atomic steps, and a timeout is an answer of the wait.
- Liveness and freedom from deadlock of the tracker: the program takes a data mutex while holding its own, and a waiter's pointer can prolong a guard.
- The future runner in Singletons/future.h is not part of this model: a scheduled background task or a worker is a step that may happen.
- Lock objects after they have left the table, beyond what a waiter on them is answered: when their last pointer goes and what that does to the mutex.
- Overflow of `lockCount` and of the retry counter: both are unbounded here; a lock count would overflow after as many nested acquisitions as `size_t` has values.
- A queue without a process function: its worker relocks a container mutex it already holds, which has no defined meaning.
- The callbacks of the queue as code: predicates are functions of the payload, the removal callback is the list of payloads passed to it, and exceptions are not modelled.
- Null checks of smart pointers that are never null (the table's records and their locks), and the answer for a failed addition that rests on them.
- Logging, held times, task names, the singleton and the random generator: easy or not logic.
