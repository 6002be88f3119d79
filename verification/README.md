# Verified models of the IPC and concurrency examples

The repository collects small programs for inter-process communication and concurrency.
This project models its twelve most intricate pieces in Dafny and proves what they are for:

| file | what it models |
|---|---|
| `ProdCons4.dfy` | many producers and many consumers around a bounded buffer with three semaphores and a shutdown hand-off |
| `Semaphore.dfy` | the counting semaphore made of a mutex and a condition variable (`my_pxsem_mmap`) |
| `SemOpen.dfy` | the race to initialise that semaphore in `mysem_open` |
| `HierarchicalMutex.dfy` | `hierarchical_mutex` |
| `ThreadsafeQueue.dfy` | `threadsafe_queue` |
| `ThreadPool.dfy` | `ThreadPool` |
| `ProdCons6.dfy` | producers and a consumer that reads without a lock |
| `MyCat2.dfy` | copying a file through eight buffers handed over by semaphores |
| `MessageRing.dfy` | the shared-memory message ring of `client2` and `server2` |
| `DescentParser.dfy` | the recursive-descent parser with a callback |
| `ParallelAccumulate.dfy` | `parallel_accumulate` |
| `Readline.dfy` | `readline` on the buffered `my_read` |

`Tally.dfy` (sums over thread tables), `Runs.dfy` (runs, invariants, measures), `Logs.dfy`,
`Rings.dfy` (circular buffers), `Sequences.dfy` and `Bytes.dfy` are shared. `dafny verify dfyconfig.toml` checks everything.

## How the concurrent programs are modelled

Each program is a state machine. Every thread has a program point named after the statement
it executes next; one step is one statement of one thread, and any enabled thread may go
next. A semaphore is a count, a mutex is free or held, a condition wait is a program point
that a signal, a broadcast or a spurious wakeup leaves. `IsRun(Init, Next, run)` says that
`run` is a finite run from an initial state, with any number of threads, and the main theorems
hold in every state of every run, or in every state in which a run can go no further.

Beside each state machine stands a class with the fields of the program. Its methods execute
one statement each and update the fields in place; each is proved to take the abstract state
`View()` to exactly the state the step function gives, so the theorems about runs are theorems
about the class. `Run` methods let an arbitrary scheduler interleave the methods.

Where callers can call different things, the answers they get are tied to what they called.
`IsTrace(Init, Step, run, acts)` says that the actions `acts` lead through `run`; the calls of a
thread are read off the actions, not off the state, and theorems say that its answers fit
them one by one.

Fields that record what happened (logs of items fetched, accepted or popped, counts of
attempts) belong to the model and never influence a step.

## Where the code falls short of what it promises

* `mysem_post` signals only when the count is zero. With two waiters and a third thread the
  semaphore can come to rest with a positive count and a waiter asleep, and with any smaller
  pool it cannot (`WakeupsAreLostExactlyWithTwoWaiters`).
* `mysem_open` polls the execute bit through the path name but keeps the mapping it has. If a
  creator fails after another call has mapped its file and a third call creates the file anew,
  the second returns a semaphore nobody else shares, possibly an uninitialised one
  (`SplitsExactlyWithATrio`, `RawExactlyWithAFaultyTrio`).
* In `mysem_open` a creator that fails after its exclusive open can also leave the others
  with nothing: they may all give up on its unfinished file before it removes it. A semaphore
  is certain to be initialised exactly if no creator can fail
  (`InitialisedForSureExactlyWhenClean`).
* `ThreadPool::stop` sets its flag without the mutex, so a worker that has read the flag and
  not yet begun to wait misses the notification. `stop` can then wait for it for ever, unless
  a `commit` that had looked at the flag before is still to push its task: that one notifies
  the worker (`StopHangsExactlyIfAWorkerIsMissed`, `StopCanWaitForEver`).
* `client2` announces a slot after leaving the mutex. With two sending clients the server can
  print a slot that is not filled (`GarbledExactlyWithTwoSenders`).
* `prodcons4` with consumers but no producer, or with no consumer and no free slot left for
  the producers to leave through, blocks for ever; `prodcons6` does with items but no producer (`StuckMeansFinished` in both).
* `unlock` of `hierarchical_mutex` compares values only. A thread can come to accept the
  unlocking of a mutex it does not own if and only if two mutexes have the same value or one
  has ULONG_MAX (`UnownedUnlockPassesExactlyOnEqualValues`).
* `readline` returns one more than it stored when the line does not end in a newline
  (`StoredLengthIsKnown`), and makes no progress with a maxlen below 2
  (`ProgressExactlyWithRoom`).

## Model

| member | source | states |
|---|---|---|
| ProdCons4.EveryInterleavingIsSafe | example/unix_network/example/pxsem/prodcons4.cpp:65-115 | In every state of every run, for any item count and any numbers of producers and consumers, the consumers' check has never failed, the values fetched so far are 0, 1, 2, ... in order, and 0 <= nput - nget <= NBUFF, although shutdown adds `nstored` tokens |
| ProdCons4.EveryMaximalRunCompletes | example/unix_network/example/pxsem/prodcons4.cpp:65-115 | A run that can go no further has every thread returned if and only if the pool is balanced; with at least one thread on each side it ends with nput = nget = items, the per-thread counts summing to that on each side and each being the number of items its own thread handled, every item fetched in order, and mutex = 1, nempty = NBUFF, nstored = number of producers |
| ProdCons4.EveryRunIsFinite | example/unix_network/example/pxsem/prodcons4.cpp:65-115 | No run is longer than 20 steps per item plus 9 per thread, whatever the scheduler does |
| ProdCons4.StuckMeansFinished | example/unix_network/example/pxsem/prodcons4.cpp:71-76 | Deadlock freedom with its exact condition: in a reachable state with nothing enabled all threads have returned if and only if both sides have threads, or there are no consumers and the producers can leave through a free slot |
| ProdCons4.FinalState | example/unix_network/example/pxsem/prodcons4.cpp:65-115 | The counts, of every single thread too, the semaphore values and the fetched sequence of any state in which all threads have returned |
| ProdCons4.ProducerAlone | example/unix_network/example/pxsem/prodcons4.cpp:69-82 | A producer inside its critical section is the only thread inside one |
| ProdCons4.ConsumerAlone | example/unix_network/example/pxsem/prodcons4.cpp:97-111 | A consumer inside its critical section is the only thread inside one |
| ProdCons4.SlotIsFree | example/unix_network/example/pxsem/prodcons4.cpp:78 | The slot a producer is about to store into holds no unread item, and the value it stores is the item's number |
| ProdCons4.ItemIsThere | example/unix_network/example/pxsem/prodcons4.cpp:99-106 | A consumer that passes its exit test finds a stored item: the extra shutdown tokens never let it overtake the producers |
| ProdCons4.TheCheckWorks | example/unix_network/example/pxsem/prodcons4.cpp:106-107 | In any state, reachable or not, the check counts an error exactly if what is fetched is not the number expected |
| ProdCons4.ProducerKeepsTokens | example/unix_network/example/pxsem/prodcons4.cpp:68-85 | Every statement of a producer keeps the mutex, `nempty` and `nstored` token equations |
| ProdCons4.ConsumerKeepsTokens | example/unix_network/example/pxsem/prodcons4.cpp:96-113 | Every statement of a consumer keeps the same token equations |
| ProdCons4.ProducerKeepsContents | example/unix_network/example/pxsem/prodcons4.cpp:68-85 | Every statement of a producer keeps each unread slot equal to its item number and what every thread relies on |
| ProdCons4.ConsumerKeepsContents | example/unix_network/example/pxsem/prodcons4.cpp:96-113 | The same for every statement of a consumer, including that its check succeeds |
| ProdCons4.ProducerKeepsCounts | example/unix_network/example/pxsem/prodcons4.cpp:78-84 | Every statement of a producer keeps each thread's count equal to the items that thread stored, up to the one it is about to count |
| ProdCons4.ConsumerKeepsCounts | example/unix_network/example/pxsem/prodcons4.cpp:105-113 | The same for the consumers and the items they fetched |
| ProdCons4.StepInv | example/unix_network/example/pxsem/prodcons4.cpp:65-115 | Every step of every thread keeps the whole invariant and lowers the termination measure |
| ProdCons4.Shared.constructor | example/unix_network/example/pxsem/prodcons4.cpp:11-46 | `main` sets up the shared structure, semaphores and threads in the initial state of the model |
| ProdCons4.Shared.Produce | example/unix_network/example/pxsem/prodcons4.cpp:65-86 | One statement of `produce`, in place, is the producer step of the transition system |
| ProdCons4.Shared.Put | example/unix_network/example/pxsem/prodcons4.cpp:78-84 | One statement of `produce` for an item, in place, is the producer step |
| ProdCons4.Shared.Consume | example/unix_network/example/pxsem/prodcons4.cpp:91-115 | One statement of `consume`, in place, is the consumer step of the transition system |
| ProdCons4.Shared.Look | example/unix_network/example/pxsem/prodcons4.cpp:105-107 | Finding the slot, and checking and taking its item, in place, are consumer steps |
| ProdCons4.Shared.Take | example/unix_network/example/pxsem/prodcons4.cpp:108-113 | The remaining statements of `consume` for an item, in place, are consumer steps |
| ProdCons4.Shared.Run | example/unix_network/example/pxsem/prodcons4.cpp:37-56 | Under an arbitrary scheduler the threads stop, finished exactly when the pool is balanced, with all items fetched in order and no error |
| ProdCons4.ProdCons | example/unix_network/example/pxsem/prodcons4.cpp:22-62 | The program as a whole: it finishes exactly for balanced pools and fetches 0 .. nitems-1 |
| Semaphore.EveryRunRefines | example/unix_network/example/my_pxsem_mmap/sem_wait.cpp:7-26 | In every run of any number of threads mixing wait, post and trywait, the log of effects is a history of the atomic counting semaphore ending in the current count, and each thread was told exactly what the log says it did |
| Semaphore.EveryTraceRefines | example/unix_network/example/my_pxsem_mmap/sem_wait.cpp:7-26 | In every trace the log of effects is a history of the atomic counting semaphore ending in the current count, each thread was told what the log says it did, and what it was told answers the operations it called one by one: success, EAGAIN for a trywait only, and EINVAL for everything exactly if the magic number is wrong |
| Semaphore.StepAnswered | example/unix_network/example/my_pxsem_mmap/sem_trywait.cpp:7-31 | Every step keeps the answers of every thread in agreement with its calls |
| Semaphore.AnyWaitMayEnd | example/unix_network/example/my_pxsem_mmap/sem_wait.cpp:21-22 | A wait may end at any time without a signal |
| Semaphore.StepIsAtomic | example/unix_network/example/my_pxsem_mmap/sem_wait.cpp:17-25 | Each statement of the three operations either leaves count and log alone or is one atomic operation of the thread that executes it: wait takes only from a positive count, and trywait is refused only at zero |
| Semaphore.StepRefines | example/unix_network/example/my_pxsem_mmap/sem_post.cpp:17-25 | Every step keeps the refinement, also across spurious wakeups and stolen counts |
| Semaphore.TokensAreConserved | example/unix_network/example/my_pxsem_mmap/sem_trywait.cpp:17-29 | Initial value + posts = count + successful waits and trywaits + 2^32 for each wrap of the unsigned counter; no wrap unless the posts reach that width |
| Semaphore.HistoryConserves | example/unix_network/example/my_pxsem_mmap/semaphore.h:10-15 | The same conservation for every legal history of the atomic semaphore with an unsigned int counter |
| Semaphore.NoWakeupIsLost | example/unix_network/example/my_pxsem_mmap/sem_wait.cpp:21-24 | With at most one waiter, or at most two threads, no reachable state has the mutex free, a positive count and an unsignalled sleeper |
| Semaphore.StepForgetsNone | example/unix_network/example/my_pxsem_mmap/sem_post.cpp:21-24 | Every step keeps: while somebody sleeps the count is zero and nobody is about to raise it |
| Semaphore.TwoWaitersCanBeStuck | example/unix_network/example/my_pxsem_mmap/sem_post.cpp:21-22 | Witness: two waiters fall asleep, two posts signal once, and a waiter sleeps on with the count at 1 and all other threads idle or asleep |
| Semaphore.WakeupsAreLostExactlyWithTwoWaiters | example/unix_network/example/my_pxsem_mmap/sem_post.cpp:21-23 | A pool can come to rest with a free mutex, a positive count and an unsignalled sleeper, all other threads being idle or asleep, if and only if two of its threads may wait and it has a third thread |
| Semaphore.RestsStuckExactlyWithACountAndASleeper | example/unix_network/example/my_pxsem_mmap/sem_wait.cpp:17-25 | A run that has come to rest has the mutex free and every thread out of its call, told what it did, or asleep; it is stuck if and only if the count is positive and somebody sleeps, which never happens with one waiter or two threads |
| Semaphore.SemaphoreComesToRest | example/unix_network/example/my_pxsem_mmap/sem_post.cpp:17-25 | Every step but a new call and a spurious wakeup lowers a measure, which those raise by a fixed amount: left alone, the threads come to rest |
| Semaphore.StepInv | example/unix_network/example/my_pxsem_mmap/sem_wait.cpp:7-26 | Mutual exclusion and what each thread has established about the count hold after every step |
| Semaphore.MySem.constructor | example/unix_network/example/my_pxsem_mmap/semaphore.h:10-17 | A semaphore as left by `mysem_open`, with idle threads |
| Semaphore.MySem.Begin | example/unix_network/example/my_pxsem_mmap/sem_wait.cpp:12-15 | The magic-number test at the start of each operation: EINVAL and no other effect if it fails |
| Semaphore.MySem.WakeUp | example/unix_network/example/my_pxsem_mmap/sem_wait.cpp:21-22 | A condition wait may end without a signal |
| Semaphore.MySem.Wait | example/unix_network/example/my_pxsem_mmap/sem_wait.cpp:17-25 | One statement of `mysem_wait`, in place, is the corresponding step |
| Semaphore.MySem.Post | example/unix_network/example/my_pxsem_mmap/sem_post.cpp:17-25 | One statement of `mysem_post`, in place, is the corresponding step |
| Semaphore.MySem.TryWait | example/unix_network/example/my_pxsem_mmap/sem_trywait.cpp:17-29 | One statement of `mysem_trywait`, in place, is the corresponding step |
| SemOpen.CleanPoolsAgree | example/unix_network/example/my_pxsem_mmap/sem_open.cpp:26-126 | In every state of every run in which no creator can fail, whether or not a file is at the path already, there is at most one file and at most one initialiser, and every call that has returned a mapping returned that of the file at the path, with mutex, condition, count and magic number in place |
| SemOpen.ExactlyOneInitialises | example/unix_network/example/my_pxsem_mmap/sem_open.cpp:26-126 | A maximal run that begins with no file and in which no creator can fail ends, if any call asks to create the semaphore, with exactly one call having created it, the path naming its file, and that file complete with the value asked for, its magic number set and its execute bit clear; otherwise every call has failed with ENOENT |
| SemOpen.InitialisedForSureExactlyWhenClean | example/unix_network/example/my_pxsem_mmap/sem_open.cpp:26-126 | Every maximal run that begins with no file ends with an initialiser if and only if some call asks to create the semaphore and no call that may create it can fail afterwards |
| SemOpen.EveryoneFails | example/unix_network/example/my_pxsem_mmap/sem_open.cpp:84-126 | The run against it: a creator that can fail makes its file, all the others find it unfinished until they give up, and then it fails |
| SemOpen.ReturnedMeansInitialised | example/unix_network/example/my_pxsem_mmap/sem_open.cpp:26-80 | The same conclusion from the state alone, once all calls have returned |
| SemOpen.ExistingFileStays | example/unix_network/example/my_pxsem_mmap/sem_open.cpp:34-113 | If a file is at the path when the calls begin, no call creates another or removes it, and every call that succeeds gets it, completely initialised, whatever calls can fail |
| SemOpen.CleanMeansAgreed | example/unix_network/example/my_pxsem_mmap/sem_open.cpp:26-110 | The same for every state that satisfies the invariant |
| SemOpen.SplitsExactlyWithATrio | example/unix_network/example/my_pxsem_mmap/sem_open.cpp:97-109 | Some call can come away with a semaphore the path does not name if and only if three different calls are a creator that can fail, a caller that can join it, and a creator with an acceptable value |
| SemOpen.RawExactlyWithAFaultyTrio | example/unix_network/example/my_pxsem_mmap/sem_open.cpp:97-109 | A call can come away with an uninitialised semaphore if and only if there is such a trio whose first creator fails in a system call; an oversized value alone never does it |
| SemOpen.OnlyFailedCreatorsUnlink | example/unix_network/example/my_pxsem_mmap/sem_open.cpp:112-126 | The path is removed only by a failing creator, only while it names the file that creator made, and never by a caller that timed out |
| SemOpen.ErrorsAreExplained | example/unix_network/example/my_pxsem_mmap/sem_open.cpp:34-126 | EEXIST goes only to exclusive creators, ENOENT only to calls without O_CREAT, EINVAL only to creators with too large a value, ETIMEDOUT only to calls that may join, and other failures only to creators whose own system call failed |
| SemOpen.ErrorsHaveBeenSeen | example/unix_network/example/my_pxsem_mmap/sem_open.cpp:33-126 | A call that failed has itself taken a step that gives the reason: its exclusive open found a file, its open or poll found none, it set the count, or its system call failed; one that timed out has taken ten steps in each of which the path named a file whose execute bit was set |
| SemOpen.JoinsExactlyIfStillLooking | example/unix_network/example/my_pxsem_mmap/sem_open.cpp:84-113 | Once the path names a finished file, a call that may join it and has not created one ends with a mapping if it has polled fewer than ten times so far and not failed, and otherwise fails |
| SemOpen.EveryoneJoinsAFinishedFile | example/unix_network/example/my_pxsem_mmap/sem_open.cpp:33-109 | If a finished file is at the path when the calls begin, every call ends with its mapping, except those that ask for exclusive creation, which end with EEXIST |
| SemOpen.PollInVain | example/unix_network/example/my_pxsem_mmap/sem_open.cpp:96-113 | A caller whose polls find an unfinished file fails with ETIMEDOUT after ten of them in all |
| SemOpen.TriosSplit | example/unix_network/example/my_pxsem_mmap/sem_open.cpp:83-113 | The run: the joiner maps the first file, its creator fails, a second creator completes a second file, and the joiner's `stat` by name is satisfied by the second while it keeps the first |
| SemOpen.OrphansNeedATrio | example/unix_network/example/my_pxsem_mmap/sem_open.cpp:97-109 | Whoever holds a file the path does not name was misled by a trio that can be read off the state |
| SemOpen.RawIsOrphan | example/unix_network/example/my_pxsem_mmap/sem_open.cpp:71-80 | An uninitialised semaphore can only be one the path does not name: the execute bit is cleared last |
| SemOpen.EveryCallReturns | example/unix_network/example/my_pxsem_mmap/sem_open.cpp:26-126 | Neither `goto again` nor the polling loop runs for ever: a run has at most 20n^2 + 17n + 1 states for n calls, and when no step is left every call has returned |
| SemOpen.Finish | example/unix_network/example/my_pxsem_mmap/sem_open.cpp:26-126 | Every run can be continued to one in which no call can move |
| SemOpen.StepProgresses | example/unix_network/example/my_pxsem_mmap/sem_open.cpp:84-111 | Every step lowers the measure, a joiner that starts over being paid for by the creator that removed the path |
| SemOpen.StepInv | example/unix_network/example/my_pxsem_mmap/sem_open.cpp:26-126 | Every step keeps the invariant and touches only what the frame allows |
| SemOpen.StepFrame | example/unix_network/example/my_pxsem_mmap/sem_open.cpp:33-126 | What one step may do to what other calls see: at most one new file, a file of another caller changed in its magic number only, the path removed only by its failing creator |
| SemOpen.EveryRunIsInvariant | example/unix_network/example/my_pxsem_mmap/sem_open.cpp:12-127 | The invariant in every state of every run |
| SemOpen.Calls.constructor | example/unix_network/example/my_pxsem_mmap/sem_open.cpp:24-27 | Calls about to start, with no file at the path or with one left there before |
| SemOpen.Calls.Initialise | example/unix_network/example/my_pxsem_mmap/sem_open.cpp:33-80 | One statement of the creating part of a call, in place, is the corresponding step |
| SemOpen.Calls.Join | example/unix_network/example/my_pxsem_mmap/sem_open.cpp:84-113 | One statement of the joining part of a call, in place, is the corresponding step |
| SemOpen.Calls.Fail | example/unix_network/example/my_pxsem_mmap/sem_open.cpp:117-126 | The common failure exit: unlinks the path if this call created it, and returns the error |
| SemOpen.Calls.Break | example/unix_network/example/my_pxsem_mmap/sem_open.cpp:45-77 | A failing system call of a creator sends it to the failure exit |
| SemOpen.Calls.Run | example/unix_network/example/my_pxsem_mmap/sem_open.cpp:26-126 | Under an arbitrary scheduler all calls return; if no creator can fail they agree, and if there was no file at first exactly one of them has initialised the semaphore, provided any asked to create it |
| HierarchicalMutex.NeverDeadlocked | example/boost/concurrent/example02_mutexlock.cpp:330-368 | In every reachable state, for any threads and mutexes, the wait-for graph has no cycle, and whenever a thread is blocked some lock holder is not |
| HierarchicalMutex.NoCycle | example/boost/concurrent/example02_mutexlock.cpp:359-363 | No path of waiting threads returns to its start |
| HierarchicalMutex.WaitingGoesDown | example/boost/concurrent/example02_mutexlock.cpp:359-368 | The value a thread waits for is larger than the value its blocked owner waits for |
| HierarchicalMutex.PathGoesDown | example/boost/concurrent/example02_mutexlock.cpp:359-368 | The same along every longer path |
| HierarchicalMutex.SomeHolderCanMove | example/boost/concurrent/example02_mutexlock.cpp:330-334 | Following the owners from a blocked thread ends at a lock holder that is not blocked |
| HierarchicalMutex.AdmittedExactlyBelowAllHeld | example/boost/concurrent/example02_mutexlock.cpp:359-363 | The check admits a lock if and only if the mutex lies below ULONG_MAX and strictly below every mutex the thread holds |
| HierarchicalMutex.OwnerHoldsTop | example/boost/concurrent/example02_mutexlock.cpp:336-342 | An idle owner passes the check of `unlock` if and only if the mutex is the one it locked last |
| HierarchicalMutex.UnlockChecksValuesOnly | example/boost/concurrent/example02_mutexlock.cpp:337-339 | The check of `unlock` passes if and only if the mutex has the value of the one locked last, owned or not (ULONG_MAX if none is held) |
| HierarchicalMutex.UnownedUnlockPassesExactlyOnEqualValues | example/boost/concurrent/example02_mutexlock.cpp:336-339 | Threads that only unlock what they own can reach a point where `unlock` would accept a mutex the caller does not own if and only if two mutexes have equal values or one has ULONG_MAX |
| HierarchicalMutex.RejectedCallsChangeNothing | example/boost/concurrent/example02_mutexlock.cpp:330-363 | A call throws logic_error if and only if it goes against the hierarchy of the mutexes the thread holds (locking one not strictly below them all, unlocking one whose value is not that of the last), and then it changes nothing; otherwise it goes on |
| HierarchicalMutex.EveryCallIsAnswered | example/boost/concurrent/example02_mutexlock.cpp:330-368 | In every trace the outcomes a thread was told are possible outcomes of its calls, one by one, only a `try_lock` being ever busy; replaying them, pushing what was locked and popping what was unlocked last, gives exactly what it holds, all of which it owns; and a `try_lock` never waits |
| HierarchicalMutex.OutcomesAreHonest | example/boost/concurrent/example02_mutexlock.cpp:330-352 | A step that tells a thread Locked leaves it owning the mutex on top of its stack, Unlocked leaves the mutex free, Busy comes only from a `try_lock` on a mutex somebody else owns and changes nothing, logic_error only against the hierarchy; and a `try_lock` past the check takes a free mutex |
| HierarchicalMutex.TryLockOnFree | example/boost/concurrent/example02_mutexlock.cpp:344-352 | Undisturbed, a `try_lock` that passes the check gets a free mutex |
| HierarchicalMutex.TryLockOnOwned | example/boost/concurrent/example02_mutexlock.cpp:344-348 | On an owned one it comes back busy with nothing changed |
| HierarchicalMutex.UnlockUndoesLock | example/boost/concurrent/example02_mutexlock.cpp:330-342 | Lock then unlock, undisturbed, restores owners, thread values and held stacks; only the mutex keeps the value it saved |
| HierarchicalMutex.StepInv | example/boost/concurrent/example02_mutexlock.cpp:330-368 | Every step keeps: the thread value is that of the mutex locked last, the saved values chain the held mutexes into a strictly decreasing stack, and owners hold what they own |
| HierarchicalMutex.EveryRunIsInvariant | example/boost/concurrent/example02_mutexlock.cpp:323-369 | The invariant in every state of every run |
| HierarchicalMutex.Mutex.constructor | example/boost/concurrent/example02_mutexlock.cpp:325-326 | A new mutex: its value, saved value 0, free |
| HierarchicalMutex.Threads.constructor | example/boost/concurrent/example02_mutexlock.cpp:354-357 | Threads start with ULONG_MAX as their value |
| HierarchicalMutex.Threads.Check | example/boost/concurrent/example02_mutexlock.cpp:359-363 | The check at the start of `lock` and `try_lock`, in place, is the corresponding step |
| HierarchicalMutex.Threads.BeginUnlock | example/boost/concurrent/example02_mutexlock.cpp:336-340 | The check of `unlock` and the restoring of the value, in place and on any mutex, owned or not, is the corresponding step |
| HierarchicalMutex.Threads.Continue | example/boost/concurrent/example02_mutexlock.cpp:330-352 | Acquiring, `update_hierarchy_value` and releasing, statement by statement and in place, are the corresponding steps |
| ThreadsafeQueue.FirstInFirstOut | example/boost/concurrent/example05_condition_variable.cpp:98-133 | In any interleaving of push, wait_and_pop and try_pop, the popped items followed by the queue are the pushed items in order, and each thread was given exactly what it popped |
| ThreadsafeQueue.EveryCallIsAnswered | example/boost/concurrent/example05_condition_variable.cpp:98-133 | In every trace the answers a thread got fit its calls one by one, only a `try_pop` ever coming back with nothing, and the items it has pushed are those its calls handed over, in order |
| ThreadsafeQueue.AnyWaitMayEnd | example/boost/concurrent/example05_condition_variable.cpp:105 | A wait may end at any time without a notification |
| ThreadsafeQueue.NoLostWakeup | example/boost/concurrent/example05_condition_variable.cpp:98-115 | With any number of consumers, whenever the mutex is free and a consumer sleeps, the queue is no longer than the number of woken consumers, also under spurious wakeups and stolen items |
| ThreadsafeQueue.NobodySleepsOverAnItem | example/boost/concurrent/example05_condition_variable.cpp:98-133 | A run that has come to rest has the mutex free, every thread out of its call or asleep and given exactly what it popped, and an empty queue if anybody sleeps |
| ThreadsafeQueue.QueueComesToRest | example/boost/concurrent/example05_condition_variable.cpp:98-133 | Every step but a new call and a spurious wakeup lowers a measure, which those raise by a fixed amount: left alone, the threads come to rest |
| ThreadsafeQueue.TryPopFailsOnlyOnEmpty | example/boost/concurrent/example05_condition_variable.cpp:116-120 | `try_pop` comes back without an item only while the queue is empty and the caller holds the mutex |
| ThreadsafeQueue.StepOnItems | example/boost/concurrent/example05_condition_variable.cpp:100-131 | What one step does to queue, logs and hands: at most one item enters at the back or leaves at the front, to the thread that moves |
| ThreadsafeQueue.StepFifo | example/boost/concurrent/example05_condition_variable.cpp:98-133 | Every step keeps the order |
| ThreadsafeQueue.StepForgetsNone | example/boost/concurrent/example05_condition_variable.cpp:98-108 | Every step keeps the count of woken consumers and pending notifications sufficient |
| ThreadsafeQueue.StepInv | example/boost/concurrent/example05_condition_variable.cpp:98-133 | Every step keeps mutual exclusion and the nonemptiness that `front` and `pop` rely on |
| ThreadsafeQueue.EveryRunIsGood | example/boost/concurrent/example05_condition_variable.cpp:85-138 | All of this in every state of every run |
| ThreadsafeQueue.Queue.constructor | example/boost/concurrent/example05_condition_variable.cpp:88-92 | A new queue is empty and free |
| ThreadsafeQueue.Queue.WakeUp | example/boost/concurrent/example05_condition_variable.cpp:105 | A wait may end without a notification |
| ThreadsafeQueue.Queue.Push | example/boost/concurrent/example05_condition_variable.cpp:98-102 | One statement of `push`, in place, is the corresponding step |
| ThreadsafeQueue.Queue.WaitAndPop | example/boost/concurrent/example05_condition_variable.cpp:103-108 | One statement of `wait_and_pop`, in place, is the corresponding step |
| ThreadsafeQueue.Queue.TryPop | example/boost/concurrent/example05_condition_variable.cpp:116-124 | One statement of `try_pop`, in place, is the corresponding step |
| ThreadPool.DispatchInCommitOrder | example/boost/concurrent/threadpool.h:42-73 | In any interleaving of commits, workers, spurious wakeups and a stop, tasks are taken in commit order and at most once, and each worker runs exactly the tasks it took, once |
| ThreadPool.CommitsAreAnswered | example/boost/concurrent/threadpool.h:33-48 | At any moment the tasks a client has called `commit` with, in order, are those accepted, then those refused, then the one under way; nothing is refused unless the flag is set |
| ThreadPool.NothingElseIsAcceptedAfterStop | example/boost/concurrent/threadpool.h:35-45 | Once the flag is set, exactly the commits that had looked at it before are still accepted |
| ThreadPool.StepAnswers | example/boost/concurrent/threadpool.h:35-45 | A step answers a commit only for the client that takes it, accepts only what was being pushed, and refuses only if the flag is set |
| ThreadPool.AnyWaitMayEnd | example/boost/concurrent/threadpool.h:67-69 | A wait may end at any time without a notification |
| ThreadPool.NoTaskIsForgotten | example/boost/concurrent/threadpool.h:42-69 | If a worker sleeps, woken workers plus notifications under way are at least as many as the queued tasks, although `commit` notifies after releasing the mutex |
| ThreadPool.EveryTaskIsRunUnlessStopped | example/boost/concurrent/threadpool.h:33-80 | A run that has come to rest without a stop has an empty queue, all workers asleep, all threads counted as free, and every accepted task taken in commit order and run by the worker that took it |
| ThreadPool.EveryCommittedTaskIsRun | example/boost/concurrent/threadpool.h:33-80 | In a run that has come to rest without a stop nothing was refused, and the tasks that were run are exactly the tasks `commit` was called with |
| ThreadPool.PoolComesToRest | example/boost/concurrent/threadpool.h:33-91 | Every step but a new commit and a spurious wakeup lowers a measure, which those raise by a fixed amount: left alone, the pool comes to rest |
| ThreadPool.ThreadCountIsExact | example/boost/concurrent/threadpool.h:74-76 | `thread_num_` plus the workers between its two updates is always the pool size |
| ThreadPool.AtMostOneLateTask | example/boost/concurrent/threadpool.h:63-73 | Once `stop_` is set each worker takes at most one more task and is then on its way out |
| ThreadPool.StopHangsExactlyIfAWorkerIsMissed | example/boost/concurrent/threadpool.h:33-91 | When `notify_all` is called, some continuation goes quiet with a worker asleep, so that `stop` joins it for ever, if and only if a worker has read the flag and not yet begun to wait and no `commit` past its own look at the flag is still to push its task |
| ThreadPool.NobodyStays | example/boost/concurrent/threadpool.h:67-84 | If no worker is falling asleep when it is notified, none is asleep in any later state of any continuation |
| ThreadPool.PromiseIsKept | example/boost/concurrent/threadpool.h:42-46 | If a `commit` is still to push when the missed worker falls asleep, no continuation goes quiet with a worker asleep |
| ThreadPool.FallAsleepForEver | example/boost/concurrent/threadpool.h:67-91 | Otherwise there is a continuation in which all other workers and commits finish and the missed worker sleeps on |
| ThreadPool.NotifyReachesAllExactlyIfNoneIsFallingAsleep | example/boost/concurrent/threadpool.h:67-84 | After `notify_all` a worker can be asleep at some moment of some continuation if and only if one was between reading the flag and waiting; whether it stays asleep is the theorem above |
| ThreadPool.StopCanWaitForEver | example/boost/concurrent/threadpool.h:82-91 | In a pool of any size some run ends with `stop` joining a worker that sleeps and nobody left to wake it |
| ThreadPool.QuietMeansLeftOrAsleep | example/boost/concurrent/threadpool.h:82-91 | When nothing but spurious wakeups and new commits can happen after a stop, every worker has left or sleeps, so `stop` can join all of them if and only if none sleeps |
| ThreadPool.WorkersLeave | example/boost/concurrent/threadpool.h:63-77 | Once none is asleep or falling asleep after a stop, every worker step shortens what is left, at most eight steps per worker, and no other step adds to it |
| ThreadPool.StepOnTasks | example/boost/concurrent/threadpool.h:42-73 | What one step does to queue, logs and hands: only `commit` adds, at the back, and only a worker takes, at the front |
| ThreadPool.StepInOrder | example/boost/concurrent/threadpool.h:42-73 | Every step keeps the order of dispatch |
| ThreadPool.WorkStepCounted | example/boost/concurrent/threadpool.h:63-77 | Every worker step keeps the wakeup count and the thread count |
| ThreadPool.OtherStepCounted | example/boost/concurrent/threadpool.h:42-47 | So does every other step |
| ThreadPool.StepInv | example/boost/concurrent/threadpool.h:33-91 | Every step keeps mutual exclusion and the bound on late tasks |
| ThreadPool.TaskPool.constructor | example/boost/concurrent/threadpool.h:51-58 | At least one worker, every worker at its loop, counter equal to the pool size |
| ThreadPool.TaskPool.Work | example/boost/concurrent/threadpool.h:63-77 | One statement of the worker loop, in place, is the corresponding step |
| ThreadPool.TaskPool.Begin | example/boost/concurrent/threadpool.h:33-35 | A call of `commit` begins: the committing thread is about to look at the flag |
| ThreadPool.TaskPool.WakeUp | example/boost/concurrent/threadpool.h:67-69 | The wait of a worker may end without a notification |
| ThreadPool.TaskPool.Commit | example/boost/concurrent/threadpool.h:35-47 | One statement of `commit`, in place, is the corresponding step |
| ThreadPool.TaskPool.Stop | example/boost/concurrent/threadpool.h:82-84 | Setting the flag and notifying, in place, are the corresponding steps |
| ProdCons6.UnlockedReadsAreSafe | example/unix_network/example/mutex/prodcons6.cpp:63-103 | In every reachable state nready + items consumed + items stored but not announced = nput, the consumer's unlocked reads have seen 0, 1, 2, ... and its check has never failed |
| ProdCons6.EveryProducerCountsItsOwn | example/unix_network/example/mutex/prodcons6.cpp:72-83 | Each producer's count is the number of items it has stored itself, up to the one it is about to count |
| ProdCons6.ReadSlotsAreFrozen | example/unix_network/example/mutex/prodcons6.cpp:99-100 | The slot the consumer is about to read holds its index already, and no step changes any slot below nput |
| ProdCons6.NeverSleepsOnItems | example/unix_network/example/mutex/prodcons6.cpp:77-95 | While the consumer sleeps nready is zero and no producer is about to raise it |
| ProdCons6.EveryRunIsFinite | example/unix_network/example/mutex/prodcons6.cpp:63-103 | A run has at most 30 states per item, 6 per producer and 11 more, plus 4 for every spurious wakeup |
| ProdCons6.StuckMeansFinished | example/unix_network/example/mutex/prodcons6.cpp:63-103 | When nothing but a spurious wakeup can happen, all threads have returned if and only if there is a producer or nothing to produce; then everything was counted and read in order |
| ProdCons6.StepProgresses | example/unix_network/example/mutex/prodcons6.cpp:63-103 | Every step but a spurious wakeup lowers the measure; a spurious wakeup costs less than four |
| ProdCons6.ValueIsIndex | example/unix_network/example/mutex/prodcons6.cpp:72 | The value stored is the index it is stored at, whichever producer stores it |
| ProdCons6.TheCheckWorks | example/unix_network/example/mutex/prodcons6.cpp:99-100 | In any state, reachable or not, the check counts an error exactly if what is read is not the index it is read at |
| ProdCons6.AnyWaitMayEnd | example/unix_network/example/mutex/prodcons6.cpp:94-95 | A wait may end at any time without a signal |
| ProdCons6.ProduceBalance | example/unix_network/example/mutex/prodcons6.cpp:64-85 | How each statement of a producer moves the counters, weighed by where it stands |
| ProdCons6.BalanceConserves | example/unix_network/example/mutex/prodcons6.cpp:73-83 | A step with that balance keeps the conservation equations and lowers the measure |
| ProdCons6.StepInv | example/unix_network/example/mutex/prodcons6.cpp:63-103 | Every step keeps the whole invariant |
| ProdCons6.Shared.constructor | example/unix_network/example/mutex/prodcons6.cpp:40-49 | `main` caps the number of items and starts the threads |
| ProdCons6.Shared.Produce | example/unix_network/example/mutex/prodcons6.cpp:63-85 | One statement of `produce`, in place, is the corresponding step; a signal wakes the consumer if it sleeps and is lost otherwise |
| ProdCons6.Shared.Consume | example/unix_network/example/mutex/prodcons6.cpp:87-103 | One statement of `consume`, in place, is the corresponding step |
| ProdCons6.Shared.WakeUp | example/unix_network/example/mutex/prodcons6.cpp:94-95 | A wait may end without a signal |
| ProdCons6.Shared.Schedule | example/unix_network/example/mutex/prodcons6.cpp:43-56 | Lets some thread move if any can, and otherwise reports that nothing but a spurious wakeup can happen |
| ProdCons6.Shared.Run | example/unix_network/example/mutex/prodcons6.cpp:33-59 | Under any scheduler with a bounded number of spurious wakeups the program stops, finished exactly when there is a producer or nothing to produce, with all items read in order |
| MyCat2.EveryMaximalRunCopies | example/unix_network/example/pxsem/mycat2.cpp:48-91 | For every chunking of the input and every interleaving, a run has at most 40 states per byte and 21 more, and a run that can go no further has written exactly the input |
| MyCat2.WrittenIsAPrefix | example/unix_network/example/pxsem/mycat2.cpp:48-91 | At every moment what is written is a prefix of what was read, which is a prefix of the input |
| MyCat2.NeverTheSameBuffer | example/unix_network/example/pxsem/mycat2.cpp:60-85 | Although all accesses are outside the mutex, reader and writer are never at work on the same buffer |
| MyCat2.ReaderIsAlone | example/unix_network/example/pxsem/mycat2.cpp:54-66 | The buffer the reader fills is none of the unread ones |
| MyCat2.StuckMeansCopied | example/unix_network/example/pxsem/mycat2.cpp:48-91 | When nothing can move both threads have returned and the whole input is written |
| MyCat2.StepProgresses | example/unix_network/example/pxsem/mycat2.cpp:48-91 | Every step lowers a nonnegative measure |
| MyCat2.StepInv | example/unix_network/example/pxsem/mycat2.cpp:48-91 | Every step keeps the token equations, the contents of unread buffers and the stream equation |
| MyCat2.ProduceKeepsBuffers | example/unix_network/example/pxsem/mycat2.cpp:60-68 | The reader overwrites no unread buffer, and the terminator is passed on only at the end of the input |
| MyCat2.ConsumeKeepsStream | example/unix_network/example/pxsem/mycat2.cpp:83-89 | The writer writes the oldest unread chunk whole |
| MyCat2.Shared.constructor | example/unix_network/example/pxsem/mycat2.cpp:26-36 | `main` sets up buffers, semaphores and the two threads |
| MyCat2.Shared.Produce | example/unix_network/example/pxsem/mycat2.cpp:49-70 | One statement of `produce`, in place, is the corresponding step, for any permitted result of `Read` |
| MyCat2.Shared.Consume | example/unix_network/example/pxsem/mycat2.cpp:72-91 | One statement of `consume`, in place, is the corresponding step |
| MyCat2.Shared.Read | example/unix_network/example/pxsem/mycat2.cpp:60 | `Read` returns some number of bytes from 1 to BUFFSIZE while input is left, and 0 at its end |
| MyCat2.Shared.Run | example/unix_network/example/pxsem/mycat2.cpp:35-39 | Under an arbitrary scheduler and arbitrary read sizes both threads return and the file has been copied |
| MessageRing.OneSenderIsServedFaithfully | example/unix_network/example/pxshm/client2.cpp:27-47 | With one sending client, what the server has printed is at every moment of every run the beginning of what was accepted, in order and each message whole |
| MessageRing.EveryMaximalRunServes | example/unix_network/example/pxshm/client2.cpp:27-47 | A run that can go no further has all clients gone, the server waiting and the ring empty; every message to be sent was accepted or counted as an overflow, as many were printed as accepted, and with one sending client exactly the accepted messages were printed, in order and whole |
| MessageRing.EveryRunIsFinite | example/unix_network/example/pxshm/client2.cpp:27-48 | A run has at most 2000 states per message and 1000 per client, and one more: the server's endless loop comes to wait |
| MessageRing.TerminalPoints | example/unix_network/example/pxshm/server2.cpp:31-47 | Where nobody can move every client has exited, the server waits for a message, all semaphores have their initial values and the slots printed are those accepted |
| MessageRing.StepProgresses | example/unix_network/example/pxshm/server2.cpp:31-47 | Every step lowers the measure and keeps the account of messages sent |
| MessageRing.GarbledExactlyWithTwoSenders | example/unix_network/example/pxshm/client2.cpp:40-46 | What the server prints can differ from what was accepted if and only if two different clients have something to send |
| MessageRing.TwoSendersCanGarble | example/unix_network/example/pxshm/client2.cpp:40-46 | Witness: the slots are claimed in one order and announced in the other, and the server takes the announcement for a slot nothing has been copied into |
| MessageRing.RingConserves | example/unix_network/example/pxshm/client2.cpp:31-46 | With any number of clients nempty + nstored + tokens under way = NMESG, attempts = accepted + counted overflows + sends not settled, and at most NMESG slots are in use |
| MessageRing.EveryMessageIsDecidedInOrder | example/unix_network/example/pxshm/client2.cpp:27-47 | In every state of every run each client has decided the beginning of its messages, one after the other; the accepted messages are exactly those decided for a slot, and the other decisions are the overflows counted or about to be |
| MessageRing.ClientDecides | example/unix_network/example/pxshm/client2.cpp:31-46 | One statement of a client decides nothing or its next message, which is refused only if no slot is empty |
| MessageRing.ReportsGoUp | example/unix_network/example/pxshm/server2.cpp:40-46 | The overflow counts the server has reported go strictly up, the last one is the one it remembers, none is larger than the count is, and the one it has just read is the current count |
| MessageRing.CopiesStayInTheirSlots | example/unix_network/example/pxshm/client2.cpp:41-45 | Every `strcpy` writes inside the 256-byte slot claimed, and every print reads inside its slot, whatever the clients do |
| MessageRing.CounterIsAlone | example/unix_network/example/pxshm/client2.cpp:33-35 | While one client updates the overflow counter no other client and not the server is at it |
| MessageRing.InUse | example/unix_network/example/pxshm/client2.cpp:40-46 | A slot is not claimed again before the server has passed it, and with one sender the slot being printed is completely copied |
| MessageRing.SenderKeepsSlots | example/unix_network/example/pxshm/client2.cpp:40-46 | Every statement of the sender keeps the finished slots holding their messages |
| MessageRing.PrintIsFaithful | example/unix_network/example/pxshm/server2.cpp:35 | Printing a completely stored message goes through exactly its characters |
| MessageRing.ServerKeepsFaith | example/unix_network/example/pxshm/server2.cpp:31-47 | Every statement of the server keeps printed messages a prefix of accepted ones |
| MessageRing.StepInv | example/unix_network/example/pxshm/server2.cpp:31-47 | Every step of any client and of the server keeps bounds, token equations, overflow count and the NUL at the end of every slot |
| MessageRing.Shared.constructor | example/unix_network/example/pxshm/server2.cpp:20-30 | The server's loop writes the slot offsets and the semaphores get their initial values |
| MessageRing.Shared.Client | example/unix_network/example/pxshm/client2.cpp:27-47 | One statement of a client, in place, is the corresponding step |
| MessageRing.Shared.Try | example/unix_network/example/pxshm/client2.cpp:27-32 | The test of the loop and the trywait, in place, are client steps |
| MessageRing.Shared.Count | example/unix_network/example/pxshm/client2.cpp:33-36 | Counting an overflow, statement by statement and in place, takes client steps |
| MessageRing.Shared.Put | example/unix_network/example/pxshm/client2.cpp:40-44 | The statements of the critical section around the claim, in place, are client steps |
| MessageRing.Shared.Claim | example/unix_network/example/pxshm/client2.cpp:42-43 | Moving the index of the next slot on, in place, is a client step |
| MessageRing.Shared.Fill | example/unix_network/example/pxshm/client2.cpp:45-46 | One statement of a client with a slot, in place: copying one character, or announcing the slot |
| MessageRing.Shared.Serve | example/unix_network/example/pxshm/server2.cpp:31-47 | One statement of the server, in place, is the corresponding step |
| MessageRing.Shared.PrintMessage | example/unix_network/example/pxshm/server2.cpp:33-37 | The server's critical section, statement by statement and in place, takes server steps |
| MessageRing.Shared.Schedule | example/unix_network/example/pxshm/server2.cpp:31-47 | Lets some client or the server move if any can, and otherwise reports that nobody can |
| MessageRing.Shared.Run | example/unix_network/example/pxshm/server2.cpp:31-47 | Under an arbitrary scheduler clients and server come to a point where nobody can move, with every message accepted and printed from or counted as an overflow, the ring empty, and, with one sender, exactly the accepted messages printed |
| DescentParser.ReturnsExactlyOnSentences | example/boost/coroutine2/Recursive_descent_parsing.cpp:27-68 | The parser returns if and only if the input without white space starts with a sentence not followed by an operator; that sentence is unique and is what is emitted |
| DescentParser.EmittedIsAPrefixOfASentence | example/boost/coroutine2/Recursive_descent_parsing.cpp:33-68 | Whatever was emitted, also when the run throws, can be completed to a sentence |
| DescentParser.OutputParsesToItself | example/boost/coroutine2/Recursive_descent_parsing.cpp:27-68 | Parsing the output of a run that returned emits the same output and returns |
| DescentParser.SoundE | example/boost/coroutine2/Recursive_descent_parsing.cpp:33-40 | What E passes is derived from E, or after a throw a prefix of something derived from E |
| DescentParser.SoundT | example/boost/coroutine2/Recursive_descent_parsing.cpp:42-49 | The same for T |
| DescentParser.SoundS | example/boost/coroutine2/Recursive_descent_parsing.cpp:51-68 | The same for S |
| DescentParser.CompleteE | example/boost/coroutine2/Recursive_descent_parsing.cpp:33-40 | Every text derived from E that no operator follows is passed by E to its end |
| DescentParser.CompleteT | example/boost/coroutine2/Recursive_descent_parsing.cpp:42-49 | Every text derived from T that no product operator follows is passed by T to its end |
| DescentParser.CompleteS | example/boost/coroutine2/Recursive_descent_parsing.cpp:51-68 | Every text derived from S is passed by S to its end |
| DescentParser.ParseE | example/boost/coroutine2/Recursive_descent_parsing.cpp:33-40 | E always ends, within the input, having passed at least one token if it returns |
| DescentParser.ParseT | example/boost/coroutine2/Recursive_descent_parsing.cpp:42-49 | The same for T |
| DescentParser.ParseS | example/boost/coroutine2/Recursive_descent_parsing.cpp:51-68 | The same for S, which throws "1" or "2" where it is stuck |
| DescentParser.TokensOfTokens | example/boost/coroutine2/Recursive_descent_parsing.cpp:18-22 | Text without white space is its own token sequence |
| DescentParser.TokensAppend | example/boost/coroutine2/Recursive_descent_parsing.cpp:18-22 | Inputs are tokenised piece by piece |
| DescentParser.TokensOfOne | example/boost/coroutine2/Recursive_descent_parsing.cpp:18-22 | Exactly blank, tab, newline, carriage return, vertical tab and form feed are skipped |
| DescentParser.BlanksDoNotMatter | example/boost/coroutine2/Recursive_descent_parsing.cpp:18-22 | White space may be put in or left out anywhere without changing what the parser sees |
| DescentParser.DigitsAreTen | example/boost/coroutine2/Recursive_descent_parsing.cpp:51-54 | A single character is an expression exactly if it is one of the ten digits |
| DescentParser.OperatorsAreFour | example/boost/coroutine2/Recursive_descent_parsing.cpp:33-49 | Two digits with a character between them are an expression exactly if it is one of the four operators |
| DescentParser.ThrowsSayWhyE | example/boost/coroutine2/Recursive_descent_parsing.cpp:59-67 | E throws "2" exactly where an operand is missing and "1" exactly where a closing parenthesis is |
| DescentParser.ThrowsSayWhyT | example/boost/coroutine2/Recursive_descent_parsing.cpp:59-67 | The same for T |
| DescentParser.ThrowsSayWhyS | example/boost/coroutine2/Recursive_descent_parsing.cpp:59-67 | The same for S |
| DescentParser.Parser.constructor | example/boost/coroutine2/Recursive_descent_parsing.cpp:24-25 | A parser on a fresh input that has emitted nothing |
| DescentParser.Parser.Pull | example/boost/coroutine2/Recursive_descent_parsing.cpp:16 | The next character, or the end marker without moving on |
| DescentParser.Parser.Scan | example/boost/coroutine2/Recursive_descent_parsing.cpp:18-22 | Moves the lookahead to the next character that is not white space, or to the end |
| DescentParser.Parser.Accept | example/boost/coroutine2/Recursive_descent_parsing.cpp:36-37 | Hands the lookahead to the callback and scans on: one more token is out |
| DescentParser.Parser.E | example/boost/coroutine2/Recursive_descent_parsing.cpp:33-40 | Emits exactly the tokens E passes and returns or throws accordingly |
| DescentParser.Parser.T | example/boost/coroutine2/Recursive_descent_parsing.cpp:42-49 | The same for T |
| DescentParser.Parser.S | example/boost/coroutine2/Recursive_descent_parsing.cpp:51-68 | The same for S |
| DescentParser.Parser.Run | example/boost/coroutine2/Recursive_descent_parsing.cpp:27-30 | `run` returns if and only if some sentence starts the input and no operator follows it, then emits that sentence, always emits a prefix of a sentence, and does the same whatever white space is put in or left out |
| ParallelAccumulate.Accumulate | example/boost/concurrent/example01_thread.cpp:340-373 | For any associative operation for which T() is a right identity, any number of hardware threads and any interleaving of the workers, the result is the left-to-right fold from init, computed by the number of threads the function decides on |
| ParallelAccumulate.Launch | example/boost/concurrent/example01_thread.cpp:346-367 | Starts that number of workers on contiguous blocks that cover the range, all but the last of the size decided on |
| ParallelAccumulate.BlocksAreFair | example/boost/concurrent/example01_thread.cpp:346-363 | There are as many threads as the hardware runs, or two if unknown, unless fewer suffice at 25 elements each; equal blocks fit, the last exceeds them by less than the number of threads, and with two or more threads no block is smaller than 13 |
| ParallelAccumulate.FoldBlock | example/boost/concurrent/example01_thread.cpp:333-338 | Folding a block separately from the identity and then combining is folding on |
| ParallelAccumulate.FoldShift | example/boost/concurrent/example01_thread.cpp:333-338 | An associative operation can be pulled out of a fold |
| ParallelAccumulate.FoldSplit | example/boost/concurrent/example01_thread.cpp:336 | Folding two pieces one after the other is folding their concatenation |
| ParallelAccumulate.CombineOne | example/boost/concurrent/example01_thread.cpp:372 | Combining the fold of everything before a block with the block's own fold is the fold up to its end |
| ParallelAccumulate.StartAll | example/boost/concurrent/example01_thread.cpp:355-367 | The partition loop cuts the range into contiguous blocks without gap or overlap, all but the last of the common size, while started workers run |
| ParallelAccumulate.Combine | example/boost/concurrent/example01_thread.cpp:369-372 | The final fold over the results of finished workers is the fold over the whole range |
| ParallelAccumulate.Workers.constructor | example/boost/concurrent/example01_thread.cpp:353-354 | Every result cell starts as T() |
| ParallelAccumulate.Workers.Start | example/boost/concurrent/example01_thread.cpp:358-363 | Starts a worker on a block, leaving the others valid |
| ParallelAccumulate.Workers.Step | example/boost/concurrent/example01_thread.cpp:335-337 | One step of a worker keeps every worker's cell equal to what it stands for, and brings it nearer to its end |
| ParallelAccumulate.Workers.Interleave | example/boost/concurrent/example01_thread.cpp:369-371 | Joining waits until every worker has finished, however they interleave |
| Readline.Reader.Readline | example/unix_network/lib/readline.cpp:30-53 | For any chunking and any interruptions: without an error exactly the line the stream starts with is stored, the NUL follows it inside the buffer, nothing else is written, and the value is the stored length after a newline, one more otherwise, 0 at end of file |
| Readline.Reader.ReadLines | example/unix_network/lib/readline.cpp:30-53 | Successive calls deliver the lines of the stream, and together they are the stream |
| Readline.Reader.MyRead | example/unix_network/lib/readline.cpp:7-28 | The buffered `my_read` is a byte source: each call hands out the next byte, reports the end only at the end, retries after EINTR, and keeps the stream on an error |
| Readline.Reader.Refill | example/unix_network/lib/readline.cpp:15-22 | The read repeated after interruptions fills the buffer without moving the stream, reports the end only at the end, and fails only where other errors occur |
| Readline.Reader.Read | example/unix_network/lib/readline.cpp:16 | `read` delivers any nonempty part of what is left that fits, 0 at the end, or -1 |
| Readline.Reader.Collect | example/unix_network/lib/readline.cpp:36-49 | The loop stores a line, stopping at the first newline, at maxlen-1 bytes or at the end |
| Readline.Reader.constructor | example/unix_network/lib/readline.cpp:10-12 | The static buffer starts empty |
| Readline.LineLengthIsALine | example/unix_network/lib/readline.cpp:37-49 | The line of a stream ends at its first newline, or where the room or the stream ends |
| Readline.LineIsUnique | example/unix_network/lib/readline.cpp:37-49 | That determines its length |
| Readline.ProgressExactlyWithRoom | example/unix_network/lib/readline.cpp:37 | On a nonempty stream a call consumes something if and only if maxlen is at least 2 |
| Readline.LinesAreTheStream | example/unix_network/lib/readline.cpp:37-52 | The lines of a stream, put together, are the stream |
| Readline.LinesAreProper | example/unix_network/lib/readline.cpp:37-52 | Every line is nonempty, shorter than maxlen, free of inner newlines, and every one but the last ends in a newline or fills the room |
| Readline.StoredLengthIsKnown | example/unix_network/lib/readline.cpp:41-52 | The returned value is 0 exactly at the end of the stream, otherwise the stored length or one more depending on the newline, and each call takes the next line |
| Readline.LineInBuffer | example/unix_network/lib/readline.cpp:39-52 | The byte before the returned end tells a caller whether the stored length is the returned value or one less |

## Left out

- Weak memory: all threads see one sequentially consistent memory. Statements under a mutex that no other thread can observe separately (`front` with `pop` in the pool, test with sleep in the queue) are one step, and so are the increments of `nput`, `nget` and the like; the increment of `noverflow` and the copies of `client2` are split.
- Integer widths: item counts, indices and `noverflow` are unbounded; only the unsigned `sem_count` wraps. `parallel_accumulate` is modelled without the overflow of `length + 24` in unsigned long, and `readline` without that of its int counter for a maxlen beyond the range of int.
- Failures of system and library calls, except a creator's calls in `mysem_open`, `read` in `readline`, and what `sem_trywait` and `try_lock` report. In `mysem_open` the mapping of an existing file and a `stat` or `open` that fails for other reasons than ENOENT or EEXIST are left out, and so is access to a mapping before the file has its size.
- SemOpen: nobody but the calls creates, finishes or removes a file at the path; a file there before is a complete semaphore if its user-execute bit is clear. The umask is taken to leave S_IXUSR alone. `mysem_getvalue`, `mysem_close` and `mysem_unlink` are single calls and not modelled; close, munmap and the mode argument have no counterpart.
- Fairness: no theorem says that a thread that can move eventually does; termination is stated as a bound on every run, or as a measure that all but new calls and spurious wakeups lower, together with what holds when a run can go no further.
- HierarchicalMutex: in the runs considered a thread unlocks a mutex only if it owns it or the call will be rejected, because releasing a std::mutex one does not own is undefined; a `try_lock` that fails although the mutex is free, which std::mutex permits, is not modelled. The remaining classes of example02_mutexlock.cpp are left out.
- ThreadsafeQueue: the copy constructor, `empty` and the shared_ptr overloads, which do the same under the same lock, are left out; items are int.
- ThreadPool: futures, arguments and results of tasks, exceptions thrown by tasks, and a task that calls the pool are left out, and so is the creation of the threads in `start`, which happens before any task can be committed. `stop` is called at most once. Tasks still queued when the workers leave are never run; nothing is claimed about them.
- ProdCons4: the caps of the thread counts and the printing of the counts are left out.
- MessageRing: a client's sleeps and the text of its messages are parameters (any nonempty text that fits in a slot with its NUL). What the server prints with several sending clients is characterised only as far as whether it can go wrong.
- DescentParser: the coroutine that pulls the callback's characters, locale-dependent white space and digits, and characters that are negative as char are left out. A character equal to the end marker is treated like the end of input.
- ParallelAccumulate: iterators are indices, the operation is a pure function, and the worker that runs in the calling thread is treated like the others.
- Readline: one descriptor only, although the static buffer is shared by all. `Reader.Readline` asks for a buffer of maxlen bytes and at least one, because for maxlen 0 the code still writes the NUL. The interrupts that can still occur are finitely many. The wrapper that exits on an error is left out.
- Not modelled at all: logging, printing formats, sleeping, command lines, signals and fork; generated DDS code; the Boost.Asio, Fiber and Interprocess demonstrations; the ZeroMQ and pipe-message examples; the simpler producer-consumer programs and the other semaphore implementations.
