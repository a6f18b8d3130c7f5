# Concurrency primitives, verified

A Dafny model of the hand-written concurrency primitives of this repository and proofs about every interleaving of
them: the strand executor, futures with Then/Recover chains and the All and FirstOf combinators, the futex mutex, the
ticket lock, the semaphore and the bounded queue built from three of them, the unbounded closable queue, the cyclic
barrier, the thread pool with its Join, the tinyfibers scheduler with join handles, the priority and manual
executors, and the dining philosophers.

`dafny verify dfyconfig.toml` checks everything.

## How it is modelled

Code that several threads run at once is a transition system: a `State` with the shared fields and one program
counter per thread, and one predicate per atomic operation or per region under a mutex, named after what it does and
kept in the order of the code. `Runs.IsRun(Init, Next, run)` says that `run` is any finite interleaving of any
number of threads and calls; the theorems speak about all states of all such runs. A Dafny method runs alone, so a
method body could not express these interleavings. Code that runs on one thread keeps its form: `ManualExecutor` and
`AllCombinator` are classes with loops and an array, and `FiberScheduler` is the scheduler object, each of whose methods
is proved to be the step of the same name in `Fibers`. History fields (what was pushed, executed, delivered) are
written by the steps; a step reads one only to find what the code has in hand at that point (a link is fulfilled
with the result delivered to the callback of the link before it, a caller finds the record of its own push, an
accepted task is given the next number).

- `Runs`, `Reach`, `Counting`: runs and their induction principle; what can still be reached from a state; counting
  threads at a point of their code.
- `Strand`, `StrandProgress`: the lock-free stack on a heap of nodes whose addresses are reused, the flag, the
  batches; what the strand can still start. One model for both copies of the strand, with and without a node pool.
- `Results`, `Rendezvous`, `FutureChain`, `AllCombinator`, `FirstOf`: futures.
- `Mutex`, `TicketLock`, `Semaphore`, `BoundedQueue`, `UnboundedQueue`, `CyclicBarrier`, `Dining`: blocking primitives.
- `ThreadPool`, `PoolJoin`, `PriorityExecutor`, `ManualExecutor`: executors.
- `Fibers`, `FiberScheduler`: tinyfibers.

Assumptions: atomics are sequentially consistent; `wait` on an atomic compares and goes to sleep in one step, may wake
for no reason and then compares again (section [atomics.wait] of C++20); condition variables may wake for no
reason and `notify_one` wakes an arbitrary sleeper; a default-constructed atomic pointer is null; converting a
`wheels::Result` to its value throws when it holds an error, and `Invoke` turns an exception of the user's function
into an error; a single-threaded `io_context` runs posted handlers in order and never inside the initiating call;
seat i uses forks i and (i + 1) mod n; the executor under a priority executor starts a posted job at most once.

## Where the code differs from its documentation

- A strand can leave a task waiting: `StrandedTask` is such a run and `IdleExactly` in `StrandIsCorrect` says exactly
  which tasks an idle strand leaves. Without a new Execute it starts a waiting task exactly when some caller is still
  inside Execute or a drain has yet to find the stack empty (`StartsExactly`).
- FirstOf promises "first value | last error"; with failing inputs only, its promise is never set (`FirstOfIsCorrect`, and
  the run `ErrorIsForgotten`).
- All uses its promise twice exactly when the first error is the last arrival, which fails a VERIFY (`Combine`).
- A parking lot does not remember that it has woken its waitee: Wake is safe exactly when the lot has not resumed
  anybody since the last Park (`WakeIsSafeExactly`, `SecondWakeFails`), Park exactly when nobody is parked there
  (`ParkIsSafeExactly`, `LotOccupied`).
- Detach writes to the target, which is there exactly while the handle has not completed (`TargetIsLiveExactly`,
  `TargetIsGone`).
- Join of a pool waits for the tasks that Shutdown has dropped (`WaitsForDropped` is such a run): its wait can end
  exactly when nothing has been dropped and, in a pool without workers, nothing is queued (`HomeExactly`).
- Ticket counters wrap. For counters of any size m, Lock and Unlock are exclusive exactly up to m threads
  (`ThreadsExactly`); with TryLock exactly up to one thread (`TryLockExactly`, with the runs of `StaleTryLock`). A
  TryLock that wins finds the lock free exactly when the owner ticket shows what it read (`WinIsSafeExactly`).

## Model

| member | source | states |
|---|---|---|
| Strand.StrandIsCorrect | futures/executors/await/executors/strand.cpp:147-178 | in every state of every run: started tasks are a prefix of the successful pushes; started, batched and stacked tasks together are exactly the pushes in order; at most one drain is under way, exactly while the flag is set; no freed node is read; a caller pushes the argument of its own call; a body that runs is that of the task started last and all tasks started before it have ended, in the same order; with the flag clear, a task whose caller has tried the flag still waits if and only if it was pushed and lost the flag between the last drain's emptiness check and its store |
| Strand.ExchangeTakesAll | futures/executors/await/executors/strand.cpp:76-78 | the exchange of any drain in any run takes every task not yet started, to be run in push order, and leaves the shared stack empty |
| Strand.StrandedTask | futures/executors/await/executors/strand.cpp:163-164 | a run after which all calls have returned, the flag is clear, and a task is still on the stack |
| Strand.NotStuck | futures/executors/await/executors/strand.cpp:147-178 | in every state of every run with the flag set, the one active drain has an enabled step |
| StrandProgress.StartsExactly | futures/executors/await/executors/strand.cpp:147-178 | in every state of every run with a waiting task: a continuation without a new Execute starts a task if and only if some caller is inside Execute or a drain has yet to find the stack empty |
| Strand.SwapKeeps | futures/executors/await/executors/strand.cpp:86-100 | the winning compare-exchange of a push keeps the invariant although addresses are reused: the new node heads the chain and its task is the newest push |
| Strand.CollectKeeps | futures/executors/await/executors/strand.cpp:103-118 | popping the private stack into the vector keeps the order in which the tasks will run |
| Strand.StartTaskKeeps | futures/futures/await/executors/strand.cpp:122-126 | the body taken from the back of the vector is that of the oldest push not yet started |
| Rendezvous.RendezvousIsCorrect | futures/futures/await/futures/core/state.hpp:37-82 | for every interleaving of one SetResult with one Subscribe or GetResult: no VERIFY fails, no slot is read empty or twice, the consumer is given the promised result and at most once, with an executor to subscribe through it comes in a job and otherwise never does, and when both sides are done it has been given, the word is Done and no callback is left behind |
| Rendezvous.NotStuck | futures/futures/await/futures/core/future.ipp:35-41 | once the result is set, a rendezvous that is not complete has an enabled step, so a sleeping GetResult is always notified |
| Rendezvous.ProgressDecreases | futures/futures/await/futures/core/future.ipp:63-73 | every step other than a wakeup for no reason uses up a bounded supply |
| FutureChain.ChainIsConfluent | futures/futures/await/futures/core/future.ipp:91-110 | for chains of any length and every interleaving of fulfilment, subscriptions and executor jobs: the last consumer has nothing or exactly the fold of the steps over the first result; whatever a link has delivered is the first result, or the continuation of its Then applied to the value before it, its Recover's handler applied to the error before it, or the skipped result itself; no link faults, and a complete chain has delivered |
| FutureChain.MaximalRunDelivers | futures/futures/await/futures/core/future.ipp:91-110 | runs without wakeups for no reason are bounded by fifteen steps a link, and one that cannot go on has delivered the fold |
| FutureChain.LastStepCalls | futures/futures/await/futures/core/future.ipp:159-172 | adding Then(f) to a chain whose outcome is the value v makes the outcome f(v), adding Recover(h) to one whose outcome is the error e makes it h(e), and each skips the other kind |
| FutureChain.ErrorsSkipThen | futures/futures/await/futures/core/future.ipp:159-172 | an error passes unchanged through any number of Then steps |
| FutureChain.ValuesSkipRecover | futures/futures/await/futures/core/future.ipp:202-214 | a value passes unchanged through any number of Recover steps |
| AllCombinator.Combine | futures/futures/await/futures/combine/all.hpp:21-58 | for any arrival order: without an error, entry i of the outcome is the value that arrived as the i-th; with errors, the one that arrived before all others; the promise is used a second time if and only if that error is the last arrival; no inputs give the empty vector |
| AllCombinator.Combinator.OnResult | futures/futures/await/futures/combine/all.hpp:35-54 | one callback keeps every field equal to its closed form over the results that have arrived, writing the vector only in bounds |
| AllCombinator.Combinator.OnResults | futures/futures/await/futures/combine/all.hpp:33-55 | all callbacks in arrival order, or up to the failed VERIFY |
| AllCombinator.AllValues | futures/futures/await/futures/combine/all.hpp:42-53 | with no failing input the outcome is a permutation of the inputs' values, whatever the order of arrival |
| AllCombinator.AnyError | futures/futures/await/futures/combine/all.hpp:42-45 | with a failing input the outcome is the error of some input, whatever the order of arrival |
| AllCombinator.SingleFailure | futures/futures/await/futures/combine/all.hpp:42-53 | one failed input: its error is delivered and the promise is used again |
| FirstOf.FirstOfIsCorrect | futures/futures/await/futures/combine/first_of.hpp:32-42 | for every interleaving of the callbacks: the promise is set at most once, to the value of the one input that won the exchange; after all callbacks it is set if and only if some input succeeded |
| FirstOf.ErrorIsForgotten | futures/futures/await/futures/combine/first_of.hpp:32-42 | one failing input: a run after which nothing more can happen and the promise has been given nothing |
| Mutex.MutexIsCorrect | mutex/mutex/mutex.hpp:21-48 | in every run of any number of threads: mutual exclusion, the word is LOCKED exactly while somebody owns the lock, the counter equals the threads in the slow path, and a free lock with a sleeper has an unlocker before its notify or a waiter that has yet to exchange |
| Mutex.LockEndsHolding | mutex/mutex/mutex.hpp:21-48 | for consecutive states of every run: a Lock that met a held lock ends only by getting the lock, which is then free, and tries again only after it has seen it free; Unlock notifies if and only if the counter it reads is positive |
| TicketLock.TicketLockIsCorrect | mutex/try-lock/ticket_lock.hpp:17-34 | without wrap-around, mixing Lock, TryLock and Unlock: mutual exclusion, and tickets are served 0, 1, 2, ... without gaps |
| TicketLock.TryLockIsSafe | mutex/try-lock/ticket_lock.hpp:26-29 | a TryLock that succeeds, however old the owner ticket it read, finds the lock free with nobody queued |
| TicketLock.TryLockAnswers | mutex/try-lock/ticket_lock.hpp:26-29 | in every run, the compare-exchange of TryLock gets the lock if and only if the lock is free with nobody queued and the owner ticket is still what it read; otherwise TryLock returns without it |
| TicketLock.WrappingTicketLockIsCorrect | mutex/try-lock/ticket_lock.hpp:17-34 | with counters of m values and at most m threads, for every run mixing Lock, Unlock and TryLock in which the owner ticket shows what TryLock read whenever it wins: mutual exclusion, and the k-th holder has ticket k modulo m; by refinement to the machine without wrap-around |
| TicketLock.WinIsSafeExactly | mutex/try-lock/ticket_lock.hpp:26-29 | after every such run, a TryLock about to win finds the lock free with nobody queued if and only if the owner ticket shows what it read |
| TicketLock.WrappingTryLockAnswers | mutex/try-lock/ticket_lock.hpp:26-29 | TryLock answers as in `TryLockAnswers` with wrapping counters too, in runs in which the owner ticket shows what TryLock read whenever it wins |
| TicketLock.ThreadsExactly | mutex/try-lock/ticket_lock.hpp:17-24 | for all m and n: every run of Lock and Unlock by n threads on counters of m values is exclusive if and only if n is at most m |
| TicketLock.TooManyThreads | mutex/try-lock/ticket_lock.hpp:18-21 | for all n greater than m, a run of n threads on counters of m values in which two hold the lock |
| TicketLock.StaleTryLock | mutex/try-lock/ticket_lock.hpp:26-29 | for all m and all n from two on, a run of n threads on counters of m values in which TryLock wins beside the holder on an owner ticket read a full turn earlier |
| TicketLock.TryLockExactly | mutex/try-lock/ticket_lock.hpp:17-34 | for all m and n: every run of Lock, Unlock and TryLock by n threads on counters of m values is exclusive if and only if n is at most one |
| Semaphore.SemaphoreIsCorrect | condvar/semaphore/semaphore.hpp:28-41 | in every run: permits are conserved and never negative, every call of Acquire is inside or has returned with a permit of its own, and while any thread sleeps the wakeups in flight are at least as many as the permits |
| Semaphore.ReturnTakesPermit | condvar/semaphore/semaphore.hpp:28-41 | for consecutive states of every run: some Acquire returns if and only if a permit was there and one has been taken |
| BoundedQueue.BoundedQueueIsCorrect | condvar/semaphore/blocking_queue.hpp:22-44 | in every run: slots, items and calls in flight add up to the capacity, the deque stays within it and is touched by one thread at a time, front is never read on an empty deque, every value has entered as often as Put was called with it but for the calls on their way, values leave in the order they entered, and when nobody can act the blocked threads are producers on a full queue or consumers on an empty one |
| BoundedQueue.NeverAllStuck | condvar/semaphore/blocking_queue.hpp:22-44 | with capacity at least one, a blocked producer and a blocked consumer leave somebody who can act |
| UnboundedQueue.QueueIsCorrect | futures/executors/await/executors/blocking_queue.hpp:19-72 | in every run: accepted values are the taken, the dropped and the buffered ones in this order; the queue is closed exactly after Close or Cancel, and after Cancel nothing is left in it; only Cancel drops; Put refuses only after a close; every call of Take is inside, has returned a value or has given up, and once one has given up the queue is closed and empty; an open queue with a sleeper has at least as many wakeups in flight as values, and a closed one has no sleeper |
| UnboundedQueue.StepsMean | futures/executors/await/executors/blocking_queue.hpp:31-48 | for consecutive states of every run: Take gives up only on a closed and empty queue and otherwise returns the oldest value, only an open queue accepts |
| UnboundedQueue.PutMeans | futures/executors/await/executors/blocking_queue.hpp:19-29 | Put stores its argument behind all others if the queue is open and refuses it if not |
| UnboundedQueue.CloseLosesNothing | futures/executors/await/executors/blocking_queue.hpp:50-72 | without Cancel, accepted values are taken or still there, and once a Take has given up all of them have been taken |
| CyclicBarrier.BarrierIsCorrect | condvar/barrier/cyclic_barrier.hpp:26-41 | with as many threads as participants, in every run: nobody finishes a round before all have entered it, nobody is more than one round ahead, a released thread is awake, and when all are inside one is released |
| CyclicBarrier.ReleaseIsStable | condvar/barrier/cyclic_barrier.hpp:32-40 | a waiter's condition, once true, stays true until it leaves although the counters are reused |
| CyclicBarrier.LastIsLast | condvar/barrier/cyclic_barrier.hpp:36-39 | when the last thread of a round resets the other counter, every other thread has entered the round and waits on the counter of that round |
| Dining.DiningIsCorrect | intro/dining/philosopher.cpp:22-48 | for every table of at least two seats and every run: neighbours never eat together, meals are counted, and no group of philosophers, all of them or some, waits in a circle |
| Dining.SecondForkHolder | intro/dining/philosopher.cpp:23-29 | a philosopher with one fork who is blocked waits for somebody who can act, or is the last seat of an odd table waiting for seat 0 with one fork |
| ThreadPool.PoolIsCorrect | futures/executors/await/executors/static_thread_pool.cpp:17-64 | in every run: the counter equals queued, held and dropped tasks plus Execute calls in flight; tasks are taken in the order accepted; a taken task has run or is running, once and not both; Shutdown leaves the queue closed and empty, and only Shutdown drops tasks; when Join has returned, with a worker, every task not dropped has run and the executed counter counts them |
| ThreadPool.TransitiveJoin | futures/executors/await/executors/static_thread_pool.cpp:38-45 | if all submissions precede Join or come from running tasks: none is refused, Join never sleeps while no worker can act, and when it returns every task ever submitted has run exactly once |
| PoolJoin.HomeExactly | futures/executors/await/executors/helpers.cpp:13-30 | in every state of every run before Join has seen zero, with calls and Shutdown at any time: its wait can still end if and only if no task has been dropped and, in a pool without workers, none is queued |
| PoolJoin.JoinAfterShutdown | futures/executors/await/executors/static_thread_pool.cpp:38-52 | once Shutdown has dropped tasks, a Join that has not seen zero by then never does, because the counter stays positive |
| PoolJoin.WaitsForDropped | futures/executors/await/executors/static_thread_pool.cpp:47-52 | a run after which all calls have returned and Join waits for a dropped task for ever |
| PriorityExecutor.PriorityExecutorIsCorrect | futures/executors/await/executors/priority.cpp:65-79 | in every run: the queue covers the unstarted jobs and the callers about to post, so a job always finds a top; submitted tasks are the queued ones, those held by jobs and those run |
| PriorityExecutor.DrainIsSorted | futures/executors/await/executors/priority.cpp:71-78 | filling and then draining to the last job pops a permutation of the tasks in non-increasing priority and runs each once; if jobs do not overlap the tasks run in that order too |
| ManualExecutor.Executor.RunAtMost | futures/executors/await/executors/manual.cpp:17-26 | runs the queue from its front for at most the limit and returns how many it ran, the smaller of the limit and all there is |
| ManualExecutor.Executor.RunAllScheduled | futures/executors/await/executors/manual.cpp:32-34 | runs exactly the tasks scheduled before the call and leaves their children |
| ManualExecutor.Executor.Drain | futures/executors/await/executors/manual.cpp:36-44 | terminates, runs the whole forest in breadth-first order and returns its number of tasks |
| ManualExecutor.RunRounds | futures/executors/await/executors/manual.cpp:32-34 | k calls of RunAllScheduled run exactly the first k levels |
| ManualExecutor.RunAdditive | futures/executors/await/executors/manual.cpp:17-26 | running a tasks and then b tasks is running a + b tasks |
| ManualExecutor.DrainIsBreadthFirst | futures/executors/await/executors/manual.cpp:36-44 | running the queue from its front to the end is the level order of the forest |
| Fibers.SchedulerIsCorrect | tinyfibers/echo/tinyfibers/runtime/scheduler.cpp:51-140 | in every run whose lots are parked in when vacant and woken once for each Park: every live fiber is held by exactly one structure and once, whatever is about to be resumed is live and suspended, what is posted is ready, fibers are switched to in the order they became ready, fibers leave a wait queue in the order they parked there, a parked joiner has a live target watched by its handle, a fiber inside Join is parked there exactly while its target lives and is ready or running after that, and no handle resumes a joiner twice |
| Fibers.JoinWaitsForTarget | tinyfibers/echo/tinyfibers/runtime/join_handle.cpp:20-29 | Join returns, at once or after parking, only when the target has been destroyed, and leaves the handle detached |
| Fibers.TerminateKeeps | tinyfibers/echo/tinyfibers/runtime/fiber.cpp:19-23 | destroying a fiber completes its watcher and resumes its joiner, and keeps every other fiber in its one place |
| Fibers.MoveHandleKeeps | tinyfibers/echo/tinyfibers/runtime/join_handle.cpp:11-18 | moving an attached handle keeps target, watcher and completion in agreement |
| Fibers.WakeIsSafeExactly | tinyfibers/echo/tinyfibers/runtime/parking_lot.cpp:12-16 | Wake on a lot with a waitee passes the assertion and keeps every fiber in one place if and only if the lot has not resumed anybody since the last Park |
| Fibers.ParkIsSafeExactly | tinyfibers/echo/tinyfibers/runtime/parking_lot.cpp:7-10 | Park keeps every fiber in one place if and only if the lot is new or its last waitee has been woken; otherwise that waitee stays suspended and nothing holds it any more |
| Fibers.LotOccupied | tinyfibers/echo/tinyfibers/runtime/parking_lot.cpp:7-10 | a run after which the running fiber can park over one that is still parked |
| Fibers.AttachIsSafeExactly | tinyfibers/echo/tinyfibers/runtime/join_handle.cpp:7-9 | a new handle keeps handles and watchers in agreement if and only if nobody watched the fiber |
| Fibers.TargetIsLiveExactly | tinyfibers/echo/tinyfibers/runtime/join_handle.cpp:31-35 | the target of an attached handle exists if and only if the handle has not completed |
| Fibers.TargetIsGone | tinyfibers/echo/tinyfibers/runtime/join_handle.cpp:31-35 | a run after which Detach would write to a destroyed fiber |
| Fibers.SecondWakeFails | tinyfibers/echo/tinyfibers/runtime/scheduler.cpp:80-85 | a run after which a second Wake of the same lot fails the assertion |
| FiberScheduler.Scheduler.Reschedule | tinyfibers/echo/tinyfibers/runtime/scheduler.cpp:118-133 | posts a runnable fiber, leaves a suspended one, destroys a terminated one, and panics exactly on a starting or running one, which no caller passes |
| FiberScheduler.Scheduler.RunNextHandler | tinyfibers/echo/tinyfibers/runtime/scheduler.cpp:107-112 | switches to the fiber posted first and keeps the invariant |
| FiberScheduler.Scheduler.TerminateFiber | tinyfibers/echo/tinyfibers/runtime/scheduler.cpp:87-92 | the caller is destroyed and its joiner resumed |
| FiberScheduler.Scheduler.QueuePark | tinyfibers/echo/tinyfibers/runtime/wait_queue.cpp:19-23 | the caller is suspended behind all others in the queue |
| FiberScheduler.Scheduler.QueueWakeOne | tinyfibers/echo/tinyfibers/runtime/wait_queue.cpp:25-31 | resumes the fiber at the front, or does nothing on an empty queue |
| FiberScheduler.Scheduler.QueueWakeAll | tinyfibers/echo/tinyfibers/runtime/wait_queue.cpp:33-38 | empties the queue and posts its fibers in the order they parked |
| FiberScheduler.Scheduler.LotPark | tinyfibers/echo/tinyfibers/runtime/parking_lot.cpp:7-10 | the caller is suspended as the waitee of the lot, whoever was before; the invariant is kept exactly on a vacant lot |
| FiberScheduler.Scheduler.LotWake | tinyfibers/echo/tinyfibers/runtime/parking_lot.cpp:12-16 | resumes the waitee, or does nothing without one; the invariant is kept exactly on a lot not woken since the last Park |
| FiberScheduler.Scheduler.NewHandle | tinyfibers/echo/tinyfibers/runtime/join_handle.cpp:7-9 | the handle watches the fiber, whoever did before; the invariant is kept exactly on a fiber nobody watched |
| FiberScheduler.Scheduler.MovedHandle | tinyfibers/echo/tinyfibers/runtime/join_handle.cpp:11-18 | the new handle takes over the target and, unless completed, its watching |
| FiberScheduler.Scheduler.BeginJoin | tinyfibers/echo/tinyfibers/runtime/join_handle.cpp:20-26 | releases a completed handle at once, else parks the caller in the handle |
| FiberScheduler.Scheduler.DetachHandle | tinyfibers/echo/tinyfibers/runtime/join_handle.cpp:31-35 | writes to a destroyed target exactly when the handle has completed; otherwise neither handle nor target refers to the other any more |

## Left out

- Weak memory orders, real time, and destruction of an object while another thread uses it.
- Fairness and starvation: the theorems say that somebody can act, not that a particular thread eventually does.
- Asynchronous Transform and Then, and `Via` on a future that already has a result: their error delivery rests on library code outside the repository.
- The Promise and Future wrappers themselves: one SetResult and one consumer per shared state is what their one-shot ReleaseState enforces, and it is built into the model.
- FirstOf.FirstOfIsCorrect: for no inputs the code consumes its own future and returns one that cannot be used; only non-empty inputs are of interest.
- FiberScheduler.Scheduler.DetachHandle: says when the code writes to a deleted fiber, and nothing about what follows; covers handles nobody is joining on.
- FiberScheduler.Scheduler.BeginJoin: covers one Join per handle; a second one would overwrite the first waitee.
- General concurrent Pop and node reuse of the lock-free stack: the strand pops private stacks only.
- The destructor of the pool and a second Join; Shutdown is modelled up to its Cancel, so `PoolJoin.HomeExactly` speaks of the end of Join's wait and not of its return.
- `condvar/condvar`, TimeKeeper, the TAS spinlock, Guarded, stack pools, inline executor, FixPriority, thread labels, and the two-fiber test scenarios: smaller instances of what is proved here.
- Context switches, the coroutine library, and everything that talks to sockets.
