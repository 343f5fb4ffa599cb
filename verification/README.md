# lib_dispatch: a verified model

lib_dispatch runs tasks on worker threads. On bare metal it is a small concurrent runtime built in layers: a spinlock
made of plain loads and stores, a condition variable whose waiter nodes live in the waiters' stack frames, a bounded
ring buffer shared by any number of senders and receivers, an event counter, and a dispatcher on top. On a host it is
a second, different protocol over C++ threads. This project models these protocols in Dafny and proves what they
promise, for any number of threads, any queue length and any interleaving.

Where the source updates an object in place, the model is a class or a method with loops (`RingBuffer`, `WaiterList`,
`EventCounter`, `DispatchGroup`, `MatrixMultiply`). Where the point is what several threads do to one another, the
model is a transition system: one program counter per thread, one step per shared access, and theorems over every run.

| files | what they hold |
|---|---|
| `Prelude` | shared definitions; the atomic lock and the bounded FIFO that join the layers |
| `Ring`, `RingBuffer` | the ring buffer as a value with size_t arithmetic, and in place |
| `Spinlock` | load, claim, delay, reload, with times |
| `WaiterList` | the linked list of the condition variable, in place |
| `QueueModel`, `QueueInvariant`, `QueueTheorems`, `QueueCalls`, `QueueProgress` | queue_send and queue_receive by any number of threads |
| `QueueShutdown` | queue_delete over waiting workers |
| `EventCounter`, `DispatchGroup` | the counter and the task group, in place |
| `DispatchModel`, `DispatchInvariant`, `DispatchSteps`, `DispatchProof`, `DispatchTheorems`, `DispatchFootprint`, `DispatchProgress`, `DispatchCalls` | the bare-metal dispatcher |
| `DispatchWait` | its `dispatch_queue_wait`, with the workers' status flags |
| `HostModel`, `HostInvariant`, `HostProof`, `HostTheorems`, `HostProgress`, `HostCalls` | the host dispatcher |
| `MatrixMultiply` | the matrix multiplication example as a client |

The layers meet in two small modules. `Spinlock.RefinesAtomicLock` shows that the spinlock, seen from outside, is
`AtomicLock`; the queue and the dispatcher use atomic locks. `QueueTheorems.StepRefines` shows that the queue protocol,
seen from outside, is `BoundedFifo`; the dispatcher enqueues and receives with `BoundedFifo`.

## Assumptions

- A hardware mutex and a `std::mutex` are atomic locks.
- `chan_out_byte` and `chan_in_byte` are a rendezvous, and each thread uses its own channel end.
- An end token on a streaming channel is a buffered message.
- Memory is sequentially consistent.
- The bare-metal client is one thread; it waits at most once on each waitable group, and only on groups that are not
  empty, since `dispatch_queue_group_wait` reads `tasks[0]` without looking at the count.
- `notify_one` wakes one sleeping thread if there is one; sleeping threads may also wake up spuriously.
- The inputs of the matrix example do not make C's `int` overflow; entries are unbounded integers.

## Model

| member | source | states |
|---|---|---|
| Ring.FlagsAgree | lib_dispatch/src/queue_metal.c:23-51 | full, empty and size agree with the queued sequence for every size_t length, although `length + head - tail` may wrap |
| Ring.WrapCancels | lib_dispatch/src/queue_metal.c:44 | a size_t sum that wraps and is then brought back by a subtraction is exact |
| Ring.IncrementAdvances | lib_dispatch/src/queue_metal.c:73-75 | `(i + 1) % length` in size_t goes round the ring and never wraps past size_t |
| Ring.Put | lib_dispatch/src/queue_metal.c:68-76 | the update of a send appends to a ring that is not full and replaces the oldest item of one that is |
| Ring.Take | lib_dispatch/src/queue_metal.c:101-106 | the update of a receive removes the front item |
| RingBuffer.Queue.constructor | lib_dispatch/src/queue_metal.c:7-21 | a new queue is valid and empty |
| RingBuffer.Queue.IsFull | lib_dispatch/src/queue_metal.c:23-26 | true exactly when as many items are queued as there are slots |
| RingBuffer.Queue.IsEmpty | lib_dispatch/src/queue_metal.c:28-31 | true exactly when no item is queued |
| RingBuffer.Queue.GetSize | lib_dispatch/src/queue_metal.c:33-51 | the number of queued items |
| RingBuffer.Queue.Append | lib_dispatch/src/queue_metal.c:68-76 | in place: the ring becomes the value `Put` gives; below capacity the item is appended |
| RingBuffer.Queue.Remove | lib_dispatch/src/queue_metal.c:101-106 | in place: the ring becomes the value `Take` gives; the item returned was the front |
| Spinlock.MutualExclusion | lib_dispatch/src/spinlock_asm.S:16-39 | if every load-to-store window is shorter than every store-to-reload delay, no run of any set of threads has two of them between a successful acquire and its release |
| Spinlock.ExclusionExactly | lib_dispatch/src/spinlock_asm.S:20-36 | for two or more threads, mutual exclusion holds in every run if and only if window < delay |
| Spinlock.OverlapBreaks | lib_dispatch/src/spinlock_asm.S:22-36 | the run that puts two threads inside when the delay does not outlast the window |
| Spinlock.NeverSticks | lib_dispatch/src/spinlock.c:19-26 | in every run, however timed, a non-zero word names a thread whose own next access wins the lock or frees it |
| Spinlock.RefinesAtomicLock | lib_dispatch/src/spinlock.c:19-26 | seen from outside, each in-time access is an acquire or a release of an atomic lock, or nothing |
| WaiterList.ConditionVariable.Register | lib_dispatch/src/condition_variable_metal.c:19-24 | the node becomes the front of the list; the other nodes keep their order |
| WaiterList.ConditionVariable.SignalOne | lib_dispatch/src/condition_variable_metal.c:50-62 | the newest waiter gets one signal and is unlinked; nothing happens to an empty list |
| WaiterList.ConditionVariable.SendAll | lib_dispatch/src/condition_variable_metal.c:64-90 | every node gets exactly one event, newest first, and the list ends empty |
| QueueTheorems.NoLostWakeup | lib_dispatch/src/queue_metal.c:58-64 | in every reachable state with the mutex free, every registered sender finds the ring full and every registered receiver finds it empty; the list never mixes the two |
| QueueTheorems.StepRefines | lib_dispatch/src/queue_metal.c:66-76 | every step leaves the queue alone or is exactly one operation of a bounded FIFO, at the ring update |
| QueueTheorems.FirstInFirstOut | lib_dispatch/src/queue_metal.c:53-115 | over every interleaving the items received, then the ring, are the items sent; the ring never exceeds its length; the k-th receive returns the k-th item sent |
| QueueCalls.EachCall | lib_dispatch/src/queue_metal.c:53-115 | every call, from its start to its return: it returns from the operation it was called with after exactly one ring update; there a send appended its own item, a receive took the item it returns, at a place of the record not filled at the start; no other step of the thread changes the queue |
| QueueProgress.WorkDecreases | lib_dispatch/src/condition_variable_metal.c:15-76 | every step of a call uses up a finite amount of work, although broadcasts send waiting threads round their loops again |
| QueueProgress.RunsEnd | lib_dispatch/src/queue_metal.c:53-115 | with no new call, every schedule ends within that many steps; with StuckExactly, every call has then returned or waits for what the ring lacks |
| QueueTheorems.NeverOverwrites | lib_dispatch/src/queue_metal.c:72-74 | the overwrite branch of a send is never taken |
| QueueTheorems.LiveNodes | lib_dispatch/src/condition_variable_metal.c:70-73 | a broadcast only follows pointers into live frames: the node it signals is waiting on its channel, the node it unlinks is still inside its wait |
| QueueTheorems.OneWakeupEach | lib_dispatch/src/condition_variable_metal.c:15-36 | each registration gets exactly one wake-up, and only a parked thread is owed one |
| QueueTheorems.LockDiscipline | lib_dispatch/src/condition_variable_metal.c:26-40 | one thread at a time is between taking and dropping the mutex; predicate and ring are only touched with it held; a thread that returns, waits on its channel or is outside holds nothing; each wait gives the mutex up once and regains it once |
| QueueTheorems.StuckExactly | lib_dispatch/src/condition_variable_metal.c:15-41 | no thread can move if and only if each is outside its operation or waits for what the ring lacks: mutex, spinlock and rendezvous together never deadlock |
| QueueTheorems.DeadlockFree | lib_dispatch/src/queue_metal.c:53-115 | with a sender and a receiver inside their operations, some thread can always move |
| QueueTheorems.HolderCanStep | lib_dispatch/src/condition_variable_metal.c:64-76 | the mutex holder is never blocked, neither by the spinlock nor by a rendezvous |
| QueueTheorems.HolderAdvances | lib_dispatch/src/condition_variable_metal.c:64-76 | every step of the mutex holder drops the mutex or lowers a rank in which the list length measures the broadcast loop |
| QueueTheorems.OthersKeepOut | lib_dispatch/src/queue_metal.c:58-85 | no step of another thread changes the mutex, the list or the holder |
| QueueInvariant.RunInv | lib_dispatch/src/queue_metal.c:53-115 | the full invariant holds in every state of every run: locks, list, reasons to wait, FIFO, wake-ups |
| QueueShutdown.QuietQueueIsQuiescent | lib_dispatch/src/queue_metal.c:117-129 | any reachable queue state in which every thread is parked or outside is one the shutdown theorems start from, with both locks free; its workers, list and ring are those of the queue |
| QueueShutdown.CleanShutdown | lib_dispatch/src/condition_variable_metal.c:78-90 | with send and unlink as one step: each waiting worker is told to stop exactly once, no state is stuck before all is done, the steps left decrease, and the end is queue deleted and all workers gone; ring and mutex are those of the quiet queue throughout, by construction, since neither a terminate nor a terminated wait accesses them |
| QueueShutdown.TerminateReadsDeadExactly | lib_dispatch/src/condition_variable_metal.c:84-87 | as written, the loop can read the link of a node whose frame is gone if and only if some worker is waiting |
| QueueShutdown.WaitingWorkerReachable | lib_dispatch/src/queue_metal.c:91-97 | for every ring length, the run that takes a worker into its wait, from where a delete as written can read a dead node |
| EventCounter.OneToken | lib_dispatch/src/event_counter_metal.c:26-42 | any number of signals sends one token, by the signal that brings a non-zero count to zero |
| EventCounter.Counter.constructor | lib_dispatch/src/event_counter_metal.c:17-24 | a new counter has its count and no token |
| EventCounter.Counter.Signal | lib_dispatch/src/event_counter_metal.c:26-42 | counts down unless at zero and sends the token on reaching zero |
| DispatchGroup.Group.constructor | lib_dispatch/src/dispatch_group.c:11-25 | a new group is empty |
| DispatchGroup.Group.Init | lib_dispatch/src/dispatch_group.c:27-32 | the group is empty again |
| DispatchGroup.Group.TaskAdd | lib_dispatch/src/dispatch_group.c:45-52 | the task is appended and takes the group's waitability |
| DispatchGroup.Group.FunctionAdd | lib_dispatch/src/dispatch_group.c:34-43 | a new task for the function is appended |
| DispatchGroup.Group.Perform | lib_dispatch/src/dispatch_group.c:54-64 | each task's function is called once, in the order of the adds |
| DispatchTheorems.GroupWaitExact | lib_dispatch/src/dispatch_queue_metal.c:248-264 | once the client is past a group's token, exactly one token was sent, the counter is zero and the calls made to the group's tasks are those tasks, each once |
| DispatchCalls.WaitReturnsDone | lib_dispatch/src/dispatch_queue_metal.c:248-264 | from the call alone: once the client is outside a group wait again, each task of the group has been called once and freed once, the counter freed once, and one token sent |
| DispatchCalls.AddHandsOver | lib_dispatch/src/dispatch_queue_metal.c:199-228 | from the call alone: once the client is outside a group add again, each task of the group is queued, with a thread, or finished after one call |
| DispatchCalls.AddedGetsDone | lib_dispatch/src/dispatch_queue_metal.c:199-228 | a task put into a group that is then added has been called exactly once when nothing can go on |
| DispatchCalls.BuiltAsAsked | lib_dispatch/src/dispatch_group.c:11-52 | a group stays as it was created; a task put into it stays in it and takes its waitability |
| DispatchCalls.QueueBounded | lib_dispatch/src/dispatch_queue_metal.c:225-226 | the dispatcher's queue never holds more tasks than its length |
| DispatchTheorems.WaitCallsAsPerform | lib_dispatch/src/dispatch_group.c:54-64 | the calls made to a group's tasks when its wait is past the token are, in some order, those `DispatchGroup.Group.Perform` makes |
| DispatchTheorems.SameCalls | lib_dispatch/src/dispatch_group.c:54-64 | the same tasks in another order make the same calls |
| DispatchTheorems.CounterExact | lib_dispatch/src/dispatch_queue_metal.c:199-228 | at every moment, also while later tasks are still being added, a counter equals the number of its group's tasks that have not counted down |
| DispatchTheorems.NothingUsedAfterFree | lib_dispatch/src/dispatch_queue_metal.c:38-48 | no step of any thread accesses a freed task or event counter, and nothing is freed twice |
| DispatchFootprint.OnlyTouched | lib_dispatch/src/dispatch_queue_metal.c:38-48 | the accesses named are all there are: whatever any other task or counter held, a step would do the same and leave it alone |
| DispatchTheorems.FreedExactlyOnce | lib_dispatch/src/dispatch_queue_metal.c:230-264 | a non-waitable task is freed exactly once, when it is done; a waitable one and its counter exactly once, in the wait on its group |
| DispatchTheorems.FreedBy | lib_dispatch/src/dispatch_queue_metal.c:38-48 | a step that frees a task is one of the thread that holds it, after its one call, if it is not waitable, and otherwise one of the client's wait on its group |
| DispatchTheorems.FreedByItsRunner | lib_dispatch/src/dispatch_queue_metal.c:38-48 | the thread that frees a non-waitable task is the one that called its function |
| DispatchTheorems.CounterFreedBy | lib_dispatch/src/dispatch_queue_metal.c:257-259 | only the client, in its wait on the group, frees an event counter |
| DispatchTheorems.BoundedReordering | lib_dispatch/src/dispatch_queue_metal.c:62-73 | when the k-th enqueued task has finished, at most thread_count - 1 earlier ones have not |
| DispatchTheorems.SingleWorkerInOrder | lib_dispatch/src/dispatch_queue_metal.c:62-73 | one worker calls the tasks in the order they were enqueued |
| DispatchWait.ReturnsEarlyExactly | lib_dispatch/src/dispatch_queue_metal.c:266-280 | the bare-metal dispatch_queue_wait can return with a task not called, or not finished, if and only if a task is queued at the call or a worker has then popped one and not set its flag |
| DispatchWait.ReturnsExactly | lib_dispatch/src/dispatch_queue_metal.c:275-279 | one undisturbed pass over flags and queue returns if and only if no flag is busy and nothing is queued |
| DispatchWait.EarlyReturnReachable | lib_dispatch/src/dispatch_queue_metal.c:62-66 | for every number of workers and length, a run that adds one task and calls the wait that can return before the task is called |
| DispatchWait.WaitReachable | lib_dispatch/src/dispatch_queue_metal.c:199-264 | a waitable group can be built, added and waited on |
| DispatchWait.SeenMeansDone | lib_dispatch/src/dispatch_queue_metal.c:275-279 | if nothing was unseen at the call, every task handed over has been called once and finished when the wait returns |
| DispatchProgress.StuckMeansDone | lib_dispatch/src/dispatch_queue_metal.c:199-264 | with a worker and a slot, nothing can go on only when the client's add or wait has returned, all threads are idle and every task handed over was called exactly once |
| DispatchProgress.WorkDecreases | lib_dispatch/src/dispatch_queue_metal.c:38-73 | every step that continues something begun uses up a finite amount of work |
| DispatchProgress.RunsEnd | lib_dispatch/src/dispatch_queue_metal.c:199-264 | with nothing new begun, every schedule ends within that many steps; with StuckMeansDone, every wait returns |
| DispatchProof.CountInv | lib_dispatch/src/event_counter_metal.c:31-37 | a task that counts down always finds the count above zero, and every part of the invariant is kept |
| DispatchProof.FirstTaskPoints | lib_dispatch/src/dispatch_queue_metal.c:255-256 | for an added waitable group, the first task's private_data is the group's counter |
| DispatchProof.RunInv | lib_dispatch/src/dispatch_queue_metal.c:38-264 | the full invariant holds in every state of every run |
| HostTheorems.WaitSound | lib_dispatch/src/dispatch_queue_host.cc:252-272 | when dispatch_queue_wait returns, every task pushed before the call, and before the deque was read empty, was performed once and signalled or deleted, whatever is added meanwhile |
| HostCalls.WaitReturnsDone | lib_dispatch/src/dispatch_queue_host.cc:252-272 | from the call alone: once the thread is outside dispatch_queue_wait again, every task pushed before the call was performed once and finished |
| HostCalls.AddsCounted | lib_dispatch/src/dispatch_queue_host.cc:132-145 | no add is lost: at every moment the calls so far are the tasks pushed and the threads still about to push theirs |
| HostCalls.AddedArePerformed | lib_dispatch/src/dispatch_queue_host.cc:87-145 | when nothing can go on before quit, exactly as many tasks as were added have been performed, each once |
| HostCalls.DeleteReturnsDone | lib_dispatch/src/dispatch_queue_host.cc:274-292 | a delete, from its call, ends only with quit set and every worker exited, and where nothing can go on it has ended |
| HostTheorems.EachJobOnce | lib_dispatch/src/dispatch_queue_host.cc:97-120 | every push is in the deque, with the worker that popped it, or finished; none is performed twice |
| HostTheorems.NeverStranded | lib_dispatch/src/dispatch_queue_host.cc:87-145 | before quit, while a worker sleeps, the deque holds at most as many tasks as notifies to come and workers awake, even under spurious wake-ups; with no notify to come, a non-empty deque has a worker awake |
| HostTheorems.JobsGetDone | lib_dispatch/src/dispatch_queue_host.cc:87-145 | with a task in the deque and a worker, some thread can go on, other than by a poll that finds the deque not empty |
| HostTheorems.DeleteCompletes | lib_dispatch/src/dispatch_queue_host.cc:274-292 | a delete once begun is never stuck, not even if vain polls do not count, and at its end every worker has exited |
| HostProgress.StuckMeansDone | lib_dispatch/src/dispatch_queue_host.cc:87-292 | nothing can go on only when, before quit, every pushed task was performed once and finished and every add and wait has returned, or, after quit, the delete is done and every worker has exited |
| HostProgress.WorkDecreases | lib_dispatch/src/dispatch_queue_host.cc:87-292 | every step that is no call, spurious wake-up or vain poll uses up a finite amount of work |
| HostProgress.RunsEnd | lib_dispatch/src/dispatch_queue_host.cc:87-292 | with nothing new begun, no spurious wake-up and no vain poll, every schedule ends within that many steps; with StuckMeansDone, every wait and every delete returns |
| HostTheorems.NothingTakenAfterQuit | lib_dispatch/src/dispatch_queue_host.cc:97-122 | once quit is set no worker takes another task |
| HostInvariant.ScanPasses | lib_dispatch/src/dispatch_queue_host.cc:268-271 | a worker whose ready semaphore is signalled has none of the tasks waited for |
| HostProof.RunInv | lib_dispatch/src/dispatch_queue_host.cc:80-292 | the full invariant holds in every state of every run |
| MatrixMultiply.DoMatrixMultiply | examples/app_matrix_multiply/src/main.c:41-49 | adds the product to the rows of the range and leaves the others alone |
| MatrixMultiply.LinearLeft | examples/app_matrix_multiply/src/main.c:47 | the product is linear in its left factor |
| MatrixMultiply.LinearRight | examples/app_matrix_multiply/src/main.c:47 | the product is linear in its right factor |
| MatrixMultiply.UnitLeft | examples/app_matrix_multiply/src/main.c:47 | a matrix with a single one on the left picks out a row; with linearity this fixes the product of any two matrices |
| MatrixMultiply.IdentityNeutral | examples/app_matrix_multiply/src/main.c:47 | the identity matrix is neutral on either side |
| MatrixMultiply.OnesGiveRows | examples/app_matrix_multiply/src/main.c:29-38 | the example's inputs, all ones, give what verify_output expects |
| MatrixMultiply.FillRanges | examples/app_matrix_multiply/src/main.c:92-98 | task t gets the rows from t * (n / count) on, n / count of them |
| MatrixMultiply.RangesDisjoint | examples/app_matrix_multiply/src/main.c:92-98 | no row is in two ranges and no range leaves the matrix |
| MatrixMultiply.TilesExactly | examples/app_matrix_multiply/src/main.c:8-10 | the ranges cover every row if and only if the number of rows is a multiple of the number of tasks |
| MatrixMultiply.ParallelIsSequential | examples/app_matrix_multiply/src/main.c:92-106 | any interleaving of the tasks' reads and writes of the output, from zero, ends with the product that the single call gives |
| MatrixMultiply.StaysInside | examples/app_matrix_multiply/src/main.c:41-49 | in every interleaving a task that is not done stays inside the matrices and can go on |
| MatrixMultiply.StepsDecrease | examples/app_matrix_multiply/src/main.c:41-49 | every step of a task uses up a finite number of steps left, so every schedule ends with all tasks done |

## Left out

- `dispatch_queue_rtos.c` and `event_counter_rtos.c`: the same group logic over FreeRTOS primitives that are not part of this model.
- The host event counters and the lifetimes of host tasks and counters: `Signal` reads the count after unlocking; the host model covers the queue, the ready semaphores and delete.
- The host dispatcher's `length`: the source ignores it, so adding never blocks although the header says it may (lib_dispatch/src/dispatch_queue_host.cc:147-157).
- Allocation failure, thread start-up, stack layout and priorities.
- Fairness on the host: that a thread polling in `dispatch_queue_wait` lets the workers have the lock is assumed by HostProgress, and spurious wake-ups are taken to cease.
- `use_callers_thread` reads the workers' busy flags; the model lets the client run a task itself at any time, which includes every run of the source.
- queue_size as a concurrent operation: its result is covered for a ring that is not being changed, as the mutex ensures.
- Several threads adding to one bare-metal dispatch queue: they would share one channel end.
- QueueShutdown.CleanShutdown: takes the send to a waiter and the unlinking of its node as one step, because as written the link may be read from a frame that is gone, which TerminateReadsDeadExactly states.
- The length of the spinlock's window and delay in processor cycles: they are parameters, and the condition on them is proved to be exact.
- Termination of `spinlock_acquire` and fairness between threads: a thread may retry for ever while others win.
- Matrix entries are unbounded integers; C's `int` overflow is not modelled.
- Logging, timers and the speed-up measurement of the example.
