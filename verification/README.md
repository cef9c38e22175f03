# Verified model of the event loop and the thread pool

This project models the core of the event loop library `libev` and the thread pool that the server is
built on, and proves what they promise. Run `dafny verify dfyconfig.toml` to verify it.

| file | what it models |
|---|---|
| `Wakeup.dfy` | the lock-free handshake between the loop and the threads or signal handlers that wake it, as interleaved memory accesses |
| `ThreadPool.dfy` | the pool's ring buffer as a class, and the pool with any number of workers as lock-protected steps |
| `Watchers.dfy` | the watcher structure and the event constants |
| `Heap.dfy`, `TimeHeap.dfy` | the 4-ary heap of times with back pointers, in place on an array, and how members enter, leave and change their time |
| `Pending.dfy`, `CallOrder.dfy` | the five queues of pending watchers with re-entrant callbacks, and the order of the callbacks |
| `Passes.dfy`, `Timers.dfy`, `Floor.dfy`, `Periodics.dfy` | what the passes over timers and periodics share; relative timers; the next time of a periodic; periodics |
| `Wait.dfy` | how long one iteration blocks |
| `Iteration.dfy` | the last part of an iteration: all passes and the callbacks, with timers, periodics and array watchers together |
| `Fds.dfy` | the table of descriptors, the list of changes, `fd_reify` |
| `Poll.dfy`, `Select.dfy`, `Backends.dfy` | two backends, and that they ask the kernel for the same |
| `Epoll.dfy`, `EpollLoop.dfy` | the epoll backend against a kernel that forgets and remembers on its own, and `fd_reify`, `loop_fork` and `fd_event` with it |
| `Arrays.dfy` | the watchers kept in plain arrays and the loop's reference count |
| `Once.dfy` | `ev_once`, over the descriptor table, the timer heap and the queues together |
| `ArraySize.dfy` | how the loop's arrays grow |

How things are represented:

- Event masks and machine words used as bit sets are sets of bit numbers; bitwise or is union, and masking
  is intersection. Times are exact reals. Growable C arrays are Dafny arrays where an algorithm works in
  place on them (the heaps, the ring buffer) and sequences in a field otherwise.
- The clock, `reschedule_cb`, what a backend does to other descriptors, what the kernel reports and what
  other processes do to descriptors are parameters or arbitrary choices. A callback is an arbitrary finite
  script of feeds, clears, priority changes and recursive calls of `ev_invoke_pending`.
- Concurrency is interleaving of steps, each one shared-memory access (`Wakeup`) or one critical section
  (`ThreadPool`). A run is a `Run` value: a start and the actions since; theorems about `Last(r)` for
  `Legal(r)` hold in every reachable state.
- The history in `Pending` is a ghost record of feeds, clears and callbacks. `BitsSince(h, w)` is what was
  fed to a watcher since it was last cleared or invoked; `Lawful(h)` says that each callback got exactly
  these bits and was the most urgent one at that moment. `Valid()` of `Pendings` contains `Lawful(history)`.

Where the code does not do what one might expect, or what its documentation says:

- **A fork can lose a wakeup.** `loop_fork` runs after the pending queues were drained and before the wait.
  It closes the wakeup pipe, with a byte that may be in it, and feeds `pipe_w`, which is not invoked before
  `backend_poll` blocks; and a flag that is still raised makes every later send return at once.
  `Wakeup.ForkCanLoseWakeup` is a run that ends so. `Wakeup.ForkLosesExactly` is the exact condition, at any
  point of any run and whatever the senders do between the fork and the wait: the wait can miss a watched
  source if and only if, at the fork, its flag (`async_pending` or `sig_pending`) is raised,
  `pipe_write_skipped` is down, no sender has got so far that it is bound to wake the loop, and the source is
  marked or there is a sender that may mark it. `Wakeup.LostOnlyByFork` shows that nothing else loses a
  wakeup.
- **Very short periodics leave their grid.** The documentation has a periodic due at `offset + N * interval`.
  `periodic_recalc` starts from a grid that is never finer than `MIN_INTERVAL`. `Floor.DueOnGrid` gives the
  exact condition, `Floor.FineIntervalMissesGrid` an interval that fails. The documentation itself recommends
  intervals above 1/8192, which is `MIN_INTERVAL` (libev-4.15/ev.pod:2271-2274).
- **epoll can miss interest in a file that returns.** If a file outlives its descriptor (a duplicate, a
  child), another file takes the number, and the first one returns, `epoll_modify` can take the kernel's
  older entry for the current one (`Epoll.ReturningFileIsNotWatched`). `Epoll.ModifyIsExactUnlessStale` is
  the exact condition; `Epoll.ModifyIsExact` shows that nothing of the kind happens while no file outlives
  its descriptor.
- **A pool without workers** completes a graceful destroy with its tasks undone;
  `ThreadPool.GracefulRequestCompletes` is exact about this.
- In `downheap` the test of the fourth child in the branch for a short last row can never succeed, and is
  left out of `Heap.MinChild`.

## Model

| member | source | states |
|---|---|---|
| Wakeup.NoLostWakeup | libev-4.15/ev.c:3308-3370 | in every run of any number of senders and the loop, if the loop blocks with an empty pipe and no sender under way and yet a watched async watcher or signal is marked, then `loop_fork` ran in this iteration (and `pipe_w` is pending) |
| Wakeup.ForkCanLoseWakeup | libev-4.15/ev.c:2744-2774 | there is a run in which exactly that happens |
| Wakeup.ForkLosesExactly | libev-4.15/ev.c:2744-2774 | for every reachable state before a fork, with senders anywhere: some wait after the fork, with any further steps of senders, misses the source if and only if it is watched, its flag is raised, `pipe_write_skipped` is down, no sender under way is bound to wake the loop, and the source is marked or there is a sender |
| Wakeup.LostMeansLoses | libev-4.15/ev.c:3290-3360 | the one direction: what a wait after a fork misses, whatever senders did in between, met this condition at the fork |
| Wakeup.LosesMeansLost | libev-4.15/ev.c:2132-2178 | the other: if the condition holds at the fork, there is a continuation to a wait that misses the source |
| Wakeup.LostOnlyByFork | libev-4.15/ev.c:3286-3360 | in every run, whatever a wait misses was lost by a fork at which the condition held |
| Wakeup.InvAlways | libev-4.15/ev.c:2132-2178 | in every run a marked source is covered by its flag, its sender or the scan in progress, a raised flag will be looked at, and `pipe_write_skipped` is up during a blocking wait only for a sender that will see `pipe_write_wanted` |
| Wakeup.PendingWhileWaiting | libev-4.15/ev.c:3286-3355 | from draining the queues to the end of the wait only `loop_fork` makes `pipe_w` pending |
| Wakeup.LoopNeverStuck | libev-4.15/ev.c:2182-2245 | outside `backend_poll` the loop always has an enabled step |
| Wakeup.PipecbCollectsAll | libev-4.15/ev.c:2182-2245 | an invocation of `pipecb` without interference leaves no watched async watcher or signal marked |
| Wakeup.CollectingInv | libev-4.15/ev.c:2205-2243 | at every point of such an invocation each flag that is still raised is one that the callback has yet to test |
| Wakeup.NoticedIsInvoked | libev-4.15/ev.c:3360-3370 | in every run, once a wait ended having seen the pipe readable, or `pipe_write_skipped` was up at the test after it, the loop cannot drain its queues and wait again before it invokes `pipecb`, whatever senders and callbacks do |
| Wakeup.WakeupIsRead | libev-4.15/ev.c:2182-2203 | after a wait that saw the pipe readable, `pipecb` is invoked for reading, and its read takes bytes out of the pipe |
| Wakeup.NoticedIsDelivered | libev-4.15/ev.c:2182-2245 | if no sender moves from the notice on: when the queues are next drained, every source that was marked has been fed, unless a callback stopped its watcher in between, and no watched source is marked |
| Wakeup.UnmarkedIsFed | libev-4.15/ev.c:2218-2243 | in any step of anyone, a watched source loses its mark only by being fed |
| Wakeup.FedWasMarked | libev-4.15/ev.c:2218-2243 | in every run, what is fed was marked and watched |
| Wakeup.StopForgetsOne | libev-4.15/ev.c:4588-4606 | in every run, stopping an async watcher, the place of which the last one takes, makes the loop watch exactly the others |
| ThreadPool.WorkConservation | threadpool/threadpool.c:147-195 | in every run before shutdown, either no worker sleeps or at least as many workers are about to look at the queue as it has tasks, whoever was signalled, whoever stole a task and whoever woke up spuriously |
| ThreadPool.TakenInOrder | threadpool/threadpool.c:266-306 | in every run the tasks taken are a prefix of those accepted, the rest is the queue, and each taken task is in a worker's hand or finished, once; none is a null pointer |
| ThreadPool.ImmediateTakesNoMore | threadpool/threadpool.c:281-290 | after an immediate shutdown has begun no step takes or accepts a task |
| ThreadPool.FreedPoolIsIdle | threadpool/threadpool.c:197-240 | the pool is freed only with `started == 0`, and then every taken task has finished |
| ThreadPool.GracefulDestroyCompletes | threadpool/threadpool.c:197-240 | a graceful destroy has completed every accepted task, in order, if and only if the pool has a worker or nothing was accepted |
| ThreadPool.ModeIsRequested | threadpool/threadpool.c:197-219 | in every run the shutdown is graceful if and only if a graceful destroy was called, and immediate if and only if another destroy was called or a thread could not be created |
| ThreadPool.GracefulRequestCompletes | threadpool/threadpool.c:197-240 | if a run contains `threadpool_destroy` with the graceful flag and the pool was freed, then every accepted task was completed, in order, if and only if there was a worker or nothing was accepted |
| ThreadPool.ImmediateRequestStops | threadpool/threadpool.c:128-132 | if a run contains a destroy without the flag, or the failure of a thread, no task is taken or accepted after it |
| ThreadPool.TakesUpToCapacity | threadpool/threadpool.c:163-182 | a pool that is up takes as many tasks as it has room for before a worker looks, in order, and then answers that the queue is full |
| ThreadPool.ShutdownProgress | threadpool/threadpool.c:197-240 | during shutdown every step of workers and destroyer lowers a bound on the steps still to come, and clients cannot raise it |
| ThreadPool.ShutdownNeverStuck | threadpool/threadpool.c:219-231 | until the pool is freed such a step is possible |
| ThreadPool.InvAlways | threadpool/threadpool.c:97-306 | the invariants of counters, joining, queue, tasks in hand, graceful exit and work conservation hold in every reachable state |
| ThreadPool.ThreadPool.constructor | threadpool/threadpool.c:97-145 | a new pool has an empty ring of the given size |
| ThreadPool.ThreadPool.Add | threadpool/threadpool.c:147-195 | the ring buffer as a bounded sequence: error order, append at the tail with wrap-around, one signal |
| ThreadPool.ThreadPool.Look | threadpool/threadpool.c:274-296 | what a worker does under the lock: sleep, leave, or take the oldest task |
| ThreadPool.ThreadPool.BeginDestroy | threadpool/threadpool.c:197-219 | the first destroy sets the mode, a second one is refused |
| Heap.RootIsMin | libev-4.15/ev.c:1938-1945 | the entry at HEAP0 is due first |
| Heap.UpHeap | libev-4.15/ev.c:2025-2045 | one entry that may be too low travels up in place; order, back pointers, cached times and the set of members hold afterwards |
| Heap.DownHeap | libev-4.15/ev.c:1946-1986 | the same for an entry that may be too high |
| Heap.MinChild | libev-4.15/ev.c:1954-1974 | the child found is due no later than any other child |
| Heap.AdjustHeap | libev-4.15/ev.c:2047-2055 | the same for an entry that may be either |
| Heap.ReHeap | libev-4.15/ev.c:2057-2067 | a heap whose times changed arbitrarily is in order again, with the same members |
| TimeHeap.Enter | libev-4.15/ev.c:3591-3597 | a watcher enters the heap, which grows if need be: one more member, order kept |
| TimeHeap.Leave | libev-4.15/ev.c:3612-3624 | a member leaves from anywhere in the heap: one member less, order kept |
| TimeHeap.SetTime | libev-4.15/ev.c:3644-3646 | a member gets any other time, order and members kept |
| TimeHeap.SetRootTime | libev-4.15/ev.c:3049-3050 | the same for the root by `downheap` alone |
| ArraySize.NextSize | libev-4.15/ev.c:1630-1649 | at least `cnt` and at least twice `cur + 1` entries; a large array with the allocator's four pointers fills its chunks up to less than one entry; growth is at most geometric |
| ArraySize.RoundedUp | libev-4.15/ev.c:1642-1643 | the rounding gives a whole number of chunks with room for one entry more |
| Pending.Pendings.Feed | libev-4.15/ev.c:1691-1708 | the new queue contents; slots and `pending` fields stay mutually inverse and agree with the history |
| Pending.Pendings.Clear | libev-4.15/ev.c:3491-3506 | the result is the or of all bits fed since the last delivery or clear, and the watcher is no longer pending |
| Pending.Pendings.Take | libev-4.15/ev.c:2988-2996 | the callback run next has the highest pending priority and gets exactly the bits fed since the last delivery or clear |
| Pending.Pendings.TopIsDeliverable | libev-4.15/ev.c:2980-2998 | why: the top of the highest non-empty queue is such a watcher |
| Pending.Pendings.InvokePending | libev-4.15/ev.c:2980-2998 | with callbacks that feed, clear, change priorities and invoke recursively: it ends and all queues are empty; it ran a sequence of callbacks (`ran`), each for a watcher of a highest pending priority with exactly its bits, and each of which carried out the operations of its script one after the other: a feed adds just its bits, a clear takes effect if the watcher is pending, and a recursive call runs such a sequence of callbacks in its turn until no watcher is pending; without interference the history is extended by `AllCalls` |
| Pending.RanIsCarried | libev-4.15/ev.c:2980-2998 | what any such sequence of callbacks, with all nested ones, comes to: the history only grew, no more was cleared than callbacks asked for, just what they asked for was fed, and each callback used up one script while there were any |
| Pending.RanWithoutScripts | libev-4.15/ev.c:2980-2998 | callbacks that do nothing change no priority |
| Pending.CarriedOut | libev-4.15/ev.c:2988-2996 | one round: a slot taken, its callback counted, and the operations of one script carried out |
| Pending.PendingIsDelivered | libev-4.15/ev.c:2980-2998 | over any stretch of a lawful history in which nothing is cleared, what was pending and no longer is was invoked, with all bits that waited for it |
| Pending.Pendings.FeedReverseDone | libev-4.15/ev.c:1717-1723 | the watchers put aside are all pending, in one queue an earlier one above a later one |
| Pending.Pendings.SetPriority | libev-4.15/ev.h:723 | the priority of a watcher that is not pending may change |
| Pending.Pendings.IdleHasNoBits | libev-4.15/ev.c:2799-2806 | nothing waits for a watcher that is not pending |
| Pending.FeedAllBits | libev-4.15/ev.c:1717-1723 | feeding a list gives its watchers the bits on top of what they had, and no other watcher any |
| Pending.OthersUntouched | libev-4.15/ev.c:1717-1723 | a history that was extended by events of some watchers only leaves every other watcher's bits and pendingness as they were |
| Pending.CallsStep | libev-4.15/ev.c:2980-2998 | the most urgent slot gives the first of all callbacks still to come |
| Pending.PushKeeps | libev-4.15/ev.c:1700-1705 | pushing a slot keeps slots and `pending` fields inverse |
| Pending.ClearKeeps | libev-4.15/ev.c:3482-3489 | so does giving a slot to the dummy |
| Pending.TakeKeeps | libev-4.15/ev.c:2990-2993 | so does taking the top slot off |
| CallOrder.AboveIsCalledFirst | libev-4.15/ev.c:2980-2998 | of two watchers in one queue the one nearer to the top is called first, with the bits waiting for it |
| CallOrder.SlotIsCalled | libev-4.15/ev.c:2987-2996 | a slot gives the callback after those of the slots above it |
| CallOrder.PendingIsCalled | libev-4.15/ev.c:2980-2998 | every pending watcher is among the callbacks to come, with the bits waiting for it |
| Timers.TimerLoop.TimerStart | libev-4.15/ev.c:3579-3601 | heap order, back pointers and cached times are kept, exactly this timer joins, at its time after now; starting a running timer changes nothing |
| Timers.TimerLoop.TimerStop | libev-4.15/ev.c:3603-3631 | exactly this timer leaves the heap, its time becomes relative again, and it is no longer pending |
| Timers.TimerLoop.TimerAgain | libev-4.15/ev.c:3633-3658 | a repeating timer runs from now on, another one is stopped; nothing else changes |
| Timers.TimerLoop.ReifyDue | libev-4.15/ev.c:3031-3058 | the loop ends (the set of late timers shrinks) and puts aside exactly the late timers in the order in which they are due |
| Timers.TimerLoop.TimersReify | libev-4.15/ev.c:3025-3061 | exactly the timers due before now become pending with `EV_TIMER`, each once, and are rescheduled, not into the past, or stopped; every other timer is unchanged, no watcher that is not a timer is fed or cleared; no timer is due before now any more; those that became pending are above all other watchers of their priority, the earlier due above the later |
| Timers.TimerLoop.DueInOrder | libev-4.15/ev.c:1710-1723 | the queues that `timers_reify` leaves call timers of one priority that became pending in the order of their due times, also after other watchers were fed |
| Timers.NoDrift | libev-4.15/ev.c:3042-3046 | over any number of passes, none of which comes later than one repeat after the timer was due, a repeating timer stays due at its first time plus one repeat for each time it was due |
| Timers.PassNext | libev-4.15/ev.c:3033-3056 | one round deals with one more late timer and makes the set of late ones smaller |
| Passes.DoneNext | libev-4.15/ev.c:3033-3056 | the root is due no earlier than the watchers dealt with before it, and was not dealt with before |
| Passes.FedArranged | libev-4.15/ev.c:1717-1723 | feeding in reverse puts those that were not pending in order, above all watchers that were |
| Passes.PlacedAreCalled | libev-4.15/ev.c:2980-2998 | which gives the order of their callbacks |
| Timers.AllLateDone | libev-4.15/ev.c:3027-3060 | if no timer is late after the pass, every timer that was late has been dealt with |
| Floor.EvFloor | libev-4.15/ev.c:1294-1325 | the replacement for `floor` is the floor, for every number and either width of long |
| Floor.Recalc | libev-4.15/ev.c:3065-3087 | ends with a time after now, at most one interval later, and on the documented grid if and only if the search started there |
| Floor.SearchUp | libev-4.15/ev.c:3071-3084 | the search loop ends at the first step after now |
| Floor.DueOnGrid | libev-4.15/ev.pod:2252-2274 | the time is the next `offset + N * interval` if and only if the search starts on that grid, as it does for every interval from `MIN_INTERVAL` on |
| Floor.NextOnGrid | libev-4.15/ev.pod:2266-2270 | a time on the grid within one interval after now is the next one on the grid |
| Floor.FineIntervalMissesGrid | libev-4.15/ev.c:3068-3069 | with an interval of 0.0001 the time can be off the grid |
| Periodics.PeriodicLoop.PeriodicStart | libev-4.15/ev.c:3667-3695 | exactly this periodic joins the heap, at the time that its callback, interval or offset gives |
| Periodics.PeriodicLoop.PeriodicStop | libev-4.15/ev.c:3697-3723 | exactly this periodic leaves, and is no longer pending |
| Periodics.PeriodicLoop.PeriodicAgain | libev-4.15/ev.c:3725-3731 | afterwards the periodic runs at a time computed anew |
| Periodics.PeriodicLoop.PeriodicsReify | libev-4.15/ev.c:3090-3129 | exactly the periodics due before now become pending with `EV_PERIODIC`, each gets its next time or is stopped, no watcher that is not a periodic is fed or cleared, none is due before now any more; those that became pending are above all other watchers of their priority, the earlier due above the later; it ends, given callbacks that do not answer with past times |
| Periodics.PeriodicLoop.PeriodicsReschedule | libev-4.15/ev.c:3133-3152 | after a time jump every time is recomputed, whatever callbacks answer, and the heap is restored with the same members |
| Periodics.PassNext | libev-4.15/ev.c:3097-3122 | one round renews one more late periodic and makes the set of late ones smaller |
| Periodics.PeriodicLoop.DueInOrder | libev-4.15/ev.c:1710-1723 | the queues call periodics of one priority that became pending in the order in which they were due |
| Iteration.Loop.Run | libev-4.15/ev.c:3376-3394 | timers, periodics, idle and check watchers are queued and everything pending is invoked: exactly the late timers and periodics are renewed or stopped and fed, besides the check watchers and the idle watchers of one priority with nothing else pending from there up; no other watcher is; each pending watcher is called with all its bits; and of those that became pending, in each queue, check watchers are called first, then periodics, then timers, then what was pending before, timers and periodics by their times; the array of check watchers holds exactly the started ones, and each idle array those of its priority |
| Iteration.Loop.QueuedIsOrdered | libev-4.15/ev.c:3376-3392 | the same about the queues before they are drained: relative timers are called last, absolute ones before them, check watchers first |
| Iteration.Loop.QueuedIdleLast | libev-4.15/ev.c:3002-3022 | idle watchers are queued only if nothing else of their priority or above is pending, but for the check watchers queued later |
| Iteration.TopIsFirst | libev-4.15/ev.c:2980-2998 | watchers that are above others in their queues are called before them, each with all its bits |
| Wait.Horizon | libev-4.15/ev.c:3315-3329 | the roots of both heaps give the least of `MAX_BLOCKTIME` and the times to all running timers and periodics |
| Wait.BlockingTime | libev-4.15/ev.c:3297-3360 | sleep and backend wait together are the least time that is not below that time, `timeout_blocktime` or `backend_mintime` (it is one of the three); the backend is given at least `backend_mintime`; nothing if the loop must not wait; it sleeps until `io_blocktime` has passed since the last iteration, or for all it may |
| Fds.FdTable.IoStart | libev-4.15/ev.c:3534-3558 | exactly this watcher joins the list of its descriptor, in front, and counts as active; the descriptor gets the reify flags, with `EV__IOFDSET` if the watcher has it, and is queued unless it was flagged; no other descriptor changes |
| Fds.FdTable.IoStop | libev-4.15/ev.c:3560-3577 | exactly this watcher leaves, its descriptor is flagged and queued unless it was flagged, no other descriptor changes, the watcher is no longer pending |
| Fds.FdTable.IoSet | libev-4.15/ev.h:685 | sets descriptor and mask of an inactive watcher, with `EV__IOFDSET`, and leaves the table consistent |
| Fds.FdTable.FdChange | libev-4.15/ev.c:1831-1843 | flags a descriptor and appends it to the list unless it was flagged |
| Fds.FdTable.FdKill | libev-4.15/ev.c:1846-1856 | all watchers of the descriptor are stopped and pending with just `EV_ERROR`, `EV_READ` and `EV_WRITE`, no other watcher is touched |
| Fds.FdTable.Settle | libev-4.15/ev.c:1801-1827 | the new events are the or of the watchers' masks; `backend_modify` is called if they changed or `EV__IOFDSET` was set, with what the backend was last told as old events |
| Fds.FdTable.FdReify | libev-4.15/ev.c:1771-1828 | ends although backends kill descriptors and append to the list meanwhile; then the list is empty, no descriptor is flagged, every descriptor's events are the or of its watchers' masks and the backend was last told just these; only watchers of killed descriptors were stopped, and are pending with just the error bits, and no other watcher was touched |
| Fds.FdTable.KillSome | libev-4.15/ev.c:1846-1856 | any sequence of kills stops exactly the watchers of these descriptors |
| Fds.FdTable.RearmAll | libev-4.15/ev.c:1896-1909 | every descriptor with events, and no other, is flagged with `EV__IOFDSET`, queued once and starts from no events; the table fits a backend that has been told nothing |
| Fds.FdTable.FdEventNocheck | libev-4.15/ev.c:1736-1748 | every watcher of the descriptor gets the events it wants, no other watcher any |
| Fds.FdTable.FdEvent | libev-4.15/ev.c:1753-1760 | the same, but nothing for a descriptor that changed since the poll |
| Fds.UnionMeans | libev-4.15/ev.c:1814-1815 | a bit is in the or of the masks if and only if some watcher has it |
| Fds.RelistedMarked | libev-4.15/ev.c:1831-1843 | flagged descriptors are exactly the unprocessed entries of the list, each once, also after a change |
| Fds.Resettled | libev-4.15/ev.c:1801-1827 | and after an entry was processed |
| Fds.HeadRemoved | libev-4.15/ev.c:3465-3478 | the lists hold exactly the started watchers, also after a removal |
| Fds.HeadAdded | libev-4.15/ev.c:3458-3463 | and after an addition |
| Poll.PollBackend.Modify | libev-4.15/ev_poll.c:51-83 | the array asks for the new events of the descriptor and for the same as before of all others; array and index stay inverse through allocation and removal by the last entry |
| Poll.PollBackend.Remove | libev-4.15/ev_poll.c:74-82 | the removal itself |
| Poll.PollRoundTrip | libev-4.15/ev_poll.c:69-72 | poll's mask carries the read and write bits |
| Select.SelectBackend.Modify | libev-4.15/ev_select.c:70-137 | the same promise for the bit vectors, through growth |
| Select.PutBit | libev-4.15/ev_select.c:128-134 | sets or clears the bit of one descriptor and no other |
| Select.Scan | libev-4.15/ev_select.c:244-269 | each descriptor with a bit set is reported once, in descending order, with exactly its bits |
| Select.ScannedDown | libev-4.15/ev_select.c:254-265 | one bit position further down |
| Backends.Replay | libev-4.15/ev_poll.c:51-83 | after any sequence of `backend_modify` calls that name what the backend was told before, poll and select ask the kernel for the same: what they were last told |
| Backends.ReifyWith | libev-4.15/ev.c:1771-1828 | after any history and an `fd_reify` without kills, as with these backends, both ask for exactly the or of the masks of each descriptor's watchers, and no watcher was stopped, fed or cleared |
| Epoll.ModifyIsExact | libev-4.15/ev_epoll.c:70-139 | while no file outlives its descriptor: all kernel entries stay in agreement with `emask` and `egen` whatever is closed meanwhile, and for a non-empty mask the kernel then holds exactly it under the current generation, or the descriptor is killed and the kernel has no entry |
| Epoll.ModifyIsExactUnlessStale | libev-4.15/ev_epoll.c:108-121 | in general the kernel holds exactly the new mask if and only if no stale entry for the file was taken for a current one |
| Epoll.ReturningFileIsNotWatched | libev-4.15/ev_epoll.c:116-118 | three changes after which the kernel lacks the interest in writing |
| Epoll.RepairIsExact | libev-4.15/ev_epoll.c:187-212 | the mask repair keeps entries in agreement, and after an unwanted event the kernel reports only what is wanted |
| Epoll.DeliveredIsCurrent | libev-4.15/ev_epoll.c:174-185 | unless an entry is 2^32 generations old, an event of an older generation is not delivered |
| Epoll.ModifyNotAhead | libev-4.15/ev_epoll.c:92-139 | whatever `epoll_ctl` answers, every entry afterwards is an old one or one of no later generation than the descriptor's |
| Epoll.CtlTidy | libev-4.15/ev_epoll.c:101-121 | what `epoll_ctl` may answer and change |
| Epoll.EpollBackend.Modify | libev-4.15/ev_epoll.c:70-139 | the function with its early exits does what `Modified` says |
| Epoll.EpollBackend.ModifyKept | libev-4.15/ev_epoll.c:70-139 | over any run, also with files that outlive their descriptors, no entry of the kernel is of a later generation than its descriptor; an accepted mask is registered anew as in `AcceptedIsAnew`; and the promise of `ModifyIsExact`, which the backend keeps up over any run in which none does |
| Epoll.AcceptedIsAnew | libev-4.15/ev_epoll.c:92-121 | whenever `epoll_modify` succeeds, also by its second call and also with files that outlive their descriptors, the kernel watches for exactly the new mask under a generation later than any that it had told before, and than that of every entry which another file left under the descriptor; but for the one case in which it leaves an entry of the same mask alone |
| Epoll.EarlierIsNotReported | libev-4.15/ev_epoll.c:174-185 | so no event of such an entry, and none that was on its way before the call, is reported for the new registration |
| Epoll.EpollBackend.Poll | libev-4.15/ev_epoll.c:164-213 | for any events of current or older generations: only current ones are reported, all of these if they tell of nothing unwanted, and `postfork` is raised if and only if some event is not reported, as a stale one never is; if no file outlives its descriptor, all entries agree afterwards, each current event was reported or its entry is gone, and no entry is left that reported something unwanted |
| Epoll.EpollBackend.Handle | libev-4.15/ev_epoll.c:164-213 | one round does what `Handled` says |
| Epoll.EpollBackend.Fork | libev-4.15/ev_epoll.c:267-279 | starting over leaves an empty epoll set and no descriptor with events |
| EpollLoop.FdReify | libev-4.15/ev.c:1771-1828 | `fd_reify` with epoll, which kills descriptors on its way: a watcher was stopped only if something happened to its descriptor (its file, its entry, the kernel's memory), and is then pending with just the error bits, and no other watcher was touched; the kernel watches every descriptor with started watchers for exactly the or of their masks, or has no entry for it, which is so only if something happened to it meanwhile, or before and no watcher was set and started for it since |
| EpollLoop.Fork | libev-4.15/ev_epoll.c:267-279 | after `loop_fork` table and backend agree again and every descriptor that had events is queued, so that `EpollLoop.FdReify` tells the new epoll set everything |
| EpollLoop.IoStart | libev-4.15/ev.c:3534-3558 | starting a watcher that was set anew makes `EpollLoop.FdReify` tell the kernel about its descriptor in any case |
| EpollLoop.SwitchFile | libev-4.15/ev.c:1801-1827 | a watcher is stopped, anything happens to files and entries, and it is set and started for any descriptor; if nothing more happens to that, the next `fd_reify` leaves it started and the kernel watching the file that is there now for exactly the or of the descriptor's masks, which contains the watcher's |
| EpollLoop.ForkAndReify | libev-4.15/ev.c:2742-2752 | after a fork and the next `fd_reify` the new epoll set watches every descriptor that nothing happens to, for exactly the or of its masks |
| EpollLoop.Dispatch | libev-4.15/ev_epoll.c:164-213 | from the kernel to the watchers: a watcher gets an event bit in a poll only if an event of its descriptor's current generation tells of it, the watcher is interested and the descriptor did not change; it does get it if that event tells of nothing unwanted; and who has got bits is pending |
| EpollLoop.InOrderNext | libev-4.15/ev_epoll.c:70-139 | one call of `epoll_modify` and the kill if it fails leave every descriptor that nothing happens to watched for exactly its events |
| EpollLoop.CalmNotKilled | libev-4.15/ev_epoll.c:70-139 | no descriptor that nothing happens to is killed |
| EpollLoop.ReifiedIsWatched | libev-4.15/ev_epoll.c:70-139 | once all is reified, an entry for a descriptor with events is for exactly these |
| Arrays.ArrayWatchers.IdleStart | libev-4.15/ev.c:4257-4279 | exactly this watcher joins; `active` is index plus one throughout, `idleall` and `activecnt` count right |
| Arrays.ArrayWatchers.IdleStop | libev-4.15/ev.c:4281-4302 | exactly this watcher leaves, the last one takes its place |
| Arrays.ArrayWatchers.ArrayStart | libev-4.15/ev.c:4306-4319 | the same for prepare, check, fork and async watchers |
| Arrays.ArrayWatchers.ArrayStop | libev-4.15/ev.c:4321-4340 | the same |
| Arrays.ArrayWatchers.CleanupStart | libev-4.15/ev.c:4529-4545 | the same for cleanup watchers, which do not count |
| Arrays.ArrayWatchers.CleanupStop | libev-4.15/ev.c:4547-4567 | the same |
| Arrays.ArrayWatchers.Ref | libev-4.15/ev.c:3418-3422 | a reference counts like an active watcher |
| Arrays.ArrayWatchers.Unref | libev-4.15/ev.c:3424-3428 | and is taken back |
| Arrays.ArrayWatchers.QueueEvents | libev-4.15/ev.c:1725-1732 | every watcher of an array gets the events, no other watcher any; those that became pending are above all other watchers of their priority |
| Arrays.ArrayWatchers.IdleReify | libev-4.15/ev.c:3002-3022 | the idle watchers of the highest priority that has any become pending if and only if no slot of that priority or above is in use; no other watcher does |
| Arrays.CountOne | libev-4.15/ev.c:3517-3530 | starting or stopping a watcher changes the count by one, a cleanup watcher by none |
| Arrays.ArrayWatchers.ListsAreSorted | libev-4.15/ev.c:3391-3392 | the check watchers' array holds exactly the started check watchers, and each idle array exactly the started idle watchers of its priority |
| Once.OnceLoop.Begin | libev-4.15/ev.c:4655-4682 | starts the io watcher and the timer that were asked for |
| Once.OnceLoop.OnceCb | libev-4.15/ev.c:4626-4653 | afterwards no descriptor list, heap or pending slot refers to either watcher; the callback gets the bits of both |
| Once.OnceLoop.Deliver | libev-4.15/ev.c:2988-2996 | the round of `ev_invoke_pending` that takes a slot runs the callback if and only if the slot belongs to one of the two watchers, then with all bits waiting for either |
| Once.OnceLoop.Run | libev-4.15/ev.c:4626-4653 | over any sequence of events, kills, passes of `fd_reify` and of the timers, deliveries, and what others do with their io watchers, timers and pending bits, the callback is run at most once and never after the structure was freed, to which nothing then refers; and once a watcher of it is pending, that lasts until the callback is run |
| Once.OnceLoop.DeliverAll | libev-4.15/ev.c:2980-2998 | when all that is pending has been delivered, the callback was run exactly once if a watcher of the structure was pending, with all bits waiting for either, and not otherwise |
| Once.OnceLoop.OnFdEvent | libev-4.15/ev.c:1753-1760 | a descriptor event that the io watcher wants makes it pending, and cannot revive a freed structure |
| Once.OnceLoop.OnFdKill | libev-4.15/ev.c:1846-1856 | a kill of the io watcher's descriptor makes it pending, and cannot revive a freed structure |
| Once.OnceLoop.OnTimers | libev-4.15/ev.c:3025-3061 | a timer pass makes the timer pending if it is due, and cannot revive a freed structure |
| Once.OnceLoop.OnFdReify | libev-4.15/ev.c:1771-1828 | `fd_reify`, with any kills, leaves a pending structure pending and a freed one unreferenced |

## Left out

- Floating-point rounding: times are exact, so `periodic_recalc`'s branch for a time that does not grow is never taken.
- Weak memory: the fences of the wakeup handshake are taken to give sequential consistency.
- Integer overflow of sizes and counters; the generation of `Epoll` is unbounded in the model and compared modulo 2^32 as in the code.
- Allocation failure, and the error path of `ev_once` without memory.
- Priorities outside the legal range: `pri_adjust` would clamp them when a watcher starts.
- The singly linked lists of io watchers are sequences, so that the links themselves are not modelled.
- Epoll.EpollBackend.Fork: models the effect of `fd_rearm_all` on the epoll fields and events only; its flags are in `Fds.FdTable.RearmAll`, and both together in `EpollLoop.Fork`.
- ThreadPool.ThreadPool.BeginDestroy: does not model the lock, which a refused second destroy leaves held.
- EPERM descriptors of epoll, and the growth of its event buffer.
- `poll_poll`'s and `select_poll`'s error handling, and the `fd_set` and Windows variants of the select backend.
- `timers_reschedule`, `time_update` and the detection of time jumps; `Periodics.PeriodicLoop.PeriodicsReschedule` models what follows.
- `ev_run` as a whole: its parts are modelled where they interact (waiting, reifying, the passes and invoking), not its flags and nesting.
- Signal, child, stat, embed and walk functions, kqueue, event ports, and the thin wrappers `event.c` and `ev++.h`.
- The thread pool with a negative thread count or queue size, failing pthread calls, and a second destroy beyond its being refused.
- The server's message queue, memory pool, parsers, socket and database code, which hold no protocol or data structure as involved as those above.
- Iteration.Loop.Run: is for callbacks that leave the queues alone, and does not repeat when idle watchers may run, which `Arrays.ArrayWatchers.IdleReify` states exactly.
- Timers.TimerLoop.TimersReify: requires that no repeat value is negative, as an assertion in its loop demands.
- Periodics.PeriodicLoop.PeriodicsReify: lets reschedule callbacks answer with any time that is not past, as an assertion in its loop demands.
