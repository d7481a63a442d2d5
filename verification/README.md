# chez-async, verified

A Dafny model of chez-async: Node-style asynchronous I/O for Chez Scheme. Scheme fibers run on a
cooperative scheduler, a native loop thread talks to libuv, and tasks travel between the two through
a submission queue and reference-counted completion queues.

| Part | Files | Models |
|---|---|---|
| Fiber scheduler | `Fibers`, `Families`, `DirectStyle`, `SchedulerSpec`, `SchedulerInvariant`, `SchedulerSteps`, `SchedulerTheorems`, `SchedulerFamilies`, `Scheduler` | `run-async` and everything under it: fibers, futures, awaits, the ready list, the two task tables |
| Handoff | `Handoff` | `Task::Complete` against pop, task free and queue release, lock section by lock section |
| Loop thread | `Ownership`, `LoopSpec`, `LoopInvariant`, `LoopOwnership`, `LoopFrames`, `LoopStreams`, `LoopListeners`, `LoopHandles`, `LoopSteps`, `LoopTheorems`, `LoopProcesses`, `LoopRendezvous`, `LoopGivers`, `LoopResults`, `LoopLifetimes`, `LoopSweeps`, `LoopThread` | `Dispatch`, the libuv callbacks and graceful shutdown |
| Submission queue | `Submission` | `Submit`, the coalescing wakeup and `Drain` |
| Data on the way | `BlockCopy`, `Arguments`, `Pump` | bytevectors to foreign memory, argv packing, the stream pump |

How the parts are built:

- The scheduler and the loop thread are each given twice: as a state machine whose environment chooses
  the events (which completion arrives next, which handle the allocator returns, which callback fires,
  which signal comes), and as a class whose methods update lists, tables and registries in place. The
  state machine carries the invariants and the theorems over all runs; every method of the class is
  proved to do what the state machine does, so the theorems hold of the class.
- Fibers are finite programs (return, raise, submit, await a task, spawn a group, await a future,
  branch). Their meaning is given separately, by an evaluator without scheduler, queue or handles that
  reads `async` as "make a closure" and `await` as "call it". An oracle fixes the result of each
  operation. The scheduler is proved to agree with this evaluator, deadlocks included. The evaluator in
  turn is proved to be a plain call on the programs where that makes sense: blocking mode without
  futures, and direct style, where every `async` runs its body on the spot, for structured programs.
- On the loop thread every deque, pointer slot and libuv request that can hold a `Task*` is a slot, and
  a task is owned by one slot, has completed, or was forgotten by the code. Handle objects carry
  histories (reads asked for, bytes received, connections accepted, events seen) that the theorems
  compare with the events of the run. `LoopResults.Cause` is a table of which event completes which task
  with which result; every result of a run is proved to have its cause in the run, and the other way
  round.

`dafny verify dfyconfig.toml` checks the project.

Where the code does not do what its comments or its callers may expect, the code is followed and the
exact condition is proved:

- The comment above `run-async` says that it returns after the root and all spawned fibers have settled.
  It does not wait for fibers that await each other in a cycle. `SchedulerTheorems.OrphanExample` is a
  program that returns with a spawned fiber pending; `SchedulerFamilies.AllSettleIff` says when all
  fibers settle, by a condition on the program that is the same for every run; and
  `SchedulerFamilies.StructuredSettles` gives a check of the program text that is enough: a fiber awaits
  only its children, its earlier siblings and what its parent may await, and hands out no futures.
- The results of the `uv_fs_*` calls are not looked at, so a file operation that libuv refuses at once
  never completes (`LoopTheorems.RefusedFileIsLost`); a second wait for a running process overwrites the
  first (`LoopProcesses.SecondWaitExample`); and the deletion of a process object destroys its pointer to
  a pending wait (`LoopProcesses.ForgottenWaitExample`). `LoopTheorems.KeptIff`: these three, and no other
  event, make the loop forget a task.
- Closing a process that is waited for leaves the wait unanswered for ever, from the beginning of the
  close on (`LoopProcesses.StrandedExample`, `LoopProcesses.CloseStrandsIff`).
- A second await of one task handle drops the first fiber (`SchedulerTheorems.OneAwaitExact`).

## Model

| member | source | states |
|---|---|---|
| `Fibers.MeansUnique` | chez-async/high-level/io-async.ss:140-165 | the reference meaning of a future is unique: more fuel never changes an answer |
| `Fibers.AnswerLeads` | chez-async/high-level/io-async.ss:147-155 | going on from an await with the meaning of the awaited future, value or error, preserves the meaning of the awaiter |
| `Fibers.BlockingIsRun` | chez-async/internal/io-runtime.ss:199-217 | for programs that only do I/O the evaluator is blocking mode: each await answered on the spot |
| `DirectStyle.DirectMeans` | chez-async/high-level/io-async.ss:140-165 | a structured program means what it means when every `async` is a call made on the spot and every `await` looks its answer up: a value goes on, a condition is raised in the awaiter |
| `DirectStyle.AsyncAwaitIsCall` | chez-async/high-level/io-async.ss:147-155 | `async` then `await` of a body without futures is a call of it: what follows gets its value, the handler gets its condition, both as in blocking mode |
| `DirectStyle.HandOverIsCall` | chez-async/high-level/io-async.ss:147-155 | a future that a fiber makes and returns unawaited is, for whoever awaits the fiber, the future that was made |
| `Fibers.PickInRange` | chez-async/high-level/io-async.ss:147-155 | a fiber hands out exactly the futures it names, in order |
| `DirectStyle.CallStructured` | chez-async/high-level/io-async.ss:140-155 | every such call that hands out no futures is structured, so direct style speaks about it |
| `SchedulerSteps.NextKeeps` | chez-async/high-level/io-async.ss:70-155 | every event of the scheduler keeps the global invariant (every fiber in one place, tables naming live tasks, every frame a later point of its fiber's computation) and lowers an explicit measure |
| `SchedulerTheorems.NoFiberLost` | chez-async/high-level/io-async.ss:70-118 | in every reachable state an unsettled fiber has its continuation in exactly one position of ready queue, waiters table, waiter lists or running slot; a settled one in none |
| `SchedulerTheorems.SecondAwaitExample` | chez-async/high-level/io-async.ss:86-93 | a state in order, with two fibers sharing a handle, in which the second await drops the first fiber |
| `SchedulerTheorems.OneAwaitExact` | chez-async/high-level/io-async.ss:86-93 | parking under a task handle keeps every fiber if and only if nobody is parked under it: a second await of one handle drops the first fiber |
| `SchedulerTheorems.HandleReuse` | chez-async/high-level/io-async.ss:86-118 | with an allocator free to reuse any dead handle, the tables name only live tasks and are disjoint, and every resumption and every stashed result is that of its own submission |
| `SchedulerTheorems.SettledMeans` | chez-async/high-level/io-async.ss:97-109 | a settled fiber, root or not, has the outcome its program means |
| `SchedulerTheorems.Determinacy` | chez-async/high-level/io-async.ss:86-186 | any two runs that settle the root agree on its value or error, whatever the arrival order and the handles |
| `SchedulerTheorems.BlockingMode` | chez-async/high-level/io-async.ss:169-187 | a program that only does I/O settles with exactly what blocking mode returns |
| `SchedulerTheorems.RunBound` | chez-async/high-level/io-async.ss:120-135 | every run is finite, at most five times the size of the program plus five events |
| `SchedulerTheorems.Progress` | chez-async/high-level/io-async.ss:126-135 | until nothing is ready and nothing is awaited some event is possible; when the loop is about to block, some task is awaited and every awaited task is in flight |
| `SchedulerTheorems.DeadlockExact` | chez-async/high-level/io-async.ss:181-186 | when the loop returns, a fiber is pending if and only if following its awaits runs into a cycle of pending futures, if and only if the reference evaluator has no answer for it |
| `SchedulerTheorems.CycleIsForever` | chez-async/high-level/io-async.ss:147-155 | once each fiber of a set awaits a member of the set, no continuation of the run wakes or settles any of them |
| `SchedulerTheorems.LassoIsKnot` | chez-async/high-level/io-async.ss:147-155 | the walk found by the deadlock theorem is such a set |
| `SchedulerTheorems.ReadyIsFifo` | chez-async/high-level/io-async.ss:120-127 | ready fibers run in enqueue order across batches: after k resumptions what was queued behind them still stands in front, in order |
| `SchedulerTheorems.SettledForever` | chez-async/high-level/io-async.ss:97-101 | a future settles at most once |
| `SchedulerTheorems.WokenGoesOn` | chez-async/high-level/io-async.ss:147-155 | a fiber woken by a settled future never parks on it again |
| `Families.StructuredMeans` | chez-async/high-level/io-async.ss:140-165 | every fiber of a structured program has a meaning, whatever its I/O returns |
| `Families.FiberUnique` | chez-async/high-level/io-async.ss:140-145 | a path, child by child from the root on, names at most one fiber of the reference evaluation |
| `SchedulerFamilies.FibersAreKin` | chez-async/high-level/io-async.ss:140-145 | the futures of a run that has gone quiet are the fibers of the reference evaluation of the program, one future for each path, with the closure of that path, and no other |
| `SchedulerFamilies.QuietRunsAgree` | chez-async/high-level/io-async.ss:120-155 | the fibers of two quiet runs correspond one to one: as many in each, with the same closure, pending in both or settled with the same outcome |
| `SchedulerFamilies.AllSettleIff` | chez-async/high-level/io-async.ss:167-187 | when the loop returns, all fibers have settled if and only if every fiber of the program has a meaning, a condition without runs |
| `SchedulerFamilies.StructuredSettles` | chez-async/high-level/io-async.ss:167-187 | if the program text is structured, all fibers settle in every run |
| `SchedulerTheorems.OrphanExample` | chez-async/high-level/io-async.ss:167-187 | a run in which the root returns 7 and a spawned fiber that awaits itself stays pending |
| `Scheduler.Scheduler.SettleFuture` | chez-async/high-level/io-async.ss:97-101 | the loop over the waiters re-queues every one of them in list order, as the state machine's settle |
| `Scheduler.Scheduler.Spawn` | chez-async/high-level/io-async.ss:140-145 | a group of `async` calls makes pending futures and enqueues their fibers in order |
| `Scheduler.Scheduler.JoinTask` | chez-async/high-level/io-async.ss:86-93 | an early completion is consumed, otherwise the fiber parks under the handle |
| `Scheduler.Scheduler.JoinFuture` | chez-async/high-level/io-async.ss:147-155 | a settled future goes on with its value, or in the handler with its condition; otherwise the fiber joins its waiters |
| `Scheduler.Scheduler.SubmitTask` | chez-async/internal/io-runtime.ss:214-217 | a submission gets any handle that is not live and is in flight under it |
| `Scheduler.Scheduler.RunFiber` | chez-async/high-level/io-async.ss:103-109 | a resumed fiber runs until it suspends or settles, every instruction an event of the run |
| `Scheduler.Scheduler.DeliverOne` | chez-async/high-level/io-async.ss:111-118 | a completion wakes its waiter or is stashed, never lost |
| `Scheduler.Scheduler.RunBatch` | chez-async/high-level/io-async.ss:123-125 | the reversed ready list is run oldest first while new work collects for the next batch |
| `Scheduler.Scheduler.Loop` | chez-async/high-level/io-async.ss:120-135 | the loop terminates, for every arrival order, in a state that a run of the machine reaches and where nothing is ready and no task is awaited |
| `Scheduler.RunAsync` | chez-async/high-level/io-async.ss:169-187 | for every arrival order the call ends, with the value or the error of the reference evaluator, or with a deadlock if that has none; without futures it ends as blocking mode does, a structured program as in direct style, and `async` then `await`, or a handed-over future, as the call it stands for |
| `Handoff.NoUseAfterFree` | native/runtime/task.hpp:101-131 | under every interleaving no step touches a freed task or a deleted queue |
| `Handoff.DeletedExactlyOnce` | native/runtime/task.hpp:199-213 | the count is the creator's hold plus the tasks not yet released; the queue is deleted at most once, only at zero, and has been once everyone is finished |
| `Handoff.NothingLost` | native/runtime/rt_ffi.cpp:388-399 | tasks are popped in the order they were posted; a popped task has a result, and a posted task is in the queue exactly until it is popped |
| `Handoff.OwnResult` | native/runtime/task.hpp:199-213 | under every interleaving the result of a popped task is the argument of the one call of `Complete` on it |
| `Handoff.ReadsOwnResult` | native/runtime/task.hpp:199-213 | every value the consumer reads is what that very task was completed with |
| `Handoff.CalledOnce` | native/runtime/task.hpp:199-200 | a task is completed with one result only |
| `Handoff.EveryReadReturns` | native/runtime/rt_ffi.cpp:388-399 | each read of a popped task returns a value, in the order of the reads |
| `Handoff.NextKeeps` | native/runtime/rt_ffi.cpp:41-46 | every single step of submit, complete, pop, read, free and release keeps the counting invariant |
| `LoopOwnership.NextLinear` | native/runtime/runtime.cpp:367-678 | every dispatch and callback keeps held, completed and forgotten tasks apart, each held task in one slot, and leaves completed tasks as they are |
| `LoopSteps.NextKeeps` | native/runtime/runtime.cpp:101-329 | every dispatch, callback and signal keeps the invariant of all streams, listeners, processes and watchers |
| `LoopTheorems.TaskLinearity` | native/runtime/runtime.cpp:367-678 | in every reachable state each dispatched task sits in exactly one position of one slot, or has completed, or was forgotten by a refused file operation, an overwritten wait or the deletion of a waited-for process; never two of these; nothing else is held, and no slot of a deleted object holds a task |
| `LoopTheorems.KeptIff` | native/runtime/runtime.cpp:375-413 | an event keeps every task if and only if it is not a file operation that libuv refuses, a wait for a running process that is waited for, or the end of the close of a process that is waited for |
| `LoopTheorems.LostForGood` | native/runtime/runtime.cpp:375-413 | a forgotten task is never completed or held again, however the run goes on |
| `LoopTheorems.RefusedFileIsLost` | native/runtime/runtime.cpp:375-378 | a run of one refused file operation that loses its task |
| `LoopTheorems.CompletedForGood` | native/runtime/runtime.cpp:30-63 | a completed task keeps its result whatever happens later |
| `LoopResults.ResultHistory` | native/runtime/runtime.cpp:30-329 | a task has completed with `r` if and only if some event of the run causes that: the callback of its own request, connect, read, wait, watch or close with what it brings, its own dispatch with the code libuv gave or the handle made, or a close or signal with ECANCELED |
| `LoopResults.RequestAnswered` | native/runtime/runtime.cpp:30-51 | a file operation, DNS lookup or write that libuv accepted is in flight, or the callback of its own request came in the run and it completed with what that brought |
| `LoopResults.RefusedIsTold` | native/runtime/runtime.cpp:523-535 | a DNS lookup, write, connect, listen, spawn, watch or stdio open that libuv refuses completes with the code of that refusal, a kill with its own, and a stdio open of something that is no stream with 0 |
| `LoopResults.TimerAnswered` | native/runtime/runtime.cpp:53-63 | a timer task waits in its timer, or its timer fired and its handle is closing, or that close ended too; only the end of the close completes it, with 0, so it never completes while libuv holds the handle inside it |
| `LoopResults.ReadFits` | native/runtime/runtime.cpp:133-177 | a read is queued with the buffer size it was asked for, or has completed with no more than that |
| `LoopProcesses.WaitAnswered` | native/runtime/runtime.cpp:270-280 | every wait has been forgotten, or has completed with the status that the exit callback of its process brought, or is alone in the wait slot of a process that has not exited and has not been deleted |
| `LoopProcesses.AnswerableIff` | native/runtime/runtime.cpp:594-611 | some continuation of the run completes a pending wait if and only if the close of its process has not begun |
| `LoopProcesses.CloseStrandsIff` | native/runtime/runtime.cpp:608-611 | closing a process leaves every wait for it answerable if and only if there is none |
| `LoopProcesses.StrandedExample` | native/runtime/runtime.cpp:608-611 | spawn, wait, close: a run after which no continuation completes the wait |
| `LoopProcesses.ForgottenWaitExample` | native/runtime/net.hpp:42-48 | spawn, wait, close, end of the close: a run that loses the wait with the process object |
| `LoopProcesses.SecondWaitExample` | native/runtime/runtime.cpp:594-602 | spawn, wait, wait: a run that loses the first wait |
| `LoopTheorems.ReadsShareBytes` | native/runtime/runtime.cpp:133-177 | reads are served in dispatch order; the buffers of the served ones concatenate to exactly the bytes that arrived, each completed with the number of bytes in its own buffer; the rest are pending with nothing in theirs |
| `LoopTheorems.EndReachesAll` | native/runtime/runtime.cpp:165-176 | EOF or an error completes every queued reader with it and stops the reading |
| `LoopTheorems.ReadingExact` | native/runtime/runtime.cpp:465-486 | a stream is being read iff it has queued reads iff it is registered as reading |
| `LoopTheorems.NoReadsAfterSignal` | native/runtime/runtime.cpp:465-472 | once a run contains a signal, and until the process exits, no read is queued on any stream |
| `LoopTheorems.SweepIsExact` | native/runtime/runtime.cpp:310-329 | the first graceful signal completes every queued read and parked accept with ECANCELED and moves no other task: writes, timers, connects, waits and closes go on |
| `LoopTheorems.SweepCloses` | native/runtime/runtime.cpp:310-323 | the sweep closes every open listener and every backlog stream, and no other handle |
| `LoopTheorems.ExitIff` | native/runtime/runtime.cpp:310-316 | the process exits exactly at a signal that is not the first or that finds no listener open |
| `LoopRendezvous.AcceptRendezvous` | native/runtime/runtime.cpp:113-131 | while a listener is open its k-th accept task completes with its k-th connection, no connection is paired twice, and acceptors and backlog are never both non-empty |
| `LoopRendezvous.AbortCancels` | native/runtime/runtime.cpp:255-268 | closing a listener completes every parked acceptor with ECANCELED and moves no other task |
| `LoopRendezvous.AbortCloses` | native/runtime/runtime.cpp:259-268 | closing a listener closes exactly the streams marked as its backlog |
| `LoopRendezvous.RegistryExact` | native/runtime/runtime.cpp:433-453 | the registry is the set of open listeners, and uv_close has been called exactly once on every other |
| `LoopRendezvous.CloseAnswered` | native/runtime/runtime.cpp:496-522 | every close request of a stream, listener, process or watcher, over any mix of requests and signals, has completed with 0 or completes with 0 when the close that is under way ends |
| `LoopGivers.ConnectAnswered` | native/runtime/runtime.cpp:414-432 | for a connect task and the stream made at its dispatch: in flight, failed with that stream closed, or completed with its handle |
| `LoopGivers.AcceptAnswered` | native/runtime/runtime.cpp:454-464 | an accept task is parked with its listener, or has completed without a stream, or with a stream that was handed to it |
| `LoopGivers.OneTaskPerStream` | native/runtime/runtime.cpp:101-131 | no two tasks are given the same stream, whether they connected, accepted or opened stdio |
| `LoopGivers.StreamGiven` | native/runtime/runtime.cpp:547-592 | every stream ever handed over was asked for in the run by a connect, accept or accepted stdio open that completed with it, or is a pipe of a capturing spawn that completed with the process |
| `LoopRendezvous.OpenIsKnown` | native/runtime/runtime.cpp:612-625 | every open listener, process and watcher was opened by a task of the run that libuv did not refuse, and that task completed with its handle: a failed open leaves none behind |
| `LoopRendezvous.WatchRendezvous` | native/runtime/runtime.cpp:236-253 | while a watcher is open the k-th accepted next-task gets the k-th event, name and flags together; a parked task means an empty event queue; every other next-task was told EBUSY |
| `LoopGivers.StreamLedger` | native/runtime/net.hpp:33-50 | every stream ever created is connecting with its request in flight, in the backlog of an open listener, open and handed over by a task of the run that asked for it, or closed exactly once |
| `LoopRendezvous.StreamsGoForward` | native/runtime/net.hpp:42-50 | no event touches a deleted stream, takes a stream back to an earlier phase or hands it over again |
| `LoopLifetimes.StaysOpen` | native/runtime/net.hpp:29-37 | an open handle stays open, however the run goes on, until its own close is dispatched or, for a listener, a signal comes |
| `LoopLifetimes.OpenedStays` | native/runtime/runtime.cpp:433-453 | a listen, spawn or watch that libuv accepts completes with the next handle of its kind, which is open until its close is asked for |
| `LoopLifetimes.GivenStays` | native/runtime/runtime.cpp:101-131 | a stream that was handed over is open until its close is asked for |
| `LoopLifetimes.SpawnGivesPipes` | native/runtime/runtime.cpp:547-592 | the streams handed over as pipes of a spawn are its three new ones if it captures and succeeds, and none otherwise |
| `LoopLifetimes.DeletedIff` | native/runtime/net.hpp:42-50 | a handle is deleted exactly when its close callback has come, and that comes at most once |
| `LoopThread.Runtime.CompleteAll` | native/runtime/runtime.cpp:171-175 | popping until the queue is empty completes each of its tasks once |
| `LoopThread.Runtime.CancelPendingReads` | native/runtime/runtime.cpp:79-93 | walking the reading streams one by one cancels exactly their reads |
| `LoopThread.Runtime.AbortListener` | native/runtime/runtime.cpp:259-268 | closing a backlog stream by stream and its acceptors one by one is the state machine's abort |
| `LoopThread.Runtime.AbortAll` | native/runtime/runtime.cpp:318 | aborting the registered listeners one after the other aborts them all |
| `LoopThread.Runtime.OnSignal` | native/runtime/runtime.cpp:310-329 | graceful once with open listeners, exit otherwise |
| `LoopThread.Runtime.Callback` | native/runtime/runtime.cpp:30-329 | any callback takes the object from a reachable state to the state the machine reaches by that event |
| `LoopThread.Runtime.DispatchTask` | native/runtime/runtime.cpp:367-678 | so does dispatching any task |
| `Submission.InOrder` | native/runtime/runtime.cpp:340-346 | dispatched tasks, rest of the batch and shared queue are the submitted tasks in order, and a non-empty queue has a wakeup pending, a producer about to send, or the loop about to swap |
| `Submission.IdleIsDrained` | native/runtime/runtime.cpp:717-725 | when nothing more can happen every submitted task has been dispatched: coalescing loses no wakeup |
| `Submission.QuietRunsEnd` | native/runtime/runtime.cpp:288-290 | without new submissions every run is finite, within the work left |
| `Submission.Drains` | native/runtime/runtime.cpp:340-346 | from every state the steps already due lead to a state where all submitted tasks have been dispatched in order |
| `BlockCopy.WordRoundTrip` | chez-async/internal/buffer.ss:17-27 | loading eight bytes as a native word and storing it gives the same bytes, in either byte order |
| `BlockCopy.CopyBlocks` | chez-async/internal/buffer.ss:17-38 | the word loop and the tail loop write exactly the first `len` bytes, equal to the source; every word access is aligned and in range |
| `BlockCopy.CopyToForeign` | chez-async/internal/buffer.ss:17-27 | the bytes of the bytevector are written and nothing beyond |
| `BlockCopy.CopyFromForeign` | chez-async/internal/buffer.ss:29-38 | the first `len` bytes of the memory are written and nothing beyond |
| `BlockCopy.ThereAndBack` | chez-async/internal/buffer.ss:40-53 | out to foreign memory and back gives the same bytevector, empty ones included |
| `Arguments.PackStrings` | chez-async/high-level/io-proc.ss:17-27 | the buffer is the strings in order, each with its NUL, and one NUL for no strings |
| `Arguments.UnpackStrings` | native/runtime/runtime.cpp:220-230 | the offsets found are those of the C strings in the buffer |
| `Arguments.ScannableIffNuls` | native/runtime/runtime.cpp:225-228 | the scans stay inside the buffer if and only if it holds at least `count` NULs |
| `Arguments.BufferScannable` | chez-async/high-level/io-proc.ss:17-27 | a packed buffer always does, whatever the strings contain |
| `Arguments.RoundTripIff` | chez-async/high-level/io-proc.ss:17-27 | unpacking gives the packed list back if and only if no string contains a NUL |
| `Arguments.PassArguments` | chez-async/high-level/io-proc.ss:33-48 | packed, copied in blocks and unpacked, the arguments arrive unchanged if and only if they are NUL-free |
| `Pump.Endpoint.ReadInto` | chez-async/high-level/io-net.ss:117-124 | a byte count with the bytes in the buffer, EOF, or raised; raised with exactly the code its read task failed with, and only then |
| `Pump.Endpoint.Write` | chez-async/high-level/io-net.ss:127-131 | all bytes of the range, or, exactly if its write task failed, that error raised after some prefix of the range has gone out |
| `Pump.Pipe` | chez-async/high-level/io-net.ss:133-146 | the pump returns at EOF with every byte written in order and counted, and raises exactly what one read or write of this call failed with; after a failure what was written is a prefix of what came, short of it by at most one chunk |
| `Pump.ReadToEof` | chez-async/high-level/io-proc.ss:81-92 | the result is every byte up to EOF, in order, however it was cut into chunks; it raises exactly what a read of this call failed with |

## Left out

- The encoding of suspension by shift/reset and Chez dynamic winds: a suspended fiber is a frame that is resumed at most once.
- Unbounded loops inside fibers: programs are finite trees, so termination of the scheduler is a theorem for finite fibers only.
- Task handles do not pass between fibers, and each is awaited at most once, as `task-run` does; `SchedulerTheorems.OneAwaitExact` says what a second await would do.
- `await-all` is a sequence of awaits in list order; Chez leaves the order of `map` open, which decides only which of several errors is raised.
- Futures are indices into a store that only grows; collection of futures by Chez is not modelled.
- The interleaving of `Task::Wait` (blocking mode) with `Task::Complete` on the per-task condition variable.
- What libuv, the kernel, DNS and the file system do: callbacks arrive as the environment chooses, on one thread, alloc directly before its read, at most one per request, none after a close has ended.
- Operations on a handle after its close began (closing a listener again excepted) are excluded by `LoopSpec.Enabled`: the object may be gone.
- Process exit after a second signal or at the shutdown deadline is a final state; the deadline timer, stopping and restarting the runtime, and a task pushed between the swap and the `stopping_` test of `Drain` are not modelled.
- LoopThread.Runtime.Read: a read refused by uv_read_start is answered without being pushed and popped again first; the queue before and after is the same.
- LoopThread.Runtime: handle objects are values in a sequence that the methods reassign, named by creation order; reuse of the addresses of deleted objects is not modelled.
- Result payloads other than read bytes and watch events (stat buffers, directory listings, address lists), pinning of bytevectors against the collector, connect fallback and error names: plumbing without state.
- Rounding a length down to a multiple of eight by `fxand` with the complement of 7 is written as subtraction of the remainder.
