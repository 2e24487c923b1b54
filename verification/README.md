# A verified model of the `async` runtime

`async` is a header-only C++ library of cooperative tasks: an event loop with a task list, a
cursor and two deferred lists; futures, events and queues on which tasks block; a thread pool
for blocking work; a pool of task stacks; and a few string helpers. This project models those
parts in Dafny and proves what they guarantee together, over every run.

## How it is organised

| file | what is in it |
|---|---|
| LoopModel.dfy | the scheduler's state as a value, and each operation of `EventLoop` as a function on it |
| FutureModel.dfy | a future and an event's list as values, and each operation on them as a function |
| Runtime.dfy, Primitives.dfy, Async.dfy, MessageQueue.dfy | the classes `EventLoop`, `Task`, `FutureState`, `Future`, `Event`, `Queue` and the functions tasks call, each method proved against those functions |
| Machine.dfy | the runtime as a state machine built from the same functions: loop steps, task steps, and steps of foreign threads that notify events |
| Order.dfy, WakeTokens.dfy, Futures.dfy | the three invariants of the machine |
| Runs.dfy | the guarantees that follow for every run: wake-ups, start order, cursor, quiescent stop, awaiting |
| Fairness.dfy | the round-robin bound |
| Cycles.dfy | what one cycle does, when it throws, and how the other steps move the cursor |
| Notifications.dfy | whom a notification of an event wakes, and in which order tasks leave its list |
| Ownership.dfy | what becomes of a task's future when the task ends |
| Histories.dfy, Results.dfy | the history is what the steps did; each `await` is answered once; a task's function returns to whoever awaits the task |
| Families.dfy | the join discipline, over every run whose workers keep it |
| Programs.dfy, Answers.dfy, Termination.dfy, Joining.dfy, Completion.dfy | spawn-tree programs: what they compute, deadlock freedom, termination, and how the loop is left |
| Rules.dfy | the rules a run has to keep, and that wake tokens survive exactly if it keeps them |
| ForeignThreads.dfy | other threads that resolve futures and notify tasks, with `await` and `complete` in their separate steps |
| Rewake.dfy, ThreadFuture.dfy | two places where the runtime promises less than one would expect, with the exact condition |
| QueueModel.dfy, QueueRuns.dfy | `Queue` as a matching of puts and gets, and inside the runtime with tasks that await what `get` returns |
| Pool.dfy, Shutdown.dfy | `ThreadPool` under every interleaving of its threads, at work and shutting down |
| Locks.dfy | the order in which the mutexes are taken |
| Stacks.dfy | `StackPool` |
| Strings.dfy | `split`, `splitQuoted`, `escape` |

`setjmp`/`longjmp` are abstracted: a task's slice is any list of the machine's steps, ended by a
step that gives control back, and a suspended `await` is a saved position. A run is any list of
steps that `Machine.Allowed` admits; nothing is assumed about what tasks do or in which order,
except the rules a caller of the library has to keep:

* a future is resolved (completed or cancelled) at most once, because `FutureState::notifyAll`
  keeps its waiter list (include/async/internal/future_state.h:56-62);
* a future that is already cancelled is not awaited, because `await` tests only `is_completed`
  before it blocks (include/async/future.h:78-84);
* a raw `notify` names a task that is in a raw `wait()`, because `processSync` sets any named
  task to EXEC without a look at its state (include/async/loop.h:280-282).

One more rule is about the loop itself: `cleanUpTask` does not cancel a future that was cancelled
before (`Machine.CleansUpOnce`). The code does not ensure it.

Rules.dfy drops all four rules and lets through, of the machine's steps, whatever the code itself
lets through. Wake tokens are then conserved over a run if and only if no step resolves a future again that has waiters,
awaits a cancelled one, notifies an id that is in no raw wait, or cleans up by cancelling again
(`Rules.TokensConservedIffNoRuleBroken`).

In the machine other threads only notify events. In ForeignThreads.dfy they also complete and cancel
futures and notify tasks, in any interleaving with the steps of `await`; tokens are then conserved if
and only if no task registers with a future whose waiters have been notified already. `addTask` by
other threads is not modelled.

A run starts from a launched loop. The futures of earlier runs may be there, with what was done to
them and with waiters that are gone (`Machine.Initial`); a loop that stopped leaves just that to the
next `run` (`Rewake.StoppedRunCanBeRerun`).

## Where the code differs from its own comments

* The comments on `to_wake` and `to_start` are swapped (include/async/loop.h:60-66); the model
  follows the code.
* `escape` promises to escape single quotes (include/async/util.h:115-121); it does not
  (`Strings.SingleQuoteStays`), and single quotes are the only characters for which the promise
  fails (`Strings.PromiseKeptIff`).
* `Queue::clear` carries a note that waiters must get a `CancelledException`
  (include/async/queue.h:70); the code already cancels their futures.
* The question whether N + 1 elements can get stuck beside N waiters (include/async/queue.h:104-106)
  is answered by `QueueModel.QueueIsFifo`: elements and waiters never exist at the same time.
* `run<T>(task)` binds the child's future to the main task too. If the child exits and
  exceptions of tasks do not end the loop (`ASYNC_CONTINUE_ON_TASK_EXC`), that future is cancelled twice; the loop then
  stops with the id of a deleted task in `to_wake`, and the next `run` dereferences a null task
  (`Rewake.ExitingRunIsNotQuiescent`).
* `terminate` is said to wake all threads and join them (include/async/pool.h:109). A worker that found
  nothing to do before the flag was set and parks only after `notify_all` sleeps for ever, and the
  join with it (`Shutdown.StrandedWorker`, and exactly when: `Shutdown.StrandsIff`).

## Model

| member | source | states |
|---|---|---|
| `LoopModel.IndexOf` | include/async/loop.h:109-117 | the position found is the first task with the id, or the end when there is none |
| `LoopModel.WakeAllAt` | include/async/loop.h:280-282 | after the wake loop exactly the named tasks are EXEC and every other task is as it was, whatever the order of the list and however often an id occurs |
| `FutureModel.Notifying` | include/async/event.h:57-81 | what a notification takes out of an event's list and what it leaves are together the list, in order; it takes all of it, or the first if there is one |
| `Runtime.FutureState.SaveWaiter` | include/async/internal/future_state.h:49-53 | the id joins the end of the waiter list |
| `Runtime.FutureState.NotifyAll` | include/async/internal/future_state.h:56-62 | all waiters are appended to the wake list, in order; the waiter list is kept |
| `Runtime.FutureState.Complete` | include/async/internal/future_state.h:44 | the flag is set and all waiters are to be woken |
| `Runtime.FutureState.Cancel` | include/async/internal/future_state.h:45 | the flag is set and all waiters are to be woken |
| `Runtime.Task.constructor` | include/async/task.h:55-67 | a new task is INIT and bound to the future it was given |
| `Runtime.EventLoop.constructor` | include/async/loop.h:71-78 | an empty running loop whose main id is 0 |
| `Runtime.EventLoop.Clear` | include/async/loop.h:86-96 | refines `LoopModel.Clear`: tasks, cursor, running and main id are reset; the wake and start lists and the id counter are not |
| `Runtime.EventLoop.AddTask` | include/async/loop.h:99-106 | refines `LoopModel.AddTask`: a new task with the next id joins the pending list only |
| `Runtime.EventLoop.GetTask` | include/async/loop.h:109-117 | the first listed task with the id, null exactly when there is none |
| `Runtime.EventLoop.NotifyReady` | include/async/loop.h:236-239 | the id joins the end of the wake list and nothing else changes |
| `Runtime.EventLoop.SetMainTask` | include/async/loop.h:241-244 | the main id is set and nothing else changes |
| `Runtime.EventLoop.CheckOrphanedTasks` | include/async/loop.h:246-254 | it throws if and only if some listed or pending task is not DONE, whatever else its state is |
| `Runtime.EventLoop.WakeListed` | include/async/loop.h:280-282 | the wake loop sets the tasks as `LoopModel.WakeAll` says, given that every id names a listed task |
| `Runtime.EventLoop.ProcessSync` | include/async/loop.h:277-291 | refines `LoopModel.ProcessSync`: the list is the woken tasks followed by the pending ones, both deferred lists are empty |
| `Runtime.EventLoop.EraseCurrent` | include/async/loop.h:269-273 | the task at the cursor leaves the list, the cursor stays, an empty list stops the loop |
| `Runtime.EventLoop.CancelUnfinished` | include/async/loop.h:263-265 | a bound future that is not completed is cancelled, even if it was before, and its waiters are to be woken; otherwise nothing changes |
| `Runtime.EventLoop.CleanUpTask` | include/async/loop.h:256-274 | it throws, changing nothing, exactly when main is cleaned up while some listed or pending task is not DONE; otherwise an uncompleted bound future is cancelled, its waiters are to be woken, and the task at the cursor leaves the list |
| `Runtime.EventLoop.Pick` | include/async/loop.h:153-159 | the list and cursor from which a cycle picks its task: deferred lists drained first, wrap tested after |
| `Runtime.EventLoop.Dispatch` | include/async/loop.h:159-217 | by the state of the picked task: started, resumed, skipped with the cursor advanced, or cleaned up; only a clean-up touches its future |
| `Runtime.EventLoop.CycleEnter` | include/async/loop.h:150-218 | a whole cycle up to the point where a task gets control, in terms of the state before it; of all futures only the one bound to a deleted task can change |
| `Runtime.EventLoop.SwitchOut` | include/async/loop.h:162-167 | giving control back sets the state and moves the cursor by one |
| `Runtime.EventLoop.WorkerDone` | include/async/loop.h:180-195 | a worker that returns or throws is DONE and the cursor stays; an exception leaves the loop exactly if exceptions of tasks end it |
| `Primitives.Future.Get` | include/async/future.h:50-57 | `CancelledException` exactly when cancelled, completed or not; otherwise the result exactly when completed |
| `Primitives.Future.Complete` | include/async/future.h:61-64 | the value is stored, the future completed, all its waiters to be woken |
| `Primitives.Future.Cancel` | include/async/future.h:73-75 | the future is cancelled, all its waiters to be woken |
| `Primitives.Future.AwaitEnter` | include/async/future.h:78-84 | an immediate answer if and only if the future is completed; otherwise the task is registered, WAIT, and has given control back |
| `Primitives.Future.AwaitLeave` | include/async/future.h:86-91 | which of the three outcomes `await` has once it is resumed, as equivalences; a value is the result |
| `Primitives.Event.NotifyOne` | include/async/event.h:57-70 | exactly the task that has waited longest, if any, is to be woken and leaves the list |
| `Primitives.Event.NotifyAll` | include/async/event.h:73-81 | all waiting tasks are to be woken, in order, and the list is empty |
| `Primitives.Event.Wait` | include/async/event.h:84-87 | the task joins the end of the list, is WAIT, and has given control back |
| `Primitives.Event.EnsureNotifyOne` | include/async/event.h:91-95 | if any of the lists found is not empty, exactly one task is woken, the first of the first such list, after as many yields as the list was found empty; otherwise none is |
| `Async.Exit` | include/async/async.h:47-50 | the task is DONE and the cursor has moved on |
| `Async.Wait` | include/async/async.h:60-63 | the task is WAIT and the cursor has moved on |
| `Async.Notify` | include/async/async.h:71-75 | the id is to be woken; no state changes yet |
| `Async.Yield` | include/async/async.h:83-95 | the task keeps its state and the cursor has moved on |
| `Async.MakeTask` | include/async/async.h:134-149 | a pending task bound to a new unresolved future |
| `Async.ReturnFromTask` | include/async/async.h:139-146 | the worker `task()` makes completes the future with the function's value, its waiters are to be woken, and the task is DONE |
| `Async.Gather` | include/async/async.h:119-122 | from any future on, new or resumed in the middle of its `await`: it passes a future only if it is completed and not cancelled; it throws `CancelledException` exactly at a cancelled future that is completed or was waited for, the other exception exactly at one that was waited for in vain; otherwise it is through, or blocked and registered |
| `Async.BeginRun` | include/async/async.h:196-200 | `run` adds one task and makes it main; on a loop that is new or was cleared, with empty deferred lists, that is the state from which the runs of the machine start |
| `MessageQueue.Queue.PopFront` | include/async/queue.h:144-148 | the oldest element is taken |
| `MessageQueue.Queue.Empty` | include/async/queue.h:85-89 | true if and only if no element is queued |
| `MessageQueue.Queue.Put` | include/async/queue.h:99-113 | without waiters the element joins the end; otherwise the first waiter's future, with its flag `cancelled` and its own waiters kept, is completed with the oldest element and all its waiters are to be woken |
| `MessageQueue.Queue.Get` | include/async/queue.h:125-140 | a new, uncancelled future without waiters: completed at once with the oldest element exactly when there is one and nobody waits, otherwise last in the line |
| `MessageQueue.Queue.Clear` | include/async/queue.h:72-82 | queue and waiters are empty, every waiting future is cancelled, and all who await one are to be woken, in order |
| `QueueModel.PutMatches` | include/async/queue.h:99-113 | `put` keeps puts and gets matched first come, first served |
| `QueueModel.GetMatches` | include/async/queue.h:125-140 | `get` keeps puts and gets matched first come, first served |
| `QueueModel.QueueIsFifo` | include/async/queue.h:72-147 | in every run, since the last clear: get i holds put i, the queue is exactly the unmatched puts, the waiters exactly the unmatched gets, never both non-empty; a future cancelled by a clear was never served |
| `QueueRuns.JointStep` | include/async/queue.h:72-140 | `put`, `get` and `clear` by tasks, among any other steps, keep: the future of each get is unresolved, completed with its put, or cancelled, as the matching says |
| `QueueRuns.QueueKeepsTheRules` | include/async/queue.h:72-140 | a task can always put, get and clear without resolving a future twice |
| `QueueRuns.JointRunIsRun` | include/async/queue.h:99-140 | a run with a queue is a run of the machine, so all its guarantees hold there too |
| `QueueRuns.AwaitedGetReturnsItsPut` | include/async/queue.h:99-140 | in every run: since the last clear, an `await` on the future of get i returned put i or has not returned, and once both are there the future holds put i; an `await` on a future cancelled by a clear threw |
| `Order.OrderDrain` | include/async/loop.h:153-157 | draining lists every pending task behind the listed ones and turns exactly the named, waiting tasks to EXEC; the cursor is at a task |
| `Order.OrderStep` | include/async/loop.h:150-291 | every step keeps the list in spawn order, the unstarted tasks as its tail, the cursor in range, and each id in exactly one of listed or deleted |
| `WakeTokens.TokensNameWaiting` | include/async/loop.h:280-282 | the wake list names only listed tasks in WAIT, so no null task is met and only WAIT becomes EXEC |
| `WakeTokens.TokensStep` | include/async/loop.h:150-291 | every step keeps: a blocked task has exactly one wake token, any other task none |
| `Futures.WokenMeansResolved` | include/async/future.h:83-91 | a task suspended in `await` that can run again was woken by the resolution of its future |
| `Futures.StepKeepsResolved` | include/async/internal/future_state.h:44-45 | no step changes flags or value of a resolved future |
| `Futures.FuturesStep` | include/async/future.h:50-92 | every step keeps: flags agree with what was done to the future, suspended awaits cannot miss the resolution, recorded answers are true |
| `Runs.StepKeepsInv` | include/async/loop.h:150-291 | the three invariants together survive every step of the loop, of tasks and of foreign threads |
| `Runs.WakeTokensConserved` | include/async/loop.h:236-291 | in every run each blocked task has its id exactly once across unresolved futures, event lists, notifying threads, raw waits and the wake list, other tasks have none, and the loop never crashes on a missing id |
| `Runs.NotifyingPutsUnderWay` | include/async/event.h:57-81 | an id taken out of an event is on its way to the wake list, also when its task has saved itself but not blocked yet |
| `Runs.InFlightStays` | include/async/event.h:57-103 | such an id stays on its way through every step but the drain that wakes the task |
| `Runs.InFlightIsBlocked` | include/async/event.h:84-103 | a task whose wake-up is on its way is blocked or about to block |
| `Runs.DrainWakes` | include/async/loop.h:277-284 | a drain turns the listed tasks it names, and no others, from WAIT to EXEC |
| `Runs.OnlyTheDrainWakes` | include/async/loop.h:209-217 | no other step ends a wait, so a task is never woken in the middle of a slice |
| `Runs.NoWakeUpIsLost` | include/async/event.h:57-103 | over any run with any foreign threads: a wake-up on its way is delivered by some drain, or still on its way at the end with the task still blocked |
| `Runs.TasksStartInSpawnOrder` | include/async/loop.h:99-178 | ids along list and pending tasks strictly increase, unstarted tasks are a tail at or after the cursor, and the started ids are a gapless prefix of those spawned, no more than were spawned |
| `Runs.CursorInRange` | include/async/loop.h:153-159 | at each cycle of a running loop some task is listed or pending and the selected index exists |
| `Runs.CursorNamesTheExecutingTask` | include/async/loop.h:131-133 | throughout a slice `getCurrentTask()` exists, is executing and is the same task |
| `Runs.StopsQuiescent` | include/async/loop.h:256-274 | when the loop stops, task, start and wake lists, events, hands of notifiers and raw waits are all empty, no unresolved future has a waiter, and every spawned task was deleted exactly once |
| `Runs.AwaitIsSound` | include/async/future.h:78-92 | `await` returned v only if the future was completed, once, with v and never cancelled; it threw `CancelledException` only if it was cancelled and never completed; it never threw `FutureFailedToCompleteException` |
| `Runs.AwaitersAgree` | include/async/future.h:78-92 | all who await a future get the same answer |
| `Runs.GatherIsSound` | include/async/async.h:119-122 | corollary of what is known of each `await`: a task that got a value from each of a list of futures, whatever the order in which they finished, leaves all of them completed and none cancelled |
| `Runs.AwaitNeverMissesResolution` | include/async/future.h:78-84 | a task suspended on a resolved future is awake or in the wake list |
| `Fairness.OwedStep` | include/async/loop.h:150-218 | each cycle not spent on the task brings it nearer by one, up to two cycles for each task it lists, despite erases, finishes that keep the cursor, and appends before the wrap |
| `Fairness.SelectedIsResumed` | include/async/loop.h:209-213 | a selected EXEC task gets control in that very cycle |
| `Fairness.ServedInTime` | include/async/loop.h:150-218 | a listed task that is not waiting is picked within 2 * (n - 1 + m) + 1 cycles, n tasks being listed now and m meanwhile |
| `Fairness.ResumedInTime` | include/async/loop.h:150-218 | in every run a task that is EXEC between two cycles has control again within that many cycles, whatever other tasks and threads do |
| `Cycles.CycleAt` | include/async/loop.h:150-218 | which task a cycle picks and what becomes of it, in terms of what has happened so far: started if it never was, deleted or reported as main's early end if it has ended, passed over if it sleeps and nobody has asked to wake it, otherwise resumed; nobody else's place changes |
| `Cycles.OrphanedIff` | include/async/loop.h:246-261 | over every run: a cycle throws `MainTaskExitedException` if and only if it picks main after main's end while some spawned task has not ended |
| `Cycles.CursorMoves` | include/async/loop.h:162-195 | between two cycles the cursor moves past the current task exactly if that blocks, yields or exits, and stays if its worker returns or throws; no task changes place |
| `Cycles.SpawnedLast` | include/async/loop.h:99-106 | a new task is the last of all, with the next id, bound to its new future exactly if `task()` made it |
| `Cycles.EscapedIff` | include/async/loop.h:180-195 | over every run: the loop was left by a task's exception if and only if a task threw and exceptions end the loop |
| `Notifications.AllAreWoken` | include/async/event.h:73-81 | `notifyAll`, by a task or a thread, empties the list, and everybody who was there is about to be woken, in order; other lists are untouched |
| `Notifications.FirstIsWoken` | include/async/event.h:57-70 | `notifyOne` takes exactly the task that has waited longest, which is about to be woken; nothing happens if nobody waits |
| `Notifications.DeliversInOrder` | include/async/event.h:73-81 | a thread that notifies passes on what it took one by one, in order |
| `Notifications.FirstComeFirstWoken` | include/async/event.h:57-103 | over every run: the list of an event is what was there and whoever joined, in order, without as many from the front as the notifications took |
| `Notifications.LockedListStays` | include/async/event.h:57-103 | while a thread notifies an event nobody joins or leaves its list |
| `Ownership.EndStep` | include/async/loop.h:178-194 | a task is DONE exactly when it has ended, deleted tasks have ended, and nothing refers to a future that does not exist |
| `Ownership.OwnsStep` | include/async/async.h:135-149 | a step that does not touch it leaves a task's future unresolved until the task ends, completed if the worker returned, otherwise cancelled exactly once the task is deleted |
| `Ownership.TaskFutureResolves` | include/async/loop.h:256-267 | whatever else happens in any run, a task made by `task()`, to whose future main may be bound too, leaves that future completed if its worker returned and cancelled if it did not, by the time it is deleted, and nobody who awaits it stays asleep; with which value is `Results.AwaitersGetTheReturn` |
| `Results.AwaitersGetTheReturn` | include/async/async.h:134-149 | over every run: once the function of a task made by `task()` has returned, it did so once, and its value is what the task's future holds and what every `await` on it returned; otherwise no value was returned and an `await` on it can only have thrown |
| `Results.RunGivesTheResult` | include/async/async.h:228-245 | over every run that keeps the rules until the cycle that stops the loop, main being bound to the task's future or not: `run<T>(task)` returns the value that the task's function returned, if it did, and otherwise `get` throws `CancelledException` |
| `Histories.StepRecords` | include/async/future.h:50-92 | each step adds to the history, and to the suspended awaits, exactly what it did, told from the state before: completions with their values, cancellations also by `cleanUpTask`, answers of `await` by the flags of the future |
| `Histories.HistoryIsWhatWasDone` | include/async/internal/future_state.h:44-45 | over every run the history has grown by exactly that, in order |
| `Histories.AwaitIsAnsweredOnce` | include/async/future.h:78-92 | over every run: a task that blocks in `await` stays suspended and gets no answer until a cycle gives it control; that cycle answers it once, about that future, which is resolved by then |
| `Families.EndsBeforeMain` | include/async/loop.h:246-261 | while any task is unfinished, so is main, if each task ends after its children |
| `Families.CancelsNoTask` | include/async/loop.h:263-265 | under the discipline `cleanUpTask` never cancels the future of a task, even though `run<T>(task)` binds main to its child's |
| `Families.TreeStep` | include/async/async.h:120-149 | every step that keeps the discipline keeps: a child's future is completed exactly when the child has ended, and a child ends before its parent |
| `Families.JoinedRunsOrphanNobody` | include/async/loop.h:246-261 | in every run in which no worker exits or throws and each returns only after awaiting all tasks it spawned, whatever else tasks and threads do: `MainTaskExitedException` is never thrown, main ends last, and then every task has returned and its future is completed |
| `Programs.NeverStuck` | include/async/loop.h:150-218 | a spawn-tree program that has not halted can always take its next step without breaking a rule |
| `Programs.StructNext` | include/async/async.h:119-149 | each such step keeps the programs' invariants: futures are awaited only by tasks older than their owner, and completed exactly when it has returned |
| `Answers.AnswerNext` | include/async/async.h:119-149 | each such step keeps: a worker has spawned the first of the children its program names, each runs its own program, and a task that has ended has its program's value in its future |
| `Answers.StoppedHasComputed` | include/async/async.h:134-149 | when such a program's loop has stopped, every worker of the tree has spawned all its children, every future holds what the program of its task returns, and every `await` returned that |
| `Termination.BlockedWaitsForYounger` | include/async/future.h:78-84 | a blocked task waits for a task listed after it |
| `Termination.YoungestIsNotBlocked` | include/async/loop.h:150-218 | deadlock freedom: once the wake list is drained the youngest task is not in WAIT |
| `Termination.EveryStepDecreases` | include/async/loop.h:221-225 | every step lowers (operations left, distance of the cursor from the youngest task), or ends in the orphan exception |
| `Joining.JoinNext` | include/async/async.h:119-149 | each step of such a program keeps: a child has returned, or its parent has not and will still await it |
| `Joining.MainFinishesLast` | include/async/loop.h:246-261 | in spawn-tree programs whose workers join their children, while any task is unfinished, so is main |
| `Joining.NeverOrphaned` | include/async/loop.h:246-261 | in spawn-tree programs whose workers join their children, no cycle throws `MainTaskExitedException` |
| `Completion.RunUntilCompleted` | include/async/loop.h:221-225 | the loop ends for every spawn-tree program, by stopping or by the orphan exception; if it stops nothing is left, every task was deleted once, the tasks are those the program names, every future holds what its task's program returns and every `await` got that; if all workers join their children it stops |
| `Rules.MoveIsStep` | include/async/loop.h:150-291 | the steps let through include every step of the machine, with the same effect |
| `Rules.PermittedIff` | include/async/loop.h:150-291 | what the code lets through: nothing is ruled out but by the state of the loop, by the mutex of an event, and by what `await` tests |
| `Rules.CycleKeepsTokens` | include/async/loop.h:256-267 | a cycle conserves wake tokens if and only if it does not cancel again a future with registered waiters |
| `Rules.AwaitingCancelledBreaks` | include/async/future.h:78-84 | awaiting a future that is cancelled and not completed blocks the task with no wake-up to come |
| `Rules.MoveKeepsTokens` | include/async/internal/future_state.h:44-62 | any of the machine's steps that the code lets through conserves wake tokens if and only if it breaks none of the four rules |
| `Rules.TokensConservedIffNoRuleBroken` | include/async/loop.h:236-291 | over every run of the machine's steps that the code lets through, wake tokens are conserved throughout if and only if no step breaks a rule |
| `Rewake.StopsQuiescentUnlessCancelledAgain` | include/async/loop.h:263-273 | over every such run that broke no rule before: the cycle that stops the loop leaves an empty wake list if and only if it does not cancel again a future with registered waiters |
| `Rewake.StoppedRunCanBeRerun` | include/async/async.h:196-203 | after every run that kept the rules and stopped, the next `run` starts in a state from which all the guarantees hold again, with the futures of the earlier runs still there |
| `Rewake.RerunCrashesIffIdsAreLeft` | include/async/async.h:196-203 | the next `run` dereferences a null task in its first cycle if and only if the wake list was not empty |
| `Rewake.ExitingRunIsNotQuiescent` | include/async/async.h:228-245 | a concrete run of `run<T>(task)` whose task exits that ends with a stale id and breaks the next `run` |
| `ThreadFuture.CompletionMissesCheckedTask` | include/async/future.h:78-84 | with a completion from another thread, a task that blocks is left asleep if and only if it had tested but not registered when the waiters were notified |
| `ThreadFuture.MissedCompletion` | include/async/async.h:164-179 | a concrete interleaving in which that happens |
| `ForeignThreads.ThreadStep` | include/async/future.h:78-84 | any step, of the loop, of a task or of a thread that resolves a future or notifies a task, conserves wake tokens unless it registers a task with a future whose waiters have been notified |
| `ForeignThreads.TokensConservedIffNeverTooLate` | include/async/async.h:164-179 | over every such run, wake tokens are conserved throughout if and only if no task registers too late |
| `ForeignThreads.TooLateIffNotifiedBetween` | include/async/internal/future_state.h:44-62 | a task whose check came in time registers too late if and only if the waiters were notified between its check and its registration |
| `ForeignThreads.StoredStays` | include/async/internal/future_state.h:44-45 | over every such run: a value that a thread stored in a future is there at once and stays, and so does a cancellation |
| `Pool.FlagIsSet` | include/async/pool.h:122-136 | setting and clearing a mask is read back by `getFlag` |
| `Pool.OtherFlagsKept` | include/async/pool.h:122-136 | flags outside the mask keep their value when it is set |
| `Pool.OtherFlagsKeptClearing` | include/async/pool.h:122-136 | and when it is cleared |
| `Pool.FlagIsLost` | include/async/pool.h:128-136 | with a `setFlag` of another thread between its load and its store, the other's flag survives if and only if it was up before or is in the same mask |
| `Pool.DecideMeaning` | include/async/pool.h:95-103 | when a worker waits, leaves or takes a job, as equivalences over queue and flags; the job is the oldest, and it never pops an empty queue |
| `Pool.ThreadPool.SetFlag` | include/async/pool.h:128-136 | the mask is set or cleared as `WithFlag` says |
| `Pool.ThreadPool.PushTask` | include/async/pool.h:49-53 | the job joins the end of the queue |
| `Pool.ThreadPool.Take` | include/async/pool.h:92-104 | the critical section of a worker: its decision, and the queue without its head exactly when it takes a job |
| `Pool.ThreadPool.Clear` | include/async/pool.h:70-76 | the queue is empty |
| `Pool.BoundStep` | include/async/pool.h:49-107 | every step of every thread keeps the parked-worker bound, with spurious wake-ups and notifications outside the mutex |
| `Pool.NoSleepingPastWork` | include/async/pool.h:49-107 | in every interleaving, until TERMINATE is set: if a worker is parked, there are no more queued jobs than notifications to be issued and workers about to look again |
| `Pool.TakesInOrder` | include/async/pool.h:102-103 | without `clear`, the jobs taken followed by the queue are the jobs scheduled, in order |
| `Pool.AccountStep` | include/async/pool.h:102-105 | each time a job was taken it is being run or has been run |
| `Pool.JobsRunAtMostOnce` | include/async/pool.h:70-107 | in every interleaving, with `clear` and any shutdown: jobs are taken in the order in which they were scheduled, and each job taken is being run or has run, once |
| `Pool.ClearedNeverRuns` | include/async/pool.h:70-76 | in every interleaving: a job that `clear` finds in the queue is never taken and never run |
| `Shutdown.FlagsStay` | include/async/pool.h:58-67 | each of the three flags is up after a step if and only if it was before or the step set it |
| `Shutdown.TerminateTakesNothing` | include/async/pool.h:64-104 | in every interleaving: once TERMINATE is set no queued job is taken any more |
| `Shutdown.GracefulDrains` | include/async/pool.h:58-119 | without TERMINATE, `clear` or outside scheduling after FINISH: once all joins return the queue is empty and every job, also those scheduled during shutdown, ran exactly once |
| `Shutdown.MissesParkingWorker` | include/async/pool.h:58-115 | after `notify_all` of a shutdown some worker can still go to sleep if and only if one held the mutex then, having found the wait predicate false |
| `Shutdown.ReachesEverybody` | include/async/pool.h:89-119 | if none did, then in every run the workers' steps are bounded by the jobs there are and those still pushed, and until all have left one of them can take its next step: the joins return |
| `Shutdown.StrandedStays` | include/async/pool.h:95-115 | a worker asleep with all others gone and no notification to come stays so in every run without outside jobs, spurious wake-ups or another `notify_all` |
| `Shutdown.StrandsIff` | include/async/pool.h:58-115 | in every reachable state where a shutdown notifies all: some run leaves a worker like that if and only if a worker held the mutex then, having found the wait predicate false |
| `Shutdown.StrandedWorker` | include/async/pool.h:95-115 | a concrete run of one worker and `waitAll` that does |
| `Shutdown.StoppedMeansGone` | include/async/pool.h:42-46 | STOPPED is set only after the joins and workers never come back, so by construction whenever it is up all workers are gone, and the destructor may skip the wait |
| `Locks.OperationsAreDisciplined` | include/async/queue.h:72-140 | every operation takes its mutexes in rank order, releases them in reverse and keeps none, for any number of waiters |
| `Locks.TakesItsLocks` | include/async/queue.h:72-140 | every operation holds its own mutex from beginning to end and takes inside exactly the others it needs, each as often as it needs it |
| `Locks.SomebodyCanGoOn` | include/async/internal/future_state.h:49-62 | following the holder of the wanted mutex upwards ends at a thread that can go on |
| `Locks.ScheduleLength` | include/async/event.h:57-103 | each step of a schedule uses up one unit of the work there is |
| `Locks.NoCircularWait` | include/async/loop.h:236-291 | in every interleaving of any operations by any threads, while one is unfinished some thread can go on, and no schedule is longer than the work there is |
| `Stacks.StackPool.AllocStack` | include/async/internal/stack_pool.h:50-68 | a free stack of the size if there is one, otherwise one new to the pool; it moves to the used map |
| `Stacks.StackPool.FreeStack` | include/async/internal/stack_pool.h:74-78 | the stack moves to the free map with its size |
| `Stacks.StacksAreExclusive` | include/async/task.h:55-74 | over any creation and deletion of tasks no two live tasks share a stack, and no free stack is in use |
| `Stacks.ObtainedStep` | include/async/internal/stack_pool.h:53-63 | a new stack is obtained only when all stacks of its size are in use |
| `Stacks.StacksArePeakOptimal` | include/async/internal/stack_pool.h:50-78 | for each size the stacks ever obtained are exactly as many as were in use at the peak |
| `Strings.SplitQuoted` | include/async/util.h:77-113 | for every string: however it is read as words joined by the delimiter, each word a row of pieces that are bare or wrapped in a quote they lack, the last piece maybe in a quote never closed, the result is the words without quotes, in order, without the empty ones |
| `Strings.SplitQuotedRecovers` | include/async/util.h:77-113 | the same of the scanner, for every list of words and every delimiter: runs of delimiters count as one, quotes wrap anything, also only part of a word |
| `Strings.EveryStringIsALine` | include/async/util.h:77-113 | every string can be read like that, so the result is determined for every input |
| `Strings.Split` | include/async/util.h:56-67 | for every delimiter: `out_of_range` exactly if it is empty; no part contains it; joined with its first character the parts are the string, cut at every place where the delimiter occurs and nowhere else; joined with the delimiter they are the string exactly if it has one character or does not occur |
| `Strings.CutsDetermine` | include/async/util.h:56-67 | the cuts and the joined string determine the parts, so the result is determined for every delimiter |
| `Strings.SplitIsUnique` | include/async/util.h:56-67 | for a delimiter of one character already the joined string and the absence of the delimiter determine them |
| `Strings.EscapesExactly` | include/async/util.h:134-147 | a character is written as it is exactly if it is printable and neither backslash nor double quote; newline, carriage return, tab, backslash and double quote have a form of two characters, all others one of four |
| `Strings.EscapeConcat` | include/async/util.h:130-150 | what surrounds a character does not change how it is written |
| `Strings.PromiseKeptIff` | include/async/util.h:115-130 | every character of a string that the documentation lists is escaped if and only if the string has no single quote |
| `Strings.SingleQuoteStays` | include/async/util.h:115-130 | the input that shows it: a single quote comes out as it is |
| `Strings.EscapeString` | include/async/util.h:130-150 | the loop computes the character-wise escape |
| `Strings.EscapeRoundTrip` | include/async/util.h:130-150 | an independent decoder gives the string back |
| `Strings.EscapeIsInjective` | include/async/util.h:130-150 | different strings have different escapes |
| `Strings.EscapeIsPrintable` | include/async/util.h:130-150 | the escape is printable ASCII |

## Left out

- Runtime.EventLoop.CycleEnter: `cycle()` hands control to a task by `longjmp` and gets it back in the middle; the class has the two halves as methods, and what the task does between them is the machine's steps. It requires that some task is listed or pending and the cursor not beyond them, where the code would read outside the list; that this always holds is `Runs.CursorInRange`. Machine stacks and registers are not modelled.
- Runtime.EventLoop.ProcessSync: requires that every id in the wake list names a listed task, where the code would dereference null; that it always does is `Runs.WakeTokensConserved`, and when it does not is Rewake.dfy.
- Runtime.Task.constructor: the stack that the constructor takes and the destructor gives back is in Stacks.dfy, not in this class.
- Async.MakeTask: the worker is not a value of the model; what it does when its function returns is `Async.ReturnFromTask`, and in the machine the step `Return`.
- Runtime.EventLoop.AddTask: ids are unbounded integers; the code counts in a 64-bit integer. The task's name and closure are not kept.
- Primitives.Event.EnsureNotifyOne: what the list is when each `yield` returns is recorded from outside, so the loop ends with the record, and the cursor and the wake list between the yields are the machine's; that somebody arrives is not claimed, because the code does not ensure it.
- Primitives.Event.NotifyAll: on the loop thread it is one step of the machine, although a foreign thread may notify in between; that only permutes the wake list. For foreign threads each id is its own step.
- Async.Gather: all futures have one element type, and a call stops where it blocks; it is called again from that position with `resumed` set.
- MessageQueue.Queue.Get: the waiter keeps the id of the asking task, which no code reads.
- Pool.ThreadPool.SetFlag: the load and the store are one step; `Pool.FlagIsLost` says what a `setFlag` of another thread in between loses.
- Pool.ThreadPool.Take: the flags are read as one step, although other threads may set one between two reads; the later read decides.
- Shutdown.GracefulDrains: says what holds once the joins return; that they return is `Shutdown.ReachesEverybody`, and when they do not `Shutdown.StrandsIff`.
- Runs.WakeTokensConserved: holds for runs that keep the rules listed above; what happens to the rest is in Rules.dfy, ForeignThreads.dfy, Rewake.dfy and ThreadFuture.dfy. `addTask` from pool threads is no step of the machine: it breaks the start order.
- ForeignThreads.TokensConservedIffNeverTooLate: notifying all waiters of a future is one step, because the waiter list is locked meanwhile; a drain in between would only wake some of them a cycle earlier. What `await` reports is stated for the machine, not for these runs.
- Families.JoinedRunsOrphanNobody: a task is bound only to its own future, a child's or one that is no task's; main to any. Other bindings could make `cleanUpTask` cancel a running task's future.
- QueueRuns.AwaitedGetReturnsItsPut: one queue, whose futures only the queue resolves; other queues are among the other steps.
- Locks.NoCircularWait: the pool's mutex is modelled for `scheduleTask`; a worker's wait on the condition variable gives it back and is part of Pool.dfy instead. Nothing is said about destructors run while a mutex is held.
- `Task::State::NONE`, which no code sets.
- io/file.h, io/proc.h and sockets: wrappers of the operating system.
- The singletons and their `atexit` handling, task names and look-up by name, the macros, Valgrind hooks and test formatting: plumbing that would only add easy members.
