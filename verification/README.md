# Verified model of marl

marl is a hybrid thread/fiber scheduler: each worker runs tasks on fibers, a fiber that blocks is
suspended, and another fiber takes over its thread. On top of the scheduler sit synchronisation
primitives, a graph executor and intrusive containers. This project models the parts in which
correctness rests on an argument over many steps, and proves that argument.

| files | component | form |
|---|---|---|
| `WorkerModel`, `WorkerSafety`, `WorkerTheorems`, `WorkerProgress`, `IdleNotification` | one worker and its fibers | transition system: every atomic step is one critical section on `work.mutex`, and each fiber has a program counter for its saved continuation |
| `WorkerObject`, `WaitingFibers` | the fields of `Worker` and `WaitingFibers` | classes whose methods refine the events of the transition system |
| `Stealing` | all workers of a scheduler | transition system over any number of workers |
| `Handshake`, `HandshakeSafety`, `HandshakeTheorems`, `HandshakeProgress` | condition variable, suspension, notification | transition system over any number of fibers, notifiers, workers and other threads |
| `Dag`, `DagRun`, `DagTheorems`, `DagReturn`, `DagRepeat`, `DagOutcome`, `DagWitness`, `Sums` | `DAGBuilder` and `DAG::run()` | class for the builder and the counters, transition system for the executor |
| `TicketOrder`, `Ticket`, `Chains` | `Ticket` and `Ticket::Queue` | value specification, and records linked on the heap |
| `List`, `Vector` | `containers::list` and `containers::vector` | classes over linked entries and arrays |
| `Pool` | loans, `BoundedPool`, `UnboundedPool` | classes over items and loans on the heap |
| `EventModel`, `EventHistory`, `EventSteps`, `Event` | `Event` and `Event::any()` | value specification with `signal()` as one step, transition system with a mutex for each event, and objects on the heap |
| `Common` | what the other files share | |

## How to read it

The concurrent parts are transition systems. A state is a value, an event has a guard `Enabled` and
an effect `Apply`, and a run is any finite alternation of states and enabled events from an initial
state. An inductive invariant `Inv` is kept by every event (`StepInv`), hence holds in every state
of every run (`RunInv`), and the theorems follow from it. Beside what is kept there are two other
kinds of results: that steps of one party alone lead to where they should (progress), and that a
field says what the history of events says (effect). The clock is a non-decreasing input, and a
scheduler's choices (which thread goes next, which victim a thief picks, which idle fiber is reused,
when a condition variable wakes spuriously) are events that may happen in any order.

The sequential parts are classes with the source's own fields. Ghost fields hold the abstract
value, `Valid()` ties the fields to it, and each method says how the abstract value changes. The
facts about the abstract value are proved as lemmas over every sequence of operations.

## Findings

* `Fiber::notify()` keeps fiber placement exactly when its target is not idle; on an idle fiber it
  leaves the fiber in the ready queue and in the idle set at once
  (`WorkerTheorems.NotifyPlacementExact`). A run reaches such a state, and then the assertion that a
  dequeued fiber is not idle fires (`IdleNotification.NotifyingIdleFiresAssertion`). Condition
  variables notify only fibers inside `wait()` (`HandshakeTheorems.NotifiesWaiters`), which are never
  idle (`WorkerSafety.JobIsNotIdle`).
* A notifier that never holds the wait mutex at or after its change of the predicate can lose a
  wake-up (`HandshakeTheorems.SkippingTheMutexLosesAWakeup`). Every other notifier cannot
  (`NoLostWakeup`, `LockedNotifiersAreRuled`); `WaitGroup::done()`, which changes its atomic count
  before it takes the mutex, is one of those.
* `build()` accepts graphs in which the root has dependencies, and `run()` may then come back to the
  root. For every built graph, cyclic ones included:
  * `run()` comes back to the root if and only if the root is not free, that is it has dependencies
    and every closed set of nodes contains them all (`DagRepeat.RootCalledOnceIfFree`).
  * All executions are finite, and some execution returns, if and only if the root is on no cycle of
    nodes with exactly one dependency each; on such a cycle no execution ever returns
    (`DagReturn.FiniteUnlessRootLoops`).
  * No work begins twice if and only if the root is free or is the only dependency of no other node
    (`DagRepeat.WorkBeginsOnce`); the root itself has no work.
  * Whatever the schedule, executions that return have run each node equally often, namely as often
    as the least solution of one equation for each node says (`DagOutcome.OutcomeIsLeastSolution`,
    `DagOutcome.SameOutcome`).
  * `run()` may return after running a node one of whose dependencies never ran
    (`DagWitness.RunsWithoutDependency`). It has done so exactly if the least solution says so
    (`DagOutcome.DependenciesMet`), and never does if the root is free (`DagTheorems.DependenciesFirst`,
    `DagTheorems.RunsExactlyTheLeastSet`).
* A ticket is never called after its `done()` has returned (`TicketOrder.FinishedIsNeverCalled`), but
  may be called after its `done()` has begun, because `isDone` is set before the mutex is taken
  (`TicketOrder.MarkedMayBeCalled`). It is called if and only if at some point it has not finished
  and all earlier tickets have (`TicketOrder.CalledIfDue`).
* Assigning a loan to itself, by copy or by move, empties it (`Pool.Storage.AssignCopy`,
  `Pool.Storage.AssignMove`).

## Model

| member | source | states |
|---|---|---|
| `WorkerTheorems.StepInv` | src/scheduler.cpp:471-763 | every step of the worker thread or of another thread keeps the whole worker invariant: fiber placement, both counters, the wake-up obligation, and what holds once a fiber has left `run()` |
| `WorkerTheorems.RunInv` | src/scheduler.cpp:471-763 | the worker invariant holds in every state of every run |
| `WorkerTheorems.NoAssertionFires` | src/scheduler.cpp:533-741 | none of the assertions in `enqueue`, `run`, `waitForWork`, `enqueueFiberTimeouts`, `runUntilIdle`, `suspend` and `switchToFiber` can fail in any run |
| `WorkerTheorems.FiberPlacement` | src/scheduler.cpp:471-542 | a fiber that is not current is in the one container that its state names (once in the ready queue if Queued, in the timeout index if Waiting, in the idle set if Idle, nowhere if Yielded) and in no other |
| `WorkerTheorems.CountersExact` | src/scheduler.cpp:486-507 | `work.num` is always ready fibers plus tasks; whenever the mutex is free `numBlockedFibers` is the number of other fibers parked in `suspend()` |
| `WorkerTheorems.Drains` | src/scheduler.cpp:576-596 | when `runUntilShutdown()` returns there is no task, no ready or waiting fiber and no fiber inside a task; if a worker fiber makes the exit, the main fiber it switches to is parked idle in `runUntilIdle()` |
| `WorkerTheorems.NeverSleepsThroughWork` | src/scheduler.cpp:754-763 | while the thread is parked in `Work::wait()`, `notifyAdded` is set, pending work means that an enqueuer still owes a `notify_one()`, and the deadline is no later than any timeout left |
| `WorkerProgress.TimeoutIsServed` | src/scheduler.cpp:754-763 | from every reachable state with the thread parked, once the clock has reached the timeout of a waiting fiber the thread's own next two steps put that fiber into the ready queue |
| `WorkerProgress.WorkIsStarted` | src/scheduler.cpp:591-726 | from every reachable state with a task or a ready fiber, or a task in the thief's hand, the thread's own steps lead to it running a task, wherever it sleeps, spins or is inside the scheduler |
| `WorkerProgress.SuspendKeepsTimeout` | src/scheduler.cpp:471-481 | from its call of `suspend(timeout)` on a fiber is Yielded if there is no timeout, and else Waiting with exactly that timeout, until a notification or its timeout makes it ready |
| `WorkerProgress.TimeoutMakesReady` | src/scheduler.cpp:619-627 | the first processing of timeouts makes the fiber ready if and only if its timeout has passed |
| `WorkerProgress.WorkerEnds` | src/scheduler.cpp:409-426 | a worker that runs its stop task, or is stopped by its thread, with nothing else left ends by its own steps |
| `WorkerProgress.ReadyQueueInOrder` | src/scheduler.cpp:488-537 | fibers leave the ready queue in the order in which they entered it |
| `WorkerProgress.TaskQueueInOrder` | src/scheduler.cpp:549-574 | tasks leave the task queue, to run or to be stolen, in the order in which they entered it |
| `WorkerProgress.SpinsBeforeSleep` | src/scheduler.cpp:601-613 | a multi-threaded worker without work spins, when it may steal, before it sleeps, and a single-threaded one never does |
| `WorkerProgress.OnlyMultiThreadedSpins` | src/scheduler.cpp:605-609 | a single-threaded worker is never in `spinForWorkAndLock()` |
| `WorkerProgress.FibersAreReused` | src/scheduler.cpp:488-503 | a fiber is created exactly when one suspends while none is ready or idle |
| `WorkerTheorems.SuspendFindsWork` | src/scheduler.cpp:483-503 | `suspend()` switches away only with a task or a ready fiber at hand, or in a shutdown with nothing else blocked |
| `WorkerTheorems.NotifyPlacementExact` | src/scheduler.cpp:514-537 | a notification of any fiber keeps fiber placement if and only if the fiber is not idle, and keeps the whole invariant then |
| `WorkerTheorems.NotifiedIsServed` | src/scheduler.cpp:531-541 | a fiber that has been notified runs or is in the ready queue of a worker whose thread is awake or is still owed a `notify_one()` |
| `IdleNotification.NotifyingIdleFiresAssertion` | src/scheduler.cpp:694-700 | a run that reaches an idle fiber while the mutex is free; if that fiber is notified, the assertion at its dequeuing fires |
| `WorkerTheorems.SwitchHoldsMutex` | src/scheduler.cpp:739-746 | `work.mutex` is held at every fiber switch and by the fiber switched to, which continues in `suspend()`, in `runUntilIdle()` or at the entry of `run()` |
| `WorkerTheorems.MutexIsReleased` | src/scheduler.cpp:592-726 | every step of the holder of `work.mutex` releases it or lowers a rank, across fiber switches |
| `WorkerTheorems.HolderCanStep` | src/scheduler.cpp:576-746 | the holder of `work.mutex` is never stuck |
| `WorkerTheorems.ReleaseReached` | src/scheduler.cpp:576-746 | from every invariant state the holder's own steps lead to a state in which the mutex is free |
| `WorkerSafety.EnqueueFiberInv` | src/scheduler.cpp:514-542 | `enqueue(Fiber*)` keeps the worker invariant for every fiber that is not idle, also when it races with a timeout |
| `WorkerSafety.JobIsNotIdle` | src/scheduler.cpp:471-481 | a fiber that runs or is suspended inside a task is not idle |
| `WorkerSafety.AfterWorkInv` | src/scheduler.cpp:614-627 | moving the expired fibers to the ready queue keeps the worker invariant |
| `WorkerSafety.RunIdleInv` | src/scheduler.cpp:685-726 | a round of `runUntilIdle()`, resuming a fiber or starting a task, keeps the worker invariant |
| `WorkerSafety.SwitchOutInv` | src/scheduler.cpp:486-503 | the three ways of switching away in `suspend()` keep the worker invariant |
| `WorkerSafety.EnterWorkWaitInv` | src/scheduler.cpp:611-613 | going to sleep in `waitForWork()` keeps the worker invariant, the wake-up obligation included |
| `WorkerSafety.LeaveRunInv` | src/scheduler.cpp:587-588 | the final switch to the main fiber keeps the worker invariant |
| `WorkerSafety.SuspendedUpdate` | src/scheduler.cpp:486-505 | how the number of suspended fibers changes when one fiber moves |
| `WorkerObject.Worker.EnqueueFiber` | src/scheduler.cpp:514-542 | on any fiber, the method on the worker's fields does what `EnqueueFiberAction` says, returns whether a `notify_one()` is owed, and keeps the invariant if and only if the fiber was not idle |
| `WorkerObject.Worker.EnqueueAndUnlock` | src/scheduler.cpp:549-557 | the method is the event `EnqueueTask`, and returns whether a `notify_one()` is owed |
| `WorkerObject.Worker.Steal` | src/scheduler.cpp:559-574 | steals the front task if and only if the lock is obtained and there is a front task that may leave its thread; else nothing changes |
| `WorkerObject.Worker.SuspendBegin` | src/scheduler.cpp:471-481 | the first part of `suspend()` is the event `StartSuspend`: the fiber becomes Waiting and is entered with its timeout in both indices, or becomes Yielded if it has none |
| `WorkerObject.Worker.SwitchToReady` | src/scheduler.cpp:486-493 | the switch to a ready fiber is the event `SwitchOut` |
| `WorkerObject.Worker.SwitchToIdle` | src/scheduler.cpp:494-498 | the switch to a reused idle fiber is the event `SwitchOut` |
| `WorkerObject.Worker.SwitchToNew` | src/scheduler.cpp:499-502 | the switch to a new fiber is the event `SwitchOut` |
| `WorkerObject.Worker.SuspendEnd` | src/scheduler.cpp:505-507 | the end of `suspend()` is the event `ResumeSuspended` |
| `WorkerObject.Worker.WorkWaitEnter` | src/scheduler.cpp:754-763 | entering `Work::wait()` is the event `EnterWorkWait`, and a parked thread has the deadline that the timeout index gives |
| `WorkerObject.Worker.EnqueueFiberTimeouts` | src/scheduler.cpp:619-627 | the loop moves exactly the fibers with a deadline that has passed, in order of deadline and fiber, each once |
| `WorkerObject.Worker.WaitForWorkEnd` | src/scheduler.cpp:614-617 | the end of `waitForWork()` is the event `AfterWork` |
| `WorkerObject.Worker.RunReadyFiber` | src/scheduler.cpp:694-707 | resuming a ready fiber is the event `RunIdle`, with every assertion on the way discharged |
| `WorkerObject.Worker.RunTask` | src/scheduler.cpp:711-717 | taking a task is the event `RunIdle`, and the task taken is the one that runs |
| `WaitingFibers.WaitingFibers.Next` | src/scheduler.cpp:323-327 | the first entry of the ordered index is the earliest deadline of the map |
| `WaitingFibers.WaitingFibers.Add` | src/scheduler.cpp:329-334 | both indices gain the fiber and stay in bijection, the ordered one sorted |
| `WaitingFibers.WaitingFibers.Erase` | src/scheduler.cpp:336-345 | both indices lose the fiber, or nothing if it is absent, and stay in bijection |
| `WaitingFibers.WaitingFibers.Take` | src/scheduler.cpp:307-321 | takes the first expired fiber in (deadline, fiber) order out of both indices, or finds none expired |
| `WaitingFibers.SortedInsert` | src/scheduler.cpp:329-330 | inserting keeps the ordered index sorted and in bijection with the map |
| `WaitingFibers.SortedRemove` | src/scheduler.cpp:336-345 | removing keeps the ordered index sorted and in bijection with the map |
| `WaitingFibers.FirstIsNext` | src/scheduler.cpp:307-327 | the first entry of the ordered index belongs to the fiber that comes before all others of the map |
| `Stealing.ActionBooks` | src/scheduler.cpp:171-218 | enqueuing, stealing and every step of any worker keep each task in exactly one place |
| `Stealing.HistoryBooks` | src/scheduler.cpp:171-218 | the same in every state of every run with any number of workers |
| `Stealing.TasksAreConserved` | src/scheduler.cpp:544-574 | an enqueued task that has not completed is in one queue, in one thief's hand or on one fiber; nothing else is anywhere, and no queue holds a task twice |
| `Stealing.NoTaskStartsTwice` | src/scheduler.cpp:711-724 | no task is started twice in a run |
| `Stealing.SameThreadStaysHome` | src/scheduler.cpp:566-569 | a SameThread task is never on a worker other than the one it was enqueued on |
| `Stealing.StealBooks` | src/scheduler.cpp:208-218 | a steal moves the task from the victim's queue to the thief's hand and disturbs no other task |
| `Stealing.SpinLockBooks` | src/scheduler.cpp:673-678 | the stolen task goes from the thief's hand to the thief's queue |
| `Stealing.HomeIsEnqueuer` | src/scheduler.cpp:171-206 | the home of a task is the worker it was enqueued on |
| `Stealing.HomeIsKept` | src/scheduler.cpp:171-218 | a task is enqueued once and keeps its home through every steal |
| `Stealing.CompletedByEnd` | src/scheduler.cpp:711-724 | a task has completed only by running to its end |
| `Stealing.StartsAreRecorded` | src/scheduler.cpp:711-717 | the start history lists the tasks that were started, in order |
| `HandshakeSafety.StepInv` | include/marl/conditionvariable.h:106-193 | every step of every fiber, notifier and thread keeps who holds which mutex, the waiting list, `numWaiting`, what `wait()` may return, and that no fiber sleeps past a change it must be told of |
| `HandshakeTheorems.NoLostWakeup` | src/scheduler.cpp:437-469 | once `notify_all()` has returned to a notifier that held the wait mutex at or after its change, no fiber that last looked before that change is suspended or about to suspend |
| `HandshakeTheorems.LockedNotifiersAreRuled` | include/marl/waitgroup.h:90-104 | every notifier that takes the wait mutex before or after its change obeys that rule, the unlocked decrement of `WaitGroup::done()` included |
| `HandshakeTheorems.SkippingTheMutexLosesAWakeup` | src/scheduler.cpp:445-450 | a run in which a notifier without the mutex leaves a fiber suspended although the predicate is true |
| `HandshakeTheorems.WaitReturns` | src/scheduler.cpp:441-468 | `wait()` returns with the wait mutex held; true means that the predicate was true at the fiber's last look and has been changed since at most without the mutex, hence is still true if it has not been changed at all; false means that the deadline has passed |
| `HandshakeProgress.WaitsOnlyWhileFalse` | src/scheduler.cpp:441-453 | a fiber that is about to suspend or is suspended, and has seen all changes, waits for a predicate that is false |
| `HandshakeProgress.LeavesWait` | src/scheduler.cpp:459-468 | a fiber on its way out leaves `wait()` by its own steps with free locks: with true if the predicate holds, with false if the deadline had passed when the wait mutex was taken again |
| `HandshakeProgress.ResumedReturns` | src/scheduler.cpp:455-468 | from every reachable state a suspended fiber that has been made ready does so |
| `HandshakeProgress.SuspendsIfFalse` | src/scheduler.cpp:441-453 | a fiber that enters `wait()` while the predicate is false is suspended by its own steps, with the wait mutex given up, and with a timeout exactly if it has a deadline |
| `HandshakeProgress.CanTimeOut` | src/scheduler.cpp:619-627 | a suspended fiber with a deadline can be made ready by its timeout once the clock has reached it |
| `HandshakeProgress.DeadlineIsKept` | include/marl/conditionvariable.h:157-183 | the deadline of a wait is the one it was started with |
| `HandshakeProgress.PredicateIsLastChange` | include/marl/conditionvariable.h:121-138 | the predicate is what its last change made it |
| `HandshakeProgress.NotifyAllReturns` | include/marl/conditionvariable.h:106-119 | `notify_all()` returns by the notifier's own steps with free locks |
| `HandshakeTheorems.UnlockedChanges` | include/marl/waitgroup.h:90-99 | the changes counted as made without the mutex are exactly the ones by notifiers that do not hold it |
| `HandshakeTheorems.NotifiesWaiters` | include/marl/conditionvariable.h:110-115 | every fiber that `notify_all()` notifies is inside `wait()` |
| `HandshakeTheorems.LocksUpwards` | include/marl/conditionvariable.h:121-138 | whoever blocks on a mutex, threads in other code on work mutexes included, holds only mutexes earlier in the order wait mutex, condition variable mutex, work mutex |
| `HandshakeTheorems.NoLockCycle` | include/marl/conditionvariable.h:106-138 | no reachable state has a cycle of actors that wait for each other's mutexes |
| `Dag.DAGBuilder.AddDependency` | include/marl/dag.h:344-349 | adds one edge and keeps `numIns` equal to the number of dependencies of each node |
| `Dag.DAGBuilder.AddNode` | include/marl/dag.h:327-342 | adds one node with an edge from each entry of `after`, counted with repetition |
| `Dag.DAGBuilder.Build` | include/marl/dag.h:351-364 | exactly the nodes with several dependencies get a counter, each its own, which starts at their number |
| `Dag.AddEdgeDegree` | include/marl/dag.h:344-349 | an edge adds one to the in-degree of its target and to no other |
| `Dag.SingleEdge` | include/marl/dag.h:344-349 | a node with one dependency is notified by one out of one node |
| `DagRun.RunContext.constructor` | include/marl/dag.h:150-157 | the counters of a run start as built |
| `DagRun.RunContext.Notify` | include/marl/dag.h:159-171 | the in-place decrement is the step `NotifyResult` of the transition system |
| `DagRun.StepInv` | include/marl/dag.h:159-209 | in every built graph every step of every call keeps: a node with one dependency has been called once for each notification and one with several when its counter reached zero, each counter is what is left to report, the WaitGroup counts the pending calls, and no call is in two hands |
| `DagTheorems.RunInv` | include/marl/dag.h:159-209 | the invariant holds in every state of every execution of every built graph |
| `DagTheorems.WaitGroupExact` | include/marl/dag.h:186-205 | in every built graph the WaitGroup count is exactly the scheduled calls not yet done, and is not decremented at zero |
| `DagTheorems.NoCounterUnderflows` | include/marl/dag.h:166-170 | if the root is free no node counter is decremented at zero |
| `DagTheorems.DependenciesFirst` | include/marl/dag.h:173-209 | if the root is free, the work of a node other than the root begins only after the work of all its dependencies has ended |
| `DagTheorems.RunOnce` | include/marl/dag.h:173-209 | if the root is free no node is called twice |
| `DagTheorems.RunsExactlyTheLeastSet` | include/marl/dag.h:383-389 | if the root is free, `run()` has run exactly the least set with the root and every node that has dependencies, all of them in the set, when it returns |
| `DagTheorems.ScheduleIndependent` | include/marl/dag.h:383-389 | if the root is free, any two runs of a graph that return have run the same nodes |
| `DagTheorems.NothingPending` | include/marl/dag.h:383-389 | when `wg.wait()` can return, no invocation is pending or running |
| `DagReturn.StepsTerminate` | include/marl/dag.h:173-209 | every step lowers a variant as long as the number of calls stays within a limit |
| `DagReturn.RunsAreFinite` | include/marl/dag.h:383-389 | if the root is on no cycle of nodes with one dependency each, no execution is longer than the variant of its first state |
| `DagReturn.CanReturn` | include/marl/dag.h:383-389 | and every execution can be continued until `run()` returns |
| `DagReturn.NeverReturns` | include/marl/dag.h:173-209 | if the root is on such a cycle no execution ever returns |
| `DagReturn.FiniteUnlessRootLoops` | include/marl/dag.h:173-209 | for every built graph: executions are of bounded length if and only if the root is on no such cycle, and if and only if `run()` can return |
| `DagTheorems.SomeStepEnabled` | include/marl/dag.h:383-389 | until `run()` returns some step can be made |
| `DagRepeat.RepeatsWithoutEnd` | include/marl/dag.h:173-209 | on such a cycle the work of a node whose only dependency is the root begins as often as one likes |
| `DagRepeat.Repeats` | include/marl/dag.h:173-209 | if the root is not free and is the only dependency of a node, the work of that node begins twice in some execution |
| `DagRepeat.WorkBeginsOnce` | include/marl/dag.h:173-209 | for every built graph: no node other than the root begins its work twice in any execution if and only if the root is free or is the only dependency of no other node |
| `DagRepeat.RootCalledOnceIfFree` | include/marl/dag.h:173-209 | for every built graph: the root is called at most once in every execution if and only if it is free |
| `DagRepeat.ComesBack` | include/marl/dag.h:173-209 | if it is not free every execution without a repeated call can be continued until the root is called again |
| `DagOutcome.OutcomeIsLeastSolution` | include/marl/dag.h:383-389 | for every built graph: when `run()` returns each node has run as often as the least solution of the node equations says |
| `DagOutcome.SameOutcome` | include/marl/dag.h:383-389 | for every built graph: any two executions that return have run each node equally often |
| `DagOutcome.SolvableUnlessRootLoops` | include/marl/dag.h:383-389 | the node equations have a solution if and only if `run()` can return |
| `DagOutcome.DependenciesMet` | include/marl/dag.h:375-377 | when `run()` returns, every node other than the root that has run has had all its dependencies run if and only if that is so in the least solution |
| `DagWitness.RunsWithoutDependency` | include/marl/dag.h:159-209 | a graph that can be built, and an execution that returns after running a node without one of its dependencies |
| `TicketOrder.TakeInv` | include/marl/ticket.h:180-204 | taking tickets keeps the order invariant |
| `TicketOrder.FinishInv` | include/marl/ticket.h:216-227 | finishing a marked ticket, in any order, takes it and no other one out of the chain and keeps the order invariant |
| `TicketOrder.MarkInv` | include/marl/ticket.h:217-219 | setting `isDone`, also repeatedly, keeps the order invariant |
| `TicketOrder.RunInv` | include/marl/ticket.h:180-242 | the order invariant holds after any sequence of operations, with the two steps of `done()` interleaved in any way |
| `TicketOrder.FinishedByDone` | include/marl/ticket.h:220-226 | a ticket has finished if and only if its `done()` came to its end |
| `TicketOrder.MarkedByDone` | include/marl/ticket.h:217-219 | a ticket is marked if and only if its `done()` has begun |
| `TicketOrder.ChainIsUnfinished` | include/marl/ticket.h:180-253 | after any operations the chain holds exactly the tickets taken whose `done()` has not come to its end, in take order |
| `TicketOrder.CalledInOrder` | include/marl/ticket.h:180-242 | after any sequence of operations tickets have been called in the order they were taken, and the only one called and unfinished is the first unfinished one |
| `TicketOrder.CalledWhenEarlierFinished` | include/marl/ticket.h:216-242 | a ticket is called only when all earlier ones have finished, that is left the chain, and not after it has finished itself |
| `TicketOrder.FinishedIsNeverCalled` | include/marl/ticket.h:216-242 | a ticket that finishes before it is called is never called |
| `TicketOrder.CalledIfDue` | include/marl/ticket.h:180-242 | a ticket has been called if and only if at some point it had not finished and all earlier ones had |
| `TicketOrder.MarkedMayBeCalled` | include/marl/ticket.h:217-220 | a run in which a ticket is called after its `done()` has set `isDone` |
| `Ticket.Unlink` | include/marl/ticket.h:244-253 | taking a record out of a well-linked chain leaves the others well linked |
| `Ticket.Join` | include/marl/ticket.h:195-203 | the new chain ends up between the old one and the sentinel |
| `Ticket.Make` | include/marl/ticket.h:182-194 | the loop of `take()` links the new records to each other in order |
| `Ticket.Queue.Take` | include/marl/ticket.h:180-204 | the linked records do what `TakeTickets` says, and stay well linked up to the sentinel |
| `Ticket.Queue.BeginDone` | include/marl/ticket.h:217-219 | the exchange of `isDone` is the step `MarkTicket`, and tells the first caller from the others |
| `Ticket.Queue.EndDone` | include/marl/ticket.h:220-226 | for the first caller, the linked records do what `FinishTicket` says: the ticket has finished and left the chain, the others stay, and the next one or the sentinel is called if it was the first |
| `Ticket.Queue.Done` | include/marl/ticket.h:216-227 | an uninterrupted `done()` takes the ticket out of the chain the first time and does nothing afterwards |
| `Ticket.Queue.OnCall` | include/marl/ticket.h:147-167 | a function is kept for the call or scheduled at once, behind the ones registered before |
| `Ticket.HeadIsCalled` | include/marl/ticket.h:180-253 | the links visit the unfinished tickets in take order, then the sentinel, and exactly the first one is called |
| `Ticket.OneAtATime` | include/marl/ticket.h:216-242 | at most one ticket is called and still in the chain, whether or not its `done()` has begun |
| `Ticket.CallbacksOnce` | include/marl/ticket.h:229-242 | every function registered with a called ticket has been scheduled exactly once and in order, and none of an uncalled one |
| `List.Unlink` | include/marl/containers.h:542-555 | removes one entry from a well-linked chain and nothing else |
| `List.Link` | include/marl/containers.h:557-566 | puts an entry in front of a well-linked chain |
| `List.List.Grow` | include/marl/containers.h:509-540 | the free list becomes a well-linked chain of the new raw entries |
| `List.List.EmplaceFront` | include/marl/containers.h:481-497 | prepends the value; other entries keep place and value; no entry is lost; the two chains stay disjoint; capacity grows exactly when the free list is empty and stays within max(8, twice the peak size) |
| `List.List.Erase` | include/marl/containers.h:499-507 | removes the value at any live entry and returns the entry to the free list |
| `Vector.Vector.Reserve` | include/marl/containers.h:306-326 | moves the contents to larger storage unchanged and destroys every old element once; what growing has moved never exceeds the capacity |
| `Vector.Vector.PushBack` | include/marl/containers.h:213-225 | appends a value, inline or on the heap |
| `Vector.Vector.PopBack` | include/marl/containers.h:227-232 | removes and destroys the last value |
| `Vector.Vector.Resize` | include/marl/containers.h:295-304 | cuts the contents off or fills them up with default values |
| `Vector.Vector.Copy` | include/marl/containers.h:151-197 | construction from a vector gives equal contents, whatever the two inline capacities |
| `Vector.Vector.Move` | include/marl/containers.h:160-211 | move construction takes the contents and leaves the other vector empty |
| `Vector.Vector.Free` | include/marl/containers.h:338-349 | destroys every element, each once |
| `Vector.PushesAreCheap` | include/marl/containers.h:306-308 | `k` calls of `push_back` on a new vector move fewer than `2k` elements in total |
| `Pool.CountsLoans` | include/marl/pool.h:126-181 | at any time the refcount of an item is the number of loans that hold it, it is on the free list exactly when that is none, and it is constructed exactly when the policy says so |
| `Pool.Storage.Lend` | include/marl/pool.h:430-435 | lends the first free item to one new loan |
| `Pool.Storage.Reset` | include/marl/pool.h:151-162 | gives up one reference, which is never below zero, and returns the item with the last one |
| `Pool.Storage.Copy` | include/marl/pool.h:132-138 | a copy holds the same item |
| `Pool.Storage.Move` | include/marl/pool.h:140-144 | a move takes the item over and empties the source |
| `Pool.Storage.AssignCopy` | include/marl/pool.h:164-173 | afterwards both loans hold the item; self-assignment empties the loan |
| `Pool.Storage.AssignMove` | include/marl/pool.h:175-181 | afterwards only the target holds the item; self-assignment empties the loan |
| `Pool.Storage.Destroy` | include/marl/pool.h:146-149 | a loan that is destroyed gives up its reference as `reset()` does |
| `Pool.Storage.AddItems` | include/marl/pool.h:252-262 | new items go to the free list, constructed if the policy preserves items |
| `Pool.BoundedPool.BorrowOne` | include/marl/pool.h:290-297 | one round: lends an item that nobody holds, or waits exactly when every item is on loan |
| `Pool.BoundedPool.Borrow` | include/marl/pool.h:286-299 | lends `n` items, each to one loan that is the only one to hold it, and stops short only to wait when no item is free |
| `Pool.BoundedPool.Perform` | include/marl/pool.h:126-181 | the number of items stays the same whatever is done with the loans |
| `Pool.UnboundedPool.BorrowOne` | include/marl/pool.h:415-436 | one round: lends an item that nobody holds, growing if need be, with at most max(32, twice the peak) items, where the peak is the largest number of items on loan so far |
| `Pool.UnboundedPool.Borrow` | include/marl/pool.h:412-437 | lends `n` items, each to one loan that is the only one to hold it |
| `Pool.UnboundedPool.Perform` | include/marl/pool.h:126-181 | copying, moving, assigning, resetting and destroying loans keep that bound and the peak |
| `Pool.CountsItems` | include/marl/pool.h:412-437 | the number on loan that the peak refers to is the number of items with a reference |
| `EventModel.SignalReaches` | include/marl/event.h:134-148 | a signal turns on exactly the events reachable from it along dependencies without passing one that is on |
| `EventModel.SignalSpreads` | include/marl/event.h:134-148 | all dependencies of every newly signalled event are signalled |
| `EventModel.StepInv` | include/marl/event.h:134-241 | every operation keeps signals conserved and dependencies directed from older to newer events |
| `EventModel.SourceIsOlder` | include/marl/event.h:229-241 | every source that `any()` visits is older than the event it creates, also when other events are created meanwhile |
| `EventModel.RunInv` | include/marl/event.h:134-241 | the same after any sequence of operations |
| `EventModel.AutoConserves` | include/marl/event.h:150-182 | the waits and tests that succeed on an Auto event never exceed the signals that turned it on plus an initially signalled state |
| `EventModel.ManualFollows` | include/marl/event.h:229-241 | a Manual event that was never cleared is on whenever an event it depends on is |
| `EventHistory.OnIfTurnedOn` | include/marl/event.h:134-222 | an event is on if and only if some operation turned it on and since then there was no `clear()` and, for an Auto event, no successful wait or test |
| `EventHistory.TurnedOnBy` | include/marl/event.h:134-241 | what turns an event on is its creation, or a signal that reaches it, by `signal()` or because `any()` finds a source on |
| `EventHistory.DependsOnSources` | include/marl/event.h:229-241 | an event that `any()` created depends exactly on those of its sources that were visited, in order and one for each round |
| `EventHistory.SpentExactly` | include/marl/event.h:150-222 | the count of successful waits and tests is that of the history |
| `EventHistory.GainedExactly` | include/marl/event.h:134-148 | the count of signals that turned an event on is that of the history |
| `EventSteps.StepInv` | include/marl/event.h:134-241 | every step of every thread, with the mutex of each event kept during the recursion of `signal()`, keeps: a dependency of an event that is on is on, was turned off, or is about to be told by the owner of the mutex |
| `EventSteps.FollowsWhenFree` | include/marl/event.h:134-148 | whenever the mutex of an event is free and the event is on, every dependent event that was never turned off, so every Manual one never cleared, is on |
| `EventSteps.OnAfter` | include/marl/event.h:134-196 | an event goes on only when it is created so or a thread that signals it gets its mutex, and off exactly when it is turned off |
| `EventSteps.SignalTakesEffect` | include/marl/event.h:134-148 | by the time a call of `signal()` has returned the event has been on |
| `EventSteps.LinkTakesEffect` | include/marl/event.h:232-239 | once a round of `any()` is over the new event depends on the source |
| `EventSteps.DroppedIfTurnedOff` | include/marl/event.h:150-196 | the events counted as turned off are exactly those that were |
| `EventSteps.NoDeadlock` | include/marl/event.h:134-148 | no cycle of threads that wait for the mutexes of each other's events |
| `Event.SignalShared` | include/marl/event.h:134-148 | the recursion over the dependency objects terminates and turns on exactly what `Signal` says |
| `Event.Program.Create` | include/marl/event.h:131-132 | the new event is on exactly if it is created so |
| `Event.Program.Clear` | include/marl/event.h:193-196 | the method is the operation `Clear`: the event is off afterwards, and no other event changes |
| `Event.Program.Test` | include/marl/event.h:213-222 | returns whether the event was on, and leaves it on exactly if it was on and is a Manual event |
| `Event.Program.LinkAny` | include/marl/event.h:232-239 | one round of `any()` is the operation `Link`, also when the source is already on |
| `Event.Program.Any` | include/marl/event.h:229-241 | the new event depends on all sources, is on exactly if one of them is, and no other event changes |

## Left out

- Operating-system fibers, context switches, stacks, thread creation and affinity: a switch is a change of the current program counter.
- Allocators: an allocation always succeeds.
- Tracing, logging, benchmarks and examples.
- The order of fibers with equal deadlines: by fiber number, while the source orders them by address.
- Real time: the clock is a non-decreasing input, and the spin loop of `spinForWorkAndLock()` is any number of steal attempts.
- The choice of a worker in `Scheduler::enqueue()` and of a victim in `stealWork()`: both are arbitrary; the spinning-worker hint of `onBeginSpinning()` only guides the choice.
- `Worker::run()` as one method: control flow that crosses a fiber switch cannot be a method body, so `Worker`'s methods are the code between two switches or lock operations, and program counters join them.
- Threads that are not scheduler fibers and wait on `std::condition_variable` inside a `ConditionVariable`.
- Wake-ups by `notify_one()`: it notifies the front fiber again until that fiber removes itself, so no claim is made that a call wakes a new fiber; hence none that a waiter of `BoundedPool` or of an Auto event always wakes.
- HandshakeTheorems.WaitReturns: a false result says that the deadline has passed, not that the predicate is false, because the code does not evaluate it again.
- DagTheorems.DependenciesFirst: for graphs whose root is free; for the others `DagOutcome.DependenciesMet` gives the exact condition at the return of `run()`, not at each moment before.
- HandshakeTheorems.NoLockCycle: about one wait mutex; that other code takes it before a work mutex is a guard of the model.
- Pool.BoundedPool.Borrow: ends where the loop waits; going on after the wait is a further call for the items that are missing.
- WorkerTheorems.Drains: about one worker; tasks that other workers add while the scheduler is destroyed are not covered.
- 32- and 64-bit wrap-around of counters, sizes and capacities.
- Functions passed to `Queue::take(n, f)` and `Pool::borrow(n, f)` that drop or finish what they receive; `take` is an atomic step, and in `EventModel` and `Event` so is `signal`.
- Recycling of ticket records through their pool, and loans of one pool assigned to loans of another.
- `BoundedPool::tryBorrow()`, vector assignment onto a vector that is not fresh, and destruction of pools, lists and queues.
- Vector.Vector.PushBack: the value is passed by value; a reference to an element of the vector itself, which `reserve()` destroys before it is read when the vector grows, is not covered.
- Vector.Vector.Move: the state of objects that have been moved from is not modelled beyond their being alive until destroyed.
- `Event::wait_for()` and `wait_until()` when they time out: nothing changes then.
