# LogIt++: a model of its delivery path, its codecs and its configuration

LogIt++ is a C++ logging library. This project models the parts of it that are hard to get right and
proves what they promise, for every input, every interleaving and every run:

- the lock-free queue with many producers and one consumer, and the ticketed executor built on it, with its
  `wait`, `shutdown` and hot resize (`MpscRing`, `TaskExecutor*`, `StrandedTask`, `BlockLimit`);
- the executor a logger may own, native and cooperative (`SingleThreadExecutor`, `CooperativeExecutor`);
- the life cycle of the console logger, composed with the native executor (`ConsoleLogger*`);
- the registry of loggers with its published snapshot and its shutdown (`LoggerRegistry*`);
- the batching payload logger and its payload splitter (`OtlpPayloadLogger`);
- the crash logger's byte ring (`CrashRing`);
- the record codec, the record keys and the JSON printer (`BigEndian`, `ByteCodec`, `RecordKey`, `Decimal`,
  `Json`, `JsonFormatter`);
- the configuration pipeline from a document to loggers (`Configuration*`).

`dafny verify dfyconfig.toml` checks all of it.

## How to read it

Concurrent code is a step machine. A `State` holds the shared fields and the program counter of every thread;
an atomic operation or a critical section is one action; `Enabled` says when it may happen and `Step` what it
does. A condition variable is the guard of the step that follows it, a timeout or a weak compare-exchange
failure is a free choice. `IsRun` is a sequence of steps from the initial state, and the main theorems speak of
any index of any run. Some fields are histories that no step reads: what was accepted, what ran, how each ticket
was settled. Sequential code is written as classes and methods with loops, against specification functions; the
executors and the ring exist in both forms, and there each method is shown to be a step of the machine.

Positions, offsets and tickets are natural numbers, and steps interleave with sequential consistency.

## Where the code and its documentation part

- `QueuePolicy::Block` is described as limiting the tasks in flight (docs/TaskExecutor.md, sections 2 and 9). The
  ring build counts `m_active_tasks`, which marks the worker's own pop attempt and never exceeds one, so the test
  turns a producer back under exactly one limit, the limit one (`BlockLimit.HoldsBackExactlyAtOne`). What bounds
  the backlog is the ring: at most its capacity and one task (`BlockLimit.BacklogIsBounded`), a bound that is met
  under every limit (`BlockLimit.BacklogMeetsBound`).
- `TaskExecutor::shutdown` is described as finishing the pending tasks. The worker tests the ring for emptiness
  before it reads the stop flag, so a task whose `add_task` returned before `shutdown` was called can be left in
  the ring (`StrandedTask.ShutdownMayStrandATask`), for good (`TaskExecutorRuns.ExitAfterShutdownIsFinal`).
  `TaskExecutorRuns.ExitDrainsExactlyWhen` gives the exact condition under which nothing is left, and
  `TaskExecutorRuns.WaitThenShutdownDrains` how a caller meets it.
- `ConsoleLogger::wait` is described as waiting until all pending messages are written. It waits for the executor
  in use only, so it misses exactly the lines that are unwritten with an executor which a concurrent `set_config` or
  `shutdown` has taken away (`ConsoleLoggerWait.WaitWrites`, `ConsoleLoggerWait.WaitMayMiss`).
- A strategy with concurrent dispatch can receive a `log()` after its `shutdown()`; a serialized one cannot
  (`LoggerRegistry.LateLogExactlyWhenConcurrent`).
- `OtlpPayloadLogger::stop` drains only for its first caller: a call can return with records unexported exactly
  when it finds the stop flag already up (`OtlpPayloadLogger.StopFailsExactlyWhenLate`). With a batch size of 0 it
  never drains at all (`OtlpPayloadLogger.ZeroSizesAreUseless`).
- The built-in configuration adapter alone accepts any text as a queue policy; only the document validation in
  front of it makes its output readable (`ConfigurationPipeline.ReadableExactlyWhenPolicyIsKnown`). Numbers that
  do not fit a setting's width are cut, not refused (`ConfigurationPipeline.ConversionsAreExactInRange`).

## Model

| member | source | states |
|---|---|---|
| `MpscRing.NewRingInv` | include/logit_cpp/logit/detail/MpscRingAny.hpp:35-43 | a new ring, its capacity raised to at least two, meets the ring invariant |
| `MpscRing.StorageIsExclusive` | include/logit_cpp/logit/detail/MpscRingAny.hpp:99-107 | in every interleaving two producers never build into the same cell, and none builds into the cell the consumer is emptying |
| `MpscRing.PushStepKeeps` | include/logit_cpp/logit/detail/MpscRingAny.hpp:87-119 | every atomic operation of any producer keeps the invariant, with stale positions and spurious failures |
| `MpscRing.PopStepKeeps` | include/logit_cpp/logit/detail/MpscRingAny.hpp:123-153 | so does every atomic operation of the consumer |
| `MpscRing.RunKeeps` | include/logit_cpp/logit/detail/MpscRingAny.hpp:87-153 | the invariant holds throughout every interleaving of any number of producers and the consumer |
| `MpscRing.PoppedIsPrefixOfClaimed` | include/logit_cpp/logit/detail/MpscRingAny.hpp:87-153 | in every interleaving the popped values are a prefix of the values in claim order, and claimed minus released stays within the capacity |
| `MpscRing.ClaimsOnlyGrow` | include/logit_cpp/logit/detail/MpscRingAny.hpp:87-153 | along a run neither history is ever cut or reordered |
| `MpscRing.PopReturnsNext` | include/logit_cpp/logit/detail/MpscRingAny.hpp:123-153 | a pop hands over the next value in claim order |
| `MpscRing.ConsumerIsNeverBlocked` | include/logit_cpp/logit/detail/MpscRingAny.hpp:123-153 | in every interleaving a pop that has not returned can take its next step, and no step of a producer moves it |
| `MpscRing.PopStepsAreBounded` | include/logit_cpp/logit/detail/MpscRingAny.hpp:123-153 | in every interleaving a pop takes at most five steps that do not fail spuriously, and two more for each that does |
| `MpscRing.SpuriousFailureRestartsPop` | include/logit_cpp/logit/detail/MpscRingAny.hpp:133-141 | a pop whose weak exchange fails spuriously is back where it began, so that no bound holds without counting those failures |
| `MpscRing.FullVerdictIsTruthful` | include/logit_cpp/logit/detail/MpscRingAny.hpp:87-119 | `try_push` says full only at an instant at which every cell is claimed and unreleased, and changes nothing |
| `MpscRing.EmptyVerdictIsTruthful` | include/logit_cpp/logit/detail/MpscRingAny.hpp:123-153 | `try_pop` says empty only if nothing is claimed or the next value is still being built by its producer |
| `MpscRing.LivePositionsHaveOwnCells` | include/logit_cpp/logit/detail/MpscRingAny.hpp:87-153 | two live positions never share a cell |
| `MpscRing.OneCellLosesValues` | include/logit_cpp/logit/detail/MpscRingAny.hpp:35-43 | with one cell two pushes succeed, the first value is lost and the consumer finds nothing: the clamp is necessary |
| `MpscRing.PushPublishes` | include/logit_cpp/logit/detail/MpscRingAny.hpp:104-109 | of all steps of a push, exactly the last store makes exactly its position visible to the consumer |
| `MpscRing.PopWithdraws` | include/logit_cpp/logit/detail/MpscRingAny.hpp:123-153 | a pop takes away exactly the head position and disturbs no other |
| `MpscRing.QuietHeadIsPublished` | include/logit_cpp/logit/detail/MpscRingAny.hpp:156-166 | with no push in progress, a non-empty ring has its head published, so `empty` tells the truth |
| `MpscRing.RingBuffer.constructor` | include/logit_cpp/logit/detail/MpscRingAny.hpp:35-43 | an empty ring over at least two cells |
| `MpscRing.RingBuffer.TryPush` | include/logit_cpp/logit/detail/MpscRingAny.hpp:87-119 | uninterrupted, it appends the item exactly when there is room, and otherwise changes nothing |
| `MpscRing.RingBuffer.TryPop` | include/logit_cpp/logit/detail/MpscRingAny.hpp:123-153 | uninterrupted, it removes the oldest value exactly when there is one |
| `MpscRing.RingBuffer.Empty` | include/logit_cpp/logit/detail/MpscRingAny.hpp:156-166 | uninterrupted, it is true exactly when the ring holds nothing |
| `MpscRing.RingBuffer.DestroyAll` | include/logit_cpp/logit/detail/MpscRingAny.hpp:169-187 | it destroys exactly the values pushed and not popped, oldest first |
| `TaskExecutorSafety.StepKeepsInv` | include/logit_cpp/logit/detail/TaskExecutor.hpp:215-395 | every step of every thread keeps the executor's invariant |
| `TaskExecutorSafety.PushMovesTicket` | include/logit_cpp/logit/detail/TaskExecutor.hpp:215-279 | of all steps of a push, exactly the publishing store moves a ticket from its producer to the published positions of the ring |
| `TaskExecutorSafety.WorkKeepsConserved` | include/logit_cpp/logit/detail/TaskExecutor.hpp:480-503 | the worker moves tickets from the ring through its hands to settlement without losing one |
| `TaskExecutorSafety.StopSeenInsideIsShutdown` | include/logit_cpp/logit/detail/TaskExecutor.hpp:560-590 | a producer past the barrier sees the stop flag only when a shutdown raised it, never a resize |
| `TaskExecutorSafety.SwapFindsNothing` | include/logit_cpp/logit/detail/TaskExecutor.hpp:360-390 | when the ring is replaced nobody is inside, the worker is gone, the ring is empty and every ticket is settled |
| `TaskExecutorSafety.EmptyTestWithNobodyInside` | include/logit_cpp/logit/detail/TaskExecutor.hpp:504-512 | with nobody inside, an empty verdict means that everything accepted was taken |
| `TaskExecutorRuns.RunKeepsInv` | include/logit_cpp/logit/detail/TaskExecutor.hpp:186-615 | the invariant holds in every state of every run |
| `TaskExecutorRuns.TicketConservation` | include/logit_cpp/logit/detail/TaskExecutor.hpp:215-277 | submitted tickets are the completed ones, those held by producers, those published in the ring and the one with the worker |
| `TaskExecutorRuns.RunsInAcceptanceOrder` | include/logit_cpp/logit/detail/TaskExecutor.hpp:480-503 | what ran is a prefix of what was accepted, across all the rings of a run, and nothing runs twice |
| `TaskExecutorRuns.SettledOnceForGood` | include/logit_cpp/logit/detail/TaskExecutor.hpp:552-558 | a settled ticket keeps its outcome for ever; executed ones ran, dropped and rejected ones never do; the counter counts them |
| `TaskExecutorRuns.OutcomeMatchesExecution` | include/logit_cpp/logit/detail/TaskExecutor.hpp:552-558 | a settled ticket is recorded as executed exactly when its task ran |
| `TaskExecutorRuns.WaitGuarantee` | include/logit_cpp/logit/detail/TaskExecutor.hpp:282-305 | unless a shutdown has begun, when `wait` ends, even through the stop flag of a resize, every reserved ticket is settled, by execution or by a counted drop |
| `TaskExecutorRuns.ResizeLosesNothing` | include/logit_cpp/logit/detail/TaskExecutor.hpp:335-395 | a resize replaces the ring only when everything accepted has run, and keeps every ticket's history |
| `TaskExecutorRuns.OnlySwapTouchesQueue` | include/logit_cpp/logit/detail/TaskExecutor.hpp:335-395 | no other step of the managing thread changes the ring, the limit or a ticket |
| `TaskExecutorRuns.AbortedResizeChangesNothing` | include/logit_cpp/logit/detail/TaskExecutor.hpp:335-361 | a resize that misses its deadline has not replaced the ring: the limit and the capacity are as they were, and the tasks in the ring have only moved on |
| `TaskExecutorRuns.ResizeNeverRejects` | include/logit_cpp/logit/detail/TaskExecutor.hpp:226-230 | a submission is rejected only after a real shutdown has begun |
| `TaskExecutorRuns.ExitDrains` | include/logit_cpp/logit/detail/TaskExecutor.hpp:480-521 | if nobody is inside `add_task` from the worker's last emptiness test to its exit, the ring is empty, every ticket settled and every accepted task has run |
| `TaskExecutorRuns.AtSuccessfulTest` | include/logit_cpp/logit/detail/TaskExecutor.hpp:505-505 | at an empty verdict everything accepted has run if and only if no claimed cell is still unpublished |
| `TaskExecutorRuns.ExitDrainsExactlyWhen` | include/logit_cpp/logit/detail/TaskExecutor.hpp:308-330 | a worker's exit leaves everything run if and only if no claim was pending at its last emptiness test and none was made since |
| `TaskExecutorRuns.WaitDrains` | include/logit_cpp/logit/detail/TaskExecutor.hpp:282-330 | once a `wait` has ended with no shutdown begun, everything accepted has run, and stays so through a shutdown and the worker's exit until another ticket is reserved |
| `TaskExecutorRuns.WaitThenShutdownDrains` | include/logit_cpp/logit/detail/TaskExecutor.hpp:282-330 | if no `add_task` is under way when that `wait` ends and none is called afterwards, a shutdown leaves nothing behind |
| `TaskExecutorRuns.ExitAfterShutdownIsFinal` | include/logit_cpp/logit/detail/TaskExecutor.hpp:308-330 | once a shutdown has begun and the worker is gone, nothing runs on any continuation, and an accepted task that had not run is never settled |
| `TaskExecutorRuns.DropCounterCountsDrops` | include/logit_cpp/logit/detail/TaskExecutor.hpp:405-412 | between resets the drop counter grows by exactly the number of tickets dropped, and a reset starts it at zero |
| `BlockLimit.LimitReachedExactlyWhen` | include/logit_cpp/logit/detail/TaskExecutor.hpp:234-242 | on every run the in-flight test of Block turns a producer back exactly at limit one, while the worker is at a pop or a task |
| `BlockLimit.HoldsBackExactlyAtOne` | include/logit_cpp/logit/detail/TaskExecutor.hpp:234-242 | a producer held back by the in-flight test is reachable under a limit if and only if the limit is one |
| `BlockLimit.CapacityFollowsLimit` | include/logit_cpp/logit/detail/TaskExecutor.hpp:374-380 | on every run the ring has the capacity its limit asks for: 1024 for 0, otherwise the limit, at least two |
| `BlockLimit.BacklogIsBounded` | include/logit_cpp/logit/detail/TaskExecutor.hpp:215-279 | on every run the tasks accepted and not started are at most that capacity and one |
| `BlockLimit.BacklogMeetsBound` | include/logit_cpp/logit/detail/TaskExecutor.hpp:215-279 | under Block and every limit a run reaches that bound, so no limit keeps the backlog within itself |
| `TaskExecutorRequests.ResizeSetsTheSize` | include/logit_cpp/logit/detail/TaskExecutor.hpp:335-395 | a resize that replaces the ring leaves the limit it was called with and the cells which that limit asks for, 1024 for 0 and otherwise at least two, until the next replacement |
| `TaskExecutorRequests.PolicyFollowsTheCall` | include/logit_cpp/logit/detail/TaskExecutor.hpp:398-403 | `set_queue_policy` puts the policy it was called with in force, unless a stop is up, until the next change |
| `TaskExecutorRequests.CallsUseThePolicyInForce` | include/logit_cpp/logit/detail/TaskExecutor.hpp:232-232 | while one policy is in force every `add_task` works with it |
| `TaskExecutorRequests.OverflowIsDropped` | include/logit_cpp/logit/detail/TaskExecutor.hpp:255-270 | a push that finds the ring full in a call with a dropping policy is the ticket's last: it is never accepted, and settled as dropped if at all |
| `TaskExecutorRequests.DropHasACause` | include/logit_cpp/logit/detail/TaskExecutor.hpp:255-270 | every dropped ticket has found the ring full in a call with a dropping policy |
| `TaskExecutorRequests.BlockNeverDrops` | include/logit_cpp/logit/detail/TaskExecutor.hpp:271-275 | on every run that asks for no dropping policy nothing is dropped, and every settled ticket has run or was rejected after a shutdown had begun |
| `TaskExecutorRequests.ShutdownEndsTheWorker` | include/logit_cpp/logit/detail/TaskExecutor.hpp:308-330 | when `shutdown` has returned the worker is gone, then and ever after, and nothing runs any more |
| `TaskExecutorRequests.LateTasksAreRejected` | include/logit_cpp/logit/detail/TaskExecutor.hpp:226-230 | a ticket reserved after a shutdown raised the stop flag is never accepted, and settled as rejected if at all |
| `StrandedTask.ShutdownMayStrandATask` | include/logit_cpp/logit/detail/TaskExecutor.hpp:504-512 | a run that passes a state in which `add_task` has returned and no shutdown has begun, and in which the task is still in the ring, unsettled, after `shutdown` has returned |
| `SingleThreadExecutor.StepKeepsInv` | include/logit_cpp/logit/detail/SingleThreadExecutor.hpp:66-206 | every critical section keeps the executor's invariant |
| `SingleThreadExecutor.QueueIsTheRest` | include/logit_cpp/logit/detail/SingleThreadExecutor.hpp:66-94 | tasks taken or evicted are a prefix of acceptance order, the queue is the rest, and the drop counter counts the evicted removals and the refused tasks since its reset |
| `SingleThreadExecutor.DropCounterCountsOverflows` | include/logit_cpp/logit/detail/SingleThreadExecutor.hpp:66-94 | between resets the drop counter grows by one exactly at the calls that meet a full queue under a dropping policy |
| `SingleThreadExecutor.Split` | include/logit_cpp/logit/detail/SingleThreadExecutor.hpp:66-206 | what left the queue is, with multiplicity, what was taken and what was evicted |
| `SingleThreadExecutor.ExitHasRunEverything` | include/logit_cpp/logit/detail/SingleThreadExecutor.hpp:174-206 | when the worker exits the queue is empty and every accepted task ran or was evicted |
| `SingleThreadExecutor.WaitHasRunEverything` | include/logit_cpp/logit/detail/SingleThreadExecutor.hpp:100-106 | the same at the instant `wait` returns |
| `SingleThreadExecutor.RemainingWorkIsFixed` | include/logit_cpp/logit/detail/SingleThreadExecutor.hpp:113-129 | after stop nothing is accepted, and queue length plus active count goes down exactly as tasks finish; an exit is for good |
| `SingleThreadExecutor.AcceptanceRespectsLimit` | include/logit_cpp/logit/detail/SingleThreadExecutor.hpp:66-94 | no step takes a queue past its limit |
| `SingleThreadExecutor.BlockNeverDrops` | include/logit_cpp/logit/detail/SingleThreadExecutor.hpp:66-94 | under Block a task is accepted or its thread sleeps with it |
| `SingleThreadExecutor.AddByPolicy` | include/logit_cpp/logit/detail/SingleThreadExecutor.hpp:66-94 | with room the task goes to the end of the queue; without, DropNewest refuses it and touches nothing else, DropOldest gives up the head for it, Block puts the thread to sleep with it |
| `SingleThreadExecutor.DropCounterSinceReset` | include/logit_cpp/logit/detail/SingleThreadExecutor.hpp:153-160 | the drop counter is the number of calls that overflowed since the last reset, or since the start |
| `SingleThreadExecutor.SettingsFollowTheCalls` | include/logit_cpp/logit/detail/SingleThreadExecutor.hpp:113-150 | on every run the limit and the policy are those asked for last before the stop, and a stop is for good |
| `SingleThreadExecutor.Executor.constructor` | include/logit_cpp/logit/detail/SingleThreadExecutor.hpp:44-53 | a fresh executor is the initial state of the machine |
| `SingleThreadExecutor.Executor.AddTask` | include/logit_cpp/logit/detail/SingleThreadExecutor.hpp:66-94 | `add_task` up to its return or sleep is one step of the machine, and leaves the queue that its policy promises |
| `SingleThreadExecutor.Executor.ResumeAdd` | include/logit_cpp/logit/detail/SingleThreadExecutor.hpp:66-94 | so is the rest after the sleep |
| `SingleThreadExecutor.Executor.RequestStop` | include/logit_cpp/logit/detail/SingleThreadExecutor.hpp:113-129 | so is the stop request |
| `SingleThreadExecutor.Executor.TakeTask` | include/logit_cpp/logit/detail/SingleThreadExecutor.hpp:174-206 | so is the worker's first critical section |
| `SingleThreadExecutor.Executor.FinishTask` | include/logit_cpp/logit/detail/SingleThreadExecutor.hpp:174-206 | so is its second |
| `SingleThreadExecutor.Executor.DrainLoop` | include/logit_cpp/logit/detail/SingleThreadExecutor.hpp:174-206 | the worker's loop ends after a stop, having run the whole queue in order |
| `CooperativeExecutor.StepKeepsInv` | include/logit_cpp/logit/detail/SingleThreadExecutor.hpp:234-381 | every call and return keeps the invariant of the call stack and the queue |
| `CooperativeExecutor.WorkIsNeverStranded` | include/logit_cpp/logit/detail/SingleThreadExecutor.hpp:234-285 | under any re-entrancy, queued work has a drain loop on the stack, a pending callback, or an `add_task` about to make one |
| `CooperativeExecutor.BlockDrainsAtMostOnce` | include/logit_cpp/logit/detail/SingleThreadExecutor.hpp:234-285 | the Block retry loop drains at most once and its second attempt finds room |
| `CooperativeExecutor.RemovedIsPrefixOfAccepted` | include/logit_cpp/logit/detail/SingleThreadExecutor.hpp:362-381 | tasks leave in acceptance order, re-entrant ones included; those not evicted are, in order, the tasks that ran; the drop counter counts the evicted and refused ones since its reset |
| `CooperativeExecutor.RunsTheHead` | include/logit_cpp/logit/detail/SingleThreadExecutor.hpp:362-381 | the code of a task is only ever entered by a drain loop, and the task is the head of the queue, which it leaves |
| `CooperativeExecutor.BlockRunsEverythingInOrder` | include/logit_cpp/logit/detail/SingleThreadExecutor.hpp:234-285 | on every run that asks for no dropping policy what ran, then what is queued, is what was accepted, and nothing is counted as dropped |
| `CooperativeExecutor.AddByPolicy` | include/logit_cpp/logit/detail/SingleThreadExecutor.hpp:234-281 | each attempt of `add_task` leaves the queue that its policy promises; under Block a full queue is drained before the task is tried again |
| `CooperativeExecutor.DropCounterSinceReset` | include/logit_cpp/logit/detail/SingleThreadExecutor.hpp:323-329 | after a reset the drop counter is the number of attempts that overflowed since |
| `CooperativeExecutor.SettingsFollowTheCalls` | include/logit_cpp/logit/detail/SingleThreadExecutor.hpp:308-321 | on every run the limit and the policy are those asked for last before the shutdown |
| `CooperativeExecutor.DrainReturnsWithEmptyQueue` | include/logit_cpp/logit/detail/SingleThreadExecutor.hpp:287-303 | when `wait`, the first `shutdown` or a callback returns, whatever ran inside it, the queue is empty |
| `CooperativeExecutor.DrainedAfterShutdown` | include/logit_cpp/logit/detail/SingleThreadExecutor.hpp:295-303 | once a drain has ended after shutdown, the queue is empty and nothing is accepted, for good |
| `ConsoleLogger.SelectStreamFor` | include/logit_cpp/logit/loggers/ConsoleLogger.hpp:380-395 | the stream is that of the first route whose range holds the level and which names one, standard output, standard error or its own, and without one the primary stream |
| `ConsoleLoggerSafety.StepKeepsInv` | include/logit_cpp/logit/loggers/ConsoleLogger.hpp:170-468 | every step of `log`, `set_config`, `shutdown` and the executors keeps the logger's invariant |
| `ConsoleLoggerSafety.AtMostOnce` | include/logit_cpp/logit/loggers/ConsoleLogger.hpp:249-271 | no line is written twice and none that was not admitted |
| `ConsoleLoggerSafety.ShutdownIsUnderWayOrDone` | include/logit_cpp/logit/loggers/ConsoleLogger.hpp:346-362 | once the flag is up the executor has been taken away or some call of `shutdown` is still about to |
| `ConsoleLoggerSafety.ExactlyOnce` | include/logit_cpp/logit/loggers/ConsoleLogger.hpp:346-362 | once the shutdown flag is up and no call is still taking an executor away or stopping one, each admitted line has been written exactly once |
| `ConsoleLoggerSafety.CarrierFindsOpenExecutor` | include/logit_cpp/logit/loggers/ConsoleLogger.hpp:441-468 | the pending counter keeps the executor a thread carries a line to from being stopped |
| `ConsoleLoggerSafety.NoTaskReachesAStoppedExecutor` | include/logit_cpp/logit/loggers/ConsoleLogger.hpp:259-271 | in every state of every run a thread on its way to an executor finds it unstopped |
| `ConsoleLoggerSafety.StreamOfTheCall` | include/logit_cpp/logit/loggers/ConsoleLogger.hpp:249-258 | a line goes to the stream that the routes in force when it is admitted promise for its level, whatever is configured later |
| `ConsoleLoggerOrder.StepKeepsOrder` | include/logit_cpp/logit/loggers/ConsoleLogger.hpp:170-468 | with every step, what each executor has written is what it is done with, in that order |
| `ConsoleLoggerOrder.WritesFollowAcceptance` | include/logit_cpp/logit/loggers/ConsoleLogger.hpp:259-271 | in every interleaving an executor's lines are written in the order it accepted them, none skipped |
| `ConsoleLoggerOrder.EarlierCallIsWrittenFirst` | include/logit_cpp/logit/loggers/ConsoleLogger.hpp:249-271 | once an executor has accepted a line, every line admitted later that goes to it is written after that line: calls that do not overlap are written in order |
| `ConsoleLoggerWait.OverlappingCallsMayBeReversed` | include/logit_cpp/logit/loggers/ConsoleLogger.hpp:255-271 | a run in which two overlapping calls are written in the other order than they were admitted |
| `ConsoleLoggerWait.WaitWrites` | include/logit_cpp/logit/loggers/ConsoleLogger.hpp:332-343 | when `wait` returns, every line admitted by its critical section has been written exactly once, unless it was then unwritten with an executor being closed |
| `ConsoleLoggerWait.WaitMayMiss` | include/logit_cpp/logit/loggers/ConsoleLogger.hpp:332-343 | for every such line the run can go on so that `wait` returns before the line is written: the condition is exact |
| `ConsoleLoggerWait.WaitMayReturnBeforeALineIsWritten` | include/logit_cpp/logit/loggers/ConsoleLogger.hpp:335-336 | such a line is reachable with no shutdown begun and every call of `log` returned |
| `ConsoleLoggerSettings.ConfigFollowsTheCall` | include/logit_cpp/logit/loggers/ConsoleLogger.hpp:170-193 | a `set_config` that is applied puts the configuration it was called with in force until another is applied |
| `ConsoleLoggerSettings.ExecutorFollowsConfig` | include/logit_cpp/logit/loggers/ConsoleLogger.hpp:420-430 | on every run the executor in use has the queue limit and the policy of the configuration in force |
| `ConsoleLoggerSettings.StreamFollowsTheCall` | include/logit_cpp/logit/loggers/ConsoleLogger.hpp:249-258 | from the call on: the stream of a message is the one promised for the level it was called with |
| `ConsoleLoggerSettings.NothingAdmittedAfterShutdown` | include/logit_cpp/logit/loggers/ConsoleLogger.hpp:249-250 | once the shutdown flag is up no line is admitted any more |
| `ConsoleLoggerSettings.ShutdownIsForGood` | include/logit_cpp/logit/loggers/ConsoleLogger.hpp:346-347 | a `shutdown` raises the flag for good |
| `LoggerRegistry.StepKeepsInv` | include/logit_cpp/logit/Logger.hpp:64-605 | every step of `add_logger`, `log`, `shutdown` and the flag setters keeps the registry's invariant |
| `LoggerRegistry.SnapshotFollowsRegistry` | include/logit_cpp/logit/Logger.hpp:171-216 | with the registry lock free the snapshot is the registry and lock-free dispatch visits whom the legacy path would, targeted or not; otherwise it lacks at most the strategy being published |
| `LoggerRegistry.Dispatch` | include/logit_cpp/logit/Logger.hpp:171-216 | undisturbed, a record is delivered in order to exactly the strategies that the legacy path would visit and whose flags let it pass |
| `LoggerRegistry.FilterLaws` | include/logit_cpp/logit/Logger.hpp:564-575 | broadcasting reaches what addressing each strategy would, but for single mode; raw and severer records pass wherever a record passes |
| `LoggerRegistryDelivery.RecordOfTheCall` | include/logit_cpp/logit/Logger.hpp:171-216 | a call of `log` carries its own record to its end, and one that begins after the shutdown flag is up gets no further than its first check |
| `LoggerRegistryDelivery.VisitsInOrder` | include/logit_cpp/logit/Logger.hpp:171-216 | in every interleaving a record visits the strategies it is meant for one by one in the order of the snapshot it loaded, skipping and repeating none |
| `LoggerRegistryDelivery.DeliveredExactlyWhen` | include/logit_cpp/logit/Logger.hpp:564-575 | at its check a record goes on to the backend exactly when no shutdown has begun, the strategy is enabled, it is addressed or single mode is off, and it is raw or severe enough |
| `LoggerRegistryDelivery.DeliveryWasAllowed` | include/logit_cpp/logit/Logger.hpp:551-575 | no backend ever has a record that did not pass such a check before the shutdown |
| `LoggerRegistryDelivery.RegisteredAsCalled` | include/logit_cpp/logit/Logger.hpp:64-85 | the strategy that `add_logger` registers comes last and has the mode and the flags it was called with |
| `LoggerRegistryDelivery.FlagsFollowTheCalls` | include/logit_cpp/logit/Logger.hpp:88-155 | a strategy keeps its mode for good, and its flags until a setter changes them to what it was given |
| `LoggerRegistry.EachStrategyClosedOnce` | include/logit_cpp/logit/Logger.hpp:526-536 | no strategy is shut down twice, and when `shutdown` has finished every registered one was, once |
| `LoggerRegistry.NoLogAfterClose` | include/logit_cpp/logit/Logger.hpp:551-575 | on a serialized strategy no `log()` begins after its `shutdown()` or runs beside it |
| `LoggerRegistry.SerializedStrategiesAreExclusive` | include/logit_cpp/logit/Logger.hpp:551-562 | two threads are inside the same strategy only if it is concurrent |
| `LoggerRegistry.LateLogExactlyWhenConcurrent` | include/logit_cpp/logit/Logger.hpp:551-575 | a `log()` after the strategy's `shutdown()` is reachable if and only if the strategy is concurrent |
| `PayloadSplitter.SplitBatch` | include/logit_cpp/logit/loggers/otlp/OtlpPayloadSplitter.hpp:20-61 | the chunks are the batch cut in order; each fits the limit or is a single record, and none could have taken one record more |
| `OtlpPayloadLogger.StepKeepsInv` | include/logit_cpp/logit/loggers/OtlpPayloadLogger.hpp:73-315 | every critical section keeps the logger's invariant |
| `OtlpPayloadLogger.Conservation` | include/logit_cpp/logit/loggers/OtlpPayloadLogger.hpp:108-132 | exported batches, then the batch in flight, then the queue are the accepted records; queue and batch bounds hold; the drop counter counts the refused; every call ended in one or the other or sleeps |
| `OtlpPayloadLogger.LogByOverflow` | include/logit_cpp/logit/loggers/OtlpPayloadLogger.hpp:108-132 | a stopping logger refuses, a queue with room takes the record at its end, and a full one refuses it when overflow drops and puts its thread to sleep otherwise |
| `OtlpPayloadLogger.BatchIsTheHead` | include/logit_cpp/logit/loggers/OtlpPayloadLogger.hpp:248-275 | a batch is the head of the queue, as long as queue and batch size allow |
| `OtlpPayloadLogger.WaitMeansExported` | include/logit_cpp/logit/loggers/OtlpPayloadLogger.hpp:136-145 | `wait` returns only when everything accepted has been exported |
| `OtlpPayloadLogger.ExportedExactlyWhen` | include/logit_cpp/logit/loggers/OtlpPayloadLogger.hpp:136-145 | on every run everything accepted is exported exactly when nothing is queued or in flight |
| `OtlpPayloadLogger.StopDrains` | include/logit_cpp/logit/loggers/OtlpPayloadLogger.hpp:300-315 | when the stopping call has returned everything accepted is exported, and nothing is accepted or exported after |
| `OtlpPayloadLogger.ZeroSizesAreUseless` | include/logit_cpp/logit/loggers/OtlpPayloadLogger.hpp:243-298 | with batch size 0 nothing is ever exported and a logger that holds a record never stops; with queue size 0 nothing is ever accepted |
| `OtlpPayloadLogger.SecondStopMayReturnEarly` | include/logit_cpp/logit/loggers/OtlpPayloadLogger.hpp:300-308 | a run in which a second `stop` has returned with a record still queued |
| `OtlpPayloadLogger.StopFailsExactlyWhenLate` | include/logit_cpp/logit/loggers/OtlpPayloadLogger.hpp:300-315 | a `stop` that found the stop flag in a given state can have returned with accepted records unexported if and only if it found the flag up and the queue size is positive |
| `OtlpPayloadLogger.Logger.constructor` | include/logit_cpp/logit/loggers/OtlpPayloadLogger.hpp:55-60 | a fresh logger is the initial state |
| `OtlpPayloadLogger.Logger.Log` | include/logit_cpp/logit/loggers/OtlpPayloadLogger.hpp:108-132 | `log` up to its return or sleep is one step of the machine |
| `OtlpPayloadLogger.Logger.ResumeLog` | include/logit_cpp/logit/loggers/OtlpPayloadLogger.hpp:120-132 | so is the rest after the sleep |
| `OtlpPayloadLogger.Logger.TakeBatch` | include/logit_cpp/logit/loggers/OtlpPayloadLogger.hpp:248-275 | the filling loop takes the longest head of the queue that fits a batch |
| `OtlpPayloadLogger.Logger.Deliver` | include/logit_cpp/logit/loggers/OtlpPayloadLogger.hpp:277-297 | delivery and the return to idle are two steps of the machine |
| `OtlpPayloadLogger.Logger.Stop` | include/logit_cpp/logit/loggers/OtlpPayloadLogger.hpp:300-315 | the first caller, and only it, goes on to join |
| `OtlpPayloadLogger.Logger.DrainLoop` | include/logit_cpp/logit/loggers/OtlpPayloadLogger.hpp:243-298 | with a positive batch size the worker's loop ends after a stop, everything exported in order |
| `CrashRing.CutIsInvisible` | include/logit_cpp/logit/loggers/CrashPosixLogger.hpp:98-111 | cutting an over-long message does not change the last bytes of the stream |
| `CrashRing.PutAllHolds` | include/logit_cpp/logit/loggers/CrashPosixLogger.hpp:113-130 | storing bytes one by one around the ring keeps it holding the last bytes |
| `CrashRing.PutAllIsBlockCopy` | include/logit_cpp/logit/loggers/CrashPosixLogger.hpp:117-127 | where no wrap falls inside, that is one block copy |
| `CrashRing.StoringRemembers` | include/logit_cpp/logit/loggers/CrashPosixLogger.hpp:88-138 | the ring that held the last bytes of the stream holds those of the stream and the new, uncut message and newline |
| `CrashRing.ReadsBack` | include/logit_cpp/logit/loggers/CrashPosixLogger.hpp:203-222 | reading the ring in two pieces gives the last bytes of the stream |
| `CrashRing.CrashLogger.constructor` | include/logit_cpp/logit/loggers/CrashPosixLogger.hpp:52-57 | the capacity is the configured size, at least 1 and at most 65536 |
| `CrashRing.CrashLogger.Log` | include/logit_cpp/logit/loggers/CrashPosixLogger.hpp:88-138 | a message that passes the level filter is added to the stream that the ring remembers |
| `CrashRing.CrashLogger.Store` | include/logit_cpp/logit/loggers/CrashPosixLogger.hpp:113-130 | the copies in two parts and the newline equal storing byte by byte around the ring |
| `CrashRing.CrashLogger.Snapshot` | include/logit_cpp/logit/loggers/CrashPosixLogger.hpp:198-222 | a crash writes exactly the last `capacity` bytes of everything logged |
| `CrashRing.RunThenCrash` | include/logit_cpp/logit/loggers/CrashPosixLogger.hpp:88-219 | for every buffer size and every sequence of messages and level changes, the dump is the tail of the untruncated stream |
| `CrashRing.Marker` | include/logit_cpp/logit/loggers/CrashPosixLogger.hpp:242-279 | the marker is the fixed text around the signal's decimal number and always fits its 64 bytes |
| `CrashRing.ReversedDigits` | include/logit_cpp/logit/loggers/CrashPosixLogger.hpp:259-269 | repeated division yields the decimal digits backwards, within its 32 bytes |
| `Decimal.ReadText` | include/logit_cpp/logit/formatter/SimpleLogFormatter.hpp:116-121 | a printed integer reads back, whatever non-digit follows |
| `BigEndian.ValueOfBytes` | include/logit_cpp/logit/detail/MdbxByteIO.hpp:24-34 | the bytes of a number that fits the width denote the number |
| `BigEndian.BytesOfValue` | include/logit_cpp/logit/detail/MdbxByteIO.hpp:74-90 | the number that bytes denote has those bytes |
| `BigEndian.BeforeIsLess` | include/logit_cpp/logit/detail/MdbxKeyUtils.hpp:15-25 | between big-endian strings of one width, byte order is numeric order |
| `ByteCodec.Layout` | include/logit_cpp/logit/detail/MdbxByteIO.hpp:20-48 | each field takes its width and denotes its number with the highest byte first, signed ones modulo 2^64, strings behind their length |
| `ByteCodec.ParseEncoded` | include/logit_cpp/logit/detail/MdbxByteIO.hpp:20-105 | one field read back from what was written, with the rest intact |
| `ByteCodec.EncodeParsed` | include/logit_cpp/logit/detail/MdbxByteIO.hpp:69-105 | one field read is what writing it would have produced |
| `ByteCodec.RoundTrip` | include/logit_cpp/logit/detail/MdbxByteIO.hpp:20-111 | reading what was written returns the fields, and `finish` succeeds |
| `ByteCodec.AcceptedReencodes` | include/logit_cpp/logit/detail/MdbxByteIO.hpp:60-121 | whatever is accepted is exactly the encoding of its fields |
| `ByteCodec.PrefixRejected` | include/logit_cpp/logit/detail/MdbxByteIO.hpp:117-121 | every strict prefix of a value is refused |
| `ByteCodec.TrailingRejected` | include/logit_cpp/logit/detail/MdbxByteIO.hpp:107-111 | every value with bytes added is refused |
| `ByteCodec.ByteWriter.WriteShifted` | include/logit_cpp/logit/detail/MdbxByteIO.hpp:24-34 | the shift loop appends the big-endian bytes |
| `ByteCodec.ByteWriter.WriteString` | include/logit_cpp/logit/detail/MdbxByteIO.hpp:42-48 | length and text are appended, or the string is too long and nothing is |
| `ByteCodec.ByteWriter.Write` | include/logit_cpp/logit/detail/MdbxByteIO.hpp:20-48 | a field is appended in its encoding, and refused exactly when it is a string beyond 32 bits of length |
| `ByteCodec.ByteReader.ReadShifted` | include/logit_cpp/logit/detail/MdbxByteIO.hpp:74-90 | the accumulation loop reads the number, or fails exactly when bytes are missing |
| `ByteCodec.ByteReader.ReadString` | include/logit_cpp/logit/detail/MdbxByteIO.hpp:99-105 | length and text are read, or it fails exactly when bytes are missing |
| `ByteCodec.ByteReader.Read` | include/logit_cpp/logit/detail/MdbxByteIO.hpp:69-105 | a field of each kind is read as the parser says |
| `ByteCodec.ByteReader.Finish` | include/logit_cpp/logit/detail/MdbxByteIO.hpp:107-111 | it succeeds exactly at the end |
| `ByteCodec.WriteAll` | include/logit_cpp/logit/detail/MdbxByteIO.hpp:20-48 | writing the fields one after another gives their encoding, or is refused exactly when one of them is |
| `ByteCodec.ReadAll` | include/logit_cpp/logit/detail/MdbxByteIO.hpp:60-121 | reading by a schema and finishing succeeds exactly when the value decodes; a null value of non-zero size is its own error |
| `RecordKey.FlipTopIsXor` | include/logit_cpp/logit/detail/MdbxKeyUtils.hpp:29-29 | the machine's exclusive or with the top bit is, on the numbers that words denote, the flip that the key uses |
| `RecordKey.WriteBigEndian` | include/logit_cpp/logit/detail/MdbxKeyUtils.hpp:15-25 | the shift loop overwrites exactly its part of the key with the big-endian bytes |
| `RecordKey.MakeRecordKey` | include/logit_cpp/logit/detail/MdbxKeyUtils.hpp:27-33 | the key is the flipped timestamp and the sequence number |
| `RecordKey.KeysAreOrdered` | include/logit_cpp/logit/detail/MdbxKeyUtils.hpp:27-33 | byte order of keys is the order of (timestamp, sequence), and equal keys mean equal records |
| `RecordKey.RangeIsInterval` | include/logit_cpp/logit/detail/MdbxKeyUtils.hpp:27-33 | the keys from key(from, 0) up to key(to, 0) are exactly those with from <= timestamp < to |
| `Json.StringRoundTrip` | include/logit_cpp/logit/formatter/SimpleLogFormatter.hpp:145-166 | a string reader after section 7 of RFC 8259 returns any escaped string and exactly what follows its closing quote |
| `Json.EscapesOfTheStandard` | include/logit_cpp/logit/formatter/SimpleLogFormatter.hpp:145-166 | the two-character escapes are those of section 7 of RFC 8259, and exactly the other printable characters stand for themselves |
| `Json.EscapeIsQuotable` | include/logit_cpp/logit/formatter/SimpleLogFormatter.hpp:145-166 | escaped text has no control character and no quote that is not escaped |
| `Json.EscapeJsonString` | include/logit_cpp/logit/formatter/SimpleLogFormatter.hpp:145-166 | the escaping loop produces such text |
| `Json.ParseShown` | include/logit_cpp/logit/formatter/SimpleLogFormatter.hpp:114-136 | every JSON value in the formatter's style is read back, whatever follows |
| `JsonFormatter.FormatArgs` | include/logit_cpp/logit/formatter/SimpleLogFormatter.hpp:126-129 | the argument loop prints the array of all argument texts in order |
| `JsonFormatter.FormatAsJson` | include/logit_cpp/logit/formatter/SimpleLogFormatter.hpp:114-136 | the output is a JSON object, and reading it gives back every field and argument under its name |
| `JsonFormatter.MeaningDescribes` | include/logit_cpp/logit/formatter/SimpleLogFormatter.hpp:114-136 | looked up by name, each member of the object carries the field of the record that it is named after |
| `JsonFormatter.TextDeterminesRecord` | include/logit_cpp/logit/formatter/SimpleLogFormatter.hpp:114-136 | two records with the same output agree in every printed field |
| `ConfigurationModel.NamesAreFaithful` | include/logit_cpp/logit/configuration_builtins.hpp:129-148 | enumerating the field names identifies no two different names |
| `ConfigurationModel.Diagnostics.AppendRebased` | include/logit_cpp/logit/configuration.hpp:96-105 | every diagnostic is appended in order, with its code, below the prefix |
| `ConfigurationDocument.ValidateExecutorFields` | include/logit_cpp/logit/configuration.hpp:411-460 | it reports an invalid value exactly when an executor field is badly typed, and an unsupported combination exactly when queue fields have no executor of their own |
| `ConfigurationDocument.ValidateLogger` | include/logit_cpp/logit/configuration.hpp:375-460 | exactly the categories of the logger's own defects are reported, and a duplicate id exactly when the id was seen |
| `ConfigurationDocument.ValidateConfiguration` | include/logit_cpp/logit/configuration.hpp:365-462 | each category is reported exactly when the document has that defect, wherever it is, and nothing is reported exactly for the valid documents |
| `ConfigurationDocument.ValidMeansNoDefect` | include/logit_cpp/logit/configuration.hpp:365-462 | a document has the right version, distinct non-empty ids, known types, good strategies and executor fields exactly when no category of defect applies |
| `ConfigurationDocument.MaterializeConfiguration` | include/logit_cpp/logit/configuration.hpp:465-514 | with any adapter: success exactly when there is no diagnostic, exactly when the document is valid and the adapter accepts all; on failure the plan is untouched |
| `ConfigurationBuiltins.DefaultsSuit` | include/logit_cpp/logit/configuration_builtins.hpp:521-548 | a backend has defaults for exactly the fields it allows, each of the field's type |
| `ConfigurationBuiltins.ChecksAreTheSchema` | include/logit_cpp/logit/configuration_builtins.hpp:43-66 | the chain of checks accepts exactly the loggers whose every field is a setting with a suitable value |
| `ConfigurationBuiltins.ValidateBackend` | include/logit_cpp/logit/configuration_builtins.hpp:21-69 | it succeeds exactly for those loggers, and reports exactly the categories of their defects: unknown type, unavailable backend, unknown field, invalid value |
| `ConfigurationBuiltins.ApplyDefaults` | include/logit_cpp/logit/configuration_builtins.hpp:521-548 | given fields stand, defaults fill the rest, nothing else appears |
| `ConfigurationBuiltins.MergeObjectDefaults` | include/logit_cpp/logit/configuration_builtins.hpp:503-519 | a nested object is filled with the defaults it lacks; a field of another type stays; only the backends that are left out have nested defaults |
| `ConfigurationBuiltins.QueueNeedsTheExecutor` | include/logit_cpp/logit/configuration.hpp:411-460 | validation refuses queue settings exactly when the completed logger would be synchronous or without an executor of its own |
| `ConfigurationBuiltins.MaterializeBackend` | include/logit_cpp/logit/configuration_builtins.hpp:71-87 | success exactly for valid loggers, with id, type and strategy kept and the fields completed; otherwise the output is untouched; it computes what the adapter passed to the document layer returns |
| `ConfigurationReaders.ReadFileConfig` | include/logit_cpp/logit/configuration_runtime_builtins.hpp:126-167 | it succeeds exactly when every field is there with a readable value; each readable field replaces its setting, converted, and the others stay, but for a policy, which becomes Block |
| `ConfigurationReaders.ReadUniqueFileConfig` | include/logit_cpp/logit/configuration_runtime_builtins.hpp:169-185 | the same for unique files |
| `ConfigurationReaders.ReadMemoryConfig` | include/logit_cpp/logit/configuration_runtime_builtins.hpp:187-197 | the same for memory |
| `ConfigurationReaders.ReadNamed` | include/logit_cpp/logit/configuration_runtime_builtins.hpp:109-124 | a named setting is read exactly when its text is one of the names |
| `ConfigurationReaders.NamesOfTheValues` | include/logit_cpp/logit/configuration_runtime_builtins.hpp:109-160 | each value of a named setting is read from exactly one text |
| `ConfigurationReaders.ValidNamesAreReadable` | include/logit_cpp/logit/configuration_builtins.hpp:244-247 | the texts that validation accepts are exactly those the readers know |
| `ConfigurationReaders.ReadInt32` | include/logit_cpp/logit/configuration_runtime_builtins.hpp:126-167 | a 32-bit setting is the field cut to its width, or stays when the field cannot be read |
| `ConfigurationReaders.Instantiate` | include/logit_cpp/logit/configuration_runtime_builtins.hpp:381-402 | the factory makes the described logger for exactly the readable entries, and a diagnostic for the others; its result and the categories it reports are those of the function passed to the runtime layer |
| `ConfigurationRuntime.GetAfterSet` | include/logit_cpp/logit/configuration_runtime.hpp:25-68 | a resource is got back only under its name and type, and a name is contained exactly when some type gets it |
| `ConfigurationRuntime.ResolveAll` | include/logit_cpp/logit/configuration_runtime.hpp:121-157 | all bindings are tried; success exactly when each resolves cleanly with its required names bound |
| `ConfigurationRuntime.InstantiateConfiguration` | include/logit_cpp/logit/configuration_runtime.hpp:115-183 | with any resolver and factory: success exactly when there is no diagnostic, exactly when every entry resolves and is built; on failure the loggers are untouched |
| `ConfigurationPipeline.BuildPlan` | include/logit_cpp/logit/configuration.hpp:465-514 | with the built-in adapter a plan is published, without diagnostics, exactly for valid documents with valid backends |
| `ConfigurationPipeline.PlanIds` | include/logit_cpp/logit/configuration.hpp:377-387 | every id of a plan is non-empty, and equal ids mean the same entry |
| `ConfigurationPipeline.PlanIsReadable` | include/logit_cpp/logit/configuration_runtime_builtins.hpp:381-402 | the factory's readers accept every entry of every plan, and what they read has that logger's settings |
| `ConfigurationPipeline.ReadableExactlyWhenPolicyIsKnown` | include/logit_cpp/logit/configuration_runtime_builtins.hpp:109-124 | what the adapter alone materializes is readable if and only if a given queue policy is a policy's name, and what is read then has the logger's settings |
| `ConfigurationPipeline.AdapterAloneIsTooLenient` | include/logit_cpp/logit/configuration_builtins.hpp:207-219 | a logger the adapter accepts and the reader refuses |
| `ConfigurationPipeline.FileGetsItsSettings` | include/logit_cpp/logit/configuration_runtime_builtins.hpp:126-167 | each setting of a file logger, compression and naming included, is the explicit value or the default, converted to its width |
| `ConfigurationPipeline.UniqueFileGetsItsSettings` | include/logit_cpp/logit/configuration_runtime_builtins.hpp:169-185 | the same for a unique file logger |
| `ConfigurationPipeline.MemoryGetsItsSettings` | include/logit_cpp/logit/configuration_runtime_builtins.hpp:187-197 | the same for a memory logger |
| `ConfigurationPipeline.NoFieldsMeansBackendDefaults` | include/logit_cpp/logit/configuration_builtins.hpp:13-18 | a logger that gives no field gets the configuration its backend class has by default |
| `ConfigurationPipeline.AdapterAccepts` | include/logit_cpp/logit/configuration_builtins.hpp:21-87 | the adapter as the document layer sees it accepts exactly the valid backends |
| `ConfigurationPipeline.Configure` | include/logit_cpp/logit/configuration_runtime.hpp:115-183 | from document to loggers: success exactly for valid documents with valid backends and a resolver that accepts them, then one logger per document logger, in order, with its settings; otherwise nothing is published and a diagnostic says so |
| `ConfigurationPipeline.ConversionsAreExactInRange` | include/logit_cpp/logit/configuration_runtime_builtins.hpp:136-145 | a conversion keeps a number exactly when it fits; 2^32 days become 0 |

## Left out

- Weak memory orders: steps interleave with sequential consistency; the store and load handshake of the resize barrier relies on it.
- Wake-ups, fairness and timing: condition variables are guards and timeouts free choices, so nothing is said about progress, but for the bound on the steps of a pop.
- Wrap-around of 64-bit positions, offsets, tickets and counters.
- Tasks that throw in `TaskExecutor`, and exceptions thrown by payload callbacks.
- The deque build and the browser build of `TaskExecutor`: the shape of `SingleThreadExecutor` again.
- `TaskExecutor`, `CooperativeExecutor`, `ConsoleLogger` and `LoggerRegistry` are step machines over values, because their methods interleave; update in place and object identity are not captured there.
- ConsoleLoggerSafety.ExactlyOnce: covers synchronous configurations and dedicated Block executors; the other policies drop messages by design, and the global executor is modelled apart.
- The console logger's browser path and its colouring, and the shared executor that its `wait` turns to after a shutdown; `configure_executor`, two critical sections of the executor, is one step.
- The registry's second check in `log`: the load of the shutdown flag and the three loads of a strategy's flags and level are one step.
- The registry's parameter and level accessors: they read one strategy under a lock.
- The synchronous mode of the payload logger and the JSON it serializes; a batch is delivered whole, and the splitter is specified over an arbitrary size function.
- Concurrent calls of the crash logger's `log`: its writes can overlap in the buffer, so only serialized calls have a specification. The foreign file writes, signal handlers and the Windows variant are not modelled.
- CrashRing.Marker: requires a signal other than the least 32-bit integer, whose negation is undefined in C++.
- Json.StringRoundTrip: the reader takes `\u` escapes below 0x80 only and no fractions, exponents or literals; the printer writes none of those.
- The pattern compiler and the pattern formatter.
- Configuration of the MDBX, OTLP and Prometheus backends, and the JSON front end: long tables over the same checks, and a foreign parser.
- ConfigurationBuiltins.ValidateBackend: models a build without the optional backends, and visits a logger's fields in any order, so the order of its diagnostics is not specified.
- Message texts and paths of diagnostics, and the codes that instantiation gives its own.
- Constructors of backends that throw: the factory's loggers are described by the configuration they are constructed with.
- Log macros, streams, scope timers, log contexts, file rotation and compression: macro expansion, operating-system calls, or easy members only.
