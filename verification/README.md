# Verified models of the stream-service runtime

This project models the hand-written concurrency protocols of a C++ stream-service runtime, and a few of its
sequential algorithms, and proves what they keep. The runtime connects sources (HTTP, gRPC, Kafka, schedules) to
sinks through a graph of operators; most of its difficult code decides who is admitted, who is woken, who runs last
and who cleans up.

## How a protocol is modelled

A protocol is a state machine. Its steps are the regions that the code makes atomic: a section under a mutex, a task
on a strand, one atomic operation, the sending of a wake-up after the lock was left. Everything else happens between
steps, in any order. `Step(s, e)` is the state after event `e`, or nothing when `e` cannot happen; `Run(es)` is the
state after a whole sequence of events. `Inv` is kept by every step (`StepKeeps`), hence holds after every run
(`Reachable`), and the results named below are read off it. Results about two moments of one run compare `Run(es)`
with `Run(es + fs)`.

Where the code updates the fields of an object, a class has those fields and its methods are proved equal to the
step functions of the machine; loops are written as loops and proved against recursive specifications.

| file | subject |
|---|---|
| `Options.dfy`, `Sequences.dfy`, `Totals.dfy`, `Runs.dfy` | optional values, sequences without repetition, sums over maps, runs of any machine |
| `Gate.dfy`, `Words.dfy`, `PackedGate.dfy` | the admission gate (count, closed, drained) and its two packed 64-bit forms |
| `ConnectionPool.dfy`, `PoolShutdown.dfy`, `PoolStop.dfy` | the HTTP client's connection pool, its shutdown, and the two together |
| `SharedMutex.dfy`, `MutexFairness.dfy` | the cooperative reader-writer mutex, and who waits for whom in it |
| `WriteQueue.dfy`, `StreamRunners.dfy` | the gRPC client write queue and the coroutines that serve it |
| `SessionLifetime.dfy`, `StreamingCells.dfy`, `StreamingRegistry.dfy` | what all gRPC streaming sink sessions share |
| `BidiSession.dfy`, `BidiResponses.dfy`, `BidiEnd.dfy` | bidirectional sessions, their responses, their end |
| `ClientStreaming.dfy`, `ClientStreamingEnd.dfy` | client-streaming sessions and their end |
| `CompletionFrames.dfy`, `MessageContext.dfy` | nested completion frames, copy-on-write contexts |
| `DrainWaits.dfy`, `GraphDrain.dfy`, `AsyncOperations.dfy` | draining the graph, waiting for asynchronous operations |
| `Lifecycle.dfy`, `StopPhases.dfy`, `StopEnd.dfy` | starting and stopping a service |
| `Completions.dfy`, `HttpRetirement.dfy`, `HttpVerdict.dfy` | retirement of requests in the HTTP source |
| `GrpcRetirement.dfy`, `GrpcVerdict.dfy` | retirement of requests in the gRPC source |
| `Calendar.dfy`, `Decimals.dfy`, `Schedule.dfy` | schedule timestamps and trigger identities |
| `HeaderNames.dfy`, `Headers.dfy` | HTTP headers |
| `DeepMerge.dfy`, `Template.dfy`, `Lanes.dfy` | configuration, Kafka lanes |

## Where the code does less than one would expect

Seven laws hold only under a condition. Each has a run or an input that breaks it and a proof of the exact condition.

- The packed gate equals the plain one exactly while fewer than 2^63 - 1 callers are inside; at that count the next
  admission sets the closed bit by itself (`PackedGates.EnterRefinesIffRoom`).
- A bidirectional session whose creation failed can still hand a response to the handler: the direct path does not
  look at the creation error, the drain loop does. It happens exactly to a response that finds the session idle and
  without response error (`BidiResponses.FailedSessionStillHandles`, `BidiResponses.FailedSessionHandsOverExactly`). When
  `start` is what threw, such a session has no RPC, so a handler that throws there also reaches the call of `cancel` on
  an empty pointer (`bidistreaming.hpp` lines 210-217 and 431).
- With two drainers at once, graph drain can lose a wake-up: a drainer that times out discards the event the other
  one waits on (`GraphDrains.TwoDrainersLoseAWakeup`, `GraphDrains.StrandsExactly`). With one drainer at a time it
  never happens (`GraphDrains.OneDrainerIsWoken`).
- A completion signalled by a result callback wins over cancellation unless a thread outside every callback signalled
  first and has not sent the event yet. This holds of the HTTP source (`HttpRetirements.OutsiderSpoilsCompletion`,
  `HttpVerdicts.CalledVerdictExactly`) and of the gRPC source (`GrpcVerdicts.OutsiderSpoilsCompletion`,
  `GrpcVerdicts.CalledVerdictExactly`).
- The client-streaming runner prepares its RPC before its first `try`. If that throws, its queue stays open, and a
  caller keeps waiting unless somebody else failed the queue, or closed it before any push
  (`StreamRunners.SetupThrowStrandsCaller`, `StreamRunners.ClientRunnerLeavesNobodyWaiting`).
- Merging the same override twice fails when a mapping of the override that is new to the base has a key that is no
  scalar (`DeepMerges.HiddenKeyRefused`, `DeepMerges.MergeTwiceExactly`).
- Merging three trees depends on the grouping: a key that is no scalar may be met by one grouping and replaced before
  the other one sees it (`DeepMerges.ReplacedKeySplitsGroupings`, `DeepMerges.MergeIsAssociative`). With scalar keys the
  groupings agree exactly on compatible trees (`DeepMerges.ScalarMergesAssociate`).

## Model

| member | source | states |
|---|---|---|
| Gates.DrainedAtMostOnce | include/servicelib/datasink/grpc/streaming_lifecycle.hpp:16-70 | over every run the drained signal is sent at most once, only when closed without live tokens; a closed empty gate has sent or owes it |
| Gates.ClosedStaysDrained | include/servicelib/datasink/grpc/streaming_lifecycle.hpp:16-70 | once closed the live tokens only shrink, and after the signal none appears in any continuation |
| Gates.StreamingActivity.TryAcquire | include/servicelib/datasink/grpc/streaming_lifecycle.hpp:43-54 | admits exactly while open and counts the token |
| Gates.StreamingActivity.ReleaseToken | include/servicelib/datasink/grpc/streaming_lifecycle.hpp:22-32 | the last token of a closed gate sends the signal; the gate stays sound |
| Gates.StreamingActivity.CloseGate | include/servicelib/datasink/grpc/streaming_lifecycle.hpp:55-65 | only the first close reports true, and it sends the signal when nobody is inside |
| PackedGates.EnterRefinesIffRoom | include/servicelib/datasink/http/client.hpp:198-209 | one admission on the 64-bit word is the plain admission exactly when the count is below 2^63 - 1; at that count the carry closes the gate |
| PackedGates.LeaveRefines | include/servicelib/datasource/http/beast.hpp:505-513 | leaving notifies exactly when the plain gate decides the drained signal |
| PackedGates.CloseRefines | include/servicelib/datasink/http/client.hpp:288-303 | setting bit 63 is closing; the word before tells whether it was first and whether it was empty |
| PackedGates.PackedRunsArePlainRuns | include/servicelib/datasource/http/beast.hpp:493-523 | every run of the packed gate is a run of the plain gate with the same tokens, refusals and signals |
| ConnectionPool.Reachable | include/servicelib/datasink/http/client.hpp:225-263 | ownership, order and work conservation hold after every interleaving of strand tasks, cancellations, lease drops, a stop in the middle of an acquisition and the stop broadcast |
| ConnectionPool.BusyExactlyWhenLeasedOnce | include/servicelib/datasink/http/client.hpp:401-472 | a connection is busy exactly when one lease or posted release exists for it, never two, and the limit is kept |
| ConnectionPool.WorkConservingAndFair | include/servicelib/datasink/http/client.hpp:401-463 | a waiting request implies all connections busy and the limit reached; grants follow arrival order, and an arrival that was passed over is neither queued nor inside any more |
| ConnectionPool.BroadcastReleasesEverybody | include/servicelib/datasink/http/client.hpp:304-308 | after the stop broadcast nobody is suspended in any continuation, everybody inside can return and nobody new comes in |
| ConnectionPool.NothingIsStuck | include/servicelib/datasink/http/client.hpp:424-466 | every lease, wherever it lies, can move on; every suspended acquirer is queued with room in its channel |
| ConnectionPool.PumpServesExactly | include/servicelib/datasink/http/client.hpp:401-434 | a pump serves exactly as many waiters as there are idle connections plus room below the limit, from the front, and opens a connection only when none is idle |
| ConnectionPool.GrantTakesCapacity | include/servicelib/datasink/http/client.hpp:404-423 | one grant takes one idle connection, or one unit of room when none is idle |
| ConnectionPool.PoolState.FindSuiting | include/servicelib/datasink/http/client.hpp:406-409 | the first idle connection to the waiter's host and port, or none |
| ConnectionPool.PoolState.FindIdle | include/servicelib/datasink/http/client.hpp:410-413 | the first idle connection, or none |
| ConnectionPool.PoolState.RunPump | include/servicelib/datasink/http/client.hpp:401-434 | the loop computes the recursive pump and terminates |
| ConnectionPool.PoolState.RemoveWaiter | include/servicelib/datasink/http/client.hpp:453-461 | a leaving acquirer is erased wherever it stands and the pool is pumped |
| ConnectionPool.PoolState.WakeAll | include/servicelib/datasink/http/client.hpp:305-307 | the loop wakes every queued waiter whose channel has room and nobody else |
| PoolShutdown.PromiseSetAtMostOnce | include/servicelib/datasink/http/client.hpp:265-312 | the drain promise is set at most once, with the closed bit set, no operation live and every connection closed |
| PoolShutdown.QuietMeansDrained | include/servicelib/datasink/http/client.hpp:265-312 | with the gate closed, nothing live and nothing pending, the promise has been set |
| PoolShutdown.NothingAdmittedAfterStop | include/servicelib/datasink/http/client.hpp:198-223 | after the closed bit no operation is admitted in any continuation |
| PoolStops.Reachable | include/servicelib/datasink/http/client.hpp:198-312 | pool and shutdown together: every acquirer inside belongs to a live operation, the pool is closed exactly when the closed bit is set, and once the broadcast has run nobody is suspended |
| PoolStops.StopNeverHangs | include/servicelib/datasink/http/client.hpp:288-312 | from the stop request until the promise is set, a step towards the end is enabled in every reachable state |
| PoolStops.EveryStepBringsTheEndNearer | include/servicelib/datasink/http/client.hpp:265-312 | no step moves a stop away from its end and every step towards it lowers a natural number |
| SharedMutexes.MutualExclusion | include/servicelib/runtime/detail/sync.hpp:225-258 | a writer excludes every other owner |
| SharedMutexes.StrictlyFifoWithoutLostWakeups | include/servicelib/runtime/detail/sync.hpp:225-258 | ownership follows call order, the queue is what has not been granted, readers never wait behind readers alone, and whoever waits has an owner that can unlock |
| SharedMutexes.CooperativeSharedMutex.Acquire | include/servicelib/runtime/detail/sync.hpp:225-238 | owns at once or queues, as the machine does |
| SharedMutexes.AskedExactly | include/servicelib/runtime/detail/sync.hpp:225-258 | whose lock call is outstanding changes only by that caller's own lock and unlock |
| SharedMutexes.HoldersStay | include/servicelib/runtime/detail/sync.hpp:225-258 | an owner that was woken stays one, on its side, until it unlocks |
| MutexFairness.OwnsExactly | include/servicelib/runtime/detail/sync.hpp:225-258 | a writer owns the mutex exactly when no earlier call is left, a reader exactly when no earlier writer is left |
| MutexFairness.NobodyOvertakes | include/servicelib/runtime/detail/sync.hpp:225-258 | in every continuation the calls ahead of a call are those that have not unlocked since; later calls never join them |
| SharedMutexes.CooperativeSharedMutex.Release | include/servicelib/runtime/detail/sync.hpp:240-258 | hands over to one writer or to the leading readers; the callers it returns to be woken are exactly the new owners, in queue order |
| SharedMutexes.CooperativeSharedMutex.TakeReaders | include/servicelib/runtime/detail/sync.hpp:251-254 | the loop admits exactly the readers at the front of the queue |
| WriteQueues.OutcomesAreImmutable | include/servicelib/runtime/detail/grpc_client.hpp:86-150 | an outcome never changes, nor does the first failure; nothing is accepted after close or failure |
| WriteQueues.CloseStillDrains | include/servicelib/runtime/detail/grpc_client.hpp:113-183 | popped writes are a prefix of accepted ones; until a failure the rest is still queued, also after close, and the next pop takes the oldest |
| WriteQueues.FailCompletesEverything | include/servicelib/runtime/detail/grpc_client.hpp:133-150 | after a failure every accepted write has its outcome or its completion is on its way, and failed ones carry the first failure |
| WriteQueues.NoLostWakeup | include/servicelib/runtime/detail/grpc_client.hpp:163-183 | a parked popper's event was sent, is about to be, or is registered with the queue empty and open |
| WriteQueues.ClientWriteQueue.PushLocked | include/servicelib/runtime/detail/grpc_client.hpp:113-125 | accepts exactly while open and not failed, appends, and returns the event to send |
| WriteQueues.ClientWriteQueue.FailLocked | include/servicelib/runtime/detail/grpc_client.hpp:133-150 | records the first failure only and returns every pending completion and the event |
| WriteQueues.ClientWriteQueue.CloseLocked | include/servicelib/runtime/detail/grpc_client.hpp:152-161 | closes and returns the event to send |
| WriteQueues.ClientWriteQueue.PopLocked | include/servicelib/runtime/detail/grpc_client.hpp:163-183 | takes the oldest write, or ends, or parks on a registered event |
| StreamRunners.ClientRunnerLeavesNobodyWaiting | include/servicelib/runtime/detail/grpc_client.hpp:228-267 | after every exit from the try blocks no pusher is left waiting; after a throw before them nobody waits exactly when the queue was failed by somebody else, or closed unused |
| StreamRunners.SetupThrowStrandsCaller | include/servicelib/runtime/detail/grpc_client.hpp:238-242 | a run in which the setup throws and an accepted write has no outcome and no pending completion |
| StreamRunners.BidiRunnerLeavesNobodyWaiting | include/servicelib/runtime/detail/grpc_client.hpp:269-355 | the same for the bidirectional runner, which also never ends before its writer |
| SessionLifetimes.EndsOnceAndLast | include/servicelib/datasink/grpc/bidistreaming.hpp:459-479 | the request ends at most once and then no activity token is referenced |
| BidiSessions.OneAtATimeInOrder | include/servicelib/datasink/grpc/bidistreaming.hpp:381-457 | responses are processed one at a time in arrival order, each once; an idle processor implies an empty deferred queue |
| BidiSessions.HandledIsAPrefix | include/servicelib/datasink/grpc/bidistreaming.hpp:381-457 | with creation successful, handled responses are a prefix of the arrivals that ends at the first one whose handler threw |
| BidiSessions.EndRequestComesLast | include/servicelib/datasink/grpc/bidistreaming.hpp:258-262 | `endRequest` runs at most once, with no message, response or callback left and none able to enter |
| BidiEnds.EndRequestIsReached | include/servicelib/datasink/grpc/bidistreaming.hpp:381-479 | from every reachable state with a closed gate, a bounded number of steps of what is inside leads to `endRequest` |
| BidiEnds.EveryStepBringsTheEndNearer | include/servicelib/datasink/grpc/bidistreaming.hpp:381-479 | with a closed gate some step towards `endRequest` is always enabled, and every step except a repeated transport completion lowers a natural number |
| BidiResponses.NoCallbackWaitsForever | include/servicelib/datasink/grpc/bidistreaming.hpp:381-420 | a callback that waits for its response can return after a bounded number of steps of the processor alone |
| BidiResponses.ProcessorAlwaysMoves | include/servicelib/datasink/grpc/bidistreaming.hpp:437-457 | the processor of a ready session always has a next step, and each of its steps lowers a natural number |
| BidiResponses.FailedSessionHandsOverExactly | include/servicelib/datasink/grpc/bidistreaming.hpp:381-457 | with creation failed, a received response is handed to the handler, in whatever continuation, exactly when it found the session idle and without response error |
| BidiResponses.FailedSessionHandlesOnlyStraight | include/servicelib/datasink/grpc/bidistreaming.hpp:381-457 | with creation failed, an idle session has handled nothing exactly when no response took the direct path |
| BidiResponses.FailedSessionStillHandles | include/servicelib/datasink/grpc/bidistreaming.hpp:381-400 | a run in which a failed session hands a response to the handler |
| BidiSessions.ResponseQueue.Receive | include/servicelib/datasink/grpc/bidistreaming.hpp:381-420 | decides under the mutex whether to process, to queue, or to queue and launch a drain |
| BidiSessions.ResponseQueue.Take | include/servicelib/datasink/grpc/bidistreaming.hpp:442-451 | one round under the mutex: idle when nothing is left, else the oldest deferred response |
| BidiSessions.ResponseQueue.Drain | include/servicelib/datasink/grpc/bidistreaming.hpp:437-457 | whatever arrives between its rounds, the loop hands over everything deferred up to the first throwing response, nothing after a creation or response error, and ends idle at the first round that finds nothing |
| ClientStreamingSessions.ResponseHandledOnceAndAlone | include/servicelib/datasink/grpc/clientstreaming.hpp:361-395 | `handleResponse` runs at most once, never after failed creation, and never while a message is consumed, because both hold the cooperative mutex |
| ClientStreamingSessions.NobodyWaitsForTheMutexForever | include/servicelib/datasink/grpc/clientstreaming.hpp:361-395 | whoever waits for the handler mutex owns it already or has an owner ahead of it, and that owner can take its next step |
| ClientStreamingSessions.EndRequestComesLast | include/servicelib/datasink/grpc/clientstreaming.hpp:396-416 | `endRequest` runs at most once, with no message or response inside and none able to enter |
| ClientStreamingEnds.EndRequestIsReached | include/servicelib/datasink/grpc/clientstreaming.hpp:361-416 | from every reachable state with a closed gate, a bounded number of steps of what is inside, through the mutex, leads to `endRequest` |
| ClientStreamingEnds.EveryStepBringsTheEndNearer | include/servicelib/datasink/grpc/clientstreaming.hpp:361-416 | with a closed gate some step towards `endRequest` is always enabled, and every step except a repeated transport completion lowers a natural number |
| StreamingCells.CancelledExactlyWhenBoth | include/servicelib/datasink/grpc/streaming_lifecycle.hpp:75-99 | the RPC is cancelled at most once, never before ready, and exactly when ready and cancel both finished with a session present |
| StreamingRegistries.EveryLiveCellCancelledOnce | include/servicelib/datasink/grpc/streaming_lifecycle.hpp:105-174 | nobody is cancelled before close or twice; after it every live cell was cancelled once, added before or after |
| CompletionFrames.Reachable | include/servicelib/runtime/context.hpp:76-142 | counting, ownership of parent tokens and log order hold after every run of make, retain, copy, drop and release steps |
| CompletionFrames.PendingCountsLeases | include/servicelib/runtime/context.hpp:90-118 | a frame's count is its live tokens plus its initial lease; a completion runs only at zero and never twice |
| CompletionFrames.ChildrenCompleteFirst | include/servicelib/runtime/context.hpp:104-118 | no frame completes before a child that holds its token |
| CompletionFrames.NeverRevived | include/servicelib/runtime/context.hpp:92-102 | a count that reached zero stays zero, and completions are never taken back |
| CompletionFrames.EveryFrameCompletes | include/servicelib/runtime/context.hpp:104-164 | when no lease, no outside reference and no release is left, every frame has completed |
| CompletionFrames.CascadeSettles | include/servicelib/runtime/context.hpp:104-118 | one release settles its frame and all ancestors, leaves younger frames alone and keeps the invariant |
| CompletionFrames.DropSettles | include/servicelib/runtime/context.hpp:147-164 | dropping a token with its whole cascade leaves no release in progress |
| CompletionFrames.CompletionTree.Release | include/servicelib/runtime/context.hpp:104-118 | the recursive release computes the cascade; it terminates because parents are older |
| CompletionFrames.CompletionTree.Forget | include/servicelib/runtime/context.hpp:147-164 | the last reference to a token decrements its frame |
| MessageContexts.StealingIsInvisible | include/servicelib/runtime/context.hpp:314-499 | over every run, each context not moved from holds the value it would hold if every update had cloned |
| MessageContexts.StolenView | include/servicelib/runtime/context.hpp:366-499 | an rvalue update gives the result of the lvalue update and no other context sees it |
| MessageContexts.Contexts.With | include/servicelib/runtime/context.hpp:490-493 | clone and assign: the new context has the updated value, every other one is unchanged |
| MessageContexts.Contexts.WithMoved | include/servicelib/runtime/context.hpp:494-499 | take or clone: the same result, nobody else sees it |
| MessageContexts.LocalValue | include/servicelib/runtime/context.hpp:331-339 | the walk finds the innermost binding of the key |
| MessageContexts.LocalValueShadows | include/servicelib/runtime/context.hpp:319-339 | after any sequence of updates a key has the last value given to it, else the one before; local values touch nothing else |
| GraphDrains.NoLostWakeup | include/servicelib/runtime/environment.hpp:317-359 | unless a drainer discards an event that another waits on, every parked drainer's event is sent, about to be, or registered with work left |
| GraphDrains.StrandsExactly | include/servicelib/runtime/environment.hpp:350-356 | a step strands a drainer exactly when it is an expiry that discards an event another drainer waits on |
| GraphDrains.OneDrainerIsWoken | include/servicelib/runtime/environment.hpp:317-359 | with one drainer at a time nobody is ever stranded, whatever earlier drains discarded |
| GraphDrains.StrandedForGood | include/servicelib/runtime/environment.hpp:317-412 | a stranded drainer stays parked in every continuation without a cancellation of its event or its own expiry |
| GraphDrains.TwoDrainersLoseAWakeup | include/servicelib/runtime/environment.hpp:317-359 | a run with two drainers in which one is parked although nothing is left to do |
| GraphDrains.AnswersTruthfully | include/servicelib/runtime/environment.hpp:317-359 | drain answers true exactly when both counters are zero at that step, and false only on expiry |
| GraphDrains.DrainedStaysDrained | include/servicelib/runtime/environment.hpp:122-163 | after a drain, nothing becomes active again as long as only active work calls `parallel` |
| GraphDrains.QuietExactly | include/servicelib/runtime/environment.hpp:122-163 | once drained, nothing is active at any later moment exactly when every later call of `parallel` is refused |
| GraphDrains.ExecutionEnvironment.BeginInputInvocation | include/servicelib/runtime/environment.hpp:122-134 | admits exactly while input is open and the count below its maximum |
| GraphDrains.ExecutionEnvironment.FinishInputInvocation | include/servicelib/runtime/environment.hpp:392-401 | the finisher that empties both counters takes the registered event |
| GraphDrains.ExecutionEnvironment.FinishParallelInvocation | include/servicelib/runtime/environment.hpp:403-412 | the same for parallel work |
| GraphDrains.ExecutionEnvironment.EnterDrain | include/servicelib/runtime/environment.hpp:317-329 | closes input and returns, or parks on the registered event |
| GraphDrains.ExecutionEnvironment.AbandonDrain | include/servicelib/runtime/environment.hpp:350-356 | discards its own event only, and answers whether everything is drained |
| AsyncOperations.EveryWaiterIsWoken | include/servicelib/runtime/detail/async_operations.hpp:29-68 | for any number of waiters and any restarts, a parked caller's event is sent, about to be, or registered with work left |
| AsyncOperations.ReturnsOnlyWhenIdle | include/servicelib/runtime/detail/async_operations.hpp:55-68 | when `stopAndWait` has returned there was a moment since the call without active operations, and without a restart nothing is active now |
| Lifecycles.RollbackIsExact | include/servicelib/runtime/serviceapp.hpp:164-184 | a failed start stops exactly what it started, in reverse, once each, and not the object that failed |
| Lifecycles.StopsReverseStarts | include/servicelib/runtime/serviceapp.hpp:192-240 | every kind is stopped in the reverse of its start order, in one phase only |
| Lifecycles.StopIsReversedStart | include/servicelib/runtime/serviceapp.hpp:205-240 | apart from the sinks, which come last, everything is stopped in exactly the reverse of the start order |
| Lifecycles.PhasesByKind | include/servicelib/runtime/serviceapp.hpp:205-240 | which kinds each phase stops: sources and components, then pools and storage, then sinks |
| Lifecycles.StopsEverythingOnce | include/servicelib/runtime/serviceapp.hpp:205-237 | the stop lists name every registered object exactly once |
| Lifecycles.ServiceLifecycle.Add | include/servicelib/runtime/serviceapp.hpp:132-162 | refuses late and repeated registrations, appends the others |
| Lifecycles.ServiceLifecycle.Start | include/servicelib/runtime/serviceapp.hpp:164-184 | the calls made, the resulting state and the outcome, for any set of objects whose start throws |
| Lifecycles.ServiceLifecycle.StartKinds | include/servicelib/runtime/serviceapp.hpp:171-176 | the nested loops start a prefix of the fixed order up to the first object that throws |
| Lifecycles.ServiceLifecycle.StopStarted | include/servicelib/runtime/serviceapp.hpp:438-446 | stops the started objects backwards and forgets everything |
| Lifecycles.ServiceLifecycle.StopLists | include/servicelib/runtime/serviceapp.hpp:205-236 | the loops build the lists of the three phases |
| Lifecycles.ServiceLifecycle.BeginStop | include/servicelib/runtime/serviceapp.hpp:192-204 | what each state does with a stop request |
| StopPhases.EachStopLaunchedOnce | include/servicelib/runtime/serviceapp.hpp:393-418 | over every run each registered object is stopped at most once, and exactly once when the phases are over |
| StopPhases.LaterPhasesWait | include/servicelib/runtime/serviceapp.hpp:205-240 | a stop is launched only when every stop of the earlier phases has returned or the context has expired, sinks only after the graph drain answered |
| StopPhases.ResultsTakenOnce | include/servicelib/runtime/serviceapp.hpp:245-258 | each result is taken at most once, after the stop returned; when shutdown has finished all were taken |
| StopEnds.StepsAddUp | include/servicelib/runtime/serviceapp.hpp:205-258 | over every run the steps taken by the stopping thread and those left add up to twice the number of objects plus seven; the phases are over exactly when none is left |
| StopEnds.ShutdownNeverHangs | include/servicelib/runtime/serviceapp.hpp:393-418 | once the context has expired, the stopping thread alone brings the phases to their end, in exactly the steps left, although no further stop returns |
| StopEnds.HeldExactly | include/servicelib/runtime/serviceapp.hpp:393-418 | the stopping thread cannot go on exactly when the stop it waits for has not returned and the context has not expired |
| StopEnds.ShutdownFinishes | include/servicelib/runtime/serviceapp.hpp:205-258 | an unfinished shutdown always has a next step of the thread or a return of a stop, and every such step lowers a natural number |
| HttpRetirements.NoCallbackAfterBarrier | include/servicelib/datasource/http/beast.hpp:784-819 | past the retirement barrier no callback runs and none starts, so `endRequest` runs alone |
| HttpRetirements.BarrierIsReached | include/servicelib/datasource/http/beast.hpp:505-523 | a thread parked on the barrier has readers inside or a notification on its way |
| HttpRetirements.CompletionWins | include/servicelib/datasource/http/beast.hpp:784-819 | a completion won by a callback or the request's handler never ends as cancelled; without completion it never ends well |
| HttpVerdicts.CalledVerdictExactly | include/servicelib/datasource/http/beast.hpp:784-808 | from any moment at which a callback or the handler has called `done`: in every continuation the request ends as cancelled exactly if an outsider who had won before has not sent the event when the thread takes its second look |
| HttpRetirements.JudgedExactly | include/servicelib/datasource/http/beast.hpp:791-808 | the final verdict in every continuation: well exactly when no error was left and no outsider stands between exchange and send |
| HttpRetirements.OutsiderSpoilsCompletion | include/servicelib/datasource/http/beast.hpp:574-581 | a run in which a callback signals completion and the request still ends as cancelled |
| HttpRetirements.ReaderGate.Enter | include/servicelib/datasource/http/beast.hpp:499-504 | admitted exactly while not retired |
| HttpRetirements.ReaderGate.Leave | include/servicelib/datasource/http/beast.hpp:505-513 | the last one to leave a retired result notifies, nobody else |
| HttpRetirements.ReaderGate.Retire | include/servicelib/datasource/http/beast.hpp:514-523 | waits exactly when somebody is inside |
| GrpcRetirements.NoCallbackOnceEnding | include/servicelib/datasource/grpc/common.hpp:416-449 | from the decision on no callback runs in any continuation, and while `endRequest` runs nobody shares the mutex |
| GrpcRetirements.NobodyWaitsForTheMutexForever | include/servicelib/datasource/grpc/common.hpp:416-480 | whoever waits for the lifetime mutex owns it already or has an owner ahead of it, and that owner can take its next step |
| GrpcVerdicts.CompletionWins | include/servicelib/datasource/grpc/common.hpp:416-424 | exactly when a request ends without error, whatever follows the decision |
| GrpcVerdicts.CalledVerdictExactly | include/servicelib/datasource/grpc/common.hpp:416-424 | from any moment at which a callback or the handler has called `done`: in every continuation the request ends as cancelled exactly if an outsider who had won before has not sent the event at the decision |
| GrpcVerdicts.OutsiderSpoilsCompletion | include/servicelib/datasource/grpc/common.hpp:416-424 | a run in which a callback signals completion and the request still ends as cancelled |
| GrpcRetirements.LateResultNeverWaits | include/servicelib/datasource/grpc/common.hpp:472-475 | a result that arrives during `endRequest` is refused without queueing for its lock |
| GrpcRetirements.IdStaysReserved | include/servicelib/datasource/grpc/common.hpp:351-359 | the stream id stays registered until `endRequest` has returned, unless evicted |
| Calendar.DatesAreUnique | include/servicelib/runtime/schedule.hpp:41-43 | every day has one date and every date one day |
| Calendar.DateOf | include/servicelib/runtime/schedule.hpp:41-43 | a valid date whose day number is the given one |
| Calendar.DaysToClosed | include/servicelib/runtime/schedule.hpp:41-43 | the day count has its closed form, which repeats every 400 years |
| Calendar.EpochIsFirstOf1970 | include/servicelib/runtime/schedule.hpp:39-42 | the first of January 1970 and no other date has the day number of the epoch |
| Decimals.TrimZeros | include/servicelib/runtime/schedule.hpp:55-58 | the loop drops exactly the trailing zeros |
| Decimals.Padded | include/servicelib/runtime/schedule.hpp:47-55 | a number of at most w digits fills w places and reads back |
| Schedules.SplitThenJoin | include/servicelib/runtime/schedule.hpp:37-45 | the fields of an instant are in range and determine it |
| Schedules.FormatTimestamp | include/servicelib/runtime/schedule.hpp:37-62 | the string built with the trimming loop is the specified one |
| Schedules.ParseInvertsFormat | include/servicelib/runtime/schedule.hpp:37-62 | every nanosecond instant of the years 0000 to 9999 is read back from its timestamp |
| Schedules.FormatShape | include/servicelib/runtime/schedule.hpp:46-61 | the date-time form of section 5.6 of RFC 3339: separators, digits, trimmed fraction only when not zero |
| Schedules.IdentityIsInjective | include/servicelib/runtime/schedule.hpp:83-98 | the identity string determines endpoint, schedule id (newlines included) and instant |
| Schedules.IdentityReadsBack | include/servicelib/runtime/schedule.hpp:83-98 | refused for a non-positive endpoint, else for an empty schedule id; every other trigger is read back from its string |
| HeaderNames.StrictWeakOrder | include/servicelib/runtime/detail/http_types.hpp:25-34 | the name comparison is a strict weak order |
| HeaderNames.SameIffFolded | include/servicelib/runtime/detail/http_types.hpp:25-34 | two names are equivalent exactly when they agree in lower case |
| HeaderMaps.NativeLookupIsMapLookup | include/servicelib/runtime/detail/http_types.hpp:74-94 | the native lookup equals lookup in the materialised map, which keeps first spelling and last value |
| HeaderMaps.LookupAfterUpdate | include/servicelib/runtime/detail/http_types.hpp:150-182 | lookup of any name after assign, insert and erase |
| HeaderMaps.EmptyIffNoFields | include/servicelib/runtime/detail/http_types.hpp:96-99 | the map is empty exactly when no field arrived |
| HeaderMaps.NativeHeaders.ToMap | include/servicelib/runtime/detail/http_types.hpp:202-211 | the loop builds the materialised map |
| HeaderMaps.NativeHeaders.Find | include/servicelib/runtime/detail/http_types.hpp:81-93 | the loop finds the last value, which is the map's |
| HeaderMaps.Headers.Lookup | include/servicelib/runtime/detail/http_types.hpp:74-94 | lookup in the map the headers stand for, whatever their representation |
| HeaderMaps.Headers.IsEmpty | include/servicelib/runtime/detail/http_types.hpp:96-99 | whether the view is empty, whatever the representation |
| HeaderMaps.Headers.Map | include/servicelib/runtime/detail/http_types.hpp:109-116 | read access may fill the shared cache and changes no view |
| HeaderMaps.Headers.Detach | include/servicelib/runtime/detail/http_types.hpp:117-126 | write access leaves the shared storage and keeps the view |
| HeaderMaps.Headers.Assign | include/servicelib/runtime/detail/http_types.hpp:150-151 | the view changes as the map would |
| HeaderMaps.Headers.Insert | include/servicelib/runtime/detail/http_types.hpp:155 | inserts only a new name and says so |
| HeaderMaps.Headers.Erase | include/servicelib/runtime/detail/http_types.hpp:169-177 | removes the name and returns how many entries went |
| HeaderMaps.Headers.Clear | include/servicelib/runtime/detail/http_types.hpp:183-187 | empties the view |
| HeaderMaps.Headers.Swap | include/servicelib/runtime/detail/http_types.hpp:188-192 | exchanges the two views |
| HeaderMaps.Headers.Equals | include/servicelib/runtime/detail/http_types.hpp:194-196 | equality of the views, spelling included, without changing them |
| HeaderMaps.CopiesAreIndependent | include/servicelib/runtime/detail/http_types.hpp:58-61 | any sequence of mutations of a set of headers acts on its own map and never changes a copy that shares its storage |
| DeepMerges.LeavesExactly | include/servicelib/runtime/config/yaml.hpp:14-31 | a value of the merged tree comes from the override, or from the base where the override has neither that path nor a value across it |
| DeepMerges.MergeSelfExactly | include/servicelib/runtime/config/yaml.hpp:14-31 | merging a tree into itself gives it back exactly when its keys are scalars |
| DeepMerges.MergeTwiceExactly | include/servicelib/runtime/config/yaml.hpp:14-31 | applying an override again changes nothing, exactly when its keys are scalars |
| DeepMerges.HiddenKeyRefused | include/servicelib/runtime/config/yaml.hpp:22-25 | an override accepted once and refused the second time |
| DeepMerges.AssociativeExactly | include/servicelib/runtime/config/yaml.hpp:14-31 | leaving errors aside, the merged trees of the two groupings are equal exactly on compatible trees |
| DeepMerges.MergeIsAssociative | include/servicelib/runtime/config/yaml.hpp:14-31 | for any three trees, when each grouping throws and exactly when the two agree, errors included |
| DeepMerges.ScalarMergesAssociate | include/servicelib/runtime/config/yaml.hpp:14-31 | with scalar keys in the overrides nothing throws and the groupings agree exactly on compatible trees |
| DeepMerges.ReplacedKeySplitsGroupings | include/servicelib/runtime/config/yaml.hpp:14-31 | three trees on which one grouping throws and the other does not |
| DeepMerges.DeepMerge | include/servicelib/runtime/config/yaml.hpp:14-31 | the loop that fills the cloned base computes the merge, errors included |
| Templates.ScanPrinted | include/servicelib/runtime/config/substitution.hpp:69-96 | the scan of any printed sequence of literals and references is the concatenation of their values, or the first error |
| Templates.TokensPrint | include/servicelib/runtime/config/substitution.hpp:69-96 | every string is the printed form of well-formed tokens |
| Templates.ScanIsEval | include/servicelib/runtime/config/substitution.hpp:69-96 | hence the scan of any string is the value of its tokens |
| Templates.SucceedsExactly | include/servicelib/runtime/config/substitution.hpp:69-96 | the scan succeeds exactly when every reference is closed and has a value; the text stays as it was exactly when no reference is opened |
| Templates.SubstituteScalar | include/servicelib/runtime/config/substitution.hpp:69-94 | the cursor loop computes the scan, errors included |
| Lanes.DispatchedIsAPrefix | include/servicelib/datasource/kafka/librdkafka.hpp:249-289 | per partition the dispatched messages are a prefix of the enqueued ones, and nothing is lost before the stop |
| Lanes.NothingAfterStop | include/servicelib/datasource/kafka/librdkafka.hpp:305-320 | once `stopLanes` returned nothing is dispatched in any continuation |
| Lanes.JoinTerminates | include/servicelib/datasource/kafka/librdkafka.hpp:305-320 | from every state in which `stopLanes` joins, at most three steps of each worker let it return |
| Lanes.StoppedWorkerIsBounded | include/servicelib/datasource/kafka/librdkafka.hpp:266-289 | in every continuation the worker of a stopped lane takes no more than its remaining steps |
| Lanes.PartitionLane.Push | include/servicelib/datasource/kafka/librdkafka.hpp:259-263 | appends the message |
| Lanes.PartitionLane.TakeFront | include/servicelib/datasource/kafka/librdkafka.hpp:270-280 | nothing once stopped, else the oldest message |
| Lanes.PartitionLane.Stop | include/servicelib/datasource/kafka/librdkafka.hpp:308-312 | marks the lane and drops what is queued |

## Left out

- Sockets, Beast, asio-grpc, librdkafka, yaml-cpp, OpenSSL and the C++ standard library appear only as steps that may
  happen at any time, or as plain values; SHA-256 is not modelled, so identity means the string that is hashed.
- Real time and memory ordering: a deadline expires at any step, atomics are sequentially consistent.
- Stack switching of `CooperativeExecution`, thread-local state, metrics, logging and tracing.
- `SingleUseEvent` is a one-way latch; the map of pending requests may lose an entry at any time, which is more than
  the code does.
- ConnectionPool.Reachable: interrupting busy sockets has no effect on the pool's own state and is not modelled.
- CompletionFrames.Reachable: a completion callback is one step, its own effects on other frames happen between steps.
- MessageContexts.StealingIsInvisible: contexts and their states are entries of a store rather than heap objects, so
  that the number of owners is visible; when a state is freed is not modelled.
- Lifecycles.ServiceLifecycle.Start: which objects throw is a parameter; names and timeout callbacks are not modelled.
- HeaderMaps.NativeLookupIsMapLookup: the ordered map of the standard library is a map keyed by the lower-case name;
  iteration order, iterators and bounds are not modelled.
- DeepMerges.DeepMerge: key order and repeated keys inside one mapping are not modelled; sequences and scalars are
  opaque values.
- Templates.SubstituteScalar: whole-value variables, `${file:...}` and the parsing of the substituted text are not
  modelled.
- Schedules.FormatTimestamp: years outside 0000 to 9999, which a 64-bit nanosecond clock cannot show.
- Operators of the graph, queued pools, trace-parent parsing, configuration tables, command line, cron firing and the
  build scripts: they would add easy members or depend on code that is not part of this model.
