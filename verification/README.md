# Verification of the call center

This project models the call-handling engine of the call center and proves what it promises. A call arrives, goes
straight to a free operator or waits in the queue, is served, expires while waiting or is refused, and its record
is written to the journal. The pool of operators can be resized at any time. Check everything with
`dafny verify dfyconfig.toml`.

The model has three layers.

* **Components** (`CallDetailedRecords`, `CallQueues`, `OperatorSets`, `Metrics`, `QueueingMetrics`, `VirtualTime`).
  Each class of the program that updates its fields is a Dafny class. Its methods are proved against value
  specifications, and the properties are proved about those.
* **Virtual time** (`Engines`, `EngineSafety`, `Duplicates`, `SecondService`, `Journals`, `Expiries`, `Deadlines`,
  `FixedPools`, `PooledRuns`, `MixedWaits`, `Draining`, `CallCenters`). Handlers run to their end one after another
  under a clock that never passes a posted event. What the environment decides (configured sizes, which free operator
  comes first, the length of a service) is an input of the event, so a property of all inputs holds under every
  configuration history. `FixedPools` restricts the inputs to a pool that keeps its size, `PooledRuns` to the steps of
  a pool resized at will. `CallCenters.CallCenter` is the object with its components; each method is proved equal to
  the `Engines` function of the same name, with inputs that are steps of the pool under the count configured, and
  states its outcome.
* **Interleavings** (`Interleavings`, `Ownership`, `InterleavingSafety`, `InterleavingTheorems`, `Verdicts`,
  `Numbers`, `Timelines`, `Sights`, `Idling`, `MetricsSlots`). Each component has a lock of its own and there is none
  around the whole, so a handler is a sequence of atomic steps, one for every locked operation, and the steps of any
  number of threads interleave freely, while the pool is resized at will.

A C++ multiset is the sequence of its elements in iteration order: equal keys keep their insertion order and a new
element goes behind its equals. Time points are whole milliseconds, the longest wait is in whole seconds.

## Results

* The two indices of the queue hold the same calls as long as pushes come in arrival order or all calls have one
  longest wait, and the pair behaves as a single list (`IndicesAgree`, `IndicesAgreeInterleaved`). After a push they
  never part, whatever follows but pushes, exactly when no waiting call with its number and timeout point arrived
  later (`NeverPartsIff`).
* Under virtual time no call is lost or doubled, calls start in arrival order, the counters are exact and every record
  adds up (`RunSafe` and the theorems behind it). Each record of the journal tells what happened: behind it stand the
  events that pushed, started, ended or refused its call, at its time points (`ServedRecords`, `RefusedRecords`).
* If all calls that wait at all have one longest wait, due iterations cover expiring calls at every instant under any
  resizing, so no timeout point is passed (`DeadlinesCovered`). With two positive waits it can be: the promise is kept
  under all resizing exactly when at most one of the configured waits is positive (`DeadlinesMetIff`). In a pool that
  keeps its size timeouts are exact with any waits (`TimeoutsExact`).
* With a fixed pool no operator is idle while a call waits and the served load never exceeds the number of operators.
* Without new calls the event loop ends with nothing left over, whatever the waits and the resizing
  (`DrainsCompletely`).
* In every interleaving, under any resizing, each operator and each call is in exactly one place, no assertion fails
  but one, each call gets one status, one notification and one journal record, no counter wraps, no number leaks, and
  every queued call has an iteration posted early enough or at work (`NobodyStranded`, `NobodyLate`). When everything
  has come to rest every call ever pushed is accounted for (`RestIsClean`).
* In every interleaving the status of a call says exactly what was decided on it and when (`StatusSaysWhy`), its time
  points are the clock at the steps that wrote them (`ServedTimeline`, `RefusedTimeline`), and a thread answers a
  call, asks the queue or posts an iteration only after seeing what it must (`AnswersRightly`, `AsksRightly`,
  `PostsRightly`). `NumberEnteredIff` says which numbers are entered.
* In every interleaving an operator is left free beside a waiting call, with no thread at work, exactly if one was
  given up, or the pool resized, with too few threads left that will look at the queue (`AttendedAlwaysIff`,
  `IdleIff`). It can come to that (`OperatorIdles`).

## Where the code and its documentation differ

The model follows the code.

* The class comment at `src/call_center/call_queue.h:17-18` and line 57 of the program's README promise that a number
  already waiting or in service is refused. It is not, in two cases. The search among the waiting calls looks only at
  those that arrived in the same millisecond (`DuplicateCanWait`). And two waiting calls of one number can be served
  together, because the iteration ignores that the second was not entered (`src/call_center/call_center.cc:85`); the
  first to end erases the number of both, and a call of it then starts beside the other (`NumberInServiceAccepted`).
  `RefusedIff` says exactly when a number is refused, and `NumberInServiceRefused` when every number in service is.
* `UpdateOperatorCount` hands the free operators to `SetServers` (`src/call_center/operator_set.cc:79`), so an
  operator that is out during a resizing loses its slot in the metrics, and the assertion at
  `src/call_center/core/queueing_system/metrics/queueing_system_metrics.cc:77` fails when it finishes
  (`SlotCanBeLost`). `BusyKeepMetricsIff` says exactly when busy operators keep their slots; in a pool of fixed size
  they do (`SlotsHoldInFixedPool`).
* Erasing a call from a multiset is meant to remove the given call (`src/call_center/call_queue.h:138-142`), but
  compares numbers only. `IndicesCanPart` gives two calls for which the indices part, `NeverPartsIff` the exact
  condition.
* Line 56 of the program's README promises that a call whose longest wait has passed is refused. It is never served,
  but with different waits and a growing pool it can go on waiting unnoticed, because an iteration that finds an
  operator plans no other (`MixedWaitsMissDeadline`, `DeadlinesMetIff`).
* Line 52 of the program's README says that a call goes to a free operator or waits. Between threads both can happen
  at once: one that took an operator and gives it back without need does not look at the queue behind it
  (`src/call_center/call_center.cc:88,118`), so a call that came meanwhile and found no operator waits beside a free
  one until it is refused (`OperatorIdles`). `AttendedIff` says exactly when it comes to that.
* `GetTotalTime` is the time in the system except for a call that was handed to an operator and then refused
  (`TotalTimeIsTimeInSystemIff`); `RecordsAddUp` shows that the engine produces no such call.

## Model

| member | source | states |
|---|---|---|
| CallDetailedRecords.TotalTimeIsTimeInSystemIff | src/call_center/call_detailed_record.cc:123-134 | the total time of a finished call is completion minus arrival if and only if it was serviced, was never started, or was started at the moment it was refused |
| CallDetailedRecords.CallDetailedRecord.constructor | src/call_center/call_detailed_record.cc:10-19 | a new record has its number and longest wait and nothing else |
| CallDetailedRecords.CallDetailedRecord.SetArrivalTime | src/call_center/call_detailed_record.cc:136-141 | sets arrival and timeout point once; the record stays consistent |
| CallDetailedRecords.CallDetailedRecord.StartService | src/call_center/call_detailed_record.cc:21-26 | sets operator and start of a live record, no notification |
| CallDetailedRecords.CallDetailedRecord.CompleteService | src/call_center/call_detailed_record.cc:28-36 | sets status and completion of a live record; the callback has then run exactly once |
| CallQueues.CallQueue.constructor | src/call_center/call_queue.cc:8-13 | an empty queue of the configured capacity, or of the default one if none is configured |
| CallQueues.CallQueue.EqualRange | src/call_center/call_queue.h:157-165 | exactly the positions whose key equals that of the call |
| CallQueues.CallQueue.EraseCallFromMultiset | src/call_center/call_queue.h:156-165 | removes the first element that equals the call in key and number, or nothing |
| CallQueues.CallQueue.MultisetContainsCall | src/call_center/call_queue.h:167-178 | true if and only if some element equals the call in key and number |
| CallQueues.CallQueue.Contains | src/call_center/call_queue.cc:115-117 | found by arrival time and number among the waiting calls, or by number among those entered as in service |
| CallQueues.CallQueue.InsertToQueue | src/call_center/call_queue.cc:110-113 | both indices receive the call behind its equals and stay sorted |
| CallQueues.CallQueue.EraseFromQueue | src/call_center/call_queue.cc:105-108 | both indices lose the first match of the call, nothing else changes |
| CallQueues.CallQueue.PushToQueue | src/call_center/call_queue.cc:27-42 | result and new state of a push: capacity read anew, duplicate, overload, acceptance in this order |
| CallQueues.CallQueue.PopFromQueue | src/call_center/call_queue.cc:15-25 | result and new state of a pop; agreement of the indices is kept |
| CallQueues.CallQueue.QueueIsEmpty | src/call_center/call_queue.cc:44-47 | true if and only if no call waits |
| CallQueues.CallQueue.EraseTimeoutCallFromQueue | src/call_center/call_queue.cc:49-62 | result and new state of a timeout erasure; agreement of the indices is kept |
| CallQueues.CallQueue.GetMinTimeoutCallInQueue | src/call_center/call_queue.cc:64-72 | the first call of the timeout index, or none if no call waits |
| CallQueues.CallQueue.InsertToProcessing | src/call_center/call_queue.cc:90-99 | enters the call unless it is contained, and says whether it did |
| CallQueues.CallQueue.EraseFromProcessing | src/call_center/call_queue.cc:74-78 | the number of the call is no longer entered |
| CallQueues.EmplaceElements | src/call_center/call_queue.cc:110-113 | an emplaced call is added once and the order is kept |
| CallQueues.FirstMatchInReceipt | src/call_center/call_queue.h:157-165 | in the receipt index the erasure finds the call itself |
| CallQueues.EraseAgrees | src/call_center/call_queue.cc:105-108 | erasing a call that is the first match in both indices removes that same call from both and keeps their agreement |
| CallQueues.PopAgrees | src/call_center/call_queue.cc:15-25 | a pop takes the earliest arrival out of both indices, the same call object, and they still agree |
| CallQueues.MinTimeoutIsLeast | src/call_center/call_queue.cc:64-72 | the call returned waits and no waiting call has an earlier timeout point |
| CallQueues.EraseLeastAgrees | src/call_center/call_queue.cc:49-62 | erasing the call with the least timeout point removes the same call object from both indices |
| CallQueues.EraseTimeoutAgrees | src/call_center/call_queue.cc:49-62 | a timeout erasure returns a call with the least timeout point if that has passed, else nothing has expired; the indices still agree |
| CallQueues.EraseTimeoutMembers | src/call_center/call_queue.cc:49-62 | the erased call had waited and had expired; the others stay |
| CallQueues.NeverPartsIff | src/call_center/call_queue.h:138-165 | after an accepted push both indices hold the same calls for ever, whatever is popped, expires, enters or leaves service, if and only if no waiting call with its number and timeout point arrived later; otherwise pops alone part them |
| CallQueues.LatestArrivalIsSafe | src/call_center/call_queue.cc:110-113 | a push in arrival order is safe and appends to the receipt index |
| CallQueues.OneWaitIsSafe | src/call_center/call_queue.cc:110-113 | with one longest wait every push is safe, in any order |
| CallQueues.IndicesAgree | src/call_center/call_queue.cc:15-99 | after every sequence of operations with pushes in arrival order and arbitrary waits both indices hold the same calls, and each operation is a step of one list in arrival order |
| CallQueues.OperationRefines | src/call_center/call_queue.cc:15-99 | one operation keeps the agreement and is a step of the single list |
| CallQueues.PushRefines | src/call_center/call_queue.cc:27-42 | a push in arrival order appends to the list if it is accepted and else leaves it alone |
| CallQueues.EraseTimeoutRefines | src/call_center/call_queue.cc:49-62 | a timeout erasure takes out of the single list a call with the least timeout point, or leaves it alone if none has expired |
| CallQueues.PopRefines | src/call_center/call_queue.cc:15-25 | a pop takes the head of the single list |
| CallQueues.IndicesPart | src/call_center/call_queue.h:157-165 | two calls of one number and timeout point, pushed against their arrival order: popping one erases the other from the timeout index |
| CallQueues.IndicesCanPart | src/call_center/call_queue.h:157-165 | concrete calls for which the indices hold different calls after a pop |
| CallQueues.PushAdmitsIff | src/call_center/call_queue.cc:27-42 | a call is a duplicate if and only if its number is entered as in service or waits from the same millisecond, room or not; otherwise it is accepted if and only if fewer calls wait than configured |
| CallQueues.NeverOverfull | src/call_center/call_queue.cc:35-38 | after every sequence of operations no more calls wait than the largest capacity read at a push |
| CallQueues.DuplicateCanWait | src/call_center/call_queue.h:167-178 | two calls with one number a millisecond apart are both accepted |
| OperatorSets.ReadOperatorCount | src/call_center/operator_set.cc:49-51 | a configured count of at least one is returned as it is, without one the default, and never less than one |
| OperatorSets.UpdateKeepsBusy | src/call_center/operator_set.cc:68-100 | an update removes no busy operator and makes the size the larger of the configured count and the number of busy operators |
| OperatorSets.EraseFreeFacts | src/call_center/operator_set.cc:25-36 | an operator is handed out if and only if fewer than the count read are busy; it was not busy |
| OperatorSets.InsertFreeFacts | src/call_center/operator_set.cc:38-47 | a returned operator is no longer busy and the size shrinks back to the configured count as operators return |
| OperatorSets.PoolIsALimit | src/call_center/operator_set.cc:25-100 | over every history of takes and returns under changing counts exactly the operators handed out are busy, none of them was removed, and a take succeeds if and only if fewer are out than the count read for it |
| OperatorSets.FixedSize | src/call_center/operator_set.cc:68-81 | as long as the count read is the present size, operators only move between free and busy |
| OperatorSets.BusyKeepMetricsIff | src/call_center/operator_set.cc:79 | busy operators keep their metrics in an update if and only if it does not change the size |
| OperatorSets.OperatorSet.constructor | src/call_center/operator_set.cc:21-23 | as many free operators as configured, all with a metrics slot |
| OperatorSets.OperatorSet.AddOperators | src/call_center/operator_set.cc:83-89 | adds so many new free operators |
| OperatorSets.OperatorSet.RemoveOperators | src/call_center/operator_set.cc:91-100 | removes so many free operators, or all of them if there are fewer |
| OperatorSets.OperatorSet.UpdateOperatorCount | src/call_center/operator_set.cc:68-81 | the pool is what the update relation says, the metrics slots are those of the free operators if the size was to change, and every free operator that remains has in them all it has served |
| OperatorSets.OperatorSet.EraseFree | src/call_center/operator_set.cc:25-36 | is a take of the pool specification; neither the free operators nor the one taken lose what they have served |
| OperatorSets.OperatorSet.InsertFree | src/call_center/operator_set.cc:38-47 | is a return of the pool specification; unknown operators are ignored and no free operator loses what it has served |
| OperatorSets.OperatorSet.GetBusyOperatorCount | src/call_center/operator_set.cc:63-66 | the number of operators that are not free |
| Metrics.MeanErrorBound | src/call_center/core/queueing_system/metrics/metric.h:56-66 | after n values the truncating mean times n differs from their sum by at most n(n-1)/2, whatever the default was |
| Metrics.UpdateError | src/call_center/core/queueing_system/metrics/metric.h:61-65 | one update moves count times mean minus sum by less than the new count |
| Metrics.UpdateTruncates | src/call_center/core/queueing_system/metrics/metric.h:61-65 | the mean moves towards the value, by their distance divided by the new count and truncated |
| Metrics.MeasureBrackets | src/call_center/core/queueing_system/metrics/metric.h:56-66 | least and greatest value bracket the mean and all values, and each is a value or the default |
| Metrics.MeanWithinValues | src/call_center/core/queueing_system/metrics/metric.h:61-65 | once a value is recorded the mean lies between recorded values |
| Metrics.ExactMeanIsMean | src/call_center/core/queueing_system/metrics/metric.h:61-65 | over exact numbers n times the mean is the sum for every n from one on |
| Metrics.Metric.AddValue | src/call_center/core/queueing_system/metrics/metric.h:56-66 | updates the four fields in place as the value specification says |
| QueueingMetrics.CompleteAdds | src/call_center/core/queueing_system/metrics/service_metrics.h:43-47 | a completed service adds one to the serviced calls and its time to the total time, over all servers, and to the service times of its own server; the other servers keep theirs |
| QueueingMetrics.QueueingSystemMetrics.SetServersOf | src/call_center/core/queueing_system/metrics/queueing_system_metrics.h:205-219 | the servers are those of the set; those that had metrics have the same as before, new ones have served nothing, and if all stay the serviced count and the total service time are unchanged |
| QueueingMetrics.SetServersKeeps | src/call_center/core/queueing_system/metrics/queueing_system_metrics.h:205-219 | for every set: servers in it keep what they have served, and the serviced count and the total service time fall by exactly what the servers outside it had served |
| QueueingMetrics.QueueingSystemMetrics.RecordRequestArrival | src/call_center/core/queueing_system/metrics/queueing_system_metrics.cc:56-63 | counters and time between requests after an arrival |
| QueueingMetrics.QueueingSystemMetrics.RecordServiceStart | src/call_center/core/queueing_system/metrics/queueing_system_metrics.cc:65-70 | one less in the queue, the wait recorded |
| QueueingMetrics.QueueingSystemMetrics.RecordServiceComplete | src/call_center/core/queueing_system/metrics/queueing_system_metrics.cc:72-83 | the service recorded for its server, one less in the system |
| QueueingMetrics.QueueingSystemMetrics.RecordRequestDropout | src/call_center/core/queueing_system/metrics/queueing_system_metrics.cc:85-95 | one less in queue and system, one more refused, its wait recorded |
| QueueingMetrics.QueueingSystemMetrics.GetServicedCount | src/call_center/core/queueing_system/metrics/queueing_system_metrics.cc:145-151 | the sum of the serviced calls over all servers, in whatever order they are visited |
| QueueingMetrics.QueueingSystemMetrics.GetServiceLoadInErlang | src/call_center/core/queueing_system/metrics/queueing_system_metrics.cc:177-187 | total service time over all servers divided by the time since recording began; infinite or undefined when none has passed |
| VirtualTime.FakeTaskManager.AddTask | test/unit/call_center/fake/fake_task_manager.cc:111-117 | the task stands behind all tasks due no later |
| VirtualTime.FakeTaskManager.PostTaskDelayed | test/unit/call_center/fake/fake_task_manager.cc:66-71 | due after the delay |
| VirtualTime.FakeTaskManager.PostTaskAt | test/unit/call_center/fake/fake_task_manager.cc:73-81 | due at the given time, which may have passed |
| VirtualTime.FakeTaskManager.HandleFirstTask | test/unit/call_center/fake/fake_task_manager.cc:140-152 | the first due task leaves the pending ones, runs and posts what it posts |
| VirtualTime.FakeTaskManager.HandleTasks | test/unit/call_center/fake/fake_task_manager.cc:119-138 | ends when no task is due, those posted meanwhile included, and keeps the order of execution |
| VirtualTime.FakeTaskManager.AdvanceTime | test/unit/call_center/fake/fake_task_manager.cc:87-103 | ends with the clock exactly so much later; every task due by then has run, each at the later of its due time and its posting, in due order and for ties in posting order |
| VirtualTime.AddTaskOrdered | test/unit/call_center/fake/fake_task_manager.cc:111-117 | a posted task keeps the pending tasks in the order of execution |
| VirtualTime.PopValid | test/unit/call_center/fake/fake_task_manager.cc:140-152 | running the first task keeps the account of times and order |
| VirtualTime.PostsAreDue | test/unit/call_center/fake/fake_task_manager.cc:66-81 | a task that runs at time x and posts with delay d leaves a task due at x + d, with a time point one due then; posts are numbered in their order and nothing else is posted or lost |
| VirtualTime.EveryTaskOnce | test/unit/call_center/fake/fake_task_manager.cc:87-152 | every task ever posted is pending or has run, and only once |
| CallCenters.CallCenter.constructor | src/call_center/call_center.cc:31-48 | empty queue of the configured capacity, configured pool, recording begun |
| CallCenters.CallCenter.RejectCall | src/call_center/call_center.cc:148-153 | the record, with the arrival, no start and the present as its end, is written to the journal and counted; the metric of refused waits measures exactly the refused calls of the journal |
| CallCenters.CallCenter.RejectAllTimeoutCalls | src/call_center/call_center.cc:155-161 | the loop rejects exactly the calls the specification rejects, in its order |
| CallCenters.CallCenter.StartCallProcessing | src/call_center/call_center.cc:98-105 | the call starts on the operator, whose status turns busy, its finish event is posted and its wait is measured |
| CallCenters.CallCenter.TakeOperator | src/call_center/call_center.cc:81 | a step of the pool under the configured count: with a count n of at least one an operator is found if and only if fewer than n were out, and the pool then has the larger of n and those out; one found is neither busy nor lost by resizing |
| CallCenters.CallCenter.ReturnOperator | src/call_center/call_center.cc:88 | a step of the pool by which the operator goes back; with a configured count n the pool then has the larger of n and those still out |
| CallCenters.CallCenter.PerformCallProcessingIteration | src/call_center/call_center.cc:75-96 | is the iteration of the specification; if fewer operators are out than configured and a call waits that has not expired the first of these to arrive starts, and otherwise none; size of the pool and wait measured |
| CallCenters.CallCenter.AssignOperator | src/call_center/call_center.cc:81-95 | a free operator takes the head of the queue, or the next iteration is posted; it is found if and only if fewer are out than configured |
| CallCenters.CallCenter.ServeHead | src/call_center/call_center.cc:82-89 | the operator serves the earliest call, or goes back if the queue has run empty |
| CallCenters.CallCenter.PostNext | src/call_center/call_center.cc:91-94 | the next iteration is posted for the least timeout point |
| CallCenters.CallCenter.StartCallProcessingIfPossible | src/call_center/call_center.cc:107-123 | a call bypasses an empty queue if an operator is free and its number is not entered |
| CallCenters.CallCenter.StartBypassing | src/call_center/call_center.cc:112-121 | the operator answers the call, or goes back if the number of the call is entered |
| CallCenters.CallCenter.PushCall | src/call_center/call_center.cc:50-73 | is the push of the specification with the configured capacity, or that of the queue if none is configured: a call that starts at once asks nobody; any other is refused as a duplicate if and only if its number is entered or waits from the same millisecond, else for overload if and only if at least that many calls wait, the queue having read that capacity, and else it is let in and the first to have arrived is served if an operator is found; its arrival and its wait are measured |
| CallCenters.CallCenter.StartOrEnqueue | src/call_center/call_center.cc:53-72 | the call bypasses the queue or is pushed; an operator is found, each time one is looked for, if and only if fewer are out than configured |
| CallCenters.CallCenter.Enqueue | src/call_center/call_center.cc:58-72 | acceptance starts an iteration, refusals carry their reason |
| CallCenters.CallCenter.FinishCallProcessing | src/call_center/call_center.cc:125-137 | is the finish of the specification; with its operator back, if fewer are out than configured, the first waiting call to have arrived that has not expired starts; size of the pool and wait measured |
| CallCenters.CallCenter.Release | src/call_center/call_center.cc:126-131 | the journal gets the record of the call with its arrival, its operator, the start of its service and the present as its end; its operator is back before the queue is looked at and, if it stays in the pool, has served one more call |
| CallCenters.CallCenter.ScheduleCallProcessingIteration | src/call_center/call_center.cc:139-146 | one more iteration is posted |
| CallCenters.CallCenter.RunIteration | src/call_center/call_center.cc:142-144 | a posted iteration is taken off and run; the first waiting call to have arrived that has not expired starts if fewer operators are out than configured, and otherwise none |
| CallCenters.CallCenter.TakeFinishEvent | src/call_center/operator.cc:45-48 | the event is no longer posted and the operator is not busy |
| EngineSafety.RunSafe | src/call_center/call_center.cc:50-161 | in every run under any inputs the indices agree, no call is lost or doubled, the counters count, calls start in arrival order and every record adds up |
| EngineSafety.EventSafe | src/call_center/call_center.cc:50-161 | every handler keeps all of this |
| EngineSafety.RejectAllKeeps | src/call_center/call_center.cc:155-161 | after the rejection loop no waiting call has expired; it only rejects |
| EngineSafety.AssignKeeps | src/call_center/call_center.cc:81-95 | an iteration takes at most the earliest call out of the queue, else posts the least timeout point |
| EngineSafety.IterationServes | src/call_center/call_center.cc:75-96 | an iteration starts a call if and only if it finds an operator and a call waits that has not expired; it is the first of these to have arrived |
| EngineSafety.StartsInArrivalOrder | src/call_center/call_center.cc:83-122 | over every run calls start service in arrival order, bypassing and waiting ones together |
| EngineSafety.CountersExact | src/call_center/core/queueing_system/metrics/queueing_system_metrics.cc:56-95 | between handlers the counters are the queue length and the calls in the system; arrivals are serviced plus refused plus in system |
| EngineSafety.PushFate | src/call_center/call_center.cc:50-73 | if no call waits, an operator is free and its number is not entered, a pushed call starts at once; else it is refused as a duplicate if its number is entered or waits from the same millisecond; else for overload if the queue is full; else it is let in: refused at once if it will not wait, and otherwise it waits or has been started, the first call to have arrived being served if an operator was found; only expired calls are refused besides, and the queue has read the capacity |
| EngineSafety.QueueWithinCapacity | src/call_center/call_center.cc:50-96 | in every run no more calls wait than the largest capacity configured at a push; with none, no call ever waits |
| EngineSafety.RecordsAddUp | src/call_center/call_detailed_record.cc:95-134 | a served call waited less than its longest wait unless it started on arrival, one refused for its wait waited at least as long, and total time is completion minus arrival |
| Journals.EventAccounts | src/call_center/call_center.cc:50-161 | what an event adds: services it starts now with the operator it took for a call at hand, and records of refusals and of services that end now |
| Journals.RunTold | src/call_center/call_center.cc:50-161 | in every run each waiting call, each service and each record has the events behind it |
| Journals.ServedRecords | src/call_center/call_detailed_record.cc:21-36 | in every run each record of a served call has its events: one pushed the call, one took the operator it names and started its service, a finish event wrote it; its number, wait and arrival are those of the pushed call, start and end are the clock at the two later events, and the service took exactly its length |
| Journals.RefusedRecords | src/call_center/call_center.cc:148-161 | in every run each record of a refused call has its events: one pushed the call and one wrote the record, with the clock as its end and no operator; its status says why: the timeout point was reached, or its own push found the number entered or waiting from the same millisecond, or as many calls waiting as were to be let in |
| Duplicates.DuplicateRefusedIff | src/call_center/call_center.cc:50-66 | a pushed call is refused as a duplicate if and only if its number is entered or waits from the same millisecond |
| Duplicates.EnteredIff | src/call_center/call_queue.cc:74-99 | in every run a number is entered if and only if the last start or end of a service of it was a start |
| Duplicates.RefusedIff | src/call_center/call_queue.cc:115-117 | after every run a call is refused as a duplicate if and only if the last start or end of a service of its number was a start, or the number waits from the same millisecond |
| Duplicates.NumberInServiceRefused | src/call_center/call_center.cc:83-85 | as long as no call was let in while another with its number waited, the numbers entered are those in service and every call whose number is in service is refused |
| Duplicates.RefusedRightly | src/call_center/call_queue.cc:31-34 | in every run a call refused as a duplicate has a number that waits or is in service |
| SecondService.NumberInServiceAccepted | src/call_center/call_center.cc:85 | a run of two operators that ends with a call started beside another one with its number |
| Deadlines.DeadlinesCovered | src/call_center/call_center.cc:75-96 | if all calls that wait at all have one longest wait, then under any resizing, for every instant t, at least as many iterations are due by t as waiting calls expire by t; no timeout point is passed and timeouts are exact |
| Deadlines.EventCovered | src/call_center/call_center.cc:75-96 | every handler keeps the coverage |
| Deadlines.CoveredStops | src/call_center/call_center.cc:93 | the clock stops at a posted iteration before it could pass a timeout point |
| PooledRuns.RunFits | src/call_center/operator_set.cc:25-100 | however the pool is resized, between handlers its free operators are those of the engine, and each other operator of the pool serves one call |
| PooledRuns.OperatorsComeHome | src/call_center/call_center.cc:125-130 | whenever no call is in service all operators are free, however often the pool was resized |
| MixedWaits.DeadlinesMetIff | src/call_center/call_center.cc:75-96 | for every choice of longest waits: no run under any history of configured counts passes a timeout point if and only if at most one of the waits is positive |
| MixedWaits.MixedWaitsMissDeadline | src/call_center/call_center.cc:81-95 | for any two different positive waits a run, with one operator and then two, in which a waiting call outlives its timeout point |
| FixedPools.FixedPoolTakes | src/call_center/operator_set.cc:25-47 | the inputs of a fixed pool are what taking and returning do when each read yields the present size |
| FixedPools.TimeoutsExact | src/call_center/call_center.cc:79-94 | fixed pool, any waits: a waiting call has an iteration posted no later than its timeout point, and every refusal for waiting falls on it |
| FixedPools.NoIdleOperator | src/call_center/call_center.cc:81-137 | fixed pool: between handlers no operator is free while a call waits, and each is free or serves one call |
| FixedPools.LoadNeverExceedsOperators | src/call_center/core/queueing_system/metrics/queueing_system_metrics.cc:177-187 | fixed pool: total service time is at most operators times elapsed time, so the load never exceeds the number of operators |
| FixedPools.ArrivalsBalance | src/call_center/core/queueing_system/metrics/queueing_system_metrics.cc:56-95 | fixed pool: arrivals are serviced calls summed over the servers plus refused ones plus those in the system |
| FixedPools.RunSystemSafe | src/call_center/call_center.cc:50-161 | all of these in every state of every run |
| Draining.HandlerShrinks | src/call_center/call_center.cc:75-137 | every handler brings the end nearer: fewer handlers ahead of the calls, or fewer iterations before the next timeout |
| Draining.RunStocked | src/call_center/call_center.cc:58-96 | between handlers at least as many iterations are posted as calls wait, with any waits and any resizing |
| Draining.SomethingHappens | test/unit/call_center/fake/fake_task_manager.cc:87-103 | as long as an event is posted there is a next one |
| Draining.RunToEnd | src/call_center/call_center.cc:75-137 | without new calls the event loop ends under every schedule of due events and every resizing |
| Draining.DrainsCompletely | src/call_center/call_center.cc:75-137 | then no call waits or is in service, the counters are at zero and the journal holds exactly the calls that arrived, each with a status |
| Draining.AllOperatorsFree | src/call_center/call_center.cc:125-137 | and in a fixed pool all operators are free |
| InterleavingSafety.PushStepKeeps | src/call_center/call_center.cc:50-58 | each step of a push up to the queue keeps the invariant |
| InterleavingSafety.PushToQueueKeeps | src/call_center/call_center.cc:58-72 | pushing to the queue keeps it: an accepted call is in the queue and its thread goes on as an iteration, a refused one stays in hand (the reason is the subject of `StatusSaysWhy`) |
| InterleavingSafety.RejectStepKeeps | src/call_center/call_center.cc:148-153 | each step of a rejection keeps it |
| InterleavingSafety.StartStepKeeps | src/call_center/call_center.cc:98-105 | each step of starting a service keeps it |
| InterleavingSafety.OperatorStepKeeps | src/call_center/call_center.cc:81-89 | taking an operator for the queue and giving an unused one back keep it |
| InterleavingSafety.LookStepKeeps | src/call_center/call_center.cc:76-95 | the steps that look at the queue or post the next iteration keep it |
| InterleavingSafety.TakeOutStepKeeps | src/call_center/call_center.cc:79-83 | erasing an expired call and popping the head keep it |
| InterleavingSafety.FinishStepKeeps | src/call_center/call_center.cc:125-129 | each step of completing a service keeps it |
| InterleavingSafety.AfterServiceKeeps | src/call_center/call_center.cc:130-131 | returning the operator and logging the call keep it |
| InterleavingSafety.ResizeKeeps | src/call_center/operator_set.cc:68-100 | resizing the pool at any moment keeps it |
| InterleavingSafety.HistoryTied | src/call_center/call_center.cc:50-161 | in every interleaving there is a ledger that gives each operator and call its one place, and records, statuses, counters, indices, numbers entered, notifications and posted iterations fit it |
| InterleavingTheorems.OperatorInOnePlace | src/call_center/call_center.cc:81-130 | in every interleaving each operator is free, in the hands of one thread or serving one call, exactly one of these |
| InterleavingTheorems.CallInOnePlace | src/call_center/call_center.cc:50-153 | in every interleaving each pushed call is in the hands of one thread, queued, in service or in the journal, exactly one of these |
| InterleavingTheorems.AssertionsHold | src/call_center/call_detailed_record.cc:21-36 | no assertion about calls or operator status fails in any interleaving under any resizing |
| MetricsSlots.SlotIff | src/call_center/core/queueing_system/metrics/queueing_system_metrics.cc:77 | helper of the two slot theorems: an operator has its metrics slot if and only if it was free at the last resizing, or there was none and it belongs to the pool as set up |
| MetricsSlots.SlotsHoldInFixedPool | src/call_center/core/queueing_system/metrics/queueing_system_metrics.cc:77 | in a pool of fixed size the assertion about the slot holds too |
| MetricsSlots.SlotCanBeLost | src/call_center/operator_set.cc:79 | an interleaving in which it fails: the pool grows as a call looks for an operator while another operator is out |
| InterleavingTheorems.CountersNeverWrap | src/call_center/core/queueing_system/metrics/queueing_system_metrics.cc:65-95 | neither unsigned counter is at zero when a thread takes one off |
| InterleavingTheorems.CountersQuiet | src/call_center/core/queueing_system/metrics/queueing_system_metrics.cc:56-95 | in every interleaving, whenever no handler is at work, arrivals are the calls ever pushed, the other counters are the queued, present and refused calls, and arrivals are present plus refused plus serviced |
| InterleavingTheorems.StatusIsFinal | src/call_center/call_detailed_record.cc:28-36 | a finished record is never written again, whatever happens later |
| Verdicts.StatusSaysWhy | src/call_center/call_center.cc:58-80 | in every interleaving a finished call has status AlreadyInQueue if and only if its thread once pushed it while its number was entered or waited from the same millisecond; Overload if and only if its thread pushed it when that was not so and as many calls waited as the capacity read; Timeout if and only if an iteration erased it from the queue with its timeout point reached; Ok if and only if it was answered |
| Verdicts.DecidedOnce | src/call_center/call_center.cc:50-153 | in every interleaving no more than one such decision is ever taken on a call |
| Numbers.NumberEnteredIff | src/call_center/call_queue.cc:74-99 | in every interleaving a number is entered if and only if a thread with a call of it found it neither entered nor waiting from the same millisecond and entered it, and no thread with a served call of it has erased it since |
| Timelines.ServedTimeline | src/call_center/call_detailed_record.cc:21-36 | in every interleaving arrival, start and completion of a served call are the clock at the steps that wrote them, in this order, its operator is the one in hand at the answer and at the completion, and the service lasted at least the delay its finish was posted with |
| Timelines.RefusedTimeline | src/call_center/call_detailed_record.cc:28-36 | in every interleaving arrival and completion of a refused call are the clock at the steps that wrote them |
| Timelines.OperatorNamed | src/call_center/call_detailed_record.cc:21-26 | from the answer until it goes back the operator in hand, or serving, is the one the record names |
| Timelines.IdentityKept | src/call_center/call_detailed_record.cc:10-19 | number and longest wait of a record are always those the call was pushed with |
| Sights.AnswersRightly | src/call_center/call_center.cc:76-122 | in every interleaving a call is answered only if its thread found nobody waiting, then an operator free, then its number unknown; or found calls waiting, then none of them expired, then an operator free, then no waiting call that arrived earlier |
| Sights.AsksRightly | src/call_center/call_center.cc:53-58 | the queue is asked only if the thread found calls waiting, no operator free, or the number known |
| Sights.PostsRightly | src/call_center/call_center.cc:79-94 | an iteration is posted only for the least timeout point found, after calls were found waiting, none expired and no operator free |
| Idling.AttendedIff | src/call_center/call_center.cc:75-137 | in every interleaving: as long as the free operators, or the queued calls without one, are no more than the threads that have yet to look, one happening ends this if and only if it gives an operator up unasked or resizes the pool and leaves too few threads that will look |
| Idling.AttendedAlwaysIff | src/call_center/call_center.cc:75-137 | over every history all states are attended in this sense if and only if no happening is of that kind |
| Idling.IdleIff | src/call_center/call_center.cc:133-137 | while no thread is at work an operator is free and a call waits if and only if the state is not attended |
| Idling.NobodyIdle | src/call_center/call_center.cc:133-137 | so without such a happening no operator is free while a call waits and no thread is at work |
| Idling.OperatorIdles | src/call_center/call_center.cc:117-119 | an interleaving without any resizing after which no thread is at work, an operator is free and a call waits, until it is refused for having waited too long |
| InterleavingTheorems.NotifiedAndLoggedOnce | src/call_center/call_detailed_record.cc:35 | the callback has run once for each finished call and no other, and the journal holds no call twice |
| InterleavingTheorems.IndicesAgreeInterleaved | src/call_center/call_queue.cc:15-62 | the indices hold the same calls in every interleaving although pushes may come out of arrival order |
| InterleavingTheorems.NobodyStranded | src/call_center/call_center.cc:58-96 | posted iterations plus iterations that have neither popped nor found the queue empty are at least as many as the queued calls, and for every instant x those due by x, or at work and not settled on a later time, are at least as many as the queued calls that expire by x |
| InterleavingTheorems.NobodyLate | src/call_center/call_center.cc:79-94 | while no iteration is at work and no posted one is overdue, no queued call has reached its timeout point |
| InterleavingTheorems.NoLeakedPhone | src/call_center/call_queue.cc:74-99 | every number entered belongs to a call in service whose finish will erase it |
| InterleavingTheorems.RefusalHasRival | src/call_center/call_queue.cc:31-34 | a push refused as a duplicate has a rival: another call with that number that waits or is in service |
| InterleavingTheorems.RestIsClean | src/call_center/call_center.cc:50-161 | when all threads have returned and no event is posted the queue is empty, all operators are free, no number is entered, nobody is counted as present, arrivals and dropouts count all calls and the refused ones, and every call is finished, notified and logged |

## Left out

- The HTTP server, connections, repositories, JSON and the reading of configuration files: input and output.
- Logging, sinks and the formatting of the journal: the journal is the sequence of finished records.
- Threads, timers and the task manager of the running program: a lock is an atomic step, posting adds to the pending events.
- The distribution of service times: a delay is any natural number of seconds.
- UUIDs: distinct numbers.
- The periodic tasks that sample metrics or refresh the configuration: they post themselves again forever, so nothing would drain.
- `GetProbabilityOfLoss` and `GetAverageServiceTime`: what they return is not the quantity they name.
- The containers in `core/containers` and `request_metrics`: they would only add easy members.
- Rounding of floating-point averages: `ExactMeanIsMean` is about exact numbers.
- Overflow of counters that grow, and of the conversion of configured waits and delays: they are unbounded.
- The recursive shared locking inside `GetTotalTime`: the getters read one value of the record.
- Shared ownership of call objects in `CallCenters`: the object holds records by value; the shared record with its three mutators is the class `CallDetailedRecords.CallDetailedRecord`, and shared records appear in `Interleavings`.
- The callback as a step of its own in `Interleavings`: it runs in the step that sets the status.
- Different longest waits in `Interleavings`: one longest wait for all calls, since otherwise the indices can part (`CallQueues.IndicesCanPart`).
- The wait, service time and interarrival metrics and the per-server metrics in `Interleavings`: the steps keep the counters and which servers have a slot.
- Several worker threads in `VirtualTime`: tasks run one at a time; stopping the manager is not modelled.
