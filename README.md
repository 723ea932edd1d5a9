# Hangfire.Pipeline job executor, modelled in Dafny

The model covers two parts of Hangfire.Pipeline:

- **The pipeline server's job executor**, `PipelineServer.ExecuteJob`. A Hangfire worker calls it with a job ID. It does the following:
  1. Loads the job context from storage, stamps its `Start` and persists it.
  2. Turns the job's task queue into a concurrent queue ordered stably by `Priority`.
  3. Opens the task factory's dependency scope.
  4. Drains the queue. Every dequeued task must have a task name and an ID. Cancellation is checked next.
  5. Skips a task that already has an `End`, so a re-run resumes where the last one stopped.
  6. Before a sequential task, waits for everything dispatched so far.
  7. Creates and executes the task. Its continuation takes the task context the execution returned, releases the instance, stamps that context's `End` under a lock, appends it to `Completed` and persists the job.
  8. After a sequential task, waits for that task's execution.
  9. Finally waits for all tasks, stamps the job's `End` and persists again.
- **The job and task context helpers** of `PipelineExtensions`: `QueueTask`, `AddCompletedTask`, `AddEnvironment`/`GetEnvironment`, `AddResult`/`GetResult` and `AddArg`/`GetArg`.

Modules, in dependency order:

- `Wrappers`: `Option`, `Result`, and `Status` (returned or threw).
- `Text` and `Values`: the loosely typed values stored in the dictionaries (a tagged union), and `Convert.ChangeType` as a partial conversion. This includes `Int32` and `Boolean` formatting and parsing.
- `Contexts`:
  - `TaskContext` and `JobRecord` are values; `JobRecord` is the stored form of a job context.
  - `JobContext` is a class whose methods are the mutating helpers.
  - The dictionary helpers are `Insert` (create if missing, then `Dictionary.Add`) and `Lookup` (no dictionary, missing key, then conversion).
- `Ordering`: LINQ's stable `OrderBy` on priorities. The result is a sequence of queue positions; it is proved sorted, a permutation, and unique.
- `Steps`: the pure decisions of the executor (task validation, `CheckForCancellation`, `SingleOrDefault`), and the world outside it. The world is an oracle datatype giving:
  - each task's behaviour (succeeds, faults, throws on call, factory fails);
  - which task context a successful execution returns: the queued object itself, another object, or `null`;
  - the cancellation token at each check;
  - the clock delays;
  - how far the running tasks get between dequeues.
- `Traces`: a run as a sequence of events (dequeue, start, create, launch, execution end, release, end stamp, persist, continuation end, scope disposal, job end).
  - `Count` tallies the events.
  - `Replay` applies them to the job context as loaded.
  - `WellFormed` states, event by event, when an event may follow the ones before it.
- `Server` and `Execution`: the executor as imperative methods. Each one updates the `JobContext` object and the worker's state, appends the events it performs, and keeps the invariant `Inv`: the job context object equals the replay of the events, and the events are well formed.
  - The tasks running beside the worker are modelled by `Background`: it nondeterministically ends one running execution or runs one whole pending continuation. So every interleaving of whole executions and whole continuations with the worker's steps is covered; finer interleavings are listed under "Left out".
  - `ExecuteJob` promises `Reported`:
    - the events are well formed;
    - the job fails for want of a queue exactly when it has none;
    - every failure is explained by the events and leaves the job's `End` unstamped;
    - success persists a job context in which the job has an `End`, and a queued task has one exactly when it had one when loaded or its execution returned the queued object itself;
    - a job nothing can make fail succeeds.
- `Properties`: the properties every well-formed run has, proved on the events. They cover dispatch order, barriers, skipping, faults, exactly-once completion, and the job's end.

Timestamps are natural numbers; `0` is `DateTime.MinValue`. The clock starts at `1` or later and never goes back. Storage is a map from job IDs to stored job records, and each persist is a `Persisted(snapshot)` event.

Four behaviours of the code are easy to misread; the model follows the code in each:

- The comments at `PipelineServer.cs:102-106` put "Release instance" before "Check for task exception", as if a faulted task's instance were released too. But the continuation reads `continuation.Result` first (`PipelineServer.cs:101`), which throws for a faulted task. So a faulted task is never released, never gets an `End` and is never appended to `Completed`. A `null` result throws at `PipelineServer.cs:104` with the same effect.
- The documentation of `RunParallel` (`IPipelineTaskContext.cs:31-35`) says that later tasks run "once the task is complete", and the test at `PipelineServerTests.cs:312` asserts that a sequential task ends no later than the next task starts. After a sequential task the code waits only for its execution (`PipelineServer.cs:133`), not for its continuation. So the end stamp of a sequential task may come after the next parallel task has started, as `Properties.StartBeforeEarlierEnd` shows. The next sequential task's `Task.WaitAll` still waits for both.
- A task fault does not stop dispatch at once. A parallel task's fault is only observed at the next sequential task's `Task.WaitAll` or at the final one. So later parallel tasks may still be dispatched, and `Properties.DispatchOrder` holds either way.
- With two queued tasks sharing an ID, `SingleOrDefault` (`PipelineServer.cs:193`) throws in the first continuation that completes. This happens after its `End` stamp and `AddCompletedTask` and before the persist. The continuation faults and the job fails at the next barrier.

The end stamp is written on the object the execution returned (`PipelineServer.cs:101`, `116`), and line 194 only reassigns a local variable. So when a task returns a context object other than the one it was given, the queued entry keeps `End == DateTime.MinValue` while the returned object, stamped, is appended to `Completed`. Such a task runs again when the job is re-run.

## Model

| member | source | states |
|---|---|---|
| Values.ChangeType | src/Hangfire.Pipeline/PipelineExtensions.cs:45 | conversion to the value's own type returns it unchanged, and so does conversion to `object` of anything but a non-convertible object of another class than `object`, which fails with a cast error; an instance of exactly `object` converts to `object` only; `null` converts only to reference types; a stored `long` converts to `int` exactly when it is in range and otherwise overflows; a successful conversion has the requested type; only strings and out-of-range `long`s fail other than with a cast error |
| Values.FormatInteger | src/Hangfire.Pipeline/PipelineExtensions.cs:45 | the text of an `int` or a `long` is nonempty, unpadded, does not end in U+0000, and is all digits exactly when the number is not negative |
| Values.ParseInt32 | src/Hangfire.Pipeline/PipelineExtensions.cs:45 | parsing fails with a format or overflow error, never with a cast error; blank text is a format error |
| Values.TrailingNulIgnored | src/Hangfire.Pipeline/PipelineExtensions.cs:45 | a U+0000 appended to any text does not change what `Int32.Parse` makes of it |
| Values.NulAfterNumber | src/Hangfire.Pipeline/PipelineExtensions.cs:45 | `"12\0\0"` parses as 12 |
| Values.NulAfterWhiteSpace | src/Hangfire.Pipeline/PipelineExtensions.cs:45 | `" -7 \0"` parses as -7 |
| Values.WhiteSpaceAfterNul | src/Hangfire.Pipeline/PipelineExtensions.cs:45 | `"12\0 "` is a format error: white space may not follow the U+0000 characters |
| Values.ParseBoolean | src/Hangfire.Pipeline/PipelineExtensions.cs:45 | success means the trimmed text equals `True`/`False` ignoring case; failure is a format error |
| Values.Int32RoundTrip | src/Hangfire.Pipeline/PipelineExtensions.cs:45 | every `int` written with `ToString` parses back to itself |
| Values.IntThroughString | src/Hangfire.Pipeline/PipelineExtensions.cs:45 | an `int` converted to a string and back is the same `int` |
| Values.LongAsInt | src/Hangfire.Pipeline/PipelineExtensions.cs:45 | a number stored as a `long` converts to every target type but `object` exactly as the same number stored as an `int` |
| Values.BooleanRoundTrip | src/Hangfire.Pipeline/PipelineExtensions.cs:45 | a `bool` written with `ToString` and padded with white space parses back to itself |
| Contexts.Insert | src/Hangfire.Pipeline/PipelineExtensions.cs:28-33 | creates the dictionary when missing; fails with a duplicate-key error exactly when the key is present; on success the key maps to the value, the keys are the old ones plus it, and other entries are kept |
| Contexts.Lookup | src/Hangfire.Pipeline/PipelineExtensions.cs:39-47 | a missing dictionary fails first, then a missing key; when the key is present the lookup succeeds exactly when converting the stored value succeeds, returns that conversion, and a failure carries the conversion's error |
| Contexts.InsertThenLookup | src/Hangfire.Pipeline/PipelineExtensions.cs:28-47 | a value added under a key is read back unchanged as its own type, and as `object` unless it is a non-convertible object of another class than `object` |
| Contexts.InsertTwiceFails | src/Hangfire.Pipeline/PipelineExtensions.cs:32 | adding a key a second time fails with a duplicate-key error |
| Contexts.InsertKeepsOtherKeys | src/Hangfire.Pipeline/PipelineExtensions.cs:28-33 | adding a key changes what no other key reads |
| Contexts.TaskContext.AddArg | src/Hangfire.Pipeline/PipelineExtensions.cs:90-95 | fails exactly when the argument exists; otherwise `Args` is the insert of the pair and nothing else of the task changes |
| Contexts.TaskContext.GetArg | src/Hangfire.Pipeline/PipelineExtensions.cs:101-109 | no `Args` fails with the no-dictionary error, a missing key with key-not-found; for a present key it succeeds exactly when the stored argument converts, with the conversion's result or error |
| Contexts.AddArgThenGetArg | src/Hangfire.Pipeline/PipelineExtensions.cs:90-109 | an argument added to a task is read back as itself, as its own type or, when the conversion keeps it, as `object` |
| Contexts.QueueAllKeepsOrder | src/Hangfire.Pipeline/PipelineExtensions.cs:18-23 | queueing tasks one after another appends them in order after the existing ones, creating the queue when missing, and changes nothing else |
| Contexts.JobContext.QueueTask | src/Hangfire.Pipeline/PipelineExtensions.cs:18-23 | the job context afterwards is the old one with the task appended to the queue, which is created when missing |
| Contexts.JobContext.AddCompletedTask | src/Hangfire.Pipeline/PipelineExtensions.cs:76-81 | the job context afterwards is the old one with the task appended to `Completed`, which is created when missing |
| Contexts.JobContext.AddEnvironment | src/Hangfire.Pipeline/PipelineExtensions.cs:28-33 | succeeds exactly when the insert succeeds, and then only `Environment` changes, to the insert's result; otherwise nothing changes and the error is the insert's |
| Contexts.JobContext.GetEnvironment | src/Hangfire.Pipeline/PipelineExtensions.cs:39-47 | no `Environment` fails with the no-dictionary error, a missing key with key-not-found; for a present key it succeeds exactly when the stored value converts, with the conversion's result or error |
| Contexts.JobContext.AddResult | src/Hangfire.Pipeline/PipelineExtensions.cs:52-57 | as `AddEnvironment`, on `Result` |
| Contexts.JobContext.GetResult | src/Hangfire.Pipeline/PipelineExtensions.cs:63-71 | as `GetEnvironment`, on `Result` |
| Ordering.OrderByPriority | src/Hangfire.Pipeline/PipelineServer.cs:152 | the order lists every queue position once, by ascending priority, equal priorities in queue order |
| Ordering.StableOrderIsUnique | src/Hangfire.Pipeline/PipelineServer.cs:152 | any order that lists every position once, sorted stably, is the one `OrderBy` produces |
| Ordering.StableOrderAscending | src/Hangfire.Pipeline/PipelineServer.cs:149-157 | priorities never decrease along the order, and equal priorities come out in queue order |
| Ordering.StableOrderDistinct | src/Hangfire.Pipeline/PipelineServer.cs:149-157 | no position is dequeued twice |
| Ordering.PriorityExample | src/Hangfire.Pipeline/PipelineServer.cs:152 | priorities 300, 100, 400, 200 are dequeued as positions 1, 3, 0, 2 |
| Steps.CheckForCancellation | src/Hangfire.Pipeline/PipelineServer.cs:240-254 | proceeds exactly when neither token is cancelled; the internal token is checked first |
| Steps.InternalSourceCancelled | src/Hangfire.Pipeline/PipelineServer.cs:243-252 | the internal source is cancelled afterwards exactly when the check throws |
| Server.CancelledLeavesSourceCancelled | src/Hangfire.Pipeline/PipelineServer.cs:240-253 | a job that failed for cancellation leaves its internal source cancelled |
| Steps.ValidateTask | src/Hangfire.Pipeline/PipelineServer.cs:68-71 | passes exactly when task name and ID are neither null nor white space; a missing name is reported before a missing ID |
| Steps.SingleOrDefault | src/Hangfire.Pipeline/PipelineServer.cs:193 | fails exactly when two or more entries match, returns none exactly when none match, else the one match |
| Traces.ReplayShape | src/Hangfire.Pipeline/PipelineServer.cs:89-117 | a run changes only the queued tasks' start and end times (the end only of tasks that ended), `Completed` and the job's own times |
| Traces.Prologue | src/Hangfire.Pipeline/PipelineServer.cs:51-55 | every run stamps the job's start first, then persists the loaded job with that start |
| Traces.EndsStamped | src/Hangfire.Pipeline/PipelineServer.cs:101-117 | every task that ended after returning its queued context carries an end time of at least 1 in the queue; a task that returned another context, or did not end, keeps its loaded end time there |
| Server.EndExecution | src/Hangfire.Pipeline/PipelineServer.cs:97-98 | a running execution ends, faulted exactly when the task's behaviour is to fault; the invariant holds and outstanding work decreases |
| Server.FaultContinuation | src/Hangfire.Pipeline/PipelineServer.cs:101-104 | the continuation of a faulted execution, or of one that returned `null`, faults without releasing, stamping or persisting |
| Server.UpdateJobContextForTask | src/Hangfire.Pipeline/PipelineServer.cs:190-197 | succeeds exactly when the queue exists and `SingleOrDefault` on the IDs succeeds, returning the job context to store |
| Server.UniqueCompletionStep | src/Hangfire.Pipeline/PipelineServer.cs:101-120 | when the returned context's ID is unique in the queue, the continuation releases, stamps the end, persists and completes: the events stay well formed and the job context gains the end stamp on the returned context and its `Completed` entry |
| Server.DuplicateCompletionStep | src/Hangfire.Pipeline/PipelineServer.cs:101-119 | when the returned context's ID is shared, the continuation releases and stamps the end, then faults without persisting |
| Server.CompletionStep | src/Hangfire.Pipeline/PipelineServer.cs:101-120 | either case of the continuation keeps the events well formed and stamps the end into the job context |
| Server.StampTaskEnd | src/Hangfire.Pipeline/PipelineServer.cs:116-117 | the context the execution returned gets the end time and is appended to `Completed`; the queued entry changes only when that context is the queued object itself |
| Server.FinishContinuation | src/Hangfire.Pipeline/PipelineServer.cs:98-121 | the continuation of a successful execution performs the completion events, keeps the invariant and advances the clock |
| Server.Background | src/Hangfire.Pipeline/PipelineServer.cs:98-122 | one step of any running execution or pending continuation keeps the invariant, changes nothing the worker did and decreases outstanding work |
| Server.Interleave | src/Hangfire.Pipeline/PipelineServer.cs:98-122 | the running tasks take some steps while the worker goes on, keeping the invariant |
| Server.WaitAll | src/Hangfire.Pipeline/PipelineServer.cs:136 | afterwards no execution or continuation is outstanding, and the reported faults are exactly the faulted tasks |
| Server.WaitExecution | src/Hangfire.Pipeline/PipelineServer.cs:133 | afterwards the task's execution is complete; its continuation may still be outstanding |
| Server.GetConcurrentQueue | src/Hangfire.Pipeline/PipelineServer.cs:149-157 | fails exactly when the job has no queue; otherwise the queue is the stable priority order |
| Server.Dequeue | src/Hangfire.Pipeline/PipelineServer.cs:66 | takes the next position of the stable order, which has not started, and records the dequeue |
| Server.AdmitVerdict | src/Hangfire.Pipeline/PipelineServer.cs:68-74 | the task passes validation and cancellation exactly when the run may admit it; a rejection is explained by the events |
| Server.Admit | src/Hangfire.Pipeline/PipelineServer.cs:66-74 | dequeues the next task and stops exactly when its name or ID is missing or a token is cancelled, with the reason explained |
| Server.Skip | src/Hangfire.Pipeline/PipelineServer.cs:76-80 | a task with an end time is recorded as skipped and nothing else happens |
| Server.StartTask | src/Hangfire.Pipeline/PipelineServer.cs:89 | stamps the task's start with a clock reading no earlier than the last |
| Server.CreateInstance | src/Hangfire.Pipeline/PipelineServer.cs:94 | creating the instance fails exactly when the factory cannot create the task |
| Server.ExecuteTask | src/Hangfire.Pipeline/PipelineServer.cs:97 | the call throws exactly when the task throws on call; otherwise its execution is running |
| Server.Arrive | src/Hangfire.Pipeline/PipelineServer.cs:66-74 | after some steps of the running tasks, dequeues and checks the next task, keeping every previously dequeued task settled |
| Execution.Barrier | src/Hangfire.Pipeline/PipelineServer.cs:82-87 | afterwards nothing is outstanding, and the call throws exactly when some execution or continuation faulted |
| Execution.Spawn | src/Hangfire.Pipeline/PipelineServer.cs:94-127 | fails exactly when creation or the call throws; otherwise the task's execution is running |
| Execution.Launch | src/Hangfire.Pipeline/PipelineServer.cs:89-127 | stamps the start, then creates and launches the task; fails exactly when creation or the call throws |
| Execution.RunTask | src/Hangfire.Pipeline/PipelineServer.cs:82-134 | a sequential task waits for everything before it and is waited for; every failure is explained |
| Execution.LaunchAndWait | src/Hangfire.Pipeline/PipelineServer.cs:89-134 | launches the task and waits for a sequential task's execution, which fails the job if it faulted |
| Execution.Step | src/Hangfire.Pipeline/PipelineServer.cs:66-135 | one iteration dequeues one task and keeps the invariant; a failure is explained |
| Execution.RunTasks | src/Hangfire.Pipeline/PipelineServer.cs:66-135 | the loop stops at the first failure, with the reason explained, or drains the whole queue |
| Execution.OpeningOk | src/Hangfire.Pipeline/PipelineServer.cs:54-63 | the start stamp, its persist and the opening of the scope are well formed and set only the job's start |
| Execution.ClosingOk | src/Hangfire.Pipeline/PipelineServer.cs:137-140 | once everything completed without fault, disposal, end stamp and persist are well formed, and the last persist stores the final job context |
| Execution.AllFinished | src/Hangfire.Pipeline/PipelineServer.cs:66-136 | once the queue is drained and nothing is outstanding or faulted, every task ended or was skipped for having ended before |
| Execution.FinishedEnded | src/Hangfire.Pipeline/PipelineServer.cs:101-139 | then the job carries an end time, and a queued task carries one exactly when it had one when loaded or returned the queued object itself |
| Execution.GoodExplainsNothing | src/Hangfire.Pipeline/PipelineServer.cs:66-136 | when no task can fail and no cancellation occurs, the events explain no failure |
| Execution.Abandoned | src/Hangfire.Pipeline/PipelineServer.cs:63-137 | a failure inside the scope disposes it, leaves the job's end unstamped, and is possible only for a job that can fail |
| Execution.Close | src/Hangfire.Pipeline/PipelineServer.cs:137-140 | stamps the job's end and persists the final job context, whose queued end times are as `FinishedEnded` states |
| Execution.Conclude | src/Hangfire.Pipeline/PipelineServer.cs:136-140 | the final wait throws exactly when something faulted, leaving the end unstamped; otherwise the job is closed |
| Execution.ExecuteJob | src/Hangfire.Pipeline/PipelineServer.cs:43-142 | an unknown ID fails before anything happens; otherwise the run is well formed, fails for want of a queue exactly when there is none, every failure is explained and leaves the end unstamped, success stores a job with its end stamped and each queued task's end stamped exactly when it was loaded with one or returned the queued object, and a job nothing can make fail succeeds |
| Properties.ChainHolds | src/Hangfire.Pipeline/PipelineServer.cs:76-120 | in every run each stage of a task follows the previous one; skipped tasks had an end, started ones had none; only faulting tasks fault, only tasks that succeed and return a context are released, and a released task whose continuation completed has ended |
| Properties.SkippedNeverRun | src/Hangfire.Pipeline/PipelineServer.cs:76-80 | a skipped task is never started, never created by the factory, and never ended again |
| Properties.FaultedNeverReleased | src/Hangfire.Pipeline/PipelineServer.cs:101-108 | a task whose execution faulted is never released and never ended; its end stays as loaded |
| Properties.DequeuedInOrder | src/Hangfire.Pipeline/PipelineServer.cs:66 | the dequeued positions are always a prefix of the stable priority order |
| Properties.StartedWasDequeued | src/Hangfire.Pipeline/PipelineServer.cs:66-89 | a task that starts is the one dequeued last, and had not started before |
| Properties.DispatchOrder | src/Hangfire.Pipeline/PipelineServer.cs:149-157 | tasks start in ascending priority, equal priorities in queue order |
| Properties.SequentialStartsAlone | src/Hangfire.Pipeline/PipelineServer.cs:82-87 | a sequential task starts only when nothing dispatched is outstanding and nothing faulted |
| Properties.SequentialBlocks | src/Hangfire.Pipeline/PipelineServer.cs:129-134 | no task starts after a launched sequential task until its execution has ended |
| Properties.StartBeforeEarlierEnd | src/Hangfire.Pipeline/PipelineServer.cs:129-134 | a parallel task may start while an earlier sequential task's continuation is still pending and its end unstamped: the run stays well formed |
| Properties.AfterDisposal | src/Hangfire.Pipeline/PipelineServer.cs:63-140 | after the scope is disposed only the job's end and persists follow |
| Properties.EndAfterDrain | src/Hangfire.Pipeline/PipelineServer.cs:136-140 | the job's end is stamped only once every task was dequeued and everything completed without fault, never earlier than any clock reading, and only persists follow |
| Properties.EndedClean | src/Hangfire.Pipeline/PipelineServer.cs:136-140 | a run whose job end was stamped has no fault, nothing outstanding, and dequeued the whole order |
| Properties.FaultPreventsEnd | src/Hangfire.Pipeline/PipelineServer.cs:107-140 | the job's end is stamped only if nothing faulted; otherwise it stays as loaded |
| Properties.ClockNeverGoesBack | src/Hangfire.Pipeline/PipelineServer.cs:89-139 | every start, end and job end time is at least every clock reading before it |
| Properties.StampPositive | src/Hangfire.Pipeline/PipelineServer.cs:54 | the clock reading of a run that has begun is at least 1, later than `DateTime.MinValue` |
| Properties.CompletedOnce | src/Hangfire.Pipeline/PipelineServer.cs:116-117 | `Completed` keeps its earlier entries and grows by exactly one entry per task that ended, each carrying an end time of at least 1 |
| Properties.ReleasedOnce | src/Hangfire.Pipeline/PipelineServer.cs:105 | no task's instance is released twice |
| Properties.ReleasedAllEnded | src/Hangfire.Pipeline/PipelineServer.cs:105-139 | once the job's end is stamped, the released tasks are exactly the tasks that ended |
| Properties.ContinuationAfterEnd | src/Hangfire.Pipeline/PipelineServer.cs:105-120 | a continuation that released its instance completes only after stamping the task's end |
| Properties.StartsBeforeRefusal | src/Hangfire.Pipeline/PipelineServer.cs:68-74 | once a dequeued task failed its checks or cancellation was seen, every start came before that dequeue |
| Properties.RefusalStopsDispatch | src/Hangfire.Pipeline/PipelineServer.cs:68-74 | when the job fails for a missing name, a missing ID or cancellation, no task started after that dequeue |

## Left out

- Logging and the four hooks (`OnTaskStarted`, `OnTaskInstanceCreated`, `OnTaskExecuted`, `OnJobContextUpdatedForTask`): they are empty virtual methods.
- What task bodies do to the job context (`AddResult`, `AddEnvironment` from inside `ExecuteTaskAsync`) and to the task context they are given (its `Args`, `State` or `Id` changed in place): a task's execution is an oracle outcome that changes no field of the job context or of the queued task context. A task that returns another context object is modelled by that object's value.
- Cancellation while waiting (`Task.WaitAll(…, ct)`, `Wait(cts.Token)`), cancellation of the storage calls by `ct`, and the continuation's own cancellation by `ct` (`PipelineServer.cs:122`), which would skip it: the model checks the tokens only at the top of each iteration, and every continuation runs.
- Interleavings inside a continuation: `Background` runs a whole continuation as one step. It does not model the release (`PipelineServer.cs:105`), which is outside the lock, happening between the steps of another continuation's locked update. Nor does it model the worker's start stamp of a later task (`PipelineServer.cs:89`) falling between another continuation's end stamp and its persist, which would put that start into the snapshot persisted at lines 118-119.
- Tasks still running after `ExecuteJob` throws: the model stops the run at the exception and does not follow them.
- Aliasing of task contexts between `Queue`, `Completed` and the concurrent queue: a task context is a value. The start stamp (`PipelineServer.cs:89`) and, when the execution returns the queued object, the end stamp (`PipelineServer.cs:116`) are written at the task's queue position, and the appended `Completed` entry is a copy of that value. A returned object that is another task's queued object is treated as a separate value, so that other queue entry is not stamped.
- The stored form of a job: storage is a map from ID to job record, and persisting is an event carrying the snapshot. Serialization, SQL storage and compression are not part of this model. The fields the executor carries through every persist without reading or writing them are left out of the records: `HangfireId`, `HangfireQueue` and `State` of the job context (`PipelineJobContext.cs:9-12`) and `State` of the task context.
- The clock: `DateTime.UtcNow` is the previous reading plus an oracle delay, starting at 1 or later.
- The task factory: creation and release are events, and a factory failure is an oracle outcome. The dependency scope is the pair of events that open and dispose it.
- Traces.EventOk: the event rules alone do not force the run to stop after a factory failure or a throwing call. The executor method enforces this, and `ExecuteJob`'s contract reports the failure.
- Parallel tasks impose no wait: this is stated only for one step, by `Properties.StartBeforeEarlierEnd`, and no complete concrete run is exhibited. `Execution.RunTask` calls the barrier only for sequential tasks, and the event rules for starting a parallel task do not require anything to have completed.
- Execution.ExecuteJob: storage failures are not modelled. Loading the job (`PipelineServer.cs:51`) either finds it or reports it missing, and the persists at lines 55, 140 and 195 always succeed. A throwing `GetJobContextAsync` or `UpdateJobContextAsync` is not an outcome of the model.
- Execution.ExecuteJob: `_taskFactory.Release` (`PipelineServer.cs:218`) always succeeds. A release that throws, faulting the continuation before its end stamp, is not an outcome of the model.
- Execution.ExecuteJob: `_taskFactory.GetScope` (`PipelineServer.cs:63`, `174`) always succeeds. A scope that cannot be opened, failing the job after the start was persisted, is not an outcome of the model.
- Values.ChangeType: only the target types `object`, `string`, `int`, `bool` and `DateTime` are modelled; conversions to other types are not part of this model. Stored values are limited to `null`, strings, `int`, `long`, `bool`, `DateTime` and objects that are not convertible: a `double`, `decimal`, `char` or other convertible kind that a store may load (a JSON store reads real numbers as `double`) is not represented.
- Values.FormatInteger: a negative number is always written with `-`; the culture's `NegativeSign`, which `ToString()` uses, is not consulted.
- Values.ParseInt32: the sign is read as `-` or `+`; the culture's `NegativeSign` and `PositiveSign` strings are not consulted.
- Server.GetConcurrentQueue: a `null` entry in `Queue` is not represented; queued entries are always task contexts. In the code the key selector at `PipelineServer.cs:152` throws `NullReferenceException` on such an entry when the `foreach` at line 154 enumerates the ordering, failing the job after its start was persisted and before any task is examined.
- Values.ParseBoolean: `True`/`False` are compared ignoring ASCII case only (`Text.EqualsIgnoreCase`); other Unicode case mappings are not modelled.
- Contexts.Insert: keys are strings, never `null`. In the code `Dictionary.Add(null, value)` throws `ArgumentNullException` (`PipelineExtensions.cs:32`, `56`, `94`) after lines 30-31, 54-55 and 92-93 have already created a missing dictionary, so `AddEnvironment`, `AddResult` or `AddArg` with a `null` key leaves an empty dictionary behind and throws. The model has no such outcome.
- Contexts.Lookup: keys are strings, never `null`. In the code `ContainsKey(null)` throws `ArgumentNullException` (`PipelineExtensions.cs:43`, `67`, `105`), after the missing-dictionary check and instead of the key-not-found error. The model has no such outcome.
- `ToObject` and the other members of the repository outside `ExecuteJob` and the context helpers are not part of this model.
