# Job hosting scheduler — a Dafny model

This project models the job host of the task-management library
(`src/Microsoft.Health.TaskManagement/JobHosting.cs`). The host runs polling
workers that dequeue jobs from a persistent queue. It runs each job through a
handler made by a job factory, keeps the job's lease alive with a jittered
heartbeat timer, and finalises the job with one `CompleteJobAsync` call.

The model is sequential and has five modules:

- `Jobs` (`Jobs.dfy`) holds the data. `JobInfo` is a class whose `status` and
  `result` the host updates in place. The handler outcome is a closed datatype
  (`Success`, `HardFailure`, `SoftFailure`, `Canceled`, `Other`). `QueueClient`
  is a class that records every completion and heartbeat call made on it.
  `CancellationSource` is a class with one flag that can only be set.
- `Heartbeats` (`Heartbeats.dfy`) holds the jittered delay, one heartbeat tick,
  and a handler run while heartbeats tick.
- `Finalization` (`Finalization.dfy`) is the table from a handler outcome to
  the terminal status, the result, the `forceOneLastHeartbeat` flag and the
  log severity.
- `Hosting` (`JobHosting.dfy`) is the `JobHosting` class. Its `ExecuteJob`
  method finalises one dequeued job in place and is proved against
  `Finalize`.
- `Worker` (`Worker.dfy`) models one iteration of the polling loop and the loop
  itself, run over a script of rounds. `Iteration` is the iteration as a case
  table, with its properties as postconditions. The imperative `WorkerIteration`
  and every round of `RunWorker` are proved equal to it. An `Execute(job)`
  step is only logged: the loop model does not call `ExecuteJob` (line 108).
  That call is modelled on its own by `Hosting.JobHosting.ExecuteJob`.

`Scenarios.dfy` holds client methods. They show what a caller can conclude from
the contracts alone: an empty queue only sleeps, a success completes with
`"ok"`, a soft failure is not forced, a job with cancellation requested still
runs and ends `Cancelled`, and an unsupported job is left alone.

Inputs that stand for the outside world:

- `r < 100` is the draw of `RandomNumberGenerator.GetInt32(100)`. The delay
  `r / 100.0 * period` seconds is exactly `r * period` hundredths of a second,
  so no floating point is needed.
- `serialize` stands for `JsonConvert.SerializeObject`, an external function.
- The stopwatch becomes whole seconds. `elapsed` is the reading at one check,
  and `Round.advance` is the number of seconds between two checks.
- The store's answers are inputs. These are what each dequeue returns (a job,
  nothing, or an exception), what each heartbeat returns (`Reply(cancel)` or
  `Fault`), and whether completion calls throw (`QueueClient.failing`).
- The job factory is a function from a job snapshot to an optional handler. A
  handler is a function from the job and the state of its cancellation token to
  an outcome.
- A worker's settings are passed in as a `WorkerConfig`: the queue type, the
  worker name, `PollingFrequencyInSeconds` and
  `JobHeartbeatTimeoutThresholdInSeconds` (lines 38-40). The answer of
  `IsInitialized()` (line 70) is the `initialized` flag of each `Round`. The
  host object keeps only what `ExecuteJob` uses.

## Model

| member | source | states |
|---|---|---|
| `Heartbeats.JitterDelay` | src/Microsoft.Health.TaskManagement/JobHosting.cs:57 | The jittered delay used for a worker's startup and a job's first heartbeat is at most 99/100 of the period. It is strictly below the period when the period is positive, and never negative. |
| `Heartbeats.JitterDelayStrictlyIncreasing` | src/Microsoft.Health.TaskManagement/JobHosting.cs:289 | A larger random draw gives a delay at least one step of period/100 longer. So distinct draws spread workers started at the same instant. |
| `Heartbeats.CancelledAfter` | src/Microsoft.Health.TaskManagement/JobHosting.cs:295-313 | After a run of heartbeat ticks, the execution source is cancelled if and only if it was already cancelled or some tick got a `true` reply. A `false` reply or an exception changes nothing, and nothing un-cancels the source. |
| `Heartbeats.PutJobHeartbeat` | src/Microsoft.Health.TaskManagement/JobHosting.cs:295-313 | One tick sends the heartbeat record. The source becomes cancelled exactly when it already was or the reply is `true`. An exception is swallowed, and no completion is issued. |
| `Heartbeats.ExecuteJobWithHeartbeats` | src/Microsoft.Health.TaskManagement/JobHosting.cs:281-293 | Every heartbeat sent carries only the queue type, the id and the version. The first tick's delay is the jitter of the heartbeat period. The source ends as `CancelledAfter` the replies. The action's outcome is returned, and no completion call is made. |
| `Finalization.Finalize` | src/Microsoft.Health.TaskManagement/JobHosting.cs:181-278 | The disposition always has a terminal status. The status is `Completed` if and only if the handler succeeded, and `Cancelled` if and only if it was cancelled; every other outcome gives `Failed`. Only a soft failure completes without the forced last heartbeat. The result is the handler's string on success, the serialized `Error` on a hard or soft failure, and the serialized `{message, stackTrace}` on any other exception. A cancellation keeps the prior result. The severity is Error exactly for an unclassified exception or a failure that is not customer caused. |
| `Finalization.CustomerCausedOnlyChangesSeverity` | src/Microsoft.Health.TaskManagement/JobHosting.cs:183-231 | For a hard or soft failure, flipping `IsCustomerCaused` changes the log severity and nothing else in the disposition. |
| `Hosting.JobHosting.constructor` | src/Microsoft.Health.TaskManagement/JobHosting.cs:27-42 | The host keeps its queue client, its job factory and its heartbeat interval `JobHeartbeatIntervalInSeconds`. |
| `Hosting.JobHosting.ExecuteJob` | src/Microsoft.Health.TaskManagement/JobHosting.cs:145-279 | When the factory yields no handler, nothing is sent and the job is unchanged. Otherwise the handler runs even when cancellation was requested, and its source starts cancelled exactly when cancellation was requested. The job's status and result become those of `Finalize` for the outcome, and every other field is unchanged. Exactly one completion call is appended, carrying the job's new state and `Finalize`'s force flag, and a throwing store does not change that. |
| `Worker.Iteration` | src/Microsoft.Health.TaskManagement/JobHosting.cs:69-122 | Every dequeue is issued with this worker's queue type, name and lease timeout, and nothing is dequeued before the client is initialised. The expired-only scan runs if and only if the stopwatch exceeds 600 s, and it restarts the stopwatch. The normal dequeue runs if and only if there was no expired-only scan or that scan returned nothing. The iteration runs a job if and only if one of its own dequeues returned one, and then runs that job. Otherwise, including after a dequeue error, it sleeps the polling interval. |
| `Worker.WorkerIteration` | src/Microsoft.Health.TaskManagement/JobHosting.cs:69-122 | The imperative iteration makes exactly the dequeue calls, takes exactly the step and leaves exactly the stopwatch that `Iteration` gives for the same inputs. |
| `Worker.ScansSpacedExtend` | src/Microsoft.Health.TaskManagement/JobHosting.cs:59-80 | Appending a round keeps the expired-only scans spaced. This holds when a new scan comes more than 600 s after the previous scan, or after the start of the loop. |
| `Worker.LastScanBefore` | src/Microsoft.Health.TaskManagement/JobHosting.cs:76-78 | The stopwatch is last restarted at the latest earlier round that ran an expired-only scan: that round scanned, and no round between it and round `k` did. |
| `Worker.FollowsIterationsExtend` | src/Microsoft.Health.TaskManagement/JobHosting.cs:61-123 | When the next round runs one iteration at the stopwatch reading it sees, every round of the longer log is still the iteration of its own round. |
| `Worker.RunWorker` | src/Microsoft.Health.TaskManagement/JobHosting.cs:54-123 | The loop starts after the jittered startup delay and stops at the first round where shutdown is requested. Each logged round `k` is exactly `Iteration` of round `k`'s inputs, at the stopwatch reading of that round. That reading is the seconds since the last expired-only scan before `k`, or since the loop started. So each round has every property `Iteration` guarantees: no skipped job, no job it did not dequeue, no empty round, and an expired-only scan exactly when the reading exceeds 600 s. Expired-only scans come more than 600 s of loop uptime apart, and the first comes after 600 s. |

## Left out

- Pool coordination in `ExecuteAsync` (lines 46-52 and 125-142) is left out. This covers the `Task.Run` workers, `Task.WhenAny`, cancelling the shared source and `Task.WhenAll`. It is concurrency. The model keeps only the effect of the loop guard (line 61): a worker stops at the first round where shutdown is requested.
- The heartbeat timer racing the handler (line 289) is left out. The ticks that fire during a run are a sequence of replies applied in order after the handler starts. The handler observes the token as those ticks leave it. Ticks that fire after the timer is disposed are not modelled.
- Logging, `Activity` tracing (lines 92-106) and the hourly `_lastHeartbeatLog` message (lines 63-67) are left out. The one exception is the severity of the message that logs the handler's outcome, because it is the only effect of `IsCustomerCaused`.
- Finalization.Finalize: its `severity` is that of the message logging the handler's outcome only. The Error logged when `CompleteJobAsync` throws (lines 203, 228, 244, 263, 277) is not modelled. Neither is the fact that on success the Information message "Job completed." is logged only after the completion call returns (line 273).
- `_jobFactory.Create` (line 150) and `_queueClient.IsInitialized()` (line 70) are total functions here. In the source, both run outside any `try`. A throw from either ends the worker's task, and through lines 131-137 that cancels the whole pool. The model does not capture that crash.
- `Task.Delay` and its `TaskCanceledException` (lines 113-121) are left out. A sleep is a `Sleep(seconds)` step.
- `JsonConvert.SerializeObject`, `DateTime.UtcNow`, `Stopwatch` and `RandomNumberGenerator` are inputs of the model, as described above.
- Floating point is left out. `JobHeartbeatIntervalInSeconds` is a `double` in the source, and the model uses whole seconds.
- The default values from `Constants` are left out, because `Constants` is not part of this model. The constructor takes the settings as arguments.
- `EnsureArg` null checks and the disposal of `IScoped<IJob>` and of the cancellation source are left out. Dafny references here are non-null, and disposal has no effect the model can observe.
- A `null` result string is not distinguished from a string value.
- Hosting.JobHosting.ExecuteJob: the handler gets an immutable snapshot of the job and cannot change the record. In the source, the handler gets the live `jobInfo` object (line 177), and that same object is later sent to `CompleteJobAsync` (lines 199, 224, 240, 259, 272). So anything the handler writes to it, such as a `Result` set before an `OperationCanceledException`, reaches the store. "Every other field is unchanged" in this member and "a cancellation keeps the prior result" in `Finalization.Finalize` mean unchanged by the host only.
- Heartbeats.ExecuteJobWithHeartbeats: does not say when, relative to the ticks, the handler returns. Its outcome is a function of the token's final state.
- The rest of the repository is not part of this model. This includes the Cosmos DB and SQL test fixtures, the watchdog background service, the FHIR data-synthesis adapter, the header and transaction-exception tests, and the bulk-operation data holders.

Behaviour of the code worth noting:

- Before the queue client is initialised, the worker sleeps the ordinary polling interval (line 116).
- An exception from the expired-only scan also skips that iteration's normal dequeue (lines 76-87). The worker then sleeps the polling interval.
- The stopwatch restarts before the expired-only scan is issued (line 78), so it restarts even when that scan throws.
