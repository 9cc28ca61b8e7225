# Cloud print agent: a verified model

The agent takes print jobs from a cloud service, queues them per printer, prints them with
retries, and keeps a connection to the cloud on which it reports. These Dafny modules model the
parts with the most state and state over whole runs what they guarantee, and where they do not,
exactly when.

Check everything with `dafny verify dfyconfig.toml`.

## How it is modelled

- Code that changes things in place is a class with the same fields: `Queue` (slices over backing
  arrays, the map of device queues), `Store.TaskRepo`, `Execution.TaskRun`, `Reporter.Reporter`,
  `Link.Heartbeat` and `Link.Reconnect`, `Debounce.Debouncer`, `ConfigFile.FileSystem`,
  `DomainUpdate` (the configuration object shared by updater and link, connections shared by four
  components), `Lpr.Connection`, `Migrate.Migrator`. Their methods are proved against functions on
  values, and the theorems are about those functions.
- Goroutines, timers and locks are state machines: every locked section, channel operation, timer
  firing and call made outside a lock is one step, `Next` is the step function, and a theorem about
  `Run(INITIAL, steps)` is about every interleaving. `Pipeline` is consumers, channel and workers;
  `WakeUp` the condition variable of one device queue; `StoreRaces` the save that follows an
  enqueue; `Restarts` the life of a store over calls, restarts and failed recoveries; `ReporterRaces`, `Link` and `Debounce` their namesakes. The methods of `Debouncer` and
  `Reconnect` are tied to the steps of their machines.
- The network, the file system, the clock and the devices are outcomes: each call that can fail
  takes a value that says how it ends, and theorems hold for all of them.

## What does not hold, and when it does

Several statements one would expect are false of the code. Each has a lemma with the exact
condition or a run that shows the failure.

- README.md:115 promises serial execution per device. It holds if and only if there is one worker
  (`Pipeline.SerialIffOneWorker`); the order in which a device's jobs are started always holds.
- README.md:112 promises that nothing queued is lost on power failure. Only records stored as
  RUNNING or RETRYING are recovered; recovery stores them as PENDING, so that they are unprotected
  from then on; and only as many as a queue holds go back into it. So, for calls that are not
  interleaved, the next restart loses nothing if and only if every live job was submitted as RUNNING
  or RETRYING since the last recovery and they fit (`Restarts.RestartKeepsAllIff`; a recovery that
  failed counts for the records it rewrote). Ordinary
  submissions are all lost (`Recovery.RestartForgetsPending`), so is what one restart has recovered
  at the next (`Restarts.SecondRestartForgets`, `Restarts.KeptOnce`), what a recovery has rewritten
  before it fails (`Restarts.FailedRecoveryLoses`), and what does not fit
  (`Restarts.RestartDropsSecond`). With interleaving, the status that counts is the one a job has when
  Enqueue saves it, which a worker may have changed by then (`StoreRaces.FindsStatusAtSave`).
- The queue never assigns sequence numbers although they are the storage key
  (internal/taskqueue/queue.go:97-104, internal/storage/task_repo.go:61). Two live jobs of a device
  with one number overwrite each other's record (`QueueSpec.EnqueueAgreesIff`).
- Enqueue saves after it has released the lock, so a cancel that comes in between erases nothing
  and the record stays behind (`StoreRaces.LeftBehindIff`).
- A missing device or adapter marks a job FAILED and reports it, and the job is then retried
  (`Execution.TerminalFinalIff`, `Execution.MissedOverwritten`). A negative retry count panics
  (`Execution.NegativeCountPanics`).
- Close releases the consumers of exactly those device queues that it found in the map
  (`WakeUp.ReleasedIffSnapped`). One created afterwards keeps its consumer waiting for ever
  (`WakeUp.ParkedForGood`, `WakeUp.MissedByShutdown`); Stop then waits for it and Shutdown runs into
  its time limit (internal/lifecycle/app.go:212-247).
- A local-recovery loop that ends on a failed attempt leaves the flag set, and no later loss starts
  a loop again (`Link.FlagWithoutLoopIff`, `Link.AbandonedForGood`).
- The 32nd delay in a row of failed reconnects is negative (`Backoff.FirstWrongDelay`).
- A failed domain switch rolls back the configuration but not the link, and if the second save
  fails the file stays on the rejected endpoint, where that is another one (`DomainUpdate.LinkServesIff`,
  `DomainUpdate.DiskDisagreesIff`).
- The debouncer reports outside its lock, so a device's last report can be an older status
  (`Debounce.OutdatedLastReport`, and exactly when: `Debounce.LastReportIsNewestIff`). After the
  shutdown drain a timer may flush an entry that is not its own (`Debounce.ForeignFlushIff`).
- The LPR exchange is the code's own: against sections 6.2 and 6.3 of RFC 1179 the two commands are
  numbered the other way round and a command line ends with a zero byte, and no command of section
  5.2 opens the exchange. The round trip is with a receiver of that framing.

## Model

| member | source | states |
|---|---|---|
| `Pipeline.Conservation` | internal/executor/executor.go:96-143 | In every interleaving of accept, cancel, close, stop, consumer and worker steps, a device's accepted tasks minus its successful cancels equal, in order, what workers received, then its tasks in the channel, then the one its consumer holds or dropped, then its queue |
| `Pipeline.StartOrder` | internal/executor/executor.go:120-142 | Workers start a device's tasks in acceptance order, each at most once, and never one whose cancel succeeded |
| `Pipeline.HistoriesGrow` | internal/taskqueue/queue.go:88-105 | A longer run revises nothing: histories only grow, and a closed device queue accepts nothing more |
| `Pipeline.SerialIffOneWorker` | README.md:115 | The documented serial execution per device holds of every run if and only if the executor was started with exactly one worker |
| `Pipeline.OverlapReachable` | internal/executor/executor.go:84-109 | With any other worker count there is a run in which two tasks of one device execute at once |
| `Pipeline.PassThrough` | internal/executor/executor.go:96-142 | From an idle path one more task reaches a chosen free worker while the others keep running |
| `Pipeline.LiveCancel` | internal/taskqueue/queue.go:172-178 | Cancelling one more task takes exactly that task out of the live sequence, wherever it stands |
| `Pipeline.SenderOwns` | internal/executor/executor.go:125-140 | A consumer only ever holds a task of its own device |
| `Pipeline.StepKeepsInv` | internal/executor/executor.go:96-143 | Every step keeps numbering and conservation for every device |
| `Pipeline.OrderlyRuns` | internal/executor/executor.go:96-143 | In every run queues and channel keep to their bounds (100 tasks and 5 workers unless given), whatever was cancelled was PENDING, a task is dropped and a worker quits only after Stop, and a consumer ends only after Stop or once its queue is closed |
| `Pipeline.StopEndsTaking` | internal/executor/executor.go:120-129 | After Stop each consumer takes at most one more task, and only if it was inside Dequeue |
| `Pipeline.QuitForGood` | internal/executor/executor.go:96-108 | A worker that has seen the cancelled context never takes a task again |
| `Pipeline.ClosedGivesNothing` | internal/taskqueue/queue.go:133-135 | Once its queue is closed nothing more reaches the workers from it, whatever still waits there |
| `WakeUp.NoLostWakeUp` | internal/taskqueue/queue.go:127-144 | For any number of consumers: outstanding signals, broadcasts and wake-ups run out after boundedly many steps however they are scheduled, and a consumer still parked then waits on an empty, open device queue that no Close has seen |
| `WakeUp.StepKeepsInv` | internal/taskqueue/queue.go:88-143 | Every step keeps the coverage of queued tasks by unsent signals and woken consumers although Signal and Broadcast come after the unlock |
| `WakeUp.InternalStepShrinks` | internal/taskqueue/queue.go:117 | Every step that only finishes what was begun lowers a measure |
| `WakeUp.CoverageNeedsOpen` | internal/taskqueue/queue.go:133-143 | The coverage is about open queues only: a run in which a closed queue has more tasks than signals and woken consumers |
| `WakeUp.ReleasedIffSnapped` | internal/taskqueue/queue.go:226-243 | For every reachable state with nothing on its way: nobody is parked now or in any continuation if and only if some Close had the device queue in its snapshot |
| `WakeUp.ShutdownReleases` | internal/taskqueue/queue.go:226-243 | Once the closers of a snapshot that held the device queue are done, nobody is parked there, for good |
| `WakeUp.ClosedOnlyRemoves` | internal/taskqueue/queue.go:133-135 | Once closed a device queue admits nothing and gives no consumer a task: it loses exactly what is removed otherwise |
| `WakeUp.ParkedForGood` | internal/taskqueue/queue.go:231-243 | Whoever is parked on a device queue that no snapshot held, after the flag was set, stays parked in every continuation without another Close or recovery |
| `WakeUp.MissedByShutdown` | internal/taskqueue/queue.go:231-243 | Such a consumer exists: a run that creates the device queue after the snapshot |
| `Execution.TaskRun.ExecuteTaskLoop` | internal/executor/execute.go:19-55 | The loop in place computes the run specified by `Loop`, whatever every attempt meets and wherever the context is cancelled |
| `Execution.TaskRun.ExecuteTask` | internal/executor/execute.go:57-112 | One attempt: the log it leaves and the error it returns, branch by branch |
| `Execution.TaskRun.Reschedule` | internal/executor/retry.go:20-79 | handleRetry: counter, statuses, errors, delay, final failure, panic on a negative shift |
| `Execution.TaskRun.MarkTaskFailed` | internal/executor/execute.go:144-149 | The four fields of a failed task |
| `Execution.TaskRun.FireTaskResult` | internal/executor/executor.go:55-64 | One result with the task as it is now |
| `Execution.BoundedAttempts` | internal/executor/execute.go:19-55 | For every retry count r: without cancellation the loop returns in SUCCESS or FAILED after at most max(1, 4 - r) attempts that were not answered by offline, or panics if r is negative or the largest integer, or the environment has given fewer attempts so far; FAILED uses exactly that many |
| `Execution.ResultsFired` | internal/executor/execute.go:57-111 | In every run, whatever the retry count, cancelled or not: one result per attempt without device or adapter, with FAILED, its own code and text and the end of that round; and one more exactly when the loop returns by itself, last, with SUCCESS or FAILED and the fields of the last round |
| `Execution.ResultsAreTerminal` | internal/executor/executor.go:55-64 | No result ever fired in a run says anything but SUCCESS or FAILED |
| `Execution.InterruptedWaiting` | internal/executor/retry.go:43-69 | A loop cancelled while it waits before a retry leaves the task RETRYING with the error of the attempt and the time of the next one |
| `Execution.AttemptFacts` | internal/executor/execute.go:57-112 | One attempt in literals: which results it fires with what fields, and the code and text of its error |
| `Execution.OfflineRoundPreserves` | internal/executor/execute.go:37-48 | An offline device changes nothing but the number of rounds used, and is reported with its own code and text |
| `Execution.FinalFields` | internal/executor/execute.go:101-104 | A finished task has no retry pending, the time of its last round, no error after SUCCESS, and after FAILED the code and text of the last attempt's error and the start of its data, and is otherwise the job it was |
| `Execution.TerminalFinalIff` | internal/executor/execute.go:58-73 | For every run, cancelled or not, and every retry count no terminal status is ever overwritten if and only if no device or adapter was missing at an attempt that is rescheduled |
| `Execution.MissedOverwritten` | internal/executor/retry.go:43 | A missing device or adapter at such an attempt puts FAILED before RETRYING |
| `Execution.LoopStep` | internal/executor/execute.go:28-53 | How the loop proceeds from one uncancelled round: when it goes on, what it has fired, how the retry count moved |
| `Execution.CutRound` | internal/executor/execute.go:21-46 | A round in which the context is cancelled is the last one, and its results are those of its attempt only |
| `Execution.NegativeCountPanics` | internal/executor/retry.go:47 | A negative retry count panics at the first failed attempt that is not an offline answer |
| `Execution.RetryDelays` | internal/executor/retry.go:14-50 | The delays that occur are 5, 10 and 20 seconds; the cap is never reached |
| `Store.TaskKeyOrder` | internal/storage/task_repo.go:29-33 | Keys are injective, ordered as unsigned numbers, and ordered as the sequence numbers exactly for two numbers of the same sign |
| `Store.LexIsNumeric` | internal/storage/task_repo.go:29-33 | Byte-lexicographic order of equally long keys is the order of their big-endian values |
| `Store.ValueOfBigEndian` | internal/storage/task_repo.go:29-33 | Decoding a big-endian key gives the number back |
| `Store.PutExisting` | internal/storage/task_repo.go:61 | A put under an existing key replaces that record and moves nothing |
| `Store.PutNew` | internal/storage/task_repo.go:61 | A put under a new key inserts one record at its place in key order |
| `Store.PutSorted` | internal/storage/task_repo.go:61 | Buckets stay in key order |
| `Store.SaveKeepsKeys` | internal/storage/task_repo.go:51-63 | A save keeps every record under the key of its own number, in the bucket of its own device |
| `Store.DeleteKeepsKeys` | internal/storage/task_repo.go:87-105 | So does a delete |
| `Store.TaskRepo.SaveTask` | internal/storage/task_repo.go:51-63 | The bucket after the transaction, or the old one if it fails |
| `Store.TaskRepo.DeleteTask` | internal/storage/task_repo.go:87-105 | The cursor scan deletes exactly the first record in key order with that task id, if any |
| `Store.TaskRepo.LoadTasks` | internal/storage/task_repo.go:65-85 | The scan yields the task of every record, position by position in key order, or nothing if a decoding fails |
| `Store.TaskRepo.ListDeviceBuckets` | internal/storage/task_repo.go:107-121 | Every device with a bucket, once |
| `Store.TaskRepo.RecoverRecord` | internal/storage/recover.go:34-38 | One unfinished record rewritten in place as Store.RecoveryRewrites says |
| `Store.RecoveryRewrites` | internal/storage/recover.go:30-38 | Field by field: a RUNNING or RETRYING record becomes PENDING, started when it was received, and keeps its ten other fields; any other record is left as it is |
| `Store.TaskRepo.RecoverBucket` | internal/storage/recover.go:26-47 | One bucket rewritten in place, or a prefix of it if the load or a write fails, with the recovered records in key order |
| `Store.TaskRepo.RecoverAll` | internal/storage/recover.go:18-50 | On success every bucket is recovered and the result lists the recovered records per device; after a failed listing, load, decoding or write every record is untouched or recovered; keys are kept either way |
| `Store.NothingLeftToFind` | internal/storage/recover.go:25-53 | A recovered bucket has nothing to recover |
| `Store.RecoverTwice` | internal/storage/recover.go:18-53 | Recovery is idempotent and never touches a record that is neither RUNNING nor RETRYING |
| `SeqNoOrder.SortSorts` | internal/taskqueue/recover.go:38-40 | Sorting distinct numbers gives an ascending permutation |
| `SeqNoOrder.SortKeeps` | internal/taskqueue/recover.go:38-40 | Sorting is a permutation |
| `SeqNoOrder.SortUnique` | internal/taskqueue/recover.go:38-40 | There is only one ascending permutation, so the choice of algorithm cannot show |
| `QueueSpec.CallFrame` | internal/taskqueue/queue.go:62-198 | One call touches one device only, never reopens or grows a closed queue, and grows a queue by at most one and never beyond the capacity |
| `QueueSpec.RunFrame` | internal/taskqueue/queue.go:62-198 | The same over every run of calls |
| `QueueSpec.CapacityBound` | internal/taskqueue/queue.go:93-96 | In every run every device queue stays within the capacity |
| `QueueSpec.EnqueueAnswers` | internal/taskqueue/queue.go:68-125 | Which error an enqueue returns, case by case; on success one task is appended, with PENDING for an empty status, the clock for a missing arrival time and every other field as given, and exactly that task is stored |
| `QueueSpec.CancelAnswers` | internal/taskqueue/queue.go:163-198 | A cancel succeeds if and only if the first waiting task with the id is PENDING, and takes exactly that one; TASK_CANCEL_FAIL if it is not PENDING, TASK_NOT_FOUND if there is none, and then nothing changes |
| `QueueSpec.TakeAnswers` | internal/taskqueue/queue.go:127-161 | Dequeue yields nothing from a closed queue, the head of an open one, and otherwise parks; TryDequeue yields the head of either |
| `QueueSpec.CloseAnswers` | internal/taskqueue/queue.go:226-243 | Close sets every flag and leaves every waiting task |
| `QueueSpec.RestoreAnswers` | internal/taskqueue/recover.go:67-81 | A recovered task is appended as it is unless its queue is closed or full |
| `QueueSpec.FirstInFirstOut` | internal/taskqueue/queue.go:97-181 | Over every run of calls a device's tasks leave its queue in the order of acceptance, each once: what was taken, followed by what still waits, is what was accepted without the tasks cancelled while they waited |
| `QueueSpec.EnqueueAgreesIff` | internal/taskqueue/queue.go:104-108 | An accepted task keeps store and queue in agreement if and only if no live task of the device has its sequence number |
| `QueueSpec.CancelAgreesIff` | internal/taskqueue/queue.go:172-181 | A successful cancel keeps them in agreement if and only if every other live task of the device with that id has a larger number, as numbers are ordered in the store |
| `QueueSpec.StoreAgreement` | internal/taskqueue/queue.go:97-188 | After every run of atomic calls with working storage and distinct numbers and ids the store holds, per device, exactly the accepted tasks minus the cancelled ones |
| `QueueSpec.CallConsistent` | internal/taskqueue/queue.go:97-188 | What every call keeps between queue, bucket and live tasks |
| `StoreRaces.LeftBehindIff` | internal/taskqueue/queue.go:104-115 | With the save after the unlock, storing the object that workers change meanwhile, in every interleaving: once its save is done a cancelled task still has a record if and only if the cancel came between its append and its save |
| `StoreRaces.AgreesAtRestIff` | internal/taskqueue/queue.go:104-115 | With no save outstanding there are records for exactly the accepted tasks that were not cancelled if and only if no cancel ever came in between |
| `StoreRaces.FindsStatusAtSave` | internal/taskqueue/queue.go:97-108 | A restart finds exactly the tasks kept that were RUNNING or RETRYING at the moment of their save, whatever they were submitted as |
| `StoreRaces.SavedAsWorked` | internal/taskqueue/queue.go:104-108 | A run in which a worker overtakes the save, so that the record has any status the worker gives it |
| `StoreRaces.LeftBehindReachable` | internal/taskqueue/queue.go:178-188 | It happens: append, cancel, save |
| `Queue.DeviceQueue.Append` | internal/taskqueue/queue.go:104 | append to the slice, in place or into a wider array, appends to its content |
| `Queue.DeviceQueue.Advance` | internal/taskqueue/queue.go:138-139 | Moving the head yields the first element and leaves the rest |
| `Queue.DeviceQueue.ShiftLeft` | internal/taskqueue/queue.go:178 | The overlapping copy inside append moves the cells behind the gap left by one |
| `Queue.DeviceQueue.DeleteAt` | internal/taskqueue/queue.go:178 | The shift-left delete removes exactly element i from the content |
| `Queue.DeviceQueue.IndexOf` | internal/taskqueue/queue.go:172-173 | The search finds the first task with the id |
| `Queue.DeviceQueues.constructor` | internal/taskqueue/queue.go:36-49 | No device queues, default capacity for a non-positive one |
| `Queue.DeviceQueues.GetOrCreate` | internal/taskqueue/queue.go:51-60 | An existing device queue unchanged, or a new empty one |
| `Queue.DeviceQueues.Enqueue` | internal/taskqueue/queue.go:68-105 | The in-memory half of Enqueue over arrays refines the sequence-level call, errors included, for every device at once |
| `Queue.DeviceQueues.Admit` | internal/taskqueue/queue.go:86-105 | Its locked section, with the defaults filled into the clone |
| `Queue.DeviceQueues.Dequeue` | internal/taskqueue/queue.go:127-143 | One pass of the wait loop: closed, a task, or parking |
| `Queue.DeviceQueues.TryDequeue` | internal/taskqueue/queue.go:146-161 | The head if there is one, closed or not |
| `Queue.DeviceQueues.Cancel` | internal/taskqueue/queue.go:163-198 | Removes the first task with the id if it is PENDING; otherwise nothing changes and the error says why |
| `Queue.DeviceQueues.PendingCount` | internal/taskqueue/queue.go:200-208 | The length of the device's queue |
| `Queue.DeviceQueues.ListPending` | internal/taskqueue/queue.go:210-224 | The device's queue in order |
| `Queue.DeviceQueues.Close` | internal/taskqueue/queue.go:226-243 | Sets the flag and closes every device queue, in whatever order the map yields them, tasks untouched |
| `Queue.DeviceQueues.Restore` | internal/taskqueue/recover.go:67-81 | enqueueRecovered |
| `Queue.DeviceQueues.RestoreAll` | internal/taskqueue/recover.go:42-58 | As many of one device's sorted tasks as fit are appended, the rest refused |
| `Queue.DeviceQueues.RestoreDevices` | internal/taskqueue/recover.go:37-59 | Every found device is refilled, in whatever order the map yields them |
| `Queue.Queue.Enqueue` | internal/taskqueue/queue.go:68-125 | Memory and store after an enqueue, with a failed save only logged |
| `Queue.Queue.Cancel` | internal/taskqueue/queue.go:163-198 | Memory and store after a cancel |
| `Recovery.Recoverer.Recover` | internal/taskqueue/recover.go:26-65 | Queues and store after recovery; an error leaves the queues alone |
| `Recovery.RecoverRebuilds` | internal/taskqueue/recover.go:26-65 | Into empty queues: each device gets the ascending prefix, as long as the capacity allows, of exactly its RUNNING and RETRYING records, all PENDING |
| `Recovery.FoundFacts` | internal/storage/recover.go:30-53 | What recovery finds in a bucket: exactly the unfinished records, with distinct numbers |
| `Restarts.RestartKeepsAllIff` | README.md:112 | The documented durability, exactly, over every sequence of calls, restarts and recoveries that fail midway: the next restart keeps every accepted task that was not cancelled if and only if each was submitted as RUNNING or RETRYING since the last recovery and they are no more than a queue holds |
| `Restarts.RestartFinds` | internal/storage/recover.go:30-53 | The next recovery finds exactly the live tasks submitted as RUNNING or RETRYING since the last one |
| `Restarts.SecondRestartForgets` | internal/storage/recover.go:34-36 | After any such sequence two restarts in a row leave empty queues: recovery stores what it finds as PENDING |
| `Restarts.FailedRecoveryLoses` | internal/lifecycle/app.go:105-109 | A recovery that fails loses every task whose record it has rewritten: the queues stay empty and no later restart finds it |
| `Restarts.EventKeepsInv` | internal/taskqueue/recover.go:26-65 | Every call, restart and failed recovery keeps queues, store and live tasks matched |
| `Restarts.KeptOnce` | internal/storage/recover.go:34-36 | A run: a task submitted as RUNNING survives one restart and not the next |
| `Recovery.DroppedIffOverCapacity` | internal/taskqueue/recover.go:42-52 | Recovery keeps the oldest records, leaves one out if and only if the device has more than fit, and no later recovery finds what it left out |
| `Restarts.RestartDropsSecond` | internal/taskqueue/recover.go:42-52 | A run of three calls after which a restart loses a task submitted as RUNNING |
| `Recovery.KeepsAllIff` | internal/taskqueue/recover.go:26-65 | Wherever queue calls keep store and live tasks matched, recovery loses none if and only if every record says RUNNING or RETRYING and they fit |
| `Recovery.FindsUnderWay` | internal/storage/recover.go:30-53 | And it finds exactly the live tasks whose record says so |
| `Recovery.RestartForgetsPending` | README.md:112 | For calls that are not interleaved: if no task was submitted as RUNNING or RETRYING, a restart rebuilds empty queues whatever was accepted and saved |
| `Reporter.Conn.Write` | internal/cloudlink/reporter.go:68-72 | A connection that stays broken after its first failed write |
| `Reporter.Reporter.Send` | internal/cloudlink/reporter.go:55-74 | Delivered, or buffered; without a connection no error is reported; the wire carries the given message if it was delivered |
| `Reporter.Reporter.Buffer` | internal/cloudlink/reporter.go:76-83 | Appends, dropping the oldest of 256 |
| `Reporter.Reporter.UpdateConn` | internal/cloudlink/reporter.go:46-53 | Installs the connection and flushes; the wire is extended by exactly the messages delivered, in order |
| `Reporter.Reporter.FlushBuffer` | internal/cloudlink/reporter.go:85-112 | Every pending message is offered once, in order, and the wire is extended by exactly the messages delivered |
| `Reporter.InOrderDelivery` | internal/cloudlink/reporter.go:46-112 | Over every run, delivered messages followed by the buffer are in the order of the Send calls without duplicates, every other message was evicted, and evicted ones are older than all that is buffered |
| `Reporter.MessagesAreGiven` | internal/cloudlink/reporter.go:55-83 | Over every run each message delivered, buffered or evicted is the argument of its own Send call, and at most 256 are buffered |
| `Reporter.EvictedOnlyWhenFull` | internal/cloudlink/reporter.go:76-83 | A message is evicted only by a call that leaves 256 newer messages in the buffer |
| `Reporter.FlushDelivers` | internal/cloudlink/reporter.go:95-111 | A flush delivers in order as many messages as the link takes and keeps the rest in order, evicting none |
| `Reporter.FlushOrderIff` | internal/cloudlink/reporter.go:104-111 | For arbitrary write outcomes a flush keeps the order if and only if no write succeeds after a failed one |
| `ReporterRaces.ExactlyOnce` | internal/cloudlink/reporter.go:46-112 | In every interleaving of concurrent Sends and flushes each message is in exactly one place, once |
| `ReporterRaces.BufferIsQueue` | internal/cloudlink/reporter.go:76-83 | Between two flushes, whoever appends, the buffer is a queue that loses its oldest messages only, and only when it is full |
| `ReporterRaces.FlusherKeepsOrder` | internal/cloudlink/reporter.go:104-111 | In every interleaving a flush tries what it took in order: what it has not tried is the end of what it had |
| `ReporterRaces.DirectSend` | internal/cloudlink/reporter.go:59-73 | A Send on a connection that takes the message leaves the buffer alone |
| `ReporterRaces.BufferBounded` | internal/cloudlink/reporter.go:76-103 | As long as nil is never installed the buffer never exceeds 256 and no flush finds the connection missing |
| `ReporterRaces.NilOverflows` | internal/cloudlink/reporter.go:98-102 | With nil the bound fails: a run that leaves 257 messages in the buffer, in the order they were sent |
| `Link.Heartbeat.RecordMiss` | internal/cloudlink/heartbeat.go:207-220 | The loss handler is called exactly on the third and every later miss of an unbroken streak |
| `Link.Heartbeat.ResetCount` | internal/cloudlink/heartbeat.go:86-91 | A new connection or a success ends the streak |
| `Link.Heartbeat.SendOnce` | internal/cloudlink/heartbeat.go:143-204 | Which outcomes are misses and which reset the counter |
| `Link.StreakMeans` | internal/cloudlink/heartbeat.go:207-217 | The counter says how many of the last beats were misses |
| `Link.Reconnect.HandleDisconnect` | internal/cloudlink/reconnect.go:74-84 | The test-and-set that both loops begin with is the step of the machine, and a loop starts exactly if the flag was clear |
| `Link.Reconnect.NextDelay` | internal/cloudlink/reconnect.go:150-159 | The computed delay, ideal up to the 31st consecutive attempt and never above the cap |
| `Link.Reconnect.TryReconnect` | internal/cloudlink/reconnect.go:161-175 | Success clears counter and flag and ends the loop, failure leaves both, as the steps of the machine say |
| `Link.SingleFlight` | internal/cloudlink/reconnect.go:74-175 | In every interleaving, however many misses call the handler, at most one loop that can still reconnect is alive, and none while the flag is clear |
| `Link.FlagWithoutLoopIff` | internal/cloudlink/reconnect.go:107-108 | The flag is set with no loop alive if and only if a local-recovery loop ended on a failed attempt |
| `Link.AbandonedForGood` | internal/cloudlink/reconnect.go:74-79 | That state is final: no later loss starts a loop |
| `Link.AbandonReachable` | internal/cloudlink/reconnect.go:86-109 | And it is reachable: three misses, a local outage, one failed attempt |
| `Link.OnlyLocalLoopsGiveUp` | internal/cloudlink/reconnect.go:135-146 | A backoff loop ends by a successful reconnect only: without a disconnect classified as local the flag is set exactly while a loop is alive |
| `Link.CounterFollowsRun` | internal/cloudlink/heartbeat.go:198-217 | In every run the counter is the number of misses since the last success, reconnect or domain switch, and a handler is spawned for each miss from the third on |
| `Link.HandlersSpawned` | internal/cloudlink/heartbeat.go:207-220 | In every run handlers run plus handlers to run equal the misses that are third or later in their streak |
| `Backoff.IdealMonotone` | internal/cloudlink/reconnect.go:150-159 | The ideal delay never decreases |
| `Backoff.IdealValue` | internal/cloudlink/reconnect.go:154-157 | 5, 10, 20, 40, 80 and 160 seconds, and 300 from the seventh attempt on |
| `Backoff.IdealSumClosed` | internal/cloudlink/reconnect.go:150-159 | The total ideal wait in closed form |
| `Backoff.SmallProduct` | internal/cloudlink/reconnect.go:154 | Up to the 31st attempt the int64 computation is exact |
| `Backoff.MiddleProduct` | internal/cloudlink/reconnect.go:154 | From the 32nd to the 55th the sign of the product is one bit of 9765625 |
| `Backoff.VanishingProduct` | internal/cloudlink/reconnect.go:154 | From the 56th to the 63rd the product is 0 modulo 2^64 |
| `Backoff.DelayIsIdealIff` | internal/cloudlink/reconnect.go:150-159 | Exactly the attempts at which the computed delay is the ideal one |
| `Backoff.FirstWrongDelay` | internal/cloudlink/reconnect.go:150-159 | The first wrong delay is that of the 32nd consecutive attempt, and it is negative |
| `Debounce.Debouncer.ApplyChange` | internal/device/debounce.go:40-68 | Updates the pending entry in place or creates one with its timer |
| `Debounce.Debouncer.Flush` | internal/device/debounce.go:70-78 | Takes whatever is pending for the device, with its current status |
| `Debounce.Debouncer.Drain` | internal/device/debounce.go:92-103 | The drain is a run of the machine that reports and removes every pending entry, in whatever order the map yields them |
| `Debounce.Debouncer.DrainDevice` | internal/device/debounce.go:95-102 | One entry of the drain |
| `Debounce.ReportedAtMostOnce` | internal/device/debounce.go:40-104 | In every interleaving, stale timers and the drain included, each entry is pending, in one flush's hands or reported, in exactly one of them and once |
| `Debounce.ReportedWithLastStatus` | internal/device/debounce.go:45-46 | An entry is reported with the status of the last change that went into it |
| `Debounce.NothingStranded` | internal/device/debounce.go:59-62 | A pending entry has its own timer, armed or fired but not run; once no timer and no flush is left, every entry has been reported exactly once |
| `Debounce.WindowIsFixed` | internal/device/debounce.go:44-62 | The window of an entry is fixed when it is made: its timer fires at most once and flushes at most once, however many changes go into the entry |
| `Debounce.OwnTimerUntilDrain` | internal/device/debounce.go:70-77 | Before the drain a timer only flushes its own entry |
| `Debounce.ForeignFlushIff` | internal/device/debounce.go:70-77 | A flush takes an entry that is not its own exactly when its own was drained after its timer had fired, or was robbed by such a timer, while a newer entry is pending; without an entry drained too late every flush takes its own |
| `Debounce.StaleTimerAfterDrain` | internal/device/debounce.go:95-102 | After the drain a timer it came too late to stop flushes a newer entry early |
| `Debounce.RobbedTimerStrays` | internal/device/debounce.go:70-77 | The entry it robbed was never drained, and its timer then strays in turn |
| `Debounce.ReportOrderIff` | internal/device/debounce.go:77-82 | A device's reports come in the order of its entries if and only if none of them was made while a flush still held an older entry of the device |
| `Debounce.LastReportIsNewestIff` | internal/device/debounce.go:77-82 | Once nothing of the device is pending or in hand, its last report is that of its newest entry if and only if that entry was not reported while an older one was in hand; and then it is the latest status asked for |
| `Debounce.OutdatedLastReport` | internal/device/debounce.go:77-82 | Otherwise it need not be: a run whose last report is the older status |
| `ConfigFile.FileSystem.SaveAtomic` | internal/config/atomic.go:14-58 | An error leaves the path unchanged and, if the clean-up works, the directory too; success leaves the new contents; after every single call a crash leaves the contents of a successful save or the first ones |
| `ConfigFile.FileSystem.CleanUp` | internal/config/atomic.go:30-33 | Removes the temporary file and nothing else |
| `ConfigFile.CrashLeavesWhole` | internal/config/atomic.go:25-58 | Over every sequence of saves with any calls failing, a crash after any call leaves the first contents or the whole of a save that succeeded |
| `ConfigFile.SaveIsSettled` | internal/config/atomic.go:14-58 | One save: after each of its calls every surviving directory has complete contents at the path, the new ones only from the rename on |
| `ConfigFile.FileSystem.Attempt` | internal/config/atomic.go:14-58 | The calls in place leave the disk, moment by moment, as specified for any calls failing |
| `ConfigFile.RenameKeeps` | internal/config/atomic.go:45-58 | The rename is safe for every later crash because the file was synced |
| `ConfigFile.RenameNeedsSync` | internal/config/atomic.go:45-58 | And only because of that: without the sync a crash can leave a torn file |
| `Domains.IsValidDomain` | internal/cloudlink/domain_update.go:188-203 | The label loop accepts exactly the strings characterised character by character |
| `Domains.LabelsOkIff` | internal/cloudlink/domain_update.go:198-202 | All labels are non-empty and at most 63 long if and only if there is no dot at either end, no two in a row, and one among any 64 characters in a row |
| `Domains.LabelsJoin` | internal/cloudlink/domain_update.go:198 | The labels joined by dots give the string back |
| `Domains.LabelsDotFree` | internal/cloudlink/domain_update.go:198 | And none of them contains a dot |
| `Domains.OneLabelIff` | internal/cloudlink/domain_update.go:188-203 | A name without dots and colons is accepted exactly from 1 to 63 characters, if it is no address |
| `DomainUpdate.DomainUpdater.UpdateDomain` | internal/cloudlink/domain_update.go:68-144 | Exactly one acknowledgement per call; applied only with memory, disk and link on the new endpoint; otherwise memory is back on the old endpoint, the disk too unless the second save fails after a failed switch, and the link is untouched or, after a failed switch, closed |
| `DomainUpdate.DomainUpdater.ValidateAndProbe` | internal/cloudlink/domain_update.go:146-186 | Passes exactly if the name is valid, resolves, and the probe is accepted |
| `DomainUpdate.DomainUpdater.Save` | internal/cloudlink/domain_update.go:105 | The save of the shared configuration, through SaveAtomic |
| `DomainUpdate.CloudLink.Connect` | internal/cloudlink/cloudlink.go:129-158 | Success installs one new connection everywhere; failure changes nothing |
| `DomainUpdate.CloudLink.SwitchConn` | internal/cloudlink/cloudlink.go:185-202 | The old connection is closed and configuration and heartbeat are moved before the attempt, whether it succeeds or not |
| `DomainUpdate.AgentConfig.SetEndpoint` | internal/cloudlink/domain_update.go:102-103 | Endpoint and derived URL change together |
| `DomainUpdate.MemoryFollowsAcks` | internal/cloudlink/domain_update.go:68-144 | Over every sequence of updates memory is on the endpoint of the last one that succeeded, with protocol, "://" and endpoint as its URL and the rest untouched; each update has one acknowledgement, for cloud.endpoint, whose reason names the first thing that went wrong |
| `DomainUpdate.DiskDisagreesIff` | internal/cloudlink/domain_update.go:118-133 | The file disagrees with memory if and only if the last update that wrote it could neither connect nor save the old endpoint back, and was for another endpoint than that of the last applied update |
| `DomainUpdate.LinkServesIff` | internal/cloudlink/cloudlink.go:185-199 | Without a reconnection the link serves the configured endpoint if and only if no failed switch is left without a later applied update |
| `DomainUpdate.HeartbeatsRunAhead` | internal/cloudlink/cloudlink.go:185-199 | Heartbeats name the endpoint of the last update that got past the save, connected or not, while the connection, open or closed, is to the last applied one |
| `Lpr.Connection.Send` | internal/protocol/lpr.go:88-94 | Success if and only if no write fails and the four acknowledgements are zero; the trace is the whole script, or a part of it, possibly with a refusal where an acceptance was due |
| `Lpr.Connection.SendFile` | internal/protocol/lpr.go:97-120 | The same for one file with its two acknowledgements |
| `Lpr.Connection.SendHeader` | internal/protocol/lpr.go:100-108 | Announcement, flush, acknowledgement |
| `Lpr.Connection.SendBody` | internal/protocol/lpr.go:110-119 | Contents, terminator, flush, acknowledgement |
| `Lpr.Connection.ReadAck` | internal/protocol/lpr.go:150-157 | Only a zero byte is an acceptance |
| `Lpr.StopAndWait` | internal/protocol/lpr.go:97-148 | In every exchange, cut short or not, each byte goes out only when the receiver owes no acknowledgement, no body byte precedes a zero acknowledgement of its header, and nothing follows a refusal |
| `Lpr.RoundTrip` | internal/protocol/lpr.go:97-148 | A receiver that goes by the decimal count and shares no name with the sender recovers, for every payload and queue name, file 2 with the payload as dfA001localhost and then file 3 with the control file as cfA001localhost |
| `Lpr.FileReceived` | internal/protocol/lpr.go:97-120 | One file sent and accepted is one file received, whatever bytes it holds |
| `Lpr.ReadsDecimal` | internal/protocol/lpr.go:100 | Reading the decimal count back |
| `Migrate.Migrator.Register` | internal/config/migrate.go:22-24 | Adds or replaces one step |
| `Migrate.Migrator.Migrate` | internal/config/migrate.go:26-43 | The loop ends for every registry and computes the recursive migration in place, errors included |
| `Migrate.SuccessIsChain` | internal/config/migrate.go:26-43 | Success with a result if and only if that result is at the end of a chain of registered steps, each applied once, in order, none left out |
| `Migrate.StopsAtFirstGap` | internal/config/migrate.go:26-43 | A configuration that is too new is refused unchanged; any other failure stops at the first missing or failing step, and what it leaves is what that step left |
| `Migrate.InTwoLegs` | internal/config/migrate.go:26-43 | Migrating to a version on the way and then on is migrating at once, errors included |
| `Migrate.VersionWritesIgnored` | internal/config/migrate.go:41 | What version a successful step writes does not matter |
| `Migrate.OnlyStepsOnTheWay` | internal/config/migrate.go:22-24 | A registration matters only if its step lies on the way |
| `Migrate.DefaultReachesIff` | internal/config/migrate.go:45-54 | The default registry reaches the current version from 0 and from itself only |

## Left out

- QueueSpec.StoreAgreement: assumes that a call is not interleaved with others; StoreRaces takes the save as a step of its own.
- StoreRaces.LeftBehindIff: one device, storage that works and tasks with numbers and ids of their own; the capacity and the closed flag only refuse appends and are left out, and so is the order of the queue. A save reads the object at one moment.
- Queue.DeviceQueues.Dequeue: one pass of the wait loop; parking and waking are the subject of WakeUp, which counts jobs instead of naming them.
- Queue.DeviceQueues.TryDequeue: one error stands for the two texts of the source.
- Queue.Queue.Enqueue: a queue without a repository is one whose transactions all fail; the returned error is its code, without the text.
- Store.TaskRepo.LoadTasks: a failed transaction and a failed decoding are one outcome, and the same outcome stands for them in a delete.
- Restarts.RestartKeepsAllIff: for calls that are not interleaved with workers, storage that works for them, and tasks with numbers and ids of their own; EnqueueAgreesIff and CancelAgreesIff say what others do to the store.
- Recovery.RestartForgetsPending: for calls that are not interleaved with workers; FindsStatusAtSave has the other case.
- Recovery.Recoverer.Recover: assumes the buckets are well keyed, as every writer leaves them; sort.Slice is an insertion sort, which SeqNoOrder.SortUnique justifies for distinct numbers.
- Execution.TaskRun.ExecuteTask: loading the document and the adapter's Send are one outcome; the clock is a start and an end tick per round; audit entries are not modelled.
- Link.SingleFlight: runs without Stop, and attempts that return; Stop clears the flag while a loop may still be inside its attempt.
- Link.Reconnect.NextDelay: from the 64th consecutive failure on Go leaves the conversion of the power to an integer undefined, and any value stands for it.
- Link.Reconnect.TryReconnect: there is a reconnect callback, as the agent always installs one.
- Reporter.InOrderDelivery: calls are atomic and a connection stays broken after a failed write; FlushOrderIff shows why the second is needed and ReporterRaces drops both, and there the order is that of each flusher and of the buffer between flushes.
- Debounce.Debouncer.Flush: the locked half; the report that follows it is a step of its own in the machine. Without a reporter callback a report is only the removal.
- DomainUpdate.DomainUpdater.UpdateDomain: atomic with respect to reconnects, which read the same configuration without a lock; an acknowledgement is one handed to the reporter, which may buffer it; the text of a probe's error is part of what the probe meets.
- ConfigFile.FileSystem.SaveAtomic: the path as a single directory; creating the parent directories changes nothing here, and rename is atomic.
- Debounce.ReportedAtMostOnce: one drain, as one call of Start makes it. Nothing in the agent creates a debouncer yet, so no report is tied to a caller.
- Lpr.Connection.Send: starts with the connection made and the document read; a failed dial or read sends nothing. Buffered bytes reach the connection only at a flush or with a failure, where the library may send some of them earlier.
- Migrate.Migrator.Migrate: steps are functions of the configuration that return.
- Print job fields that the pipeline only carries along are one field, `document`; times are ticks.
- bbolt and gob themselves: the store is a map of sorted buckets with atomic transactions.
- Sockets, DNS, TLS, the WebSocket protocol, `lp`, LibreOffice and systemd.
- Credentials, logging, audit, metrics, the operations HTTP API and shell scripts.
- Error code tables, configuration validation and environment overrides: one reading of the branches settles them.
- The IPP request builder and device probing: fixed attributes and simple map updates.
- What arrives from the cloud after a reconnect: the dispatcher ends on a read error and is not started again (internal/cloudlink/dispatcher.go:129-135).
