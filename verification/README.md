# Verification of gx

A Dafny 4.11 model of the concurrency components of gx and proofs of what they promise. Nothing
here runs the Go code. To verify the project:

    dafny verify dfyconfig.toml

## What is modelled

**Queue** (`queue.go`). `QueueModel` is a state machine with any number of Push, PushWait,
Close, Drain, Run and RunUntilClosed calls and the worker goroutines of every run, each a
thread with a program counter. A step is one lock operation, channel operation or critical
section; anything enabled may happen next. Reader/writer locks have Go's writer preference:
an announced writer keeps new readers out. Contexts are flags with a first-wins cause.
Histories record what was enqueued, received, begun and finished. `QueueLocks` to
`QueueOutcomes` prove the invariant group by group, `QueueInvariant` puts it together, and
`QueueTheorems` and `QueueProgress` state what follows for whole histories; `QueueStuck` and
`QueueTermination` that after Close every call returns. `QueueObject` is the queue as a class
whose methods update its fields step by step, and carry a whole call through any schedule.
`QueueAnswers` and `QueueResults` say why every call answers what it answers.

**Runtime, Container, Runner** (`runtime.go`, `runner.go`), modelled twice. `RuntimeModel` is a
state machine of Run's own goroutine, the body of shutdown, all managed tasks, and an
environment that attaches containers, registers hooks and tasks, cancels the parent, and
lets cancellation travel between the three contexts in steps of its own. Two logs record
what startup and shutdown did; `RuntimeOrder` and `RuntimeShutdown` define what they should
have done from what was registered. `RuntimeTheorems` and `RuntimeEndings` hold the results;
`RuntimeStuck` and `RuntimeTermination` show that Run returns, and `RuntimeAnswers` what decides
its result.
`RunnerObject`, `ContainerObject` and `RuntimeObject` are the same code as classes with its
loops, proved against the same definitions of the logs.

**Buffer** (`buffer.go`). `BufferModel` is a buffer as a sequence, with every history of
calls; `BufferObject` the ring buffer over an array, which refines it; `BufferWakeup` the
mutex and condition variable with any number of concurrent calls. A signal may wake any
sleeper, not only the oldest.

**Accumulator** (`accumulator.go`). `AccumulatorModel` has the meaning of Add, the timer's tick
and Close over all histories; `AccumulatorRaces` the interleavings of callers, timer and
background loop, and the class.

**Bus, Dispatcher, Semaphore** (`bus.go`, `dispatcher.go`, `semaphore.go`). `Registries` is the
map of handler slices that both keep, with appends that write into storage which earlier
snapshots still read; `Dispatchers`, `Semaphores` and `Buses` build on it.

**Retry** (`retry.go`). `Retries` has the options, the delays over the reals rounded down to
whole nanoseconds, the jitter, and the loop.

Where code and documentation differ, the model follows the code:

- `MaxDelay` is documented as the limit of the delay between attempts (`retry.go:32-34`), but
  the cap is applied only after the first wait (`retry.go:120-138`).
  `Retries.FirstWaitCanExceedMaxDelay` is a run of Do that waits longer, and
  `Retries.MaxDelayIsRespectedIff` says for which options no Do does: those that allow one
  attempt only, and those whose first delay fits.
- `Accumulator.Close` is documented to flush any remaining value (`accumulator.go:85`), but a
  negative rest is kept (`accumulator.go:105-109`). `AccumulatorModel.CloseCanKeepTheRest` is such
  a case; `AccumulatorModel.CloseFlushesTheRestIff` says that Close flushes the rest if and only if
  the total is not negative then, and that a negative one is lost for good;
  `AccumulatorRaces.RacingCloseFlushesTheRestIff` says so of every interleaving.

## Model

| member | source | states |
|---|---|---|
| `QueueModel.NewQueue` | queue.go:63-78 | workers and size are kept when positive; otherwise one worker and four slots for each worker; every configuration has at least one of each |
| `QueueObject.Queue.constructor` | queue.go:63-78 | a new queue is open, idle and empty, and satisfies the invariant of all histories |
| `QueueObject.Queue.Push` | queue.go:133-153 | one call of Push, step by step in place: each step is the one the state machine allows, and a step is refused only for the lock or at the end |
| `QueueObject.Queue.Fail` | queue.go:199-217 | the call of fail that Push makes: first failure only, cancel captured under the lock and called after it |
| `QueueObject.Queue.PushWait` | queue.go:160-183 | one call of PushWait, its select taking any ready case; it is refused a step only while it must wait |
| `QueueObject.Queue.Close` | queue.go:83-97 | the close-once body with its split lock order; a second caller waits for the first to finish |
| `QueueObject.Queue.Drain` | queue.go:111-129 | the part of Drain after its Close: the captured run is awaited or cancelled |
| `QueueObject.Queue.RunOpening` | queue.go:221-244 | a run takes the queue over, or is refused for a missing worker, an active run or an earlier failure |
| `QueueObject.Queue.RunServing` | queue.go:255-289 | workers are started, awaited, and the result is decided |
| `QueueObject.Queue.RunEnding` | queue.go:246-253 | the deferred function: fields cleared, `done` closed under the lock, cancel called after it |
| `QueueObject.Queue.Work` | queue.go:257-276 | a worker: receive or stop, process, cancel the run on an error; whatever the worker function answers decides where it goes |
| `QueueObject.Queue.Advance` | queue.go:83-290 | whatever thread takes a step, the new state is one the state machine allows |
| `QueueObject.Queue.Step` | queue.go:83-290 | any thread may step at any time and the invariant stays; no step meets a panic |
| `QueueObject.Queue.Happen` | queue.go:114-183 | a new call, an ending context or a cancelled parent, when it can happen |
| `QueueObject.Queue.Offer` | queue.go:133-183 | one whole call of Push or PushWait while everybody else takes turns in any order: accepted exactly if its own item was put in, then once and behind every item accepted before the call; never accepted if the queue was closed when it began; a Push that returns without being accepted saw the queue closed or full at its own look, and a PushWait has the error of its context or of a closed queue |
| `QueueLocks.LocksStep` | queue.go:84-96 | every step keeps both locks consistent with the program counters of all calls |
| `QueueClosing.CloseStepInv` | queue.go:83-97 | every step keeps `closed`, the wake-up channel and the item channel in step with how far the one closer is |
| `QueueClosing.SendStepInv` | queue.go:133-183 | a call that has seen the queue open still holds a lock that the closer needs before it shuts the channel |
| `QueueItems.ItemsStep` | queue.go:141-181 | every step keeps: enqueued is received followed by buffered, within the size, and every accepted call has its own entry once |
| `QueueItems.HoldStep` | queue.go:257-276 | every step keeps: each received entry has one holder, which hands it over at most once and holds it until that call returns |
| `QueueRuns.RunsStep` | queue.go:226-253 | every step keeps: one active run at most, whose cancel and done are the installed ones, and each done is closed once |
| `QueueCrews.CrewsStep` | queue.go:255-278 | every step keeps: workers belong to the active run, which waits for exactly them and has at most `workers` |
| `QueueFailure.FailStep` | queue.go:199-244 | every step keeps: a failure is written once, and the installed run has been told of it or its cancel is in the hands of the call that wrote it |
| `QueueDrain.DrainsStep` | queue.go:111-129 | every step keeps: a Drain acts on the done and cancel it read under the lock |
| `QueueOutcomes.AuthorStep` | queue.go:199-286 | every step keeps: every cancellation of a run has a legitimate author |
| `QueueOutcomes.ExitStep` | queue.go:257-276 | every step keeps: a worker exits only for cancellation, its own error, or a closed and empty channel |
| `QueueOutcomes.CleanExit` | queue.go:257-278 | if all workers of a run have exited and nothing had cancelled it, the channel is closed and empty and every received item is finished |
| `QueueOutcomes.WaitedStep` | queue.go:278-288 | every step keeps: a run that has waited for its workers was not cancelled by then, or its context has a cause that is not its own end |
| `QueueOutcomes.ResultStep` | queue.go:221-289 | every step keeps: what a run is about to return means what its result is specified to mean |
| `QueueInvariant.StepInv` | queue.go:83-290 | no step of any thread panics, and it keeps the whole invariant |
| `QueueInvariant.NextInv` | queue.go:83-290 | every step of a thread, a new call, an ending context or a cancelled parent keeps the whole invariant |
| `QueueInvariant.Always` | queue.go:83-290 | the invariant holds in every state of every history |
| `QueueTheorems.NoSendOnClosedChannel` | queue.go:83-97 | no send ever meets the closed channel and no channel is closed twice; once the channel is closed, no call is past its look at `closed` |
| `QueueTheorems.NothingAcceptedAfterClose` | queue.go:133-183 | a Push or PushWait that is called after `closed` was set is never accepted, however long one waits |
| `QueueTheorems.ItemsAreConserved` | queue.go:141-181 | what was enqueued is what was received followed by what is buffered, across runs; at most `size` are buffered; a call is accepted exactly if its own item was enqueued, and then once |
| `QueueTheorems.EarlierCallsComeFirst` | queue.go:141-181 | if one call has been accepted before another is made, its item is enqueued and received before the other's, at every later time |
| `QueueTheorems.ItemsAreHandledOnce` | queue.go:257-276 | every received item is given to the worker function at most once, by the one worker that holds it until the function returns |
| `QueueTheorems.WorkIsBounded` | queue.go:226-278 | at most one run is active, only its workers work, and at most `workers` items are in flight |
| `QueueTheorems.DrainNilMeansDrained` | queue.go:107-129 | Drain returned nil for an observed run: the run is over and its workers are gone; and if the context of the run has no cause, or only the one of its own end, every accepted item has been processed |
| `QueueTheorems.RunResultMeans` | queue.go:221-289 | what nil and what an error from Run mean, case by case |
| `QueueTheorems.CancellationIsJustified` | queue.go:199-286 | who may cancel a run: its parent, its own end, its own failed worker, the call that recorded the failure, or a Drain that observed it |
| `QueueTheorems.DrainCancelsOnlyItsRun` | queue.go:114-127 | a Drain whose context ended cancels the run it observed and never a later one |
| `QueueTheorems.FailureReachesTheActiveRun` | queue.go:199-217 | a recorded failure never changes, and an installed run has it as its cause or is about to |
| `QueueTheorems.RunAfterFailureReceivesNothing` | queue.go:226-244 | a run that has not passed its look at `failure` when a failure is recorded never starts a worker |
| `QueueTheorems.TimePasses` | queue.go:199-253 | causes, closed dones, the failure and what Drain observed never change once they are there, and what was enqueued, received, begun and finished is only added to |
| `QueueProgress.SomeoneIsReady` | queue.go:84-96 | while Close is in progress some thread it depends on can step: Close and PushWait never wait for each other |
| `QueueProgress.CloseCanFinish` | queue.go:84-96 | from every reachable state Close can be brought to its end by the calls already there, in a bounded number of steps |
| `QueueProgress.PushWaitStepsRunOut` | queue.go:160-182 | while Close waits for PushWait calls, their remaining steps are a measure that no step raises and each of theirs lowers; none of them is stuck in its select |
| `QueueStuck.StuckMeansReturned` | queue.go:83-290 | once Close or Drain has been called: if no thread can step, every call has returned and every worker has exited |
| `QueueStuck.ThreadsWaitOnlyFor` | queue.go:83-290 | a thread that has not returned can step if and only if it need not wait: for a lock in use, for Close in progress, for room, for an item, for an open `done`, or for a worker that has not exited |
| `QueueStuck.SelectCanStep` | queue.go:175-182 | each ready case of PushWait's select can be taken |
| `QueueStuck.ReceiveCanStep` | queue.go:260-270 | each ready case of a worker's select can be taken |
| `QueueStuck.BusyCanStep` | queue.go:270-273 | the worker function may return nil or any error, and an error is on its way to the context of the run |
| `QueueAnswers.AlwaysAnswers` | queue.go:83-290 | in every state: what every call has been told so far holds of the queue: closed, failed, ended or finished |
| `QueueAnswers.TurnedAwayForAReason` | queue.go:133-153 | a Push that is turned away saw the queue closed, or the channel full, at its own look; it goes on to fail only after it saw it full |
| `QueueAnswers.PushDecides` | queue.go:136-151 | Push goes on to send if and only if the queue is open, and its send succeeds if and only if there is room |
| `QueueAnswers.FailsOnFull` | queue.go:147-151 | a queue fails only with FailOnFull and after some Push saw the channel full; and then a Push that returns false leaves it failed or closed |
| `QueueAnswers.PushWaitMeans` | queue.go:154-183 | PushWait returns nil exactly if its item was put in, and an error only if its context ended with it or the queue is closed |
| `QueueAnswers.EndedContextComesFirst` | queue.go:160-163 | a PushWait whose context ended before its first look puts nothing in and returns that error |
| `QueueAnswers.CloseMeansClosed` | queue.go:80-97 | when Close has returned, also to a second caller or to Drain, the queue and its channel are closed |
| `QueueResults.OpenDecides` | queue.go:221-244 | a run is refused at its start if and only if there is no worker function, at `running` if and only if another run is active, at `failure` if and only if the queue has failed |
| `QueueResults.RefusalHasAReason` | queue.go:221-241 | a run is refused only for one of these reasons, which held at its own look |
| `QueueResults.RejectedWhileActive` | queue.go:229-233 | while a run is being told that another one is running, another one is active |
| `QueueResults.LoneRunIsServed` | queue.go:221-289 | a run that is alone with an unfailed queue and a worker function is not refused; once it has returned it has held the queue |
| `QueueResults.CanceledParentMeansNil` | queue.go:280-282 | a run whose parent is cancelled before it looks returns nil, whatever its cause |
| `QueueResults.FirstCauseIsReturned` | queue.go:284-289 | a run with a cause and no cancelled parent returns that cause, the first of several, or nil if it is a cancellation |
| `QueueResults.WorkerErrorCancels` | queue.go:270-273 | an error of a worker function gives the run a cause, unless it has one |
| `QueueResults.UntilClosedIgnoresParent` | queue.go:191-196 | the context given to RunUntilClosed never ends or cancels the run |
| `QueueResults.DrainMeans` | queue.go:107-129 | Drain returns with the queue closed: nil if it saw no active run or the one it saw is over, an error only if its context ended with it, with that run cancelled |
| `QueueTermination.StepsRunOut` | queue.go:83-290 | without new calls, the threads take no more steps than a number that the present state gives, in any order |
| `QueueTermination.EverythingReturns` | queue.go:83-129 | once Close or Drain has been called and without new calls: at any later point everything has returned, or some thread can step and the bound on all steps is not reached |
| `RuntimePhases.InitKeepsShape` | runtime.go:726-768 | steps of initialization keep the states of all containers in order and never panic |
| `RuntimePhases.StartKeepsShape` | runtime.go:863-920 | steps of starting keep the states of all containers in order and never panic |
| `RuntimePhases.ShutKeepsShape` | runtime.go:791-860 | steps of shutdown keep the states of all containers in order: they are stopped from the last to the first |
| `RuntimeOrder.InitKeepsUp` | runtime.go:726-768 | the log of startup is, at every point of initialization, what the registered hooks prescribe |
| `RuntimeOrder.StartKeepsUp` | runtime.go:863-920 | the log of startup is, at every point of starting, what the registered hooks and queues prescribe |
| `RuntimeShutdown.ShutKeepsDown` | runtime.go:297-321 | the log of shutdown is, at every point, the prescribed one |
| `RuntimeShutdown.ShutKeepsStopErr` | runtime.go:804-859 | the first error of each container, and then the first of those, is the first error of all |
| `RuntimeTasks.TaskCounts` | runtime.go:931-983 | a step of a task keeps the wait groups and the list of running names exact, and never takes a wait group below zero |
| `RuntimeTasks.RemoveFirstRemovesOne` | runtime.go:973-983 | removing the first match removes exactly one entry of that name |
| `RuntimeTasks.NobodyOwes` | runtime.go:829-832 | a container that has waited has no task that still counts |
| `RuntimeErrors.TaskHandsErrorOn` | runtime.go:946-969 | in one step a task's error is handed on unchanged, or the Runner has one, or the context was cancelled; when a cancellation must be dropped is RuntimeAnswers.FilterDecides |
| `RuntimeInvariant.NextInv` | runtime.go:181-242 | every step of Run, shutdown, tasks and environment keeps the whole invariant |
| `RuntimeInvariant.Always` | runtime.go:181-242 | the invariant holds in every state of every history |
| `RuntimeTheorems.RunResultMeans` | runtime.go:226-242 | with a parent that is never cancelled, Run returns nil exactly if no hook and no task returned an error; otherwise a startup or task error, or else the first stop error |
| `RuntimeTheorems.DroppedErrorIsBacked` | runtime.go:365-373 | a startup error is dropped, before or at the Runner's once, only if the parent was cancelled or the Runner has an error, and that error was returned by a task in an earlier step of the history |
| `RuntimeAnswers.RunnerErrorHasASource` | runtime.go:365-373 | the Runner's error was returned by a hook before startup was cancelled, or by a task, and there it was no cancellation after the task's context was cancelled |
| `RuntimeAnswers.GracefulStopIsNoError` | runtime.go:945-969 | if no startup hook failed and every error of a task was a cancellation after cancellation, the Runner has no error and Run returns what shutdown returned, under any parent |
| `RuntimeAnswers.FilterDecides` | runtime.go:946-961 | a task's error is dropped if and only if it is a cancellation and the context has been cancelled |
| `RuntimeAnswers.TaskErrorCounts` | runtime.go:946-961 | an error of a task that is no cancellation is carried until the Runner has an error, also under a cancelled parent |
| `RuntimeAnswers.PassedErrorCounts` | runner.go:38-49 | so is every error that has passed the look at the context |
| `RuntimeAnswers.RecordedErrorIsReturned` | runtime.go:226-242 | an error that the Runner has before Run reads it is what Run returns, before any error of shutdown |
| `RuntimeAnswers.ContextsEnd` | runtime.go:220-234 | a recorded error cancels the Runner's context; when Run returns all contexts have ended and the Runtime is stopped |
| `RuntimeAnswers.CancellationTravels` | runtime.go:202-222 | a cancelled parent can cancel the Runner's context and that of tasks |
| `RuntimeAnswers.AttachMeans` | runtime.go:100-126 | a container can be attached if and only if Run has not begun and the name is new and not empty |
| `RuntimeAnswers.CancellationStopsStartup` | runtime.go:360-398 | once the task context has ended, no init or start hook begins, and no queued task launches but those of a launch that had begun |
| `RuntimeAnswers.CleanStartupIsComplete` | runtime.go:357-399 | when startup is over without an error and a cancelled parent, every init hook, start hook and queued task has had its turn, in order |
| `RuntimeAnswers.NoTaskIsLeft` | runtime.go:829-832 | when shutdown is over, and so when Run returns, every task has returned and left its container |
| `RuntimeTheorems.FirstErrorWins` | runner.go:25-49 | the first error the Runner is told stays its error |
| `RuntimeTheorems.NeverPanics` | runtime.go:726-731 | "more than once" panics, a second close of startupDone and negative wait groups are unreachable |
| `RuntimeTheorems.ContainersAreFrozen` | runtime.go:105-125 | containers keep their place and name, hook lists only grow, and there are no new containers once Run has begun |
| `RuntimeTheorems.InitComesFirst` | runtime.go:360-398 | every start hook and every launch from a queue comes after all init hooks of all containers returned nil |
| `RuntimeTheorems.RegisteredInitHookRuns` | runtime.go:559-576 | an init hook whose registration did not panic has returned nil before anything is started |
| `RuntimeTheorems.QueuesLaunchInOrder` | runtime.go:905-919 | a queued task launches only after all start hooks of its container, in registration order, once, and the whole queue with it |
| `RuntimeEndings.EndedForGood` | runtime.go:361-398 | once startup has ended, no further hook begins and no queued task launches |
| `RuntimeEndings.FailedStartLaunchesNothing` | runtime.go:882-915 | if a start hook fails or a cancellation is seen, no queued task of that or a later container ever launches |
| `RuntimeEndings.ShutdownNeverOverlapsStartup` | runtime.go:297-301 | when shutdown looks at a container, no init or start hook runs and none will |
| `RuntimeEndings.ShutdownMirrorsStartup` | runtime.go:311-319 | shutdown stops exactly the containers whose initialization began, a prefix taken in reverse, each with all its hooks, and keeps the first error |
| `RuntimeEndings.RegisteredStopHookRuns` | runtime.go:611-628 | a registered stop hook of an initialized container runs, and nothing in shutdown happens twice |
| `RuntimeEndings.RegisteredStoppingHookRuns` | runtime.go:637-654 | a registered stopping hook of an initialized container runs |
| `RuntimeEndings.RunningMeansStarted` | runtime.go:905-919 | a container is Running only once all its start hooks have returned nil and its whole queue is launched |
| `RuntimeEndings.RegisteredStartHookRuns` | runtime.go:586-602 | a registered start hook has returned nil, and a queued task is launched, by the time its container runs |
| `RuntimeEndings.NoTaskOutlivesTheWait` | runtime.go:829-832 | when the first stop hook of a container begins, none of its tasks is live and none ever will be |
| `RuntimeEndings.RunningIsExact` | runtime.go:923-983 | `running` has every name as often as there are live tasks of that name, and the wait group counts at least as many |
| `RuntimeEndings.TasksJoinWhileStarting` | runtime.go:677-689 | a task joins only a container that is being started |
| `RuntimeStuck.StuckMeansReturned` | runtime.go:181-321 | if neither Run, nor shutdown, nor any task can step, Run has returned, shutdown is over and no task is left |
| `RuntimeStuck.ThreadsWaitOnlyFor` | runtime.go:181-321 | Run, shutdown and each task can step if and only if they are not over and need not wait: for errOnce, for tasks, for a lock, for startup, for shutdown, and shutdown for a cancellation |
| `RuntimeStuck.StartupHookMayReturn` | runtime.go:737-762 | an init or start hook may return nil or any error |
| `RuntimeStuck.TaskMayReturn` | runtime.go:945-946 | a task may return nil or any error |
| `RuntimeStuck.StopHookMayFail` | runtime.go:807-852 | a stopping or stop hook may return any error |
| `RuntimeTermination.StepsRunOut` | runtime.go:181-321 | without further attachments and registrations, Run, shutdown and tasks take no more steps than a number that the present state gives, in any order |
| `RuntimeTermination.RunReturns` | runtime.go:181-242 | without further attachments and registrations: at any later point Run has returned, shutdown is over and every task has exited, or one of them can step and the bound on all steps is not reached |
| `RunnerObject.KeptIsFirst` | runner.go:38-48 | the Runner keeps nil exactly if every result was nil, and otherwise the first error |
| `RunnerObject.Runner.Cancel` | runner.go:25-34 | the first call decides the error; every call leaves the context cancelled |
| `RunnerObject.Runner.Launch` | runner.go:38-39 | a goroutine counts in the wait group |
| `RunnerObject.Runner.Finish` | runner.go:39-48 | a returned error is reported once and the goroutine leaves the wait group |
| `RunnerObject.Runner.Wait` | runner.go:53-59 | once the wait group is empty the context is cancelled and the kept error returned |
| `ContainerObject.RegistrationsAgree` | runtime.go:559-692 | a registration call panics exactly when the concurrent model has no such step, and otherwise does the same |
| `ContainerObject.RegistrationMeans` | runtime.go:559-692 | which registration calls panic in which state, and what each of the others adds where |
| `ContainerObject.AfterHooksIsRegistered` | runtime.go:559-692 | what hooks register changes nothing that the state of the container protects |
| `ContainerObject.WalkMeans` | runtime.go:737-767 | when a loop over hooks completes, is cut short, or fails, and where |
| `ContainerObject.NoStopErrors` | runtime.go:807-852 | the loop over stop hooks has no error exactly if no hook returned one |
| `ContainerObject.ExitResultsCount` | runtime.go:946-969 | tasks that return nil or a cancellation during shutdown leave the Runner as it is, any other error leaves it with an error |
| `ContainerObject.RemoveFirstSkips` | runtime.go:977-982 | the search of stopTask passes over other names |
| `ContainerObject.Container.OnInit` | runtime.go:559-576 | adds the hook, or panics after setup |
| `ContainerObject.Container.OnStart` | runtime.go:586-602 | adds the hook, or panics after initialization |
| `ContainerObject.Container.OnStopping` | runtime.go:637-654 | adds the hook, or panics after initialization |
| `ContainerObject.Container.OnStop` | runtime.go:611-628 | adds the hook, or panics after initialization |
| `ContainerObject.Container.Run` | runtime.go:664-692 | queues the task, launches it at once while starting, or panics |
| `ContainerObject.Container.StartTaskLocked` | runtime.go:931-934 | lists the task and counts it in both wait groups |
| `ContainerObject.Container.StopTask` | runtime.go:973-983 | the loop removes the first entry of that name |
| `ContainerObject.Container.TaskExits` | runtime.go:936-969 | a task leaves the list and the wait groups, and reports its result unless it is a cancellation after cancellation |
| `ContainerObject.Container.WalkHooks` | runtime.go:737-765 | the loop over init or start hooks, with a look at the context before each hook and after the last |
| `ContainerObject.Container.Init` | runtime.go:726-768 | all init hooks in order, or a prefix of them; Initialized exactly if the walk completed |
| `ContainerObject.Container.Start` | runtime.go:863-920 | all start hooks in order and then the whole queue, or a prefix of the hooks and no queued task |
| `ContainerObject.Container.LaunchQueue` | runtime.go:912-917 | the queue is launched in order and emptied |
| `ContainerObject.Container.Shutdown` | runtime.go:791-860 | stopping hooks, the wait, stop hooks, each last first and all of them; the first error; and what the tasks report meanwhile |
| `ContainerObject.Container.RunBack` | runtime.go:807-852 | one loop over hooks in reverse |
| `RuntimeObject.Runtime.constructor` | runtime.go:91-95 | a new Runtime has no containers |
| `RuntimeObject.Runtime.Attach` | runtime.go:100-126 | a container with a new, non-empty name is appended before Run; anything else panics |
| `RuntimeObject.Runtime.WalkAll` | runtime.go:360-398 | one loop of startup ends where the hooks and the context prescribe, has done what is prescribed up to there, and told the Runner |
| `RuntimeObject.Runtime.Report` | runtime.go:365-373 | an error reaches the Runner unless the context has ended by then |
| `RuntimeObject.Runtime.Start` | runtime.go:357-399 | both loops with the look between them: where they end, the log, which is that of the concurrent model for the same point, and what the Runner was told |
| `RuntimeObject.Runtime.Shutdown` | runtime.go:297-321 | the first call stops every container that began to initialize, last first, with the log of the concurrent model, and keeps the first error; later calls do nothing; tasks that return nil or a cancellation leave the Runner's error |
| `RuntimeObject.PhaseMeans` | runtime.go:360-398 | a phase of startup gets through all containers exactly if no hook fails and the context has not ended by the last look |
| `RuntimeObject.PhaseStops` | runtime.go:360-398 | a phase that stops short does so at a container whose predecessors all succeeded, because a hook fails there or the context has ended |
| `RuntimeObject.WalkMore` | runtime.go:360-375 | one more container through a phase of startup extends the log as prescribed |
| `RuntimeObject.DownMore` | runtime.go:315-319 | one more container through shutdown extends the log and the errors as prescribed |
| `RuntimeObject.NoErrorsDown` | runtime.go:315-319 | shutdown has no error exactly if no hook of a container it stopped returned one |
| `BufferModel.FirstInFirstOut` | buffer.go:73-103 | for every history the values accepted are the values handed out followed by the values still there |
| `BufferModel.ClosedAcceptsNothing` | buffer.go:77-79 | a closed buffer accepts nothing more |
| `BufferModel.AnswersMean` | buffer.go:31-103 | what every call answers, by what was pushed before any Close and how much was handed out: the next value while there is one, also after Close; a wait only while open; the end only when all is handed out |
| `BufferModel.RestIsKept` | buffer.go:46-51 | the number of values left is that of the values offered less those handed out |
| `BufferModel.StorageBounds` | buffer.go:107-123 | copied values, capacity, length and peak length in relation, for every history |
| `BufferModel.CapacityIsBounded` | buffer.go:107-123 | the capacity never exceeds the larger of the initial one and twice one less than the peak length |
| `BufferModel.GrowthIsAmortised` | buffer.go:107-123 | n accepted pushes copy fewer than 2n values |
| `BufferObject.WindowAt` | buffer.go:83-84 | slot j of the live window, going round |
| `BufferObject.WindowAppends` | buffer.go:83-85 | writing behind the window and widening it appends |
| `BufferObject.WindowDrops` | buffer.go:127-134 | clearing the first slot and moving past it drops the first value |
| `BufferObject.WindowAfter` | buffer.go:127-141 | what NextLocked leaves, with the head back at 0 on empty, follows the value it hands out |
| `BufferObject.Buffer.constructor` | buffer.go:17-28 | an empty buffer of the given capacity, or of one |
| `BufferObject.Buffer.Close` | buffer.go:33-43 | closed, with its values kept |
| `BufferObject.Buffer.Len` | buffer.go:46-51 | the number of values |
| `BufferObject.Buffer.Next` | buffer.go:55-69 | one pass of the loop: it waits, reports the end, or hands out the oldest value, also after Close |
| `BufferObject.Buffer.TryNext` | buffer.go:93-103 | the oldest value, or nothing |
| `BufferObject.Buffer.Push` | buffer.go:73-89 | refused if closed, and otherwise appended, growing first if the storage is full |
| `BufferObject.Buffer.GrowLocked` | buffer.go:107-123 | full storage is doubled with the values in order from slot 0 and every other slot zero |
| `BufferObject.Buffer.CopyWindow` | buffer.go:114-119 | the two copies put a wrapped window in order |
| `BufferObject.Buffer.NextLocked` | buffer.go:127-141 | the first value leaves, its slot is zeroed, and the head is reset on empty |
| `BufferWakeup.StepKeepsInv` | buffer.go:33-103 | every step of every call keeps the mutex, the wake-up count, and the history |
| `BufferWakeup.NoLostWakeup` | buffer.go:55-69 | with the mutex free and a consumer asleep, the buffer is open and holds no more values than there are notified consumers on their way |
| `BufferWakeup.StuckMeansEmpty` | buffer.go:55-69 | if no call can step, every call has returned or sleeps in Next on an empty, open buffer |
| `BufferWakeup.CallsAreLinearizable` | buffer.go:33-103 | a call that has returned took effect at one place of the one sequential history, answered what that history answers there, keeps that place for ever, and comes before every call that was made after it returned |
| `BufferWakeup.ReturnedAnswersMean` | buffer.go:33-103 | the same for a call that has returned, at its place in the one history of any interleaving |
| `BufferWakeup.HistoriesGrow` | buffer.go:33-103 | the one history, and who made which of its calls, is only added to |
| `BufferWakeup.EveryInterleavingIsFifo` | buffer.go:33-103 | FIFO conservation in every interleaving |
| `AccumulatorModel.TotalsAreConserved` | accumulator.go:69-122 | accepted values add up to the flushed totals and the pending one, whatever their signs |
| `AccumulatorModel.TotalsAreBounded` | accumulator.go:69-122 | every flushed total is positive, the pending one is below a positive max, and not positive once closed |
| `AccumulatorModel.FlushesWhenDue` | accumulator.go:69-146 | the callback is called exactly when due, with all that was added and not handed over: by an Add that reaches the threshold, by the timer and by the first Close if there is something positive |
| `AccumulatorModel.ClosedFlushesNothing` | accumulator.go:87-110 | after Close nothing is flushed and nothing accepted, by any call or late tick |
| `AccumulatorModel.CloseCanKeepTheRest` | accumulator.go:85-109 | a concrete history in which Close flushes nothing and the total stays at -1 |
| `AccumulatorModel.CloseFlushesTheRestIff` | accumulator.go:85-109 | for every history, the first Close flushes all that is left if and only if the total is not negative then; otherwise that total, and no more, is never flushed by anything that follows |
| `AccumulatorModel.FlushesAreRunsOfAdds` | accumulator.go:114-122 | every flush is the sum of the values added since the flush before |
| `AccumulatorRaces.RacesAreHistories` | accumulator.go:126-146 | every interleaving of Add, Close, timer and loop is a history of critical sections, and the timer is not lost while the loop's context lasts |
| `AccumulatorRaces.RacesConserveTotals` | accumulator.go:69-146 | conservation, positive flushes and the threshold in every interleaving |
| `AccumulatorRaces.TickFlushes` | accumulator.go:134-140 | in every interleaving a tick hands everything positive to the callback |
| `AccumulatorRaces.TimerFlushes` | accumulator.go:126-146 | while the loop's context lasts, at most a firing, its receipt and the tick, each possible in its turn, bring a positive total to the callback |
| `AccumulatorRaces.LoopExits` | accumulator.go:126-146 | once its context has ended the loop can exit, after the tick it is in |
| `AccumulatorRaces.NothingFlushedAfterClose` | accumulator.go:87-146 | no interleaving after Close flushes anything |
| `AccumulatorRaces.RacingCloseFlushesTheRestIff` | accumulator.go:85-146 | the same for every interleaving of callers, timer and loop |
| `AccumulatorRaces.Accumulator.constructor` | accumulator.go:55-66 | an empty accumulator with a running timer |
| `AccumulatorRaces.Accumulator.New` | accumulator.go:42-66 | which option is rejected first, and what a valid set of options makes |
| `AccumulatorRaces.Accumulator.Add` | accumulator.go:69-83 | adds unless closed, and flushes at the threshold |
| `AccumulatorRaces.Accumulator.Close` | accumulator.go:87-110 | closes once, ends the loop, stops and drains the timer, flushes a positive rest |
| `AccumulatorRaces.Accumulator.FlushLocked` | accumulator.go:114-122 | a total other than zero goes to the callback |
| `AccumulatorRaces.Accumulator.Select` | accumulator.go:129-135 | a ready case of the loop's select is taken |
| `AccumulatorRaces.Accumulator.Tick` | accumulator.go:134-144 | the timer case: a positive total is flushed, nothing else is, and the timer runs again |
| `Semaphores.SlotsAreCounted` | semaphore.go:25-49 | slots taken are successful acquisitions less releases, never more than the capacity |
| `Semaphores.AnswersMean` | semaphore.go:21-50 | a slot is granted if and only if fewer were taken than given back and the capacity allow; what else each call answers |
| `Semaphores.Semaphore.constructor` | semaphore.go:12-20 | the given capacity, or one |
| `Semaphores.Semaphore.Acquire` | semaphore.go:25-33 | a slot, the error of an ended context, or a wait |
| `Semaphores.Semaphore.TryAcquire` | semaphore.go:42-50 | a slot or nothing |
| `Semaphores.Semaphore.Release` | semaphore.go:36-38 | a slot is given back, or the call waits |
| `Registries.Registry.Append` | bus.go:59-63 | the type gets one more handler, in place or in new storage, and every slice handed out before still reads the same |
| `Registries.Registry.AppendInPlace` | dispatcher.go:52-56 | an append that writes into shared storage touches no slot a snapshot can see |
| `Registries.Registry.Lookup` | bus.go:32-34 | the slice itself is handed out |
| `Registries.Registry.Read` | bus.go:47-49 | reading through a slice yields what it held when it was looked up |
| `Registries.Registry.Delete` | bus.go:67-72 | the type is removed and snapshots stay |
| `Dispatchers.DispatchMeans` | dispatcher.go:29-43 | a dispatch calls a prefix of the handlers in order: all of them exactly if none fails, and otherwise up to the first that fails, whose error it returns |
| `Dispatchers.RegisteredSinceRemoved` | dispatcher.go:46-65 | what is registered for a type are the handlers added since its last removal, in order |
| `Dispatchers.Dispatcher.constructor` | dispatcher.go:20-24 | an empty dispatcher |
| `Dispatchers.Dispatcher.Register` | dispatcher.go:47-56 | one more handler of the type |
| `Dispatchers.Dispatcher.Unregister` | dispatcher.go:60-65 | no handler of the type |
| `Dispatchers.Dispatcher.Perform` | dispatcher.go:47-65 | any sequence of registrations by others |
| `Dispatchers.Dispatcher.Dispatch` | dispatcher.go:28-44 | the handlers called are those registered at the start, and what is registered meanwhile is registered |
| `Dispatchers.Dispatcher.CallAll` | dispatcher.go:37-43 | the loop stops at the first error |
| `Buses.DeliveriesAreSnapshots` | bus.go:31-51 | never more live deliveries than slots; subscribers see exactly the snapshot of each publish, in order, once |
| `Buses.SnapshotsAreFixed` | bus.go:32-34 | later subscriptions do not change the snapshot of a publish |
| `Buses.PublishMeans` | bus.go:29-51 | a publish panics if and only if its type has no subscriber, takes those added since the last removal, and gets a slot if and only if fewer deliveries are live than slots and its context does not end it |
| `Buses.DeliveriesGoOn` | bus.go:44-50 | a live delivery can always go on with its next subscriber, or free its slot |
| `Buses.Bus.constructor` | bus.go:22-27 | an empty bus with its semaphore |
| `Buses.Bus.Subscribe` | bus.go:54-64 | one more subscriber |
| `Buses.Bus.Unsubscribe` | bus.go:67-72 | no subscriber of the type |
| `Buses.Bus.PublishLook` | bus.go:31-38 | the snapshot under the read lock, or the panic |
| `Buses.Bus.PublishEnter` | bus.go:40-44 | a slot and a goroutine, nothing if the context ended, or a wait |
| `Buses.Bus.DeliverNext` | bus.go:44-50 | the next subscriber of the snapshot, or the release of the slot |
| `Retries.MadeRetriesAreValid` | retry.go:52-89 | which options are accepted, and that an unbounded retry always has a delay |
| `Retries.JitterBounds` | retry.go:145-153 | jitter stays between its floor and the delay, and strictly below the delay when it is on |
| `Retries.DelayIsExponential` | retry.go:134 | the k-th delay is at most delay times backoff to the k |
| `Retries.DelaysGrow` | retry.go:134-138 | with a backoff of at least one delays do not shrink, but for the cap |
| `Retries.LaterDelaysAreCapped` | retry.go:136-138 | every delay after the first is at most MaxDelay |
| `Retries.DelayIsLargest` | retry.go:134-138 | each delay is the largest whole number within backoff times the delay before it and within MaxDelay |
| `Retries.WholeBackoffDelays` | retry.go:134-138 | with a whole backoff b the k-th delay is delay times b to the k, cut at MaxDelay |
| `Retries.SmallestJitter` | retry.go:145-153 | the smallest random number takes off all that jitter may take |
| `Retries.FirstWaitCanExceedMaxDelay` | retry.go:120-138 | a concrete Retry, accepted by NewRetry, and a run of Do whose first wait is 10 with a MaxDelay of 5 |
| `Retries.LargestJitter` | retry.go:145-153 | the largest wait that jitter allows is reached |
| `Retries.MaxDelayIsRespectedIff` | retry.go:32-34 | every wait of every Do is within MaxDelay if and only if only one attempt is allowed, or the first delay, less one nanosecond when jitter is on, is within it |
| `Retries.JitterDelay` | retry.go:145-153 | the result is never negative, never longer than the delay, at least what jitter leaves of it, and equal to it exactly if there is no delay or no jitter |
| `Retries.Do` | retry.go:96-142 | the loop calls, waits and stops as the recursive description says |
| `Retries.EndingIsJustified` | retry.go:91-142 | why Do stopped at its last call, and that every call before it failed |
| `Retries.DoIsExhaustive` | retry.go:106-142 | with a context that never ends: up to the first success or the attempt limit, and nil or the last error |
| `Retries.DoEndsAtTheFirst` | retry.go:106-142 | Do ends with the first attempt that succeeds, is the last allowed, or finds the context ended after it or in its wait; the ending and the number of waits are those of that attempt |
| `Retries.WaitsAreCounted` | retry.go:120-132 | with positive delays n + 1 calls make n waits, and one more only if it was cut short |
| `Retries.DoWaitsForSuccess` | retry.go:106-142 | without an attempt limit: until the first success and no longer |
| `Retries.WaitsAreDelays` | retry.go:120-132 | wait i is the jittered delay after call i |
| `Retries.WaitsAreBounded` | retry.go:120-138 | bounds of every wait: exponential, by jitter, and by MaxDelay after the first |

## Left out

- Logging, slog attributes, and the shutdown watchdog with its timers: reporting only.
- OS signals and the internals of Go contexts: a signal is a cancellation of the parent, a
  context is a flag that stays set, and AfterFunc is a step of its own.
- Panics inside hooks, tasks, workers, handlers and callbacks, which the code does not recover.
- Wall-clock time: timers fire at any moment. Debouncer and Throttler have nothing beyond that.
- `stack.go`, `map.go`, `set.go` and the type-keyed stores with Get, Set and Global: easy members
  beside Buffer.
- `env`, `assert`, `test`, `web` and `examples`: no protocol of their own.
- Overflow of machine integers and rounding of float64: integers and reals are unbounded and exact.
- Go's memory model: a step that reads or writes fields without a lock is atomic.
- Error texts and wrapping: an error is a value that knows whether it wraps context.Canceled.
- Item values: queue and buffer protocols carry integers, handlers and hooks are numbers.
- The result that a panic in Attach or a registration call leaves: the call changes nothing, and in
  the concurrent model it is no step.
- A second call of Runtime.Run, which panics before it does anything.
- Reentrant use that would deadlock, such as Add from inside the accumulator's callback.
- QueueProgress.CloseCanFinish: reachability of the end while other calls may still come; that the
  end is reached, in a bounded number of steps, is QueueTermination.EverythingReturns and holds
  without new calls. With new calls for ever, readers and writers of `mu` could keep others waiting.
- RuntimeTermination.RunReturns: without further registrations; containers that launch tasks for
  ever while they start can keep Run from returning.
- Worker functions, hooks and tasks that never return: the next step of each is its return.
- RuntimeObject.Runtime.Start: the context is asked in order and other goroutines act only inside
  hooks; Run as a whole, with tasks that fail while startup goes on, is the concurrent model's.
- RuntimeObject.Runtime.Shutdown: live tasks return one after the other during the wait; in the
  concurrent model they do so at any time.
- ContainerObject.Container.Shutdown: tasks return only during the wait, one after the other; in the
  concurrent model they do so at any time.
- BufferObject.Buffer.Next: one pass of its loop; sleeping and waking is in BufferWakeup.
- Retries.Do: followed for any given number of attempts, because without limits it need not end.
- Dispatchers.Dispatcher.Dispatch: registrations by others are given as a list for each call.
- Registries.Registry.Append: how much spare capacity a grown slice gets is a parameter.
