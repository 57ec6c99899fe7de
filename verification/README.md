# SecureProcessManager: a Dafny model of its supervisor

SecureProcessManager keeps `numProcesses` child processes running. A creator thread launches them, one listener turns
their creation messages into monitor threads, another turns their termination messages into `--counter_` and a mark in
the registry, and the children, their monitor threads and the console all run beside them. They share one atomic
counter, a registry of handlers and a System V message queue, and no step of theirs is a transaction. This project
models that protocol at the granularity of single shared accesses and proves what holds over every interleaving.

`dafny verify dfyconfig.toml` checks everything.

## How it is built

* `Supervisor.dfy` is the protocol as a transition system. A `State` holds the shared memory, one program counter per
  thread, and a `History` that no step tests. An `Action` is one step together with the choices of the scheduler, the
  kernel and the console. Any enabled action may come next, so a legal list of actions is one interleaving. Sends may
  fail, pids may be handed out again, and a child may be killed at any point.
* `SupervisorInvariant.dfy` has the inductive invariant, in ten parts, and its preservation by every step.
* `SupervisorCapacity.dfy`, `SupervisorRegistry.dfy` and `SupervisorShutdown.dfy` have the theorems about reachable
  states: `counter_` and capacity; deceased pids, monitor threads and the drift between registry and counter; what
  happens after `running` becomes false.
* `SupervisorProgress.dfy` has what the creator achieves while the supervisor runs, and `SupervisorConduct.dfy` what
  the others do: how an exit status decides about a report, what the console's switches stop, and how the flags stop
  monitor threads and let pids be marked.
* `SupervisorLimits.dfy`, `SupervisorBoundaries.dfy`, `SupervisorReports.dfy` and `SupervisorDrift.dfy` say where the
  guarantees end: pieces of runs, strung together into counterexamples, and for each broken guarantee the
  configurations that keep it.
* `SupervisorFrames.dfy` says what the other threads leave alone. With it, `Threads.dfy` writes the threads the way
  the program does: a class whose methods loop and assign fields, with arbitrary steps of all the others allowed
  between any two shared accesses. Every method is proved to leave a state reachable in the transition system, so the
  theorems about reachable states hold of that code too.
* Under the protocol: `TypedQueue.dfy` and `Messenger.dfy` (the queue, and the retry loops around it), `Messages.dfy`,
  `StringTools.dfy`, `TimeFormat.dfy` and `Decimal.dfy` (the texts), `Registry.dfy`. Beside it: `Config.dfy` (from the
  configuration file to the argument vector), `Logger.dfy`, `Simulator.dfy`. `Common.dfy` is shared vocabulary.

Receiving follows `msgrcv()` with a positive message type, section 2.7 (XSI Interprocess Communication) of
POSIX.1-2017, System Interfaces.

## What comes out

Below, the supervisor gets started when there is a first batch and the pids suffice for it (`GetsStarted`): the limit is
positive, and there is a pid for system children, or one for each place for forked ones.

* `counter_` obeys an exact law in every reachable state (`CounterLaw`), and the children that have not finished never
  exceed `numProcesses` by more than the number of children that were reported twice (`Capacity`).
* No child is ever reported twice exactly for system processes and when the supervisor never gets started
  (`SingleReportsExactly`). A forked child is, only if a signal kills it between its own termination message and `_exit`
  (`AtMostOneReport`); a run without such a kill never overshoots (`CapacityOfRun`).
* The bound of `numProcesses` itself, asked of every run, holds exactly for system processes, for a limit that admits
  no child, and when there are no more pids than places (`CapacityHoldsExactly`). Elsewhere the overshoot is bounded by
  nothing but late kills and pids (`OvershootIsTight`).
* `counter_` goes below 0, other than to -1 between a launch and `++counter_`, exactly when children can be reported
  twice (`CounterFloorExactly`).
* A working child is not in the deceased set unless another child has had its pid. That can happen whenever the
  supervisor gets started: a mark is never taken back, so when the kernel hands out the pid of a marked child again, the
  new child is hidden from `handlers()` (`WorkersVisibleExactly`).
* `counter_` and the registry's snapshot obey an exact law with reused pids counted (`DriftLaw`); without that count
  they stay within one of each other exactly when there is at most one place, or no start (`SnapshotCloseExactly`).
* Three more things one might expect fail in the same way, with the exact condition for each: a handler has one monitor
  thread (`OneMonitorExactly`), a deceased pid has none left (`DeceasedUnwatchedExactly`), and every dead child is
  replaced in the end (`FullExactly`).
* While it runs, the creator fills every free place it sees in a bounded number of its own steps (`PlacesAreFilled`).
* A child that ends with an ordinary exit, with whatever code, is reported at most once (`ExitingRunIsExact`). Without
  shutdown or pause, a child that has ended is collected within six steps of a monitor thread on its pid whose flag
  stays set (`DeadChildIsCollected`).
* With respawning off, in a pause or without room nothing is launched (`NothingIsLaunched`), and in a pause nothing is
  collected (`NothingIsCollected`).
* A counted message of a registered pid leads to its mark unless a new monitor thread starts on its handler meanwhile
  (`CountedPidIsMarked`, `MissNeedsNewThread`).
* After shutdown at most one batch is still launched; that these are at most `numProcesses` children holds exactly under
  the condition of the capacity bound (`LastBatchExactly`). Every thread leaves its loop within a bounded number of its
  own steps, and so under every fair schedule (`FairShutdown`). None waits for another in the protocol
  (`NobodyIsStuck`); mutexes and the logger's semaphore, which could block, are not modelled.

## Model

| member | source | states |
|---|---|---|
| `SupervisorInvariant.StepInv` | src/maincontroller/main_controller_createthreads.cpp:35-155 | Every step of every thread, child, worker or console command keeps the invariant: counting, message logs, registry, marks, monitor threads and who may still report. |
| `SupervisorInvariant.RunInv` | src/maincontroller/main_controller_terminatethreads.cpp:14-102 | The invariant survives every interleaving of any length. |
| `SupervisorInvariant.TerminationPosted` | src/process/base_process.cpp:31-38 | Queueing a termination message a child newly claims, its own or its reaper's, keeps the invariant, provided that party has queued none about it before. |
| `SupervisorInvariant.OwedByOne` | src/processmonitors/process_monitor.cpp:76-89 | A monitor thread about to send has itself reaped that child, and the reaper has not reported it yet. |
| `SupervisorInvariant.TerminationCounted` | src/maincontroller/main_controller_terminatethreads.cpp:79-89 | Every received termination message decodes to the pid of the child it is about, so none is dropped uncounted. |
| `SupervisorCapacity.CounterLaw` | src/maincontroller/main_controller_createthreads.cpp:62-68 | In every reachable state, `counter_` plus a launch not yet counted equals unfinished children plus finished unreported ones plus pending messages less children reported twice. |
| `SupervisorCapacity.Capacity` | src/maincontroller/main_controller_createthreads.cpp:35-92 | Unfinished children and the launches the batch still owes exceed `numProcesses` by at most the children reported twice, and these were all killed between send and `_exit`. |
| `SupervisorCapacity.CapacityOfRun` | src/maincontroller/main_controller_createthreads.cpp:35-92 | Over a whole run, the overshoot is at most the number of kills between a child's own send and its `_exit`; without one, `numProcesses` is never exceeded. |
| `SupervisorCapacity.CounterBounds` | src/maincontroller/main_controller_createthreads.cpp:42-46 | `counter_` never exceeds `numProcesses`, falls below minus the doubled reports only between a launch and `++counter_`, and the second read always sizes a batch of at least 1; `CounterFloorExactly` says when the doubled reports matter. |
| `SupervisorCapacity.BatchRestoresCount` | src/maincontroller/main_controller_createthreads.cpp:76-92 | A finished batch leaves `counter_` at `numProcesses` less the termination messages counted since its second read. |
| `SupervisorCapacity.QuiescentCounterIsAccurate` | src/maincontroller/main_controller_terminatethreads.cpp:65-89 | With nothing pending and every finished child reported once, `counter_` is the number of unfinished children, whatever the history: the processes still there less those between their send and `_exit`. |
| `SupervisorCapacity.AtMostOneReport` | src/processmonitors/process_monitor.cpp:53-99 | Two termination messages about one child exist only if it was killed between its own send and `_exit`, and then one is its own and one its reaper's; `ExitIsReportedOnce` has the exit status, and `SingleReportsExactly` the configurations that rule it out. |
| `SupervisorCapacity.LateKillsAreCounted` | src/process/base_process.cpp:34-37 | The late kills recorded in the children are exactly the late-kill steps of the run. |
| `SupervisorRegistry.DeceasedWereReported` | src/processcontroller/ProcessRegistry.cpp:50-59 | Every deceased pid was named by a counted termination message about a finished child with that pid, reused pids included. |
| `SupervisorRegistry.WorkingChildIsNotDeceased` | src/maincontroller/main_controller_terminatethreads.cpp:14-63 | A child that is still working is not in the deceased set, unless another child has had its pid. |
| `SupervisorRegistry.ThreadsAreEarned` | src/maincontroller/main_controller_createthreads.cpp:94-142 | A monitor thread runs on a registered handler, for a received creation message naming its pid, sent by a child that had announced itself. |
| `SupervisorRegistry.OneMonitorPerChild` | src/processmonitors/process_monitor.cpp:31-56 | A handler gets two monitor threads only if another child has had its child's pid, although testing `monitoring()` and setting it are far apart. |
| `SupervisorRegistry.DriftLaw` | src/maincontroller/main_controller_createthreads.cpp:62-68 | For fresh and reused pids alike: active handlers, plus registrations turned down, plus one counted but unregistered, equal `counter_` plus the counted messages that marked no new pid; so `counter_` is at most one more than `handlers()` and the rejections. |
| `SupervisorRegistry.RejectedExactly` | src/processcontroller/ProcessRegistry.cpp:28-38 | Registrations are turned down exactly when an earlier child had the pid. |
| `SupervisorDrift.SnapshotCloseExactly` | src/processcontroller/ProcessRegistry.cpp:13-26 | `counter_` is at most one more than the snapshot's size, in every run, if and only if there is at most one place or the supervisor never gets started. |
| `SupervisorDrift.IsReplaced` | src/maincontroller/main_controller_createthreads.cpp:62-68 | A marked child's pid handed out again brings `counter_` back and leaves the snapshot one short. |
| `SupervisorRegistry.StepEvolves` | src/processmonitors/process_monitor.cpp:53-99 | No step takes back a pid, a report or an announcement of a child. |
| `SupervisorShutdown.RunStaysStopped` | src/processcontroller/process_controller.cpp:44-61 | Over any run, `running` never becomes true again once it is false. |
| `SupervisorShutdown.LaunchesAfterShutdown` | src/maincontroller/main_controller_createthreads.cpp:37-51 | After `running` is false at most `numProcesses` more children are launched, plus one per child reported twice, however the run goes on; `LastBatchExactly` says when the plain bound holds. |
| `SupervisorShutdown.RankBoundsOwnSteps` | src/maincontroller/main_controller_terminatethreads.cpp:30-42 | After shutdown, over any run, the own steps of a thread and the rank it is left with never exceed the rank it had: no step of the others gives it more to do. |
| `SupervisorShutdown.EveryLoopEnds` | src/processmonitors/process_monitor.cpp:58-98 | After shutdown the creator, both listeners and every monitor thread take boundedly many own steps, and having taken them they are out of their loops. |
| `SupervisorShutdown.FairShutdown` | src/maincontroller/main_controller.cpp:38-46 | Under every schedule that lets a thread step once in each round, the thread is out of its loop after as many rounds as its rank. |
| `SupervisorShutdown.NobodyIsStuck` | src/maincontroller/main_controller_createthreads.cpp:121-152 | A thread that is not done has an enabled step of its own, except in front of a fork, which needs a pid from the kernel; mutexes and the logger's semaphore are not modelled. |
| `SupervisorProgress.PlacesAreFilled` | src/maincontroller/main_controller_createthreads.cpp:35-92 | In a run that stays running, respawning and unpaused, the places free when the creator is at the head of its loop are all filled after six of its own steps and three for each place. |
| `SupervisorLimits.CapacityHoldsExactly` | src/maincontroller/main_controller_createthreads.cpp:35-92 | Every run keeps the unfinished children within `numProcesses` if and only if the processes are system ones, the limit admits none, or there are no more pids than places. |
| `SupervisorLimits.OvershootIsTight` | src/processmonitors/process_monitor.cpp:82-89 | The bound of `CapacityOfRun` is attained: for every k that the pids allow, some forked run with k late kills ends with `numProcesses` + k unfinished children. |
| `SupervisorLimits.OneMore` | src/maincontroller/main_controller_createthreads.cpp:42-47 | From a full house, one child killed after its own termination message is counted twice, and two children replace it. |
| `SupervisorLimits.SystemChildrenReportOnce` | src/process/systemprocess/system_process.cpp:35-91 | System children, which have no monitor thread, are never reported twice. |
| `SupervisorReports.SingleReportsExactly` | src/processmonitors/process_monitor.cpp:53-99 | In every run every child yields at most one termination message if and only if the processes are system ones or the supervisor never gets started. |
| `SupervisorReports.CounterFloorExactly` | src/maincontroller/main_controller_terminatethreads.cpp:88 | `counter_` stays at or above 0, or -1 between a launch and `++counter_`, in every run under that same condition only. |
| `SupervisorReports.LastBatchExactly` | src/maincontroller/main_controller_createthreads.cpp:37-51 | At most `numProcesses` children are launched after shutdown, in every run, if and only if the processes are system ones, the limit admits none, or there are no more pids than places. |
| `SupervisorReports.OneLaunchTooMany` | src/maincontroller/main_controller_createthreads.cpp:45-46 | The failing run: a whole batch reported twice leaves `counter_` at minus `numProcesses`, and the next batch outlasts shutdown. |
| `SupervisorReports.RunCollects` | src/processmonitors/process_monitor.cpp:76-96 | Over every run, collected forked children and threads that may still collect one are at most the threads; after shutdown their number only falls. |
| `SupervisorReports.PidsEndTheBatch` | src/maincontroller/main_controller_createthreads.cpp:76-92 | Forked children launched after shutdown need a pid each, whatever dies meanwhile. |
| `SupervisorBoundaries.WorkersVisibleExactly` | src/processcontroller/ProcessRegistry.cpp:13-59 | In every run every working child's pid stays out of the deceased set if and only if the first batch is empty or lacks pids, so that the supervisor never gets started. |
| `SupervisorBoundaries.Reuse` | src/maincontroller/main_controller_terminatethreads.cpp:88-89 | The failing run, for forked and for system children: ended, collected, counted and marked, the pid is handed out again and the new child works behind the mark. |
| `SupervisorBoundaries.SomeoneLeaves` | src/process/systemprocess/system_process.cpp:35-91 | A complete first batch, with different pids when they suffice, one of whose children ends and is collected, its message queued or lost. |
| `SupervisorBoundaries.OneMonitorExactly` | src/maincontroller/main_controller_createthreads.cpp:94-112 | No handler ever gets a second monitor thread if and only if the processes are system ones or the supervisor never gets started. |
| `SupervisorBoundaries.DeceasedUnwatchedExactly` | src/maincontroller/main_controller_terminatethreads.cpp:26-53 | A deceased pid has no monitor thread left, in every run, under that same condition only. |
| `SupervisorBoundaries.FullExactly` | src/concurrency/communicator.cpp:37-47 | Every settled state has `numProcesses` unfinished children, in every run, if and only if the supervisor never gets started: a lost termination message leaves a place empty. |
| `SupervisorBoundaries.ShortExactlyBy` | src/maincontroller/main_controller_createthreads.cpp:42-46 | A settled house is short by exactly the finished children nobody has reported, less those reported twice. |
| `SupervisorBoundaries.NeverStarted` | src/maincontroller/main_controller.cpp:15-36 | Without pids for the whole first batch no thread ever starts, and nothing is marked or watched. |
| `SupervisorFrames.OthersKeep` | src/maincontroller/main_controller_createthreads.cpp:54-74 | What a thread may rely on between two of its accesses: its place, what only it writes, and that handlers are only added. |
| `SupervisorConduct.ExitIsNotReported` | src/processmonitors/process_monitor.cpp:82-89 | In every reachable state, a forked child that its reaper has reported was reaped with a status other than a normal exit, whatever the exit code. |
| `SupervisorConduct.ExitIsReportedOnce` | src/tools/process_status.cpp:10-29 | A child with two termination messages has been reaped and did not exit normally. |
| `SupervisorConduct.ExitingRunIsExact` | src/process/base_process.cpp:31-48 | A run in which every child that has tried its own message then exits, with any code such as the number of a handled signal, reports no child twice and never exceeds `numProcesses`. |
| `SupervisorConduct.NothingIsLaunched` | src/maincontroller/main_controller_createthreads.cpp:37-49 | With respawning off, in a pause, or without room, and the creator not past that test, not one child is launched in any run until the reason is taken away. |
| `SupervisorConduct.CountedPidIsMarked` | src/maincontroller/main_controller_terminatethreads.cpp:14-63 | After its message was counted, a registered pid is marked within six steps of the listener in every run in which no new thread starts on its handler, whatever the threads in their loops do. |
| `SupervisorConduct.MissNeedsNewThread` | src/maincontroller/main_controller_terminatethreads.cpp:26-53 | A registered pid is missed at the second test only if a new thread on its handler has set the flag since the message was counted: the listener itself clears a flag it finds set. |
| `SupervisorConduct.ClearedFlagStopsMonitor` | src/processmonitors/process_monitor.cpp:58-98 | A monitor thread whose flag is clear ends within six of its own steps in every run in which no new thread starts on its handler. |
| `SupervisorConduct.NothingIsCollected` | src/processmonitors/process_monitor.cpp:60-70 | In a pause, with no thread past its test, no forked child is collected in any run until the pause ends. |
| `SupervisorConduct.DeadChildIsCollected` | src/processmonitors/process_monitor.cpp:56-96 | A child that has ended is collected within six steps of a monitor thread on its pid, in every run without shutdown or pause in which its flag stays set. |
| `SupervisorConduct.AnnouncedGetsThread` | src/maincontroller/main_controller_createthreads.cpp:94-112 | A received creation message for a registered pid whose flag is clear leads to one more thread on that handler within four steps of the listener, in every run in which no other thread starts on it. |
| `Threads.World.InitializeController` | src/maincontroller/main_controller.cpp:15-29 | The first batch launches exactly `numProcesses` children (none for a negative number), with the pids the kernel offers, before any thread runs; it stops short only at a pid the kernel refuses. |
| `Threads.World.StartThreads` | src/maincontroller/main_controller.cpp:31-36 | The creator and both listeners start at the top of their loops. |
| `Threads.World.CreateHandler` | src/maincontroller/main_controller_createthreads.cpp:54-74 | Under interference, one child is launched with the offered pid, counted and registered under it unless that pid is taken; it fails only if the pid is refused. |
| `Threads.World.CreateHandlers` | src/maincontroller/main_controller_createthreads.cpp:76-92 | Exactly the requested number of children is launched, counted and registered in order, and `counter_` ends as the batch law says; it stops short only at a pid the kernel refuses. |
| `Threads.World.CreatorSeesPaused` | src/maincontroller/main_controller_createthreads.cpp:39 | The pause switch is read, and a pause sends the creator back to the head of its loop. |
| `Threads.World.CreatorSeesRespawn` | src/maincontroller/main_controller_createthreads.cpp:42 | The respawn switch is read, and the creator goes on exactly when it is on. |
| `Threads.World.CreatorSeesRoom` | src/maincontroller/main_controller_createthreads.cpp:43 | The creator goes on exactly when the `counter_` it reads is below `numProcesses`. |
| `Threads.World.CreatorSizesBatch` | src/maincontroller/main_controller_createthreads.cpp:45-46 | The second read of `counter_` yields `numProcesses` less `counter_`, still at least 1. |
| `Threads.World.RefillBatch` | src/maincontroller/main_controller_createthreads.cpp:42-47 | Each operand of the guard is read on its own; a turn that launches nothing has read one of them false, one that launches leaves `counter_` as the batch law says, the children grow by exactly its launches, and it fails only at a refused pid. |
| `Threads.World.RestoreHandlerCount` | src/maincontroller/main_controller_createthreads.cpp:35-52 | For every number of turns of the creator's loop: its steps are steps of the transition system, the children grow by exactly its launches, and the loop is left only with `running` false, and in the first turn when called after shutdown. |
| `Threads.World.WaitForMonitor` | src/maincontroller/main_controller_terminatethreads.cpp:28-42 | The wait for a monitor thread ends at the first poll that finds the flag clear, or the first after which more than 500 ms have passed, and marks nothing; the result says which. |
| `Threads.World.TerminateRegistered` | src/maincontroller/main_controller_terminatethreads.cpp:26-57 | For a registered pid: the flag is cleared if it is set, the wait follows, and the pid is marked unless the flag is set at the second test. |
| `Threads.World.TerminateMonitorThread` | src/maincontroller/main_controller_terminatethreads.cpp:14-63 | Either the pid joins the deceased set, or the set stays and one more message is a miss: for -1, an unregistered pid, or one whose handler's flag is set at the second test. Marking a pid again is a miss too. |
| `Threads.World.CountTermination` | src/maincontroller/main_controller_terminatethreads.cpp:88 | `counter_` is decremented by one before the lookup, and that step changes nothing else but the listener's place. |
| `Threads.World.ReceiveTermination` | src/concurrency/messenger.cpp:86-119 | Polling ends with the oldest uncounted message in hand, or back at the loop; without shutdown that takes a failing `msgrcv`, or a poll after more than 5 s that finds no message, and no earlier poll was like that. |
| `Threads.World.MonitorProcessTermination` | src/maincontroller/main_controller_terminatethreads.cpp:65-102 | For every number of turns its steps are steps of the transition system, and the loop is left only with `running` false, and in the first turn when called after shutdown. |
| `Threads.World.ReceiveCreation` | src/concurrency/messenger.cpp:86-119 | Polling ends with the next creation message in the order of announcement, or back at the loop under the same conditions. |
| `Threads.World.CreateMonitorThread` | src/maincontroller/main_controller_createthreads.cpp:94-112 | One more monitor thread, about to start, on the handler registered under the pid; none only for -1, an unregistered pid, or a flag found set. |
| `Threads.World.CreateMonitoringThreads` | src/maincontroller/main_controller_createthreads.cpp:119-155 | For every number of turns its steps are steps of the transition system, and the loop is left only with `running` false, and in the first turn when called after shutdown. |
| `Threads.World.PreWork` | src/process/base_process.cpp:21-29 | A child that is not killed first tries its creation message once: it is on record exactly if the send succeeds, and then it is the last one queued, with the child's pid. |
| `Threads.World.SendOwnTermination` | src/process/base_process.cpp:31-36 | The child's own termination message is on record exactly if the child is alive, has its parent and the send succeeds, and then it is the last one queued, with the child's pid and code. |
| `Threads.World.PostWork` | src/process/base_process.cpp:31-38 | The child ends with the low byte of its code unless it is killed before `_exit`; not killed, its own message is on record exactly if it has its parent and the send succeeds. |
| `Threads.World.WorkerWait` | src/process/systemprocess/system_process.cpp:74-90 | The worker goes on exactly when its child has ended, which it reaps, with the exit code or the signal as code. |
| `Threads.World.WorkerPostWork` | src/process/systemprocess/system_process.cpp:35-41 | The worker's message about its reaped child is on record exactly if it has its parent and the send succeeds, and then it is the last one queued; the worker is gone. |
| `Threads.World.ReportDeath` | src/processmonitors/process_monitor.cpp:84-87 | The reaping thread's message, with an empty duration, is on record exactly if the send succeeds, and then it is the last one queued; no reaper had spoken about that child before. |
| `Threads.World.WaitPid` | src/processmonitors/process_monitor.cpp:76-96 | A collected child has the handler's pid and is reaped with the status returned, and the thread goes on to report exactly when that is not `Exited`. With nothing collected no child with that pid is a zombie, and the thread goes on exactly if one is unreaped. |
| `Threads.World.Collect` | src/processmonitors/process_monitor.cpp:76-96 | After a collection the reaper's message about the child is on record exactly if its status is not a normal exit and the send succeeds. |
| `Threads.World.KeepsMonitoring` | src/processmonitors/process_monitor.cpp:58 | The thread goes on only with `running` and its flag read true, and stops only when one of them was read false. |
| `Threads.World.IsProcessRunning` | src/tools/process_status.cpp:31-40 | `kill(pid, 0)` finds a process exactly if a child with that pid is unreaped or a stranger has the pid. |
| `Threads.World.MonitorProcessThread` | src/processmonitors/process_monitor.cpp:53-99 | For every number of turns its steps are steps of the transition system; a thread that ends has cleared its handler's flag, any other is at the head of its loop; started after shutdown it ends in the first turn. |
| `Threads.World.StopRunning` | src/processcontroller/process_controller.cpp:44-61 | `running` is cleared and nothing else changes. |
| `Threads.World.SetRespawning` | src/api/api.cpp:30 | The respawn switch is set as asked and nothing else changes. |
| `Threads.World.SetMonitoringPaused` | src/processcontroller/process_controller.cpp:63-71 | The pause switch is set as asked and nothing else changes. |
| `TypedQueue.TypedFifo` | src/concurrency/messenger.cpp:52-119 | Over any history of sends and receives, the bodies sent with a type are those received of it followed by those still queued, in order. |
| `TypedQueue.BacklogOfReceive` | src/concurrency/messenger.cpp:97-100 | A receive takes the oldest message of its type, leaves every other type alone, and finds nothing only when there is nothing. |
| `Messenger.MessageQueue.SendMessage` | src/concurrency/messenger.cpp:52-84 | At most one copy is queued, truncated to the payload, and exactly when the outcome is delivery. |
| `Messenger.DeliveredExactlyWhen` | src/concurrency/messenger.cpp:61-81 | A send is delivered if and only if some turn is accepted and every earlier one found the queue full and time left. |
| `Messenger.FailedExactlyWhen` | src/concurrency/messenger.cpp:61-81 | A send fails, rather than timing out, if and only if an error other than a full queue follows turns that all found the queue full and time left. |
| `Messenger.MessageQueue.ReceiveMessage` | src/concurrency/messenger.cpp:86-119 | A message of the type is taken in the first turn that finds one; without one the loop ends only by shutdown, an error or the timeout. Whatever arrives meanwhile, every type's backlog is conserved and in order; over encoded messages the result is nonempty exactly when a message was dequeued. |
| `Messages.CreationRoundTrip` | src/concurrency/communicator.cpp:8-18 | For every 32-bit pid and any duration, building, truncating, splitting and parsing a creation message gives the pid back. |
| `Messages.TerminationRoundTrip` | src/concurrency/communicator.cpp:20-35 | The same for termination messages with any exit code. |
| `Messages.CreationTextIsRendered` | src/concurrency/communicator.cpp:8-18 | The text is the fields "PID" and, unless it is empty, "Sleep duration", as "name: value" with a bar between them. |
| `Messages.TerminationTextIsRendered` | src/concurrency/communicator.cpp:20-35 | The same fields, and then "Exit code". |
| `Messages.PayloadNotEmpty` | src/concurrency/communicator.cpp:65-86 | No encoded message is read back as an empty string. |
| `Messages.NothingIsTruncated` | include/concurrency/message.h:8-16 | With an empty duration or one from `timeToStr`, every message has at most 97 characters and is carried whole. |
| `StringTools.SplitString` | src/tools/string_tools.cpp:7-19 | The token loop computes `Split`. |
| `StringTools.SplitTokensAreClean` | src/tools/string_tools.cpp:7-19 | No token contains the delimiter. |
| `StringTools.SplitIsLossless` | src/tools/string_tools.cpp:7-19 | Joining the tokens rebuilds the input, up to one delimiter at its end. |
| `StringTools.SplitOfJoin` | src/tools/string_tools.cpp:7-19 | Splitting undoes joining when the last token is not empty. |
| `StringTools.SplitOfTerminatedJoin` | src/tools/string_tools.cpp:7-19 | Splitting undoes joining with a closing delimiter, empty last token included. |
| `StringTools.CreateCStyleArgs` | src/tools/string_tools.cpp:41-53 | The vector is the nonempty arguments in order, then the null pointer. |
| `StringTools.NonEmptyAt` | src/tools/string_tools.cpp:44-50 | Every nonempty argument is kept, at the position given by how many nonempty ones precede it, and no empty one is. |
| `StringTools.StrToPidExactly` | src/tools/string_tools.cpp:21-39 | The result is -1 exactly for a conversion failure or the numeral -1; any other result is what `std::stoi` read. |
| `Decimal.StoiOfToString` | src/tools/string_tools.cpp:21-39 | `std::stoi` reads a 32-bit numeral back, whatever non-digit follows it. |
| `Decimal.StoiReads` | src/tools/string_tools.cpp:26 | Blanks, at most one sign and a longest run of digits give their 32-bit value, or a range error, whatever follows. |
| `Decimal.StoiRejects` | src/tools/string_tools.cpp:28-32 | Without a digit after the blanks and the sign it is an invalid argument. |
| `TimeFormat.DecodeTimeOfTimeToStr` | src/tools/time_manager.cpp:58-68 | A decoder recovers the exact milliseconds from `timeToStr`, for every 64-bit input, negative ones included. |
| `TimeFormat.TimeToStrByParts` | src/tools/time_manager.cpp:58-68 | Minutes, a colon, seconds with three decimals, the units; a negative time shows its sign at each part that is not zero. |
| `TimeFormat.TimeToStrIsInjective` | src/tools/time_manager.cpp:58-68 | For fixed units, equal texts mean equal times. |
| `TimeFormat.TimeToStrLength` | src/tools/time_manager.cpp:58-68 | A formatted time has between 1 and 37 characters. |
| `Registry.ProcessRegistry.Handlers` | src/processcontroller/ProcessRegistry.cpp:13-26 | The copying loop returns exactly the pids that were offered and not reported dead since, each with the first handler offered for it. |
| `Registry.ProcessRegistry.AddMonitorProcess` | src/processcontroller/ProcessRegistry.cpp:28-38 | The handler is inserted exactly if it is the first one offered for its pid. |
| `Registry.ProcessRegistry.FindMonitor` | src/processcontroller/ProcessRegistry.cpp:40-48 | Over the registry's whole history, a lookup finds the first handler ever offered for the pid, and nothing exactly if there was none; deaths do not matter. |
| `Registry.ProcessRegistry.MarkProcessAsDeceased` | src/processcontroller/ProcessRegistry.cpp:50-59 | The result says whether the pid had been offered, which is when it counts as dead from now on. |
| `Registry.LookupFindsFirstOffer` | src/processcontroller/ProcessRegistry.cpp:28-48 | For every history of offers and deaths, the map holds exactly the offered pids, each with its first handler. |
| `Registry.SnapshotShowsExactly` | src/processcontroller/ProcessRegistry.cpp:13-59 | For every history, a pid is deceased exactly if it was reported dead after an offer, and the snapshot shows the other offered ones. |
| `Config.ParseLineInverts` | src/config/ConfigReader.cpp:60-71 | A line parses to a setting if and only if it is that key, '=', and that nonempty value, with no '=' in the key and no leading '#'. |
| `Config.LastLineWins` | src/config/ConfigReader.cpp:60-72 | A key is present exactly when some line sets it, with the value of the last such line. |
| `Config.ConfigReader.ParseConfigFile` | src/config/ConfigReader.cpp:46-85 | The loop fills the map from the lines; the parameter list is two empty strings per key, then a "-key", value pair for every key but `process_file`. |
| `Config.Arguments.Populate` | src/process/systemprocess/system_process.cpp:129-165 | Arguments are filled once, with the file and the parameters; a missing `process_file` is swallowed and reported as success. |
| `Config.SpawnVector` | src/process/systemprocess/system_process.cpp:22-33 | From file contents to argument vector: the executable, each other setting as a pair, the null pointer; the null pointer alone without `process_file`; nothing for a bad path. |
| `Config.UnflattenOfFlatten` | src/config/ConfigReader.cpp:76-84 | The pairs can be read back: no setting is lost, added or changed, in whatever order the map is visited. |
| `Config.FlattenAt` | src/config/ConfigReader.cpp:78-84 | Pair i of the list is the i-th visited key with a dash, and its value. |
| `Config.ListLength` | src/config/ConfigReader.cpp:76-84 | The list has two strings for every key, empty ones in front, and two more for every key but `process_file`. |
| `Config.VectorCarriesSettings` | src/config/ConfigReader.cpp:76-84 | The executable and the pairs of the vector determine the whole configuration. |
| `Logger.BufferedConsoleLogger.Log` | src/logger/console_logger.cpp:18-25 | Printed then buffered lines gain exactly this line, and fewer than max(limit, 1) lines stay buffered. |
| `Logger.BufferedConsoleLogger.Flush` | src/logger/console_logger.cpp:27-33 | Everything buffered is printed in order and the buffer is empty. |
| `Logger.ConsoleLogger.Flush` | src/logger/logger.cpp:15-23 | The streamed text becomes one entry unless it is empty, and the stream is cleared. |
| `Logger.ConsoleLogger.LogInfo` | src/logger/logger.cpp:24-27 | One entry more: the timestamp, "INFO: " and the message. |
| `Logger.ConsoleLogger.LogWarning` | src/logger/logger.cpp:28-31 | The same with "WARNING: ". |
| `Logger.ConsoleLogger.LogError` | src/logger/logger.cpp:32-35 | The same with "ERROR: ". |
| `Logger.ConsoleLogger.LogException` | src/logger/logger.cpp:36-39 | The same with "EXCEPTION: ". |
| `Logger.ConsoleLogger.Perform` | include/logger/logger.h:21-26 | For any sequence of calls, printed then buffered lines are the submitted entries in order and the stream holds what was appended since the last flush. |
| `Logger.StreamIsConserved` | src/logger/logger.cpp:15-23 | Submitted and waiting stream text together are exactly what was appended, in order. |
| `Logger.EntryIsReadable` | src/logger/logger.cpp:9-13 | For one timestamp, an entry determines its level and its message. |
| `Simulator.TimeManager.SetSleepDuration` | src/tools/time_manager.cpp:9-33 | Duration, units and both deadlines for each kind of nap; the duration is between 10 ms and 30 min. |
| `Simulator.ProcessSimulator.Work` | src/process/process_simulator.cpp:36-53 | The loop naps until the first turn that finds a stop flag, the clock at or past `endTime_`, or a lost parent; that takes at most ceil(d / 10) naps, and the exceeded lifetime is never the reason. |
| `Simulator.ProcessSimulator.Proceed` | src/process/process_simulator.cpp:12-34 | The loop goes on exactly if the stop flag is unset, the clock is before both deadlines and the parent is there; which reason is recorded otherwise. |

## Left out

Assumptions of the protocol model:

* One `initializeController`, finished before `startThreads`; the queue starts empty and only this run's children use
  it.
* A registry operation, a queue operation, and one read or write of an atomic are each one step.
* `fork`, `clone`, `posix_spawn`, `waitpid`, `kill(pid, 0)` and signals are choices of the environment: a launched
  child gets any pid between the smallest and the largest one that no unreaped child has, it may end at any time with
  any status, and it is waited for once. `waitpid` in the worker thread of a system child succeeds.
* A failed launch, or any exception out of `createHandlers`, ends the program, so it ends the run.
* `postWork` is two steps, the send (or its failure, or the missing parent) and `_exit`. A child that has sent counts
  as finished.
* In the transition system timeouts are choices of the environment, except the wait for a monitor thread, which is
  bounded as in the code. In `Threads.dfy` they follow from the naps, which are parameters there, as are the outcome
  of a send, a failing `msgrcv`, the pid a kernel offers, and whether a stranger has a pid.

Not modelled:

* `terminateAll`, `killAll` and `intAll` as fan-outs over the snapshot: they set `running` and children may die anyway.
* The main loop's wake-up through the condition variable, `joinThreads`, and the stop and join helpers.
* Mutexes inside functions and the logger's semaphore, so no step of the model blocks.
* Thread creation failures, stacks, shared memory and the lifetimes of handler objects: one that the registry turns down
  is gone in the program, here its child goes on like any other.
* `src/process/networkprocess/`, the console, option parsing, help and the API wrappers, the file logger, timestamps,
  random sources beyond their ranges, and the selection of a logger.
* Opening the configuration file, the restricted directories and the path checks, which only enter as one boolean.
* NUL characters inside arguments, floating-point rounding (seconds are exact thousandths) and clocks that go back.

Weaker than the code they stand for:

- Threads.World.RestoreHandlerCount: holds for every number of turns; that the loop ends is `FairShutdown`.
- Threads.World.MonitorProcessTermination: holds for every number of turns; that the loop ends is `FairShutdown`.
- Threads.World.CreateMonitoringThreads: holds for every number of turns; that the loop ends is `FairShutdown`.
- Threads.World.MonitorProcessThread: holds for every number of turns; that the loop ends is `FairShutdown`.
- SupervisorShutdown.EveryLoopEnds: bounds the steps of each thread, not the time they take.

Where the repository's README and its code differ, the model follows the code: `monitor off` makes monitor threads idle
and stops respawning, it does not terminate them.
