# Verification of the Task6 server

A Dafny model of the server side of `Task6Lib`, with proofs. Worker threads take packets from a completion port; they
drive a set of named-pipe instances, a shared-memory handoff, a message log and a shutdown. No lock protects the pipe
buffers and no connection carries an identity: what keeps the program right is how its steps interleave. So the server
is one step system (`Server.dfy`), its five parts have one invariant each, and the results hold in every run, for any
number of workers, pipes, clients and log readers.

`dafny verify dfyconfig.toml` checks everything.

## How the code is represented

Each sequential piece of code is a class with the fields and the branches of the source: `InPipeServer.dfy`
(instances, constructor, the four calls), `IndexedOverlapped.dfy`, `RaiiHandles.dfy`, `SharedMemory.dfy` (`writeData`,
`getData`) and `Task6Server.dfy` (start-up, log, the pipe branch on one packet, stop). Threads are program counters.
`MethodsAreSteps.dfy` shows that the two agree: when nobody else moves, the steps of one thread do what the method does.
`Server.dfy` runs the worker procedure (Task6Server.cpp:6-102) statement by statement, with the bodies of the pipe
server's and the shared-memory server's methods inlined where a worker calls them:

| program counters | source |
|---|---|
| `AtPort`, `Got` | Task6Server.cpp:19-34 |
| `Push` (lock, enqueue, unlock, release) | Task6Server.cpp:218-227 |
| `SvcEnter`, `SvcRun`, `SvcLeave`, `SvcThrow` | InPipeServer.cpp:146-180 |
| `Served`, `Terminated`, `HandlePipe` | Task6Server.cpp:57-64 |
| `Restart` | Task6Server.cpp:66-76 |
| `StartEnter`, `StartRun`, `StartIssued`, `StartLeave` | InPipeServer.cpp:86-103 and 111-130 |
| `ShmEnter`, `ShmHandle`, `ShmLeave` | Task6Server.cpp:85-88 |
| `ShmInner`, `ShmMap`, `ShmCopy`, `ShmSignal`, `ShmLeaveInner` | InSharedMemoryServer.cpp:81-107 |
| clients `Writing`, `Signalling` | OutSharedMemoryClient.cpp:30-56 |
| waiter `Waiting`, `Posting`, `Gone` | InSharedMemoryServer.cpp:6-29 |
| readers `Ticket`, `Popping`, `Popped` | Task6Server.cpp:200-216 |
| stopper `Running`, `Stopping`, `Stopped` | Task6Server.cpp:170-198 |

The call that starts an operation (`StartRun`) and the write of the state (`StartIssued`) are two steps, so another
worker may hold the packet of that very operation in between; only the critical section keeps it out. Both copies of the
handoff go byte by byte.

`LockedPipe.dfy` is the pipe server as a library: any threads call any of its four methods, disconnects included, on
one instance. It refines `AtomicPipe.dfy`, where a call is one step and an epoch tells connections apart.
`Progress.dfy` adds what safety alone does not say: before the shutdown, from every state of a run, the threads can
bring every message that was written or read to its end. `SequentialLoop.dfy` is what one pipe would see of a single thread running a plain loop for it alone; the server
projected on one pipe is a run of that loop.

## The environment

The kernel, the clients and the scheduler take any step that Windows allows:

- A refused start queues no packet. An accepted one queues at most one; it may also never complete (`Lose`), which
  InPipeServer.cpp:102 and 129 rule out by assumption. The results that need that assumption say so.
- A read carries the size that the code asked for. While it runs the kernel may write anything to that many bytes at
  the front of the buffer; when it succeeds its data is there, and is no longer than that. That the size leaves a byte
  for the terminator is not assumed of the kernel but proved of the code (Task6Server.cpp:74).
- Packets leave the port in any order.
- A wait that succeeds on an auto-reset event or the semaphore consumes it. Mapping the shared memory may fail.
- `strcpy_s` on a string without room for its terminator leaves the empty string and returns. That is so only with an
  invalid-parameter handler that returns; the default one ends the process, and a message that fills the memory then
  ends the server. The full-memory case of `LastMessageArrives` and `DeliveredExactly` depends on this.
- The waits of the shutdown succeed, as the assertions beside them require.

## What turned out not to hold

- A flag does not promise an outstanding operation: a cancelled connect that succeeds all the same always throws
  (InPipeServer.cpp:164-167), and the instance is dead from then on. `FlagWithoutOperation` gives the exact condition,
  and `CancelledConnect` the run.
- A cancelled connect is reported as a READ (InPipeServer.cpp:170). The reported kind is right exactly otherwise
  (`ReportRight`); `CancelledConnect` is again the run.
- The server does not always read what a client sent: clients send no terminator, so a shorter message keeps the tail of
  a longer one (`ShorterMessageIsMixed`), and a message that fills the memory is not delivered at all.
  `LastMessageArrives` gives the exact condition.
- A read that fails with an error code leaves the instance CONNECTED and leads to another read
  (InPipeServer.cpp:157-160); once that start is refused nobody restarts the instance. `EachInstanceOnce` counts it as
  dropped from that step on; `FailedReadDropsInstance` is such a run.
- The server never reconnects a pipe: no worker disconnects an instance, so `service` never reports UNCONNECTED to one,
  and Task6Server.cpp:67-70 does not run. An instance serves one client in its life (`OnlyOneConnection`).
- `getData` with a buffer smaller than the memory scans past what it mapped when no NUL is in there
  (InSharedMemoryServer.cpp:85-90); the server's own buffer is as large as the memory.

## Model

| member | source | states |
|---|---|---|
| PipeState.MasksRefineModes | Task6/Task6Lib/InPipeServer.cpp:81-219 | on the six named patterns the masked tests accept exactly the calls of the six-state machine and land on its next state |
| PipeState.BitsMean | Task6/Task6Lib/PipeState.h:10-38 | each bit of the six patterns by its meaning, and the constants |
| PipeState.EncodeInjective | Task6/Task6Lib/PipeState.h:10-38 | the bit encoding keeps the six states apart |
| AtomicPipe.StepKeepsInv | Task6/Task6Lib/InPipeServer.cpp:81-219 | at most one operation is outstanding, named by the flags, none without a flag, and every verdict of `service` is right |
| AtomicPipe.StartNeedsQuiet | Task6/Task6Lib/InPipeServer.cpp:89-127 | a start is possible only with nothing outstanding |
| AtomicPipe.DisconnectReopens | Task6/Task6Lib/InPipeServer.cpp:183-219 | after a disconnect the instance can be connected again exactly when nothing is outstanding, and not read |
| AtomicPipe.ServiceLeavesStartable | Task6/Task6Lib/InPipeServer.cpp:149-180 | a genuine completion leaves the instance ready to read, a zombie ready to connect, and only a cancelled connect that succeeded throws and leaves it with neither |
| AtomicPipe.BlockedForGood | Task6/Task6Lib/InPipeServer.cpp:161-171 | after a lost completion or a stray connect only disconnects of the flags remain, no start and no service |
| LockedPipe.StepRefines | Task6/Task6Lib/InPipeServer.cpp:81-219 | each step under the critical section is one atomic call or invisible, although kernel call and state write are apart |
| LockedPipe.CallTakesEffect | Task6/Task6Lib/InPipeServer.cpp:81-219 | a call that nobody disturbs is accepted exactly when machine and kernel allow it, has the effect of the one step, and leaves the critical section |
| LockedPipe.ServiceNeverConfusesConnections | Task6/Task6Lib/InPipeServer.cpp:149-180 | in every run every report says zombie exactly when the operation's connection was closed before, with the right kind unless a connect was cancelled, and never from the default branch |
| LockedPipe.NoStartOverOutstanding | Task6/Task6Lib/InPipeServer.cpp:89-127 | in every run an operation is accepted only while none is outstanding, old or new |
| LockedPipe.OutstandingIsNamed | Task6/Task6Lib/InPipeServer.cpp:81-219 | in every run at most one operation is outstanding, of the kind and connection the state names; none without a flag |
| LockedPipe.FlagWithoutOperation | Task6/Task6Lib/InPipeServer.cpp:161-171 | a flag stands without an operation exactly after a lost completion or a stray connect, and then for the rest of the run |
| InPipeServer.PipeInstance.Connect | Task6/Task6Lib/InPipeServer.cpp:86-103 | begins to connect exactly on ERROR_IO_PENDING and ERROR_PIPE_CONNECTED when unconnected; the connecting step of the machine, or an exception and no change |
| InPipeServer.PipeInstance.Read | Task6/Task6Lib/InPipeServer.cpp:111-130 | begins to read exactly on success and ERROR_IO_PENDING when connected; the reading step of the machine, with the read of `size` bytes into `buffer` outstanding, or an exception and no change |
| InPipeServer.PipeInstance.Service | Task6/Task6Lib/InPipeServer.cpp:146-180 | result and next state case by case, which is the machine's step; in the other states an exception and the same state |
| InPipeServer.PipeInstance.Disconnect | Task6/Task6Lib/InPipeServer.cpp:183-219 | a new epoch and the state it leaves case by case, which is the machine's step; or an exception and no change |
| InPipeServer.AcceptsWhatIsQueued | Task6/Task6Lib/InPipeServer.cpp:93-127 | of all that the kernel can do with a start the code accepts exactly what queues a packet: pending, a client that was there, a read that completed at once |
| InPipeServer.InPipeServer.Open | Task6/Task6Lib/InPipeServer.cpp:5-42 | which arguments and answers make the constructor throw what; else every instance unconnected, carrying its own number |
| InPipeServer.InPipeServer.InstancesDistinct | Task6/Task6Lib/InPipeServer.cpp:15-41 | no two instances share an object or an OVERLAPPED |
| InPipeServer.InPipeServer.ConnectInstance | Task6/Task6Lib/InPipeServer.cpp:81-104 | acts on the given instance only; out of range throws |
| InPipeServer.InPipeServer.ReadInstance | Task6/Task6Lib/InPipeServer.cpp:106-131 | a read of the given size into the given buffer, on the given instance only; out of range throws |
| InPipeServer.InPipeServer.Service | Task6/Task6Lib/InPipeServer.cpp:133-180 | dispatch: the OVERLAPPED of instance i is serviced on instance i and no other; null, an index out of range and a foreign pointer throw their exceptions and change nothing |
| InPipeServer.InPipeServer.ServiceAfterWrites | Task6/Task6Lib/InPipeServer.cpp:133-180 | after any kernel writes to the OVERLAPPEDs the server is still valid and a completion of instance i is serviced on instance i only |
| InPipeServer.InPipeServer.DisconnectInstance | Task6/Task6Lib/InPipeServer.cpp:183-219 | acts on the given instance only; out of range throws |
| MethodsRefine.StartIsStep | Task6/Task6Lib/InPipeServer.cpp:81-131 | the class accepts a start exactly when the machine can and the kernel agrees, with the machine's effect |
| MethodsRefine.StartFollowsKernel | Task6/Task6Lib/InPipeServer.cpp:81-131 | on a startable instance a start succeeds exactly when the kernel queues the operation, and throws the kernel's code otherwise |
| MethodsRefine.ServiceIsStep | Task6/Task6Lib/InPipeServer.cpp:133-180 | the class reports what the machine reports, so its zombie verdict is by epoch |
| MethodsRefine.DisconnectIsStep | Task6/Task6Lib/InPipeServer.cpp:182-219 | the class disconnects exactly when the machine can and the kernel agrees, with the machine's effect |
| IndexedOverlapped.BytesRoundTrip | Task6/Task6Lib/RaiiIndexedOverlapped.cpp:35-45 | an index stored in eight bytes is loaded back |
| IndexedOverlapped.RaiiIndexedOverlapped.constructor | Task6/Task6Lib/RaiiIndexedOverlapped.cpp:5-18 | a zeroed OVERLAPPED of 32 bytes with the index readable in the eight behind it |
| IndexedOverlapped.RaiiIndexedOverlapped.KernelWrites | Task6/Task6Lib/RaiiIndexedOverlapped.cpp:35-45 | any writes inside the OVERLAPPED leave the index |
| RaiiHandles.RaiiHandle.Move | Task6/Task6Lib/RaiiHandle.cpp:9-12 | takes the handle over, closes nothing, leaves the source invalid |
| RaiiHandles.RaiiHandle.Invalid | Task6/Task6Lib/RaiiHandle.cpp:5-5 | owns nothing |
| RaiiHandles.RaiiHandle.MoveAssign | Task6/Task6Lib/RaiiHandle.cpp:14-27 | self-assignment changes nothing; else the old handle is closed if it was valid and the other one taken over |
| RaiiHandles.RaiiHandle.Destroy | Task6/Task6Lib/RaiiHandle.cpp:29-35 | closes the handle once if it is valid, else nothing |
| RaiiHandles.StepConserves | Task6/Task6Lib/RaiiHandle.cpp:5-35 | owners plus closings of a handle stay what was wrapped |
| RaiiHandles.OwnedOnceOrClosedOnce | Task6/Task6Lib/RaiiHandle.cpp:5-35 | after any operations on any pool a wrapped handle has one owner or was closed once, never both |
| RaiiHandles.ClosesOnlyValid | Task6/Task6Lib/RaiiHandle.cpp:14-35 | no operations ever close INVALID_HANDLE_VALUE |
| RaiiHandles.ClosedWasWrapped | Task6/Task6Lib/RaiiHandle.cpp:5-35 | whatever is closed is a valid handle that was wrapped |
| RaiiHandles.AllDestroyedAllClosed | Task6/Task6Lib/RaiiHandle.cpp:5-35 | when all objects are gone each handle was closed as often as wrapped |
| RaiiHandles.RunHistory | Task6/Task6Lib/RaiiHandle.cpp:5-35 | real objects put through any operations end as the pool does |
| SharedMemory.ExactContent | Task6/Task6Lib/OutSharedMemoryClient.cpp:42-46 | after any writes the server's string is as long as the longest message, each character from the latest message that long |
| SharedMemory.LastMessageArrives | Task6/Task6Lib/InSharedMemoryServer.cpp:85-94 | the server reads the last message itself exactly when no earlier one was longer and a byte was left (or it is empty in a full memory) |
| SharedMemory.ShorterMessageIsMixed | Task6/Task6Lib/OutSharedMemoryClient.cpp:42-46 | "C" after "AB" is read as "CB" |
| SharedMemory.FirstNul | Task6/Task6Lib/InSharedMemoryServer.cpp:89-94 | the memory has a terminator exactly while no message filled it |
| SharedMemory.SharedObjects.constructor | Task6/Task6Lib/InSharedMemoryServer.cpp:72-75 | zeroed memory, and only the client event set |
| SharedMemory.InSharedMemoryServer.Open | Task6/Task6Lib/InSharedMemoryServer.cpp:31-76 | throws on an invalid port, a name that exists and any refusal; else zeroed memory and only the client event set |
| SharedMemory.OutSharedMemoryClient.WriteData | Task6/Task6Lib/OutSharedMemoryClient.cpp:30-56 | timeout and failure change nothing; else the event is consumed, the message overlaid and the server signalled, unless it does not fit |
| SharedMemory.InSharedMemoryServer.GetData | Task6/Task6Lib/InSharedMemoryServer.cpp:79-107 | the string of the memory in the caller's buffer and the next client admitted; the failure of mapping, the exception of a small buffer and the scan past a view shorter than the memory |
| PipeOwnership.StepKeepsPipeInv | Task6/Task6Lib/Task6Server.cpp:36-77 | an instance stays in one place: kernel, port, one worker, or dropped; its mode is known there, and a running read was asked for all of the buffer but one byte |
| PipeOwnership.DroppedExactlyByFault | Task6/Task6Lib/Task6Server.cpp:36-77 | an instance is dropped exactly by a lost completion, a refused start or the shutdown |
| PipeOwnership.BufferHasOneOwner | Task6/Task6Lib/Task6Server.cpp:57-76 | whoever touches a buffer is its one owner, and nothing else changes it |
| SequentialLoop.StepKeepsInv | Task6/Task6Lib/Task6Server.cpp:57-64 | in the plain loop the logged and handled texts are those of the completed reads, at most one behind |
| PipeRefinement.StepRefines | Task6/Task6Lib/Task6Server.cpp:36-77 | each step of the server is one statement of the plain loop of a pipe or none |
| Handoff.StepKeepsInv | Task6/Task6Lib/InSharedMemoryServer.cpp:79-107 | the token, both locks, the memory, the copy and the delivery stay consistent |
| Handoff.LostExactlyByFault | Task6/Task6Lib/InSharedMemoryServer.cpp:84-87 | the token is lost exactly by a failed mapping, a dying client or the shutdown |
| LogQueue.StepKeepsInv | Task6/Task6Lib/Task6Server.cpp:200-227 | queue length is semaphore plus releases refused at its maximum plus threads between their two updates; popped plus queued is enqueued |
| LogQueue.FrontExists | Task6/Task6Lib/Task6Server.cpp:204-208 | a reader past the semaphore finds a line |
| Shutdown.StepKeepsInv | Task6/Task6Lib/Task6Server.cpp:170-198 | exit packets, posted and to come, suffice for the workers that take another packet |
| Shutdown.NoWorkerWaitsInVain | Task6/Task6Lib/Task6Server.cpp:185-190 | after the posts there is an exit packet for every waiting worker |
| Shutdown.MeasureFalls | Task6/Task6Lib/Task6Server.cpp:13-34 | after the event each worker step lowers the measure and no other step raises it |
| Shutdown.TotalMeasureFalls | Task6/Task6Lib/Task6Server.cpp:170-227 | after the event each step of a worker, a log reader or the stopping thread lowers the total measure and no other step moves it |
| Shutdown.MeasureZero | Task6/Task6Lib/Task6Server.cpp:32-33 | the measure is zero exactly when all workers have exited |
| DeadlockFreedom.NoDeadlock | Task6/Task6Lib/Task6Server.cpp:19-98 | some worker or log reader can go on unless all workers are done or wait on an empty port |
| WaiterEnd.EndComesNearer | Task6/Task6Lib/InSharedMemoryServer.cpp:6-29 | after the stop each waiter step lowers its rank, and nobody raises it or the packets still to come; before it `WaiterStays` and `WaiterServes` hold |
| ServerRuns.EachInstanceOnce | Task6/Task6Lib/Task6Server.cpp:142-144 | in every run an instance is once in kernel, port or a worker's hands exactly until a fault of its own |
| ServerRuns.BufferOwnership | Task6/Task6Lib/Task6Server.cpp:57-76 | in every run a buffer has one owner, every access is the owner's, and the terminator is in bounds by the size that the read asked for |
| ServerRuns.OneNamedOperation | Task6/Task6Lib/InPipeServer.cpp:149-180 | in every run at most one operation per instance, named by the state; `service` never throws its last exception |
| ServerRuns.OnlyOneConnection | Task6/Task6Lib/Task6Server.cpp:66-76 | in every run workers ask for reads only, and an instance is connecting, connected or reading: the reconnect branch never runs |
| ServerRuns.OnlyReadsStart | Task6/Task6Lib/Task6Server.cpp:72-76 | in every run an operation accepted after the start-up is a read of all of the buffer but one byte |
| ServerRuns.ProjectsToLoop | Task6/Task6Lib/Task6Server.cpp:13-77 | in every run the server projected on one pipe follows the plain loop from its start |
| ServerRuns.MessagesInOrder | Task6/Task6Lib/Task6Server.cpp:57-64 | in every run the handled and the logged texts of a pipe are its completed reads up to their first NUL, in order, once, at most one behind |
| ServerRuns.OneToken | Task6/Task6Lib/OutSharedMemoryClient.cpp:33-53 | in every run the token is in exactly one place until a fault loses it |
| ServerRuns.NoOverlap | Task6/Task6Lib/OutSharedMemoryClient.cpp:41-53 | in every run no client write overlaps another or a server read |
| ServerRuns.DeliveredInOrder | Task6/Task6Lib/Task6Server.cpp:78-88 | in every run the handled texts are the contents left by the writes, in order, once, at most two behind |
| ServerRuns.DeliveredExactly | Task6/Task6Lib/Task6Server.cpp:84-87 | in every run of NUL-free messages a handled text is the client's own message exactly under the length condition |
| ServerRuns.LogLinearizable | Task6/Task6Lib/Task6Server.cpp:200-227 | in every run the counting equation, the order of lines and no pop of an empty queue |
| ServerRuns.EveryLineIsCounted | Task6/Task6Lib/Task6Server.cpp:218-227 | in every run with fewer than MAXLONG lines no release is refused and every queued line is counted, or its thread is between the two updates |
| ServerRuns.OnlyReasonsToExit | Task6/Task6Lib/Task6Server.cpp:13-34 | in every run a worker leaves its loop only for the shutdown or after a failure of the port for itself |
| ServerRuns.NeverDeadlocked | Task6/Task6Lib/Task6Server.cpp:19-98 | in every run somebody can go on unless each worker waits on an empty port, or is done for one of those two reasons |
| ServerRuns.TakesAtMostOne | Task6/Task6Lib/Task6Server.cpp:22-34 | in every run after the event each worker takes at most one more packet, whatever is queued or arrives |
| ServerRuns.ShutdownIsBounded | Task6/Task6Lib/Task6Server.cpp:13-34 | in every run after the event the workers together take no more steps than the measure says |
| ServerRuns.ShutdownGoesOn | Task6/Task6Lib/Task6Server.cpp:170-198 | in every run after the posts a worker, or a reader that owns the log's lock, can go on until all workers have exited, and no waiting worker lacks a packet |
| ServerRuns.ShutdownCompletes | Task6/Task6Lib/Task6Server.cpp:170-198 | in every run after the event workers, log readers and the stopping thread take boundedly many steps, and one is possible until the stopping thread is done, which is after all workers have exited |
| ServerRuns.NobodyUsesClearedServer | Task6/Task6Lib/Task6Server.cpp:192-197 | in every run no worker takes a step once the pipe server is cleared |
| ServerRuns.WaiterStays | Task6/Task6Lib/InSharedMemoryServer.cpp:10-28 | in every run the waiter stays until it is told to stop, which is after the server has stopped |
| ServerRuns.WaiterEnds | Task6/Task6Lib/InSharedMemoryServer.cpp:109-120 | in every run after its shutdown event the waiter takes at most three steps, posts at most one packet, and can always take one until it is gone |
| Progress.ComeToRest | Task6/Task6Lib/Task6Server.cpp:13-98 | from every reachable state before the shutdown ordinary steps bring all workers to the port or an exit, without a fault, and lose neither the token nor an instance |
| Progress.HandoffGoesOn | Task6/Task6Lib/InSharedMemoryServer.cpp:10-107 | from every state of a faultless run before the shutdown, with a worker left, ordinary steps lead to where every written message is handled, in order, and the next client is admitted |
| Progress.PipeGoesOn | Task6/Task6Lib/Task6Server.cpp:36-77 | likewise for a pipe without a fault: to where every message it read is handled and the kernel has its next operation |
| Task6Server.PushThenPop | Task6/Task6Lib/Task6Server.cpp:200-227 | fewer than MAXLONG lines pushed come out by as many pops, in order |
| Task6Server.MessageLog.PushMessg | Task6/Task6Lib/Task6Server.cpp:218-227 | the line at the end of the queue, the count up by one unless at its maximum |
| Task6Server.MessageLog.PopMessg | Task6/Task6Lib/Task6Server.cpp:200-216 | the first line when the count is positive, else a timeout; the exceptions of a failed and of an unexpected wait |
| Task6Server.ConnectAll | Task6/Task6Lib/Task6Server.cpp:142-144 | every instance connecting with one operation, or the error of the first refused start, the instances before it connecting and the others untouched |
| Task6Server.Task6Server.Start | Task6/Task6Lib/Task6Server.cpp:104-168 | throws exactly when an instance, a connect or a thread is refused; else every instance connecting, each with a buffer of its own, and all threads counted |
| Task6Server.Task6Server.PipePacket | Task6/Task6Lib/Task6Server.cpp:39-77 | the handler gets exactly the transferred bytes up to their first NUL; only a successful read of the present connection is handled; the lines; a genuine completion leads to a read of 65535 bytes, a zombie to a connect; other instances unchanged |
| Task6Server.Task6Server.LinesOfPacket | Task6/Task6Lib/Task6Server.cpp:44-76 | the lines of one packet in full, for each mode of the instance |
| Task6Server.Task6Server.HandleResult | Task6/Task6Lib/Task6Server.cpp:49-64 | the lines logged and the message handled for a result |
| Task6Server.Task6Server.RestartInstance | Task6/Task6Lib/Task6Server.cpp:66-76 | the start called for by the new state, its outstanding operation and its line |
| Task6Server.Task6Server.StopAndWait | Task6/Task6Lib/Task6Server.cpp:170-198 | the event, one exit packet per worker; the pipe server cleared when there are workers and all have exited, a failed assertion when they have not |
| MethodsAreSteps.PacketIsSteps | Task6/Task6Lib/Task6Server.cpp:36-98 | one worker's uninterrupted steps on a pipe packet give the handled text, the lines, the mode and the operation that `PipePacket` promises |
| MethodsAreSteps.RunPacket | Task6/Task6Lib/Task6Server.cpp:36-98 | an object that runs `PipePacket` and a worker that takes those steps end alike |
| MethodsAreSteps.SharedPacketIsSteps | Task6/Task6Lib/Task6Server.cpp:78-98 | one worker's uninterrupted steps on a shared-memory packet log it, hand over what the memory delivers and admit the next client, or log an exception where it cannot be mapped, and end at the port |
| MethodsAreSteps.ExitIsSteps | Task6/Task6Lib/Task6Server.cpp:22-34 | on an exit packet, or on any once the event is set, a worker logs that it shuts down, and exits |
| MethodsAreSteps.PortFailureIsSteps | Task6/Task6Lib/Task6Server.cpp:23-34 | on a failure of the port a worker logs both lines and exits |
| MethodsAreSteps.WaiterServes | Task6/Task6Lib/InSharedMemoryServer.cpp:10-23 | for a signal the waiter posts one packet and is back in its wait |
| MethodsAreSteps.WaiterLeaves | Task6/Task6Lib/InSharedMemoryServer.cpp:10-28 | told to stop, it serves a signal that it finds first, and then leaves |
| MethodsAreSteps.DestroyIsSteps | Task6/Task6Lib/InSharedMemoryServer.cpp:109-120 | the destructor's event ends a waiting waiter in that way |
| MethodsAreSteps.PushIsSteps | Task6/Task6Lib/Task6Server.cpp:218-227 | four uninterrupted steps of a worker log a line as `PushMessg` does |
| MethodsAreSteps.PopIsSteps | Task6/Task6Lib/Task6Server.cpp:200-216 | four uninterrupted steps of a reader pop a line as `PopMessg` does |
| MethodsAreSteps.WriteIsSteps | Task6/Task6Lib/OutSharedMemoryClient.cpp:30-56 | a client's uninterrupted steps leave what `WriteData` leaves |
| MethodsAreSteps.GetIsSteps | Task6/Task6Lib/InSharedMemoryServer.cpp:79-107 | a worker's uninterrupted steps leave what `GetData` leaves, mapped or not |
| MethodsAreSteps.StopIsSteps | Task6/Task6Lib/Task6Server.cpp:170-198 | the stopping thread's uninterrupted steps leave what `StopAndWait` leaves, whether or not the workers have exited |
| Witnesses.CancelledConnect | Task6/Task6Lib/InPipeServer.cpp:161-171 | a run in which a cancelled connect succeeds and leaves a flag with nothing outstanding, or fails and is reported as a zombie read |
| Witnesses.FailedReadDropsInstance | Task6/Task6Lib/InPipeServer.cpp:157-160 | a run in which a read fails, the next is refused, and the instance is in no place any more |

## Left out

- Consoles, prompts, timers, process start-up, the registry code and its test: user interface and thin wrappers.
- `TcpServer`, `OutPipeClient` and the pipe branch of `Task6Client`: unfinished or a single write.
- `RaiiHKey`, `RaiiLock` moves, `RaiiOverlapped`, the event of `RaiiIndexedOverlapped` (never requested here) and its destructor.
- The text of log lines and exceptions: lines are values that name what they report.
- Packets with a key of no component (Task6Server.cpp:89-94): nobody posts them.
- Scheduling, the concurrency limit of the port, timeouts and names of kernel objects.
- Task6Server.Task6Server.StopAndWait: does not model the wait itself, only its answer; that the workers do exit is in `Shutdown` and `ServerRuns`.
- Task6Server.Task6Server.Start: does not model the port, the shared-memory server, the semaphore and the event, whose refusals throw in the same way.
- InPipeServer.PipeInstance.Service: on an object alone it cannot know which operation a packet belongs to; it drops the oldest outstanding one, and `ServiceIsStep` shows that there is only one.
- Fairness: that a thread which can go on eventually does is left to the scheduler; `ShutdownCompletes` bounds the steps of all threads that the shutdown waits for, and shows that one of them is possible until it is over; `Progress` shows that before it the handling of every message stays possible.
