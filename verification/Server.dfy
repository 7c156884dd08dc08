/**
 * The server as one concurrent step system. Any number of worker threads run the worker procedure statement by
 * statement; beside them move the kernel, shared-memory clients, the waiter thread, log readers and the thread that
 * stops the server. The completion port is the collection of its packets, grouped by completion key.
 */
module Server {
  import opened Outcomes
  import opened Bytes
  import opened PipeState

  // ----- what workers pass around -----

  /** What a start asks the kernel for: a read of at most `size` bytes into the instance's buffer, or a connect. */
  datatype Request = Request(kind: Kind, size: nat)

  /** A completed pipe operation. The packet itself carries no kind: `service` goes by the state of the instance. */
  datatype PipePacket = PipePacket(kind: Kind, errorCode: nat, bytes: nat)

  datatype Packet = FromPipe(i: nat, p: PipePacket) | FromShm | ExitNow

  datatype Result = Result(operation: Kind, errorCode: nat, bytes: nat, newMode: Mode, zombie: bool)

  datatype Line =
    | Started | PortFailed | ShutDown | Caught
    | Completed(i: nat, r: Result)
    | Received(i: nat, text: seq<Byte>)
    | Began(i: nat, kind: Kind)
    | GotShm

  /** A call of the message handler. */
  datatype Message = PipeMessage(i: nat, text: seq<Byte>) | ShmMessage(text: seq<Byte>)

  // ----- program counters -----

  /** The four steps of logging a line: lock, enqueue, unlock, release the semaphore. */
  datatype Stage = Entering | Enqueuing | Leaving | Releasing

  datatype Pc =
    | AtPort
    | Got(packet: Packet)
    | Exited
    | Push(stage: Stage, line: Line, next: Pc)
    // a pipe packet: service, handle, restart
    | SvcEnter(i: nat, p: PipePacket)
    | SvcRun(i: nat, p: PipePacket)
    | SvcLeave(i: nat, r: Result)
    | SvcThrow(i: nat)
    | Served(i: nat, r: Result)
    | Terminated(i: nat, r: Result)
    | HandlePipe(i: nat, r: Result)
    | Restart(i: nat, r: Result)
    | StartEnter(i: nat, kind: Kind)
    | StartRun(i: nat, kind: Kind)
    | StartIssued(i: nat, kind: Kind)
    | StartLeave(i: nat, kind: Kind, ok: bool)
    // a shared-memory packet: two nested locks, copy, admit the next client, handle
    | ShmEnter
    | ShmInner
    | ShmMap
    | ShmCopy(k: nat)
    | ShmSignal
    | ShmLeaveInner(ok: bool)
    | ShmHandle
    | ShmLeave(ok: bool)

  function Say(line: Line, next: Pc): Pc {
    Push(Entering, line, next)
  }

  /** The statement a worker is at, or the one it resumes at after logging. */
  function Core(pc: Pc): Pc {
    if pc.Push? then pc.next else pc
  }

  datatype ClientPc = Away | Writing(data: seq<Byte>, k: nat) | Signalling | Dead
  datatype WaiterPc = Waiting | Posting | Gone
  datatype PopperPc = Idle | Ticket | Popping | Popped
  datatype StopperPc = Running | Stopping(posted: nat) | Stopped

  // ----- shared state -----

  datatype Pipe = Pipe(
    mode: Mode,
    lock: Option<nat>,
    running: seq<Request>,         // operations in the kernel
    queued: seq<PipePacket>,       // this instance's packets in the port
    buf: seq<Byte>,                // its message buffer, which no lock protects
    completed: seq<seq<Byte>>      // the data of its successful reads, in the order they completed
  )

  datatype Shm = Shm(
    svToCl: bool, clToSv: bool, stop: bool,
    waiter: WaiterPc,
    packets: nat,                  // its packets in the port
    outer: Option<nat>,            // shMemBufferCS
    inner: Option<nat>,            // critSection
    mem: seq<Byte>,
    buf: seq<Byte>,
    clients: seq<ClientPc>,
    messages: seq<seq<Byte>>       // what clients finished writing, in order
  )

  datatype LogOwner = Worker(w: nat) | Reader(p: nat)

  datatype Log = Log(
    queue: seq<Line>,
    semaphore: nat,
    lock: Option<LogOwner>,
    poppers: seq<PopperPc>,
    enqueued: seq<Line>,           // every line ever enqueued
    popped: seq<Line>,             // every line ever popped
    refused: nat                   // releases refused at the semaphore's maximum
  )

  datatype Control = Control(
    event: bool,                   // the shutdown event
    exits: nat,                    // exit packets in the port
    stopper: StopperPc,
    pipeServer: bool               // not yet cleared
  )

  datatype State = State(
    pcs: seq<Pc>,
    pipes: seq<Pipe>,
    shm: Shm,
    log: Log,
    ctl: Control,
    handled: seq<Message>          // the calls of the message handler, in order
  )

  /** The maximum of the log semaphore, MAXLONG. */
  const SEMAPHORE_MAX: nat := 0x7FFF_FFFF

  // ----- steps -----

  datatype Source = PipeSource(i: nat) | ShmSource | ExitSource

  /** What the system answers to a worker, where a statement asks it. */
  datatype Choice = Yes | No | Take(source: Source)

  datatype Step =
    | Work(w: nat, c: Choice)
    | Scribble(i: nat, buf: seq<Byte>)
    | Complete(i: nat, errorCode: nat, bytes: nat)
    | Lose(i: nat)
    | Pop(p: nat)
    | ClientBegin(client: nat, data: seq<Byte>)
    | ClientStep(client: nat)
    | ClientCrash(client: nat)
    | Wait
    | Stop
    | DestroyShm

  predicate Available(s: State, source: Source) {
    match source
    case PipeSource(i) => i < |s.pipes| && s.pipes[i].queued != []
    case ShmSource => s.shm.packets > 0
    case ExitSource => s.ctl.exits > 0
  }

  predicate PortEmpty(s: State) {
    s.shm.packets == 0 && s.ctl.exits == 0 && forall i :: 0 <= i < |s.pipes| ==> s.pipes[i].queued == []
  }

  /** The instance that a worker's statement is about. */
  function Instance(pc: Pc): Option<nat> {
    match pc
    case SvcEnter(i, _) => Some(i)
    case SvcRun(i, _) => Some(i)
    case SvcLeave(i, _) => Some(i)
    case SvcThrow(i) => Some(i)
    case Served(i, _) => Some(i)
    case Terminated(i, _) => Some(i)
    case HandlePipe(i, _) => Some(i)
    case Restart(i, _) => Some(i)
    case StartEnter(i, _) => Some(i)
    case StartRun(i, _) => Some(i)
    case StartIssued(i, _) => Some(i)
    case StartLeave(i, _, _) => Some(i)
    case _ => None
  }

  /** A worker's step moves its own program counter only. */
  predicate MovesOnly(s: State, s': State, w: nat) {
    && w < |s.pcs| == |s'.pcs| && s'.pcs == s.pcs[w := s'.pcs[w]]
    && |s'.pipes| == |s.pipes|
  }

  predicate CanWork(s: State, w: nat, c: Choice) {
    && w < |s.pcs|
    && (Instance(s.pcs[w]).Some? ==> Instance(s.pcs[w]).value < |s.pipes|)
    && match s.pcs[w]
       case AtPort => c.No? || (c.Take? && Available(s, c.source))
       case Exited => false
       case Push(stage, _, _) => c.Yes? && (stage.Entering? ==> s.log.lock.None?)
       case SvcEnter(i, _) => c.Yes? && s.pipes[i].lock.None?
       case StartEnter(i, _) => c.Yes? && s.pipes[i].lock.None?
       case StartRun(_, _) => !c.Take?
       case ShmEnter => c.Yes? && s.shm.outer.None?
       case ShmInner => c.Yes? && s.shm.inner.None?
       case ShmMap => !c.Take?
       case ShmCopy(k) => c.Yes? && |s.shm.buf| == |s.shm.mem| > 0
       case _ => c.Yes?
  }

  function To(s: State, w: nat, pc: Pc): State
    requires w < |s.pcs|
  {
    s.(pcs := s.pcs[w := pc])
  }

  function WithPipe(s: State, i: nat, pipe: Pipe): State
    requires i < |s.pipes|
  {
    s.(pipes := s.pipes[i := pipe])
  }

  /** Taking a packet out of the port. */
  function Dequeue(s: State, w: nat, source: Source): (s': State)
    requires w < |s.pcs| && Available(s, source)
    ensures MovesOnly(s, s', w)
  {
    match source
    case PipeSource(i) =>
      var pipe := s.pipes[i];
      WithPipe(To(s, w, Got(FromPipe(i, pipe.queued[0]))), i, pipe.(queued := pipe.queued[1..]))
    case ShmSource => To(s, w, Got(FromShm)).(shm := s.shm.(packets := s.shm.packets - 1))
    case ExitSource => To(s, w, Got(ExitNow)).(ctl := s.ctl.(exits := s.ctl.exits - 1))
  }

  /** The exit test and the choice of a branch by completion key. */
  function Dispatch(s: State, w: nat, packet: Packet): (s': State)
    requires w < |s.pcs|
    ensures MovesOnly(s, s', w)
  {
    if packet.ExitNow? || s.ctl.event then To(s, w, Say(ShutDown, Exited))
    else match packet
      case FromPipe(i, p) => To(s, w, SvcEnter(i, p))
      case FromShm => To(s, w, Say(GotShm, ShmEnter))
  }

  function WorkLog(s: State, w: nat, stage: Stage, line: Line, next: Pc): (s': State)
    requires w < |s.pcs|
    ensures MovesOnly(s, s', w)
  {
    match stage
    case Entering => To(s, w, Push(Enqueuing, line, next)).(log := s.log.(lock := Some(Worker(w))))
    case Enqueuing =>
      To(s, w, Push(Leaving, line, next)).(
        log := s.log.(queue := s.log.queue + [line], enqueued := s.log.enqueued + [line]))
    case Leaving => To(s, w, Push(Releasing, line, next)).(log := s.log.(lock := None))
    case Releasing =>
      To(s, w, next).(log :=
        if s.log.semaphore < SEMAPHORE_MAX then s.log.(semaphore := s.log.semaphore + 1)
        else s.log.(refused := s.log.refused + 1))
  }

  /** `buff.size() - 1`: a read leaves a byte for the terminator. */
  function ReadSize(buf: seq<Byte>): nat {
    if buf == [] then 0 else |buf| - 1
  }

  function RequestFor(kind: Kind, buf: seq<Byte>): Request {
    Request(kind, if kind.Read? then ReadSize(buf) else 0)
  }

  function WorkPipe(s: State, w: nat, c: Choice, i: nat): (s': State)
    requires CanWork(s, w, c) && Instance(s.pcs[w]) == Some(i)
    ensures MovesOnly(s, s', w)
  {
    var pipe := s.pipes[i];
    match s.pcs[w]
    case SvcEnter(_, p) => WithPipe(To(s, w, SvcRun(i, p)), i, pipe.(lock := Some(w)))
    case SvcRun(_, p) =>
      var outcome := Serve(pipe.mode, p.errorCode);
      if outcome.Returns? then
        var r := Result(outcome.operation, p.errorCode, if pipe.mode.FlagKind().Read? then p.bytes else 0,
                        outcome.mode, outcome.zombie);
        WithPipe(To(s, w, SvcLeave(i, r)), i, pipe.(mode := outcome.mode))
      else
        To(s, w, SvcThrow(i))
    case SvcLeave(_, r) => WithPipe(To(s, w, Say(Completed(i, r), Served(i, r))), i, pipe.(lock := None))
    case SvcThrow(_) => WithPipe(To(s, w, Say(Caught, AtPort)), i, pipe.(lock := None))
    case Served(_, r) =>
      if !(r.operation.Read? && r.errorCode == ERROR_SUCCESS && !r.zombie) then To(s, w, Restart(i, r))
      else if r.bytes >= |pipe.buf| then To(s, w, Say(Caught, AtPort))
      else WithPipe(To(s, w, Terminated(i, r)), i, pipe.(buf := pipe.buf[r.bytes := 0]))
    case Terminated(_, r) => To(s, w, Say(Received(i, UpToNul(pipe.buf)), HandlePipe(i, r)))
    case HandlePipe(_, r) => To(s, w, Restart(i, r)).(handled := s.handled + [PipeMessage(i, UpToNul(pipe.buf))])
    case Restart(_, r) =>
      if r.newMode.Unconnected? then To(s, w, StartEnter(i, Connect))
      else if r.newMode.Connected? then To(s, w, StartEnter(i, Read))
      else To(s, w, AtPort)
    case StartEnter(_, kind) => WithPipe(To(s, w, StartRun(i, kind)), i, pipe.(lock := Some(w)))
    case StartRun(_, kind) =>
      if AfterStart(pipe.mode, kind).None? || c.No? then To(s, w, StartLeave(i, kind, false))
      else WithPipe(To(s, w, StartIssued(i, kind)), i, pipe.(running := pipe.running + [RequestFor(kind, pipe.buf)]))
    case StartIssued(_, kind) =>
      WithPipe(To(s, w, StartLeave(i, kind, true)), i, pipe.(mode := if kind.Connect? then Connecting else Reading))
    case StartLeave(_, kind, ok) =>
      WithPipe(To(s, w, Say(if ok then Began(i, kind) else Caught, AtPort)), i, pipe.(lock := None))
  }

  function WorkShm(s: State, w: nat, c: Choice): (s': State)
    requires CanWork(s, w, c)
    ensures MovesOnly(s, s', w)
  {
    var shm := s.shm;
    match s.pcs[w]
    case ShmEnter => To(s, w, ShmInner).(shm := shm.(outer := Some(w)))
    case ShmInner => To(s, w, ShmMap).(shm := shm.(inner := Some(w)))
    case ShmMap => To(s, w, if c.Yes? then ShmCopy(0) else ShmLeaveInner(false))
    case ShmCopy(k) =>
      if k >= |shm.mem| then To(s, w, ShmSignal).(shm := shm.(buf := shm.buf[0 := 0]))
      else To(s, w, if shm.mem[k] == 0 then ShmSignal else ShmCopy(k + 1)).(
             shm := shm.(buf := shm.buf[k := shm.mem[k]]))
    case ShmSignal => To(s, w, ShmLeaveInner(true)).(shm := shm.(svToCl := true))
    case ShmLeaveInner(ok) => To(s, w, if ok then ShmHandle else ShmLeave(false)).(shm := shm.(inner := None))
    case ShmHandle => To(s, w, ShmLeave(true)).(handled := s.handled + [ShmMessage(UpToNul(shm.buf))])
    case ShmLeave(ok) => To(s, w, if ok then AtPort else Say(Caught, AtPort)).(shm := shm.(outer := None))
    case _ => s
  }

  /** One statement of the worker procedure. */
  function WorkStep(s: State, w: nat, c: Choice): (s': State)
    requires CanWork(s, w, c)
    ensures MovesOnly(s, s', w)
  {
    var pc := s.pcs[w];
    if pc.AtPort? then
      if c.Take? then Dequeue(s, w, c.source) else To(s, w, Say(PortFailed, Say(ShutDown, Exited)))
    else if pc.Got? then Dispatch(s, w, pc.packet)
    else if pc.Push? then WorkLog(s, w, pc.stage, pc.line, pc.next)
    else if Instance(pc).Some? then WorkPipe(s, w, c, Instance(pc).value)
    else WorkShm(s, w, c)
  }

  /** `popMessg`: wait on the semaphore, lock, pop, unlock. */
  function PopStep(s: State, p: nat): State
    requires Enabled(s, Pop(p))
  {
    var log := s.log;
    match log.poppers[p]
    case Idle => s.(log := log.(semaphore := log.semaphore - 1, poppers := log.poppers[p := Ticket]))
    case Ticket => s.(log := log.(lock := Some(Reader(p)), poppers := log.poppers[p := Popping]))
    case Popping =>
      s.(log := log.(queue := log.queue[1..], popped := log.popped + [log.queue[0]],
                     poppers := log.poppers[p := Popped]))
    case Popped => s.(log := log.(lock := None, poppers := log.poppers[p := Idle]))
  }

  /** `writeData`: copy byte by byte, then signal the server. */
  function ClientNext(shm: Shm, client: nat): Shm
    requires client < |shm.clients|
    requires match shm.clients[client]
      case Writing(data, k) => k < |data| ==> k < |shm.mem|
      case Signalling => true
      case _ => false
  {
    match shm.clients[client]
    case Writing(data, k) =>
      if k < |data| then shm.(mem := shm.mem[k := data[k]], clients := shm.clients[client := Writing(data, k + 1)])
      else shm.(messages := shm.messages + [data], clients := shm.clients[client := Signalling])
    case Signalling => shm.(clToSv := true, clients := shm.clients[client := Away])
  }

  /** `WaiterThreadProc`: the client's event has priority over the shutdown event. */
  function WaitStep(shm: Shm): Shm
    requires shm.waiter.Posting? || (shm.waiter.Waiting? && (shm.clToSv || shm.stop))
  {
    if shm.waiter.Posting? then shm.(packets := shm.packets + 1, waiter := Waiting)
    else if shm.clToSv then shm.(clToSv := false, waiter := Posting)
    else shm.(waiter := Gone)
  }

  predicate AllExited(s: State) {
    forall w :: 0 <= w < |s.pcs| ==> s.pcs[w].Exited?
  }

  /** `stopAndWait`: set the event, post one packet per worker, wait for all of them, clear the pipe server. */
  function StopStep(s: State): State
    requires Enabled(s, Stop)
  {
    match s.ctl.stopper
    case Running => s.(ctl := s.ctl.(event := true, stopper := if |s.pcs| == 0 then Stopped else Stopping(0)))
    case Stopping(posted) =>
      if posted < |s.pcs| then s.(ctl := s.ctl.(exits := s.ctl.exits + 1, stopper := Stopping(posted + 1)))
      else s.(ctl := s.ctl.(stopper := Stopped, pipeServer := false))
  }

  predicate Enabled(s: State, e: Step) {
    match e
    case Work(w, c) => CanWork(s, w, c)
    case Scribble(i, buf) =>
      && i < |s.pipes| && s.pipes[i].running != [] && s.pipes[i].running[0].kind.Read?
      && |buf| == |s.pipes[i].buf|
      && forall k :: s.pipes[i].running[0].size <= k < |buf| ==> buf[k] == s.pipes[i].buf[k]
    case Complete(i, errorCode, bytes) =>
      && i < |s.pipes| && s.pipes[i].running != []
      && (s.pipes[i].running[0].kind.Read? && errorCode == ERROR_SUCCESS ==> bytes <= s.pipes[i].running[0].size)
    case Lose(i) => i < |s.pipes| && s.pipes[i].running != []
    case Pop(p) => (
      && p < |s.log.poppers|
      && match s.log.poppers[p]
         case Idle => s.log.semaphore > 0
         case Ticket => s.log.lock.None?
         case Popping => s.log.queue != []
         case Popped => true)
    case ClientBegin(client, data) => client < |s.shm.clients| && s.shm.clients[client].Away? && s.shm.svToCl
    case ClientStep(client) => (
      && client < |s.shm.clients|
      && match s.shm.clients[client]
         case Writing(data, k) => k < |data| ==> k < |s.shm.mem|
         case Signalling => true
         case _ => false)
    case ClientCrash(client) =>
      client < |s.shm.clients| && (s.shm.clients[client].Writing? || s.shm.clients[client].Signalling?)
    case Wait => s.shm.waiter.Posting? || (s.shm.waiter.Waiting? && (s.shm.clToSv || s.shm.stop))
    case Stop => (
      match s.ctl.stopper
      case Running => true
      case Stopping(posted) => posted < |s.pcs| || AllExited(s)
      case Stopped => false)
    case DestroyShm => s.ctl.stopper.Stopped?
  }

  function Apply(s: State, e: Step): (s': State)
    requires Enabled(s, e)
    ensures |s'.pcs| == |s.pcs| && |s'.pipes| == |s.pipes|
  {
    match e
    case Work(w, c) => WorkStep(s, w, c)
    case Scribble(i, buf) => WithPipe(s, i, s.pipes[i].(buf := buf))
    case Complete(i, errorCode, bytes) =>
      var pipe := s.pipes[i];
      var kind := pipe.running[0].kind;
      WithPipe(s, i, pipe.(
        running := pipe.running[1..],
        queued := pipe.queued + [PipePacket(kind, errorCode, bytes)],
        completed := if kind.Read? && errorCode == ERROR_SUCCESS then pipe.completed + [Front(pipe.buf, bytes)]
                     else pipe.completed))
    case Lose(i) => WithPipe(s, i, s.pipes[i].(running := s.pipes[i].running[1..]))
    case Pop(p) => PopStep(s, p)
    case ClientBegin(client, data) =>
      s.(shm := s.shm.(svToCl := false,
                       clients := s.shm.clients[client := if |data| <= |s.shm.mem| then Writing(data, 0) else Dead]))
    case ClientStep(client) => s.(shm := ClientNext(s.shm, client))
    case ClientCrash(client) => s.(shm := s.shm.(clients := s.shm.clients[client := Dead]))
    case Wait => s.(shm := WaitStep(s.shm))
    case Stop => StopStep(s)
    case DestroyShm => s.(shm := s.shm.(stop := true))
  }

  // ----- where logging resumes -----

  /** Lines are logged outside every lock but the log's own, and the thread resumes at one of these statements. */
  predicate Resumes(pc: Pc) {
    pc.Push? ==>
      match pc.next
      case AtPort => pc.line.Started? || pc.line.Caught? || pc.line.Began?
      case Exited => pc.line.ShutDown?
      case Push(stage, _, _) => pc.line.PortFailed? && pc.next == Say(ShutDown, Exited)
      case Served(i, r) => pc.line == Completed(i, r)
      case HandlePipe(i, _) => pc.line.Received? && pc.line.i == i
      case ShmEnter => pc.line.GotShm?
      case _ => false
  }

  ghost predicate AllResume(s: State) {
    forall w :: 0 <= w < |s.pcs| ==> Resumes(s.pcs[w])
  }

  /** What a worker's step adds to the log's history and to the handled messages. */
  lemma WorkHistories(s: State, w: nat, c: Choice)
    requires CanWork(s, w, c)
    ensures var s', pc := WorkStep(s, w, c), s.pcs[w];
            && s'.log.enqueued == s.log.enqueued + (if pc.Push? && pc.stage.Enqueuing? then [pc.line] else [])
            && s'.handled == s.handled +
                 (if pc.HandlePipe? then [PipeMessage(pc.i, UpToNul(s.pipes[pc.i].buf))]
                  else if pc.ShmHandle? then [ShmMessage(UpToNul(s.shm.buf))]
                  else [])
  {}

  lemma WorkResumes(s: State, w: nat, c: Choice)
    requires CanWork(s, w, c) && Resumes(s.pcs[w])
    ensures Resumes(WorkStep(s, w, c).pcs[w])
  {}

  lemma StepKeepsResumes(s: State, e: Step)
    requires AllResume(s) && Enabled(s, e)
    ensures AllResume(Apply(s, e))
  {
    if e.Work? {
      WorkResumes(s, e.w, e.c);
    }
  }

  /** Program counters name instances that exist. */
  predicate InRange(pc: Pc, n: nat) {
    match Core(pc)
    case Got(FromPipe(i, _)) => i < n
    case core => Instance(core).Some? ==> Instance(core).value < n
  }

  ghost predicate AllInRange(s: State) {
    forall w :: 0 <= w < |s.pcs| ==> InRange(s.pcs[w], |s.pipes|)
  }

  lemma WorkInRange(s: State, w: nat, c: Choice)
    requires CanWork(s, w, c) && InRange(s.pcs[w], |s.pipes|) && Resumes(s.pcs[w])
    ensures InRange(WorkStep(s, w, c).pcs[w], |s.pipes|)
  {
    if Instance(s.pcs[w]).Some? {
      assert WorkStep(s, w, c) == WorkPipe(s, w, c, Instance(s.pcs[w]).value);
    }
  }

  lemma StepKeepsInRange(s: State, e: Step)
    requires AllInRange(s) && AllResume(s) && Enabled(s, e)
    ensures AllInRange(Apply(s, e))
  {
    if e.Work? {
      WorkInRange(s, e.w, e.c);
    }
  }

  // ----- the end of a worker -----

  /** The worker has met neither an order to exit nor a failure of the port. */
  predicate Serves(pc: Pc) {
    !pc.Exited? && !(pc.Push? && (pc.line.ShutDown? || pc.line.PortFailed?))
  }

  /** `GetQueuedCompletionStatus` fails for worker `w`. */
  predicate PortFailure(s: State, e: Step, w: nat) {
    w < |s.pcs| && s.pcs[w].AtPort? && e == Work(w, No)
  }

  /** A worker leaves its loop for these reasons only. */
  lemma StepKeepsServing(s: State, e: Step, w: nat)
    requires Enabled(s, e) && w < |s.pcs| && Resumes(s.pcs[w]) && Serves(s.pcs[w])
    requires !s.ctl.event && s.pcs[w] != Got(ExitNow) && !PortFailure(s, e, w)
    ensures Serves(Apply(s, e).pcs[w])
  {
    if e.Work? && e.w == w {
      WorkKeepsServing(s, w, e.c);
    }
  }

  lemma WorkKeepsServing(s: State, w: nat, c: Choice)
    requires CanWork(s, w, c) && Resumes(s.pcs[w]) && Serves(s.pcs[w])
    requires !s.ctl.event && s.pcs[w] != Got(ExitNow) && !(s.pcs[w].AtPort? && c.No?)
    ensures Serves(WorkStep(s, w, c).pcs[w])
  {
    if Instance(s.pcs[w]).Some? {
      assert WorkStep(s, w, c) == WorkPipe(s, w, c, Instance(s.pcs[w]).value);
    } else if !s.pcs[w].AtPort? && !s.pcs[w].Got? && !s.pcs[w].Push? {
      assert WorkStep(s, w, c) == WorkShm(s, w, c);
    }
  }

  // ----- runs -----

  /** After the constructor: every instance is connecting, the first client is admitted, no worker has run. */
  predicate Init(s: State) {
    && (forall w :: 0 <= w < |s.pcs| ==> s.pcs[w] == Say(Started, AtPort))
    && (forall i :: 0 <= i < |s.pipes| ==> InitPipe(s.pipes[i]))
    && s.shm == Shm(true, false, false, Waiting, 0, None, None, seq(DATA_BUFFER_SIZE, _ => 0), s.shm.buf,
                    s.shm.clients, [])
    && |s.shm.buf| == DATA_BUFFER_SIZE
    && (forall c :: 0 <= c < |s.shm.clients| ==> s.shm.clients[c].Away?)
    && s.log == Log([], 0, None, s.log.poppers, [], [], 0)
    && (forall p :: 0 <= p < |s.log.poppers| ==> s.log.poppers[p].Idle?)
    && s.ctl == Control(false, 0, Running, true)
    && s.handled == []
  }

  predicate InitPipe(pipe: Pipe) {
    pipe == Pipe(Connecting, None, [Request(Connect, 0)], [], pipe.buf, []) && |pipe.buf| == DATA_BUFFER_SIZE
  }

  /** A run: the states it goes through and the steps between them. */
  datatype Run = Run(states: seq<State>, steps: seq<Step>) {
    ghost predicate Valid() {
      && |states| == |steps| + 1
      && Init(states[0])
      && forall k :: 0 <= k < |steps| ==> Enabled(states[k], steps[k]) && states[k + 1] == Apply(states[k], steps[k])
    }
  }

  /** These steps, one after another, lead from `s` to `s'`. */
  ghost predicate Leads(s: State, es: seq<Step>, s': State)
    decreases |es|
  {
    if es == [] then s' == s else Enabled(s, es[0]) && Leads(Apply(s, es[0]), es[1..], s')
  }

  lemma LeadsFirst(s: State, e: Step, es: seq<Step>, s': State)
    requires Enabled(s, e) && Leads(Apply(s, e), es, s')
    ensures Leads(s, [e] + es, s')
  {
    assert ([e] + es)[1..] == es;
  }

  lemma {:induction false} LeadsFurther(s: State, es: seq<Step>, t: State, e: Step)
    requires Leads(s, es, t) && Enabled(t, e)
    ensures Leads(s, es + [e], Apply(t, e))
    decreases |es|
  {
    if es == [] {
      assert [e][1..] == [];
    } else {
      LeadsFurther(Apply(s, es[0]), es[1..], t, e);
      assert (es + [e])[1..] == es[1..] + [e];
    }
  }

  lemma {:induction false} LeadsOn(s: State, es: seq<Step>, t: State, fs: seq<Step>, u: State)
    requires Leads(s, es, t) && Leads(t, fs, u)
    ensures Leads(s, es + fs, u)
    decreases |es|
  {
    if es == [] {
      assert es + fs == fs;
    } else {
      LeadsOn(Apply(s, es[0]), es[1..], t, fs, u);
      assert (es + fs)[1..] == es[1..] + fs;
    }
  }
}
