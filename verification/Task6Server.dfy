/** The server object and the parts of it that one thread runs alone: start-up, the log, a pipe packet, the stop. */
module Task6Server {
  import opened Outcomes
  import opened Bytes
  import opened PipeState
  import opened IndexedOverlapped
  import opened InPipeServer
  import A = AtomicPipe
  import S = Server

  /** The log: `queue` under its lock, and the semaphore that counts it. */
  class MessageLog {
    var queue: seq<S.Line>
    var semaphore: nat

    ghost predicate Valid()
      reads this
    {
      semaphore <= |queue| && semaphore <= S.SEMAPHORE_MAX
    }

    constructor ()
      ensures Valid() && queue == [] && semaphore == 0
    {
      queue, semaphore := [], 0;
    }

    method PushMessg(line: S.Line)
      requires Valid()
      modifies this
      ensures Valid() && queue == old(queue) + [line]
      ensures semaphore == if old(semaphore) < 2147483647 then old(semaphore) + 1 else old(semaphore)
    {
      queue := queue + [line];
      if semaphore < S.SEMAPHORE_MAX {
        semaphore := semaphore + 1;
      }
    }

    /** The wait succeeds on a positive count and times out on zero, unless it fails. */
    method PopMessg(wait: Wait) returns (r: Outcome<Option<S.Line>>)
      requires Valid()
      requires wait.Signalled? ==> semaphore > 0
      requires wait.TimedOut? ==> semaphore == 0
      modifies this
      ensures Valid()
      ensures wait.Signalled? ==>
                && r.Ok? && r.value.Some?
                && old(queue) == [r.value.value] + queue && semaphore == old(semaphore) - 1
      ensures !wait.Signalled? ==>
                && queue == old(queue) && semaphore == old(semaphore)
                && r == match wait
                        case TimedOut => Ok(None)
                        case Failed(code) => Throws(SystemError(code))
                        case _ => Throws(RuntimeError)
    {
      if wait.Signalled? {
        semaphore := semaphore - 1;
        r := Ok(Some(queue[0]));
        queue := queue[1..];
      } else if wait.TimedOut? {
        r := Ok(None);
      } else if wait.Failed? {
        r := Throws(SystemError(wait.code));
      } else {
        r := Throws(RuntimeError);
      }
    }
  }

  /** Lines pushed onto a new log, fewer than its semaphore can count, come out by as many pops, in order. */
  method PushThenPop(lines: seq<S.Line>) returns (popped: seq<S.Line>, log: MessageLog)
    requires |lines| < 2147483647
    ensures popped == lines && fresh(log) && log.queue == []
  {
    log := new MessageLog();
    for k := 0 to |lines|
      invariant fresh(log) && log.Valid() && log.queue == lines[..k] && log.semaphore == k
    {
      log.PushMessg(lines[k]);
    }
    popped := [];
    assert lines[..|lines|] == lines;
    for k := 0 to |lines|
      invariant fresh(log) && log.Valid() && popped + log.queue == lines && |popped| == k
      invariant log.semaphore == |lines| - k
    {
      var r := log.PopMessg(Signalled);
      popped := popped + [r.value.value];
    }
  }

  /** An instance whose connect the kernel has accepted. */
  const BeginsToConnect: View := View(Connecting, 0, [Pending(A.Op(Connect, 0), Nowhere)])

  /** The start-up loop: every instance begins to connect, or the constructor throws at the first refusal. */
  method ConnectAll(server: InPipeServer, replies: seq<Reply>) returns (r: Outcome<()>)
    requires server.Valid() && |replies| == |server.pipes|
    requires forall i :: 0 <= i < |server.pipes| ==> server.pipes[i].view == View(Unconnected, 0, [])
    modifies server.pipes
    ensures server.Valid()
    ensures r.Ok? <==> forall i :: 0 <= i < |replies| ==> Accepts(Connect, replies[i])
    ensures r.Ok? ==> forall i :: 0 <= i < |server.pipes| ==> server.pipes[i].view == BeginsToConnect
    ensures r.Throws? ==> exists n :: 0 <= n < |replies| && RefusedAt(replies, n)
    ensures forall n :: 0 <= n < |replies| && RefusedAt(replies, n) ==>
              && r == Throws(SystemError(replies[n].lastError))
              && (forall i :: 0 <= i < n ==> server.pipes[i].view == BeginsToConnect)
              && (forall i :: n <= i < |server.pipes| ==> server.pipes[i].view == View(Unconnected, 0, []))
  {
    for i := 0 to |server.pipes|
      invariant server.Valid()
      invariant forall j :: 0 <= j < i ==> Accepts(Connect, replies[j])
      invariant forall j :: 0 <= j < i ==> server.pipes[j].view == BeginsToConnect
      invariant forall j :: i <= j < |server.pipes| ==> server.pipes[j].view == View(Unconnected, 0, [])
    {
      server.InstancesDistinct(i);
      r := server.ConnectInstance(i, replies[i]);
      if r.Throws? {
        assert RefusedAt(replies, i);
        return;
      }
    }
    r := Ok(());
  }

  /** The kernel refuses this connect, and none before it. */
  predicate RefusedAt(replies: seq<Reply>, n: nat)
    requires n < |replies|
  {
    !Accepts(Connect, replies[n]) && forall i :: 0 <= i < n ==> Accepts(Connect, replies[i])
  }

  class Task6Server {
    var pipeServer: InPipeServer?
    const pipeSvBuffers: seq<array<Byte>>
    const messages: MessageLog
    var handled: seq<S.Message>
    var shutdownEvent: bool
    var exitPackets: nat
    var workerThreads: nat

    ghost predicate Valid()
      reads this, messages, pipeServer
      reads if pipeServer != null then set p | p in pipeServer.pipes else {}
      reads if pipeServer != null then set p | p in pipeServer.pipes :: p.connReadOverlapped else {}
      reads if pipeServer != null then set p | p in pipeServer.pipes :: p.connReadOverlapped.ptrOverlapped else {}
    {
      messages.Valid() && OwnBuffers(pipeSvBuffers) && PipesValid()
    }

    /** Each instance reads into its own buffer, all of it but one byte. */
    ghost predicate PipesValid()
      reads this`pipeServer, pipeServer
      reads if pipeServer != null then set p | p in pipeServer.pipes else {}
      reads if pipeServer != null then set p | p in pipeServer.pipes :: p.connReadOverlapped else {}
      reads if pipeServer != null then set p | p in pipeServer.pipes :: p.connReadOverlapped.ptrOverlapped else {}
    {
      pipeServer != null ==>
        && pipeServer.Valid() && |pipeServer.pipes| == |pipeSvBuffers|
        && Apart(pipeSvBuffers, pipeServer.pipes)
        && (forall i :: 0 <= i < |pipeSvBuffers| ==> ReadsInto(pipeServer.pipes[i].view, pipeSvBuffers[i]))
    }

    /** Each instance has a buffer of its own, apart from what the kernel is handed as OVERLAPPED. */
    static predicate OwnBuffers(buffers: seq<array<Byte>>) {
      && (forall i :: 0 <= i < |buffers| ==> buffers[i].Length == DATA_BUFFER_SIZE)
      && (forall i, j :: 0 <= i < j < |buffers| ==> buffers[i] != buffers[j])
    }

    static predicate Apart(buffers: seq<array<Byte>>, pipes: seq<PipeInstance>) {
      forall i, j :: 0 <= i < |buffers| && 0 <= j < |pipes| ==> buffers[i] != pipes[j].connReadOverlapped.ptrOverlapped
    }

    /** The target of every read of an instance. */
    static predicate ReadsInto(v: View, buffer: array<Byte>) {
      forall p :: p in v.outstanding && p.op.kind.Read? ==> p.target == Into(buffer, DATA_BUFFER_SIZE - 1)
    }

    constructor (server: InPipeServer, buffers: seq<array<Byte>>)
      requires server.Valid() && |server.pipes| == |buffers| && OwnBuffers(buffers)
      requires forall i :: 0 <= i < |server.pipes| ==> server.pipes[i].view == BeginsToConnect
      requires Apart(buffers, server.pipes)
      ensures Valid() && pipeServer == server && pipeSvBuffers == buffers && workerThreads == 0
      ensures handled == [] && messages.queue == [] && !shutdownEvent && exitPackets == 0
    {
      pipeServer := server;
      pipeSvBuffers := buffers;
      messages := new MessageLog();
      handled := [];
      shutdownEvent, exitPackets := false, 0;
      workerThreads := 0;
    }

    /**
     * The constructor of the source, as far as it concerns these fields: the pipe server, the buffers, the connects
     * and the threads; `threads` tells which of them the system creates. At the first refusal it throws, after it
     * has stopped the workers that run already; `allExit` tells whether their end comes in time.
     */
    static method Start(creations: seq<Creation>, replies: seq<Reply>, threads: seq<Option<nat>>, allExit: bool)
      returns (r: Outcome<Task6Server>)
      requires |creations| == |replies| < Radix(INDEX_SIZE)
      ensures r.Ok? <==>
                && |creations| > 0
                && (forall i :: 0 <= i < |creations| ==> creations[i].Created? && Accepts(Connect, replies[i]))
                && (forall k :: 0 <= k < |threads| ==> threads[k].None?)
      ensures r.Ok? ==>
                && fresh(r.value) && r.value.Valid()
                && r.value.pipeServer != null && |r.value.pipeServer.pipes| == |creations|
                && (forall i :: 0 <= i < |creations| ==> r.value.pipeServer.pipes[i].view == BeginsToConnect)
                && r.value.workerThreads == |threads|
                && !r.value.shutdownEvent && r.value.exitPackets == 0
                && r.value.handled == [] && r.value.messages.queue == []
    {
      var pipes := OpenPipes(creations, replies);
      if pipes.Throws? {
        return Throws(pipes.error);
      }
      var buffers := NewBuffers(|creations|);
      var server := new Task6Server(pipes.value, buffers);
      var started := server.StartThreads(threads, allExit);
      if started.Throws? {
        return Throws(started.error);
      }
      r := Ok(server);
    }

    static method OpenPipes(creations: seq<Creation>, replies: seq<Reply>) returns (r: Outcome<InPipeServer>)
      requires |creations| == |replies| < Radix(INDEX_SIZE)
      ensures r.Ok? <==>
                && |creations| > 0
                && forall i :: 0 <= i < |creations| ==> creations[i].Created? && Accepts(Connect, replies[i])
      ensures r.Ok? ==>
                && fresh(r.value) && r.value.Valid() && |r.value.pipes| == |creations|
                && forall i :: 0 <= i < |creations| ==>
                     fresh(r.value.pipes[i]) && r.value.pipes[i].view == BeginsToConnect
    {
      r := InPipeServer.Open(|creations|, true, creations);
      if r.Ok? {
        var connected := ConnectAll(r.value, replies);
        if connected.Throws? {
          return Throws(connected.error);
        }
      }
    }

    /** The worker threads; at the first that the system refuses, those that run are stopped again. */
    method StartThreads(threads: seq<Option<nat>>, allExit: bool) returns (r: Outcome<()>)
      requires Valid() && workerThreads == 0 && !shutdownEvent
      modifies this`workerThreads, this`shutdownEvent, this`exitPackets, this`pipeServer
      ensures Valid()
      ensures r.Ok? <==> forall k :: 0 <= k < |threads| ==> threads[k].None?
      ensures r.Ok? ==>
                && workerThreads == |threads| && pipeServer == old(pipeServer)
                && !shutdownEvent && exitPackets == old(exitPackets)
      ensures forall n :: 0 <= n < |threads| && threads[n].Some? && (forall k :: 0 <= k < n ==> threads[k].None?) ==>
                && workerThreads == n && shutdownEvent && exitPackets == old(exitPackets) + n
                && r == Throws(if n == 0 || allExit then SystemError(threads[n].value) else AssertionFailed)
                && pipeServer == (if n > 0 && allExit then null else old(pipeServer))
    {
      for k := 0 to |threads|
        invariant Valid() && pipeServer == old(pipeServer) && !shutdownEvent && exitPackets == old(exitPackets)
        invariant workerThreads == k && forall j :: 0 <= j < k ==> threads[j].None?
      {
        if threads[k].Some? {
          var stopped := StopAndWait(allExit);
          return Throws(if stopped.Throws? then stopped.error else SystemError(threads[k].value));
        }
        workerThreads := workerThreads + 1;
      }
      r := Ok(());
    }

    static method NewBuffers(n: nat) returns (buffers: seq<array<Byte>>)
      ensures |buffers| == n && OwnBuffers(buffers)
      ensures forall i :: 0 <= i < n ==> fresh(buffers[i]) && buffers[i].Length == 65536
    {
      buffers := [];
      for i := 0 to n
        invariant |buffers| == i && OwnBuffers(buffers)
        invariant forall j :: 0 <= j < i ==> fresh(buffers[j]) && buffers[j].Length == 65536
      {
        var buffer := new Byte[DATA_BUFFER_SIZE](_ => 0);
        buffers := buffers + [buffer];
      }
    }

    /**
     * One exit packet for each running worker, all of them after the event; without workers nothing is cleared. The
     * pipe server is cleared only when the wait says that every worker has exited.
     */
    method StopAndWait(allExited: bool) returns (r: Outcome<()>)
      requires Valid()
      modifies this`shutdownEvent, this`exitPackets, this`pipeServer
      ensures Valid() && shutdownEvent
      ensures exitPackets == old(exitPackets) + workerThreads
      ensures r == if workerThreads == 0 || allExited then Ok(()) else Throws(AssertionFailed)
      ensures pipeServer == if workerThreads > 0 && allExited then null else old(pipeServer)
    {
      shutdownEvent := true;
      if workerThreads == 0 {
        return Ok(());
      }
      for i := 0 to workerThreads
        invariant exitPackets == old(exitPackets) + i
        invariant pipeServer == old(pipeServer) && shutdownEvent && Valid()
      {
        exitPackets := exitPackets + 1;
      }
      if !allExited {
        return Throws(AssertionFailed);
      }
      pipeServer := null;
      r := Ok(());
    }

    /** What one packet of instance `i` makes a worker hand to the message handler. */
    static function Handed(i: nat, outcome: PipeState.Service, errorCode: nat, data: seq<Byte>): seq<S.Message> {
      if outcome.Returns? && outcome.operation.Read? && errorCode == ERROR_SUCCESS && !outcome.zombie
      then [S.PipeMessage(i, UpToNul(data))]
      else []
    }

    /** The next start, unless the kernel refuses it: a connect, or a read of all of the buffer but one byte. */
    static function RestartedView(v: View, reply: Reply, buffer: array<Byte>): View {
      match v.mode
      case Unconnected =>
        if Accepts(Connect, reply) then View(Connecting, v.epoch, [Pending(A.Op(Connect, v.epoch), Nowhere)]) else v
      case Connected =>
        if Accepts(Read, reply)
        then View(Reading, v.epoch, [Pending(A.Op(Read, v.epoch), Into(buffer, DATA_BUFFER_SIZE - 1))])
        else v
      case _ => v
    }

    /** The instance after one packet of it: its operation is done, and the next one has begun or was refused. */
    static function AfterPacket(v: View, outcome: PipeState.Service, reply: Reply, buffer: array<Byte>): View {
      if outcome.Returns? then RestartedView(View(outcome.mode, v.epoch, []), reply, buffer)
      else View(v.mode, v.epoch, [])
    }

    /** The lines about the result itself. */
    static function SaidOfResult(i: nat, result: AsyncResult, handed: seq<S.Message>): seq<S.Line> {
      [S.Completed(i, S.Result(result.operation, result.errorCode, result.bytesTransferred,
                               if result.newPipeState == CONNECTED then Connected else Unconnected,
                               result.bZombieOperation))] +
      (if handed != [] then [S.Received(i, handed[0].text)] else [])
    }

    /** The line about the next start. */
    static function SaidOfRestart(i: nat, m: Mode, reply: Reply): seq<S.Line> {
      match m
      case Unconnected => [if Accepts(Connect, reply) then S.Began(i, Connect) else S.Caught]
      case Connected => [if Accepts(Read, reply) then S.Began(i, Read) else S.Caught]
      case _ => []
    }

    /** All lines of one packet, given what `service` returned. */
    static predicate Said(before: seq<S.Line>, after: seq<S.Line>, i: nat, serviced: Outcome<AsyncResult>,
                          outcome: PipeState.Service, data: seq<Byte>, reply: Reply) {
      if serviced.Ok? && outcome.Returns? then
        after == before + SaidOfResult(i, serviced.value, Handed(i, outcome, serviced.value.errorCode, data)) +
                 SaidOfRestart(i, outcome.mode, reply)
      else
        after == before + [S.Caught]
    }

    static predicate Begun(k: Kind, reply: Reply) {
      if k.Connect? then !reply.bResult && (reply.lastError == 997 || reply.lastError == 535)
      else reply.bResult || reply.lastError == 997
    }

    static function ReadBegun(epoch: nat, reply: Reply, buffer: array<Byte>): View {
      if Begun(Read, reply) then View(Reading, epoch, [Pending(A.Op(Read, epoch), Into(buffer, 65535))])
      else View(Connected, epoch, [])
    }

    static function ConnectBegun(epoch: nat, reply: Reply): View {
      if Begun(Connect, reply) then View(Connecting, epoch, [Pending(A.Op(Connect, epoch), Nowhere)])
      else View(Unconnected, epoch, [])
    }

    /** The lines of one packet in full, for each mode that a packet can find its instance in. */
    lemma LinesOfPacket(before: seq<S.Line>, after: seq<S.Line>, i: nat, m: Mode, bytes: nat, errorCode: nat,
                        data: seq<Byte>, reply: Reply)
      requires Said(before, after, i, ServiceResult(m, i, bytes, errorCode), Serve(m, errorCode), data, reply)
      ensures m == Connecting ==>
                after == before + [S.Completed(i, S.Result(Connect, errorCode, 0, Connected, false)),
                                   if Begun(Read, reply) then S.Began(i, Read) else S.Caught]
      ensures m == Reading && errorCode == 0 ==>
                after == before + [S.Completed(i, S.Result(Read, 0, bytes, Connected, false)),
                                   S.Received(i, UpToNul(data)),
                                   if Begun(Read, reply) then S.Began(i, Read) else S.Caught]
      ensures m == Reading && errorCode != 0 ==>
                after == before + [S.Completed(i, S.Result(Read, errorCode, bytes, Connected, false)),
                                   if Begun(Read, reply) then S.Began(i, Read) else S.Caught]
      ensures m == CancellingRead ==>
                after == before + [S.Completed(i, S.Result(Read, errorCode, bytes, Unconnected, true)),
                                   if Begun(Connect, reply) then S.Began(i, Connect) else S.Caught]
      ensures m == CancellingConnect ==>
                after == before + if errorCode == 0 then [S.Caught]
                                  else [S.Completed(i, S.Result(Read, errorCode, 0, Unconnected, true)),
                                        if Begun(Connect, reply) then S.Began(i, Connect) else S.Caught]
    {
      EncodeInjective(Unconnected, Connected);
    }

    /** The kernel completes the instance's operation, and put no more bytes into the buffer than it was asked for. */
    ghost predicate Genuine(i: nat, bytesTransferred: nat, errorCode: nat)
      reads this, pipeServer
      reads if pipeServer != null then set p | p in pipeServer.pipes else {}
    {
      && pipeServer != null && i < |pipeServer.pipes|
      && var pending := pipeServer.pipes[i].view.outstanding;
         pending != [] &&
         (pending[0].target.Into? && errorCode == ERROR_SUCCESS ==> bytesTransferred <= pending[0].target.size)
    }

    /**
     * The pipe branch of the worker on a genuine packet of instance `i`: `service`, the terminator, the handler, and
     * the next start; an exception ends the branch. The handler gets exactly the transferred bytes up to their first
     * NUL, whatever an earlier, longer message left in the buffer. That the terminator has a place in the buffer is
     * owed to the size that the last read asked for.
     */
    method PipePacket(i: nat, bytesTransferred: nat, errorCode: nat, reply: Reply)
      returns (serviced: Outcome<AsyncResult>)
      requires Valid() && Genuine(i, bytesTransferred, errorCode)
      modifies this`handled, messages, pipeServer.pipes, pipeSvBuffers[i]
      ensures Valid() && pipeServer == old(pipeServer)
      ensures handled == old(handled) +
                Handed(i, Serve(old(pipeServer.pipes[i].view.mode), errorCode), errorCode,
                       Front(old(pipeSvBuffers[i][..]), bytesTransferred))
      ensures pipeServer.pipes[i].view ==
                AfterPacket(old(pipeServer.pipes[i].view), Serve(old(pipeServer.pipes[i].view.mode), errorCode), reply,
                            pipeSvBuffers[i])
      ensures forall j :: 0 <= j < |pipeServer.pipes| && j != i ==>
                pipeServer.pipes[j].view == old(pipeServer.pipes[j].view)
      ensures Said(old(messages.queue), messages.queue, i, serviced,
                   Serve(old(pipeServer.pipes[i].view.mode), errorCode),
                   Front(old(pipeSvBuffers[i][..]), bytesTransferred), reply)
      ensures serviced == ServiceResult(old(pipeServer.pipes[i].view.mode), i, bytesTransferred, errorCode)
      // In plain words: only a successful read of this connection is handled, and
      ensures handled == old(handled) +
                if old(pipeServer.pipes[i].view.mode) == Reading && errorCode == 0
                then [S.PipeMessage(i, UpToNul(Front(old(pipeSvBuffers[i][..]), bytesTransferred)))] else []
      // every genuine completion leads to a read of 65535 bytes, a zombie to a connect, unless the kernel refuses.
      ensures var before, after := old(pipeServer.pipes[i].view), pipeServer.pipes[i].view;
              match before.mode
              case Connecting => after == ReadBegun(before.epoch, reply, pipeSvBuffers[i])
              case Reading => after == ReadBegun(before.epoch, reply, pipeSvBuffers[i])
              case CancellingRead => after == ConnectBegun(before.epoch, reply)
              case CancellingConnect =>
                if errorCode == 0 then after == View(CancellingConnect, before.epoch, [])
                else after == ConnectBegun(before.epoch, reply)
              case _ => false
    {
      ghost var outcome := Serve(pipeServer.pipes[i].view.mode, errorCode);
      ghost var data := Front(pipeSvBuffers[i][..], bytesTransferred);
      serviced := ServicePacket(i, bytesTransferred, errorCode);
      if serviced.Throws? {
        messages.PushMessg(S.Caught);
        return;
      }
      FinishPacket(i, serviced.value, outcome, data, reply);
    }

    /** What follows `service`: the result handled, and the instance restarted. */
    method FinishPacket(i: nat, result: AsyncResult, ghost outcome: PipeState.Service, ghost data: seq<Byte>,
                        reply: Reply)
      requires Valid() && pipeServer != null && i < |pipeServer.pipes|
      requires outcome.Returns? && result.operation == outcome.operation && result.bZombieOperation == outcome.zombie
      requires pipeServer.pipes[i].view.mode == outcome.mode && result.newPipeState == Encode(outcome.mode)
      requires Handed(i, outcome, result.errorCode, data) != [] ==>
                 && result.bytesTransferred == |data| < DATA_BUFFER_SIZE
                 && pipeSvBuffers[i][..|data|] == data
      modifies this`handled, messages, pipeServer.pipes[i], pipeSvBuffers[i]
      ensures Valid()
      ensures handled == old(handled) + Handed(i, outcome, result.errorCode, data)
      ensures pipeServer.pipes[i].view == RestartedView(old(pipeServer.pipes[i].view), reply, pipeSvBuffers[i])
      ensures messages.queue ==
                old(messages.queue) + SaidOfResult(i, result, Handed(i, outcome, result.errorCode, data)) +
                SaidOfRestart(i, outcome.mode, reply)
    {
      HandleResult(i, result, outcome, data);
      RestartInstance(i, result.newPipeState, outcome.mode, reply);
    }

    method ServicePacket(i: nat, bytesTransferred: nat, errorCode: nat) returns (r: Outcome<AsyncResult>)
      requires Valid() && pipeServer != null && i < |pipeServer.pipes|
      modifies pipeServer.pipes
      ensures Valid()
      ensures Serviced(old(pipeServer.pipes[i].view), pipeServer.pipes[i].view, i, bytesTransferred, errorCode, r)
      ensures forall j :: 0 <= j < |pipeServer.pipes| && j != i ==>
                pipeServer.pipes[j].view == old(pipeServer.pipes[j].view)
    {
      r := pipeServer.Service(pipeServer.pipes[i].connReadOverlapped, bytesTransferred, errorCode);
    }

    /** The log lines, the terminator and the handler. */
    method HandleResult(i: nat, result: AsyncResult, ghost outcome: PipeState.Service, ghost data: seq<Byte>)
      requires messages.Valid() && OwnBuffers(pipeSvBuffers) && i < |pipeSvBuffers|
      requires outcome.Returns? && result.operation == outcome.operation && result.bZombieOperation == outcome.zombie
      requires Handed(i, outcome, result.errorCode, data) != [] ==>
                 && result.bytesTransferred == |data| < DATA_BUFFER_SIZE
                 && pipeSvBuffers[i][..|data|] == data
      modifies this`handled, messages, pipeSvBuffers[i]
      ensures messages.Valid()
      ensures handled == old(handled) + Handed(i, outcome, result.errorCode, data)
      ensures messages.queue ==
                old(messages.queue) + SaidOfResult(i, result, Handed(i, outcome, result.errorCode, data))
    {
      var buff := pipeSvBuffers[i];
      messages.PushMessg(S.Completed(i, S.Result(result.operation, result.errorCode, result.bytesTransferred,
                                                 if result.newPipeState == CONNECTED then Connected else Unconnected,
                                                 result.bZombieOperation)));
      if result.operation.Read? && result.errorCode == ERROR_SUCCESS && !result.bZombieOperation {
        buff[result.bytesTransferred] := 0;
        assert buff[..][..|data|] == data;
        TerminatedString(buff[..], data);
        messages.PushMessg(S.Received(i, UpToNul(buff[..])));
        handled := handled + [S.PipeMessage(i, UpToNul(buff[..]))];
      }
    }

    /** The next start, by the state that `service` reported. */
    method RestartInstance(i: nat, newPipeState: Bits, ghost m: Mode, reply: Reply)
      requires Valid() && pipeServer != null && i < |pipeServer.pipes|
      requires pipeServer.pipes[i].view.mode == m && newPipeState == Encode(m)
      modifies messages, pipeServer.pipes[i]
      ensures Valid()
      ensures pipeServer.pipes[i].view == RestartedView(old(pipeServer.pipes[i].view), reply, pipeSvBuffers[i])
      ensures messages.queue == old(messages.queue) + SaidOfRestart(i, m, reply)
    {
      EncodeInjective(m, Unconnected);
      EncodeInjective(m, Connected);
      if newPipeState == UNCONNECTED {
        var r := ConnectAgain(i, reply);
        messages.PushMessg(if r.Ok? then S.Began(i, Connect) else S.Caught);
      }
      if newPipeState == CONNECTED {
        var r := ReadAgain(i, reply);
        messages.PushMessg(if r.Ok? then S.Began(i, Read) else S.Caught);
      }
    }

    method ConnectAgain(i: nat, reply: Reply) returns (r: Outcome<()>)
      requires PipesValid() && pipeServer != null && i < |pipeServer.pipes|
      requires pipeServer.pipes[i].view.mode.Unconnected?
      modifies pipeServer.pipes[i]
      ensures PipesValid() && (r.Ok? <==> Accepts(Connect, reply))
      ensures pipeServer.pipes[i].view == RestartedView(old(pipeServer.pipes[i].view), reply, pipeSvBuffers[i])
    {
      pipeServer.InstancesDistinct(i);
      r := pipeServer.ConnectInstance(i, reply);
    }

    method ReadAgain(i: nat, reply: Reply) returns (r: Outcome<()>)
      requires PipesValid() && OwnBuffers(pipeSvBuffers) && pipeServer != null && i < |pipeServer.pipes|
      requires pipeServer.pipes[i].view.mode.Connected?
      modifies pipeServer.pipes[i]
      ensures PipesValid() && (r.Ok? <==> Accepts(Read, reply))
      ensures pipeServer.pipes[i].view == RestartedView(old(pipeServer.pipes[i].view), reply, pipeSvBuffers[i])
    {
      pipeServer.InstancesDistinct(i);
      var buff := pipeSvBuffers[i];
      r := pipeServer.ReadInstance(i, buff, buff.Length - 1, reply);
    }
  }
}
