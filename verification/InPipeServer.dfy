/** The pipe server: its instances, and the four calls as they run inside an instance's critical section. */
module InPipeServer {
  import opened Outcomes
  import opened Bytes
  import opened PipeState
  import opened IndexedOverlapped
  import A = AtomicPipe

  datatype AsyncResult = AsyncResult(
    instanceIndex: nat,
    operation: Kind,
    errorCode: nat,
    bytesTransferred: nat,
    newPipeState: Bits,
    bZombieOperation: bool
  )

  /** The kernel's answer to ConnectNamedPipe, ReadFile, DisconnectNamedPipe or CancelIoEx. */
  datatype Reply = Reply(bResult: bool, lastError: nat)

  /** What the kernel did with a start. */
  datatype KernelOutcome =
    | Runs                // it runs, its packet comes later
    | ClientWasThere      // a client opened the pipe before the connect; the packet is queued at once
    | CompletedAtOnce     // the data was there; the packet is queued at once
    | Failed(code: nat)   // nothing was started, no packet comes

  /** Which outcomes a start of a kind can have, and how the kernel tells them: the result and GetLastError. */
  predicate Tells(k: Kind, outcome: KernelOutcome, reply: Reply) {
    match outcome
    case Runs => reply == Reply(false, 997)
    case ClientWasThere => k.Connect? && reply == Reply(false, 535)
    case CompletedAtOnce => k.Read? && reply.bResult
    case Failed(code) =>
      reply == Reply(false, code) && code != 997 && (k.Connect? ==> code != 535)
  }

  /** A start is accepted exactly when the kernel will queue its packet. */
  lemma AcceptsWhatIsQueued(k: Kind, outcome: KernelOutcome, reply: Reply)
    requires Tells(k, outcome, reply)
    ensures Accepts(k, reply) <==> !outcome.Failed?
  {}

  /** An accepted connect never returns TRUE; an accepted read may. */
  predicate Accepts(k: Kind, reply: Reply) {
    match k
    case Connect => !reply.bResult && (reply.lastError == ERROR_IO_PENDING || reply.lastError == ERROR_PIPE_CONNECTED)
    case Read => reply.bResult || reply.lastError == ERROR_IO_PENDING
  }

  /** What happened when the constructor asked for one more instance. */
  datatype Creation = Created | NoPipe(code: nat) | NotAssociated(code: nat)

  /** Where an operation puts its data: a read of at most `size` bytes goes to the front of a buffer. */
  datatype Target = Nowhere | Into(buffer: array<Byte>, size: nat)

  datatype Pending = Pending(op: A.Op, target: Target)

  /** What the bits of an instance stand for, its successful disconnects so far, and its unserviced operations. */
  datatype View = View(mode: Mode, epoch: nat, outstanding: seq<Pending>) {

    /** At most one operation, of the kind and the connection that the flags name; without a flag none. */
    predicate Named() {
      if mode.Flagged() then
        && |outstanding| <= 1
        && forall p :: p in outstanding ==>
             && p.op.kind == mode.FlagKind()
             && (if mode.Cancelling() then p.op.epoch < epoch else p.op.epoch == epoch)
             && (p.op.kind.Read? <==> p.target.Into?)
      else
        outstanding == []
    }
  }

  /** A write of the kernel to the OVERLAPPED of an instance. */
  datatype OverlappedWrite = OverlappedWrite(i: nat, write: KernelWrite)

  /** The effect of a start call: the step of the six-state machine, or nothing at all. */
  ghost predicate Started(before: View, after: View, k: Kind, target: Target, reply: Reply, r: Outcome<()>) {
    var next := AfterStart(before.mode, k);
    if next.None? then
      r == Throws(LogicError) && after == before
    else if !Accepts(k, reply) then
      r == Throws(SystemError(reply.lastError)) && after == before
    else
      && r == Ok(()) && before.outstanding == []
      && after == View(next.value, before.epoch, [Pending(A.Op(k, before.epoch), target)])
  }

  /** What `service` returns on an instance in mode `m`. */
  function ServiceResult(m: Mode, index: nat, bytesTransferred: nat, errorCode: nat): Outcome<AsyncResult> {
    var outcome := Serve(m, errorCode);
    if outcome.Returns? then
      Ok(AsyncResult(index, outcome.operation, errorCode, if m.FlagKind().Read? then bytesTransferred else 0,
                     Encode(outcome.mode), outcome.zombie))
    else
      Throws(RuntimeError)
  }

  /** The effect of `service` on the instance that started the operation. */
  ghost predicate Serviced(before: View, after: View, index: nat, bytesTransferred: nat, errorCode: nat,
                           r: Outcome<AsyncResult>) {
    var outcome := Serve(before.mode, errorCode);
    && after.epoch == before.epoch
    && after.outstanding == (if before.outstanding == [] then [] else before.outstanding[1..])
    && after.mode == (if outcome.Returns? then outcome.mode else before.mode)
    && r == ServiceResult(before.mode, index, bytesTransferred, errorCode)
  }

  /** The effect of a disconnect: a new epoch, with what is still outstanding left over from the old one. */
  ghost predicate DisconnectedAs(before: View, after: View, reply: Reply, r: Outcome<()>) {
    var next := AfterDisconnect(before.mode);
    if next.None? then
      r == Throws(LogicError) && after == before
    else if !reply.bResult then
      r == Throws(SystemError(reply.lastError)) && after == before
    else
      r == Ok(()) && after == View(next.value, before.epoch + 1, before.outstanding)
  }

  /** One instance; the methods are what the server's methods do inside its critical section. */
  class PipeInstance {
    var state: Bits
    const connReadOverlapped: RaiiIndexedOverlapped
    ghost var view: View

    ghost predicate Coded()
      reads this
    {
      state == Encode(view.mode) && view.Named()
    }

    constructor (index: nat)
      requires index < Radix(INDEX_SIZE)
      ensures Coded() && view == View(Unconnected, 0, [])
      ensures connReadOverlapped.Valid() && connReadOverlapped.Index() == index
      ensures fresh(connReadOverlapped) && fresh(connReadOverlapped.ptrOverlapped)
    {
      state := UNCONNECTED;
      view := View(Unconnected, 0, []);
      connReadOverlapped := new RaiiIndexedOverlapped(index);
    }

    method Connect(reply: Reply) returns (r: Outcome<()>)
      requires Coded()
      modifies this
      ensures Coded() && Started(old(view), view, PipeState.Connect, Nowhere, reply, r)
      ensures old(view.mode) == Unconnected ==>
                if !reply.bResult && (reply.lastError == 997 || reply.lastError == 535)
                then r == Ok(()) && view.mode == Connecting
                else r == Throws(SystemError(reply.lastError)) && view.mode == Unconnected
    {
      MasksRefineModes(view.mode, PipeState.Connect);
      if state != UNCONNECTED {
        return Throws(LogicError);
      }
      if reply.bResult || (reply.lastError != ERROR_IO_PENDING && reply.lastError != ERROR_PIPE_CONNECTED) {
        return Throws(SystemError(reply.lastError));
      }
      state := UNCONNECTED_CONNECTING;
      view := View(Connecting, view.epoch, view.outstanding + [Pending(A.Op(PipeState.Connect, view.epoch), Nowhere)]);
      r := Ok(());
    }

    method Read(buffer: array<Byte>, size: nat, reply: Reply) returns (r: Outcome<()>)
      requires Coded() && size <= buffer.Length
      modifies this
      ensures Coded() && Started(old(view), view, PipeState.Read, Into(buffer, size), reply, r)
      ensures old(view.mode) == Connected ==>
                if reply.bResult || reply.lastError == 997
                then r == Ok(()) && view.mode == Reading
                else r == Throws(SystemError(reply.lastError)) && view.mode == Connected
    {
      var bConnected := state & CONNECTED != 0;
      var bReading := state & FLAG_READING != 0;
      assert bConnected && !bReading <==> view.mode == Connected;
      if !bConnected || bReading {
        return Throws(LogicError);
      }
      if !reply.bResult && reply.lastError != ERROR_IO_PENDING {
        return Throws(SystemError(reply.lastError));
      }
      state := state | FLAG_READING;
      view := View(Reading, view.epoch,
                   view.outstanding + [Pending(A.Op(PipeState.Read, view.epoch), Into(buffer, size))]);
      r := Ok(());
    }

    method Service(index: nat, bytesTransferred: nat, errorCode: nat) returns (r: Outcome<AsyncResult>)
      requires Coded()
      modifies this
      ensures Coded() && Serviced(old(view), view, index, bytesTransferred, errorCode, r)
      // The five cases of the source, without the machine.
      ensures old(view.mode) == Connecting ==>
                r == Ok(AsyncResult(index, PipeState.Connect, errorCode, 0, 0x01, false)) && state == 0x01
      ensures old(view.mode) == Reading ==>
                r == Ok(AsyncResult(index, PipeState.Read, errorCode, bytesTransferred, 0x01, false)) && state == 0x01
      ensures old(view.mode) == CancellingConnect ==>
                if errorCode == 0 then r == Throws(RuntimeError) && state == 0x12
                else r == Ok(AsyncResult(index, PipeState.Read, errorCode, 0, 0x00, true)) && state == 0x00
      ensures old(view.mode) == CancellingRead ==>
                r == Ok(AsyncResult(index, PipeState.Read, errorCode, bytesTransferred, 0x00, true)) && state == 0x00
      ensures old(view.mode) == Unconnected || old(view.mode) == Connected ==>
                r == Throws(RuntimeError) && state == old(state)
    {
      EncodeInjective(view.mode, Connecting);
      EncodeInjective(view.mode, Reading);
      EncodeInjective(view.mode, CancellingConnect);
      EncodeInjective(view.mode, CancellingRead);
      view := view.(outstanding := if view.outstanding == [] then [] else view.outstanding[1..]);
      if state == UNCONNECTED_CONNECTING {
        state, view := CONNECTED, view.(mode := Connected);
        r := Ok(AsyncResult(index, PipeState.Connect, errorCode, 0, state, false));
      } else if state == CONNECTED_READING {
        state, view := CONNECTED, view.(mode := Connected);
        r := Ok(AsyncResult(index, PipeState.Read, errorCode, bytesTransferred, state, false));
      } else if state == DISCONNECTING_CONNECTING {
        if errorCode == ERROR_SUCCESS {
          return Throws(RuntimeError);
        }
        state, view := UNCONNECTED, view.(mode := Unconnected);
        r := Ok(AsyncResult(index, PipeState.Read, errorCode, 0, state, true));
      } else if state == DISCONNECTING_READING {
        state, view := UNCONNECTED, view.(mode := Unconnected);
        r := Ok(AsyncResult(index, PipeState.Read, errorCode, bytesTransferred, state, true));
      } else {
        r := Throws(RuntimeError);
      }
    }

    method Disconnect(reply: Reply) returns (r: Outcome<()>)
      requires Coded()
      modifies this
      ensures Coded() && DisconnectedAs(old(view), view, reply, r)
      // And of this call: what it leaves of a connection, or that it refuses.
      ensures r.Ok? <==>
                && reply.bResult
                && (old(view.mode) == Connected || old(view.mode) == Reading || old(view.mode) == Connecting)
      ensures r.Ok? ==>
                && view.epoch == old(view.epoch) + 1
                && state == match old(view.mode)
                            case Connected => 0x00
                            case Reading => 0x22
                            case _ => 0x12
      ensures r.Throws? ==>
                && state == old(state)
                && r.error == if old(view.mode) in {Connected, Reading, Connecting}
                              then SystemError(reply.lastError) else LogicError
    {
      MasksRefineModes(view.mode, PipeState.Read);
      var bConnected := state & CONNECTED != 0;
      if bConnected || state == UNCONNECTED_CONNECTING {
        // DisconnectNamedPipe in the first case, CancelIoEx in the second.
        if !reply.bResult {
          return Throws(SystemError(reply.lastError));
        }
      } else {
        return Throws(LogicError);
      }
      var allFlags := FLAG_CONNECTING | FLAG_READING | FLAG_WRITING;
      var pipeFlags := state & allFlags;
      if pipeFlags != 0 {
        state := DISCONNECTING | pipeFlags;
      } else {
        state := UNCONNECTED;
      }
      view := View(AfterDisconnect(view.mode).value, view.epoch + 1, view.outstanding);
      r := Ok(());
    }
  }

  class InPipeServer {
    var pipes: seq<PipeInstance>

    /** Each instance has its own OVERLAPPED carrying its own number, and a state among the six named ones. */
    ghost predicate Valid()
      reads this, pipes
      reads set p | p in pipes :: p.connReadOverlapped
      reads set p | p in pipes :: p.connReadOverlapped.ptrOverlapped
    {
      && (forall i :: 0 <= i < |pipes| ==> pipes[i].Coded())
      && (forall i :: 0 <= i < |pipes| ==>
            pipes[i].connReadOverlapped.Valid() && pipes[i].connReadOverlapped.Index() == i)
    }

    constructor ()
      ensures Valid() && pipes == []
    {
      pipes := [];
    }

    /** The constructor of the source, which may throw: `creations` is what the system answers, one per instance. */
    static method Open(maxClients: nat, portValid: bool, creations: seq<Creation>) returns (r: Outcome<InPipeServer>)
      requires maxClients < Radix(INDEX_SIZE) && maxClients <= |creations|
      ensures r.Ok? <==> 1 <= maxClients && portValid && forall i :: 0 <= i < maxClients ==> creations[i].Created?
      ensures maxClients < 1 || !portValid ==> r == Throws(InvalidArgument)
      ensures maxClients >= 1 && portValid ==>
                forall n :: 0 <= n < maxClients && !creations[n].Created? &&
                            (forall i :: 0 <= i < n ==> creations[i].Created?) ==>
                  r == Throws(SystemError(creations[n].code))
      ensures r.Ok? ==>
                && fresh(r.value) && r.value.Valid() && |r.value.pipes| == maxClients
                && forall i :: 0 <= i < maxClients ==>
                     fresh(r.value.pipes[i]) && r.value.pipes[i].view == View(Unconnected, 0, [])
    {
      if maxClients < 1 || !portValid {
        return Throws(InvalidArgument);
      }
      var server := new InPipeServer();
      for i := 0 to maxClients
        invariant fresh(server) && |server.pipes| == i && server.Valid()
        invariant forall j :: 0 <= j < i ==> creations[j].Created?
        invariant forall j :: 0 <= j < i ==>
                    fresh(server.pipes[j]) && server.pipes[j].view == View(Unconnected, 0, [])
      {
        if creations[i].NoPipe? {
          return Throws(SystemError(creations[i].code));
        }
        var pipe := new PipeInstance(i);
        if creations[i].NotAssociated? {
          return Throws(SystemError(creations[i].code));
        }
        server.pipes := server.pipes + [pipe];
      }
      r := Ok(server);
    }

    /** Distinct instances, because each OVERLAPPED decodes to its own index. */
    lemma InstancesDistinct(i: nat)
      requires Valid() && i < |pipes|
      ensures forall j :: 0 <= j < |pipes| && j != i ==>
                pipes[j] != pipes[i] && pipes[j].connReadOverlapped != pipes[i].connReadOverlapped
    {
      forall j | 0 <= j < |pipes| && j != i
        ensures pipes[j] != pipes[i] && pipes[j].connReadOverlapped != pipes[i].connReadOverlapped
      {
        assert pipes[j].connReadOverlapped.Index() != pipes[i].connReadOverlapped.Index();
      }
    }

    method ConnectInstance(index: nat, reply: Reply) returns (r: Outcome<()>)
      requires Valid()
      modifies if index < |pipes| then {pipes[index]} else {}
      ensures Valid()
      ensures index >= |pipes| ==> r == Throws(OutOfRange)
      ensures index < |pipes| ==> Started(old(pipes[index].view), pipes[index].view, Connect, Nowhere, reply, r)
    {
      if index >= |pipes| {
        return Throws(OutOfRange);
      }
      r := pipes[index].Connect(reply);
    }

    method ReadInstance(index: nat, buffer: array<Byte>, size: nat, reply: Reply) returns (r: Outcome<()>)
      requires Valid() && size <= buffer.Length
      modifies if index < |pipes| then {pipes[index]} else {}
      ensures Valid()
      ensures index >= |pipes| ==> r == Throws(OutOfRange)
      ensures index < |pipes| ==>
                Started(old(pipes[index].view), pipes[index].view, Read, Into(buffer, size), reply, r)
    {
      if index >= |pipes| {
        return Throws(OutOfRange);
      }
      r := pipes[index].Read(buffer, size, reply);
    }

    method Service(lpOverlapped: RaiiIndexedOverlapped?, bytesTransferred: nat, errorCode: nat)
      returns (r: Outcome<AsyncResult>)
      requires Valid() && (lpOverlapped != null ==> lpOverlapped.Valid())
      modifies pipes
      ensures Valid()
      // A pointer that is not the OVERLAPPED of an instance touches nothing.
      ensures !(exists i :: 0 <= i < |pipes| && pipes[i].connReadOverlapped == lpOverlapped) ==>
                r.Throws? && forall i :: 0 <= i < |pipes| ==> pipes[i].view == old(pipes[i].view)
      ensures lpOverlapped == null ==> r == Throws(InvalidArgument)
      ensures lpOverlapped != null && lpOverlapped.Index() >= |pipes| ==> r == Throws(OutOfRange)
      ensures lpOverlapped != null && lpOverlapped.Index() < |pipes| ==>
                (pipes[lpOverlapped.Index()].connReadOverlapped != lpOverlapped ==> r == Throws(InvalidArgument))
      // The OVERLAPPED of instance `i` is serviced on instance `i`, and on no other.
      ensures forall i :: 0 <= i < |pipes| && pipes[i].connReadOverlapped == lpOverlapped ==>
                && Serviced(old(pipes[i].view), pipes[i].view, i, bytesTransferred, errorCode, r)
                && forall j :: 0 <= j < |pipes| && j != i ==> pipes[j].view == old(pipes[j].view)
    {
      if lpOverlapped == null {
        return Throws(InvalidArgument);
      }
      var index := lpOverlapped.Index();
      if index >= |pipes| {
        return Throws(OutOfRange);
      }
      var pipe := pipes[index];
      if lpOverlapped != pipe.connReadOverlapped {
        return Throws(InvalidArgument);
      }
      InstancesDistinct(index);
      r := pipe.Service(index, bytesTransferred, errorCode);
    }

    /** Whatever the kernel writes to the OVERLAPPEDs, each still decodes to its own instance. */
    method KernelWrites(writes: seq<OverlappedWrite>)
      requires Valid()
      requires forall k :: 0 <= k < |writes| ==> writes[k].i < |pipes| && writes[k].write.Fits()
      modifies set p | p in pipes :: p.connReadOverlapped.ptrOverlapped
      ensures Valid()
    {
      for k := 0 to |writes|
        invariant Valid()
      {
        pipes[writes[k].i].connReadOverlapped.KernelWrites([writes[k].write]);
      }
    }

    /**
     * Dispatch is a round trip: after any writes of the kernel to the OVERLAPPEDs, the completion of an operation of
     * instance `i` is serviced on instance `i` and on no other.
     */
    method ServiceAfterWrites(i: nat, writes: seq<OverlappedWrite>, bytesTransferred: nat, errorCode: nat)
      returns (r: Outcome<AsyncResult>)
      requires Valid() && i < |pipes|
      requires forall k :: 0 <= k < |writes| ==> writes[k].i < |pipes| && writes[k].write.Fits()
      modifies pipes, set p | p in pipes :: p.connReadOverlapped.ptrOverlapped
      ensures Valid()
      ensures Serviced(old(pipes[i].view), pipes[i].view, i, bytesTransferred, errorCode, r)
      ensures forall j :: 0 <= j < |pipes| && j != i ==> pipes[j].view == old(pipes[j].view)
    {
      KernelWrites(writes);
      r := Service(pipes[i].connReadOverlapped, bytesTransferred, errorCode);
    }

    method DisconnectInstance(index: nat, reply: Reply) returns (r: Outcome<()>)
      requires Valid()
      modifies if index < |pipes| then {pipes[index]} else {}
      ensures Valid()
      ensures index >= |pipes| ==> r == Throws(OutOfRange)
      ensures index < |pipes| ==> DisconnectedAs(old(pipes[index].view), pipes[index].view, reply, r)
    {
      if index >= |pipes| {
        return Throws(OutOfRange);
      }
      r := pipes[index].Disconnect(reply);
    }
  }
}
