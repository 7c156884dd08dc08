/** The bit encoding of a pipe's state, and the machine of six named states it stands for. */
module PipeState {
  import opened Outcomes

  type Bits = bv32

  const UNCONNECTED: Bits := 0x000
  const CONNECTED: Bits := 0x001
  const DISCONNECTING: Bits := 0x002
  const FLAG_CONNECTING: Bits := 0x010
  const FLAG_READING: Bits := 0x020
  const FLAG_WRITING: Bits := 0x040
  const UNCONNECTED_CONNECTING: Bits := UNCONNECTED | FLAG_CONNECTING
  const CONNECTED_READING: Bits := CONNECTED | FLAG_READING
  const DISCONNECTING_CONNECTING: Bits := DISCONNECTING | FLAG_CONNECTING
  const DISCONNECTING_READING: Bits := DISCONNECTING | FLAG_READING

  const ERROR_SUCCESS: nat := 0
  const ERROR_PIPE_CONNECTED: nat := 535
  const ERROR_IO_PENDING: nat := 997

  datatype Kind = Connect | Read

  datatype Mode = Unconnected | Connecting | Connected | Reading | CancellingConnect | CancellingRead {

    /** An asynchronous operation is named by the flags. */
    predicate Flagged() {
      !Unconnected? && !Connected?
    }

    /** The operation that the flags name. */
    function FlagKind(): Kind
      requires Flagged()
    {
      if Connecting? || CancellingConnect? then Connect else Read
    }

    predicate Cancelling() {
      CancellingConnect? || CancellingRead?
    }
  }

  function Encode(m: Mode): Bits {
    match m
    case Unconnected => UNCONNECTED
    case Connecting => UNCONNECTED_CONNECTING
    case Connected => CONNECTED
    case Reading => CONNECTED_READING
    case CancellingConnect => DISCONNECTING_CONNECTING
    case CancellingRead => DISCONNECTING_READING
  }

  // ----- the six-state machine -----

  /** The mode after the kernel accepts an operation of this kind, or None where the call is refused. */
  function AfterStart(m: Mode, k: Kind): Option<Mode> {
    match k
    case Connect => if m == Unconnected then Some(Connecting) else None
    case Read => if m == Connected then Some(Reading) else None
  }

  function AfterDisconnect(m: Mode): Option<Mode> {
    match m
    case Connected => Some(Unconnected)
    case Reading => Some(CancellingRead)
    case Connecting => Some(CancellingConnect)
    case _ => None
  }

  /** What `service` does with a completion: it returns a result, or it throws. */
  datatype Service =
    | Returns(mode: Mode, operation: Kind, zombie: bool)
    | ThrowsStray        // a cancelled connect that succeeded all the same
    | ThrowsUnexpected   // the state names no operation

  function Serve(m: Mode, errorCode: nat): Service {
    match m
    case Connecting => Returns(Connected, Connect, false)
    case Reading => Returns(Connected, Read, false)
    case CancellingConnect => if errorCode == ERROR_SUCCESS then ThrowsStray else Returns(Unconnected, Read, true)
    case CancellingRead => Returns(Unconnected, Read, true)
    case _ => ThrowsUnexpected
  }

  // ----- the masked integer tests and updates of the source -----

  predicate MayStartBits(b: Bits, k: Kind) {
    match k
    case Connect => b == UNCONNECTED
    case Read => b & CONNECTED != 0 && b & FLAG_READING == 0
  }

  function AfterStartBits(b: Bits, k: Kind): Bits {
    match k
    case Connect => UNCONNECTED_CONNECTING
    case Read => b | FLAG_READING
  }

  predicate MayDisconnectBits(b: Bits) {
    b & CONNECTED != 0 || b == UNCONNECTED_CONNECTING
  }

  function AfterDisconnectBits(b: Bits): Bits {
    var pipeFlags := b & (FLAG_CONNECTING | FLAG_READING | FLAG_WRITING);
    if pipeFlags != 0 then DISCONNECTING | pipeFlags else UNCONNECTED
  }

  /** Each bit of the six patterns, by its meaning. */
  lemma BitsMean(m: Mode)
    ensures var b := Encode(m);
            && (b & 0x01 != 0 <==> m.Connected? || m.Reading?)
            && (b & 0x02 != 0 <==> m.CancellingConnect? || m.CancellingRead?)
            && (b & 0x10 != 0 <==> m.Connecting? || m.CancellingConnect?)
            && (b & 0x20 != 0 <==> m.Reading? || m.CancellingRead?)
            && b & 0x33 == b
    ensures UNCONNECTED == 0 && CONNECTED == 0x01 && DISCONNECTING == 0x02
    ensures FLAG_CONNECTING == 0x10 && FLAG_READING == 0x20 && FLAG_WRITING == 0x40
  {}

  /** Different modes have different bits, so the encoding loses nothing. */
  lemma EncodeInjective(m: Mode, n: Mode)
    ensures Encode(m) == Encode(n) <==> m == n
  {}

  /** On the six patterns the masked tests accept exactly the calls of the machine and land on its next state. */
  lemma MasksRefineModes(m: Mode, k: Kind)
    ensures MayStartBits(Encode(m), k) <==> AfterStart(m, k).Some?
    ensures AfterStart(m, k).Some? ==> AfterStartBits(Encode(m), k) == Encode(AfterStart(m, k).value)
    ensures MayDisconnectBits(Encode(m)) <==> AfterDisconnect(m).Some?
    ensures AfterDisconnect(m).Some? ==> AfterDisconnectBits(Encode(m)) == Encode(AfterDisconnect(m).value)
  {}
}
