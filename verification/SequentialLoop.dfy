/**
 * What one pipe would see of a single thread that runs a plain loop for it alone: wait for the connection, then
 * read, terminate, log, handle, and read again. Its histories say which messages completed, were logged and handled.
 */
module SequentialLoop {
  import opened Bytes
  import opened PipeState

  datatype Phase =
    | Busy(kind: Kind)                            // an operation is running
    | Done(kind: Kind, ok: bool, bytes: nat)      // it completed
    | Serviced(message: bool, bytes: nat)         // its result is known
    | Terminated(bytes: nat)                      // the NUL is written behind the message
    | Logging(text: seq<Byte>)                    // the log line is formatted
    | Logged                                      // the log line is in the queue
    | Ready                                       // about to read
    | Abandoned

  datatype State = State(
    phase: Phase,
    buf: seq<Byte>,
    completed: seq<seq<Byte>>,     // the data of the successful reads
    logged: seq<seq<Byte>>,        // the texts of the "received" lines
    handled: seq<seq<Byte>>        // the texts given to the message handler
  )

  datatype Event =
    | Scribble(buf: seq<Byte>)
    | Finish(ok: bool, bytes: nat)
    | Service
    | Terminate
    | Skip
    | Format
    | Log
    | Handle
    | StartRead
    | Abandon

  predicate Enabled(l: State, e: Event) {
    match e
    case Scribble(buf) => l.phase == Busy(Read) && |buf| == |l.buf|
    case Finish(ok, bytes) => l.phase.Busy? && (l.phase.kind.Read? && ok ==> bytes < |l.buf|)
    case Service => l.phase.Done?
    case Terminate => l.phase.Serviced? && l.phase.message && l.phase.bytes < |l.buf|
    case Skip => l.phase.Serviced? && !l.phase.message
    case Format => l.phase.Terminated?
    case Log => l.phase.Logging?
    case Handle => l.phase.Logged?
    case StartRead => l.phase.Ready?
    case Abandon => l.phase.Busy? || l.phase.Done? || l.phase.Ready?
  }

  function Apply(l: State, e: Event): State
    requires Enabled(l, e)
  {
    match e
    case Scribble(buf) => l.(buf := buf)
    case Finish(ok, bytes) =>
      l.(phase := Done(l.phase.kind, ok, bytes),
         completed := if l.phase.kind.Read? && ok then l.completed + [l.buf[..bytes]] else l.completed)
    case Service =>
      l.(phase := Serviced(l.phase.kind.Read? && l.phase.ok, if l.phase.kind.Read? then l.phase.bytes else 0))
    case Terminate => l.(phase := Terminated(l.phase.bytes), buf := l.buf[l.phase.bytes := 0])
    case Skip => l.(phase := Ready)
    case Format => l.(phase := Logging(UpToNul(l.buf)))
    case Log => l.(phase := Logged, logged := l.logged + [l.phase.text])
    case Handle => l.(phase := Ready, handled := l.handled + [UpToNul(l.buf)])
    case StartRead => l.(phase := Busy(Read))
    case Abandon => l.(phase := Abandoned)
  }

  /** The texts are those of the completed reads, in order: up to the first NUL of the transferred bytes. */
  ghost predicate TextsOf(texts: seq<seq<Byte>>, completed: seq<seq<Byte>>) {
    && |texts| <= |completed| <= |texts| + 1
    && forall k :: 0 <= k < |texts| ==> texts[k] == UpToNul(completed[k])
  }

  /** The last read is in the buffer, and it is the one that is not handled yet. */
  ghost predicate Unhandled(l: State, bytes: nat) {
    && |l.completed| == |l.handled| + 1
    && bytes < |l.buf| && l.buf[..bytes] == l.completed[|l.completed| - 1]
  }

  ghost predicate Inv(l: State) {
    && TextsOf(l.logged, l.completed)
    && TextsOf(l.handled, l.completed)
    && |l.handled| <= |l.logged|
    && match l.phase
       case Busy(_) => |l.handled| == |l.completed|
       case Done(kind, ok, bytes) =>
         if kind.Read? && ok then Unhandled(l, bytes) && |l.logged| == |l.handled| else |l.handled| == |l.completed|
       case Serviced(message, bytes) =>
         if message then Unhandled(l, bytes) && |l.logged| == |l.handled| else |l.handled| == |l.completed|
       case Terminated(bytes) => Unhandled(l, bytes) && |l.logged| == |l.handled| && l.buf[bytes] == 0
       case Logging(text) =>
         && |l.completed| == |l.handled| + 1 && |l.logged| == |l.handled|
         && text == UpToNul(l.buf) == UpToNul(l.completed[|l.completed| - 1])
       case Logged =>
         && |l.completed| == |l.handled| + 1 && |l.logged| == |l.completed|
         && UpToNul(l.buf) == UpToNul(l.completed[|l.completed| - 1])
       case Ready => |l.handled| == |l.completed|
       case Abandoned => true
  }

  /** What an earlier, longer message left in the buffer never shows: the terminator comes right behind the data. */
  lemma StepKeepsInv(l: State, e: Event)
    requires Inv(l) && Enabled(l, e)
    ensures Inv(Apply(l, e))
  {
    match e
    case Terminate =>
      var n := l.phase.bytes;
      assert l.buf[n := 0][..n] == l.buf[..n];
    case Format =>
      TerminatedString(l.buf, l.completed[|l.completed| - 1]);
    case _ =>
  }
}
