/** The shared memory: what a client's write leaves there, what the server's read makes of it, and both methods. */
module SharedMemory {
  import opened Outcomes
  import opened Bytes

  /** The memory after `memcpy` of a message: the message, and whatever was behind it before. */
  function Overlay(mem: seq<Byte>, m: seq<Byte>): (r: seq<Byte>)
    requires |m| <= |mem|
    ensures |r| == |mem|
  {
    m + mem[|m|..]
  }

  /**
   * The string the server gets. Without a NUL in the memory `strcpy_s` has no room for its terminator: it leaves the
   * empty string, provided that its invalid-parameter handler returns; the default one ends the process.
   */
  function Delivered(mem: seq<Byte>): seq<Byte> {
    if HasNul(mem) then UpToNul(mem) else []
  }

  predicate Fit(ms: seq<seq<Byte>>, n: nat) {
    forall j :: 0 <= j < |ms| ==> |ms[j]| <= n
  }

  predicate NulFree(ms: seq<seq<Byte>>) {
    forall j :: 0 <= j < |ms| ==> 0 !in ms[j]
  }

  /** The memory after all these messages, from zeroed pages. */
  function Written(n: nat, ms: seq<seq<Byte>>): (r: seq<Byte>)
    requires Fit(ms, n)
    ensures |r| == n
  {
    if ms == [] then seq(n, _ => 0) else Overlay(Written(n, ms[..|ms| - 1]), ms[|ms| - 1])
  }

  /** The latest message that reaches beyond position `p`. */
  function Latest(ms: seq<seq<Byte>>, p: nat): (r: Option<nat>)
    ensures r.Some? ==> r.value < |ms| && |ms[r.value]| > p
    ensures r.Some? ==> forall j :: r.value < j < |ms| ==> |ms[j]| <= p
    ensures r.None? ==> forall j :: 0 <= j < |ms| ==> |ms[j]| <= p
  {
    if ms == [] then None
    else if |ms[|ms| - 1]| > p then Some(|ms| - 1)
    else Latest(ms[..|ms| - 1], p)
  }

  function Longest(ms: seq<seq<Byte>>): (r: nat)
    ensures forall j :: 0 <= j < |ms| ==> |ms[j]| <= r
    ensures r > 0 ==> exists j :: 0 <= j < |ms| && |ms[j]| == r
  {
    if ms == [] then 0 else
      var rest := Longest(ms[..|ms| - 1]);
      if |ms[|ms| - 1]| > rest then |ms[|ms| - 1]| else rest
  }

  lemma {:induction false} WrittenAt(n: nat, ms: seq<seq<Byte>>, p: nat)
    requires Fit(ms, n) && p < n
    ensures Written(n, ms)[p] == (if Latest(ms, p).Some? then ms[Latest(ms, p).value][p] else 0)
  {
    if ms != [] {
      WrittenAt(n, ms[..|ms| - 1], p);
    }
  }

  /** The first NUL in the memory stands where the longest message ended, or nowhere. */
  lemma FirstNul(n: nat, ms: seq<seq<Byte>>)
    requires Fit(ms, n) && NulFree(ms)
    ensures Longest(ms) <= n
    ensures HasNul(Written(n, ms)) <==> Longest(ms) < n
    ensures UpToNul(Written(n, ms)) == Written(n, ms)[..Longest(ms)]
  {
    var mem, top := Written(n, ms), Longest(ms);
    forall p | 0 <= p < top ensures mem[p] != 0 {
      WrittenAt(n, ms, p);
      assert Latest(ms, p).Some?;
      assert ms[Latest(ms, p).value][p] in ms[Latest(ms, p).value];
    }
    if top < n {
      WrittenAt(n, ms, top);
      assert mem[top] == 0;
    }
    UpToNulIs(mem, top);
  }

  /** The server's string is as long as the longest message so far, each character from the latest one that long. */
  lemma ExactContent(n: nat, ms: seq<seq<Byte>>, p: nat)
    requires Fit(ms, n) && NulFree(ms) && Longest(ms) < n
    ensures |Delivered(Written(n, ms))| == Longest(ms)
    ensures p < Longest(ms) ==>
              Latest(ms, p).Some? && Delivered(Written(n, ms))[p] == ms[Latest(ms, p).value][p]
  {
    FirstNul(n, ms);
    if p < Longest(ms) {
      WrittenAt(n, ms, p);
    }
  }

  /**
   * The server gets the last message itself exactly when no earlier one was longer and a byte was left for the
   * terminator; or when the memory is full and the last message is empty.
   */
  lemma LastMessageArrives(n: nat, ms: seq<seq<Byte>>)
    requires Fit(ms, n) && NulFree(ms) && ms != []
    ensures Delivered(Written(n, ms)) == ms[|ms| - 1] <==>
              if Longest(ms) < n then Longest(ms) == |ms[|ms| - 1]| else ms[|ms| - 1] == []
  {
    FirstNul(n, ms);
    var last := ms[|ms| - 1];
    if Longest(ms) == |last| {
      assert Written(n, ms)[..|last|] == last;
    }
  }

  /** A shorter message after a longer one is not what the server reads: "C" after "AB" arrives as "CB". */
  lemma ShorterMessageIsMixed(n: nat)
    requires n > 2
    ensures Delivered(Written(n, [[65, 66], [67]])) == [67, 66]
  {
    var ms: seq<seq<Byte>> := [[65, 66], [67]];
    var mem := Written(n, ms);
    assert ms[..1] == [[65, 66]] && ms[..1][..0] == [];
    var first := Overlay(Written(n, []), [65, 66]);
    assert Written(n, ms[..1]) == first;
    assert first[1] == 66 && first[2] == 0;
    assert mem == Overlay(first, [67]);
    assert mem[0] == 67 && mem[1] == first[1] && mem[2] == first[2];
    UpToNulIs(mem, 2);
  }

  // ----- the two methods -----

  /** The section and the two auto-reset events, which both processes open by name. */
  class SharedObjects {
    const memory: array<Byte>
    var svToCl: bool
    var clToSv: bool

    /** As the server's constructor leaves them: zeroed pages and the first client admitted. */
    constructor (bufferSize: nat)
      ensures fresh(memory) && memory[..] == Written(bufferSize, [])
      ensures svToCl && !clToSv
    {
      memory := new Byte[bufferSize](_ => 0);
      svToCl, clToSv := true, false;
    }
  }

  class OutSharedMemoryClient {
    const shared: SharedObjects

    constructor (shared: SharedObjects)
      ensures this.shared == shared
    {
      this.shared := shared;
    }

    /**
     * A wait that succeeds consumes the event, any other outcome than that and a timeout throws; a view larger than
     * the section cannot be mapped.
     */
    method WriteData(buffer: array<Byte>, size: nat, wait: Wait) returns (r: Outcome<bool>)
      requires size <= buffer.Length && buffer != shared.memory
      requires wait.Signalled? ==> shared.svToCl
      modifies shared, shared.memory
      ensures wait.Signalled? ==> !shared.svToCl
      ensures !wait.Signalled? ==>
                && shared.svToCl == old(shared.svToCl) && shared.clToSv == old(shared.clToSv)
                && shared.memory[..] == old(shared.memory[..])
                && r == if wait.TimedOut? then Ok(false) else Throws(SystemError(wait.code))
      ensures wait.Signalled? && size > shared.memory.Length ==>
                && r == Throws(AssertionFailed) && shared.clToSv == old(shared.clToSv)
                && shared.memory[..] == old(shared.memory[..])
      ensures wait.Signalled? && size <= shared.memory.Length ==>
                && r == Ok(true) && shared.clToSv
                && shared.memory[..] == Overlay(old(shared.memory[..]), buffer[..size])
    {
      if wait.TimedOut? {
        return Ok(false);
      }
      if wait.Failed? || wait.Unexpected? {
        return Throws(SystemError(wait.code));
      }
      shared.svToCl := false;
      if size > shared.memory.Length {
        return Throws(AssertionFailed);
      }
      for k := 0 to size
        invariant !shared.svToCl
        invariant shared.memory[..k] == buffer[..k]
        invariant shared.memory[k..] == old(shared.memory[k..])
      {
        shared.memory[k] := buffer[k];
      }
      shared.clToSv := true;
      r := Ok(true);
    }
  }

  /** What the system says to a request of the server's constructor; only named objects may exist already. */
  datatype Answer = Granted | AlreadyExists(code: nat) | Refused(code: nat)

  datatype Answers = Answers(mapping: Answer, svToCl: Answer, clToSv: Answer,
                             shutdown: Answer, thread: Answer, signal: Answer)

  class InSharedMemoryServer {
    const shared: SharedObjects

    constructor (shared: SharedObjects)
      ensures this.shared == shared
    {
      this.shared := shared;
    }

    /** The constructor of the source, which throws at the first refusal; a name that exists already is one. */
    static method Open(bufferSize: nat, portValid: bool, a: Answers) returns (r: Outcome<InSharedMemoryServer>)
      ensures !portValid ==> r == Throws(InvalidArgument)
      ensures portValid ==>
                if !a.mapping.Granted? then r == Throws(SystemError(a.mapping.code))
                else if !a.svToCl.Granted? then r == Throws(SystemError(a.svToCl.code))
                else if !a.clToSv.Granted? then r == Throws(SystemError(a.clToSv.code))
                else if a.shutdown.Refused? then r == Throws(SystemError(a.shutdown.code))
                else if a.thread.Refused? then r == Throws(SystemError(a.thread.code))
                else if a.signal.Refused? then r == Throws(SystemError(a.signal.code))
                else r.Ok?
      ensures r.Ok? ==>
                && fresh(r.value) && fresh(r.value.shared) && fresh(r.value.shared.memory)
                && r.value.shared.memory[..] == Written(bufferSize, [])
                && r.value.shared.svToCl && !r.value.shared.clToSv
    {
      if !portValid {
        return Throws(InvalidArgument);
      }
      if !a.mapping.Granted? {
        return Throws(SystemError(a.mapping.code));
      }
      if !a.svToCl.Granted? {
        return Throws(SystemError(a.svToCl.code));
      }
      if !a.clToSv.Granted? {
        return Throws(SystemError(a.clToSv.code));
      }
      if a.shutdown.Refused? {
        return Throws(SystemError(a.shutdown.code));
      }
      if a.thread.Refused? {
        return Throws(SystemError(a.thread.code));
      }
      if a.signal.Refused? {
        return Throws(SystemError(a.signal.code));
      }
      var shared := new SharedObjects(bufferSize);
      var server := new InSharedMemoryServer(shared);
      r := Ok(server);
    }

    /** The scan for the terminator leaves the view: it is shorter than the memory and holds no NUL. */
    static predicate ScansOutside(memory: seq<Byte>, view: nat) {
      view < |memory| && 0 !in memory[..view]
    }

    /**
     * Reads the string into the caller's buffer and admits the next client. The view is as long as the buffer, or
     * longer where the system rounds up to pages, but the scan goes on to the size of the memory; with the server's
     * own buffer they are the same. A string that fills the buffer leaves no room for its terminator (`Delivered`).
     */
    method GetData(buffer: array<Byte>, mapped: bool, view: nat, lastError: nat) returns (r: Outcome<nat>)
      requires buffer != shared.memory && buffer.Length > 0
      requires view >= buffer.Length || view >= shared.memory.Length
      modifies shared`svToCl, buffer
      ensures !mapped ==>
                && r == Throws(SystemError(lastError))
                && shared.svToCl == old(shared.svToCl) && buffer[..] == old(buffer[..])
      ensures mapped && ScansOutside(shared.memory[..], view) ==>
                && r == Throws(AccessViolation)
                && shared.svToCl == old(shared.svToCl) && buffer[..] == old(buffer[..])
      ensures mapped && !ScansOutside(shared.memory[..], view) ==>
                var text := UpToNul(shared.memory[..]);
                && shared.svToCl
                && r == (if |text| > buffer.Length then Throws(InvalidArgument) else Ok(|text|))
                && (|text| > buffer.Length ==> buffer[..] == old(buffer[..]))
                && (|text| <= buffer.Length ==>
                      UpToNul(buffer[..]) == if |text| < buffer.Length then text else [])
      ensures mapped && buffer.Length == shared.memory.Length ==>
                r.Ok? && UpToNul(buffer[..]) == Delivered(shared.memory[..])
    {
      if !mapped {
        return Throws(SystemError(lastError));
      }
      var memory := shared.memory;
      var n := 0;
      while n < memory.Length && n < view && memory[n] != 0
        invariant n <= memory.Length && n <= view && 0 !in memory[..n]
      {
        n := n + 1;
      }
      assert memory[..][..n] == memory[..n];
      if n == view < memory.Length {
        return Throws(AccessViolation);
      }
      if n < view < memory.Length {
        assert memory[..][..view][n] == 0;
      }
      UpToNulIs(memory[..], n);
      if n <= buffer.Length {
        CopyString(buffer, n);
      }
      shared.svToCl := true;
      if n > buffer.Length {
        return Throws(InvalidArgument);
      }
      r := Ok(n);
    }

    /** `strcpy_s` of the string of `n` bytes in the memory. */
    method CopyString(buffer: array<Byte>, n: nat)
      requires buffer != shared.memory && 0 < buffer.Length && n <= buffer.Length && n <= shared.memory.Length
      requires 0 !in shared.memory[..n]
      modifies buffer
      ensures UpToNul(buffer[..]) == if n < buffer.Length then shared.memory[..n] else []
    {
      if n < buffer.Length {
        for k := 0 to n
          invariant buffer[..k] == shared.memory[..k]
        {
          buffer[k] := shared.memory[k];
        }
        buffer[n] := 0;
        assert buffer[..][..n] == shared.memory[..n];
        UpToNulIs(buffer[..], n);
      } else {
        buffer[0] := 0;
        UpToNulIs(buffer[..], 0);
      }
    }
  }
}
