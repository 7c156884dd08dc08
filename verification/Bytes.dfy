/** Results of calls, shared by every component. */
module Outcomes {

  datatype Option<+T> = None | Some(value: T)

  /** The exceptions of the source, and its assertions. */
  datatype Error =
    | OutOfRange | InvalidArgument | LogicError | RuntimeError
    | SystemError(code: nat)
    | AssertionFailed
    | AccessViolation      // not an exception: the process reads outside its memory

  datatype Outcome<+T> = Ok(value: T) | Throws(error: Error)

  /** What a wait on an event or a semaphore returned; the last has no name in the source. */
  datatype Wait = Signalled | TimedOut | Failed(code: nat) | Unexpected(code: nat)
}

/** Bytes and NUL-terminated strings. */
module Bytes {

  type Byte = b: int | 0 <= b < 256

  /** The size of every message buffer and of the shared memory. */
  const DATA_BUFFER_SIZE: nat := 0x10000

  predicate HasNul(s: seq<Byte>) {
    exists k :: 0 <= k < |s| && s[k] == 0
  }

  /** The first `n` bytes, as far as there are so many. */
  function Front(s: seq<Byte>, n: nat): (r: seq<Byte>)
    ensures r <= s && (n <= |s| ==> |r| == n)
  {
    if n <= |s| then s[..n] else s
  }

  /** The C string that starts at the first byte of `s`. */
  function UpToNul(s: seq<Byte>): (r: seq<Byte>)
    ensures r <= s
    ensures 0 !in r
    ensures |r| < |s| ==> s[|r|] == 0
  {
    if s == [] || s[0] == 0 then [] else
      assert forall k :: 0 <= k < |UpToNul(s[1..])| ==> s[1..][k] == s[k + 1];
      [s[0]] + UpToNul(s[1..])
  }

  /** The first NUL decides the string: nothing behind it is seen. */
  lemma {:induction false} UpToNulIs(s: seq<Byte>, n: nat)
    requires n <= |s| && 0 !in s[..n]
    requires n < |s| ==> s[n] == 0
    ensures UpToNul(s) == s[..n]
  {
    if n > 0 {
      assert s[0] == s[..n][0];
      assert s[1..][..n - 1] == s[..n][1..];
      UpToNulIs(s[1..], n - 1);
    }
  }

  /** A terminator written right behind `data` hides whatever an earlier, longer message left there. */
  lemma TerminatedString(s: seq<Byte>, data: seq<Byte>)
    requires |data| < |s| && s[..|data|] == data && s[|data|] == 0
    ensures UpToNul(s) == UpToNul(data)
  {
    var r := UpToNul(data);
    assert s[..|r|] == r;
    if |r| < |data| {
      assert s[|r|] == s[..|data|][|r|];
    }
    UpToNulIs(s, |r|);
  }
}
