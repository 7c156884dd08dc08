/**
 * Each method that one thread runs alone, against the steps of the server for the same lines: when nobody else moves,
 * the steps of one thread have the effect that the method promises.
 */
module MethodsAreSteps {
  import opened Outcomes
  import opened Bytes
  import opened PipeState
  import opened Server
  import I = InPipeServer
  import M = SharedMemory
  import H = Handoff
  import T = Task6Server

  // ----- a worker that nobody disturbs -----

  /** What the system answers to a worker whose start or mapping is to be granted, or not. */
  function Answer(pc: Pc, ok: bool): Choice {
    if (pc.StartRun? || pc.ShmMap?) && !ok then No else Yes
  }

  /** Each is the next statement of worker `w`; only a start or a mapping is refused, and only if not `ok`. */
  predicate ByWorker(es: seq<Step>, w: nat, ok: bool) {
    es == [] || ((es[0] == Work(w, Yes) || (es[0] == Work(w, No) && !ok)) && ByWorker(es[1..], w, ok))
  }

  lemma {:induction false} ByWorkerOn(es: seq<Step>, fs: seq<Step>, w: nat, ok: bool)
    requires ByWorker(es, w, ok) && ByWorker(fs, w, ok)
    ensures ByWorker(es + fs, w, ok)
  {
    if es == [] {
      assert es + fs == fs;
    } else {
      ByWorkerOn(es[1..], fs, w, ok);
      assert (es + fs)[1..] == es[1..] + fs;
    }
  }

  lemma {:induction false} ByWorkerAll(es: seq<Step>, w: nat, ok: bool)
    requires ByWorker(es, w, ok)
    ensures forall e :: e in es ==> e == Work(w, Yes) || (e == Work(w, No) && !ok)
  {
    if es != [] {
      ByWorkerAll(es[1..], w, ok);
      assert es == [es[0]] + es[1..];
    }
  }

  /** A proof says this where it looks into `Alone`; those that only put such facts together need not. */
  predicate LookInto(k: nat) {
    true
  }

  /** Worker `w`, alone, gets from `s` to `s'` in `n` statements. */
  ghost predicate Alone(s: State, w: nat, ok: bool, n: nat, s': State) {
    forall k: nat {:trigger LookInto(k)} :: LookInto(k) ==>
      exists es :: |es| == n && Leads(s, es, s') && ByWorker(es, w, ok)
  }

  lemma AloneOn(s: State, w: nat, ok: bool, n: nat, t: State, m: nat, u: State)
    requires Alone(s, w, ok, n, t) && Alone(t, w, ok, m, u)
    ensures Alone(s, w, ok, n + m, u)
  {
    assert LookInto(0);
    var es :| |es| == n && Leads(s, es, t) && ByWorker(es, w, ok);
    var fs :| |fs| == m && Leads(t, fs, u) && ByWorker(fs, w, ok);
    LeadsOn(s, es, t, fs, u);
    ByWorkerOn(es, fs, w, ok);
    AloneBy(s, w, ok, es + fs, u);
  }

  lemma AloneBy(s: State, w: nat, ok: bool, es: seq<Step>, s': State)
    requires Leads(s, es, s') && ByWorker(es, w, ok)
    ensures Alone(s, w, ok, |es|, s')
  {}

  /** Those are steps of the server, all of them this worker's. */
  lemma AloneLeads(s: State, w: nat, ok: bool, n: nat, s': State) returns (es: seq<Step>)
    requires Alone(s, w, ok, n, s')
    ensures Leads(s, es, s') && |es| == n
    ensures forall e :: e in es ==> e == Work(w, Yes) || (e == Work(w, No) && !ok)
  {
    assert LookInto(0);
    es :| |es| == n && Leads(s, es, s') && ByWorker(es, w, ok);
    ByWorkerAll(es, w, ok);
  }

  /** One statement. */
  lemma Statement(s: State, w: nat, ok: bool, s': State)
    requires w < |s.pcs| && CanWork(s, w, Answer(s.pcs[w], ok)) && s' == WorkStep(s, w, Answer(s.pcs[w], ok))
    ensures Alone(s, w, ok, 1, s')
  {
    var es := [Work(w, Answer(s.pcs[w], ok))];
    assert es[1..] == [];
    assert Leads(s', [], s') && Leads(s, es, s') && ByWorker(es, w, ok);
  }

  /** One more statement. */
  lemma AloneThen(s: State, w: nat, ok: bool, n: nat, t: State, u: State)
    requires Alone(s, w, ok, n, t)
    requires w < |t.pcs| && CanWork(t, w, Answer(t.pcs[w], ok)) && u == WorkStep(t, w, Answer(t.pcs[w], ok))
    ensures Alone(s, w, ok, n + 1, u)
  {
    Statement(t, w, ok, u);
    AloneOn(s, w, ok, n, t, 1, u);
  }

  // ----- what a worker changes in the pipe branch -----

  datatype Local = Local(pc: Pc, pipe: Pipe, log: Log, handled: seq<Message>)

  function Embed(s: State, w: nat, i: nat, l: Local): State
    requires w < |s.pcs| && i < |s.pipes|
  {
    s.(pcs := s.pcs[w := l.pc], pipes := s.pipes[i := l.pipe], log := l.log, handled := l.handled)
  }

  function LocalOf(s: State, w: nat, i: nat): Local
    requires w < |s.pcs| && i < |s.pipes|
  {
    Local(s.pcs[w], s.pipes[i], s.log, s.handled)
  }

  /** Worker `w`, alone, gets from `l` to `l'`; `ok` is the kernel's answer where a start asks for one. */
  ghost predicate Works(s: State, w: nat, i: nat, ok: bool, n: nat, l: Local, l': Local)
    requires w < |s.pcs| && i < |s.pipes|
  {
    Alone(Embed(s, w, i, l), w, ok, n, Embed(s, w, i, l'))
  }

  lemma WorksOn(s: State, w: nat, i: nat, ok: bool, n: nat, l: Local, k: Local, m: nat, l': Local)
    requires w < |s.pcs| && i < |s.pipes|
    requires Works(s, w, i, ok, n, l, k) && Works(s, w, i, ok, m, k, l')
    ensures Works(s, w, i, ok, n + m, l, l')
  {
    AloneOn(Embed(s, w, i, l), w, ok, n, Embed(s, w, i, k), m, Embed(s, w, i, l'));
  }

  /** One statement about instance `i`. */
  lemma OneStatement(s: State, w: nat, i: nat, ok: bool, l: Local)
    requires w < |s.pcs| && i < |s.pipes|
    requires CanWork(Embed(s, w, i, l), w, Answer(l.pc, ok)) && Instance(l.pc) == Some(i)
    ensures Works(s, w, i, ok, 1, l, LocalOf(WorkPipe(Embed(s, w, i, l), w, Answer(l.pc, ok), i), w, i))
  {
    var t, c := Embed(s, w, i, l), Answer(l.pc, ok);
    var t' := WorkPipe(t, w, c, i);
    assert WorkStep(t, w, c) == t';
    assert t' == Embed(s, w, i, LocalOf(t', w, i)) by {
      assert t'.pcs == s.pcs[w := t'.pcs[w]];
      assert t'.pipes == s.pipes[i := t'.pipes[i]];
    }
    Statement(t, w, ok, t');
  }

  lemma StatementThen(s: State, w: nat, i: nat, ok: bool, n: nat, l: Local, k: Local)
    requires w < |s.pcs| && i < |s.pipes| && Works(s, w, i, ok, n, l, k)
    requires CanWork(Embed(s, w, i, k), w, Answer(k.pc, ok)) && Instance(k.pc) == Some(i)
    ensures Works(s, w, i, ok, n + 1, l, LocalOf(WorkPipe(Embed(s, w, i, k), w, Answer(k.pc, ok), i), w, i))
  {
    OneStatement(s, w, i, ok, k);
    WorksOn(s, w, i, ok, n, l, k, 1, LocalOf(WorkPipe(Embed(s, w, i, k), w, Answer(k.pc, ok), i), w, i));
  }

  // ----- logging -----

  /** What `pushMessg` does to the log. */
  function AfterPush(log: Log, line: Line): Log {
    log.(queue := log.queue + [line], enqueued := log.enqueued + [line],
         semaphore := if log.semaphore < SEMAPHORE_MAX then log.semaphore + 1 else log.semaphore,
         refused := if log.semaphore < SEMAPHORE_MAX then log.refused else log.refused + 1)
  }

  lemma LogStatement(s: State, w: nat, ok: bool, s': State)
    requires w < |s.pcs| && s.pcs[w].Push? && (s.pcs[w].stage.Entering? ==> s.log.lock.None?)
    requires s' == WorkLog(s, w, s.pcs[w].stage, s.pcs[w].line, s.pcs[w].next)
    ensures Alone(s, w, ok, 1, s')
  {
    Statement(s, w, ok, s');
  }

  lemma LogThen(s: State, w: nat, ok: bool, n: nat, t: State, u: State)
    requires Alone(s, w, ok, n, t)
    requires w < |t.pcs| && t.pcs[w].Push? && (t.pcs[w].stage.Entering? ==> t.log.lock.None?)
    requires u == WorkLog(t, w, t.pcs[w].stage, t.pcs[w].line, t.pcs[w].next)
    ensures Alone(s, w, ok, n + 1, u)
  {
    AloneThen(s, w, ok, n, t, u);
  }

  /** `pushMessg`, alone, is its four statements. */
  lemma PushIsSteps(s: State, w: nat, ok: bool, line: Line, next: Pc, s': State)
    requires w < |s.pcs| && s.pcs[w] == Say(line, next) && s.log.lock.None?
    requires s' == s.(pcs := s.pcs[w := next], log := AfterPush(s.log, line))
    ensures Alone(s, w, ok, 4, s')
  {
    var queued := s.(pcs := s.pcs[w := Push(Leaving, line, next)],
                     log := s.log.(lock := Some(Worker(w)), queue := s.log.queue + [line],
                                   enqueued := s.log.enqueued + [line]));
    PushQueues(s, w, ok, line, next, queued);
    PushReleases(queued, w, ok, line, next, s');
    AloneOn(s, w, ok, 2, queued, 2, s');
  }

  lemma PushQueues(s: State, w: nat, ok: bool, line: Line, next: Pc, s': State)
    requires w < |s.pcs| && s.pcs[w] == Say(line, next) && s.log.lock.None?
    requires s' == s.(pcs := s.pcs[w := Push(Leaving, line, next)],
                      log := s.log.(lock := Some(Worker(w)), queue := s.log.queue + [line],
                                    enqueued := s.log.enqueued + [line]))
    ensures Alone(s, w, ok, 2, s')
  {
    var s1 := s.(pcs := s.pcs[w := Push(Enqueuing, line, next)], log := s.log.(lock := Some(Worker(w))));
    LogStatement(s, w, ok, s1);
    LogThen(s, w, ok, 1, s1, s');
  }

  lemma PushReleases(s: State, w: nat, ok: bool, line: Line, next: Pc, s': State)
    requires w < |s.pcs| && s.pcs[w] == Push(Leaving, line, next)
    requires var more := s.log.semaphore < SEMAPHORE_MAX;
             s' == s.(pcs := s.pcs[w := next],
                      log := s.log.(lock := None,
                                    semaphore := if more then s.log.semaphore + 1 else s.log.semaphore,
                                    refused := if more then s.log.refused else s.log.refused + 1))
    ensures Alone(s, w, ok, 2, s')
  {
    var s1 := s.(pcs := s.pcs[w := Push(Releasing, line, next)], log := s.log.(lock := None));
    LogStatement(s, w, ok, s1);
    LogThen(s, w, ok, 1, s1, s');
  }

  lemma LocalPush(s: State, w: nat, i: nat, ok: bool, l: Local, line: Line, next: Pc)
    requires w < |s.pcs| && i < |s.pipes| && l.pc == Say(line, next) && l.log.lock.None?
    ensures Works(s, w, i, ok, 4, l, l.(pc := next, log := AfterPush(l.log, line)))
  {
    PushIsSteps(Embed(s, w, i, l), w, ok, line, next,
                Embed(s, w, i, l.(pc := next, log := AfterPush(l.log, line))));
  }

  // ----- the pipe branch -----

  /** A pipe packet, from its dispatch to the log line about its result, or about the exception. */
  lemma ServiceIsSteps(s: State, w: nat, i: nat, ok: bool, l: Local, p: PipePacket) returns (n: nat, l': Local)
    requires w < |s.pcs| && i < |s.pipes| && l.pc == SvcEnter(i, p) && l.pipe.lock.None?
    ensures Works(s, w, i, ok, n, l, l')
    ensures var outcome := Serve(l.pipe.mode, p.errorCode);
            if outcome.Returns? then
              var r := Result(outcome.operation, p.errorCode, if l.pipe.mode.FlagKind().Read? then p.bytes else 0,
                              outcome.mode, outcome.zombie);
              l' == l.(pc := Say(Completed(i, r), Served(i, r)), pipe := l.pipe.(mode := outcome.mode))
            else
              l' == l.(pc := Say(Caught, AtPort))
  {
    var l1 := l.(pc := SvcRun(i, p), pipe := l.pipe.(lock := Some(w)));
    OneStatement(s, w, i, ok, l);
    StatementThen(s, w, i, ok, 1, l, l1);
    var l2 := LocalOf(WorkPipe(Embed(s, w, i, l1), w, Yes, i), w, i);
    StatementThen(s, w, i, ok, 2, l, l2);
    n, l' := 3, LocalOf(WorkPipe(Embed(s, w, i, l2), w, Yes, i), w, i);
  }

  predicate IsMessage(r: Result) {
    r.operation.Read? && r.errorCode == ERROR_SUCCESS && !r.zombie
  }

  /** The terminator, the line and the handler, if there is a message. */
  function Handled(l: Local, i: nat, r: Result): Local
    requires IsMessage(r) ==> r.bytes < |l.pipe.buf|
  {
    if IsMessage(r) then
      var text := UpToNul(l.pipe.buf[..r.bytes]);
      Local(Restart(i, r), l.pipe.(buf := l.pipe.buf[r.bytes := 0]), AfterPush(l.log, Received(i, text)),
            l.handled + [PipeMessage(i, text)])
    else
      l.(pc := Restart(i, r))
  }

  /** The line about a message, and the handler. */
  lemma MessageIsSteps(s: State, w: nat, i: nat, ok: bool, l: Local, r: Result) returns (n: nat)
    requires w < |s.pcs| && i < |s.pipes| && l.pc == Terminated(i, r) && l.log.lock.None?
    ensures var text := UpToNul(l.pipe.buf);
            Works(s, w, i, ok, n, l, Local(Restart(i, r), l.pipe, AfterPush(l.log, Received(i, text)),
                                            l.handled + [PipeMessage(i, text)]))
  {
    var text := UpToNul(l.pipe.buf);
    var l1 := l.(pc := HandlePipe(i, r), log := AfterPush(l.log, Received(i, text)));
    ReceivedIsSaid(s, w, i, ok, l, r);
    StatementThen(s, w, i, ok, 5, l, l1);
    n := 6;
  }

  lemma ReceivedIsSaid(s: State, w: nat, i: nat, ok: bool, l: Local, r: Result)
    requires w < |s.pcs| && i < |s.pipes| && l.pc == Terminated(i, r) && l.log.lock.None?
    ensures Works(s, w, i, ok, 5, l, l.(pc := HandlePipe(i, r),
                                        log := AfterPush(l.log, Received(i, UpToNul(l.pipe.buf)))))
  {
    var line := Received(i, UpToNul(l.pipe.buf));
    var l1 := l.(pc := Say(line, HandlePipe(i, r)));
    OneStatement(s, w, i, ok, l);
    LocalPush(s, w, i, ok, l1, line, HandlePipe(i, r));
    WorksOn(s, w, i, ok, 1, l, l1, 4, l.(pc := HandlePipe(i, r), log := AfterPush(l.log, line)));
  }

  /** From the logged result to the choice of the next start. */
  lemma HandlingIsSteps(s: State, w: nat, i: nat, ok: bool, l: Local, r: Result) returns (n: nat)
    requires w < |s.pcs| && i < |s.pipes| && l.pc == Served(i, r) && l.log.lock.None?
    requires IsMessage(r) ==> r.bytes < |l.pipe.buf|
    ensures Works(s, w, i, ok, n, l, Handled(l, i, r))
  {
    OneStatement(s, w, i, ok, l);
    n := 1;
    if IsMessage(r) {
      var buf := l.pipe.buf[r.bytes := 0];
      var l1 := l.(pc := Terminated(i, r), pipe := l.pipe.(buf := buf));
      TerminatedString(buf, l.pipe.buf[..r.bytes]);
      var message := MessageIsSteps(s, w, i, ok, l1, r);
      WorksOn(s, w, i, ok, n, l, l1, message, Handled(l, i, r));
      n := n + message;
    }
  }

  /** From the kernel's answer to the line about it. */
  lemma StartEnds(s: State, w: nat, i: nat, ok: bool, l: Local, kind: Kind) returns (n: nat)
    requires w < |s.pcs| && i < |s.pipes| && l.pc == StartLeave(i, kind, ok) && l.log.lock.None?
    ensures var line := if ok then Began(i, kind) else Caught;
            Works(s, w, i, ok, n, l, l.(pc := AtPort, pipe := l.pipe.(lock := None), log := AfterPush(l.log, line)))
  {
    var line := if ok then Began(i, kind) else Caught;
    var l1 := l.(pc := Say(line, AtPort), pipe := l.pipe.(lock := None));
    OneStatement(s, w, i, ok, l);
    LocalPush(s, w, i, ok, l1, line, AtPort);
    n := 5;
    WorksOn(s, w, i, ok, 1, l, l1, 4, l1.(pc := AtPort, log := AfterPush(l.log, line)));
  }

  /** Up to there: the operation in the kernel and the flag, or neither. */
  lemma StartBegins(s: State, w: nat, i: nat, ok: bool, l: Local, kind: Kind) returns (n: nat)
    requires w < |s.pcs| && i < |s.pipes| && l.pc == StartEnter(i, kind) && l.pipe.lock.None?
    requires AfterStart(l.pipe.mode, kind).Some?
    ensures Works(s, w, i, ok, n, l, Answered(l, w, i, kind, ok))
  {
    var l1 := l.(pc := StartRun(i, kind), pipe := l.pipe.(lock := Some(w)));
    OneStatement(s, w, i, ok, l);
    if ok {
      n := StartAccepted(s, w, i, l1, kind);
    } else {
      OneStatement(s, w, i, ok, l1);
      n := 1;
    }
    WorksOn(s, w, i, ok, 1, l, l1, n, Answered(l, w, i, kind, ok));
    n := 1 + n;
  }

  function Answered(l: Local, w: nat, i: nat, kind: Kind, ok: bool): Local
    requires AfterStart(l.pipe.mode, kind).Some?
  {
    var pipe := l.pipe.(lock := Some(w));
    l.(pc := StartLeave(i, kind, ok),
       pipe := if ok then pipe.(mode := AfterStart(l.pipe.mode, kind).value,
                                running := l.pipe.running + [RequestFor(kind, l.pipe.buf)])
               else pipe)
  }

  lemma StartAccepted(s: State, w: nat, i: nat, l: Local, kind: Kind) returns (n: nat)
    requires w < |s.pcs| && i < |s.pipes| && l.pc == StartRun(i, kind) && l.pipe.lock == Some(w)
    requires AfterStart(l.pipe.mode, kind).Some?
    ensures Works(s, w, i, true, n, l, Answered(l, w, i, kind, true))
  {
    var l1 := l.(pc := StartIssued(i, kind),
                 pipe := l.pipe.(running := l.pipe.running + [RequestFor(kind, l.pipe.buf)]));
    OneStatement(s, w, i, true, l);
    StatementThen(s, w, i, true, 1, l, l1);
    n := 2;
  }

  function Restarted(l: Local, i: nat, r: Result, ok: bool): Local
    requires r.newMode == l.pipe.mode && (r.newMode.Unconnected? || r.newMode.Connected?)
  {
    var kind := if r.newMode.Unconnected? then Connect else Read;
    if ok then
      Local(AtPort, l.pipe.(mode := AfterStart(l.pipe.mode, kind).value,
                            running := l.pipe.running + [RequestFor(kind, l.pipe.buf)]),
            AfterPush(l.log, Began(i, kind)), l.handled)
    else
      l.(pc := AtPort, log := AfterPush(l.log, Caught))
  }

  /** One start, from its choice by the reported state. */
  lemma RestartIsSteps(s: State, w: nat, i: nat, ok: bool, l: Local, r: Result) returns (n: nat)
    requires w < |s.pcs| && i < |s.pipes| && l.pc == Restart(i, r) && l.pipe.lock.None? && l.log.lock.None?
    requires r.newMode == l.pipe.mode && (r.newMode.Unconnected? || r.newMode.Connected?)
    ensures Works(s, w, i, ok, n, l, Restarted(l, i, r, ok))
  {
    var kind := if r.newMode.Unconnected? then Connect else Read;
    var l1 := l.(pc := StartEnter(i, kind));
    OneStatement(s, w, i, ok, l);
    var begins := StartBegins(s, w, i, ok, l1, kind);
    var l2 := Answered(l1, w, i, kind, ok);
    var ends := StartEnds(s, w, i, ok, l2, kind);
    var line := if ok then Began(i, kind) else Caught;
    WorksOn(s, w, i, ok, 1, l, l1, begins, l2);
    WorksOn(s, w, i, ok, 1 + begins, l, l2, ends,
            l2.(pc := AtPort, pipe := l2.pipe.(lock := None), log := AfterPush(l.log, line)));
    n := 1 + begins + ends;
  }

  /** What is left of a result, back at the port. */
  predicate Settled(l: Local, l': Local, i: nat, r: Result, ok: bool)
    requires r.newMode.Unconnected? || r.newMode.Connected?
  {
    var text := UpToNul(Front(l.pipe.buf, r.bytes));
    var kind := if r.newMode.Unconnected? then Connect else Read;
    && l'.pc == AtPort
    && l'.handled == l.handled + (if IsMessage(r) then [PipeMessage(i, text)] else [])
    && l'.log.queue == l.log.queue + [Completed(i, r)] + (if IsMessage(r) then [Received(i, text)] else []) +
                       [if ok then Began(i, kind) else Caught]
    && |l'.pipe.buf| == |l.pipe.buf| && l'.pipe.queued == l.pipe.queued
    && l'.pipe.lock.None? && l'.log.lock.None?
    && l'.pipe.mode == (if ok then AfterStart(r.newMode, kind).value else r.newMode)
    && l'.pipe.running == l.pipe.running + (if ok then [RequestFor(kind, l'.pipe.buf)] else [])
  }

  /** From the result of `service` to the port. */
  lemma ResultIsSteps(s: State, w: nat, i: nat, ok: bool, l: Local, r: Result) returns (n: nat, l': Local)
    requires w < |s.pcs| && i < |s.pipes| && l.pc == Say(Completed(i, r), Served(i, r))
    requires l.pipe.lock.None? && l.log.lock.None?
    requires r.newMode == l.pipe.mode && (r.newMode.Unconnected? || r.newMode.Connected?)
    requires IsMessage(r) ==> r.bytes < |l.pipe.buf|
    ensures Works(s, w, i, ok, n, l, l') && Settled(l, l', i, r, ok)
  {
    LocalPush(s, w, i, ok, l, Completed(i, r), Served(i, r));
    var l1 := l.(pc := Served(i, r), log := AfterPush(l.log, Completed(i, r)));
    var l2 := Handled(l1, i, r);
    var handling := HandlingIsSteps(s, w, i, ok, l1, r);
    var restart := RestartIsSteps(s, w, i, ok, l2, r);
    l' := Restarted(l2, i, r, ok);
    WorksOn(s, w, i, ok, 4, l, l1, handling, l2);
    WorksOn(s, w, i, ok, 4 + handling, l, l2, restart, l');
    n := 4 + handling + restart;
    HandledSettles(l, l1, i, r, ok);
  }

  lemma HandledSettles(l: Local, l1: Local, i: nat, r: Result, ok: bool)
    requires l1 == l.(pc := Served(i, r), log := AfterPush(l.log, Completed(i, r)))
    requires l.pipe.lock.None? && l.log.lock.None?
    requires r.newMode == l.pipe.mode && (r.newMode.Unconnected? || r.newMode.Connected?)
    requires IsMessage(r) ==> r.bytes < |l.pipe.buf|
    ensures Settled(l, Restarted(Handled(l1, i, r), i, r, ok), i, r, ok)
  {}

  /** What the kernel is asked for by an operation of the class. */
  function RequestOf(p: I.Pending): Request {
    Request(p.op.kind, if p.target.Into? then p.target.size else 0)
  }

  /** The object and the instance of the step system agree, when no packet of the instance is under way. */
  predicate Shows(v: I.View, pipe: Pipe) {
    && v.mode == pipe.mode && |v.outstanding| == |pipe.running|
    && forall k :: 0 <= k < |pipe.running| ==> pipe.running[k] == RequestOf(v.outstanding[k])
  }

  /** What the method promises of one packet. */
  predicate AsPromised(l: Local, l': Local, i: nat, p: PipePacket, v: I.View, reply: I.Reply, buffer: array<Byte>) {
    var outcome, data := Serve(l.pipe.mode, p.errorCode), Front(l.pipe.buf, p.bytes);
    var result := I.ServiceResult(l.pipe.mode, i, p.bytes, p.errorCode);
    && l'.pc == AtPort
    && l'.handled == l.handled + T.Task6Server.Handed(i, outcome, p.errorCode, data)
    && T.Task6Server.Said(l.log.queue, l'.log.queue, i, result, outcome, data, reply)
    && Shows(T.Task6Server.AfterPacket(v, outcome, reply, buffer), l'.pipe)
    && |l'.pipe.buf| == |l.pipe.buf| && l'.pipe.queued == l.pipe.queued
    && l'.pipe.lock.None? && l'.log.lock.None?
  }

  /**
   * The pipe branch on one packet: a worker that nobody disturbs hands over, logs and starts what the method
   * `PipePacket` of the server promises, in the same order, and leaves the instance as the method does.
   */
  lemma PacketIsSteps(s: State, w: nat, i: nat, l: Local, p: PipePacket, v: I.View, reply: I.Reply,
                      buffer: array<Byte>)
    returns (n: nat, l': Local, ok: bool)
    requires w < |s.pcs| && i < |s.pipes| && !s.ctl.event && l.pc == Got(FromPipe(i, p))
    requires l.pipe.lock.None? && l.log.lock.None? && v.mode == l.pipe.mode
    requires l.pipe.running == [] && |l.pipe.buf| == DATA_BUFFER_SIZE
    requires l.pipe.mode.Reading? && p.errorCode == ERROR_SUCCESS ==> p.bytes <= DATA_BUFFER_SIZE - 1
    ensures Works(s, w, i, ok, n, l, l') && AsPromised(l, l', i, p, v, reply, buffer)
  {
    var outcome := Serve(l.pipe.mode, p.errorCode);
    ok := if outcome.Returns? && outcome.mode.Unconnected? then I.Accepts(Connect, reply) else I.Accepts(Read, reply);
    var l1 := l.(pc := SvcEnter(i, p));
    Dispatched(s, w, i, ok, l, p);
    var service, l2 := ServiceIsSteps(s, w, i, ok, l1, p);
    WorksOn(s, w, i, ok, 1, l, l1, service, l2);
    n := 1 + service;
    var rest: nat;
    if outcome.Returns? {
      rest, l' := ResultIsSteps(s, w, i, ok, l2, l2.pc.line.r);
      SettledAsPromised(l, l2, l', i, p, v, reply, buffer, ok);
    } else {
      LocalPush(s, w, i, ok, l2, Caught, AtPort);
      rest := 4;
      l' := l2.(pc := AtPort, log := AfterPush(l2.log, Caught));
    }
    WorksOn(s, w, i, ok, n, l, l2, rest, l');
    n := n + rest;
  }

  lemma SettledAsPromised(l: Local, l1: Local, l': Local, i: nat, p: PipePacket, v: I.View, reply: I.Reply,
                          buffer: array<Byte>, ok: bool)
    requires v.mode == l.pipe.mode && l.pipe.running == [] && |l.pipe.buf| == DATA_BUFFER_SIZE
    requires l1.handled == l.handled && l1.log == l.log && l1.pipe.buf == l.pipe.buf && l1.pipe.running == []
    requires l1.pipe.queued == l.pipe.queued
    requires var outcome := Serve(l.pipe.mode, p.errorCode);
             && outcome.Returns?
             && ok == I.Accepts(if outcome.mode.Unconnected? then Connect else Read, reply)
             && Settled(l1, l', i, Result(outcome.operation, p.errorCode,
                                          if l.pipe.mode.FlagKind().Read? then p.bytes else 0,
                                          outcome.mode, outcome.zombie), ok)
    ensures AsPromised(l, l', i, p, v, reply, buffer)
  {
    EncodeInjective(Serve(l.pipe.mode, p.errorCode).mode, Connected);
  }

  lemma Dispatched(s: State, w: nat, i: nat, ok: bool, l: Local, p: PipePacket)
    requires w < |s.pcs| && i < |s.pipes| && !s.ctl.event && l.pc == Got(FromPipe(i, p))
    ensures Works(s, w, i, ok, 1, l, l.(pc := SvcEnter(i, p)))
  {
    var l' := l.(pc := SvcEnter(i, p));
    assert WorkStep(Embed(s, w, i, l), w, Yes) == Embed(s, w, i, l');
    Statement(Embed(s, w, i, l), w, ok, Embed(s, w, i, l'));
  }

  /** So the method and the steps of the worker end alike when they begin alike. */
  method RunPacket(server: T.Task6Server, i: nat, reply: I.Reply, ghost s: State, ghost w: nat, ghost l: Local,
                   p: PipePacket)
    returns (ghost n: nat, ghost l': Local, ghost ok: bool)
    requires server.Valid() && server.Genuine(i, p.bytes, p.errorCode)
    requires w < |s.pcs| && i < |s.pipes| && !s.ctl.event && l.pc == Got(FromPipe(i, p))
    requires l.pipe.lock.None? && l.log.lock.None? && l.pipe.running == []
    requires server.handled == l.handled && server.messages.queue == l.log.queue
    requires server.pipeServer.pipes[i].view.mode == l.pipe.mode && server.pipeSvBuffers[i][..] == l.pipe.buf
    modifies server`handled, server.messages, server.pipeServer.pipes, server.pipeSvBuffers[i]
    ensures Works(s, w, i, ok, n, l, l') && l'.pc == AtPort
    ensures server.Valid() && server.pipeServer == old(server.pipeServer)
    ensures server.handled == l'.handled && server.messages.queue == l'.log.queue
    ensures Shows(server.pipeServer.pipes[i].view, l'.pipe)
  {
    assert server.pipeServer.pipes[i].Coded();
    n, l', ok := PacketIsSteps(s, w, i, l, p, server.pipeServer.pipes[i].view, reply, server.pipeSvBuffers[i]);
    var serviced := server.PipePacket(i, p.bytes, p.errorCode, reply);
  }

  // ----- the log's readers -----

  /** `n` steps of the same kind. */
  function Repeat(e: Step, n: nat): seq<Step> {
    if n == 0 then [] else [e] + Repeat(e, n - 1)
  }

  /** `popMessg`, alone, on a positive count: the first line, and one less to count. */
  lemma PopIsSteps(s: State, p: nat) returns (s': State)
    requires p < |s.log.poppers| && s.log.poppers[p].Idle? && s.log.lock.None?
    requires s.log.semaphore > 0 && s.log.queue != []
    ensures Leads(s, Repeat(Pop(p), 4), s')
    ensures s' == s.(log := s'.log) && s'.log.lock.None? && s'.log.poppers == s.log.poppers
    ensures s.log.queue == [s.log.queue[0]] + s'.log.queue && s'.log.semaphore == s.log.semaphore - 1
    ensures s'.log.popped == s.log.popped + [s.log.queue[0]] && s'.log.enqueued == s.log.enqueued
  {
    var s1 := Apply(s, Pop(p));
    var s2 := Apply(s1, Pop(p));
    var s3 := Apply(s2, Pop(p));
    s' := Apply(s3, Pop(p));
    assert s'.log.poppers == s.log.poppers;
    assert Leads(s', [], s');
    LeadsFirst(s3, Pop(p), Repeat(Pop(p), 0), s');
    LeadsFirst(s2, Pop(p), Repeat(Pop(p), 1), s');
    LeadsFirst(s1, Pop(p), Repeat(Pop(p), 2), s');
    LeadsFirst(s, Pop(p), Repeat(Pop(p), 3), s');
  }

  // ----- the shared memory -----

  /** The end of `writeData`: the write is over, and the server is signalled. */
  lemma CopyEnds(s: State, c: nat, data: seq<Byte>, k: nat) returns (s': State)
    requires c < |s.shm.clients| && s.shm.clients[c] == Writing(data, k) && k == |data|
    ensures Leads(s, Repeat(ClientStep(c), 2), s')
    ensures s' == s.(shm := s.shm.(clToSv := true, messages := s.shm.messages + [data],
                                   clients := s.shm.clients[c := Away]))
  {
    var e, s1 := ClientStep(c), Apply(s, ClientStep(c));
    s' := Apply(s1, e);
    assert Leads(s', [], s');
    LeadsFirst(s1, e, Repeat(e, 0), s');
    LeadsFirst(s, e, Repeat(e, 1), s');
  }

  /** `writeData` from its `k`-th byte on, with `before` in the memory when it began. */
  lemma {:induction false} CopyIsSteps(s: State, c: nat, data: seq<Byte>, k: nat, before: seq<Byte>) returns (s': State)
    requires c < |s.shm.clients| && s.shm.clients[c] == Writing(data, k)
    requires k <= |data| <= |before| == |s.shm.mem| && s.shm.mem == data[..k] + before[k..]
    ensures Leads(s, Repeat(ClientStep(c), |data| - k + 2), s')
    ensures s' == s.(shm := s.shm.(mem := M.Overlay(before, data), clToSv := true,
                                   messages := s.shm.messages + [data], clients := s.shm.clients[c := Away]))
    decreases |data| - k
  {
    if k < |data| {
      var e, s1 := ClientStep(c), Apply(s, ClientStep(c));
      H.ByteLands(s.shm.mem, data, before, k);
      s' := CopyIsSteps(s1, c, data, k + 1, before);
      LeadsFirst(s, e, Repeat(e, |data| - k + 1), s');
    } else {
      assert data[..k] == data;
      s' := CopyEnds(s, c, data, k);
    }
  }

  /** `writeData`, alone, on a signalled event: the memory overlaid, the event consumed and the server signalled. */
  lemma WriteIsSteps(s: State, c: nat, data: seq<Byte>) returns (s': State)
    requires c < |s.shm.clients| && s.shm.clients[c].Away? && s.shm.svToCl && |data| <= |s.shm.mem|
    ensures Leads(s, [ClientBegin(c, data)] + Repeat(ClientStep(c), |data| + 2), s')
    ensures s' == s.(shm := s.shm.(svToCl := false, clToSv := true, mem := M.Overlay(s.shm.mem, data),
                                   messages := s.shm.messages + [data]))
  {
    var s1 := Apply(s, ClientBegin(c, data));
    s' := CopyIsSteps(s1, c, data, 0, s.shm.mem);
    LeadsFirst(s, ClientBegin(c, data), Repeat(ClientStep(c), |data| + 2), s');
    assert s.shm.clients[c := Writing(data, 0)][c := Away] == s.shm.clients;
  }

  predicate AtShm(pc: Pc) {
    Instance(pc).None? && !pc.AtPort? && !pc.Got? && !pc.Push?
  }

  lemma ShmStatement(s: State, w: nat, ok: bool, s': State)
    requires w < |s.pcs| && CanWork(s, w, Answer(s.pcs[w], ok)) && AtShm(s.pcs[w])
    requires s' == WorkShm(s, w, Answer(s.pcs[w], ok))
    ensures Alone(s, w, ok, 1, s')
  {
    Statement(s, w, ok, s');
  }

  lemma ShmThen(s: State, w: nat, ok: bool, n: nat, t: State, u: State)
    requires Alone(s, w, ok, n, t)
    requires w < |t.pcs| && CanWork(t, w, Answer(t.pcs[w], ok)) && AtShm(t.pcs[w])
    requires u == WorkShm(t, w, Answer(t.pcs[w], ok))
    ensures Alone(s, w, ok, n + 1, u)
  {
    AloneThen(s, w, ok, n, t, u);
  }

  /** One byte of the loop of `getData`. */
  lemma ReadByte(s: State, w: nat, ok: bool, k: nat) returns (s': State)
    requires w < |s.pcs| && s.pcs[w] == ShmCopy(k) && |s.shm.buf| == |s.shm.mem| > 0 && k <= |s.shm.mem|
    requires s.shm.buf[..k] == s.shm.mem[..k] && 0 !in s.shm.mem[..k]
    ensures Alone(s, w, ok, 1, s')
    ensures |s'.shm.buf| == |s.shm.buf|
    ensures if k < |s.shm.mem| && s.shm.mem[k] != 0 then
              && s' == s.(pcs := s.pcs[w := ShmCopy(k + 1)], shm := s.shm.(buf := s'.shm.buf))
              && s'.shm.buf[..k + 1] == s.shm.mem[..k + 1] && 0 !in s.shm.mem[..k + 1]
            else
              && s' == s.(pcs := s.pcs[w := ShmSignal], shm := s.shm.(buf := s'.shm.buf))
              && UpToNul(s'.shm.buf) == M.Delivered(s.shm.mem)
  {
    var mem, buf := s.shm.mem, s.shm.buf;
    H.CopyByte(buf, mem, k);
    if k < |mem| && mem[k] != 0 {
      s' := s.(pcs := s.pcs[w := ShmCopy(k + 1)], shm := s.shm.(buf := buf[k := mem[k]]));
    } else {
      var at := if k < |mem| then k else 0;
      s' := s.(pcs := s.pcs[w := ShmSignal], shm := s.shm.(buf := buf[at := 0]));
    }
    ShmStatement(s, w, ok, s');
  }

  /** The loop, up to the NUL it copies or the end of the memory. */
  lemma {:induction false} ReadIsSteps(s: State, w: nat, ok: bool, k: nat) returns (n: nat, s': State)
    requires w < |s.pcs| && s.pcs[w] == ShmCopy(k) && |s.shm.buf| == |s.shm.mem| > 0 && k <= |s.shm.mem|
    requires s.shm.buf[..k] == s.shm.mem[..k] && 0 !in s.shm.mem[..k]
    ensures Alone(s, w, ok, n, s')
    ensures s' == s.(pcs := s.pcs[w := ShmSignal], shm := s.shm.(buf := s'.shm.buf))
    ensures |s'.shm.buf| == |s.shm.buf| && UpToNul(s'.shm.buf) == M.Delivered(s.shm.mem)
    decreases |s.shm.mem| - k
  {
    n := 1;
    s' := ReadByte(s, w, ok, k);
    if s'.pcs[w].ShmCopy? {
      var s1 := s';
      n, s' := ReadIsSteps(s1, w, ok, k + 1);
      AloneOn(s, w, ok, 1, s1, n, s');
      n := 1 + n;
    }
  }

  /**
   * `getData`, alone, with a buffer as long as the memory: the delivered string in the buffer and the next client
   * admitted, or, where the memory cannot be mapped, nothing.
   */
  lemma GetIsSteps(s: State, w: nat, mapped: bool) returns (n: nat, s': State)
    requires w < |s.pcs| && s.pcs[w].ShmInner? && s.shm.inner.None? && |s.shm.buf| == |s.shm.mem| > 0
    ensures Alone(s, w, mapped, n, s')
    ensures !mapped ==> s' == s.(pcs := s.pcs[w := ShmLeave(false)])
    ensures mapped ==>
              && s' == s.(pcs := s.pcs[w := ShmHandle], shm := s.shm.(svToCl := true, buf := s'.shm.buf))
              && |s'.shm.buf| == |s.shm.buf| && UpToNul(s'.shm.buf) == M.Delivered(s.shm.mem)
  {
    var s1 := MappingAnswered(s, w, mapped);
    if mapped {
      n, s' := CopiedAndSignalled(s1, w);
    } else {
      n, s' := 1, s.(pcs := s.pcs[w := ShmLeave(false)]);
      ShmStatement(s1, w, mapped, s');
    }
    AloneOn(s, w, mapped, 2, s1, n, s');
    n := 2 + n;
  }

  lemma MappingAnswered(s: State, w: nat, mapped: bool) returns (s': State)
    requires w < |s.pcs| && s.pcs[w].ShmInner? && s.shm.inner.None?
    ensures Alone(s, w, mapped, 2, s')
    ensures s' == s.(pcs := s.pcs[w := if mapped then ShmCopy(0) else ShmLeaveInner(false)],
                     shm := s.shm.(inner := Some(w)))
  {
    var s1 := s.(pcs := s.pcs[w := ShmMap], shm := s.shm.(inner := Some(w)));
    s' := s1.(pcs := s.pcs[w := if mapped then ShmCopy(0) else ShmLeaveInner(false)]);
    ShmStatement(s, w, mapped, s1);
    ShmThen(s, w, mapped, 1, s1, s');
  }

  lemma CopiedAndSignalled(s: State, w: nat) returns (n: nat, s': State)
    requires w < |s.pcs| && s.pcs[w] == ShmCopy(0) && |s.shm.buf| == |s.shm.mem| > 0
    ensures Alone(s, w, true, n, s')
    ensures s' == s.(pcs := s.pcs[w := ShmHandle], shm := s.shm.(svToCl := true, inner := None, buf := s'.shm.buf))
    ensures |s'.shm.buf| == |s.shm.buf| && UpToNul(s'.shm.buf) == M.Delivered(s.shm.mem)
  {
    var copy, s1 := ReadIsSteps(s, w, true, 0);
    s' := s1.(pcs := s.pcs[w := ShmHandle], shm := s1.shm.(svToCl := true, inner := None));
    Signalled(s1, w, s');
    AloneOn(s, w, true, copy, s1, 2, s');
    n := copy + 2;
  }

  lemma Signalled(s: State, w: nat, s': State)
    requires w < |s.pcs| && s.pcs[w].ShmSignal?
    requires s' == s.(pcs := s.pcs[w := ShmHandle], shm := s.shm.(svToCl := true, inner := None))
    ensures Alone(s, w, true, 2, s')
  {
    var s1 := s.(pcs := s.pcs[w := ShmLeaveInner(true)], shm := s.shm.(svToCl := true));
    ShmStatement(s, w, true, s1);
    ShmThen(s, w, true, 1, s1, s');
  }

  /**
   * The shared-memory branch on one packet: a worker that nobody disturbs says so, hands over what the memory
   * delivers, and is back at the port; where the memory cannot be mapped it says that it caught an exception instead.
   */
  lemma SharedPacketIsSteps(s: State, w: nat, mapped: bool) returns (n: nat, s': State)
    requires w < |s.pcs| && s.pcs[w] == Got(FromShm) && !s.ctl.event
    requires s.shm.outer.None? && s.shm.inner.None? && s.log.lock.None? && |s.shm.buf| == |s.shm.mem| > 0
    ensures Alone(s, w, mapped, n, s')
    ensures s' == s.(pcs := s.pcs[w := AtPort], shm := s'.shm, log := s'.log, handled := s'.handled)
    ensures s'.shm == s.shm.(svToCl := s.shm.svToCl || mapped, buf := s'.shm.buf) && s'.log.lock.None?
    ensures s'.log.queue == s.log.queue + [GotShm] + (if mapped then [] else [Caught])
    ensures s'.handled == s.handled + (if mapped then [ShmMessage(M.Delivered(s.shm.mem))] else [])
  {
    var s1 := SharedPacketEntered(s, w, mapped);
    n, s' := SharedPacketRead(s1, w, mapped);
    AloneOn(s, w, mapped, 6, s1, n, s');
    n := 6 + n;
  }

  lemma SharedPacketRead(s: State, w: nat, mapped: bool) returns (n: nat, s': State)
    requires w < |s.pcs| && s.pcs[w].ShmInner? && s.shm.inner.None? && s.log.lock.None?
    requires |s.shm.buf| == |s.shm.mem| > 0
    ensures Alone(s, w, mapped, n, s')
    ensures s' == s.(pcs := s.pcs[w := AtPort], shm := s'.shm, log := s'.log, handled := s'.handled)
    ensures s'.shm == s.shm.(outer := None, svToCl := s.shm.svToCl || mapped, buf := s'.shm.buf)
    ensures s'.log == if mapped then s.log else AfterPush(s.log, Caught)
    ensures s'.handled == s.handled + (if mapped then [ShmMessage(M.Delivered(s.shm.mem))] else [])
  {
    var get, s1 := GetIsSteps(s, w, mapped);
    if mapped {
      n := 2;
      s' := SharedPacketHandled(s1, w);
    } else {
      n := 5;
      s' := SharedPacketFailed(s1, w);
    }
    AloneOn(s, w, mapped, get, s1, n, s');
    n := get + n;
  }

  lemma SharedPacketEntered(s: State, w: nat, ok: bool) returns (s': State)
    requires w < |s.pcs| && s.pcs[w] == Got(FromShm) && !s.ctl.event && s.shm.outer.None? && s.log.lock.None?
    ensures Alone(s, w, ok, 6, s')
    ensures s' == s.(pcs := s.pcs[w := ShmInner], shm := s.shm.(outer := Some(w)), log := AfterPush(s.log, GotShm))
  {
    var s2 := s.(pcs := s.pcs[w := ShmEnter], log := AfterPush(s.log, GotShm));
    s' := s2.(pcs := s.pcs[w := ShmInner], shm := s.shm.(outer := Some(w)));
    SaidSharedPacket(s, w, ok, s2);
    ShmThen(s, w, ok, 5, s2, s');
  }

  lemma SaidSharedPacket(s: State, w: nat, ok: bool, s': State)
    requires w < |s.pcs| && s.pcs[w] == Got(FromShm) && !s.ctl.event && s.log.lock.None?
    requires s' == s.(pcs := s.pcs[w := ShmEnter], log := AfterPush(s.log, GotShm))
    ensures Alone(s, w, ok, 5, s')
  {
    var s1 := s.(pcs := s.pcs[w := Say(GotShm, ShmEnter)]);
    SharedPacketDispatched(s, w, ok, s1);
    PushIsSteps(s1, w, ok, GotShm, ShmEnter, s');
    AloneOn(s, w, ok, 1, s1, 4, s');
  }

  lemma SharedPacketDispatched(s: State, w: nat, ok: bool, s': State)
    requires w < |s.pcs| && s.pcs[w] == Got(FromShm) && !s.ctl.event
    requires s' == s.(pcs := s.pcs[w := Say(GotShm, ShmEnter)])
    ensures Alone(s, w, ok, 1, s')
  {
    Statement(s, w, ok, s');
  }

  lemma SharedPacketHandled(s: State, w: nat) returns (s': State)
    requires w < |s.pcs| && s.pcs[w].ShmHandle?
    ensures Alone(s, w, true, 2, s')
    ensures s' == s.(pcs := s.pcs[w := AtPort], shm := s.shm.(outer := None),
                     handled := s.handled + [ShmMessage(UpToNul(s.shm.buf))])
  {
    var s1 := s.(pcs := s.pcs[w := ShmLeave(true)], handled := s.handled + [ShmMessage(UpToNul(s.shm.buf))]);
    s' := s1.(pcs := s.pcs[w := AtPort], shm := s.shm.(outer := None));
    ShmStatement(s, w, true, s1);
    ShmThen(s, w, true, 1, s1, s');
  }

  lemma SharedPacketFailed(s: State, w: nat) returns (s': State)
    requires w < |s.pcs| && s.pcs[w] == ShmLeave(false) && s.log.lock.None?
    ensures Alone(s, w, false, 5, s')
    ensures s' == s.(pcs := s.pcs[w := AtPort], shm := s.shm.(outer := None), log := AfterPush(s.log, Caught))
  {
    var s1 := s.(pcs := s.pcs[w := Say(Caught, AtPort)], shm := s.shm.(outer := None));
    s' := s1.(pcs := s.pcs[w := AtPort], log := AfterPush(s.log, Caught));
    ShmStatement(s, w, false, s1);
    PushIsSteps(s1, w, false, Caught, AtPort, s');
    AloneOn(s, w, false, 1, s1, 4, s');
  }

  // ----- the waiter -----

  /** The waiter posts one packet for each signal of a client, and is back in its wait. */
  lemma WaiterServes(s: State)
    requires s.shm.waiter.Waiting? && s.shm.clToSv
    ensures Leads(s, Repeat(Wait, 2), s.(shm := s.shm.(clToSv := false, packets := s.shm.packets + 1)))
  {
    var s1 := Apply(s, Wait);
    var s2 := Apply(s1, Wait);
    assert Leads(s2, [], s2);
    LeadsFirst(s1, Wait, Repeat(Wait, 0), s2);
    LeadsFirst(s, Wait, Repeat(Wait, 1), s2);
  }

  /** Told to stop, it serves a signal that it finds in its wait first, and only then leaves. */
  lemma WaiterLeaves(s: State)
    requires s.shm.waiter.Waiting? && s.shm.stop
    ensures Leads(s, Repeat(Wait, if s.shm.clToSv then 3 else 1),
                  s.(shm := s.shm.(waiter := Gone, clToSv := false,
                                   packets := s.shm.packets + if s.shm.clToSv then 1 else 0)))
  {
    var last := s.(shm := s.shm.(waiter := Gone, clToSv := false,
                                 packets := s.shm.packets + if s.shm.clToSv then 1 else 0));
    assert Leads(last, [], last);
    if s.shm.clToSv {
      var s1 := Apply(s, Wait);
      var s2 := Apply(s1, Wait);
      LeadsFirst(s2, Wait, Repeat(Wait, 0), last);
      LeadsFirst(s1, Wait, Repeat(Wait, 1), last);
      LeadsFirst(s, Wait, Repeat(Wait, 2), last);
    } else {
      LeadsFirst(s, Wait, Repeat(Wait, 0), last);
    }
  }

  /** The destructor of the shared-memory server, once the server has stopped, makes a waiting waiter leave so. */
  lemma DestroyIsSteps(s: State)
    requires s.ctl.stopper.Stopped? && s.shm.waiter.Waiting?
    ensures Leads(s, [DestroyShm] + Repeat(Wait, if s.shm.clToSv then 3 else 1),
                  s.(shm := s.shm.(stop := true, waiter := Gone, clToSv := false,
                                   packets := s.shm.packets + if s.shm.clToSv then 1 else 0)))
  {
    var s1 := Apply(s, DestroyShm);
    WaiterLeaves(s1);
    LeadsFirst(s, DestroyShm, Repeat(Wait, if s.shm.clToSv then 3 else 1),
               s1.(shm := s1.shm.(waiter := Gone, clToSv := false,
                                  packets := s1.shm.packets + if s1.shm.clToSv then 1 else 0)));
  }

  // ----- the end of a worker -----

  /** An exit packet, or any packet once the event is set: the worker drops it, says that it shuts down, and exits. */
  lemma ExitIsSteps(s: State, w: nat, ok: bool, s': State)
    requires w < |s.pcs| && s.pcs[w].Got? && (s.pcs[w].packet.ExitNow? || s.ctl.event) && s.log.lock.None?
    requires s' == s.(pcs := s.pcs[w := Exited], log := AfterPush(s.log, ShutDown))
    ensures Alone(s, w, ok, 5, s')
  {
    var s1 := s.(pcs := s.pcs[w := Say(ShutDown, Exited)]);
    ExitChosen(s, w, ok, s1);
    PushIsSteps(s1, w, ok, ShutDown, Exited, s');
    AloneOn(s, w, ok, 1, s1, 4, s');
  }

  lemma ExitChosen(s: State, w: nat, ok: bool, s': State)
    requires w < |s.pcs| && s.pcs[w].Got? && (s.pcs[w].packet.ExitNow? || s.ctl.event)
    requires s' == s.(pcs := s.pcs[w := Say(ShutDown, Exited)])
    ensures Alone(s, w, ok, 1, s')
  {
    Statement(s, w, ok, s');
  }

  /** A failure of the port: the worker says so, says that it shuts down, and exits. */
  lemma PortFailureIsSteps(s: State, w: nat, s': State)
    requires w < |s.pcs| && s.pcs[w].AtPort? && s.log.lock.None?
    requires s' == s.(pcs := s.pcs[w := Exited], log := AfterPush(AfterPush(s.log, PortFailed), ShutDown))
    ensures Enabled(s, Work(w, No)) && PortFailure(s, Work(w, No), w)
    ensures Alone(Apply(s, Work(w, No)), w, true, 8, s')
  {
    var s1 := s.(pcs := s.pcs[w := Say(PortFailed, Say(ShutDown, Exited))]);
    var s2 := s.(pcs := s.pcs[w := Say(ShutDown, Exited)], log := AfterPush(s.log, PortFailed));
    assert Apply(s, Work(w, No)) == s1;
    PushIsSteps(s1, w, true, PortFailed, Say(ShutDown, Exited), s2);
    PushIsSteps(s2, w, true, ShutDown, Exited, s');
    AloneOn(s1, w, true, 4, s2, 4, s');
  }

  // ----- the stop -----

  /** The posts of `stopAndWait`, one for each worker that is left. */
  lemma {:induction false} PostsAreSteps(s: State, posted: nat, s': State)
    requires s.ctl.stopper == Stopping(posted) && posted <= |s.pcs|
    requires s' == s.(ctl := s.ctl.(exits := s.ctl.exits + (|s.pcs| - posted), stopper := Stopping(|s.pcs|)))
    ensures Leads(s, Repeat(Stop, |s.pcs| - posted), s')
    decreases |s.pcs| - posted
  {
    if posted < |s.pcs| {
      PostsAreSteps(Apply(s, Stop), posted + 1, s');
      LeadsFirst(s, Stop, Repeat(Stop, |s.pcs| - posted - 1), s');
    }
  }

  /**
   * `stopAndWait`, alone: the event, one exit packet per worker, and, only when all of them have exited, no pipe
   * server any more; without workers nothing but the event.
   */
  lemma StopIsSteps(s: State) returns (s': State)
    requires s.ctl.stopper.Running?
    ensures Leads(s, Repeat(Stop, |s.pcs| + 1) + (if |s.pcs| > 0 && AllExited(s) then [Stop] else []), s')
    ensures s' == s.(ctl := s'.ctl) && s'.ctl.event && s'.ctl.exits == s.ctl.exits + |s.pcs|
    ensures s'.ctl.pipeServer == (s.ctl.pipeServer && !(|s.pcs| > 0 && AllExited(s)))
    ensures s'.ctl.stopper.Stopped? <==> |s.pcs| == 0 || AllExited(s)
    ensures !s'.ctl.stopper.Stopped? ==> !Enabled(s', Stop)
  {
    var s1 := Apply(s, Stop);
    if |s.pcs| == 0 {
      s' := s1;
    } else {
      s' := s1.(ctl := s1.ctl.(exits := s1.ctl.exits + |s.pcs|, stopper := Stopping(|s.pcs|)));
      PostsAreSteps(s1, 0, s');
    }
    LeadsFirst(s, Stop, Repeat(Stop, |s.pcs|), s');
    if |s.pcs| > 0 && AllExited(s) {
      LeadsFurther(s, Repeat(Stop, |s.pcs| + 1), s', Stop);
      s' := Apply(s', Stop);
    } else {
      assert Repeat(Stop, |s.pcs| + 1) + [] == Repeat(Stop, |s.pcs| + 1);
    }
  }
}
