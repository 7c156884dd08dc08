/** Runs that reach what the code does not promise: each of these failures does happen. */
module Witnesses {
  import opened Outcomes
  import opened Bytes
  import opened PipeState
  import A = AtomicPipe
  import K = LockedPipe
  import I = InPipeServer
  import S = Server
  import R = ServerRuns
  import C = MethodsAreSteps
  import opened Sums

  // ----- a cancelled connect -----

  lemma RunFurther(run: seq<K.State>, e: K.Step, s': K.State) returns (longer: seq<K.State>)
    requires K.IsRun(run) && K.Enabled(run[|run| - 1], e) && s' == K.Apply(run[|run| - 1], e)
    ensures K.IsRun(longer) && longer[|longer| - 1] == s'
  {
    longer := run + [s'];
    assert K.Next(run[|run| - 1], s');
  }

  /** One thread connects the instance. */
  lemma RunToConnect() returns (run: seq<K.State>)
    ensures K.IsRun(run)
    ensures run[|run| - 1] == K.State(Connecting, 0, None, [K.Idle], [A.Op(Connect, 0)], [], [], false, false)
  {
    var s := K.State(Unconnected, 0, None, [K.Idle], [], [], [], false, false);
    run := [s];
    var s1 := s.(pcs := [K.Entering(K.Start(Connect))]);
    var s2 := s.(pcs := [K.Inside(K.Start(Connect))], lock := Some(0));
    var s3 := s2.(pcs := [K.Issued(Connect)], running := [A.Op(Connect, 0)]);
    var s4 := s3.(pcs := [K.Leaving], mode := Connecting);
    run := RunFurther(run, K.Begin(0, K.Start(Connect)), s1);
    run := RunFurther(run, K.Enter(0), s2);
    run := RunFurther(run, K.Act(0, true), s3);
    run := RunFurther(run, K.Act(0, true), s4);
    run := RunFurther(run, K.Leave(0), s4.(pcs := [K.Idle], lock := None));
  }

  /** It disconnects the instance before the connect has completed. */
  lemma RunToCancel() returns (run: seq<K.State>)
    ensures K.IsRun(run)
    ensures run[|run| - 1] == K.State(CancellingConnect, 1, None, [K.Idle], [A.Op(Connect, 0)], [], [], false, false)
  {
    run := RunToConnect();
    var s := run[|run| - 1];
    var s1 := s.(pcs := [K.Entering(K.Disconnect)]);
    var s2 := s.(pcs := [K.Inside(K.Disconnect)], lock := Some(0));
    var s3 := s2.(pcs := [K.Disconnected]);
    var s4 := s3.(pcs := [K.Leaving], mode := CancellingConnect, epoch := 1);
    run := RunFurther(run, K.Begin(0, K.Disconnect), s1);
    run := RunFurther(run, K.Enter(0), s2);
    run := RunFurther(run, K.Act(0, true), s3);
    run := RunFurther(run, K.Act(0, true), s4);
    run := RunFurther(run, K.Leave(0), s4.(pcs := [K.Idle], lock := None));
  }

  /**
   * The completion of the cancelled connect, serviced. Where it succeeded, `service` throws, and a flag stands with
   * nothing outstanding; where it failed, `service` reports a zombie, and calls the connect a read.
   */
  lemma CancelledConnect(errorCode: nat) returns (run: seq<K.State>)
    ensures K.IsRun(run)
    ensures var s := run[|run| - 1];
            && |s.reports| == 1 && s.reports[0].op == A.Op(Connect, 0) && s.reports[0].at == 1
            && A.NoneOutstanding(K.Abs(s)) && !s.lost
            && if errorCode == ERROR_SUCCESS then
                 s.stray && K.ModeOf(s).Flagged() && s.reports[0].outcome.ThrowsStray?
               else
                 !s.stray && s.reports[0].outcome == Returns(Unconnected, Read, true)
  {
    run := RunToCancel();
    var s := run[|run| - 1];
    var p := A.Packet(A.Op(Connect, 0), errorCode);
    var s1 := s.(running := [], queued := [p]);
    var s2 := s.(running := [], pcs := [K.Entering(K.Service(p))]);
    var s3 := s2.(pcs := [K.Inside(K.Service(p))], lock := Some(0));
    run := RunFurther(run, K.Complete(errorCode), s1);
    run := RunFurther(run, K.Take(0), s2);
    run := RunFurther(run, K.Enter(0), s3);
    var s4 := K.Apply(s3, K.Act(0, true));
    run := RunFurther(run, K.Act(0, true), s4);
    assert K.Abs(s4).held == [None];
  }

  // ----- a read that fails, and is not started again -----

  /** Steps from an initial state make a run. */
  lemma {:induction false} RunAlong(s: S.State, es: seq<S.Step>, s': S.State) returns (states: seq<S.State>)
    requires S.Leads(s, es, s')
    ensures |states| == |es| + 1 && states[0] == s && states[|es|] == s'
    ensures forall k :: 0 <= k < |es| ==> S.Enabled(states[k], es[k]) && states[k + 1] == S.Apply(states[k], es[k])
    decreases |es|
  {
    if es == [] {
      states := [s];
    } else {
      var rest := RunAlong(S.Apply(s, es[0]), es[1..], s');
      states := [s] + rest;
      forall k | 0 <= k < |es|
        ensures S.Enabled(states[k], es[k]) && states[k + 1] == S.Apply(states[k], es[k])
      {
        if k > 0 {
          assert es[1..][k - 1] == es[k];
        }
      }
    }
  }

  lemma RunFrom(s: S.State, es: seq<S.Step>, s': S.State) returns (r: S.Run)
    requires S.Init(s) && S.Leads(s, es, s')
    ensures r.Valid() && r.steps == es && r.states[|es|] == s'
  {
    var states := RunAlong(s, es, s');
    r := S.Run(states, es);
  }

  const SharedAtStart: S.Shm :=
    S.Shm(true, false, false, S.Waiting, 0, None, None, seq(DATA_BUFFER_SIZE, _ => 0), seq(DATA_BUFFER_SIZE, _ => 0),
          [], [])

  /** One worker and one instance, as the constructor leaves them. */
  const AtStart: S.State :=
    S.State([S.Say(S.Started, S.AtPort)],
            [S.Pipe(Connecting, None, [S.Request(Connect, 0)], [], seq(DATA_BUFFER_SIZE, _ => 0), [])],
            SharedAtStart, S.Log([], 0, None, [], [], [], 0), S.Control(false, 0, S.Running, true), [])

  /** The operation completes and the one worker takes its packet. */
  lemma Completed(s: S.State, errorCode: nat) returns (s': S.State)
    requires |s.pcs| == |s.pipes| == 1 && s.pcs[0].AtPort? && |s.pipes[0].running| == 1 && s.pipes[0].queued == []
    ensures S.Leads(s, [S.Complete(0, errorCode, 0), S.Work(0, S.Take(S.PipeSource(0)))], s')
    ensures |s'.pcs| == |s'.pipes| == 1
    ensures var l := C.LocalOf(s', 0, 0);
            && s' == C.Embed(s, 0, 0, l)
            && l.pc == S.Got(S.FromPipe(0, S.PipePacket(s.pipes[0].running[0].kind, errorCode, 0)))
            && l.log == s.log && l.pipe.mode == s.pipes[0].mode && l.pipe.lock == s.pipes[0].lock
            && l.pipe.running == [] && l.pipe.queued == [] && l.pipe.buf == s.pipes[0].buf
  {
    var s1 := S.Apply(s, S.Complete(0, errorCode, 0));
    s' := S.Apply(s1, S.Work(0, S.Take(S.PipeSource(0))));
    S.LeadsFurther(s, [], s, S.Complete(0, errorCode, 0));
    S.LeadsFurther(s, [S.Complete(0, errorCode, 0)], s1, S.Work(0, S.Take(S.PipeSource(0))));
    assert [] + [S.Complete(0, errorCode, 0)] == [S.Complete(0, errorCode, 0)];
    assert [S.Complete(0, errorCode, 0)] + [S.Work(0, S.Take(S.PipeSource(0)))] ==
           [S.Complete(0, errorCode, 0), S.Work(0, S.Take(S.PipeSource(0)))];
  }

  /** One operation completes, is handled, and the next start is answered. */
  lemma Round(s: S.State, errorCode: nat, reply: I.Reply, buffer: array<Byte>) returns (es: seq<S.Step>, s': S.State)
    requires |s.pcs| == |s.pipes| == 1 && s.pcs[0].AtPort? && |s.pipes[0].running| == 1 && s.pipes[0].queued == []
    requires s.pipes[0].mode.Connecting? || s.pipes[0].mode.Reading?
    requires s.pipes[0].lock.None? && s.log.lock.None? && |s.pipes[0].buf| == DATA_BUFFER_SIZE && !s.ctl.event
    ensures S.Leads(s, es, s') && forall e :: e in es ==> !e.Lose? && !e.Stop?
    ensures |s'.pcs| == |s'.pipes| == 1 && s'.pcs[0].AtPort? && s'.pipes[0].queued == []
    ensures s'.pipes[0].lock.None? && s'.log.lock.None? && |s'.pipes[0].buf| == DATA_BUFFER_SIZE && s'.ctl == s.ctl
    ensures if I.Accepts(Read, reply) then s'.pipes[0].mode.Reading? && |s'.pipes[0].running| == 1
            else s'.pipes[0].mode.Connected? && s'.pipes[0].running == []
  {
    var v := I.View(s.pipes[0].mode, 0, []);
    var s1 := Completed(s, errorCode);
    var l := C.LocalOf(s1, 0, 0);
    var n, l', ok :=
      C.PacketIsSteps(s, 0, 0, l, S.PipePacket(s.pipes[0].running[0].kind, errorCode, 0), v, reply, buffer);
    s' := C.Embed(s, 0, 0, l');
    var taken := [S.Complete(0, errorCode, 0), S.Work(0, S.Take(S.PipeSource(0)))];
    var handled := C.AloneLeads(s1, 0, ok, n, s');
    S.LeadsOn(s, taken, s1, handled, s');
    es := taken + handled;
  }

  lemma ReadFails(readError: nat, startError: nat, buffer: array<Byte>) returns (es: seq<S.Step>, s': S.State)
    requires readError != ERROR_SUCCESS && startError != ERROR_IO_PENDING
    ensures S.Leads(AtStart, es, s') && forall e :: e in es ==> !e.Lose? && !e.Stop?
    ensures |s'.pcs| == |s'.pipes| == 1 && s'.pcs[0].AtPort? && s'.pipes[0].mode.Connected?
    ensures s'.pipes[0].running == [] && s'.pipes[0].queued == [] && !s'.ctl.event
  {
    var l := C.LocalOf(AtStart, 0, 0);
    C.LocalPush(AtStart, 0, 0, true, l, S.Started, S.AtPort);
    var s1 := C.Embed(AtStart, 0, 0, l.(pc := S.AtPort, log := C.AfterPush(l.log, S.Started)));
    assert C.Embed(AtStart, 0, 0, l) == AtStart;
    var said := C.AloneLeads(AtStart, 0, true, 4, s1);
    var connect, s2 := Round(s1, ERROR_SUCCESS, I.Reply(true, 0), buffer);
    var read;
    read, s' := Round(s2, readError, I.Reply(false, startError), buffer);
    S.LeadsOn(AtStart, said, s1, connect, s2);
    S.LeadsOn(AtStart, said + connect, s2, read, s');
    es := said + connect + read;
  }

  lemma NobodyHolds(pcs: seq<S.Pc>)
    requires |pcs| == 1 && pcs[0].AtPort?
    ensures Sum(pcs, R.HoldsOne(0)) == 0
  {
    assert Sum(pcs[..0], R.HoldsOne(0)) == 0;
    assert R.HoldsOne(0)(pcs[0]) == 0;
  }

  /**
   * The connection is made, a read begins, it fails, say because the client is gone, and the next read is refused:
   * the instance is connected, but neither in the kernel nor in the port nor with a worker, although no completion
   * was lost and nobody stops the server.
   */
  lemma FailedReadDropsInstance(readError: nat, startError: nat, buffer: array<Byte>) returns (r: S.Run)
    requires readError != ERROR_SUCCESS && startError != ERROR_IO_PENDING
    ensures r.Valid() && forall e :: e in r.steps ==> !e.Lose? && !e.Stop?
    ensures var s := r.states[|r.steps|];
            && |s.pcs| == |s.pipes| == 1 && s.pipes[0].mode.Connected?
            && s.pipes[0].running == [] && s.pipes[0].queued == [] && Sum(s.pcs, R.HoldsOne(0)) == 0
  {
    var es, s' := ReadFails(readError, startError, buffer);
    r := RunFrom(AtStart, es, s');
    NobodyHolds(s'.pcs);
  }
}
