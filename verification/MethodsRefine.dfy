/** Each method of the pipe server is a step of the atomic instance, so what runs keep, the class keeps. */
module MethodsRefine {
  import opened Outcomes
  import opened PipeState
  import opened InPipeServer
  import A = AtomicPipe

  ghost predicate Outstanding(s: A.State, op: A.Op) {
    || op in s.running
    || (exists k :: 0 <= k < |s.queued| && s.queued[k].op == op)
    || (exists t: nat :: A.Holds(s, t) && s.held[t].value.op == op)
  }

  /** The object and the state of the machine agree, and nothing is counted twice. */
  ghost predicate Shows(v: View, s: A.State) {
    && v.mode == s.mode && v.epoch == s.epoch
    && |v.outstanding| <= 1
    && (v.outstanding == [] <==> A.NoneOutstanding(s))
    && (v.outstanding != [] ==> Outstanding(s, v.outstanding[0].op))
  }

  /** A start is accepted exactly when the machine can start and the kernel agrees; a rejected one changes nothing. */
  lemma StartIsStep(v: View, v': View, k: Kind, target: Target, reply: Reply, r: Outcome<()>,
                    s: A.State)
    requires A.Inv(s) && Shows(v, s) && Started(v, v', k, target, reply, r)
    ensures r.Ok? <==> A.Enabled(s, A.Start(k)) && Accepts(k, reply)
    ensures r.Ok? ==> Shows(v', A.Apply(s, A.Start(k)))
    ensures r.Throws? ==> v' == v
  {
    if r.Ok? {
      var s' := A.Apply(s, A.Start(k));
      A.StartNeedsQuiet(s, k);
      assert v'.outstanding[0].op in s'.running;
    }
  }

  /** So on a startable instance it succeeds exactly when the kernel queues the operation, however it says so. */
  lemma StartFollowsKernel(v: View, v': View, k: Kind, target: Target, outcome: KernelOutcome, reply: Reply,
                           r: Outcome<()>)
    requires Tells(k, outcome, reply) && Started(v, v', k, target, reply, r)
    requires v.mode == if k.Connect? then Unconnected else Connected
    ensures r.Ok? <==> !outcome.Failed?
    ensures r.Ok? ==> v'.mode == (if k.Connect? then Connecting else Reading) && |v'.outstanding| == 1
    ensures outcome.Failed? ==> r == Throws(SystemError(outcome.code)) && v' == v
  {
    AcceptsWhatIsQueued(k, outcome, reply);
  }

  /** A call of `service` for a completion that some thread took reports what the machine reports. */
  lemma ServiceIsStep(v: View, v': View, index: nat, bytesTransferred: nat, r: Outcome<AsyncResult>,
                      s: A.State, t: nat)
    requires A.Inv(s) && Shows(v, s) && A.Enabled(s, A.DoService(t))
    requires Serviced(v, v', index, bytesTransferred, s.held[t].value.errorCode, r)
    ensures var s' := A.Apply(s, A.DoService(t));
            var report := s'.reports[|s.reports|];
            && Shows(v', s')
            && A.ReportRight(report)
            && (r.Ok? <==> report.outcome.Returns?)
            && (r.Ok? ==> r.value.bZombieOperation == (report.op.epoch < s.epoch))
  {
    var s' := A.Apply(s, A.DoService(t));
    A.StepKeepsInv(s, A.DoService(t));
    assert A.ReportRight(s'.reports[|s.reports|]);
    assert A.Holds(s, t);
    assert forall u: nat :: A.Holds(s', u) ==> A.Holds(s, u) && u != t;
  }

  lemma DisconnectIsStep(v: View, v': View, reply: Reply, r: Outcome<()>, s: A.State)
    requires A.Inv(s) && Shows(v, s) && DisconnectedAs(v, v', reply, r)
    ensures r.Ok? <==> A.Enabled(s, A.Disconnect) && reply.bResult
    ensures r.Ok? ==> Shows(v', A.Apply(s, A.Disconnect))
    ensures r.Throws? ==> v' == v
  {
    if r.Ok? {
      var s' := A.Apply(s, A.Disconnect);
      assert forall t: nat :: A.Holds(s, t) == A.Holds(s', t);
      if v.outstanding != [] {
        assert Outstanding(s', v.outstanding[0].op);
      }
    }
  }
}
