/**
 * One pipe instance whose four calls each happen in a single step. An epoch counts the successful disconnects,
 * so that an operation knows which connection it was started for; neither exists in the program.
 */
module AtomicPipe {
  import opened Outcomes
  import opened PipeState

  datatype Op = Op(kind: Kind, epoch: nat)
  datatype Packet = Packet(op: Op, errorCode: nat)

  /** What a call of `service` did with the completion of `op`, in the epoch `at`. */
  datatype Report = Report(op: Op, at: nat, outcome: Service)

  datatype State = State(
    mode: Mode,
    epoch: nat,
    running: seq<Op>,              // accepted by the kernel, not completed
    queued: seq<Packet>,           // completions waiting in the port
    held: seq<Option<Packet>>,     // per thread: the completion it took and has not serviced
    reports: seq<Report>,
    lost: bool,                    // an accepted operation never produced a packet
    stray: bool                    // a cancelled connect completed successfully
  )

  datatype Step =
    | Start(kind: Kind)
    | Disconnect
    | Complete(errorCode: nat)
    | Lose
    | Take(t: nat)
    | DoService(t: nat)

  predicate Holds(s: State, t: nat) {
    t < |s.held| && s.held[t].Some?
  }

  ghost predicate NoneOutstanding(s: State) {
    s.running == [] && s.queued == [] && forall t: nat :: !Holds(s, t)
  }

  predicate Enabled(s: State, e: Step) {
    match e
    case Start(kind) => AfterStart(s.mode, kind).Some?
    case Disconnect => AfterDisconnect(s.mode).Some?
    case Complete(_) => s.running != []
    case Lose => s.running != []
    case Take(t) => s.queued != [] && t < |s.held| && s.held[t].None?
    case DoService(t) => Holds(s, t)
  }

  function Apply(s: State, e: Step): State
    requires Enabled(s, e)
  {
    match e
    case Start(kind) => s.(mode := AfterStart(s.mode, kind).value, running := s.running + [Op(kind, s.epoch)])
    case Disconnect => s.(mode := AfterDisconnect(s.mode).value, epoch := s.epoch + 1)
    case Complete(errorCode) => s.(running := s.running[1..], queued := s.queued + [Packet(s.running[0], errorCode)])
    case Lose => s.(running := s.running[1..], lost := true)
    case Take(t) => s.(queued := s.queued[1..], held := s.held[t := Some(s.queued[0])])
    case DoService(t) =>
      var p := s.held[t].value;
      var outcome := Serve(s.mode, p.errorCode);
      s.(held := s.held[t := None],
         reports := s.reports + [Report(p.op, s.epoch, outcome)],
         mode := if outcome.Returns? then outcome.mode else s.mode,
         stray := s.stray || outcome.ThrowsStray?)
  }

  predicate Init(s: State) {
    && s.mode == Unconnected && s.epoch == 0
    && s.running == [] && s.queued == [] && s.reports == []
    && (forall t :: 0 <= t < |s.held| ==> s.held[t].None?)
    && !s.lost && !s.stray
  }

  // ----- the invariant -----

  ghost predicate AtMostOneOutstanding(s: State) {
    && |s.running| + |s.queued| <= 1
    && forall t: nat :: Holds(s, t) ==>
         s.running == [] && s.queued == [] && forall u: nat :: Holds(s, u) ==> u == t
  }

  /** The flags name this very operation, and DISCONNECTING tells whether its connection is already over. */
  predicate NamedByFlags(s: State, op: Op) {
    && s.mode.Flagged()
    && op.kind == s.mode.FlagKind()
    && (if s.mode.Cancelling() then op.epoch < s.epoch else op.epoch == s.epoch)
  }

  ghost predicate OutstandingNamedByFlags(s: State) {
    && (forall k :: 0 <= k < |s.running| ==> NamedByFlags(s, s.running[k]))
    && (forall k :: 0 <= k < |s.queued| ==> NamedByFlags(s, s.queued[k].op))
    && (forall t: nat :: Holds(s, t) ==> NamedByFlags(s, s.held[t].value.op))
  }

  /**
   * The verdict on one completion: it is called a zombie exactly when its connection was closed before it was
   * serviced, its kind is right except for a cancelled connect, which is reported as a read, and it never meets
   * the `default` branch.
   */
  predicate ReportRight(r: Report) {
    && !r.outcome.ThrowsUnexpected?
    && r.op.epoch <= r.at
    && (r.outcome.Returns? ==>
          && r.outcome.zombie == (r.op.epoch < r.at)
          && (r.outcome.operation == r.op.kind <==> !(r.outcome.zombie && r.op.kind.Connect?)))
  }

  ghost predicate Inv(s: State) {
    && AtMostOneOutstanding(s)
    && OutstandingNamedByFlags(s)
    && (!s.mode.Flagged() ==> NoneOutstanding(s))
    && (s.mode.Flagged() && NoneOutstanding(s) <==> s.lost || s.stray)
    && (forall k :: 0 <= k < |s.reports| ==> ReportRight(s.reports[k]))
  }

  lemma InitInv(s: State)
    requires Init(s)
    ensures Inv(s)
  {}

  lemma StepKeepsInv(s: State, e: Step)
    requires Inv(s) && Enabled(s, e)
    ensures Inv(Apply(s, e))
  {
    var s' := Apply(s, e);
    match e
    case Start(_) =>
      assert forall t: nat :: Holds(s, t) == Holds(s', t);
    case Disconnect =>
      assert forall t: nat :: Holds(s, t) == Holds(s', t);
    case Complete(_) =>
      assert forall t: nat :: Holds(s, t) == Holds(s', t);
    case Lose =>
      assert NamedByFlags(s, s.running[0]);
      assert forall t: nat :: Holds(s, t) == Holds(s', t);
    case Take(t) =>
      assert Holds(s', t);
      assert forall u: nat :: Holds(s', u) ==> u == t || Holds(s, u);
      assert NamedByFlags(s, s.queued[0].op);
    case DoService(t) =>
      assert NamedByFlags(s, s.held[t].value.op);
      assert forall u: nat :: Holds(s', u) ==> Holds(s, u);
  }

  /** An operation starts only when nothing is outstanding, so in particular no zombie is. */
  lemma StartNeedsQuiet(s: State, kind: Kind)
    requires Inv(s) && Enabled(s, Start(kind))
    ensures NoneOutstanding(s)
  {}

  /**
   * After a disconnect the instance can be connected again at once when nothing is outstanding, and otherwise not
   * before that is serviced.
   */
  lemma DisconnectReopens(s: State)
    requires Inv(s) && Enabled(s, Disconnect)
    ensures var s' := Apply(s, Disconnect);
            && !Enabled(s', Start(Read))
            && (Enabled(s', Start(Connect)) <==> NoneOutstanding(s) && !s.lost && !s.stray)
  {}

  /**
   * A genuine completion leaves the instance connected and ready for a read; a zombie leaves it ready for a connect.
   * Only a cancelled connect that succeeded leaves it with neither.
   */
  lemma ServiceLeavesStartable(s: State, t: nat)
    requires Inv(s) && Enabled(s, DoService(t))
    ensures var s', p := Apply(s, DoService(t)), s.held[t].value;
            var zombie := p.op.epoch < s.epoch;
            var thrown := zombie && p.op.kind.Connect? && p.errorCode == 0;
            && (s'.reports[|s.reports|].outcome.Returns? <==> !thrown)
            && (Enabled(s', Start(Read)) <==> !zombie)
            && (Enabled(s', Start(Connect)) <==> zombie && !thrown)
  {
    assert NamedByFlags(s, s.held[t].value.op);
  }

  /** A lost completion or a stray connect blocks the instance for good: no later step starts or reports anything. */
  lemma BlockedForGood(s: State, e: Step)
    requires Inv(s) && (s.lost || s.stray) && Enabled(s, e)
    ensures e == Disconnect
    ensures Apply(s, e).reports == s.reports && (Apply(s, e).lost || Apply(s, e).stray)
  {}
}
