/**
 * One pipe instance as the program runs it: any number of threads call any of its four methods at any time, the
 * kernel moves at any time, and a method is several steps under the instance's critical section. The kernel call
 * that starts an operation and the update of the state are separate steps.
 */
module LockedPipe {
  import opened Outcomes
  import opened PipeState
  import A = AtomicPipe

  datatype Call = Start(kind: Kind) | Disconnect | Service(p: A.Packet)

  /** Where a thread stands in a method of the instance. */
  datatype Pc =
    | Idle
    | Entering(call: Call)     // before the critical section
    | Inside(call: Call)       // entered, nothing done
    | Issued(kind: Kind)       // the kernel accepted the operation, the state is not yet written
    | Disconnected             // the kernel disconnected or cancelled, the state is not yet written
    | Leaving                  // done or throwing, about to leave the critical section

  datatype State = State(
    mode: Mode,
    epoch: nat,
    lock: Option<nat>,
    pcs: seq<Pc>,
    running: seq<A.Op>,
    queued: seq<A.Packet>,
    reports: seq<A.Report>,
    lost: bool,
    stray: bool
  )

  /** `ok` is the kernel's answer, where a step asks for one. */
  datatype Step =
    | Begin(t: nat, call: Call)
    | Take(t: nat)
    | Enter(t: nat)
    | Act(t: nat, ok: bool)
    | Leave(t: nat)
    | Complete(errorCode: nat)
    | Lose

  predicate At(s: State, t: nat) {
    t < |s.pcs|
  }

  predicate Enabled(s: State, e: Step) {
    match e
    case Begin(t, call) => At(s, t) && s.pcs[t].Idle? && !call.Service?
    case Take(t) => At(s, t) && s.pcs[t].Idle? && s.queued != []
    case Enter(t) => At(s, t) && s.pcs[t].Entering? && s.lock.None?
    case Act(t, _) => At(s, t) && (s.pcs[t].Inside? || s.pcs[t].Issued? || s.pcs[t].Disconnected?)
    case Leave(t) => At(s, t) && s.pcs[t].Leaving?
    case Complete(_) => s.running != []
    case Lose => s.running != []
  }

  function To(s: State, t: nat, pc: Pc): State
    requires At(s, t)
  {
    s.(pcs := s.pcs[t := pc])
  }

  /** The body of a method, one statement at a time. */
  function Body(s: State, t: nat, ok: bool): State
    requires Enabled(s, Act(t, ok))
  {
    match s.pcs[t]
    case Inside(Start(kind)) =>
      if AfterStart(s.mode, kind).None? || !ok then To(s, t, Leaving)
      else To(s, t, Issued(kind)).(running := s.running + [A.Op(kind, s.epoch)])
    case Inside(Disconnect) =>
      To(s, t, if AfterDisconnect(s.mode).None? || !ok then Leaving else Disconnected)
    case Inside(Service(p)) =>
      var outcome := Serve(s.mode, p.errorCode);
      To(s, t, Leaving).(
        reports := s.reports + [A.Report(p.op, s.epoch, outcome)],
        mode := if outcome.Returns? then outcome.mode else s.mode,
        stray := s.stray || outcome.ThrowsStray?)
    case Issued(kind) =>
      To(s, t, Leaving).(mode := if kind.Connect? then Connecting else Reading)
    case Disconnected =>
      To(s, t, Leaving).(
        mode := if AfterDisconnect(s.mode).Some? then AfterDisconnect(s.mode).value else s.mode,
        epoch := s.epoch + 1)
  }

  function Apply(s: State, e: Step): State
    requires Enabled(s, e)
  {
    match e
    case Begin(t, call) => To(s, t, Entering(call))
    case Take(t) => To(s, t, Entering(Service(s.queued[0]))).(queued := s.queued[1..])
    case Enter(t) => To(s, t, Inside(s.pcs[t].call)).(lock := Some(t))
    case Act(t, ok) => Body(s, t, ok)
    case Leave(t) => To(s, t, Idle).(lock := None)
    case Complete(errorCode) => s.(running := s.running[1..], queued := s.queued + [A.Packet(s.running[0], errorCode)])
    case Lose => s.(running := s.running[1..], lost := true)
  }

  ghost predicate Next(s: State, s': State) {
    exists e :: Enabled(s, e) && s' == Apply(s, e)
  }

  predicate Init(s: State) {
    && s.mode == Unconnected && s.epoch == 0 && s.lock.None?
    && (forall t :: 0 <= t < |s.pcs| ==> s.pcs[t].Idle?)
    && s.running == [] && s.queued == [] && s.reports == []
    && !s.lost && !s.stray
  }

  ghost predicate IsRun(run: seq<State>) {
    && |run| > 0 && Init(run[0])
    && forall i, j :: 0 <= i && j == i + 1 < |run| ==> Next(run[i], run[j])
  }

  // ----- the atomic instance behind it -----

  predicate InSection(pc: Pc) {
    !pc.Idle? && !pc.Entering?
  }

  /** The state that counts: an accepted start counts at once, although its flag is not written yet. */
  function ModeOf(s: State): Mode {
    if s.lock.Some? && At(s, s.lock.value) && s.pcs[s.lock.value].Issued? then
      if s.pcs[s.lock.value].kind.Connect? then Connecting else Reading
    else
      s.mode
  }

  function HeldBy(pc: Pc): Option<A.Packet> {
    match pc
    case Entering(Service(p)) => Some(p)
    case Inside(Service(p)) => Some(p)
    case _ => None
  }

  function Abs(s: State): A.State {
    A.State(ModeOf(s), s.epoch, s.running, s.queued,
      seq(|s.pcs|, t requires 0 <= t < |s.pcs| => HeldBy(s.pcs[t])), s.reports, s.lost, s.stray)
  }

  /** Mutual exclusion, and what the owner of the section may rely on between its kernel call and its write. */
  ghost predicate LockInv(s: State) {
    && (forall t: nat :: At(s, t) ==> (InSection(s.pcs[t]) <==> s.lock == Some(t)))
    && (s.lock.Some? ==> At(s, s.lock.value))
    && (forall t: nat :: At(s, t) && s.pcs[t].Issued? ==> AfterStart(s.mode, s.pcs[t].kind).Some?)
    && (forall t: nat :: At(s, t) && s.pcs[t].Disconnected? ==> AfterDisconnect(s.mode).Some?)
  }

  /** A thread in the body of a method stays in the section, and only its own words about the mode are at stake. */
  lemma BodyKeepsLockInv(s: State, t: nat, ok: bool)
    requires LockInv(s) && Enabled(s, Act(t, ok))
    ensures LockInv(Body(s, t, ok))
  {
    assert InSection(s.pcs[t]) <==> s.lock == Some(t);
    OwnerMoves(s, Body(s, t, ok), t);
  }

  lemma OwnerMoves(s: State, s': State, t: nat)
    requires LockInv(s) && At(s, t) && s.lock == Some(t) && s'.lock == s.lock
    requires At(s', t) && s'.pcs == s.pcs[t := s'.pcs[t]] && InSection(s'.pcs[t])
    requires s'.pcs[t].Issued? ==> AfterStart(s'.mode, s'.pcs[t].kind).Some?
    requires s'.pcs[t].Disconnected? ==> AfterDisconnect(s'.mode).Some?
    ensures LockInv(s')
  {}

  lemma StepKeepsLockInv(s: State, e: Step)
    requires LockInv(s) && Enabled(s, e)
    ensures LockInv(Apply(s, e))
  {
    if e.Act? {
      BodyKeepsLockInv(s, e.t, e.ok);
    }
  }

  /** Which step of the atomic instance a step stands for; a call takes effect at its kernel call or its write. */
  function Image(s: State, e: Step): Option<A.Step>
    requires Enabled(s, e)
  {
    match e
    case Take(t) => Some(A.Take(t))
    case Complete(errorCode) => Some(A.Complete(errorCode))
    case Lose => Some(A.Lose)
    case Act(t, ok) => (
      match s.pcs[t]
      case Inside(Start(kind)) => if AfterStart(s.mode, kind).Some? && ok then Some(A.Start(kind)) else None
      case Inside(Service(_)) => Some(A.DoService(t))
      case Disconnected => Some(A.Disconnect)
      case _ => None)
    case _ => None
  }

  /** `service` takes effect as one step, because nobody else is between a kernel call and its write. */
  lemma ServiceRefines(s: State, t: nat, ok: bool)
    requires LockInv(s) && Enabled(s, Act(t, ok)) && s.pcs[t].Inside? && s.pcs[t].call.Service?
    ensures A.Enabled(Abs(s), A.DoService(t)) && Abs(Body(s, t, ok)) == A.Apply(Abs(s), A.DoService(t))
  {
    assert InSection(s.pcs[t]) <==> s.lock == Some(t);
    assert A.Enabled(Abs(s), A.DoService(t));
    assert Abs(Body(s, t, ok)).held == A.Apply(Abs(s), A.DoService(t)).held;
  }

  lemma BodyRefines(s: State, t: nat, ok: bool)
    requires LockInv(s) && Enabled(s, Act(t, ok)) && !(s.pcs[t].Inside? && s.pcs[t].call.Service?)
    ensures var s', image := Body(s, t, ok), Image(s, Act(t, ok));
            if image.None? then Abs(s') == Abs(s)
            else A.Enabled(Abs(s), image.value) && Abs(s') == A.Apply(Abs(s), image.value)
  {
    assert InSection(s.pcs[t]) <==> s.lock == Some(t);
    assert Abs(Body(s, t, ok)).held == Abs(s).held;
  }

  /** Every step of the locked instance is its image in the atomic instance, or no step of it. */
  lemma StepRefines(s: State, e: Step)
    requires LockInv(s) && Enabled(s, e)
    ensures var s', image := Apply(s, e), Image(s, e);
            if image.None? then Abs(s') == Abs(s)
            else A.Enabled(Abs(s), image.value) && Abs(s') == A.Apply(Abs(s), image.value)
  {
    var s', image := Apply(s, e), Image(s, e);
    match e
    case Act(t, ok) =>
      if s.pcs[t].Inside? && s.pcs[t].call.Service? {
        ServiceRefines(s, t, ok);
      } else {
        BodyRefines(s, t, ok);
      }
    case Take(t) => assert Abs(s').held == A.Apply(Abs(s), image.value).held;
    case Complete(_) =>
    case Lose =>
    case _ => assert Abs(s').held == Abs(s).held;
  }

  // ----- one call that nobody disturbs -----

  /** The whole of a call, from the entry into the critical section to its end. */
  function CallAlone(s: State, t: nat, ok: bool): State
    requires At(s, t) && s.pcs[t].Entering? && s.lock.None?
  {
    var s1 := Apply(s, Enter(t));
    var s2 := Apply(s1, Act(t, ok));
    var s3 := if s2.pcs[t].Leaving? then s2 else Apply(s2, Act(t, ok));
    Apply(s3, Leave(t))
  }

  /** It is accepted exactly when the machine and the kernel allow it, and then has the effect of the one step. */
  lemma CallTakesEffect(s: State, t: nat, ok: bool)
    requires LockInv(s) && At(s, t) && s.pcs[t].Entering? && s.lock.None?
    ensures var s', call := CallAlone(s, t, ok), s.pcs[t].call;
            && s'.pcs == s.pcs[t := Idle] && s'.lock.None?
            && match call
               case Start(kind) =>
                 var accepted := AfterStart(s.mode, kind).Some? && ok;
                 && s'.mode == (if accepted then AfterStart(s.mode, kind).value else s.mode) && s'.epoch == s.epoch
                 && s'.running == s.running + (if accepted then [A.Op(kind, s.epoch)] else [])
               case Disconnect =>
                 var accepted := AfterDisconnect(s.mode).Some? && ok;
                 && s'.mode == (if accepted then AfterDisconnect(s.mode).value else s.mode)
                 && s'.epoch == (if accepted then s.epoch + 1 else s.epoch) && s'.running == s.running
               case Service(p) =>
                 var outcome := Serve(s.mode, p.errorCode);
                 && s'.mode == (if outcome.Returns? then outcome.mode else s.mode)
                 && s'.epoch == s.epoch && s'.running == s.running
                 && s'.reports == s.reports + [A.Report(p.op, s.epoch, outcome)]
  {}

  // ----- what holds in every run -----

  ghost predicate Inv(s: State) {
    LockInv(s) && A.Inv(Abs(s))
  }

  lemma StepKeepsInv(s: State, e: Step)
    requires Inv(s) && Enabled(s, e)
    ensures Inv(Apply(s, e))
    ensures s.lost || s.stray ==> (Apply(s, e).lost || Apply(s, e).stray) && Apply(s, e).reports == s.reports
  {
    StepKeepsLockInv(s, e);
    StepRefines(s, e);
    if Image(s, e).Some? {
      A.StepKeepsInv(Abs(s), Image(s, e).value);
      if s.lost || s.stray {
        A.BlockedForGood(Abs(s), Image(s, e).value);
      }
    }
  }

  lemma NextKeepsInv(s: State, s': State)
    requires Inv(s) && Next(s, s')
    ensures Inv(s')
    ensures s.lost || s.stray ==> (s'.lost || s'.stray) && s'.reports == s.reports
  {
    var e :| Enabled(s, e) && s' == Apply(s, e);
    StepKeepsInv(s, e);
  }

  lemma {:induction false} RunKeepsInv(run: seq<State>, k: nat)
    requires IsRun(run) && k < |run|
    ensures Inv(run[k])
  {
    if k == 0 {
      A.InitInv(Abs(run[0]));
    } else {
      RunKeepsInv(run, k - 1);
      NextKeepsInv(run[k - 1], run[k]);
    }
  }

  /** No run confuses connections: every call of `service`, in any run, gives the right verdict. */
  lemma ServiceNeverConfusesConnections(run: seq<State>, k: nat, j: nat)
    requires IsRun(run) && k < |run| && j < |run[k].reports|
    ensures A.ReportRight(run[k].reports[j])
  {
    RunKeepsInv(run, k);
  }

  /** Wherever an operation could next be accepted, none is outstanding, of this connection or of an older one. */
  lemma NoStartOverOutstanding(run: seq<State>, k: nat, e: Step)
    requires IsRun(run) && k < |run| && Enabled(run[k], e)
    requires |Apply(run[k], e).running| > |run[k].running|
    ensures A.NoneOutstanding(Abs(run[k]))
  {
    RunKeepsInv(run, k);
  }

  /** At most one operation is outstanding, and it is the one the flags name; without a flag there is none. */
  lemma OutstandingIsNamed(run: seq<State>, k: nat)
    requires IsRun(run) && k < |run|
    ensures A.AtMostOneOutstanding(Abs(run[k]))
    ensures A.OutstandingNamedByFlags(Abs(run[k]))
    ensures !ModeOf(run[k]).Flagged() ==> A.NoneOutstanding(Abs(run[k]))
  {
    RunKeepsInv(run, k);
  }

  lemma DeadStep(run: seq<State>, k: nat)
    requires IsRun(run) && k + 1 < |run|
    ensures run[k].lost || run[k].stray ==>
              (run[k + 1].lost || run[k + 1].stray) && run[k + 1].reports == run[k].reports
  {
    RunKeepsInv(run, k);
    NextKeepsInv(run[k], run[k + 1]);
  }

  lemma {:induction false} DeadStays(run: seq<State>, k: nat, j: nat)
    requires IsRun(run) && k <= j < |run| && (run[k].lost || run[k].stray)
    ensures (run[j].lost || run[j].stray) && run[j].reports == run[k].reports
    decreases j
  {
    if k < j {
      DeadStays(run, k, j - 1);
      DeadStep(run, j - 1);
    }
  }

  /**
   * A flag promises an outstanding operation exactly until a completion is lost or a cancelled connect succeeds.
   * From then on the instance is dead: no later state of the run starts an operation or services one.
   */
  lemma FlagWithoutOperation(run: seq<State>, k: nat, j: nat)
    requires IsRun(run) && k <= j < |run|
    ensures ModeOf(run[k]).Flagged() && A.NoneOutstanding(Abs(run[k])) <==> run[k].lost || run[k].stray
    ensures run[k].lost || run[k].stray ==> A.NoneOutstanding(Abs(run[j])) && run[j].reports == run[k].reports
  {
    RunKeepsInv(run, k);
    RunKeepsInv(run, j);
    if run[k].lost || run[k].stray {
      DeadStays(run, k, j);
    }
  }
}
