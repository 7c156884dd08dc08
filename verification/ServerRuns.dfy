/** What holds in every run of the server: any number of workers, pipes, clients and log readers, any interleaving. */
module ServerRuns {
  import opened Outcomes
  import opened PipeState
  import opened Server
  import opened Sums
  import P = PipeOwnership
  import R = PipeRefinement
  import L = SequentialLoop
  import H = Handoff
  import Q = LogQueue
  import D = Shutdown
  import W = WaiterEnd
  import F = DeadlockFreedom
  import M = SharedMemory

  // ----- the invariant of all components together -----

  function One(b: bool): nat {
    if b then 1 else 0
  }

  ghost predicate PipesInv(s: State, places: seq<P.Place>) {
    && |places| == |s.pipes|
    && forall i :: 0 <= i < |places| ==> P.PipeInv(s, i, places[i]) && L.Inv(R.Abs(s, i, places[i]))
  }

  ghost predicate Inv(s: State, places: seq<P.Place>, token: H.Token) {
    && AllResume(s) && AllInRange(s)
    && PipesInv(s, places)
    && H.Inv(s, token)
    && Q.Inv(s)
    && D.Inv(s) && W.StopsLast(s)
  }

  function PlacesAfter(s: State, e: Step, places: seq<P.Place>): seq<P.Place>
    requires Enabled(s, e) && |places| == |s.pipes|
  {
    seq(|places|, i requires 0 <= i < |places| => P.PlaceAfter(s, e, i, places[i]))
  }

  lemma StepKeepsPipes(s: State, e: Step, places: seq<P.Place>)
    requires AllResume(s) && PipesInv(s, places) && Enabled(s, e)
    ensures PipesInv(Apply(s, e), PlacesAfter(s, e, places))
  {
    var s', places' := Apply(s, e), PlacesAfter(s, e, places);
    forall i | 0 <= i < |places'| ensures P.PipeInv(s', i, places'[i]) && L.Inv(R.Abs(s', i, places'[i])) {
      StepKeepsPipe(s, e, i, places[i]);
    }
  }

  lemma StepKeepsPipe(s: State, e: Step, i: nat, place: P.Place)
    requires AllResume(s) && Enabled(s, e) && i < |s.pipes|
    requires P.PipeInv(s, i, place) && L.Inv(R.Abs(s, i, place))
    ensures P.PipeInv(Apply(s, e), i, P.PlaceAfter(s, e, i, place))
    ensures L.Inv(R.Abs(Apply(s, e), i, P.PlaceAfter(s, e, i, place)))
  {
    P.StepKeepsPipeInv(s, e, i, place);
    R.StepRefines(s, e, i, place);
    LoopKeepsInv(R.Abs(s, i, place), R.EventOf(s, e, i), R.Abs(Apply(s, e), i, P.PlaceAfter(s, e, i, place)));
  }

  lemma LoopKeepsInv(l: L.State, event: Option<L.Event>, l': L.State)
    requires L.Inv(l) && R.Follows(l, event, l')
    ensures L.Inv(l')
  {
    if event.Some? {
      L.StepKeepsInv(l, event.value);
    }
  }

  lemma StepKeepsInv(s: State, e: Step, places: seq<P.Place>, token: H.Token)
    requires Inv(s, places, token) && Enabled(s, e)
    ensures Inv(Apply(s, e), PlacesAfter(s, e, places), H.TokenAfter(s, e, token))
  {
    StepKeepsResumes(s, e);
    StepKeepsInRange(s, e);
    StepKeepsPipes(s, e, places);
    H.StepKeepsInv(s, e, token);
    Q.StepKeepsInv(s, e);
    D.StepKeepsInv(s, e);
    W.StepKeepsStopsLast(s, e);
  }

  lemma InitInv(s: State)
    requires Init(s)
    ensures Inv(s, seq(|s.pipes|, _ => P.InKernel), H.AtSvToCl)
  {
    forall i | 0 <= i < |s.pipes|
      ensures P.PipeInv(s, i, P.InKernel) && L.Inv(R.Abs(s, i, P.InKernel))
    {
      P.InitPipeInv(s, i);
      assert InitPipe(s.pipes[i]);
    }
    Q.InitInv(s);
  }

  // ----- along a run -----

  /** Where each instance is after `k` steps. */
  ghost function PlacesAt(r: Run, k: nat): (places: seq<P.Place>)
    requires r.Valid() && k < |r.states|
    ensures |places| == |r.states[k].pipes|
  {
    if k == 0 then seq(|r.states[0].pipes|, _ => P.InKernel)
    else
      assert r.states[k] == Apply(r.states[k - 1], r.steps[k - 1]);
      PlacesAfter(r.states[k - 1], r.steps[k - 1], PlacesAt(r, k - 1))
  }

  /** Where the token of the handoff is after `k` steps. */
  ghost function TokenAt(r: Run, k: nat): H.Token
    requires r.Valid() && k < |r.states|
  {
    if k == 0 then H.AtSvToCl else H.TokenAfter(r.states[k - 1], r.steps[k - 1], TokenAt(r, k - 1))
  }

  lemma {:induction false} RunKeepsInv(r: Run, k: nat)
    requires r.Valid() && k < |r.states|
    ensures Inv(r.states[k], PlacesAt(r, k), TokenAt(r, k))
  {
    if k == 0 {
      InitInv(r.states[0]);
    } else {
      RunKeepsInv(r, k - 1);
      StepKeepsInv(r.states[k - 1], r.steps[k - 1], PlacesAt(r, k - 1), TokenAt(r, k - 1));
    }
  }

  // ----- pipes -----

  function HoldsOne(i: nat): Pc -> nat {
    pc => if P.Holds(pc) == Some(i) then 1 else 0
  }

  /** No step up to the `k`-th loses a completion of instance `i`, has its start refused or drops its packet. */
  ghost predicate NoPipeFault(r: Run, k: nat, i: nat)
    requires r.Valid() && k < |r.states|
  {
    forall j :: 0 <= j < k ==> !P.Fault(r.states[j], r.steps[j], i)
  }

  lemma ServedInBounds(s: State, places: seq<P.Place>, w: nat)
    requires PipesInv(s, places) && AllInRange(s) && w < |s.pcs|
    ensures P.InBounds(s, s.pcs[w])
  {
    if s.pcs[w].Served? {
      var i := s.pcs[w].i;
      assert InRange(s.pcs[w], |s.pipes|);
      assert P.PipeInv(s, i, places[i]);
      assert P.Holds(s.pcs[w]) == Some(i) <==> places[i] == P.With(w);
    }
  }

  /** An instance is dropped exactly when there was such a step. */
  lemma {:induction false} DroppedByFault(r: Run, k: nat, i: nat)
    requires r.Valid() && k < |r.states| && i < |r.states[k].pipes|
    ensures PlacesAt(r, k)[i].Dropped? <==> !NoPipeFault(r, k, i)
  {
    if k > 0 {
      var s, e, places := r.states[k - 1], r.steps[k - 1], PlacesAt(r, k - 1);
      assert r.states[k] == Apply(s, e);
      DroppedByFault(r, k - 1, i);
      RunKeepsInv(r, k - 1);
      DropStep(s, e, places, i);
      assert NoPipeFault(r, k, i) <==> NoPipeFault(r, k - 1, i) && !P.Fault(s, e, i);
    }
  }

  lemma DropStep(s: State, e: Step, places: seq<P.Place>, i: nat)
    requires AllResume(s) && AllInRange(s) && PipesInv(s, places) && Enabled(s, e) && i < |s.pipes|
    ensures PlacesAfter(s, e, places)[i].Dropped? <==> places[i].Dropped? || P.Fault(s, e, i)
  {
    if e.Work? {
      ServedInBounds(s, places, e.w);
    }
    P.DroppedExactlyByFault(s, e, i, places[i]);
  }

  lemma Holders(s: State, i: nat, place: P.Place)
    requires i < |s.pipes| && P.Located(s, i, place)
    ensures Sum(s.pcs, HoldsOne(i)) == One(place.With?)
  {
    if place.With? {
      SumOne(s.pcs, place.w, HoldsOne(i));
    } else {
      SumConstant(s.pcs, HoldsOne(i), 0);
    }
  }

  /**
   * Conservation: each instance has one operation in the kernel, or one packet in the port, or one worker that
   * answers for it, until a fault of its own; from then on it has none of them.
   */
  lemma EachInstanceOnce(r: Run, k: nat, i: nat)
    requires r.Valid() && k < |r.states| && i < |r.states[k].pipes|
    ensures var s := r.states[k];
            |s.pipes[i].running| + |s.pipes[i].queued| + Sum(s.pcs, HoldsOne(i)) == One(NoPipeFault(r, k, i))
  {
    RunKeepsInv(r, k);
    Holders(r.states[k], i, PlacesAt(r, k)[i]);
    DroppedByFault(r, k, i);
  }

  /** A buffer has one owner at every moment, every access is its owner's, and every write is within its bounds. */
  lemma BufferOwnership(r: Run, k: nat, i: nat)
    requires r.Valid() && k < |r.steps| && i < |r.states[k].pipes|
    ensures var s, e := r.states[k], r.steps[k];
            && P.OneOwner(s, i)
            && (e.Work? && P.Touches(s.pcs[e.w], i) ==> P.Holds(s.pcs[e.w]) == Some(i))
            && (r.states[k + 1].pipes[i].buf != s.pipes[i].buf ==>
                  (e.Scribble? && e.i == i && P.KernelOwns(s, i)) || (e.Work? && P.Touches(s.pcs[e.w], i)))
            && (e.Work? ==> P.InBounds(s, s.pcs[e.w]))
  {
    var s, e := r.states[k], r.steps[k];
    RunKeepsInv(r, k);
    P.BufferHasOneOwner(s, e, i, PlacesAt(r, k)[i]);
    if e.Work? {
      ServedInBounds(s, PlacesAt(r, k), e.w);
    }
  }

  /** At most one operation is outstanding, the flag names it, and `service` never reaches its last branch. */
  lemma OneNamedOperation(r: Run, k: nat, i: nat)
    requires r.Valid() && k < |r.states| && i < |r.states[k].pipes|
    ensures var s := r.states[k];
            && |s.pipes[i].running| + |s.pipes[i].queued| <= 1
            && (s.pipes[i].running != [] ==> P.Names(P.ModeOf(s, i), s.pipes[i].running[0].kind))
            && (s.pipes[i].queued != [] ==> P.Names(P.ModeOf(s, i), s.pipes[i].queued[0].kind))
            && (forall w :: 0 <= w < |s.pcs| ==> s.pcs[w] != SvcThrow(i))
  {
    RunKeepsInv(r, k);
    assert P.PipeInv(r.states[k], i, PlacesAt(r, k)[i]);
  }

  /**
   * An instance has one connection in its life: workers ask for reads only, and so the branch that would reconnect
   * an unconnected instance never runs.
   */
  lemma OnlyOneConnection(r: Run, k: nat, i: nat, w: nat)
    requires r.Valid() && k < |r.states| && i < |r.states[k].pipes|
    ensures P.Engaged(r.states[k].pipes[i].mode)
    ensures w < |r.states[k].pcs| && P.Asks(r.states[k].pcs[w], i) ==> P.AsksToRead(r.states[k].pcs[w])
  {
    RunKeepsInv(r, k);
    assert P.PipeInv(r.states[k], i, PlacesAt(r, k)[i]);
    if w < |r.states[k].pcs| && P.Asks(r.states[k].pcs[w], i) {
      P.OnlyReadsAsked(r.states[k], w, i, PlacesAt(r, k)[i]);
    }
  }

  /** Every operation that the kernel accepts in a run is a read that leaves a byte of the buffer free. */
  lemma OnlyReadsStart(r: Run, k: nat, i: nat)
    requires r.Valid() && k < |r.steps| && i < |r.states[k].pipes|
    ensures i < |r.states[k + 1].pipes|
    ensures var pipe, pipe' := r.states[k].pipes[i], r.states[k + 1].pipes[i];
            && |pipe.buf| == 65536
            && (|pipe'.running| > |pipe.running| ==> pipe'.running == [Request(Read, 65535)])
  {
    var s, e := r.states[k], r.steps[k];
    assert r.states[k + 1] == Apply(s, e);
    RunKeepsInv(r, k);
    assert P.PipeInv(s, i, PlacesAt(r, k)[i]);
    if |r.states[k + 1].pipes[i].running| > |s.pipes[i].running| {
      P.OnlyReadsIssued(s, e, i, PlacesAt(r, k)[i]);
    }
  }

  /** The run projected on one pipe is a run of the sequential loop: it starts there and follows it step by step. */
  lemma ProjectsToLoop(r: Run, k: nat, i: nat)
    requires r.Valid() && k < |r.steps| && i < |r.states[0].pipes|
    ensures i < |r.states[k].pipes| == |r.states[k + 1].pipes|
    ensures R.Abs(r.states[0], i, PlacesAt(r, 0)[i]) ==
              L.State(L.Busy(Connect), r.states[0].pipes[i].buf, [], [], [])
    ensures R.Follows(R.Abs(r.states[k], i, PlacesAt(r, k)[i]), R.EventOf(r.states[k], r.steps[k], i),
                      R.Abs(r.states[k + 1], i, PlacesAt(r, k + 1)[i]))
  {
    SamePipes(r, k);
    assert InitPipe(r.states[0].pipes[i]);
    RunKeepsInv(r, k);
    assert P.PipeInv(r.states[k], i, PlacesAt(r, k)[i]);
    R.StepRefines(r.states[k], r.steps[k], i, PlacesAt(r, k)[i]);
  }

  lemma {:induction false} SamePipes(r: Run, k: nat)
    requires r.Valid() && k < |r.states|
    ensures |r.states[k].pipes| == |r.states[0].pipes| && |r.states[k].pcs| == |r.states[0].pcs|
  {
    if k > 0 {
      SamePipes(r, k - 1);
      assert r.states[k] == Apply(r.states[k - 1], r.steps[k - 1]);
    }
  }

  /**
   * Per-pipe order: the handled texts and the "received" lines are those of the completed reads, in the order of
   * completion, each once and at most one behind, whichever workers handle successive reads.
   */
  lemma MessagesInOrder(r: Run, k: nat, i: nat)
    requires r.Valid() && k < |r.states| && i < |r.states[k].pipes|
    ensures var s := r.states[k];
            && L.TextsOf(R.HandledFrom(s.handled, i), s.pipes[i].completed)
            && L.TextsOf(R.ReceivedFrom(s.log.enqueued, i), s.pipes[i].completed)
            && |R.HandledFrom(s.handled, i)| <= |R.ReceivedFrom(s.log.enqueued, i)|
  {
    RunKeepsInv(r, k);
    assert L.Inv(R.Abs(r.states[k], i, PlacesAt(r, k)[i]));
  }

  // ----- the shared-memory handoff -----

  ghost predicate NoHandoffFault(r: Run, k: nat)
    requires r.Valid() && k < |r.states|
  {
    forall j :: 0 <= j < k ==> !H.Fault(r.states[j], r.steps[j])
  }

  /** One token: it is in exactly one place, until a fault loses it. */
  lemma OneToken(r: Run, k: nat)
    requires r.Valid() && k < |r.states|
    ensures H.Located(r.states[k], TokenAt(r, k))
    ensures TokenAt(r, k).Lost? <==> !NoHandoffFault(r, k)
  {
    RunKeepsInv(r, k);
    LostByFault(r, k);
  }

  lemma {:induction false} LostByFault(r: Run, k: nat)
    requires r.Valid() && k < |r.states|
    ensures TokenAt(r, k).Lost? <==> !NoHandoffFault(r, k)
  {
    if k > 0 {
      var s, e := r.states[k - 1], r.steps[k - 1];
      RunKeepsInv(r, k - 1);
      LostByFault(r, k - 1);
      H.LostExactlyByFault(s, e, TokenAt(r, k - 1));
      assert NoHandoffFault(r, k) <==> NoHandoffFault(r, k - 1) && !H.Fault(s, e);
    }
  }

  /** While a client writes, no other client writes and no worker reads the shared memory. */
  lemma NoOverlap(r: Run, k: nat, c: nat)
    requires r.Valid() && k < |r.states|
    requires c < |r.states[k].shm.clients| && r.states[k].shm.clients[c].Writing?
    ensures var s := r.states[k];
            && (forall d :: 0 <= d < |s.shm.clients| && s.shm.clients[d].Writing? ==> d == c)
            && (forall w :: 0 <= w < |s.pcs| ==> !s.pcs[w].ShmCopy?)
  {
    var s := r.states[k];
    OneToken(r, k);
    assert H.InWrite(s.shm.clients[c]);
    forall d | 0 <= d < |s.shm.clients| && s.shm.clients[d].Writing? ensures d == c {
      assert H.InWrite(s.shm.clients[d]);
    }
    forall w | 0 <= w < |s.pcs| ensures !s.pcs[w].ShmCopy? {
      assert !H.BeforeSignal(s.pcs[w]);
    }
  }

  /**
   * Exactly once, in order, at most two behind: the handled texts are what the first writes left in the memory, and
   * without a fault no written message is missing but the one being handed over and the fresh one.
   */
  lemma DeliveredInOrder(r: Run, k: nat)
    requires r.Valid() && k < |r.states|
    ensures var s := r.states[k];
            var handled := H.HandledTexts(s.handled);
            && M.Fit(s.shm.messages, |s.shm.mem|)
            && |handled| <= |s.shm.messages| <= |handled| + 2
            && (forall j :: 0 <= j < |handled| ==> handled[j] == H.Content(s.shm, j))
            && (NoHandoffFault(r, k) ==>
                  |s.shm.messages| == |handled| + (if H.Handing(s) then 1 else 0) +
                                      (if H.Fresh(s, TokenAt(r, k)) then 1 else 0))
  {
    RunKeepsInv(r, k);
    OneToken(r, k);
  }

  /** With the exact content: a handled text is the client's own message exactly when no earlier one was longer. */
  lemma DeliveredExactly(r: Run, k: nat, j: nat)
    requires r.Valid() && k < |r.states|
    requires j < |H.HandledTexts(r.states[k].handled)|
    requires M.NulFree(r.states[k].shm.messages)
    ensures j < |r.states[k].shm.messages| && |r.states[k].shm.mem| == 65536
    ensures var shm := r.states[k].shm;
            var first := shm.messages[..j + 1];
            H.HandledTexts(r.states[k].handled)[j] == shm.messages[j] <==>
              if M.Longest(first) < |shm.mem| then M.Longest(first) == |shm.messages[j]| else shm.messages[j] == []
  {
    RunKeepsInv(r, k);
    DeliveredInOrder(r, k);
    ContentExactly(r.states[k].shm, j);
  }

  lemma ContentExactly(shm: Shm, j: nat)
    requires j < |shm.messages| && M.Fit(shm.messages, |shm.mem|) && M.NulFree(shm.messages)
    ensures var first := shm.messages[..j + 1];
            H.Content(shm, j) == shm.messages[j] <==>
              if M.Longest(first) < |shm.mem| then M.Longest(first) == |shm.messages[j]| else shm.messages[j] == []
  {
    M.LastMessageArrives(|shm.mem|, shm.messages[..j + 1]);
  }

  // ----- the log -----

  /** The queue is what the semaphore counts; popped lines and queued lines are all lines, in order; no empty pop. */
  lemma LogLinearizable(r: Run, k: nat, p: nat)
    requires r.Valid() && k < |r.states|
    ensures Q.CountInv(r.states[k]) && Q.HistoryInv(r.states[k])
    ensures p < |r.states[k].log.poppers| && r.states[k].log.poppers[p].Popping? ==> r.states[k].log.queue != []
  {
    RunKeepsInv(r, k);
    if p < |r.states[k].log.poppers| && r.states[k].log.poppers[p].Popping? {
      Q.FrontExists(r.states[k], p);
    }
  }

  /** With fewer lines than the semaphore can count none is lost to it, and every line is counted or about to be. */
  lemma EveryLineIsCounted(r: Run, k: nat)
    requires r.Valid() && k < |r.states| && |r.states[k].log.enqueued| < 2147483647
    ensures var s := r.states[k];
            && s.log.refused == 0
            && |s.log.queue| == s.log.semaphore + Sum(s.pcs, Q.Unreleased) + Sum(s.log.poppers, Q.Unpopped)
  {
    RunKeepsInv(r, k);
  }

  // ----- progress -----

  /** The port failed for worker `w` before the `k`-th state. */
  ghost predicate PortFailedFor(r: Run, k: nat, w: nat)
    requires r.Valid() && k < |r.states|
  {
    exists j :: 0 <= j < k && PortFailure(r.states[j], r.steps[j], w)
  }

  /** A worker leaves its loop for the shutdown, or because the port failed for it, and for nothing else. */
  lemma {:induction false} OnlyReasonsToExit(r: Run, k: nat, w: nat)
    requires r.Valid() && k < |r.states| && w < |r.states[k].pcs|
    ensures Serves(r.states[k].pcs[w]) || r.states[k].ctl.event || PortFailedFor(r, k, w)
  {
    if k > 0 && !r.states[k].ctl.event && !PortFailedFor(r, k, w) {
      var s, e := r.states[k - 1], r.steps[k - 1];
      assert r.states[k] == Apply(s, e);
      RunKeepsInv(r, k - 1);
      assert !PortFailure(s, e, w);
      assert !PortFailedFor(r, k - 1, w);
      if s.ctl.event {
        StepKeepsEvent(s, e);
      }
      OnlyReasonsToExit(r, k - 1, w);
      StepKeepsServing(s, e, w);
    }
  }

  /** Done for one of these reasons, or waiting on a port with no packet in it. */
  ghost predicate RestsForReason(r: Run, k: nat, w: nat)
    requires r.Valid() && k < |r.states| && w < |r.states[k].pcs|
  {
    var s := r.states[k];
    || (s.pcs[w].AtPort? && PortEmpty(s))
    || (s.pcs[w].Exited? && (s.ctl.event || PortFailedFor(r, k, w)))
  }

  /** In every reachable state a worker, or a reader at the log, can go on, unless all workers are done or idle. */
  lemma NeverDeadlocked(r: Run, k: nat)
    requires r.Valid() && k < |r.states|
    ensures F.SomebodyMoves(r.states[k]) || forall w :: 0 <= w < |r.states[k].pcs| ==> RestsForReason(r, k, w)
    ensures F.SomebodyMoves(r.states[k]) || forall w :: 0 <= w < |r.states[k].pcs| ==> F.Resting(r.states[k], w)
  {
    RunKeepsInv(r, k);
    LocksAreOk(r.states[k], PlacesAt(r, k), TokenAt(r, k));
    F.NoDeadlock(r.states[k]);
    forall w | 0 <= w < |r.states[k].pcs| && F.Resting(r.states[k], w) ensures RestsForReason(r, k, w) {
      OnlyReasonsToExit(r, k, w);
    }
  }

  lemma LocksAreOk(s: State, places: seq<P.Place>, token: H.Token)
    requires Inv(s, places, token)
    ensures F.LocksOk(s)
  {
    forall i: nat | i < |s.pipes| ensures P.SectionInv(s, i) {
      assert P.PipeInv(s, i, places[i]);
    }
  }

  /** How many steps from the `k`-th up to the `j`-th are of a kind. */
  function Count(steps: seq<Step>, k: nat, j: nat, kind: Step -> bool): nat
    requires j <= |steps|
  {
    if j <= k then 0 else Count(steps, k, j - 1, kind) + One(kind(steps[j - 1]))
  }

  predicate IsWork(e: Step) {
    e.Work?
  }

  predicate IsWait(e: Step) {
    e.Wait?
  }

  predicate IsNothing(e: Step) {
    false
  }

  predicate TakesPacket(e: Step, w: nat) {
    e.Work? && e.w == w && e.c.Take?
  }

  /** Steps that each lower a rank are bounded by it. */
  lemma {:induction false} RankBounds(steps: seq<Step>, k: nat, j: nat, kind: Step -> bool, rank: seq<nat>)
    requires k <= j <= |steps| && |rank| == |steps| + 1
    requires forall i :: k <= i < j ==> One(kind(steps[i])) + rank[i + 1] <= rank[i]
    ensures Count(steps, k, j, kind) + rank[j] <= rank[k]
    decreases j
  {
    if k < j {
      RankBounds(steps, k, j - 1, kind, rank);
    }
  }

  lemma BoundedStep(s: State, e: Step, w: nat)
    requires D.Inv(s) && AllResume(s) && Enabled(s, e) && s.ctl.event && w < |s.pcs|
    ensures Apply(s, e).ctl.event
    ensures One(TakesPacket(e, w)) + D.StillTakes(Apply(s, e).pcs[w]) <= D.StillTakes(s.pcs[w])
    ensures One(e.Work?) + D.Measure(Apply(s, e)) <= D.Measure(s)
  {
    D.MeasureFalls(s, e);
    if e.Work? {
      D.WorkAndDoom(s, e.w, e.c);
    }
  }

  lemma StepKeepsEvent(s: State, e: Step)
    requires AllResume(s) && D.Inv(s) && Enabled(s, e) && s.ctl.event
    ensures Apply(s, e).ctl.event
  {
    if e.Work? {
      D.WorkAndDoom(s, e.w, e.c);
    }
  }

  lemma {:induction false} EventStays(r: Run, k: nat, j: nat)
    requires r.Valid() && k <= j < |r.states| && r.states[k].ctl.event
    ensures r.states[j].ctl.event
    decreases j
  {
    if k < j {
      EventStays(r, k, j - 1);
      RunKeepsInv(r, j - 1);
      StepKeepsEvent(r.states[j - 1], r.steps[j - 1]);
    }
  }

  /** After the event each worker takes at most one more packet, whatever is queued or arrives. */
  lemma TakesAtMostOne(r: Run, k: nat, j: nat, w: nat)
    requires r.Valid() && k <= j < |r.states| && r.states[k].ctl.event && w < |r.states[0].pcs|
    ensures Count(r.steps, k, j, e => TakesPacket(e, w)) <= 1
  {
    ghost var rank := seq(|r.states|, i requires 0 <= i < |r.states| =>
      if w < |r.states[i].pcs| then D.StillTakes(r.states[i].pcs[w]) else 0);
    var kind := (e: Step) => TakesPacket(e, w);
    forall i | k <= i < j ensures One(kind(r.steps[i])) + rank[i + 1] <= rank[i] {
      EventStays(r, k, i);
      RunKeepsInv(r, i);
      SamePipes(r, i);
      BoundedStep(r.states[i], r.steps[i], w);
    }
    RankBounds(r.steps, k, j, kind, rank);
    SamePipes(r, k);
  }

  /** After the event the workers together take no more steps than the measure says. */
  lemma ShutdownIsBounded(r: Run, k: nat, j: nat)
    requires r.Valid() && k <= j < |r.states| && r.states[k].ctl.event
    ensures Count(r.steps, k, j, IsWork) + D.Measure(r.states[j]) <= D.Measure(r.states[k])
  {
    ghost var rank := seq(|r.states|, i requires 0 <= i < |r.states| => D.Measure(r.states[i]));
    forall i | k <= i < j ensures One(IsWork(r.steps[i])) + rank[i + 1] <= rank[i] {
      EventStays(r, k, i);
      RunKeepsInv(r, i);
      D.MeasureFalls(r.states[i], r.steps[i]);
    }
    RankBounds(r.steps, k, j, IsWork, rank);
  }

  /** After the event workers, log readers and the stopping thread together take no more steps than the total says. */
  lemma AdvancesAreBounded(r: Run, k: nat, j: nat)
    requires r.Valid() && k <= j < |r.states| && r.states[k].ctl.event
    ensures Count(r.steps, k, j, D.Advances) + D.TotalMeasure(r.states[j]) <= D.TotalMeasure(r.states[k])
  {
    ghost var rank := seq(|r.states|, i requires 0 <= i < |r.states| => D.TotalMeasure(r.states[i]));
    forall i | k <= i < j ensures One(D.Advances(r.steps[i])) + rank[i + 1] <= rank[i] {
      EventStays(r, k, i);
      RunKeepsInv(r, i);
      D.TotalMeasureFalls(r.states[i], r.steps[i]);
    }
    RankBounds(r.steps, k, j, D.Advances, rank);
  }

  /** One of those steps is possible, other than a failure of the port. */
  ghost predicate CanAdvance(s: State) {
    exists e :: Enabled(s, e) && D.Advances(e) && forall w: nat :: !PortFailure(s, e, w)
  }

  /**
   * Shutdown completes: after the event workers, log readers and the stopping thread take only so many more steps,
   * whatever the others do and whatever is queued; and they can take one until the stopping thread is done, which it
   * is only after every worker has exited. So a run that leaves no such step waiting forever stops the server.
   */
  lemma ShutdownCompletes(r: Run, k: nat, j: nat)
    requires r.Valid() && k <= j < |r.states| && r.states[k].ctl.event
    ensures Count(r.steps, k, j, D.Advances) + D.TotalMeasure(r.states[j]) <= D.TotalMeasure(r.states[k])
    ensures CanAdvance(r.states[j]) || r.states[j].ctl.stopper.Stopped?
    ensures r.states[j].ctl.stopper.Stopped? ==> AllExited(r.states[j])
  {
    AdvancesAreBounded(r, k, j);
    EventStays(r, k, j);
    RunKeepsInv(r, j);
    var s := r.states[j];
    if s.ctl.stopper == Stopping(|s.pcs|) {
      ShutdownGoesOn(r, j);
      if F.SomebodyMoves(s) {
        MoverAdvances(s);
      }
    }
    if !s.ctl.stopper.Stopped? && (s.ctl.stopper == Stopping(|s.pcs|) ==> AllExited(s)) {
      assert Enabled(s, Stop) && D.Advances(Stop);
    }
  }

  /** After the posts somebody goes on until all workers have exited, and no waiting worker lacks a packet. */
  lemma ShutdownGoesOn(r: Run, k: nat)
    requires r.Valid() && k < |r.states|
    requires r.states[k].ctl.stopper == Stopping(|r.states[k].pcs|)
    ensures AllExited(r.states[k]) || F.SomebodyMoves(r.states[k])
    ensures D.Measure(r.states[k]) == 0 <==> AllExited(r.states[k])
    ensures Sum(r.states[k].pcs, D.Waits) <= r.states[k].ctl.exits
  {
    RunKeepsInv(r, k);
    NeverDeadlocked(r, k);
    D.NoWorkerWaitsInVain(r.states[k]);
    D.MeasureZero(r.states[k]);
    if !F.SomebodyMoves(r.states[k]) {
      forall w | 0 <= w < |r.states[k].pcs| ensures r.states[k].pcs[w].Exited? {
        assert F.Resting(r.states[k], w);
        SumAtLeast(r.states[k].pcs, w, D.Waits);
      }
    }
  }

  lemma MoverAdvances(s: State)
    requires F.SomebodyMoves(s)
    ensures CanAdvance(s)
  {
    if w: nat :| F.CanMove(s, w) {
      var c :| CanWork(s, w, c) && !(s.pcs[w].AtPort? && c.No?);
      assert Enabled(s, Work(w, c)) && D.Advances(Work(w, c));
    } else {
      var p: nat :| F.ReaderCanMove(s, p);
      assert Enabled(s, Pop(p)) && D.Advances(Pop(p));
    }
  }

  /** Once the pipe server is cleared no worker takes another step. */
  lemma NobodyUsesClearedServer(r: Run, k: nat)
    requires r.Valid() && k < |r.steps| && !r.states[k].ctl.pipeServer
    ensures AllExited(r.states[k]) && !r.steps[k].Work?
  {
    RunKeepsInv(r, k);
    if r.steps[k].Work? {
      D.ClearedIsUntouched(r.states[k], r.steps[k].w);
    }
  }

  // ----- the end of the waiter -----

  /** The waiter stays in its loop until it is told to stop, which is after the server has stopped. */
  lemma WaiterStays(r: Run, k: nat)
    requires r.Valid() && k < |r.states|
    ensures r.states[k].shm.waiter.Gone? ==> r.states[k].shm.stop
    ensures r.states[k].shm.stop ==> r.states[k].ctl.stopper.Stopped?
  {
    RunKeepsInv(r, k);
  }

  lemma {:induction false} StopStays(r: Run, k: nat, j: nat)
    requires r.Valid() && k <= j < |r.states| && r.states[k].shm.stop
    ensures r.states[j].shm.stop
    decreases j
  {
    if k < j {
      StopStays(r, k, j - 1);
      RunKeepsInv(r, j - 1);
      W.StepKeepsStopsLast(r.states[j - 1], r.steps[j - 1]);
    }
  }

  lemma WaiterAdvances(r: Run, k: nat, i: nat)
    requires r.Valid() && k <= i < |r.steps| && r.states[k].shm.stop
    ensures W.Posts(r.states[i + 1].shm) <= W.Posts(r.states[i].shm)
    ensures One(r.steps[i].Wait?) + W.Rank(r.states[i + 1].shm) <= W.Rank(r.states[i].shm)
  {
    StopStays(r, k, i);
    RunKeepsInv(r, i);
    W.EndComesNearer(r.states[i], r.steps[i], TokenAt(r, i));
  }

  lemma WaiterBounds(r: Run, k: nat, j: nat)
    requires r.Valid() && k <= j < |r.states| && r.states[k].shm.stop
    ensures Count(r.steps, k, j, IsWait) <= W.Rank(r.states[k].shm)
    ensures W.Posts(r.states[j].shm) <= W.Posts(r.states[k].shm)
  {
    var rank := seq(|r.states|, i requires 0 <= i < |r.states| => W.Rank(r.states[i].shm));
    var posts := seq(|r.states|, i requires 0 <= i < |r.states| => W.Posts(r.states[i].shm));
    forall i | k <= i < j
      ensures One(IsWait(r.steps[i])) + rank[i + 1] <= rank[i]
      ensures One(IsNothing(r.steps[i])) + posts[i + 1] <= posts[i]
    {
      WaiterAdvances(r, k, i);
    }
    RankBounds(r.steps, k, j, IsWait, rank);
    RankBounds(r.steps, k, j, IsNothing, posts);
  }

  /**
   * After its shutdown event the waiter takes at most three steps and posts at most one packet, and until it is gone
   * it can always take one, although the client's event has priority in its wait.
   */
  lemma WaiterEnds(r: Run, k: nat, j: nat)
    requires r.Valid() && k <= j < |r.states| && r.states[k].shm.stop
    ensures AllExited(r.states[j])
    ensures Count(r.steps, k, j, IsWait) <= 3
    ensures r.states[j].shm.packets <= r.states[k].shm.packets + 1
    ensures Enabled(r.states[j], Wait) <==> !r.states[j].shm.waiter.Gone?
  {
    WaiterBounds(r, k, j);
    StopStays(r, k, j);
    RunKeepsInv(r, k);
    RunKeepsInv(r, j);
    W.EndBounds(r.states[j]);
    W.EndBounds(r.states[k]);
  }
}
