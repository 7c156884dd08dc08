/**
 * What can always still happen. Without a fault and before the shutdown the workers can come to rest at the port, and
 * what clients wrote and what pipes read can be handled to the end, from every state that a run reaches.
 */
module Progress {
  import opened Outcomes
  import opened Server
  import opened Sums
  import P = PipeOwnership
  import R = PipeRefinement
  import L = SequentialLoop
  import H = Handoff
  import D = Shutdown
  import M = SharedMemory
  import F = DeadlockFreedom
  import V = ServerRuns

  /** A step of a worker, a log reader, a writing client or the waiter, and no failure. */
  predicate Ordinary(e: Step) {
    || (e.Work? && !e.c.No?)
    || e.Pop? || e.ClientStep? || e.Wait?
  }

  /** A proof says this where it looks into `Goes`; those that only put such facts together need not. */
  predicate LookInto(k: nat) {
    true
  }

  /** Ordinary steps lead from `s` to `s'`. */
  ghost predicate Goes(s: State, s': State) {
    forall k: nat {:trigger LookInto(k)} :: LookInto(k) ==>
      exists es :: Leads(s, es, s') && forall e :: e in es ==> Ordinary(e)
  }

  lemma GoesNowhere(s: State)
    ensures Goes(s, s)
  {
    assert Leads(s, [], s);
  }

  lemma GoesOn(s: State, t: State, u: State)
    requires Goes(s, t) && Goes(t, u)
    ensures Goes(s, u)
  {
    assert LookInto(0);
    var es :| Leads(s, es, t) && forall e :: e in es ==> Ordinary(e);
    var fs :| Leads(t, fs, u) && forall e :: e in fs ==> Ordinary(e);
    LeadsOn(s, es, t, fs, u);
    assert forall e :: e in es + fs ==> Ordinary(e);
  }

  lemma GoesFirst(s: State, e: Step, s': State)
    requires Enabled(s, e) && Ordinary(e) && Goes(Apply(s, e), s')
    ensures Goes(s, s')
  {
    assert LookInto(0);
    var es :| Leads(Apply(s, e), es, s') && forall f :: f in es ==> Ordinary(f);
    LeadsFirst(s, e, es, s');
    assert forall f :: f in [e] + es ==> Ordinary(f);
  }

  // ----- the workers come to rest -----

  /** A worker inside a packet goes on, or a reader that owns the log's lock. */
  predicate Calm(s: State, e: Step) {
    || (e.Work? && e.c.Yes? && F.InsideCanMove(s, e.w))
    || (e.Pop? && F.ReaderCanMove(s, e.p))
  }

  predicate AtRest(s: State) {
    forall w :: 0 <= w < |s.pcs| ==> !F.Inside(s.pcs[w])
  }

  /** More than the statements up to the port. */
  function BusyRank(pc: Pc, size: nat): nat {
    if pc.Got? then 40 + size else D.Rank(pc, size)
  }

  function BusyIn(size: nat): Pc -> nat {
    pc => BusyRank(pc, size)
  }

  function ReaderBusy(pc: PopperPc): nat {
    match pc
    case Popping => 2
    case Popped => 1
    case _ => 0
  }

  function Busy(s: State): nat {
    Sum(s.pcs, BusyIn(|s.shm.mem|)) + Sum(s.log.poppers, ReaderBusy)
  }

  lemma WorkLowersBusyRank(s: State, w: nat)
    requires F.InsideCanMove(s, w) && !s.ctl.event && Resumes(s.pcs[w])
    ensures BusyRank(WorkStep(s, w, Yes).pcs[w], |s.shm.mem|) < BusyRank(s.pcs[w], |s.shm.mem|)
    ensures |WorkStep(s, w, Yes).shm.mem| == |s.shm.mem|
  {
    if Instance(s.pcs[w]).Some? {
      D.PipeWorkLowersRank(s, w, Yes, Instance(s.pcs[w]).value);
    } else if !s.pcs[w].Got? && !s.pcs[w].Push? {
      D.ShmWorkLowersRank(s, w, Yes);
    }
  }

  lemma CalmLowersBusy(s: State, e: Step)
    requires Calm(s, e) && Enabled(s, e) && !s.ctl.event && AllResume(s)
    ensures Busy(Apply(s, e)) < Busy(s)
  {
    var s' := Apply(s, e);
    if e.Work? {
      WorkLowersBusyRank(s, e.w);
      D.WorkAtLog(s, e.w, Yes);
      SumUpdate(s.pcs, e.w, s'.pcs[e.w], BusyIn(|s.shm.mem|));
    } else {
      SumUpdate(s.log.poppers, e.p, s'.log.poppers[e.p], ReaderBusy);
    }
  }

  /** What the clients, the waiter and the stopping thread work with. */
  predicate SameOutside(s: State, s': State) {
    && s'.ctl == s.ctl && |s'.pcs| == |s.pcs| && |s'.pipes| == |s.pipes|
    && H.SameElsewhere(s.shm, s'.shm) && s'.shm.packets == s.shm.packets
    && (forall i :: 0 <= i < |s.pipes| ==> s'.pipes[i].completed == s.pipes[i].completed)
  }

  lemma CalmWork(s: State, w: nat)
    requires F.InsideCanMove(s, w) && !s.ctl.event && Resumes(s.pcs[w])
    ensures SameOutside(s, WorkStep(s, w, Yes))
  {
    if Instance(s.pcs[w]).Some? {
      assert WorkStep(s, w, Yes) == WorkPipe(s, w, Yes, Instance(s.pcs[w]).value);
    } else if !s.pcs[w].Got? && !s.pcs[w].Push? {
      assert WorkStep(s, w, Yes) == WorkShm(s, w, Yes);
    }
  }

  lemma CalmSame(s: State, e: Step)
    requires Calm(s, e) && Enabled(s, e) && !s.ctl.event && AllResume(s)
    ensures SameOutside(s, Apply(s, e))
  {
    if e.Work? {
      CalmWork(s, e.w);
    }
  }

  /** A calm step finishes with the token, or leaves it where it is. */
  predicate TokenCalm(token: H.Token, token': H.Token) {
    token' == token || (token.AtWorker? && token'.AtSvToCl?)
  }

  lemma CalmToken(s: State, e: Step, token: H.Token)
    requires Calm(s, e) && Enabled(s, e) && !s.ctl.event && AllResume(s) && H.Located(s, token)
    ensures TokenCalm(token, H.TokenAfter(s, e, token))
  {
    if e.Work? {
      var w := e.w;
      assert H.BeforeSignal(s.pcs[w]) <==> token == H.AtWorker(w);
      if H.AboutShm(s.pcs[w]) {
        H.WorkInsideEvent(s, w, Yes);
      } else {
        H.WorkAside(s, w, Yes);
      }
    }
  }

  predicate PlaceCalm(place: P.Place, place': P.Place) {
    place' == place || (place.With? && place'.InKernel?)
  }

  lemma CalmPlace(s: State, e: Step, places: seq<P.Place>, token: H.Token, i: nat)
    requires Calm(s, e) && Enabled(s, e) && !s.ctl.event && V.Inv(s, places, token) && i < |places|
    ensures PlaceCalm(places[i], V.PlacesAfter(s, e, places)[i])
  {
    V.DropStep(s, e, places, i);
    if e.Work? {
      assert P.PipeInv(s, i, places[i]);
      HoldsCalmly(s, e.w, i, places[i]);
    }
  }

  /** A worker inside gets no new instance. */
  lemma HoldsCalmly(s: State, w: nat, i: nat, place: P.Place)
    requires F.InsideCanMove(s, w) && !s.ctl.event && Resumes(s.pcs[w])
    requires i < |s.pipes| && P.PipeInv(s, i, place)
    ensures P.Holds(WorkStep(s, w, Yes).pcs[w]) == Some(i) ==> P.Holds(s.pcs[w]) == Some(i)
    ensures P.Holds(s.pcs[w]) == Some(i) <==> place == P.With(w)
  {
    if Instance(s.pcs[w]).None? {
      P.WorkAside(s, w, Yes, i);
    } else if Instance(s.pcs[w]) != Some(i) {
      P.WorkAtOther(s, w, Yes, i, Instance(s.pcs[w]).value);
    } else {
      P.WorkHere(s, w, Yes, i, place);
    }
  }

  /** The places and the token after steps that are all calm. */
  ghost predicate Calmed(s: State, places: seq<P.Place>, token: H.Token,
                         s': State, places': seq<P.Place>, token': H.Token) {
    && V.Inv(s', places', token') && SameOutside(s, s')
    && TokenCalm(token, token')
    && |places'| == |places| && forall i :: 0 <= i < |places| ==> PlaceCalm(places[i], places'[i])
  }

  lemma CalmStep(s: State, e: Step, places: seq<P.Place>, token: H.Token)
    requires Calm(s, e) && Enabled(s, e) && !s.ctl.event && V.Inv(s, places, token)
    ensures Calmed(s, places, token, Apply(s, e), V.PlacesAfter(s, e, places), H.TokenAfter(s, e, token))
  {
    V.StepKeepsInv(s, e, places, token);
    CalmSame(s, e);
    CalmToken(s, e, token);
    forall i | 0 <= i < |places| ensures PlaceCalm(places[i], V.PlacesAfter(s, e, places)[i]) {
      CalmPlace(s, e, places, token, i);
    }
  }

  lemma CalmedNowhere(s: State, places: seq<P.Place>, token: H.Token)
    requires V.Inv(s, places, token)
    ensures Calmed(s, places, token, s, places, token)
  {}

  lemma CalmedOn(s: State, places: seq<P.Place>, token: H.Token, t: State, pt: seq<P.Place>, tt: H.Token,
                 u: State, pu: seq<P.Place>, tu: H.Token)
    requires Calmed(s, places, token, t, pt, tt) && Calmed(t, pt, tt, u, pu, tu)
    ensures Calmed(s, places, token, u, pu, tu)
  {}

  lemma CalmExists(s: State, places: seq<P.Place>, token: H.Token) returns (e: Step)
    requires V.Inv(s, places, token) && !AtRest(s)
    ensures Calm(s, e) && Enabled(s, e) && Ordinary(e)
  {
    var w: nat :| w < |s.pcs| && F.Inside(s.pcs[w]);
    V.LocksAreOk(s, places, token);
    F.InsideMoves(s, w);
    if v: nat :| F.InsideCanMove(s, v) {
      e := Work(v, Yes);
    } else {
      var p: nat :| F.ReaderCanMove(s, p);
      e := Pop(p);
    }
  }

  /** From every state the workers can come to rest, without a fault, and without anybody's help but the readers'. */
  lemma {:induction false} ComeToRest(s: State, places: seq<P.Place>, token: H.Token, w: nat)
    returns (s': State, places': seq<P.Place>, token': H.Token)
    requires V.Inv(s, places, token) && !s.ctl.event && w < |s.pcs| && Serves(s.pcs[w])
    ensures Goes(s, s') && AtRest(s') && w < |s'.pcs| && Serves(s'.pcs[w])
    ensures Calmed(s, places, token, s', places', token')
    decreases Busy(s)
  {
    if AtRest(s) {
      GoesNowhere(s);
      CalmedNowhere(s, places, token);
      s', places', token' := s, places, token;
    } else {
      var e := CalmExists(s, places, token);
      var t, pt, tt := Apply(s, e), V.PlacesAfter(s, e, places), H.TokenAfter(s, e, token);
      CalmLowersBusy(s, e);
      CalmStep(s, e, places, token);
      ServesCalmly(s, e, w);
      s', places', token' := ComeToRest(t, pt, tt, w);
      GoesFirst(s, e, s');
      CalmedOn(s, places, token, t, pt, tt, s', places', token');
    }
  }

  lemma ServesCalmly(s: State, e: Step, w: nat)
    requires Calm(s, e) && Enabled(s, e) && !s.ctl.event && D.Inv(s) && AllResume(s)
    requires w < |s.pcs| && Serves(s.pcs[w])
    ensures w < |Apply(s, e).pcs| && Serves(Apply(s, e).pcs[w])
  {
    StepKeepsServing(s, e, w);
  }

  /** At rest no worker has the token or an instance. */
  lemma RestToken(s: State, token: H.Token)
    requires AtRest(s) && H.Located(s, token)
    ensures !token.AtWorker?
  {
    var w := if token.AtWorker? then token.w else 0;
    assert w < |s.pcs| ==> !H.BeforeSignal(s.pcs[w]);
  }

  lemma RestPlace(s: State, i: nat, place: P.Place)
    requires AtRest(s) && i < |s.pipes| && P.Located(s, i, place)
    ensures !place.With?
  {
    var w := if place.With? then place.w else 0;
    assert w < |s.pcs| ==> P.Holds(s.pcs[w]).None?;
  }

  // ----- the shared memory -----

  /** Where the token still has to go, until the next client is admitted. */
  function Way(s: State, token: H.Token): nat {
    match token
    case AtSvToCl => 0
    case AtWorker(_) => 1
    case InPort => 2
    case AtWaiter => 3
    case AtClToSv => 4
    case AtClient(c) =>
      if c < |s.shm.clients| && s.shm.clients[c].Writing? && s.shm.clients[c].k <= |s.shm.clients[c].data|
      then 6 + |s.shm.clients[c].data| - s.shm.clients[c].k
      else 5
    case Lost => 0
  }

  /** With the workers at rest somebody can bring the token on: its client, the waiter, or a worker that serves. */
  lemma TokenStep(s: State, places: seq<P.Place>, token: H.Token, w: nat) returns (e: Step)
    requires V.Inv(s, places, token) && !s.ctl.event && AtRest(s) && w < |s.pcs| && Serves(s.pcs[w])
    requires !token.Lost? && !token.AtSvToCl?
    ensures Enabled(s, e) && Ordinary(e) && !PortFailure(s, e, w)
    ensures !H.TokenAfter(s, e, token).Lost? && Way(Apply(s, e), H.TokenAfter(s, e, token)) < Way(s, token)
    ensures Apply(s, e).ctl.event == s.ctl.event && s.shm.messages <= Apply(s, e).shm.messages
  {
    RestToken(s, token);
    if token.AtClient? {
      assert H.InWrite(s.shm.clients[token.c]);
      e := ClientStep(token.c);
    } else if token.AtClToSv? || token.AtWaiter? {
      e := Wait;
    } else {
      e := Work(w, Take(ShmSource));
      H.WorkAside(s, w, Take(ShmSource));
    }
  }

  /** So it can come round to the next client, and then every message is handled. */
  lemma {:induction false} TokenComesRound(s: State, places: seq<P.Place>, token: H.Token, w: nat)
    returns (s': State, places': seq<P.Place>)
    requires V.Inv(s, places, token) && !s.ctl.event && w < |s.pcs| && Serves(s.pcs[w]) && !token.Lost?
    ensures Goes(s, s') && AtRest(s') && V.Inv(s', places', H.AtSvToCl)
    ensures s.shm.messages <= s'.shm.messages
    decreases Way(s, token)
  {
    var t, pt, tt := ComeToRest(s, places, token, w);
    if tt.AtSvToCl? {
      s', places' := t, pt;
    } else {
      var e := TokenStep(t, pt, tt, w);
      V.StepKeepsInv(t, e, pt, tt);
      StepKeepsServing(t, e, w);
      s', places' := TokenComesRound(Apply(t, e), V.PlacesAfter(t, e, pt), H.TokenAfter(t, e, tt), w);
      GoesFirst(t, e, s');
      GoesOn(s, t, s');
    }
  }

  lemma RestIsDelivered(s: State, token: H.Token)
    requires H.Inv(s, token) && token.AtSvToCl? && AtRest(s)
    ensures s.shm.svToCl && |H.HandledTexts(s.handled)| == |s.shm.messages|
    ensures forall j :: 0 <= j < |s.shm.messages| ==> H.HandledTexts(s.handled)[j] == H.Content(s.shm, j)
  {
    var v := if s.shm.outer.Some? then s.shm.outer.value else 0;
    assert v < |s.pcs| ==> !F.Inside(s.pcs[v]);
  }

  /**
   * The handoff never gets stuck. In every state of a run without a fault of its own and before the shutdown, as long
   * as the port has not failed for every worker, ordinary steps lead to a state in which every written message is
   * handled, in order, and the next client is admitted.
   */
  lemma HandoffGoesOn(r: Run, k: nat, w: nat) returns (es: seq<Step>, s': State)
    requires r.Valid() && k < |r.states| && !r.states[k].ctl.event && V.NoHandoffFault(r, k)
    requires w < |r.states[k].pcs| && !V.PortFailedFor(r, k, w)
    ensures Leads(r.states[k], es, s') && forall e :: e in es ==> Ordinary(e)
    ensures s'.shm.svToCl && r.states[k].shm.messages <= s'.shm.messages
    ensures |H.HandledTexts(s'.handled)| == |s'.shm.messages|
    ensures |s'.shm.mem| == 65536 && M.Fit(s'.shm.messages, 65536)
    ensures forall j :: 0 <= j < |s'.shm.messages| ==> H.HandledTexts(s'.handled)[j] == H.Content(s'.shm, j)
  {
    V.RunKeepsInv(r, k);
    V.OneToken(r, k);
    V.OnlyReasonsToExit(r, k, w);
    var places';
    s', places' := TokenComesRound(r.states[k], V.PlacesAt(r, k), V.TokenAt(r, k), w);
    RestIsDelivered(s', H.AtSvToCl);
    assert LookInto(0);
    es :| Leads(r.states[k], es, s') && forall e :: e in es ==> Ordinary(e);
  }

  // ----- the pipes -----

  /** At rest an instance that was not dropped is in the kernel, after at most one more packet. */
  lemma InstanceComesRound(s: State, places: seq<P.Place>, token: H.Token, i: nat, w: nat)
    returns (s': State, places': seq<P.Place>, token': H.Token)
    requires V.Inv(s, places, token) && !s.ctl.event && w < |s.pcs| && Serves(s.pcs[w])
    requires i < |places| && !places[i].Dropped?
    ensures Goes(s, s') && V.Inv(s', places', token') && i < |s'.pipes| == |places'|
    ensures places'[i].InKernel? && s'.pipes[i].completed == s.pipes[i].completed
  {
    s', places', token' := ComeToRest(s, places, token, w);
    assert P.PipeInv(s', i, places'[i]);
    RestPlace(s', i, places'[i]);
    if places'[i].InPort? {
      var t, pt, tt := s', places', token';
      var e := Work(w, Take(PipeSource(i)));
      PacketIsTaken(t, pt, tt, i, w);
      s', places', token' := ComeToRest(Apply(t, e), V.PlacesAfter(t, e, pt), H.TokenAfter(t, e, tt), w);
      assert P.PipeInv(s', i, places'[i]);
      RestPlace(s', i, places'[i]);
      GoesFirst(t, e, s');
      GoesOn(s, t, s');
    }
  }

  lemma PacketIsTaken(s: State, places: seq<P.Place>, token: H.Token, i: nat, w: nat)
    requires V.Inv(s, places, token) && !s.ctl.event && AtRest(s) && w < |s.pcs| && Serves(s.pcs[w])
    requires i < |places| && places[i].InPort?
    ensures var e := Work(w, Take(PipeSource(i)));
            && Enabled(s, e) && !Apply(s, e).ctl.event && Serves(Apply(s, e).pcs[w])
            && V.Inv(Apply(s, e), V.PlacesAfter(s, e, places), H.TokenAfter(s, e, token))
            && V.PlacesAfter(s, e, places)[i] == P.With(w)
            && Apply(s, e).pipes[i].completed == s.pipes[i].completed
  {
    var e := Work(w, Take(PipeSource(i)));
    assert P.PipeInv(s, i, places[i]);
    V.StepKeepsInv(s, e, places, token);
  }

  /**
   * No pipe gets stuck. As long as an instance has met no fault of its own, before the shutdown ordinary steps lead
   * to a state in which the kernel has its next operation and every message that it has read is handled.
   */
  lemma PipeGoesOn(r: Run, k: nat, i: nat, w: nat) returns (es: seq<Step>, s': State)
    requires r.Valid() && k < |r.states| && !r.states[k].ctl.event
    requires i < |r.states[k].pipes| && V.NoPipeFault(r, k, i)
    requires w < |r.states[k].pcs| && !V.PortFailedFor(r, k, w)
    ensures Leads(r.states[k], es, s') && forall e :: e in es ==> Ordinary(e)
    ensures i < |s'.pipes| && |s'.pipes[i].running| == 1
    ensures s'.pipes[i].completed == r.states[k].pipes[i].completed
    ensures |R.HandledFrom(s'.handled, i)| == |s'.pipes[i].completed|
    ensures L.TextsOf(R.HandledFrom(s'.handled, i), s'.pipes[i].completed)
  {
    V.RunKeepsInv(r, k);
    V.DroppedByFault(r, k, i);
    V.OnlyReasonsToExit(r, k, w);
    var places', token';
    s', places', token' := InstanceComesRound(r.states[k], V.PlacesAt(r, k), V.TokenAt(r, k), i, w);
    assert P.PipeInv(s', i, places'[i]) && L.Inv(R.Abs(s', i, places'[i]));
    assert LookInto(0);
    es :| Leads(r.states[k], es, s') && forall e :: e in es ==> Ordinary(e);
  }
}
