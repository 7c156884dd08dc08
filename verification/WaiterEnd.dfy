/**
 * The end of the waiter thread: its shutdown event has the lower priority in its wait, but by then no worker is
 * left, so the one token can come round at most once more.
 */
module WaiterEnd {
  import opened Server
  import H = Handoff
  import D = Shutdown

  /** The token can still reach the waiter without a worker's help. */
  predicate Upstream(shm: Shm) {
    shm.svToCl || shm.clToSv || shm.waiter.Posting? || exists c :: 0 <= c < |shm.clients| && H.InWrite(shm.clients[c])
  }

  /** The waiter is told to stop only after the server has stopped, and stays until it is told. */
  predicate StopsLast(s: State) {
    && (s.shm.stop ==> s.ctl.stopper.Stopped?)
    && (s.shm.waiter.Gone? ==> s.shm.stop)
  }

  /** More than the steps that are left to the waiter. */
  function Rank(shm: Shm): nat {
    match shm.waiter
    case Gone => 0
    case Posting => 2
    case Waiting => if Upstream(shm) then 3 else 1
  }

  /** Packets it has posted or may still post. */
  function Posts(shm: Shm): nat {
    shm.packets + (if Upstream(shm) then 1 else 0)
  }

  lemma StepKeepsStopsLast(s: State, e: Step)
    requires StopsLast(s) && Enabled(s, e)
    ensures StopsLast(Apply(s, e))
    ensures s.shm.stop ==> Apply(s, e).shm.stop
  {
    if e.Work? {
      WorkKeepsStop(s, e.w, e.c);
    }
  }

  lemma WorkKeepsStop(s: State, w: nat, c: Choice)
    requires CanWork(s, w, c)
    ensures WorkStep(s, w, c).shm.stop == s.shm.stop && WorkStep(s, w, c).shm.waiter == s.shm.waiter
    ensures WorkStep(s, w, c).ctl.stopper == s.ctl.stopper
  {
    if Instance(s.pcs[w]).Some? {
      assert WorkStep(s, w, c) == WorkPipe(s, w, c, Instance(s.pcs[w]).value);
    }
  }

  /** Where the token is, in these terms. */
  predicate UpstreamToken(token: H.Token) {
    token.AtSvToCl? || token.AtClient? || token.AtClToSv? || token.AtWaiter?
  }

  lemma UpstreamByToken(s: State, token: H.Token)
    requires H.Located(s, token)
    ensures Upstream(s.shm) <==> UpstreamToken(token)
  {
    if token.AtClient? {
      assert H.InWrite(s.shm.clients[token.c]);
    }
  }

  /** After the stop each step of the waiter brings it nearer to its end, and nobody's step takes it back. */
  lemma EndComesNearer(s: State, e: Step, token: H.Token)
    requires s.shm.stop && StopsLast(s) && D.Inv(s) && AllResume(s) && H.LocksInv(s) && H.Located(s, token)
    requires Enabled(s, e)
    ensures !e.Work?
    ensures var shm' := Apply(s, e).shm;
            && Posts(shm') <= Posts(s.shm)
            && (if e.Wait? then Rank(shm') < Rank(s.shm) else Rank(shm') <= Rank(s.shm))
  {
    H.StepKeepsToken(s, e, token);
    UpstreamByToken(s, token);
    UpstreamByToken(Apply(s, e), H.TokenAfter(s, e, token));
    if e.ClientStep? || e.ClientCrash? {
      assert H.InWrite(s.shm.clients[e.client]) <==> token == H.AtClient(e.client);
    }
  }

  /** From the stop on: at most three steps and one packet, and a waiter that is not gone can always go on. */
  lemma EndBounds(s: State)
    requires s.shm.stop && StopsLast(s) && D.Inv(s)
    ensures AllExited(s)
    ensures Rank(s.shm) <= 3
    ensures s.shm.packets <= Posts(s.shm) <= s.shm.packets + 1
    ensures Enabled(s, Wait) <==> !s.shm.waiter.Gone?
  {}
}
