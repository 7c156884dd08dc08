/** No deadlock among the workers: the locks nest at most two deep, and every owner can go on. */
module DeadlockFreedom {
  import opened Server
  import P = PipeOwnership
  import H = Handoff
  import Q = LogQueue

  /** The worker has a step that is not a failure of the port. */
  ghost predicate CanMove(s: State, w: nat) {
    w < |s.pcs| && exists c :: CanWork(s, w, c) && !(s.pcs[w].AtPort? && c.No?)
  }

  /** A reader that owns the log's lock has a step. */
  predicate ReaderCanMove(s: State, p: nat) {
    p < |s.log.poppers| && Q.PopLocked(s.log.poppers[p]) && Enabled(s, Pop(p))
  }

  ghost predicate SomebodyMoves(s: State) {
    (exists w: nat :: CanMove(s, w)) || (exists p: nat :: ReaderCanMove(s, p))
  }

  /** The worker is somewhere between taking a packet and the next wait on the port. */
  predicate Inside(pc: Pc) {
    !pc.AtPort? && !pc.Exited?
  }

  /** It is, and it can go on; where a statement asks the system, the answer is yes. */
  predicate InsideCanMove(s: State, w: nat) {
    w < |s.pcs| && Inside(s.pcs[w]) && CanWork(s, w, Yes)
  }

  ghost predicate SomebodyInsideMoves(s: State) {
    (exists w: nat :: InsideCanMove(s, w)) || (exists p: nat :: ReaderCanMove(s, p))
  }

  /** A worker that is done, or waits on a port with no packet in it. */
  predicate Resting(s: State, w: nat)
    requires w < |s.pcs|
  {
    s.pcs[w].Exited? || (s.pcs[w].AtPort? && PortEmpty(s))
  }

  ghost predicate LocksOk(s: State) {
    && AllInRange(s)
    && (forall i: nat :: i < |s.pipes| ==> P.SectionInv(s, i))
    && H.LocksInv(s) && |s.shm.buf| == |s.shm.mem| > 0
    && Q.Inv(s)
  }

  /** Whoever is past a lock's entry, or at no lock, can go on. */
  predicate Unblocked(pc: Pc) {
    && !pc.Exited? && !pc.AtPort? && !pc.SvcEnter? && !pc.StartEnter? && !pc.ShmEnter? && !pc.ShmInner?
    && !(pc.Push? && pc.stage.Entering?)
  }

  lemma UnblockedMoves(s: State, w: nat)
    requires w < |s.pcs| && InRange(s.pcs[w], |s.pipes|) && |s.shm.buf| == |s.shm.mem| > 0 && Unblocked(s.pcs[w])
    ensures InsideCanMove(s, w)
  {}

  lemma AtPortMoves(s: State, w: nat)
    requires w < |s.pcs| && s.pcs[w].AtPort? && !PortEmpty(s)
    ensures CanMove(s, w)
  {
    var source :=
      if s.shm.packets > 0 then ShmSource
      else if s.ctl.exits > 0 then ExitSource
      else var i :| 0 <= i < |s.pipes| && s.pipes[i].queued != []; PipeSource(i);
    assert CanWork(s, w, Take(source));
  }

  lemma PipeLockMoves(s: State, w: nat, i: nat)
    requires LocksOk(s) && w < |s.pcs| && i < |s.pipes|
    requires (s.pcs[w].SvcEnter? || s.pcs[w].StartEnter?) && s.pcs[w].i == i
    ensures SomebodyInsideMoves(s)
  {
    if s.pipes[i].lock.None? {
      assert InsideCanMove(s, w);
    } else {
      var v := s.pipes[i].lock.value;
      assert P.SectionInv(s, i);
      assert P.InSection(s.pcs[v], i);
      UnblockedMoves(s, v);
    }
  }

  /** The inner lock is only ever taken under the outer one, so it is free for whoever holds the outer one. */
  lemma InnerLockMoves(s: State, w: nat)
    requires LocksOk(s) && w < |s.pcs| && s.pcs[w].ShmInner?
    ensures s.shm.inner.None?
    ensures InsideCanMove(s, w)
  {
    assert H.HoldsOuter(s.pcs[w]);
    assert forall v: nat :: v < |s.pcs| && H.HoldsInner(s.pcs[v]) ==> H.HoldsOuter(s.pcs[v]);
  }

  lemma OuterLockMoves(s: State, w: nat)
    requires LocksOk(s) && w < |s.pcs| && s.pcs[w].ShmEnter?
    ensures SomebodyInsideMoves(s)
  {
    if s.shm.outer.None? {
      assert InsideCanMove(s, w);
    } else {
      var v := s.shm.outer.value;
      assert H.HoldsOuter(s.pcs[v]);
      if s.pcs[v].ShmInner? {
        InnerLockMoves(s, v);
      } else {
        UnblockedMoves(s, v);
      }
    }
  }

  lemma LogLockMoves(s: State, w: nat)
    requires LocksOk(s) && w < |s.pcs| && s.pcs[w].Push? && s.pcs[w].stage.Entering?
    ensures SomebodyInsideMoves(s)
  {
    if s.log.lock.None? {
      assert InsideCanMove(s, w);
    } else if s.log.lock.value.Worker? {
      var v := s.log.lock.value.w;
      assert Q.PushLocked(s.pcs[v]);
      UnblockedMoves(s, v);
    } else {
      var p := s.log.lock.value.p;
      assert Q.PopLocked(s.log.poppers[p]);
      if s.log.poppers[p].Popping? {
        Q.FrontExists(s, p);
      }
      assert ReaderCanMove(s, p);
    }
  }

  /** While a worker is inside, some worker inside or a reader that owns the log's lock can go on. */
  lemma InsideMoves(s: State, w: nat)
    requires LocksOk(s) && w < |s.pcs| && Inside(s.pcs[w])
    ensures SomebodyInsideMoves(s)
  {
    var pc := s.pcs[w];
    if pc.SvcEnter? || pc.StartEnter? {
      PipeLockMoves(s, w, pc.i);
    } else if pc.ShmEnter? {
      OuterLockMoves(s, w);
    } else if pc.ShmInner? {
      InnerLockMoves(s, w);
    } else if pc.Push? && pc.stage.Entering? {
      LogLockMoves(s, w);
    } else {
      UnblockedMoves(s, w);
    }
  }

  /** Somebody moves unless every worker is done or waits on an empty port. */
  lemma NoDeadlock(s: State)
    requires LocksOk(s)
    ensures SomebodyMoves(s) || forall w :: 0 <= w < |s.pcs| ==> Resting(s, w)
  {
    if w: nat :| w < |s.pcs| && !Resting(s, w) {
      if s.pcs[w].AtPort? {
        AtPortMoves(s, w);
      } else {
        InsideMoves(s, w);
        assert forall v: nat :: InsideCanMove(s, v) ==> CanMove(s, v);
      }
    }
  }
}
