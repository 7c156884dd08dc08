/**
 * Stopping the server: one exit packet per worker after the event is set, whatever else is queued. Counting shows
 * that no worker is left waiting, and a rank of program counters shows that the workers run out of steps.
 */
module Shutdown {
  import opened Outcomes
  import opened Server
  import opened Sums

  /** Once the event is set, a worker here exits without taking another packet. */
  predicate Doomed(pc: Pc) {
    pc.Exited? || pc.Got? || (pc.Push? && (pc.line.ShutDown? || pc.line.PortFailed?))
  }

  function StillTakes(pc: Pc): nat {
    if Doomed(pc) then 0 else 1
  }

  function Posted(s: State): nat {
    match s.ctl.stopper
    case Running => 0
    case Stopping(posted) => posted
    case Stopped => |s.pcs|
  }

  /** Exit packets, posted or still to come, suffice for the workers that will take one more packet. */
  ghost predicate Inv(s: State) {
    && (s.ctl.event <==> !s.ctl.stopper.Running?)
    && (s.ctl.stopper.Running? ==> s.ctl.exits == 0 && forall w :: 0 <= w < |s.pcs| ==> s.pcs[w] != Got(ExitNow))
    && Posted(s) <= |s.pcs|
    && (s.ctl.event ==> Sum(s.pcs, StillTakes) <= s.ctl.exits + (|s.pcs| - Posted(s)))
    && (s.ctl.stopper.Stopped? ==> AllExited(s))
    && (!s.ctl.pipeServer ==> s.ctl.stopper.Stopped?)
  }

  /** A worker that takes a packet after the event is doomed by it, and the doomed stay doomed. */
  lemma WorkAndDoom(s: State, w: nat, c: Choice)
    requires CanWork(s, w, c) && Resumes(s.pcs[w])
    ensures var s' := WorkStep(s, w, c);
            && s'.ctl == (if s.pcs[w].AtPort? && c == Take(ExitSource) then s.ctl.(exits := s.ctl.exits - 1) else s.ctl)
            && (c.Take? ==> s.pcs[w].AtPort? && s'.pcs[w].Got?)
            && (s'.pcs[w] == Got(ExitNow) ==> c == Take(ExitSource))
            && (s.ctl.event && Doomed(s.pcs[w]) ==> Doomed(s'.pcs[w]))
            && (s.pcs[w].AtPort? && c == Take(ExitSource) ==> s.ctl.exits > 0)
            && !s.pcs[w].Exited?
  {
    if Instance(s.pcs[w]).Some? {
      assert WorkStep(s, w, c) == WorkPipe(s, w, c, Instance(s.pcs[w]).value);
    }
  }

  lemma StepKeepsInv(s: State, e: Step)
    requires Inv(s) && Enabled(s, e) && AllResume(s)
    ensures Inv(Apply(s, e))
  {
    match e
    case Work(w, c) =>
      WorkAndDoom(s, w, c);
      SumUpdate(s.pcs, w, WorkStep(s, w, c).pcs[w], StillTakes);
    case Stop =>
      SumConstant(s.pcs, StillTakes, 1);
    case _ =>
  }

  lemma InitInv(s: State)
    requires Init(s)
    ensures Inv(s)
  {}

  function Waits(pc: Pc): nat {
    if pc.AtPort? then 1 else 0
  }

  lemma {:induction false} WaitersStillTake(pcs: seq<Pc>)
    ensures Sum(pcs, Waits) <= Sum(pcs, StillTakes)
  {
    if pcs != [] {
      WaitersStillTake(pcs[..|pcs| - 1]);
    }
  }

  /** After the posts, the exit packets alone are enough for every worker that waits on the port. */
  lemma NoWorkerWaitsInVain(s: State)
    requires Inv(s) && s.ctl.stopper == Stopping(|s.pcs|)
    ensures Sum(s.pcs, Waits) <= s.ctl.exits
    ensures (exists w :: 0 <= w < |s.pcs| && s.pcs[w].AtPort?) ==> Available(s, ExitSource)
  {
    WaitersStillTake(s.pcs);
    if exists w :: 0 <= w < |s.pcs| && s.pcs[w].AtPort? {
      var w :| 0 <= w < |s.pcs| && s.pcs[w].AtPort?;
      SumAtLeast(s.pcs, w, Waits);
    }
  }

  /** No worker is at a statement of the pipe server once that is cleared. */
  lemma ClearedIsUntouched(s: State, w: nat)
    requires Inv(s) && !s.ctl.pipeServer && w < |s.pcs|
    ensures s.pcs[w].Exited?
    ensures forall c :: !CanWork(s, w, c)
  {}

  // ----- termination -----

  function StageRank(stage: Stage): nat {
    match stage
    case Entering => 4
    case Enqueuing => 3
    case Leaving => 2
    case Releasing => 1
  }

  /** More than the statements that are left to a worker once the event is set; `size` is the shared memory's. */
  function Rank(pc: Pc, size: nat): nat {
    if pc.Push? then StageRank(pc.stage) + StatementRank(pc.next, size) else StatementRank(pc, size)
  }

  function StatementRank(pc: Pc, size: nat): nat {
    match pc
    case Exited => 0
    case Push(stage, _, _) => StageRank(stage)   // the last line, with nothing behind it
    case Got(_) => 5
    case AtPort => 9
    case ShmLeave(_) => 14
    case ShmHandle => 15
    case ShmLeaveInner(_) => 16
    case ShmSignal => 17
    case ShmCopy(k) => 18 + (if k < size then size - k else 0)
    case ShmMap => 19 + size
    case ShmInner => 20 + size
    case ShmEnter => 21 + size
    case SvcThrow(_) => 14
    case StartLeave(_, _, _) => 14
    case StartIssued(_, _) => 15
    case StartRun(_, _) => 16
    case StartEnter(_, _) => 17
    case Restart(_, _) => 18
    case HandlePipe(_, _) => 19
    case Terminated(_, _) => 24
    case Served(_, _) => 25
    case SvcLeave(_, _) => 30
    case SvcRun(_, _) => 31
    case SvcEnter(_, _) => 32
  }

  function RankIn(size: nat): Pc -> nat {
    pc => Rank(pc, size)
  }

  function Measure(s: State): nat {
    Sum(s.pcs, RankIn(|s.shm.mem|))
  }

  lemma PipeWorkLowersRank(s: State, w: nat, c: Choice, i: nat)
    requires CanWork(s, w, c) && Instance(s.pcs[w]) == Some(i)
    ensures Rank(WorkPipe(s, w, c, i).pcs[w], |s.shm.mem|) < Rank(s.pcs[w], |s.shm.mem|)
    ensures WorkPipe(s, w, c, i).shm == s.shm
  {}

  lemma ShmWorkLowersRank(s: State, w: nat, c: Choice)
    requires CanWork(s, w, c) && Instance(s.pcs[w]).None?
    requires !s.pcs[w].AtPort? && !s.pcs[w].Got? && !s.pcs[w].Push?
    ensures Rank(WorkShm(s, w, c).pcs[w], |s.shm.mem|) < Rank(s.pcs[w], |s.shm.mem|)
    ensures |WorkShm(s, w, c).shm.mem| == |s.shm.mem|
  {}

  lemma WorkLowersRank(s: State, w: nat, c: Choice)
    requires CanWork(s, w, c) && s.ctl.event && Resumes(s.pcs[w])
    ensures Rank(WorkStep(s, w, c).pcs[w], |s.shm.mem|) < Rank(s.pcs[w], |s.shm.mem|)
    ensures |WorkStep(s, w, c).shm.mem| == |s.shm.mem|
  {
    if Instance(s.pcs[w]).Some? {
      PipeWorkLowersRank(s, w, c, Instance(s.pcs[w]).value);
    } else if !s.pcs[w].AtPort? && !s.pcs[w].Got? && !s.pcs[w].Push? {
      ShmWorkLowersRank(s, w, c);
    }
  }

  /** After the event every step of a worker lowers the measure, and nobody else's step raises it. */
  lemma MeasureFalls(s: State, e: Step)
    requires Enabled(s, e) && s.ctl.event && AllResume(s)
    ensures e.Work? ==> Measure(Apply(s, e)) < Measure(s)
    ensures !e.Work? ==> Measure(Apply(s, e)) == Measure(s)
  {
    if e.Work? {
      WorkLowersRank(s, e.w, e.c);
      SumUpdate(s.pcs, e.w, Apply(s, e).pcs[e.w], RankIn(|s.shm.mem|));
    } else {
      assert Apply(s, e).pcs == s.pcs && |Apply(s, e).shm.mem| == |s.shm.mem|;
    }
  }

  // ----- with the stopping thread, and the log readers, who keep moving on what the workers logged -----

  function ReaderRank(pc: PopperPc): nat {
    match pc
    case Idle => 0
    case Ticket => 3
    case Popping => 2
    case Popped => 1
  }

  /** The exit packets to come and the last step, for `n` workers. */
  function StopRank(pc: StopperPc, n: nat): nat {
    match pc
    case Running => n + 2
    case Stopping(posted) => if posted < n then n - posted + 1 else 1
    case Stopped => 0
  }

  /** A worker's step may release one line, and a line is four steps of a reader. */
  function TotalMeasure(s: State): nat {
    5 * Measure(s) + 4 * s.log.semaphore + Sum(s.log.poppers, ReaderRank) + StopRank(s.ctl.stopper, |s.pcs|)
  }

  lemma WorkAtLog(s: State, w: nat, c: Choice)
    requires CanWork(s, w, c)
    ensures WorkStep(s, w, c).log.semaphore <= s.log.semaphore + 1
    ensures WorkStep(s, w, c).log.poppers == s.log.poppers
    ensures WorkStep(s, w, c).ctl.stopper == s.ctl.stopper
  {
    if Instance(s.pcs[w]).Some? {
      assert WorkStep(s, w, c) == WorkPipe(s, w, c, Instance(s.pcs[w]).value);
    }
  }

  /** The steps that the shutdown waits for. */
  predicate Advances(e: Step) {
    e.Work? || e.Pop? || e.Stop?
  }

  /** After the event each of them lowers the total, and no other step moves it. */
  lemma TotalMeasureFalls(s: State, e: Step)
    requires Enabled(s, e) && s.ctl.event && AllResume(s)
    ensures Advances(e) ==> TotalMeasure(Apply(s, e)) < TotalMeasure(s)
    ensures !Advances(e) ==> TotalMeasure(Apply(s, e)) == TotalMeasure(s)
  {
    MeasureFalls(s, e);
    if e.Work? {
      WorkAtLog(s, e.w, e.c);
    } else if e.Pop? {
      SumUpdate(s.log.poppers, e.p, Apply(s, e).log.poppers[e.p], ReaderRank);
    } else {
      assert Apply(s, e).log == s.log;
    }
  }

  /** The measure is down exactly when every worker has exited. */
  lemma MeasureZero(s: State)
    requires AllResume(s)
    ensures Measure(s) == 0 <==> AllExited(s)
  {
    if Measure(s) == 0 {
      SumZero(s.pcs, RankIn(|s.shm.mem|));
      forall w | 0 <= w < |s.pcs| ensures s.pcs[w].Exited? {
        assert RankIn(|s.shm.mem|)(s.pcs[w]) == 0;
      }
    }
    if AllExited(s) {
      SumConstant(s.pcs, RankIn(|s.shm.mem|), 0);
    }
  }
}
