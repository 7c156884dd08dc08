/** The server, projected on one pipe, is the sequential loop, whichever workers happen to run its statements. */
module PipeRefinement {
  import opened Outcomes
  import opened Bytes
  import opened PipeState
  import opened Server
  import opened PipeOwnership
  import L = SequentialLoop

  /** The texts of the "received" lines of one pipe. */
  function ReceivedFrom(lines: seq<Line>, i: nat): seq<seq<Byte>> {
    if lines == [] then [] else
      var last := lines[|lines| - 1];
      ReceivedFrom(lines[..|lines| - 1], i) + (if last.Received? && last.i == i then [last.text] else [])
  }

  /** The texts handed to the message handler for one pipe. */
  function HandledFrom(messages: seq<Message>, i: nat): seq<seq<Byte>> {
    if messages == [] then [] else
      var last := messages[|messages| - 1];
      HandledFrom(messages[..|messages| - 1], i) + (if last.PipeMessage? && last.i == i then [last.text] else [])
  }

  predicate IsMessage(r: Result) {
    r.operation.Read? && r.errorCode == ERROR_SUCCESS && !r.zombie
  }

  /** Where the loop is while a worker answers for the instance. */
  function PhaseOf(pc: Pc): L.Phase {
    match pc
    case Got(FromPipe(_, p)) => L.Done(p.kind, p.errorCode == ERROR_SUCCESS, p.bytes)
    case SvcEnter(_, p) => L.Done(p.kind, p.errorCode == ERROR_SUCCESS, p.bytes)
    case SvcRun(_, p) => L.Done(p.kind, p.errorCode == ERROR_SUCCESS, p.bytes)
    case SvcLeave(_, r) => L.Serviced(IsMessage(r), r.bytes)
    case Push(_, _, Served(_, r)) => L.Serviced(IsMessage(r), r.bytes)
    case Served(_, r) => L.Serviced(IsMessage(r), r.bytes)
    case Terminated(_, r) => L.Terminated(r.bytes)
    case Push(stage, Received(_, text), HandlePipe(_, _)) =>
      if stage.Entering? || stage.Enqueuing? then L.Logging(text) else L.Logged
    case HandlePipe(_, _) => L.Logged
    case _ => L.Ready
  }

  function Phase(s: State, i: nat, place: Place): L.Phase
    requires i < |s.pipes|
  {
    match place
    case InKernel => if s.pipes[i].running == [] then L.Abandoned else L.Busy(s.pipes[i].running[0].kind)
    case InPort =>
      if s.pipes[i].queued == [] then L.Abandoned else
        var p := s.pipes[i].queued[0];
        L.Done(p.kind, p.errorCode == ERROR_SUCCESS, p.bytes)
    case With(w) => if w < |s.pcs| then PhaseOf(s.pcs[w]) else L.Abandoned
    case Dropped => L.Abandoned
  }

  function Abs(s: State, i: nat, place: Place): L.State
    requires i < |s.pipes|
  {
    L.State(Phase(s, i, place), s.pipes[i].buf, s.pipes[i].completed,
            ReceivedFrom(s.log.enqueued, i), HandledFrom(s.handled, i))
  }

  /** The statement of the loop that a step of the server is for instance `i`, if it is one. */
  function EventOf(s: State, e: Step, i: nat): Option<L.Event>
    requires Enabled(s, e) && i < |s.pipes|
  {
    match e
    case Work(w, c) => if Holds(s.pcs[w]) == Some(i) then WorkEvent(s, w, c) else None
    case Scribble(j, buf) => if j == i then Some(L.Scribble(buf)) else None
    case Complete(j, errorCode, bytes) => if j == i then Some(L.Finish(errorCode == ERROR_SUCCESS, bytes)) else None
    case Lose(j) => if j == i then Some(L.Abandon) else None
    case _ => None
  }

  function WorkEvent(s: State, w: nat, c: Choice): Option<L.Event>
    requires w < |s.pcs|
  {
    match s.pcs[w]
    case Got(_) => if s.ctl.event then Some(L.Abandon) else None
    case Push(stage, line, _) => if stage.Enqueuing? && line.Received? then Some(L.Log) else None
    case SvcRun(_, _) => Some(L.Service)
    case Served(_, r) => Some(if IsMessage(r) then L.Terminate else L.Skip)
    case Terminated(_, _) => Some(L.Format)
    case HandlePipe(_, _) => Some(L.Handle)
    case StartRun(_, _) => Some(if c.Yes? then L.StartRead else L.Abandon)
    case _ => None
  }

  /** `l'` is the loop's next state after this event, or the same state where there is none. */
  ghost predicate Follows(l: L.State, event: Option<L.Event>, l': L.State) {
    match event
    case None => l' == l
    case Some(e) => L.Enabled(l, e) && l' == L.Apply(l, e)
  }

  lemma ReceivedGrow(lines: seq<Line>, more: seq<Line>, i: nat)
    requires |more| <= 1
    ensures ReceivedFrom(lines + more, i) ==
              ReceivedFrom(lines, i) +
              (if more != [] && more[0].Received? && more[0].i == i then [more[0].text] else [])
  {
    if more == [] {
      assert lines + more == lines;
    } else {
      assert (lines + more)[..|lines|] == lines;
    }
  }

  lemma HandledGrow(messages: seq<Message>, more: seq<Message>, i: nat)
    requires |more| <= 1
    ensures HandledFrom(messages + more, i) ==
              HandledFrom(messages, i) +
              (if more != [] && more[0].PipeMessage? && more[0].i == i then [more[0].text] else [])
  {
    if more == [] {
      assert messages + more == messages;
    } else {
      assert (messages + more)[..|messages|] == messages;
    }
  }

  /** The histories of pipe `i` grow only by a worker that answers for it. */
  lemma HistoriesOf(s: State, w: nat, c: Choice, i: nat)
    requires i < |s.pipes| && CanWork(s, w, c) && Resumes(s.pcs[w])
    ensures var s', pc := WorkStep(s, w, c), s.pcs[w];
            && ReceivedFrom(s'.log.enqueued, i) == ReceivedFrom(s.log.enqueued, i) +
                 (if pc.Push? && pc.stage.Enqueuing? && pc.line.Received? && Holds(pc) == Some(i)
                  then [pc.line.text] else [])
            && HandledFrom(s'.handled, i) == HandledFrom(s.handled, i) +
                 (if pc.HandlePipe? && Holds(pc) == Some(i) then [UpToNul(s.pipes[i].buf)] else [])
  {
    WorkHistories(s, w, c);
    ExtendedHistories(s, WorkStep(s, w, c), s.pcs[w], i);
  }

  lemma ExtendedHistories(s: State, s': State, pc: Pc, i: nat)
    requires i < |s.pipes| && Resumes(pc) && (pc.HandlePipe? ==> pc.i < |s.pipes|)
    requires s'.log.enqueued == s.log.enqueued + (if pc.Push? && pc.stage.Enqueuing? then [pc.line] else [])
    requires s'.handled == s.handled +
               (if pc.HandlePipe? then [PipeMessage(pc.i, UpToNul(s.pipes[pc.i].buf))]
                else if pc.ShmHandle? then [ShmMessage(UpToNul(s.shm.buf))]
                else [])
    ensures ReceivedFrom(s'.log.enqueued, i) == ReceivedFrom(s.log.enqueued, i) +
              (if pc.Push? && pc.stage.Enqueuing? && pc.line.Received? && Holds(pc) == Some(i)
               then [pc.line.text] else [])
    ensures HandledFrom(s'.handled, i) == HandledFrom(s.handled, i) +
              (if pc.HandlePipe? && Holds(pc) == Some(i) then [UpToNul(s.pipes[i].buf)] else [])
  {
    ReceivedGrow(s.log.enqueued, if pc.Push? && pc.stage.Enqueuing? then [pc.line] else [], i);
    HandledGrow(s.handled,
      if pc.HandlePipe? then [PipeMessage(pc.i, UpToNul(s.pipes[pc.i].buf))]
      else if pc.ShmHandle? then [ShmMessage(UpToNul(s.shm.buf))]
      else [], i);
  }

  /** A statement does to the instance and its phase what the event does in the loop. */
  ghost predicate Mirrors(l: L.State, event: Option<L.Event>, phase: L.Phase, pipe: Pipe) {
    match event
    case None => phase == l.phase && pipe.buf == l.buf && pipe.completed == l.completed
    case Some(e) =>
      && L.Enabled(l, e)
      && var l' := L.Apply(l, e);
         phase == l'.phase && pipe.buf == l'.buf && pipe.completed == l'.completed
  }

  predicate InService(pc: Pc) {
    pc.SvcEnter? || pc.SvcRun? || pc.SvcLeave?
  }

  lemma ServiceRefines(s: State, w: nat, c: Choice, i: nat)
    requires i < |s.pipes| && PipeInv(s, i, With(w)) && CanWork(s, w, c)
    requires Instance(s.pcs[w]) == Some(i) && InService(s.pcs[w])
    ensures Mirrors(Abs(s, i, With(w)), WorkEvent(s, w, c),
                    Phase(WorkStep(s, w, c), i, PlaceAfter(s, Work(w, c), i, With(w))), WorkStep(s, w, c).pipes[i])
  {
    assert Holds(s.pcs[w]) == Some(i);
    assert InSection(s.pcs[w], i) <==> s.pipes[i].lock == Some(w);
  }

  lemma TerminateRefines(s: State, w: nat, c: Choice, i: nat)
    requires i < |s.pipes| && PipeInv(s, i, With(w)) && CanWork(s, w, c)
    requires Instance(s.pcs[w]) == Some(i) && s.pcs[w].Served?
    requires L.Inv(Abs(s, i, With(w)))
    ensures Mirrors(Abs(s, i, With(w)), WorkEvent(s, w, c),
                    Phase(WorkStep(s, w, c), i, PlaceAfter(s, Work(w, c), i, With(w))), WorkStep(s, w, c).pipes[i])
  {}

  lemma HandlingRefines(s: State, w: nat, c: Choice, i: nat)
    requires i < |s.pipes| && PipeInv(s, i, With(w)) && CanWork(s, w, c)
    requires Instance(s.pcs[w]) == Some(i) && (s.pcs[w].Terminated? || s.pcs[w].HandlePipe?)
    ensures Mirrors(Abs(s, i, With(w)), WorkEvent(s, w, c),
                    Phase(WorkStep(s, w, c), i, PlaceAfter(s, Work(w, c), i, With(w))), WorkStep(s, w, c).pipes[i])
  {}

  lemma RestartRefines(s: State, w: nat, c: Choice, i: nat)
    requires i < |s.pipes| && PipeInv(s, i, With(w)) && CanWork(s, w, c)
    requires Instance(s.pcs[w]) == Some(i) && (s.pcs[w].Restart? || s.pcs[w].StartEnter?)
    ensures Mirrors(Abs(s, i, With(w)), WorkEvent(s, w, c),
                    Phase(WorkStep(s, w, c), i, PlaceAfter(s, Work(w, c), i, With(w))), WorkStep(s, w, c).pipes[i])
  {
    assert Holds(s.pcs[w]) == Some(i) <==> With(w) == With(w);
  }

  lemma StartRefines(s: State, w: nat, c: Choice, i: nat)
    requires i < |s.pipes| && PipeInv(s, i, With(w)) && CanWork(s, w, c)
    requires Instance(s.pcs[w]) == Some(i) && s.pcs[w].StartRun?
    ensures Mirrors(Abs(s, i, With(w)), WorkEvent(s, w, c),
                    Phase(WorkStep(s, w, c), i, PlaceAfter(s, Work(w, c), i, With(w))), WorkStep(s, w, c).pipes[i])
  {
    WorkHere(s, w, c, i, With(w));
  }

  /** Logging a line and the exit test are the only other statements of an owner. */
  lemma OwnerAside(s: State, w: nat, c: Choice, i: nat)
    requires i < |s.pipes| && PipeInv(s, i, With(w)) && CanWork(s, w, c) && Resumes(s.pcs[w])
    requires Instance(s.pcs[w]).None? && Holds(s.pcs[w]) == Some(i)
    ensures Mirrors(Abs(s, i, With(w)), WorkEvent(s, w, c),
                    Phase(WorkStep(s, w, c), i, PlaceAfter(s, Work(w, c), i, With(w))), WorkStep(s, w, c).pipes[i])
  {
    WorkAside(s, w, c, i);
  }

  /** A worker that does not answer for the instance changes nothing of it, at most takes its packet. */
  lemma StrangerRefines(s: State, w: nat, c: Choice, i: nat, place: Place)
    requires i < |s.pipes| && PipeInv(s, i, place) && CanWork(s, w, c) && Resumes(s.pcs[w])
    requires Holds(s.pcs[w]) != Some(i)
    ensures Mirrors(Abs(s, i, place), None,
                    Phase(WorkStep(s, w, c), i, PlaceAfter(s, Work(w, c), i, place)), WorkStep(s, w, c).pipes[i])
  {
    assert Holds(s.pcs[w]) == Some(i) <==> place == With(w);
    if Instance(s.pcs[w]).None? {
      WorkAside(s, w, c, i);
    } else if Instance(s.pcs[w]) != Some(i) {
      WorkAtOther(s, w, c, i, Instance(s.pcs[w]).value);
    } else {
      WorkHere(s, w, c, i, place);
    }
  }

  /** Every step of the server is, for each pipe, one statement of the sequential loop or none. */
  lemma StepRefines(s: State, e: Step, i: nat, place: Place)
    requires i < |s.pipes| && PipeInv(s, i, place) && Enabled(s, e) && AllResume(s)
    requires L.Inv(Abs(s, i, place))
    ensures i < |Apply(s, e).pipes|
    ensures Follows(Abs(s, i, place), EventOf(s, e, i), Abs(Apply(s, e), i, PlaceAfter(s, e, i, place)))
  {
    if e.Work? {
      WorkRefines(s, e.w, e.c, i, place);
    } else {
      OthersRefine(s, e, i, place);
    }
  }

  lemma OthersRefine(s: State, e: Step, i: nat, place: Place)
    requires i < |s.pipes| && PipeInv(s, i, place) && Enabled(s, e) && !e.Work?
    ensures i < |Apply(s, e).pipes|
    ensures Follows(Abs(s, i, place), EventOf(s, e, i), Abs(Apply(s, e), i, PlaceAfter(s, e, i, place)))
  {
    assert Apply(s, e).log.enqueued == s.log.enqueued && Apply(s, e).handled == s.handled;
  }

  lemma WorkRefines(s: State, w: nat, c: Choice, i: nat, place: Place)
    requires i < |s.pipes| && PipeInv(s, i, place) && CanWork(s, w, c) && Resumes(s.pcs[w])
    requires L.Inv(Abs(s, i, place))
    ensures Follows(Abs(s, i, place), EventOf(s, Work(w, c), i),
                    Abs(WorkStep(s, w, c), i, PlaceAfter(s, Work(w, c), i, place)))
  {
    assert Holds(s.pcs[w]) == Some(i) <==> place == With(w);
    HistoriesOf(s, w, c, i);
    WorkMirrors(s, w, c, i, place);
    MirrorsFollow(Abs(s, i, place), EventOf(s, Work(w, c), i),
                  Abs(WorkStep(s, w, c), i, PlaceAfter(s, Work(w, c), i, place)), WorkStep(s, w, c).pipes[i]);
  }

  /** Only the two events that add to a history change one. */
  lemma MirrorsFollow(l: L.State, event: Option<L.Event>, l': L.State, pipe: Pipe)
    requires Mirrors(l, event, l'.phase, pipe) && l'.buf == pipe.buf && l'.completed == pipe.completed
    requires l'.logged == l.logged + (if event == Some(L.Log) then [l.phase.text] else [])
    requires l'.handled == l.handled + (if event == Some(L.Handle) then [UpToNul(l.buf)] else [])
    ensures Follows(l, event, l')
  {}

  lemma WorkMirrors(s: State, w: nat, c: Choice, i: nat, place: Place)
    requires i < |s.pipes| && PipeInv(s, i, place) && CanWork(s, w, c) && Resumes(s.pcs[w])
    requires L.Inv(Abs(s, i, place))
    ensures Mirrors(Abs(s, i, place), EventOf(s, Work(w, c), i),
                    Phase(WorkStep(s, w, c), i, PlaceAfter(s, Work(w, c), i, place)), WorkStep(s, w, c).pipes[i])
  {
    var pc := s.pcs[w];
    assert Holds(pc) == Some(i) <==> place == With(w);
    if Holds(pc) != Some(i) {
      StrangerRefines(s, w, c, i, place);
    } else if Instance(pc).None? {
      OwnerAside(s, w, c, i);
    } else if InService(pc) {
      ServiceRefines(s, w, c, i);
    } else if pc.Served? {
      TerminateRefines(s, w, c, i);
    } else if pc.Terminated? || pc.HandlePipe? {
      HandlingRefines(s, w, c, i);
    } else if pc.Restart? || pc.StartEnter? {
      RestartRefines(s, w, c, i);
    } else {
      StartRefines(s, w, c, i);
    }
  }
}
