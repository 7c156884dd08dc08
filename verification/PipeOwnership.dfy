/**
 * Who answers for a pipe instance: the kernel, the port, one worker, or nobody after a fault. The buffer of an
 * instance has no lock; that at most one party may touch it follows from the critical section alone.
 */
module PipeOwnership {
  import opened Outcomes
  import opened Bytes
  import opened PipeState
  import opened Server

  datatype Place = InKernel | InPort | With(w: nat) | Dropped

  /** From the moment a worker takes the packet of an instance until the kernel accepts the next operation. */
  function Holds(pc: Pc): Option<nat> {
    match Core(pc)
    case Got(FromPipe(i, _)) => Some(i)
    case SvcThrow(_) => None
    case StartIssued(_, _) => None
    case StartLeave(_, _, _) => None
    case core => Instance(core)
  }

  predicate InSection(pc: Pc, i: nat) {
    match pc
    case SvcRun(j, _) => j == i
    case SvcLeave(j, _) => j == i
    case SvcThrow(j) => j == i
    case StartRun(j, _) => j == i
    case StartIssued(j, _) => j == i
    case StartLeave(j, _, _) => j == i
    case _ => false
  }

  /** The mode that counts: a start that the kernel accepted counts before its flag is written. */
  function ModeOf(s: State, i: nat): Mode
    requires i < |s.pipes|
  {
    var pipe := s.pipes[i];
    if pipe.lock.Some? && pipe.lock.value < |s.pcs| && s.pcs[pipe.lock.value].StartIssued? then
      if s.pcs[pipe.lock.value].kind.Connect? then Connecting else Reading
    else
      pipe.mode
  }

  predicate Names(m: Mode, k: Kind) {
    m == if k.Connect? then Connecting else Reading
  }

  /** What a worker that answers for an instance knows about its mode. */
  predicate Knows(pc: Pc, m: Mode) {
    match Core(pc)
    case Got(FromPipe(_, p)) => Names(m, p.kind)
    case SvcEnter(_, p) => Names(m, p.kind)
    case SvcRun(_, p) => Names(m, p.kind)
    case SvcLeave(_, r) => m.Connected? && r.newMode.Connected? && !r.zombie
    case Served(_, r) => m.Connected? && r.newMode.Connected? && !r.zombie
    case Terminated(_, r) => m.Connected? && r.newMode.Connected?
    case HandlePipe(_, r) => m.Connected? && r.newMode.Connected?
    case Restart(_, r) => m.Connected? && r.newMode.Connected?
    case StartEnter(_, kind) => m.Connected? && kind.Read?
    case StartRun(_, kind) => m.Connected? && kind.Read?
    case _ => true
  }

  /** The locking discipline of one instance, and what is known between `ReadFile` and the write of the flag. */
  ghost predicate SectionInv(s: State, i: nat)
    requires i < |s.pipes|
  {
    && (forall w: nat :: w < |s.pcs| ==> (InSection(s.pcs[w], i) <==> s.pipes[i].lock == Some(w)))
    && (s.pipes[i].lock.Some? ==> s.pipes[i].lock.value < |s.pcs|)
    && (forall w: nat :: w < |s.pcs| && s.pcs[w].StartIssued? && s.pcs[w].i == i ==>
          s.pcs[w].kind.Read? && s.pipes[i].mode.Connected?)
    && (forall w: nat :: w < |s.pcs| ==> s.pcs[w] != SvcThrow(i))
  }

  /** Instance `i` is in this place and in no other. */
  ghost predicate Located(s: State, i: nat, place: Place)
    requires i < |s.pipes|
  {
    && |s.pipes[i].running| == (if place.InKernel? then 1 else 0)
    && |s.pipes[i].queued| == (if place.InPort? then 1 else 0)
    && (forall w: nat :: w < |s.pcs| ==> (Holds(s.pcs[w]) == Some(i) <==> place == With(w)))
    && (place.With? ==> place.w < |s.pcs|)
  }

  ghost predicate ModeInv(s: State, i: nat, place: Place)
    requires i < |s.pipes| && Located(s, i, place)
  {
    match place
    case InKernel => Names(ModeOf(s, i), s.pipes[i].running[0].kind)
    case InPort => Names(ModeOf(s, i), s.pipes[i].queued[0].kind)
    case With(w) => Knows(s.pcs[w], ModeOf(s, i))
    case Dropped => true
  }

  /** A running read was asked for all of the buffer but one byte. */
  ghost predicate SizeInv(s: State, i: nat)
    requires i < |s.pipes|
  {
    && |s.pipes[i].buf| == DATA_BUFFER_SIZE
    && forall r :: r in s.pipes[i].running && r.kind.Read? ==> r.size == |s.pipes[i].buf| - 1
  }

  /** Nobody disconnects an instance, so it never leaves its one connection. */
  predicate Engaged(m: Mode) {
    m.Connecting? || m.Connected? || m.Reading?
  }

  ghost predicate PipeInv(s: State, i: nat, place: Place)
    requires i < |s.pipes|
  {
    && SectionInv(s, i) && Located(s, i, place) && ModeInv(s, i, place)
    && SizeInv(s, i) && Engaged(s.pipes[i].mode)
  }

  /** Where a step takes the instance. */
  function PlaceAfter(s: State, e: Step, i: nat, place: Place): Place
    requires Enabled(s, e) && i < |s.pipes|
  {
    match e
    case Work(w, c) =>
      if Holds(Apply(s, e).pcs[w]) == Some(i) then With(w)
      else if Holds(s.pcs[w]) != Some(i) then place
      else if s.pcs[w].StartRun? && c.Yes? then InKernel
      else Dropped
    case Complete(j, _, _) => if j == i then InPort else place
    case Lose(j) => if j == i then Dropped else place
    case _ => place
  }

  /** A worker's step seen from instance `i`: the lock, the packet and the operation move by this worker only. */
  lemma WorkAtInstance(s: State, w: nat, c: Choice, i: nat)
    requires i < |s.pipes| && SectionInv(s, i) && CanWork(s, w, c) && Resumes(s.pcs[w])
    ensures var s', pc := WorkStep(s, w, c), s.pcs[w];
            var pipe, pipe', pc' := s.pipes[i], s'.pipes[i], s'.pcs[w];
            && (InSection(pc', i) <==> pipe'.lock == Some(w))
            && (pipe'.lock == pipe.lock || (pipe.lock == None && pipe'.lock == Some(w))
                || (pipe.lock == Some(w) && pipe'.lock == None))
            && (pipe'.mode != pipe.mode ==> pipe.lock == Some(w))
  {
    assert InSection(s.pcs[w], i) <==> s.pipes[i].lock == Some(w);
    if Instance(s.pcs[w]).Some? {
      assert WorkStep(s, w, c) == WorkPipe(s, w, c, Instance(s.pcs[w]).value);
    } else {
      AsideAtInstance(s, w, c, i);
    }
  }

  lemma AsideAtInstance(s: State, w: nat, c: Choice, i: nat)
    requires i < |s.pipes| && CanWork(s, w, c) && Resumes(s.pcs[w]) && Instance(s.pcs[w]).None?
    ensures !InSection(WorkStep(s, w, c).pcs[w], i)
    ensures WorkStep(s, w, c).pipes[i].lock == s.pipes[i].lock && WorkStep(s, w, c).pipes[i].mode == s.pipes[i].mode
  {
    WorkAside(s, w, c, i);
  }

  lemma WorkKeepsSection(s: State, w: nat, c: Choice, i: nat, place: Place)
    requires i < |s.pipes| && PipeInv(s, i, place) && CanWork(s, w, c) && Resumes(s.pcs[w])
    ensures SectionInv(WorkStep(s, w, c), i)
  {
    var s' := WorkStep(s, w, c);
    WorkAtInstance(s, w, c, i);
    WorkIssues(s, w, c, i, place);
  }

  /** Only a read is ever issued by a worker, on a connected instance that it answers for. */
  lemma WorkIssues(s: State, w: nat, c: Choice, i: nat, place: Place)
    requires i < |s.pipes| && PipeInv(s, i, place) && CanWork(s, w, c) && Resumes(s.pcs[w])
    ensures var s' := WorkStep(s, w, c);
            && s'.pcs[w] != SvcThrow(i)
            && (s'.pcs[w].StartIssued? && s'.pcs[w].i == i ==> s'.pcs[w].kind.Read? && s'.pipes[i].mode.Connected?)
  {
    assert InSection(s.pcs[w], i) <==> s.pipes[i].lock == Some(w);
    assert Holds(s.pcs[w]) == Some(i) <==> place == With(w);
  }

  /** Logging and the shared memory leave the instances alone, and what the worker knows about them. */
  lemma LogAside(s: State, w: nat, c: Choice)
    requires CanWork(s, w, c) && s.pcs[w].Push? && Resumes(s.pcs[w])
    ensures var s', pc := WorkStep(s, w, c), s.pcs[w];
            && s'.pipes == s.pipes
            && (Core(s'.pcs[w]) == Core(pc) || (Holds(pc).None? && Holds(s'.pcs[w]).None?))
  {
    assert WorkStep(s, w, c) == WorkLog(s, w, s.pcs[w].stage, s.pcs[w].line, s.pcs[w].next);
  }

  lemma ShmAside(s: State, w: nat, c: Choice)
    requires CanWork(s, w, c) && Instance(s.pcs[w]).None?
    requires !s.pcs[w].AtPort? && !s.pcs[w].Got? && !s.pcs[w].Push?
    ensures var s' := WorkStep(s, w, c);
            s'.pipes == s.pipes && Holds(s.pcs[w]).None? && Holds(s'.pcs[w]).None?
  {
    assert WorkStep(s, w, c) == WorkShm(s, w, c);
  }

  /** Logging, the port and the shared memory leave instance `i` alone, unless its packet is taken. */
  lemma WorkAside(s: State, w: nat, c: Choice, i: nat)
    requires i < |s.pipes| && CanWork(s, w, c) && Resumes(s.pcs[w]) && Instance(s.pcs[w]).None?
    ensures var s', pc := WorkStep(s, w, c), s.pcs[w];
            var pc' := s'.pcs[w];
            if pc.AtPort? && c == Take(PipeSource(i)) then
              && s.pipes[i].queued != []
              && pc' == Got(FromPipe(i, s.pipes[i].queued[0]))
              && s'.pipes[i] == s.pipes[i].(queued := s.pipes[i].queued[1..])
            else
              && s'.pipes[i] == s.pipes[i]
              && (Holds(pc') == Some(i) <==> Holds(pc) == Some(i) && !(pc.Got? && s.ctl.event))
              && (Holds(pc') == Some(i) ==> forall m :: Knows(pc, m) ==> Knows(pc', m))
  {
    var pc := s.pcs[w];
    if pc.Push? {
      LogAside(s, w, c);
    } else if !pc.AtPort? && !pc.Got? {
      ShmAside(s, w, c);
    }
  }

  lemma WorkAtOther(s: State, w: nat, c: Choice, i: nat, j: nat)
    requires i < |s.pipes| && CanWork(s, w, c) && Instance(s.pcs[w]) == Some(j) && j != i
    ensures var s' := WorkStep(s, w, c);
            s'.pipes[i] == s.pipes[i] && Holds(s'.pcs[w]) != Some(i)
  {}

  /** A statement about instance `i`: the worker keeps it, hands it to the kernel, or drops it. */
  lemma WorkHere(s: State, w: nat, c: Choice, i: nat, place: Place)
    requires i < |s.pipes| && PipeInv(s, i, place) && CanWork(s, w, c) && Instance(s.pcs[w]) == Some(i)
    ensures var s', pc := WorkStep(s, w, c), s.pcs[w];
            var pc', issues := s'.pcs[w], pc.StartRun? && c.Yes?;
            && s'.pipes[i].queued == s.pipes[i].queued
            && s'.pipes[i].running ==
                 s.pipes[i].running + (if issues then [Request(Read, |s.pipes[i].buf| - 1)] else [])
            && |s'.pipes[i].buf| == |s.pipes[i].buf| && Engaged(s'.pipes[i].mode)
            && (Holds(pc') == Some(i) ==> Holds(pc) == Some(i) && !issues)
            && (issues ==> pc' == StartIssued(i, Read) && Holds(pc) == Some(i) && s'.pipes[i].lock == Some(w))
            && (Holds(pc) == Some(i) && Holds(pc') == Some(i) ==> Knows(pc', s'.pipes[i].mode))
  {
    assert InSection(s.pcs[w], i) <==> s.pipes[i].lock == Some(w);
    assert Holds(s.pcs[w]) == Some(i) <==> place == With(w);
    assert s.pcs[w] != SvcThrow(i);
  }

  lemma WorkMoves(s: State, w: nat, c: Choice, i: nat, place: Place)
    requires i < |s.pipes| && PipeInv(s, i, place) && CanWork(s, w, c) && Resumes(s.pcs[w])
    ensures Located(WorkStep(s, w, c), i, PlaceAfter(s, Work(w, c), i, place))
  {
    assert Holds(s.pcs[w]) == Some(i) <==> place == With(w);
    if Instance(s.pcs[w]).None? {
      WorkAside(s, w, c, i);
    } else if Instance(s.pcs[w]) != Some(i) {
      WorkAtOther(s, w, c, i, Instance(s.pcs[w]).value);
    } else {
      WorkHere(s, w, c, i, place);
    }
  }

  lemma ModeUnmoved(s: State, w: nat, c: Choice, i: nat)
    requires i < |s.pipes| && SectionInv(s, i) && CanWork(s, w, c) && Resumes(s.pcs[w])
    requires Instance(s.pcs[w]) != Some(i)
    ensures ModeOf(WorkStep(s, w, c), i) == ModeOf(s, i)
  {
    assert InSection(s.pcs[w], i) <==> s.pipes[i].lock == Some(w);
    if Instance(s.pcs[w]).None? {
      WorkAside(s, w, c, i);
    } else {
      WorkAtOther(s, w, c, i, Instance(s.pcs[w]).value);
    }
  }

  lemma KnowsHere(s: State, w: nat, c: Choice, i: nat, place: Place)
    requires i < |s.pipes| && PipeInv(s, i, place) && CanWork(s, w, c) && Instance(s.pcs[w]) == Some(i)
    requires Located(WorkStep(s, w, c), i, PlaceAfter(s, Work(w, c), i, place))
    ensures ModeInv(WorkStep(s, w, c), i, PlaceAfter(s, Work(w, c), i, place))
  {
    WorkHere(s, w, c, i, place);
    assert InSection(s.pcs[w], i) <==> s.pipes[i].lock == Some(w);
    assert Holds(s.pcs[w]) == Some(i) <==> place == With(w);
  }

  lemma WorkKnows(s: State, w: nat, c: Choice, i: nat, place: Place)
    requires i < |s.pipes| && PipeInv(s, i, place) && CanWork(s, w, c) && Resumes(s.pcs[w])
    requires Instance(s.pcs[w]) != Some(i)
    requires Located(WorkStep(s, w, c), i, PlaceAfter(s, Work(w, c), i, place))
    ensures ModeInv(WorkStep(s, w, c), i, PlaceAfter(s, Work(w, c), i, place))
  {
    assert Holds(s.pcs[w]) == Some(i) <==> place == With(w);
    ModeUnmoved(s, w, c, i);
    if Instance(s.pcs[w]).None? {
      WorkAside(s, w, c, i);
    } else {
      WorkAtOther(s, w, c, i, Instance(s.pcs[w]).value);
    }
  }

  lemma WorkKeepsSize(s: State, w: nat, c: Choice, i: nat, place: Place)
    requires i < |s.pipes| && PipeInv(s, i, place) && CanWork(s, w, c) && Resumes(s.pcs[w])
    ensures SizeInv(WorkStep(s, w, c), i) && Engaged(WorkStep(s, w, c).pipes[i].mode)
  {
    if Instance(s.pcs[w]).None? {
      WorkAside(s, w, c, i);
    } else if Instance(s.pcs[w]) != Some(i) {
      WorkAtOther(s, w, c, i, Instance(s.pcs[w]).value);
    } else {
      WorkHere(s, w, c, i, place);
    }
  }

  lemma WorkKeepsPipeInv(s: State, w: nat, c: Choice, i: nat, place: Place)
    requires i < |s.pipes| && PipeInv(s, i, place) && CanWork(s, w, c) && Resumes(s.pcs[w])
    ensures PipeInv(WorkStep(s, w, c), i, PlaceAfter(s, Work(w, c), i, place))
  {
    WorkKeepsSection(s, w, c, i, place);
    WorkMoves(s, w, c, i, place);
    WorkKeepsSize(s, w, c, i, place);
    if Instance(s.pcs[w]) == Some(i) {
      KnowsHere(s, w, c, i, place);
    } else {
      WorkKnows(s, w, c, i, place);
    }
  }

  lemma OthersKeepPipeInv(s: State, e: Step, i: nat, place: Place)
    requires i < |s.pipes| && PipeInv(s, i, place) && Enabled(s, e) && !e.Work?
    ensures |Apply(s, e).pipes| == |s.pipes|
    ensures PipeInv(Apply(s, e), i, PlaceAfter(s, e, i, place))
  {
    if (e.Scribble? || e.Complete? || e.Lose?) && e.i == i {
      KernelKeepsPipeInv(s, e, i, place);
    } else {
      assert Apply(s, e).pcs == s.pcs && Apply(s, e).pipes[i] == s.pipes[i];
      assert ModeOf(Apply(s, e), i) == ModeOf(s, i);
    }
  }

  lemma KernelKeepsPipeInv(s: State, e: Step, i: nat, place: Place)
    requires i < |s.pipes| && PipeInv(s, i, place) && Enabled(s, e)
    requires (e.Scribble? || e.Complete? || e.Lose?) && e.i == i
    ensures PipeInv(Apply(s, e), i, PlaceAfter(s, e, i, place))
  {
    var pipe := s.pipes[i];
    assert Apply(s, e).pcs == s.pcs;
    assert ModeOf(Apply(s, e), i) == ModeOf(s, i);
    assert pipe.running[0] in pipe.running;
  }

  lemma StepKeepsPipeInv(s: State, e: Step, i: nat, place: Place)
    requires i < |s.pipes| && PipeInv(s, i, place) && Enabled(s, e) && AllResume(s)
    ensures |Apply(s, e).pipes| == |s.pipes|
    ensures PipeInv(Apply(s, e), i, PlaceAfter(s, e, i, place))
  {
    if e.Work? {
      WorkKeepsPipeInv(s, e.w, e.c, i, place);
    } else {
      OthersKeepPipeInv(s, e, i, place);
    }
  }

  lemma InitPipeInv(s: State, i: nat)
    requires Init(s) && i < |s.pipes|
    ensures PipeInv(s, i, InKernel)
  {
    assert InitPipe(s.pipes[i]);
  }

  /** The steps that lose instance `i`: a completion that never comes, a refused start, a packet met by the shutdown. */
  predicate Fault(s: State, e: Step, i: nat) {
    || (e.Lose? && e.i == i)
    || (e.Work? && e.w < |s.pcs| && s.pcs[e.w].StartRun? && s.pcs[e.w].i == i && e.c.No?)
    || (e.Work? && e.w < |s.pcs| && s.pcs[e.w].Got? && s.pcs[e.w].packet.FromPipe? && s.pcs[e.w].packet.i == i
        && s.ctl.event)
  }

  /** The terminator of a message that was read has a place in its buffer. */
  predicate InBounds(s: State, pc: Pc) {
    pc.Served? && pc.i < |s.pipes| && pc.r.operation.Read? && pc.r.errorCode == ERROR_SUCCESS ==>
      pc.r.bytes < |s.pipes[pc.i].buf|
  }

  /**
   * Exactly those lose one, and for good; in particular no worker forgets to restart an instance, and no genuine
   * packet is refused.
   */
  lemma DroppedExactlyByFault(s: State, e: Step, i: nat, place: Place)
    requires i < |s.pipes| && PipeInv(s, i, place) && Enabled(s, e) && AllResume(s)
    requires e.Work? ==> InBounds(s, s.pcs[e.w])
    ensures PlaceAfter(s, e, i, place).Dropped? <==> place.Dropped? || Fault(s, e, i)
  {
    if e.Work? {
      var w := e.w;
      assert Holds(s.pcs[w]) == Some(i) <==> place == With(w);
      if Instance(s.pcs[w]).None? {
        WorkAside(s, w, e.c, i);
      } else if Instance(s.pcs[w]) != Some(i) {
        WorkAtOther(s, w, e.c, i, Instance(s.pcs[w]).value);
      } else {
        WorkHere(s, w, e.c, i, place);
        if Holds(s.pcs[w]) == Some(i) && !s.pcs[w].StartRun? {
          StaysHere(s, w, e.c, i, place);
        }
      }
    }
  }

  lemma StaysHere(s: State, w: nat, c: Choice, i: nat, place: Place)
    requires i < |s.pipes| && PipeInv(s, i, place) && CanWork(s, w, c)
    requires Instance(s.pcs[w]) == Some(i) && Holds(s.pcs[w]) == Some(i) && !s.pcs[w].StartRun?
    requires InBounds(s, s.pcs[w])
    ensures Holds(WorkStep(s, w, c).pcs[w]) == Some(i)
  {
    assert Holds(s.pcs[w]) == Some(i) <==> place == With(w);
  }

  /** From the choice of a start, by the state that `service` reported, to the kernel's acceptance. */
  predicate Asks(pc: Pc, i: nat) {
    (pc.Restart? || pc.StartEnter? || pc.StartRun? || pc.StartIssued?) && pc.i == i
  }

  predicate AsksToRead(pc: Pc)
    requires pc.Restart? || pc.StartEnter? || pc.StartRun? || pc.StartIssued?
  {
    if pc.Restart? then pc.r.newMode.Connected? else pc.kind.Read?
  }

  lemma OnlyReadsAsked(s: State, w: nat, i: nat, place: Place)
    requires i < |s.pipes| && PipeInv(s, i, place) && w < |s.pcs| && Asks(s.pcs[w], i)
    ensures AsksToRead(s.pcs[w])
  {
    assert Holds(s.pcs[w]) == Some(i) <==> place == With(w);
  }

  lemma OnlyReadsIssued(s: State, e: Step, i: nat, place: Place)
    requires i < |s.pipes| && PipeInv(s, i, place) && Enabled(s, e) && AllResume(s)
    requires |Apply(s, e).pipes[i].running| > |s.pipes[i].running|
    ensures Apply(s, e).pipes[i].running == [RequestFor(Read, s.pipes[i].buf)]
  {
    if e.Work? {
      var w := e.w;
      assert Holds(s.pcs[w]) == Some(i) <==> place == With(w);
      if Instance(s.pcs[w]).None? {
        WorkAside(s, w, e.c, i);
      } else if Instance(s.pcs[w]) != Some(i) {
        WorkAtOther(s, w, e.c, i, Instance(s.pcs[w]).value);
      } else {
        WorkHere(s, w, e.c, i, place);
      }
    }
  }

  /** The kernel may write to a buffer while a read into it is running. */
  predicate KernelOwns(s: State, i: nat)
    requires i < |s.pipes|
  {
    exists r :: r in s.pipes[i].running && r.kind.Read?
  }

  /** A buffer has at most one owner, the kernel or one worker, although no lock protects it. */
  ghost predicate OneOwner(s: State, i: nat)
    requires i < |s.pipes|
  {
    && |s.pipes[i].running| <= 1
    && (forall v: nat, w: nat ::
          v < |s.pcs| && w < |s.pcs| && Holds(s.pcs[v]) == Some(i) && Holds(s.pcs[w]) == Some(i) ==> v == w)
    && (forall w: nat :: w < |s.pcs| && Holds(s.pcs[w]) == Some(i) ==> !KernelOwns(s, i))
  }

  /** Which buffer a worker's statement reads or writes. */
  predicate Touches(pc: Pc, i: nat) {
    (pc.Served? || pc.Terminated? || pc.HandlePipe?) && pc.i == i
  }

  /** Whoever reads or writes the buffer is its one owner, and nothing else changes it. */
  lemma BufferHasOneOwner(s: State, e: Step, i: nat, place: Place)
    requires i < |s.pipes| && PipeInv(s, i, place) && Enabled(s, e)
    ensures OneOwner(s, i)
    ensures e.Work? && Touches(s.pcs[e.w], i) ==> Holds(s.pcs[e.w]) == Some(i)
    ensures Apply(s, e).pipes[i].buf != s.pipes[i].buf ==>
              || (e.Scribble? && e.i == i && KernelOwns(s, i))
              || (e.Work? && Touches(s.pcs[e.w], i))
  {
    PlacedHasOneOwner(s, i, place);
    if e.Work? && !Touches(s.pcs[e.w], i) {
      WorkWrites(s, e.w, e.c, i);
    }
  }

  lemma PlacedHasOneOwner(s: State, i: nat, place: Place)
    requires i < |s.pipes| && Located(s, i, place)
    ensures OneOwner(s, i)
  {}

  lemma WorkWrites(s: State, w: nat, c: Choice, i: nat)
    requires i < |s.pipes| && CanWork(s, w, c) && !Touches(s.pcs[w], i)
    ensures WorkStep(s, w, c).pipes[i].buf == s.pipes[i].buf
  {
    if Instance(s.pcs[w]).Some? {
      assert WorkStep(s, w, c) == WorkPipe(s, w, c, Instance(s.pcs[w]).value);
    }
  }
}
