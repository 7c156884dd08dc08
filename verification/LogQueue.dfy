/**
 * The message log: a queue under a lock and a semaphore that counts it, updated in separate steps by any number of
 * pushing workers and popping readers.
 */
module LogQueue {
  import opened Outcomes
  import opened Server
  import opened Sums

  /** Between the enqueue and the release of the semaphore. */
  function Unreleased(pc: Pc): nat {
    if pc.Push? && (pc.stage.Leaving? || pc.stage.Releasing?) then 1 else 0
  }

  /** Between the wait on the semaphore and the pop. */
  function Unpopped(pc: PopperPc): nat {
    if pc.Ticket? || pc.Popping? then 1 else 0
  }

  predicate PushLocked(pc: Pc) {
    pc.Push? && (pc.stage.Enqueuing? || pc.stage.Leaving?)
  }

  predicate PopLocked(pc: PopperPc) {
    pc.Popping? || pc.Popped?
  }

  ghost predicate LockInv(s: State) {
    && (forall w: nat :: w < |s.pcs| ==> (PushLocked(s.pcs[w]) <==> s.log.lock == Some(Worker(w))))
    && (forall p: nat :: p < |s.log.poppers| ==> (PopLocked(s.log.poppers[p]) <==> s.log.lock == Some(Reader(p))))
    && (s.log.lock.Some? && s.log.lock.value.Worker? ==> s.log.lock.value.w < |s.pcs|)
    && (s.log.lock.Some? && s.log.lock.value.Reader? ==> s.log.lock.value.p < |s.log.poppers|)
  }

  /** The queue is what the semaphore counts, and the lines of those between their two updates. */
  ghost predicate CountInv(s: State) {
    |s.log.queue| == s.log.semaphore + s.log.refused + Sum(s.pcs, Unreleased) + Sum(s.log.poppers, Unpopped)
  }

  /** What was popped, followed by what is queued, is everything that was enqueued, in order. */
  ghost predicate HistoryInv(s: State) {
    s.log.popped + s.log.queue == s.log.enqueued
  }

  /** A release is refused only when the semaphore is at its maximum, so only with more lines than that. */
  ghost predicate RefusedInv(s: State) {
    && s.log.semaphore <= SEMAPHORE_MAX
    && (s.log.refused > 0 ==> |s.log.enqueued| > SEMAPHORE_MAX)
  }

  ghost predicate Inv(s: State) {
    LockInv(s) && CountInv(s) && HistoryInv(s) && RefusedInv(s)
  }

  /** Only the four steps of logging touch the log. */
  lemma WorkAside(s: State, w: nat, c: Choice)
    requires CanWork(s, w, c) && !s.pcs[w].Push?
    ensures WorkStep(s, w, c).log == s.log
    ensures !PushLocked(WorkStep(s, w, c).pcs[w]) && Unreleased(WorkStep(s, w, c).pcs[w]) == 0
  {
    if Instance(s.pcs[w]).Some? {
      assert WorkStep(s, w, c) == WorkPipe(s, w, c, Instance(s.pcs[w]).value);
    }
  }

  lemma PushKeepsLock(s: State, w: nat, stage: Stage, line: Line, next: Pc)
    requires LockInv(s) && w < |s.pcs| && s.pcs[w] == Push(stage, line, next) && Resumes(s.pcs[w])
    requires stage.Entering? ==> s.log.lock.None?
    ensures LockInv(WorkLog(s, w, stage, line, next))
  {
    assert PushLocked(s.pcs[w]) <==> s.log.lock == Some(Worker(w));
  }

  lemma PushKeepsInv(s: State, w: nat, c: Choice)
    requires Inv(s) && CanWork(s, w, c) && s.pcs[w].Push? && Resumes(s.pcs[w])
    ensures Inv(WorkStep(s, w, c))
  {
    var s' := WorkStep(s, w, c);
    assert s' == WorkLog(s, w, s.pcs[w].stage, s.pcs[w].line, s.pcs[w].next);
    PushKeepsLock(s, w, s.pcs[w].stage, s.pcs[w].line, s.pcs[w].next);
    SumUpdate(s.pcs, w, s'.pcs[w], Unreleased);
    assert s.log.popped + (s.log.queue + [s.pcs[w].line]) == s.log.popped + s.log.queue + [s.pcs[w].line];
  }

  lemma PopKeepsLock(s: State, p: nat)
    requires LockInv(s) && Enabled(s, Pop(p))
    ensures LockInv(PopStep(s, p))
  {
    assert PopLocked(s.log.poppers[p]) <==> s.log.lock == Some(Reader(p));
  }

  lemma PopKeepsInv(s: State, p: nat)
    requires Inv(s) && Enabled(s, Pop(p))
    ensures Inv(Apply(s, Pop(p)))
  {
    var s' := Apply(s, Pop(p));
    PopKeepsLock(s, p);
    SumUpdate(s.log.poppers, p, s'.log.poppers[p], Unpopped);
    if s.log.poppers[p].Popping? {
      assert s.log.queue == [s.log.queue[0]] + s.log.queue[1..];
    }
  }

  lemma StepKeepsInv(s: State, e: Step)
    requires Inv(s) && Enabled(s, e) && AllResume(s)
    ensures Inv(Apply(s, e))
  {
    match e
    case Work(w, c) =>
      if s.pcs[w].Push? {
        PushKeepsInv(s, w, c);
      } else {
        var s' := WorkStep(s, w, c);
        WorkAside(s, w, c);
        SumUpdate(s.pcs, w, s'.pcs[w], Unreleased);
        assert PushLocked(s.pcs[w]) <==> s.log.lock == Some(Worker(w));
      }
    case Pop(p) => PopKeepsInv(s, p);
    case _ =>
  }

  lemma InitInv(s: State)
    requires Init(s)
    ensures Inv(s)
  {
    SumConstant(s.pcs, Unreleased, 0);
    SumConstant(s.log.poppers, Unpopped, 0);
  }

  /** A reader that got through the semaphore never meets an empty queue. */
  lemma FrontExists(s: State, p: nat)
    requires Inv(s) && p < |s.log.poppers| && s.log.poppers[p].Popping?
    ensures s.log.queue != []
    ensures Enabled(s, Pop(p))
  {
    SumAtLeast(s.log.poppers, p, Unpopped);
  }
}
