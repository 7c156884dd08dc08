/**
 * The shared-memory handoff. One token circulates: the client event, a client, the server event, the waiter, the
 * port, a worker, and back. The server gives it away before it handles the message it copied; the outer lock keeps
 * the messages in order all the same.
 */
module Handoff {
  import opened Outcomes
  import opened Bytes
  import opened Server
  import opened SharedMemory

  datatype Token = AtSvToCl | AtClient(c: nat) | AtClToSv | AtWaiter | InPort | AtWorker(w: nat) | Lost

  /** From taking the packet up to the `SetEvent` that admits the next client. */
  predicate BeforeSignal(pc: Pc) {
    match Core(pc)
    case Got(FromShm) => true
    case ShmEnter => true
    case ShmInner => true
    case ShmMap => true
    case ShmCopy(_) => true
    case ShmSignal => true
    case _ => false
  }

  predicate HoldsOuter(pc: Pc) {
    pc.ShmInner? || HoldsInner(pc) || pc.ShmHandle? || pc.ShmLeave?
  }

  predicate HoldsInner(pc: Pc) {
    pc.ShmMap? || pc.ShmCopy? || pc.ShmSignal? || pc.ShmLeaveInner?
  }

  predicate InWrite(pc: ClientPc) {
    pc.Writing? || pc.Signalling?
  }

  ghost predicate LocksInv(s: State) {
    && (forall w: nat :: w < |s.pcs| ==> (HoldsOuter(s.pcs[w]) <==> s.shm.outer == Some(w)))
    && (forall w: nat :: w < |s.pcs| ==> (HoldsInner(s.pcs[w]) <==> s.shm.inner == Some(w)))
    && (s.shm.outer.Some? ==> s.shm.outer.value < |s.pcs|)
    && (s.shm.inner.Some? ==> s.shm.inner.value < |s.pcs|)
  }

  /** The token is at this place and at no other. */
  ghost predicate Located(s: State, token: Token) {
    && (s.shm.svToCl <==> token.AtSvToCl?)
    && (forall c: nat :: c < |s.shm.clients| ==> (InWrite(s.shm.clients[c]) <==> token == AtClient(c)))
    && (s.shm.clToSv <==> token.AtClToSv?)
    && (s.shm.waiter.Posting? <==> token.AtWaiter?)
    && s.shm.packets == (if token.InPort? then 1 else 0)
    && (forall w: nat :: w < |s.pcs| ==> (BeforeSignal(s.pcs[w]) <==> token == AtWorker(w)))
    && (token.AtClient? ==> token.c < |s.shm.clients|)
    && (token.AtWorker? ==> token.w < |s.pcs|)
  }

  function TokenAfter(s: State, e: Step, token: Token): Token
    requires Enabled(s, e)
  {
    match e
    case ClientBegin(c, data) => if |data| <= |s.shm.mem| then AtClient(c) else Lost
    case ClientStep(c) => if s.shm.clients[c].Signalling? then AtClToSv else token
    case ClientCrash(_) => Lost
    case Wait => if s.shm.waiter.Posting? then InPort else if s.shm.clToSv then AtWaiter else token
    case Work(w, c) =>
      if BeforeSignal(Apply(s, e).pcs[w]) then AtWorker(w)
      else if !BeforeSignal(s.pcs[w]) then token
      else if s.pcs[w].ShmSignal? then AtSvToCl
      else Lost
    case _ => token
  }

  predicate AboutShm(pc: Pc) {
    pc.ShmEnter? || HoldsOuter(pc)
  }

  lemma WorkAtPipe(s: State, w: nat, c: Choice)
    requires CanWork(s, w, c) && Instance(s.pcs[w]).Some?
    ensures var s' := WorkStep(s, w, c);
            s'.shm == s.shm && !AboutShm(s'.pcs[w]) && !BeforeSignal(s'.pcs[w])
  {}

  /** Statements that are not about the shared memory leave it alone, unless they take its packet. */
  lemma WorkAside(s: State, w: nat, c: Choice)
    requires CanWork(s, w, c) && Resumes(s.pcs[w]) && !AboutShm(s.pcs[w])
    ensures var s', pc := WorkStep(s, w, c), s.pcs[w];
            && s'.shm == (if pc.AtPort? && c == Take(ShmSource) then s.shm.(packets := s.shm.packets - 1) else s.shm)
            && !HoldsOuter(s'.pcs[w])
            && (BeforeSignal(s'.pcs[w]) <==>
                  (pc.AtPort? && c == Take(ShmSource)) || (BeforeSignal(pc) && !(pc.Got? && s.ctl.event)))
            && (pc.AtPort? && c == Take(ShmSource) ==> s.shm.packets > 0)
  {
    if Instance(s.pcs[w]).Some? {
      WorkAtPipe(s, w, c);
    }
  }

  /** A lock changes hands only between nobody and this worker. */
  predicate Passes(lock: Option<nat>, lock': Option<nat>, w: nat) {
    lock' == lock || (lock == None && lock' == Some(w)) || (lock == Some(w) && lock' == None)
  }

  /** The shared-memory branch: what it does to the two locks. */
  lemma WorkInsideLocks(s: State, w: nat, c: Choice)
    requires CanWork(s, w, c) && AboutShm(s.pcs[w])
    requires HoldsOuter(s.pcs[w]) <==> s.shm.outer == Some(w)
    requires HoldsInner(s.pcs[w]) <==> s.shm.inner == Some(w)
    ensures var shm', pc' := WorkStep(s, w, c).shm, WorkStep(s, w, c).pcs[w];
            && (HoldsOuter(pc') <==> shm'.outer == Some(w)) && Passes(s.shm.outer, shm'.outer, w)
            && (HoldsInner(pc') <==> shm'.inner == Some(w)) && Passes(s.shm.inner, shm'.inner, w)
  {}

  /** What the other threads use: no statement of a worker but the signal and the taking of a packet changes it. */
  predicate SameElsewhere(shm: Shm, shm': Shm) {
    && shm'.clToSv == shm.clToSv && shm'.stop == shm.stop && shm'.waiter == shm.waiter
    && shm'.mem == shm.mem && shm'.clients == shm.clients && shm'.messages == shm.messages
  }

  lemma WorkInsideEvent(s: State, w: nat, c: Choice)
    requires CanWork(s, w, c) && AboutShm(s.pcs[w])
    ensures var shm', pc, pc' := WorkStep(s, w, c).shm, s.pcs[w], WorkStep(s, w, c).pcs[w];
            && SameElsewhere(s.shm, shm') && shm'.packets == s.shm.packets
            && shm'.svToCl == (s.shm.svToCl || pc.ShmSignal?)
            && (BeforeSignal(pc') <==> BeforeSignal(pc) && !pc.ShmSignal? && !(pc.ShmMap? && c.No?))
  {
    assert WorkStep(s, w, c) == WorkShm(s, w, c);
    if HoldsInner(s.pcs[w]) {
      CriticalEvent(s, w, c);
    } else {
      OuterEvent(s, w, c);
    }
  }

  /** Under the inner lock. */
  lemma CriticalEvent(s: State, w: nat, c: Choice)
    requires CanWork(s, w, c) && HoldsInner(s.pcs[w])
    ensures var shm', pc, pc' := WorkShm(s, w, c).shm, s.pcs[w], WorkShm(s, w, c).pcs[w];
            && SameElsewhere(s.shm, shm') && shm'.packets == s.shm.packets
            && shm'.svToCl == (s.shm.svToCl || pc.ShmSignal?)
            && (BeforeSignal(pc') <==> BeforeSignal(pc) && !pc.ShmSignal? && !(pc.ShmMap? && c.No?))
  {}

  /** Outside it. */
  lemma OuterEvent(s: State, w: nat, c: Choice)
    requires CanWork(s, w, c) && AboutShm(s.pcs[w]) && !HoldsInner(s.pcs[w])
    ensures var shm', pc, pc' := WorkShm(s, w, c).shm, s.pcs[w], WorkShm(s, w, c).pcs[w];
            && SameElsewhere(s.shm, shm') && shm'.packets == s.shm.packets && shm'.svToCl == s.shm.svToCl
            && (BeforeSignal(pc') <==> BeforeSignal(pc))
  {}

  lemma WorkKeepsLocks(s: State, w: nat, c: Choice)
    requires LocksInv(s) && CanWork(s, w, c) && Resumes(s.pcs[w])
    ensures LocksInv(WorkStep(s, w, c))
  {
    assert HoldsOuter(s.pcs[w]) <==> s.shm.outer == Some(w);
    assert HoldsInner(s.pcs[w]) <==> s.shm.inner == Some(w);
    if !AboutShm(s.pcs[w]) {
      WorkAside(s, w, c);
    } else {
      WorkInsideLocks(s, w, c);
    }
  }

  lemma WorkKeepsToken(s: State, w: nat, c: Choice, token: Token)
    requires Located(s, token) && CanWork(s, w, c) && Resumes(s.pcs[w])
    ensures Located(WorkStep(s, w, c), TokenAfter(s, Work(w, c), token))
  {
    assert BeforeSignal(s.pcs[w]) <==> token == AtWorker(w);
    if !AboutShm(s.pcs[w]) {
      WorkAside(s, w, c);
    } else {
      WorkInsideEvent(s, w, c);
    }
    LocatedAfterWork(s, WorkStep(s, w, c), w, token, TokenAfter(s, Work(w, c), token));
  }

  lemma LocatedAfterWork(s: State, s': State, w: nat, token: Token, token': Token)
    requires Located(s, token) && MovesOnly(s, s', w) && SameElsewhere(s.shm, s'.shm)
    requires s'.shm.svToCl <==> token'.AtSvToCl?
    requires s'.shm.packets == (if token'.InPort? then 1 else 0)
    requires BeforeSignal(s'.pcs[w]) <==> token' == AtWorker(w)
    requires token' == token || token' == AtWorker(w) ||
               (token == AtWorker(w) && (token'.AtSvToCl? || token'.Lost?))
    requires token' == AtWorker(w) && token != token' ==> token.InPort?
    ensures Located(s', token')
  {}

  lemma ClientsKeepToken(s: State, e: Step, token: Token)
    requires Located(s, token) && Enabled(s, e) && (e.ClientBegin? || e.ClientStep? || e.ClientCrash?)
    ensures Located(Apply(s, e), TokenAfter(s, e, token))
  {
    assert InWrite(s.shm.clients[e.client]) <==> token == AtClient(e.client);
  }

  lemma OthersKeepLocks(s: State, e: Step)
    requires LocksInv(s) && Enabled(s, e) && !e.Work?
    ensures LocksInv(Apply(s, e))
  {
    assert Apply(s, e).pcs == s.pcs && Apply(s, e).shm.outer == s.shm.outer && Apply(s, e).shm.inner == s.shm.inner;
  }

  lemma WaiterKeepsToken(s: State, token: Token)
    requires Located(s, token) && Enabled(s, Wait)
    ensures Located(Apply(s, Wait), TokenAfter(s, Wait, token))
  {
    assert Apply(s, Wait).pcs == s.pcs && Apply(s, Wait).shm.clients == s.shm.clients;
  }

  lemma OthersKeepToken(s: State, e: Step, token: Token)
    requires Located(s, token) && Enabled(s, e) && !e.Work?
    ensures Located(Apply(s, e), TokenAfter(s, e, token))
  {
    if e.ClientBegin? || e.ClientStep? || e.ClientCrash? {
      ClientsKeepToken(s, e, token);
    } else if e.Wait? {
      WaiterKeepsToken(s, token);
    } else {
      assert Apply(s, e).pcs == s.pcs;
      assert Apply(s, e).shm == s.shm.(stop := Apply(s, e).shm.stop);
    }
  }

  lemma StepKeepsToken(s: State, e: Step, token: Token)
    requires LocksInv(s) && Located(s, token) && Enabled(s, e) && AllResume(s)
    ensures LocksInv(Apply(s, e)) && Located(Apply(s, e), TokenAfter(s, e, token))
  {
    if e.Work? {
      WorkKeepsLocks(s, e.w, e.c);
      WorkKeepsToken(s, e.w, e.c, token);
    } else {
      OthersKeepLocks(s, e);
      OthersKeepToken(s, e, token);
    }
  }

  // ----- what is delivered -----

  /** The texts that the shared-memory branch handed to the message handler. */
  function HandledTexts(messages: seq<Message>): seq<seq<Byte>> {
    if messages == [] then [] else
      var last := messages[|messages| - 1];
      HandledTexts(messages[..|messages| - 1]) + (if last.ShmMessage? then [last.text] else [])
  }

  /** The string in the memory right after the `j`-th write. */
  function Content(shm: Shm, j: nat): seq<Byte>
    requires j < |shm.messages| && Fit(shm.messages, |shm.mem|)
  {
    Delivered(Written(|shm.mem|, shm.messages[..j + 1]))
  }

  /** A message was copied and the next client admitted, but the handler has not been called. */
  predicate Handing(s: State) {
    && s.shm.outer.Some? && s.shm.outer.value < |s.pcs|
    && (s.pcs[s.shm.outer.value] == ShmLeaveInner(true) || s.pcs[s.shm.outer.value].ShmHandle?)
  }

  /** A message was written and not yet copied out completely. */
  predicate Fresh(s: State, token: Token) {
    match token
    case AtClient(c) => c < |s.shm.clients| && s.shm.clients[c].Signalling?
    case AtClToSv => true
    case AtWaiter => true
    case InPort => true
    case AtWorker(_) => true
    case _ => false
  }

  ghost predicate MemoryInv(s: State, token: Token) {
    && |s.shm.buf| == |s.shm.mem| == DATA_BUFFER_SIZE
    && Fit(s.shm.messages, |s.shm.mem|)
    && var written := Written(|s.shm.mem|, s.shm.messages);
       if token.Lost? then true
       else if token.AtClient? && token.c < |s.shm.clients| && s.shm.clients[token.c].Writing? then
         var data, k := s.shm.clients[token.c].data, s.shm.clients[token.c].k;
         k <= |data| <= |s.shm.mem| && s.shm.mem == data[..k] + written[k..]
       else
         s.shm.mem == written
  }

  /** How far the worker with the token is with its copy. */
  ghost predicate CopyInv(s: State, token: Token)
    requires |s.shm.buf| == |s.shm.mem|
  {
    token.AtWorker? && token.w < |s.pcs| ==>
      match s.pcs[token.w]
      case ShmCopy(k) => k <= |s.shm.mem| && s.shm.buf[..k] == s.shm.mem[..k] && 0 !in s.shm.mem[..k]
      case ShmSignal => UpToNul(s.shm.buf) == Delivered(s.shm.mem)
      case _ => true
  }

  /** The handled messages are the first contents, in order; what is missing is being handed over or still fresh. */
  ghost predicate DeliveryInv(s: State, token: Token)
    requires Fit(s.shm.messages, |s.shm.mem|)
  {
    var handled := HandledTexts(s.handled);
    var pending := |handled| + (if Handing(s) then 1 else 0);
    && pending <= |s.shm.messages| <= pending + 1
    && (!token.Lost? ==> |s.shm.messages| == pending + (if Fresh(s, token) then 1 else 0))
    && (forall j :: 0 <= j < |handled| ==> handled[j] == Content(s.shm, j))
    && (Handing(s) ==> UpToNul(s.shm.buf) == Content(s.shm, |handled|))
  }

  ghost predicate ContentInv(s: State, token: Token) {
    MemoryInv(s, token) && CopyInv(s, token) && DeliveryInv(s, token)
  }

  lemma HandledTextsGrow(messages: seq<Message>, more: seq<Message>)
    requires |more| <= 1
    ensures HandledTexts(messages + more) ==
              HandledTexts(messages) + (if more != [] && more[0].ShmMessage? then [more[0].text] else [])
  {
    if more == [] {
      assert messages + more == messages;
    } else {
      assert (messages + more)[..|messages|] == messages;
    }
  }

  /** A write adds one content and leaves the earlier ones as they were. */
  lemma ContentsGrow(shm: Shm, shm': Shm, data: seq<Byte>)
    requires Fit(shm.messages, |shm.mem|) && |data| <= |shm.mem| == |shm'.mem|
    requires shm'.messages == shm.messages + [data]
    ensures Fit(shm'.messages, |shm'.mem|)
    ensures Written(|shm.mem|, shm'.messages) == Overlay(Written(|shm.mem|, shm.messages), data)
    ensures forall j :: 0 <= j < |shm.messages| ==> Content(shm', j) == Content(shm, j)
  {
    assert shm'.messages[..|shm.messages|] == shm.messages;
    forall j | 0 <= j < |shm.messages| ensures Content(shm', j) == Content(shm, j) {
      assert shm'.messages[..j + 1] == shm.messages[..j + 1];
    }
  }

  /** One byte of the copy loop, up to the NUL that ends it or the end of the memory. */
  lemma CopyByte(buf: seq<Byte>, mem: seq<Byte>, k: nat)
    requires |buf| == |mem| > 0 && k <= |mem| && buf[..k] == mem[..k] && 0 !in mem[..k]
    ensures k < |mem| && mem[k] != 0 ==> buf[k := mem[k]][..k + 1] == mem[..k + 1] && 0 !in mem[..k + 1]
    ensures k < |mem| && mem[k] == 0 ==> UpToNul(buf[k := mem[k]]) == Delivered(mem)
    ensures k == |mem| ==> UpToNul(buf[0 := 0]) == Delivered(mem)
  {
    if k < |mem| {
      assert mem[..k + 1] == mem[..k] + [mem[k]];
      assert buf[k := mem[k]][..k] == buf[..k];
      if mem[k] == 0 {
        UpToNulIs(buf[k := 0], k);
        UpToNulIs(mem, k);
      }
    } else {
      assert mem[..k] == mem;
      UpToNulIs(buf[0 := 0], 0);
    }
  }

  ghost predicate Inv(s: State, token: Token) {
    LocksInv(s) && Located(s, token) && ContentInv(s, token)
  }

  /** Steps that neither write, copy nor handle a message keep the delivery as it is. */
  lemma ContentKept(s: State, s': State, token: Token, token': Token)
    requires ContentInv(s, token) && MemoryInv(s', token') && CopyInv(s', token')
    requires s'.shm.mem == s.shm.mem && s'.shm.buf == s.shm.buf && s'.shm.messages == s.shm.messages
    requires HandledTexts(s'.handled) == HandledTexts(s.handled) && Handing(s') == Handing(s)
    requires !token'.Lost? ==> !token.Lost? && Fresh(s', token') == Fresh(s, token)
    ensures ContentInv(s', token')
  {
    assert forall j :: 0 <= j < |s.shm.messages| ==> Content(s'.shm, j) == Content(s.shm, j);
  }

  /** A worker elsewhere: the memory, the buffer, the owner of the lock and the handled texts stay. */
  lemma ContentAside(s: State, s': State, w: nat, token: Token, token': Token)
    requires Inv(s, token) && MovesOnly(s, s', w) && SameElsewhere(s.shm, s'.shm) && s'.shm.buf == s.shm.buf
    requires HandledTexts(s'.handled) == HandledTexts(s.handled) && Handing(s') == Handing(s)
    requires token' == token || (token.InPort? && token' == AtWorker(w)) || (token == AtWorker(w) && token'.Lost?)
    requires token' == AtWorker(w) && s'.pcs[w].ShmCopy? ==> s'.pcs[w].k == 0
    requires token' == AtWorker(w) ==> !s'.pcs[w].ShmSignal?
    ensures ContentInv(s', token')
  {
    assert CopyInv(s', token');
    ContentKept(s, s', token, token');
  }

  lemma TextsAside(s: State, w: nat, c: Choice)
    requires CanWork(s, w, c) && !AboutShm(s.pcs[w])
    ensures HandledTexts(WorkStep(s, w, c).handled) == HandledTexts(s.handled)
  {
    var pc := s.pcs[w];
    WorkHistories(s, w, c);
    HandledTextsGrow(s.handled, if pc.HandlePipe? then [PipeMessage(pc.i, UpToNul(s.pipes[pc.i].buf))] else []);
  }

  lemma WorkAsideKeepsContent(s: State, w: nat, c: Choice, token: Token)
    requires Inv(s, token) && CanWork(s, w, c) && Resumes(s.pcs[w]) && !AboutShm(s.pcs[w])
    ensures ContentInv(WorkStep(s, w, c), TokenAfter(s, Work(w, c), token))
  {
    var s' := WorkStep(s, w, c);
    assert HoldsOuter(s.pcs[w]) <==> s.shm.outer == Some(w);
    assert BeforeSignal(s.pcs[w]) <==> token == AtWorker(w);
    WorkAside(s, w, c);
    TextsAside(s, w, c);
    assert Handing(s') == Handing(s);
    ContentAside(s, s', w, token, TokenAfter(s, Work(w, c), token));
  }

  /** Entering and leaving the branch. */
  predicate Moving(pc: Pc) {
    pc.ShmEnter? || pc.ShmInner? || pc.ShmMap? || pc.ShmLeaveInner? || pc.ShmLeave?
  }

  lemma MovingStep(s: State, w: nat, c: Choice)
    requires CanWork(s, w, c) && Moving(s.pcs[w])
    requires HoldsOuter(s.pcs[w]) <==> s.shm.outer == Some(w)
    ensures var s' := WorkStep(s, w, c);
            && s'.handled == s.handled && s'.shm.buf == s.shm.buf && Handing(s') == Handing(s)
            && (s'.pcs[w].ShmCopy? ==> s'.pcs[w].k == 0) && !s'.pcs[w].ShmSignal?
  {
    assert WorkStep(s, w, c) == WorkShm(s, w, c);
  }

  /** It moves no content. */
  lemma MovingKeepsContent(s: State, w: nat, c: Choice, token: Token)
    requires Inv(s, token) && CanWork(s, w, c) && Moving(s.pcs[w])
    ensures ContentInv(WorkStep(s, w, c), TokenAfter(s, Work(w, c), token))
  {
    assert HoldsOuter(s.pcs[w]) <==> s.shm.outer == Some(w);
    assert BeforeSignal(s.pcs[w]) <==> token == AtWorker(w);
    WorkInsideEvent(s, w, c);
    MovingStep(s, w, c);
    ContentAside(s, WorkStep(s, w, c), w, token, TokenAfter(s, Work(w, c), token));
  }

  lemma CopyKeepsContent(s: State, w: nat, c: Choice, token: Token)
    requires Inv(s, token) && CanWork(s, w, c) && s.pcs[w].ShmCopy?
    ensures ContentInv(WorkStep(s, w, c), TokenAfter(s, Work(w, c), token))
  {
    assert WorkStep(s, w, c) == WorkShm(s, w, c);
    CopiedByWorker(s, WorkStep(s, w, c), w, token);
  }

  lemma CopiedByWorker(s: State, s': State, w: nat, token: Token)
    requires Inv(s, token) && w < |s.pcs| && s.pcs[w].ShmCopy?
    requires var mem, buf, k := s.shm.mem, s.shm.buf, s.pcs[w].k;
             s' == if k >= |mem| then To(s, w, ShmSignal).(shm := s.shm.(buf := buf[0 := 0]))
                   else To(s, w, if mem[k] == 0 then ShmSignal else ShmCopy(k + 1)).(
                     shm := s.shm.(buf := buf[k := mem[k]]))
    ensures ContentInv(s', token)
  {
    assert HoldsOuter(s.pcs[w]) <==> s.shm.outer == Some(w);
    assert BeforeSignal(s.pcs[w]) <==> token == AtWorker(w);
    CopyByte(s.shm.buf, s.shm.mem, s.pcs[w].k);
    assert Handing(s') == Handing(s);
  }

  /** Admitting the next client: from here on the message is in the server's buffer only, under the outer lock. */
  lemma SignalledByWorker(s: State, s': State, w: nat, token: Token)
    requires Inv(s, token) && w < |s.pcs| && s.pcs[w].ShmSignal?
    requires s' == To(s, w, ShmLeaveInner(true)).(shm := s.shm.(svToCl := true))
    ensures ContentInv(s', AtSvToCl)
  {
    assert HoldsOuter(s.pcs[w]) <==> s.shm.outer == Some(w);
    assert BeforeSignal(s.pcs[w]) <==> token == AtWorker(w);
    assert s.shm.messages[..|s.shm.messages|] == s.shm.messages;
  }

  lemma SignalKeepsContent(s: State, w: nat, c: Choice, token: Token)
    requires Inv(s, token) && CanWork(s, w, c) && s.pcs[w].ShmSignal?
    ensures ContentInv(WorkStep(s, w, c), TokenAfter(s, Work(w, c), token))
  {
    assert WorkStep(s, w, c) == WorkShm(s, w, c);
    SignalledByWorker(s, WorkStep(s, w, c), w, token);
  }

  lemma ContentHandled(s: State, s': State, token: Token)
    requires ContentInv(s, token) && MemoryInv(s', token) && CopyInv(s', token)
    requires s'.shm == s.shm && Handing(s) && !Handing(s') && Fresh(s', token) == Fresh(s, token)
    requires HandledTexts(s'.handled) == HandledTexts(s.handled) + [UpToNul(s.shm.buf)]
    ensures ContentInv(s', token)
  {}

  lemma HandledByWorker(s: State, s': State, w: nat, token: Token)
    requires Inv(s, token) && w < |s.pcs| && s.pcs[w].ShmHandle?
    requires s' == To(s, w, ShmLeave(true)).(handled := s.handled + [ShmMessage(UpToNul(s.shm.buf))])
    ensures ContentInv(s', token)
  {
    assert HoldsOuter(s.pcs[w]) <==> s.shm.outer == Some(w);
    assert BeforeSignal(s.pcs[w]) <==> token == AtWorker(w);
    HandledTextsGrow(s.handled, [ShmMessage(UpToNul(s.shm.buf))]);
    ContentHandled(s, s', token);
  }

  lemma HandleKeepsContent(s: State, w: nat, c: Choice, token: Token)
    requires Inv(s, token) && CanWork(s, w, c) && s.pcs[w].ShmHandle?
    ensures ContentInv(WorkStep(s, w, c), TokenAfter(s, Work(w, c), token))
  {
    assert WorkStep(s, w, c) == WorkShm(s, w, c);
    HandledByWorker(s, WorkStep(s, w, c), w, token);
  }

  lemma WorkKeepsContent(s: State, w: nat, c: Choice, token: Token)
    requires Inv(s, token) && CanWork(s, w, c) && Resumes(s.pcs[w])
    ensures ContentInv(WorkStep(s, w, c), TokenAfter(s, Work(w, c), token))
  {
    if !AboutShm(s.pcs[w]) {
      WorkAsideKeepsContent(s, w, c, token);
    } else if s.pcs[w].ShmCopy? {
      CopyKeepsContent(s, w, c, token);
    } else if s.pcs[w].ShmSignal? {
      SignalKeepsContent(s, w, c, token);
    } else if s.pcs[w].ShmHandle? {
      HandleKeepsContent(s, w, c, token);
    } else {
      MovingKeepsContent(s, w, c, token);
    }
  }

  lemma ByteLands(mem: seq<Byte>, data: seq<Byte>, written: seq<Byte>, k: nat)
    requires k < |data| <= |mem| == |written| && mem == data[..k] + written[k..]
    ensures mem[k := data[k]] == data[..k + 1] + written[k + 1..]
  {}

  /** A client's byte. */
  lemma ByteKeepsContent(s: State, client: nat, token: Token)
    requires Inv(s, token) && Enabled(s, ClientStep(client)) && s.shm.clients[client].Writing?
    requires s.shm.clients[client].k < |s.shm.clients[client].data|
    ensures ContentInv(Apply(s, ClientStep(client)), TokenAfter(s, ClientStep(client), token))
  {
    assert InWrite(s.shm.clients[client]);
    var data, k := s.shm.clients[client].data, s.shm.clients[client].k;
    var s' := Apply(s, ClientStep(client));
    var written := Written(|s.shm.mem|, s.shm.messages);
    ByteLands(s.shm.mem, data, written, k);
    assert Handing(s') == Handing(s);
  }

  /** The end of its write. */
  lemma WrittenByClient(s: State, s': State, client: nat, token: Token)
    requires Inv(s, token) && client < |s.shm.clients| && s.shm.clients[client].Writing?
    requires var data := s.shm.clients[client].data;
             && s.shm.clients[client].k >= |data|
             && s' == s.(shm := s.shm.(messages := s.shm.messages + [data],
                                       clients := s.shm.clients[client := Signalling]))
    ensures ContentInv(s', token)
  {
    assert InWrite(s.shm.clients[client]);
    var data := s.shm.clients[client].data;
    ContentsGrow(s.shm, s'.shm, data);
    assert data[..|data|] == data;
    assert Handing(s') == Handing(s);
  }

  lemma EndKeepsContent(s: State, client: nat, token: Token)
    requires Inv(s, token) && Enabled(s, ClientStep(client)) && s.shm.clients[client].Writing?
    requires s.shm.clients[client].k >= |s.shm.clients[client].data|
    ensures ContentInv(Apply(s, ClientStep(client)), TokenAfter(s, ClientStep(client), token))
  {
    WrittenByClient(s, Apply(s, ClientStep(client)), client, token);
  }

  lemma ClientsKeepContent(s: State, e: Step, token: Token)
    requires Inv(s, token) && Enabled(s, e) && (e.ClientBegin? || e.ClientStep? || e.ClientCrash?)
    requires e.ClientStep? ==> !s.shm.clients[e.client].Writing?
    ensures ContentInv(Apply(s, e), TokenAfter(s, e, token))
  {
    assert InWrite(s.shm.clients[e.client]) <==> token == AtClient(e.client);
    if e.ClientBegin? {
      var written := Written(|s.shm.mem|, s.shm.messages);
      assert e.data[..0] + written[0..] == written;
    }
    ContentKept(s, Apply(s, e), token, TokenAfter(s, e, token));
  }

  lemma OthersKeepContent(s: State, e: Step, token: Token)
    requires Inv(s, token) && Enabled(s, e) && !e.Work? && !e.ClientBegin? && !e.ClientStep? && !e.ClientCrash?
    ensures ContentInv(Apply(s, e), TokenAfter(s, e, token))
  {
    var s' := Apply(s, e);
    assert SameButEvents(s.shm, s'.shm) && s'.handled == s.handled && s'.pcs == s.pcs;
    ContentKept(s, s', token, TokenAfter(s, e, token));
  }

  predicate SameButEvents(shm: Shm, shm': Shm) {
    && shm'.outer == shm.outer && shm'.mem == shm.mem && shm'.buf == shm.buf
    && shm'.clients == shm.clients && shm'.messages == shm.messages
  }

  lemma StepKeepsInv(s: State, e: Step, token: Token)
    requires Inv(s, token) && Enabled(s, e) && AllResume(s)
    ensures Inv(Apply(s, e), TokenAfter(s, e, token))
  {
    StepKeepsToken(s, e, token);
    if e.Work? {
      WorkKeepsContent(s, e.w, e.c, token);
    } else if e.ClientStep? && s.shm.clients[e.client].Writing? {
      if s.shm.clients[e.client].k < |s.shm.clients[e.client].data| {
        ByteKeepsContent(s, e.client, token);
      } else {
        EndKeepsContent(s, e.client, token);
      }
    } else if e.ClientBegin? || e.ClientStep? || e.ClientCrash? {
      ClientsKeepContent(s, e, token);
    } else {
      OthersKeepContent(s, e, token);
    }
  }

  // ----- faults -----

  /** A client that cannot map or dies while it writes, a server that cannot map, a packet met by the shutdown. */
  predicate Fault(s: State, e: Step) {
    || (e.ClientBegin? && |e.data| > |s.shm.mem|)
    || e.ClientCrash?
    || (e.Work? && e.w < |s.pcs| && s.pcs[e.w].ShmMap? && e.c.No?)
    || (e.Work? && e.w < |s.pcs| && s.pcs[e.w] == Got(FromShm) && s.ctl.event)
  }

  /** Exactly those lose the token, and for good. */
  lemma LostExactlyByFault(s: State, e: Step, token: Token)
    requires Enabled(s, e) && AllResume(s) && Located(s, token)
    ensures TokenAfter(s, e, token).Lost? <==> token.Lost? || Fault(s, e)
  {
    if e.Work? {
      assert BeforeSignal(s.pcs[e.w]) <==> token == AtWorker(e.w);
      if !AboutShm(s.pcs[e.w]) {
        WorkAside(s, e.w, e.c);
      } else {
        WorkInsideEvent(s, e.w, e.c);
      }
    } else if e.ClientStep? {
      assert InWrite(s.shm.clients[e.client]) <==> token == AtClient(e.client);
    }
  }
}
