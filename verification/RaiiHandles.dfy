/** Handles with one owner each: the class, and what any sequence of its operations on any pool of objects keeps. */
module RaiiHandles {
  import opened Outcomes

  type Handle = int
  const INVALID_HANDLE_VALUE: Handle := -1

  /** The system's side: the handles that were closed, in order. */
  class Kernel {
    var closed: seq<Handle>

    constructor ()
      ensures closed == []
    {
      closed := [];
    }

    method CloseHandle(h: Handle)
      modifies this
      ensures closed == old(closed) + [h]
    {
      closed := closed + [h];
    }
  }

  /** What giving up a handle closes. */
  function Closes(h: Handle): seq<Handle> {
    if h == INVALID_HANDLE_VALUE then [] else [h]
  }

  class RaiiHandle {
    var handle: Handle

    constructor (h: Handle)
      ensures handle == h
    {
      handle := h;
    }

    constructor Invalid()
      ensures handle == -1
    {
      handle := INVALID_HANDLE_VALUE;
    }

    constructor Move(other: RaiiHandle, kernel: Kernel)
      modifies other, kernel
      ensures handle == old(other.handle) && other.handle == INVALID_HANDLE_VALUE
      ensures kernel.closed == old(kernel.closed)
    {
      handle := INVALID_HANDLE_VALUE;
      new;
      MoveAssign(other, kernel);
    }

    /** Self-assignment is harmless; otherwise the old handle is closed and the other object gives its own away. */
    method MoveAssign(other: RaiiHandle, kernel: Kernel)
      modifies this, other, kernel
      ensures this == other ==> handle == old(handle) && kernel.closed == old(kernel.closed)
      ensures this != other ==>
                && handle == old(other.handle) && other.handle == INVALID_HANDLE_VALUE
                && kernel.closed == old(kernel.closed) + Closes(old(handle))
      ensures this == other || old(handle) == -1 ==> kernel.closed == old(kernel.closed)
      ensures this != other && old(handle) != -1 ==> kernel.closed == old(kernel.closed) + [old(handle)]
    {
      if this == other {
        return;
      }
      if handle != INVALID_HANDLE_VALUE {
        kernel.CloseHandle(handle);
      }
      handle := other.handle;
      other.handle := INVALID_HANDLE_VALUE;
    }

    method Destroy(kernel: Kernel)
      modifies kernel
      ensures kernel.closed == old(kernel.closed) + Closes(handle)
      ensures handle == -1 ==> kernel.closed == old(kernel.closed)
      ensures handle != -1 ==> kernel.closed == old(kernel.closed) + [handle]
    {
      if handle != INVALID_HANDLE_VALUE {
        kernel.CloseHandle(handle);
      }
    }
  }

  // ----- any pool, any sequence of operations -----

  /** Each slot is a live object's handle, or None after its destructor; `wrapped` are the valid handles given out. */
  datatype Pool = Pool(slots: seq<Option<Handle>>, closed: seq<Handle>, wrapped: seq<Handle>)

  datatype Operation =
    | Wrap(h: Handle)
    | MoveConstruct(source: nat)
    | MoveAssign(target: nat, source: nat)
    | Destroy(target: nat)

  predicate Live(p: Pool, i: nat) {
    i < |p.slots| && p.slots[i].Some?
  }

  /** A valid handle is wrapped once; destroyed objects are not used. */
  predicate Allowed(p: Pool, op: Operation) {
    match op
    case Wrap(h) => h == INVALID_HANDLE_VALUE || h !in p.wrapped
    case MoveConstruct(source) => Live(p, source)
    case MoveAssign(target, source) => Live(p, target) && Live(p, source)
    case Destroy(target) => Live(p, target)
  }

  function Apply(p: Pool, op: Operation): Pool
    requires Allowed(p, op)
  {
    match op
    case Wrap(h) =>
      p.(slots := p.slots + [Some(h)], wrapped := p.wrapped + Closes(h))
    case MoveConstruct(source) =>
      p.(slots := p.slots[source := Some(INVALID_HANDLE_VALUE)] + [p.slots[source]])
    case MoveAssign(target, source) =>
      if target == source then p else
        p.(slots := p.slots[target := p.slots[source]][source := Some(INVALID_HANDLE_VALUE)],
           closed := p.closed + Closes(p.slots[target].value))
    case Destroy(target) =>
      p.(slots := p.slots[target := None], closed := p.closed + Closes(p.slots[target].value))
  }

  predicate IsHistory(p: Pool, ops: seq<Operation>)
    decreases |ops|
  {
    ops == [] || (Allowed(p, ops[0]) && IsHistory(Apply(p, ops[0]), ops[1..]))
  }

  function After(p: Pool, ops: seq<Operation>): Pool
    requires IsHistory(p, ops)
    decreases |ops|
  {
    if ops == [] then p else After(Apply(p, ops[0]), ops[1..])
  }

  /** How many live objects own the handle. */
  function Owners(slots: seq<Option<Handle>>, h: Handle): nat {
    if slots == [] then 0 else
      Owners(slots[..|slots| - 1], h) + (if slots[|slots| - 1] == Some(h) then 1 else 0)
  }

  function Times(s: seq<Handle>, h: Handle): nat {
    multiset(s)[h]
  }

  lemma {:induction false} OwnersUpdate(slots: seq<Option<Handle>>, i: nat, slot: Option<Handle>, h: Handle)
    requires i < |slots|
    ensures Owners(slots[i := slot], h) ==
              Owners(slots, h) - (if slots[i] == Some(h) then 1 else 0) + (if slot == Some(h) then 1 else 0)
  {
    var n := |slots| - 1;
    if i < n {
      OwnersUpdate(slots[..n], i, slot, h);
      assert slots[i := slot][..n] == slots[..n][i := slot];
    } else {
      assert slots[i := slot][..n] == slots[..n];
    }
  }

  lemma OwnersAppend(slots: seq<Option<Handle>>, slot: Option<Handle>, h: Handle)
    ensures Owners(slots + [slot], h) == Owners(slots, h) + (if slot == Some(h) then 1 else 0)
  {
    assert (slots + [slot])[..|slots|] == slots;
  }

  /** Conservation: a valid handle has as many owners and closings as it was wrapped, which is at most once. */
  ghost predicate Conserved(p: Pool, h: Handle) {
    Owners(p.slots, h) + Times(p.closed, h) == Times(p.wrapped, h) <= 1
  }

  lemma StepConserves(p: Pool, op: Operation, h: Handle)
    requires h != INVALID_HANDLE_VALUE && Conserved(p, h) && Allowed(p, op)
    ensures Conserved(Apply(p, op), h)
  {
    match op
    case Wrap(g) =>
      OwnersAppend(p.slots, Some(g), h);
    case MoveConstruct(source) =>
      OwnersUpdate(p.slots, source, Some(INVALID_HANDLE_VALUE), h);
      OwnersAppend(p.slots[source := Some(INVALID_HANDLE_VALUE)], p.slots[source], h);
    case MoveAssign(target, source) =>
      if target != source {
        OwnersUpdate(p.slots, target, p.slots[source], h);
        OwnersUpdate(p.slots[target := p.slots[source]], source, Some(INVALID_HANDLE_VALUE), h);
      }
    case Destroy(target) =>
      OwnersUpdate(p.slots, target, None, h);
  }

  lemma {:induction false} HistoryConserves(p: Pool, ops: seq<Operation>, h: Handle)
    requires h != INVALID_HANDLE_VALUE && Conserved(p, h) && IsHistory(p, ops)
    ensures Conserved(After(p, ops), h)
    decreases |ops|
  {
    if ops != [] {
      StepConserves(p, ops[0], h);
      HistoryConserves(Apply(p, ops[0]), ops[1..], h);
    }
  }

  const EMPTY := Pool([], [], [])

  /** From an empty pool, after any operations, a wrapped handle has one owner or was closed once, never both. */
  lemma OwnedOnceOrClosedOnce(ops: seq<Operation>, h: Handle)
    requires IsHistory(EMPTY, ops)
    requires h != INVALID_HANDLE_VALUE && h in After(EMPTY, ops).wrapped
    ensures var p := After(EMPTY, ops);
            || (Owners(p.slots, h) == 1 && Times(p.closed, h) == 0)
            || (Owners(p.slots, h) == 0 && Times(p.closed, h) == 1)
  {
    HistoryConserves(EMPTY, ops, h);
    assert h in multiset(After(EMPTY, ops).wrapped);
  }

  /** Giving up no handle closes nothing: the system is never asked to close INVALID_HANDLE_VALUE. */
  lemma {:induction false} ClosesOnlyValid(p: Pool, ops: seq<Operation>)
    requires IsHistory(p, ops) && -1 !in p.closed
    ensures -1 !in After(p, ops).closed
    decreases |ops|
  {
    if ops != [] {
      ClosesOnlyValid(Apply(p, ops[0]), ops[1..]);
    }
  }

  /** What is closed was wrapped before, and is a valid handle. */
  lemma ClosedWasWrapped(ops: seq<Operation>, h: Handle)
    requires IsHistory(EMPTY, ops) && h in After(EMPTY, ops).closed
    ensures h != -1 && h in After(EMPTY, ops).wrapped
  {
    ClosesOnlyValid(EMPTY, ops);
    HistoryConserves(EMPTY, ops, h);
    assert Times(After(EMPTY, ops).closed, h) > 0;
    assert h in multiset(After(EMPTY, ops).wrapped);
  }

  lemma {:induction false} NoOwners(slots: seq<Option<Handle>>, h: Handle)
    requires forall i :: 0 <= i < |slots| ==> slots[i].None?
    ensures Owners(slots, h) == 0
  {
    if slots != [] {
      NoOwners(slots[..|slots| - 1], h);
    }
  }

  /** No leak and no double close: once every object is gone, a valid handle was closed as often as it was wrapped. */
  lemma AllDestroyedAllClosed(ops: seq<Operation>, h: Handle)
    requires IsHistory(EMPTY, ops) && h != INVALID_HANDLE_VALUE
    requires forall i :: 0 <= i < |After(EMPTY, ops).slots| ==> After(EMPTY, ops).slots[i].None?
    ensures Times(After(EMPTY, ops).closed, h) == Times(After(EMPTY, ops).wrapped, h)
  {
    HistoryConserves(EMPTY, ops, h);
    NoOwners(After(EMPTY, ops).slots, h);
  }

  /** The objects hold what the pool says, and no two slots are the same object. */
  ghost predicate Holding(objects: seq<RaiiHandle>, slots: seq<Option<Handle>>)
    reads objects
  {
    && |objects| == |slots|
    && (forall i, j :: 0 <= i < j < |objects| ==> objects[i] != objects[j])
    && (forall i :: 0 <= i < |slots| && slots[i].Some? ==> objects[i].handle == slots[i].value)
  }

  /** Real objects put through any history end exactly as the pool does, aliased moves included. */
  method RunHistory(ops: seq<Operation>) returns (objects: seq<RaiiHandle>, kernel: Kernel)
    requires IsHistory(EMPTY, ops)
    ensures fresh(objects) && fresh(kernel)
    ensures Holding(objects, After(EMPTY, ops).slots)
    ensures kernel.closed == After(EMPTY, ops).closed
  {
    objects := [];
    kernel := new Kernel();
    ghost var p := EMPTY;
    for k := 0 to |ops|
      invariant fresh(objects) && fresh(kernel)
      invariant IsHistory(p, ops[k..]) && After(p, ops[k..]) == After(EMPTY, ops)
      invariant Holding(objects, p.slots) && kernel.closed == p.closed
    {
      var op := ops[k];
      assert ops[k..][0] == op && ops[k..][1..] == ops[k + 1..];
      if op.Wrap? {
        var created := new RaiiHandle(op.h);
        objects := objects + [created];
      } else if op.MoveConstruct? {
        var created := new RaiiHandle.Move(objects[op.source], kernel);
        objects := objects + [created];
      } else if op.MoveAssign? {
        objects[op.target].MoveAssign(objects[op.source], kernel);
      } else {
        objects[op.target].Destroy(kernel);
      }
      p := Apply(p, op);
    }
    assert ops[|ops|..] == [];
  }
}
