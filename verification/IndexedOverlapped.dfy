/**
 * An OVERLAPPED with an index behind it, as one byte array: the kernel is handed the front and writes there, and
 * the address of the front is enough to find the index.
 */
module IndexedOverlapped {
  import opened Bytes

  const OVERLAPPED_SIZE: nat := 32
  const INDEX_SIZE: nat := 8
  const LAYOUT_SIZE: nat := OVERLAPPED_SIZE + INDEX_SIZE

  /** 256 to the power n. */
  function Radix(n: nat): (r: nat)
    ensures r > 0
  {
    if n == 0 then 1 else 256 * Radix(n - 1)
  }

  /** The `n` bytes of an integer in memory, least significant first. */
  function ToBytes(v: nat, n: nat): (b: seq<Byte>)
    ensures |b| == n
  {
    if n == 0 then [] else [v % 256] + ToBytes(v / 256, n - 1)
  }

  function FromBytes(b: seq<Byte>): nat {
    if b == [] then 0 else b[0] + 256 * FromBytes(b[1..])
  }

  lemma {:induction false} BytesRoundTrip(v: nat, n: nat)
    requires v < Radix(n)
    ensures FromBytes(ToBytes(v, n)) == v
  {
    if n > 0 {
      BytesRoundTrip(v / 256, n - 1);
    }
  }

  /** A write of the kernel; it knows only the OVERLAPPED, so it stays inside it. */
  datatype KernelWrite = KernelWrite(offset: nat, data: seq<Byte>) {
    predicate Fits() {
      offset + |data| <= OVERLAPPED_SIZE
    }
  }

  class RaiiIndexedOverlapped {
    const ptrOverlapped: array<Byte>

    ghost predicate Valid()
      reads this
    {
      ptrOverlapped.Length == LAYOUT_SIZE
    }

    /** The index as `index` and `indexFromOverlappedLp` load it: the bytes right behind the OVERLAPPED. */
    function Index(): nat
      requires Valid()
      reads this, ptrOverlapped
    {
      FromBytes(ptrOverlapped[OVERLAPPED_SIZE..])
    }

    /** A size_t is eight bytes wide. */
    constructor (index: nat)
      requires index < Radix(INDEX_SIZE)
      ensures Valid() && fresh(ptrOverlapped)
      ensures Index() == index
      ensures ptrOverlapped.Length == 40 && FromBytes(ptrOverlapped[32..]) == index
      ensures forall k :: 0 <= k < OVERLAPPED_SIZE ==> ptrOverlapped[k] == 0
    {
      ptrOverlapped := new Byte[LAYOUT_SIZE](_ => 0);
      new;
      var b := ToBytes(index, INDEX_SIZE);
      for k := 0 to INDEX_SIZE
        invariant forall j :: 0 <= j < OVERLAPPED_SIZE ==> ptrOverlapped[j] == 0
        invariant forall j :: 0 <= j < k ==> ptrOverlapped[OVERLAPPED_SIZE + j] == b[j]
      {
        ptrOverlapped[OVERLAPPED_SIZE + k] := b[k];
      }
      assert ptrOverlapped[OVERLAPPED_SIZE..] == b;
      BytesRoundTrip(index, INDEX_SIZE);
    }

    /** Whatever the kernel writes to the OVERLAPPED over its life, the index stays. */
    method KernelWrites(writes: seq<KernelWrite>)
      requires Valid()
      requires forall w :: w in writes ==> w.Fits()
      modifies ptrOverlapped
      ensures Index() == old(Index()) && ptrOverlapped[32..] == old(ptrOverlapped[32..])
    {
      for k := 0 to |writes|
        invariant ptrOverlapped[OVERLAPPED_SIZE..] == old(ptrOverlapped[OVERLAPPED_SIZE..])
      {
        var w := writes[k];
        assert w.Fits();
        for j := 0 to |w.data|
          invariant ptrOverlapped[OVERLAPPED_SIZE..] == old(ptrOverlapped[OVERLAPPED_SIZE..])
        {
          ptrOverlapped[w.offset + j] := w.data[j];
        }
      }
    }
  }
}
