/** The free-list allocator of pool_allocator.c: the chain of free block indices it stands for, and the allocator itself
    with the chain threaded through an int array. */
module PoolAllocator {
  import opened Lists

  datatype PoolResult = Success | NotEnoughMemory | UnalignedFree | OutOfRange | DoubleFree

  /** A pool of cap blocks whose free ones are chained in the order they will be handed out. */
  datatype Pool = Pool(cap: nat, free: seq<int>) {
    ghost predicate Valid() {
      NoDup(free) && forall i :: 0 <= i < |free| ==> 0 <= free[i] < cap
    }

    predicate Out(b: int) {
      0 <= b < cap && b !in free
    }

    function Take(): Pool {
      if free == [] then this else Pool(cap, free[1..])
    }

    function Put(b: int): Pool {
      if Out(b) then Pool(cap, [b] + free) else this
    }

    function PutAll(bs: seq<int>): Pool
      decreases |bs|
    {
      if bs == [] then this else Put(bs[0]).PutAll(bs[1..])
    }
  }

  function Full(cap: nat): (p: Pool)
    ensures p.Valid() && p.cap == |p.free| == cap
    ensures forall b :: 0 <= b < cap ==> p.free[b] == b
  {
    Pool(cap, seq(cap, i requires 0 <= i < cap => i))
  }

  datatype PoolOp = GetOp | ReleaseOp(block: int)

  function After(p: Pool, ops: seq<PoolOp>): Pool
    decreases |ops|
  {
    if ops == [] then p
    else After(if ops[0].GetOp? then p.Take() else p.Put(ops[0].block), ops[1..])
  }

  /** The blocks handed out. */
  ghost function Taken(p: Pool): set<int> {
    Chained(Full(p.cap).free) - Chained(p.free)
  }

  ghost function Chained(free: seq<int>): set<int> {
    set b | b in free
  }

  /** Any sequence of gets and releases leaves a chain without repetition inside the pool, and free and handed-out blocks
      always make up the whole pool. */
  lemma {:induction false} PoolRuns(p: Pool, ops: seq<PoolOp>)
    requires p.Valid()
    ensures After(p, ops).Valid() && After(p, ops).cap == p.cap
    ensures |After(p, ops).free| + |Taken(After(p, ops))| == p.cap
    decreases |ops|
  {
    if ops == [] {
      TakenCount(p);
    } else {
      PoolRuns(if ops[0].GetOp? then p.Take() else p.Put(ops[0].block), ops[1..]);
    }
  }

  lemma TakenCount(p: Pool)
    requires p.Valid()
    ensures |p.free| + |Taken(p)| == p.cap
  {
    var all := Full(p.cap).free;
    NoDupCardinality(p.free);
    NoDupCardinality(all);
    forall b | b in p.free
      ensures b in all
    {
      assert all[b] == b;
    }
    assert Taken(p) + Chained(p.free) == Chained(all);
  }

  /** Getting a block fails exactly when all of them are out. */
  lemma EmptyIffAllOut(p: Pool)
    requires p.Valid()
    ensures p.free == [] <==> forall b :: 0 <= b < p.cap ==> p.Out(b)
  {
    if p.free != [] {
      assert !p.Out(p.free[0]);
    }
  }

  /** A block taken and put back restores the chain; a block put back is the next one handed out. */
  lemma TakePut(p: Pool, b: int)
    requires p.Valid()
    ensures p.free != [] ==> p.Take().Put(p.free[0]) == p
    ensures p.Out(b) ==> p.Put(b).free[0] == b && p.Put(b).Take() == p
  { }

  /** In memory that passed the size check, distinct blocks occupy disjoint bytes of the buffer, none of them reaches the
      bookkeeping behind it, and the bookkeeping ends inside the memory. */
  lemma BlocksDisjoint(base: int, itemSize: int, n: int, memorySize: int, i: int, j: int)
    requires memorySize >= n * (itemSize + SIZEOF_INT)
    requires itemSize > 0 && 0 <= i < n && 0 <= j < n && i != j
    ensures base + n * itemSize + n * SIZEOF_INT <= base + memorySize
    ensures base <= base + i * itemSize && base + i * itemSize + itemSize <= base + n * itemSize
    ensures base + i * itemSize + itemSize <= base + j * itemSize || base + j * itemSize + itemSize <= base + i * itemSize
  {
    assert n * (itemSize + SIZEOF_INT) == n * itemSize + n * SIZEOF_INT;
    Apart(0, i, itemSize);
    Apart(i, n, itemSize);
    Apart(i, j, itemSize);
    Apart(j, i, itemSize);
  }

  lemma Apart(i: int, j: int, d: int)
    requires d > 0
    ensures i < j ==> i * d + d <= j * d
    ensures i == j ==> i * d == j * d
  {
    var k := j - i - 1;
    assert j * d == (i + 1 + k) * d == i * d + d + k * d;
    if k >= 0 {
      assert k * d >= 0;
    }
  }

  /** Which block, if any, an offset into the buffer is the start of. */
  lemma BlockAt(offset: int, d: int)
    requires d > 0
    ensures forall b: int {:trigger b * d} :: offset == b * d <==> offset % d == 0 && b == offset / d
  {
    var q, m := offset / d, offset % d;
    assert offset == q * d + m;
    forall b: int {:trigger b * d}
      ensures offset == b * d <==> m == 0 && b == q
    {
      Apart(b, q, d);
      Apart(q, b, d);
    }
  }

  /** What releasing the byte at this offset of the buffer reports. */
  function Verdict(p: Pool, offset: int, itemSize: int): PoolResult
    requires itemSize > 0
  {
    if offset % itemSize != 0 then UnalignedFree
    else if !(0 <= offset / itemSize < p.cap) then OutOfRange
    else if !p.Out(offset / itemSize) then DoubleFree
    else Success
  }

  /** A release succeeds exactly on the start of a block that is out; the start of a block still in the chain is a double
      free, and a byte that starts no block is an unaligned one. */
  lemma VerdictMeaning(p: Pool, offset: int, itemSize: int)
    requires itemSize > 0 && p.Valid()
    ensures Verdict(p, offset, itemSize) == Success <==> exists b: int {:trigger b * itemSize} :: p.Out(b) && offset == b * itemSize
    ensures Verdict(p, offset, itemSize) == DoubleFree <==> exists b: int {:trigger b * itemSize} :: b in p.free && offset == b * itemSize
    ensures Verdict(p, offset, itemSize) == UnalignedFree <==> forall b: int {:trigger b * itemSize} :: offset != b * itemSize
  {
    BlockAt(offset, itemSize);
    var q := offset / itemSize;
    assert offset % itemSize == 0 ==> offset == q * itemSize;
  }

  const NULL_IDX := -1
  const DETACHED_IDX := -2
  const SIZEOF_INT := 4

  class PoolAllocator {
    var buffer: int          // address of the first block
    var freeList: array<int> // lives behind the blocks, at buffer + itemSize * sizeMax
    var bufferSize: int
    var size: int
    var sizeMax: int
    var itemSize: int
    var firstIdx: int
    ghost var chain: seq<int>

    ghost predicate Valid()
      reads this, freeList
    {
      && itemSize > 0 && sizeMax > 0
      && bufferSize == itemSize * sizeMax
      && freeList.Length == sizeMax
      && NoDup(chain) && (forall i :: 0 <= i < |chain| ==> 0 <= chain[i] < sizeMax)
      && size == |chain|
      && firstIdx == (if chain == [] then NULL_IDX else chain[0])
      && (forall i {:trigger freeList[chain[i]]} :: 0 <= i < |chain| ==>
            freeList[chain[i]] == if i == |chain| - 1 then NULL_IDX else chain[i + 1])
      && (forall b :: 0 <= b < sizeMax ==> (freeList[b] == DETACHED_IDX <==> b !in chain))
    }

    ghost function View(): Pool
      reads this
    {
      Pool(if sizeMax < 0 then 0 else sizeMax, chain)
    }

    function Address(b: int): int
      reads this
    {
      buffer + b * itemSize
    }

    constructor ()
    {
      buffer, bufferSize, size, sizeMax, itemSize, firstIdx := 0, 0, 0, 0, 0, NULL_IDX;
      freeList := new int[0];
      chain := [];
    }

    /** PoolAllocator_init */
    method Init(blockSize: int, numItems: int, memory: int, memorySize: int) returns (r: PoolResult)
      requires blockSize > 0 && numItems > 0
      modifies this
      ensures r == if memorySize < numItems * (blockSize + SIZEOF_INT) then NotEnoughMemory else Success
      ensures r == NotEnoughMemory ==> unchanged(this)
      ensures r == Success ==>
                && Valid() && fresh(freeList) && View() == Full(numItems)
                && buffer == memory && itemSize == blockSize
    {
      var requested := numItems * (blockSize + SIZEOF_INT);
      if memorySize < requested {
        return NotEnoughMemory;
      }
      itemSize := blockSize;
      size := numItems;
      bufferSize := blockSize * numItems;
      sizeMax := numItems;
      buffer := memory;
      freeList := new int[numItems];
      ThreadChain();
      ghost var full := Full(numItems);
      chain := full.free;
      forall b | 0 <= b < numItems
        ensures freeList[b] != DETACHED_IDX && b in chain
      {
        assert full.free[b] == b;
      }
      return Success;
    }

    /** The loop of PoolAllocator_init that links every block to the next one. */
    method ThreadChain()
      requires freeList.Length == size > 0
      modifies freeList, this`firstIdx
      ensures firstIdx == 0
      ensures forall k :: 0 <= k < size ==> freeList[k] == if k == size - 1 then NULL_IDX else k + 1
    {
      var i := 0;
      while i < size - 1
        invariant 0 <= i <= size - 1
        invariant forall k :: 0 <= k < i ==> freeList[k] == k + 1
      {
        freeList[i] := i + 1;
        i := i + 1;
      }
      freeList[size - 1] := NULL_IDX;
      firstIdx := 0;
    }

    /** PoolAllocator_getBlock: the address of a block, or 0. */
    method GetBlock() returns (block: Option<int>)
      requires Valid()
      modifies this, freeList
      ensures Valid() && freeList == old(freeList) && buffer == old(buffer) && itemSize == old(itemSize)
      ensures View() == old(View()).Take()
      ensures block == if old(chain) == [] then None else Some(Address(old(chain)[0]))
    {
      if firstIdx == NULL_IDX {
        return None;
      }
      var detached := firstIdx;
      assert detached == chain[0];
      assert freeList[chain[0]] == if |chain| == 1 then NULL_IDX else chain[1];
      firstIdx := freeList[firstIdx];
      size := size - 1;
      freeList[detached] := DETACHED_IDX;
      chain := chain[1..];
      return Some(buffer + detached * itemSize);
    }

    /** PoolAllocator_releaseBlock */
    method ReleaseBlock(block: int) returns (r: PoolResult)
      requires Valid()
      modifies this, freeList
      ensures Valid() && freeList == old(freeList) && buffer == old(buffer) && itemSize == old(itemSize)
      ensures r == Verdict(old(View()), block - buffer, itemSize)
      ensures View() == if r == Success then old(View()).Put((block - buffer) / itemSize) else old(View())
    {
      var offset := block - buffer;
      if offset % itemSize != 0 {
        return UnalignedFree;
      }
      var idx := offset / itemSize;
      if idx < 0 || idx >= sizeMax {
        return OutOfRange;
      }
      if freeList[idx] != DETACHED_IDX {
        return DoubleFree;
      }
      freeList[idx] := firstIdx;
      firstIdx := idx;
      size := size + 1;
      chain := [idx] + chain;
      return Success;
    }
  }
}
