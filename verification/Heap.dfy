/** freertos/heap_4.c itself: block headers in memory, a free list threaded through them,
    and the counters, proved against the layout of HeapLayout. */
module Heaps {
  import opened HeapLayout
  import opened HeapTheorems
  import opened HeapHeaders
  import opened Sequences

  /** configTOTAL_HEAP_SIZE */
  const TOTAL: int := 18 * 1024

  /** The first and the one-past-last usable addresses of a heap array placed at base. */
  function HeapStart(base: int): int {
    if base % ALIGN != 0 then base + (ALIGN - 1) - (base + (ALIGN - 1)) % ALIGN else base
  }

  function HeapEnd(base: int): int {
    var top := base + TOTAL - HEADER;
    top - top % ALIGN
  }

  function InitialLayout(base: int): seq<Block> {
    [Block(HeapStart(base), HeapEnd(base) - HeapStart(base), false)]
  }

  lemma InitialLayoutFits(base: int)
    ensures base <= HeapStart(base) && HeapEnd(base) + HEADER <= base + TOTAL
    ensures Inv(InitialLayout(base), HeapStart(base), HeapEnd(base))
    ensures FreeSum(InitialLayout(base)) == HeapEnd(base) - HeapStart(base)
    ensures FreeAddrs(InitialLayout(base)) == [HeapStart(base)]
  {
    InitialInv(HeapStart(base), HeapEnd(base));
    FreeOfOne(InitialLayout(base)[0]);
  }

  class Heap {
    /** The address of ucHeap and that of the marker xStart, a variable outside it. */
    const base: int
    const start: int
    /** The header words pxNextFreeBlock and xBlockSize, by the address of the header. */
    var next: map<int, int>
    var size: map<int, int>
    /** pxEnd, 0 for NULL before the first allocation. */
    var end: int
    var allocatedBit: int
    var freeBytes: int
    var minimumEverFree: int
    ghost var blocks: seq<Block>

    ghost predicate Valid()
      reads this
    {
      && 0 < base && 0 < start && !(base <= start < base + TOTAL)
      && if end == 0 then allocatedBit == 0 && size == map[] && freeBytes == 0 && blocks == InitialLayout(base)
         else
           && end == HeapEnd(base) && allocatedBit == ALLOCATED_BIT
           && Consistent(next, size, freeBytes, blocks, start, HeapStart(base), end)
           && minimumEverFree <= freeBytes
    }

    constructor (base: int, start: int)
      requires 0 < base && 0 < start && !(base <= start < base + TOTAL)
      ensures Valid() && this.base == base && this.start == start && blocks == InitialLayout(base)
    {
      this.base, this.start := base, start;
      next, size, end, allocatedBit, freeBytes, minimumEverFree := map[], map[], 0, 0, 0, 0;
      blocks := InitialLayout(base);
    }

    /** prvHeapInit */
    method HeapInit()
      requires Valid() && end == 0
      modifies this
      ensures Valid() && end != 0 && blocks == old(blocks) && minimumEverFree == freeBytes
    {
      var address, total := base, TOTAL;
      if address % ALIGN != 0 {
        address := address + (ALIGN - 1);
        address := address - address % ALIGN;
        total := total - (address - base);
      }
      var first := address;
      address := first + total;
      address := address - HEADER;
      address := address - address % ALIGN;
      end := address;
      next := map[start := first, end := 0, first := end];
      size := map[start := 0, end := 0, first := address - first];
      minimumEverFree, freeBytes := size[first], size[first];
      allocatedBit := ALLOCATED_BIT;
      InitialLayoutFits(base);
      assert Chain(blocks, start, end) == [start, first, end];
    }

    /** The search of prvInsertBlockIntoFreeList: the last node below the block. */
    method FindPlace(inserted: int, ghost p: seq<int>, ghost q: seq<int>) returns (node: int)
      requires Links(next, [start] + p + q + [end])
      requires (forall a :: a in p ==> a < inserted) && (forall a :: a in q + [end] ==> inserted < a)
      ensures node == Last([start] + p)
    {
      node := start;
      ghost var k := 0;
      SearchStep(next, start, p, inserted, q, end, 0);
      while next[node] < inserted
        invariant k <= |p| && node == ([start] + p)[k] && node in next && (next[node] < inserted <==> k < |p|)
        decreases |p| - k
      {
        SearchStep(next, start, p, inserted, q, end, k);
        node := next[node];
        k := k + 1;
        SearchStep(next, start, p, inserted, q, end, k);
      }
    }

    /** prvInsertBlockIntoFreeList: p and q are the free blocks below and above it. */
    method InsertBlockIntoFreeList(inserted: int, ghost p: seq<int>, ghost q: seq<int>)
      requires Insertable(next, size, start, p, inserted, q, end)
      modifies this`next, this`size
      ensures Inserted(old(next), old(size), start, p, inserted, q, end, next, size)
    {
      var node := FindPlace(inserted, p, q);
      InsertPlace(next, start, p, inserted, q, end);
      InsertLinks(next, size, start, p, inserted, q, end);
      hide Links, Distinct;
      var block := inserted;
      if node + size[node] == inserted {
        size := size[node := size[node] + size[inserted]];
        block := node;
      }
      assert block == InsertedAt(old(size), p, inserted);
      if block + size[block] == next[node] {
        if next[node] != end {
          size := size[block := size[block] + size[next[node]]];
          next := next[block := next[next[node]]];
        } else {
          next := next[block := end];
        }
      } else {
        next := next[block := next[node]];
      }
      if node != block { next := next[node := block]; }
      assert next == InsertedNext(old(next), old(size), start, p, inserted, q);
      assert size == old(size)[InsertedAt(old(size), p, inserted) := InsertedSize(old(size), p, inserted, q)];
    }

    /** The first-fit search of pvPortMalloc: the block found and the node before it. */
    method FindFit(wanted: int) returns (previous: int, block: int)
      requires Valid() && end != 0 && MINIMUM_BLOCK <= wanted && wanted % ALIGN == 0
      ensures block == end <==> FirstFit(blocks, wanted) == |blocks|
      ensures block != end ==> Found(blocks, FirstFit(blocks, wanted), wanted, start, previous, block)
      ensures previous in next && next[previous] == block
    {
      hide FreeAddrs, HeapStart, HeapEnd, Consistent;
      ghost var lo, f, c := HeapStart(base), FreeAddrs(blocks), Chain(blocks, start, end);
      ghost var k := 0;
      FitStep(next, size, freeBytes, blocks, start, lo, end, k);
      previous := start;
      block := next[start];
      while size[block] < wanted && next[block] != 0
        invariant k <= |f| && previous == c[k] && block == c[k + 1] && block in size && block in next
        invariant previous in next && next[previous] == block
        invariant k == |f| ==> next[block] == 0 && size[block] == 0
        invariant k < |f| ==> block == f[k] && next[block] == c[k + 2] != 0
        invariant forall j :: 0 <= j < k ==> f[j] in size && size[f[j]] < wanted
        decreases |f| - k
      {
        previous := block;
        block := next[block];
        k := k + 1;
        FitStep(next, size, freeBytes, blocks, start, lo, end, k);
      }
      SearchEnds(next, size, freeBytes, blocks, start, lo, end, wanted, k);
    }

    /** The part of pvPortMalloc that hands out the block found. */
    method TakeBlock(previous: int, block: int, wanted: int, ghost i: nat)
      requires Valid() && end != 0 && Found(blocks, i, wanted, start, previous, block)
      modifies this
      ensures Valid() && end == old(end) && blocks == TakeAt(old(blocks), i, wanted)
      ensures minimumEverFree == if freeBytes < old(minimumEverFree) then freeBytes else old(minimumEverFree)
    {
      hide Consistent, Insertable, Inserted, Below, Above, Found, TakeAt, HeapStart, HeapEnd;
      ghost var lo := HeapStart(base);
      assert i < |blocks| by { FoundShape(blocks, i, wanted, start, previous, block); }
      ghost var b := blocks[i];
      FoundShape(blocks, i, wanted, start, previous, block);
      FoundBlock(next, size, freeBytes, blocks, i, wanted, start, lo, end, previous, block);
      next := next[previous := next[block]];
      if size[block] - wanted > MINIMUM_BLOCK {
        var rest := block + wanted;
        size := size[rest := size[block] - wanted][block := wanted];
        BeforeSplit(old(next), old(size), freeBytes, blocks, i, wanted, start, lo, end, previous, block);
        InsertBlockIntoFreeList(rest, Below(blocks, i), Above(blocks, i));
        AfterSplit(old(next), old(size), freeBytes, blocks, i, wanted, start, lo, end, previous, block, next, size);
      } else {
        AfterWhole(old(next), old(size), freeBytes, blocks, i, wanted, start, lo, end, previous, block);
      }
      freeBytes := freeBytes - size[block];
      if freeBytes < minimumEverFree { minimumEverFree := freeBytes; }
      size := size[block := size[block] + allocatedBit];
      next := next[block := 0];
      blocks := TakeAt(blocks, i, wanted);
    }

    /** pvPortMalloc */
    method Malloc(n: int) returns (pv: int)
      requires Valid() && 0 <= n < 2 * ALLOCATED_BIT
      modifies this
      ensures Valid() && end != 0
      ensures (blocks, pv) == HeapLayout.Malloc(old(blocks), n)
      ensures old(end) != 0 ==> minimumEverFree == if freeBytes < old(minimumEverFree) then freeBytes else old(minimumEverFree)
    {
      hide Consistent, Found, TakeAt, HeapStart, HeapEnd, FirstFit;
      if end == 0 { HeapInit(); }
      pv := 0;
      if n < allocatedBit {
        var wanted := n;
        if wanted > 0 {
          wanted := wanted + HEADER;
          if wanted % ALIGN != 0 { wanted := wanted + (ALIGN - wanted % ALIGN); }
          RoundedFits(n);
        }
        assert wanted > 0 ==> wanted == Rounded(n);
        ghost var i := FirstFit(blocks, wanted);
        FreeBytesSuffice(next, size, freeBytes, blocks, start, HeapStart(base), end, wanted);
        if wanted > 0 && wanted <= freeBytes {
          var previous, block := FindFit(wanted);
          if block != end {
            FoundShape(blocks, i, wanted, start, previous, block);
            pv := next[previous] + HEADER;
            TakeBlock(previous, block, wanted, i);
          }
        }
      }
    }

    /** The part of vPortFree that returns a block in use to the free list. */
    method ReturnBlock(link: int, ghost i: nat)
      requires Valid() && end != 0 && i < |blocks| && blocks[i].used && blocks[i].addr == link
      modifies this
      ensures Valid() && end == old(end) && minimumEverFree == old(minimumEverFree)
      ensures blocks == FreeAt(old(blocks), i)
    {
      hide Consistent, Insertable, Inserted, FreeAddrs, FreeAt, HeapStart, HeapEnd;
      BeforeReturn(next, size, freeBytes, blocks, i, start, HeapStart(base), end);
      size := size[link := size[link] - allocatedBit];
      freeBytes := freeBytes + size[link];
      InsertBlockIntoFreeList(link, Below(blocks, i), Above(blocks, i));
      AfterReturn(old(next), old(size), old(freeBytes), blocks, i, start, HeapStart(base), end, next, size);
      blocks := FreeAt(blocks, i);
    }

    /** vPortFree. The memory under a pointer that is freed once held a header: one whose
        block is no longer in use is recognised and left alone. */
    method Free(pv: int)
      requires Valid() && (pv == 0 || pv - HEADER in size)
      modifies this
      ensures Valid() && end == old(end) && minimumEverFree == old(minimumEverFree)
      ensures blocks == HeapLayout.Free(old(blocks), pv)
    {
      hide Links, FreeAddrs, FreeSum, Tiles, Aligned, NoAdjacentFree, Represents, Sizes, UsedUnlinked, BitsAreLive, FreeAt,
        HeapStart, HeapEnd;
      if pv != 0 {
        var link := pv - HEADER;
        UnfoldRepresents(next, size, blocks, start, end);
        if size[link] >= allocatedBit {
          ghost var i := UsedHeader(size, blocks, link, HeapStart(base), end);
          UsedIsUnlinked(next, blocks, i);
          if next[link] == 0 { ReturnBlock(link, i); }
        } else {
          NoUsedHeader(size, blocks, link, HeapStart(base), end);
        }
      }
    }
  }
}
