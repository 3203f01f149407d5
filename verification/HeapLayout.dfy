/** What freertos/heap_4.c does to the heap, seen as the sequence of its blocks in address
    order: first fit with splitting, and freeing with coalescing on both sides. */
module HeapLayout {

  /** portBYTE_ALIGNMENT of the Cortex-M3 port, and the aligned size of a block header. */
  const ALIGN: int := 8
  const HEADER: int := 8
  const MINIMUM_BLOCK: int := 2 * HEADER
  /** xBlockAllocatedBit: the top bit of a 32-bit size_t. */
  const ALLOCATED_BIT: int := 0x8000_0000

  datatype Block = Block(addr: int, size: int, used: bool)
  {
    function End(): int { addr + size }
  }

  /** The blocks lie end to end from lo to hi. */
  ghost predicate Tiles(bs: seq<Block>, lo: int, hi: int) {
    if bs == [] then lo == hi
    else bs[0].addr == lo && bs[0].size > 0 && Tiles(bs[1..], bs[0].End(), hi)
  }

  ghost predicate AlignedBlock(b: Block) {
    b.addr % ALIGN == 0 && b.size % ALIGN == 0 && b.size >= MINIMUM_BLOCK
  }

  ghost predicate Aligned(bs: seq<Block>) {
    forall b :: b in bs ==> AlignedBlock(b)
  }

  /** Freeing always coalesces. */
  ghost predicate NoAdjacentFree(bs: seq<Block>) {
    forall i :: 0 <= i < |bs| - 1 ==> bs[i].used || bs[i + 1].used
  }

  ghost predicate Inv(bs: seq<Block>, lo: int, hi: int) {
    Tiles(bs, lo, hi) && Aligned(bs) && NoAdjacentFree(bs)
  }

  function FreeSum(bs: seq<Block>): int {
    if bs == [] then 0 else (if bs[0].used then 0 else bs[0].size) + FreeSum(bs[1..])
  }

  /** The free list, in address order. */
  function FreeAddrs(bs: seq<Block>): seq<int> {
    if bs == [] then [] else (if bs[0].used then [] else [bs[0].addr]) + FreeAddrs(bs[1..])
  }

  // ----- Allocation -------------------------------------------------------------------

  /** The request with its header, rounded up to the alignment. */
  function Rounded(n: int): int {
    var w := n + HEADER;
    if w % ALIGN != 0 then w + (ALIGN - w % ALIGN) else w
  }

  /** The index of the first free block of at least w bytes, or |bs|. */
  function FirstFit(bs: seq<Block>, w: int): (i: nat)
    ensures i <= |bs|
    ensures i < |bs| ==> !bs[i].used && bs[i].size >= w
    ensures forall j :: 0 <= j < i ==> bs[j].used || bs[j].size < w
  {
    if bs == [] || (!bs[0].used && bs[0].size >= w) then 0 else 1 + FirstFit(bs[1..], w)
  }

  /** A block becomes used; what is left beyond w bytes is split off when it is large enough. */
  function Taken(b: Block, w: int): seq<Block> {
    if b.size - w > MINIMUM_BLOCK then [Block(b.addr, w, true), Block(b.addr + w, b.size - w, false)]
    else [Block(b.addr, b.size, true)]
  }

  function TakeAt(bs: seq<Block>, i: nat, w: int): seq<Block>
    requires i < |bs|
  {
    bs[..i] + Taken(bs[i], w) + bs[i + 1..]
  }

  /** The request reaches the search: it is not zero and its top bit is clear. */
  predicate Searches(n: int) { 0 < n < ALLOCATED_BIT }

  /** pvPortMalloc: the layout after it and the address returned, 0 for NULL. */
  function Malloc(bs: seq<Block>, n: int): (seq<Block>, int) {
    if !Searches(n) then (bs, 0)
    else
      var i := FirstFit(bs, Rounded(n));
      if i == |bs| then (bs, 0) else (TakeAt(bs, i, Rounded(n)), bs[i].addr + HEADER)
  }

  // ----- Freeing ----------------------------------------------------------------------

  predicate FreeBefore(bs: seq<Block>, i: nat)
    requires i <= |bs|
  {
    i > 0 && !bs[i - 1].used
  }

  predicate FreeAfter(bs: seq<Block>, i: nat)
    requires i < |bs|
  {
    i + 1 < |bs| && !bs[i + 1].used
  }

  /** Block i becomes free and is merged with the free blocks on either side of it. */
  function FreeAt(bs: seq<Block>, i: nat): seq<Block>
    requires i < |bs|
  {
    var lo := if FreeBefore(bs, i) then i - 1 else i;
    var hi := if FreeAfter(bs, i) then i + 2 else i + 1;
    var size := bs[i].size + (if FreeBefore(bs, i) then bs[i - 1].size else 0)
                + (if FreeAfter(bs, i) then bs[i + 1].size else 0);
    bs[..lo] + [Block(bs[lo].addr, size, false)] + bs[hi..]
  }

  /** The index of the used block at an address, or |bs|. */
  function UsedAt(bs: seq<Block>, addr: int): (i: nat)
    ensures i <= |bs|
    ensures i < |bs| ==> bs[i].used && bs[i].addr == addr
    ensures forall j :: 0 <= j < i ==> !(bs[j].used && bs[j].addr == addr)
  {
    if bs == [] || (bs[0].used && bs[0].addr == addr) then 0 else 1 + UsedAt(bs[1..], addr)
  }

  /** vPortFree: nothing happens unless a used block lies under the pointer. */
  function Free(bs: seq<Block>, pv: int): seq<Block> {
    var i := UsedAt(bs, pv - HEADER);
    if pv == 0 || i == |bs| then bs else FreeAt(bs, i)
  }

  // ----- Tiling under concatenation ------------------------------------------------------

  ghost function EndOf(bs: seq<Block>, lo: int): int {
    if bs == [] then lo else bs[|bs| - 1].End()
  }

  lemma {:induction false} TilesSplit(a: seq<Block>, b: seq<Block>, lo: int, hi: int)
    ensures Tiles(a + b, lo, hi) <==> Tiles(a, lo, EndOf(a, lo)) && Tiles(b, EndOf(a, lo), hi)
    decreases |a|
  {
    if a == [] {
      assert a + b == b;
    } else {
      assert (a + b)[0] == a[0] && (a + b)[1..] == a[1..] + b;
      TilesSplit(a[1..], b, a[0].End(), hi);
      assert EndOf(a, lo) == EndOf(a[1..], a[0].End());
    }
  }

  /** The same at an index: what lies before block i ends where it begins. */
  lemma TilesAt(bs: seq<Block>, i: nat, lo: int, hi: int)
    requires Tiles(bs, lo, hi) && i < |bs|
    ensures Tiles(bs[..i], lo, bs[i].addr) && bs[i].size > 0 && Tiles(bs[i + 1..], bs[i].End(), hi)
    ensures bs[i].addr == EndOf(bs[..i], lo)
  {
    assert bs == bs[..i] + bs[i..];
    TilesSplit(bs[..i], bs[i..], lo, hi);
    assert bs[i..][1..] == bs[i + 1..];
  }

  lemma TilesJoin(a: seq<Block>, m: seq<Block>, b: seq<Block>, lo: int, x: int, y: int, hi: int)
    requires Tiles(a, lo, x) && Tiles(m, x, y) && Tiles(b, y, hi)
    ensures Tiles(a + m + b, lo, hi)
  {
    hide Tiles;
    TilesEnd(a, lo, x);
    TilesEnd(m, x, y);
    TilesSplit(m, b, x, hi);
    TilesSplit(a, m + b, lo, hi);
    assert a + m + b == a + (m + b);
  }

  lemma {:induction false} TilesEnd(a: seq<Block>, lo: int, hi: int)
    requires Tiles(a, lo, hi)
    ensures hi == EndOf(a, lo) && lo <= hi
    decreases |a|
  {
    if a != [] { TilesEnd(a[1..], a[0].End(), hi); }
  }

  lemma {:induction false} TilesBounds(bs: seq<Block>, lo: int, hi: int, b: Block)
    requires Tiles(bs, lo, hi) && b in bs
    ensures lo <= b.addr && b.End() <= hi && b.size > 0
    decreases |bs|
  {
    TilesEnd(bs[1..], bs[0].End(), hi);
    if b != bs[0] { TilesBounds(bs[1..], bs[0].End(), hi, b); }
  }

  /** Blocks are disjoint and in address order. */
  lemma BlocksInOrder(bs: seq<Block>, lo: int, hi: int, i: nat, j: nat)
    requires Tiles(bs, lo, hi) && i < j < |bs|
    ensures bs[i].End() <= bs[j].addr && bs[i].addr < bs[j].addr
  {
    TilesAt(bs, i, lo, hi);
    assert bs[j] == bs[i + 1..][j - i - 1];
    TilesBounds(bs[i + 1..], bs[i].End(), hi, bs[j]);
  }

  /** Every byte of the heap lies in exactly one block. */
  lemma {:induction false} EveryByteInOneBlock(bs: seq<Block>, lo: int, hi: int, a: int)
    requires Tiles(bs, lo, hi) && lo <= a < hi
    ensures exists i :: 0 <= i < |bs| && bs[i].addr <= a < bs[i].End()
    ensures forall i, j :: 0 <= i < |bs| && 0 <= j < |bs| && bs[i].addr <= a < bs[i].End() && bs[j].addr <= a < bs[j].End() ==> i == j
    decreases |bs|
  {
    forall i, j | 0 <= i < |bs| && 0 <= j < |bs| && bs[i].addr <= a < bs[i].End() && bs[j].addr <= a < bs[j].End()
      ensures i == j
    {
      if i < j { BlocksInOrder(bs, lo, hi, i, j); }
      if j < i { BlocksInOrder(bs, lo, hi, j, i); }
    }
    if a >= bs[0].End() {
      EveryByteInOneBlock(bs[1..], bs[0].End(), hi, a);
      var i :| 0 <= i < |bs| - 1 && bs[1..][i].addr <= a < bs[1..][i].End();
      assert bs[i + 1].addr <= a < bs[i + 1].End();
    } else {
      assert bs[0].addr <= a < bs[0].End();
    }
  }

  // ----- The free list and the free bytes under concatenation -----------------------------

  lemma {:induction false} FreeSplit(a: seq<Block>, b: seq<Block>)
    ensures FreeAddrs(a + b) == FreeAddrs(a) + FreeAddrs(b)
    ensures FreeSum(a + b) == FreeSum(a) + FreeSum(b)
    decreases |a|
  {
    if a == [] {
      assert a + b == b;
    } else {
      assert (a + b)[0] == a[0] && (a + b)[1..] == a[1..] + b;
      FreeSplit(a[1..], b);
    }
  }

  lemma SumAround(bs: seq<Block>, lo: nat, hi: nat, m: seq<Block>)
    requires lo <= hi <= |bs|
    ensures FreeSum(bs[..lo] + m + bs[hi..]) == FreeSum(bs[..lo]) + FreeSum(m) + FreeSum(bs[hi..])
  {
    hide FreeSum, FreeAddrs;
    FreeSplit(bs[..lo] + m, bs[hi..]);
    FreeSplit(bs[..lo], m);
  }

  lemma SumReplace(bs: seq<Block>, lo: nat, hi: nat, m: seq<Block>)
    requires lo <= hi <= |bs|
    ensures FreeSum(bs[..lo] + m + bs[hi..]) == FreeSum(bs) - FreeSum(bs[lo..hi]) + FreeSum(m)
  {
    hide FreeSum;
    SumAround(bs, lo, hi, m);
    SumAround(bs, lo, hi, bs[lo..hi]);
    assert bs == bs[..lo] + bs[lo..hi] + bs[hi..];
  }

  lemma AddrsAround(bs: seq<Block>, lo: nat, hi: nat, m: seq<Block>)
    requires lo <= hi <= |bs|
    ensures FreeAddrs(bs[..lo] + m + bs[hi..]) == FreeAddrs(bs[..lo]) + FreeAddrs(m) + FreeAddrs(bs[hi..])
  {
    hide FreeSum, FreeAddrs;
    FreeSplit(bs[..lo] + m, bs[hi..]);
    FreeSplit(bs[..lo], m);
  }

  lemma {:induction false} FreeAddrsMember(bs: seq<Block>, a: int)
    ensures a in FreeAddrs(bs) <==> exists i :: 0 <= i < |bs| && !bs[i].used && bs[i].addr == a
    decreases |bs|
  {
    if bs != [] {
      FreeAddrsMember(bs[1..], a);
      if a in FreeAddrs(bs[1..]) {
        var i :| 0 <= i < |bs| - 1 && !bs[1..][i].used && bs[1..][i].addr == a;
        assert !bs[i + 1].used && bs[i + 1].addr == a;
      }
      if i :| 0 <= i < |bs| && !bs[i].used && bs[i].addr == a {
        if i > 0 { assert !bs[1..][i - 1].used && bs[1..][i - 1].addr == a; }
      }
    }
  }

  ghost predicate Increasing(q: seq<int>) {
    forall i, j :: 0 <= i < j < |q| ==> q[i] < q[j]
  }

  /** The free list is strictly ordered by address. */
  lemma {:induction false} FreeListIncreasing(bs: seq<Block>, lo: int, hi: int)
    requires Tiles(bs, lo, hi)
    ensures Increasing(FreeAddrs(bs))
    ensures forall a :: a in FreeAddrs(bs) ==> lo <= a < hi
    decreases |bs|
  {
    if bs != [] {
      FreeListIncreasing(bs[1..], bs[0].End(), hi);
      TilesEnd(bs[1..], bs[0].End(), hi);
      var rest := FreeAddrs(bs[1..]);
      if !bs[0].used {
        var q := [bs[0].addr] + rest;
        forall i, j | 0 <= i < j < |q|
          ensures q[i] < q[j]
        {
          assert q[j] == rest[j - 1] && rest[j - 1] in rest;
        }
      } else {
        assert [] + rest == rest;
      }
    }
  }
}
