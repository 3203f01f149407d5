/** The laws of the allocator, over the layout: what allocation finds, what freeing undoes,
    and what every run of both keeps. */
module HeapTheorems {
  import opened HeapLayout

  // ----- The invariant is kept -------------------------------------------------------

  lemma RoundedFits(n: int)
    requires Searches(n)
    ensures n + HEADER <= Rounded(n) < n + HEADER + ALIGN && Rounded(n) % ALIGN == 0
    ensures MINIMUM_BLOCK <= Rounded(n) < 2 * ALLOCATED_BIT
  {
  }

  lemma TilesOne(b: Block)
    requires b.size > 0
    ensures Tiles([b], b.addr, b.End())
  {
    assert [b][1..] == [];
  }

  lemma TakenTiles(b: Block, w: int)
    requires 0 < w <= b.size
    ensures Tiles(Taken(b, w), b.addr, b.End())
  {
    if b.size - w > MINIMUM_BLOCK {
      var u, rest := Block(b.addr, w, true), Block(b.addr + w, b.size - w, false);
      TilesOne(u);
      TilesOne(rest);
      TilesSplit([u], [rest], b.addr, b.End());
      assert Taken(b, w) == [u] + [rest];
    } else {
      TilesOne(Block(b.addr, b.size, true));
    }
  }

  lemma TakeKeepsTiles(bs: seq<Block>, i: nat, w: int, lo: int, hi: int)
    requires Tiles(bs, lo, hi) && i < |bs| && 0 < w <= bs[i].size
    ensures Tiles(TakeAt(bs, i, w), lo, hi)
  {
    hide Tiles;
    TilesAt(bs, i, lo, hi);
    TakenTiles(bs[i], w);
    TilesJoin(bs[..i], Taken(bs[i], w), bs[i + 1..], lo, bs[i].addr, bs[i].End(), hi);
  }

  lemma ReplaceKeepsAligned(bs: seq<Block>, lo: nat, hi: nat, m: seq<Block>)
    requires lo <= hi <= |bs| && Aligned(bs) && Aligned(m)
    ensures Aligned(bs[..lo] + m + bs[hi..])
  {
    hide AlignedBlock;
    forall c | c in bs[..lo] + m + bs[hi..]
      ensures AlignedBlock(c)
    {
      if c !in m { assert c in bs; }
    }
  }

  lemma TakeKeepsAligned(bs: seq<Block>, i: nat, w: int)
    requires Aligned(bs) && i < |bs| && MINIMUM_BLOCK <= w <= bs[i].size && w % ALIGN == 0
    ensures Aligned(TakeAt(bs, i, w))
  {
    var b := bs[i];
    assert b in bs && AlignedBlock(b);
    if b.size - w > MINIMUM_BLOCK {
      var u, rest := Block(b.addr, w, true), Block(b.addr + w, b.size - w, false);
      assert AlignedBlock(u) && AlignedBlock(rest);
      hide AlignedBlock;
      ReplaceKeepsAligned(bs, i, i + 1, [u, rest]);
    } else {
      assert AlignedBlock(Block(b.addr, b.size, true));
      hide AlignedBlock;
      ReplaceKeepsAligned(bs, i, i + 1, [Block(b.addr, b.size, true)]);
    }
  }

  lemma ReplaceLeavesNoNeighbours(bs: seq<Block>, a: nat, b: nat, m: seq<Block>)
    requires a <= b <= |bs| && NoAdjacentFree(bs) && NoAdjacentFree(m) && m != []
    requires (a > 0 ==> bs[a - 1].used || m[0].used) && (b < |bs| ==> m[|m| - 1].used || bs[b].used)
    ensures NoAdjacentFree(bs[..a] + m + bs[b..])
  {
    var r, t := bs[..a] + m + bs[b..], a + |m|;
    assert forall k :: 0 <= k < a ==> r[k] == bs[k];
    assert forall k :: a <= k < t ==> r[k] == m[k - a];
    assert forall k :: t <= k < |r| ==> r[k] == bs[b..][k - t];
    forall k | 0 <= k < |r| - 1
      ensures r[k].used || r[k + 1].used
    {
      if k < a - 1 {
        assert r[k + 1] == bs[k + 1];
      } else if a <= k < t - 1 {
        assert m[k - a].used || m[k - a + 1].used;
      } else if t <= k {
        var j := b + (k - t);
        assert r[k] == bs[j] && r[k + 1] == bs[j + 1];
      }
    }
  }

  lemma TakeLeavesNoNeighbours(bs: seq<Block>, i: nat, w: int)
    requires NoAdjacentFree(bs) && i < |bs| && !bs[i].used
    ensures NoAdjacentFree(TakeAt(bs, i, w))
  {
    NeighboursUsed(bs, i);
    ReplaceLeavesNoNeighbours(bs, i, i + 1, Taken(bs[i], w));
  }

  lemma TakeKeepsInv(bs: seq<Block>, i: nat, w: int, lo: int, hi: int)
    requires Inv(bs, lo, hi) && i < |bs| && !bs[i].used
    requires MINIMUM_BLOCK <= w <= bs[i].size && w % ALIGN == 0
    ensures Inv(TakeAt(bs, i, w), lo, hi)
  {
    TakeKeepsTiles(bs, i, w, lo, hi);
    TakeKeepsAligned(bs, i, w);
    TakeLeavesNoNeighbours(bs, i, w);
  }

  lemma MallocKeepsInv(bs: seq<Block>, n: int, lo: int, hi: int)
    requires Inv(bs, lo, hi)
    ensures Inv(Malloc(bs, n).0, lo, hi)
  {
    if Searches(n) {
      RoundedFits(n);
      var i := FirstFit(bs, Rounded(n));
      if i < |bs| { TakeKeepsInv(bs, i, Rounded(n), lo, hi); }
    }
  }

  lemma FreeKeepsTiles(bs: seq<Block>, i: nat, lo: int, hi: int)
    requires Tiles(bs, lo, hi) && i < |bs|
    ensures Tiles(FreeAt(bs, i), lo, hi)
  {
    var a := if FreeBefore(bs, i) then i - 1 else i;
    var b := if FreeAfter(bs, i) then i + 2 else i + 1;
    TilesAt(bs, i, lo, hi);
    TilesAt(bs, a, lo, hi);
    if FreeBefore(bs, i) {
      assert bs[..i] == bs[..i - 1] + [bs[i - 1]];
    }
    if FreeAfter(bs, i) {
      assert bs[i + 1..][0] == bs[i + 1] && bs[i + 1..][1..] == bs[i + 2..];
    }
    var m := [FreeAt(bs, i)[a]];
    assert m[1..] == [];
    TilesJoin(bs[..a], m, bs[b..], lo, m[0].addr, m[0].End(), hi);
  }

  lemma FreeKeepsInv(bs: seq<Block>, i: nat, lo: int, hi: int)
    requires Inv(bs, lo, hi) && i < |bs| && bs[i].used
    ensures Inv(FreeAt(bs, i), lo, hi)
  {
    FreeKeepsTiles(bs, i, lo, hi);
    FreeKeepsAligned(bs, i);
    FreeLeavesNoNeighbours(bs, i);
  }

  lemma FreeKeepsAligned(bs: seq<Block>, i: nat)
    requires Aligned(bs) && i < |bs|
    ensures Aligned(FreeAt(bs, i))
  {
    var a := if FreeBefore(bs, i) then i - 1 else i;
    var b := if FreeAfter(bs, i) then i + 2 else i + 1;
    assert AlignedBlock(bs[i]) && AlignedBlock(bs[a]) && AlignedBlock(bs[b - 1]) by {
      assert bs[i] in bs && bs[a] in bs && bs[b - 1] in bs;
    }
    ReplaceKeepsAligned(bs, a, b, [FreeAt(bs, i)[a]]);
  }

  lemma FreeLeavesNoNeighbours(bs: seq<Block>, i: nat)
    requires NoAdjacentFree(bs) && i < |bs| && bs[i].used
    ensures NoAdjacentFree(FreeAt(bs, i))
  {
    var (a, m, b) := Coalesced(bs, i);
    if a < i { NeighboursUsed(bs, a); }
    if i + 1 < b { NeighboursUsed(bs, b - 1); }
    CoalescedShape(bs, i);
    ReplaceLeavesNoNeighbours(bs, a, b, [m]);
  }

  lemma FreeOfOne(b: Block)
    ensures FreeSum([b]) == (if b.used then 0 else b.size) && FreeAddrs([b]) == if b.used then [] else [b.addr]
  {
    assert [b][1..] == [];
  }

  lemma FreeOfTwo(b: Block, c: Block)
    ensures FreeSum([b, c]) == FreeSum([b]) + FreeSum([c]) && FreeAddrs([b, c]) == FreeAddrs([b]) + FreeAddrs([c])
  {
    assert [b, c][1..] == [c];
    FreeOfOne(b);
    FreeOfOne(c);
  }

  /** The free bytes go down by the size of the block handed out, and back up by the size of
      the block returned; coalescing loses none. */
  lemma MallocAccounts(bs: seq<Block>, i: nat, w: int)
    requires i < |bs| && !bs[i].used
    ensures TakeAt(bs, i, w)[i].used
    ensures FreeSum(TakeAt(bs, i, w)) == FreeSum(bs) - TakeAt(bs, i, w)[i].size
  {
    hide FreeSum, FreeAddrs;
    SumReplace(bs, i, i + 1, Taken(bs[i], w));
    assert bs[i..i + 1] == [bs[i]];
    FreeOfOne(bs[i]);
    TakenSum(bs[i], w);
  }

  lemma TakenSum(b: Block, w: int)
    ensures FreeSum(Taken(b, w)) == b.size - Taken(b, w)[0].size
  {
    var u, rest := Block(b.addr, w, true), Block(b.addr + w, b.size - w, false);
    FreeOfTwo(u, rest);
    FreeOfOne(u);
    FreeOfOne(rest);
    FreeOfOne(Block(b.addr, b.size, true));
  }

  /** The range of blocks a free replaces, and the block it replaces them by. */
  function Coalesced(bs: seq<Block>, i: nat): (nat, Block, nat)
    requires i < |bs|
  {
    var a := if FreeBefore(bs, i) then i - 1 else i;
    (a, FreeAt(bs, i)[a], if FreeAfter(bs, i) then i + 2 else i + 1)
  }

  lemma CoalescedShape(bs: seq<Block>, i: nat)
    requires i < |bs|
    ensures var (a, m, b) := Coalesced(bs, i);
            && a <= i < b <= |bs| && FreeAt(bs, i) == bs[..a] + [m] + bs[b..] && m in FreeAt(bs, i)
            && m.addr == bs[a].addr && !m.used && (forall k :: a <= k < b && k != i ==> !bs[k].used)
  {
  }

  lemma FreeAccounts(bs: seq<Block>, i: nat)
    requires i < |bs| && bs[i].used
    ensures FreeSum(FreeAt(bs, i)) == FreeSum(bs) + bs[i].size
  {
    hide FreeSum, FreeAddrs;
    var (a, m, b) := Coalesced(bs, i);
    CoalescedShape(bs, i);
    MiddleSum(bs, i);
    hide FreeAt, FreeBefore, FreeAfter;
    SumReplace(bs, a, b, [m]);
    FreeOfOne(m);
  }

  /** The merged block has the bytes freed and those of the free neighbours. */
  lemma MiddleSum(bs: seq<Block>, i: nat)
    requires i < |bs| && bs[i].used
    ensures var (a, m, b) := Coalesced(bs, i); m.size == bs[i].size + FreeSum(bs[a..b])
  {
    var (a, m, b) := Coalesced(bs, i);
    assert bs[a..b] == bs[a..i] + [bs[i]] + bs[i + 1..b];
    hide FreeSum, FreeAddrs;
    FreeSplit(bs[a..i] + [bs[i]], bs[i + 1..b]);
    FreeSplit(bs[a..i], [bs[i]]);
    FreeOfOne(bs[i]);
    FreeOfNone();
    if a < i { assert bs[a..i] == [bs[i - 1]]; FreeOfOne(bs[i - 1]); } else { assert bs[a..i] == []; }
    if b > i + 1 { assert bs[i + 1..b] == [bs[i + 1]]; FreeOfOne(bs[i + 1]); } else { assert bs[i + 1..b] == []; }
  }

  lemma FreeOfNone()
    ensures FreeSum([]) == 0 && FreeAddrs([]) == []
  {
  }

  // ----- Completeness of the search -----------------------------------------------------

  /** A request that reaches the search fails exactly when no free block holds the rounded
      request; otherwise it is served from the lowest-addressed free block that does, with
      at least the bytes asked for, and no size computation leaves 32 bits. */
  lemma MallocIsLowestFit(bs: seq<Block>, n: int, lo: int, hi: int)
    requires Inv(bs, lo, hi) && 0 < lo && Searches(n)
    ensures var (after, p) := Malloc(bs, n);
            && (p == 0 <==> forall b :: b in bs && !b.used ==> b.size < Rounded(n))
            && (p == 0 ==> after == bs)
            && (p != 0 ==>
                  && (exists b :: b in bs && !b.used && b.size >= Rounded(n) && p == b.addr + HEADER)
                  && (forall c :: c in bs && !c.used && c.size >= Rounded(n) ==> p <= c.addr + HEADER)
                  && (exists u :: u in after && u.used && u.addr + HEADER == p && u.End() - p >= n))
    ensures Rounded(n) < 0x1_0000_0000
  {
    RoundedFits(n);
    var w := Rounded(n);
    var i := FirstFit(bs, w);
    forall c | c in bs && !c.used && c.size >= w
      ensures i < |bs| && bs[i].addr <= c.addr
    {
      var j :| 0 <= j < |bs| && bs[j] == c;
      if i < j { BlocksInOrder(bs, lo, hi, i, j); }
    }
    if i < |bs| {
      assert bs[i] in bs;
      TilesBounds(bs, lo, hi, bs[i]);
      assert TakeAt(bs, i, w)[i] in TakeAt(bs, i, w);
    }
  }

  /** The early test against xFreeBytesRemaining refuses nothing that would have fitted. */
  lemma {:induction false} FreeBytesTestIsSafe(bs: seq<Block>, w: int)
    requires forall b :: b in bs ==> b.size >= 0
    ensures FirstFit(bs, w) < |bs| ==> w <= FreeSum(bs)
    ensures FreeSum(bs) >= 0
    decreases |bs|
  {
    if bs != [] {
      assert bs[0] in bs;
      assert forall b :: b in bs[1..] ==> b in bs;
      FreeBytesTestIsSafe(bs[1..], w);
    }
  }

  // ----- Freeing undoes allocating ---------------------------------------------------------

  lemma UsedAtIndex(bs: seq<Block>, i: nat, lo: int, hi: int)
    requires Tiles(bs, lo, hi) && i < |bs| && bs[i].used
    ensures UsedAt(bs, bs[i].addr) == i
  {
    var j := UsedAt(bs, bs[i].addr);
    if j < i { BlocksInOrder(bs, lo, hi, j, i); }
  }

  lemma NeighboursUsed(bs: seq<Block>, i: nat)
    requires NoAdjacentFree(bs) && i < |bs| && !bs[i].used
    ensures !FreeBefore(bs, i) && !FreeAfter(bs, i)
  {
    assert i > 0 ==> bs[i - 1].used;
  }

  lemma FreeUndoesTake(bs: seq<Block>, i: nat, w: int)
    requires NoAdjacentFree(bs) && i < |bs| && !bs[i].used
    ensures i < |TakeAt(bs, i, w)| && FreeAt(TakeAt(bs, i, w), i) == bs
  {
    var r, b := TakeAt(bs, i, w), bs[i];
    assert bs == bs[..i] + [b] + bs[i + 1..];
    NeighboursUsed(bs, i);
    assert !FreeBefore(r, i) && r[..i] == bs[..i];
    if b.size - w > MINIMUM_BLOCK {
      assert r[i + 2..] == bs[i + 1..];
    } else {
      assert r[i + 1..] == bs[i + 1..];
    }
  }

  lemma FreeUndoesTakeAt(bs: seq<Block>, i: nat, w: int, lo: int, hi: int)
    requires Inv(bs, lo, hi) && 0 < lo && i < |bs| && !bs[i].used && 0 < w <= bs[i].size
    ensures Free(TakeAt(bs, i, w), bs[i].addr + HEADER) == bs
  {
    var after := TakeAt(bs, i, w);
    assert i < |after| && after[i].used && after[i].addr == bs[i].addr;
    assert NoAdjacentFree(bs) && Tiles(bs, lo, hi);
    hide Inv, Tiles, NoAdjacentFree, TakeAt, FreeAt;
    TakeKeepsTiles(bs, i, w, lo, hi);
    UsedAtIndex(after, i, lo, hi);
    TilesBounds(bs, lo, hi, bs[i]);
    FreeUndoesTake(bs, i, w);
  }

  /** Freeing a block directly after it was allocated restores the exact layout, and with it
      the exact free list. */
  lemma FreeUndoesMalloc(bs: seq<Block>, n: int, lo: int, hi: int)
    requires Inv(bs, lo, hi) && 0 < lo
    ensures Free(Malloc(bs, n).0, Malloc(bs, n).1) == bs
  {
    hide Inv, TakeAt, FreeAt, FirstFit;
    if Searches(n) {
      var i := FirstFit(bs, Rounded(n));
      if i < |bs| {
        RoundedFits(n);
        FreeUndoesTakeAt(bs, i, Rounded(n), lo, hi);
      }
    }
  }

  /** No block in use remains at the address of one just freed. */
  lemma FreedIsGone(bs: seq<Block>, i: nat, lo: int, hi: int, k: nat)
    requires Tiles(bs, lo, hi) && i < |bs| && k < |FreeAt(bs, i)|
    ensures !(FreeAt(bs, i)[k].used && FreeAt(bs, i)[k].addr == bs[i].addr)
  {
    var (a, m, b) := Coalesced(bs, i);
    CoalescedShape(bs, i);
    var r := FreeAt(bs, i);
    hide FreeAt, Tiles, FreeBefore, FreeAfter;
    if k < a {
      assert r[k] == bs[k];
      BlocksInOrder(bs, lo, hi, k, i);
    } else if k > a {
      assert r[k] == bs[b..][k - a - 1];
      BlocksInOrder(bs, lo, hi, i, b + (k - a - 1));
    }
  }

  /** Freeing a block twice in a row is freeing it once: the second call finds no block in use
      under the pointer, even when the first merged its header away. */
  lemma FreeTwiceIsFreeOnce(bs: seq<Block>, pv: int, lo: int, hi: int)
    requires Tiles(bs, lo, hi)
    ensures Free(Free(bs, pv), pv) == Free(bs, pv)
  {
    hide FreeAt, Tiles;
    var i := UsedAt(bs, pv - HEADER);
    if pv != 0 && i < |bs| {
      var j := UsedAt(FreeAt(bs, i), pv - HEADER);
      if j < |FreeAt(bs, i)| { FreedIsGone(bs, i, lo, hi, j); }
    }
  }

  /** When nothing is allocated the heap is one free block of the initial size. */
  lemma AllFreeIsOneBlock(bs: seq<Block>, lo: int, hi: int)
    requires Inv(bs, lo, hi) && lo < hi && forall b :: b in bs ==> !b.used
    ensures bs == [Block(lo, hi - lo, false)]
  {
    assert forall k :: 0 <= k < |bs| ==> bs[k] in bs;
    NeighboursUsed(bs, 0);
    assert |bs| <= 1;
    assert bs == [bs[0]];
    TilesEnd(bs, lo, hi);
  }

  // ----- Runs ----------------------------------------------------------------------------

  datatype Op = Alloc(n: int) | Release(pv: int)

  function Step(bs: seq<Block>, op: Op): seq<Block> {
    match op
    case Alloc(n) => Malloc(bs, n).0
    case Release(pv) => Free(bs, pv)
  }

  function Run(bs: seq<Block>, ops: seq<Op>): seq<Block>
    decreases |ops|
  {
    if ops == [] then bs else Run(Step(bs, ops[0]), ops[1..])
  }

  lemma StepKeepsInv(bs: seq<Block>, op: Op, lo: int, hi: int)
    requires Inv(bs, lo, hi)
    ensures Inv(Step(bs, op), lo, hi)
  {
    match op
    case Alloc(n) => MallocKeepsInv(bs, n, lo, hi);
    case Release(pv) =>
      var i := UsedAt(bs, pv - HEADER);
      if pv != 0 && i < |bs| { FreeKeepsInv(bs, i, lo, hi); }
  }

  /** After any sequence of allocations and releases, good or bad, the blocks still partition
      the heap, aligned and with no two free neighbours. */
  lemma {:induction false} RunKeepsInv(bs: seq<Block>, ops: seq<Op>, lo: int, hi: int)
    requires Inv(bs, lo, hi)
    ensures Inv(Run(bs, ops), lo, hi)
    decreases |ops|
  {
    if ops != [] {
      StepKeepsInv(bs, ops[0], lo, hi);
      RunKeepsInv(Step(bs, ops[0]), ops[1..], lo, hi);
    }
  }

  lemma InitialInv(lo: int, hi: int)
    requires lo % ALIGN == 0 && hi % ALIGN == 0 && hi - lo >= MINIMUM_BLOCK
    ensures Inv([Block(lo, hi - lo, false)], lo, hi)
  {
    assert [Block(lo, hi - lo, false)][1..] == [];
  }

  /** Fragmentation heals: any run from the initial heap that leaves nothing allocated leaves
      the initial heap. */
  lemma ReleasingEverythingHeals(ops: seq<Op>, lo: int, hi: int)
    requires lo % ALIGN == 0 && hi % ALIGN == 0 && hi - lo >= MINIMUM_BLOCK
    requires var bs := Run([Block(lo, hi - lo, false)], ops); forall b :: b in bs ==> !b.used
    ensures Run([Block(lo, hi - lo, false)], ops) == [Block(lo, hi - lo, false)]
  {
    InitialInv(lo, hi);
    RunKeepsInv([Block(lo, hi - lo, false)], ops, lo, hi);
    AllFreeIsOneBlock(Run([Block(lo, hi - lo, false)], ops), lo, hi);
  }
}
