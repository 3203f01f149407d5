/** How the block headers written into the heap memory represent a layout: the free list
    threaded through pxNextFreeBlock, the sizes with their top bit, and what each edit of
    the headers does to that representation. */
module HeapHeaders {
  import opened HeapLayout
  import opened HeapTheorems
  import opened Sequences

  /** Each address of q is linked to the next. */
  ghost predicate Links(next: map<int, int>, q: seq<int>) {
    forall k :: 0 <= k < |q| - 1 ==> q[k] in next && next[q[k]] == q[k + 1]
  }

  ghost predicate Sizes(size: map<int, int>, bs: seq<Block>) {
    forall b :: b in bs ==> b.addr in size && size[b.addr] == if b.used then b.size + ALLOCATED_BIT else b.size
  }

  /** A block in use is on no list. */
  ghost predicate UsedUnlinked(next: map<int, int>, bs: seq<Block>) {
    forall b :: b in bs && b.used ==> b.addr in next && next[b.addr] == 0
  }

  /** No header, however stale, carries the top bit unless its block is in use. */
  ghost predicate BitsAreLive(size: map<int, int>, bs: seq<Block>) {
    forall a :: a in size && size[a] >= ALLOCATED_BIT ==> Block(a, size[a] - ALLOCATED_BIT, true) in bs
  }

  /** The free list between the two markers. */
  ghost function Chain(bs: seq<Block>, start: int, end: int): seq<int> {
    [start] + FreeAddrs(bs) + [end]
  }

  ghost predicate Markers(next: map<int, int>, size: map<int, int>, start: int, end: int) {
    start in size && size[start] == 0 && end in size && size[end] == 0 && end in next && next[end] == 0
  }

  ghost predicate Represents(next: map<int, int>, size: map<int, int>, bs: seq<Block>, start: int, end: int) {
    && Links(next, Chain(bs, start, end))
    && Sizes(size, bs)
    && UsedUnlinked(next, bs)
    && BitsAreLive(size, bs)
    && Markers(next, size, start, end)
  }

  /** A list node is either spliced out of a chain or, seen backwards, into it. */
  lemma SpliceOut(next: map<int, int>, p: seq<int>, x: int, q: seq<int>)
    requires p != [] && q != [] && Links(next, p + [x] + q)
    requires Distinct(p + [x] + q)
    ensures Links(next[p[|p| - 1] := q[0]], p + q)
  {
    var c, d := p + [x] + q, p + q;
    var last := p[|p| - 1];
    var m := next[last := q[0]];
    assert c[|p| - 1] == last;
    forall k | 0 <= k < |d| - 1
      ensures d[k] in m && m[d[k]] == d[k + 1]
    {
      if k < |p| - 1 {
        assert c[k] == d[k] && c[k + 1] == d[k + 1] && c[k] != c[|p| - 1];
      } else if k >= |p| {
        assert c[k + 1] == d[k] && c[k + 2] == d[k + 1] && c[k + 1] != c[|p| - 1];
      }
    }
  }

  lemma SpliceIn(next: map<int, int>, p: seq<int>, x: int, q: seq<int>)
    requires p != [] && q != [] && Links(next, p + q)
    requires Distinct(p + [x] + q)
    ensures Links(next[x := q[0]][p[|p| - 1] := x], p + [x] + q)
  {
    var c, d := p + [x] + q, p + q;
    var last := p[|p| - 1];
    var m := next[x := q[0]][last := x];
    assert c[|p| - 1] == last && c[|p|] == x;
    forall k | 0 <= k < |c| - 1
      ensures c[k] in m && m[c[k]] == c[k + 1]
    {
      if k < |p| - 1 {
        assert c[k] == d[k] && c[k + 1] == d[k + 1] && c[k] != c[|p| - 1] && c[k] != c[|p|];
      } else if k > |p| {
        assert c[k] == d[k - 1] && c[k + 1] == d[k] && c[k] != c[|p| - 1] && c[k] != c[|p|];
      }
    }
  }

  // ----- Neighbours seen through the headers -------------------------------------------------

  function Last(q: seq<int>): int
    requires q != []
  {
    q[|q| - 1]
  }

  /** prvInsertBlockIntoFreeList's two contiguity tests, for a block at x going between the
      free blocks p and q. */
  predicate MergesBefore(size: map<int, int>, p: seq<int>, x: int)
    requires forall a :: a in p ==> a in size
  {
    p != [] && Last(p) + size[Last(p)] == x
  }

  predicate MergesAfter(size: map<int, int>, x: int, q: seq<int>)
    requires x in size
  {
    q != [] && x + size[x] == q[0]
  }

  /** The free list below and above block i. */
  ghost function Below(bs: seq<Block>, i: nat): seq<int>
    requires i <= |bs|
  {
    FreeAddrs(bs[..i])
  }

  ghost function Above(bs: seq<Block>, i: nat): seq<int>
    requires i < |bs|
  {
    FreeAddrs(bs[i + 1..])
  }

  /** The free list before a block, its own entry if it is free, and the free list after it. */
  lemma FreeAddrsAt(bs: seq<Block>, i: nat)
    requires i < |bs|
    ensures bs[i].used ==> FreeAddrs(bs) == Below(bs, i) + Above(bs, i)
    ensures !bs[i].used ==> FreeAddrs(bs) == Below(bs, i) + [bs[i].addr] + Above(bs, i)
  {
    assert bs == bs[..i] + bs[i..];
    FreeSplit(bs[..i], bs[i..]);
    assert bs[i..][1..] == bs[i + 1..] && bs[i..][0] == bs[i];
    if bs[i].used {
      assert FreeAddrs(bs[i..]) == Above(bs, i);
    } else {
      assert FreeAddrs(bs[i..]) == [bs[i].addr] + Above(bs, i);
    }
  }

  lemma FreeAddrsLast(bs: seq<Block>)
    requires bs != [] && !bs[|bs| - 1].used
    ensures FreeAddrs(bs) == FreeAddrs(bs[..|bs| - 1]) + [bs[|bs| - 1].addr]
  {
    FreeAddrsAt(bs, |bs| - 1);
    assert bs[|bs| - 1 + 1..] == [];
    assert FreeAddrs(bs[..|bs| - 1]) + [bs[|bs| - 1].addr] + [] == FreeAddrs(bs[..|bs| - 1]) + [bs[|bs| - 1].addr];
  }

  /** The entries before a block are free blocks below it. */
  lemma FreeAddrsBelow(bs: seq<Block>, i: nat, lo: int, hi: int, a: int)
    requires Tiles(bs, lo, hi) && i < |bs| && a in Below(bs, i)
    ensures exists j :: 0 <= j < i && !bs[j].used && bs[j].addr == a && bs[j].End() <= bs[i].addr && a < bs[i].addr
  {
    FreeAddrsMember(bs[..i], a);
    var j :| 0 <= j < i && !bs[..i][j].used && bs[..i][j].addr == a;
    BlocksInOrder(bs, lo, hi, j, i);
    assert !bs[j].used && bs[j].addr == a;
  }

  lemma FreeAddrsAbove(bs: seq<Block>, i: nat, lo: int, hi: int, a: int)
    requires Tiles(bs, lo, hi) && i < |bs| && a in Above(bs, i)
    ensures exists j :: i < j < |bs| && !bs[j].used && bs[j].addr == a && bs[i].End() <= a && bs[i].addr < a
  {
    FreeAddrsMember(bs[i + 1..], a);
    var k :| 0 <= k < |bs| - i - 1 && !bs[i + 1..][k].used && bs[i + 1..][k].addr == a;
    BlocksInOrder(bs, lo, hi, i, i + 1 + k);
    assert !bs[i + 1 + k].used && bs[i + 1 + k].addr == a;
  }

  /** The contiguity tests find exactly the free neighbours. */
  lemma MergesBeforeIff(size: map<int, int>, bs: seq<Block>, i: nat, lo: int, hi: int)
    requires Tiles(bs, lo, hi) && i < |bs|
    requires forall b :: b in bs && !b.used ==> b.addr in size && size[b.addr] == b.size
    ensures var p := Below(bs, i);
            && (forall a :: a in p ==> a in size && a < bs[i].addr)
            && (MergesBefore(size, p, bs[i].addr) <==> FreeBefore(bs, i))
            && (FreeBefore(bs, i) ==> p == FreeAddrs(bs[..i - 1]) + [bs[i - 1].addr])
  {
    var p := Below(bs, i);
    forall a | a in p
      ensures a in size && a < bs[i].addr
    {
      FreeAddrsBelow(bs, i, lo, hi, a);
    }
    if FreeBefore(bs, i) {
      FreeAddrsLast(bs[..i]);
      assert bs[..i][..i - 1] == bs[..i - 1];
      TilesAt(bs, i, lo, hi);
      assert bs[i - 1] in bs;
    } else if p != [] {
      NothingEndsAt(bs, i, lo, hi);
    }
  }

  lemma NothingEndsAt(bs: seq<Block>, i: nat, lo: int, hi: int)
    requires Tiles(bs, lo, hi) && i < |bs| && !FreeBefore(bs, i) && Below(bs, i) != []
    ensures exists b :: b in bs && !b.used && b.addr == Last(Below(bs, i)) && b.End() < bs[i].addr
  {
    hide Tiles, FreeAddrs;
    FreeAddrsBelow(bs, i, lo, hi, Last(Below(bs, i)));
    var j :| 0 <= j < i && !bs[j].used && bs[j].addr == Last(Below(bs, i));
    BlocksInOrder(bs, lo, hi, j, i - 1);
    BlocksInOrder(bs, lo, hi, i - 1, i);
    assert bs[j] in bs;
  }

  lemma MergesAfterIff(bs: seq<Block>, i: nat, lo: int, hi: int)
    requires Tiles(bs, lo, hi) && i < |bs|
    ensures var q := Above(bs, i);
            && (forall a :: a in q ==> bs[i].addr < a)
            && (q != [] && bs[i].End() == q[0] <==> FreeAfter(bs, i))
            && (FreeAfter(bs, i) ==> q == [bs[i + 1].addr] + FreeAddrs(bs[i + 2..]))
  {
    var q := Above(bs, i);
    forall a | a in q
      ensures bs[i].addr < a
    {
      FreeAddrsAbove(bs, i, lo, hi, a);
    }
    if FreeAfter(bs, i) {
      assert bs[i + 1..][1..] == bs[i + 2..];
      TilesAt(bs, i, lo, hi);
    } else if q != [] {
      FreeAddrsAbove(bs, i, lo, hi, q[0]);
      var j :| i < j < |bs| && !bs[j].used && bs[j].addr == q[0];
      BlocksInOrder(bs, lo, hi, i + 1, j);
      BlocksInOrder(bs, lo, hi, i, i + 1);
      TilesAt(bs, i + 1, lo, hi);
    }
  }

  /** Start marker, free list and end marker are all different. */
  lemma ChainDistinct(bs: seq<Block>, lo: int, hi: int, start: int)
    requires Tiles(bs, lo, hi) && !(lo <= start <= hi)
    ensures Distinct(Chain(bs, start, hi))
  {
    FreeListIncreasing(bs, lo, hi);
    TilesEnd(bs, lo, hi);
    var f, c := FreeAddrs(bs), Chain(bs, start, hi);
    forall i, j | 0 <= i < j < |c|
      ensures c[i] != c[j]
    {
      if i > 0 { assert c[i] == f[i - 1] && f[i - 1] in f; }
      if j <= |f| { assert c[j] == f[j - 1] && f[j - 1] in f; }
    }
  }

  // ----- Inserting a block into the free list ------------------------------------------------

  /** What prvInsertBlockIntoFreeList leaves, for a block at x going between the free blocks
      p and q: the address of the resulting block, its size, and the resulting free list. */
  function InsertedAt(size: map<int, int>, p: seq<int>, x: int): int
    requires forall a :: a in p ==> a in size
  {
    if MergesBefore(size, p, x) then Last(p) else x
  }

  function InsertedSize(size: map<int, int>, p: seq<int>, x: int, q: seq<int>): int
    requires x in size && forall a :: a in p + q ==> a in size
  {
    (if MergesBefore(size, p, x) then size[Last(p)] else 0) + size[x] + (if MergesAfter(size, x, q) then size[q[0]] else 0)
  }

  function InsertedList(size: map<int, int>, p: seq<int>, x: int, q: seq<int>): seq<int>
    requires x in size && forall a :: a in p + q ==> a in size
  {
    (if MergesBefore(size, p, x) then p[..|p| - 1] else p) + [InsertedAt(size, p, x)]
    + (if MergesAfter(size, x, q) then q[1..] else q)
  }

  /** A block at x, its size already in its header, may be inserted between the free blocks p
      and q of the list. */
  ghost predicate Insertable(next: map<int, int>, size: map<int, int>, start: int, p: seq<int>, x: int, q: seq<int>, end: int) {
    && Links(next, [start] + p + q + [end]) && Distinct([start] + p + [x] + q + [end])
    && x in size && (forall a :: a in p + q ==> a in size && a in next)
    && start in size && size[start] == 0 && start in next
    && (forall a :: a in p ==> a < x) && (forall a :: a in q + [end] ==> x < a)
  }

  /** What the insertion leaves in the headers. */
  ghost predicate Inserted(next: map<int, int>, size: map<int, int>, start: int, p: seq<int>, x: int, q: seq<int>, end: int,
                           after: map<int, int>, sizeAfter: map<int, int>) {
    && x in size && (forall a :: a in p + q ==> a in size)
    && Links(after, [start] + InsertedList(size, p, x, q) + [end])
    && KeepsLinks(next, after, {InsertedAt(size, p, x), Last([start] + p)})
    && sizeAfter == size[InsertedAt(size, p, x) := InsertedSize(size, p, x, q)]
  }

  /** Links other than those of the named nodes are kept. */
  ghost predicate KeepsLinks(before: map<int, int>, after: map<int, int>, except: set<int>) {
    forall a :: a in before && a !in except ==> a in after && after[a] == before[a]
  }

  /** The links written for it: the node before is the last of p, or the start marker. */
  function InsertedNext(next: map<int, int>, size: map<int, int>, start: int, p: seq<int>, x: int, q: seq<int>): map<int, int>
    requires x in size && (forall a :: a in p + q ==> a in size && a in next) && start in next
  {
    var before, at := Last([start] + p), InsertedAt(size, p, x);
    var linked := next[at := if MergesAfter(size, x, q) then next[q[0]] else next[before]];
    if before == at then linked else linked[before := at]
  }

  lemma DistinctLess(s: seq<int>, x: int, t: seq<int>)
    requires Distinct(s + [x] + t)
    ensures Distinct(s + t) && (t != [] ==> Distinct(s + [x] + t[1..]))
  {
    var c := s + [x] + t;
    forall i, j | 0 <= i < j < |s + t|
      ensures (s + t)[i] != (s + t)[j]
    {
      assert (s + t)[i] == c[if i < |s| then i else i + 1] && (s + t)[j] == c[if j < |s| then j else j + 1];
    }
    if t != [] {
      var d := s + [x] + t[1..];
      forall i, j | 0 <= i < j < |d|
        ensures d[i] != d[j]
      {
        assert d[i] == c[if i <= |s| then i else i + 1] && d[j] == c[if j <= |s| then j else j + 1];
      }
    }
  }

  lemma InsertJoins(next: map<int, int>, s: seq<int>, t: seq<int>)
    requires s != [] && |t| >= 2 && Links(next, s + t) && Distinct(s + t) && t[0] in next
    ensures Links(next[Last(s) := next[t[0]]], s + t[1..])
  {
    assert s + t == s + [t[0]] + t[1..];
    assert (s + t)[|s|] == t[0] && (s + t)[|s| + 1] == t[1];
    SpliceOut(next, s, t[0], t[1..]);
  }

  lemma InsertTakesOver(next: map<int, int>, s: seq<int>, x: int, t: seq<int>)
    requires s != [] && |t| >= 2 && Links(next, s + t) && Distinct(s + [x] + t) && t[0] in next
    ensures Links(next[x := next[t[0]]][Last(s) := x], s + [x] + t[1..])
  {
    DistinctLess(s, x, t);
    InsertJoins(next, s, t);
    assert (s + t)[|s|] == t[0] && (s + t)[|s| + 1] == t[1];
    SpliceIn(next[Last(s) := next[t[0]]], s, x, t[1..]);
    assert next[Last(s) := next[t[0]]][x := t[1]][Last(s) := x] == next[x := next[t[0]]][Last(s) := x];
  }

  lemma InsertLinks(next: map<int, int>, size: map<int, int>, start: int, p: seq<int>, x: int, q: seq<int>, end: int)
    requires Links(next, [start] + p + q + [end]) && Distinct([start] + p + [x] + q + [end])
    requires x in size && (forall a :: a in p + q ==> a in size && a in next) && start in next
    ensures Links(InsertedNext(next, size, start, p, x, q), [start] + InsertedList(size, p, x, q) + [end])
  {
    hide Links, Distinct, InsertedNext, InsertedList, MergesBefore;
    if MergesBefore(size, p, x) {
      InsertLinksJoined(next, size, start, p, x, q, end);
    } else {
      InsertLinksApart(next, size, start, p, x, q, end);
    }
  }

  lemma InsertLinksJoined(next: map<int, int>, size: map<int, int>, start: int, p: seq<int>, x: int, q: seq<int>, end: int)
    requires Links(next, [start] + p + q + [end]) && Distinct([start] + p + [x] + q + [end])
    requires x in size && (forall a :: a in p + q ==> a in size && a in next) && start in next
    requires MergesBefore(size, p, x)
    ensures Links(InsertedNext(next, size, start, p, x, q), [start] + InsertedList(size, p, x, q) + [end])
  {
    var before, s, t := Last([start] + p), [start] + p, q + [end];
    assert [start] + p + q + [end] == s + t && [start] + p + [x] + q + [end] == s + [x] + t;
    InsertSees(next, s, x, t);
    hide Links, Distinct;
    DistinctLess(s, x, t);
    assert p == p[..|p| - 1] + [before];
    if MergesAfter(size, x, q) {
      InsertJoins(next, s, t);
      assert [start] + InsertedList(size, p, x, q) + [end] == s + t[1..];
    } else {
      assert InsertedNext(next, size, start, p, x, q) == next;
      assert [start] + InsertedList(size, p, x, q) + [end] == s + t;
    }
  }

  lemma InsertLinksApart(next: map<int, int>, size: map<int, int>, start: int, p: seq<int>, x: int, q: seq<int>, end: int)
    requires Links(next, [start] + p + q + [end]) && Distinct([start] + p + [x] + q + [end])
    requires x in size && (forall a :: a in p + q ==> a in size && a in next) && start in next
    requires !MergesBefore(size, p, x)
    ensures Links(InsertedNext(next, size, start, p, x, q), [start] + InsertedList(size, p, x, q) + [end])
  {
    var before, s, t := Last([start] + p), [start] + p, q + [end];
    assert [start] + p + q + [end] == s + t && [start] + p + [x] + q + [end] == s + [x] + t;
    InsertSees(next, s, x, t);
    hide Links, Distinct;
    DistinctLess(s, x, t);
    if MergesAfter(size, x, q) {
      InsertTakesOver(next, s, x, t);
      assert [start] + InsertedList(size, p, x, q) + [end] == s + [x] + t[1..];
    } else {
      SpliceIn(next, s, x, t);
      assert [start] + InsertedList(size, p, x, q) + [end] == s + [x] + t;
    }
  }

  /** The search goes on exactly while it is still among the nodes below x. */
  lemma SearchStep(next: map<int, int>, start: int, p: seq<int>, x: int, q: seq<int>, end: int, k: nat)
    requires Links(next, [start] + p + q + [end]) && k <= |p|
    requires (forall a :: a in p ==> a < x) && (forall a :: a in q + [end] ==> x < a)
    ensures var n := ([start] + p)[k]; n in next && (next[n] < x <==> k < |p|) && (k < |p| ==> next[n] == ([start] + p)[k + 1])
  {
    var c := [start] + p + q + [end];
    assert c[k] == ([start] + p)[k];
    if k < |p| {
      assert c[k + 1] == p[k] && p[k] in p && ([start] + p)[k + 1] == p[k];
    } else {
      assert c[k + 1] == (q + [end])[0] && (q + [end])[0] in q + [end];
    }
  }

  /** What the code sees on either side of the place found. */
  lemma InsertPlace(next: map<int, int>, start: int, p: seq<int>, x: int, q: seq<int>, end: int)
    requires Links(next, [start] + p + q + [end]) && Distinct([start] + p + [x] + q + [end])
    ensures Last([start] + p) in next && next[Last([start] + p)] == (if q == [] then end else q[0])
    ensures Last([start] + p) != x && start != x
    ensures q != [] ==> q[0] != end && q[0] != Last([start] + p) && q[0] != x
  {
    var s, t := [start] + p, q + [end];
    assert [start] + p + q + [end] == s + t && [start] + p + [x] + q + [end] == s + [x] + t;
    InsertSees(next, s, x, t);
    var c := s + [x] + t;
    assert c[0] == start && c[|s| - 1] == Last(s) && c[|s|] == x;
    if q != [] { assert c[|s| + 1] == q[0] && c[|c| - 1] == end; }
  }

  lemma InsertSees(next: map<int, int>, s: seq<int>, x: int, t: seq<int>)
    requires s != [] && t != [] && Links(next, s + t) && Distinct(s + [x] + t)
    ensures Last(s) in next && next[Last(s)] == t[0] && Last(s) != x
  {
    assert (s + t)[|s| - 1] == Last(s) && (s + t)[|s|] == t[0];
    assert (s + [x] + t)[|s| - 1] == Last(s) && (s + [x] + t)[|s|] == x;
  }

  // ----- The representation after a free ------------------------------------------------------

  lemma FreedSize(size: map<int, int>, bs: seq<Block>, i: nat, lo: int, hi: int)
    requires Tiles(bs, lo, hi) && i < |bs| && bs[i].used && Sizes(size, bs)
    ensures var (x, p, q) := (bs[i].addr, Below(bs, i), Above(bs, i));
            var s := size[x := bs[i].size];
            && (forall a :: a in p + q ==> a in size && a != x)
            && (forall a :: a in p ==> a < x) && (forall a :: a in q ==> x < a)
            && (MergesBefore(s, p, x) <==> FreeBefore(bs, i))
            && (MergesAfter(s, x, q) <==> FreeAfter(bs, i))
            && (FreeBefore(bs, i) ==> p == FreeAddrs(bs[..i - 1]) + [bs[i - 1].addr])
            && (FreeAfter(bs, i) ==> q == [bs[i + 1].addr] + FreeAddrs(bs[i + 2..]))
  {
    var x, p, q := bs[i].addr, Below(bs, i), Above(bs, i);
    var s := size[x := bs[i].size];
    forall b | b in bs && !b.used
      ensures b.addr in s && s[b.addr] == b.size
    {
      AddrIsUnique(bs, i, lo, hi, b);
    }
    hide FreeAddrs, Tiles, FreeBefore, FreeAfter;
    MergesBeforeIff(s, bs, i, lo, hi);
    MergesAfterIff(bs, i, lo, hi);
    forall a | a in q
      ensures a in size
    {
      FreeAddrsAbove(bs, i, lo, hi, a);
      var j :| i < j < |bs| && bs[j].addr == a;
      assert bs[j] in bs;
    }
  }

  lemma AddrIsUnique(bs: seq<Block>, i: nat, lo: int, hi: int, b: Block)
    requires Tiles(bs, lo, hi) && i < |bs| && b in bs
    ensures b.addr == bs[i].addr ==> b == bs[i]
  {
    var j :| 0 <= j < |bs| && bs[j] == b;
    if i < j { BlocksInOrder(bs, lo, hi, i, j); }
    if j < i { BlocksInOrder(bs, lo, hi, j, i); }
  }

  /** The merged block and the new free list are those of the layout. */
  lemma InsertedIsFreeAt(size: map<int, int>, bs: seq<Block>, i: nat, lo: int, hi: int)
    requires Tiles(bs, lo, hi) && i < |bs| && bs[i].used && Sizes(size, bs)
    ensures var (x, p, q) := (bs[i].addr, Below(bs, i), Above(bs, i));
            var s := size[x := bs[i].size];
            var a := if FreeBefore(bs, i) then i - 1 else i;
            && (forall a :: a in p + q ==> a in s)
            && FreeAt(bs, i)[a] == Block(InsertedAt(s, p, x), InsertedSize(s, p, x, q), false)
            && InsertedList(s, p, x, q) == FreeAddrs(FreeAt(bs, i))
  {
    var x, p, q := bs[i].addr, Below(bs, i), Above(bs, i);
    var s := size[x := bs[i].size];
    var a := if FreeBefore(bs, i) then i - 1 else i;
    var b := if FreeAfter(bs, i) then i + 2 else i + 1;
    FreedSize(size, bs, i, lo, hi);
    var m := FreeAt(bs, i)[a];
    assert FreeAt(bs, i) == bs[..a] + [m] + bs[b..];
    AddrsAround(bs, a, b, [m]);
    FreeOfOne(m);
    assert FreeBefore(bs, i) ==> bs[i - 1] in bs && s[bs[i - 1].addr] == bs[i - 1].size by {
      if FreeBefore(bs, i) { AddrIsUnique(bs, i, lo, hi, bs[i - 1]); }
    }
    assert FreeAfter(bs, i) ==> bs[i + 1] in bs && s[bs[i + 1].addr] == bs[i + 1].size by {
      if FreeAfter(bs, i) { AddrIsUnique(bs, i, lo, hi, bs[i + 1]); }
    }
    hide Below, Above, Tiles, FreeAddrs, FreeAt, FreeSum;
    assert InsertedList(s, p, x, q) == FreeAddrs(bs[..a]) + [m.addr] + FreeAddrs(bs[b..]);
  }

  /** Blocks outside a range begin outside it. */
  lemma Elsewhere(bs: seq<Block>, a: nat, b: nat, lo: int, hi: int, c: Block)
    requires Tiles(bs, lo, hi) && a < b <= |bs| && c in bs[..a] + bs[b..]
    ensures c in bs && lo <= c.addr < hi && !(bs[a].addr <= c.addr < bs[b - 1].End())
  {
    if c in bs[..a] {
      var j :| 0 <= j < a && bs[..a][j] == c;
      BlocksInOrder(bs, lo, hi, j, a);
      assert bs[j] == c;
    } else {
      var j :| 0 <= j < |bs| - b && bs[b..][j] == c;
      BlocksInOrder(bs, lo, hi, b - 1, b + j);
      assert bs[b + j] == c;
    }
    TilesBounds(bs, lo, hi, c);
  }

  /** A range of blocks is replaced: headers written inside the range leave the others
      described as before. */
  lemma ReplaceKeepsSizes(size: map<int, int>, after: map<int, int>, bs: seq<Block>, a: nat, b: nat, m: seq<Block>,
                          lo: int, hi: int)
    requires Tiles(bs, lo, hi) && a < b <= |bs| && Sizes(size, bs) && Sizes(after, m)
    requires forall x :: x in size && !(bs[a].addr <= x < bs[b - 1].End()) ==> x in after && after[x] == size[x]
    ensures Sizes(after, bs[..a] + m + bs[b..])
  {
    forall c | c in bs[..a] + m + bs[b..]
      ensures c.addr in after && after[c.addr] == if c.used then c.size + ALLOCATED_BIT else c.size
    {
      if c !in m {
        assert c in bs[..a] + bs[b..];
        Elsewhere(bs, a, b, lo, hi, c);
      }
    }
  }

  lemma ReplaceKeepsUnlinked(next: map<int, int>, after: map<int, int>, bs: seq<Block>, a: nat, b: nat, m: seq<Block>,
                             lo: int, hi: int, except: set<int>)
    requires Tiles(bs, lo, hi) && a < b <= |bs| && UsedUnlinked(next, bs) && UsedUnlinked(after, m)
    requires KeepsLinks(next, after, except)
    requires forall x :: x in except ==> !(lo <= x < hi) || bs[a].addr <= x < bs[b - 1].End() || x in FreeAddrs(bs)
    ensures UsedUnlinked(after, bs[..a] + m + bs[b..])
  {
    forall c | c in bs[..a] + m + bs[b..] && c.used
      ensures c.addr in after && after[c.addr] == 0
    {
      if c !in m {
        assert c in bs[..a] + bs[b..];
        Elsewhere(bs, a, b, lo, hi, c);
        if c.addr in FreeAddrs(bs) {
          FreeAddrsMember(bs, c.addr);
          var j :| 0 <= j < |bs| && !bs[j].used && bs[j].addr == c.addr;
          AddrIsUnique(bs, j, lo, hi, c);
        }
      }
    }
  }

  /** Every block in use outside the range is still there. */
  lemma ReplaceKeepsBits(size: map<int, int>, after: map<int, int>, bs: seq<Block>, a: nat, b: nat, m: seq<Block>)
    requires a < b <= |bs| && BitsAreLive(size, bs)
    requires forall x :: x in after && after[x] >= ALLOCATED_BIT ==>
               Block(x, after[x] - ALLOCATED_BIT, true) in m
               || (x in size && size[x] == after[x] && forall k :: a <= k < b && bs[k].used ==> bs[k].addr != x)
    ensures BitsAreLive(after, bs[..a] + m + bs[b..])
  {
    var r := bs[..a] + m + bs[b..];
    forall x | x in after && after[x] >= ALLOCATED_BIT
      ensures Block(x, after[x] - ALLOCATED_BIT, true) in r
    {
      var u := Block(x, after[x] - ALLOCATED_BIT, true);
      if u !in m {
        var j :| 0 <= j < |bs| && bs[j] == u;
        if j < a { assert bs[..a][j] == u; } else { assert bs[b..][j - b] == u; }
      }
    }
  }

  /** The end marker closes the heap, the start marker lies outside it, and every size in it
      leaves the top bit of a header clear. */
  ghost predicate Placed(lo: int, hi: int, start: int) {
    0 < lo < hi && hi - lo < ALLOCATED_BIT && !(lo <= start <= hi)
  }

  /** Blocks a to b become the blocks m: headers are written only inside the range, links
      only there and at z, the free list node before it. */
  lemma ReplaceRepresents(next: map<int, int>, size: map<int, int>, bs: seq<Block>, a: nat, b: nat, m: seq<Block>,
                          start: int, lo: int, hi: int, after: map<int, int>, s: map<int, int>, except: set<int>, z: int)
    requires Represents(next, size, bs, start, hi) && Tiles(bs, lo, hi) && Placed(lo, hi, start) && a < b <= |bs|
    requires lo <= bs[a].addr && bs[b - 1].End() <= hi
    requires Sizes(s, m) && UsedUnlinked(after, m) && Links(after, Chain(bs[..a] + m + bs[b..], start, hi))
    requires forall x :: x in size && !(bs[a].addr <= x < bs[b - 1].End()) ==> x in s && s[x] == size[x]
    requires forall x :: x in s && s[x] >= ALLOCATED_BIT ==>
               Block(x, s[x] - ALLOCATED_BIT, true) in m
               || (x in size && size[x] == s[x] && forall k :: a <= k < b && bs[k].used ==> bs[k].addr != x)
    requires KeepsLinks(next, after, except) && (z == start || (z in FreeAddrs(bs) && z != hi))
    requires forall x :: x in except ==> x == z || bs[a].addr <= x < bs[b - 1].End()
    ensures Represents(after, s, bs[..a] + m + bs[b..], start, hi)
  {
    hide Tiles, FreeAddrs, Links;
    assert Markers(after, s, start, hi);
    assert Sizes(s, bs[..a] + m + bs[b..]) by { ReplaceKeepsSizes(size, s, bs, a, b, m, lo, hi); }
    assert BitsAreLive(s, bs[..a] + m + bs[b..]) by { ReplaceKeepsBits(size, s, bs, a, b, m); }
    assert UsedUnlinked(after, bs[..a] + m + bs[b..]) by {
      ReplaceKeepsUnlinked(next, after, bs, a, b, m, lo, hi, except);
    }
  }

  /** Blocks a to b, of which only i was in use, become the one free block m. */
  lemma CoalesceRepresents(next: map<int, int>, size: map<int, int>, bs: seq<Block>, a: nat, i: nat, b: nat, m: Block,
                           start: int, lo: int, hi: int, after: map<int, int>, z: int)
    requires Represents(next, size, bs, start, hi) && Tiles(bs, lo, hi) && Placed(lo, hi, start)
    requires a <= i < b <= |bs| && bs[i].used && forall k :: a <= k < b && k != i ==> !bs[k].used
    requires m.addr == bs[a].addr && !m.used && m.size < ALLOCATED_BIT && bs[i].size < ALLOCATED_BIT
    requires lo <= bs[a].addr <= bs[i].addr < bs[b - 1].End() <= hi
    requires Links(after, Chain(bs[..a] + [m] + bs[b..], start, hi))
    requires KeepsLinks(next, after, {m.addr, z}) && (z == start || (z in FreeAddrs(bs) && z != hi))
    ensures Represents(after, size[bs[i].addr := bs[i].size][m.addr := m.size], bs[..a] + [m] + bs[b..], start, hi)
  {
    hide Below, Above, Tiles, FreeAddrs, Links, Chain, KeepsLinks;
    var s := size[bs[i].addr := bs[i].size][m.addr := m.size];
    ReplaceRepresents(next, size, bs, a, b, [m], start, lo, hi, after, s, {m.addr, z}, z);
  }

  /** Inserting the block being freed into the free list turns the representation of the
      layout into one of the layout after the free. */
  lemma FreeRepresents(next: map<int, int>, size: map<int, int>, bs: seq<Block>, i: nat, start: int, lo: int, hi: int,
                       p: seq<int>, q: seq<int>, s: map<int, int>, after: map<int, int>, sizeAfter: map<int, int>)
    requires Represents(next, size, bs, start, hi) && Inv(bs, lo, hi) && Placed(lo, hi, start)
    requires i < |bs| && bs[i].used && p == Below(bs, i) && q == Above(bs, i)
    requires s == size[bs[i].addr := bs[i].size] && Inserted(next, s, start, p, bs[i].addr, q, hi, after, sizeAfter)
    ensures Represents(after, sizeAfter, FreeAt(bs, i), start, hi)
  {
    hide Below, Above, FreeAt, FreeBefore, FreeAfter, InsertedAt, InsertedSize, InsertedList, Tiles, Aligned, NoAdjacentFree, FreeAddrs,
      Links, KeepsLinks, Represents;
    var (a, m, b) := Coalesced(bs, i);
    CoalescedShape(bs, i);
    UnfoldRepresents(next, size, bs, start, hi);
    InsertedIsFreeAt(size, bs, i, lo, hi);
    FreeKeepsTiles(bs, i, lo, hi);
    TilesBounds(FreeAt(bs, i), lo, hi, m);
    TilesBounds(bs, lo, hi, bs[i]);
    FreeAddrsAt(bs, i);
    EndIsNoBlock(bs, lo, hi);
    RangeBounds(bs, a, i, b, lo, hi);
    CoalesceRepresents(next, size, bs, a, i, b, m, start, lo, hi, after, Last([start] + p));
  }

  lemma RangeBounds(bs: seq<Block>, a: nat, i: nat, b: nat, lo: int, hi: int)
    requires Tiles(bs, lo, hi) && a <= i < b <= |bs|
    ensures lo <= bs[a].addr <= bs[i].addr < bs[i].End() <= bs[b - 1].End() <= hi
  {
    if a < i { BlocksInOrder(bs, lo, hi, a, i); }
    if i < b - 1 { BlocksInOrder(bs, lo, hi, i, b - 1); }
    TilesBounds(bs, lo, hi, bs[i]);
    TilesBounds(bs, lo, hi, bs[b - 1]);
    TilesBounds(bs, lo, hi, bs[a]);
  }

  lemma UnfoldRepresents(next: map<int, int>, size: map<int, int>, bs: seq<Block>, start: int, hi: int)
    requires Represents(next, size, bs, start, hi)
    ensures Links(next, Chain(bs, start, hi)) && Sizes(size, bs) && UsedUnlinked(next, bs)
    ensures BitsAreLive(size, bs) && Markers(next, size, start, hi)
  {
  }

  lemma SplitHeaders(size: map<int, int>, next: map<int, int>, b: Block, w: int)
    requires 0 < w && b.size - w > MINIMUM_BLOCK && b.addr in next && next[b.addr] == 0
    ensures Sizes(size[b.addr + w := b.size - w][b.addr := w + ALLOCATED_BIT], Taken(b, w))
    ensures UsedUnlinked(next, Taken(b, w)) && Block(b.addr, w, true) in Taken(b, w)
  {
    assert Taken(b, w)[0] == Block(b.addr, w, true);
  }

  /** Handing out part of block i: its header and that of the part split off are written. */
  lemma TakeSplitRepresents(next: map<int, int>, size: map<int, int>, bs: seq<Block>, i: nat, w: int,
                            start: int, lo: int, hi: int, after: map<int, int>, z: int)
    requires Represents(next, size, bs, start, hi) && Tiles(bs, lo, hi) && Placed(lo, hi, start)
    requires i < |bs| && !bs[i].used && 0 < w && bs[i].size - w > MINIMUM_BLOCK
    requires bs[i].addr in after && after[bs[i].addr] == 0
    requires KeepsLinks(next, after, {bs[i].addr, bs[i].addr + w, z})
    requires Links(after, Chain(TakeAt(bs, i, w), start, hi))
    requires z == start || (z in FreeAddrs(bs) && z != hi)
    ensures Represents(after, size[bs[i].addr + w := bs[i].size - w][bs[i].addr := w + ALLOCATED_BIT],
                       TakeAt(bs, i, w), start, hi)
  {
    hide Tiles, FreeAddrs, Links, Chain, KeepsLinks, Represents, Taken, Sizes, UsedUnlinked;
    var b := bs[i];
    SplitHeaders(size, after, b, w);
    TilesBounds(bs, lo, hi, b);
    ReplaceRepresents(next, size, bs, i, i + 1, Taken(b, w), start, lo, hi, after,
                      size[b.addr + w := b.size - w][b.addr := w + ALLOCATED_BIT], {b.addr, b.addr + w, z}, z);
  }

  lemma WholeHeader(size: map<int, int>, next: map<int, int>, b: Block, w: int)
    requires b.size - w <= MINIMUM_BLOCK && b.addr in next && next[b.addr] == 0
    ensures Sizes(size[b.addr := b.size + ALLOCATED_BIT], Taken(b, w))
    ensures UsedUnlinked(next, Taken(b, w)) && Block(b.addr, b.size, true) in Taken(b, w)
  {
    assert Taken(b, w)[0] == Block(b.addr, b.size, true);
  }

  /** Handing out the whole of block i. */
  lemma TakeWholeRepresents(next: map<int, int>, size: map<int, int>, bs: seq<Block>, i: nat, w: int,
                            start: int, lo: int, hi: int, after: map<int, int>, z: int)
    requires Represents(next, size, bs, start, hi) && Tiles(bs, lo, hi) && Placed(lo, hi, start)
    requires i < |bs| && !bs[i].used && bs[i].size - w <= MINIMUM_BLOCK
    requires bs[i].addr in after && after[bs[i].addr] == 0 && KeepsLinks(next, after, {bs[i].addr, z})
    requires Links(after, Chain(TakeAt(bs, i, w), start, hi))
    requires z == start || (z in FreeAddrs(bs) && z != hi)
    ensures Represents(after, size[bs[i].addr := bs[i].size + ALLOCATED_BIT], TakeAt(bs, i, w), start, hi)
  {
    hide Tiles, FreeAddrs, Links, Chain, KeepsLinks, Represents, Taken, Sizes, UsedUnlinked;
    var b := bs[i];
    WholeHeader(size, after, b, w);
    TilesBounds(bs, lo, hi, b);
    ReplaceRepresents(next, size, bs, i, i + 1, Taken(b, w), start, lo, hi, after,
                      size[b.addr := b.size + ALLOCATED_BIT], {b.addr, z}, z);
  }

  lemma EndIsNoBlock(bs: seq<Block>, lo: int, hi: int)
    requires Tiles(bs, lo, hi)
    ensures hi !in FreeAddrs(bs)
  {
    FreeListIncreasing(bs, lo, hi);
  }

  // ----- What the operations find before they edit the headers ---------------------------------

  lemma ChainMember(next: map<int, int>, bs: seq<Block>, start: int, hi: int, a: int)
    requires Links(next, Chain(bs, start, hi)) && (a == start || a in FreeAddrs(bs))
    ensures a in next
  {
    var c, f := Chain(bs, start, hi), FreeAddrs(bs);
    if a == start {
      assert c[0] == a;
    } else {
      var k :| 0 <= k < |f| && f[k] == a;
      assert c[k + 1] == a;
    }
  }

  /** Freeing block i: the free blocks on either side of it, and the chain they form. */
  lemma BeforeInsert(next: map<int, int>, size: map<int, int>, bs: seq<Block>, i: nat, start: int, lo: int, hi: int,
                     p: seq<int>, q: seq<int>)
    requires Represents(next, size, bs, start, hi) && Tiles(bs, lo, hi) && Placed(lo, hi, start)
    requires i < |bs| && bs[i].used && p == Below(bs, i) && q == Above(bs, i)
    ensures bs[i].addr in size && size[bs[i].addr] == bs[i].size + ALLOCATED_BIT
    ensures Insertable(next, size[bs[i].addr := bs[i].size], start, p, bs[i].addr, q, hi)
  {
    hide Below, Above, Tiles, FreeAddrs, Links, Distinct, FreeBefore, FreeAfter, MergesBefore, MergesAfter;
    assert bs[i] in bs;
    FreedSize(size, bs, i, lo, hi);
    FreeAddrsAt(bs, i);
    assert Chain(bs, start, hi) == [start] + p + q + [hi];
    forall a | a in p + q
      ensures a in next
    {
      ChainMember(next, bs, start, hi, a);
    }
    ChainMember(next, bs, start, hi, start);
    TilesBounds(bs, lo, hi, bs[i]);
    AroundDistinct(bs, i, lo, hi, start);
  }

  /** Any tiling of block i gives a chain without repetitions. */
  lemma RetiledDistinct(bs: seq<Block>, i: nat, lo: int, hi: int, start: int, m: seq<Block>)
    requires Tiles(bs, lo, hi) && Placed(lo, hi, start) && i < |bs| && Tiles(m, bs[i].addr, bs[i].End())
    ensures Distinct([start] + (Below(bs, i) + FreeAddrs(m) + Above(bs, i)) + [hi])
  {
    hide FreeAddrs, Tiles, Distinct;
    TilesAt(bs, i, lo, hi);
    TilesJoin(bs[..i], m, bs[i + 1..], lo, bs[i].addr, bs[i].End(), hi);
    AddrsAround(bs, i, i + 1, m);
    ChainDistinct(bs[..i] + m + bs[i + 1..], lo, hi, start);
  }

  lemma AroundDistinct(bs: seq<Block>, i: nat, lo: int, hi: int, start: int)
    requires Tiles(bs, lo, hi) && Placed(lo, hi, start) && i < |bs|
    ensures Distinct([start] + Below(bs, i) + [bs[i].addr] + Above(bs, i) + [hi])
  {
    var freed := Block(bs[i].addr, bs[i].size, false);
    TilesAt(bs, i, lo, hi);
    TilesOne(freed);
    FreeOfOne(freed);
    hide Below, Above, FreeAddrs, Tiles, Distinct;
    RetiledDistinct(bs, i, lo, hi, start, [freed]);
    Bracket(start, Below(bs, i), [bs[i].addr], Above(bs, i), hi);
  }

  /** A header with its top bit set is that of the block in use found there. */
  lemma UsedHeader(size: map<int, int>, bs: seq<Block>, a: int, lo: int, hi: int) returns (i: nat)
    requires BitsAreLive(size, bs) && Tiles(bs, lo, hi) && a in size && size[a] >= ALLOCATED_BIT
    ensures i == UsedAt(bs, a) < |bs| && bs[i] == Block(a, size[a] - ALLOCATED_BIT, true)
  {
    i :| 0 <= i < |bs| && bs[i] == Block(a, size[a] - ALLOCATED_BIT, true);
    UsedAtIndex(bs, i, lo, hi);
  }

  lemma NoUsedHeader(size: map<int, int>, bs: seq<Block>, a: int, lo: int, hi: int)
    requires Sizes(size, bs) && Tiles(bs, lo, hi) && a in size && size[a] < ALLOCATED_BIT
    ensures UsedAt(bs, a) == |bs|
  {
    var i := UsedAt(bs, a);
    if i < |bs| {
      assert bs[i] in bs;
      TilesBounds(bs, lo, hi, bs[i]);
      assert false;
    }
  }

  lemma UsedIsUnlinked(next: map<int, int>, bs: seq<Block>, i: nat)
    requires UsedUnlinked(next, bs) && i < |bs| && bs[i].used
    ensures bs[i].addr in next && next[bs[i].addr] == 0
  {
    assert bs[i] in bs;
  }

  /** A state of the initialised heap: headers, layout and free bytes agree. */
  ghost predicate Consistent(next: map<int, int>, size: map<int, int>, free: int, bs: seq<Block>,
                             start: int, lo: int, hi: int) {
    Placed(lo, hi, start) && Inv(bs, lo, hi) && Represents(next, size, bs, start, hi) && free == FreeSum(bs)
  }

  lemma BeforeReturn(next: map<int, int>, size: map<int, int>, free: int, bs: seq<Block>, i: nat, start: int, lo: int, hi: int)
    requires Consistent(next, size, free, bs, start, lo, hi) && i < |bs| && bs[i].used
    ensures bs[i].addr in size && size[bs[i].addr] == bs[i].size + ALLOCATED_BIT && bs[i].size > 0
    ensures Insertable(next, size[bs[i].addr := bs[i].size], start, Below(bs, i), bs[i].addr, Above(bs, i), hi)
  {
    TilesBounds(bs, lo, hi, bs[i]);
    hide Below, Above, FreeAddrs, FreeSum, Represents, Insertable;
    BeforeInsert(next, size, bs, i, start, lo, hi, Below(bs, i), Above(bs, i));
  }

  lemma AfterReturn(next: map<int, int>, size: map<int, int>, free: int, bs: seq<Block>, i: nat, start: int, lo: int, hi: int,
                    after: map<int, int>, sizeAfter: map<int, int>)
    requires Consistent(next, size, free, bs, start, lo, hi) && i < |bs| && bs[i].used
    requires Inserted(next, size[bs[i].addr := bs[i].size], start, Below(bs, i), bs[i].addr, Above(bs, i), hi,
                      after, sizeAfter)
    ensures Consistent(after, sizeAfter, free + bs[i].size, FreeAt(bs, i), start, lo, hi)
  {
    hide Below, Above, FreeAddrs, FreeSum, Represents, Inserted, FreeAt;
    FreeRepresents(next, size, bs, i, start, lo, hi, Below(bs, i), Above(bs, i), size[bs[i].addr := bs[i].size],
                   after, sizeAfter);
    FreeKeepsInv(bs, i, lo, hi);
    FreeAccounts(bs, i);
  }

  // ----- Searching for a fit and taking a block -------------------------------------------------

  lemma BeforeFit(size: map<int, int>, bs: seq<Block>, w: int, a: int)
    requires Sizes(size, bs) && a in Below(bs, FirstFit(bs, w))
    ensures a in size && size[a] < w
  {
    var i := FirstFit(bs, w);
    FreeAddrsMember(bs[..i], a);
    var j :| 0 <= j < i && !bs[..i][j].used && bs[..i][j].addr == a;
    assert bs[j] in bs;
  }

  /** The free list entry the first-fit search stops at is the first fitting block. */
  lemma FitFound(size: map<int, int>, bs: seq<Block>, w: int, k: nat)
    requires Sizes(size, bs) && k <= |FreeAddrs(bs)|
    requires forall j :: 0 <= j < k ==> FreeAddrs(bs)[j] in size && size[FreeAddrs(bs)[j]] < w
    requires k < |FreeAddrs(bs)| ==> FreeAddrs(bs)[k] in size && size[FreeAddrs(bs)[k]] >= w
    ensures k == |FreeAddrs(bs)| <==> FirstFit(bs, w) == |bs|
    ensures FirstFit(bs, w) < |bs| ==> k == |Below(bs, FirstFit(bs, w))|
  {
    hide FreeAddrs;
    var i, f := FirstFit(bs, w), FreeAddrs(bs);
    var p := Below(bs, i);
    if i < |bs| {
      FreeAddrsAt(bs, i);
      assert f[|p|] == bs[i].addr && bs[i] in bs;
    } else {
      assert bs[..i] == bs;
    }
    if k < |p| {
      assert f[k] == p[k];
      BeforeFit(size, bs, w, p[k]);
    }
  }

  // ----- Taking a block -----------------------------------------------------------------------

  /** Taking the node after p out of the free list. */
  lemma Unlink(next: map<int, int>, bs: seq<Block>, i: nat, start: int, lo: int, hi: int)
    requires Links(next, Chain(bs, start, hi)) && Tiles(bs, lo, hi) && Placed(lo, hi, start) && i < |bs| && !bs[i].used
    ensures bs[i].addr in next
    ensures Links(next[Last([start] + Below(bs, i)) := next[bs[i].addr]],
                  [start] + Below(bs, i) + Above(bs, i) + [hi])
  {
    var p, q := Below(bs, i), Above(bs, i);
    FreeAddrsAt(bs, i);
    ChainDistinct(bs, lo, hi, start);
    hide Below, Above, FreeAddrs, Tiles, Links, Distinct;
    Bracket(start, p, [bs[i].addr], q, hi);
    ChainMember(next, bs, start, hi, bs[i].addr);
    var t := [bs[i].addr] + (q + [hi]);
    InsertJoins(next, [start] + p, t);
    assert t[1..] == q + [hi];
  }

  /** The part split off is inserted where the block was, and merges with nothing. */
  lemma SplitStandsAlone(size: map<int, int>, bs: seq<Block>, i: nat, w: int, lo: int, hi: int, s: map<int, int>)
    requires Inv(bs, lo, hi) && Sizes(size, bs) && i < |bs| && !bs[i].used && 0 < w < bs[i].size
    requires s == size[bs[i].addr + w := bs[i].size - w][bs[i].addr := w]
    ensures var (p, n, q) := (Below(bs, i), bs[i].addr + w, Above(bs, i));
            && (forall a :: a in p + q ==> a in size) && !MergesBefore(s, p, n) && !MergesAfter(s, n, q)
            && (forall a :: a in p ==> a < bs[i].addr) && (forall a :: a in q ==> n < a)
  {
    var p, n, q := Below(bs, i), bs[i].addr + w, Above(bs, i);
    NeighboursUsed(bs, i);
    hide Aligned, NoAdjacentFree, FreeAddrs;
    MergesAfterIff(bs, i, lo, hi);
    forall a | a in p
      ensures a in size && a < bs[i].addr && a + s[a] < n
    {
      FreeAddrsBelow(bs, i, lo, hi, a);
      var j :| 0 <= j < i && !bs[j].used && bs[j].addr == a && bs[j].End() <= bs[i].addr;
      assert bs[j] in bs;
    }
    forall a | a in q
      ensures a in size && n < a
    {
      FreeAddrsAbove(bs, i, lo, hi, a);
      var j :| i < j < |bs| && !bs[j].used && bs[j].addr == a;
      assert bs[j] in bs;
    }
  }

  /** The search has found block i, free and large enough for w bytes, behind the node. */
  ghost predicate Found(bs: seq<Block>, i: nat, w: int, start: int, previous: int, block: int) {
    && i < |bs| && !bs[i].used && MINIMUM_BLOCK <= w <= bs[i].size && w % ALIGN == 0
    && block == bs[i].addr && previous == Last([start] + Below(bs, i))
  }

  lemma FoundBlock(next: map<int, int>, size: map<int, int>, free: int, bs: seq<Block>, i: nat, w: int, start: int, lo: int, hi: int,
                   previous: int, block: int)
    requires Consistent(next, size, free, bs, start, lo, hi) && Found(bs, i, w, start, previous, block)
    ensures block in next && block in size && size[block] == bs[i].size && bs[i].size < ALLOCATED_BIT
    ensures lo <= block && bs[i].End() <= hi && start != block && start != block + w && start in size
  {
    assert bs[i] in bs;
    TilesBounds(bs, lo, hi, bs[i]);
    FreeAddrsAt(bs, i);
    UnfoldRepresents(next, size, bs, start, hi);
    hide Below, Above, FreeAddrs, Tiles, Links, Distinct, Represents, Aligned, NoAdjacentFree;
    ChainMember(next, bs, start, hi, block);
  }

  lemma FoundPrevious(next: map<int, int>, bs: seq<Block>, i: nat, w: int, start: int, lo: int, hi: int, previous: int, block: int)
    requires Links(next, Chain(bs, start, hi)) && Tiles(bs, lo, hi) && Placed(lo, hi, start)
    requires Found(bs, i, w, start, previous, block)
    ensures previous in next && next[previous] == block && previous != block
    ensures previous == start || (previous in FreeAddrs(bs) && previous != hi)
  {
    var p, q := Below(bs, i), Above(bs, i);
    FreeAddrsAt(bs, i);
    ChainDistinct(bs, lo, hi, start);
    EndIsNoBlock(bs, lo, hi);
    hide Below, Above, FreeAddrs, Tiles, Links, Distinct;
    Bracket(start, p, [block], q, hi);
    assert p != [] ==> Last([start] + p) == Last(p) && Last(p) in p;
    FollowedBy(next, [start] + p, [block] + (q + [hi]));
  }

  /** A chain around a middle part, bracketed at its ends. */
  lemma Bracket(start: int, p: seq<int>, m: seq<int>, q: seq<int>, hi: int)
    ensures [start] + (p + m + q) + [hi] == ([start] + p) + m + (q + [hi])
    ensures [start] + p + m + q + [hi] == ([start] + p) + m + (q + [hi])
    ensures [start] + p + q + [hi] == ([start] + p) + (q + [hi])
    ensures m != [] ==> ([start] + p) + m + (q + [hi]) == ([start] + p) + (m + (q + [hi]))
  {
  }

  lemma FollowedBy(next: map<int, int>, s: seq<int>, t: seq<int>)
    requires s != [] && t != [] && Links(next, s + t) && Distinct(s + t)
    ensures Last(s) in next && next[Last(s)] == t[0] && Last(s) != t[0]
  {
    assert (s + t)[|s| - 1] == Last(s) && (s + t)[|s|] == t[0];
  }

  /** Handing out a whole block. */
  lemma AfterWhole(next: map<int, int>, size: map<int, int>, free: int, bs: seq<Block>, i: nat, w: int, start: int, lo: int, hi: int,
                   previous: int, block: int)
    requires Consistent(next, size, free, bs, start, lo, hi) && Found(bs, i, w, start, previous, block)
    requires bs[i].size - w <= MINIMUM_BLOCK && block in next && block in size
    ensures Consistent(next[previous := next[block]][block := 0], size[block := bs[i].size + ALLOCATED_BIT],
                       free - bs[i].size, TakeAt(bs, i, w), start, lo, hi)
  {
    var after := next[previous := next[block]][block := 0];
    FoundBlock(next, size, free, bs, i, w, start, lo, hi, previous, block);
    UnfoldRepresents(next, size, bs, start, hi);
    MallocAccounts(bs, i, w);
    assert TakeAt(bs, i, w)[i].size == bs[i].size;
    hide Below, Above, FreeAddrs, Tiles, Links, Distinct, Represents, Aligned, NoAdjacentFree, TakeAt, FreeSum;
    FoundPrevious(next, bs, i, w, start, lo, hi, previous, block);
    WholeLinks(next, bs, i, w, start, lo, hi, previous, block);
    TakeKeepsInv(bs, i, w, lo, hi);
    TakeWholeRepresents(next, size, bs, i, w, start, lo, hi, after, previous);
  }

  lemma WholeLinks(next: map<int, int>, bs: seq<Block>, i: nat, w: int, start: int, lo: int, hi: int, previous: int, block: int)
    requires Links(next, Chain(bs, start, hi)) && Tiles(bs, lo, hi) && Placed(lo, hi, start)
    requires Found(bs, i, w, start, previous, block) && bs[i].size - w <= MINIMUM_BLOCK && block in next
    ensures Links(next[previous := next[block]][block := 0], Chain(TakeAt(bs, i, w), start, hi))
  {
    var p, q := Below(bs, i), Above(bs, i);
    TakenAddrs(bs, i, w);
    hide Below, Above, FreeAddrs, Tiles, Links, Distinct, TakeAt;
    Unlink(next, bs, i, start, lo, hi);
    AroundDistinct(bs, i, lo, hi, start);
    Bracket(start, p, [block], q, hi);
    Bracket(start, p, [], q, hi);
    assert FreeAddrs(TakeAt(bs, i, w)) == p + [] + q && ([start] + p) + [] == [start] + p;
    LinksElsewhere(next[previous := next[block]], [start] + p, block, q + [hi], 0);
  }

  lemma TakenAddrs(bs: seq<Block>, i: nat, w: int)
    requires i < |bs|
    ensures FreeAddrs(TakeAt(bs, i, w))
         == Below(bs, i) + (if bs[i].size - w > MINIMUM_BLOCK then [bs[i].addr + w] else []) + Above(bs, i)
  {
    hide FreeAddrs, FreeSum;
    var b := bs[i];
    AddrsAround(bs, i, i + 1, Taken(b, w));
    var u, rest := Block(b.addr, w, true), Block(b.addr + w, b.size - w, false);
    FreeOfTwo(u, rest);
    FreeOfOne(u);
    FreeOfOne(rest);
    FreeOfOne(Block(b.addr, b.size, true));
  }

  /** Writing the link of a node that is on no chain. */
  lemma LinksElsewhere(next: map<int, int>, s: seq<int>, x: int, t: seq<int>, v: int)
    requires Links(next, s + t) && Distinct(s + [x] + t)
    ensures Links(next[x := v], s + t)
  {
    var c := s + [x] + t;
    assert c[|s|] == x;
    forall k | 0 <= k < |s + t|
      ensures (s + t)[k] != x
    {
      assert (s + t)[k] == c[if k < |s| then k else k + 1];
    }
  }

  /** Neither the block handed out nor the part split off is met elsewhere on the chain. */
  lemma SplitDistinct(bs: seq<Block>, i: nat, w: int, lo: int, hi: int, start: int, p: seq<int>, q: seq<int>)
    requires Tiles(bs, lo, hi) && Placed(lo, hi, start) && i < |bs| && 0 < w < bs[i].size
    requires p == Below(bs, i) && q == Above(bs, i)
    ensures Distinct(([start] + p) + [bs[i].addr] + ([bs[i].addr + w] + (q + [hi])))
    ensures Distinct(([start] + p) + [bs[i].addr + w] + (q + [hi]))
  {
    var x, n := bs[i].addr, bs[i].addr + w;
    var u, rest := Block(x, w, false), Block(n, bs[i].size - w, false);
    TilesOne(u);
    TilesOne(rest);
    TilesSplit([u], [rest], x, bs[i].End());
    FreeOfTwo(u, rest);
    FreeOfOne(u);
    FreeOfOne(rest);
    assert [u, rest] == [u] + [rest] && FreeAddrs([u, rest]) == [x, n];
    hide Below, Above, FreeAddrs, Tiles, Distinct;
    RetiledDistinct(bs, i, lo, hi, start, [u, rest]);
    Bracket2(start, p, x, n, q, hi);
    DistinctLess([start] + p, x, [n] + (q + [hi]));
  }

  lemma Bracket2(start: int, p: seq<int>, x: int, n: int, q: seq<int>, hi: int)
    ensures [start] + (p + [x, n] + q) + [hi] == ([start] + p) + [x] + ([n] + (q + [hi]))
    ensures ([start] + p) + ([n] + (q + [hi])) == ([start] + p) + [n] + (q + [hi])
  {
  }

  ghost function SplitSizes(size: map<int, int>, b: Block, w: int): map<int, int> {
    size[b.addr + w := b.size - w][b.addr := w]
  }

  /** Handing out part of a block: what the split part finds when it is inserted. */
  lemma BeforeSplit(next: map<int, int>, size: map<int, int>, free: int, bs: seq<Block>, i: nat, w: int, start: int, lo: int, hi: int,
                    previous: int, block: int)
    requires Consistent(next, size, free, bs, start, lo, hi) && Found(bs, i, w, start, previous, block)
    requires bs[i].size - w > MINIMUM_BLOCK && block in next
    ensures Insertable(next[previous := next[block]], SplitSizes(size, bs[i], w), start,
                       Below(bs, i), block + w, Above(bs, i), hi)
  {
    var p, q := Below(bs, i), Above(bs, i);
    FoundBlock(next, size, free, bs, i, w, start, lo, hi, previous, block);
    UnfoldRepresents(next, size, bs, start, hi);
    hide Below, Above, FreeAddrs, Tiles, Links, Distinct, Represents, Aligned, NoAdjacentFree, MergesBefore, MergesAfter, FreeSum;
    SplitStandsAlone(size, bs, i, w, lo, hi, SplitSizes(size, bs[i], w));
    SplitDistinct(bs, i, w, lo, hi, start, p, q);
    Bracket(start, p, [block + w], q, hi);
    Unlink(next, bs, i, start, lo, hi);
    FreeAddrsAt(bs, i);
    forall a | a in p + q
      ensures a in next
    {
      ChainMember(next, bs, start, hi, a);
    }
    ChainMember(next, bs, start, hi, start);
  }

  lemma SplitInserted(next: map<int, int>, size: map<int, int>, start: int, p: seq<int>, n: int, q: seq<int>, hi: int,
                      unlinked: map<int, int>, after: map<int, int>, sizeAfter: map<int, int>, previous: int, block: int)
    requires KeepsLinks(next, unlinked, {previous})
    requires Inserted(unlinked, size, start, p, n, q, hi, after, sizeAfter) && previous == Last([start] + p)
    requires !MergesBefore(size, p, n) && !MergesAfter(size, n, q)
    ensures sizeAfter == size && Links(after, [start] + (p + [n] + q) + [hi])
    ensures KeepsLinks(next, after[block := 0], {block, n, previous})
  {
    hide Links;
    assert size[n := size[n]] == size;
  }

  /** Handing out part of a block: what is left when the insertion is done. */
  lemma AfterSplit(next: map<int, int>, size: map<int, int>, free: int, bs: seq<Block>, i: nat, w: int, start: int, lo: int, hi: int,
                   previous: int, block: int, after: map<int, int>, sizeAfter: map<int, int>)
    requires Consistent(next, size, free, bs, start, lo, hi) && Found(bs, i, w, start, previous, block)
    requires bs[i].size - w > MINIMUM_BLOCK && block in next
    requires Inserted(next[previous := next[block]], SplitSizes(size, bs[i], w), start,
                      Below(bs, i), block + w, Above(bs, i), hi, after, sizeAfter)
    ensures sizeAfter == SplitSizes(size, bs[i], w)
    ensures Consistent(after[block := 0], sizeAfter[block := w + ALLOCATED_BIT], free - w, TakeAt(bs, i, w), start, lo, hi)
  {
    MallocAccounts(bs, i, w);
    assert TakeAt(bs, i, w)[i].size == w;
    hide Below, Above, FreeSum, TakeAt, Inserted, SplitSizes, Represents, Tiles, Aligned, NoAdjacentFree, FreeAddrs;
    SplitEdits(next, size, bs, i, w, start, lo, hi, previous, block, after, sizeAfter);
    TakeKeepsInv(bs, i, w, lo, hi);
    SplitRepresents(next, size, bs, i, w, start, lo, hi, previous, block, after);
  }

  lemma SplitEdits(next: map<int, int>, size: map<int, int>, bs: seq<Block>, i: nat, w: int, start: int, lo: int, hi: int,
                   previous: int, block: int, after: map<int, int>, sizeAfter: map<int, int>)
    requires Represents(next, size, bs, start, hi) && Inv(bs, lo, hi) && Found(bs, i, w, start, previous, block)
    requires bs[i].size - w > MINIMUM_BLOCK && block in next
    requires Inserted(next[previous := next[block]], SplitSizes(size, bs[i], w), start,
                      Below(bs, i), block + w, Above(bs, i), hi, after, sizeAfter)
    ensures sizeAfter == SplitSizes(size, bs[i], w)
    ensures Links(after, [start] + (Below(bs, i) + [block + w] + Above(bs, i)) + [hi])
    ensures KeepsLinks(next, after[block := 0], {block, block + w, previous})
  {
    UnfoldRepresents(next, size, bs, start, hi);
    hide Below, Above, FreeAddrs, Inv, Links, Inserted, Represents, Sizes, MergesBefore, MergesAfter;
    SplitStandsAlone(size, bs, i, w, lo, hi, SplitSizes(size, bs[i], w));
    SplitInserted(next, SplitSizes(size, bs[i], w), start, Below(bs, i), block + w, Above(bs, i), hi,
                  next[previous := next[block]], after, sizeAfter, previous, block);
  }

  lemma SplitRepresents(next: map<int, int>, size: map<int, int>, bs: seq<Block>, i: nat, w: int, start: int, lo: int, hi: int,
                        previous: int, block: int, after: map<int, int>)
    requires Represents(next, size, bs, start, hi) && Tiles(bs, lo, hi) && Placed(lo, hi, start)
    requires Found(bs, i, w, start, previous, block) && bs[i].size - w > MINIMUM_BLOCK
    requires Links(after, [start] + (Below(bs, i) + [block + w] + Above(bs, i)) + [hi])
    requires KeepsLinks(next, after[block := 0], {block, block + w, previous})
    ensures Represents(after[block := 0], SplitSizes(size, bs[i], w)[block := w + ALLOCATED_BIT], TakeAt(bs, i, w), start, hi)
  {
    assert Links(next, Chain(bs, start, hi)) by { UnfoldRepresents(next, size, bs, start, hi); }
    SplitSizesFinal(size, bs[i], w);
    hide Below, Above, FreeAddrs, Tiles, Links, Represents, KeepsLinks, SplitSizes, TakeAt, Chain;
    FoundPrevious(next, bs, i, w, start, lo, hi, previous, block);
    SplitLinks(bs, i, w, start, lo, hi, Below(bs, i), Above(bs, i), after);
    TakeSplitRepresents(next, size, bs, i, w, start, lo, hi, after[block := 0], previous);
  }

  lemma SplitSizesFinal(size: map<int, int>, b: Block, w: int)
    ensures SplitSizes(size, b, w)[b.addr := w + ALLOCATED_BIT]
         == size[b.addr + w := b.size - w][b.addr := w + ALLOCATED_BIT]
  {
  }

  lemma SplitLinks(bs: seq<Block>, i: nat, w: int, start: int, lo: int, hi: int, p: seq<int>, q: seq<int>, after: map<int, int>)
    requires Tiles(bs, lo, hi) && Placed(lo, hi, start) && i < |bs| && 0 < w && bs[i].size - w > MINIMUM_BLOCK
    requires p == Below(bs, i) && q == Above(bs, i)
    requires Links(after, [start] + (p + [bs[i].addr + w] + q) + [hi])
    ensures Links(after[bs[i].addr := 0], Chain(TakeAt(bs, i, w), start, hi))
  {
    TakenAddrs(bs, i, w);
    hide Below, Above, FreeAddrs, Tiles, Links, Distinct, TakeAt;
    SplitDistinct(bs, i, w, lo, hi, start, p, q);
    Bracket(start, p, [bs[i].addr + w], q, hi);
    LinksElsewhere(after, [start] + p, bs[i].addr, [bs[i].addr + w] + (q + [hi]), 0);
  }

  /** One step of the first-fit search, at position k of the free list. */
  lemma FitStep(next: map<int, int>, size: map<int, int>, free: int, bs: seq<Block>, start: int, lo: int, hi: int, k: nat)
    requires Consistent(next, size, free, bs, start, lo, hi) && k <= |FreeAddrs(bs)|
    ensures var c := Chain(bs, start, hi); var n := c[k + 1];
            && c[k] in next && next[c[k]] == n && n in size && n in next
            && (k == |FreeAddrs(bs)| ==> n == hi && size[n] == 0 && next[n] == 0)
            && (k < |FreeAddrs(bs)| ==> n == FreeAddrs(bs)[k] && n != hi && next[n] == c[k + 2] != 0)
  {
    var f, c := FreeAddrs(bs), Chain(bs, start, hi);
    UnfoldRepresents(next, size, bs, start, hi);
    FreeListIncreasing(bs, lo, hi);
    hide FreeAddrs, Tiles, Aligned, NoAdjacentFree, Represents;
    if k < |f| {
      assert f[k] in f;
      FreeAddrsMember(bs, f[k]);
      var j :| 0 <= j < |bs| && !bs[j].used && bs[j].addr == f[k];
      assert bs[j] in bs;
      assert c[k + 2] == if k + 1 < |f| then f[k + 1] else hi;
      assert k + 1 < |f| ==> f[k + 1] in f;
    }
  }

  /** Where the search ends: at the end marker exactly when nothing fits, and otherwise at
      the first block that does. */
  lemma SearchEnds(next: map<int, int>, size: map<int, int>, free: int, bs: seq<Block>, start: int, lo: int, hi: int, w: int, k: nat)
    requires Consistent(next, size, free, bs, start, lo, hi) && k <= |FreeAddrs(bs)|
    requires MINIMUM_BLOCK <= w && w % ALIGN == 0
    requires forall j :: 0 <= j < k ==> FreeAddrs(bs)[j] in size && size[FreeAddrs(bs)[j]] < w
    requires k < |FreeAddrs(bs)| ==> FreeAddrs(bs)[k] in size && size[FreeAddrs(bs)[k]] >= w
    ensures var c := Chain(bs, start, hi);
            && (c[k + 1] == hi <==> FirstFit(bs, w) == |bs|)
            && (FirstFit(bs, w) < |bs| ==> Found(bs, FirstFit(bs, w), w, start, c[k], c[k + 1]))
  {
    var i, c, f := FirstFit(bs, w), Chain(bs, start, hi), FreeAddrs(bs);
    FitStep(next, size, free, bs, start, lo, hi, k);
    UnfoldRepresents(next, size, bs, start, hi);
    hide FreeAddrs, Consistent;
    FitFound(size, bs, w, k);
    if i < |bs| {
      FreeAddrsAt(bs, i);
      assert f == FreeAddrs(bs[..i]) + [bs[i].addr] + FreeAddrs(bs[i + 1..]);
      assert c[..k + 1] == [start] + FreeAddrs(bs[..i]);
    }
  }

  lemma FoundShape(bs: seq<Block>, i: nat, w: int, start: int, previous: int, block: int)
    requires Found(bs, i, w, start, previous, block)
    ensures i < |bs| && block == bs[i].addr
  {
  }

  /** A fitting block is never larger than the count of free bytes. */
  lemma FreeBytesSuffice(next: map<int, int>, size: map<int, int>, free: int, bs: seq<Block>, start: int, lo: int, hi: int, w: int)
    requires Consistent(next, size, free, bs, start, lo, hi)
    ensures FirstFit(bs, w) < |bs| ==> w <= free
    ensures FirstFit(bs, w) <= |bs|
  {
    forall b | b in bs
      ensures b.size >= 0
    {
      TilesBounds(bs, lo, hi, b);
    }
    FreeBytesTestIsSafe(bs, w);
  }
}
