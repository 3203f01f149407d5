/** The storage of a queue (freertos/queue.c): a ring of fixed-size items in a byte array,
    entered at pcWriteTo or, for the front, at pcReadFrom, and proved to be a bounded deque. */
module Queues {

  datatype Position = Back | Front | Overwrite

  // ----- The bytes of the storage as slots -----------------------------------------------

  /** The slots laid end to end. */
  ghost function Flat(slots: seq<seq<bv8>>): seq<bv8> {
    if slots == [] then [] else slots[0] + Flat(slots[1..])
  }

  ghost predicate Sized(slots: seq<seq<bv8>>, size: nat) {
    forall k :: 0 <= k < |slots| ==> |slots[k]| == size
  }

  lemma {:induction false} FlatLength(slots: seq<seq<bv8>>, size: nat)
    requires Sized(slots, size)
    ensures |Flat(slots)| == |slots| * size
    decreases |slots|
  {
    if slots != [] {
      assert |slots[0]| == size;
      FlatLength(slots[1..], size);
      assert |slots| * size == size + (|slots| - 1) * size;
    }
  }

  lemma {:induction false} FlatSplit(a: seq<seq<bv8>>, b: seq<seq<bv8>>)
    ensures Flat(a + b) == Flat(a) + Flat(b)
    decreases |a|
  {
    if a == [] {
      assert a + b == b;
    } else {
      assert (a + b)[0] == a[0] && (a + b)[1..] == a[1..] + b;
      FlatSplit(a[1..], b);
    }
  }

  /** Slot k occupies the bytes from k * size on. */
  lemma SlotBytes(slots: seq<seq<bv8>>, size: nat, k: nat)
    requires Sized(slots, size) && k < |slots|
    ensures Flat(slots) == Flat(slots[..k]) + slots[k] + Flat(slots[k + 1..])
    ensures |Flat(slots[..k])| == k * size && |slots[k]| == size && k * size + size <= |Flat(slots)|
  {
    assert slots == slots[..k] + ([slots[k]] + slots[k + 1..]);
    FlatSplit(slots[..k], [slots[k]] + slots[k + 1..]);
    assert ([slots[k]] + slots[k + 1..])[1..] == slots[k + 1..];
    FlatLength(slots[..k], size);
  }

  lemma Thirds(f: seq<bv8>, a: seq<bv8>, x: seq<bv8>, c: seq<bv8>, n: nat, m: nat)
    requires f == a + x + c && |a| == n && |x| == m
    ensures f[..n] == a && f[n..n + m] == x && f[n + m..] == c
  {
  }

  lemma ReadSlot(slots: seq<seq<bv8>>, size: nat, k: nat)
    requires Sized(slots, size) && k < |slots|
    ensures k * size + size <= |Flat(slots)| && Flat(slots)[k * size..k * size + size] == slots[k]
  {
    SlotBytes(slots, size, k);
    Thirds(Flat(slots), Flat(slots[..k]), slots[k], Flat(slots[k + 1..]), k * size, size);
  }

  lemma WriteSlot(slots: seq<seq<bv8>>, size: nat, k: nat, item: seq<bv8>)
    requires Sized(slots, size) && k < |slots| && |item| == size
    ensures k * size + size <= |Flat(slots)|
    ensures Flat(slots[k := item]) == Flat(slots)[..k * size] + item + Flat(slots)[k * size + size..]
  {
    var after := slots[k := item];
    assert Sized(after, size) && after[..k] == slots[..k] && after[k + 1..] == slots[k + 1..];
    hide Flat, Sized;
    SlotBytes(slots, size, k);
    SlotBytes(after, size, k);
    Thirds(Flat(slots), Flat(slots[..k]), slots[k], Flat(slots[k + 1..]), k * size, size);
  }

  lemma {:induction false} SlotGap(a: nat, d: nat, size: nat)
    ensures (a + d + 1) * size >= a * size + size
    decreases d
  {
    assert (a + d + 1) * size == (a + d) * size + size;
    if d > 0 { SlotGap(a, d - 1, size); }
  }

  /** Slots begin in order. */
  lemma SlotOrder(a: nat, b: nat, size: nat)
    requires size > 0
    ensures a < b ==> a * size < b * size
    ensures b <= a ==> b * size <= a * size
  {
    if a < b { SlotGap(a, b - a - 1, size); }
    if b < a { SlotGap(b, a - b - 1, size); }
  }

  // ----- Positions in the ring ---------------------------------------------------------------

  /** x, at most twice the length, brought back into the ring. */
  function Wrap(x: int, length: int): (r: int)
    ensures 0 <= x <= 2 * length && length > 0 ==> 0 <= r < length
  {
    if x >= 2 * length then x - 2 * length else if x >= length then x - length else x
  }

  /** The items from the one after the read position on. */
  ghost function Items(slots: seq<seq<bv8>>, read: nat, messages: nat): seq<seq<bv8>>
    requires read < |slots| && messages <= |slots|
  {
    seq(messages, k requires 0 <= k < messages => slots[Wrap(read + 1 + k, |slots|)])
  }

  lemma BackAppends(slots: seq<seq<bv8>>, read: nat, messages: nat, item: seq<bv8>)
    requires read < |slots| && messages < |slots|
    ensures Items(slots[Wrap(read + 1 + messages, |slots|) := item], read, messages + 1) == Items(slots, read, messages) + [item]
  {
    var w := Wrap(read + 1 + messages, |slots|);
    var l, r := Items(slots[w := item], read, messages + 1), Items(slots, read, messages) + [item];
    forall k | 0 <= k < messages + 1
      ensures l[k] == r[k]
    {
      assert l[k] == slots[w := item][Wrap(read + 1 + k, |slots|)];
      if k < messages { assert Wrap(read + 1 + k, |slots|) != w; }
    }
  }

  lemma FrontPrepends(slots: seq<seq<bv8>>, read: nat, messages: nat, item: seq<bv8>)
    requires read < |slots| && messages < |slots|
    ensures Items(slots[read := item], Wrap(read - 1 + |slots|, |slots|), messages + 1) == [item] + Items(slots, read, messages)
  {
    var read' := Wrap(read - 1 + |slots|, |slots|);
    var l, r := Items(slots[read := item], read', messages + 1), [item] + Items(slots, read, messages);
    forall k | 0 <= k < messages + 1
      ensures l[k] == r[k]
    {
      assert l[k] == slots[read := item][Wrap(read' + 1 + k, |slots|)];
      if k == 0 {
        assert Wrap(read' + 1 + k, |slots|) == read;
      } else {
        assert Wrap(read' + 1 + k, |slots|) == Wrap(read + 1 + (k - 1), |slots|) != read;
      }
    }
  }

  lemma ReadPops(slots: seq<seq<bv8>>, read: nat, messages: nat)
    requires read < |slots| && 0 < messages <= |slots|
    ensures slots[Wrap(read + 1, |slots|)] == Items(slots, read, messages)[0]
    ensures Items(slots, Wrap(read + 1, |slots|), messages - 1) == Items(slots, read, messages)[1..]
  {
    var l, r := Items(slots, Wrap(read + 1, |slots|), messages - 1), Items(slots, read, messages)[1..];
    forall k | 0 <= k < messages - 1
      ensures l[k] == r[k]
    {
      assert Wrap(Wrap(read + 1, |slots|) + 1 + k, |slots|) == Wrap(read + 1 + (k + 1), |slots|);
    }
  }

  // ----- The ring and its pointers ---------------------------------------------------------------

  /** A queue of items of some size: its storage holds the slots, the read position is that of
      slot read, and the write position follows the last item. */
  ghost predicate Ring(bytes: seq<bv8>, slots: seq<seq<bv8>>, size: nat, read: nat, messages: nat, writeTo: int, readFrom: int) {
    && Sized(slots, size) && Flat(slots) == bytes && read < |slots| && messages <= |slots|
    && readFrom == read * size && writeTo == Wrap(read + 1 + messages, |slots|) * size
  }

  /** One slot up or down, as the byte offsets see it. */
  lemma NextSlot(k: nat, length: nat, size: nat)
    requires size > 0 && k < length
    ensures (if k * size + size >= length * size then 0 else k * size + size) == Wrap(k + 1, length) * size
    ensures (if k * size - size < 0 then length * size - size else k * size - size) == Wrap(k - 1 + length, length) * size
  {
    assert (k + 1) * size == k * size + size;
    SlotOrder(k + 1, length, size);
    SlotOrder(0, k, size);
    assert (k - 1) * size == k * size - size;
    assert (length - 1) * size == length * size - size;
  }

  function Replaced(bytes: seq<bv8>, at: int, item: seq<bv8>): seq<bv8>
    requires 0 <= at && at + |item| <= |bytes|
  {
    bytes[..at] + item + bytes[at + |item|..]
  }

  lemma RingBack(bytes: seq<bv8>, slots: seq<seq<bv8>>, size: nat, read: nat, messages: nat, writeTo: int, readFrom: int, item: seq<bv8>)
    requires Ring(bytes, slots, size, read, messages, writeTo, readFrom) && size > 0 && |item| == size && messages < |slots|
    ensures 0 <= writeTo && writeTo + size <= |bytes| == |slots| * size
    ensures var w := Wrap(read + 1 + messages, |slots|);
            && Ring(Replaced(bytes, writeTo, item), slots[w := item], size, read, messages + 1,
                    if writeTo + size >= |slots| * size then 0 else writeTo + size, readFrom)
            && Items(slots[w := item], read, messages + 1) == Items(slots, read, messages) + [item]
  {
    var w := Wrap(read + 1 + messages, |slots|);
    FlatLength(slots, size);
    WriteSlot(slots, size, w, item);
    hide Flat;
    BackAppends(slots, read, messages, item);
    NextSlot(w, |slots|, size);
    assert Wrap(w + 1, |slots|) == Wrap(read + 1 + (messages + 1), |slots|);
  }

  /** At the front the position moves back; the items so far, but for an overwritten one, are
      found behind the new item. */
  lemma RingFront(bytes: seq<bv8>, slots: seq<seq<bv8>>, size: nat, read: nat, messages: nat, kept: nat, writeTo: int, readFrom: int,
                  item: seq<bv8>)
    requires Ring(bytes, slots, size, read, messages, writeTo, readFrom) && size > 0 && |item| == size
    requires kept == messages < |slots| || (kept == messages - 1 == 0 && |slots| == 1)
    ensures 0 <= readFrom && readFrom + size <= |bytes| == |slots| * size
    ensures var read' := Wrap(read - 1 + |slots|, |slots|);
            && Ring(Replaced(bytes, readFrom, item), slots[read := item], size, read', kept + 1, writeTo,
                    if readFrom - size < 0 then |slots| * size - size else readFrom - size)
            && Items(slots[read := item], read', kept + 1) == [item] + Items(slots, read, kept)
  {
    FlatLength(slots, size);
    WriteSlot(slots, size, read, item);
    hide Flat;
    FrontPrepends(slots, read, kept, item);
    NextSlot(read, |slots|, size);
    assert Wrap(Wrap(read - 1 + |slots|, |slots|) + 1 + (kept + 1), |slots|) == Wrap(read + 1 + messages, |slots|);
  }

  lemma RingRead(bytes: seq<bv8>, slots: seq<seq<bv8>>, size: nat, read: nat, messages: nat, writeTo: int, readFrom: int)
    requires Ring(bytes, slots, size, read, messages, writeTo, readFrom) && size > 0 && messages > 0
    ensures var read' := Wrap(read + 1, |slots|);
            var readFrom' := if readFrom + size >= |slots| * size then 0 else readFrom + size;
            && 0 <= readFrom' && readFrom' + size <= |bytes|
            && Ring(bytes, slots, size, read', messages - 1, writeTo, readFrom')
            && bytes[readFrom'..readFrom' + size] == Items(slots, read, messages)[0]
            && Items(slots, read', messages - 1) == Items(slots, read, messages)[1..]
  {
    var read' := Wrap(read + 1, |slots|);
    NextSlot(read, |slots|, size);
    ReadSlot(slots, size, read');
    hide Flat;
    ReadPops(slots, read, messages);
    assert Wrap(read' + 1 + (messages - 1), |slots|) == Wrap(read + 1 + messages, |slots|);
  }

  /** What a send does to the items. Overwriting replaces the one item of a queue of length
      one; the item-less semaphores do not look at the position and always count up. */
  function Sent(items: seq<seq<bv8>>, item: seq<bv8>, itemSize: nat, position: Position): seq<seq<bv8>> {
    if itemSize == 0 || position == Back then items + [item]
    else if position == Front then [item] + items
    else [item]
  }

  lemma RingFits(bytes: seq<bv8>, slots: seq<seq<bv8>>, size: nat, read: nat, messages: nat, writeTo: int, readFrom: int)
    requires Ring(bytes, slots, size, read, messages, writeTo, readFrom)
    ensures messages <= |slots| && read < |slots|
  {
  }

  lemma NoItems(slots: seq<seq<bv8>>, read: nat)
    requires read < |slots|
    ensures Items(slots, read, 0) == []
  {
  }

  class Queue {
    const length: nat
    const itemSize: nat
    const storage: array<bv8>
    /** Byte offsets from pcHead. */
    var pcWriteTo: int
    var pcReadFrom: int
    var uxMessagesWaiting: nat
    ghost var slots: seq<seq<bv8>>
    ghost var read: nat

    ghost predicate Valid()
      reads this, storage
    {
      && length > 0
      && (itemSize > 0 ==>
            |slots| == length && Ring(storage[..], slots, itemSize, read, uxMessagesWaiting, pcWriteTo, pcReadFrom))
    }

    ghost function Contents(): seq<seq<bv8>>
      requires Valid()
      reads this, storage
    {
      if itemSize == 0 then seq(uxMessagesWaiting, _ => []) else Items(slots, read, uxMessagesWaiting)
    }

    /** pcTail */
    function Tail(): int { length * itemSize }

    constructor (length: nat, itemSize: nat)
      requires length > 0
      ensures Valid() && this.length == length && this.itemSize == itemSize && Contents() == []
      ensures fresh(storage)
    {
      this.length, this.itemSize := length, itemSize;
      storage := new bv8[length * itemSize](_ => 0);
      uxMessagesWaiting, pcWriteTo, pcReadFrom := 0, 0, (length - 1) * itemSize;
      read := length - 1;
      slots := seq(length, _ => seq(itemSize, _ => 0));
      new;
      FlatLength(slots, itemSize);
      FlatZero(length, itemSize);
    }

    /** xQueueGenericReset */
    method Reset()
      requires Valid()
      modifies this
      ensures Valid() && Contents() == []
    {
      uxMessagesWaiting := 0;
      pcWriteTo := 0;
      pcReadFrom := (length - 1) * itemSize;
      read := length - 1;
    }

    /** memcpy into the storage. */
    method CopyIn(at: int, item: seq<bv8>)
      requires 0 <= at && at + |item| <= storage.Length
      modifies storage
      ensures storage[..] == Replaced(old(storage[..]), at, item)
    {
      for i := 0 to |item|
        invariant forall k :: 0 <= k < i ==> storage[at + k] == item[k]
        invariant forall k :: 0 <= k < storage.Length && !(at <= k < at + i) ==> storage[k] == old(storage[k])
      {
        storage[at + i] := item[i];
      }
    }

    /** prvCopyDataToQueue, without the mutex branch. */
    method CopyDataToQueue(item: seq<bv8>, position: Position)
      requires Valid() && |item| == itemSize
      requires itemSize > 0 ==> uxMessagesWaiting < length || position == Overwrite
      requires position == Overwrite ==> length == 1
      modifies this, storage
      ensures Valid() && Contents() == Sent(old(Contents()), item, itemSize, position)
      ensures itemSize > 0 && position == Back ==> Contents() == old(Contents()) + [item]
      ensures itemSize > 0 && position == Front ==> Contents() == [item] + old(Contents())
      ensures itemSize > 0 && position == Overwrite ==> Contents() == [item]
      ensures uxMessagesWaiting == if itemSize > 0 && position == Overwrite then 1 else old(uxMessagesWaiting) + 1
    {
      hide Ring, Items;
      if itemSize == 0 {
        uxMessagesWaiting := uxMessagesWaiting + 1;
      } else if position == Back {
        PutAtBack(item);
      } else {
        PutAtFront(item, position);
      }
    }

    method PutAtBack(item: seq<bv8>)
      requires Valid() && |item| == itemSize > 0 && uxMessagesWaiting < length
      modifies this, storage
      ensures Valid() && Contents() == old(Contents()) + [item] && uxMessagesWaiting == old(uxMessagesWaiting) + 1
    {
      hide Ring, Items, Replaced, Wrap;
      RingFits(storage[..], slots, itemSize, read, uxMessagesWaiting, pcWriteTo, pcReadFrom);
      RingBack(storage[..], slots, itemSize, read, uxMessagesWaiting, pcWriteTo, pcReadFrom, item);
      slots := slots[Wrap(read + 1 + uxMessagesWaiting, length) := item];
      CopyIn(pcWriteTo, item);
      pcWriteTo := pcWriteTo + itemSize;
      if pcWriteTo >= Tail() { pcWriteTo := 0; }
      uxMessagesWaiting := uxMessagesWaiting + 1;
    }

    method PutAtFront(item: seq<bv8>, position: Position)
      requires Valid() && |item| == itemSize > 0 && position != Back
      requires if position == Overwrite then length == 1 else uxMessagesWaiting < length
      modifies this, storage
      ensures Valid() && Contents() == (if position == Overwrite then [item] else [item] + old(Contents()))
      ensures uxMessagesWaiting == if position == Overwrite then 1 else old(uxMessagesWaiting) + 1
    {
      hide Ring, Items, Replaced, Wrap;
      var messages := uxMessagesWaiting;
      ghost var kept := if position == Overwrite && messages > 0 then messages - 1 else messages;
      RingFits(storage[..], slots, itemSize, read, messages, pcWriteTo, pcReadFrom);
      RingFront(storage[..], slots, itemSize, read, messages, kept, pcWriteTo, pcReadFrom, item);
      if position == Overwrite { NoItems(slots, read); }
      slots := slots[read := item];
      read := Wrap(read - 1 + length, length);
      CopyIn(pcReadFrom, item);
      pcReadFrom := pcReadFrom - itemSize;
      if pcReadFrom < 0 { pcReadFrom := Tail() - itemSize; }
      if position == Overwrite {
        if messages > 0 { messages := messages - 1; }
      }
      uxMessagesWaiting := messages + 1;
    }

    /** prvCopyDataFromQueue */
    method CopyDataFromQueue() returns (item: seq<bv8>)
      requires Valid() && uxMessagesWaiting > 0
      modifies this`pcReadFrom, this`read
      ensures itemSize == 0 ==> pcReadFrom == old(pcReadFrom) && read == old(read)
      ensures item == old(Contents())[0]
      ensures itemSize > 0 ==>
                && Ring(storage[..], slots, itemSize, read, uxMessagesWaiting - 1, pcWriteTo, pcReadFrom)
                && Items(slots, read, uxMessagesWaiting - 1) == old(Contents())[1..]
    {
      hide Ring, Items;
      item := [];
      if itemSize != 0 {
        RingRead(storage[..], slots, itemSize, read, uxMessagesWaiting, pcWriteTo, pcReadFrom);
        pcReadFrom := pcReadFrom + itemSize;
        if pcReadFrom >= Tail() { pcReadFrom := 0; }
        read := Wrap(read + 1, length);
        item := storage[pcReadFrom..pcReadFrom + itemSize];
        assert item == storage[..][pcReadFrom..pcReadFrom + itemSize];
      }
    }

    /** The critical section of xQueueGenericSend and xQueueGenericSendFromISR. */
    method Send(item: seq<bv8>, position: Position) returns (ok: bool)
      requires Valid() && |item| == itemSize && (position == Overwrite ==> length == 1)
      modifies this, storage
      ensures Valid()
      ensures ok == (old(uxMessagesWaiting) < length || position == Overwrite)
      ensures Contents() == if ok then Sent(old(Contents()), item, itemSize, position) else old(Contents())
      ensures ok && itemSize > 0 && position == Back ==> Contents() == old(Contents()) + [item]
      ensures ok && itemSize > 0 && position == Front ==> Contents() == [item] + old(Contents())
      ensures ok && itemSize > 0 && position == Overwrite ==> Contents() == [item]
      ensures ok && itemSize == 0 ==> uxMessagesWaiting == old(uxMessagesWaiting) + 1
    {
      ok := false;
      if uxMessagesWaiting < length || position == Overwrite {
        CopyDataToQueue(item, position);
        ok := true;
      }
    }

    /** The critical section of xQueueReceive and xQueueReceiveFromISR. */
    method Receive() returns (ok: bool, item: seq<bv8>)
      requires Valid()
      modifies this
      ensures Valid() && ok == (old(Contents()) != [])
      ensures ok ==> item == old(Contents())[0] && Contents() == old(Contents())[1..]
      ensures !ok ==> Contents() == old(Contents())
    {
      ok, item := false, [];
      var messages := uxMessagesWaiting;
      if messages > 0 {
        item := CopyDataFromQueue();
        uxMessagesWaiting := messages - 1;
        ok := true;
      }
    }

    /** The critical section of xQueuePeek. */
    method Peek() returns (ok: bool, item: seq<bv8>)
      requires Valid()
      modifies this
      ensures Valid() && ok == (old(Contents()) != []) && Contents() == old(Contents())
      ensures ok ==> item == Contents()[0]
    {
      ok, item := false, [];
      if uxMessagesWaiting > 0 {
        ghost var originalRead := read;
        var originalReadPosition := pcReadFrom;
        item := CopyDataFromQueue();
        pcReadFrom := originalReadPosition;
        read := originalRead;
        ok := true;
      }
    }
  }

  // ----- Runs of queue operations ----------------------------------------------------------------

  datatype Op = Send(item: seq<bv8>, position: Position) | Receive | Peek

  /** The items after an operation: a send to a full queue and a receive or peek from an empty
      one leave it alone. */
  function Step(items: seq<seq<bv8>>, length: nat, itemSize: nat, op: Op): seq<seq<bv8>> {
    match op
    case Send(item, position) =>
      if |items| < length || position == Overwrite then Sent(items, item, itemSize, position) else items
    case Receive => if items == [] then [] else items[1..]
    case Peek => items
  }

  function Run(items: seq<seq<bv8>>, length: nat, itemSize: nat, ops: seq<Op>): seq<seq<bv8>>
    decreases |ops|
  {
    if ops == [] then items else Run(Step(items, length, itemSize, ops[0]), length, itemSize, ops[1..])
  }

  /** The items handed to receivers, in order. */
  function Received(items: seq<seq<bv8>>, length: nat, itemSize: nat, ops: seq<Op>): seq<seq<bv8>>
    decreases |ops|
  {
    if ops == [] then []
    else
      var rest := Received(Step(items, length, itemSize, ops[0]), length, itemSize, ops[1..]);
      if ops[0].Receive? && items != [] then [items[0]] + rest else rest
  }

  /** The items senders were told had been accepted, in order. */
  function Accepted(items: seq<seq<bv8>>, length: nat, itemSize: nat, ops: seq<Op>): seq<seq<bv8>>
    decreases |ops|
  {
    if ops == [] then []
    else
      var rest := Accepted(Step(items, length, itemSize, ops[0]), length, itemSize, ops[1..]);
      if ops[0].Send? && |items| < length then [ops[0].item] + rest else rest
  }

  /** First in, first out: with sends to the back, receives and peeks in any order, what was
      there and what was accepted since is what was received and what is still there. */
  lemma {:induction false} FirstInFirstOut(items: seq<seq<bv8>>, length: nat, itemSize: nat, ops: seq<Op>)
    requires forall k :: 0 <= k < |ops| && ops[k].Send? ==> ops[k].position == Back
    ensures items + Accepted(items, length, itemSize, ops)
         == Received(items, length, itemSize, ops) + Run(items, length, itemSize, ops)
    decreases |ops|
  {
    if ops != [] {
      var next := Step(items, length, itemSize, ops[0]);
      FirstInFirstOut(next, length, itemSize, ops[1..]);
      var accepted, received, left := Accepted(next, length, itemSize, ops[1..]),
                                      Received(next, length, itemSize, ops[1..]), Run(next, length, itemSize, ops[1..]);
      if ops[0].Send? && |items| < length {
        assert items + ([ops[0].item] + accepted) == next + accepted;
      } else if ops[0].Receive? && items != [] {
        FifoReceive(items, accepted, received, left);
      }
    }
  }

  lemma FifoReceive(items: seq<seq<bv8>>, accepted: seq<seq<bv8>>, received: seq<seq<bv8>>, left: seq<seq<bv8>>)
    requires items != [] && items[1..] + accepted == received + left
    ensures items + accepted == ([items[0]] + received) + left
  {
    assert items + accepted == [items[0]] + (items[1..] + accepted);
  }

  // ----- Sends to the front, and overwriting ------------------------------------------------------

  /** The operation can put nothing in front of the items there are, nor take the first. */
  predicate LeavesTheHead(op: Op) {
    op.Peek? || (op.Send? && op.position == Back)
  }

  lemma {:induction false} HeadStays(items: seq<seq<bv8>>, length: nat, itemSize: nat, ops: seq<Op>)
    requires items != [] && forall k :: 0 <= k < |ops| ==> LeavesTheHead(ops[k])
    ensures var r := Run(items, length, itemSize, ops); r != [] && r[0] == items[0]
    ensures Received(items, length, itemSize, ops) == []
    decreases |ops|
  {
    if ops != [] {
      assert LeavesTheHead(ops[0]);
      HeadStays(Step(items, length, itemSize, ops[0]), length, itemSize, ops[1..]);
    }
  }

  /** What an item sent to the front, or overwriting, finds room for is what the next receive
      returns, whatever is peeked at or sent to the back in between. */
  lemma FrontIsReceivedNext(items: seq<seq<bv8>>, length: nat, itemSize: nat, item: seq<bv8>, position: Position, ops: seq<Op>)
    requires itemSize > 0 && position != Back && (|items| < length || position == Overwrite)
    requires forall k :: 0 <= k < |ops| ==> LeavesTheHead(ops[k])
    ensures Received(items, length, itemSize, [Send(item, position)] + ops + [Receive]) == [item]
  {
    var next := Step(items, length, itemSize, Send(item, position));
    HeadStays(next, length, itemSize, ops);
    ReceivedOn(next, length, itemSize, ops, [Receive]);
    assert ([Send(item, position)] + ops + [Receive])[1..] == ops + [Receive];
    assert [Receive][1..] == [];
  }

  lemma {:induction false} ReceivedOn(items: seq<seq<bv8>>, length: nat, itemSize: nat, ops: seq<Op>, more: seq<Op>)
    ensures Received(items, length, itemSize, ops + more)
         == Received(items, length, itemSize, ops) + Received(Run(items, length, itemSize, ops), length, itemSize, more)
    ensures Run(items, length, itemSize, ops + more) == Run(Run(items, length, itemSize, ops), length, itemSize, more)
    decreases |ops|
  {
    if ops == [] {
      assert ops + more == more;
    } else {
      assert (ops + more)[0] == ops[0] && (ops + more)[1..] == ops[1..] + more;
      ReceivedOn(Step(items, length, itemSize, ops[0]), length, itemSize, ops[1..], more);
    }
  }

  function ToFront(xs: seq<seq<bv8>>): seq<Op> {
    seq(|xs|, k requires 0 <= k < |xs| => Send(xs[k], Front))
  }

  function Reversed(xs: seq<seq<bv8>>): seq<seq<bv8>> {
    if xs == [] then [] else Reversed(xs[1..]) + [xs[0]]
  }

  lemma {:induction false} FrontStacks(items: seq<seq<bv8>>, length: nat, itemSize: nat, xs: seq<seq<bv8>>)
    requires itemSize > 0 && |items| + |xs| <= length
    ensures Run(items, length, itemSize, ToFront(xs)) == Reversed(xs) + items
    decreases |xs|
  {
    if xs != [] {
      var next := [xs[0]] + items;
      assert ToFront(xs)[1..] == ToFront(xs[1..]) && ToFront(xs)[0] == Send(xs[0], Front);
      assert Step(items, length, itemSize, ToFront(xs)[0]) == next;
      assert Run(items, length, itemSize, ToFront(xs)) == Run(next, length, itemSize, ToFront(xs[1..]));
      FrontStacks(next, length, itemSize, xs[1..]);
      hide Run, ToFront, Step;
      assert Reversed(xs[1..]) + next == (Reversed(xs[1..]) + [xs[0]]) + items;
    }
  }

  lemma {:induction false} DrainReceives(items: seq<seq<bv8>>, length: nat, itemSize: nat, n: nat)
    requires n <= |items|
    ensures Received(items, length, itemSize, seq(n, _ => Receive)) == items[..n]
    decreases n
  {
    if n > 0 {
      assert seq(n, _ => Receive)[1..] == seq(n - 1, _ => Receive);
      DrainReceives(items[1..], length, itemSize, n - 1);
      assert items[..n] == [items[0]] + items[1..][..n - 1];
    }
  }

  /** Last in, first out: items sent to the front are received in the reverse order, before
      everything that was there. */
  lemma FrontIsLastInFirstOut(items: seq<seq<bv8>>, length: nat, itemSize: nat, xs: seq<seq<bv8>>)
    requires itemSize > 0 && |items| + |xs| <= length
    ensures Received(items, length, itemSize, ToFront(xs) + seq(|xs| + |items|, _ => Receive)) == Reversed(xs) + items
  {
    FrontStacks(items, length, itemSize, xs);
    NothingReceived(items, length, itemSize, xs);
    ReceivedOn(items, length, itemSize, ToFront(xs), seq(|xs| + |items|, _ => Receive));
    ReversedLength(xs);
    DrainReceives(Reversed(xs) + items, length, itemSize, |xs| + |items|);
    assert (Reversed(xs) + items)[..|xs| + |items|] == Reversed(xs) + items;
  }

  lemma {:induction false} ReversedLength(xs: seq<seq<bv8>>)
    ensures |Reversed(xs)| == |xs|
    decreases |xs|
  {
    if xs != [] { ReversedLength(xs[1..]); }
  }

  lemma {:induction false} NothingReceived(items: seq<seq<bv8>>, length: nat, itemSize: nat, xs: seq<seq<bv8>>)
    ensures Received(items, length, itemSize, ToFront(xs)) == []
    decreases |xs|
  {
    if xs != [] {
      assert ToFront(xs)[1..] == ToFront(xs[1..]);
      NothingReceived(Step(items, length, itemSize, ToFront(xs)[0]), length, itemSize, xs[1..]);
    }
  }

  /** What one operation takes in and hands out. */
  function TakenIn(items: seq<seq<bv8>>, length: nat, op: Op): seq<seq<bv8>> {
    if op.Send? && |items| < length then [op.item] else []
  }

  function HandedOut(items: seq<seq<bv8>>, op: Op): seq<seq<bv8>> {
    if op.Receive? && items != [] then [items[0]] else []
  }

  lemma StepBalances(items: seq<seq<bv8>>, length: nat, itemSize: nat, op: Op)
    requires op.Send? ==> op.position != Overwrite
    ensures multiset(items) + multiset(TakenIn(items, length, op))
         == multiset(HandedOut(items, op)) + multiset(Step(items, length, itemSize, op))
  {
    if op.Receive? && items != [] { assert items == [items[0]] + items[1..]; }
  }

  lemma StreamsGrow(items: seq<seq<bv8>>, length: nat, itemSize: nat, ops: seq<Op>)
    requires ops != []
    ensures var next := Step(items, length, itemSize, ops[0]);
            && Accepted(items, length, itemSize, ops) == TakenIn(items, length, ops[0]) + Accepted(next, length, itemSize, ops[1..])
            && Received(items, length, itemSize, ops) == HandedOut(items, ops[0]) + Received(next, length, itemSize, ops[1..])
            && Run(items, length, itemSize, ops) == Run(next, length, itemSize, ops[1..])
  {
  }

  lemma Balance<T>(items: seq<T>, taken: seq<T>, accepted: seq<T>, handed: seq<T>, next: seq<T>, received: seq<T>,
                   left: seq<T>)
    requires multiset(items) + multiset(taken) == multiset(handed) + multiset(next)
    requires multiset(next) + multiset(accepted) == multiset(received) + multiset(left)
    ensures multiset(items) + multiset(taken + accepted) == multiset(handed + received) + multiset(left)
  {
    var i, t, a, h, n := multiset(items), multiset(taken), multiset(accepted), multiset(handed), multiset(next);
    var r, l := multiset(received), multiset(left);
    forall x
      ensures (i + (t + a))[x] == ((h + r) + l)[x]
    {
      assert (i + t)[x] == (h + n)[x] && (n + a)[x] == (r + l)[x];
    }
    assert i + (t + a) == (h + r) + l;
  }

  /** To whichever end items are sent, what was there and what was accepted since is, item by
      item, what was received and what is still there. */
  lemma {:induction false} NoItemIsLost(items: seq<seq<bv8>>, length: nat, itemSize: nat, ops: seq<Op>)
    requires forall k :: 0 <= k < |ops| && ops[k].Send? ==> ops[k].position != Overwrite
    ensures multiset(items) + multiset(Accepted(items, length, itemSize, ops))
         == multiset(Received(items, length, itemSize, ops)) + multiset(Run(items, length, itemSize, ops))
    decreases |ops|
  {
    if ops != [] {
      var next := Step(items, length, itemSize, ops[0]);
      NoItemIsLost(next, length, itemSize, ops[1..]);
      StreamsGrow(items, length, itemSize, ops);
      StepBalances(items, length, itemSize, ops[0]);
      Balance(items, TakenIn(items, length, ops[0]), Accepted(next, length, itemSize, ops[1..]),
              HandedOut(items, ops[0]), next, Received(next, length, itemSize, ops[1..]),
              Run(next, length, itemSize, ops[1..]));
    }
  }

  // ----- How much a queue holds -------------------------------------------------------------------

  /** An operation that counts a queue past its length: an overwriting send to a full
      semaphore, which stores no item to replace. */
  predicate Overfills(items: seq<seq<bv8>>, length: nat, itemSize: nat, op: Op) {
    itemSize == 0 && |items| == length && op.Send? && op.position == Overwrite
  }

  /** configASSERT in xQueueGenericSend: only a queue of length one is overwritten. */
  predicate Asserted(length: nat, op: Op) {
    op.Send? && op.position == Overwrite ==> length == 1
  }

  lemma StepFitsIff(items: seq<seq<bv8>>, length: nat, itemSize: nat, op: Op)
    requires |items| <= length && Asserted(length, op)
    ensures |Step(items, length, itemSize, op)| <= length <==> !Overfills(items, length, itemSize, op)
  {
  }

  /** No operation of the run meets a full semaphore with an overwriting send. */
  predicate NeverOverfills(items: seq<seq<bv8>>, length: nat, itemSize: nat, ops: seq<Op>)
    decreases |ops|
  {
    ops == [] || (!Overfills(items, length, itemSize, ops[0])
                  && NeverOverfills(Step(items, length, itemSize, ops[0]), length, itemSize, ops[1..]))
  }

  /** Over every run a queue or semaphore holds no more than its length all along, exactly when
      the run never sends overwriting to a full semaphore. */
  lemma {:induction false} NeverOverfilledIff(items: seq<seq<bv8>>, length: nat, itemSize: nat, ops: seq<Op>)
    requires |items| <= length && forall k :: 0 <= k < |ops| ==> Asserted(length, ops[k])
    ensures (forall n :: 0 <= n <= |ops| ==> |Run(items, length, itemSize, ops[..n])| <= length)
       <==> NeverOverfills(items, length, itemSize, ops)
    decreases |ops|
  {
    if ops != [] {
      assert Asserted(length, ops[0]);
      StepFitsIff(items, length, itemSize, ops[0]);
      var next := Step(items, length, itemSize, ops[0]);
      RunsOn(items, length, itemSize, ops);
      if Overfills(items, length, itemSize, ops[0]) {
        assert ops[1..][..0] == [];
        assert |Run(items, length, itemSize, ops[..1])| > length;
      } else {
        assert forall k :: 0 <= k < |ops[1..]| ==> ops[1..][k] == ops[k + 1];
        NeverOverfilledIff(next, length, itemSize, ops[1..]);
        FitsShifted(items, length, itemSize, ops);
      }
    }
  }

  lemma RunsOn(items: seq<seq<bv8>>, length: nat, itemSize: nat, ops: seq<Op>)
    requires ops != []
    ensures forall n :: 0 <= n < |ops| ==>
              Run(items, length, itemSize, ops[..n + 1])
              == Run(Step(items, length, itemSize, ops[0]), length, itemSize, ops[1..][..n])
    ensures Run(items, length, itemSize, ops[..0]) == items
  {
    forall n | 0 <= n < |ops|
      ensures Run(items, length, itemSize, ops[..n + 1])
           == Run(Step(items, length, itemSize, ops[0]), length, itemSize, ops[1..][..n])
    {
      assert ops[..n + 1][1..] == ops[1..][..n];
    }
  }

  lemma FitsShifted(items: seq<seq<bv8>>, length: nat, itemSize: nat, ops: seq<Op>)
    requires ops != [] && |items| <= length
    ensures (forall n :: 0 <= n <= |ops| ==> |Run(items, length, itemSize, ops[..n])| <= length)
       <==> (forall n :: 0 <= n <= |ops[1..]| ==>
               |Run(Step(items, length, itemSize, ops[0]), length, itemSize, ops[1..][..n])| <= length)
  {
    RunsOn(items, length, itemSize, ops);
    var next := Step(items, length, itemSize, ops[0]);
    forall n | 1 <= n <= |ops|
      ensures Run(items, length, itemSize, ops[..n]) == Run(next, length, itemSize, ops[1..][..n - 1])
    {
      assert ops[..(n - 1) + 1] == ops[..n];
    }
    forall n | 0 <= n <= |ops[1..]|
      ensures Run(next, length, itemSize, ops[1..][..n]) == Run(items, length, itemSize, ops[..n + 1])
    {
    }
  }

  /** A queue that stores items is never overfilled, and nothing is without an overwriting send. */
  lemma {:induction false} NeverOverfilled(items: seq<seq<bv8>>, length: nat, itemSize: nat, ops: seq<Op>)
    requires |items| <= length && forall k :: 0 <= k < |ops| ==> Asserted(length, ops[k])
    requires itemSize == 0 ==> forall k :: 0 <= k < |ops| && ops[k].Send? ==> ops[k].position != Overwrite
    ensures NeverOverfills(items, length, itemSize, ops) && |Run(items, length, itemSize, ops)| <= length
    decreases |ops|
  {
    if ops != [] {
      assert Asserted(length, ops[0]);
      NeverOverfilled(Step(items, length, itemSize, ops[0]), length, itemSize, ops[1..]);
    }
  }

  /** A semaphore given once and then sent to overwriting. */
  lemma OverwriteOverfillsASemaphore()
    ensures !NeverOverfills([], 1, 0, [Send([], Back), Send([], Overwrite)])
    ensures |Run([], 1, 0, [Send([], Back), Send([], Overwrite)])| == 2
  {
    assert [Send([], Back), Send([], Overwrite)][1..] == [Send([], Overwrite)];
    assert [Send([], Overwrite)][1..] == [];
    assert Run([[]], 1, 0, [Send([], Overwrite)]) == Run([[], []], 1, 0, []);
  }

  lemma {:induction false} FlatZero(n: nat, size: nat)
    ensures Flat(seq(n, _ => seq(size, _ => 0 as bv8))) == seq(n * size, _ => 0 as bv8)
    decreases n
  {
    if n > 0 {
      FlatZero(n - 1, size);
      assert seq(n, _ => seq(size, _ => 0 as bv8))[1..] == seq(n - 1, _ => seq(size, _ => 0 as bv8));
      assert n * size == size + (n - 1) * size;
      assert seq(n * size, _ => 0 as bv8) == seq(size, _ => 0 as bv8) + seq((n - 1) * size, _ => 0 as bv8);
    } else {
      assert seq(n * size, _ => 0 as bv8) == [];
    }
  }
}
