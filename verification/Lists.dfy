/** The intrusive circular list of freertos/list.c and freertos/include/list.h: a sentinel,
    doubly linked items and a roving index. Each operation is proved to act on the ghost
    ring of module Rings, which is what the scheduler modules build on. */
module Lists {
  import opened Sequences
  import opened TickTime
  import Rings

  class ListItem {
    var value: Tick
    var next: ListItem?
    var previous: ListItem?
    var owner: nat
    var container: List?

    /** vListInitialiseItem. */
    constructor (value: Tick, owner: nat)
      ensures container == null && this.value == value && this.owner == owner
    {
      this.value := value;
      this.owner := owner;
      next, previous, container := null, null, null;
    }
  }

  /** A closed walk: distinct items between two visits to the marker. */
  ghost predicate Closed(c: seq<ListItem>) {
    |c| >= 2 && c[0] == c[|c| - 1] && Distinct(c[1..])
  }

  /** Step i of the walk is linked both ways. */
  ghost predicate Step(c: seq<ListItem>, i: nat)
    requires i < |c| - 1
    reads c
  {
    c[i].next == c[i + 1] && c[i + 1].previous == c[i]
  }

  /** Next and previous are mutual inverses along the walk. */
  ghost predicate Linked(c: seq<ListItem>)
    reads c
  {
    forall i :: 0 <= i < |c| - 1 ==> Step(c, i)
  }

  /** Different steps of a closed walk start at different items and end at different items,
      so that relinking one disturbs no other. */
  lemma Apart(c: seq<ListItem>, i: nat, k: nat)
    requires Closed(c) && i < |c| - 1 && k < |c| - 1 && i != k
    ensures c[i] != c[k] && c[i + 1] != c[k + 1]
  {
    var t := c[1..];
    assert c[i + 1] == t[i] && c[k + 1] == t[k];
    assert c[i] == if i == 0 then t[|t| - 1] else t[i - 1];
    assert c[k] == if k == 0 then t[|t| - 1] else t[k - 1];
  }

  /** Once step k leads through x, the longer walk is linked. */
  lemma SpliceIn(c: seq<ListItem>, k: nat, x: ListItem)
    requires k + 1 < |c|
    requires x.next == c[k + 1] && x.previous == c[k] && c[k].next == x && c[k + 1].previous == x
    requires forall i :: 0 <= i < |c| - 1 && i != k ==> Step(c, i)
    ensures Linked(c[..k + 1] + [x] + c[k + 1..])
  {
    var d := c[..k + 1] + [x] + c[k + 1..];
    forall i | 0 <= i < |d| - 1
      ensures Step(d, i)
    {
      if i < k { assert Step(c, i); }
      if i > k + 1 { assert Step(c, i - 1); }
    }
  }

  /** Once c[k] is bypassed, the shorter walk is linked. */
  lemma SpliceOut(c: seq<ListItem>, k: nat)
    requires 0 < k < |c| - 1
    requires c[k - 1].next == c[k + 1] && c[k + 1].previous == c[k - 1]
    requires forall i :: 0 <= i < |c| - 1 && i != k - 1 && i != k ==> Step(c, i)
    ensures Linked(c[..k] + c[k + 1..])
  {
    var d := c[..k] + c[k + 1..];
    forall i | 0 <= i < |d| - 1
      ensures Step(d, i)
    {
      if i < k - 1 { assert Step(c, i); }
      if i > k - 1 { assert Step(c, i + 1); }
    }
  }

  /** The closed walk of a list with end marker e and items s. */
  ghost function Walk(e: ListItem, s: seq<ListItem>): seq<ListItem> {
    [e] + s + [e]
  }

  lemma WalkClosed(e: ListItem, s: seq<ListItem>)
    requires e !in s && Distinct(s)
    ensures Closed(Walk(e, s))
  {
    assert Walk(e, s)[1..] == s + [e];
  }

  lemma WalkAfterInsert(e: ListItem, s: seq<ListItem>, k: nat, x: ListItem)
    requires k <= |s| && x !in s && x != e && e !in s && Distinct(s)
    ensures var t := s[..k] + [x] + s[k..];
            && Distinct(t) && e !in t && |t| == |s| + 1
            && (forall y :: y in t ==> y == x || y in s)
            && Walk(e, t) == Walk(e, s)[..k + 1] + [x] + Walk(e, s)[k + 1..]
            && (forall j :: 0 <= j <= k ==> Walk(e, t)[j] == Walk(e, s)[j])
            && (forall j :: k < j <= |s| ==> Walk(e, t)[j + 1] == Walk(e, s)[j])
  {
  }

  lemma WalkAfterRemove(e: ListItem, s: seq<ListItem>, k: nat)
    requires k < |s| && e !in s && Distinct(s)
    ensures var t := s[..k] + s[k + 1..];
            && Distinct(t) && e !in t && |t| == |s| - 1
            && (forall y :: y in t ==> y != s[k] && y in s)
            && Walk(e, t) == Walk(e, s)[..k + 1] + Walk(e, s)[k + 2..]
            && s[k] !in Walk(e, t)
            && (forall j :: 0 <= j <= k ==> Walk(e, t)[j] == Walk(e, s)[j])
            && (forall j :: k < j <= |t| ==> Walk(e, t)[j] == Walk(e, s)[j + 1])
  {
    Rings.DropAt(s, k);
  }

  lemma WalkIndex(e: ListItem, s: seq<ListItem>, k: nat, cursor: nat)
    requires k < |s| && e !in s && Distinct(s) && cursor <= |s|
    ensures Walk(e, s)[cursor] == s[k] <==> cursor == k + 1
  {
  }

  /** The four link writes of an insertion after c[k]. */
  method Link(x: ListItem, before: ListItem, after: ListItem, ghost c: seq<ListItem>, ghost k: nat)
    requires Closed(c) && Linked(c) && x !in c
    requires k < |c| - 1 && c[k] == before && c[k + 1] == after
    modifies x`next, x`previous, before`next, after`previous
    ensures Linked(c[..k + 1] + [x] + c[k + 1..])
  {
    assert Step(c, k);
    x.next := after;
    x.previous := before;
    before.next := x;
    after.previous := x;
    forall i | 0 <= i < |c| - 1 && i != k
      ensures Step(c, i)
    {
      assert old(Step(c, i));
      Apart(c, i, k);
    }
    SpliceIn(c, k, x);
  }

  /** The two link writes of a removal of c[k]. */
  method Unlink(x: ListItem, before: ListItem, after: ListItem, ghost c: seq<ListItem>, ghost k: nat)
    requires Closed(c) && Linked(c)
    requires 0 < k < |c| - 1 && c[k] == x && c[k - 1] == before && c[k + 1] == after
    modifies before`next, after`previous
    ensures Linked(c[..k] + c[k + 1..])
  {
    assert Step(c, k - 1) && Step(c, k);
    Apart(c, k - 1, k);
    after.previous := before;
    before.next := after;
    forall i | 0 <= i < |c| - 1 && i != k - 1 && i != k
      ensures Step(c, i)
    {
      assert old(Step(c, i));
      Apart(c, i, k - 1);
      Apart(c, i, k);
    }
    SpliceOut(c, k);
  }

  class List {
    const listEnd: ListItem
    var numberOfItems: nat
    var index: ListItem
    ghost var items: seq<ListItem>
    ghost var cursor: nat

    ghost function Ring(): Rings.Ring<ListItem>
      reads this
    {
      Rings.Ring(items, cursor)
    }

    ghost function Values(): seq<Tick>
      reads this, items
    {
      seq(|items|, i requires 0 <= i < |items| reads this, items => items[i].value)
    }

    /** Next and previous are mutual inverses around the marker; the counter, the containers
        and the index agree with the ghost ring. */
    ghost predicate Valid()
      reads this, listEnd, items
    {
      && listEnd !in items
      && cursor <= |items| && Distinct(items)
      && numberOfItems == |items|
      && listEnd.value == MAX_DELAY
      && index == Walk(listEnd, items)[cursor]
      && Linked(Walk(listEnd, items))
      && (forall x :: x in items ==> x.container == this)
    }

    /** vListInitialise. */
    constructor ()
      ensures Valid() && Ring() == Rings.Ring([], 0) && fresh(listEnd)
    {
      var marker := new ListItem(MAX_DELAY, 0);
      listEnd, index, numberOfItems := marker, marker, 0;
      items, cursor := [], 0;
      new;
      listEnd.next, listEnd.previous := listEnd, listEnd;
    }

    /** The writes that vListInsertEnd and vListInsert share: x goes between the neighbours
        `before` and `after`, at position k. */
    method InsertBetween(x: ListItem, before: ListItem, after: ListItem, ghost k: nat)
      requires Valid() && x !in items && x != listEnd
      requires k <= |items| && before == Walk(listEnd, items)[k] && after == Walk(listEnd, items)[k + 1]
      modifies this, x`next, x`previous, x`container, listEnd`next, listEnd`previous, items`next, items`previous
      ensures Valid() && items == old(items)[..k] + [x] + old(items)[k..]
      ensures cursor == if k < old(cursor) then old(cursor) + 1 else old(cursor)
    {
      ghost var c, t := Walk(listEnd, items), items[..k] + [x] + items[k..];
      WalkClosed(listEnd, items);
      WalkAfterInsert(listEnd, items, k, x);
      x.container := this;
      Link(x, before, after, c, k);
      numberOfItems := numberOfItems + 1;
      items, cursor := t, if k < cursor then cursor + 1 else cursor;
    }

    method InsertEnd(x: ListItem)
      requires Valid() && x !in items && x != listEnd
      modifies this, x`next, x`previous, x`container, listEnd`next, listEnd`previous, items`next, items`previous
      ensures Valid() && Ring() == Rings.InsertEnd(old(Ring()), x)
    {
      ghost var k := if cursor == 0 then |items| else cursor - 1;
      assert Step(Walk(listEnd, items), k);
      InsertBetween(x, index.previous, index, k);
    }

    /** The search of vListInsert: the node after which an item of value v goes. */
    method FindPlace(v: Tick) returns (place: ListItem, ghost k: nat)
      requires Valid()
      ensures k == UpperBound(Values(), v) && place == Walk(listEnd, items)[k]
    {
      ghost var c := Walk(listEnd, items);
      k := 0;
      if v == MAX_DELAY {
        assert Step(c, |items|);
        place := listEnd.previous;
        k := |items|;
      } else {
        place := listEnd;
        assert Step(c, 0);
        while place.next.value <= v
          invariant 0 <= k <= |items| && place == c[k] && place.next == c[k + 1]
          invariant forall i :: 0 <= i < k ==> items[i].value <= v
          decreases |items| - k
        {
          assert k < |items| && c[k + 1] == items[k];
          place := place.next;
          k := k + 1;
          assert k <= |items| && Step(c, k);
        }
        assert k < |items| ==> c[k + 1] == items[k];
      }
      UpperBoundIs(Values(), v, k);
    }

    method Insert(x: ListItem)
      requires Valid() && x !in items && x != listEnd
      modifies this, x`next, x`previous, x`container, listEnd`next, listEnd`previous, items`next, items`previous
      ensures Valid()
      ensures var k := UpperBound(old(Values()), x.value);
              && items == old(items)[..k] + [x] + old(items)[k..]
              && cursor == (if k < old(cursor) then old(cursor) + 1 else old(cursor))
    {
      var place; ghost var k;
      place, k := FindPlace(x.value);
      assert Step(Walk(listEnd, items), k);
      InsertBetween(x, place, place.next, k);
    }

    /** uxListRemove, entered with the list found through the item's container. */
    method Remove(x: ListItem) returns (left: nat)
      requires Valid() && x in items
      modifies this, x`container, listEnd`next, listEnd`previous, items`next, items`previous
      ensures Valid() && Ring() == Rings.Remove(old(Ring()), x)
      ensures x.container == null && left == |items|
    {
      ghost var k := Rings.IndexOf(items, x);
      Detach(x, k);
      left := numberOfItems;
    }

    method Detach(x: ListItem, ghost k: nat)
      requires Valid() && k < |items| && items[k] == x
      modifies this, x`container, listEnd`next, listEnd`previous, items`next, items`previous
      ensures Valid() && Ring() == Rings.RemoveAt(old(Ring()), k)
      ensures x.container == null
    {
      ghost var t := items[..k] + items[k + 1..];
      ghost var newCursor := if k < cursor then cursor - 1 else cursor;
      WalkClosed(listEnd, items);
      WalkAfterRemove(listEnd, items, k);
      WalkIndex(listEnd, items, k, cursor);
      assert Step(Walk(listEnd, items), k) && Step(Walk(listEnd, items), k + 1);
      if index == x {
        index := x.previous;
      }
      assert index == Walk(listEnd, t)[newCursor];
      Unlink(x, x.previous, x.next, Walk(listEnd, items), k + 1);
      x.container := null;
      numberOfItems := numberOfItems - 1;
      items, cursor := t, newCursor;
    }

    /** listGET_OWNER_OF_NEXT_ENTRY. */
    method OwnerOfNextEntry() returns (owner: nat)
      requires Valid() && items != []
      modifies this
      ensures Valid() && Ring() == Rings.Advance(old(Ring()))
      ensures owner == Rings.Selected(old(Ring())).owner
    {
      ghost var c := Walk(listEnd, items);
      assert Step(c, cursor) && Step(c, 0);
      index := index.next;
      if index == listEnd {
        index := index.next;
      }
      cursor := Rings.Advance(Ring()).cursor;
      owner := index.owner;
    }

    /** The head macros: listGET_HEAD_ENTRY and listGET_ITEM_VALUE_OF_HEAD_ENTRY. */
    method Head() returns (x: ListItem, value: Tick)
      requires Valid()
      ensures items != [] ==> x == items[0]
      ensures items == [] ==> x == listEnd
      ensures value == x.value
    {
      assert Step(Walk(listEnd, items), 0);
      x := listEnd.next;
      value := x.value;
    }
  }

  // ----- What vListInsert computes ----------------------------------------------

  /** The first position whose value exceeds v. */
  function UpperBound(values: seq<Tick>, v: Tick): (k: nat)
    ensures k <= |values|
    ensures forall i :: 0 <= i < k ==> values[i] <= v
    ensures k < |values| ==> values[k] > v
  {
    if values == [] || values[0] > v then 0 else 1 + UpperBound(values[1..], v)
  }

  lemma UpperBoundIs(values: seq<Tick>, v: Tick, k: nat)
    requires k <= |values| && (forall i :: 0 <= i < k ==> values[i] <= v)
    requires k < |values| ==> values[k] > v
    ensures UpperBound(values, v) == k
  {
  }

  ghost predicate Sorted(values: seq<Tick>) {
    forall i, j :: 0 <= i < j < |values| ==> values[i] <= values[j]
  }

  /** Inserting at the upper bound keeps a sorted list sorted, for every value including
      portMAX_DELAY, and is stable: the newcomer follows all its equals. */
  lemma InsertKeepsSorted(values: seq<Tick>, v: Tick)
    requires Sorted(values)
    ensures var k := UpperBound(values, v);
            && Sorted(values[..k] + [v] + values[k..])
            && (forall i :: 0 <= i < |values| ==> (values[i] <= v <==> i < k))
  {
    var k := UpperBound(values, v);
    forall i | 0 <= i < |values|
      ensures values[i] <= v <==> i < k
    {
      if k < i { assert values[k] <= values[i]; }
    }
    SortedInsert(values, k, v);
  }

  lemma SortedInsert(values: seq<Tick>, k: nat, v: Tick)
    requires Sorted(values) && k <= |values|
    requires forall i :: 0 <= i < |values| ==> (values[i] <= v <==> i < k)
    ensures Sorted(values[..k] + [v] + values[k..])
  {
    var out := values[..k] + [v] + values[k..];
    forall i, j | 0 <= i < j < |out|
      ensures out[i] <= out[j]
    {
      assert out[i] == if i < k then values[i] else if i == k then v else values[i - 1];
      assert out[j] == if j < k then values[j] else if j == k then v else values[j - 1];
    }
  }
}
