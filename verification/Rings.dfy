/** The circular list of list.c as a value: the items in ring order and the place of the
    roving index. Everything a ready list does for round-robin scheduling is decided here;
    module Lists shows that the linked structure behaves like this value. */
module Rings {
  import opened Sequences

  /** `cursor` is 0 when pxIndex is the end marker, and k when it is items[k-1]. */
  datatype Ring<T> = Ring(items: seq<T>, cursor: nat)

  ghost predicate Valid<T>(r: Ring<T>) {
    r.cursor <= |r.items| && Distinct(r.items)
  }

  /** vListInsertEnd: just before the index item. */
  function InsertEnd<T>(r: Ring<T>, x: T): Ring<T>
    requires r.cursor <= |r.items|
  {
    if r.cursor == 0 then Ring(r.items + [x], 0)
    else Ring(r.items[..r.cursor - 1] + [x] + r.items[r.cursor - 1..], r.cursor + 1)
  }

  /** uxListRemove of the item at position k: the index steps back if it stood on it. */
  function RemoveAt<T>(r: Ring<T>, k: nat): Ring<T>
    requires k < |r.items| && r.cursor <= |r.items|
  {
    Ring(r.items[..k] + r.items[k + 1..], if k < r.cursor then r.cursor - 1 else r.cursor)
  }

  /** The index move of listGET_OWNER_OF_NEXT_ENTRY, which skips the end marker. */
  function Advance<T>(r: Ring<T>): Ring<T>
    requires r.items != [] && r.cursor <= |r.items|
  {
    r.(cursor := if r.cursor == |r.items| then 1 else r.cursor + 1)
  }

  /** The item that listGET_OWNER_OF_NEXT_ENTRY returns. */
  function Selected<T>(r: Ring<T>): T
    requires r.items != [] && r.cursor <= |r.items|
  {
    r.items[Advance(r).cursor - 1]
  }

  /** The members in the order in which they will be selected if nothing else happens. */
  function Order<T>(r: Ring<T>): seq<T>
    requires r.cursor <= |r.items|
  {
    r.items[r.cursor..] + r.items[..r.cursor]
  }

  function IndexOf<T(==)>(s: seq<T>, x: T): (k: nat)
    requires x in s
    ensures k < |s| && s[k] == x
    ensures x !in s[..k]
  {
    if s[0] == x then 0 else 1 + IndexOf(s[1..], x)
  }

  function Remove<T(==)>(r: Ring<T>, x: T): Ring<T>
    requires r.cursor <= |r.items| && x in r.items
  {
    RemoveAt(r, IndexOf(r.items, x))
  }

  lemma IndexOfUnique<T>(s: seq<T>, k: nat)
    requires Distinct(s) && k < |s|
    ensures IndexOf(s, s[k]) == k
  {
    assert s[IndexOf(s, s[k])] == s[k];
  }

  lemma DropAt<T>(s: seq<T>, k: nat)
    requires Distinct(s) && k < |s|
    ensures var d := s[..k] + s[k + 1..];
            && Distinct(d) && multiset(d) == multiset(s) - multiset{s[k]}
            && (forall y :: y in d <==> y in s && y != s[k])
  {
    var d := s[..k] + s[k + 1..];
    assert s == s[..k] + [s[k]] + s[k + 1..];
    forall y
      ensures y in d <==> y in s && y != s[k]
    {
      if y in s && y != s[k] {
        var i :| 0 <= i < |s| && s[i] == y;
        assert d[if i < k then i else i - 1] == y;
      }
    }
  }

  // ----- What each operation does to the service order ------------------------

  lemma InsertEndOrder<T>(r: Ring<T>, x: T)
    requires Valid(r) && x !in r.items
    ensures Valid(InsertEnd(r, x))
    ensures multiset(InsertEnd(r, x).items) == multiset(r.items) + multiset{x}
    ensures r.cursor == 0 ==> Order(InsertEnd(r, x)) == Order(r) + [x]
    ensures r.cursor > 0 ==>
              var n := |r.items| - 1;
              Order(InsertEnd(r, x)) == Order(r)[..n] + [x] + [Order(r)[n]]
  {
    if r.cursor > 0 {
      InsertBehind(r.items, r.cursor - 1, x);
    }
  }

  lemma InsertBehind<T>(a: seq<T>, k: nat, x: T)
    requires k < |a| && Distinct(a) && x !in a
    ensures var c, o, n := a[..k] + [x] + a[k..], a[k + 1..] + a[..k + 1], |a| - 1;
            && Distinct(c) && multiset(c) == multiset(a) + multiset{x}
            && c[k + 2..] + c[..k + 2] == o[..n] + [x] + [o[n]]
  {
    var c, o, n := a[..k] + [x] + a[k..], a[k + 1..] + a[..k + 1], |a| - 1;
    assert a == a[..k] + a[k..];
    assert c[k + 2..] == a[k + 1..] && c[..k + 2] == a[..k] + [x] + [a[k]];
    assert o[..n] == a[k + 1..] + a[..k];
  }

  lemma RemoveOrder<T>(r: Ring<T>, x: T)
    requires Valid(r) && x in r.items
    ensures Valid(Remove(r, x))
    ensures multiset(Remove(r, x).items) == multiset(r.items) - multiset{x}
    ensures forall y :: y in Remove(r, x).items <==> y in r.items && y != x
    ensures var o := Order(r); x in o && Order(Remove(r, x)) == o[..IndexOf(o, x)] + o[IndexOf(o, x) + 1..]
  {
    var k := IndexOf(r.items, x);
    DropAt(r.items, k);
    OrderDistinct(r);
    RemoveAtOrder(r, k);
  }

  lemma RemoveAtOrder<T>(r: Ring<T>, k: nat)
    requires Valid(r) && k < |r.items| && Distinct(Order(r))
    ensures var o := Order(r);
            r.items[k] in o && Order(RemoveAt(r, k)) == o[..IndexOf(o, r.items[k])] + o[IndexOf(o, r.items[k]) + 1..]
  {
    hide IndexOf, Distinct;
    var o := Order(r);
    var j := if k < r.cursor then |r.items| - r.cursor + k else k - r.cursor;
    if k < r.cursor {
      DropBehind(r.items, r.cursor, k);
    } else {
      DropAhead(r.items, r.cursor, k);
    }
    IndexOfUnique(o, j);
  }

  /** Rotating and dropping commute. */
  lemma DropBehind<T>(a: seq<T>, b: nat, k: nat)
    requires k < b <= |a|
    ensures var c, o, j := a[..k] + a[k + 1..], a[b..] + a[..b], |a| - b + k;
            o[j] == a[k] && c[b - 1..] + c[..b - 1] == o[..j] + o[j + 1..]
  {
    var c, o, j := a[..k] + a[k + 1..], a[b..] + a[..b], |a| - b + k;
    assert c[b - 1..] == a[b..] && c[..b - 1] == a[..k] + a[k + 1..b];
    assert o[..j] == a[b..] + a[..k];
    assert o[j + 1..] == a[k + 1..b];
  }

  lemma DropAhead<T>(a: seq<T>, b: nat, k: nat)
    requires b <= k < |a|
    ensures var c, o, j := a[..k] + a[k + 1..], a[b..] + a[..b], k - b;
            o[j] == a[k] && c[b..] + c[..b] == o[..j] + o[j + 1..]
  {
    var c, o, j := a[..k] + a[k + 1..], a[b..] + a[..b], k - b;
    assert c[b..] == a[b..k] + a[k + 1..] && c[..b] == a[..b];
    assert o[..j] == a[b..k];
    assert o[j + 1..] == a[k + 1..] + a[..b];
  }

  lemma OrderDistinct<T>(r: Ring<T>)
    requires Valid(r)
    ensures Distinct(Order(r)) && |Order(r)| == |r.items|
    ensures multiset(Order(r)) == multiset(r.items)
    ensures forall x :: x in Order(r) <==> x in r.items
  {
    assert r.items == r.items[..r.cursor] + r.items[r.cursor..];
    assert forall x :: x in r.items <==> x in multiset(r.items);
    assert forall x :: x in Order(r) <==> x in multiset(Order(r));
  }

  lemma AdvanceOrder<T>(r: Ring<T>)
    requires Valid(r) && r.items != []
    ensures Valid(Advance(r))
    ensures Selected(r) == Order(r)[0]
    ensures Order(Advance(r)) == Order(r)[1..] + [Order(r)[0]]
  {
  }

  /** As many selections as there are members serve every member exactly once, in order,
      and bring the ring back to the same order. */
  lemma {:induction false} FullRotation<T>(r: Ring<T>, n: nat)
    requires Valid(r) && r.items != [] && n <= |r.items|
    ensures var (served, after) := Rotate(r, n);
            && served == Order(r)[..n] && Valid(after) && after.items == r.items
            && Order(after) == Order(r)[n..] + Order(r)[..n]
  {
    if n > 0 {
      FullRotation(r, n - 1);
      var (served, after) := Rotate(r, n - 1);
      AdvanceOrder(after);
      assert |Order(r)| == |r.items|;
      TurnOnce(Order(r), n);
    }
  }

  lemma TurnOnce<T>(o: seq<T>, n: nat)
    requires 0 < n <= |o|
    ensures var p := o[n - 1..] + o[..n - 1];
            p[0] == o[n - 1] && p[1..] + [p[0]] == o[n..] + o[..n] && o[..n - 1] + [o[n - 1]] == o[..n]
  {
    var p := o[n - 1..] + o[..n - 1];
    assert p[1..] == o[n..] + o[..n - 1];
    assert o[..n] == o[..n - 1] + [o[n - 1]];
  }

  function Rotate<T>(r: Ring<T>, n: nat): (p: (seq<T>, Ring<T>))
    requires r.items != [] && r.cursor <= |r.items|
    ensures p.1.items == r.items && p.1.cursor <= |r.items|
  {
    if n == 0 then ([], r)
    else
      var (served, after) := Rotate(r, n - 1);
      (served + [Selected(after)], Advance(after))
  }

  // ----- Bounded bypass --------------------------------------------------------

  /** The number of selections that come before m's. */
  function Distance<T(==)>(r: Ring<T>, m: T): nat
    requires Valid(r) && m in r.items
  {
    OrderDistinct(r);
    IndexOf(Order(r), m)
  }

  /** True when pxIndex stands on m. */
  predicate UnderCursor<T(==)>(r: Ring<T>, m: T) {
    0 < r.cursor <= |r.items| && r.items[r.cursor - 1] == m
  }

  datatype Op<T> = Select | Insert(x: T) | Drop(x: T)

  ghost predicate Legal<T>(r: Ring<T>, op: Op<T>) {
    && Valid(r)
    && match op
       case Select => r.items != []
       case Insert(x) => x !in r.items
       case Drop(x) => x in r.items
  }

  ghost function Apply<T>(r: Ring<T>, op: Op<T>): (q: Ring<T>)
    requires Legal(r, op)
    ensures Valid(q)
  {
    match op
    case Select => AdvanceOrder(r); Advance(r)
    case Insert(x) => InsertEndOrder(r, x); InsertEnd(r, x)
    case Drop(x) => RemoveOrder(r, x); Remove(r, x)
  }

  lemma DistanceIs<T>(r: Ring<T>, m: T, k: nat)
    requires Valid(r) && k < |r.items| && |Order(r)| == |r.items| && Order(r)[k] == m
    ensures m in r.items && Distance(r, m) == k
  {
    OrderDistinct(r);
    IndexOfUnique(Order(r), k);
  }

  /** A selection brings every member it does not serve one place nearer. */
  lemma SelectStep<T>(r: Ring<T>, m: T)
    requires Valid(r) && m in r.items && Selected(r) != m
    ensures Valid(Advance(r)) && Distance(Advance(r), m) == Distance(r, m) - 1
  {
    AdvanceOrder(r);
    OrderDistinct(Advance(r));
    var d := Distance(r, m);
    OrderDistinct(r);
    assert d > 0;
    DistanceIs(Advance(r), m, d - 1);
  }

  /** An insertion pushes a member back exactly when the index stands on it, and by one. */
  lemma InsertStep<T>(r: Ring<T>, x: T, m: T)
    requires Valid(r) && m in r.items && x !in r.items
    ensures Valid(InsertEnd(r, x)) && m in InsertEnd(r, x).items
    ensures Distance(InsertEnd(r, x), m) == Distance(r, m) + if UnderCursor(r, m) then 1 else 0
  {
    InsertEndOrder(r, x);
    OrderDistinct(r);
    OrderDistinct(InsertEnd(r, x));
    var d := Distance(r, m);
    var n := |r.items| - 1;
    if r.cursor > 0 {
      assert Order(r)[n] == r.items[r.cursor - 1];
    }
    if UnderCursor(r, m) {
      DistanceIs(r, m, n);
      DistanceIs(InsertEnd(r, x), m, n + 1);
    } else {
      DistanceIs(InsertEnd(r, x), m, d);
    }
  }

  /** x is to be selected before m. */
  predicate Ahead<T(==)>(r: Ring<T>, x: T, m: T)
    requires Valid(r) && x in r.items && m in r.items
  {
    Distance(r, x) < Distance(r, m)
  }

  /** Dropping another member brings m nearer by one exactly when that member was ahead of it. */
  lemma DropStep<T>(r: Ring<T>, x: T, m: T)
    requires Valid(r) && m in r.items && x in r.items && x != m
    ensures Valid(Remove(r, x)) && m in Remove(r, x).items
    ensures Distance(Remove(r, x), m) == Distance(r, m) - if Ahead(r, x, m) then 1 else 0
  {
    hide IndexOf, Remove, RemoveAt, Distinct;
    var k := DropPlace(r, x);
    var q, d := Remove(r, x), Distance(r, m);
    OrderDistinct(r);
    DistanceIs(r, x, k);
    assert k != d;
    var e := if k < d then d - 1 else d;
    assert Order(q)[e] == m && |Order(q)| == |q.items|;
    DistanceIs(q, m, e);
  }

  lemma DropPlace<T>(r: Ring<T>, x: T) returns (k: nat)
    requires Valid(r) && x in r.items
    ensures |Order(r)| == |r.items| && Valid(Remove(r, x))
    ensures k < |r.items| && Order(r)[k] == x
    ensures Order(Remove(r, x)) == Order(r)[..k] + Order(r)[k + 1..]
    ensures |Order(Remove(r, x))| == |Remove(r, x).items|
  {
    OrderDistinct(r);
    RemoveOrder(r, x);
    k := IndexOf(Order(r), x);
    OrderDistinct(Remove(r, x));
  }

  ghost predicate LegalRun<T>(r: Ring<T>, ops: seq<Op<T>>)
    decreases |ops|
  {
    ops != [] ==> Legal(r, ops[0]) && LegalRun(Apply(r, ops[0]), ops[1..])
  }

  ghost predicate Served<T>(r: Ring<T>, ops: seq<Op<T>>, m: T)
    requires LegalRun(r, ops)
    decreases |ops|
  {
    && ops != []
    && ((ops[0].Select? && Selected(r) == m) || Served(Apply(r, ops[0]), ops[1..], m))
  }

  /** The run of operations leads from r to q. */
  ghost predicate Turns<T>(r: Ring<T>, ops: seq<Op<T>>, q: Ring<T>)
    decreases |ops|
  {
    if ops == [] then r == q else Legal(r, ops[0]) && Turns(Apply(r, ops[0]), ops[1..], q)
  }

  lemma {:induction false} TurnsIsLegal<T>(r: Ring<T>, ops: seq<Op<T>>, q: Ring<T>)
    requires Turns(r, ops, q)
    ensures LegalRun(r, ops)
    decreases |ops|
  {
    hide Apply, Legal;
    if ops != [] { TurnsIsLegal(Apply(r, ops[0]), ops[1..], q); }
  }

  lemma {:induction false} TurnsOn<T>(r: Ring<T>, a: seq<Op<T>>, q: Ring<T>, b: seq<Op<T>>, z: Ring<T>)
    requires Turns(r, a, q) && Turns(q, b, z)
    ensures Turns(r, a + b, z)
    decreases |a|
  {
    hide Apply, Legal;
    if a == [] {
      assert a + b == b;
    } else {
      assert (a + b)[0] == a[0] && (a + b)[1..] == a[1..] + b;
      TurnsOn(Apply(r, a[0]), a[1..], q, b, z);
    }
  }

  lemma TurnsOnce<T>(r: Ring<T>, op: Op<T>)
    requires Legal(r, op)
    ensures Turns(r, [op], Apply(r, op))
  {
    hide Apply, Legal;
    assert [op][1..] == [];
  }

  /** A member is served in a run exactly when it is in the first part or in the rest. */
  lemma {:induction false} ServedOn<T>(r: Ring<T>, a: seq<Op<T>>, q: Ring<T>, b: seq<Op<T>>, z: Ring<T>, m: T)
    requires Turns(r, a, q) && Turns(q, b, z)
    ensures LegalRun(r, a + b) && LegalRun(r, a) && LegalRun(q, b)
    ensures Served(r, a + b, m) <==> Served(r, a, m) || Served(q, b, m)
    decreases |a|
  {
    hide Apply, Legal, Selected;
    TurnsOn(r, a, q, b, z);
    TurnsIsLegal(r, a + b, z);
    TurnsIsLegal(r, a, q);
    TurnsIsLegal(q, b, z);
    if a == [] {
      assert a + b == b;
    } else {
      assert (a + b)[0] == a[0] && (a + b)[1..] == a[1..] + b;
      ServedOn(Apply(r, a[0]), a[1..], q, b, z, m);
    }
  }

  lemma {:induction false} UnselectedUnserved<T>(r: Ring<T>, ops: seq<Op<T>>, m: T)
    requires LegalRun(r, ops) && Select !in ops
    ensures !Served(r, ops, m) && Selections(ops) == 0
    decreases |ops|
  {
    hide Apply, Legal, Selected;
    if ops != [] {
      assert ops[0] in ops;
      UnselectedUnserved(Apply(r, ops[0]), ops[1..], m);
    }
  }

  lemma {:induction false} SelectionsOn<T>(a: seq<Op<T>>, b: seq<Op<T>>)
    ensures Selections(a + b) == Selections(a) + Selections(b)
    decreases |a|
  {
    if a == [] {
      assert a + b == b;
    } else {
      assert (a + b)[0] == a[0] && (a + b)[1..] == a[1..] + b;
      SelectionsOn(a[1..], b);
    }
  }

  function Selections<T>(ops: seq<Op<T>>): nat {
    if ops == [] then 0 else (if ops[0].Select? then 1 else 0) + Selections(ops[1..])
  }

  /** Insertions made while the index stands on m. */
  ghost function Overtakes<T>(r: Ring<T>, ops: seq<Op<T>>, m: T): nat
    requires LegalRun(r, ops)
    decreases |ops|
  {
    if ops == [] then 0
    else (if ops[0].Insert? && UnderCursor(r, m) then 1 else 0) + Overtakes(Apply(r, ops[0]), ops[1..], m)
  }

  /** Over any run that does not drop m: m is served unless there have been no more
      selections than m's distance plus the insertions made while the index stood on m. */
  lemma {:induction false} BoundedBypass<T>(r: Ring<T>, ops: seq<Op<T>>, m: T)
    requires LegalRun(r, ops) && Valid(r) && m in r.items && Drop(m) !in ops
    ensures Served(r, ops, m) || Selections(ops) <= Distance(r, m) + Overtakes(r, ops, m)
    decreases |ops|
  {
    if ops != [] && !(ops[0].Select? && Selected(r) == m) {
      assert ops[0] in ops;
      match ops[0] {
        case Select => SelectStep(r, m);
        case Insert(x) => InsertStep(r, x, m);
        case Drop(x) => DropStep(r, x, m);
      }
      BoundedBypass(Apply(r, ops[0]), ops[1..], m);
    }
  }

  /** What one operation brings m nearer by, when it does not serve it. */
  ghost function Gain<T>(r: Ring<T>, op: Op<T>, m: T): int
    requires Legal(r, op) && m in r.items
  {
    match op
    case Select => 1
    case Insert(_) => if UnderCursor(r, m) then -1 else 0
    case Drop(x) => if x != m && Ahead(r, x, m) then 1 else 0
  }

  /** What the first n operations bring m nearer by. */
  ghost function Progress<T>(r: Ring<T>, ops: seq<Op<T>>, m: T, n: nat): int
    requires LegalRun(r, ops) && Valid(r) && m in r.items && Drop(m) !in ops && n <= |ops|
    decreases n
  {
    if n == 0 then 0
    else
      assert ops[0] in ops;
      MemberStays(r, ops[0], m);
      Gain(r, ops[0], m) + Progress(Apply(r, ops[0]), ops[1..], m, n - 1)
  }

  lemma MemberStays<T>(r: Ring<T>, op: Op<T>, m: T)
    requires Legal(r, op) && m in r.items && op != Drop(m)
    ensures m in Apply(r, op).items
  {
    match op {
      case Select =>
      case Insert(x) => InsertStep(r, x, m);
      case Drop(x) => DropStep(r, x, m);
    }
  }

  lemma GainIs<T>(r: Ring<T>, op: Op<T>, m: T)
    requires Legal(r, op) && m in r.items && op != Drop(m) && !(op.Select? && Selected(r) == m)
    ensures m in Apply(r, op).items && Distance(Apply(r, op), m) == Distance(r, m) - Gain(r, op, m)
  {
    match op {
      case Select => SelectStep(r, m);
      case Insert(x) => InsertStep(r, x, m);
      case Drop(x) => DropStep(r, x, m);
    }
  }

  lemma SelectGains<T>(r: Ring<T>, m: T)
    requires Legal(r, Select) && m in r.items
    ensures Gain(r, Select, m) == 1
  {
  }

  lemma SelectedIsNear<T>(r: Ring<T>, m: T)
    requires Valid(r) && m in r.items && Selected(r) == m
    ensures Distance(r, m) == 0
  {
    AdvanceOrder(r);
    OrderDistinct(r);
    DistanceIs(r, m, 0);
  }

  lemma {:induction false} UnservedProgress<T>(r: Ring<T>, ops: seq<Op<T>>, m: T, n: nat)
    requires LegalRun(r, ops) && Valid(r) && m in r.items && Drop(m) !in ops && n <= |ops|
    requires !Served(r, ops, m)
    ensures Progress(r, ops, m, n) <= Distance(r, m)
    decreases n
  {
    hide Distance, Apply, Gain, Selected, Valid;
    if n > 0 {
      assert ops[0] in ops;
      GainIs(r, ops[0], m);
      UnservedProgress(Apply(r, ops[0]), ops[1..], m, n - 1);
    }
  }

  lemma {:induction false} ServedProgress<T>(r: Ring<T>, ops: seq<Op<T>>, m: T) returns (n: nat)
    requires LegalRun(r, ops) && Valid(r) && m in r.items && Drop(m) !in ops && Served(r, ops, m)
    ensures n <= |ops| && Progress(r, ops, m, n) > Distance(r, m)
    decreases |ops|
  {
    hide Distance, Apply, Gain, Selected, Distinct;
    assert ops[0] in ops;
    MemberStays(r, ops[0], m);
    if ops[0].Select? && Selected(r) == m {
      SelectedIsNear(r, m);
      n := 1;
      assert Progress(Apply(r, ops[0]), ops[1..], m, 0) == 0;
      assert Gain(r, ops[0], m) == 1 by { SelectGains(r, m); }
    } else {
      GainIs(r, ops[0], m);
      var k := ServedProgress(Apply(r, ops[0]), ops[1..], m);
      n := k + 1;
    }
  }

  /** Over any run that does not drop m: m is served exactly when at some point the selections
      made and the members dropped from ahead of it outnumber its distance and the insertions
      made while the index stood on it. */
  lemma ServedIff<T>(r: Ring<T>, ops: seq<Op<T>>, m: T)
    requires LegalRun(r, ops) && Valid(r) && m in r.items && Drop(m) !in ops
    ensures Served(r, ops, m) <==> exists n: nat :: n <= |ops| && Progress(r, ops, m, n) > Distance(r, m)
  {
    if Served(r, ops, m) {
      var n := ServedProgress(r, ops, m);
      assert n <= |ops| && Progress(r, ops, m, n) > Distance(r, m);
    } else {
      forall n: nat | n <= |ops|
        ensures Progress(r, ops, m, n) <= Distance(r, m)
      {
        UnservedProgress(r, ops, m, n);
      }
    }
  }

  /** A member that joins has every other member before it, except the one under the index. */
  lemma JoinedDistance<T>(r: Ring<T>, x: T)
    requires Valid(r) && x !in r.items
    ensures var q := Apply(r, Insert(x)); x in q.items && Distance(q, x) == |r.items| - if r.cursor == 0 then 0 else 1
  {
    var q := Apply(r, Insert(x));
    InsertEndOrder(r, x);
    assert x in multiset(q.items);
    OrderDistinct(q);
    OrderDistinct(r);
    var d := if r.cursor == 0 then |r.items| else |r.items| - 1;
    assert Order(q)[d] == x;
    DistanceIs(q, x, d);
  }

  /** A member that joins n others is served exactly when the progress of some prefix is more
      than n, or n - 1 when the index stands on a member. */
  lemma JoinedMemberIsServedIff<T>(r: Ring<T>, x: T, ops: seq<Op<T>>)
    requires Valid(r) && x !in r.items && Drop(x) !in ops && LegalRun(Apply(r, Insert(x)), ops)
    ensures var q := Apply(r, Insert(x));
            && x in q.items
            && (Served(q, ops, x) <==>
                exists n: nat :: n <= |ops| && Progress(q, ops, x, n) > |r.items| - if r.cursor == 0 then 0 else 1)
  {
    JoinedDistance(r, x);
    ServedIff(Apply(r, Insert(x)), ops, x);
  }

  /** In particular among the next n selections (n + 1 when the index stands on the end
      marker), provided nothing joins while the index is on it. */
  lemma JoinedMemberIsServed<T>(r: Ring<T>, x: T, ops: seq<Op<T>>)
    requires Valid(r) && x !in r.items && Drop(x) !in ops
    requires LegalRun(Apply(r, Insert(x)), ops)
    requires Overtakes(Apply(r, Insert(x)), ops, x) == 0
    requires Selections(ops) >= |r.items| + if r.cursor == 0 then 1 else 0
    ensures Served(Apply(r, Insert(x)), ops, x)
  {
    JoinedDistance(r, x);
    BoundedBypass(Apply(r, Insert(x)), ops, x);
  }

  /** The proviso is needed: task 2 joins while task 1 runs, task 1 blocks (the index falls
      back on task 2), task 3 joins in front of task 2, and the next selection is task 3. */
  lemma NewcomerCanOvertake()
    ensures var r := Ring([1], 1);
            var ops := [Drop(1), Insert(3), Select];
            && Valid(r) && LegalRun(Apply(r, Insert(2)), ops)
            && Selections(ops) == |r.items| && Overtakes(Apply(r, Insert(2)), ops, 2) == 1
            && Order(Apply(Apply(r, Insert(2)), Drop(1))) == [2]
            && !Served(Apply(r, Insert(2)), ops, 2)
  {
    var r := Ring([1], 1);
    var r1 := Apply(r, Insert(2));
    assert r1 == Ring([2, 1], 2);
    var ops := [Drop(1), Insert(3), Select];
    var r2 := Apply(r1, Drop(1));
    assert IndexOf([2, 1], 1) == 1;
    assert r2 == Ring([2], 1);
    assert ops[1..] == [Insert(3), Select];
    var r3 := Apply(r2, Insert(3));
    assert r3 == Ring([3, 2], 2);
    assert ops[1..][1..] == [Select];
    var r4 := Apply(r3, Select);
    assert Selected(r3) == 3;
    assert ops[1..][1..][1..] == [];
    assert LegalRun(r3, [Select]);
    assert LegalRun(r2, ops[1..]);
    assert !Served(r4, [], 2);
    assert !Served(r3, [Select], 2);
    assert !Served(r2, ops[1..], 2);
    assert Overtakes(r4, [], 2) == 0;
    assert Overtakes(r3, [Select], 2) == 0;
    assert Overtakes(r2, ops[1..], 2) == 1;
    assert Selections<int>([Select]) == 1;
    assert Selections(ops[1..]) == 1;
  }
}
