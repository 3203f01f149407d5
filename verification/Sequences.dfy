/** Sequences without repetition, and taking an element out of one. */
module Sequences {

  ghost predicate Distinct<T>(s: seq<T>) {
    forall i, j :: 0 <= i < j < |s| ==> s[i] != s[j]
  }

  /** A sequence without the first x in it; nothing happens when there is none. */
  function Without<T(==)>(q: seq<T>, x: T): (r: seq<T>)
    ensures |r| == if x in q then |q| - 1 else |q|
  {
    if q == [] then [] else if q[0] == x then q[1..] else [q[0]] + Without(q[1..], x)
  }

  lemma HeadOnce<T>(q: seq<T>)
    requires Distinct(q) && q != []
    ensures Distinct(q[1..]) && q[0] !in q[1..] && forall x :: x in q[1..] ==> x in q
  {
    forall i | 0 <= i < |q| - 1
      ensures q[1..][i] != q[0]
    {
      assert q[1..][i] == q[i + 1];
    }
  }

  lemma {:induction false} WithoutMembers<T>(q: seq<T>, x: T)
    requires Distinct(q)
    ensures Distinct(Without(q, x)) && forall y :: y in Without(q, x) <==> y in q && y != x
    decreases |q|
  {
    if q != [] {
      WithoutMembers(q[1..], x);
      HeadOnce(q);
      var r := Without(q[1..], x);
      assert forall y :: y in q <==> y == q[0] || y in q[1..];
      assert forall j :: 0 <= j < |r| ==> r[j] in r;
    }
  }

  lemma {:induction false} WithoutAbsent<T>(q: seq<T>, x: T)
    requires x !in q
    ensures Without(q, x) == q
    decreases |q|
  {
    if q != [] { WithoutAbsent(q[1..], x); }
  }

  lemma {:induction false} WithoutAt<T>(q: seq<T>, k: nat)
    requires k < |q| && q[k] !in q[..k]
    ensures Without(q, q[k]) == q[..k] + q[k + 1..]
    decreases k
  {
    if k > 0 {
      assert q[0] in q[..k];
      assert q[1..][..k - 1] == q[1..k] && forall y :: y in q[1..k] ==> y in q[..k];
      WithoutAt(q[1..], k - 1);
      assert q[..k] == [q[0]] + q[1..k];
    }
  }
}

/** Tasks are named by their handles. */
module Tasks {
  type Task = int
}
