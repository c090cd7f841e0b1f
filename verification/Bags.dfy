/** Lists taken as multisets: taking an element out, cancelling, and permuting. */
module Bags {
  import opened Sums

  lemma TakeOut<T>(xs: seq<T>, k: nat)
    requires k < |xs|
    ensures multiset(xs) == multiset{xs[k]} + multiset(xs[..k] + xs[k + 1..])
  {
    assert xs == xs[..k] + [xs[k]] + xs[k + 1..];
  }

  /** Equal sums have equal second parts exactly when their first parts are equal. */
  lemma Cancel<T>(a: multiset<T>, x: multiset<T>, b: multiset<T>, y: multiset<T>)
    requires a + x == b + y
    ensures a == b <==> x == y
  {
    assert a == (a + x) - x && b == (b + y) - y;
    assert x == (a + x) - a && y == (b + y) - b;
  }

  /** Two lists with the same elements still have the same without one occurrence of the first's head. */
  lemma RemoveHead<T>(xs: seq<T>, ys: seq<T>, k: nat)
    requires multiset(xs) == multiset(ys) && |xs| > 0 && k < |ys| && ys[k] == xs[0]
    ensures multiset(xs[1..]) == multiset(ys[..k] + ys[k + 1..])
  {
    TakeOut(xs, 0);
    TakeOut(ys, k);
    assert xs[..0] + xs[1..] == xs[1..];
    var head := multiset{xs[0]};
    Cancel(head, multiset(xs[1..]), head, multiset(ys[..k] + ys[k + 1..]));
  }

  /** The elements at these positions. */
  function Picked<T>(xs: seq<T>, order: seq<nat>): (ys: seq<T>)
    requires forall i :: 0 <= i < |order| ==> order[i] < |xs|
    ensures |ys| == |order| && forall i :: 0 <= i < |ys| ==> ys[i] == xs[order[i]]
  {
    seq(|order|, i requires 0 <= i < |order| => xs[order[i]])
  }

  /** Without the greatest position, an order is one of the list without its last element. */
  lemma WithoutLast(order: seq<nat>, k: nat, n: nat)
    requires DistinctBelow(order, n + 1) && k < |order| && order[k] == n
    ensures DistinctBelow(order[..k] + order[k + 1..], n)
  {
    var rest := order[..k] + order[k + 1..];
    forall i | 0 <= i < |rest| ensures rest[i] < n {
      assert rest[i] == order[if i < k then i else i + 1];
    }
  }

  lemma PickedWithout<T>(xs: seq<T>, order: seq<nat>, k: nat, rest: seq<nat>)
    requires |xs| > 0 && DistinctBelow(order, |xs|) && k < |order|
    requires rest == order[..k] + order[k + 1..] && forall i :: 0 <= i < |rest| ==> rest[i] < |xs| - 1
    ensures Picked(xs[..|xs| - 1], rest) == Picked(xs, order)[..k] + Picked(xs, order)[k + 1..]
  {
  }

  lemma PutBack<T>(xs: seq<T>, ys: seq<T>, k: nat)
    requires |xs| > 0 && k < |ys| && ys[k] == xs[|xs| - 1]
    requires multiset(ys[..k] + ys[k + 1..]) == multiset(xs[..|xs| - 1])
    ensures multiset(ys) == multiset(xs)
  {
    TakeOut(ys, k);
    TakeOut(xs, |xs| - 1);
    assert xs[..|xs| - 1] + xs[|xs| - 1 + 1..] == xs[..|xs| - 1];
  }

  lemma PickedBack<T>(xs: seq<T>, order: seq<nat>, k: nat, rest: seq<nat>)
    requires |xs| > 0 && DistinctBelow(order, |xs|) && k < |order| && order[k] == |xs| - 1
    requires rest == order[..k] + order[k + 1..] && DistinctBelow(rest, |xs| - 1)
    requires multiset(Picked(xs[..|xs| - 1], rest)) == multiset(xs[..|xs| - 1])
    ensures multiset(Picked(xs, order)) == multiset(xs)
  {
    PickedWithout(xs, order, k, rest);
    PutBack(xs, Picked(xs, order), k);
  }

  /** Every position picked once: a permutation. */
  lemma {:induction false} Permuted<T>(xs: seq<T>, order: seq<nat>)
    requires DistinctBelow(order, |xs|) && |order| == |xs|
    ensures multiset(Picked(xs, order)) == multiset(xs)
  {
    if xs == [] {
      assert Picked(xs, order) == xs;
    } else {
      var n := |xs| - 1;
      LogBound(order, |xs|);
      assert n in order;
      var k :| 0 <= k < |order| && order[k] == n;
      var rest := order[..k] + order[k + 1..];
      WithoutLast(order, k, n);
      Permuted(xs[..n], rest);
      PickedBack(xs, order, k, rest);
    }
  }
}
