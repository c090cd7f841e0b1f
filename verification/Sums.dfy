/** Finite sums and duplicate-free logs: the counting used by every module. */
module Sums {

  function Sum(xs: seq<int>): int {
    if xs == [] then 0 else xs[0] + Sum(xs[1..])
  }

  /** A truth value as a number. */
  function One(b: bool): nat {
    if b then 1 else 0
  }

  lemma {:induction false} SumUpdate(xs: seq<int>, i: nat, v: int)
    requires i < |xs|
    ensures Sum(xs[i := v]) == Sum(xs) - xs[i] + v
  {
    var ys := xs[i := v];
    if i == 0 {
      assert ys[1..] == xs[1..];
    } else {
      assert ys[1..] == xs[1..][i - 1 := v];
      SumUpdate(xs[1..], i - 1, v);
    }
  }

  lemma {:induction false} SumConst(xs: seq<int>, v: int)
    requires forall i :: 0 <= i < |xs| ==> xs[i] == v
    ensures Sum(xs) == |xs| * v
  {
    if xs != [] {
      SumConst(xs[1..], v);
      assert |xs| * v == (|xs| - 1) * v + v;
    }
  }

  lemma {:induction false} SumNonNegative(xs: seq<int>)
    requires forall i :: 0 <= i < |xs| ==> xs[i] >= 0
    ensures Sum(xs) >= 0
    ensures forall i :: 0 <= i < |xs| ==> xs[i] <= Sum(xs)
  {
    if xs != [] {
      SumNonNegative(xs[1..]);
      forall i | 0 <= i < |xs| ensures xs[i] <= Sum(xs) {
        if i > 0 { assert xs[i] == xs[1..][i - 1]; }
      }
    }
  }

  lemma {:induction false} SumWitness(xs: seq<int>) returns (i: nat)
    requires Sum(xs) > 0
    ensures i < |xs| && xs[i] > 0
  {
    if xs[0] > 0 {
      i := 0;
    } else {
      i := SumWitness(xs[1..]);
      i := i + 1;
    }
  }

  lemma {:induction false} SumAppend(xs: seq<int>, ys: seq<int>)
    ensures Sum(xs + ys) == Sum(xs) + Sum(ys)
  {
    if xs == [] {
      assert xs + ys == ys;
    } else {
      assert (xs + ys)[1..] == xs[1..] + ys;
      SumAppend(xs[1..], ys);
    }
  }

  /** A log of numbers below n in which none occurs twice. */
  ghost predicate DistinctBelow(log: seq<nat>, n: nat) {
    && (forall k :: 0 <= k < |log| ==> log[k] < n)
    && (forall k, m :: 0 <= k < m < |log| ==> log[k] != log[m])
  }

  ghost function Below(n: nat): (s: set<nat>)
    ensures |s| == n && forall k :: k in s <==> 0 <= k < n
  {
    if n == 0 then {} else Below(n - 1) + {n - 1}
  }

  ghost function Entries<T(!new)>(log: seq<T>): (s: set<T>)
    ensures forall x :: x in s <==> x in log
  {
    set x | x in log
  }

  /** Nothing occurs twice. */
  ghost predicate NoRepeat<T>(log: seq<T>) {
    forall i, j :: 0 <= i < j < |log| ==> log[i] != log[j]
  }

  lemma {:induction false} EntriesSize<T(!new)>(log: seq<T>)
    ensures |Entries(log)| <= |log|
    ensures |Entries(log)| == |log| <==> NoRepeat(log)
  {
    if log != [] {
      var rest := log[1..];
      EntriesSize(rest);
      assert log == [log[0]] + rest;
      assert Entries(log) == Entries(rest) + {log[0]};
      if log[0] in rest {
        var i :| 0 <= i < |rest| && rest[i] == log[0];
        assert log[i + 1] == log[0];
      } else {
        assert NoRepeat(rest) ==> NoRepeat(log);
      }
    }
  }

  lemma SubsetSize(a: set<nat>, b: set<nat>)
    requires a <= b
    ensures |a| <= |b|
    ensures |a| == |b| ==> a == b
  {
    assert b == a + (b - a);
    assert |b| == |a| + |b - a|;
  }

  /** Pigeonhole: such a log has at most n entries, and n exactly when it holds every number below n. */
  lemma LogBound(log: seq<nat>, n: nat)
    requires DistinctBelow(log, n)
    ensures |log| <= n
    ensures |log| == n <==> forall k :: 0 <= k < n ==> k in log
  {
    var s := Entries(log);
    EntriesSize(log);
    SubsetSize(s, Below(n));
    if forall k :: 0 <= k < n ==> k in log {
      assert s == Below(n);
    }
    if |log| == n {
      assert forall k :: 0 <= k < n ==> k in s;
    }
  }
}
