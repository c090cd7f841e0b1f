/** The timing statistics of a simulation: least, greatest, average and median of the stamped intervals. */
module Statistics {
  import opened Arithmetic
  import opened Bags
  import opened Sums

  /** The stamps of one transaction, in nanoseconds. */
  datatype Timing = Timing(
    start: int,
    end: int,
    endorsementsStart: int,
    endorsementsEnd: int,
    validationStart: int,
    validationEnd: int)

  datatype Basics = Basics(min: int, max: int, avg: int, median: int)

  /** Where the search for the least starts: 3600000 seconds. */
  const CAP: int := 3600000 * 1000000000

  /** Division that cuts towards zero. */
  function Quotient(total: int, n: nat): int
    requires n > 0
  {
    if total >= 0 then total / n else -((-total) / n)
  }

  /** The three intervals that are summarised. */
  datatype Interval = Whole | Endorsements | Validations

  function Length(t: Timing, what: Interval): int {
    match what
    case Whole => t.end - t.start
    case Endorsements => t.endorsementsEnd - t.endorsementsStart
    case Validations => t.validationEnd - t.validationStart
  }

  function Elapsed(infos: seq<Timing>, what: Interval): seq<int> {
    seq(|infos|, i requires 0 <= i < |infos| => Length(infos[i], what))
  }

  ghost predicate LeastOf(xs: seq<int>, m: int) {
    m in xs && forall i :: 0 <= i < |xs| ==> m <= xs[i]
  }

  ghost predicate GreatestOf(xs: seq<int>, m: int) {
    m in xs && forall i :: 0 <= i < |xs| ==> xs[i] <= m
  }

  /** The least of the values and the starting value. */
  ghost predicate MinFrom(start: int, xs: seq<int>, m: int) {
    m <= start && (m == start || m in xs) && forall i :: 0 <= i < |xs| ==> m <= xs[i]
  }

  ghost predicate MaxFrom(start: int, xs: seq<int>, m: int) {
    m >= start && (m == start || m in xs) && forall i :: 0 <= i < |xs| ==> xs[i] <= m
  }

  // ---- sorting

  ghost predicate Sorted(xs: seq<int>) {
    forall i, j :: 0 <= i < j < |xs| ==> xs[i] <= xs[j]
  }

  ghost predicate SortedCopy(xs: seq<int>, ys: seq<int>) {
    Sorted(ys) && multiset(ys) == multiset(xs)
  }

  lemma SameMembers(xs: seq<int>, ys: seq<int>)
    requires multiset(xs) == multiset(ys)
    ensures |xs| == |ys| && forall x :: x in xs <==> x in ys
  {
    assert |multiset(xs)| == |xs| && |multiset(ys)| == |ys|;
    assert forall x :: x in xs <==> x in multiset(xs);
    assert forall x :: x in ys <==> x in multiset(ys);
  }

  lemma HeadOrder(ys: seq<int>, zs: seq<int>)
    requires Sorted(zs) && |ys| > 0 && ys[0] in zs
    ensures |zs| > 0 && zs[0] <= ys[0]
  {
  }

  lemma SameHead(ys: seq<int>, zs: seq<int>)
    requires Sorted(ys) && Sorted(zs) && multiset(ys) == multiset(zs) && |ys| > 0
    ensures |zs| > 0 && ys[0] == zs[0]
  {
    SameMembers(ys, zs);
    assert ys[0] in ys && zs[0] in zs;
    HeadOrder(ys, zs);
    HeadOrder(zs, ys);
  }

  lemma SortedTail(ys: seq<int>)
    requires Sorted(ys) && |ys| > 0
    ensures Sorted(ys[1..])
  {
  }

  lemma SameTail(ys: seq<int>, zs: seq<int>)
    requires |ys| > 0 && |zs| > 0 && ys[0] == zs[0] && ys[1..] == zs[1..]
    ensures ys == zs
  {
    assert ys == [ys[0]] + ys[1..] && zs == [zs[0]] + zs[1..];
  }

  /** There is only one sorted copy, so whatever algorithm sorts, the result is the same. */
  lemma {:induction false} SortedCopyIsUnique(ys: seq<int>, zs: seq<int>)
    requires Sorted(ys) && Sorted(zs) && multiset(ys) == multiset(zs)
    ensures ys == zs
  {
    if ys == [] {
      SameMembers(ys, zs);
    } else {
      SameHead(ys, zs);
      TailsMatch(ys, zs);
      SortedTail(ys);
      SortedTail(zs);
      SortedCopyIsUnique(ys[1..], zs[1..]);
      SameTail(ys, zs);
    }
  }

  lemma TailsMatch(ys: seq<int>, zs: seq<int>)
    requires multiset(ys) == multiset(zs) && |ys| > 0 && |zs| > 0 && ys[0] == zs[0]
    ensures multiset(ys[1..]) == multiset(zs[1..])
  {
    RemoveHead(ys, zs, 0);
    assert zs[..0] + zs[1..] == zs[1..];
  }

  /** Where an element goes in a sorted sequence: after everything that is no greater. */
  method Position(ys: seq<int>, x: int) returns (p: nat)
    requires Sorted(ys)
    ensures p <= |ys|
    ensures (forall i :: 0 <= i < p ==> ys[i] <= x) && (forall i :: p <= i < |ys| ==> x < ys[i])
  {
    p := 0;
    while p < |ys| && ys[p] <= x
      invariant p <= |ys| && forall i :: 0 <= i < p ==> ys[i] <= x
    {
      p := p + 1;
    }
  }

  lemma Inserted(xs: seq<int>, ys: seq<int>, p: nat, x: int)
    requires multiset(ys) == multiset(xs) && p <= |ys|
    ensures multiset(ys[..p] + [x] + ys[p..]) == multiset(xs + [x])
  {
    assert ys == ys[..p] + ys[p..];
  }

  method Sort(xs: seq<int>) returns (ys: seq<int>)
    ensures SortedCopy(xs, ys)
  {
    ys := [];
    for i := 0 to |xs|
      invariant SortedCopy(xs[..i], ys)
    {
      var p := Position(ys, xs[i]);
      Inserted(xs[..i], ys, p, xs[i]);
      assert xs[..i + 1] == xs[..i] + [xs[i]];
      ys := ys[..p] + [xs[i]] + ys[p..];
    }
    assert xs[..|xs|] == xs;
  }

  // ---- the pass over the timings

  lemma SumSnoc(xs: seq<int>, x: int)
    ensures Sum(xs + [x]) == Sum(xs) + x
  {
    SumAppend(xs, [x]);
    assert [x][1..] == [];
  }

  /** The results that the pass gives for these values. */
  ghost predicate Summarises(xs: seq<int>, r: Basics)
    requires |xs| > 0
  {
    && MinFrom(CAP, xs, r.min) && MaxFrom(0, xs, r.max)
    && r.avg == Quotient(Sum(xs), |xs|)
    && exists ys :: SortedCopy(xs, ys) && |ys| == |xs| && r.median == ys[|ys| / 2]
  }

  /** One pass and one sort: the least value if it is below the cap, the greatest if it is above zero, the
      average cut to a whole number, and the element of rank n / 2. */
  method TimingBasics(infos: seq<Timing>, what: Interval) returns (r: Basics)
    requires |infos| > 0
    ensures Summarises(Elapsed(infos, what), r)
    ensures forall ys :: SortedCopy(Elapsed(infos, what), ys) ==> |ys| == |infos| && r.median == ys[|ys| / 2]
  {
    ghost var xs := Elapsed(infos, what);
    var min, max, total := CAP, 0, 0;
    var totals: seq<int> := [];
    for i := 0 to |infos|
      invariant totals == xs[..i] && total == Sum(totals)
      invariant MinFrom(CAP, totals, min) && MaxFrom(0, totals, max)
    {
      var elapsed := Length(infos[i], what);
      if elapsed < min {
        min := elapsed;
      }
      if elapsed > max {
        max := elapsed;
      }
      SumSnoc(totals, elapsed);
      total := total + elapsed;
      totals := totals + [elapsed];
      assert xs[..i + 1] == xs[..i] + [xs[i]];
    }
    assert xs[..|infos|] == xs;
    var sorted := Sort(totals);
    SameMembers(totals, sorted);
    forall ys | SortedCopy(xs, ys) ensures ys == sorted {
      SortedCopyIsUnique(ys, sorted);
    }
    r := Basics(min, max, Quotient(total, |infos|), sorted[|sorted| / 2]);
  }

  // ---- what the numbers mean

  /** The starting values show through: the minimum is the least value exactly when one does not exceed the
      cap, and the maximum is the greatest exactly when one is not negative. */
  lemma StartingValuesIff(xs: seq<int>, r: Basics)
    requires |xs| > 0 && Summarises(xs, r)
    ensures LeastOf(xs, r.min) <==> exists i :: 0 <= i < |xs| && xs[i] <= CAP
    ensures GreatestOf(xs, r.max) <==> exists i :: 0 <= i < |xs| && xs[i] >= 0
  {
  }

  lemma {:induction false} SumBetween(xs: seq<int>, low: int, high: int)
    requires forall i :: 0 <= i < |xs| ==> low <= xs[i] <= high
    ensures |xs| * low <= Sum(xs) <= |xs| * high
  {
    if xs != [] {
      SumBetween(xs[1..], low, high);
      assert |xs| * low == low + (|xs| - 1) * low && |xs| * high == high + (|xs| - 1) * high;
    }
  }

  lemma QuotientBetween(total: int, n: nat, low: nat, high: nat)
    requires n > 0 && n * low <= total <= n * high
    ensures low <= Quotient(total, n) <= high
  {
    Quotients(n * low, total, n);
    Quotients(total, n * high, n);
    Euclid(n * low, low, 0, n);
    Euclid(n * high, high, 0, n);
  }

  /** For intervals within the cap, minimum and maximum are the least and the greatest value, and the
      average and the median lie between them. */
  lemma InOrder(xs: seq<int>, r: Basics)
    requires |xs| > 0 && Summarises(xs, r) && forall i :: 0 <= i < |xs| ==> 0 <= xs[i] <= CAP
    ensures LeastOf(xs, r.min) && GreatestOf(xs, r.max)
    ensures 0 <= r.min <= r.avg <= r.max
    ensures r.min <= r.median <= r.max
  {
    assert xs[0] in xs;
    StartingValuesIff(xs, r);
    AverageInOrder(xs, r);
    MedianIsValue(xs, r);
  }

  lemma AverageInOrder(xs: seq<int>, r: Basics)
    requires |xs| > 0 && r.avg == Quotient(Sum(xs), |xs|) && 0 <= r.min <= r.max
    requires forall i :: 0 <= i < |xs| ==> r.min <= xs[i] <= r.max
    ensures r.min <= r.avg <= r.max
  {
    SumBetween(xs, r.min, r.max);
    QuotientBetween(Sum(xs), |xs|, r.min, r.max);
  }

  lemma MedianIsValue(xs: seq<int>, r: Basics)
    requires |xs| > 0 && Summarises(xs, r)
    ensures r.median in xs
  {
    var ys :| SortedCopy(xs, ys) && |ys| == |xs| && r.median == ys[|ys| / 2];
    SameMembers(xs, ys);
  }

  /** How many values are below, and how many not above, some value. */
  function Below(xs: seq<int>, m: int): nat {
    if xs == [] then 0 else One(xs[0] < m) + Below(xs[1..], m)
  }

  function NotAbove(xs: seq<int>, m: int): nat {
    if xs == [] then 0 else One(xs[0] <= m) + NotAbove(xs[1..], m)
  }

  lemma {:induction false} CountsAreOrderless(xs: seq<int>, ys: seq<int>, m: int)
    requires multiset(xs) == multiset(ys)
    ensures Below(xs, m) == Below(ys, m) && NotAbove(xs, m) == NotAbove(ys, m)
  {
    SameMembers(xs, ys);
    if xs != [] {
      assert xs[0] in xs;
      var k :| 0 <= k < |ys| && ys[k] == xs[0];
      RemoveHead(xs, ys, k);
      CountsAreOrderless(xs[1..], ys[..k] + ys[k + 1..], m);
      CountSplit(ys, k, m);
    }
  }

  lemma {:induction false} CountSplit(ys: seq<int>, k: nat, m: int)
    requires k < |ys|
    ensures Below(ys, m) == One(ys[k] < m) + Below(ys[..k] + ys[k + 1..], m)
    ensures NotAbove(ys, m) == One(ys[k] <= m) + NotAbove(ys[..k] + ys[k + 1..], m)
  {
    if k == 0 {
      assert ys[..0] + ys[1..] == ys[1..];
    } else {
      CountSplit(ys[1..], k - 1, m);
      assert (ys[..k] + ys[k + 1..])[1..] == ys[1..][..k - 1] + ys[1..][k..];
    }
  }

  lemma {:induction false} CountsOfSorted(ys: seq<int>, k: nat)
    requires Sorted(ys) && k < |ys|
    ensures Below(ys, ys[k]) <= k < NotAbove(ys, ys[k])
    decreases |ys|
  {
    if k > 0 {
      assert Sorted(ys[1..]);
      CountsOfSorted(ys[1..], k - 1);
    } else {
      NoneBelow(ys, ys[0]);
    }
  }

  lemma {:induction false} NoneBelow(ys: seq<int>, m: int)
    requires forall i :: 0 <= i < |ys| ==> m <= ys[i]
    ensures Below(ys, m) == 0
  {
    if ys != [] {
      NoneBelow(ys[1..], m);
    }
  }

  /** The median has rank n / 2: at most that many values are below it, and more are not above it. */
  lemma MedianRank(xs: seq<int>, r: Basics)
    requires |xs| > 0 && Summarises(xs, r)
    ensures Below(xs, r.median) <= |xs| / 2 < NotAbove(xs, r.median)
  {
    var ys :| SortedCopy(xs, ys) && |ys| == |xs| && r.median == ys[|ys| / 2];
    CountsOfSorted(ys, |ys| / 2);
    CountsAreOrderless(xs, ys, r.median);
  }

  // ---- total time against its parts

  /** The order in which a transaction stamps, on a clock that does not go back. */
  ghost predicate Stamped(t: Timing) {
    t.start <= t.endorsementsStart <= t.endorsementsEnd <= t.validationStart <= t.validationEnd <= t.end
  }

  lemma {:induction false} SumDominates(ts: seq<int>, es: seq<int>, vs: seq<int>)
    requires |ts| == |es| == |vs| && forall i :: 0 <= i < |ts| ==> ts[i] >= es[i] + vs[i]
    ensures Sum(ts) >= Sum(es) + Sum(vs)
  {
    if ts != [] {
      SumDominates(ts[1..], es[1..], vs[1..]);
    }
  }

  lemma QuotientAtLeast(t: nat, k: nat, n: nat)
    requires n > 0 && k * n <= t
    ensures t / n >= k
  {
    Quotients(k * n, t, n);
    Euclid(k * n, k, 0, n);
  }

  lemma QuotientDominates(t: nat, e: nat, v: nat, n: nat)
    requires n > 0 && t >= e + v
    ensures t / n >= e / n + v / n
  {
    var p, q := e / n, v / n;
    assert e >= p * n && v >= q * n;
    assert (p + q) * n == p * n + q * n;
    QuotientAtLeast(t, p + q, n);
  }

  lemma MinimumDominates(ts: seq<int>, es: seq<int>, vs: seq<int>, total: Basics, endorse: Basics, validate: Basics)
    requires |ts| == |es| == |vs| && |ts| > 0
    requires forall i :: 0 <= i < |ts| ==> ts[i] >= es[i] + vs[i]
    requires Summarises(ts, total) && Summarises(es, endorse) && Summarises(vs, validate)
    requires exists i :: 0 <= i < |ts| && ts[i] <= CAP
    ensures total.min >= endorse.min + validate.min
  {
    StartingValuesIff(ts, total);
    var i :| 0 <= i < |ts| && ts[i] == total.min;
  }

  lemma StampedDominates(infos: seq<Timing>, i: nat)
    requires i < |infos| && Stamped(infos[i])
    ensures |Elapsed(infos, Whole)| == |Elapsed(infos, Endorsements)| == |Elapsed(infos, Validations)| == |infos|
    ensures Elapsed(infos, Endorsements)[i] >= 0 && Elapsed(infos, Validations)[i] >= 0
    ensures Elapsed(infos, Whole)[i] >= Elapsed(infos, Endorsements)[i] + Elapsed(infos, Validations)[i]
  {
  }

  /** The average of the total is at least the sum of the averages of its parts, and so is the minimum if some
      transaction took no longer than the cap. */
  lemma TotalDominates(infos: seq<Timing>, total: Basics, endorse: Basics, validate: Basics)
    requires |infos| > 0 && forall i :: 0 <= i < |infos| ==> Stamped(infos[i])
    requires Summarises(Elapsed(infos, Whole), total)
    requires Summarises(Elapsed(infos, Endorsements), endorse)
    requires Summarises(Elapsed(infos, Validations), validate)
    ensures total.avg >= endorse.avg + validate.avg
    ensures (exists i :: 0 <= i < |infos| && Elapsed(infos, Whole)[i] <= CAP) ==> total.min >= endorse.min + validate.min
    ensures total.max >= endorse.max && total.max >= validate.max
  {
    var ts, es, vs := Elapsed(infos, Whole), Elapsed(infos, Endorsements), Elapsed(infos, Validations);
    forall i | 0 <= i < |infos| ensures ts[i] >= es[i] + vs[i] && es[i] >= 0 && vs[i] >= 0 {
      StampedDominates(infos, i);
    }
    PartsAreDominated(ts, es, vs, total, endorse, validate);
  }

  lemma PartsAreDominated(ts: seq<int>, es: seq<int>, vs: seq<int>, total: Basics, endorse: Basics, validate: Basics)
    requires |ts| == |es| == |vs| && |ts| > 0
    requires forall i :: 0 <= i < |ts| ==> ts[i] >= es[i] + vs[i] && es[i] >= 0 && vs[i] >= 0
    requires Summarises(ts, total) && Summarises(es, endorse) && Summarises(vs, validate)
    ensures total.avg >= endorse.avg + validate.avg
    ensures (exists i :: 0 <= i < |ts| && ts[i] <= CAP) ==> total.min >= endorse.min + validate.min
    ensures total.max >= endorse.max && total.max >= validate.max
  {
    AverageDominates(ts, es, vs, total, endorse, validate);
    if exists i :: 0 <= i < |ts| && ts[i] <= CAP {
      MinimumDominates(ts, es, vs, total, endorse, validate);
    }
    MaximumDominates(ts, es, total, endorse);
    MaximumDominates(ts, vs, total, validate);
  }

  lemma AverageDominates(ts: seq<int>, es: seq<int>, vs: seq<int>, total: Basics, endorse: Basics, validate: Basics)
    requires |ts| == |es| == |vs| && |ts| > 0
    requires forall i :: 0 <= i < |ts| ==> ts[i] >= es[i] + vs[i] && es[i] >= 0 && vs[i] >= 0
    requires Summarises(ts, total) && Summarises(es, endorse) && Summarises(vs, validate)
    ensures total.avg >= endorse.avg + validate.avg
  {
    SumDominates(ts, es, vs);
    SumNonNegative(es);
    SumNonNegative(vs);
    QuotientDominates(Sum(ts), Sum(es), Sum(vs), |ts|);
  }

  lemma MaximumDominates(ts: seq<int>, ps: seq<int>, total: Basics, part: Basics)
    requires |ts| == |ps| > 0 && forall i :: 0 <= i < |ts| ==> ts[i] >= ps[i]
    requires Summarises(ts, total) && Summarises(ps, part)
    ensures total.max >= part.max
  {
    if part.max in ps {
      var i :| 0 <= i < |ps| && ps[i] == part.max;
      assert ts[i] <= total.max;
    }
  }

  // ---- what is printed

  /** Durations are printed in whole milliseconds, cut towards zero. */
  function Milliseconds(ns: int): int {
    Quotient(ns, 1000000)
  }

  function Printed(r: Basics): Basics {
    Basics(Milliseconds(r.min), Milliseconds(r.max), Milliseconds(r.avg), Milliseconds(r.median))
  }

  function InMilliseconds(xs: seq<int>): (ms: seq<int>)
    ensures |ms| == |xs| && forall i :: 0 <= i < |ms| ==> ms[i] == Milliseconds(xs[i])
  {
    seq(|xs|, i requires 0 <= i < |xs| => Milliseconds(xs[i]))
  }

  ghost predicate WithinCap(xs: seq<int>) {
    forall i :: 0 <= i < |xs| ==> 0 <= xs[i] <= CAP
  }

  /** The mean of the values, cut to whole milliseconds. */
  ghost predicate MeanOf(xs: seq<int>, avg: int) {
    |xs| * (1000000 * avg) <= Sum(xs) < |xs| * (1000000 * (avg + 1))
  }

  /** A printed line says where the values lie: its median has rank n / 2 among the values in milliseconds and,
      within the cap, its minimum and maximum are the least and the greatest of them, and its average is the
      mean. */
  ghost predicate Describes(xs: seq<int>, p: Basics) {
    && Below(InMilliseconds(xs), p.median) <= |xs| / 2 < NotAbove(InMilliseconds(xs), p.median)
    && (WithinCap(xs) ==>
          && LeastOf(InMilliseconds(xs), p.min) && GreatestOf(InMilliseconds(xs), p.max) && MeanOf(xs, p.avg)
          && 0 <= p.min <= p.avg <= p.max && p.min <= p.median <= p.max)
  }

  /** The line for the total is above the lines for its parts. */
  ghost predicate Dominates(infos: seq<Timing>, total: Basics, endorse: Basics, validate: Basics) {
    && total.avg >= endorse.avg + validate.avg
    && total.max >= endorse.max && total.max >= validate.max
    && ((exists i :: 0 <= i < |infos| && Elapsed(infos, Whole)[i] <= CAP) ==> total.min >= endorse.min + validate.min)
  }

  lemma CutKeepsOrder(x: int, y: int)
    ensures x <= y ==> Milliseconds(x) <= Milliseconds(y)
    ensures Milliseconds(x) < Milliseconds(y) ==> x < y
  {
  }

  lemma CutOfSum(x: nat, y: nat, total: int)
    requires total >= x + y
    ensures Milliseconds(total) >= Milliseconds(x) + Milliseconds(y)
  {
  }

  /** Cutting moves no value past the cut median. */
  lemma {:induction false} RankInMilliseconds(xs: seq<int>, m: int)
    ensures Below(InMilliseconds(xs), Milliseconds(m)) <= Below(xs, m)
    ensures NotAbove(xs, m) <= NotAbove(InMilliseconds(xs), Milliseconds(m))
  {
    if xs != [] {
      assert InMilliseconds(xs)[1..] == InMilliseconds(xs[1..]);
      CutKeepsOrder(xs[0], m);
      CutKeepsOrder(m, xs[0]);
      RankInMilliseconds(xs[1..], m);
    }
  }

  lemma ExtremesInMilliseconds(xs: seq<int>, low: int, high: int)
    requires LeastOf(xs, low) && GreatestOf(xs, high)
    ensures LeastOf(InMilliseconds(xs), Milliseconds(low)) && GreatestOf(InMilliseconds(xs), Milliseconds(high))
  {
    var ms := InMilliseconds(xs);
    var i :| 0 <= i < |xs| && xs[i] == low;
    var j :| 0 <= j < |xs| && xs[j] == high;
    assert ms[i] in ms && ms[j] in ms;
    forall k | 0 <= k < |ms| ensures Milliseconds(low) <= ms[k] <= Milliseconds(high) {
      CutKeepsOrder(low, xs[k]);
      CutKeepsOrder(xs[k], high);
    }
  }

  /** Cutting the mean to nanoseconds first makes no difference. */
  lemma CutMean(total: nat, n: nat, avg: nat)
    requires n > 0 && avg == total / n
    ensures n * (1000000 * Milliseconds(avg)) <= total < n * (1000000 * (Milliseconds(avg) + 1))
  {
    var low, next := 1000000 * Milliseconds(avg), 1000000 * (Milliseconds(avg) + 1);
    assert low <= avg < next;
    Scaled(low, avg, n);
    Scaled(avg + 1, next, n);
    assert total == avg * n + total % n;
    assert n * (avg + 1) == avg * n + n;
  }

  lemma Scaled(x: int, y: int, n: nat)
    requires x <= y
    ensures n * x <= n * y
  {
    assert n * y == n * x + n * (y - x);
  }

  lemma PrintedDescribes(xs: seq<int>, r: Basics)
    requires |xs| > 0 && Summarises(xs, r)
    ensures Describes(xs, Printed(r))
  {
    MedianRank(xs, r);
    RankInMilliseconds(xs, r.median);
    if WithinCap(xs) {
      InOrder(xs, r);
      SumNonNegative(xs);
      ExtremesInMilliseconds(xs, r.min, r.max);
      CutMean(Sum(xs), |xs|, r.avg);
      CutKeepsOrder(r.min, r.avg);
      CutKeepsOrder(r.avg, r.max);
      CutKeepsOrder(r.min, r.median);
      CutKeepsOrder(r.median, r.max);
    }
  }

  lemma NotNegative(xs: seq<int>, r: Basics)
    requires |xs| > 0 && Summarises(xs, r) && forall i :: 0 <= i < |xs| ==> xs[i] >= 0
    ensures r.min >= 0 && r.max >= 0 && r.avg >= 0
  {
    SumNonNegative(xs);
    QuotientNotNegative(Sum(xs), |xs|);
  }

  lemma QuotientNotNegative(total: nat, n: nat)
    requires n > 0
    ensures Quotient(total, n) >= 0
  {
  }

  // ---- the printed numbers, for any intervals

  function Magnitude(x: int): nat {
    if x < 0 then -x else x
  }

  /** q is x / n cut towards zero. */
  ghost predicate CutBy(x: int, n: nat, q: int) {
    && n > 0 && Magnitude(q) * n <= Magnitude(x) < (Magnitude(q) + 1) * n
    && (q > 0 ==> x > 0) && (q < 0 ==> x < 0)
  }

  lemma QuotientOf(m: nat, n: nat)
    requires n > 0
    ensures (m / n) * n <= m < (m / n + 1) * n
  {
    var q := m / n;
    assert m == q * n + m % n && (q + 1) * n == q * n + n;
  }

  lemma QuotientCuts(x: int, n: nat)
    requires n > 0
    ensures CutBy(x, n, Quotient(x, n))
  {
    var m := Magnitude(x);
    QuotientOf(m, n);
    QuotientNotNegative(m, n);
    assert m == 0 ==> 0 / n == 0;
    assert Quotient(x, n) == if x >= 0 then m / n else -(m / n);
    assert Magnitude(Quotient(x, n)) == m / n;
  }

  /** Least, greatest, average and median in nanoseconds, the first two started at an hour a thousandfold and at 0. */
  ghost predicate InNanoseconds(xs: seq<int>, r: Basics) {
    && MinFrom(3600000 * 1000000000, xs, r.min) && MaxFrom(0, xs, r.max) && CutBy(Sum(xs), |xs|, r.avg)
    && exists ys :: SortedCopy(xs, ys) && |ys| == |xs| > 0 && r.median == ys[|ys| / 2]
  }

  /** The four numbers of a line are these, cut to milliseconds, whatever the intervals are. */
  ghost predicate Reports(xs: seq<int>, p: Basics) {
    exists r: Basics :: InNanoseconds(xs, r)
      && CutBy(r.min, 1000000, p.min) && CutBy(r.max, 1000000, p.max)
      && CutBy(r.avg, 1000000, p.avg) && CutBy(r.median, 1000000, p.median)
  }

  lemma PrintedReports(xs: seq<int>, r: Basics)
    requires |xs| > 0 && Summarises(xs, r)
    ensures Reports(xs, Printed(r)) && Describes(xs, Printed(r))
  {
    QuotientCuts(Sum(xs), |xs|);
    QuotientCuts(r.min, 1000000);
    QuotientCuts(r.max, 1000000);
    QuotientCuts(r.avg, 1000000);
    QuotientCuts(r.median, 1000000);
    assert InNanoseconds(xs, r);
    PrintedDescribes(xs, r);
  }

  lemma ThreeIntervals(infos: seq<Timing>)
    ensures Elapsed(infos, Whole) == seq(|infos|, i requires 0 <= i < |infos| => infos[i].end - infos[i].start)
    ensures Elapsed(infos, Endorsements) ==
              seq(|infos|, i requires 0 <= i < |infos| => infos[i].endorsementsEnd - infos[i].endorsementsStart)
    ensures Elapsed(infos, Validations) ==
              seq(|infos|, i requires 0 <= i < |infos| => infos[i].validationEnd - infos[i].validationStart)
  {
  }

  lemma PrintedDominates(infos: seq<Timing>, total: Basics, endorse: Basics, validate: Basics)
    requires |infos| > 0 && forall i :: 0 <= i < |infos| ==> Stamped(infos[i])
    requires Summarises(Elapsed(infos, Whole), total)
    requires Summarises(Elapsed(infos, Endorsements), endorse)
    requires Summarises(Elapsed(infos, Validations), validate)
    ensures Dominates(infos, Printed(total), Printed(endorse), Printed(validate))
  {
    TotalDominates(infos, total, endorse, validate);
    forall i | 0 <= i < |infos| ensures Elapsed(infos, Endorsements)[i] >= 0 && Elapsed(infos, Validations)[i] >= 0 {
      StampedDominates(infos, i);
    }
    NotNegative(Elapsed(infos, Endorsements), endorse);
    NotNegative(Elapsed(infos, Validations), validate);
    CutOfSum(endorse.avg, validate.avg, total.avg);
    CutKeepsOrder(endorse.max, total.max);
    CutKeepsOrder(validate.max, total.max);
    if exists i :: 0 <= i < |infos| && Elapsed(infos, Whole)[i] <= CAP {
      CutOfSum(endorse.min, validate.min, total.min);
    }
  }

  /** The three lines printed after a simulation with at least one transaction. */
  method PrintStats(infos: seq<Timing>) returns (total: Basics, endorse: Basics, validate: Basics)
    requires |infos| > 0
    ensures var xs := seq(|infos|, i requires 0 <= i < |infos| => infos[i].end - infos[i].start);
      Reports(xs, total) && Describes(xs, total)
    ensures var xs :=
        seq(|infos|, i requires 0 <= i < |infos| => infos[i].endorsementsEnd - infos[i].endorsementsStart);
      Reports(xs, endorse) && Describes(xs, endorse)
    ensures var xs := seq(|infos|, i requires 0 <= i < |infos| => infos[i].validationEnd - infos[i].validationStart);
      Reports(xs, validate) && Describes(xs, validate)
    ensures (forall i :: 0 <= i < |infos| ==> Stamped(infos[i])) ==> Dominates(infos, total, endorse, validate)
  {
    var t := TimingBasics(infos, Whole);
    var e := TimingBasics(infos, Endorsements);
    var v := TimingBasics(infos, Validations);
    total, endorse, validate := Printed(t), Printed(e), Printed(v);
    ThreeIntervals(infos);
    PrintedReports(Elapsed(infos, Whole), t);
    PrintedReports(Elapsed(infos, Endorsements), e);
    PrintedReports(Elapsed(infos, Validations), v);
    if forall i :: 0 <= i < |infos| ==> Stamped(infos[i]) {
      PrintedDominates(infos, t, e, v);
    }
  }
}
