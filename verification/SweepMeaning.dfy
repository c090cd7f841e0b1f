/** What the slice sweep computes, compared with "which transfers are in flight at this instant".
    Slices are closed at both ends, so a point on an interior boundary is processed twice. */
module SweepMeaning {
  import Arithmetic
  import opened Sums
  import opened Sweep

  /** Transfers that have started by t and not ended by t. */
  predicate InFlight(e: NetworkEvent, t: int) {
    e.start <= t < e.end
  }

  /** The time is an interior slice boundary that the sweep has passed after k slices. */
  ghost predicate OnBoundary(g: Grid, k: nat, time: int) {
    exists j: nat :: 0 < j < k && g.Left(j) == time
  }

  /** No transfer ends before it starts. */
  ghost predicate Forward(log: seq<NetworkEvent>) {
    forall i :: 0 <= i < |log| ==> log[i].start <= log[i].end
  }

  ghost predicate WellFormed(log: seq<NetworkEvent>) {
    && Forward(log)
    && (forall i, j :: 0 <= i < j < |log| ==> log[i].id != log[j].id)
  }

  // ---- how often a point is processed

  ghost function Crossings(g: Grid, k: nat, time: int): nat {
    if k == 0 then 0 else Crossings(g, k - 1, time) + One(g.Left(k - 1) <= time <= g.Right(k - 1))
  }

  lemma {:induction false} LeftGrows(g: Grid, j: nat, k: nat)
    requires g.width > 0 && j <= k
    ensures g.Left(j) <= g.Left(k) && (j < k ==> g.Left(j) < g.Left(k))
  {
    if j < k {
      LeftGrows(g, j, k - 1);
    }
  }

  lemma {:induction false} CrossingsAre(g: Grid, k: nat, time: int)
    requires g.width > 0 && k > 0 && g.origin <= time
    ensures Crossings(g, k, time) == One(time <= g.Left(k)) + One(OnBoundary(g, k, time))
  {
    if k == 1 {
      assert Crossings(g, 0, time) == 0;
    } else {
      CrossingsAre(g, k - 1, time);
      BoundaryStep(g, k - 1, time);
      if OnBoundary(g, k - 1, time) {
        var j: nat :| 0 < j < k - 1 && g.Left(j) == time;
        LeftGrows(g, j, k - 1);
      }
    }
  }

  lemma BoundaryStep(g: Grid, k: nat, time: int)
    requires k > 0
    ensures OnBoundary(g, k + 1, time) <==> OnBoundary(g, k, time) || time == g.Left(k)
  {
    if OnBoundary(g, k + 1, time) {
      var j: nat :| 0 < j < k + 1 && g.Left(j) == time;
    }
    if OnBoundary(g, k, time) {
      var j: nat :| 0 < j < k && g.Left(j) == time;
      assert j < k + 1;
    }
  }

  // ---- counting points

  datatype Query = OfCategory(what: string, starts: bool) | OfTransfer(id: int, starts: bool)

  predicate Asked(q: Query, p: Endpoint) {
    p.starts == q.starts && match q case OfCategory(what, _) => p.what == what case OfTransfer(id, _) => p.id == id
  }

  function Tally(points: seq<Endpoint>, q: Query): nat {
    if points == [] then 0 else One(Asked(q, points[0])) + Tally(points[1..], q)
  }

  lemma {:induction false} TallyConcat(xs: seq<Endpoint>, ys: seq<Endpoint>, q: Query)
    ensures Tally(xs + ys, q) == Tally(xs, q) + Tally(ys, q)
  {
    if xs == [] {
      assert xs + ys == ys;
    } else {
      assert (xs + ys)[1..] == xs[1..] + ys;
      TallyConcat(xs[1..], ys, q);
    }
  }

  /** Points asked for within [lo, hi]. */
  function TallyIn(points: seq<Endpoint>, q: Query, lo: int, hi: int): nat {
    if points == [] then 0 else One(Asked(q, points[0]) && Within(points[0], lo, hi)) + TallyIn(points[1..], q, lo, hi)
  }

  lemma {:induction false} TallyInterval(points: seq<Endpoint>, q: Query, lo: int, hi: int)
    ensures Tally(InInterval(points, lo, hi), q) == TallyIn(points, q, lo, hi)
  {
    if points != [] {
      TallyInterval(points[1..], q, lo, hi);
      TallyConcat(if Within(points[0], lo, hi) then [points[0]] else [], InInterval(points[1..], lo, hi), q);
    }
  }

  lemma {:induction false} TallyInsert(p: Endpoint, points: seq<Endpoint>, q: Query, lo: int, hi: int)
    ensures TallyIn(Insert(p, points), q, lo, hi) == TallyIn([p] + points, q, lo, hi)
  {
    assert ([p] + points)[1..] == points;
    if points != [] && p.when > points[0].when {
      TallyInsert(p, points[1..], q, lo, hi);
      assert ([p] + points[1..])[1..] == points[1..];
      assert ([points[0]] + Insert(p, points[1..]))[1..] == Insert(p, points[1..]);
    }
  }

  /** The order of the points does not matter. */
  lemma {:induction false} TallyOrdered(points: seq<Endpoint>, q: Query, lo: int, hi: int)
    ensures TallyIn(OrderByWhen(points), q, lo, hi) == TallyIn(points, q, lo, hi)
  {
    if points != [] {
      TallyOrdered(points[1..], q, lo, hi);
      TallyInsert(points[0], OrderByWhen(points[1..]), q, lo, hi);
      assert ([points[0]] + OrderByWhen(points[1..]))[1..] == OrderByWhen(points[1..]);
    }
  }

  function TimeOf(e: NetworkEvent, starts: bool): int {
    if starts then e.start else e.end
  }

  predicate Concerns(q: Query, e: NetworkEvent) {
    match q case OfCategory(what, _) => e.what == what case OfTransfer(id, _) => e.id == id
  }

  function LogTally(log: seq<NetworkEvent>, q: Query, lo: int, hi: int): nat {
    if log == [] then 0
    else One(Concerns(q, log[0]) && lo <= TimeOf(log[0], q.starts) <= hi) + LogTally(log[1..], q, lo, hi)
  }

  lemma {:induction false} TallyEndpoints(log: seq<NetworkEvent>, q: Query, lo: int, hi: int)
    ensures TallyIn(Endpoints(log), q, lo, hi) == LogTally(log, q, lo, hi)
  {
    if log != [] {
      TallyEndpoints(log[1..], q, lo, hi);
      var points := Endpoints(log);
      assert points[1..][1..] == Endpoints(log[1..]);
    }
  }

  lemma SliceTally(log: seq<NetworkEvent>, slice: int, k: nat, q: Query)
    requires log != []
    ensures var g := GridOf(log, slice); Tally(g.Slice(k), q) == LogTally(log, q, g.Left(k), g.Right(k))
  {
    var g := GridOf(log, slice);
    TallyInterval(g.points, q, g.Left(k), g.Right(k));
    TallyOrdered(Endpoints(log), q, g.Left(k), g.Right(k));
    TallyEndpoints(log, q, g.Left(k), g.Right(k));
  }

  lemma {:induction false} DeltaIsTally(points: seq<Endpoint>, category: string)
    ensures Delta(points, category) ==
              Tally(points, OfCategory(category, true)) - Tally(points, OfCategory(category, false))
  {
    if points != [] {
      DeltaIsTally(points[1..], category);
    }
  }

  // ---- the counters

  function CountInFlight(log: seq<NetworkEvent>, category: string, t: int): nat {
    if log == [] then 0
    else One(log[0].what == category && InFlight(log[0], t)) + CountInFlight(log[1..], category, t)
  }

  /** Points of a category that lie on interior boundaries passed after k slices. */
  ghost function CountOnBoundary(log: seq<NetworkEvent>, g: Grid, k: nat, category: string, starts: bool): nat {
    if log == [] then 0
    else One(log[0].what == category && OnBoundary(g, k, TimeOf(log[0], starts)))
         + CountOnBoundary(log[1..], g, k, category, starts)
  }

  ghost function CountCrossings(log: seq<NetworkEvent>, g: Grid, k: nat, category: string, starts: bool): nat {
    if log == [] then 0
    else (if log[0].what == category then Crossings(g, k, TimeOf(log[0], starts)) else 0)
         + CountCrossings(log[1..], g, k, category, starts)
  }

  lemma {:induction false} CrossingsStep(log: seq<NetworkEvent>, g: Grid, k: nat, category: string, starts: bool)
    ensures CountCrossings(log, g, k + 1, category, starts)
         == CountCrossings(log, g, k, category, starts)
            + LogTally(log, OfCategory(category, starts), g.Left(k), g.Right(k))
  {
    if log != [] {
      CrossingsStep(log[1..], g, k, category, starts);
    }
  }

  lemma {:induction false} NoCrossings(log: seq<NetworkEvent>, g: Grid, category: string, starts: bool)
    ensures CountCrossings(log, g, 0, category, starts) == 0
  {
    if log != [] {
      NoCrossings(log[1..], g, category, starts);
    }
  }

  lemma CrossingsMove(log: seq<NetworkEvent>, g: Grid, k: nat, category: string)
    ensures CountCrossings(log, g, k + 1, category, true) - CountCrossings(log, g, k + 1, category, false)
         == CountCrossings(log, g, k, category, true) - CountCrossings(log, g, k, category, false)
            + LogTally(log, OfCategory(category, true), g.Left(k), g.Right(k))
            - LogTally(log, OfCategory(category, false), g.Left(k), g.Right(k))
  {
    CrossingsStep(log, g, k, category, true);
    CrossingsStep(log, g, k, category, false);
  }

  /** The balance of slice k is that of the log's points within its edges. */
  ghost predicate SliceCounts(log: seq<NetworkEvent>, g: Grid, k: nat, category: string) {
    Delta(g.Slice(k), category)
    == LogTally(log, OfCategory(category, true), g.Left(k), g.Right(k))
       - LogTally(log, OfCategory(category, false), g.Left(k), g.Right(k))
  }

  lemma SliceDelta(log: seq<NetworkEvent>, slice: int, k: nat, category: string)
    requires log != []
    ensures SliceCounts(log, GridOf(log, slice), k, category)
  {
    DeltaIsTally(GridOf(log, slice).Slice(k), category);
    SliceTally(log, slice, k, OfCategory(category, true));
    SliceTally(log, slice, k, OfCategory(category, false));
  }

  lemma {:induction false} SlicesAddUp(log: seq<NetworkEvent>, g: Grid, k: nat, category: string)
    requires forall j: nat :: j < k ==> SliceCounts(log, g, j, category)
    ensures g.Current(category, k) ==
              CountCrossings(log, g, k, category, true) - CountCrossings(log, g, k, category, false)
  {
    if k == 0 {
      NoCrossings(log, g, category, true);
      NoCrossings(log, g, category, false);
    } else {
      SlicesAddUp(log, g, k - 1, category);
      assert SliceCounts(log, g, k - 1, category);
      CrossingsMove(log, g, k - 1, category);
    }
  }

  lemma CurrentIsCrossings(log: seq<NetworkEvent>, slice: int, k: nat, category: string)
    requires log != []
    ensures var g := GridOf(log, slice);
      g.Current(category, k) == CountCrossings(log, g, k, category, true) - CountCrossings(log, g, k, category, false)
  {
    forall j: nat | j < k ensures SliceCounts(log, GridOf(log, slice), j, category) {
      SliceDelta(log, slice, j, category);
    }
    SlicesAddUp(log, GridOf(log, slice), k, category);
  }

  lemma {:induction false} CrossingsBalance(log: seq<NetworkEvent>, g: Grid, k: nat, category: string)
    requires g.width > 0 && k > 0
    requires forall i :: 0 <= i < |log| ==> g.origin <= log[i].start <= log[i].end
    ensures CountCrossings(log, g, k, category, true) - CountCrossings(log, g, k, category, false)
         == CountInFlight(log, category, g.Left(k))
            + CountOnBoundary(log, g, k, category, true) - CountOnBoundary(log, g, k, category, false)
  {
    if log != [] {
      CrossingsBalance(log[1..], g, k, category);
      assert g.origin <= log[0].start <= log[0].end;
      CrossingsAre(g, k, log[0].start);
      CrossingsAre(g, k, log[0].end);
    }
  }

  lemma {:induction false} EndpointsMember(log: seq<NetworkEvent>, i: nat)
    requires i < |log|
    ensures ToInterval(log[i], true) in Endpoints(log) && ToInterval(log[i], false) in Endpoints(log)
  {
    var points := Endpoints(log);
    if i == 0 {
      assert points[0] == ToInterval(log[0], true) && points[1] == ToInterval(log[0], false);
    } else {
      EndpointsMember(log[1..], i - 1);
      assert points == [points[0], points[1]] + Endpoints(log[1..]);
    }
  }

  lemma {:induction false} InsertMembers(p: Endpoint, points: seq<Endpoint>)
    ensures forall x :: x in Insert(p, points) <==> x == p || x in points
  {
    if points != [] && p.when > points[0].when {
      InsertMembers(p, points[1..]);
      assert points == [points[0]] + points[1..];
    }
  }

  lemma {:induction false} OrderMembers(points: seq<Endpoint>)
    ensures forall x :: x in OrderByWhen(points) <==> x in points
  {
    if points != [] {
      OrderMembers(points[1..]);
      InsertMembers(points[0], OrderByWhen(points[1..]));
      assert points == [points[0]] + points[1..];
    }
  }

  /** Every transfer of the log lies between the origin of the grid and its latest point. */
  lemma LogSpan(log: seq<NetworkEvent>, slice: int)
    requires log != []
    ensures var g := GridOf(log, slice);
      forall i :: 0 <= i < |log| ==>
        g.origin <= log[i].start <= Latest(g.points) && g.origin <= log[i].end <= Latest(g.points)
  {
    var g := GridOf(log, slice);
    forall i | 0 <= i < |log|
      ensures g.origin <= log[i].start <= Latest(g.points) && g.origin <= log[i].end <= Latest(g.points)
    {
      EndpointsMember(log, i);
      OrderMembers(Endpoints(log));
      assert ToInterval(log[i], true) in g.points && ToInterval(log[i], false) in g.points;
    }
  }

  /** The chart's counter after k slices: what is in flight at the slice's right edge, plus the starts and
      minus the ends that landed exactly on an earlier right edge. */
  lemma CounterClosedForm(log: seq<NetworkEvent>, slice: int, k: nat, category: string)
    requires log != [] && Forward(log) && slice > 0 && k > 0
    ensures var g := GridOf(log, slice);
      g.Current(category, k) == CountInFlight(log, category, g.Left(k))
        + CountOnBoundary(log, g, k, category, true) - CountOnBoundary(log, g, k, category, false)
  {
    CurrentIsCrossings(log, slice, k, category);
    LogSpan(log, slice);
    CrossingsBalance(log, GridOf(log, slice), k, category);
  }

  lemma {:induction false} NothingInFlight(log: seq<NetworkEvent>, category: string, t: int)
    requires forall i :: 0 <= i < |log| ==> log[i].end <= t
    ensures CountInFlight(log, category, t) == 0
  {
    if log != [] {
      NothingInFlight(log[1..], category, t);
    }
  }

  lemma CursorReachesEnd(g: Grid)
    requires Reaches(g) && g.width > 0
    ensures g.Left(SliceCount(g)) >= Latest(g.points)
  {
    var n, span := SliceCount(g), Latest(g.points) - g.origin;
    LeftIs(g, n);
    assert span + g.width - 1 == n * g.width + (span + g.width - 1) % g.width;
  }

  /** After the last slice a counter holds only the boundary error: it is back at zero exactly when as
      many starts as ends of its category landed on interior boundaries. */
  lemma CounterReturnsToZeroIff(log: seq<NetworkEvent>, slice: int, category: string)
    requires log != [] && Forward(log) && slice > 0 && SliceCount(GridOf(log, slice)) > 0
    ensures var g := GridOf(log, slice);
      var n := SliceCount(g);
      g.Current(category, n) == 0 <==>
        CountOnBoundary(log, g, n, category, true) == CountOnBoundary(log, g, n, category, false)
  {
    var g := GridOf(log, slice);
    CounterClosedForm(log, slice, SliceCount(g), category);
    CursorReachesEnd(g);
    LogSpan(log, slice);
    NothingInFlight(log, category, g.Left(SliceCount(g)));
  }

  // ---- the order of the points

  ghost predicate InOrderOfTime(points: seq<Endpoint>) {
    forall i, j :: 0 <= i < j < |points| ==> points[i].when <= points[j].when
  }

  /** The points of one moment, in the order in which they are listed. */
  function PointsAt(points: seq<Endpoint>, time: int): seq<Endpoint> {
    if points == [] then []
    else (if points[0].when == time then [points[0]] else []) + PointsAt(points[1..], time)
  }

  lemma NotBefore(p: Endpoint, points: seq<Endpoint>)
    requires InOrderOfTime([p] + points)
    ensures InOrderOfTime(points) && forall x :: x in points ==> p.when <= x.when
  {
    var all := [p] + points;
    assert forall i :: 0 <= i < |points| ==> points[i] == all[i + 1];
    forall x | x in points ensures p.when <= x.when {
      var i :| 0 <= i < |points| && points[i] == x;
      assert all[0] == p && all[i + 1] == x;
    }
  }

  lemma PutFirst(p: Endpoint, points: seq<Endpoint>)
    requires InOrderOfTime(points) && forall x :: x in points ==> p.when <= x.when
    ensures InOrderOfTime([p] + points)
  {
    var all := [p] + points;
    assert forall i :: 1 <= i < |all| ==> all[i] == points[i - 1] && points[i - 1] in points;
  }

  lemma {:induction false} InsertKeepsOrder(p: Endpoint, points: seq<Endpoint>)
    requires InOrderOfTime(points)
    ensures InOrderOfTime(Insert(p, points))
  {
    if points != [] {
      var first, rest := points[0], points[1..];
      assert points == [first] + rest;
      NotBefore(first, rest);
      if p.when <= first.when {
        PutFirst(p, points);
      } else {
        InsertKeepsOrder(p, rest);
        InsertMembers(p, rest);
        PutFirst(first, Insert(p, rest));
      }
    }
  }

  lemma {:induction false} InsertKeepsMoments(p: Endpoint, points: seq<Endpoint>, time: int)
    ensures PointsAt(Insert(p, points), time) == (if p.when == time then [p] else []) + PointsAt(points, time)
  {
    if points == [] || p.when <= points[0].when {
      assert ([p] + points)[1..] == points;
    } else {
      InsertKeepsMoments(p, points[1..], time);
      assert ([points[0]] + Insert(p, points[1..]))[1..] == Insert(p, points[1..]);
    }
  }

  /** The sort is by time, and stable: points of one moment stay in the order of the log. */
  lemma {:induction false} OrderIsStable(points: seq<Endpoint>, time: int)
    ensures InOrderOfTime(OrderByWhen(points))
    ensures PointsAt(OrderByWhen(points), time) == PointsAt(points, time)
  {
    if points != [] {
      OrderIsStable(points[1..], time);
      InsertKeepsOrder(points[0], OrderByWhen(points[1..]));
      InsertKeepsMoments(points[0], OrderByWhen(points[1..]), time);
    }
  }

  // ---- the active list

  lemma {:induction false} TallyRemoveId(active: seq<Endpoint>, id: int, other: int)
    ensures Tally(RemoveId(active, id), OfTransfer(other, true))
         == if other == id then 0 else Tally(active, OfTransfer(other, true))
  {
    if active != [] {
      TallyRemoveId(active[1..], id, other);
      TallyConcat(if active[0].id == id then [] else [active[0]], RemoveId(active[1..], id), OfTransfer(other, true));
    }
  }

  lemma {:induction false} TallyRemoveEnded(active: seq<Endpoint>, points: seq<Endpoint>, id: int)
    ensures Tally(RemoveEnded(active, points), OfTransfer(id, true))
         == if Tally(points, OfTransfer(id, false)) > 0 then 0 else Tally(active, OfTransfer(id, true))
    decreases points
  {
    if points != [] {
      var active' := if points[0].starts then active else RemoveId(active, points[0].id);
      TallyRemoveEnded(active', points[1..], id);
      if !points[0].starts {
        TallyRemoveId(active, points[0].id, id);
      }
    }
  }

  lemma {:induction false} TallyStarting(points: seq<Endpoint>, id: int)
    ensures Tally(Starting(points), OfTransfer(id, true)) == Tally(points, OfTransfer(id, true))
  {
    if points != [] {
      TallyStarting(points[1..], id);
      TallyConcat(if points[0].starts then [points[0]] else [], Starting(points[1..]), OfTransfer(id, true));
    }
  }

  lemma {:induction false} ForeignTransfer(log: seq<NetworkEvent>, id: int, starts: bool, lo: int, hi: int)
    requires forall i :: 0 <= i < |log| ==> log[i].id != id
    ensures LogTally(log, OfTransfer(id, starts), lo, hi) == 0
  {
    if log != [] {
      ForeignTransfer(log[1..], id, starts, lo, hi);
    }
  }

  lemma {:induction false} OwnTransfer(log: seq<NetworkEvent>, i: nat, starts: bool, lo: int, hi: int)
    requires WellFormed(log) && i < |log|
    ensures LogTally(log, OfTransfer(log[i].id, starts), lo, hi) == One(lo <= TimeOf(log[i], starts) <= hi)
  {
    if i == 0 {
      ForeignTransfer(log[1..], log[0].id, starts, lo, hi);
    } else {
      OwnTransfer(log[1..], i - 1, starts, lo, hi);
    }
  }

  /** How often a transfer occurs in the active list after k slices. */
  ghost function Multiplicity(g: Grid, k: nat, e: NetworkEvent): nat {
    if k > 0 && InFlight(e, g.Left(k)) then 1 + One(OnBoundary(g, k, e.start)) else 0
  }

  /** What slice k does to the number of times a transfer is listed. */
  ghost predicate Relists(g: Grid, k: nat, e: NetworkEvent) {
    Tally(g.Active(k + 1), OfTransfer(e.id, true))
    == if g.Left(k) <= e.end <= g.Right(k) then 0
       else Tally(g.Active(k), OfTransfer(e.id, true)) + One(g.Left(k) <= e.start <= g.Right(k))
  }

  lemma ActiveStep(log: seq<NetworkEvent>, slice: int, k: nat, i: nat)
    requires log != [] && WellFormed(log) && i < |log|
    ensures Relists(GridOf(log, slice), k, log[i])
  {
    var g, e := GridOf(log, slice), log[i];
    var points := g.Slice(k);
    TallyRemoveEnded(g.Active(k) + Starting(points), points, e.id);
    TallyConcat(g.Active(k), Starting(points), OfTransfer(e.id, true));
    TallyStarting(points, e.id);
    SliceTally(log, slice, k, OfTransfer(e.id, true));
    SliceTally(log, slice, k, OfTransfer(e.id, false));
    OwnTransfer(log, i, true, g.Left(k), g.Right(k));
    OwnTransfer(log, i, false, g.Left(k), g.Right(k));
  }

  lemma ListedNext(g: Grid, k: nat, e: NetworkEvent)
    requires g.width > 0 && g.origin <= e.start <= e.end && Relists(g, k, e)
    requires Tally(g.Active(k), OfTransfer(e.id, true)) == Multiplicity(g, k, e)
    ensures Tally(g.Active(k + 1), OfTransfer(e.id, true)) == Multiplicity(g, k + 1, e)
  {
    MultiplicityStep(g, k, e);
  }

  lemma {:induction false} ListedWhileInFlight(g: Grid, k: nat, e: NetworkEvent)
    requires g.width > 0 && g.origin <= e.start <= e.end
    requires forall j: nat :: j < k ==> Relists(g, j, e)
    ensures Tally(g.Active(k), OfTransfer(e.id, true)) == Multiplicity(g, k, e)
  {
    if k > 0 {
      ListedWhileInFlight(g, k - 1, e);
      ListedNext(g, k - 1, e);
    }
  }

  /** After the slice with right edge r the active list holds exactly the transfers with start <= r < end;
      one that started on an earlier right edge is listed twice. */
  lemma ActiveIsInFlight(log: seq<NetworkEvent>, slice: int, k: nat, i: nat)
    requires log != [] && WellFormed(log) && slice > 0 && i < |log|
    ensures var g := GridOf(log, slice);
      Tally(g.Active(k), OfTransfer(log[i].id, true)) == Multiplicity(g, k, log[i])
  {
    forall j: nat | j < k ensures Relists(GridOf(log, slice), j, log[i]) {
      ActiveStep(log, slice, j, i);
    }
    SpanOf(log, slice, i);
    ListedWhileInFlight(GridOf(log, slice), k, log[i]);
  }

  lemma SpanOf(log: seq<NetworkEvent>, slice: int, i: nat)
    requires log != [] && WellFormed(log) && slice > 0 && i < |log|
    ensures var g := GridOf(log, slice); g.width > 0 && g.origin <= log[i].start <= log[i].end
  {
    LogSpan(log, slice);
  }

  lemma MultiplicityStep(g: Grid, k: nat, e: NetworkEvent)
    requires g.width > 0 && g.origin <= e.start <= e.end
    ensures Multiplicity(g, k + 1, e)
      == if g.Left(k) <= e.end <= g.Right(k) then 0
         else Multiplicity(g, k, e) + One(g.Left(k) <= e.start <= g.Right(k))
  {
    if k > 0 {
      BoundaryStep(g, k, e.start);
      BoundaryInPast(g, k, e.start);
    }
    BoundaryInPast(g, k + 1, e.start);
  }

  lemma BoundaryInPast(g: Grid, k: nat, time: int)
    requires g.width > 0
    ensures OnBoundary(g, k, time) ==> time < g.Left(k)
  {
    if j: nat :| 0 < j < k && g.Left(j) == time {
      LeftGrows(g, j, k);
    }
  }

  // ---- what the active list is made of

  ghost predicate IsStart(log: seq<NetworkEvent>, p: Endpoint) {
    exists i :: 0 <= i < |log| && p == ToInterval(log[i], true)
  }

  /** A list of starts of transfers of the log. */
  ghost predicate StartsOf(log: seq<NetworkEvent>, active: seq<Endpoint>) {
    forall p :: p in active ==> IsStart(log, p)
  }

  lemma {:induction false} RemoveIdMembers(active: seq<Endpoint>, id: int)
    ensures forall p :: p in RemoveId(active, id) ==> p in active
  {
    if active != [] {
      RemoveIdMembers(active[1..], id);
      assert active == [active[0]] + active[1..];
    }
  }

  lemma {:induction false} RemoveEndedMembers(active: seq<Endpoint>, points: seq<Endpoint>)
    ensures forall p :: p in RemoveEnded(active, points) ==> p in active
    decreases points
  {
    if points != [] {
      var active' := if points[0].starts then active else RemoveId(active, points[0].id);
      RemoveEndedMembers(active', points[1..]);
      RemoveIdMembers(active, points[0].id);
    }
  }

  lemma {:induction false} StartingMembers(points: seq<Endpoint>)
    ensures forall p :: p in Starting(points) ==> p in points && p.starts
  {
    if points != [] {
      StartingMembers(points[1..]);
      assert points == [points[0]] + points[1..];
    }
  }

  lemma {:induction false} IntervalMembers(points: seq<Endpoint>, lo: int, hi: int)
    ensures forall p :: p in InInterval(points, lo, hi) ==> p in points
  {
    if points != [] {
      IntervalMembers(points[1..], lo, hi);
      assert points == [points[0]] + points[1..];
    }
  }

  lemma {:induction false} EndpointsOnly(log: seq<NetworkEvent>)
    ensures forall p :: p in Endpoints(log) && p.starts ==> IsStart(log, p)
  {
    if log != [] {
      EndpointsOnly(log[1..]);
      forall p | p in Endpoints(log) && p.starts ensures IsStart(log, p) {
        if p == ToInterval(log[0], true) {
          assert 0 < |log|;
        } else {
          assert p in Endpoints(log[1..]);
          var i :| 0 <= i < |log[1..]| && p == ToInterval(log[1..][i], true);
          assert log[i + 1] == log[1..][i];
        }
      }
    }
  }

  lemma SliceStarts(log: seq<NetworkEvent>, slice: int, k: nat)
    requires log != []
    ensures StartsOf(log, Starting(GridOf(log, slice).Slice(k)))
  {
    var g := GridOf(log, slice);
    StartingMembers(g.Slice(k));
    IntervalMembers(g.points, g.Left(k), g.Right(k));
    OrderMembers(Endpoints(log));
    EndpointsOnly(log);
  }

  lemma ConcatStarts(log: seq<NetworkEvent>, xs: seq<Endpoint>, ys: seq<Endpoint>)
    requires StartsOf(log, xs) && StartsOf(log, ys)
    ensures StartsOf(log, xs + ys)
  {
  }

  lemma FewerStarts(log: seq<NetworkEvent>, xs: seq<Endpoint>, points: seq<Endpoint>)
    requires StartsOf(log, xs)
    ensures StartsOf(log, RemoveEnded(xs, points))
  {
    RemoveEndedMembers(xs, points);
  }

  lemma {:induction false} ActiveStartsOf(log: seq<NetworkEvent>, g: Grid, k: nat)
    requires forall j: nat :: j < k ==> StartsOf(log, Starting(g.Slice(j)))
    ensures StartsOf(log, g.Active(k))
  {
    if k > 0 {
      ActiveStartsOf(log, g, k - 1);
      ConcatStarts(log, g.Active(k - 1), Starting(g.Slice(k - 1)));
      FewerStarts(log, g.Active(k - 1) + Starting(g.Slice(k - 1)), g.Slice(k - 1));
    }
  }

  lemma ActiveStarts(log: seq<NetworkEvent>, slice: int, k: nat)
    requires log != []
    ensures StartsOf(log, GridOf(log, slice).Active(k))
  {
    forall j: nat | j < k ensures StartsOf(log, Starting(GridOf(log, slice).Slice(j))) {
      SliceStarts(log, slice, j);
    }
    ActiveStartsOf(log, GridOf(log, slice), k);
  }

  lemma {:induction false} MemberTally(active: seq<Endpoint>, p: Endpoint)
    requires p in active && p.starts
    ensures Tally(active, OfTransfer(p.id, true)) > 0
  {
    if active[0] != p {
      assert active == [active[0]] + active[1..];
      MemberTally(active[1..], p);
    }
  }

  /** After the last slice nothing is active. */
  lemma ActiveEndsEmpty(log: seq<NetworkEvent>, slice: int)
    requires log != [] && WellFormed(log) && slice > 0
    ensures var g := GridOf(log, slice); g.Active(SliceCount(g)) == []
  {
    var g := GridOf(log, slice);
    var active := g.Active(SliceCount(g));
    ActiveStarts(log, slice, SliceCount(g));
    forall i | 0 <= i < |log| ensures Tally(active, OfTransfer(log[i].id, true)) == 0 {
      NoneActiveAtEnd(log, slice, i);
    }
    if |active| > 0 {
      assert active[0] in active;
      assert IsStart(log, active[0]);
      MemberTally(active, active[0]);
    }
  }

  lemma NoneActiveAtEnd(log: seq<NetworkEvent>, slice: int, i: nat)
    requires log != [] && WellFormed(log) && slice > 0 && i < |log|
    ensures var g := GridOf(log, slice); Tally(g.Active(SliceCount(g)), OfTransfer(log[i].id, true)) == 0
  {
    var g := GridOf(log, slice);
    ActiveIsInFlight(log, slice, SliceCount(g), i);
    CursorReachesEnd(g);
    LogSpan(log, slice);
  }

  // ---- latencies

  /** Sum over the log of multiplicity times the latency of a transfer. */
  ghost function Weighted(log: seq<NetworkEvent>, active: seq<Endpoint>, l: Latency): int {
    if log == [] then 0
    else Tally(active, OfTransfer(log[0].id, true)) * TicksOf(l, log[0].size, log[0].end - log[0].start)
         + Weighted(log[1..], active, l)
  }

  lemma {:induction false} WeightedNone(log: seq<NetworkEvent>, l: Latency)
    ensures Weighted(log, [], l) == 0
  {
    if log != [] {
      WeightedNone(log[1..], l);
    }
  }

  lemma {:induction false} WeightedSkip(log: seq<NetworkEvent>, p: Endpoint, rest: seq<Endpoint>, l: Latency)
    requires forall i :: 0 <= i < |log| ==> log[i].id != p.id
    ensures Weighted(log, [p] + rest, l) == Weighted(log, rest, l)
  {
    assert ([p] + rest)[1..] == rest;
    if log != [] {
      WeightedSkip(log[1..], p, rest, l);
    }
  }

  lemma WeightedHead(log: seq<NetworkEvent>, rest: seq<Endpoint>, l: Latency)
    requires WellFormed(log) && log != []
    ensures Weighted(log, [ToInterval(log[0], true)] + rest, l)
         == Weighted(log, rest, l) + TicksOf(l, log[0].size, log[0].end - log[0].start)
  {
    var p, q := ToInterval(log[0], true), OfTransfer(log[0].id, true);
    assert ([p] + rest)[1..] == rest;
    assert Tally([p] + rest, q) == 1 + Tally(rest, q);
    WeightedSkip(log[1..], p, rest, l);
    OneMore(Tally(rest, q), TicksOf(l, log[0].size, log[0].end - log[0].start));
  }

  lemma OneMore(n: nat, v: int)
    ensures (1 + n) * v == v + n * v
  {
  }

  lemma {:induction false} WeightedCons(log: seq<NetworkEvent>, i: nat, rest: seq<Endpoint>, l: Latency)
    requires WellFormed(log) && i < |log|
    ensures Weighted(log, [ToInterval(log[i], true)] + rest, l)
         == Weighted(log, rest, l) + TicksOf(l, log[i].size, log[i].end - log[i].start)
  {
    if i == 0 {
      WeightedHead(log, rest, l);
    } else {
      var p, q := ToInterval(log[i], true), OfTransfer(log[0].id, true);
      assert ([p] + rest)[1..] == rest;
      assert Tally([p] + rest, q) == Tally(rest, q);
      WeightedCons(log[1..], i - 1, rest, l);
    }
  }

  lemma {:induction false} ListWeights(log: seq<NetworkEvent>, active: seq<Endpoint>, l: Latency)
    requires WellFormed(log) && StartsOf(log, active)
    ensures TotalTicks(l, active) == Weighted(log, active, l)
  {
    if active == [] {
      WeightedNone(log, l);
    } else {
      assert active == [active[0]] + active[1..];
      assert forall p :: p in active[1..] ==> p in active;
      ListWeights(log, active[1..], l);
      assert active[0] in active;
      assert IsStart(log, active[0]);
      var i :| 0 <= i < |log| && active[0] == ToInterval(log[i], true);
      WeightedCons(log, i, active[1..], l);
    }
  }

  lemma {:induction false} EachCounts(active: seq<Endpoint>)
    ensures TotalTicks(Each, active) == |active|
  {
    if active != [] {
      EachCounts(active[1..]);
    }
  }

  /** Sum over the transfers in flight, with multiplicity. */
  ghost function InFlightSum(log: seq<NetworkEvent>, g: Grid, k: nat, l: Latency): int {
    if log == [] then 0
    else Multiplicity(g, k, log[0]) * TicksOf(l, log[0].size, log[0].end - log[0].start)
         + InFlightSum(log[1..], g, k, l)
  }

  lemma {:induction false} WeightedInFlight(log: seq<NetworkEvent>, g: Grid, k: nat, active: seq<Endpoint>, l: Latency)
    requires forall i :: 0 <= i < |log| ==> Tally(active, OfTransfer(log[i].id, true)) == Multiplicity(g, k, log[i])
    ensures Weighted(log, active, l) == InFlightSum(log, g, k, l)
  {
    if log != [] {
      WeightedInFlight(log[1..], g, k, active, l);
    }
  }

  lemma ActiveTicks(log: seq<NetworkEvent>, slice: int, k: nat, l: Latency)
    requires log != [] && WellFormed(log) && slice > 0
    ensures var g := GridOf(log, slice); TotalTicks(l, g.Active(k)) == InFlightSum(log, g, k, l)
  {
    var g := GridOf(log, slice);
    ActiveStarts(log, slice, k);
    ListWeights(log, g.Active(k), l);
    forall i | 0 <= i < |log|
      ensures Tally(g.Active(k), OfTransfer(log[i].id, true)) == Multiplicity(g, k, log[i])
    {
      ActiveIsInFlight(log, slice, k, i);
    }
    WeightedInFlight(log, g, k, g.Active(k), l);
  }

  /** A latency shown for a slice, real or ideal, is the mean over the transfers in flight at its right edge,
      in which a transfer that started on an earlier right edge counts twice. */
  lemma LatencyIsWeightedMean(log: seq<NetworkEvent>, slice: int, k: nat, l: Latency)
    requires log != [] && WellFormed(log) && slice > 0
    ensures var g := GridOf(log, slice);
      var n := InFlightSum(log, g, k, Each);
      && |g.Active(k)| == n
      && AverageTicks(l, g.Active(k)) == if n == 0 then 0 else Rounded(InFlightSum(log, g, k, l), n)
  {
    ActiveTicks(log, slice, k, Each);
    ActiveTicks(log, slice, k, l);
    EachCounts(GridOf(log, slice).Active(k));
  }

  /** A rounded average is within half a tick of the exact one, and halfway between two ticks it is even. */
  lemma RoundedIsNearest(total: int, n: nat)
    requires n > 0
    ensures var r := Rounded(total, n);
      && 0 - n <= 2 * (r * n - total) <= n
      && (2 * (r * n - total) == n || 2 * (total - r * n) == n ==> r % 2 == 0)
  {
    var q, rest := total / n, total % n;
    assert total == q * n + rest;
    assert (q + 1) * n == q * n + n;
  }

  // ---- witnesses

  /** Two transfers, the second of which starts on the first interior boundary of slices of this width. */
  function BoundaryLog(slice: nat): seq<NetworkEvent> {
    var w := slice * TICKS_PER_MILLISECOND;
    [NetworkEvent(1, "transaction", 0, 3 * w, 0, 1), NetworkEvent(2, "transaction", w, 3 * w, 0, 1)]
  }

  lemma {:induction false} EndpointsWithin(log: seq<NetworkEvent>, lo: int, hi: int)
    requires forall i :: 0 <= i < |log| ==> lo <= log[i].start <= hi && lo <= log[i].end <= hi
    ensures forall p :: p in Endpoints(log) ==> lo <= p.when <= hi
  {
    if log != [] {
      EndpointsWithin(log[1..], lo, hi);
    }
  }

  /** The sweep starts at the least and ends at the greatest time of the log. */
  lemma SpanIs(log: seq<NetworkEvent>, slice: int, lo: int, hi: int, a: nat, b: nat)
    requires forall i :: 0 <= i < |log| ==> lo <= log[i].start <= hi && lo <= log[i].end <= hi
    requires a < |log| && log[a].start == lo && b < |log| && log[b].end == hi
    ensures GridOf(log, slice).origin == lo && Latest(GridOf(log, slice).points) == hi
  {
    EndpointsWithin(log, lo, hi);
    OrderMembers(Endpoints(log));
    LogSpan(log, slice);
    var points := GridOf(log, slice).points;
    assert forall i :: 0 <= i < |points| ==> points[i] in points;
  }

  lemma BoundaryGrid(slice: nat)
    requires slice > 0
    ensures var g, w := GridOf(BoundaryLog(slice), slice), slice * TICKS_PER_MILLISECOND;
      && WellFormed(BoundaryLog(slice))
      && g.origin == 0 && g.width == w && SliceCount(g) == 3
      && g.Left(1) == w && g.Left(2) == 2 * w && g.Left(3) == 3 * w
  {
    SpanIs(BoundaryLog(slice), slice, 0, 3 * slice * TICKS_PER_MILLISECOND, 0, 0);
    ThreeSlices(GridOf(BoundaryLog(slice), slice), slice * TICKS_PER_MILLISECOND);
  }

  lemma ThreeSlices(g: Grid, w: nat)
    requires g.points != [] && g.origin == 0 && g.width == w > 0 && Latest(g.points) == 3 * w
    ensures SliceCount(g) == 3 && g.Left(1) == w && g.Left(2) == 2 * w && g.Left(3) == 3 * w
  {
    Arithmetic.Euclid(3 * w - 0 + w - 1, 3, w - 1, w);
    assert g.Left(0) == 0 && g.Left(1) == w && g.Left(2) == 2 * w && g.Left(3) == 3 * w;
  }

  /** A transfer that starts on a boundary is listed twice while it is in flight, and one that does not once. */
  lemma ListedTwice(slice: nat)
    requires slice > 0
    ensures var log := BoundaryLog(slice);
      var active := GridOf(log, slice).Active(2);
      Tally(active, OfTransfer(2, true)) == 2 && Tally(active, OfTransfer(1, true)) == 1
  {
    var log, g := BoundaryLog(slice), GridOf(BoundaryLog(slice), slice);
    BoundaryGrid(slice);
    ActiveIsInFlight(log, slice, 2, 0);
    ActiveIsInFlight(log, slice, 2, 1);
    FirstBoundary(g, log[0].start);
    FirstBoundary(g, log[1].start);
  }

  /** And it leaves its counter at one after the last slice, although nothing is in flight any more. */
  lemma CounterStaysUp(slice: nat)
    requires slice > 0
    ensures var g := GridOf(BoundaryLog(slice), slice);
      g.Active(SliceCount(g)) == [] && g.Current("transaction", SliceCount(g)) == 1
  {
    var log, g := BoundaryLog(slice), GridOf(BoundaryLog(slice), slice);
    BoundaryGrid(slice);
    ActiveEndsEmpty(log, slice);
    CounterClosedForm(log, slice, 3, "transaction");
    NothingInFlight(log, "transaction", g.Left(3));
    InteriorBoundaries(g, 0);
    InteriorBoundaries(g, log[1].start);
    InteriorBoundaries(g, log[0].end);
    assert log[1..] == [log[1]] && log[1..][1..] == [];
    assert CountOnBoundary(log[1..], g, 3, "transaction", true) == 1;
    assert CountOnBoundary(log[1..], g, 3, "transaction", false) == 0;
  }

  lemma FirstBoundary(g: Grid, time: int)
    ensures OnBoundary(g, 2, time) <==> time == g.Left(1)
  {
    BoundaryStep(g, 1, time);
    assert !OnBoundary(g, 1, time);
  }

  lemma InteriorBoundaries(g: Grid, time: int)
    ensures OnBoundary(g, 3, time) <==> time == g.Left(1) || time == g.Left(2)
  {
    BoundaryStep(g, 2, time);
    FirstBoundary(g, time);
  }
}
