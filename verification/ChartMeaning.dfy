/** What the finished chart shows, in the fields of the log and the edges of the chart itself. */
module ChartMeaning {
  import opened Sums
  import opened Sweep
  import opened SweepMeaning

  // ---- the shape of the chart

  /** The chart that the builder returns for this log. */
  ghost predicate ChartOf(log: seq<NetworkEvent>, slice: int, chart: ChartData) {
    && log != [] && Reaches(GridOf(log, slice))
    && Charted(GridOf(log, slice), BarCategories(log), log[0].localBandwidth, SliceCount(GridOf(log, slice)), chart)
  }

  lemma {:induction false} EdgeAt(g: Grid, n: nat, k: nat)
    requires k < n
    ensures EdgeSeries(g, n)[k] == g.Left(k)
  {
    if k < n - 1 {
      EdgeAt(g, n - 1, k);
    }
  }

  lemma {:induction false} CounterAt(g: Grid, category: string, n: nat, k: nat)
    requires k < n
    ensures CounterSeries(g, category, n)[k] == g.Current(category, k + 1)
  {
    if k < n - 1 {
      CounterAt(g, category, n - 1, k);
    }
  }

  lemma LastLatency(g: Grid, l: Latency, k: nat)
    ensures LatencySeries(g, l, k + 1)[k] == Milliseconds(AverageTicks(l, g.Active(k + 1)))
  {
  }

  lemma LatencyAt(g: Grid, l: Latency, n: nat, k: nat)
    requires k < n
    ensures LatencySeries(g, l, n)[k] == Milliseconds(AverageTicks(l, g.Active(k + 1)))
  {
    LatenciesGrow(g, l, k + 1, n);
    LastLatency(g, l, k);
  }

  /** Every series has one entry per slice, and every slice is slice milliseconds, 10000 ticks each, wide. */
  lemma ChartIsRegular(log: seq<NetworkEvent>, slice: int, chart: ChartData)
    requires ChartOf(log, slice, chart)
    ensures var n := |chart.intervals|;
      && n == |chart.latencyReal| == |chart.latencyIdeal|
      && (forall c :: c in chart.barData ==> |chart.barData[c]| == n)
      && (forall k :: 0 <= k < n ==> chart.intervals[k] == chart.intervals[0] + k * (slice * 10000))
  {
    var g := GridOf(log, slice);
    EdgesAre(g, SliceCount(g), chart.intervals);
  }

  /** The first edge is the earliest time of the log; the last slice is the first to reach the latest time; and there
      is no slice only if nothing takes any time. */
  lemma ChartSpans(log: seq<NetworkEvent>, slice: int, chart: ChartData)
    requires ChartOf(log, slice, chart) && Forward(log) && slice > 0
    ensures var n := |chart.intervals|;
      if n == 0 then forall i, j :: 0 <= i < |log| && 0 <= j < |log| ==> log[i].start == log[j].end
      else
        && (exists i :: 0 <= i < |log| && log[i].start == chart.intervals[0])
        && (forall i :: 0 <= i < |log| ==>
              chart.intervals[0] <= log[i].start <= log[i].end <= chart.intervals[n - 1] + slice * 10000)
        && (exists i :: 0 <= i < |log| && chart.intervals[n - 1] < log[i].end)
  {
    var g := GridOf(log, slice);
    var n := SliceCount(g);
    LogSpan(log, slice);
    if n > 0 {
      EdgeAt(g, n, 0);
      EdgeAt(g, n, n - 1);
      LastSlice(g, n);
      var i := FirstStart(log, slice);
      var j := LastEnd(log, slice);
    } else {
      CursorReachesEnd(g);
    }
  }

  lemma EdgesAre(g: Grid, n: nat, edges: seq<int>)
    requires edges == EdgeSeries(g, n)
    ensures forall k :: 0 <= k < n ==> edges[k] == g.Left(k) == g.origin + k * g.width
  {
    forall k | 0 <= k < n ensures edges[k] == g.Left(k) == g.origin + k * g.width {
      EdgeAt(g, n, k);
      LeftIs(g, k);
    }
  }

  lemma LastSlice(g: Grid, n: nat)
    requires Reaches(g) && g.width > 0 && n == SliceCount(g) > 0
    ensures g.Left(n - 1) < Latest(g.points) <= g.Left(n - 1) + g.width
  {
    CursorReachesEnd(g);
    LeftIs(g, n - 1);
    var span := Latest(g.points) - g.origin;
    var x := span + g.width - 1;
    assert x >= n * g.width && n * g.width == (n - 1) * g.width + g.width;
  }

  /** Some transfer starts at the first point. */
  lemma FirstStart(log: seq<NetworkEvent>, slice: int) returns (i: nat)
    requires log != [] && Forward(log)
    ensures i < |log| && log[i].start == GridOf(log, slice).origin
  {
    var g := GridOf(log, slice);
    LogSpan(log, slice);
    var p :| 0 <= p < |g.points| && g.points[p].when == g.origin;
    i := PointOf(log, slice, g.points[p]);
  }

  /** And some transfer ends at the last. */
  lemma LastEnd(log: seq<NetworkEvent>, slice: int) returns (i: nat)
    requires log != [] && Forward(log)
    ensures i < |log| && log[i].end == Latest(GridOf(log, slice).points)
  {
    var g := GridOf(log, slice);
    LogSpan(log, slice);
    var p :| 0 <= p < |g.points| && g.points[p].when == Latest(g.points);
    i := PointOf(log, slice, g.points[p]);
  }

  lemma PointOf(log: seq<NetworkEvent>, slice: int, p: Endpoint) returns (i: nat)
    requires log != [] && p in GridOf(log, slice).points
    ensures i < |log| && (p.when == log[i].start || p.when == log[i].end)
  {
    OrderMembers(Endpoints(log));
    i := EndpointOf(log, p);
  }

  lemma {:induction false} EndpointOf(log: seq<NetworkEvent>, p: Endpoint) returns (i: nat)
    requires p in Endpoints(log)
    ensures i < |log| && (p.when == log[i].start || p.when == log[i].end)
  {
    if p == ToInterval(log[0], true) || p == ToInterval(log[0], false) {
      i := 0;
    } else {
      assert p in Endpoints(log[1..]);
      i := EndpointOf(log[1..], p);
      i := i + 1;
    }
  }

  // ---- what is averaged

  /** The time falls on the left edge of one of the slices 1 .. k. */
  ghost predicate OnEdge(edges: seq<int>, k: nat, time: int)
    requires k < |edges|
  {
    exists j :: 0 < j <= k && edges[j] == time
  }

  /** How often a transfer counts in slice k: once if it is in flight at the right edge, twice if it also started
      on an earlier edge between two slices. */
  ghost function Listings(edges: seq<int>, slice: int, k: nat, e: NetworkEvent): nat
    requires k < |edges|
  {
    if e.start <= edges[k] + slice * 10000 < e.end then 1 + One(OnEdge(edges, k, e.start)) else 0
  }

  ghost function Listed(log: seq<NetworkEvent>, edges: seq<int>, slice: int, k: nat): nat
    requires k < |edges|
  {
    if log == [] then 0 else Listings(edges, slice, k, log[0]) + Listed(log[1..], edges, slice, k)
  }

  ghost function ElapsedListed(log: seq<NetworkEvent>, edges: seq<int>, slice: int, k: nat): int
    requires k < |edges|
  {
    if log == [] then 0
    else Listings(edges, slice, k, log[0]) * (log[0].end - log[0].start) + ElapsedListed(log[1..], edges, slice, k)
  }

  /** The ticks in 1000 * size / bandwidth milliseconds, cut towards zero. */
  function IdealTicks(size: int, bandwidth: int): int
    requires bandwidth != 0
  {
    var ticks := 10000.0 * (1000.0 * size as real / bandwidth as real);
    if ticks < 0.0 then -(-ticks).Floor else ticks.Floor
  }

  ghost function IdealListed(log: seq<NetworkEvent>, edges: seq<int>, slice: int, k: nat, bandwidth: int): int
    requires k < |edges| && bandwidth != 0
  {
    if log == [] then 0
    else Listings(edges, slice, k, log[0]) * IdealTicks(log[0].size, bandwidth)
         + IdealListed(log[1..], edges, slice, k, bandwidth)
  }

  /** Starts or ends of a category on the edges 1 .. k. */
  ghost function EdgeCount(log: seq<NetworkEvent>, edges: seq<int>, k: nat, category: string, starts: bool): nat
    requires k < |edges|
  {
    if log == [] then 0
    else One(log[0].what == category && OnEdge(edges, k, if starts then log[0].start else log[0].end))
         + EdgeCount(log[1..], edges, k, category, starts)
  }

  // ---- edges and boundaries

  lemma EdgeIsBoundary(g: Grid, edges: seq<int>, k: nat, time: int)
    requires k < |edges| && forall j :: 0 <= j < |edges| ==> edges[j] == g.Left(j)
    ensures OnEdge(edges, k, time) <==> OnBoundary(g, k + 1, time)
  {
    if OnEdge(edges, k, time) {
      var j :| 0 < j <= k && edges[j] == time;
      assert g.Left(j) == time;
    }
    if OnBoundary(g, k + 1, time) {
      var j: nat :| 0 < j < k + 1 && g.Left(j) == time;
      assert edges[j] == time;
    }
  }

  lemma ListingsAre(g: Grid, edges: seq<int>, slice: int, k: nat, e: NetworkEvent)
    requires k < |edges| && g.width == slice * 10000 && forall j :: 0 <= j < |edges| ==> edges[j] == g.Left(j)
    ensures Listings(edges, slice, k, e) == Multiplicity(g, k + 1, e)
  {
    EdgeIsBoundary(g, edges, k, e.start);
  }

  lemma {:induction false} SumsAre(log: seq<NetworkEvent>, g: Grid, edges: seq<int>, slice: int, k: nat)
    requires k < |edges| && g.width == slice * 10000 && forall j :: 0 <= j < |edges| ==> edges[j] == g.Left(j)
    ensures InFlightSum(log, g, k + 1, Each) == Listed(log, edges, slice, k)
    ensures InFlightSum(log, g, k + 1, Real) == ElapsedListed(log, edges, slice, k)
  {
    if log != [] {
      ListingsAre(g, edges, slice, k, log[0]);
      SumsAre(log[1..], g, edges, slice, k);
    }
  }

  lemma {:induction false} IdealSumIs(log: seq<NetworkEvent>, g: Grid, edges: seq<int>, slice: int, k: nat,
                                      bandwidth: int)
    requires k < |edges| && g.width == slice * 10000 && forall j :: 0 <= j < |edges| ==> edges[j] == g.Left(j)
    requires bandwidth != 0
    ensures InFlightSum(log, g, k + 1, Ideal(bandwidth)) == IdealListed(log, edges, slice, k, bandwidth)
  {
    if log != [] {
      ListingsAre(g, edges, slice, k, log[0]);
      IdealTicksAre(log[0].size, bandwidth, log[0].end - log[0].start);
      IdealSumIs(log[1..], g, edges, slice, k, bandwidth);
    }
  }

  lemma QuotientIs(q: real, a: real, b: real)
    requires b != 0.0 && q * b == a
    ensures a / b == q
  {
  }

  lemma CutQuotient(a: nat, b: nat)
    requires b > 0
    ensures (a as real / b as real).Floor == a / b
  {
    var q := a / b;
    assert q * b <= a < q * b + b;
    var r := a as real / b as real;
    assert r * b as real == a as real;
    assert q as real <= r < (q + 1) as real;
  }

  /** The exact quotient of two whole numbers, from those without their signs. */
  lemma SignedQuotient(x: int, b: int, r: real)
    requires b != 0
    requires r * (if b < 0 then -b else b) as real == (if x < 0 then -x else x) as real
    ensures x as real / b as real == if (x < 0) == (b < 0) then r else -r
  {
    var q := if (x < 0) == (b < 0) then r else -r;
    assert q * b as real == x as real;
    QuotientIs(q, x as real, b as real);
  }

  lemma ExactTicks(size: int, bandwidth: int)
    requires bandwidth != 0
    ensures 10000.0 * (1000.0 * size as real / bandwidth as real) == (1000 * 10000 * size) as real / bandwidth as real
  {
    var q := 1000.0 * size as real / bandwidth as real;
    assert q * bandwidth as real == 1000.0 * size as real;
    assert (10000.0 * q) * bandwidth as real == 10000.0 * (q * bandwidth as real);
    QuotientIs(10000.0 * q, (1000 * 10000 * size) as real, bandwidth as real);
  }

  /** Cutting the exact quotient is cutting the division of whole numbers. */
  lemma CutSigned(x: int, b: int)
    requires b != 0
    ensures var ticks := x as real / b as real;
      Truncated(x, b) == if ticks < 0.0 then -(-ticks).Floor else ticks.Floor
  {
    var m, n := if x < 0 then -x else x, if b < 0 then -b else b;
    var r := m as real / n as real;
    assert r * n as real == m as real && r >= 0.0;
    CutQuotient(m, n);
    SignedQuotient(x, b, r);
  }

  lemma IdealTicksAre(size: int, bandwidth: int, elapsed: int)
    requires bandwidth != 0
    ensures TicksOf(Ideal(bandwidth), size, elapsed) == IdealTicks(size, bandwidth)
  {
    ExactTicks(size, bandwidth);
    CutSigned(1000 * 10000 * size, bandwidth);
  }

  lemma {:induction false} BoundaryCounts(log: seq<NetworkEvent>, g: Grid, edges: seq<int>, k: nat, category: string,
                                          starts: bool)
    requires k < |edges| && forall j :: 0 <= j < |edges| ==> edges[j] == g.Left(j)
    ensures EdgeCount(log, edges, k, category, starts) == CountOnBoundary(log, g, k + 1, category, starts)
  {
    if log != [] {
      EdgeIsBoundary(g, edges, k, TimeOf(log[0], starts));
      BoundaryCounts(log[1..], g, edges, k, category, starts);
    }
  }

  // ---- the theorems

  /** The rounded mean, in milliseconds, of n numbers of ticks that add up to this; 0 if there are none. */
  function MeanMilliseconds(total: int, n: nat): real {
    if n == 0 then 0.0 else Rounded(total, n) as real / 10000.0
  }

  lemma MeanOf(log: seq<NetworkEvent>, slice: int, k: nat, l: Latency)
    requires log != [] && WellFormed(log) && slice > 0
    ensures var g := GridOf(log, slice);
      var n := InFlightSum(log, g, k, Each);
      n >= 0 && Milliseconds(AverageTicks(l, g.Active(k))) == MeanMilliseconds(InFlightSum(log, g, k, l), n)
  {
    LatencyIsWeightedMean(log, slice, k, l);
    SomeListed(log, GridOf(log, slice), k);
  }

  lemma EdgesOf(log: seq<NetworkEvent>, slice: int, chart: ChartData)
    requires ChartOf(log, slice, chart)
    ensures var g := GridOf(log, slice);
      && |chart.intervals| == |chart.latencyReal| == |chart.latencyIdeal| == SliceCount(g)
      && g.width == slice * 10000 && forall k :: 0 <= k < |chart.intervals| ==> chart.intervals[k] == g.Left(k)
  {
    EdgesAre(GridOf(log, slice), SliceCount(GridOf(log, slice)), chart.intervals);
  }

  lemma RealEntry(log: seq<NetworkEvent>, slice: int, chart: ChartData, k: nat)
    requires ChartOf(log, slice, chart) && k < SliceCount(GridOf(log, slice)) == |chart.latencyReal|
    ensures chart.latencyReal[k] == Milliseconds(AverageTicks(Real, GridOf(log, slice).Active(k + 1)))
  {
    LatencyAt(GridOf(log, slice), Real, SliceCount(GridOf(log, slice)), k);
  }

  lemma IdealEntry(log: seq<NetworkEvent>, slice: int, chart: ChartData, k: nat)
    requires ChartOf(log, slice, chart) && k < SliceCount(GridOf(log, slice)) == |chart.latencyIdeal|
    ensures chart.latencyIdeal[k] ==
              Milliseconds(AverageTicks(Ideal(log[0].localBandwidth), GridOf(log, slice).Active(k + 1)))
  {
    LatencyAt(GridOf(log, slice), Ideal(log[0].localBandwidth), SliceCount(GridOf(log, slice)), k);
  }

  lemma RealMean(log: seq<NetworkEvent>, g: Grid, edges: seq<int>, slice: int, k: nat, shown: real)
    requires k < |edges| && g.width == slice * 10000 && forall j :: 0 <= j < |edges| ==> edges[j] == g.Left(j)
    requires InFlightSum(log, g, k + 1, Each) >= 0
    requires shown == MeanMilliseconds(InFlightSum(log, g, k + 1, Real), InFlightSum(log, g, k + 1, Each))
    ensures shown == MeanMilliseconds(ElapsedListed(log, edges, slice, k), Listed(log, edges, slice, k))
  {
    SumsAre(log, g, edges, slice, k);
  }

  lemma IdealMean(log: seq<NetworkEvent>, g: Grid, edges: seq<int>, slice: int, k: nat, bandwidth: int, shown: real)
    requires k < |edges| && g.width == slice * 10000 && forall j :: 0 <= j < |edges| ==> edges[j] == g.Left(j)
    requires InFlightSum(log, g, k + 1, Each) >= 0 && bandwidth != 0
    requires shown == MeanMilliseconds(InFlightSum(log, g, k + 1, Ideal(bandwidth)), InFlightSum(log, g, k + 1, Each))
    ensures shown == MeanMilliseconds(IdealListed(log, edges, slice, k, bandwidth), Listed(log, edges, slice, k))
  {
    SumsAre(log, g, edges, slice, k);
    IdealSumIs(log, g, edges, slice, k, bandwidth);
  }

  /** In slice k the chart shows the mean elapsed time, end minus start, of the transfers in flight at its right
      edge. */
  lemma RealLatencyShown(log: seq<NetworkEvent>, slice: int, chart: ChartData, k: nat)
    requires ChartOf(log, slice, chart) && WellFormed(log) && slice > 0 && k < |chart.intervals|
    ensures k < |chart.latencyReal|
    ensures chart.latencyReal[k] ==
              MeanMilliseconds(ElapsedListed(log, chart.intervals, slice, k), Listed(log, chart.intervals, slice, k))
  {
    EdgesOf(log, slice, chart);
    RealEntry(log, slice, chart, k);
    MeanOf(log, slice, k + 1, Real);
    RealMean(log, GridOf(log, slice), chart.intervals, slice, k, chart.latencyReal[k]);
  }

  /** And the mean of the times they would take alone at the bandwidth of the log's first entry. */
  lemma IdealLatencyShown(log: seq<NetworkEvent>, slice: int, chart: ChartData, k: nat)
    requires ChartOf(log, slice, chart) && WellFormed(log) && slice > 0 && k < |chart.intervals|
    requires log[0].localBandwidth != 0
    ensures k < |chart.latencyIdeal|
    ensures chart.latencyIdeal[k] ==
              MeanMilliseconds(IdealListed(log, chart.intervals, slice, k, log[0].localBandwidth),
                               Listed(log, chart.intervals, slice, k))
  {
    EdgesOf(log, slice, chart);
    IdealEntry(log, slice, chart, k);
    MeanOf(log, slice, k + 1, Ideal(log[0].localBandwidth));
    IdealMean(log, GridOf(log, slice), chart.intervals, slice, k, log[0].localBandwidth, chart.latencyIdeal[k]);
  }

  lemma BarEntry(log: seq<NetworkEvent>, slice: int, chart: ChartData, category: string, k: nat)
    requires ChartOf(log, slice, chart) && category in chart.barData && k < SliceCount(GridOf(log, slice))
    ensures category in BarCategories(log) && k < |chart.barData[category]|
    ensures chart.barData[category][k] == GridOf(log, slice).Current(category, k + 1)
  {
    CounterAt(GridOf(log, slice), category, SliceCount(GridOf(log, slice)), k);
  }

  /** The number in flight at the right edge of slice k, plus the starts and minus the ends on earlier edges between
      two slices. */
  ghost function BarOf(log: seq<NetworkEvent>, edges: seq<int>, slice: int, k: nat, category: string): int
    requires k < |edges|
  {
    CountInFlight(log, category, edges[k] + slice * 10000)
    + EdgeCount(log, edges, k, category, true) - EdgeCount(log, edges, k, category, false)
  }

  lemma BarIs(log: seq<NetworkEvent>, g: Grid, edges: seq<int>, slice: int, k: nat, category: string, shown: int)
    requires k < |edges| && g.width == slice * 10000 && forall j :: 0 <= j < |edges| ==> edges[j] == g.Left(j)
    requires shown == CountInFlight(log, category, g.Left(k + 1))
                      + CountOnBoundary(log, g, k + 1, category, true) - CountOnBoundary(log, g, k + 1, category, false)
    ensures shown == BarOf(log, edges, slice, k, category)
  {
    BoundaryCounts(log, g, edges, k, category, true);
    BoundaryCounts(log, g, edges, k, category, false);
  }

  lemma CurrentIs(log: seq<NetworkEvent>, edges: seq<int>, slice: int, k: nat, category: string)
    requires log != [] && Forward(log) && slice > 0
    requires var g := GridOf(log, slice);
      k < |edges| && g.width == slice * 10000 && forall j :: 0 <= j < |edges| ==> edges[j] == g.Left(j)
    ensures GridOf(log, slice).Current(category, k + 1) == BarOf(log, edges, slice, k, category)
  {
    var g := GridOf(log, slice);
    CounterClosedForm(log, slice, k + 1, category);
    BarIs(log, g, edges, slice, k, category, g.Current(category, k + 1));
  }

  /** In slice k the bar of a category is so many. */
  lemma BarsShown(log: seq<NetworkEvent>, slice: int, chart: ChartData, category: string, k: nat)
    requires ChartOf(log, slice, chart) && Forward(log) && slice > 0
    requires category in chart.barData && k < |chart.intervals|
    ensures k < |chart.barData[category]|
    ensures chart.barData[category][k] == BarOf(log, chart.intervals, slice, k, category)
  {
    EdgesOf(log, slice, chart);
    BarEntry(log, slice, chart, category, k);
    CurrentIs(log, chart.intervals, slice, k, category);
  }

  // ---- when the builder divides by zero

  lemma {:induction false} SomeActiveAt(g: Grid, n: nat) returns (k: nat)
    requires SomeActive(g, n)
    ensures 0 < k <= n && g.Active(k) != []
  {
    if SomeActive(g, n - 1) {
      k := SomeActiveAt(g, n - 1);
    } else {
      k := n;
    }
  }

  lemma {:induction false} SomeListed(log: seq<NetworkEvent>, g: Grid, k: nat)
    ensures InFlightSum(log, g, k, Each) > 0 <==> exists i :: 0 <= i < |log| && Multiplicity(g, k, log[i]) > 0
    ensures InFlightSum(log, g, k, Each) >= 0
  {
    if log != [] {
      SomeListed(log[1..], g, k);
      if i :| 0 <= i < |log[1..]| && Multiplicity(g, k, log[1..][i]) > 0 {
        assert log[i + 1] == log[1..][i];
      }
      if i :| 0 < i < |log| && Multiplicity(g, k, log[i]) > 0 {
        assert log[i] == log[1..][i - 1];
      }
    }
  }

  lemma ActiveIff(log: seq<NetworkEvent>, slice: int, k: nat)
    requires log != [] && WellFormed(log) && slice > 0 && k > 0
    ensures var g := GridOf(log, slice);
      g.Active(k) != [] <==> exists i :: 0 <= i < |log| && InFlight(log[i], g.Left(k))
  {
    LatencyIsWeightedMean(log, slice, k, Each);
    SomeListed(log, GridOf(log, slice), k);
  }

  /** It does if and only if the bandwidth of the log's first entry is zero and some transfer is in flight at some
      right edge. */
  lemma DividesIff(log: seq<NetworkEvent>, slice: int)
    requires log != [] && WellFormed(log) && slice > 0 && Reaches(GridOf(log, slice))
    ensures var g := GridOf(log, slice);
      Divides(g, log[0].localBandwidth) <==>
        && log[0].localBandwidth == 0
        && exists k: nat, i :: 0 < k <= SliceCount(g) && 0 <= i < |log| && InFlight(log[i], g.Left(k))
  {
    var g := GridOf(log, slice);
    var n := SliceCount(g);
    if SomeActive(g, n) {
      var k := SomeActiveAt(g, n);
      ActiveIff(log, slice, k);
    }
    if k: nat, i :| 0 < k <= n && 0 <= i < |log| && InFlight(log[i], g.Left(k)) {
      ActiveIff(log, slice, k);
      StaysActive(g, k, n);
    }
  }
}
