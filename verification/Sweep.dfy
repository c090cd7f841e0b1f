/** The network analyzer's slice sweep: running counters and a list of active transfers, updated slice
    by slice, as the chart builder does it. */
module Sweep {
  import opened Arithmetic

  const TICKS_PER_MILLISECOND := 10000

  datatype NetworkEvent = NetworkEvent(id: int, what: string, start: int, end: int, size: int, localBandwidth: int)

  datatype Endpoint = Endpoint(id: int, what: string, when: int, starts: bool, elapsed: int, size: int)

  datatype ChartData = ChartData(
    intervals: seq<int>,
    barCategories: set<string>,
    barData: map<string, seq<int>>,
    latencyIdeal: seq<real>,
    latencyReal: seq<real>)

  datatype Result<T> = Success(value: T) | EmptyLog | NoBandwidth

  function ToInterval(e: NetworkEvent, starts: bool): Endpoint {
    Endpoint(e.id, e.what, if starts then e.start else e.end, starts, e.end - e.start, e.size)
  }

  function Endpoints(log: seq<NetworkEvent>): (points: seq<Endpoint>)
    ensures log != [] ==> points != []
  {
    if log == [] then []
    else [ToInterval(log[0], true), ToInterval(log[0], false)] + Endpoints(log[1..])
  }

  /** The position of a point in a list ordered by time: after all points that are not later. */
  function Insert(p: Endpoint, points: seq<Endpoint>): (r: seq<Endpoint>)
    ensures |r| == |points| + 1
  {
    if points == [] || p.when <= points[0].when then [p] + points
    else [points[0]] + Insert(p, points[1..])
  }

  /** The stable sort by time (OrderBy). */
  function OrderByWhen(points: seq<Endpoint>): (r: seq<Endpoint>)
    ensures |r| == |points|
  {
    if points == [] then [] else Insert(points[0], OrderByWhen(points[1..]))
  }

  predicate Within(p: Endpoint, lo: int, hi: int) {
    lo <= p.when <= hi
  }

  function InInterval(points: seq<Endpoint>, lo: int, hi: int): seq<Endpoint> {
    if points == [] then []
    else (if Within(points[0], lo, hi) then [points[0]] else []) + InInterval(points[1..], lo, hi)
  }

  function Sign(p: Endpoint): int {
    if p.starts then 1 else -1
  }

  /** Starts minus ends of a category among the points. */
  function Delta(points: seq<Endpoint>, category: string): int {
    if points == [] then 0
    else (if points[0].what == category then Sign(points[0]) else 0) + Delta(points[1..], category)
  }

  function Starting(points: seq<Endpoint>): seq<Endpoint> {
    if points == [] then []
    else (if points[0].starts then [points[0]] else []) + Starting(points[1..])
  }

  function RemoveId(active: seq<Endpoint>, id: int): seq<Endpoint> {
    if active == [] then []
    else (if active[0].id == id then [] else [active[0]]) + RemoveId(active[1..], id)
  }

  /** RemoveAll, once for every end among the points. */
  function RemoveEnded(active: seq<Endpoint>, points: seq<Endpoint>): seq<Endpoint>
    decreases points
  {
    if points == [] then active
    else RemoveEnded(if points[0].starts then active else RemoveId(active, points[0].id), points[1..])
  }

  /** A sweep: the ordered points, its origin and the width of its slices. */
  datatype Grid = Grid(points: seq<Endpoint>, origin: int, width: int) {
    function Left(k: nat): int { if k == 0 then origin else Left(k - 1) + width }

    function Right(k: nat): int { Left(k) + width }

    function Slice(k: nat): seq<Endpoint> { InInterval(points, Left(k), Right(k)) }

    /** current[category] after slices 0 .. k - 1. */
    function Current(category: string, k: nat): int {
      if k == 0 then 0 else Current(category, k - 1) + Delta(Slice(k - 1), category)
    }

    /** active after slices 0 .. k - 1. */
    function Active(k: nat): seq<Endpoint> {
      if k == 0 then [] else RemoveEnded(Active(k - 1) + Starting(Slice(k - 1)), Slice(k - 1))
    }
  }

  /** What is averaged over the active transfers: the elapsed ticks, or the ticks the transfer would take alone
      on the local bandwidth; or just their number. */
  datatype Latency = Each | Real | Ideal(bandwidth: int)

  /** Division that cuts towards zero. */
  function Truncated(x: int, y: int): int
    requires y != 0
  {
    var q := (if x < 0 then -x else x) / (if y < 0 then -y else y);
    if (x < 0) == (y < 0) then q else -q
  }

  function TicksOf(l: Latency, size: int, elapsed: int): int {
    match l
    case Each => 1
    case Real => elapsed
    case Ideal(bandwidth) => if bandwidth == 0 then 0 else Truncated(1000 * TICKS_PER_MILLISECOND * size, bandwidth)
  }

  function TotalTicks(l: Latency, active: seq<Endpoint>): int {
    if active == [] then 0 else TicksOf(l, active[0].size, active[0].elapsed) + TotalTicks(l, active[1..])
  }

  /** The average to the nearest tick, and to the even one from halfway. */
  function AverageTicks(l: Latency, active: seq<Endpoint>): int {
    if active == [] then 0 else Rounded(TotalTicks(l, active), |active|)
  }

  function Rounded(total: int, n: nat): int
    requires n > 0
  {
    var q, r := total / n, total % n;
    if 2 * r < n || (2 * r == n && q % 2 == 0) then q else q + 1
  }

  function Milliseconds(ticks: int): real {
    ticks as real / 10000.0
  }

  function Earliest(points: seq<Endpoint>): (t: int)
    requires points != []
    ensures exists i :: 0 <= i < |points| && points[i].when == t
    ensures forall i :: 0 <= i < |points| ==> t <= points[i].when
  {
    if |points| == 1 then points[0].when
    else
      var rest := Earliest(points[1..]);
      if points[0].when <= rest then points[0].when else rest
  }

  function Latest(points: seq<Endpoint>): (t: int)
    requires points != []
    ensures exists i :: 0 <= i < |points| && points[i].when == t
    ensures forall i :: 0 <= i < |points| ==> points[i].when <= t
  {
    if |points| == 1 then points[0].when
    else
      var rest := Latest(points[1..]);
      if rest <= points[0].when then points[0].when else rest
  }

  function GridOf(log: seq<NetworkEvent>, slice: int): (g: Grid)
    requires log != []
    ensures g.points != [] && g.origin <= Latest(g.points)
  {
    var points := OrderByWhen(Endpoints(log));
    Grid(points, Earliest(points), slice * TICKS_PER_MILLISECOND)
  }

  /** The cursor gets from the earliest to the latest point: it moves forward, or it need not move. */
  predicate Reaches(g: Grid) {
    && g.points != [] && g.origin <= Latest(g.points)
    && (g.width > 0 || g.origin == Latest(g.points))
  }

  /** ceil((latest - earliest) / width). */
  function SliceCount(g: Grid): nat
    requires Reaches(g)
  {
    if g.origin == Latest(g.points) then 0 else (Latest(g.points) - g.origin + g.width - 1) / g.width
  }

  lemma {:induction false} LeftIs(g: Grid, k: nat)
    ensures g.Left(k) == g.origin + k * g.width
  {
    if k > 0 {
      LeftIs(g, k - 1);
      assert k * g.width == (k - 1) * g.width + g.width;
    }
  }

  lemma CeilingIs(span: nat, width: nat, n: nat)
    requires width > 0 && span <= n * width && (n > 0 ==> (n - 1) * width < span)
    ensures (span + width - 1) / width == n
  {
    if n == 0 {
      Euclid(span + width - 1, 0, width - 1, width);
    } else {
      assert n * width == (n - 1) * width + width;
      Euclid(span + width - 1, n, span - (n - 1) * width - 1, width);
    }
  }

  /** The cursor runs past the latest point after exactly SliceCount slices. */
  lemma CursorStops(g: Grid, n: nat)
    requires Reaches(g)
    requires g.Left(n) >= Latest(g.points) && (n > 0 ==> g.width > 0 && g.Left(n - 1) < Latest(g.points))
    ensures n == SliceCount(g)
  {
    LeftIs(g, n);
    if n > 0 {
      LeftIs(g, n - 1);
      CeilingIs(Latest(g.points) - g.origin, g.width, n);
      assert g.origin == Latest(g.points) ==> n * g.width == (n - 1) * g.width + g.width && (n - 1) * g.width >= 0;
    }
  }

  /** While the cursor is before the latest point, slices are left. */
  lemma CursorRuns(g: Grid, n: nat)
    requires Reaches(g) && g.width > 0 && g.Left(n) < Latest(g.points)
    ensures n < SliceCount(g)
  {
    LeftIs(g, n);
    var x := Latest(g.points) - g.origin + g.width - 1;
    assert x >= n * g.width + g.width == (n + 1) * g.width;
    Quotients((n + 1) * g.width, x, g.width);
    Euclid((n + 1) * g.width, n + 1, 0, g.width);
  }

  function BarCategories(log: seq<NetworkEvent>): (categories: set<string>)
    ensures forall c :: c in categories <==>
              c != "nonce" && c != "cred-request" && exists i :: 0 <= i < |log| && log[i].what == c
  {
    set i | 0 <= i < |log| && log[i].what != "nonce" && log[i].what != "cred-request" :: log[i].what
  }

  /** One slice of the counters: add the slice's balance and log the new value. */
  method CountSlice(inInterval: seq<Endpoint>, categories: set<string>,
                    current: map<string, int>, barData: map<string, seq<int>>)
    returns (current': map<string, int>, barData': map<string, seq<int>>)
    requires current.Keys == barData.Keys == categories
    ensures current'.Keys == barData'.Keys == categories
    ensures forall c :: c in categories ==>
              && current'[c] == current[c] + Delta(inInterval, c)
              && barData'[c] == barData[c] + [current'[c]]
  {
    current', barData' := current, barData;
    var todo := categories;
    while todo != {}
      invariant todo <= categories
      invariant current'.Keys == barData'.Keys == categories
      invariant forall c :: c in todo ==> current'[c] == current[c] && barData'[c] == barData[c]
      invariant forall c :: c in categories - todo ==>
                  current'[c] == current[c] + Delta(inInterval, c) && barData'[c] == barData[c] + [current'[c]]
    {
      var category :| category in todo;
      current' := current'[category := current'[category] + Delta(inInterval, category)];
      barData' := barData'[category := barData'[category] + [current'[category]]];
      todo := todo - {category};
    }
  }

  /** One slice of the active list: all its starts are added, then every ended transfer is removed. */
  method UpdateActive(active: seq<Endpoint>, inInterval: seq<Endpoint>) returns (active': seq<Endpoint>)
    ensures active' == RemoveEnded(active + Starting(inInterval), inInterval)
  {
    active' := active + Starting(inInterval);
    for i := 0 to |inInterval|
      invariant RemoveEnded(active', inInterval[i..]) == RemoveEnded(active + Starting(inInterval), inInterval)
    {
      var ended := inInterval[i];
      assert inInterval[i..][1..] == inInterval[i + 1..];
      if !ended.starts {
        active' := RemoveId(active', ended.id);
      }
    }
  }

  /** The counter of a category after each of the first n slices. */
  function CounterSeries(g: Grid, category: string, n: nat): (data: seq<int>)
    ensures |data| == n
  {
    if n == 0 then [] else CounterSeries(g, category, n - 1) + [g.Current(category, n)]
  }

  /** In milliseconds, the average over what is active after each of the first n slices. */
  function LatencySeries(g: Grid, l: Latency, n: nat): (data: seq<real>)
    ensures |data| == n
  {
    if n == 0 then [] else LatencySeries(g, l, n - 1) + [Milliseconds(AverageTicks(l, g.Active(n)))]
  }

  /** The left edge of each of the first n slices. */
  function EdgeSeries(g: Grid, n: nat): (data: seq<int>)
    ensures |data| == n
  {
    if n == 0 then [] else EdgeSeries(g, n - 1) + [g.Left(n - 1)]
  }

  lemma {:induction false} EdgesGrow(g: Grid, m: nat, n: nat)
    requires m <= n
    ensures EdgeSeries(g, m) <= EdgeSeries(g, n)
  {
    if m < n {
      EdgesGrow(g, m, n - 1);
    }
  }

  lemma {:induction false} CountersGrow(g: Grid, category: string, m: nat, n: nat)
    requires m <= n
    ensures CounterSeries(g, category, m) <= CounterSeries(g, category, n)
  {
    if m < n {
      CountersGrow(g, category, m, n - 1);
    }
  }

  lemma LatencyAdded(g: Grid, l: Latency, n: nat)
    ensures LatencySeries(g, l, n) <= LatencySeries(g, l, n + 1)
  {
  }

  lemma {:induction false} LatenciesGrow(g: Grid, l: Latency, m: nat, n: nat)
    requires m <= n
    ensures LatencySeries(g, l, m) <= LatencySeries(g, l, n)
  {
    if m < n {
      LatenciesGrow(g, l, m, n - 1);
      LatencyAdded(g, l, n - 1);
    }
  }

  /** A series only grows, so that its entry k is the one that slice k has added. */
  lemma SeriesGrow(g: Grid, category: string, l: Latency, m: nat, n: nat)
    requires m <= n
    ensures EdgeSeries(g, m) <= EdgeSeries(g, n)
    ensures CounterSeries(g, category, m) <= CounterSeries(g, category, n)
    ensures LatencySeries(g, l, m) <= LatencySeries(g, l, n)
  {
    EdgesGrow(g, m, n);
    CountersGrow(g, category, m, n);
    LatenciesGrow(g, l, m, n);
  }

  /** What the chart shows after n slices. */
  ghost predicate Charted(g: Grid, categories: set<string>, bandwidth: int, n: nat, chart: ChartData) {
    && chart.barCategories == chart.barData.Keys == categories
    && chart.intervals == EdgeSeries(g, n)
    && chart.latencyIdeal == LatencySeries(g, Ideal(bandwidth), n)
    && chart.latencyReal == LatencySeries(g, Real, n)
    && (forall c :: c in categories ==> chart.barData[c] == CounterSeries(g, c, n))
  }

  /** The chart with one more slice. */
  function Extended(chart: ChartData, cursor: int, barData: map<string, seq<int>>, active: seq<Endpoint>,
                    bandwidth: int): ChartData {
    ChartData(
      chart.intervals + [cursor],
      chart.barCategories,
      barData,
      chart.latencyIdeal + [Milliseconds(AverageTicks(Ideal(bandwidth), active))],
      chart.latencyReal + [Milliseconds(AverageTicks(Real, active))])
  }

  ghost predicate Counted(g: Grid, categories: set<string>, n: nat, current: map<string, int>) {
    current.Keys == categories && forall c :: c in categories ==> current[c] == g.Current(c, n)
  }

  lemma SliceDone(g: Grid, categories: set<string>, n: nat, current: map<string, int>, current': map<string, int>,
                  inInterval: seq<Endpoint>)
    requires Counted(g, categories, n, current) && inInterval == g.Slice(n) && current'.Keys == categories
    requires forall c :: c in categories ==> current'[c] == current[c] + Delta(inInterval, c)
    ensures Counted(g, categories, n + 1, current')
    ensures g.Active(n + 1) == RemoveEnded(g.Active(n) + Starting(inInterval), inInterval)
  {
  }

  lemma ChartedNext(g: Grid, categories: set<string>, bandwidth: int, n: nat, chart: ChartData,
                    current: map<string, int>, barData: map<string, seq<int>>)
    requires Charted(g, categories, bandwidth, n, chart) && Counted(g, categories, n + 1, current)
    requires barData.Keys == categories
    requires forall c :: c in categories ==> barData[c] == chart.barData[c] + [current[c]]
    ensures Charted(g, categories, bandwidth, n + 1, Extended(chart, g.Left(n), barData, g.Active(n + 1), bandwidth))
  {
    forall c | c in categories ensures barData[c] == CounterSeries(g, c, n + 1) {
      assert chart.barData[c] == CounterSeries(g, c, n);
    }
  }

  /** One turn of the main loop. */
  method SweepSlice(g: Grid, categories: set<string>, bandwidth: int, ghost n: nat, cursor: int,
                    current: map<string, int>, active: seq<Endpoint>, chart: ChartData)
    returns (current': map<string, int>, active': seq<Endpoint>, chart': ChartData)
    requires cursor == g.Left(n) && active == g.Active(n) && Counted(g, categories, n, current)
    requires Charted(g, categories, bandwidth, n, chart)
    ensures active' == g.Active(n + 1) && Counted(g, categories, n + 1, current')
    ensures Charted(g, categories, bandwidth, n + 1, chart')
  {
    var inInterval := InInterval(g.points, cursor, cursor + g.width);
    var barData;
    current', barData := CountSlice(inInterval, categories, current, chart.barData);
    active' := UpdateActive(active, inInterval);
    SliceDone(g, categories, n, current, current', inInterval);
    ChartedNext(g, categories, bandwidth, n, chart, current', barData);
    chart' := Extended(chart, cursor, barData, active', bandwidth);
  }

  /** Some of the first n slices ends with an active transfer. */
  predicate SomeActive(g: Grid, n: nat) {
    n > 0 && (SomeActive(g, n - 1) || g.Active(n) != [])
  }

  /** The counters and the chart before the first slice. */
  method EmptyChart(g: Grid, categories: set<string>, bandwidth: int)
    returns (current: map<string, int>, chart: ChartData)
    ensures Counted(g, categories, 0, current) && Charted(g, categories, bandwidth, 0, chart)
  {
    current := map c | c in categories :: 0;
    chart := ChartData([], categories, map c | c in categories :: [], [], []);
  }

  lemma ActiveNext(g: Grid, bandwidth: int, n: nat, active: seq<Endpoint>)
    requires !(bandwidth == 0 && SomeActive(g, n)) && active == g.Active(n + 1)
    ensures bandwidth == 0 && active != [] <==> bandwidth == 0 && SomeActive(g, n + 1)
  {
  }

  /** The main loop, from the earliest point until the cursor has reached the latest or a division by zero ends
      it; n is the number of turns it has made. */
  method SweepLoop(g: Grid, categories: set<string>, bandwidth: int, last: int)
    returns (divided: bool, chart: ChartData, ghost n: nat)
    requires g.width > 0 || g.origin >= last
    ensures Charted(g, categories, bandwidth, n, chart)
    ensures divided || g.Left(n) >= last
    ensures divided <==> bandwidth == 0 && SomeActive(g, n)
    ensures n > 0 ==> g.width > 0 && g.Left(n - 1) < last
  {
    var current;
    current, chart := EmptyChart(g, categories, bandwidth);
    var active: seq<Endpoint> := [];
    divided := false;
    var cursor := g.origin;
    n := 0;
    while !divided && cursor < last
      invariant cursor == g.Left(n) && (n > 0 ==> g.width > 0 && g.Left(n - 1) < last)
      invariant active == g.Active(n) && Counted(g, categories, n, current)
      invariant Charted(g, categories, bandwidth, n, chart)
      invariant divided <==> bandwidth == 0 && SomeActive(g, n)
      decreases last - cursor
    {
      current, active, chart := SweepSlice(g, categories, bandwidth, n, cursor, current, active, chart);
      ActiveNext(g, bandwidth, n, active);
      divided := bandwidth == 0 && active != [];
      n := n + 1;
      cursor := cursor + g.width;
    }
  }

  lemma {:induction false} StaysActive(g: Grid, n: nat, m: nat)
    requires SomeActive(g, n) && n <= m
    ensures SomeActive(g, m)
  {
    if n < m {
      StaysActive(g, n, m - 1);
    }
  }

  lemma SweepFails(g: Grid, n: nat)
    requires Reaches(g) && g.width > 0
    requires n > 0 && g.Left(n - 1) < Latest(g.points) && SomeActive(g, n)
    ensures SomeActive(g, SliceCount(g))
  {
    var m := SliceCount(g);
    CursorRuns(g, n - 1);
    StaysActive(g, n, m);
  }

  /** A latency of some slice would be divided by a bandwidth of zero. */
  predicate Divides(g: Grid, bandwidth: int)
    requires Reaches(g)
  {
    bandwidth == 0 && SomeActive(g, SliceCount(g))
  }

  lemma SweepEnds(g: Grid, bandwidth: int, n: nat, divided: bool)
    requires Reaches(g)
    requires divided || g.Left(n) >= Latest(g.points)
    requires divided <==> bandwidth == 0 && SomeActive(g, n)
    requires n > 0 ==> g.width > 0 && g.Left(n - 1) < Latest(g.points)
    ensures divided <==> Divides(g, bandwidth)
    ensures !divided ==> n == SliceCount(g)
  {
    if divided {
      SweepFails(g, n);
    } else {
      CursorStops(g, n);
    }
  }

  /** The chart builder. */
  method NetworkUsageStackedBarChart(log: seq<NetworkEvent>, slice: int) returns (result: Result<ChartData>)
    requires log == [] || Reaches(GridOf(log, slice))      // otherwise the loop does not end
    ensures result.EmptyLog? <==> log == []
    ensures result.NoBandwidth? <==> log != [] && Divides(GridOf(log, slice), log[0].localBandwidth)
    ensures result.Success? ==>
              var g := GridOf(log, slice);
              Charted(g, BarCategories(log), log[0].localBandwidth, SliceCount(g), result.value)
  {
    if log == [] {
      return EmptyLog;
    }
    var g, categories, bandwidth := GridOf(log, slice), BarCategories(log), log[0].localBandwidth;
    var divided, chart, n := SweepLoop(g, categories, bandwidth, Latest(g.points));
    SweepEnds(g, bandwidth, n, divided);
    return if divided then NoBandwidth else Success(chart);
  }
}
