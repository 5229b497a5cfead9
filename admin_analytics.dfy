/**
 * The admin analytics page: the user counts shown beside the metrics, and the
 * revenue-per-event histogram whose edges are computed from the data.
 */
module AdminAnalyticsPage {
  import opened Wrappers
  import opened Lists
  import opened Records
  import opened Summaries

  // ---------------------------------------------------------------------
  // User counts

  datatype UserStats = UserStats(activeAdmins: int, activeUsers: int, inactiveCount: int)

  /** `null` without metrics; otherwise admins, active users and the users that are not active. */
  function GetUserStats(metrics: Option<AnalyticsMetrics>): (r: Option<UserStats>)
    ensures r.None? <==> metrics.None?
    ensures r.Some? ==> (r.value.activeAdmins == metrics.value.totalAdmins &&
                         r.value.activeUsers == metrics.value.activeUsers &&
                         r.value.activeUsers + r.value.inactiveCount == metrics.value.totalUsers)
  {
    if metrics.None? then None
    else
      var m := metrics.value;
      Some(UserStats(m.totalAdmins, m.activeUsers, m.totalUsers - m.activeUsers))
  }

  function IsInactive(u: UserData): bool {
    !u.isActive
  }

  /** On the service's metrics the counts are those of admin, active and inactive users, none negative. */
  lemma UserStatsOfService(users: seq<UserData>, sales: seq<Sale>)
    ensures var s := GetUserStats(Some(ComputeMetrics(users, sales))).value;
      s.activeAdmins == Count(users, IsAdminRole) &&
      s.activeUsers == Count(users, IsActive) &&
      s.inactiveCount == Count(users, IsInactive) >= 0
  {
    MetricsFacts(users, sales);
    CountComplement(users, IsActive, IsInactive);
  }

  // ---------------------------------------------------------------------
  // Revenue histogram

  /** `Number(v)`: a finite value, or NaN and the infinities. */
  datatype Num = Finite(v: int) | NonFinite

  /**
   * `data.map(v => Number(v)).filter(v => Number.isFinite(v) && v >= 0)`:
   * every finite non-negative value is kept as often as it occurs, and
   * nothing else is.
   */
  function KeptValues(data: seq<Num>): (r: seq<int>)
    ensures |r| <= |data|
    ensures forall x :: x in r <==> Finite(x) in data && x >= 0
    ensures forall x :: multiset(r)[x] == if x >= 0 then multiset(data)[Finite(x)] else 0
    decreases |data|
  {
    if data == [] then []
    else
      var n := |data| - 1;
      assert data == data[..n] + [data[n]];
      assert multiset(data) == multiset(data[..n]) + multiset{data[n]};
      KeptValues(data[..n]) + if data[n].Finite? && data[n].v >= 0 then [data[n].v] else []
  }

  /** `Math.min(...xs)` */
  function MinOf(xs: seq<int>): (r: int)
    requires |xs| > 0
    ensures r in xs && forall x :: x in xs ==> r <= x
    decreases |xs|
  {
    if |xs| == 1 then xs[0]
    else
      var n := |xs| - 1;
      assert xs == xs[..n] + [xs[n]];
      var m := MinOf(xs[..n]);
      if xs[n] < m then xs[n] else m
  }

  /** `Math.max(...xs)` */
  function MaxOf(xs: seq<int>): (r: int)
    requires |xs| > 0
    ensures r in xs && forall x :: x in xs ==> x <= r
    decreases |xs|
  {
    if |xs| == 1 then xs[0]
    else
      var n := |xs| - 1;
      assert xs == xs[..n] + [xs[n]];
      var m := MaxOf(xs[..n]);
      if xs[n] > m then xs[n] else m
  }

  /** `Math.min(8, Math.max(4, n))` */
  function BinCount(n: nat): (r: nat)
    ensures 4 <= r <= 8
    ensures 4 <= n <= 8 ==> r == n
  {
    if n < 4 then 4 else if n > 8 then 8 else n
  }

  /** `Math.ceil(a / b)` for a non-negative `a` and a positive `b`. */
  function CeilDiv(a: nat, b: nat): (r: nat)
    requires b > 0
    ensures r * b >= a && (r == 0 || (r - 1) * b < a)
  {
    (a + b - 1) / b
  }

  /** `Math.max(1, Math.ceil((max - min) / binCount))` */
  function Width(lo: int, hi: int, binCount: nat): (r: nat)
    requires lo <= hi && binCount > 0
    ensures r >= 1 && r * binCount >= hi - lo
  {
    var c := CeilDiv(hi - lo, binCount);
    if c < 1 then 1 else c
  }

  /** The edges: `min + i * width` for `i` up to `binCount`, the last one raised to at least `max + 1`. */
  function EdgesOf(lo: int, hi: int, binCount: nat, width: nat): (r: seq<int>)
    ensures |r| == binCount + 1
  {
    seq(binCount + 1, i requires 0 <= i <= binCount =>
      if i < binCount then lo + i * width
      else if lo + binCount * width > hi + 1 then lo + binCount * width
      else hi + 1)
  }

  ghost predicate Increasing(e: seq<int>) {
    forall i, j :: 0 <= i < j < |e| ==> e[i] < e[j]
  }

  /** The edges start at the minimum, rise strictly, and end past the maximum. */
  lemma EdgesFacts(lo: int, hi: int, binCount: nat, width: nat)
    requires lo <= hi && binCount >= 1 && width >= 1
    ensures EdgesOf(lo, hi, binCount, width)[0] == lo
    ensures Increasing(EdgesOf(lo, hi, binCount, width))
    ensures EdgesOf(lo, hi, binCount, width)[binCount] >= hi + 1
  {
    var e := EdgesOf(lo, hi, binCount, width);
    forall i, j | 0 <= i < j < |e| ensures e[i] < e[j] {
      assert i * width < j * width by {
        MulStrict(i, j, width);
      }
    }
  }

  lemma MulStrict(i: int, j: int, w: int)
    requires i < j && w >= 1
    ensures i * w < j * w
  {
    assert j * w - i * w == (j - i) * w;
  }

  /** The bin the `forEach` callback increments: the first `i` from `from` on with `edges[i] <= v < edges[i + 1]`, else the last bin. */
  function FirstBin(edges: seq<int>, v: int, from: nat): (r: nat)
    requires |edges| >= 2 && from <= |edges| - 1
    ensures r < |edges| - 1
    decreases |edges| - from
  {
    if from == |edges| - 1 then |edges| - 2
    else if edges[from] <= v < edges[from + 1] then from
    else FirstBin(edges, v, from + 1)
  }

  function BinFor(edges: seq<int>, v: int): (r: nat)
    requires |edges| >= 2
    ensures r < |edges| - 1
  {
    FirstBin(edges, v, 0)
  }

  /** A value at or above `edges[from]` and below the last edge finds its own bin. */
  lemma {:induction false} FirstBinFinds(edges: seq<int>, v: int, from: nat)
    requires |edges| >= 2 && from < |edges| - 1
    requires edges[from] <= v < edges[|edges| - 1]
    ensures edges[FirstBin(edges, v, from)] <= v < edges[FirstBin(edges, v, from) + 1]
    decreases |edges| - from
  {
    if !(edges[from] <= v < edges[from + 1]) {
      FirstBinFinds(edges, v, from + 1);
    }
  }

  /**
   * On rising edges, a value from the first edge up to (not including) the
   * last lies in exactly one bin, and that is the bin it is counted in: the
   * last-bin fallback never fires for it.
   */
  lemma BinForUnique(edges: seq<int>, v: int)
    requires |edges| >= 2 && Increasing(edges)
    requires edges[0] <= v < edges[|edges| - 1]
    ensures edges[BinFor(edges, v)] <= v < edges[BinFor(edges, v) + 1]
    ensures forall j :: 0 <= j < |edges| - 1 && edges[j] <= v < edges[j + 1] ==> j == BinFor(edges, v)
  {
    FirstBinFinds(edges, v, 0);
  }

  /** The callback as a loop with an early `return`. */
  method Place(edges: seq<int>, v: int) returns (b: nat)
    requires |edges| >= 2
    ensures b == BinFor(edges, v)
  {
    var i := 0;
    while i < |edges| - 1
      invariant 0 <= i <= |edges| - 1
      invariant FirstBin(edges, v, i) == BinFor(edges, v)
    {
      if v >= edges[i] && v < edges[i + 1] {
        return i;
      }
      i := i + 1;
    }
    return |edges| - 2;
  }

  /** The counts after the `forEach` over `vs`. */
  function CountsOf(edges: seq<int>, vs: seq<int>): (r: seq<int>)
    requires |edges| >= 2
    ensures |r| == |edges| - 1
    decreases |vs|
  {
    if vs == [] then seq(|edges| - 1, _ => 0)
    else
      var c := CountsOf(edges, vs[..|vs| - 1]);
      var b := BinFor(edges, vs[|vs| - 1]);
      c[b := c[b] + 1]
  }

  function InSpan(lo: int, hi: int): int -> bool {
    v => lo <= v < hi
  }

  ghost predicate Within(edges: seq<int>, vs: seq<int>)
    requires |edges| >= 2
  {
    forall k :: 0 <= k < |vs| ==> edges[0] <= vs[k] < edges[|edges| - 1]
  }

  /** With every value inside the edges, bin `i` counts exactly the values of `[edges[i], edges[i + 1])`. */
  lemma {:induction false} CountsOfBins(edges: seq<int>, vs: seq<int>, i: nat)
    requires |edges| >= 2 && Increasing(edges) && Within(edges, vs) && i < |edges| - 1
    ensures CountsOf(edges, vs)[i] == Count(vs, InSpan(edges[i], edges[i + 1]))
    decreases |vs|
  {
    if vs != [] {
      var n := |vs| - 1;
      assert Within(edges, vs[..n]) by {
        forall k | 0 <= k < n ensures edges[0] <= vs[..n][k] < edges[|edges| - 1] {
          assert vs[..n][k] == vs[k];
        }
      }
      CountsOfBins(edges, vs[..n], i);
      BinForUnique(edges, vs[n]);
    } else {
      assert CountsOf(edges, vs)[i] == 0;
    }
  }

  /** The counts add up to the number of values. */
  lemma {:induction false} CountsOfTotal(edges: seq<int>, vs: seq<int>)
    requires |edges| >= 2
    ensures Sum(CountsOf(edges, vs)) == |vs|
    decreases |vs|
  {
    if vs == [] {
      SumZeros(CountsOf(edges, vs));
    } else {
      var n := |vs| - 1;
      CountsOfTotal(edges, vs[..n]);
      var c := CountsOf(edges, vs[..n]);
      var b := BinFor(edges, vs[n]);
      SumUpdate(c, b, c[b] + 1);
    }
  }

  /** The built chart: its edges, one `[edge, next edge)` span per label, and the counts. */
  datatype RevenueHistogram = RevenueHistogram(edges: seq<int>, labels: seq<(int, int)>, counts: seq<int>)

  /** `edges.slice(0, -1).map((e, i) => [e, edges[i + 1]])`; the rupee text is not modelled. */
  function Spans(edges: seq<int>): (r: seq<(int, int)>)
    requires |edges| >= 1
    ensures |r| == |edges| - 1
  {
    seq(|edges| - 1, i requires 0 <= i < |edges| - 1 => (edges[i], edges[i + 1]))
  }

  /** The edges computed from the kept values. */
  function EdgesFor(values: seq<int>): (r: seq<int>)
    requires |values| > 0
    ensures |r| == BinCount(|values|) + 1
  {
    var lo := MinOf(values);
    var hi := MaxOf(values);
    var binCount := BinCount(|values|);
    EdgesOf(lo, hi, binCount, Width(lo, hi, binCount))
  }

  /** The chart built from the kept values. */
  function Build(values: seq<int>): RevenueHistogram
    requires |values| > 0
  {
    var edges := EdgesFor(values);
    RevenueHistogram(edges, Spans(edges), CountsOf(edges, values))
  }

  /** The histogram of the data, or `None` when no value survives the filter. */
  function HistogramOf(data: seq<Num>): Option<RevenueHistogram> {
    var values := KeptValues(data);
    if |values| == 0 then None else Some(Build(values))
  }

  /** Each value lies in the span of the bin it is counted in, and in no other span. */
  ghost predicate OneBinEach(edges: seq<int>, values: seq<int>)
    requires |edges| >= 2
  {
    forall k :: 0 <= k < |values| ==>
      var b := BinFor(edges, values[k]);
      edges[b] <= values[k] < edges[b + 1] &&
      forall j :: 0 <= j < |edges| - 1 && edges[j] <= values[k] < edges[j + 1] ==> j == b
  }

  /** Bin `i` counts the values of `[edges[i], edges[i + 1])`. */
  ghost predicate SpanCounts(edges: seq<int>, counts: seq<int>, values: seq<int>)
    requires |edges| == |counts| + 1
  {
    forall i :: 0 <= i < |counts| ==> counts[i] == Count(values, InSpan(edges[i], edges[i + 1]))
  }

  /** On rising edges that hold every value, each value has its one bin, and the counts are the spans' counts. */
  lemma CountsCorrect(edges: seq<int>, values: seq<int>)
    requires |edges| >= 2 && Increasing(edges) && Within(edges, values)
    ensures OneBinEach(edges, values)
    ensures SpanCounts(edges, CountsOf(edges, values), values)
    ensures Sum(CountsOf(edges, values)) == |values|
  {
    forall k | 0 <= k < |values| ensures
      var b := BinFor(edges, values[k]);
      edges[b] <= values[k] < edges[b + 1] &&
      forall j :: 0 <= j < |edges| - 1 && edges[j] <= values[k] < edges[j + 1] ==> j == b
    {
      BinForUnique(edges, values[k]);
    }
    forall i | 0 <= i < |edges| - 1 ensures CountsOf(edges, values)[i] == Count(values, InSpan(edges[i], edges[i + 1])) {
      CountsOfBins(edges, values, i);
    }
    CountsOfTotal(edges, values);
  }

  /** The edges computed from values hold every one of them. */
  lemma EdgesHoldValues(values: seq<int>)
    requires |values| > 0
    ensures var edges := EdgesFor(values);
      edges[0] == MinOf(values) && Increasing(edges) && edges[|edges| - 1] >= MaxOf(values) + 1 && Within(edges, values)
  {
    var lo, hi := MinOf(values), MaxOf(values);
    var binCount := BinCount(|values|);
    var width := Width(lo, hi, binCount);
    var edges := EdgesOf(lo, hi, binCount, width);
    EdgesFacts(lo, hi, binCount, width);
    forall k | 0 <= k < |values| ensures edges[0] <= values[k] < edges[|edges| - 1] {
      assert values[k] in values;
    }
  }

  /** Nothing is built exactly when no value is finite and non-negative. */
  lemma HistogramNone(data: seq<Num>)
    ensures HistogramOf(data).None? <==> forall x :: Finite(x) in data ==> x < 0
  {
    var values := KeptValues(data);
    if |values| > 0 {
      assert Finite(values[0]) in data && values[0] >= 0;
    }
  }

  /**
   * The chart from non-empty kept values has 4 to 8 bins, with as many labels
   * as counts; its edges start at the minimum value, rise strictly and end
   * past the maximum.
   */
  lemma BuildShape(values: seq<int>)
    requires |values| > 0
    ensures var h := Build(values);
      4 <= |h.counts| <= 8 && |h.labels| == |h.counts| && |h.edges| == |h.counts| + 1 &&
      h.edges[0] == MinOf(values) && Increasing(h.edges) && h.edges[|h.edges| - 1] >= MaxOf(values) + 1
  {
    EdgesHoldValues(values);
  }

  /**
   * Every kept value is counted in exactly the one bin whose span holds it,
   * bin `i` counts the values of its span, and the counts add up to the
   * number of kept values.
   */
  lemma BuildCounts(values: seq<int>)
    requires |values| > 0
    ensures var h := Build(values);
      OneBinEach(h.edges, values) && SpanCounts(h.edges, h.counts, values) && Sum(h.counts) == |values|
  {
    var edges := EdgesFor(values);
    assert Build(values).edges == edges && Build(values).counts == CountsOf(edges, values);
    EdgesHoldValues(values);
    CountsCorrect(edges, values);
  }

  /** `for (let i = 0; i <= binCount; i++) edges.push(min + i * width)`, then the last edge raised. */
  method BuildEdges(lo: int, hi: int, binCount: nat, width: nat) returns (edges: seq<int>)
    ensures edges == EdgesOf(lo, hi, binCount, width)
  {
    edges := [];
    for i := 0 to binCount + 1
      invariant |edges| == i
      invariant forall j :: 0 <= j < i ==> edges[j] == lo + j * width
    {
      edges := edges + [lo + i * width];
    }
    var last := edges[|edges| - 1];
    edges := edges[|edges| - 1 := if last > hi + 1 then last else hi + 1];
  }

  /** The `forEach` over the values, incrementing each value's bin in a zeroed array. */
  method CountValues(edges: seq<int>, values: seq<int>) returns (r: seq<int>)
    requires |edges| >= 2
    ensures r == CountsOf(edges, values)
  {
    var counts := new int[|edges| - 1](_ => 0);
    for k := 0 to |values|
      invariant counts[..] == CountsOf(edges, values[..k])
    {
      var b := Place(edges, values[k]);
      counts[b] := counts[b] + 1;
      assert values[..k + 1][..k] == values[..k];
    }
    assert values[..|values|] == values;
    r := counts[..];
  }

  /** `createRevenueHistogramChart` up to the chart configuration. */
  method RevenueHistogramChart(data: seq<Num>) returns (r: Option<RevenueHistogram>)
    ensures r == HistogramOf(data)
  {
    var values := KeptValues(data);
    if |values| == 0 {
      return None;
    }
    var lo := MinOf(values);
    var hi := MaxOf(values);
    var binCount := BinCount(|values|);
    var width := Width(lo, hi, binCount);
    var edges := BuildEdges(lo, hi, binCount, width);
    assert edges == EdgesFor(values);
    var labels := Spans(edges);
    var counts := CountValues(edges, values);
    r := Some(RevenueHistogram(edges, labels, counts));
    assert Build(values) == RevenueHistogram(edges, Spans(edges), CountsOf(edges, values));
  }
}
