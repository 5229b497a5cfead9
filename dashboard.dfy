/**
 * The dashboard: the recent-orders list, the four stat cards, the status
 * tally behind the status chart and the status badge class.
 */
module DashboardPage {
  import opened Wrappers
  import opened Text
  import opened Lists
  import opened Records
  import opened Summaries
  import opened DataService

  // ---------------------------------------------------------------------
  // Recent orders

  /** `sales.filter(s => s.status === 'completed').slice(0, 10)` */
  function RecentOrders(sales: seq<Sale>): seq<Sale> {
    var completed := Filter(sales, IsCompleted);
    if |completed| <= 10 then completed else completed[..10]
  }

  /**
   * At most ten orders, all completed and in stored order: the first
   * completed sales, all of them when there are at most ten.
   */
  lemma RecentOrdersCorrect(sales: seq<Sale>)
    ensures |RecentOrders(sales)| == if Count(sales, IsCompleted) <= 10 then Count(sales, IsCompleted) else 10
    ensures forall i :: 0 <= i < |RecentOrders(sales)| ==> IsCompleted(RecentOrders(sales)[i])
    ensures IsSubsequence(RecentOrders(sales), sales)
    ensures RecentOrders(sales) <= Filter(sales, IsCompleted)
  {
    var completed := Filter(sales, IsCompleted);
    FilterIsSubsequence(sales, IsCompleted);
    if |completed| > 10 {
      SubsequencePrefix(completed, 10);
      SubsequenceTransitive(completed[..10], completed, sales);
    }
  }

  // ---------------------------------------------------------------------
  // Stat cards

  /** The small text under a card's value, by what it shows. */
  datatype Trend =
    | AvgOrder(avgOrderValue: real)
    | Conversion(conversionRate: Option<real>)
    | OfTotalUsers(totalUsers: int)
    | Admins(totalAdmins: int)

  datatype StatCard = StatCard(title: string, value: int, icon: string, color: string, trend: Trend)

  /** The four cards of `updateStats`. */
  function Cards(m: AnalyticsMetrics): (r: seq<StatCard>)
    ensures |r| == 4
    ensures r[0].title == "Total Revenue" && r[1].title == "Total Orders" && r[2].title == "Active Users" && r[3].title == "New Signups"
    ensures r[0].value == m.totalRevenue && r[1].value == m.totalOrders && r[2].value == m.activeUsers && r[3].value == m.totalSignups
  {
    [
      StatCard("Total Revenue", m.totalRevenue, "💰", "#667eea", AvgOrder(m.avgOrderValue)),
      StatCard("Total Orders", m.totalOrders, "📦", "#764ba2", Conversion(m.conversionRate)),
      StatCard("Active Users", m.activeUsers, "👥", "#f093fb", OfTotalUsers(m.totalUsers)),
      StatCard("New Signups", m.totalSignups, "📈", "#4facfe", Admins(m.totalAdmins))
    ]
  }

  /**
   * On the service's metrics the cards show the completed revenue, the number
   * of completed orders, the active users and every user as a signup.
   */
  lemma CardsOfService(users: seq<UserData>, sales: seq<Sale>)
    ensures var r := Cards(ComputeMetrics(users, sales));
      r[0].value == Revenue(Filter(sales, IsCompleted)) &&
      r[1].value == Count(sales, IsCompleted) &&
      r[2].value == Count(users, IsActive) &&
      r[3].value == |users| &&
      r[2].trend == OfTotalUsers(|users|) && r[3].trend == Admins(Count(users, IsAdminRole))
  {
    MetricsFacts(users, sales);
  }

  // ---------------------------------------------------------------------
  // Status tally

  datatype StatusBreakdown = StatusBreakdown(completed: nat, pending: nat, processing: nat, failed: nat)

  function HasStatus(status: string): Sale -> bool {
    (s: Sale) => s.status == status
  }

  /** The four `filter(...).length` counts of the status chart. */
  function StatusTally(sales: seq<Sale>): StatusBreakdown {
    StatusBreakdown(
      Count(sales, HasStatus("completed")), Count(sales, HasStatus("pending")),
      Count(sales, HasStatus("processing")), Count(sales, HasStatus("failed")))
  }

  predicate KnownStatus(s: Sale) {
    s.status in {"completed", "pending", "processing", "failed"}
  }

  function TallySum(t: StatusBreakdown): nat {
    t.completed + t.pending + t.processing + t.failed
  }

  /** The four counts never exceed the number of sales, and add up to it when every status is one of the four. */
  lemma StatusTallyTotal(sales: seq<Sale>)
    ensures TallySum(StatusTally(sales)) == Count(sales, KnownStatus) <= |sales|
    ensures (forall i :: 0 <= i < |sales| ==> KnownStatus(sales[i])) ==> TallySum(StatusTally(sales)) == |sales|
  {
    TallyKnown(sales);
    if forall i :: 0 <= i < |sales| ==> KnownStatus(sales[i]) {
      FilterAll(sales, KnownStatus);
    }
  }

  lemma {:induction false} TallyKnown(sales: seq<Sale>)
    ensures TallySum(StatusTally(sales)) == Count(sales, KnownStatus) <= |sales|
    decreases |sales|
  {
    if sales != [] {
      var n := |sales| - 1;
      var s := sales[n];
      TallyKnown(sales[..n]);
      assert KnownStatus(s) <==> s.status == "completed" || s.status == "pending" || s.status == "processing" || s.status == "failed";
    }
  }

  // ---------------------------------------------------------------------
  // Status badge

  function GetStatusClass(status: string): (r: string)
    ensures r in {"status-completed", "status-pending", "status-processing", "status-failed"}
    ensures r == "status-completed" <==> Lower(status) == "completed"
    ensures r == "status-pending" <==> Lower(status) == "pending"
    ensures r == "status-processing" <==> Lower(status) == "processing"
  {
    var s := Lower(status);
    if s == "completed" then "status-completed"
    else if s == "pending" then "status-pending"
    else if s == "processing" then "status-processing"
    else "status-failed"
  }

  /** The class does not depend on the case the status is written in. */
  lemma StatusClassIgnoresCase(status: string)
    ensures GetStatusClass(Upper(status)) == GetStatusClass(status)
    ensures GetStatusClass(Lower(status)) == GetStatusClass(status)
  {
    LowerOfUpper(status);
    LowerIdempotent(status);
  }

  // ---------------------------------------------------------------------
  // The page

  class DashboardComponent {
    var stats: seq<StatCard>
    var recentOrders: seq<Sale>
    var metrics: Option<AnalyticsMetrics>

    constructor()
      ensures stats == [] && recentOrders == [] && metrics == None
    {
      stats := [];
      recentOrders := [];
      metrics := None;
    }

    /** The service's metrics, and the cards when there are metrics; the cards are kept otherwise. */
    method LoadMetrics(service: DataService)
      modifies this
      ensures metrics == service.metrics && recentOrders == old(recentOrders)
      ensures stats == if service.metrics.Some? then Cards(service.metrics.value) else old(stats)
    {
      metrics := service.metrics;
      if service.metrics.Some? {
        UpdateStats(service.metrics.value);
      }
    }

    method LoadRecentOrders(service: DataService)
      modifies this
      ensures recentOrders == RecentOrders(service.sales) && stats == old(stats) && metrics == old(metrics)
    {
      var completed := Filter(service.sales, IsCompleted);
      recentOrders := if |completed| <= 10 then completed else completed[..10];
    }

    method UpdateStats(m: AnalyticsMetrics)
      modifies this
      ensures stats == Cards(m) && recentOrders == old(recentOrders) && metrics == old(metrics)
    {
      stats := Cards(m);
    }
  }
}
