/**
 * The zero-guarded summaries of the data service: the headline metrics, a
 * user's purchase summary, the admin's per-user rows and the favourite
 * product of a user.
 */
module Summaries {
  import opened Wrappers
  import opened Lists
  import opened Dictionary
  import opened Grouping
  import opened Records
  import opened Aggregates

  // ---------------------------------------------------------------------
  // Headline metrics

  function IsAdminRole(u: UserData): bool {
    u.role == "admin"
  }

  function IsActive(u: UserData): bool {
    u.isActive
  }

  /**
   * `totalOrders > totalSignups ? 0 : totalOrders / totalSignups * 100`,
   * rounded to cents; `None` is the NaN of 0 / 0.
   */
  function ConversionRate(orders: nat, signups: nat): Option<real> {
    if orders > signups then Some(Round2(0.0))
    else if signups == 0 then None
    else Some(Round2(orders as real / signups as real * 100.0))
  }

  function ComputeMetrics(users: seq<UserData>, sales: seq<Sale>): AnalyticsMetrics {
    var completed := Filter(sales, IsCompleted);
    var totalRevenue := Revenue(completed);
    var totalOrders := |completed|;
    var activeUsers := |Filter(users, IsActive)|;
    AnalyticsMetrics(
      0, 0, 0, totalRevenue, activeUsers, 0,
      |users|, |Filter(users, IsAdminRole)|, activeUsers, |users|, totalOrders,
      Round2(Average(totalRevenue, totalOrders)),
      ConversionRate(totalOrders, |users|))
  }

  /** Rounding keeps a value of [0, 100] in [0, 100]. */
  lemma Round2Percent(x: real)
    requires 0.0 <= x <= 100.0
    ensures 0.0 <= Round2(x) <= 100.0
  {
    var y := x * 100.0 + 0.5;
    assert 0.5 <= y <= 10000.5;
    assert 0 <= y.Floor <= 10000;
  }

  /**
   * The rate is 0 when orders exceed signups, NaN exactly for no orders and
   * no signups, and otherwise a percentage in [0, 100].
   */
  lemma ConversionRateFacts(orders: nat, signups: nat)
    ensures orders > signups ==> ConversionRate(orders, signups) == Some(0.0)
    ensures ConversionRate(orders, signups) == None <==> orders == 0 && signups == 0
    ensures ConversionRate(orders, signups).Some? ==> 0.0 <= ConversionRate(orders, signups).value <= 100.0
  {
    Round2Whole(0);
    if orders <= signups && signups > 0 {
      var x := orders as real / signups as real * 100.0;
      assert 0.0 <= x <= 100.0 by {
        assert orders as real <= signups as real;
      }
      Round2Percent(x);
    }
  }

  /**
   * The metrics count every user as a signup, count and sum only completed
   * sales, guard the average against no orders and keep it within half a cent
   * of revenue / orders, and take the conversion rate of orders to signups.
   */
  lemma MetricsFacts(users: seq<UserData>, sales: seq<Sale>)
    ensures var m := ComputeMetrics(users, sales);
      m.totalUsers == m.totalSignups == |users| &&
      m.totalAdmins == Count(users, IsAdminRole) <= |users| &&
      m.activeUsers == m.totalActiveStudents == Count(users, IsActive) <= |users| &&
      m.totalOrders == Count(sales, IsCompleted) &&
      m.totalRevenue == Revenue(Filter(sales, IsCompleted)) &&
      m.totalEvents == m.totalRegisteredStudents == m.totalAppearedStudents == m.upcomingEvents == 0 &&
      (m.totalOrders == 0 ==> m.avgOrderValue == 0.0) &&
      (m.totalOrders > 0 ==> -0.005 < m.avgOrderValue - m.totalRevenue as real / m.totalOrders as real <= 0.005) &&
      m.conversionRate == ConversionRate(m.totalOrders, m.totalSignups)
  {
    var m := ComputeMetrics(users, sales);
    Round2Whole(0);
    Round2Close(Average(m.totalRevenue, m.totalOrders));
  }

  // ---------------------------------------------------------------------
  // A user's purchase summary

  function PurchaseSummaryOf(sales: seq<Sale>, userId: string): PurchaseSummary {
    var mine := Filter(sales, Mine(userId));
    PurchaseSummary(
      Round2(Revenue(mine) as real),
      |mine|,
      Round2(Average(Revenue(mine), |mine|)),
      if |mine| > 0 then mine[0].date else "N/A")
  }

  /** The first sale of the list that is a completed sale of the user. */
  ghost predicate IsFirstMine(sales: seq<Sale>, userId: string, i: int) {
    0 <= i < |sales| && IsMine(userId, sales[i]) && forall j :: 0 <= j < i ==> !IsMine(userId, sales[j])
  }

  /**
   * The summary counts and sums the user's completed sales, its average is 0
   * without orders and otherwise within half a cent of spent / orders, and
   * its last purchase date is that of the first such sale in stored order,
   * or `'N/A'` when there is none.
   */
  lemma PurchaseSummaryCorrect(sales: seq<Sale>, userId: string)
    ensures var p := PurchaseSummaryOf(sales, userId); var mine := Filter(sales, Mine(userId));
      p.totalOrders == |mine| &&
      p.totalSpent == Revenue(mine) as real &&
      (p.totalOrders == 0 ==> p.avgOrderValue == 0.0) &&
      (p.totalOrders > 0 ==> -0.005 < p.avgOrderValue - p.totalSpent / p.totalOrders as real <= 0.005) &&
      ((forall i :: 0 <= i < |sales| ==> !IsMine(userId, sales[i])) ==> p.lastPurchaseDate == "N/A") &&
      (forall i :: IsFirstMine(sales, userId, i) ==> p.lastPurchaseDate == sales[i].date)
  {
    var mine := Filter(sales, Mine(userId));
    Round2Whole(Revenue(mine));
    Round2Close(Average(Revenue(mine), |mine|));
    Round2Whole(0);
    LastPurchase(sales, userId);
  }

  /** The first kept sale is the first completed sale of the user, and there is one exactly when some sale qualifies. */
  lemma LastPurchase(sales: seq<Sale>, userId: string)
    ensures var mine := Filter(sales, Mine(userId));
      (|mine| == 0 <==> forall i :: 0 <= i < |sales| ==> !IsMine(userId, sales[i])) &&
      forall i :: IsFirstMine(sales, userId, i) ==> |mine| > 0 && mine[0] == sales[i]
  {
    var mine := Filter(sales, Mine(userId));
    FilterFirst(sales, Mine(userId));
    forall i | IsFirstMine(sales, userId, i) ensures |mine| > 0 && mine[0] == sales[i] {
      var k :| 0 <= k < |sales| && Mine(userId)(sales[k]) && mine[0] == sales[k] && forall j :: 0 <= j < k ==> !Mine(userId)(sales[j]);
      assert k == i;
    }
  }

  // ---------------------------------------------------------------------
  // Favourite product

  /** `productCounts[s.product] = (productCounts[s.product] || 0) + 1` */
  function PurchaseRule(): Rule<Sale> {
    Rule((s: Sale) => s.product, (s: Sale) => true, (s: Sale) => true, (s: Sale) => 1)
  }

  /** `keys.reduce((a, b) => counts[a] > counts[b] ? a : b)`: a tie goes to `b`. */
  function ReduceMax(ks: seq<string>, d: Dict<Bucket>): string
    requires |ks| > 0
    decreases |ks|
  {
    if |ks| == 1 then ks[0]
    else
      var a := ReduceMax(ks[..|ks| - 1], d);
      var b := ks[|ks| - 1];
      if CountAt(d, a) > CountAt(d, b) then a else b
  }

  /** The reduction picks a key of maximal count, and no later key has as many. */
  lemma ReduceMaxCorrect(ks: seq<string>, d: Dict<Bucket>)
    requires |ks| > 0
    ensures ReduceMax(ks, d) in ks
    ensures forall k :: k in ks ==> CountAt(d, k) <= CountAt(d, ReduceMax(ks, d))
    ensures exists i :: 0 <= i < |ks| && ks[i] == ReduceMax(ks, d) &&
                        (forall j :: i < j < |ks| ==> CountAt(d, ks[j]) < CountAt(d, ReduceMax(ks, d)))
  {
    ReduceMaxIsMax(ks, d);
    ReduceMaxLast(ks, d);
  }

  lemma {:induction false} ReduceMaxIsMax(ks: seq<string>, d: Dict<Bucket>)
    requires |ks| > 0
    ensures ReduceMax(ks, d) in ks
    ensures forall k :: k in ks ==> CountAt(d, k) <= CountAt(d, ReduceMax(ks, d))
    decreases |ks|
  {
    if |ks| > 1 {
      var n := |ks| - 1;
      ReduceMaxIsMax(ks[..n], d);
      assert ks == ks[..n] + [ks[n]];
    }
  }

  lemma {:induction false} ReduceMaxLast(ks: seq<string>, d: Dict<Bucket>)
    requires |ks| > 0
    ensures exists i :: 0 <= i < |ks| && ks[i] == ReduceMax(ks, d) &&
                        (forall j :: i < j < |ks| ==> CountAt(d, ks[j]) < CountAt(d, ReduceMax(ks, d)))
    decreases |ks|
  {
    if |ks| == 1 {
      assert ks[0] == ReduceMax(ks, d);
    } else {
      var n := |ks| - 1;
      ReduceMaxLast(ks[..n], d);
      var a := ReduceMax(ks[..n], d);
      var i :| 0 <= i < n && ks[..n][i] == a && forall j :: i < j < n ==> CountAt(d, ks[..n][j]) < CountAt(d, a);
      if CountAt(d, a) > CountAt(d, ks[n]) {
        assert ks[i] == a;
        forall j | i < j < |ks| ensures CountAt(d, ks[j]) < CountAt(d, a) {
          if j < n {
            assert ks[j] == ks[..n][j];
          }
        }
      } else {
        assert ks[n] == ReduceMax(ks, d);
      }
    }
  }

  function FavoriteProduct(userSales: seq<Sale>): string {
    var d := Fold(Empty(), userSales, PurchaseRule());
    if |d.keys| > 0 then ReduceMax(d.keys, d) else "N/A"
  }

  /** The products in the order of their first sale. */
  function FirstSeen(xs: seq<Sale>): seq<string>
    decreases |xs|
  {
    if xs == [] then []
    else
      var init := FirstSeen(xs[..|xs| - 1]);
      var p := xs[|xs| - 1].product;
      if p in init then init else init + [p]
  }

  /** `filter(s => s.product === product).length` */
  function Purchases(xs: seq<Sale>, product: string): nat {
    |Filter(xs, ProductIs(product))|
  }

  function ProductIs(product: string): Sale -> bool {
    (s: Sale) => s.product == product
  }

  /** Counting purchases by product lists the products in the order of their first sale. */
  lemma {:induction false} PurchaseKeys(xs: seq<Sale>)
    ensures Fold(Empty(), xs, PurchaseRule()).keys == FirstSeen(xs)
    decreases |xs|
  {
    if xs != [] {
      var rule := PurchaseRule();
      var n := |xs| - 1;
      var x := xs[n];
      PurchaseKeys(xs[..n]);
      var before := Fold(Empty(), xs[..n], rule);
      FoldKeys(Empty(), xs[..n], rule);
      assert x.product in before.vals <==> x.product in FirstSeen(xs[..n]);
      assert Fold(Empty(), xs, rule) == Step(before, x, rule);
      var ready := if x.product !in before.vals then Put(before, x.product, Zero) else before;
      assert ready.keys == FirstSeen(xs);
      assert Step(before, x, rule) == Put(ready, x.product, Bump(ready.vals[x.product], x, rule));
    }
  }

  /** A product is listed exactly when some sale is of it. */
  lemma {:induction false} FirstSeenMembers(xs: seq<Sale>)
    ensures forall p :: p in FirstSeen(xs) <==> exists i :: 0 <= i < |xs| && xs[i].product == p
    decreases |xs|
  {
    if xs != [] {
      var n := |xs| - 1;
      FirstSeenMembers(xs[..n]);
      forall p ensures p in FirstSeen(xs) <==> exists i :: 0 <= i < |xs| && xs[i].product == p {
        if p in FirstSeen(xs[..n]) {
          var i :| 0 <= i < n && xs[..n][i].product == p;
          assert xs[i].product == p;
        }
        if i :| 0 <= i < n && xs[i].product == p {
          assert xs[..n][i].product == p;
        }
      }
    }
  }

  /** Each product's count is its number of sales. */
  lemma PurchaseCounts(xs: seq<Sale>, p: string)
    ensures CountAt(Fold(Empty(), xs, PurchaseRule()), p) == Purchases(xs, p)
  {
    var rule := PurchaseRule();
    FreshFold(xs, rule);
    FilterCongruent(xs, AddsTo(rule, p), ProductIs(p));
  }

  /**
   * With no sales the favourite is `'N/A'`; otherwise it is a product the user
   * bought, bought at least as often as any other, and no product first bought
   * after it was bought as often.
   */
  lemma FavoriteProductCorrect(userSales: seq<Sale>)
    ensures userSales == [] ==> FavoriteProduct(userSales) == "N/A"
    ensures userSales != [] ==>
      var f := FavoriteProduct(userSales);
      (exists i :: 0 <= i < |userSales| && userSales[i].product == f) &&
      (forall i :: 0 <= i < |userSales| ==> Purchases(userSales, userSales[i].product) <= Purchases(userSales, f)) &&
      exists i :: 0 <= i < |FirstSeen(userSales)| && FirstSeen(userSales)[i] == f &&
        forall j :: i < j < |FirstSeen(userSales)| ==> Purchases(userSales, FirstSeen(userSales)[j]) < Purchases(userSales, f)
  {
    var d := Fold(Empty(), userSales, PurchaseRule());
    PurchaseKeys(userSales);
    FirstSeenMembers(userSales);
    forall p ensures CountAt(d, p) == Purchases(userSales, p) {
      PurchaseCounts(userSales, p);
    }
    if userSales != [] {
      assert userSales[0].product in FirstSeen(userSales);
      ReduceMaxCorrect(d.keys, d);
      var f := FavoriteProduct(userSales);
      forall i | 0 <= i < |userSales| ensures Purchases(userSales, userSales[i].product) <= Purchases(userSales, f) {
        assert userSales[i].product in d.keys;
      }
    } else {
      assert d == Empty();
    }
  }

  // ---------------------------------------------------------------------
  // The admin's per-user rows

  function UserAnalyticsOf(user: UserData, sales: seq<Sale>): UserAnalytics {
    var mine := Filter(sales, Mine(user.id));
    UserAnalytics(
      user.id,
      user.fullName,
      Round2(Revenue(mine) as real),
      |mine|,
      Round2(Average(Revenue(mine), |mine|)),
      if |mine| > 0 then mine[0].date else "Never",
      FavoriteProduct(mine))
  }

  /**
   * A user's row agrees with that user's own purchase summary, except that
   * no purchase reads `'Never'` instead of `'N/A'`; its favourite product is
   * taken from the user's completed sales.
   */
  lemma UserAnalyticsAgrees(user: UserData, sales: seq<Sale>)
    ensures var a := UserAnalyticsOf(user, sales); var p := PurchaseSummaryOf(sales, user.id);
      a.userId == user.id && a.userName == user.fullName &&
      a.totalSpent == p.totalSpent && a.totalOrders == p.totalOrders && a.avgOrderValue == p.avgOrderValue &&
      (a.totalOrders > 0 ==> a.lastPurchaseDate == p.lastPurchaseDate) &&
      (a.totalOrders == 0 ==> a.lastPurchaseDate == "Never" && p.lastPurchaseDate == "N/A" && a.favoriteProduct == "N/A") &&
      a.favoriteProduct == FavoriteProduct(Filter(sales, Mine(user.id)))
  {
    var mine := Filter(sales, Mine(user.id));
    FavoriteProductCorrect(mine);
  }

  function IsRegular(u: UserData): bool {
    u.role == "user"
  }
}
