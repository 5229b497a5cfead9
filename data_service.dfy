/**
 * The data service itself: the stored users and sales, the metrics kept in
 * step with them, the two table updates and the report methods, each of
 * which runs the source's accumulation loop and is proved equal to the
 * report function whose meaning the report modules establish.
 */
module DataService {
  import opened Wrappers
  import opened Text
  import opened Lists
  import opened Dictionary
  import opened Grouping
  import opened Records
  import opened Aggregates
  import opened Weekly
  import opened Summaries
  import opened Users

  /** `s.date >= startDate && s.date <= endDate` */
  function InRange(startDate: string, endDate: string): Sale -> bool {
    (s: Sale) => LessEq(startDate, s.date) && LessEq(s.date, endDate)
  }

  /** `getSalesByDateRange(startDate, endDate)` on the stored sales. */
  function SalesBetween(sales: seq<Sale>, startDate: string, endDate: string): seq<Sale> {
    Filter(sales, InRange(startDate, endDate))
  }

  /**
   * The range keeps, in stored order, exactly the sales dated from
   * `startDate` to `endDate` inclusive, and nothing when the end comes
   * before the start.
   */
  lemma SalesBetweenCorrect(sales: seq<Sale>, startDate: string, endDate: string)
    ensures forall s :: s in SalesBetween(sales, startDate, endDate) <==>
      s in sales && LessEq(startDate, s.date) && LessEq(s.date, endDate)
    ensures IsSubsequence(SalesBetween(sales, startDate, endDate), sales)
    ensures Less(endDate, startDate) ==> SalesBetween(sales, startDate, endDate) == []
  {
    var r := SalesBetween(sales, startDate, endDate);
    FilterMembers(sales, InRange(startDate, endDate));
    FilterIsSubsequence(sales, InRange(startDate, endDate));
    if Less(endDate, startDate) && r != [] {
      var s := r[0];
      assert LessEq(startDate, s.date) && LessEq(s.date, endDate);
      if s.date == startDate {
        LessAsymmetric(endDate, startDate);
      } else if s.date == endDate {
        LessAsymmetric(endDate, startDate);
      } else {
        LessTransitive(startDate, s.date, endDate);
        LessAsymmetric(endDate, startDate);
      }
    }
  }

  function OfUser(userId: string): Sale -> bool {
    (s: Sale) => s.userId == userId
  }

  /** `getUserSales(userId)`: every sale of the user, whatever its status, in stored order. */
  function UserSales(sales: seq<Sale>, userId: string): (r: seq<Sale>)
    ensures forall s :: s in r <==> s in sales && s.userId == userId
    ensures IsSubsequence(r, sales)
  {
    FilterMembers(sales, OfUser(userId));
    FilterIsSubsequence(sales, OfUser(userId));
    Filter(sales, OfUser(userId))
  }

  class DataService {
    var users: seq<UserData>
    var sales: seq<Sale>
    var metrics: Option<AnalyticsMetrics>

    /** The published metrics are those of the stored lists. */
    ghost predicate Valid()
      reads this
    {
      metrics == Some(ComputeMetrics(users, sales))
    }

    /** The service starts from generated lists, taken here as inputs. */
    constructor(users0: seq<UserData>, sales0: seq<Sale>)
      ensures users == users0 && sales == sales0 && Valid()
    {
      users := users0;
      sales := sales0;
      metrics := Some(ComputeMetrics(users0, sales0));
    }

    method CalculateMetrics()
      modifies this
      ensures users == old(users) && sales == old(sales) && Valid()
    {
      metrics := Some(ComputeMetrics(users, sales));
    }

    method SaveUser(user: UserData)
      modifies this
      ensures users == SavedUsers(old(users), user) && sales == old(sales) && Valid()
    {
      var existingIndex := FindIndex(users, user.id);
      if existingIndex >= 0 {
        users := users[existingIndex := user];
      } else {
        users := users + [user.(id := NewId(|users|))];
      }
      CalculateMetrics();
    }

    method DeleteUser(userId: string)
      modifies this
      ensures users == DeletedUsers(old(users), userId) && sales == old(sales) && Valid()
    {
      users := Filter(users, Keeps(userId));
      CalculateMetrics();
    }

    /** The first stored user with the id, if any. */
    method GetUserById(userId: string) returns (r: Option<UserData>)
      ensures r.None? <==> forall i :: 0 <= i < |users| ==> users[i].id != userId
      ensures r.Some? ==> r.value == users[FindIndex(users, userId)]
    {
      var i := FindIndex(users, userId);
      r := if i >= 0 then Some(users[i]) else None;
    }

    method DailySalesData() returns (r: seq<Point>)
      ensures r == DailyTotals(sales)
    {
      var dailySales := Accumulate(Empty(), sales, DailyRule());
      r := AmountPoints(Rows(SortedKeys(dailySales), dailySales));
    }

    method MonthlySalesData() returns (r: seq<Point>)
      ensures r == MonthlyTotals(sales)
    {
      var monthlySales := Accumulate(Empty(), sales, MonthlyRule());
      r := AmountPoints(Last(Rows(SortedKeys(monthlySales), monthlySales), 12));
    }

    method SignupsByDate() returns (r: seq<Point>)
      ensures r == SignupCounts(users)
    {
      var signups := Accumulate(Empty(), users, SignupRule());
      r := CountPoints(Rows(SortedKeys(signups), signups));
    }

    method ProductSalesBreakdown() returns (r: seq<Entry>)
      ensures r == ProductBreakdown(sales)
    {
      var products := Accumulate(Empty(), sales, ProductRule());
      r := Rows(products.keys, products);
    }

    method UserWeeklyAnalytics(userId: string, cal: Calendar) returns (r: seq<Entry>)
      ensures r == WeeklyTotals(sales, userId, cal)
    {
      var weeklyData := SeedWeeks(cal);
      weeklyData := Accumulate(weeklyData, sales, WeeklyRule(userId, cal));
      r := Rows(SortedKeys(weeklyData), weeklyData);
    }

    method UserMonthlyAnalytics(userId: string) returns (r: seq<Entry>)
      ensures r == PeriodTotals(sales, userId, 7)
    {
      var monthlyData := Accumulate(Empty(), sales, PeriodRule(userId, 7));
      r := Rows(SortedKeys(monthlyData), monthlyData);
    }

    method UserYearlyAnalytics(userId: string) returns (r: seq<Entry>)
      ensures r == PeriodTotals(sales, userId, 4)
    {
      var yearlyData := Accumulate(Empty(), sales, PeriodRule(userId, 4));
      r := Rows(SortedKeys(yearlyData), yearlyData);
    }

    /** One user's row, with the product counts built by the loop. */
    method AnalyticsOf(user: UserData) returns (a: UserAnalytics)
      ensures a == UserAnalyticsOf(user, sales)
    {
      var userSales := Filter(sales, Mine(user.id));
      var productCounts := Accumulate(Empty(), userSales, PurchaseRule());
      var favoriteProduct := if |productCounts.keys| > 0 then ReduceMax(productCounts.keys, productCounts) else "N/A";
      var totalSpent := Revenue(userSales);
      var totalOrders := |userSales|;
      a := UserAnalytics(
        user.id, user.fullName, Round2(totalSpent as real), totalOrders,
        Round2(Average(totalSpent, totalOrders)),
        if totalOrders > 0 then userSales[0].date else "Never",
        favoriteProduct);
    }

    /** One row per stored user of role `'user'`, in stored order. */
    method AllUsersAnalytics() returns (r: seq<UserAnalytics>)
      ensures |r| == Count(users, IsRegular)
      ensures forall i :: 0 <= i < |r| ==>
        r[i] == UserAnalyticsOf(Filter(users, IsRegular)[i], sales) && r[i].userId == Filter(users, IsRegular)[i].id
    {
      var regular := Filter(users, IsRegular);
      r := [];
      for i := 0 to |regular|
        invariant |r| == i
        invariant forall j :: 0 <= j < i ==> r[j] == UserAnalyticsOf(regular[j], sales)
      {
        var a := AnalyticsOf(regular[i]);
        r := r + [a];
      }
    }
  }
}
