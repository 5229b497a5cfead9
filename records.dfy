/**
 * The records the data service stores and returns, and the rounding and
 * averaging used by its summaries.
 */
module Records {
  import opened Wrappers
  import opened Lists

  /** A user row of the admin table. `role` is `'user'` or `'admin'`. */
  datatype UserData = UserData(
    id: string,
    fullName: string,
    email: string,
    role: string,
    isActive: bool,
    createdAt: string,
    lastLogin: string,
    signupSource: Option<string>)

  /** One order. `date` is `YYYY-MM-DD`; `status` is `completed`, `pending`, `processing` or `failed`. */
  datatype Sale = Sale(
    id: string,
    date: string,
    amount: int,
    orderId: string,
    customerName: string,
    userId: string,
    product: string,
    quantity: int,
    status: string)

  /** The headline numbers; `conversionRate` is `None` where the page computes NaN. */
  datatype AnalyticsMetrics = AnalyticsMetrics(
    totalEvents: int,
    totalRegisteredStudents: int,
    totalAppearedStudents: int,
    totalRevenue: int,
    totalActiveStudents: int,
    upcomingEvents: int,
    totalUsers: nat,
    totalAdmins: nat,
    activeUsers: nat,
    totalSignups: nat,
    totalOrders: nat,
    avgOrderValue: real,
    conversionRate: Option<real>)

  /** One row of the admin's per-user table. */
  datatype UserAnalytics = UserAnalytics(
    userId: string,
    userName: string,
    totalSpent: real,
    totalOrders: nat,
    avgOrderValue: real,
    lastPurchaseDate: string,
    favoriteProduct: string)

  /** A user's own purchase summary. */
  datatype PurchaseSummary = PurchaseSummary(
    totalSpent: real,
    totalOrders: nat,
    avgOrderValue: real,
    lastPurchaseDate: string)

  predicate IsCompleted(s: Sale) {
    s.status == "completed"
  }

  /** `Math.round(x * 100) / 100`: `Math.round` rounds halves up. */
  function Round2(x: real): real {
    ((x * 100.0 + 0.5).Floor as real) / 100.0
  }

  /** Rounding to cents moves a value by at most half a cent, halves going up. */
  lemma Round2Close(x: real)
    ensures x - 0.005 < Round2(x) <= x + 0.005
  {
    var y := x * 100.0 + 0.5;
    assert y - 1.0 < y.Floor as real <= y;
  }

  /** Whole amounts are unchanged by rounding to cents. */
  lemma Round2Whole(n: int)
    ensures Round2(n as real) == n as real
  {
    var y := (n as real) * 100.0 + 0.5;
    assert (n * 100) as real <= y < (n * 100 + 1) as real;
    assert y.Floor == n * 100;
  }

  /** `total / count`, guarded to 0 when there is nothing to average. */
  function Average(total: int, count: nat): (r: real)
    ensures count == 0 ==> r == 0.0
    ensures count > 0 ==> r * count as real == total as real
  {
    if count > 0 then total as real / count as real else 0.0
  }

  function Amount(s: Sale): int {
    s.amount
  }

  /** The summed amount of a list of sales. */
  function Revenue(sales: seq<Sale>): int {
    SumOf(sales, Amount)
  }
}
