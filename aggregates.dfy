/**
 * What the grouping reports of the data service compute, as functions of the
 * stored lists, and what they promise: one row per key, keys ascending, each
 * row holding exactly the completed sales filed under it.
 */
module Aggregates {
  import opened Text
  import opened Lists
  import opened Dictionary
  import opened Grouping
  import opened Records

  /** A two-field report row: `{ date, amount }`, `{ month, amount }` or `{ date, count }`. */
  datatype Point = Point(key: string, value: int)

  function PointKeys(r: seq<Point>): (ks: seq<string>)
    ensures |ks| == |r| && forall i :: 0 <= i < |r| ==> ks[i] == r[i].key
  {
    seq(|r|, i requires 0 <= i < |r| => r[i].key)
  }

  /** `{ key, amount }` from each row. */
  function AmountPoints(rows: seq<Entry>): (r: seq<Point>)
    ensures |r| == |rows| && forall i :: 0 <= i < |rows| ==> r[i] == Point(rows[i].key, rows[i].amount)
  {
    seq(|rows|, i requires 0 <= i < |rows| => Point(rows[i].key, rows[i].amount))
  }

  /** `{ key, count }` from each row. */
  function CountPoints(rows: seq<Entry>): (r: seq<Point>)
    ensures |r| == |rows| && forall i :: 0 <= i < |rows| ==> r[i] == Point(rows[i].key, rows[i].count)
  {
    seq(|rows|, i requires 0 <= i < |rows| => Point(rows[i].key, rows[i].count))
  }

  lemma CountPointsSum(rows: seq<Entry>)
    ensures SumOf(CountPoints(rows), (p: Point) => p.value) == SumOf(rows, (e: Entry) => e.count)
    decreases |rows|
  {
    if rows != [] {
      var n := |rows| - 1;
      CountPointsSum(rows[..n]);
      assert CountPoints(rows)[..n] == CountPoints(rows[..n]);
    }
  }

  // ---------------------------------------------------------------------
  // The rules of each report

  /** Daily sales: every sale opens its date, completed ones add their amount. */
  function DailyRule(): Rule<Sale> {
    Rule((s: Sale) => s.date, (s: Sale) => true, IsCompleted, Amount)
  }

  /** Monthly sales: as daily, keyed by `date.substring(0, 7)`. */
  function MonthlyRule(): Rule<Sale> {
    Rule((s: Sale) => Take(s.date, 7), (s: Sale) => true, IsCompleted, Amount)
  }

  /** Signups: every user opens and counts under `createdAt`. */
  function SignupRule(): Rule<UserData> {
    Rule((u: UserData) => u.createdAt, (u: UserData) => true, (u: UserData) => true, (u: UserData) => 1)
  }

  /** Product breakdown: only completed sales open and add, keyed by product. */
  function ProductRule(): Rule<Sale> {
    Rule((s: Sale) => s.product, IsCompleted, IsCompleted, Amount)
  }

  /** A completed sale of the given user. */
  predicate IsMine(userId: string, s: Sale) {
    s.userId == userId && IsCompleted(s)
  }

  /** Per-user monthly (`width` 7) and yearly (`width` 4) reports. */
  function PeriodRule(userId: string, width: nat): Rule<Sale> {
    Rule((s: Sale) => Take(s.date, width), (s: Sale) => IsMine(userId, s), (s: Sale) => IsMine(userId, s), Amount)
  }

  // ---------------------------------------------------------------------
  // Daily sales

  function DailyTotals(sales: seq<Sale>): seq<Point> {
    AmountPoints(SortedRows(sales, DailyRule()))
  }

  /** The completed sales on one date. */
  function CompletedOn(sales: seq<Sale>, date: string): seq<Sale> {
    Filter(sales, OnDate(date))
  }

  function OnDate(date: string): Sale -> bool {
    (s: Sale) => IsCompleted(s) && s.date == date
  }

  /**
   * One row per distinct date of any sale, dates strictly ascending, each
   * amount the sum of that date's completed sales (0 when it has none).
   */
  lemma DailyTotalsCorrect(sales: seq<Sale>)
    ensures Ascending(PointKeys(DailyTotals(sales)))
    ensures forall k :: k in PointKeys(DailyTotals(sales)) <==> exists i :: 0 <= i < |sales| && sales[i].date == k
    ensures forall i :: 0 <= i < |DailyTotals(sales)| ==>
      DailyTotals(sales)[i].value == Revenue(CompletedOn(sales, DailyTotals(sales)[i].key))
  {
    DailyKeys(sales);
    DailyValues(sales);
  }

  lemma DailyKeys(sales: seq<Sale>)
    ensures Ascending(PointKeys(DailyTotals(sales)))
    ensures forall k :: k in PointKeys(DailyTotals(sales)) <==> exists i :: 0 <= i < |sales| && sales[i].date == k
  {
    var rule := DailyRule();
    SortedReport(sales, rule);
    assert PointKeys(DailyTotals(sales)) == EntryKeys(SortedRows(sales, rule));
  }

  lemma DailyValues(sales: seq<Sale>)
    ensures forall i :: 0 <= i < |DailyTotals(sales)| ==>
      DailyTotals(sales)[i].value == Revenue(CompletedOn(sales, DailyTotals(sales)[i].key))
  {
    var rule := DailyRule();
    SortedReport(sales, rule);
    var r := DailyTotals(sales);
    forall i | 0 <= i < |r| ensures r[i].value == Revenue(CompletedOn(sales, r[i].key)) {
      var k := r[i].key;
      FilterCongruent(sales, AddsTo(rule, k), OnDate(k));
    }
  }

  // ---------------------------------------------------------------------
  // Monthly sales

  /** `.slice(-n)` */
  function Last<T>(xs: seq<T>, n: nat): (r: seq<T>)
    ensures |r| == if |xs| <= n then |xs| else n
    ensures r == xs[|xs| - |r|..]
  {
    if |xs| <= n then xs else xs[|xs| - n..]
  }

  function MonthlyTotals(sales: seq<Sale>): seq<Point> {
    AmountPoints(Last(SortedRows(sales, MonthlyRule()), 12))
  }

  /** The month key of any sale. */
  ghost predicate IsMonthOf(sales: seq<Sale>, k: string) {
    exists i :: 0 <= i < |sales| && Take(sales[i].date, 7) == k
  }

  /** The completed sales of one month key. */
  function CompletedIn(sales: seq<Sale>, month: string): seq<Sale> {
    Filter(sales, InMonth(month))
  }

  function InMonth(month: string): Sale -> bool {
    (s: Sale) => IsCompleted(s) && Take(s.date, 7) == month
  }

  /**
   * Of strictly ascending keys, the last `n` are the greatest: a key left out
   * is below every key kept, and keys are left out only when `n` are kept.
   */
  lemma LastOfAscending(ks: seq<string>, n: nat)
    requires Ascending(ks)
    ensures Ascending(Last(ks, n))
    ensures forall k :: k in ks && k !in Last(ks, n) ==>
      |Last(ks, n)| == n && forall i :: 0 <= i < |Last(ks, n)| ==> Less(k, Last(ks, n)[i])
  {
    var r := Last(ks, n);
    var m := |ks| - |r|;
    forall i, j | 0 <= i < j < |r| ensures Less(r[i], r[j]) {
      assert r[i] == ks[m + i] && r[j] == ks[m + j];
    }
    forall k | k in ks && k !in r ensures |r| == n && forall i :: 0 <= i < |r| ==> Less(k, r[i]) {
      var j :| 0 <= j < |ks| && ks[j] == k;
      forall i | 0 <= i < |r| ensures Less(k, r[i]) {
        assert ks[m + i] == r[i];
      }
    }
  }

  /** Before the cut to twelve: each sorted row is a month of some sale with its completed revenue. */
  lemma MonthlyRows(sales: seq<Sale>)
    ensures var rows := SortedRows(sales, MonthlyRule());
      Ascending(EntryKeys(rows)) &&
      forall j :: 0 <= j < |rows| ==> IsMonthOf(sales, rows[j].key) && rows[j].amount == Revenue(CompletedIn(sales, rows[j].key))
  {
    var rule := MonthlyRule();
    SortedReport(sales, rule);
    var rows := SortedRows(sales, rule);
    forall j | 0 <= j < |rows|
      ensures IsMonthOf(sales, rows[j].key) && rows[j].amount == Revenue(CompletedIn(sales, rows[j].key))
    {
      var k := rows[j].key;
      assert k in EntryKeys(rows);
      FilterCongruent(sales, AddsTo(rule, k), InMonth(k));
    }
  }

  /** The points of the last `n` rows carry the last `n` keys. */
  lemma LastPoints(rows: seq<Entry>, n: nat)
    ensures PointKeys(AmountPoints(Last(rows, n))) == Last(EntryKeys(rows), n)
  {
    var cut := Last(rows, n);
    var r := AmountPoints(cut);
    var ks := EntryKeys(rows);
    var kcut := Last(ks, n);
    assert |PointKeys(r)| == |kcut|;
    forall i | 0 <= i < |kcut| ensures PointKeys(r)[i] == kcut[i] {
      assert PointKeys(r)[i] == cut[i].key;
      assert cut[i] == rows[|rows| - |cut| + i];
      assert kcut[i] == ks[|ks| - |kcut| + i];
    }
  }

  /**
   * At most 12 rows, month keys strictly ascending, each a month of some sale
   * with the sum of its completed sales.
   */
  lemma MonthlyTotalsCorrect(sales: seq<Sale>)
    ensures |MonthlyTotals(sales)| <= 12
    ensures Ascending(PointKeys(MonthlyTotals(sales)))
    ensures forall i :: 0 <= i < |MonthlyTotals(sales)| ==>
      IsMonthOf(sales, MonthlyTotals(sales)[i].key) &&
      MonthlyTotals(sales)[i].value == Revenue(CompletedIn(sales, MonthlyTotals(sales)[i].key))
  {
    var rows := SortedRows(sales, MonthlyRule());
    assert MonthlyTotals(sales) == AmountPoints(Last(rows, 12));
    MonthlyKeys(sales);
    LastPoints(rows, 12);
    LastOfAscending(EntryKeys(rows), 12);
    MonthlyValues(sales);
  }

  lemma MonthlyValues(sales: seq<Sale>)
    ensures forall i :: 0 <= i < |MonthlyTotals(sales)| ==>
      IsMonthOf(sales, MonthlyTotals(sales)[i].key) &&
      MonthlyTotals(sales)[i].value == Revenue(CompletedIn(sales, MonthlyTotals(sales)[i].key))
  {
    MonthlyRowValues(sales);
    LastMonthRows(sales, SortedRows(sales, MonthlyRule()), 12);
  }

  /** Cutting rows of months keeps the points rows of months. */
  lemma LastMonthRows(sales: seq<Sale>, rows: seq<Entry>, n: nat)
    requires forall j :: 0 <= j < |rows| ==> MonthRow(sales, rows[j])
    ensures forall i :: 0 <= i < |AmountPoints(Last(rows, n))| ==>
      IsMonthOf(sales, AmountPoints(Last(rows, n))[i].key) &&
      AmountPoints(Last(rows, n))[i].value == Revenue(CompletedIn(sales, AmountPoints(Last(rows, n))[i].key))
  {
    var cut := Last(rows, n);
    var r := AmountPoints(cut);
    forall i | 0 <= i < |r|
      ensures IsMonthOf(sales, r[i].key) && r[i].value == Revenue(CompletedIn(sales, r[i].key))
    {
      assert r[i] == Point(cut[i].key, cut[i].amount);
      assert cut[i] == rows[|rows| - |cut| + i];
      assert MonthRow(sales, cut[i]);
    }
  }

  /** A row holding the completed sales of a month some sale falls in. */
  ghost predicate MonthRow(sales: seq<Sale>, e: Entry) {
    IsMonthOf(sales, e.key) && e.amount == Revenue(CompletedIn(sales, e.key))
  }

  lemma MonthlyRowValues(sales: seq<Sale>)
    ensures forall j :: 0 <= j < |SortedRows(sales, MonthlyRule())| ==> MonthRow(sales, SortedRows(sales, MonthlyRule())[j])
  {
    MonthlyRows(sales);
  }

  /**
   * The reported months are the greatest: a month of a sale is left out only
   * when twelve months are reported, and then it is below every one of them.
   * So with at most twelve months every month is reported.
   */
  lemma MonthlyTotalsGreatest(sales: seq<Sale>)
    ensures forall k :: IsMonthOf(sales, k) && k !in PointKeys(MonthlyTotals(sales)) ==>
      |MonthlyTotals(sales)| == 12 &&
      forall i :: 0 <= i < |MonthlyTotals(sales)| ==> Less(k, MonthlyTotals(sales)[i].key)
  {
    var rows := SortedRows(sales, MonthlyRule());
    var ks := EntryKeys(rows);
    var r := MonthlyTotals(sales);
    assert r == AmountPoints(Last(rows, 12));
    MonthlyKeys(sales);
    LastPoints(rows, 12);
    LastOfAscending(ks, 12);
    forall k | IsMonthOf(sales, k) && k !in PointKeys(r)
      ensures |r| == 12 && forall i :: 0 <= i < |r| ==> Less(k, r[i].key)
    {
      assert k in ks && k !in Last(ks, 12);
      forall i | 0 <= i < |r| ensures Less(k, r[i].key) {
        assert PointKeys(r)[i] == r[i].key;
      }
    }
  }

  /** Any sale at all, of any status, gives the monthly report a row. */
  lemma MonthlyTotalsNonEmpty(sales: seq<Sale>, i: nat)
    requires i < |sales|
    ensures |MonthlyTotals(sales)| > 0
  {
    var k := Take(sales[i].date, 7);
    assert IsMonthOf(sales, k);
    MonthlyTotalsGreatest(sales);
  }

  /** Every month of a sale is a key of the sorted rows, and those keys ascend. */
  lemma MonthlyKeys(sales: seq<Sale>)
    ensures Ascending(EntryKeys(SortedRows(sales, MonthlyRule())))
    ensures forall k :: IsMonthOf(sales, k) ==> k in EntryKeys(SortedRows(sales, MonthlyRule()))
  {
    var rule := MonthlyRule();
    SortedReport(sales, rule);
    forall k | IsMonthOf(sales, k) ensures k in EntryKeys(SortedRows(sales, rule)) {
      assert IsOpened(sales, rule, k);
    }
  }

  // ---------------------------------------------------------------------
  // Signups by date

  function SignupCounts(users: seq<UserData>): seq<Point> {
    CountPoints(SortedRows(users, SignupRule()))
  }

  /** The users created on one date. */
  function CreatedOn(users: seq<UserData>, date: string): seq<UserData> {
    Filter(users, JoinedOn(date))
  }

  function JoinedOn(date: string): UserData -> bool {
    (u: UserData) => u.createdAt == date
  }

  /**
   * One row per distinct creation date, ascending, counting the users created
   * that day; the counts add up to the number of users.
   */
  lemma SignupCountsCorrect(users: seq<UserData>)
    ensures Ascending(PointKeys(SignupCounts(users)))
    ensures forall k :: k in PointKeys(SignupCounts(users)) <==> exists i :: 0 <= i < |users| && users[i].createdAt == k
    ensures forall i :: 0 <= i < |SignupCounts(users)| ==>
      SignupCounts(users)[i].value == |CreatedOn(users, SignupCounts(users)[i].key)|
    ensures SumOf(SignupCounts(users), (p: Point) => p.value) == |users|
  {
    SignupKeys(users);
    SignupValues(users);
    SignupTotal(users);
  }

  lemma SignupKeys(users: seq<UserData>)
    ensures Ascending(PointKeys(SignupCounts(users)))
    ensures forall k :: k in PointKeys(SignupCounts(users)) <==> exists i :: 0 <= i < |users| && users[i].createdAt == k
  {
    var rule := SignupRule();
    SortedReport(users, rule);
    assert PointKeys(SignupCounts(users)) == EntryKeys(SortedRows(users, rule));
  }

  lemma SignupValues(users: seq<UserData>)
    ensures forall i :: 0 <= i < |SignupCounts(users)| ==>
      SignupCounts(users)[i].value == |CreatedOn(users, SignupCounts(users)[i].key)|
  {
    var rule := SignupRule();
    SortedReport(users, rule);
    var r := SignupCounts(users);
    forall i | 0 <= i < |r| ensures r[i].value == |CreatedOn(users, r[i].key)| {
      var k := r[i].key;
      FilterCongruent(users, AddsTo(rule, k), JoinedOn(k));
    }
  }

  lemma SignupTotal(users: seq<UserData>)
    ensures SumOf(SignupCounts(users), (p: Point) => p.value) == |users|
  {
    var rule := SignupRule();
    SortedReport(users, rule);
    CountPointsSum(SortedRows(users, rule));
    FilterAll(users, rule.adds);
  }

  // ---------------------------------------------------------------------
  // Product breakdown

  /** Rows in the order products were first sold, not sorted. */
  function ProductBreakdown(sales: seq<Sale>): seq<Entry> {
    InsertionRows(sales, ProductRule())
  }

  /** The completed sales of one product. */
  function CompletedOf(sales: seq<Sale>, product: string): seq<Sale> {
    Filter(sales, OfProduct(product))
  }

  function OfProduct(product: string): Sale -> bool {
    (s: Sale) => IsCompleted(s) && s.product == product
  }

  /**
   * One row per product with a completed sale, each listed once, holding that
   * product's completed revenue and a count of at least one; the counts add up
   * to the number of completed sales and the amounts to their revenue.
   */
  lemma ProductBreakdownCorrect(sales: seq<Sale>)
    ensures Distinct(EntryKeys(ProductBreakdown(sales)))
    ensures forall k :: k in EntryKeys(ProductBreakdown(sales)) <==>
      exists i :: 0 <= i < |sales| && IsCompleted(sales[i]) && sales[i].product == k
    ensures forall i :: 0 <= i < |ProductBreakdown(sales)| ==>
      var e := ProductBreakdown(sales)[i];
      e.count >= 1 && e.count == |CompletedOf(sales, e.key)| && e.amount == Revenue(CompletedOf(sales, e.key))
    ensures SumOf(ProductBreakdown(sales), (e: Entry) => e.count) == |Filter(sales, IsCompleted)|
    ensures SumOf(ProductBreakdown(sales), (e: Entry) => e.amount) == Revenue(Filter(sales, IsCompleted))
  {
    var rule := ProductRule();
    InsertionReport(sales, rule);
    var r := ProductBreakdown(sales);
    forall i | 0 <= i < |r|
      ensures r[i].count >= 1 && r[i].count == |CompletedOf(sales, r[i].key)| && r[i].amount == Revenue(CompletedOf(sales, r[i].key))
    {
      var k := r[i].key;
      var p := OfProduct(k);
      FilterCongruent(sales, AddsTo(rule, k), p);
      assert k in EntryKeys(r);
      var j :| 0 <= j < |sales| && rule.opens(sales[j]) && rule.key(sales[j]) == k;
      FilterMembers(sales, p);
      assert sales[j] in CompletedOf(sales, k);
    }
  }

  // ---------------------------------------------------------------------
  // A user's monthly and yearly reports

  function PeriodTotals(sales: seq<Sale>, userId: string, width: nat): seq<Entry> {
    SortedRows(sales, PeriodRule(userId, width))
  }

  /** The user's completed sales whose date starts with `period`. */
  function MineIn(sales: seq<Sale>, userId: string, width: nat, period: string): seq<Sale> {
    Filter(sales, MineDuring(userId, width, period))
  }

  function MineDuring(userId: string, width: nat, period: string): Sale -> bool {
    (s: Sale) => IsMine(userId, s) && Take(s.date, width) == period
  }

  /** `filter(s => s.userId === userId && s.status === 'completed')` */
  function Mine(userId: string): Sale -> bool {
    (s: Sale) => IsMine(userId, s)
  }

  /**
   * One row per period (the first `width` characters of the date) of the
   * user's completed sales, ascending; each row holds exactly that period's
   * completed sales of the user, and the rows add up to all of them.
   */
  lemma PeriodTotalsCorrect(sales: seq<Sale>, userId: string, width: nat)
    ensures Ascending(EntryKeys(PeriodTotals(sales, userId, width)))
    ensures forall k :: k in EntryKeys(PeriodTotals(sales, userId, width)) <==>
      exists i :: 0 <= i < |sales| && IsMine(userId, sales[i]) && Take(sales[i].date, width) == k
    ensures forall i :: 0 <= i < |PeriodTotals(sales, userId, width)| ==>
      var e := PeriodTotals(sales, userId, width)[i];
      e.count == |MineIn(sales, userId, width, e.key)| && e.amount == Revenue(MineIn(sales, userId, width, e.key))
    ensures SumOf(PeriodTotals(sales, userId, width), (e: Entry) => e.count) == |Filter(sales, Mine(userId))|
    ensures SumOf(PeriodTotals(sales, userId, width), (e: Entry) => e.amount) == Revenue(Filter(sales, Mine(userId)))
  {
    var rule := PeriodRule(userId, width);
    SortedReport(sales, rule);
    var r := PeriodTotals(sales, userId, width);
    forall i | 0 <= i < |r|
      ensures r[i].count == |MineIn(sales, userId, width, r[i].key)| && r[i].amount == Revenue(MineIn(sales, userId, width, r[i].key))
    {
      var k := r[i].key;
      FilterCongruent(sales, AddsTo(rule, k), MineDuring(userId, width, k));
    }
    FilterCongruent(sales, rule.adds, Mine(userId));
  }
}
