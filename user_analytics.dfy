/**
 * The user's own analytics page: the completed sales it loads, the amount
 * spent per product, and the purchase-amount histogram over fixed edges.
 */
module UserAnalyticsPage {
  import opened Wrappers
  import opened Text
  import opened Lists
  import opened Dictionary
  import opened Grouping
  import opened Records
  import opened Aggregates
  import opened Summaries
  import opened DataService

  // ---------------------------------------------------------------------
  // Category breakdown

  /** `categoryBreakdown[s.product] = (categoryBreakdown[s.product] || 0) + s.amount` */
  function CategoryRule(): Rule<Sale> {
    Rule((s: Sale) => s.product, (s: Sale) => true, (s: Sale) => true, Amount)
  }

  /** The amounts of a dictionary of buckets, keys in the same order. */
  function Amounts(d: Dict<Bucket>): (r: Dict<int>)
    ensures r.keys == d.keys && r.vals.Keys == d.vals.Keys
    ensures forall k :: k in d.vals ==> r.vals[k] == d.vals[k].amount
  {
    Dict(d.keys, map k | k in d.vals :: d.vals[k].amount)
  }

  /** The breakdown that the loop over `sales` builds from `{}`. */
  function Breakdown(sales: seq<Sale>): Dict<int> {
    Amounts(Fold(Empty(), sales, CategoryRule()))
  }

  /** `c[k] || 0` */
  function ValueIn(c: Dict<int>): string -> int {
    k => if k in c.vals then c.vals[k] else 0
  }

  /** The values summed over the listed keys. */
  function Total(c: Dict<int>): int {
    SumOf(c.keys, ValueIn(c))
  }

  /** One pass of the loop body, seen on the amounts. */
  lemma AmountsStep(d: Dict<Bucket>, x: Sale)
    ensures Amounts(Step(d, x, CategoryRule())) == Put(Amounts(d), x.product, ValueIn(Amounts(d))(x.product) + x.amount)
  {
    var rule := CategoryRule();
    var p := x.product;
    var ready := if p !in d.vals then Put(d, p, Zero) else d;
    assert Step(d, x, rule) == Put(ready, p, Bump(ready.vals[p], x, rule));
    assert Amounts(Step(d, x, rule)).vals == Amounts(d).vals[p := ValueIn(Amounts(d))(p) + x.amount];
  }

  /** The breakdown after one more sale. */
  lemma BreakdownStep(sales: seq<Sale>, i: nat)
    requires i < |sales|
    ensures Breakdown(sales[..i + 1]) ==
      Put(Breakdown(sales[..i]), sales[i].product, ValueIn(Breakdown(sales[..i]))(sales[i].product) + sales[i].amount)
  {
    assert sales[..i + 1][..i] == sales[..i];
    assert Fold(Empty(), sales[..i + 1], CategoryRule()) == Step(Fold(Empty(), sales[..i], CategoryRule()), sales[i], CategoryRule());
    AmountsStep(Fold(Empty(), sales[..i], CategoryRule()), sales[i]);
  }

  /** The breakdown lists each product of the sales exactly once. */
  lemma BreakdownKeys(sales: seq<Sale>)
    ensures Valid(Breakdown(sales))
    ensures forall p :: p in Breakdown(sales).vals <==> exists i :: 0 <= i < |sales| && sales[i].product == p
  {
    var rule := CategoryRule();
    FreshFold(sales, rule);
    forall p ensures IsOpened(sales, rule, p) <==> exists i :: 0 <= i < |sales| && sales[i].product == p {
      if i :| 0 <= i < |sales| && sales[i].product == p {
        assert rule.opens(sales[i]) && rule.key(sales[i]) == p;
      }
    }
  }

  /** Each product maps to the total amount of that product's sales. */
  lemma BreakdownValues(sales: seq<Sale>, p: string)
    requires p in Breakdown(sales).vals
    ensures Breakdown(sales).vals[p] == Revenue(Filter(sales, ProductIs(p)))
  {
    var rule := CategoryRule();
    var d := Fold(Empty(), sales, rule);
    FreshFold(sales, rule);
    assert Breakdown(sales).vals[p] == At(d, p).amount;
    assert At(d, p).amount == Tally(sales, rule, p);
    FilterCongruent(sales, AddsTo(rule, p), ProductIs(p));
  }

  /** The values add up to the total amount of all the sales. */
  lemma BreakdownTotal(sales: seq<Sale>)
    ensures Total(Breakdown(sales)) == Revenue(sales)
  {
    var rule := CategoryRule();
    var d := Fold(Empty(), sales, rule);
    var c := Breakdown(sales);
    FreshFold(sales, rule);
    assert AmountTotal(d) == SumOf(Filter(sales, rule.adds), rule.weight);
    FilterAll(sales, rule.adds);
    AmountsTotal(d);
  }

  /** The amounts add up to the buckets' amount total. */
  lemma AmountsTotal(d: Dict<Bucket>)
    requires Valid(d)
    ensures Total(Amounts(d)) == AmountTotal(d)
  {
    var c := Amounts(d);
    forall i | 0 <= i < |d.keys| ensures ValueIn(c)(d.keys[i]) == AmountAt(d, d.keys[i]) {
    }
    SumOfCongruent(d.keys, ValueIn(c), k => AmountAt(d, k));
  }

  // ---------------------------------------------------------------------
  // Purchase histogram

  /** The bin edges. */
  const Bins: seq<int> := [0, 50, 100, 200, 500, 1000, 2000, 5000]

  /** The page's `$<edge>-<next edge>` label of bin `i`. */
  function Label(i: nat): string
    requires i < 7
  {
    "$" + NatToString(Bins[i]) + "-" + NatToString(Bins[i + 1])
  }

  function Labels(): (r: seq<string>)
    ensures |r| == 7 && forall i :: 0 <= i < 7 ==> r[i] == Label(i)
  {
    seq(7, i requires 0 <= i < 7 => Label(i))
  }

  /** The edges as decimal text. */
  const EdgeStrings: seq<string> := ["0", "50", "100", "200", "500", "1000", "2000", "5000"]

  /** The labels the page shows. */
  const ShownLabels: seq<string> := ["$0-50", "$50-100", "$100-200", "$200-500", "$500-1000", "$1000-2000", "$2000-5000"]

  lemma DecimalEdges()
    ensures NatToString(0) == "0" && NatToString(50) == "50" && NatToString(100) == "100"
    ensures NatToString(200) == "200" && NatToString(500) == "500" && NatToString(1000) == "1000"
    ensures NatToString(2000) == "2000" && NatToString(5000) == "5000"
  {
    assert NatToString(5) == "5" && NatToString(1) == "1" && NatToString(2) == "2";
    assert NatToString(10) == NatToString(1) + "0";
    assert NatToString(20) == NatToString(2) + "0";
    assert NatToString(50) == NatToString(5) + "0";
    assert NatToString(100) == NatToString(10) + "0";
    assert NatToString(200) == NatToString(20) + "0";
    assert NatToString(500) == NatToString(50) + "0";
    assert NatToString(1000) == NatToString(100) + "0";
    assert NatToString(2000) == NatToString(200) + "0";
    assert NatToString(5000) == NatToString(500) + "0";
  }

  lemma EdgeTexts()
    ensures forall i :: 0 <= i < 8 ==> NatToString(Bins[i]) == EdgeStrings[i]
  {
    DecimalEdges();
    forall i | 0 <= i < 8 ensures NatToString(Bins[i]) == EdgeStrings[i] {
      assert i == 0 || i == 1 || i == 2 || i == 3 || i == 4 || i == 5 || i == 6 || i == 7;
    }
  }

  lemma LabelsGlued()
    ensures forall i :: 0 <= i < 7 ==> "$" + EdgeStrings[i] + "-" + EdgeStrings[i + 1] == ShownLabels[i]
  {
  }

  /** The labels as the page shows them. */
  lemma LabelsShown()
    ensures Labels() == ["$0-50", "$50-100", "$100-200", "$200-500", "$500-1000", "$1000-2000", "$2000-5000"]
  {
    EdgeTexts();
    LabelsGlued();
    forall i | 0 <= i < 7 ensures Labels()[i] == ShownLabels[i] {
      assert Labels()[i] == "$" + NatToString(Bins[i]) + "-" + NatToString(Bins[i + 1]);
    }
  }

  /** The bin whose half-open range `[edge, next edge)` holds the amount, or -1. */
  function BinOf(a: int): (r: int)
    ensures -1 <= r < 7
    ensures r >= 0 <==> Bins[0] <= a < Bins[7]
    ensures r >= 0 ==> Bins[r] <= a < Bins[r + 1]
    ensures forall i :: 0 <= i < 7 ==> (r == i <==> Bins[i] <= a < Bins[i + 1])
  {
    if a < 0 then -1
    else if a < 50 then 0
    else if a < 100 then 1
    else if a < 200 then 2
    else if a < 500 then 3
    else if a < 1000 then 4
    else if a < 2000 then 5
    else if a < 5000 then 6
    else -1
  }

  /** The counts after one more sale of amount `a`: its own bin, then the overflow rule. */
  function AddAmount(c: seq<int>, a: int): (r: seq<int>)
    requires |c| == 7
    ensures |r| == 7
  {
    var b := BinOf(a);
    var inBin := if b >= 0 then c[b := c[b] + 1] else c;
    if a >= Bins[7] then inBin[6 := inBin[6] + 1] else inBin
  }

  /** The counts of the histogram of `sales`. */
  function HistogramOf(sales: seq<Sale>): (r: seq<int>)
    ensures |r| == 7
    decreases |sales|
  {
    if sales == [] then [0, 0, 0, 0, 0, 0, 0]
    else AddAmount(HistogramOf(sales[..|sales| - 1]), sales[|sales| - 1].amount)
  }

  /** A sale of amount `a` is counted in bin `i`. */
  predicate Lands(i: int, a: int) {
    0 <= i < 7 && (Bins[i] <= a < Bins[i + 1] || (i == 6 && a >= Bins[7]))
  }

  function LandsIn(i: int): Sale -> bool {
    (s: Sale) => Lands(i, s.amount)
  }

  function NonNegative(s: Sale): bool {
    s.amount >= 0
  }

  /**
   * Each amount is counted once, in the one bin whose edges hold it, anything
   * from 5000 up in the last bin, and a negative amount nowhere.
   */
  lemma LandsOnce(a: int)
    ensures a >= 0 ==> exists i :: 0 <= i < 7 && Lands(i, a) && forall j :: 0 <= j < 7 && j != i ==> !Lands(j, a)
    ensures a >= Bins[7] ==> Lands(6, a)
    ensures a < 0 ==> forall i :: !Lands(i, a)
  {
    assert Bins[0] == 0 && Bins[7] == 5000;
    if a >= 0 {
      var b := if a >= 5000 then 6 else BinOf(a);
      forall j | 0 <= j < 7 && j != b ensures !Lands(j, a) {
        assert Bins[j] <= a < Bins[j + 1] ==> j == BinOf(a);
      }
      assert Lands(b, a);
    }
  }

  /** Bin `i` counts exactly the sales whose amount lands in it. */
  lemma {:induction false} HistogramBins(sales: seq<Sale>, i: int)
    requires 0 <= i < 7
    ensures HistogramOf(sales)[i] == Count(sales, LandsIn(i))
    decreases |sales|
  {
    if sales != [] {
      HistogramBins(sales[..|sales| - 1], i);
    }
  }

  /** The counts add up to the number of non-negative sales; so, to all of them when none is negative. */
  lemma {:induction false} HistogramTotal(sales: seq<Sale>)
    ensures Sum(HistogramOf(sales)) == Count(sales, NonNegative)
    ensures (forall i :: 0 <= i < |sales| ==> sales[i].amount >= 0) ==> Sum(HistogramOf(sales)) == |sales|
    decreases |sales|
  {
    if sales == [] {
      SumZeros(HistogramOf(sales));
    } else {
      var n := |sales| - 1;
      var c := HistogramOf(sales[..n]);
      var a := sales[n].amount;
      HistogramTotal(sales[..n]);
      var b := BinOf(a);
      var inBin := if b >= 0 then c[b := c[b] + 1] else c;
      if b >= 0 {
        SumUpdate(c, b, c[b] + 1);
      }
      if a >= Bins[7] {
        SumUpdate(inBin, 6, inBin[6] + 1);
      }
      assert HistogramOf(sales) == AddAmount(c, a);
      assert Count(sales, NonNegative) == Count(sales[..n], NonNegative) + (if a >= 0 then 1 else 0);
      if 0 <= a < Bins[7] {
        assert b >= 0;
        assert Sum(HistogramOf(sales)) == Sum(c) + 1;
      } else if a >= Bins[7] {
        assert b == -1;
        assert Sum(HistogramOf(sales)) == Sum(c) + 1;
      } else {
        assert HistogramOf(sales) == c;
      }
    }
    if forall i :: 0 <= i < |sales| ==> sales[i].amount >= 0 {
      FilterAll(sales, NonNegative);
    }
  }

  /** The loop body for one sale: the first bin holding the amount, then the overflow rule. */
  method CountSale(counts: array<int>, amount: int)
    requires counts.Length == 7
    modifies counts
    ensures counts[..] == AddAmount(old(counts[..]), amount)
  {
    ghost var before := counts[..];
    var i := 0;
    while i < |Bins| - 1
      invariant 0 <= i <= 7
      invariant counts[..] == before
      invariant forall j :: 0 <= j < i ==> !(Bins[j] <= amount < Bins[j + 1])
    {
      if amount >= Bins[i] && amount < Bins[i + 1] {
        counts[i] := counts[i] + 1;
        assert BinOf(amount) == i;
        assert counts[..] == before[i := before[i] + 1];
        break;
      }
      i := i + 1;
    }
    assert counts[..] == if BinOf(amount) >= 0 then before[BinOf(amount) := before[BinOf(amount)] + 1] else before;
    if amount >= Bins[|Bins| - 1] {
      counts[counts.Length - 1] := counts[counts.Length - 1] + 1;
    }
  }

  /** A built histogram: one label and one count per bin. */
  datatype Histogram = Histogram(labels: seq<string>, counts: seq<int>)

  // ---------------------------------------------------------------------
  // The page

  class UserAnalyticsComponent {
    var currentUserId: string
    var userSales: seq<Sale>
    var purchaseSummary: Option<PurchaseSummary>
    var categoryBreakdown: Dict<int>

    /** The page opened by the signed-in user with the given id (`''` when there is none). */
    constructor(userId: string)
      ensures currentUserId == userId && userSales == [] && purchaseSummary == None && categoryBreakdown == Empty()
    {
      currentUserId := userId;
      userSales := [];
      purchaseSummary := None;
      categoryBreakdown := Empty();
    }

    /** Without a user nothing is loaded; otherwise the user's completed sales, their breakdown and the summary. */
    method LoadUserData(service: DataService)
      modifies this
      ensures currentUserId == old(currentUserId)
      ensures old(currentUserId) == "" ==>
        userSales == old(userSales) && categoryBreakdown == old(categoryBreakdown) && purchaseSummary == old(purchaseSummary)
      ensures old(currentUserId) != "" ==>
        userSales == Filter(UserSales(service.sales, currentUserId), IsCompleted) &&
        categoryBreakdown == Breakdown(userSales) &&
        purchaseSummary == Some(PurchaseSummaryOf(service.sales, currentUserId))
    {
      if currentUserId == "" {
        return;
      }
      userSales := Filter(UserSales(service.sales, currentUserId), IsCompleted);
      CalculateCategoryBreakdown();
      purchaseSummary := Some(PurchaseSummaryOf(service.sales, currentUserId));
    }

    method CalculateCategoryBreakdown()
      modifies this
      ensures categoryBreakdown == Breakdown(userSales)
      ensures userSales == old(userSales) && currentUserId == old(currentUserId) && purchaseSummary == old(purchaseSummary)
    {
      categoryBreakdown := Empty();
      for i := 0 to |userSales|
        invariant userSales == old(userSales) && currentUserId == old(currentUserId) && purchaseSummary == old(purchaseSummary)
        invariant categoryBreakdown == Breakdown(userSales[..i])
      {
        var sale := userSales[i];
        var prior := if sale.product in categoryBreakdown.vals then categoryBreakdown.vals[sale.product] else 0;
        BreakdownStep(userSales, i);
        categoryBreakdown := Put(categoryBreakdown, sale.product, prior + sale.amount);
      }
      assert userSales[..|userSales|] == userSales;
    }

    /** No histogram without sales; otherwise the seven labels and the counts of the loop. */
    method PurchaseHistogram() returns (r: Option<Histogram>)
      ensures userSales == [] ==> r == None
      ensures userSales != [] ==> r == Some(Histogram(Labels(), HistogramOf(userSales)))
    {
      if |userSales| == 0 {
        return None;
      }
      var labels := Labels();
      var counts := new int[|labels|](_ => 0);
      for k := 0 to |userSales|
        invariant counts[..] == HistogramOf(userSales[..k])
      {
        CountSale(counts, userSales[k].amount);
        assert userSales[..k + 1][..k] == userSales[..k];
      }
      assert userSales[..|userSales|] == userSales;
      r := Some(Histogram(labels, counts[..]));
    }
  }

  /** What the page loads for a user is exactly that user's completed sales. */
  lemma {:induction false} LoadedSales(sales: seq<Sale>, userId: string)
    ensures Filter(UserSales(sales, userId), IsCompleted) == Filter(sales, Mine(userId))
    decreases |sales|
  {
    if sales != [] {
      var n := |sales| - 1;
      LoadedSales(sales[..n], userId);
      assert UserSales(sales, userId) == UserSales(sales[..n], userId) + (if sales[n].userId == userId then [sales[n]] else []);
      FilterAppend(UserSales(sales[..n], userId), if sales[n].userId == userId then [sales[n]] else [], IsCompleted);
      assert Filter([sales[n]], IsCompleted) == if IsCompleted(sales[n]) then [sales[n]] else [] by {
        assert [sales[n]][..0] == [];
      }
    }
  }

  /** The breakdown of the loaded sales adds up to the summary's total spent. */
  lemma BreakdownMatchesSummary(sales: seq<Sale>, userId: string)
    ensures Total(Breakdown(Filter(UserSales(sales, userId), IsCompleted))) as real == PurchaseSummaryOf(sales, userId).totalSpent
  {
    LoadedSales(sales, userId);
    BreakdownTotal(Filter(sales, Mine(userId)));
    PurchaseSummaryCorrect(sales, userId);
  }
}
