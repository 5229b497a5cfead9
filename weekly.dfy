/**
 * The weekly report of one user: 52 week keys are opened up front (this
 * week and the 51 before it, each keyed by the ISO date of its Sunday) and
 * a completed sale of the user adds to the week holding its date only when
 * that week was opened; other sales are dropped.
 */
module Weekly {
  import opened Lists
  import opened Dictionary
  import opened Grouping
  import opened Records
  import opened Aggregates

  /**
   * What the page gets from `Date`: today's day number, the day number of a
   * sale's date string, and the ISO key (`toISOString().split('T')[0]`) of a
   * day number. Day 0 is a Thursday.
   */
  datatype Calendar = Calendar(today: int, dayOf: string -> int, iso: int -> string)

  /** `getDay()`: 0 for Sunday through 6 for Saturday. */
  function Weekday(d: int): (r: int)
    ensures 0 <= r < 7
  {
    (d + 4) % 7
  }

  /** The Sunday starting the week of day `d`. */
  function WeekStart(d: int): int {
    d - Weekday(d)
  }

  /** The key seeded for the week `w` weeks before the current one. */
  function SeedKey(cal: Calendar, w: int): string {
    cal.iso(cal.today - (Weekday(cal.today) + 7 * w))
  }

  /** The seeded keys in the order they are assigned: `w` from 51 down to 0. */
  function SeedKeys(cal: Calendar): (r: seq<string>)
    ensures |r| == 52 && forall j :: 0 <= j < 52 ==> r[j] == SeedKey(cal, 51 - j)
  {
    seq(52, j requires 0 <= j < 52 => SeedKey(cal, 51 - j))
  }

  /**
   * The 52 zeroed weeks of `getUserWeeklyAnalytics`, put from 51 weeks back
   * to this week; pass `j` puts week `51 - j`.
   */
  method SeedWeeks(cal: Calendar) returns (weeklyData: Dict<Bucket>)
    ensures weeklyData == Seed(Empty(), SeedKeys(cal))
  {
    weeklyData := Empty();
    for j := 0 to 52
      invariant weeklyData == Seed(Empty(), SeedKeys(cal)[..j])
    {
      var w := 51 - j;
      SeedStep(Empty(), SeedKeys(cal), j);
      weeklyData := Put(weeklyData, SeedKey(cal, w), Zero);
    }
    assert SeedKeys(cal)[..52] == SeedKeys(cal);
  }

  /** The key of the week holding a sale's date. */
  function SaleWeekKey(cal: Calendar, s: Sale): string {
    cal.iso(WeekStart(cal.dayOf(s.date)))
  }

  /** No sale opens a week; a completed sale of the user adds to its week. */
  function WeeklyRule(userId: string, cal: Calendar): Rule<Sale> {
    Rule((s: Sale) => SaleWeekKey(cal, s), (s: Sale) => false, (s: Sale) => IsMine(userId, s), Amount)
  }

  function WeeklyTotals(sales: seq<Sale>, userId: string, cal: Calendar): seq<Entry> {
    var d := Fold(Seed(Empty(), SeedKeys(cal)), sales, WeeklyRule(userId, cal));
    Rows(SortedKeys(d), d)
  }

  /** The user's completed sales whose week has the given key. */
  function MineInWeek(sales: seq<Sale>, userId: string, cal: Calendar, week: string): seq<Sale> {
    Filter(sales, InWeek(userId, cal, week))
  }

  function InWeek(userId: string, cal: Calendar, week: string): Sale -> bool {
    (s: Sale) => IsMine(userId, s) && SaleWeekKey(cal, s) == week
  }

  /** A seeded key. */
  ghost predicate IsSeeded(cal: Calendar, k: string) {
    exists w :: 0 <= w < 52 && SeedKey(cal, w) == k
  }

  ghost predicate IsoInjective(cal: Calendar) {
    forall a, b :: cal.iso(a) == cal.iso(b) ==> a == b
  }

  /** The dictionary after the loop over the sales. */
  function WeeklyFold(sales: seq<Sale>, userId: string, cal: Calendar): Dict<Bucket> {
    Fold(Seed(Empty(), SeedKeys(cal)), sales, WeeklyRule(userId, cal))
  }

  /** The seeded keys are distinct when distinct days have distinct keys. */
  lemma SeedKeysDistinct(cal: Calendar)
    requires IsoInjective(cal)
    ensures Distinct(SeedKeys(cal))
  {
    var ks := SeedKeys(cal);
    forall i, j | 0 <= i < j < 52 ensures ks[i] != ks[j] {
      assert ks[i] == cal.iso(cal.today - (Weekday(cal.today) + 7 * (51 - i)));
    }
  }

  /** The fold keeps the seeded keys, in seeding order. */
  lemma WeeklyFoldKeys(sales: seq<Sale>, userId: string, cal: Calendar)
    ensures Valid(WeeklyFold(sales, userId, cal))
    ensures forall k :: k in WeeklyFold(sales, userId, cal).vals <==> IsSeeded(cal, k)
    ensures IsoInjective(cal) ==> WeeklyFold(sales, userId, cal).keys == SeedKeys(cal)
  {
    var rule := WeeklyRule(userId, cal);
    var ks := SeedKeys(cal);
    var seeded := Seed(Empty(), ks);
    var d := WeeklyFold(sales, userId, cal);
    assert d == Fold(seeded, sales, rule);
    SeedFacts(Empty(), ks);
    FoldKeys(seeded, sales, rule);
    FoldClosed(seeded, sales, rule);
    WeeklyOpensNothing(sales, userId, cal);
    forall k ensures k in d.vals <==> IsSeeded(cal, k) {
      SeededIff(cal, k);
    }
    if IsoInjective(cal) {
      SeedKeysDistinct(cal);
    }
  }

  /** No sale opens a week of its own. */
  lemma WeeklyOpensNothing(sales: seq<Sale>, userId: string, cal: Calendar)
    ensures OpenedKeys(sales, WeeklyRule(userId, cal)) == {}
  {
    var rule := WeeklyRule(userId, cal);
    forall k ensures k !in OpenedKeys(sales, rule) {
      OpenedKeysIff(sales, rule, k);
    }
  }

  /** The seeded weeks are the keys listed for them. */
  lemma SeededIff(cal: Calendar, k: string)
    ensures k in SeedKeys(cal) <==> IsSeeded(cal, k)
  {
    var ks := SeedKeys(cal);
    if IsSeeded(cal, k) {
      var w :| 0 <= w < 52 && SeedKey(cal, w) == k;
      assert ks[51 - w] == k;
    }
  }

  /** Each seeded week ends holding the user's completed sales of that week. */
  lemma WeeklyFoldValues(sales: seq<Sale>, userId: string, cal: Calendar, k: string)
    requires IsSeeded(cal, k)
    ensures At(WeeklyFold(sales, userId, cal), k) ==
      Bucket(Revenue(MineInWeek(sales, userId, cal, k)), |MineInWeek(sales, userId, cal, k)|)
  {
    var rule := WeeklyRule(userId, cal);
    var seeded := Seed(Empty(), SeedKeys(cal));
    assert WeeklyFold(sales, userId, cal) == Fold(seeded, sales, rule);
    SeededHas(cal, k);
    FoldValues(seeded, sales, rule, k);
    WeeklyAdding(sales, userId, cal, k);
  }

  /** A seeded key starts with an empty bucket. */
  lemma SeededHas(cal: Calendar, k: string)
    requires IsSeeded(cal, k)
    ensures k in Seed(Empty(), SeedKeys(cal)).vals && At(Seed(Empty(), SeedKeys(cal)), k) == Zero
  {
    var ks := SeedKeys(cal);
    SeedFacts(Empty(), ks);
    var w :| 0 <= w < 52 && SeedKey(cal, w) == k;
    assert ks[51 - w] == k;
  }

  /** The sales adding to a week are the user's completed sales of that week. */
  lemma WeeklyAdding(sales: seq<Sale>, userId: string, cal: Calendar, k: string)
    ensures Adding(sales, WeeklyRule(userId, cal), k) == MineInWeek(sales, userId, cal, k)
  {
    FilterCongruent(sales, AddsTo(WeeklyRule(userId, cal), k), InWeek(userId, cal, k));
  }

  /**
   * Exactly the seeded weeks, ascending, 52 of them when distinct days have
   * distinct ISO keys; each holds the user's completed sales of that week.
   */
  lemma WeeklyTotalsCorrect(sales: seq<Sale>, userId: string, cal: Calendar)
    ensures Ascending(EntryKeys(WeeklyTotals(sales, userId, cal)))
    ensures forall k :: k in EntryKeys(WeeklyTotals(sales, userId, cal)) <==> IsSeeded(cal, k)
    ensures forall i :: 0 <= i < |WeeklyTotals(sales, userId, cal)| ==>
      var e := WeeklyTotals(sales, userId, cal)[i];
      e.amount == Revenue(MineInWeek(sales, userId, cal, e.key)) && e.count == |MineInWeek(sales, userId, cal, e.key)|
    ensures IsoInjective(cal) ==> |WeeklyTotals(sales, userId, cal)| == 52
  {
    WeeklyRowKeys(sales, userId, cal);
    WeeklyRowValues(sales, userId, cal);
  }

  lemma WeeklyRowKeys(sales: seq<Sale>, userId: string, cal: Calendar)
    ensures Ascending(EntryKeys(WeeklyTotals(sales, userId, cal)))
    ensures forall k :: k in EntryKeys(WeeklyTotals(sales, userId, cal)) <==> IsSeeded(cal, k)
    ensures IsoInjective(cal) ==> |WeeklyTotals(sales, userId, cal)| == 52
  {
    var d := WeeklyFold(sales, userId, cal);
    var r := WeeklyTotals(sales, userId, cal);
    assert r == Rows(SortedKeys(d), d);
    WeeklyFoldKeys(sales, userId, cal);
    SortedKeysCorrect(d);
    var ks := EntryKeys(r);
    assert ks == SortedKeys(d);
    forall k ensures k in ks <==> IsSeeded(cal, k) {
      assert k in ks <==> k in d.vals;
    }
    assert |ks| == |d.keys|;
  }

  lemma WeeklyRowValues(sales: seq<Sale>, userId: string, cal: Calendar)
    ensures forall i :: 0 <= i < |WeeklyTotals(sales, userId, cal)| ==>
      var e := WeeklyTotals(sales, userId, cal)[i];
      e.amount == Revenue(MineInWeek(sales, userId, cal, e.key)) && e.count == |MineInWeek(sales, userId, cal, e.key)|
  {
    var d := WeeklyFold(sales, userId, cal);
    var r := WeeklyTotals(sales, userId, cal);
    assert r == Rows(SortedKeys(d), d);
    WeeklyFoldKeys(sales, userId, cal);
    forall i | 0 <= i < |r|
      ensures r[i].amount == Revenue(MineInWeek(sales, userId, cal, r[i].key)) && r[i].count == |MineInWeek(sales, userId, cal, r[i].key)|
    {
      SortedKeyIn(d, i);
      WeeklyFoldValues(sales, userId, cal, r[i].key);
    }
  }

  /** A week start is a Sunday. */
  lemma WeekStartIsSunday(d: int)
    ensures WeekStart(d) <= d < WeekStart(d) + 7
    ensures (WeekStart(d) + 4) % 7 == 0
  {
    assert d + 4 == 7 * ((d + 4) / 7) + (d + 4) % 7;
    assert WeekStart(d) + 4 == 7 * ((d + 4) / 7);
  }

  /**
   * A day's week is one of the 52 seeded weeks exactly when the day lies
   * between the Sunday 51 weeks before the current week and the end of the
   * current week.
   */
  lemma SeededWindow(cal: Calendar, day: int)
    ensures (exists w :: 0 <= w < 52 && WeekStart(day) == WeekStart(cal.today) - 7 * w) <==>
      WeekStart(cal.today) - 7 * 51 <= day < WeekStart(cal.today) + 7
  {
    var a, b := WeekStart(cal.today), WeekStart(day);
    WeekStartIsSunday(cal.today);
    WeekStartIsSunday(day);
    var qa, qb := (a + 4) / 7, (b + 4) / 7;
    assert a + 4 == 7 * qa;
    assert b + 4 == 7 * qb;
    if a - 7 * 51 <= day < a + 7 {
      var w := qa - qb;
      assert b == a - 7 * w;
      assert 0 <= w < 52;
    }
  }

  /**
   * A completed sale of the user is counted when its date lies in the
   * 52-week window; when distinct days have distinct keys, only then.
   */
  lemma SaleCountedInWindow(sales: seq<Sale>, userId: string, cal: Calendar, s: Sale)
    requires s in sales && IsMine(userId, s)
    ensures var day := cal.dayOf(s.date); var start := WeekStart(cal.today);
      (start - 7 * 51 <= day < start + 7 ==> s in MineInWeek(sales, userId, cal, SaleWeekKey(cal, s)) && IsSeeded(cal, SaleWeekKey(cal, s))) &&
      (IsoInjective(cal) && IsSeeded(cal, SaleWeekKey(cal, s)) ==> start - 7 * 51 <= day < start + 7)
  {
    var day := cal.dayOf(s.date);
    var k := SaleWeekKey(cal, s);
    SeededWindow(cal, day);
    FilterMembers(sales, InWeek(userId, cal, k));
    WeekStartIsSunday(cal.today);
    if WeekStart(cal.today) - 7 * 51 <= day < WeekStart(cal.today) + 7 {
      var w :| 0 <= w < 52 && WeekStart(day) == WeekStart(cal.today) - 7 * w;
      assert SeedKey(cal, w) == k;
    }
    if IsoInjective(cal) && IsSeeded(cal, k) {
      var w :| 0 <= w < 52 && SeedKey(cal, w) == k;
      assert WeekStart(day) == WeekStart(cal.today) - 7 * w;
    }
  }
}
