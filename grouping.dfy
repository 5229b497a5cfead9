/**
 * The accumulation pattern every aggregator of the data service follows:
 * walk a list with `forEach`, open a zero bucket for a record's key when the
 * key is not yet present (and the record is one that opens buckets), then
 * add the record's weight and one to the count of the bucket under its key
 * (when the record is one that adds and the bucket exists).
 */
module Grouping {
  import opened Lists
  import opened Dictionary
  import opened KeySort

  /** `{ amount, count }` */
  datatype Bucket = Bucket(amount: int, count: nat)

  /** One output row `{ key, amount, count }`. */
  datatype Entry = Entry(key: string, amount: int, count: nat)

  /**
   * How one aggregator treats a record: the key it files it under, whether it
   * opens a bucket for that key, whether it adds to that bucket, and by how much.
   */
  datatype Rule<!T> = Rule(key: T -> string, opens: T -> bool, adds: T -> bool, weight: T -> int)

  const Zero := Bucket(0, 0)

  function Bump<T>(b: Bucket, x: T, rule: Rule<T>): Bucket {
    Bucket(b.amount + rule.weight(x), b.count + 1)
  }

  /** The body of the `forEach` callback. */
  function Step<T>(d: Dict<Bucket>, x: T, rule: Rule<T>): Dict<Bucket> {
    var k := rule.key(x);
    var ready := if rule.opens(x) && k !in d.vals then Put(d, k, Zero) else d;
    if rule.adds(x) && k in ready.vals then Put(ready, k, Bump(ready.vals[k], x, rule)) else ready
  }

  /** The dictionary after the `forEach` over `xs`, starting from `d`. */
  function Fold<T>(d: Dict<Bucket>, xs: seq<T>, rule: Rule<T>): Dict<Bucket>
    decreases |xs|
  {
    if xs == [] then d else Step(Fold(d, xs[..|xs| - 1], rule), xs[|xs| - 1], rule)
  }

  // ---------------------------------------------------------------------
  // Reference definitions, independent of the dictionary

  /** The keys of the records that open a bucket. */
  function OpenedKeys<T>(xs: seq<T>, rule: Rule<T>): set<string>
    decreases |xs|
  {
    if xs == [] then {}
    else
      var x := xs[|xs| - 1];
      OpenedKeys(xs[..|xs| - 1], rule) + if rule.opens(x) then {rule.key(x)} else {}
  }

  /** The records that add to the bucket of key `k`. */
  function Adding<T>(xs: seq<T>, rule: Rule<T>, k: string): seq<T> {
    Filter(xs, AddsTo(rule, k))
  }

  function AddsTo<T>(rule: Rule<T>, k: string): T -> bool {
    x => rule.adds(x) && rule.key(x) == k
  }

  /** The summed weight of the records that add to `k`. */
  function Tally<T>(xs: seq<T>, rule: Rule<T>, k: string): int {
    SumOf(Adding(xs, rule, k), rule.weight)
  }

  /** Every record that adds either opens its own bucket or finds one in `d`. */
  ghost predicate Covered<T>(d: Dict<Bucket>, xs: seq<T>, rule: Rule<T>) {
    forall i :: 0 <= i < |xs| && rule.adds(xs[i]) ==> rule.opens(xs[i]) || rule.key(xs[i]) in d.vals
  }

  /** The bucket of `k`, or an empty one. */
  function At(d: Dict<Bucket>, k: string): Bucket {
    if k in d.vals then d.vals[k] else Zero
  }

  function AmountAt(d: Dict<Bucket>, k: string): int {
    At(d, k).amount
  }

  function CountAt(d: Dict<Bucket>, k: string): int {
    At(d, k).count
  }

  /** Sum of the bucket amounts, over the keys in the order `Object.keys` lists them. */
  function AmountTotal(d: Dict<Bucket>): int {
    SumOf(d.keys, k => AmountAt(d, k))
  }

  function CountTotal(d: Dict<Bucket>): int {
    SumOf(d.keys, k => CountAt(d, k))
  }

  // ---------------------------------------------------------------------
  // Facts about the fold

  lemma OpenedKeysIff<T>(xs: seq<T>, rule: Rule<T>, k: string)
    ensures k in OpenedKeys(xs, rule) <==> exists i :: 0 <= i < |xs| && rule.opens(xs[i]) && rule.key(xs[i]) == k
    decreases |xs|
  {
    if xs != [] {
      var n := |xs| - 1;
      OpenedKeysIff(xs[..n], rule, k);
      if k in OpenedKeys(xs, rule) && !(rule.opens(xs[n]) && rule.key(xs[n]) == k) {
        var i :| 0 <= i < n && rule.opens(xs[..n][i]) && rule.key(xs[..n][i]) == k;
        assert xs[i] == xs[..n][i];
      }
      if exists i :: 0 <= i < |xs| && rule.opens(xs[i]) && rule.key(xs[i]) == k {
        var i :| 0 <= i < |xs| && rule.opens(xs[i]) && rule.key(xs[i]) == k;
        if i < n {
          assert xs[..n][i] == xs[i];
        }
      }
    }
  }

  /** The fold keeps the dictionary well formed, and its keys are the initial ones plus the ready ones. */
  lemma {:induction false} FoldKeys<T>(d: Dict<Bucket>, xs: seq<T>, rule: Rule<T>)
    ensures Valid(d) ==> Valid(Fold(d, xs, rule))
    ensures Fold(d, xs, rule).vals.Keys == d.vals.Keys + OpenedKeys(xs, rule)
    decreases |xs|
  {
    if xs != [] {
      FoldKeys(d, xs[..|xs| - 1], rule);
    }
  }

  /** A rule that never opens a bucket leaves the key list exactly as it was. */
  lemma {:induction false} FoldClosed<T>(d: Dict<Bucket>, xs: seq<T>, rule: Rule<T>)
    requires forall i :: 0 <= i < |xs| ==> !rule.opens(xs[i])
    ensures Fold(d, xs, rule).keys == d.keys
    decreases |xs|
  {
    if xs != [] {
      var n := |xs| - 1;
      assert forall i :: 0 <= i < n ==> xs[..n][i] == xs[i];
      FoldClosed(d, xs[..n], rule);
    }
  }

  lemma TallyStep<T>(xs: seq<T>, rule: Rule<T>, k: string)
    requires xs != []
    ensures var x := xs[|xs| - 1];
      Tally(xs, rule, k) == Tally(xs[..|xs| - 1], rule, k) + (if rule.adds(x) && rule.key(x) == k then rule.weight(x) else 0)
    ensures var x := xs[|xs| - 1];
      |Adding(xs, rule, k)| == |Adding(xs[..|xs| - 1], rule, k)| + (if rule.adds(x) && rule.key(x) == k then 1 else 0)
  {
    var n := |xs| - 1;
    assert xs == xs[..n] + [xs[n]];
    var p := AddsTo(rule, k);
    FilterAppend(xs[..n], [xs[n]], p);
    SumOfAppend(Filter(xs[..n], p), Filter([xs[n]], p), rule.weight);
    assert [xs[n]][..0] == [];
  }

  /** One step changes at most the bucket of the record's key. */
  lemma StepAt<T>(d: Dict<Bucket>, x: T, rule: Rule<T>, k: string)
    ensures k in Step(d, x, rule).vals <==> k in d.vals || (rule.opens(x) && rule.key(x) == k)
    ensures At(Step(d, x, rule), k) ==
      if rule.adds(x) && rule.key(x) == k && k in Step(d, x, rule).vals then Bump(At(d, k), x, rule) else At(d, k)
  {
  }

  /**
   * A bucket present from the start ends with its initial contents plus every
   * record that adds to it; when every adding record is covered, this holds
   * for every key, a key without a bucket counting as an empty one.
   */
  lemma {:induction false} FoldValues<T>(d: Dict<Bucket>, xs: seq<T>, rule: Rule<T>, k: string)
    requires k in d.vals || Covered(d, xs, rule)
    ensures At(Fold(d, xs, rule), k) == Bucket(At(d, k).amount + Tally(xs, rule, k), At(d, k).count + |Adding(xs, rule, k)|)
    decreases |xs|
  {
    if xs == [] {
      assert Adding(xs, rule, k) == [];
    } else {
      var n := |xs| - 1;
      var x := xs[n];
      if Covered(d, xs, rule) {
        CoveredInit(d, xs, rule);
      }
      FoldValues(d, xs[..n], rule, k);
      var f := Fold(d, xs[..n], rule);
      assert Fold(d, xs, rule) == Step(f, x, rule);
      FoldKeys(d, xs[..n], rule);
      StepAt(f, x, rule, k);
      TallyStep(xs, rule, k);
      if rule.adds(x) && rule.key(x) == k {
        assert k in Step(f, x, rule).vals;
      }
    }
  }

  lemma CoveredInit<T>(d: Dict<Bucket>, xs: seq<T>, rule: Rule<T>)
    requires xs != [] && Covered(d, xs, rule)
    ensures Covered(d, xs[..|xs| - 1], rule)
  {
    var n := |xs| - 1;
    forall i | 0 <= i < n && rule.adds(xs[..n][i])
      ensures rule.opens(xs[..n][i]) || rule.key(xs[..n][i]) in d.vals
    {
      assert xs[..n][i] == xs[i];
    }
  }

  /** Under coverage, a key that never gets a bucket has no record adding to it. */
  lemma FoldDropsNothing<T>(d: Dict<Bucket>, xs: seq<T>, rule: Rule<T>, k: string)
    requires Covered(d, xs, rule)
    requires k !in Fold(d, xs, rule).vals
    ensures Adding(xs, rule, k) == []
  {
    FoldValues(d, xs, rule, k);
    FoldKeys(d, xs, rule);
  }

  /** Opening an empty bucket changes no total. */
  lemma PutZeroTotals(d: Dict<Bucket>, k: string)
    requires Valid(d) && k !in d.vals
    ensures AmountTotal(Put(d, k, Zero)) == AmountTotal(d)
    ensures CountTotal(Put(d, k, Zero)) == CountTotal(d)
  {
    var r := Put(d, k, Zero);
    assert r.keys == d.keys + [k];
    assert k !in d.keys;
    PutZeroAmount(d, k);
    PutZeroCount(d, k);
  }

  lemma PutZeroAmount(d: Dict<Bucket>, k: string)
    requires Valid(d) && k !in d.vals && Put(d, k, Zero).keys == d.keys + [k] && k !in d.keys
    ensures AmountTotal(Put(d, k, Zero)) == AmountTotal(d)
  {
    var r := Put(d, k, Zero);
    var fa, ga := j => AmountAt(d, j), j => AmountAt(r, j);
    SumOfChange(d.keys, fa, ga, k);
    SumOfAppend(d.keys, [k], ga);
    assert [k][..0] == [];
    assert SumOf([k], ga) == 0;
  }

  lemma PutZeroCount(d: Dict<Bucket>, k: string)
    requires Valid(d) && k !in d.vals && Put(d, k, Zero).keys == d.keys + [k] && k !in d.keys
    ensures CountTotal(Put(d, k, Zero)) == CountTotal(d)
  {
    var r := Put(d, k, Zero);
    var fc, gc := j => CountAt(d, j), j => CountAt(r, j);
    SumOfChange(d.keys, fc, gc, k);
    SumOfAppend(d.keys, [k], gc);
    assert [k][..0] == [];
    assert SumOf([k], gc) == 0;
  }

  /** Replacing one bucket changes the totals by the difference. */
  lemma PutTotals(d: Dict<Bucket>, k: string, b: Bucket)
    requires Valid(d) && k in d.vals
    ensures AmountTotal(Put(d, k, b)) == AmountTotal(d) - d.vals[k].amount + b.amount
    ensures CountTotal(Put(d, k, b)) == CountTotal(d) - d.vals[k].count + b.count
  {
    var r := Put(d, k, b);
    SumOfChange(d.keys, j => AmountAt(d, j), j => AmountAt(r, j), k);
    SumOfChange(d.keys, j => CountAt(d, j), j => CountAt(r, j), k);
  }

  /** One step adds the record's weight to the totals exactly when it finds or opens its bucket. */
  lemma StepTotals<T>(d: Dict<Bucket>, x: T, rule: Rule<T>)
    requires Valid(d)
    ensures var lands := rule.adds(x) && (rule.opens(x) || rule.key(x) in d.vals);
      AmountTotal(Step(d, x, rule)) == AmountTotal(d) + (if lands then rule.weight(x) else 0) &&
      CountTotal(Step(d, x, rule)) == CountTotal(d) + (if lands then 1 else 0)
  {
    var k := rule.key(x);
    var ready := if rule.opens(x) && k !in d.vals then Put(d, k, Zero) else d;
    if rule.opens(x) && k !in d.vals {
      PutZeroTotals(d, k);
    }
    if rule.adds(x) && k in ready.vals {
      PutTotals(ready, k, Bump(ready.vals[k], x, rule));
    }
  }

  /**
   * When every adding record is covered, the buckets' amounts and counts grow
   * by the summed weight and the number of the adding records.
   */
  lemma {:induction false} FoldTotals<T>(d: Dict<Bucket>, xs: seq<T>, rule: Rule<T>)
    requires Valid(d)
    requires Covered(d, xs, rule)
    ensures AmountTotal(Fold(d, xs, rule)) == AmountTotal(d) + SumOf(Filter(xs, rule.adds), rule.weight)
    ensures CountTotal(Fold(d, xs, rule)) == CountTotal(d) + |Filter(xs, rule.adds)|
    decreases |xs|
  {
    if xs != [] {
      var n := |xs| - 1;
      var x := xs[n];
      CoveredInit(d, xs, rule);
      FoldTotals(d, xs[..n], rule);
      var f := Fold(d, xs[..n], rule);
      assert Fold(d, xs, rule) == Step(f, x, rule);
      FoldKeys(d, xs[..n], rule);
      StepTotals(f, x, rule);
      AddsStep(xs, rule);
      if rule.adds(x) {
        assert rule.opens(x) || rule.key(x) in f.vals;
      }
    }
  }

  /** The adding records of a list are those of its initial part plus, maybe, its last record. */
  lemma AddsStep<T>(xs: seq<T>, rule: Rule<T>)
    requires xs != []
    ensures var x := xs[|xs| - 1];
      SumOf(Filter(xs, rule.adds), rule.weight) ==
        SumOf(Filter(xs[..|xs| - 1], rule.adds), rule.weight) + (if rule.adds(x) then rule.weight(x) else 0) &&
      |Filter(xs, rule.adds)| == |Filter(xs[..|xs| - 1], rule.adds)| + (if rule.adds(x) then 1 else 0)
  {
    var n := |xs| - 1;
    var x := xs[n];
    assert xs == xs[..n] + [x];
    FilterAppend(xs[..n], [x], rule.adds);
    SumOfAppend(Filter(xs[..n], rule.adds), Filter([x], rule.adds), rule.weight);
    assert [x][..0] == [];
  }

  /** The `forEach` loop itself. */
  method Accumulate<T>(init: Dict<Bucket>, xs: seq<T>, rule: Rule<T>) returns (d: Dict<Bucket>)
    ensures d == Fold(init, xs, rule)
  {
    d := init;
    for i := 0 to |xs|
      invariant d == Fold(init, xs[..i], rule)
    {
      var x := xs[i];
      var k := rule.key(x);
      if rule.opens(x) && k !in d.vals {
        d := Put(d, k, Zero);
      }
      if rule.adds(x) && k in d.vals {
        d := Put(d, k, Bump(d.vals[k], x, rule));
      }
      assert xs[..i + 1][..i] == xs[..i];
    }
    assert xs[..|xs|] == xs;
  }

  /** `for (const k of ks) obj[k] = { amount: 0, count: 0 }` */
  function Seed(d: Dict<Bucket>, ks: seq<string>): Dict<Bucket>
    decreases |ks|
  {
    if ks == [] then d else Put(Seed(d, ks[..|ks| - 1]), ks[|ks| - 1], Zero)
  }

  /** Seeding one more key of a list puts that key after the ones before it. */
  lemma SeedStep(d: Dict<Bucket>, ks: seq<string>, n: nat)
    requires n < |ks|
    ensures Seed(d, ks[..n + 1]) == Put(Seed(d, ks[..n]), ks[n], Zero)
  {
    assert ks[..n + 1][..n] == ks[..n];
  }

  /** Seeding adds exactly the listed keys, each with an empty bucket; distinct keys keep their order. */
  lemma {:induction false} SeedFacts(d: Dict<Bucket>, ks: seq<string>)
    requires Valid(d)
    ensures Valid(Seed(d, ks))
    ensures Seed(d, ks).vals.Keys == d.vals.Keys + set k | k in ks
    ensures forall k :: k in ks ==> Seed(d, ks).vals[k] == Zero
    ensures Distinct(ks) && d.keys == [] ==> Seed(d, ks).keys == ks
    decreases |ks|
  {
    if ks != [] {
      var n := |ks| - 1;
      SeedFacts(d, ks[..n]);
      assert ks == ks[..n] + [ks[n]];
      if Distinct(ks) && d.keys == [] {
        assert Distinct(ks[..n]);
        assert ks[n] !in ks[..n];
      }
    }
  }

  // ---------------------------------------------------------------------
  // Emitting rows

  /** `Object.keys(obj).sort()` */
  function SortedKeys<V>(d: Dict<V>): seq<string> {
    SortBy(d.keys, (k: string) => k)
  }

  /** The sorted keys are the dictionary's keys, each once, strictly ascending. */
  lemma SortedKeysCorrect<V>(d: Dict<V>)
    requires Valid(d)
    ensures multiset(SortedKeys(d)) == multiset(d.keys)
    ensures forall k :: k in SortedKeys(d) <==> k in d.vals
    ensures forall i, j :: 0 <= i < j < |SortedKeys(d)| ==> Text.Less(SortedKeys(d)[i], SortedKeys(d)[j])
    ensures Distinct(SortedKeys(d))
    ensures |SortedKeys(d)| == |d.keys|
  {
    var id := (k: string) => k;
    SortByCorrect(d.keys, id);
    assert |multiset(SortedKeys(d))| == |multiset(d.keys)|;
    forall k ensures k in SortedKeys(d) <==> k in d.keys {
      assert k in SortedKeys(d) <==> k in multiset(SortedKeys(d));
    }
    forall i, j | 0 <= i < j < |SortedKeys(d)| ensures SortedKeys(d)[i] != SortedKeys(d)[j] {
      Text.LessIrreflexive(SortedKeys(d)[i]);
    }
  }

  /** Each sorted key is a key of the dictionary. */
  lemma SortedKeyIn<V>(d: Dict<V>, i: int)
    requires Valid(d) && 0 <= i < |SortedKeys(d)|
    ensures SortedKeys(d)[i] in d.vals
  {
    SortedKeysCorrect(d);
  }

  /** `keys.map(k => ({ key: k, ...obj[k] }))` */
  function Rows(ks: seq<string>, d: Dict<Bucket>): (r: seq<Entry>)
    ensures |r| == |ks|
    ensures forall i :: 0 <= i < |ks| ==> r[i] == Entry(ks[i], AmountAt(d, ks[i]), CountAt(d, ks[i]))
    decreases |ks|
  {
    if ks == [] then []
    else Rows(ks[..|ks| - 1], d) + [Entry(ks[|ks| - 1], AmountAt(d, ks[|ks| - 1]), CountAt(d, ks[|ks| - 1]))]
  }

  /** The rows' amounts and counts add up to the buckets' totals over the same keys. */
  lemma {:induction false} RowsTotals(ks: seq<string>, d: Dict<Bucket>)
    ensures SumOf(Rows(ks, d), (e: Entry) => e.amount) == SumOf(ks, k => AmountAt(d, k))
    ensures SumOf(Rows(ks, d), (e: Entry) => e.count) == SumOf(ks, k => CountAt(d, k))
    decreases |ks|
  {
    if ks != [] {
      var n := |ks| - 1;
      RowsTotals(ks[..n], d);
      assert Rows(ks, d)[..n] == Rows(ks[..n], d);
    }
  }

  /** Sorting the keys first does not change the totals. */
  lemma SortedRowsTotals(d: Dict<Bucket>)
    requires Valid(d)
    ensures SumOf(Rows(SortedKeys(d), d), (e: Entry) => e.amount) == AmountTotal(d)
    ensures SumOf(Rows(SortedKeys(d), d), (e: Entry) => e.count) == CountTotal(d)
  {
    SortedKeysCorrect(d);
    RowsTotals(SortedKeys(d), d);
    SumOfPermutation(SortedKeys(d), d.keys, k => AmountAt(d, k));
    SumOfPermutation(SortedKeys(d), d.keys, k => CountAt(d, k));
  }

  /** The rows in insertion order have the buckets' totals. */
  lemma KeyRowsTotals(d: Dict<Bucket>)
    ensures SumOf(Rows(d.keys, d), (e: Entry) => e.amount) == AmountTotal(d)
    ensures SumOf(Rows(d.keys, d), (e: Entry) => e.count) == CountTotal(d)
  {
    RowsTotals(d.keys, d);
  }

  function EntryKeys(r: seq<Entry>): (ks: seq<string>)
    ensures |ks| == |r| && forall i :: 0 <= i < |r| ==> ks[i] == r[i].key
  {
    seq(|r|, i requires 0 <= i < |r| => r[i].key)
  }

  /** Keys strictly ascending in JavaScript's string order (so also unique). */
  ghost predicate Ascending(ks: seq<string>) {
    forall i, j :: 0 <= i < j < |ks| ==> Text.Less(ks[i], ks[j])
  }

  /** The key was opened by some record. */
  ghost predicate IsOpened<T>(xs: seq<T>, rule: Rule<T>, k: string) {
    exists i :: 0 <= i < |xs| && rule.opens(xs[i]) && rule.key(xs[i]) == k
  }

  /** A fold from `{}` has one bucket per opened key, and (covered) each holds its adding records. */
  lemma FreshFold<T>(xs: seq<T>, rule: Rule<T>)
    ensures Valid(Fold(Empty(), xs, rule))
    ensures forall k :: k in Fold(Empty(), xs, rule).vals <==> IsOpened(xs, rule, k)
    ensures Covered(Empty(), xs, rule) ==> forall k ::
      At(Fold(Empty(), xs, rule), k) == Bucket(Tally(xs, rule, k), |Adding(xs, rule, k)|)
    ensures Covered(Empty(), xs, rule) ==>
      AmountTotal(Fold(Empty(), xs, rule)) == SumOf(Filter(xs, rule.adds), rule.weight) &&
      CountTotal(Fold(Empty(), xs, rule)) == |Filter(xs, rule.adds)|
  {
    var e: Dict<Bucket> := Empty();
    FoldKeys(e, xs, rule);
    forall k ensures k in Fold(e, xs, rule).vals <==> IsOpened(xs, rule, k) {
      OpenedKeysIff(xs, rule, k);
    }
    if Covered(e, xs, rule) {
      forall k ensures At(Fold(e, xs, rule), k) == Bucket(Tally(xs, rule, k), |Adding(xs, rule, k)|) {
        FoldValues(e, xs, rule, k);
      }
      FoldTotals(e, xs, rule);
      assert AmountTotal(e) == 0 && CountTotal(e) == 0;
    }
  }

  /** `Object.keys(obj).sort().map(...)` after the fold from `{}`. */
  function SortedRows<T>(xs: seq<T>, rule: Rule<T>): seq<Entry> {
    var d := Fold(Empty(), xs, rule);
    Rows(SortedKeys(d), d)
  }

  /** `Object.keys(obj).map(...)` after the fold from `{}`. */
  function InsertionRows<T>(xs: seq<T>, rule: Rule<T>): seq<Entry> {
    var d := Fold(Empty(), xs, rule);
    Rows(d.keys, d)
  }

  /**
   * The sorted rows of a covered fold from `{}`: keys ascending, exactly the
   * opened keys, each row holding its adding records, totals those of all
   * adding records.
   */
  lemma SortedReport<T>(xs: seq<T>, rule: Rule<T>)
    requires Covered(Empty(), xs, rule)
    ensures Ascending(EntryKeys(SortedRows(xs, rule)))
    ensures forall k :: k in EntryKeys(SortedRows(xs, rule)) <==> IsOpened(xs, rule, k)
    ensures forall i :: 0 <= i < |SortedRows(xs, rule)| ==>
      SortedRows(xs, rule)[i].amount == Tally(xs, rule, SortedRows(xs, rule)[i].key) &&
      SortedRows(xs, rule)[i].count == |Adding(xs, rule, SortedRows(xs, rule)[i].key)|
    ensures SumOf(SortedRows(xs, rule), (e: Entry) => e.amount) == SumOf(Filter(xs, rule.adds), rule.weight)
    ensures SumOf(SortedRows(xs, rule), (e: Entry) => e.count) == |Filter(xs, rule.adds)|
  {
    var d := Fold(Empty(), xs, rule);
    FreshFold(xs, rule);
    SortedKeysCorrect(d);
    SortedRowsTotals(d);
    var r := SortedRows(xs, rule);
    assert EntryKeys(r) == SortedKeys(d);
    forall i | 0 <= i < |r|
      ensures r[i].amount == Tally(xs, rule, r[i].key) && r[i].count == |Adding(xs, rule, r[i].key)|
    {
      assert At(d, r[i].key) == Bucket(Tally(xs, rule, r[i].key), |Adding(xs, rule, r[i].key)|);
    }
  }

  /** The same for rows left in insertion order; keys are then unique. */
  lemma InsertionReport<T>(xs: seq<T>, rule: Rule<T>)
    requires Covered(Empty(), xs, rule)
    ensures Distinct(EntryKeys(InsertionRows(xs, rule)))
    ensures forall k :: k in EntryKeys(InsertionRows(xs, rule)) <==> IsOpened(xs, rule, k)
    ensures forall i :: 0 <= i < |InsertionRows(xs, rule)| ==>
      InsertionRows(xs, rule)[i].amount == Tally(xs, rule, InsertionRows(xs, rule)[i].key) &&
      InsertionRows(xs, rule)[i].count == |Adding(xs, rule, InsertionRows(xs, rule)[i].key)|
    ensures SumOf(InsertionRows(xs, rule), (e: Entry) => e.amount) == SumOf(Filter(xs, rule.adds), rule.weight)
    ensures SumOf(InsertionRows(xs, rule), (e: Entry) => e.count) == |Filter(xs, rule.adds)|
  {
    InsertionKeys(xs, rule);
    InsertionValues(xs, rule);
    var d := Fold(Empty(), xs, rule);
    FreshFold(xs, rule);
    KeyRowsTotals(d);
  }

  lemma InsertionKeys<T>(xs: seq<T>, rule: Rule<T>)
    ensures Distinct(EntryKeys(InsertionRows(xs, rule)))
    ensures forall k :: k in EntryKeys(InsertionRows(xs, rule)) <==> IsOpened(xs, rule, k)
  {
    var d := Fold(Empty(), xs, rule);
    FreshFold(xs, rule);
    assert EntryKeys(InsertionRows(xs, rule)) == d.keys;
  }

  lemma InsertionValues<T>(xs: seq<T>, rule: Rule<T>)
    requires Covered(Empty(), xs, rule)
    ensures forall i :: 0 <= i < |InsertionRows(xs, rule)| ==>
      InsertionRows(xs, rule)[i].amount == Tally(xs, rule, InsertionRows(xs, rule)[i].key) &&
      InsertionRows(xs, rule)[i].count == |Adding(xs, rule, InsertionRows(xs, rule)[i].key)|
  {
    var d := Fold(Empty(), xs, rule);
    var r := InsertionRows(xs, rule);
    assert r == Rows(d.keys, d);
    forall i | 0 <= i < |r|
      ensures r[i].amount == Tally(xs, rule, r[i].key) && r[i].count == |Adding(xs, rule, r[i].key)|
    {
      FoldValues(Empty(), xs, rule, r[i].key);
    }
  }

}
