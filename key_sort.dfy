/**
 * `Object.keys(obj).sort().map(k => row(k, obj[k]))`: the rows of a dictionary
 * put in JavaScript's default string order of their keys. Modelled as an
 * insertion sort on the rows, keyed by a projection.
 */
module KeySort {
  import opened Text

  /** No two rows share a key. */
  ghost predicate KeysDistinct<T>(xs: seq<T>, key: T -> string) {
    forall i, j :: 0 <= i < j < |xs| ==> key(xs[i]) != key(xs[j])
  }

  /** Keys strictly ascending in JavaScript's string order. */
  ghost predicate SortedBy<T>(xs: seq<T>, key: T -> string) {
    forall i, j :: 0 <= i < j < |xs| ==> Less(key(xs[i]), key(xs[j]))
  }

  function Insert<T>(x: T, s: seq<T>, key: T -> string): seq<T>
    decreases |s|
  {
    if s == [] then [x]
    else if Less(key(x), key(s[0])) then [x] + s
    else [s[0]] + Insert(x, s[1..], key)
  }

  function SortBy<T>(xs: seq<T>, key: T -> string): seq<T>
    decreases |xs|
  {
    if xs == [] then [] else Insert(xs[0], SortBy(xs[1..], key), key)
  }

  lemma {:induction false} InsertPermutes<T>(x: T, s: seq<T>, key: T -> string)
    ensures multiset(Insert(x, s, key)) == multiset(s) + multiset{x}
    decreases |s|
  {
    if s != [] && !Less(key(x), key(s[0])) {
      InsertPermutes(x, s[1..], key);
      assert s == [s[0]] + s[1..];
    }
  }

  lemma {:induction false} InsertSorted<T>(x: T, s: seq<T>, key: T -> string)
    requires SortedBy(s, key)
    requires forall i :: 0 <= i < |s| ==> key(s[i]) != key(x)
    ensures SortedBy(Insert(x, s, key), key)
    decreases |s|
  {
    if s == [] {
    } else if Less(key(x), key(s[0])) {
      forall j | 0 < j < |s| ensures Less(key(x), key(s[j])) {
        LessTransitive(key(x), key(s[0]), key(s[j]));
      }
    } else {
      LessTotal(key(x), key(s[0]));
      var rest := Insert(x, s[1..], key);
      InsertSorted(x, s[1..], key);
      InsertPermutes(x, s[1..], key);
      forall j | 0 <= j < |rest| ensures Less(key(s[0]), key(rest[j])) {
        assert rest[j] in multiset(rest);
        if rest[j] != x {
          assert rest[j] in multiset(s[1..]);
          var k :| 0 <= k < |s[1..]| && s[1..][k] == rest[j];
          assert s[k + 1] == rest[j];
        }
      }
    }
  }

  /** A key missing from the rows is missing from any rearrangement of them. */
  lemma PermutedKeysDiffer<T>(x: T, xs: seq<T>, ys: seq<T>, key: T -> string)
    requires multiset(ys) == multiset(xs)
    requires forall k :: 0 <= k < |xs| ==> key(xs[k]) != key(x)
    ensures forall i :: 0 <= i < |ys| ==> key(ys[i]) != key(x)
  {
    forall i | 0 <= i < |ys| ensures key(ys[i]) != key(x) {
      assert ys[i] in multiset(xs);
      var k :| 0 <= k < |xs| && xs[k] == ys[i];
    }
  }

  /** Sorting keeps exactly the same rows, and puts rows with distinct keys in ascending key order. */
  lemma {:induction false} SortByCorrect<T>(xs: seq<T>, key: T -> string)
    ensures multiset(SortBy(xs, key)) == multiset(xs)
    ensures KeysDistinct(xs, key) ==> SortedBy(SortBy(xs, key), key)
    decreases |xs|
  {
    if xs != [] {
      var rest := SortBy(xs[1..], key);
      SortByCorrect(xs[1..], key);
      InsertPermutes(xs[0], rest, key);
      assert xs == [xs[0]] + xs[1..];
      if KeysDistinct(xs, key) {
        assert KeysDistinct(xs[1..], key);
        forall k | 0 <= k < |xs[1..]| ensures key(xs[1..][k]) != key(xs[0]) {
          assert xs[1..][k] == xs[k + 1];
        }
        PermutedKeysDiffer(xs[0], xs[1..], rest, key);
        InsertSorted(xs[0], rest, key);
      }
    }
  }
}
