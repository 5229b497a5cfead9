/**
 * Sequence helpers standing for the JavaScript array methods the source uses:
 * `filter`, `filter(...).length` and `reduce` over numbers.
 * Every recursion peels off the LAST element, matching a left-to-right `forEach`.
 */
module Lists {

  /** `xs.filter(p)`: the elements satisfying `p`, in their original order. */
  function Filter<T>(xs: seq<T>, p: T -> bool): (r: seq<T>)
    ensures |r| <= |xs|
    ensures forall i :: 0 <= i < |r| ==> p(r[i])
    decreases |xs|
  {
    if xs == [] then []
    else Filter(xs[..|xs| - 1], p) + (if p(xs[|xs| - 1]) then [xs[|xs| - 1]] else [])
  }

  /** An element is kept by `Filter` exactly when it is in the input and satisfies `p`. */
  lemma {:induction false} FilterMembers<T>(xs: seq<T>, p: T -> bool)
    ensures forall x :: x in Filter(xs, p) <==> x in xs && p(x)
    decreases |xs|
  {
    if xs != [] {
      FilterMembers(xs[..|xs| - 1], p);
      assert xs == xs[..|xs| - 1] + [xs[|xs| - 1]];
    }
  }

  /** Filters whose predicates agree on the elements give the same result. */
  lemma {:induction false} FilterCongruent<T>(xs: seq<T>, p: T -> bool, q: T -> bool)
    requires forall i :: 0 <= i < |xs| ==> p(xs[i]) == q(xs[i])
    ensures Filter(xs, p) == Filter(xs, q)
    decreases |xs|
  {
    if xs != [] {
      var n := |xs| - 1;
      assert forall i :: 0 <= i < n ==> xs[..n][i] == xs[i];
      FilterCongruent(xs[..n], p, q);
    }
  }

  /**
   * The filter is empty exactly when no element satisfies `p`; otherwise its
   * first element is the first element of `xs` that does.
   */
  lemma {:induction false} FilterFirst<T>(xs: seq<T>, p: T -> bool)
    ensures Filter(xs, p) == [] <==> forall i :: 0 <= i < |xs| ==> !p(xs[i])
    ensures Filter(xs, p) != [] ==>
      exists i :: 0 <= i < |xs| && p(xs[i]) && Filter(xs, p)[0] == xs[i] && forall j :: 0 <= j < i ==> !p(xs[j])
    decreases |xs|
  {
    if xs != [] {
      var n := |xs| - 1;
      FilterFirst(xs[..n], p);
      assert forall i :: 0 <= i < n ==> xs[..n][i] == xs[i];
      if Filter(xs[..n], p) != [] {
        var i :| 0 <= i < n && p(xs[..n][i]) && Filter(xs[..n], p)[0] == xs[..n][i] && forall j :: 0 <= j < i ==> !p(xs[..n][j]);
        assert Filter(xs, p)[0] == xs[i];
      } else if p(xs[n]) {
        assert Filter(xs, p)[0] == xs[n];
      }
    }
  }

  /** Filtering distributes over concatenation. */
  lemma {:induction false} FilterAppend<T>(xs: seq<T>, ys: seq<T>, p: T -> bool)
    ensures Filter(xs + ys, p) == Filter(xs, p) + Filter(ys, p)
    decreases |ys|
  {
    if ys != [] {
      var n := |ys| - 1;
      assert (xs + ys)[..|xs + ys| - 1] == xs + ys[..n];
      assert (xs + ys)[|xs + ys| - 1] == ys[n];
      FilterAppend(xs, ys[..n], p);
      calc {
        Filter(xs + ys, p);
        Filter(xs + ys[..n], p) + (if p(ys[n]) then [ys[n]] else []);
        Filter(xs, p) + (Filter(ys[..n], p) + (if p(ys[n]) then [ys[n]] else []));
      }
    } else {
      assert xs + ys == xs;
    }
  }

  /** `filter(p)` followed by `filter(q)` is the single filter on `p && q`. */
  lemma {:induction false} FilterFusion<T>(xs: seq<T>, p: T -> bool, q: T -> bool)
    ensures Filter(Filter(xs, p), q) == Filter(xs, x => p(x) && q(x))
    decreases |xs|
  {
    if xs != [] {
      var init, last := xs[..|xs| - 1], xs[|xs| - 1];
      FilterFusion(init, p, q);
      FilterAppend(Filter(init, p), if p(last) then [last] else [], q);
      assert Filter([last], q) == (if q(last) then [last] else []) by {
        assert [last][..0] == [];
      }
    }
  }

  /** A filter that keeps everything is the identity. */
  lemma {:induction false} FilterAll<T>(xs: seq<T>, p: T -> bool)
    requires forall i :: 0 <= i < |xs| ==> p(xs[i])
    ensures Filter(xs, p) == xs
    decreases |xs|
  {
    if xs != [] {
      FilterAll(xs[..|xs| - 1], p);
    }
  }

  /** `a` is `b` with some elements left out, the rest in the same order. */
  ghost predicate IsSubsequence<T>(a: seq<T>, b: seq<T>)
    decreases |b|
  {
    a == [] ||
    (b != [] &&
      ((a[|a| - 1] == b[|b| - 1] && IsSubsequence(a[..|a| - 1], b[..|b| - 1])) ||
       IsSubsequence(a, b[..|b| - 1])))
  }

  lemma {:induction false} FilterIsSubsequence<T>(xs: seq<T>, p: T -> bool)
    ensures IsSubsequence(Filter(xs, p), xs)
    decreases |xs|
  {
    if xs != [] {
      var init, last := xs[..|xs| - 1], xs[|xs| - 1];
      var r := Filter(xs, p);
      FilterIsSubsequence(init, p);
      if p(last) {
        assert r == Filter(init, p) + [last];
        assert r[..|r| - 1] == Filter(init, p);
        assert r[|r| - 1] == last;
      } else {
        assert r == Filter(init, p);
      }
    }
  }

  /** A prefix is a subsequence. */
  lemma {:induction false} SubsequencePrefix<T>(xs: seq<T>, n: nat)
    requires n <= |xs|
    ensures IsSubsequence(xs[..n], xs)
    decreases |xs|
  {
    if xs != [] && n > 0 {
      var m := |xs| - 1;
      if n == |xs| {
        assert xs[..n] == xs;
        SubsequenceRefl(xs);
      } else {
        SubsequencePrefix(xs[..m], n);
        assert xs[..m][..n] == xs[..n];
      }
    }
  }

  lemma {:induction false} SubsequenceRefl<T>(xs: seq<T>)
    ensures IsSubsequence(xs, xs)
    decreases |xs|
  {
    if xs != [] {
      SubsequenceRefl(xs[..|xs| - 1]);
    }
  }

  lemma {:induction false} SubsequenceTransitive<T>(a: seq<T>, b: seq<T>, c: seq<T>)
    requires IsSubsequence(a, b) && IsSubsequence(b, c)
    ensures IsSubsequence(a, c)
    decreases |c|
  {
    if a != [] {
      var nb, nc := |b| - 1, |c| - 1;
      if IsSubsequence(b, c[..nc]) && !(b[nb] == c[nc] && IsSubsequence(b[..nb], c[..nc])) {
        SubsequenceTransitive(a, b, c[..nc]);
      } else if a[|a| - 1] == b[nb] && IsSubsequence(a[..|a| - 1], b[..nb]) {
        SubsequenceTransitive(a[..|a| - 1], b[..nb], c[..nc]);
      } else {
        SubsequenceTransitive(a, b[..nb], c[..nc]);
      }
    }
  }

  /** `xs.filter(p).length`. */
  function Count<T>(xs: seq<T>, p: T -> bool): nat {
    |Filter(xs, p)|
  }

  /** A filter and its complement split the list between them. */
  lemma {:induction false} CountComplement<T>(xs: seq<T>, p: T -> bool, q: T -> bool)
    requires forall i :: 0 <= i < |xs| ==> q(xs[i]) == !p(xs[i])
    ensures Count(xs, p) + Count(xs, q) == |xs|
    decreases |xs|
  {
    if xs != [] {
      var n := |xs| - 1;
      assert forall i :: 0 <= i < n ==> xs[..n][i] == xs[i];
      CountComplement(xs[..n], p, q);
    }
  }

  /** No element occurs twice. */
  ghost predicate Distinct<T>(s: seq<T>) {
    forall i, j :: 0 <= i < j < |s| ==> s[i] != s[j]
  }

  /** `xs.reduce((a, b) => a + b, 0)`. */
  function Sum(xs: seq<int>): int
    decreases |xs|
  {
    if xs == [] then 0 else Sum(xs[..|xs| - 1]) + xs[|xs| - 1]
  }

  lemma {:induction false} SumZeros(xs: seq<int>)
    requires forall i :: 0 <= i < |xs| ==> xs[i] == 0
    ensures Sum(xs) == 0
    decreases |xs|
  {
    if xs != [] {
      SumZeros(xs[..|xs| - 1]);
    }
  }

  lemma {:induction false} SumAppend(xs: seq<int>, ys: seq<int>)
    ensures Sum(xs + ys) == Sum(xs) + Sum(ys)
    decreases |ys|
  {
    if ys != [] {
      assert (xs + ys)[..|xs + ys| - 1] == xs + ys[..|ys| - 1];
      assert (xs + ys)[|xs + ys| - 1] == ys[|ys| - 1];
      SumAppend(xs, ys[..|ys| - 1]);
    } else {
      assert xs + ys == xs;
    }
  }

  /** Replacing one element changes the sum by the difference. */
  lemma {:induction false} SumUpdate(xs: seq<int>, i: nat, v: int)
    requires i < |xs|
    ensures Sum(xs[i := v]) == Sum(xs) - xs[i] + v
    decreases |xs|
  {
    var n := |xs| - 1;
    if i < n {
      assert xs[i := v][..n] == xs[..n][i := v];
      SumUpdate(xs[..n], i, v);
    } else {
      assert xs[i := v][..n] == xs[..n];
    }
  }

  /** `xs.reduce((sum, x) => sum + f(x), 0)`. */
  function SumOf<T>(xs: seq<T>, f: T -> int): int
    decreases |xs|
  {
    if xs == [] then 0 else SumOf(xs[..|xs| - 1], f) + f(xs[|xs| - 1])
  }

  /** Weights that agree on the elements give the same sum. */
  lemma {:induction false} SumOfCongruent<T>(xs: seq<T>, f: T -> int, g: T -> int)
    requires forall i :: 0 <= i < |xs| ==> f(xs[i]) == g(xs[i])
    ensures SumOf(xs, f) == SumOf(xs, g)
    decreases |xs|
  {
    if xs != [] {
      var n := |xs| - 1;
      assert forall i :: 0 <= i < n ==> xs[..n][i] == xs[i];
      SumOfCongruent(xs[..n], f, g);
    }
  }

  lemma {:induction false} SumOfAppend<T>(xs: seq<T>, ys: seq<T>, f: T -> int)
    ensures SumOf(xs + ys, f) == SumOf(xs, f) + SumOf(ys, f)
    decreases |ys|
  {
    if ys != [] {
      assert (xs + ys)[..|xs + ys| - 1] == xs + ys[..|ys| - 1];
      assert (xs + ys)[|xs + ys| - 1] == ys[|ys| - 1];
      SumOfAppend(xs, ys[..|ys| - 1], f);
    } else {
      assert xs + ys == xs;
    }
  }

  /** Reordering the elements does not change the sum. */
  lemma {:induction false} SumOfPermutation<T>(xs: seq<T>, ys: seq<T>, f: T -> int)
    requires multiset(xs) == multiset(ys)
    ensures SumOf(xs, f) == SumOf(ys, f)
    decreases |xs|
  {
    if xs == [] {
      assert |ys| == |multiset(ys)| == 0;
    } else {
      var n := |xs| - 1;
      var x := xs[n];
      assert xs == xs[..n] + [x];
      assert x in multiset(ys);
      var j :| 0 <= j < |ys| && ys[j] == x;
      var rest := ys[..j] + ys[j + 1..];
      assert ys == ys[..j] + [x] + ys[j + 1..];
      assert multiset(ys) == multiset(ys[..j]) + multiset{x} + multiset(ys[j + 1..]);
      assert multiset(xs) == multiset(xs[..n]) + multiset{x};
      assert multiset(rest) == multiset(ys[..j]) + multiset(ys[j + 1..]);
      assert multiset(xs[..n]) == multiset(xs) - multiset{x};
      assert multiset(rest) == multiset(ys) - multiset{x};
      SumOfPermutation(xs[..n], rest, f);
      SumOfAppend(ys[..j] + [x], ys[j + 1..], f);
      SumOfAppend(ys[..j], [x], f);
      SumOfAppend(ys[..j], ys[j + 1..], f);
      assert SumOf([x], f) == f(x) by {
        assert [x][..0] == [];
      }
    }
  }

  /**
   * Changing the summed function at one element of a sequence without
   * repetitions changes the sum by that element's difference.
   */
  lemma {:induction false} SumOfChange<T>(xs: seq<T>, f: T -> int, g: T -> int, k: T)
    requires Distinct(xs)
    requires forall i :: 0 <= i < |xs| && xs[i] != k ==> f(xs[i]) == g(xs[i])
    ensures SumOf(xs, g) == SumOf(xs, f) + (if k in xs then g(k) - f(k) else 0)
    decreases |xs|
  {
    if xs != [] {
      var n := |xs| - 1;
      assert xs == xs[..n] + [xs[n]];
      SumOfChange(xs[..n], f, g, k);
      if xs[n] == k {
        assert k !in xs[..n];
      }
    }
  }
}
