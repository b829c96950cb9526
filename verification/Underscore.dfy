/** Two array functions of underscore.js: the insertion point found by halving, and the removal of
    duplicates with its short cut for sorted arrays. */
module Underscore {

  // ---------------------------------------------------------------- sortedIndex

  /** A number cut to 32 bits with sign, as the bitwise operators of the language see it. */
  function ToInt32(x: nat): int {
    var low := x % 0x1_0000_0000;
    if low >= 0x8000_0000 then low - 0x1_0000_0000 else low
  }

  /** `e + f >> 1`; the shift rounds down. */
  function Midpoint(e: nat, f: nat): int {
    ToInt32(e + f) / 2
  }

  const LONGEST := 0x4000_0000

  /** Halving works for arrays up to a length and for no longer ones: the sum of the bounds then no
      longer fits in 32 bits. */
  lemma {:induction false} MidpointIsBetween(n: nat)
    ensures (forall e: nat, f: nat :: e < f <= n ==> e <= Midpoint(e, f) < f) <==> n <= LONGEST
  {
    if n > LONGEST {
      assert Midpoint(LONGEST, LONGEST + 1) < 0;
    }
  }

  predicate Sorted<T>(a: seq<T>, key: T -> int) {
    forall j, k :: 0 <= j <= k < |a| ==> key(a[j]) <= key(a[k])
  }

  /** Arrays have fewer elements than this. */
  const TOO_LONG := 0x1_0000_0000

  /** The comparison of the search; an element that is not there is smaller than nothing. */
  predicate Smaller<T>(a: seq<T>, g: int, c: T, key: T -> int) {
    0 <= g < |a| && key(a[g]) < key(c)
  }

  /** Where a probe lands that the search makes in an array of `n` elements. */
  lemma {:induction false} ProbeLands(e: nat, f: nat, n: nat)
    requires e < f <= n < TOO_LONG && (n < 0x8000_0000 || (e == 0 && f == n))
    ensures var g := Midpoint(e, f);
            && g < f && (g >= 0 ==> e <= g) && (n <= LONGEST ==> g >= 0)
            && (n > LONGEST && g >= 0 ==> g + 1 < n) && (n >= 0x8000_0000 ==> g < 0)
  {
    if n >= 0x8000_0000 {
      assert ToInt32(n) == n - 0x1_0000_0000;
    }
  }

  /** The search.  In an array of at most LONGEST elements the answer has a smaller neighbour on its left
      and none at its right; in a sorted one that makes it the leftmost place for `c`.  In a longer array
      the answer is never the end, even if all elements are smaller than `c`. */
  method SortedIndex<T>(a: seq<T>, c: T, key: T -> int) returns (e: nat)
    requires |a| < TOO_LONG
    ensures e <= |a|
    ensures e > 0 ==> key(a[e - 1]) < key(c)
    ensures |a| <= LONGEST && e < |a| ==> key(c) <= key(a[e])
    ensures |a| <= LONGEST && Sorted(a, key) ==> forall k :: 0 <= k < |a| ==> (k < e <==> key(a[k]) < key(c))
    ensures |a| > LONGEST ==> e < |a|
  {
    e := 0;
    var f := |a|;
    while e < f
      invariant 0 <= e <= |a| && f <= |a|
      invariant |a| < 0x8000_0000 || (e == 0 && f == |a|) || f < e
      invariant e > 0 ==> key(a[e - 1]) < key(c)
      invariant |a| <= LONGEST ==> e <= f && (f < |a| ==> key(c) <= key(a[f]))
      invariant |a| > LONGEST ==> e < |a|
      decreases f - e
    {
      ProbeLands(e, f, |a|);
      var g := Midpoint(e, f);
      if Smaller(a, g, c, key) {
        e := g + 1;
      } else {
        f := g;
      }
    }
  }

  predicate InsertsAt<T>(a: seq<T>, c: T, key: T -> int, at: nat) {
    at <= |a| && Sorted(a[..at] + [c] + a[at..], key)
  }

  /** The answer is an insertion point that keeps the array sorted, and there is none further left. */
  lemma {:induction false} LeftmostInsertion<T>(a: seq<T>, c: T, key: T -> int, e: nat, other: nat)
    requires Sorted(a, key) && e <= |a|
    requires forall k :: 0 <= k < |a| ==> (k < e <==> key(a[k]) < key(c))
    ensures InsertsAt(a, c, key, e)
    ensures InsertsAt(a, c, key, other) ==> e <= other
  {
    var s := a[..e] + [c] + a[e..];
    forall j, k | 0 <= j <= k < |s| ensures key(s[j]) <= key(s[k]) {
      assert s[j] == if j < e then a[j] else if j == e then c else a[j - 1];
      assert s[k] == if k < e then a[k] else if k == e then c else a[k - 1];
    }
    if InsertsAt(a, c, key, other) && other < |a| {
      var t := a[..other] + [c] + a[other..];
      assert t[other] == c && t[other + 1] == a[other];
      assert key(t[other]) <= key(t[other + 1]);
    }
  }

  // ---------------------------------------------------------------- uniq

  /** The fold over the first `n` elements; `fast` is the promise that the array is sorted. */
  function Uniq<T(==)>(a: seq<T>, fast: bool, n: nat): seq<T>
    requires n <= |a|
  {
    if n == 0 then []
    else
      var d := Uniq(a, fast, n - 1);
      var e := a[n - 1];
      if n - 1 == 0 || (if fast then d == [] || d[|d| - 1] != e else e !in d) then d + [e] else d
  }

  predicate Distinct<T(==)>(s: seq<T>) {
    forall j, k :: 0 <= j < k < |s| ==> s[j] != s[k]
  }

  /** Equal elements stand together. */
  predicate Grouped<T(==)>(a: seq<T>, n: nat)
    requires n <= |a|
  {
    forall i, j, k :: 0 <= i <= j <= k < n && a[i] == a[k] ==> a[j] == a[k]
  }

  /** Both ways keep the same elements. */
  lemma {:induction false} SameElements<T>(a: seq<T>, fast: bool, n: nat, x: T)
    requires n <= |a|
    ensures x in Uniq(a, fast, n) <==> x in a[..n]
    ensures n > 0 ==> Uniq(a, fast, n) != []
  {
    if n > 0 {
      SameElements(a, fast, n - 1, x);
      assert a[..n] == a[..n - 1] + [a[n - 1]];
      var d := Uniq(a, fast, n - 1);
      assert d != [] ==> d[|d| - 1] in d;
    }
  }

  lemma {:induction false} FullScanIsDistinct<T>(a: seq<T>, n: nat)
    requires n <= |a|
    ensures Distinct(Uniq(a, false, n))
  {
    if n > 0 {
      FullScanIsDistinct(a, n - 1);
    }
  }

  /** Where `x` stands first. */
  function First<T(==)>(a: seq<T>, x: T): (k: nat)
    requires x in a
    ensures k < |a| && a[k] == x && x !in a[..k]
  {
    if a[0] == x then 0
    else
      var k := First(a[1..], x);
      assert a[..k + 1] == [a[0]] + a[1..][..k];
      k + 1
  }

  lemma {:induction false} FirstIs<T>(a: seq<T>, x: T, k: nat)
    requires k < |a| && a[k] == x
    ensures First(a, x) <= k
    ensures x !in a[..k] ==> First(a, x) == k
  {
    var j := First(a, x);
    assert forall i :: 0 <= i < j ==> a[i] == a[..j][i];
    assert forall i :: 0 <= i < k ==> a[i] == a[..k][i];
  }

  /** The full scan keeps the first occurrence of every element, in the order of the array. */
  lemma {:induction false} FirstOccurrencesInOrder<T>(a: seq<T>, n: nat)
    requires n <= |a|
    ensures var r := Uniq(a, false, n);
            && Distinct(r) && (forall x :: x in r <==> x in a[..n])
            && forall p, q :: 0 <= p < q < |r| ==> r[p] in a && r[q] in a && First(a, r[p]) < First(a, r[q])
  {
    FullScanIsDistinct(a, n);
    forall x ensures x in Uniq(a, false, n) <==> x in a[..n] {
      SameElements(a, false, n, x);
    }
    if n > 0 {
      var d, e := Uniq(a, false, n - 1), a[n - 1];
      FirstOccurrencesInOrder(a, n - 1);
      if e !in d {
        assert e !in a[..n - 1];
        FirstIs(a, e, n - 1);
        forall p | 0 <= p < |d| ensures d[p] in a && First(a, d[p]) < n - 1 {
          assert d[p] in d;
          SameElements(a, false, n - 1, d[p]);
          var k :| 0 <= k < n - 1 && a[..n - 1][k] == d[p];
          FirstIs(a, d[p], k);
        }
      }
    }
  }

  /** The fast way keeps the first element of every run of equal ones. */
  lemma {:induction false} FastKeepsHeadsOfRuns<T>(a: seq<T>, n: nat)
    requires n < |a|
    ensures Uniq(a, true, n + 1) == Uniq(a, true, n) + if n == 0 || a[n] != a[n - 1] then [a[n]] else []
  {
    if n > 0 {
      EndsWithTheLast(a, n);
    }
  }

  /** The fast way ends with the element seen last. */
  lemma {:induction false} EndsWithTheLast<T>(a: seq<T>, n: nat)
    requires 0 < n <= |a|
    ensures Uniq(a, true, n) != [] && Uniq(a, true, n)[|Uniq(a, true, n)| - 1] == a[n - 1]
  {
  }

  lemma {:induction false} GroupedIsFast<T>(a: seq<T>, n: nat)
    requires n <= |a| && Grouped(a, n)
    ensures Uniq(a, true, n) == Uniq(a, false, n)
  {
    if n > 1 {
      GroupedIsFast(a, n - 1);
      EndsWithTheLast(a, n - 1);
      var e := a[n - 1];
      SameElements(a, false, n - 1, e);
      if e in a[..n - 1] {
        var i :| 0 <= i < n - 1 && a[i] == e;
        assert a[n - 2] == e;
      }
      assert a[n - 2] == e ==> a[..n - 1][n - 2] == e;
    }
  }

  lemma {:induction false} DistinctIsGrouped<T>(a: seq<T>, n: nat)
    requires n <= |a| && Distinct(Uniq(a, true, n))
    ensures Grouped(a, n)
  {
    if n > 1 {
      var d := Uniq(a, true, n - 1);
      assert d <= Uniq(a, true, n);
      assert Distinct(d);
      DistinctIsGrouped(a, n - 1);
      EndsWithTheLast(a, n - 1);
      var e := a[n - 1];
      SameElements(a, true, n - 1, e);
      if a[n - 2] != e {
        var u := Uniq(a, true, n);
        assert u == d + [e];
        assert forall k :: 0 <= k < |d| ==> u[k] == d[k] && u[k] != u[|d|];
        assert forall i :: 0 <= i < n - 1 ==> a[..n - 1][i] == a[i] && a[i] != e;
      }
    }
  }

  /** The short cut gives the same array as the full scan just when equal elements stand together. */
  lemma {:induction false} ShortCutIsRight<T>(a: seq<T>)
    ensures Uniq(a, true, |a|) == Uniq(a, false, |a|) <==> Grouped(a, |a|)
  {
    if Grouped(a, |a|) {
      GroupedIsFast(a, |a|);
    } else if Uniq(a, true, |a|) == Uniq(a, false, |a|) {
      FullScanIsDistinct(a, |a|);
      DistinctIsGrouped(a, |a|);
      assert false;
    }
  }

  /** In particular for sorted numbers. */
  lemma {:induction false} SortedNumbers(a: seq<int>)
    requires Sorted(a, (x: int) => x)
    ensures Uniq(a, true, |a|) == Uniq(a, false, |a|)
    ensures Distinct(Uniq(a, true, |a|))
    ensures forall x :: x in Uniq(a, true, |a|) <==> x in a
  {
    forall i, j, k | 0 <= i <= j <= k < |a| && a[i] == a[k] ensures a[j] == a[k] {
      var key := (x: int) => x;
      assert key(a[i]) <= key(a[j]) <= key(a[k]);
    }
    ShortCutIsRight(a);
    FullScanIsDistinct(a, |a|);
    forall x ensures x in Uniq(a, true, |a|) <==> x in a {
      SameElements(a, true, |a|, x);
      assert a[..|a|] == a;
    }
  }
}
