/** Prettify joins regular expressions that ignore case with ones that do not.  To do so it closes
    every character class under swapping ASCII case: each range gets its swapped copies, the ranges
    are sorted, and overlapping or adjacent ones are merged. */
module CharRanges {
  /** The characters from `lo` to `hi`, both included. */
  datatype Range = Range(lo: nat, hi: nat)

  predicate WellFormed(rs: seq<Range>) {
    forall k :: 0 <= k < |rs| ==> rs[k].lo <= rs[k].hi
  }

  ghost predicate Covers(rs: seq<Range>, x: int) {
    exists k :: 0 <= k < |rs| && rs[k].lo <= x <= rs[k].hi
  }

  /** The other case of an ASCII letter; every other character is its own. */
  function SwapCase(x: int): int {
    if 65 <= x <= 90 then x + 32 else if 97 <= x <= 122 then x - 32 else x
  }

  function Max(a: nat, b: nat): nat {
    if a > b then a else b
  }

  function Min(a: nat, b: nat): nat {
    if a < b then a else b
  }

  /** `x | 32`: set bit 5. */
  function OrBit5(x: nat): nat {
    if (x / 32) % 2 == 1 then x else x + 32
  }

  /** `x & -33`: clear bit 5. */
  function ClearBit5(x: nat): nat {
    if (x / 32) % 2 == 1 then x - 32 else x
  }

  /** The order in which the ranges are sorted: by start, longer ranges first. */
  predicate Ordered(a: Range, b: Range) {
    a.lo < b.lo || (a.lo == b.lo && a.hi >= b.hi)
  }

  predicate Sorted(rs: seq<Range>) {
    forall i, j :: 0 <= i < j < |rs| ==> Ordered(rs[i], rs[j])
  }

  /** Sorted, disjoint and not even adjacent. */
  predicate Normal(rs: seq<Range>) {
    WellFormed(rs) && forall i, j :: 0 <= i < j < |rs| ==> rs[i].hi + 1 < rs[j].lo
  }

  ghost predicate SameCover(a: seq<Range>, b: seq<Range>) {
    forall x :: Covers(a, x) <==> Covers(b, x)
  }

  lemma {:induction false} CoversConcat(a: seq<Range>, b: seq<Range>, x: int)
    ensures Covers(a + b, x) <==> Covers(a, x) || Covers(b, x)
  {
    if Covers(a, x) {
      var k :| 0 <= k < |a| && a[k].lo <= x <= a[k].hi;
      assert (a + b)[k] == a[k];
    }
    if Covers(b, x) {
      var k :| 0 <= k < |b| && b[k].lo <= x <= b[k].hi;
      assert (a + b)[|a| + k] == b[k];
    }
  }

  /** The range, followed by its copies in the other case. */
  function WithSwaps(r: Range): seq<Range> {
    if r.hi < 65 || r.lo > 122 then [r]
    else
      [r]
      + (if r.hi < 65 || r.lo > 90 then [] else [Range(OrBit5(Max(65, r.lo)), OrBit5(Min(r.hi, 90)))])
      + (if r.hi < 97 || r.lo > 122 then [] else [Range(ClearBit5(Max(97, r.lo)), ClearBit5(Min(r.hi, 122)))])
  }

  lemma {:induction false} WithSwapsCovers(r: Range, x: int)
    requires r.lo <= r.hi
    ensures WellFormed(WithSwaps(r))
    ensures Covers(WithSwaps(r), x) <==> r.lo <= x <= r.hi || r.lo <= SwapCase(x) <= r.hi
  {
    var w := WithSwaps(r);
    assert w[0] == r;
    if r.lo <= x <= r.hi {
      assert w[0].lo <= x <= w[0].hi;
    } else if r.lo <= SwapCase(x) <= r.hi {
      if 97 <= x <= 122 {
        assert w[1].lo <= x <= w[1].hi;
      } else {
        assert w[|w| - 1].lo <= x <= w[|w| - 1].hi;
      }
    }
  }

  /** `b` covers exactly what `rs` covers, and that in the other case. */
  ghost predicate Closes(b: seq<Range>, rs: seq<Range>) {
    forall x {:trigger Covers(b, x)} :: Covers(b, x) <==> Covers(rs, x) || Covers(rs, SwapCase(x))
  }

  lemma {:induction false} CollectStep(rs: seq<Range>, b: seq<Range>, r: Range)
    requires Closes(b, rs) && WellFormed(b) && r.lo <= r.hi
    ensures Closes(b + WithSwaps(r), rs + [r]) && WellFormed(b + WithSwaps(r))
  {
    WithSwapsCovers(r, 0);
    forall x ensures Covers(b + WithSwaps(r), x) <==> Covers(rs + [r], x) || Covers(rs + [r], SwapCase(x)) {
      CoversConcat(b, WithSwaps(r), x);
      WithSwapsCovers(r, x);
      CoversConcat(rs, [r], x);
      CoversConcat(rs, [r], SwapCase(x));
      One(r, x);
      One(r, SwapCase(x));
    }
  }

  method PushRange(b: seq<Range>, r: Range, ghost done: seq<Range>) returns (out: seq<Range>)
    requires WellFormed(b) && Closes(b, done) && r.lo <= r.hi
    ensures WellFormed(out) && Closes(out, done + [r])
  {
    CollectStep(done, b, r);
    out := b + [r];
    if !(r.hi < 65 || r.lo > 122) {
      if !(r.hi < 65 || r.lo > 90) {
        out := out + [Range(OrBit5(Max(65, r.lo)), OrBit5(Min(r.hi, 90)))];
      }
      if !(r.hi < 97 || r.lo > 122) {
        out := out + [Range(ClearBit5(Max(97, r.lo)), ClearBit5(Min(r.hi, 122)))];
      }
    }
    assert out == b + WithSwaps(r);
  }

  /** The first loop: every range of the class with its copies. */
  method CollectRanges(rs: seq<Range>) returns (b: seq<Range>)
    requires WellFormed(rs)
    ensures WellFormed(b) && Closes(b, rs)
  {
    b := [];
    ghost var done: seq<Range> := [];
    ClosesNothing();
    var c := 0;
    while c < |rs|
      invariant 0 <= c <= |rs| && WellFormed(b)
      invariant done == rs[..c] && Closes(b, done)
    {
      b := PushRange(b, rs[c], done);
      done := done + [rs[c]];
      c := c + 1;
    }
  }

  lemma {:induction false} ClosesNothing()
    ensures Closes([], [])
  {
  }

  lemma {:induction false} One(r: Range, x: int)
    ensures Covers([r], x) <==> r.lo <= x <= r.hi
  {
    assert [r][0] == r;
  }

  /** Sorting by start, then by decreasing end. */
  method SortRanges(rs: seq<Range>) returns (s: seq<Range>)
    ensures Sorted(s) && multiset(s) == multiset(rs)
  {
    s := [];
    var n := 0;
    while n < |rs|
      invariant 0 <= n <= |rs| && Sorted(s) && multiset(s) == multiset(rs[..n])
    {
      var k := |s|;
      while k > 0 && !Ordered(s[k - 1], rs[n])
        invariant 0 <= k <= |s|
        invariant forall j :: k <= j < |s| ==> !Ordered(s[j], rs[n])
      {
        k := k - 1;
      }
      InsertSorted(s, k, rs[n]);
      assert s == s[..k] + s[k..];
      assert rs[..n + 1] == rs[..n] + [rs[n]];
      s := s[..k] + [rs[n]] + s[k..];
      n := n + 1;
    }
    assert rs[..n] == rs;
  }

  lemma {:induction false} InsertSorted(s: seq<Range>, k: nat, r: Range)
    requires Sorted(s) && k <= |s|
    requires k > 0 ==> Ordered(s[k - 1], r)
    requires forall j :: k <= j < |s| ==> !Ordered(s[j], r)
    ensures Sorted(s[..k] + [r] + s[k..])
  {
  }

  lemma {:induction false} PermutationCovers(a: seq<Range>, b: seq<Range>)
    requires multiset(a) == multiset(b)
    ensures SameCover(a, b)
    ensures WellFormed(a) ==> WellFormed(b)
  {
    forall k | 0 <= k < |a| ensures a[k] in b {
      assert a[k] in multiset(a);
    }
    forall k | 0 <= k < |b| ensures b[k] in a {
      assert b[k] in multiset(b);
    }
  }

  /** The last loop: `out` grows, and its last range may be stretched. */
  method MergeRanges(b: seq<Range>) returns (out: seq<Range>)
    requires Sorted(b) && WellFormed(b)
    ensures Normal(out) && SameCover(out, b)
  {
    out := [];
    var c := 0;
    while c < |b|
      invariant 0 <= c <= |b|
      invariant Normal(out) && SameCover(out, b[..c])
      invariant out == [] ==> c == 0
      invariant out != [] && c < |b| ==> out[|out| - 1].lo <= b[c].lo
    {
      var i := b[c];
      ghost var was := out;
      assert b[..c + 1] == b[..c] + [i];
      if out != [] && i.lo <= out[|out| - 1].hi + 1 {
        var last := out[|out| - 1];
        out := out[|out| - 1 := last.(hi := Max(last.hi, i.hi))];
        forall x ensures Covers(out, x) <==> Covers(b[..c + 1], x) {
          Stretched(was, out, last, i, x);
          CoversConcat(b[..c], [i], x);
        }
      } else {
        out := out + [i];
        forall x ensures Covers(out, x) <==> Covers(b[..c + 1], x) {
          CoversConcat(was, [i], x);
          CoversConcat(b[..c], [i], x);
        }
      }
      c := c + 1;
    }
    assert b[..c] == b;
  }

  lemma {:induction false} Stretched(was: seq<Range>, out: seq<Range>, last: Range, i: Range, x: int)
    requires was != [] && last == was[|was| - 1] && last.lo <= i.lo <= last.hi + 1 && last.lo <= last.hi && i.lo <= i.hi
    requires out == was[|was| - 1 := last.(hi := Max(last.hi, i.hi))]
    ensures Covers(out, x) <==> Covers(was, x) || Covers([i], x)
  {
    var init := was[..|was| - 1];
    var stretched := last.(hi := Max(last.hi, i.hi));
    assert was == init + [last] && out == init + [stretched];
    CoversConcat(init, [last], x);
    CoversConcat(init, [stretched], x);
    One(last, x);
    One(stretched, x);
    One(i, x);
  }

  /** The whole folding: the result is in normal form and covers exactly the closure of the class
      under swapping ASCII case. */
  method FoldCase(rs: seq<Range>) returns (out: seq<Range>)
    requires WellFormed(rs)
    ensures Normal(out) && Closes(out, rs)
  {
    var b := CollectRanges(rs);
    var s := SortRanges(b);
    PermutationCovers(b, s);
    out := MergeRanges(s);
  }

  lemma {:induction false} FirstCovered(a: seq<Range>, b: seq<Range>)
    requires Normal(a) && Normal(b) && SameCover(a, b) && a != [] && b != []
    ensures a[0].lo <= b[0].lo
  {
    assert b[0].lo <= b[0].lo <= b[0].hi;
    assert Covers(b, b[0].lo);
    var k :| 0 <= k < |a| && a[k].lo <= b[0].lo <= a[k].hi;
    assert a[0].lo <= a[k].lo;
  }

  lemma {:induction false} FirstEnds(a: seq<Range>, b: seq<Range>)
    requires Normal(a) && Normal(b) && SameCover(a, b) && a != [] && b != [] && a[0].lo == b[0].lo
    ensures a[0].hi <= b[0].hi
  {
    var x := b[0].hi + 1;
    assert forall k :: 0 < k < |b| ==> b[0].hi + 1 < b[k].lo;
    assert !Covers(b, x);
    assert !(a[0].lo <= x <= a[0].hi);
  }

  lemma {:induction false} EmptyCover(a: seq<Range>, b: seq<Range>)
    requires Normal(b) && SameCover(a, b) && a == []
    ensures b == []
  {
    if b != [] {
      assert b[0].lo <= b[0].lo <= b[0].hi;
      assert Covers(b, b[0].lo);
    }
  }

  lemma {:induction false} TailCover(a: seq<Range>, b: seq<Range>)
    requires Normal(a) && Normal(b) && SameCover(a, b) && a != [] && b != [] && a[0] == b[0]
    ensures Normal(a[1..]) && Normal(b[1..]) && SameCover(a[1..], b[1..])
  {
    forall x ensures Covers(a[1..], x) <==> Covers(b[1..], x) {
      assert a == [a[0]] + a[1..] && b == [b[0]] + b[1..];
      CoversConcat([a[0]], a[1..], x);
      CoversConcat([b[0]], b[1..], x);
      One(a[0], x);
      if x <= a[0].hi {
        Beyond(a, x);
        Beyond(b, x);
      }
    }
  }

  lemma {:induction false} Beyond(a: seq<Range>, x: int)
    requires Normal(a) && a != [] && x <= a[0].hi
    ensures !Covers(a[1..], x)
  {
    forall k | 0 <= k < |a[1..]| ensures a[0].hi < a[1..][k].lo {
      assert a[0].hi + 1 < a[k + 1].lo;
    }
  }

  /** The normal form is canonical: two normal lists that cover the same characters are the same
      list, so folding a class that is already closed under case changes nothing but its form. */
  lemma {:induction false} NormalFormIsUnique(a: seq<Range>, b: seq<Range>)
    requires Normal(a) && Normal(b) && SameCover(a, b)
    ensures a == b
    decreases |a|
  {
    if a == [] {
      EmptyCover(a, b);
    } else if b == [] {
      EmptyCover(b, a);
    } else {
      FirstCovered(a, b);
      FirstCovered(b, a);
      FirstEnds(a, b);
      FirstEnds(b, a);
      TailCover(a, b);
      NormalFormIsUnique(a[1..], b[1..]);
      assert a == [a[0]] + a[1..] && b == [b[0]] + b[1..];
    }
  }

  /** Folding twice is folding once. */
  method FoldTwice(rs: seq<Range>) returns (once: seq<Range>, twice: seq<Range>)
    requires WellFormed(rs)
    ensures once == twice
  {
    once := FoldCase(rs);
    twice := FoldCase(once);
    forall x ensures Covers(once, x) <==> Covers(twice, x) {
      assert SwapCase(SwapCase(x)) == x;
    }
    NormalFormIsUnique(once, twice);
  }
}
