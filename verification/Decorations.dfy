/** Prettify's decorations: a flat array that alternates positions and styles.  Before it is merged
    with the document it is compacted twice in place: entries hidden by a later one at the same
    position are dropped, then neighbours of the same style are joined.  Styles are represented by
    numbers, since only their equality matters. */
module Decorations {
  import opened Options

  datatype Deco = Deco(pos: int, style: int)

  /** The entries that a flat array encodes. */
  function Decos(d: seq<int>): (r: seq<Deco>)
    requires |d| % 2 == 0
    ensures |r| == |d| / 2
    ensures forall k :: 0 <= k < |r| ==> r[k] == Deco(d[2 * k], d[2 * k + 1])
  {
    seq(|d| / 2, k requires 0 <= k < |d| / 2 => Deco(d[2 * k], d[2 * k + 1]))
  }

  /** The style in force at position `x`: that of the last entry at or before it. */
  function StyleAt(ds: seq<Deco>, x: int): Option<int> {
    if ds == [] then None
    else if ds[|ds| - 1].pos <= x then Some(ds[|ds| - 1].style)
    else StyleAt(ds[..|ds| - 1], x)
  }

  predicate NonDecreasing(ds: seq<Deco>) {
    forall i, j :: 0 <= i < j < |ds| ==> ds[i].pos <= ds[j].pos
  }

  predicate Increasing(ds: seq<Deco>) {
    forall i, j :: 0 <= i < j < |ds| ==> ds[i].pos < ds[j].pos
  }

  predicate AtMost(ds: seq<Deco>, s: int) {
    forall k :: 0 <= k < |ds| ==> ds[k].pos <= s
  }

  predicate BelowPos(ds: seq<Deco>, s: int) {
    forall k :: 0 <= k < |ds| ==> ds[k].pos < s
  }

  predicate NoTwins(ds: seq<Deco>) {
    forall k :: 0 <= k < |ds| - 1 ==> ds[k].style != ds[k + 1].style
  }

  /** The position behind entry `k`: that of the next entry, or the end `s` of the text. */
  function Limit(ds: seq<Deco>, s: int, k: nat): int {
    if k < |ds| then ds[k].pos else s
  }

  /** Of the first `m` entries, those that the next one does not hide by having the same position. */
  function Visible(ds: seq<Deco>, s: int, m: nat): seq<Deco>
    requires m <= |ds|
  {
    if m == 0 then []
    else Visible(ds, s, m - 1) + (if ds[m - 1].pos == Limit(ds, s, m) then [] else [ds[m - 1]])
  }

  /** Of the first `m` entries, those whose style differs from the entry before. */
  function Untwinned(ds: seq<Deco>, m: nat): seq<Deco>
    requires m <= |ds|
  {
    if m == 0 then []
    else Untwinned(ds, m - 1) + (if m > 1 && ds[m - 1].style == ds[m - 2].style then [] else [ds[m - 1]])
  }

  function DropHidden(ds: seq<Deco>, s: int): seq<Deco> {
    Visible(ds, s, |ds|)
  }

  function JoinTwins(ds: seq<Deco>): seq<Deco> {
    Untwinned(ds, |ds|)
  }

  function Compacted(ds: seq<Deco>, s: int): seq<Deco> {
    JoinTwins(DropHidden(ds, s))
  }

  // ---------------------------------------------------------------- the style in force

  lemma {:induction false} StyleConcat(a: seq<Deco>, b: seq<Deco>, x: int)
    ensures StyleAt(a + b, x) == if StyleAt(b, x).Some? then StyleAt(b, x) else StyleAt(a, x)
  {
    if b == [] {
      assert a + b == a;
    } else {
      assert (a + b)[..|a + b| - 1] == a + b[..|b| - 1];
      StyleConcat(a, b[..|b| - 1], x);
    }
  }

  lemma {:induction false} StyleNone(ds: seq<Deco>, x: int)
    requires forall k :: 0 <= k < |ds| ==> x < ds[k].pos
    ensures StyleAt(ds, x) == None
  {
    if ds != [] {
      StyleNone(ds[..|ds| - 1], x);
    }
  }

  lemma {:induction false} StyleSome(ds: seq<Deco>, x: int, k: nat)
    requires k < |ds| && ds[k].pos <= x
    ensures StyleAt(ds, x).Some?
  {
    if ds[|ds| - 1].pos > x {
      StyleSome(ds[..|ds| - 1], x, k);
    }
  }

  /** Between two entries the first of them is in force. */
  lemma {:induction false} StyleBetween(ds: seq<Deco>, x: int, k: nat)
    requires Increasing(ds) && k < |ds| && ds[k].pos <= x && (k + 1 < |ds| ==> x < ds[k + 1].pos)
    ensures StyleAt(ds, x) == Some(ds[k].style)
  {
    var n := |ds| - 1;
    if k < n {
      assert x < ds[n].pos;
      StyleBetween(ds[..n], x, k);
    }
  }

  lemma {:induction false} StylePush(ds: seq<Deco>, e: Deco, x: int)
    ensures StyleAt(ds + [e], x) == if e.pos <= x then Some(e.style) else StyleAt(ds, x)
  {
    assert (ds + [e])[..|ds|] == ds;
  }

  lemma {:induction false} StylePrefix(ds: seq<Deco>, m: nat, x: int)
    requires 0 < m <= |ds|
    ensures StyleAt(ds[..m], x) == if ds[m - 1].pos <= x then Some(ds[m - 1].style) else StyleAt(ds[..m - 1], x)
  {
    assert ds[..m] == ds[..m - 1] + [ds[m - 1]];
    StylePush(ds[..m - 1], ds[m - 1], x);
  }

  // ---------------------------------------------------------------- the first pass

  lemma {:induction false} PushIncreasing(t: seq<Deco>, e: Deco)
    requires Increasing(t) && BelowPos(t, e.pos)
    ensures Increasing(t + [e])
  {
  }

  lemma {:induction false} VisibleIncreasing(ds: seq<Deco>, s: int, m: nat)
    requires NonDecreasing(ds) && AtMost(ds, s) && m <= |ds|
    ensures Increasing(Visible(ds, s, m)) && BelowPos(Visible(ds, s, m), Limit(ds, s, m))
    ensures m > 0 && Visible(ds, s, m) == [] ==> ds[0].pos == Limit(ds, s, m)
    ensures m > 0 && Visible(ds, s, m) != [] ==> Visible(ds, s, m)[0].pos == ds[0].pos
  {
    if m > 0 {
      VisibleIncreasing(ds, s, m - 1);
      if ds[m - 1].pos != Limit(ds, s, m) {
        PushIncreasing(Visible(ds, s, m - 1), ds[m - 1]);
      } else {
        assert Visible(ds, s, m) == Visible(ds, s, m - 1);
      }
    }
  }

  lemma {:induction false} VisibleStyle(ds: seq<Deco>, s: int, m: nat, x: int)
    requires NonDecreasing(ds) && AtMost(ds, s) && m <= |ds| && x < Limit(ds, s, m)
    ensures StyleAt(Visible(ds, s, m), x) == StyleAt(ds[..m], x)
  {
    if m > 0 {
      StylePrefix(ds, m, x);
      if x < ds[m - 1].pos {
        VisibleStyle(ds, s, m - 1, x);
      }
      if ds[m - 1].pos != Limit(ds, s, m) {
        StylePush(Visible(ds, s, m - 1), ds[m - 1], x);
      } else {
        assert Visible(ds, s, m) == Visible(ds, s, m - 1);
      }
    }
  }

  // ---------------------------------------------------------------- the second pass

  lemma {:induction false} UntwinnedIncreasing(ds: seq<Deco>, m: nat)
    requires Increasing(ds) && m <= |ds|
    ensures Increasing(Untwinned(ds, m)) && NoTwins(Untwinned(ds, m)) && |Untwinned(ds, m)| <= m
    ensures m > 0 ==>
              var t := Untwinned(ds, m);
              t != [] && t[0] == ds[0] && t[|t| - 1].style == ds[m - 1].style && t[|t| - 1].pos <= ds[m - 1].pos
  {
    if m > 0 {
      UntwinnedIncreasing(ds, m - 1);
      var t := Untwinned(ds, m - 1);
      if m > 1 && ds[m - 1].style == ds[m - 2].style {
        assert Untwinned(ds, m) == t;
      } else {
        assert t != [] ==> t[|t| - 1].pos < ds[m - 1].pos;
        assert BelowPos(t, ds[m - 1].pos);
        PushIncreasing(t, ds[m - 1]);
      }
    }
  }

  lemma {:induction false} UntwinnedStyle(ds: seq<Deco>, m: nat, x: int)
    requires Increasing(ds) && m <= |ds|
    ensures StyleAt(Untwinned(ds, m), x) == StyleAt(ds[..m], x)
  {
    if m > 0 {
      StylePrefix(ds, m, x);
      UntwinnedStyle(ds, m - 1, x);
      if m > 1 && ds[m - 1].style == ds[m - 2].style {
        assert Untwinned(ds, m) == Untwinned(ds, m - 1);
        StylePrefix(ds, m - 1, x);
      } else {
        StylePush(Untwinned(ds, m - 1), ds[m - 1], x);
      }
    }
  }

  lemma {:induction false} UntwinnedBelow(ds: seq<Deco>, m: nat, s: int)
    requires m <= |ds| && BelowPos(ds, s)
    ensures BelowPos(Untwinned(ds, m), s)
  {
    if m > 0 {
      UntwinnedBelow(ds, m - 1, s);
    }
  }

  lemma {:induction false} CompactionStyle(ds: seq<Deco>, s: int, x: int)
    requires NonDecreasing(ds) && AtMost(ds, s) && x < s
    ensures StyleAt(Compacted(ds, s), x) == StyleAt(ds, x)
  {
    var t := DropHidden(ds, s);
    VisibleIncreasing(ds, s, |ds|);
    VisibleStyle(ds, s, |ds|, x);
    UntwinnedStyle(t, |t|, x);
    assert ds[..|ds|] == ds && t[..|t|] == t;
  }

  lemma {:induction false} CompactionShape(ds: seq<Deco>, s: int)
    requires NonDecreasing(ds) && AtMost(ds, s)
    ensures Increasing(Compacted(ds, s)) && NoTwins(Compacted(ds, s)) && BelowPos(Compacted(ds, s), s)
    ensures ds != [] && ds[0].pos < s ==> Compacted(ds, s) != [] && Compacted(ds, s)[0].pos == ds[0].pos
  {
    var t := DropHidden(ds, s);
    VisibleIncreasing(ds, s, |ds|);
    UntwinnedIncreasing(t, |t|);
    UntwinnedBelow(t, |t|, s);
  }

  /** Compaction makes positions strictly increasing and below the end of the text, leaves no two
      neighbours of the same style, keeps the entry at the start, and changes the style in force at
      no position of the text. */
  lemma {:induction false} CompactionKeepsStyles(ds: seq<Deco>, s: int)
    requires NonDecreasing(ds) && AtMost(ds, s)
    ensures Increasing(Compacted(ds, s)) && NoTwins(Compacted(ds, s)) && BelowPos(Compacted(ds, s), s)
    ensures ds != [] && ds[0].pos < s ==> Compacted(ds, s) != [] && Compacted(ds, s)[0].pos == ds[0].pos
    ensures forall x :: x < s ==> StyleAt(Compacted(ds, s), x) == StyleAt(ds, x)
  {
    CompactionShape(ds, s);
    forall x | x < s ensures StyleAt(Compacted(ds, s), x) == StyleAt(ds, x) {
      CompactionStyle(ds, s, x);
    }
  }

  // ---------------------------------------------------------------- the loops

  /** The flat array starts with the entries `ds`. */
  predicate Holds(d: seq<int>, ds: seq<Deco>) {
    && 2 * |ds| <= |d|
    && forall k :: 0 <= k < |ds| ==> Deco(d[2 * k], d[2 * k + 1]) == ds[k]
  }

  lemma {:induction false} HoldsDecos(d: seq<int>, ds: seq<Deco>)
    requires Holds(d, ds)
    ensures Decos(d[..2 * |ds|]) == ds
  {
  }

  /** Write one entry behind the ones kept so far. */
  method Put(d: array<int>, r: nat, e: Deco, ghost kept: seq<Deco>)
    requires r == 2 * |kept| && r + 2 <= d.Length && Holds(d[..], kept)
    modifies d
    ensures Holds(d[..], kept + [e])
    ensures forall k :: r + 2 <= k < d.Length ==> d[k] == old(d[k])
  {
    d[r] := e.pos;
    d[r + 1] := e.style;
  }

  lemma {:induction false} VisibleLength(ds: seq<Deco>, s: int, m: nat)
    requires m <= |ds|
    ensures |Visible(ds, s, m)| <= m
  {
    if m > 0 {
      VisibleLength(ds, s, m - 1);
    }
  }

  lemma {:induction false} UntwinnedLength(ds: seq<Deco>, m: nat)
    requires m <= |ds|
    ensures |Untwinned(ds, m)| <= m
  {
    if m > 0 {
      UntwinnedLength(ds, m - 1);
    }
  }

  lemma {:induction false} VisibleStep(
    was: seq<int>, s: int, m: nat, next: int, kept: seq<Deco>, more: seq<Deco>)
    requires |was| % 2 == 0 && 2 * m < |was| && next == if 2 * m + 2 < |was| then was[2 * m + 2] else s
    requires kept == Visible(Decos(was), s, m) && more == Visible(Decos(was), s, m + 1)
    ensures |kept| <= m
    ensures more == if was[2 * m] == next then kept else kept + [Deco(was[2 * m], was[2 * m + 1])]
  {
    VisibleLength(Decos(was), s, m);
  }

  /** First pass: `n` reads and `r` writes, never ahead of `n`.  The cell after the last entry holds
      the length of the text. */
  method DropHiddenInPlace(d: array<int>, g: nat, s: int) returns (r: nat)
    requires g % 2 == 0 && g < d.Length && d[g] == s
    modifies d
    ensures r <= g && r % 2 == 0
    ensures Decos(d[..r]) == DropHidden(Decos(old(d[..g])), s)
  {
    ghost var was := d[..g];
    ghost var all := Decos(was);
    ghost var m := 0;
    var n := 0;
    r := 0;
    while n < g
      invariant n == 2 * m && m <= |all| && r == 2 * |Visible(all, s, m)|
      invariant forall k :: n <= k < g ==> d[k] == was[k]
      invariant d[g] == s
      invariant Holds(d[..], Visible(all, s, m))
      decreases g - n
    {
      r := VisitEntry(d, n, r, s, m, was);
      m := m + 1;
      n := n + 2;
    }
    VisibleLength(all, s, m);
    HoldsDecos(d[..], Visible(all, s, m));
    assert d[..][..r] == d[..r];
  }

  /** Copy the entry at `n` down to `r`, unless the next one is at the same position. */
  method CopyEntry(d: array<int>, n: nat, r: nat, ghost kept: seq<Deco>, ghost more: seq<Deco>) returns (next: nat)
    requires n + 2 < d.Length && r == 2 * |kept| <= n && Holds(d[..], kept)
    requires more == if d[n] == d[n + 2] then kept else kept + [Deco(d[n], d[n + 1])]
    modifies d
    ensures forall k :: n + 2 <= k < d.Length ==> d[k] == old(d[k])
    ensures next == 2 * |more| && Holds(d[..], more)
  {
    if d[n] != d[n + 2] {
      Put(d, r, Deco(d[n], d[n + 1]), kept);
      next := r + 2;
    } else {
      next := r;
    }
  }

  /** One turn of the first pass, at entry `m`. */
  method VisitEntry(d: array<int>, n: nat, r: nat, s: int, ghost m: nat, ghost was: seq<int>) returns (next: nat)
    requires |was| % 2 == 0 && n == 2 * m < |was| < d.Length && d[|was|] == s
    requires d[n] == was[n] && d[n + 1] == was[n + 1] && (n + 2 < |was| ==> d[n + 2] == was[n + 2])
    requires r == 2 * |Visible(Decos(was), s, m)| && Holds(d[..], Visible(Decos(was), s, m))
    modifies d
    ensures forall k :: n + 2 <= k < d.Length ==> d[k] == old(d[k])
    ensures next == 2 * |Visible(Decos(was), s, m + 1)| && Holds(d[..], Visible(Decos(was), s, m + 1))
  {
    ghost var kept := Visible(Decos(was), s, m);
    ghost var more := Visible(Decos(was), s, m + 1);
    VisibleStep(was, s, m, d[n + 2], kept, more);
    next := CopyEntry(d, n, r, kept, more);
  }

  /** Second pass: skip the entries whose style is that of the one just written. */
  method JoinTwinsInPlace(d: array<int>, g: nat) returns (r: nat)
    requires g % 2 == 0 && g <= d.Length
    modifies d
    ensures r <= g && r % 2 == 0
    ensures Decos(d[..r]) == JoinTwins(Decos(old(d[..g])))
  {
    ghost var was := d[..g];
    ghost var all := Decos(was);
    ghost var m := 0;
    var n := 0;
    r := 0;
    while n < g
      invariant n == 2 * m && m <= |all| && r == 2 * |Untwinned(all, m)|
      invariant forall k :: n <= k < g ==> d[k] == was[k]
      invariant 0 < m < |all| ==> all[m].style != all[m - 1].style
      invariant Holds(d[..], Untwinned(all, m))
      decreases g - n
    {
      UntwinnedLength(all, m);
      var z, f := d[n], d[n + 1];
      var b, e := EndOfRun(d, g, n, f, m, was);
      Put(d, r, Deco(z, f), Untwinned(all, m));
      r := r + 2;
      n := b;
      m := e;
    }
    UntwinnedLength(all, m);
    HoldsDecos(d[..], Untwinned(all, m));
    assert d[..][..r] == d[..r];
  }

  lemma {:induction false} UntwinnedSame(ds: seq<Deco>, e: nat)
    requires 0 < e < |ds| && ds[e].style == ds[e - 1].style
    ensures Untwinned(ds, e + 1) == Untwinned(ds, e)
  {
  }

  /** From the entry at `n` find the next one with another style. */
  method EndOfRun(d: array<int>, g: nat, n: nat, f: int, ghost m: nat, ghost was: seq<int>)
    returns (b: nat, ghost e: nat)
    requires |was| == g && g % 2 == 0 && n == 2 * m < g <= d.Length
    requires forall k :: n <= k < g ==> d[k] == was[k]
    requires f == Decos(was)[m].style && (m > 0 ==> f != Decos(was)[m - 1].style)
    ensures b == 2 * e && m < e <= |Decos(was)|
    ensures e < |Decos(was)| ==> Decos(was)[e].style != Decos(was)[e - 1].style
    ensures Untwinned(Decos(was), e) == Untwinned(Decos(was), m) + [Decos(was)[m]]
  {
    ghost var all := Decos(was);
    e := m + 1;
    b := n + 2;
    while b + 2 <= g && d[b + 1] == f
      invariant b == 2 * e && m < e <= |all| && all[e - 1].style == f
      invariant Untwinned(all, e) == Untwinned(all, m) + [all[m]]
      decreases g - b
    {
      UntwinnedSame(all, e);
      b := b + 2;
      e := e + 1;
    }
  }

  /** Both passes over the first `g` cells of `d`, for a text of length `s`; the first `r` cells are
      the new array. */
  method Compact(d: array<int>, g: nat, s: int) returns (r: nat)
    requires g % 2 == 0 && g < d.Length
    modifies d
    ensures r <= g && r % 2 == 0
    ensures Decos(d[..r]) == Compacted(Decos(old(d[..g])), s)
  {
    d[g] := s;
    assert d[..g] == old(d[..g]);
    var kept := DropHiddenInPlace(d, g, s);
    r := JoinTwinsInPlace(d, kept);
  }
}
