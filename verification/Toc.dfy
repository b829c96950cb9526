/** The table of contents: nested lists grown heading by heading, and the legal-style counters. */
module Toc {

  /** A list and its items: a heading, or an item that only holds a nested list. */
  datatype Ul = Ul(items: seq<Li>)
  datatype Li = Heading(text: string) | Holder(ul: Ul)

  datatype Entry = Entry(depth: nat, text: string)

  predicate LastHolds(u: Ul) {
    u.items != [] && u.items[|u.items| - 1].Holder?
  }

  /** The labelled entries of the first `n` items in preorder, for a list at `depth`. */
  function Entries(u: Ul, n: nat, depth: nat): seq<Entry>
    requires n <= |u.items|
    decreases u, n
  {
    if n == 0 then []
    else
      Entries(u, n - 1, depth)
      + match u.items[n - 1]
        case Heading(text) => [Entry(depth, text)]
        case Holder(inner) => Entries(inner, |inner.items|, depth + 1)
  }

  function AllEntries(u: Ul, depth: nat): seq<Entry> {
    Entries(u, |u.items|, depth)
  }

  /** The list after a heading was appended at a level. */
  function Append(u: Ul, index: nat, text: string): Ul
    decreases index
  {
    if index <= 1 then Ul(u.items + [Heading(text)])
    else if LastHolds(u) then
      var n := |u.items| - 1;
      Ul(u.items[..n] + [Holder(Append(u.items[n].ul, index - 1, text))])
    else Ul(u.items + [Holder(Append(Ul([]), index - 1, text))])
  }

  // ---------------------------------------------------------------- the loop

  /** Whether the last item of the list, the last item of its list and so on exist for `d` steps. */
  predicate Deep(u: Ul, d: nat) {
    d == 0 || (LastHolds(u) && Deep(u.items[|u.items| - 1].ul, d - 1))
  }

  /** The list `d` steps down. */
  function At(u: Ul, d: nat): Ul
    requires Deep(u, d)
  {
    if d == 0 then u else At(u.items[|u.items| - 1].ul, d - 1)
  }

  /** The same tree with another list `d` steps down. */
  function Graft(u: Ul, d: nat, v: Ul): Ul
    requires Deep(u, d)
  {
    if d == 0 then v
    else
      var n := |u.items| - 1;
      Ul(u.items[..n] + [Holder(Graft(u.items[n].ul, d - 1, v))])
  }

  lemma {:induction false} GraftTwice(u: Ul, d: nat, v: Ul, w: Ul)
    requires Deep(u, d)
    ensures Deep(Graft(u, d, v), d) && At(Graft(u, d, v), d) == v
    ensures Graft(Graft(u, d, v), d, w) == Graft(u, d, w)
  {
    if d > 0 {
      GraftTwice(u.items[|u.items| - 1].ul, d - 1, v, w);
    }
  }

  lemma {:induction false} GraftSame(u: Ul, d: nat)
    requires Deep(u, d)
    ensures Graft(u, d, At(u, d)) == u
  {
    if d > 0 {
      GraftSame(u.items[|u.items| - 1].ul, d - 1);
    }
  }

  lemma {:induction false} OneDeeper(u: Ul, d: nat, v: Ul)
    requires Deep(u, d) && LastHolds(At(u, d))
    ensures Deep(u, d + 1)
    ensures At(u, d + 1) == At(u, d).items[|At(u, d).items| - 1].ul
    ensures var here := At(u, d); var n := |here.items| - 1;
            Graft(u, d + 1, v) == Graft(u, d, Ul(here.items[..n] + [Holder(v)]))
  {
    if d > 0 {
      OneDeeper(u.items[|u.items| - 1].ul, d - 1, v);
    } else {
      assert Deep(u, 1);
    }
  }

  function WithList(u: Ul): Ul {
    if LastHolds(u) then u else Ul(u.items + [Holder(Ul([]))])
  }

  lemma {:induction false} AppendWithList(u: Ul, index: nat, text: string)
    requires index > 1
    ensures var v := WithList(u); var n := |v.items| - 1;
            && LastHolds(v)
            && Append(u, index, text) == Ul(v.items[..n] + [Holder(Append(v.items[n].ul, index - 1, text))])
  {
    assert (u.items + [Holder(Ul([]))])[..|u.items|] == u.items;
  }

  lemma {:induction false} StepDown(u: Ul, v: Ul, d: nat, index: nat, text: string)
    requires Deep(u, d) && index > 1 && v == if LastHolds(At(u, d)) then u else Graft(u, d, WithList(At(u, d)))
    ensures Deep(v, d + 1)
    ensures Graft(v, d + 1, Append(At(v, d + 1), index - 1, text)) == Graft(u, d, Append(At(u, d), index, text))
  {
    var here := At(u, d);
    var there := WithList(here);
    GraftSame(u, d);
    GraftTwice(u, d, there, Append(here, index, text));
    AppendWithList(here, index, text);
    var n := |there.items| - 1;
    OneDeeper(v, d, Append(there.items[n].ul, index - 1, text));
  }

  class Contents {
    var toc: Ul

    constructor ()
      ensures toc == Ul([])
    {
      toc := Ul([]);
    }

    /** One step down; the list to step into is made if it is not there. */
    method GoDown(depth: nat, index: nat, text: string)
      requires Deep(toc, depth) && index > 1
      modifies this
      ensures Deep(toc, depth + 1)
      ensures Graft(toc, depth + 1, Append(At(toc, depth + 1), index - 1, text))
              == old(Graft(toc, depth, Append(At(toc, depth), index, text)))
    {
      ghost var before := toc;
      if !LastHolds(At(toc, depth)) {
        toc := Graft(toc, depth, Ul(At(toc, depth).items + [Holder(Ul([]))]));
      }
      StepDown(before, toc, depth, index, text);
    }

    /** `depth` stands for the loop's `parent`: the list that many steps down the last items. */
    method AppendToToc(index: nat, text: string)
      modifies this
      ensures toc == Append(old(toc), index, text)
    {
      var depth := 0;
      var i := 1;
      assert Graft(toc, 0, Append(At(toc, 0), index, text)) == Append(toc, index, text);
      while i < index
        invariant 1 <= i && (index >= 1 ==> i <= index) && (index < 1 ==> i == 1)
        invariant depth == i - 1 && Deep(toc, depth)
        invariant Graft(toc, depth, Append(At(toc, depth), index - depth, text)) == Append(old(toc), index, text)
      {
        GoDown(depth, index - depth, text);
        depth := depth + 1;
        i := i + 1;
      }
      toc := Graft(toc, depth, Ul(At(toc, depth).items + [Heading(text)]));
    }
  }

  // ---------------------------------------------------------------- document order

  lemma {:induction false} SameItems(u: Ul, v: Ul, n: nat, depth: nat)
    requires n <= |u.items| && n <= |v.items| && u.items[..n] == v.items[..n]
    ensures Entries(u, n, depth) == Entries(v, n, depth)
    decreases n
  {
    if n > 0 {
      assert u.items[..n - 1] == u.items[..n][..n - 1] && v.items[..n - 1] == v.items[..n][..n - 1];
      assert u.items[n - 1] == u.items[..n][n - 1] && v.items[n - 1] == v.items[..n][n - 1];
      SameItems(u, v, n - 1, depth);
    }
  }

  function Level(index: nat): nat {
    if index <= 1 then 1 else index
  }

  /** The entries of a list whose last item holds a list. */
  lemma {:induction false} EntriesHolder(u: Ul, v: Ul, n: nat, inner: Ul, depth: nat)
    requires n <= |u.items| && v.items == u.items[..n] + [Holder(inner)]
    ensures AllEntries(v, depth) == Entries(u, n, depth) + AllEntries(inner, depth + 1)
  {
    assert v.items[..n] == u.items[..n] && v.items[n] == Holder(inner);
    SameItems(u, v, n, depth);
  }

  /** Appending a heading puts it last in preorder, at the depth of its level. */
  lemma {:induction false} AppendIsLast(u: Ul, index: nat, text: string, depth: nat)
    requires depth >= 1
    ensures AllEntries(Append(u, index, text), depth)
            == AllEntries(u, depth) + [Entry(depth + Level(index) - 1, text)]
    decreases index
  {
    if index <= 1 {
      AppendHere(u, text, depth);
    } else {
      var n := if LastHolds(u) then |u.items| - 1 else |u.items|;
      var inner := if LastHolds(u) then u.items[n].ul else Ul([]);
      var grown := Append(inner, index - 1, text);
      AppendIsLast(inner, index - 1, text, depth + 1);
      AppendBelow(u, Append(u, index, text), n, inner, grown, depth, [Entry(depth + Level(index) - 1, text)]);
    }
  }

  lemma {:induction false} AppendBelow(u: Ul, v: Ul, n: nat, inner: Ul, grown: Ul, depth: nat, last: seq<Entry>)
    requires n <= |u.items| && v.items == u.items[..n] + [Holder(grown)]
    requires if n == |u.items| then inner == Ul([]) else u.items == u.items[..n] + [Holder(inner)]
    requires AllEntries(grown, depth + 1) == AllEntries(inner, depth + 1) + last
    ensures AllEntries(v, depth) == AllEntries(u, depth) + last
  {
    EntriesHolder(u, v, n, grown, depth);
    if n < |u.items| {
      EntriesHolder(u, u, n, inner, depth);
    }
    Regroup(Entries(u, n, depth), AllEntries(inner, depth + 1), last);
  }

  lemma {:induction false} AppendHere(u: Ul, text: string, depth: nat)
    ensures AllEntries(Ul(u.items + [Heading(text)]), depth) == AllEntries(u, depth) + [Entry(depth, text)]
  {
    var v := Ul(u.items + [Heading(text)]);
    assert v.items[..|u.items|] == u.items[..|u.items|];
    SameItems(u, v, |u.items|, depth);
  }

  lemma {:induction false} Regroup(a: seq<Entry>, b: seq<Entry>, c: seq<Entry>)
    ensures a + (b + c) == a + b + c
  {
  }

  datatype Header = Header(index: nat, text: string)

  function Built(headers: seq<Header>): Ul {
    if headers == [] then Ul([])
    else
      var n := |headers| - 1;
      Append(Built(headers[..n]), headers[n].index, headers[n].text)
  }

  method BuildToc(headers: seq<Header>) returns (c: Contents)
    ensures fresh(c) && c.toc == Built(headers)
  {
    c := new Contents();
    var k := 0;
    while k < |headers|
      invariant 0 <= k <= |headers| && fresh(c)
      invariant c.toc == Built(headers[..k])
    {
      assert headers[..k + 1][..k] == headers[..k];
      c.AppendToToc(headers[k].index, headers[k].text);
      k := k + 1;
    }
    assert headers[..k] == headers;
  }

  /** The labelled entries in preorder are the headings in document order, each as deep as its level. */
  lemma {:induction false} TocIsInDocumentOrder(headers: seq<Header>)
    ensures var e := AllEntries(Built(headers), 1);
            && |e| == |headers|
            && forall k :: 0 <= k < |headers| ==> e[k] == Entry(Level(headers[k].index), headers[k].text)
  {
    if headers != [] {
      var n := |headers| - 1;
      TocIsInDocumentOrder(headers[..n]);
      AppendIsLast(Built(headers[..n]), headers[n].index, headers[n].text, 1);
    }
  }

  // ---------------------------------------------------------------- numbering

  /** The first counter that differs has grown. */
  predicate Before(v: seq<nat>, w: seq<nat>) {
    && |v| == |w|
    && exists k :: 0 <= k < |v| && v[..k] == w[..k] && v[k] < w[k]
  }

  function Updated(v: seq<nat>, header: nat): (w: seq<nat>)
    ensures |w| == |v|
    ensures forall i :: 0 <= i < |v| ==> w[i] == if i < header then v[i] else if i == header then v[i] + 1 else 0
  {
    seq(|v|, i requires 0 <= i < |v| => if i < header then v[i] else if i == header then v[i] + 1 else 0)
  }

  method UpdateNumeration(headers: array<nat>, header: nat)
    requires header < headers.Length
    modifies headers
    ensures headers[..] == Updated(old(headers[..]), header)
  {
    var i := 0;
    while i < headers.Length
      invariant 0 <= i <= headers.Length
      invariant forall k :: 0 <= k < i ==> headers[k] == Updated(old(headers[..]), header)[k]
      invariant forall k :: i <= k < headers.Length ==> headers[k] == old(headers[k])
    {
      if i == header {
        headers[i] := headers[i] + 1;
      } else if i > header {
        headers[i] := 0;
      }
      i := i + 1;
    }
  }

  lemma {:induction false} UpdateGrows(v: seq<nat>, header: nat)
    requires header < |v|
    ensures Before(v, Updated(v, header))
  {
    assert v[..header] == Updated(v, header)[..header];
  }

  lemma {:induction false} BeforeIsTransitive(u: seq<nat>, v: seq<nat>, w: seq<nat>)
    requires Before(u, v) && Before(v, w)
    ensures Before(u, w)
  {
    var j :| 0 <= j < |u| && u[..j] == v[..j] && u[j] < v[j];
    var k :| 0 <= k < |v| && v[..k] == w[..k] && v[k] < w[k];
    var m := if j < k then j else k;
    assert u[..m] == u[..j][..m] && v[..m] == v[..j][..m] == v[..k][..m] && w[..m] == w[..k][..m];
    assert j < k ==> v[..k][j] == v[j] && w[..k][j] == w[j];
    assert k < j ==> u[..j][k] == u[k] && v[..j][k] == v[k];
  }

  function Counters(levels: seq<nat>, start: seq<nat>): seq<nat> {
    if levels == [] then start else Updated(Counters(levels[..|levels| - 1], start), levels[|levels| - 1])
  }

  lemma {:induction false} CountersLength(levels: seq<nat>, start: seq<nat>)
    ensures |Counters(levels, start)| == |start|
  {
    if levels != [] {
      CountersLength(levels[..|levels| - 1], start);
    }
  }

  /** In a whole document every heading's counters come after those of all earlier headings, so no two
      are the same. */
  lemma {:induction false} NumberingGrows(levels: seq<nat>, start: seq<nat>, j: nat)
    requires j < |levels| && forall k :: 0 <= k < |levels| ==> levels[k] < |start|
    ensures Before(Counters(levels[..j], start), Counters(levels, start))
  {
    var n := |levels| - 1;
    var front := levels[..n];
    CountersLength(front, start);
    UpdateGrows(Counters(front, start), levels[n]);
    if j < n {
      NumberingGrows(front, start, j);
      assert front[..j] == levels[..j];
      BeforeIsTransitive(Counters(levels[..j], start), Counters(front, start), Counters(levels, start));
    } else {
      assert levels[..j] == front;
    }
  }

  /** The numbers shown leave out counters that are zero. */
  function Shown(v: seq<nat>, header: nat): seq<nat>
    requires header < |v|
  {
    NonZero(v[..header + 1])
  }

  function NonZero(v: seq<nat>): seq<nat> {
    if v == [] then [] else (if v[0] > 0 then [v[0]] else []) + NonZero(v[1..])
  }

  predicate Positive(v: seq<nat>) {
    forall k :: 0 <= k < |v| ==> v[k] > 0
  }

  lemma {:induction false} NonZeroIsAll(v: seq<nat>)
    ensures Positive(v) ==> NonZero(v) == v
    ensures |NonZero(v)| <= |v|
    ensures |NonZero(v)| == |v| ==> Positive(v)
  {
    if v != [] {
      NonZeroIsAll(v[1..]);
      assert v == [v[0]] + v[1..];
      if v[0] > 0 && Positive(v[1..]) {
        assert Positive(v);
      }
    }
  }

  // ---------------------------------------------------------------- what readers see

  function Zeros(n: nat): (r: seq<nat>)
    ensures |r| == n && forall k :: 0 <= k < n ==> r[k] == 0
  {
    seq(n, _ => 0)
  }

  /** Headings that are numbered: of `n` levels those from `base` on; the levels above are excluded. */
  predicate Headings(levels: seq<nat>, n: nat, base: nat) {
    forall k :: 0 <= k < |levels| ==> base <= levels[k] < n
  }

  /** The counters after heading `k`. */
  function After(levels: seq<nat>, n: nat, k: nat): (v: seq<nat>)
    requires k < |levels|
    ensures |v| == n
  {
    CountersLength(levels[..k + 1], Zeros(n));
    Counters(levels[..k + 1], Zeros(n))
  }

  /** The number that heading `k` shows. */
  function Number(levels: seq<nat>, n: nat, base: nat, k: nat): seq<nat>
    requires Headings(levels, n, base) && k < |levels|
  {
    Shown(After(levels, n, k), levels[k])
  }

  /** Counters in which `a` was the last level: nothing above the base and nothing below `a`. */
  predicate Shaped(v: seq<nat>, base: nat, a: nat) {
    && base <= a < |v| && v[a] > 0
    && (forall k :: 0 <= k < base ==> v[k] == 0) && (forall k :: a < k < |v| ==> v[k] == 0)
  }

  lemma {:induction false} CountersShape(levels: seq<nat>, n: nat, base: nat)
    requires Headings(levels, n, base)
    ensures |Counters(levels, Zeros(n))| == n
    ensures forall k :: 0 <= k < base && k < n ==> Counters(levels, Zeros(n))[k] == 0
    ensures levels != [] ==> Shaped(Counters(levels, Zeros(n)), base, levels[|levels| - 1])
  {
    if levels != [] {
      CountersShape(levels[..|levels| - 1], n, base);
    }
  }

  lemma {:induction false} NonZeroConcat(a: seq<nat>, b: seq<nat>)
    ensures NonZero(a + b) == NonZero(a) + NonZero(b)
  {
    if a == [] {
      assert a + b == b;
    } else {
      assert (a + b)[1..] == a[1..] + b;
      NonZeroConcat(a[1..], b);
    }
  }

  lemma {:induction false} NonZeroNone(v: seq<nat>)
    requires forall k :: 0 <= k < |v| ==> v[k] == 0
    ensures NonZero(v) == []
  {
    if v != [] {
      NonZeroNone(v[1..]);
    }
  }

  /** What is shown is what stands from the base on, without the zeros. */
  lemma {:induction false} ShownFromBase(v: seq<nat>, base: nat, a: nat)
    requires Shaped(v, base, a)
    ensures Shown(v, a) == NonZero(v[base..a + 1])
    ensures |Shown(v, a)| == a + 1 - base <==> Positive(v[base..a + 1])
    ensures Positive(v[base..a + 1]) ==> Shown(v, a) == v[base..a + 1]
  {
    assert v[..a + 1] == v[..base] + v[base..a + 1];
    NonZeroConcat(v[..base], v[base..a + 1]);
    NonZeroNone(v[..base]);
    NonZeroIsAll(v[base..a + 1]);
  }

  /** The first heading is on the base level, and each goes at most one level deeper than the one before. */
  predicate NoSkip(levels: seq<nat>, base: nat) {
    forall k :: 0 <= k < |levels| ==> StepsRight(levels, base, k)
  }

  predicate StepsRight(levels: seq<nat>, base: nat, k: nat)
    requires k < |levels|
  {
    if k == 0 then levels[k] == base else levels[k] <= levels[k - 1] + 1
  }

  lemma {:induction false} PositiveSlice(v: seq<nat>, lo: nat, hi: nat)
    requires lo <= hi <= |v|
    ensures Positive(v[lo..hi]) <==> forall i :: lo <= i < hi ==> v[i] > 0
  {
    if Positive(v[lo..hi]) {
      forall i | lo <= i < hi ensures v[i] > 0 {
        assert v[lo..hi][i - lo] == v[i];
      }
    }
  }

  /** One more heading after one that is shown in full: it is in full if and only if it skips no level. */
  lemma {:induction false} NextInFull(v: seq<nat>, base: nat, a: nat, b: nat)
    requires Shaped(v, base, a) && Positive(v[base..a + 1]) && base <= b < |v|
    ensures Positive(Updated(v, b)[base..b + 1]) <==> b <= a + 1
  {
    PositiveSlice(v, base, a + 1);
    PositiveSlice(Updated(v, b), base, b + 1);
    if b > a + 1 {
      assert Updated(v, b)[a + 1] == 0;
    }
  }

  lemma {:induction false} FirstInFull(n: nat, base: nat, b: nat)
    requires base <= b < n
    ensures Positive(Updated(Zeros(n), b)[base..b + 1]) <==> b == base
  {
    PositiveSlice(Updated(Zeros(n), b), base, b + 1);
    if b > base {
      assert Updated(Zeros(n), b)[base] == 0;
    }
  }

  /** Heading `k` shows a number for each level from the base to its own. */
  predicate InFull(levels: seq<nat>, n: nat, base: nat, k: nat)
    requires Headings(levels, n, base) && k < |levels|
  {
    |Number(levels, n, base, k)| == levels[k] + 1 - base
  }

  lemma {:induction false} InFullMeans(levels: seq<nat>, n: nat, base: nat, k: nat)
    requires Headings(levels, n, base) && k < |levels|
    ensures Shaped(After(levels, n, k), base, levels[k])
    ensures InFull(levels, n, base, k) <==> Positive(After(levels, n, k)[base..levels[k] + 1])
    ensures InFull(levels, n, base, k) ==> Number(levels, n, base, k) == After(levels, n, k)[base..levels[k] + 1]
  {
    CountersShape(levels[..k + 1], n, base);
    ShownFromBase(After(levels, n, k), base, levels[k]);
  }

  lemma {:induction false} AfterNext(levels: seq<nat>, n: nat, k: nat)
    requires k < |levels|
    ensures After(levels, n, k) == Updated(if k == 0 then Zeros(n) else After(levels, n, k - 1), levels[k])
  {
    var upto := levels[..k + 1];
    assert upto[..|upto| - 1] == levels[..k] && upto[|upto| - 1] == levels[k];
    assert k == 0 ==> levels[..k] == [];
    assert Counters(upto, Zeros(n)) == Updated(Counters(levels[..k], Zeros(n)), levels[k]);
  }

  /** The condition on the document, one heading at a time. */
  lemma {:induction false} InFullStep(levels: seq<nat>, n: nat, base: nat, k: nat)
    requires Headings(levels, n, base) && k < |levels| && (k > 0 ==> InFull(levels, n, base, k - 1))
    ensures InFull(levels, n, base, k) <==> StepsRight(levels, base, k)
  {
    var w := After(levels, n, k);
    AfterNext(levels, n, k);
    InFullMeans(levels, n, base, k);
    if k == 0 {
      FirstInFull(n, base, levels[0]);
    } else {
      LaterInFull(levels, n, base, k, After(levels, n, k - 1), w);
    }
  }

  lemma {:induction false} LaterInFull(levels: seq<nat>, n: nat, base: nat, k: nat, v: seq<nat>, w: seq<nat>)
    requires Headings(levels, n, base) && 0 < k < |levels| && InFull(levels, n, base, k - 1)
    requires v == After(levels, n, k - 1) && w == Updated(v, levels[k])
    ensures Positive(w[base..levels[k] + 1]) <==> levels[k] <= levels[k - 1] + 1
  {
    InFullMeans(levels, n, base, k - 1);
    NextInFull(v, base, levels[k - 1], levels[k]);
  }

  /** Every heading shows a number for each of its levels if and only if no heading skips a level. */
  lemma {:induction false} ShownInFull(levels: seq<nat>, n: nat, base: nat)
    requires Headings(levels, n, base)
    ensures (forall k :: 0 <= k < |levels| ==> InFull(levels, n, base, k)) <==> NoSkip(levels, base)
  {
    if NoSkip(levels, base) {
      forall k | 0 <= k < |levels| ensures InFull(levels, n, base, k) {
        AllInFull(levels, n, base, k);
      }
    }
    if forall k :: 0 <= k < |levels| ==> InFull(levels, n, base, k) {
      forall k | 0 <= k < |levels| ensures StepsRight(levels, base, k) {
        assert InFull(levels, n, base, k) && (k > 0 ==> InFull(levels, n, base, k - 1));
        InFullStep(levels, n, base, k);
      }
    }
  }

  lemma {:induction false} AllInFull(levels: seq<nat>, n: nat, base: nat, k: nat)
    requires Headings(levels, n, base) && k < |levels| && NoSkip(levels, base)
    ensures InFull(levels, n, base, k)
  {
    if k > 0 {
      AllInFull(levels, n, base, k - 1);
    }
    InFullStep(levels, n, base, k);
  }

  /** Counters shown in full are told from all later ones. */
  lemma {:induction false} FullIsUnlike(v: seq<nat>, w: seq<nat>, base: nat, a: nat, b: nat)
    requires Shaped(v, base, a) && Shaped(w, base, b) && Before(v, w) && Positive(v[base..a + 1])
    ensures Shown(v, a) != Shown(w, b)
  {
    ShownFromBase(v, base, a);
    ShownFromBase(w, base, b);
    PositiveSlice(v, base, a + 1);
    var p :| 0 <= p < |v| && v[..p] == w[..p] && v[p] < w[p];
    assert base <= p <= b;
    if p <= a {
      PartsAbove(v, w, base, a, b, p);
    } else {
      PartsBelow(v, w, base, a, b, p);
    }
  }

  lemma {:induction false} PartsAbove(v: seq<nat>, w: seq<nat>, base: nat, a: nat, b: nat, p: nat)
    requires base <= p <= a < |v| == |w| && p <= b < |w| && Positive(v[base..a + 1])
    requires v[..p] == w[..p] && v[p] < w[p]
    ensures v[base..a + 1] != NonZero(w[base..b + 1])
  {
    assert w[base..p] == w[..p][base..p] == v[..p][base..p] == v[base..p];
    PositiveSlice(v, base, a + 1);
    PositiveSlice(v, base, p);
    StartsPositive(w, base, p, b);
    FirstShown(w[p..b + 1]);
    assert v[base..a + 1][p - base] == v[p];
    assert NonZero(w[base..b + 1])[p - base] == w[p];
  }

  lemma {:induction false} PartsBelow(v: seq<nat>, w: seq<nat>, base: nat, a: nat, b: nat, p: nat)
    requires base <= a < p <= b < |w| == |v| && Positive(v[base..a + 1])
    requires v[..p] == w[..p] && w[p] > 0
    ensures |NonZero(w[base..b + 1])| > a + 1 - base
  {
    assert w[base..a + 1] == w[..p][base..a + 1] == v[..p][base..a + 1] == v[base..a + 1];
    StartsPositive(w, base, a + 1, b);
    Later(w[a + 1..b + 1], p - a - 1);
  }

  lemma {:induction false} FirstShown(s: seq<nat>)
    requires s != [] && s[0] > 0
    ensures NonZero(s) != [] && NonZero(s)[0] == s[0]
  {
  }

  lemma {:induction false} StartsPositive(w: seq<nat>, base: nat, m: nat, b: nat)
    requires base <= m <= b + 1 <= |w| && Positive(w[base..m])
    ensures NonZero(w[base..b + 1]) == w[base..m] + NonZero(w[m..b + 1])
  {
    assert w[base..b + 1] == w[base..m] + w[m..b + 1];
    NonZeroConcat(w[base..m], w[m..b + 1]);
    NonZeroIsAll(w[base..m]);
  }

  lemma {:induction false} Later(s: seq<nat>, k: nat)
    requires k < |s| && s[k] > 0
    ensures NonZero(s) != []
  {
    if k > 0 {
      Later(s[1..], k - 1);
    }
  }

  /** A heading that is shown in full shows another number than every later heading, whatever levels those
      skip. */
  lemma {:induction false} FullNumbersAreUnique(levels: seq<nat>, n: nat, base: nat, j: nat, k: nat)
    requires Headings(levels, n, base) && j < k < |levels| && InFull(levels, n, base, j)
    ensures Number(levels, n, base, j) != Number(levels, n, base, k)
  {
    var upto := levels[..k + 1];
    assert upto[..j + 1] == levels[..j + 1];
    NumberingGrows(upto, Zeros(n), j + 1);
    InFullMeans(levels, n, base, j);
    InFullMeans(levels, n, base, k);
    FullIsUnlike(After(levels, n, j), After(levels, n, k), base, levels[j], levels[k]);
  }

  /** In a document in which no heading skips a level no two headings show the same number. */
  lemma {:induction false} NumbersAreDistinct(levels: seq<nat>, n: nat, base: nat, j: nat, k: nat)
    requires Headings(levels, n, base) && NoSkip(levels, base) && j < k < |levels|
    ensures Number(levels, n, base, j) != Number(levels, n, base, k)
  {
    AllInFull(levels, n, base, j);
    FullNumbersAreUnique(levels, n, base, j, k);
  }

  // ---------------------------------------------------------------- which numbers are the same

  /** The highest of some levels. */
  function Highest(levels: seq<nat>): (p: nat)
    requires levels != []
    ensures p in levels && forall x :: x in levels ==> p <= x
  {
    if |levels| == 1 then levels[0]
    else
      var p := Highest(levels[1..]);
      assert levels == [levels[0]] + levels[1..];
      if levels[0] < p then levels[0] else p
  }

  /** Headings on levels from `p` on leave the counters above `p` as they are; from `p` on they count, once
      level `p` has come, as if they were alone, on top of what stood at `p`. */
  lemma {:induction false} CountAnew(mid: seq<nat>, p: nat, v: seq<nat>)
    requires p < |v| && Headings(mid, |v|, p)
    ensures var w, u := Counters(mid, v), Counters(mid, Zeros(|v|));
            && |w| == |u| == |v| && w[..p] == v[..p] && w[p] == v[p] + u[p]
            && (p in mid ==> u[p] > 0 && w[p + 1..] == u[p + 1..]) && (p !in mid ==> u[p] == 0)
  {
    if mid != [] {
      var k := |mid| - 1;
      var front, h := mid[..k], mid[k];
      assert mid == front + [h];
      CountAnew(front, p, v);
      var w, u := Counters(front, v), Counters(front, Zeros(|v|));
      assert Updated(w, h)[..p] == w[..p];
      if p in mid {
        SameBehind(w, u, p, h, p in front);
      }
    }
  }

  lemma {:induction false} SameBehind(w: seq<nat>, u: seq<nat>, p: nat, h: nat, same: bool)
    requires p <= h < |w| == |u| && (if same then w[p + 1..] == u[p + 1..] else h == p)
    ensures Updated(w, h)[p + 1..] == Updated(u, h)[p + 1..]
  {
    if same {
      assert forall x :: p < x < |w| ==> w[x] == w[p + 1..][x - p - 1] == u[p + 1..][x - p - 1] == u[x];
    }
  }

  /** Heading `j` leaves out level `p` above its own. */
  predicate LeavesOut(levels: seq<nat>, n: nat, j: nat, p: nat)
    requires j < |levels|
  {
    p < levels[j] < n && After(levels, n, j)[p] == 0
  }

  /** What heading `j` shows of the levels from `p` on. */
  function NumberFrom(levels: seq<nat>, n: nat, p: nat, j: nat): seq<nat>
    requires j < |levels| && p <= levels[j] < n
  {
    NonZero(After(levels, n, j)[p..levels[j] + 1])
  }

  lemma {:induction false} ShownInTwo(v: seq<nat>, p: nat, a: nat)
    requires p <= a + 1 <= |v|
    ensures NonZero(v[..a + 1]) == NonZero(v[..p]) + NonZero(v[p..a + 1])
  {
    assert v[..a + 1] == v[..p] + v[p..a + 1];
    NonZeroConcat(v[..p], v[p..a + 1]);
  }

  /** Counters that agree above `p`, where the later ones have grown. */
  lemma {:induction false} SameShown(v: seq<nat>, w: seq<nat>, p: nat, a: nat, b: nat)
    requires a < |v| == |w| && p <= b < |w| && v[..p] == w[..p] && v[p] < w[p] && v[a] > 0
    ensures Shown(v, a) == Shown(w, b) <==> p < a && v[p] == 0 && NonZero(v[p..a + 1]) == NonZero(w[p..b + 1])
  {
    if a < p {
      assert v[..a + 1] == v[..p][..a + 1] == w[..p][..a + 1] == w[..a + 1];
      ShownInTwo(w, a + 1, b);
      Later(w[a + 1..b + 1], p - a - 1);
    } else {
      ShownInTwo(v, p, a);
      ShownInTwo(w, p, b);
      FirstShown(w[p..b + 1]);
      if v[p] > 0 {
        FirstShown(v[p..a + 1]);
      }
      Cancel(NonZero(v[..p]), NonZero(v[p..a + 1]), NonZero(w[p..b + 1]));
    }
  }

  lemma {:induction false} Cancel(c: seq<nat>, a: seq<nat>, b: seq<nat>)
    ensures c + a == c + b <==> a == b
  {
    if c + a == c + b {
      assert a == (c + a)[|c|..] && b == (c + b)[|c|..];
    }
  }

  /** The counters after heading `k` come from those after heading `j` by the headings `mid` between. */
  lemma {:induction false} CountsBehind(levels: seq<nat>, n: nat, j: nat, k: nat, mid: seq<nat>)
    requires j < k < |levels| && mid == levels[j + 1..k + 1]
    ensures After(levels, n, k) == Counters(mid, After(levels, n, j))
    ensures After(mid, n, k - j - 1) == Counters(mid, Zeros(n))
  {
    assert levels[..k + 1] == levels[..j + 1] + mid && mid[..k - j] == mid;
    CountersConcat(levels[..j + 1], mid, Zeros(n));
  }

  lemma {:induction false} HighestIsBase(levels: seq<nat>, n: nat, base: nat)
    requires Headings(levels, n, base) && levels != []
    ensures Headings(levels, n, Highest(levels))
  {
    forall i | 0 <= i < |levels| ensures Highest(levels) <= levels[i] < n {
      assert levels[i] in levels;
    }
  }

  /** Counters after headings from level `p` on, compared with those of these headings alone. */
  lemma {:induction false} SameShownAnew(v: seq<nat>, mid: seq<nat>, p: nat, a: nat, b: nat)
    requires Headings(mid, |v|, p) && p in mid && mid[|mid| - 1] == b && a < |v| && v[a] > 0
    ensures var w, u := Counters(mid, v), Counters(mid, Zeros(|v|));
            && p <= b < |w| == |u| == |v|
            && (Shown(v, a) == Shown(w, b) <==> p < a && v[p] == 0 && NonZero(v[p..a + 1]) == Shown(u, b))
  {
    var w, u := Counters(mid, v), Counters(mid, Zeros(|v|));
    CountAnew(mid, p, v);
    SameShown(v, w, p, a, b);
    CountersShape(mid, |v|, p);
    ShownFromBase(u, p, b);
    if v[p] == 0 {
      SameFrom(w, u, p, b);
    }
  }

  lemma {:induction false} AfterIsShaped(levels: seq<nat>, n: nat, base: nat, j: nat, v: seq<nat>)
    requires Headings(levels, n, base) && j < |levels| && v == After(levels, n, j)
    ensures |v| == n && Shaped(v, base, levels[j])
  {
    CountersShape(levels[..j + 1], n, base);
  }

  /** Headings are counted one by one: the first on a level behind the beginning or behind a heading above it
      has counter one there, and the next on the same level, with only deeper ones between, has one more and
      the same counters above. */
  lemma {:induction false} CountsByOne(levels: seq<nat>, n: nat, base: nat, j: nat, k: nat)
    requires Headings(levels, n, base) && j < k < |levels|
    requires forall i :: j < i < k ==> levels[i] > levels[k]
    ensures After(levels, n, 0)[levels[0]] == 1
    ensures levels[j] < levels[k] ==> After(levels, n, k)[levels[k]] == 1
    ensures levels[j] == levels[k] ==> After(levels, n, k)[levels[k]] == After(levels, n, j)[levels[k]] + 1
    ensures After(levels, n, k)[..levels[k]] == After(levels, n, j)[..levels[k]]
  {
    AfterNext(levels, n, 0);
    var mid, p, v := levels[j + 1..k + 1], levels[k], After(levels, n, j);
    CountsBehind(levels, n, j, k, mid);
    AfterIsShaped(levels, n, base, j, v);
    OneMore(mid, p, v);
  }

  lemma {:induction false} OneMore(mid: seq<nat>, p: nat, v: seq<nat>)
    requires mid != [] && mid[|mid| - 1] == p < |v|
    requires forall i :: 0 <= i < |mid| - 1 ==> p < mid[i] < |v|
    ensures var w := Counters(mid, v); |w| == |v| && w[p] == v[p] + 1 && w[..p] == v[..p]
  {
    var front := mid[..|mid| - 1];
    assert Headings(front, |v|, p);
    CountAnew(front, p, v);
    assert Updated(Counters(front, v), p)[..p] == Counters(front, v)[..p];
  }

  /** When two headings of a document show the same number: if and only if the earlier one leaves out the
      highest level that comes behind it up to the later one, and shows of the levels below what the
      later one shows if the count starts anew behind the earlier one. */
  lemma {:induction false} SameNumber(levels: seq<nat>, n: nat, base: nat, j: nat, k: nat)
    requires Headings(levels, n, base) && j < k < |levels|
    ensures var mid := levels[j + 1..k + 1];
            var p := Highest(mid);
            && Headings(mid, n, p) && mid[k - j - 1] == levels[k]
            && (Number(levels, n, base, j) == Number(levels, n, base, k) <==>
                LeavesOut(levels, n, j, p)
                && NumberFrom(levels, n, p, j) == Number(mid, n, p, k - j - 1))
  {
    var mid := levels[j + 1..k + 1];
    assert Headings(mid, n, base);
    HighestIsBase(mid, n, base);
    CountsBehind(levels, n, j, k, mid);
    CountersShape(levels[..j + 1], n, base);
    SameShownAnew(After(levels, n, j), mid, Highest(mid), levels[j], levels[k]);
  }

  lemma {:induction false} SameFrom(w: seq<nat>, u: seq<nat>, p: nat, b: nat)
    requires p <= b < |w| == |u| && w[p] == u[p] && w[p + 1..] == u[p + 1..]
    ensures w[p..b + 1] == u[p..b + 1]
  {
    assert forall x :: p < x < |w| ==> w[x] == w[p + 1..][x - p - 1] == u[p + 1..][x - p - 1] == u[x];
  }

  // ---------------------------------------------------------------- numbers that come again

  function Rep(level: nat, m: nat): seq<nat> {
    if m == 0 then [] else Rep(level, m - 1) + [level]
  }

  /** Headings that leave the counters `s` from level `p` on. */
  function Build(p: nat, s: seq<nat>): seq<nat>
    decreases |s|
  {
    if s == [] then [] else Rep(p, s[0]) + Build(p + 1, s[1..])
  }

  lemma {:induction false} CountersConcat(a: seq<nat>, b: seq<nat>, start: seq<nat>)
    ensures Counters(a + b, start) == Counters(b, Counters(a, start))
    decreases |b|
  {
    if b == [] {
      assert a + b == a;
    } else {
      var n := |b| - 1;
      assert (a + b)[..|a + b| - 1] == a + b[..n] && (a + b)[|a + b| - 1] == b[n];
      CountersConcat(a, b[..n], start);
    }
  }

  lemma {:induction false} RepCounters(u: seq<nat>, p: nat, m: nat)
    requires p < |u| && m > 0
    ensures Counters(Rep(p, m), u) == u[..p] + [u[p] + m] + Zeros(|u| - p - 1)
  {
    var w := Counters(Rep(p, m), u);
    RepOnce(u, p, m);
    if m > 1 {
      RepCounters(u, p, m - 1);
    }
    forall k | 0 <= k < |u| ensures w[k] == (u[..p] + [u[p] + m] + Zeros(|u| - p - 1))[k] {
    }
  }

  lemma {:induction false} RepOnce(u: seq<nat>, p: nat, m: nat)
    requires p < |u| && m > 0
    ensures Counters(Rep(p, m), u) == Updated(if m == 1 then u else Counters(Rep(p, m - 1), u), p)
    ensures |Counters(Rep(p, m), u)| == |u|
  {
    assert Rep(p, m)[..|Rep(p, m)| - 1] == Rep(p, m - 1);
    assert m == 1 ==> Rep(p, 0) == [] && Counters([], u) == u;
    CountersLength(Rep(p, m), u);
  }

  lemma {:induction false} BuildCounters(u: seq<nat>, p: nat, s: seq<nat>)
    requires s != [] && Positive(s) && p + |s| <= |u| && u[p] == 0
    ensures Counters(Build(p, s), u) == u[..p] + s + Zeros(|u| - p - |s|)
    decreases |s|
  {
    var w := u[..p] + [s[0]] + Zeros(|u| - p - 1);
    RepCounters(u, p, s[0]);
    CountersConcat(Rep(p, s[0]), Build(p + 1, s[1..]), u);
    if |s| == 1 {
      assert s == [s[0]] && Build(p + 1, s[1..]) == [];
      assert Counters([], w) == w;
    } else {
      BuildCounters(w, p + 1, s[1..]);
      assert w[..p + 1] == u[..p] + [s[0]];
      assert u[..p] + [s[0]] + s[1..] == u[..p] + s by {
        assert s == [s[0]] + s[1..];
      }
    }
  }

  lemma {:induction false} RepLevels(p: nat, m: nat)
    ensures forall k :: 0 <= k < |Rep(p, m)| ==> Rep(p, m)[k] == p
    ensures |Rep(p, m)| == m
  {
    if m > 0 {
      RepLevels(p, m - 1);
    }
  }

  lemma {:induction false} BuildLevels(p: nat, s: seq<nat>)
    requires Positive(s)
    ensures forall k :: 0 <= k < |Build(p, s)| ==> p <= Build(p, s)[k] < p + |s|
    ensures s != [] ==> Build(p, s) != [] && Build(p, s)[|Build(p, s)| - 1] == p + |s| - 1
    decreases |s|
  {
    if s != [] {
      RepLevels(p, s[0]);
      BuildLevels(p + 1, s[1..]);
    }
  }

  lemma {:induction false} LastZero(s: seq<nat>) returns (p: nat)
    requires !Positive(s)
    ensures p < |s| && s[p] == 0 && Positive(s[p + 1..])
  {
    var n := |s| - 1;
    if s[n] == 0 {
      p := n;
    } else {
      p := LastZero(s[..n]);
      PositiveSlice(s[..n], p + 1, n);
      PositiveSlice(s, p + 1, |s|);
      assert s[..n][p + 1..n] == s[..n][p + 1..] && s[p + 1..|s|] == s[p + 1..];
      forall i | p + 1 <= i < |s| ensures s[i] > 0 {
        assert i < n ==> s[..n][i] == s[i];
      }
    }
  }

  /** A number that leaves a level out comes again if the document goes on in the right way. */
  lemma {:induction false} SkippedNumberComesAgain(levels: seq<nat>, n: nat, base: nat) returns (more: seq<nat>)
    requires Headings(levels, n, base) && levels != [] && !InFull(levels, n, base, |levels| - 1)
    ensures more != [] && Headings(levels + more, n, base)
    ensures Number(levels + more, n, base, |levels + more| - 1) == Number(levels + more, n, base, |levels| - 1)
  {
    var j := |levels| - 1;
    var a := levels[j];
    var v := After(levels, n, j);
    InFullMeans(levels, n, base, j);
    var z := LastZero(v[base..a + 1]);
    var p := base + z;
    var s := v[p + 1..a + 1];
    assert v[base..a + 1][z + 1..] == s;
    assert v[p] == 0 && p < a;
    more := Build(p, s);
    BuildCounters(v, p, s);
    BuildLevels(p, s);
    var all := levels + more;
    forall k | 0 <= k < |all| ensures base <= all[k] < n {
      if k < |levels| {
        assert all[k] == levels[k];
      } else {
        assert all[k] == more[k - |levels|];
      }
    }
    assert levels[..j + 1] == levels && all[..j + 1] == levels && all[..|all|] == all;
    CountersConcat(levels, more, Zeros(n));
    ShiftedLooksAlike(v, After(all, n, |all| - 1), p, s, a);
  }

  /** Leaving a zero out changes nothing that is shown. */
  lemma {:induction false} ShiftedLooksAlike(v: seq<nat>, w: seq<nat>, p: nat, s: seq<nat>, a: nat)
    requires p < a < |v| == |w| && v[p] == 0 && s == v[p + 1..a + 1]
    requires w == v[..p] + s + Zeros(|v| - p - |s|)
    ensures Shown(v, a) == Shown(w, a - 1)
  {
    assert w[..a] == v[..p] + s;
    assert v[..a + 1] == v[..p] + ([0] + s);
    NonZeroConcat(v[..p], s);
    NonZeroConcat(v[..p], [0] + s);
    NonZeroCons(0, s);
  }

  /** Exactly the headings shown in full are safe: the number of a heading never comes again, however the
      document goes on, if and only if no level was left out of it. */
  lemma {:induction false} NumberIsSafe(levels: seq<nat>, n: nat, base: nat)
    requires Headings(levels, n, base) && levels != []
    ensures (forall more, k :: Headings(levels + more, n, base) && |levels| <= k < |levels + more| ==>
               Number(levels + more, n, base, k) != Number(levels + more, n, base, |levels| - 1))
            <==> InFull(levels, n, base, |levels| - 1)
  {
    var j := |levels| - 1;
    if InFull(levels, n, base, j) {
      forall more, k | Headings(levels + more, n, base) && |levels| <= k < |levels + more|
        ensures Number(levels + more, n, base, k) != Number(levels + more, n, base, j)
      {
        assert (levels + more)[..j + 1] == levels[..j + 1] && (levels + more)[j] == levels[j];
        FullNumbersAreUnique(levels + more, n, base, j, k);
      }
    } else {
      var more := SkippedNumberComesAgain(levels, n, base);
      assert |levels| <= |levels + more| - 1 < |levels + more|;
    }
  }

  lemma {:induction false} CountersPush(levels: seq<nat>, start: seq<nat>, header: nat)
    ensures Counters(levels + [header], start) == Updated(Counters(levels, start), header)
  {
    assert (levels + [header])[..|levels|] == levels;
  }

  lemma {:induction false} NonZeroCons(x: nat, v: seq<nat>)
    ensures NonZero([x] + v) == if x > 0 then [x] + NonZero(v) else NonZero(v)
  {
    assert ([x] + v)[1..] == v;
  }

  lemma {:induction false} ShownThree(x: nat, z: nat)
    requires x > 0 && z > 0
    ensures Shown([x, 0, z], 2) == [x, z]
    ensures Shown([x, z, 0], 1) == [x, z]
  {
    var last: seq<nat> := [z];
    NonZeroCons(z, []);
    assert last == [z] + [];
    NonZeroCons(0, last);
    NonZeroCons(x, [0] + last);
    NonZeroCons(x, last);
    assert [x, 0, z][..3] == [x] + ([0] + last);
    assert [x, z, 0][..2] == [x] + last;
  }

  /** Skipping a level makes two different headings show the same numbers: in a document with a first
      level heading, a third level one and a second level one, the last two do. */
  lemma {:induction false} SkippedLevelsCollide(start: seq<nat>, one: seq<nat>, two: seq<nat>)
    requires start == [0, 0, 0] && one == [0] + [2] && two == one + [1]
    ensures Counters(one, start) == [1, 0, 1] && Counters(two, start) == [1, 1, 0]
    ensures Shown([1, 0, 1], 2) == Shown([1, 1, 0], 1)
  {
    CountersPush([], start, 0);
    assert [] + [0] == [0];
    assert Counters([], start) == start;
    CountersPush([0], start, 2);
    CountersPush(one, start, 1);
    assert Updated(start, 0) == [1, 0, 0];
    assert Updated([1, 0, 0], 2) == [1, 0, 1];
    assert Updated([1, 0, 1], 1) == [1, 1, 0];
    ShownThree(1, 1);
  }
}
