/** The last stage of prettify: two cursors walk the spans of the document and the decorations, and
    every text node is cut into pieces, each wrapped in an element of one class. */
module Recombine {
  import opened Options
  import opened SourceSpans
  import opened Decorations

  /** A wrapped piece of a text node: the source from `at` on, and the class it was given; None is
      the class `undefined` that reading behind the decorations would give. */
  datatype Piece = Piece(at: nat, text: string, cls: Option<int>)

  /** What became of one span: the wrapped pieces, and the text of the node left behind them (None
      if the node was not touched). */
  datatype Result = Result(pieces: seq<Piece>, rest: Option<string>)

  /** `x || s`: an absent or zero position stands for the end of the text. */
  function OrEnd(x: Option<int>, s: nat): int {
    if x.None? || x.value == 0 then s else x.value
  }

  function At(d: seq<int>, k: int): Option<int> {
    if 0 <= k < |d| then Some(d[k]) else None
  }

  function StartAt(spans: seq<Span>, k: nat): Option<int> {
    if k < |spans| then Some(spans[k].start) else None
  }

  function Clamp(i: int, n: nat): nat {
    if i < 0 then 0 else if i > n then n else i
  }

  /** JavaScript's `substring`: bounds are clamped, and swapped if they are in the wrong order. */
  function Substring(t: string, i: int, j: int): string {
    var a, b := Clamp(i, |t|), Clamp(j, |t|);
    if a <= b then t[a..b] else t[b..a]
  }

  /** Every character of the piece is in the style the piece was given. */
  predicate GoodPiece(src: string, ds: seq<Deco>, p: Piece) {
    && 0 < |p.text| && p.at + |p.text| <= |src|
    && p.text == src[p.at..p.at + |p.text|]
    && p.cls.Some?
    && forall x :: p.at <= x < p.at + |p.text| ==> StyleAt(ds, x) == p.cls
  }

  predicate GoodPieces(src: string, ds: seq<Deco>, ps: seq<Piece>) {
    forall k :: 0 <= k < |ps| ==> GoodPiece(src, ds, ps[k])
  }

  /** The pieces follow one another without gap or overlap from `lo` to `hi`. */
  predicate Cover(ps: seq<Piece>, lo: nat, hi: nat) {
    if ps == [] then lo == hi
    else
      var p := ps[|ps| - 1];
      p.at + |p.text| == hi && Cover(ps[..|ps| - 1], lo, p.at)
  }

  /** What is right for span `k` when everything up to position `e` has been wrapped. */
  predicate Fits(src: string, spans: seq<Span>, ds: seq<Deco>, k: nat, r: Result, e: nat)
    requires k < |spans| && e <= |src|
  {
    if !spans[k].isText then r == Result([], None)
    else
      && GoodPieces(src, ds, r.pieces) && Cover(r.pieces, spans[k].start, e)
      && spans[k].start <= e <= SpanEnd(spans, k, |src|) <= |src|
      && r.rest == if r.pieces == [] then None else Some(src[e..SpanEnd(spans, k, |src|)])
  }

  /** Span `k` is finished. */
  predicate Finished(src: string, spans: seq<Span>, ds: seq<Deco>, k: nat, r: Result)
    requires k < |spans| && SpanEnd(spans, k, |src|) <= |src|
  {
    Fits(src, spans, ds, k, r, SpanEnd(spans, k, |src|))
  }

  function Concat(ps: seq<Piece>): string {
    if ps == [] then [] else Concat(ps[..|ps| - 1]) + ps[|ps| - 1].text
  }

  /** The pieces of a text node spell its part of the source. */
  lemma {:induction false} PiecesSpellTheSource(src: string, ds: seq<Deco>, ps: seq<Piece>, lo: nat, hi: nat)
    requires GoodPieces(src, ds, ps) && Cover(ps, lo, hi) && hi <= |src|
    ensures lo <= hi && Concat(ps) == src[lo..hi]
  {
    if ps != [] {
      var p := ps[|ps| - 1];
      assert GoodPiece(src, ds, p);
      PiecesSpellTheSource(src, ds, ps[..|ps| - 1], lo, p.at);
      assert src[lo..hi] == src[lo..p.at] + src[p.at..hi];
    }
  }

  lemma {:induction false} CoverPush(ps: seq<Piece>, p: Piece, lo: nat)
    requires Cover(ps, lo, p.at)
    ensures Cover(ps + [p], lo, p.at + |p.text|)
  {
    assert (ps + [p])[..|ps|] == ps;
  }

  /** The decoration in force at `e`, when `a` is the cursor into the flat array. */
  predicate CursorAt(ds: seq<Deco>, m: nat, e: int) {
    m < |ds| && ds[m].pos <= e && (m + 1 < |ds| ==> e < ds[m + 1].pos)
  }

  /** Wrapping the text from `e` to `b`, which lies inside one decoration. */
  lemma {:induction false} WrapFits(
    src: string, spans: seq<Span>, ds: seq<Deco>, k: nat, r: Result, e: nat, b: nat, m: nat)
    requires k < |spans| && spans[k].isText && e < b <= SpanEnd(spans, k, |src|) <= |src|
    requires Fits(src, spans, ds, k, r, e) && Increasing(ds)
    requires CursorAt(ds, m, e) && (m + 1 < |ds| ==> b <= ds[m + 1].pos)
    ensures var p := Piece(e, src[e..b], Some(ds[m].style));
            Fits(src, spans, ds, k, Result(r.pieces + [p], Some(src[b..SpanEnd(spans, k, |src|)])), b)
  {
    var p := Piece(e, src[e..b], Some(ds[m].style));
    forall x | p.at <= x < p.at + |p.text| ensures StyleAt(ds, x) == p.cls {
      StyleBetween(ds, x, m);
    }
    assert GoodPiece(src, ds, p);
    CoverPush(r.pieces, p, spans[k].start);
  }

  /** Position `e` is in span `h`, or at the very end of the source. */
  predicate InSpan(spans: seq<Span>, h: nat, e: nat, s: nat) {
    && h < |spans| && spans[h].start <= e && SpanEnd(spans, h, s) <= s
    && (e < SpanEnd(spans, h, s) || (e == spans[h].start && e == s))
  }

  /** The decoration cursor fits position `e`: in front of the end of the text it is at the
      decoration in force, at the end it is behind the last one. */
  predicate InDeco(ds: seq<Deco>, m: nat, e: nat, s: nat) {
    && e <= s && Increasing(ds) && BelowPos(ds, s) && (ds != [] ==> ds[0].pos == 0)
    && (if e < s then CursorAt(ds, m, e) else m >= |ds|)
  }

  function DecoEnd(ds: seq<Deco>, m: nat, s: nat): int {
    if m + 1 < |ds| then ds[m + 1].pos else s
  }

  /** What the two look-ahead expressions of the loop read. */
  lemma {:induction false} LookAhead(spans: seq<Span>, d: seq<int>, h: nat, m: nat, e: nat, s: nat)
    requires |d| % 2 == 0 && GoodSpans(spans, s) && InSpan(spans, h, e, s) && InDeco(Decos(d), m, e, s)
    ensures OrEnd(StartAt(spans, h + 1), s) == SpanEnd(spans, h, s)
    ensures OrEnd(At(d, 2 * m + 2), s) == DecoEnd(Decos(d), m, s)
    ensures e <= DecoEnd(Decos(d), m, s) <= s
    ensures e < s ==> e < DecoEnd(Decos(d), m, s) && At(d, 2 * m + 1) == Some(Decos(d)[m].style)
    ensures e == s ==> SpanEnd(spans, h, s) == s
  {
    var ds := Decos(d);
    if h + 1 < |spans| {
      assert spans[0].start <= spans[h].start < spans[h + 1].start;
    }
    if m + 1 < |ds| {
      assert ds[0].pos < ds[m + 1].pos;
      assert d[2 * (m + 1)] == ds[m + 1].pos;
    }
  }

  /** Where the cursors stand after a turn that went on to `b`. */
  lemma {:induction false} CursorsMove(spans: seq<Span>, ds: seq<Deco>, h: nat, m: nat, e: nat, b: nat, s: nat)
    requires GoodSpans(spans, s) && InSpan(spans, h, e, s) && InDeco(ds, m, e, s)
    requires e <= DecoEnd(ds, m, s) <= s && (e < s ==> e < DecoEnd(ds, m, s))
    requires e == s ==> SpanEnd(spans, h, s) == s
    requires b == if SpanEnd(spans, h, s) < DecoEnd(ds, m, s) then SpanEnd(spans, h, s) else DecoEnd(ds, m, s)
    ensures e <= b <= s && (e < s ==> e < b)
    ensures b < SpanEnd(spans, h, s) ==> e < b && InSpan(spans, h, b, s)
    ensures b >= SpanEnd(spans, h, s) ==> b == SpanEnd(spans, h, s)
    ensures b >= SpanEnd(spans, h, s) && h + 1 < |spans| ==> InSpan(spans, h + 1, b, s) && spans[h + 1].start == b
    ensures InDeco(ds, if b >= DecoEnd(ds, m, s) then m + 1 else m, b, s)
  {
    if h + 1 < |spans| {
      assert spans[h + 1].start <= s;
      if h + 2 < |spans| {
        assert spans[h + 1].start < spans[h + 2].start <= s;
      }
    }
    if m + 1 < |ds| {
      assert ds[m + 1].pos < s;
      if m + 2 < |ds| {
        assert ds[m + 1].pos < ds[m + 2].pos;
      }
    }
  }

  /** What one turn makes of the span it is in. */
  function Turn(src: string, span: Span, r: Result, e: nat, b: int, o: int, cls: Option<int>): Result {
    var j := Substring(src, e, b);
    if span.isText && j != [] then
      Result(r.pieces + [Piece(e, j, cls)], if e < o then Some(Substring(src, b, o)) else r.rest)
    else r
  }

  lemma {:induction false} TurnFits(
    src: string, spans: seq<Span>, ds: seq<Deco>, h: nat, r: Result, e: nat, b: nat, m: nat, cls: Option<int>)
    requires InSpan(spans, h, e, |src|) && InDeco(ds, m, e, |src|) && e <= b <= |src|
    requires Fits(src, spans, ds, h, r, e)
    requires b <= SpanEnd(spans, h, |src|) && b <= DecoEnd(ds, m, |src|)
    requires e < |src| ==> e < b && cls == Some(ds[m].style)
    ensures Fits(src, spans, ds, h, Turn(src, spans[h], r, e, b, SpanEnd(spans, h, |src|), cls), b)
  {
    if spans[h].isText && e < |src| {
      WrapFits(src, spans, ds, h, r, e, b, m);
      assert Substring(src, e, b) == src[e..b];
    } else {
      assert Substring(src, e, b) == [] || !spans[h].isText;
    }
  }

  /** The merge loop.  All source text ends up in pieces, each inside one span and one decoration,
      each with the class in force at its position. */
  method Merge(src: string, spans: seq<Span>, d: seq<int>) returns (out: seq<Result>)
    requires |d| % 2 == 0 && Increasing(Decos(d)) && BelowPos(Decos(d), |src|)
    requires (d != [] ==> d[0] == 0) && (|src| > 0 ==> d != [])
    requires GoodSpans(spans, |src|)
    ensures |out| == |spans|
    ensures forall k :: 0 <= k < |spans| ==>
              SpanEnd(spans, k, |src|) <= |src| && Finished(src, spans, Decos(d), k, out[k])
  {
    ghost var ds := Decos(d);
    ghost var m := 0;
    var s := |src|;
    var e: nat, h: nat, a: nat := 0, 0, 0;
    out := seq(|spans|, _ => Result([], None));
    StartOfMerge(spans, ds, s);
    while h < |spans|
      invariant h <= |spans| && Merging(src, spans, ds, h, m, e, out) && a == 2 * m
      decreases |spans| - h, s - e
    {
      var o, c, b;
      o, c, b, out := MergeTurn(src, spans, d, h, a, e, out, m);
      e := b;
      if e >= o {
        h := h + 1;
      }
      if e >= c {
        a := a + 2;
        m := m + 1;
      }
    }
    assert out[..h] == out;
  }

  /** Between two turns: the spans before `h` are finished, span `h` is done up to `e`, and nothing
      is in the spans behind it. */
  predicate Merging(src: string, spans: seq<Span>, ds: seq<Deco>, h: nat, m: nat, e: nat, out: seq<Result>) {
    && |out| == |spans| && h <= |out| && e <= |src|
    && InDeco(ds, m, e, |src|)
    && (h < |spans| ==> InSpan(spans, h, e, |src|) && Fits(src, spans, ds, h, out[h], e))
    && AllFinished(src, spans, ds, out[..h])
    && (forall k :: h < k < |spans| ==> out[k] == Result([], None))
  }

  /** One turn of the merge loop: it goes on to the nearer of the end of the span and the end of the
      decoration. */
  method MergeTurn(src: string, spans: seq<Span>, d: seq<int>, h: nat, a: nat, e: nat, out: seq<Result>, ghost m: nat)
    returns (o: nat, c: nat, b: nat, more: seq<Result>)
    requires |d| % 2 == 0 && a == 2 * m && h < |spans| && GoodSpans(spans, |src|)
    requires Increasing(Decos(d)) && BelowPos(Decos(d), |src|)
    requires Merging(src, spans, Decos(d), h, m, e, out)
    ensures b == (if o < c then o else c) && o == SpanEnd(spans, h, |src|)
    ensures e <= b && (b < o ==> e < b)
    ensures Merging(src, spans, Decos(d), if b >= o then h + 1 else h, if b >= c then m + 1 else m, b, more)
  {
    ghost var ds := Decos(d);
    var s := |src|;
    LookAhead(spans, d, h, m, e, s);
    o := OrEnd(StartAt(spans, h + 1), s);
    c := OrEnd(At(d, a + 2), s);
    b := if o < c then o else c;
    CursorsMove(spans, ds, h, m, e, b, s);
    TurnFits(src, spans, ds, h, out[h], e, b, m, At(d, a + 1));
    more := out[h := Turn(src, spans[h], out[h], e, b, o, At(d, a + 1))];
    assert more[..h] == out[..h];
    if b >= o {
      AddFinished(src, spans, ds, more, h);
    }
  }

  /** All spans of which `out` holds the results are finished. */
  predicate AllFinished(src: string, spans: seq<Span>, ds: seq<Deco>, out: seq<Result>) {
    && |out| <= |spans|
    && forall k :: 0 <= k < |out| ==>
         SpanEnd(spans, k, |src|) <= |src| && Finished(src, spans, ds, k, out[k])
  }

  lemma {:induction false} AddFinished(src: string, spans: seq<Span>, ds: seq<Deco>, out: seq<Result>, h: nat)
    requires h < |out| == |spans| && AllFinished(src, spans, ds, out[..h])
    requires SpanEnd(spans, h, |src|) <= |src| && Finished(src, spans, ds, h, out[h])
    ensures AllFinished(src, spans, ds, out[..h + 1])
  {
    assert out[..h + 1] == out[..h] + [out[h]];
  }

  lemma {:induction false} StartOfMerge(spans: seq<Span>, ds: seq<Deco>, s: nat)
    requires GoodSpans(spans, s) && Increasing(ds) && BelowPos(ds, s)
    requires (ds != [] ==> ds[0].pos == 0) && (s > 0 ==> ds != [])
    ensures InDeco(ds, 0, 0, s)
    ensures spans != [] ==> InSpan(spans, 0, 0, s)
  {
    if |spans| > 1 {
      assert spans[0].start < spans[1].start <= s;
    }
  }
}
