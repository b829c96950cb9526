/** The whole of prettify on one element: read the source out of the document, lex it, compact the
    decorations in place, and wrap the text of the document in pieces of one class each. */
module Prettify {
  import opened Options
  import opened SourceSpans
  import opened Decorations
  import opened Lexer
  import opened Recombine

  function SourceOf(root: Node, pre: bool): string {
    WithoutFinalBreak(Joined(ChunksOf(root, pre)))
  }

  function SpansOf(root: Node, pre: bool): seq<Span> {
    Layout(ChunksOf(root, pre), 0)
  }

  /** The flat decorations that the source gets from the lexer of the language that its marked name
      and its text select. */
  ghost function LexedSource(src: string, reg: Registry, name: int): seq<int>
    requires Grounded(reg)
  {
    Lex(reg, reg.choose(name, src), 0, src)
  }

  method Highlight(root: Node, pre: bool, reg: Registry, name: int) returns (src: string, out: seq<Result>)
    requires Grounded(reg)
    ensures src == SourceOf(root, pre)
    ensures var p := LexedSource(src, reg, name);
            |p| % 2 == 0 && Wrapped(src, SpansOf(root, pre), Decos(p), out)
  {
    var x := new Extractor(pre);
    x.Walk(root);
    src := x.Source();
    assert [] + ChunksOf(root, pre) == ChunksOf(root, pre);
    ExtractedSpansFit(root, pre);
    var lang := reg.choose(name, src);
    var p := Decorate(reg, lang, 0, src);
    LexFits(reg, lang, 0, src);
    out := Apply(src, x.spans, p);
  }

  /** Compact the decorations of the source and merge them with its spans. */
  method Apply(src: string, spans: seq<Span>, p: seq<int>) returns (out: seq<Result>)
    requires Fitting(p, 0, |src|) && GoodSpans(spans, |src|)
    ensures Wrapped(src, spans, Decos(p), out)
  {
    var d := CompactCopy(p, |src|);
    CompactionKeepsStyles(Decos(p), |src|);
    StartsAtZero(d, Decos(p), |src|);
    out := Merge(src, spans, d);
    SameStyles(src, spans, Decos(d), Decos(p), out);
  }

  method CompactCopy(p: seq<int>, s: nat) returns (q: seq<int>)
    requires |p| % 2 == 0
    ensures |q| % 2 == 0 && Decos(q) == Compacted(Decos(p), s)
  {
    var d := new int[|p| + 1](k => if 0 <= k < |p| then p[k] else 0);
    assert d[..|p|] == p;
    var r := Compact(d, |p|, s);
    q := d[..r];
  }

  /** Every span is finished: its text is cut into pieces without gap or overlap, each inside one
      decoration and of the class in force there. */
  predicate Wrapped(src: string, spans: seq<Span>, ds: seq<Deco>, out: seq<Result>) {
    && |out| == |spans|
    && forall k :: 0 <= k < |spans| ==>
         SpanEnd(spans, k, |src|) <= |src| && Finished(src, spans, ds, k, out[k])
  }

  lemma {:induction false} StartsAtZero(d: seq<int>, ds: seq<Deco>, s: nat)
    requires |d| % 2 == 0 && Decos(d) == Compacted(ds, s) && ds != [] && ds[0].pos == 0
    requires NonDecreasing(ds) && AtMost(ds, s)
    ensures (d != [] ==> d[0] == 0) && (s > 0 ==> d != [])
  {
    CompactionKeepsStyles(ds, s);
    if d != [] {
      assert Decos(d)[0] == Deco(d[0], d[1]);
      if s == 0 {
        AllAtZero(ds, 0);
      }
    }
  }

  /** In an empty text compaction drops everything. */
  lemma {:induction false} AllAtZero(ds: seq<Deco>, s: nat)
    requires s == 0 && NonDecreasing(ds) && AtMost(ds, s) && ds != [] && ds[0].pos == 0
    ensures Compacted(ds, s) == []
  {
    VisibleIncreasing(ds, s, |ds|);
    var t := DropHidden(ds, s);
    NothingBelow(t, s);
  }

  lemma {:induction false} NothingBelow(t: seq<Deco>, s: int)
    requires BelowPos(t, s) && (t != [] ==> s <= t[0].pos)
    ensures t == []
  {
  }

  /** Decorations that agree inside the text finish the same spans. */
  lemma {:induction false} SameStyles(src: string, spans: seq<Span>, ds: seq<Deco>, es: seq<Deco>, out: seq<Result>)
    requires Wrapped(src, spans, ds, out)
    requires forall x :: x < |src| ==> StyleAt(ds, x) == StyleAt(es, x)
    ensures Wrapped(src, spans, es, out)
  {
    forall k | 0 <= k < |spans| ensures Finished(src, spans, es, k, out[k]) {
      if spans[k].isText {
        SamePieces(src, ds, es, out[k].pieces);
      }
    }
  }

  lemma {:induction false} SamePieces(src: string, ds: seq<Deco>, es: seq<Deco>, ps: seq<Piece>)
    requires GoodPieces(src, ds, ps)
    requires forall x :: x < |src| ==> StyleAt(ds, x) == StyleAt(es, x)
    ensures GoodPieces(src, es, ps)
  {
    forall k | 0 <= k < |ps| ensures GoodPiece(src, es, ps[k]) {
      assert GoodPiece(src, ds, ps[k]);
    }
  }

  /** No text is lost or changed: the pieces of a text node spell its normalised text, but for the final
      line break of the last node; what is left behind them is empty. */
  lemma {:induction false} TextIsPreserved(root: Node, pre: bool, ds: seq<Deco>, out: seq<Result>, k: nat)
    requires Wrapped(SourceOf(root, pre), SpansOf(root, pre), ds, out)
    requires k < |SpansOf(root, pre)| && SpansOf(root, pre)[k].isText
    ensures k < |ChunksOf(root, pre)| && k < |out|
    ensures k + 1 < |SpansOf(root, pre)| ==> Concat(out[k].pieces) == ChunksOf(root, pre)[k].text
    ensures k + 1 == |SpansOf(root, pre)| ==>
              Concat(out[k].pieces) == WithoutFinalBreak(ChunksOf(root, pre)[k].text)
    ensures out[k].pieces != [] ==> out[k].rest == Some("")
  {
    var src, spans := SourceOf(root, pre), SpansOf(root, pre);
    ExtractedSpansFit(root, pre);
    assert SpanIsText(ChunksOf(root, pre), k);
    FinishedIsSpelled(src, spans, ds, k, out[k]);
  }

  lemma {:induction false} FinishedIsSpelled(src: string, spans: seq<Span>, ds: seq<Deco>, k: nat, r: Result)
    requires k < |spans| && SpanEnd(spans, k, |src|) <= |src| && spans[k].isText && Finished(src, spans, ds, k, r)
    ensures spans[k].start <= SpanEnd(spans, k, |src|)
    ensures Concat(r.pieces) == src[spans[k].start..SpanEnd(spans, k, |src|)]
    ensures r.pieces != [] ==> r.rest == Some("")
  {
    var end := SpanEnd(spans, k, |src|);
    PiecesSpellTheSource(src, ds, r.pieces, spans[k].start, end);
    assert src[end..end] == "";
  }

  /** From the patterns to the page: every character of a text node, in whatever language embedded in
      whatever other, ends up in an element of exactly the class its patterns give it. */
  lemma {:induction false} EveryCharacterGetsItsClass(
    src: string, spans: seq<Span>, out: seq<Result>, reg: Registry, name: int, k: nat, i: nat, x: nat)
    requires Grounded(reg)
    requires var p := LexedSource(src, reg, name); |p| % 2 == 0 && Wrapped(src, spans, Decos(p), out)
    requires k < |out| && spans[k].isText && i < |out[k].pieces|
    requires out[k].pieces[i].at <= x < out[k].pieces[i].at + |out[k].pieces[i].text|
    ensures x < |src|
    ensures out[k].pieces[i].cls == Some(StyleOf(reg, reg.choose(name, src), 0, src, x))
  {
    var p := LexedSource(src, reg, name);
    assert Finished(src, spans, Decos(p), k, out[k]);
    assert GoodPiece(src, Decos(p), out[k].pieces[i]);
    EveryCharacterHasItsStyle(reg, reg.choose(name, src), 0, src, x);
  }

  /** The instance that a reader sees most: a character of a token that embeds nothing gets the class
      the patterns gave to that token, and never the undefined class. */
  lemma {:induction false} CharacterGetsTheClassOfItsToken(
    src: string, spans: seq<Span>, out: seq<Result>, reg: Registry, name: int, k: nat, i: nat, x: nat, n: nat)
    requires Grounded(reg)
    requires var p := LexedSource(src, reg, name); |p| % 2 == 0 && Wrapped(src, spans, Decos(p), out)
    requires k < |out| && spans[k].isText && i < |out[k].pieces|
    requires out[k].pieces[i].at <= x < out[k].pieces[i].at + |out[k].pieces[i].text|
    requires var g := reg.langs(reg.choose(name, src));
             && g.Grammar? && n < |g.tokenize(src)| && !g.classify(g.tokenize(src)[n]).Embedded?
             && var o := |Flat(g.tokenize(src)[..n])|; o <= x < o + |g.tokenize(src)[n]|
    ensures var g := reg.langs(reg.choose(name, src));
            var m := g.classify(g.tokenize(src)[n]);
            out[k].pieces[i].cls == Some(if m.Style? then m.style else SOURCE)
  {
    EveryCharacterGetsItsClass(src, spans, out, reg, name, k, i, x);
    TokenIsThere(reg, reg.choose(name, src), 0, src, x, n);
  }
}
