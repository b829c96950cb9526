/** Prettify reads the source out of the document: it walks the nodes, collects the text and notes
    at which position of the source each text node, and each line break, starts. */
module SourceSpans {

  /** A document node: text, an element (`breaks` for BR and LI, `nocode` for elements marked as not
      being code), or anything else. */
  datatype Node =
    | Text(value: string, id: nat)
    | Element(breaks: bool, nocode: bool, children: seq<Node>, id: nat)
    | Other

  /** What one text node or line break contributes to the source. */
  datatype Chunk = Chunk(text: string, isText: bool, id: nat)

  /** Where a chunk starts in the source, and the node it came from. */
  datatype Span = Span(start: nat, isText: bool, id: nat)

  /** Preformatted text: `\r\n` and `\r` become `\n`. */
  function UnixLines(v: string): (r: string)
    ensures v != [] ==> r != []
  {
    if v == [] then []
    else if v[0] == '\r' then
      "\n" + (if |v| > 1 && v[1] == '\n' then UnixLines(v[2..]) else UnixLines(v[1..]))
    else [v[0]] + UnixLines(v[1..])
  }

  predicate IsSpace(c: char) {
    c == '\t' || c == '\n' || c == '\r' || c == ' '
  }

  /** Other text: every run of white space becomes one space. */
  function Collapse(v: string): (r: string)
    ensures v != [] ==> r != []
  {
    if v == [] then []
    else if IsSpace(v[0]) then
      (if |v| > 1 && IsSpace(v[1]) then Collapse(v[1..]) else " " + Collapse(v[1..]))
    else [v[0]] + Collapse(v[1..])
  }

  function Normalized(v: string, pre: bool): (r: string)
    ensures v != [] ==> r != []
  {
    if pre then UnixLines(v) else Collapse(v)
  }

  function ChunksOf(n: Node, pre: bool): seq<Chunk>
    decreases n, 0
  {
    match n
    case Text(v, id) => if v == [] then [] else [Chunk(Normalized(v, pre), true, id)]
    case Element(breaks, nocode, children, id) =>
      if nocode then []
      else ChunksOfAll(children, pre) + (if breaks then [Chunk("\n", false, id)] else [])
    case Other => []
  }

  function ChunksOfAll(ns: seq<Node>, pre: bool): seq<Chunk>
    decreases ns, 1
  {
    if ns == [] then [] else ChunksOf(ns[0], pre) + ChunksOfAll(ns[1..], pre)
  }

  function Joined(cs: seq<Chunk>): string {
    if cs == [] then [] else cs[0].text + Joined(cs[1..])
  }

  function Layout(cs: seq<Chunk>, base: nat): (r: seq<Span>)
    ensures |r| == |cs|
  {
    if cs == [] then []
    else [Span(base, cs[0].isText, cs[0].id)] + Layout(cs[1..], base + |cs[0].text|)
  }

  predicate NonEmpty(cs: seq<Chunk>) {
    forall k :: 0 <= k < |cs| ==> cs[k].text != []
  }

  /** A final line break is not part of the source. */
  function WithoutFinalBreak(t: string): (r: string)
    ensures r <= t && |t| - 1 <= |r|
  {
    if t != [] && t[|t| - 1] == '\n' then t[..|t| - 1] else t
  }

  lemma {:induction false} JoinedConcat(a: seq<Chunk>, b: seq<Chunk>)
    ensures Joined(a + b) == Joined(a) + Joined(b)
  {
    if a == [] {
      assert a + b == b;
    } else {
      assert (a + b)[1..] == a[1..] + b;
      JoinedConcat(a[1..], b);
    }
  }

  lemma {:induction false} LayoutConcat(a: seq<Chunk>, b: seq<Chunk>, base: nat)
    ensures Layout(a + b, base) == Layout(a, base) + Layout(b, base + |Joined(a)|)
  {
    if a == [] {
      assert a + b == b;
    } else {
      assert (a + b)[1..] == a[1..] + b;
      LayoutConcat(a[1..], b, base + |a[0].text|);
    }
  }

  lemma {:induction false} ChunksNonEmpty(n: Node, pre: bool)
    ensures NonEmpty(ChunksOf(n, pre))
    decreases n, 0
  {
    if n.Element? {
      ChunksAllNonEmpty(n.children, pre);
    }
  }

  lemma {:induction false} ChunksAllNonEmpty(ns: seq<Node>, pre: bool)
    ensures NonEmpty(ChunksOfAll(ns, pre))
    decreases ns, 1
  {
    if ns != [] {
      ChunksNonEmpty(ns[0], pre);
      ChunksAllNonEmpty(ns[1..], pre);
    }
  }

  lemma {:induction false} SliceBehind(a: string, b: string, lo: nat, hi: nat)
    requires lo <= hi <= |b|
    ensures (a + b)[|a| + lo..|a| + hi] == b[lo..hi]
  {
  }

  /** Span `k` of `l` starts at its chunk in `all`, which stands at `base`, and the next one behind it. */
  predicate LaysOut(l: seq<Span>, all: string, c: Chunk, base: nat, k: nat) {
    && k < |l|
    && var at := l[k].start - base;
       && 0 <= at && at + |c.text| <= |all| && all[at..at + |c.text|] == c.text
       && l[k].isText == c.isText && l[k].id == c.id
       && (if k + 1 < |l| then l[k + 1].start == l[k].start + |c.text|
           else base + |all| == l[k].start + |c.text|)
  }

  /** Chunk `k` of the joined text starts where the layout says, and the next one where it ends. */
  lemma {:induction false} LayoutIsText(cs: seq<Chunk>, base: nat, k: nat)
    requires k < |cs|
    ensures LaysOut(Layout(cs, base), Joined(cs), cs[k], base, k)
  {
    if k > 0 {
      var rest, next := cs[1..], base + |cs[0].text|;
      LayoutIsText(rest, next, k - 1);
      assert rest[k - 1] == cs[k];
      LaysOutBehind(Layout(rest, next), Joined(rest), cs[k], next, k - 1, Layout(cs, base), base, cs[0].text);
    } else if |cs| > 1 {
      assert Layout(cs[1..], base + |cs[0].text|)[0].start == base + |cs[0].text|;
    }
  }

  lemma {:induction false} LaysOutBehind(
    l: seq<Span>, all: string, c: Chunk, next: nat, k: nat, more: seq<Span>, base: nat, first: string)
    requires LaysOut(l, all, c, next, k) && next == base + |first|
    requires |more| == |l| + 1 && more[1..] == l
    ensures LaysOut(more, first + all, c, base, k + 1)
  {
    assert more[k + 1] == l[k] && (k + 1 < |l| ==> more[k + 2] == l[k + 1]);
    SliceBehind(first, all, l[k].start - next, l[k].start - next + |c.text|);
  }

  lemma {:induction false} LayoutIncreasing(cs: seq<Chunk>, base: nat, i: nat, j: nat)
    requires NonEmpty(cs) && i < j < |cs|
    ensures Layout(cs, base)[i].start < Layout(cs, base)[j].start
  {
    LayoutIsText(cs, base, j - 1);
    if i < j - 1 {
      LayoutIncreasing(cs, base, i, j - 1);
    }
  }

  /** The closed-over variables of the walk. */
  class Extractor {
    const pre: bool
    var texts: seq<string>
    var length: nat
    var spans: seq<Span>
    ghost var chunks: seq<Chunk>

    ghost predicate Valid()
      reads this
    {
      && spans == Layout(chunks, 0) && length == |Joined(chunks)|
      && |texts| == |chunks| && forall k :: 0 <= k < |texts| ==> texts[k] == chunks[k].text
    }

    constructor (preformatted: bool)
      ensures Valid() && chunks == [] && pre == preformatted
    {
      pre := preformatted;
      texts, length, spans, chunks := [], 0, [], [];
    }

    method Emit(text: string, isText: bool, id: nat)
      requires Valid()
      modifies this
      ensures Valid() && chunks == old(chunks) + [Chunk(text, isText, id)]
    {
      ghost var c := Chunk(text, isText, id);
      JoinedConcat(chunks, [c]);
      LayoutConcat(chunks, [c], 0);
      assert Joined([c]) == text;
      texts := texts + [text];
      spans := spans + [Span(length, isText, id)];
      length := length + |text|;
      chunks := chunks + [c];
    }

    method Walk(n: Node)
      requires Valid()
      modifies this
      ensures Valid() && chunks == old(chunks) + ChunksOf(n, pre)
      decreases n
    {
      match n
      case Element(breaks, nocode, children, id) =>
        if nocode { return; }
        var k := 0;
        while k < |children|
          invariant 0 <= k <= |children| && Valid()
          invariant chunks == old(chunks) + ChunksOfAll(children[..k], pre)
        {
          Walk(children[k]);
          ChunksNext(children, k, pre);
          k := k + 1;
        }
        assert children[..k] == children;
        if breaks {
          Emit("\n", false, id);
        }
      case Text(v, id) =>
        if |v| > 0 {
          Emit(Normalized(v, pre), true, id);
        }
      case Other =>
    }

    method Source() returns (t: string)
      requires Valid()
      ensures t == WithoutFinalBreak(Joined(chunks))
    {
      var all := "";
      var k := 0;
      while k < |texts|
        invariant 0 <= k <= |texts| && all == Joined(chunks[..k])
      {
        assert chunks[..k + 1] == chunks[..k] + [chunks[k]];
        JoinedConcat(chunks[..k], [chunks[k]]);
        assert Joined([chunks[k]]) == texts[k];
        all := all + texts[k];
        k := k + 1;
      }
      assert chunks[..k] == chunks;
      t := WithoutFinalBreak(all);
    }
  }

  lemma {:induction false} ChunksAppend(ns: seq<Node>, n: Node, pre: bool)
    ensures ChunksOfAll(ns + [n], pre) == ChunksOfAll(ns, pre) + ChunksOf(n, pre)
  {
    if ns == [] {
      assert ns + [n] == [n];
    } else {
      assert (ns + [n])[1..] == ns[1..] + [n];
      ChunksAppend(ns[1..], n, pre);
    }
  }

  lemma {:induction false} ChunksNext(ns: seq<Node>, k: nat, pre: bool)
    requires k < |ns|
    ensures ChunksOfAll(ns[..k + 1], pre) == ChunksOfAll(ns[..k], pre) + ChunksOf(ns[k], pre)
  {
    assert ns[..k + 1] == ns[..k] + [ns[k]];
    ChunksAppend(ns[..k], ns[k], pre);
  }

  /** The spans start at 0, strictly increase, and none starts behind the end of the source. */
  predicate GoodSpans(spans: seq<Span>, s: nat) {
    && (spans != [] ==> spans[0].start == 0)
    && (forall i, j :: 0 <= i < j < |spans| ==> spans[i].start < spans[j].start)
    && (forall i :: 0 <= i < |spans| ==> spans[i].start <= s)
  }

  /** Where span `k` ends: at the next span, or at the end `s` of the source. */
  function SpanEnd(spans: seq<Span>, k: nat, s: nat): nat {
    if k + 1 < |spans| then spans[k + 1].start else s
  }

  /** Span `k` of the source is the text of its chunk, the last one without its final line break. */
  predicate SpanIsText(cs: seq<Chunk>, k: nat)
    requires k < |cs|
  {
    var src := WithoutFinalBreak(Joined(cs));
    var lo, hi := Layout(cs, 0)[k].start, SpanEnd(Layout(cs, 0), k, |src|);
    lo <= hi <= |src| && src[lo..hi] == if k + 1 < |cs| then cs[k].text else WithoutFinalBreak(cs[k].text)
  }

  /** What the walk finds fits the source, final line break or not, and a span's part of the source
      is the text of its node; only the last one goes without its final line break. */
  lemma {:induction false} ExtractedSpansFit(n: Node, pre: bool)
    ensures var cs := ChunksOf(n, pre);
            var src := WithoutFinalBreak(Joined(cs));
            var spans := Layout(cs, 0);
            && GoodSpans(spans, |src|)
            && forall k :: 0 <= k < |spans| ==> SpanIsText(cs, k)
  {
    var cs := ChunksOf(n, pre);
    var all := Joined(cs);
    var src := WithoutFinalBreak(all);
    var spans := Layout(cs, 0);
    ChunksNonEmpty(n, pre);
    forall i, j | 0 <= i < j < |spans| ensures spans[i].start < spans[j].start {
      LayoutIncreasing(cs, 0, i, j);
    }
    forall k | 0 <= k < |spans| ensures SpanIsText(cs, k) && spans[k].start <= |src| {
      SpanFits(cs, k);
    }
  }

  /** Dropping the final line break of a text drops that of its last part. */
  lemma {:induction false} LastIsText(all: string, text: string, at: nat)
    requires text != [] && at + |text| == |all| && all[at..] == text
    ensures at <= |WithoutFinalBreak(all)| && WithoutFinalBreak(all)[at..] == WithoutFinalBreak(text)
  {
    assert all[|all| - 1] == all[at..][|text| - 1];
  }

  lemma {:induction false} SpanFits(cs: seq<Chunk>, k: nat)
    requires NonEmpty(cs) && k < |cs|
    ensures SpanIsText(cs, k)
  {
    var all := Joined(cs);
    var src := WithoutFinalBreak(all);
    var spans := Layout(cs, 0);
    LayoutIsText(cs, 0, k);
    var at := spans[k].start;
    if k + 1 < |cs| {
      LayoutIsText(cs, 0, k + 1);
      assert |cs[k + 1].text| > 0;
      assert src[at..at + |cs[k].text|] == all[at..at + |cs[k].text|];
    } else {
      LastIsText(all, cs[k].text, at);
    }
  }
}
