/** Prettify's lexer.  The regular expressions are not modelled: a tokenisation and a classification
    of tokens are given for every language.  A token is either of one style, or embeds text of
    another language, which the handler of that language decorates; what stands before and after it
    is lexed again. */
module Lexer {
  import opened Options
  import opened Decorations

  /** The styles "pln" and "src". */
  const PLAIN := 0
  const SOURCE := 1

  /** Who decorates a piece of text: the lexer itself, or the handler for the named language. */
  datatype Who = Self | Named(lang: int)

  /** What the patterns say about a token: its style; or the language and text of its first group,
      and the text of its second group (empty if there is none); or a language but no group. */
  datatype Match =
    | Style(style: int)
    | Embedded(lang: int, inner: string, suffix: string)
    | NoGroup

  /** A piece of text and who decorates it. */
  datatype Part = Plain(text: string, style: int) | Handled(text: string, who: Who)

  predicate OccursAt(f: string, c: string, j: int) {
    0 <= j && j + |c| <= |f| && f[j..j + |c|] == c
  }

  /** `indexOf`, searching from `from` on. */
  function IndexOf(f: string, c: string, from: nat): (r: int)
    requires from <= |f|
    ensures r == -1 || (from <= r && OccursAt(f, c, r))
    ensures forall j :: from <= j && OccursAt(f, c, j) ==> 0 <= r <= j
    decreases |f| - from
  {
    if OccursAt(f, c, from) then from
    else if from == |f| then -1
    else IndexOf(f, c, from + 1)
  }

  /** The groups of a match really are parts of the token. */
  predicate Shaped(f: string, m: Match) {
    m.Embedded? ==>
      if m.suffix == [] then exists j :: 0 <= j <= |f| && OccursAt(f, m.inner, j)
      else |m.inner| + |m.suffix| <= |f|
  }

  /** Where the first group is taken to stand: right before the second one, which is taken to end the
      token, or where its text occurs first. */
  function InnerStart(f: string, m: Match): (j: nat)
    requires m.Embedded? && Shaped(f, m)
    ensures j + |m.inner| <= |f|
    ensures m.suffix != [] ==> |f| - j == |m.inner| + |m.suffix|
    ensures m.suffix == [] ==> OccursAt(f, m.inner, j) && forall i :: 0 <= i < j ==> !OccursAt(f, m.inner, i)
  {
    if m.suffix == [] then IndexOf(f, m.inner, 0) else |f| - |m.suffix| - |m.inner|
  }

  function PartsOf(f: string, m: Match): seq<Part>
    requires Shaped(f, m)
  {
    match m
    case Style(s) => [Plain(f, s)]
    case NoGroup => [Plain(f, SOURCE)]
    case Embedded(lang, inner, _) =>
      var j := InnerStart(f, m);
      [Handled(f[..j], Self), Handled(inner, Named(lang)), Handled(f[j + |inner|..], Self)]
  }

  /** The second group, if there is one, ends the token, and the first stands right before it. */
  predicate Adjoins(f: string, m: Match) {
    m.Embedded? && m.suffix != [] ==>
      var groups := m.inner + m.suffix;
      |groups| <= |f| && f[|f| - |groups|..] == groups
  }

  /** With groups that stand as the patterns have them, the parts of a token are cut out where they stand:
      together they are the token again. */
  lemma {:induction false} PartsSpellTheToken(f: string, m: Match)
    requires Shaped(f, m) && Adjoins(f, m)
    ensures !m.Embedded? ==> |PartsOf(f, m)| == 1 && PartsOf(f, m)[0].text == f
    ensures m.Embedded? ==>
              var ps := PartsOf(f, m);
              && |ps| == 3 && ps[0].text + ps[1].text + ps[2].text == f && ps[1].text == m.inner
              && (m.suffix != [] ==> ps[2].text == m.suffix)
  {
    if m.Embedded? {
      var j := InnerStart(f, m);
      if m.suffix != [] {
        SplitAtGroups(f, j, m.inner, m.suffix);
      } else {
        SplitAtGroups(f, j, m.inner, f[j + |m.inner|..]);
      }
    }
  }

  lemma {:induction false} SplitAtGroups(f: string, j: nat, inner: string, behind: string)
    requires j + |inner| + |behind| == |f|
    requires f[j..] == inner + behind || (f[j..j + |inner|] == inner && f[j + |inner|..] == behind)
    ensures f[..j] + inner + f[j + |inner|..] == f && f[j + |inner|..] == behind
  {
    assert f == f[..j] + f[j..] && f[j..] == f[j..j + |inner|] + f[j + |inner|..];
    if f[j..] == inner + behind {
      assert f[j + |inner|..] == f[j..][|inner|..] == behind;
    }
  }

  /** A handler: the flat decorations it gives to `text` starting at `base`. */
  type Handlers = (Who, nat, string) -> seq<int>

  /** Flat decorations that start at `base`, do not decrease, and stay inside the text. */
  predicate Fitting(p: seq<int>, base: int, len: nat) {
    && |p| % 2 == 0 && |p| > 0 && Decos(p)[0].pos == base
    && NonDecreasing(Decos(p)) && AtMost(Decos(p), base + len)
  }

  ghost predicate Lawful(sub: Handlers) {
    forall who: Who, base: nat, text: string :: text != [] ==> Fitting(sub(who, base, text), base, |text|)
  }

  function PartDecos(base: nat, part: Part, sub: Handlers): seq<int> {
    match part
    case Plain(_, style) => [base, style]
    case Handled(text, who) => if text == [] then [] else sub(who, base, text)
  }

  /** The decorations of consecutive parts. */
  function Emit(base: nat, parts: seq<Part>, sub: Handlers): seq<int>
    decreases |parts|
  {
    if parts == [] then []
    else PartDecos(base, parts[0], sub) + Emit(base + |parts[0].text|, parts[1..], sub)
  }

  function Width(parts: seq<Part>): nat {
    if parts == [] then 0 else |parts[0].text| + Width(parts[1..])
  }

  /** All tokens match in a way that their text allows. */
  predicate AllShaped(tokens: seq<string>, classify: string -> Match) {
    forall k :: 0 <= k < |tokens| ==> Shaped(tokens[k], classify(tokens[k]))
  }

  predicate NoneEmpty(tokens: seq<string>) {
    forall k :: 0 <= k < |tokens| ==> tokens[k] != []
  }

  function AllParts(tokens: seq<string>, classify: string -> Match): seq<Part>
    requires AllShaped(tokens, classify)
  {
    if tokens == [] then []
    else PartsOf(tokens[0], classify(tokens[0])) + AllParts(tokens[1..], classify)
  }

  function Flat(tokens: seq<string>): string {
    if tokens == [] then [] else tokens[0] + Flat(tokens[1..])
  }

  /** Plain parts are never empty, since tokens are not. */
  predicate Solid(parts: seq<Part>) {
    forall k :: 0 <= k < |parts| ==> parts[k].Plain? ==> parts[k].text != []
  }

  /** What the lexer gives to a text that starts at `base` and splits into `tokens`. */
  function Lexed(base: nat, tokens: seq<string>, classify: string -> Match, sub: Handlers): seq<int>
    requires AllShaped(tokens, classify)
  {
    [base, PLAIN] + Emit(base, AllParts(tokens, classify), sub)
  }

  // ---------------------------------------------------------------- parts

  lemma {:induction false} EmitHead(base: nat, parts: seq<Part>, head: Part, tail: seq<Part>, sub: Handlers)
    requires parts != [] && parts[0] == head && parts[1..] == tail
    ensures Emit(base, parts, sub) == PartDecos(base, head, sub) + Emit(base + |head.text|, tail, sub)
    ensures Width(parts) == |head.text| + Width(tail)
  {
  }

  lemma {:induction false} Regroup(a: seq<int>, b: seq<int>, c: seq<int>)
    ensures a + (b + c) == a + b + c
  {
  }

  lemma {:induction false} EmitConcat(base: nat, a: seq<Part>, b: seq<Part>, sub: Handlers)
    ensures Emit(base, a + b, sub) == Emit(base, a, sub) + Emit(base + Width(a), b, sub)
    ensures Width(a + b) == Width(a) + Width(b)
    decreases |a|
  {
    if a == [] {
      assert a + b == b;
    } else {
      var ab, head, tail := a + b, a[0], a[1..];
      EmitConcat(base + |head.text|, tail, b, sub);
      EmitHead(base, ab, head, tail + b, sub);
      EmitHead(base, a, head, tail, sub);
      Regroup(PartDecos(base, head, sub), Emit(base + |head.text|, tail, sub), Emit(base + Width(a), b, sub));
    }
  }

  lemma {:induction false} PartsWidth(f: string, m: Match)
    requires Shaped(f, m)
    ensures Width(PartsOf(f, m)) == |f|
    ensures f != [] ==> Solid(PartsOf(f, m))
  {
    var ps := PartsOf(f, m);
    if m.Embedded? {
      assert ps[1..] == [ps[1], ps[2]] && ps[1..][1..] == [ps[2]] && [ps[2]][1..] == [];
      assert Width(ps[1..][1..]) == |ps[2].text|;
    } else {
      assert ps[1..] == [];
    }
  }

  lemma {:induction false} AllPartsWidth(tokens: seq<string>, classify: string -> Match)
    requires AllShaped(tokens, classify) && NoneEmpty(tokens)
    ensures Width(AllParts(tokens, classify)) == |Flat(tokens)|
    ensures Solid(AllParts(tokens, classify))
  {
    if tokens != [] {
      PartsWidth(tokens[0], classify(tokens[0]));
      AllPartsWidth(tokens[1..], classify);
      EmitConcat(0, PartsOf(tokens[0], classify(tokens[0])), AllParts(tokens[1..], classify), (l, b, t) => []);
    }
  }

  lemma {:induction false} AllPartsConcat(a: seq<string>, b: seq<string>, classify: string -> Match)
    requires AllShaped(a, classify) && AllShaped(b, classify)
    ensures AllShaped(a + b, classify)
    ensures AllParts(a + b, classify) == AllParts(a, classify) + AllParts(b, classify)
  {
    if a == [] {
      assert a + b == b;
    } else {
      var ab, head, tail := a + b, a[0], a[1..];
      assert ab[0] == head && ab[1..] == tail + b;
      AllPartsConcat(tail, b, classify);
      RegroupParts(PartsOf(head, classify(head)), AllParts(tail, classify), AllParts(b, classify));
    }
  }

  lemma {:induction false} RegroupParts(a: seq<Part>, b: seq<Part>, c: seq<Part>)
    ensures a + (b + c) == a + b + c
  {
  }

  // ---------------------------------------------------------------- what comes out

  lemma {:induction false} DecosConcat(a: seq<int>, b: seq<int>)
    requires |a| % 2 == 0 && |b| % 2 == 0
    ensures Decos(a + b) == Decos(a) + Decos(b)
  {
    var r := Decos(a) + Decos(b);
    forall k | 0 <= k < |r| ensures Decos(a + b)[k] == r[k] {
      if k >= |a| / 2 {
        assert (a + b)[2 * k] == b[2 * (k - |a| / 2)];
      }
    }
  }

  /** `p` lies in a text of length `len` at `base`, and starts there unless that is empty. */
  predicate Inside(p: seq<int>, base: int, len: nat) {
    && |p| % 2 == 0
    && (len > 0 ==> |p| > 0) && (|p| > 0 ==> Decos(p)[0].pos == base)
    && NonDecreasing(Decos(p)) && AtMost(Decos(p), base + len)
  }

  lemma {:induction false} PartInside(base: nat, part: Part, sub: Handlers)
    requires Lawful(sub) && (part.Plain? ==> part.text != [])
    ensures Inside(PartDecos(base, part, sub), base, |part.text|)
  {
  }

  lemma {:induction false} InsideFirst(p: seq<int>, base: int, len: nat)
    requires Inside(p, base, len)
    ensures forall k :: 0 <= k < |Decos(p)| ==> base <= Decos(p)[k].pos <= base + len
  {
  }

  lemma {:induction false} InsideConcat(p: seq<int>, q: seq<int>, base: int, m: nat, n: nat)
    requires Inside(p, base, m) && Inside(q, base + m, n) && (m == 0 ==> |p| == 0)
    ensures Inside(p + q, base, m + n)
  {
    DecosConcat(p, q);
    InsideFirst(p, base, m);
    InsideFirst(q, base + m, n);
    NonDecreasingConcat(Decos(p), Decos(q), base + m);
  }

  lemma {:induction false} NonDecreasingConcat(a: seq<Deco>, b: seq<Deco>, x: int)
    requires NonDecreasing(a) && NonDecreasing(b)
    requires AtMost(a, x) && forall k :: 0 <= k < |b| ==> x <= b[k].pos
    ensures NonDecreasing(a + b)
  {
  }

  lemma {:induction false} EmitInside(base: nat, parts: seq<Part>, sub: Handlers)
    requires Lawful(sub) && Solid(parts)
    ensures Inside(Emit(base, parts, sub), base, Width(parts))
    ensures Width(parts) == 0 ==> |Emit(base, parts, sub)| == 0
    decreases |parts|
  {
    if parts != [] {
      var first, rest, m := parts[0], parts[1..], |parts[0].text|;
      PartInside(base, first, sub);
      EmitInside(base + m, rest, sub);
      InsideConcat(PartDecos(base, first, sub), Emit(base + m, rest, sub), base, m, Width(rest));
    }
  }

  /** The lexer obeys the contract it expects of the handlers it calls: its output starts at the
      base position, never decreases and stays inside the text. */
  lemma {:induction false} LexedFits(base: nat, tokens: seq<string>, classify: string -> Match, sub: Handlers)
    requires Lawful(sub) && AllShaped(tokens, classify) && NoneEmpty(tokens)
    ensures Fitting(Lexed(base, tokens, classify, sub), base, |Flat(tokens)|)
  {
    var parts := AllParts(tokens, classify);
    var p := Emit(base, parts, sub);
    AllPartsWidth(tokens, classify);
    EmitInside(base, parts, sub);
    InsideFirst(p, base, Width(parts));
    DecosConcat([base, PLAIN], p);
    assert Decos([base, PLAIN]) == [Deco(base, PLAIN)];
    NonDecreasingConcat([Deco(base, PLAIN)], Decos(p), base);
  }

  lemma {:induction false} SolidParts(before: seq<Part>, part: Part, after: seq<Part>)
    requires Solid(before + [part] + after)
    ensures Solid(before) && Solid(after) && (part.Plain? ==> part.text != [])
  {
    var all := before + [part] + after;
    assert forall k :: 0 <= k < |before| ==> before[k] == all[k];
    assert all[|before|] == part;
    assert forall k :: 0 <= k < |after| ==> after[k] == all[|before| + 1 + k];
  }

  lemma {:induction false} EmitMiddle(base: nat, before: seq<Part>, part: Part, after: seq<Part>, sub: Handlers)
    ensures Emit(base, before + [part] + after, sub) ==
            Emit(base, before, sub) + PartDecos(base + Width(before), part, sub)
            + Emit(base + Width(before) + |part.text|, after, sub)
  {
    assert before + [part] + after == before + ([part] + after);
    EmitConcat(base, before, [part] + after, sub);
    assert ([part] + after)[1..] == after;
  }

  /** At `x` the flat array `p` gives the same style as `own`, and gives one. */
  predicate SameStyle(p: seq<int>, own: seq<int>, x: int) {
    && |p| % 2 == 0 && |own| % 2 == 0
    && StyleAt(Decos(p), x).Some? && StyleAt(Decos(p), x) == StyleAt(Decos(own), x)
  }

  /** Inside a part, the style in force is the one its own decorations give. */
  lemma {:induction false} PartKeepsItsStyle(
    base: nat, before: seq<Part>, part: Part, after: seq<Part>, sub: Handlers, x: int)
    requires Lawful(sub) && Solid(before + [part] + after)
    requires base + Width(before) <= x < base + Width(before) + |part.text|
    ensures SameStyle([base, PLAIN] + Emit(base, before + [part] + after, sub),
                      PartDecos(base + Width(before), part, sub), x)
  {
    EmitMiddle(base, before, part, after, sub);
    MiddleKeepsItsStyle(base, before, part, after, sub, x, Emit(base, before + [part] + after, sub));
  }

  lemma {:induction false} MiddleKeepsItsStyle(
    base: nat, before: seq<Part>, part: Part, after: seq<Part>, sub: Handlers, x: int, emitted: seq<int>)
    requires Lawful(sub) && Solid(before + [part] + after)
    requires base + Width(before) <= x < base + Width(before) + |part.text|
    requires emitted == Emit(base, before, sub) + PartDecos(base + Width(before), part, sub)
                        + Emit(base + Width(before) + |part.text|, after, sub)
    ensures SameStyle([base, PLAIN] + emitted, PartDecos(base + Width(before), part, sub), x)
  {
    MiddleFacts(base, before, part, after, sub, x);
    SameStyleInMiddle([base, PLAIN], emitted, Emit(base, before, sub), PartDecos(base + Width(before), part, sub),
                      Emit(base + Width(before) + |part.text|, after, sub), x);
  }

  lemma {:induction false} SameStyleInMiddle(
    h: seq<int>, p: seq<int>, a: seq<int>, own: seq<int>, c: seq<int>, x: int)
    requires |h| % 2 == 0 && |a| % 2 == 0 && |own| % 2 == 0 && |c| % 2 == 0
    requires p == a + own + c
    requires |own| > 0 && Decos(own)[0].pos <= x
    requires forall k :: 0 <= k < |Decos(c)| ==> x < Decos(c)[k].pos
    ensures SameStyle(h + p, own, x)
  {
    AssociateFour(h, a, own, c);
    StyleInMiddle(h + a, own, c, x);
  }

  lemma {:induction false} AssociateFour(h: seq<int>, a: seq<int>, b: seq<int>, c: seq<int>)
    ensures h + (a + b + c) == (h + a) + b + c
  {
  }

  lemma {:induction false} MiddleFacts(
    base: nat, before: seq<Part>, part: Part, after: seq<Part>, sub: Handlers, x: int)
    requires Lawful(sub) && Solid(before + [part] + after)
    requires base + Width(before) <= x < base + Width(before) + |part.text|
    ensures var own := PartDecos(base + Width(before), part, sub);
            var c := Emit(base + Width(before) + |part.text|, after, sub);
            && |Emit(base, before, sub)| % 2 == 0
            && |own| % 2 == 0 && |own| > 0 && Decos(own)[0].pos <= x
            && |c| % 2 == 0 && forall k :: 0 <= k < |Decos(c)| ==> x < Decos(c)[k].pos
  {
    SolidParts(before, part, after);
    EmitBounds(base, before, sub);
    PartBounds(base + Width(before), part, sub);
    EmitBounds(base + Width(before) + |part.text|, after, sub);
  }

  lemma {:induction false} EmitBounds(base: nat, parts: seq<Part>, sub: Handlers)
    requires Lawful(sub) && Solid(parts)
    ensures |Emit(base, parts, sub)| % 2 == 0
    ensures forall k :: 0 <= k < |Decos(Emit(base, parts, sub))| ==> base <= Decos(Emit(base, parts, sub))[k].pos
  {
    EmitInside(base, parts, sub);
    InsideFirst(Emit(base, parts, sub), base, Width(parts));
  }

  lemma {:induction false} PartBounds(base: nat, part: Part, sub: Handlers)
    requires Lawful(sub) && part.text != []
    ensures var own := PartDecos(base, part, sub);
            |own| % 2 == 0 && |own| > 0 && Decos(own)[0].pos == base
  {
    PartInside(base, part, sub);
  }

  lemma {:induction false} StyleInMiddle(a: seq<int>, own: seq<int>, c: seq<int>, x: int)
    requires |a| % 2 == 0 && |own| % 2 == 0 && |c| % 2 == 0
    requires |own| > 0 && Decos(own)[0].pos <= x
    requires forall k :: 0 <= k < |Decos(c)| ==> x < Decos(c)[k].pos
    ensures StyleAt(Decos(a + own + c), x).Some? && StyleAt(Decos(a + own + c), x) == StyleAt(Decos(own), x)
  {
    DecosConcat(a, own);
    DecosConcat(a + own, c);
    StyleConcat(Decos(a) + Decos(own), Decos(c), x);
    StyleConcat(Decos(a), Decos(own), x);
    StyleNone(Decos(c), x);
    StyleSome(Decos(own), x, 0);
  }

  /** A token that embeds nothing is in its own style from its first character to its last. */
  lemma {:induction false} TokenHasItsStyle(
    base: nat, tokens: seq<string>, n: nat, classify: string -> Match, sub: Handlers, x: int)
    requires Lawful(sub) && AllShaped(tokens, classify) && NoneEmpty(tokens)
    requires n < |tokens| && !classify(tokens[n]).Embedded?
    requires base + |Flat(tokens[..n])| <= x < base + |Flat(tokens[..n])| + |tokens[n]|
    ensures var p := Lexed(base, tokens, classify, sub);
            && |p| % 2 == 0
            && StyleAt(Decos(p), x)
               == Some(if classify(tokens[n]).Style? then classify(tokens[n]).style else SOURCE)
  {
    var f := tokens[n];
    var part := PartsOf(f, classify(f))[0];
    var ahead, behind := tokens[..n], tokens[n + 1..];
    var before, after := AllParts(ahead, classify), AllParts(behind, classify);
    SplitAtToken(tokens, n, classify);
    AllPartsWidth(ahead, classify);
    AllPartsWidth(tokens, classify);
    PartKeepsItsStyle(base, before, part, after, sub, x);
    OneStyle(base + Width(before), part.style, x);
  }

  lemma {:induction false} OneStyle(at: nat, style: int, x: int)
    requires at <= x
    ensures StyleAt(Decos([at, style]), x) == Some(style)
  {
    StylePush([], Deco(at, style), x);
    assert [] + [Deco(at, style)] == Decos([at, style]);
  }

  lemma {:induction false} SplitAtToken(tokens: seq<string>, n: nat, classify: string -> Match)
    requires AllShaped(tokens, classify) && n < |tokens|
    ensures AllShaped(tokens[..n], classify) && AllShaped(tokens[n + 1..], classify)
    ensures AllParts(tokens, classify) ==
            AllParts(tokens[..n], classify) + PartsOf(tokens[n], classify(tokens[n]))
            + AllParts(tokens[n + 1..], classify)
  {
    var rest := tokens[n..];
    assert rest[1..] == tokens[n + 1..];
    assert tokens == tokens[..n] + rest;
    AllPartsConcat(tokens[..n], rest, classify);
  }

  // ---------------------------------------------------------------- the lexers of all languages

  /** How a language is decorated: by a lexer with these patterns, or by some other function. */
  datatype Language =
    | Grammar(tokenize: string -> seq<string>, classify: string -> Match)
    | Other(decorate: (nat, string) -> seq<int>)

  /** The registered languages; `choose` picks one for a name and a text, the default ones included;
      `rank` orders the languages that hand a whole text on to each other. */
  datatype Registry = Registry(langs: int -> Language, choose: (int, string) -> int, rank: int -> nat)

  /** What is lexed again is shorter than the token. */
  predicate Shrinks(f: string, m: Match) {
    m.Embedded? ==> m.inner != [] || (m.suffix != [] && |m.suffix| < |f|)
  }

  /** What is lexed again is shorter than the token exactly when the first group is not empty, or the
      second is not empty and not the whole token.  Otherwise the lexer gets the token back. */
  lemma {:induction false} RecursionIsOnShorterText(f: string, m: Match)
    requires m.Embedded? && Shaped(f, m)
    ensures var parts := PartsOf(f, m);
            && |parts| == 3
            && (|parts[0].text| < |f| && |parts[2].text| < |f| <==> Shrinks(f, m))
            && (!Shrinks(f, m) ==> Handled(f, Self) in parts)
  {
    if m.inner == [] && m.suffix == [] {
      assert OccursAt(f, m.inner, 0);
    }
    if !Shrinks(f, m) {
      assert PartsOf(f, m)[2].text == f;
    }
  }

  /** The language that decorates what `who` stands for inside a text of language `lang`. */
  function Pick(reg: Registry, lang: int, who: Who, text: string): int {
    match who
    case Self => lang
    case Named(name) => reg.choose(name, text)
  }

  /** A lexer of `lang` at work on `text` may call the lexer of `l` on `t`. */
  predicate Smaller(reg: Registry, l: int, t: string, lang: int, text: string) {
    |t| < |text| || (|t| == |text| && reg.rank(l) < reg.rank(lang))
  }

  /** A token of `text` does not bring the lexer back to the same text: it is shorter, or what is
      lexed again is; and the embedded text is shorter, or its language comes lower. */
  predicate Descends(reg: Registry, lang: int, text: string, f: string, m: Match) {
    m.Embedded? ==>
      && (|f| < |text| || Shrinks(f, m))
      && (|m.inner| < |text| || reg.rank(reg.choose(m.lang, m.inner)) < reg.rank(lang))
  }

  /** On this text the language splits into non-empty tokens that its patterns can match and that
      descend; a function that is no lexer gives fitting decorations. */
  ghost predicate Sound(reg: Registry, lang: int, text: string) {
    match reg.langs(lang)
    case Other(decorate) => forall base: nat :: Fitting(decorate(base, text), base, |text|)
    case Grammar(tokenize, classify) =>
      var tokens := tokenize(text);
      && Flat(tokens) == text && NoneEmpty(tokens) && AllShaped(tokens, classify)
      && forall n :: 0 <= n < |tokens| ==> Descends(reg, lang, text, tokens[n], classify(tokens[n]))
  }

  ghost predicate Grounded(reg: Registry) {
    forall lang, text :: Sound(reg, lang, text)
  }

  lemma {:induction false} TokenFits(tokens: seq<string>, n: nat)
    requires n < |tokens|
    ensures |tokens[n]| <= |Flat(tokens)|
  {
    if n > 0 {
      assert tokens[1..][n - 1] == tokens[n];
      TokenFits(tokens[1..], n - 1);
    }
  }

  /** Every part of a token goes to a lexer that is smaller than the one at work. */
  lemma {:induction false} PartsDescend(reg: Registry, lang: int, text: string, f: string, m: Match, k: nat)
    requires Shaped(f, m) && f != [] && |f| <= |text| && Descends(reg, lang, text, f, m)
    requires k < |PartsOf(f, m)| && PartsOf(f, m)[k].Handled?
    ensures var part := PartsOf(f, m)[k];
            Smaller(reg, Pick(reg, lang, part.who, part.text), part.text, lang, text)
  {
    RecursionIsOnShorterText(f, m);
  }

  /** What a language gives to a text at `base`: its lexer calls the lexers of the parts. */
  ghost function Lex(reg: Registry, lang: int, base: nat, text: string): seq<int>
    requires Grounded(reg)
    decreases |text|, reg.rank(lang), 1
  {
    assert Sound(reg, lang, text);
    match reg.langs(lang)
    case Other(decorate) => decorate(base, text)
    case Grammar(tokenize, classify) => Lexed(base, tokenize(text), classify, Below(reg, lang, text))
  }

  /** The handlers of the parts of a text; the second branch is for texts that are no part of it. */
  ghost function Below(reg: Registry, lang: int, text: string): Handlers
    requires Grounded(reg)
    decreases |text|, reg.rank(lang), 0
  {
    (who: Who, b: nat, t: string) =>
      if Smaller(reg, Pick(reg, lang, who, t), t, lang, text) then Lex(reg, Pick(reg, lang, who, t), b, t)
      else [b, PLAIN]
  }

  /** Every language as a handler. */
  ghost function Everyone(reg: Registry, lang: int): Handlers
    requires Grounded(reg)
  {
    (who: Who, b: nat, t: string) => Lex(reg, Pick(reg, lang, who, t), b, t)
  }

  /** Handlers that agree on the parts give the same decorations. */
  lemma {:induction false} EmitAgrees(base: nat, parts: seq<Part>, s: Handlers, t: Handlers)
    requires forall k, b: nat :: 0 <= k < |parts| && parts[k].Handled? ==>
               s(parts[k].who, b, parts[k].text) == t(parts[k].who, b, parts[k].text)
    ensures Emit(base, parts, s) == Emit(base, parts, t)
    decreases |parts|
  {
    if parts != [] {
      EmitAgrees(base + |parts[0].text|, parts[1..], s, t);
    }
  }

  /** Every part of a text is a part of one of its tokens. */
  lemma {:induction false} PartOfToken(tokens: seq<string>, classify: string -> Match, k: nat) returns (n: nat, i: nat)
    requires AllShaped(tokens, classify) && k < |AllParts(tokens, classify)|
    ensures n < |tokens| && i < |PartsOf(tokens[n], classify(tokens[n]))|
    ensures PartsOf(tokens[n], classify(tokens[n]))[i] == AllParts(tokens, classify)[k]
  {
    var first := PartsOf(tokens[0], classify(tokens[0]));
    if k < |first| {
      n, i := 0, k;
    } else {
      n, i := PartOfToken(tokens[1..], classify, k - |first|);
      n := n + 1;
    }
  }

  /** The lexer of a language calls itself on what surrounds embedded text, and the lexer of the
      chosen language on the embedded text, whatever these texts are. */
  lemma {:induction false} LexCallsItself(reg: Registry, lang: int, base: nat, text: string)
    requires Grounded(reg) && reg.langs(lang).Grammar?
    ensures var g := reg.langs(lang);
            && AllShaped(g.tokenize(text), g.classify)
            && Lex(reg, lang, base, text) == Lexed(base, g.tokenize(text), g.classify, Everyone(reg, lang))
  {
    var g := reg.langs(lang);
    var tokens := g.tokenize(text);
    assert Sound(reg, lang, text);
    var parts := AllParts(tokens, g.classify);
    forall k, b: nat | 0 <= k < |parts| && parts[k].Handled?
      ensures Below(reg, lang, text)(parts[k].who, b, parts[k].text)
              == Everyone(reg, lang)(parts[k].who, b, parts[k].text)
    {
      var n, i := PartOfToken(tokens, g.classify, k);
      TokenFits(tokens, n);
      PartsDescend(reg, lang, text, tokens[n], g.classify(tokens[n]), i);
    }
    EmitAgrees(base, parts, Below(reg, lang, text), Everyone(reg, lang));
  }

  /** Every lexer keeps the contract of a handler, whatever languages are embedded in each other. */
  lemma {:induction false} LexFits(reg: Registry, lang: int, base: nat, text: string)
    requires Grounded(reg)
    ensures Fitting(Lex(reg, lang, base, text), base, |text|)
    decreases |text|, reg.rank(lang), 1
  {
    assert Sound(reg, lang, text);
    var g := reg.langs(lang);
    if g.Grammar? {
      BelowIsLawful(reg, lang, text);
      LexedFits(base, g.tokenize(text), g.classify, Below(reg, lang, text));
    }
  }

  lemma {:induction false} BelowIsLawful(reg: Registry, lang: int, text: string)
    requires Grounded(reg)
    ensures Lawful(Below(reg, lang, text))
    decreases |text|, reg.rank(lang), 0
  {
    forall who: Who, b: nat, t: string | t != []
      ensures Fitting(Below(reg, lang, text)(who, b, t), b, |t|)
    {
      var l := Pick(reg, lang, who, t);
      if Smaller(reg, l, t, lang, text) {
        LexFits(reg, l, b, t);
      }
    }
  }

  /** A lexer is sent back to the very text it is at work on, and so never ends, exactly when that
      text is one token whose remainders do not shrink. */
  lemma {:induction false} LexesTheSameTextAgain(g: Language, text: string)
    requires g.Grammar? && text != []
    requires Flat(g.tokenize(text)) == text && NoneEmpty(g.tokenize(text)) && AllShaped(g.tokenize(text), g.classify)
    ensures Handled(text, Self) in AllParts(g.tokenize(text), g.classify)
            <==> g.tokenize(text) == [text] && !Shrinks(text, g.classify(text))
  {
    var tokens := g.tokenize(text);
    var parts := AllParts(tokens, g.classify);
    if Handled(text, Self) in parts {
      var k :| 0 <= k < |parts| && parts[k] == Handled(text, Self);
      var n, i := PartOfToken(tokens, g.classify, k);
      TokenFits(tokens, n);
      var f, m := tokens[n], g.classify(tokens[n]);
      RecursionIsOnShorterText(f, m);
      assert |f| == |text|;
      OnlyToken(tokens, n);
    }
    if tokens == [text] && !Shrinks(text, g.classify(text)) {
      RecursionIsOnShorterText(text, g.classify(text));
      assert tokens[1..] == [];
      assert parts == PartsOf(text, g.classify(text));
    }
  }

  lemma {:induction false} ShorterThanAll(tokens: seq<string>, n: nat)
    requires NoneEmpty(tokens) && n < |tokens| && |tokens| > 1
    ensures |tokens[n]| < |Flat(tokens)|
  {
    var rest := tokens[1..];
    assert tokens[0] != [] && rest[0] == tokens[1] && rest[0] != [];
    TokenFits(rest, if n > 0 then n - 1 else 0);
  }

  /** A token as long as the whole text is the only one. */
  lemma {:induction false} OnlyToken(tokens: seq<string>, n: nat)
    requires NoneEmpty(tokens) && n < |tokens| && |tokens[n]| == |Flat(tokens)|
    ensures tokens == [Flat(tokens)]
  {
    if |tokens| > 1 {
      ShorterThanAll(tokens, n);
    } else {
      assert tokens[1..] == [] && Flat(tokens[1..]) == [] && Flat(tokens) == tokens[0];
    }
  }

  // ---------------------------------------------------------------- the style of every character

  /** The token in which character `x` stands. */
  function TokenAt(tokens: seq<string>, x: nat): (n: nat)
    requires x < |Flat(tokens)|
    ensures n < |tokens| && |Flat(tokens[..n])| <= x < |Flat(tokens[..n])| + |tokens[n]|
  {
    if x < |tokens[0]| then 0
    else
      var n := TokenAt(tokens[1..], x - |tokens[0]|);
      assert tokens[..n + 1][1..] == tokens[1..][..n];
      n + 1
  }

  /** The style of character `x` of a text, read off the patterns: that of its token, or that of its
      place in the embedded text or in what stands before or behind it. */
  ghost function StyleOf(reg: Registry, lang: int, base: nat, text: string, x: nat): int
    requires Grounded(reg) && x < |text|
    decreases |text|, reg.rank(lang)
  {
    assert Sound(reg, lang, text);
    match reg.langs(lang)
    case Other(decorate) =>
      assert Fitting(decorate(base, text), base, |text|);
      StyleSome(Decos(decorate(base, text)), base + x, 0);
      StyleAt(Decos(decorate(base, text)), base + x).value
    case Grammar(tokenize, classify) =>
      var tokens := tokenize(text);
      var n := TokenAt(tokens, x);
      TokenFits(tokens, n);
      var f, o := tokens[n], |Flat(tokens[..n])|;
      match classify(f)
      case Style(s) => s
      case NoGroup => SOURCE
      case Embedded(name, inner, suffix) =>
        RecursionIsOnShorterText(f, classify(f));
        var j := InnerStart(f, classify(f));
        var k := j + |inner|;
        if x - o < j then StyleOf(reg, lang, base + o, f[..j], x - o)
        else if x - o < k then StyleOf(reg, reg.choose(name, inner), base + o + j, inner, x - o - j)
        else StyleOf(reg, lang, base + o + k, f[k..], x - o - k)
  }

  /** Where part `i` of an embedding token starts. */
  function PartStart(f: string, m: Match, i: nat): (y: nat)
    requires m.Embedded? && Shaped(f, m) && i < 3
    ensures y + |PartsOf(f, m)[i].text| <= |f|
  {
    if i == 0 then 0 else if i == 1 then InnerStart(f, m) else InnerStart(f, m) + |m.inner|
  }

  /** The part in which character `y` of an embedding token stands. */
  function PartAt(f: string, m: Match, y: nat): (i: nat)
    requires m.Embedded? && Shaped(f, m) && y < |f|
    ensures i < 3 && PartStart(f, m, i) <= y < PartStart(f, m, i) + |PartsOf(f, m)[i].text|
  {
    if y < PartStart(f, m, 1) then 0 else if y < PartStart(f, m, 2) then 1 else 2
  }

  lemma {:induction false} PartStartIsWidth(f: string, m: Match, i: nat)
    requires m.Embedded? && Shaped(f, m) && i < 3
    ensures Width(PartsOf(f, m)[..i]) == PartStart(f, m, i)
  {
    var ps := PartsOf(f, m);
    if i == 1 {
      WidthOfOne(ps[0]);
      assert ps[..1] == [ps[0]];
    } else if i == 2 {
      WidthOfOne(ps[1]);
      assert ps[..2][1..] == [ps[1]];
    }
  }

  lemma {:induction false} WidthOfOne(part: Part)
    ensures Width([part]) == |part.text|
  {
    assert [part][1..] == [];
  }

  /** The parts of a text, split at part `i` of token `n`. */
  lemma {:induction false} SplitAtPart(tokens: seq<string>, n: nat, classify: string -> Match, i: nat)
    returns (lead: seq<Part>, trail: seq<Part>)
    requires AllShaped(tokens, classify) && NoneEmpty(tokens)
    requires n < |tokens| && classify(tokens[n]).Embedded? && i < 3
    ensures AllParts(tokens, classify) == lead + [PartsOf(tokens[n], classify(tokens[n]))[i]] + trail
    ensures Width(lead) == |Flat(tokens[..n])| + PartStart(tokens[n], classify(tokens[n]), i)
  {
    var ps := PartsOf(tokens[n], classify(tokens[n]));
    var before, after := AllParts(tokens[..n], classify), AllParts(tokens[n + 1..], classify);
    SplitAtToken(tokens, n, classify);
    AllPartsWidth(tokens[..n], classify);
    EmitConcat(0, before, ps[..i], (w, b, t) => []);
    PartStartIsWidth(tokens[n], classify(tokens[n]), i);
    lead, trail := before + ps[..i], ps[i + 1..] + after;
    SplitMiddle(before, ps, after, i);
  }

  lemma {:induction false} SplitMiddle(before: seq<Part>, ps: seq<Part>, after: seq<Part>, i: nat)
    requires i < |ps|
    ensures before + ps + after == (before + ps[..i]) + [ps[i]] + (ps[i + 1..] + after)
  {
  }

  /** Inside a part of a token, the style in force is the one the part's own decorations give. */
  lemma {:induction false} PartOfTokenKeepsItsStyle(
    base: nat, tokens: seq<string>, n: nat, classify: string -> Match, sub: Handlers, i: nat, x: int,
    part: Part, at: nat, p: seq<int>, own: seq<int>)
    requires Lawful(sub) && AllShaped(tokens, classify) && NoneEmpty(tokens)
    requires n < |tokens| && classify(tokens[n]).Embedded? && i < 3
    requires part == PartsOf(tokens[n], classify(tokens[n]))[i]
    requires at == base + |Flat(tokens[..n])| + PartStart(tokens[n], classify(tokens[n]), i)
    requires at <= x < at + |part.text|
    requires p == Lexed(base, tokens, classify, sub) && own == PartDecos(at, part, sub)
    ensures SameStyle(p, own, x)
  {
    var lead, trail := SplitAtPart(tokens, n, classify, i);
    AllPartsWidth(tokens, classify);
    PartKeepsItsStyle(base, lead, part, trail, sub, x);
  }

  lemma {:induction false} LexIsLexed(reg: Registry, lang: int, base: nat, text: string)
    requires Grounded(reg) && reg.langs(lang).Grammar? && Sound(reg, lang, text)
    ensures var g := reg.langs(lang);
            Lex(reg, lang, base, text) == Lexed(base, g.tokenize(text), g.classify, Below(reg, lang, text))
  {
  }

  lemma {:induction false} PartIsLexed(reg: Registry, lang: int, text: string, at: nat, part: Part)
    requires Grounded(reg) && part.Handled? && part.text != []
    requires Smaller(reg, Pick(reg, lang, part.who, part.text), part.text, lang, text)
    ensures PartDecos(at, part, Below(reg, lang, text))
            == Lex(reg, Pick(reg, lang, part.who, part.text), at, part.text)
  {
  }

  /** The flat array `p` gives this style at `x`. */
  predicate Shows(p: seq<int>, x: int, style: int) {
    |p| % 2 == 0 && StyleAt(Decos(p), x) == Some(style)
  }

  lemma {:induction false} StyleShown(p: seq<int>, own: seq<int>, x: int, style: int)
    requires SameStyle(p, own, x) && Shows(own, x, style)
    ensures Shows(p, x, style)
  {
  }

  /** From the patterns to the flat array: every character of a text, at any depth of embedding, is in
      the style that the patterns give it. */
  lemma {:induction false} EveryCharacterHasItsStyle(reg: Registry, lang: int, base: nat, text: string, x: nat)
    requires Grounded(reg) && x < |text|
    ensures Shows(Lex(reg, lang, base, text), base + x, StyleOf(reg, lang, base, text, x))
  {
    StyleInLex(reg, lang, base, text, x, base + x, Lex(reg, lang, base, text), StyleOf(reg, lang, base, text, x));
  }

  lemma {:induction false} StyleInLex(
    reg: Registry, lang: int, base: nat, text: string, x: nat, y: int, p: seq<int>, style: int)
    requires Grounded(reg) && x < |text| && y == base + x
    requires p == Lex(reg, lang, base, text) && style == StyleOf(reg, lang, base, text, x)
    ensures Shows(p, y, style)
    decreases |text|, reg.rank(lang)
  {
    assert Sound(reg, lang, text);
    var g := reg.langs(lang);
    if g.Other? {
      StyleInOther(reg, lang, base, text, x, p, style);
    } else {
      var n := TokenAt(g.tokenize(text), x);
      if g.classify(g.tokenize(text)[n]).Embedded? {
        var i, at, part, l := PlaceOf(reg, lang, text, x);
        var own := Lex(reg, l, base + at, part.text);
        StyleOfPart(reg, lang, base, text, x, n, i, at, part, style);
        StyleInLex(reg, l, base + at, part.text, x - at, y, own, style);
        LexKeepsPart(reg, lang, base, text, x, n, i, at, part, p, own);
        StyleShown(p, own, y, style);
      } else {
        StyleInToken(reg, lang, base, text, x, n, p, style);
      }
    }
  }

  lemma {:induction false} StyleInOther(
    reg: Registry, lang: int, base: nat, text: string, x: nat, p: seq<int>, style: int)
    requires Grounded(reg) && Sound(reg, lang, text) && x < |text| && reg.langs(lang).Other?
    requires p == Lex(reg, lang, base, text) && style == StyleOf(reg, lang, base, text, x)
    ensures Shows(p, base + x, style)
  {
    assert Fitting(p, base, |text|);
    StyleSome(Decos(p), base + x, 0);
  }

  lemma {:induction false} StyleInToken(
    reg: Registry, lang: int, base: nat, text: string, x: nat, n: nat, p: seq<int>, style: int)
    requires Grounded(reg) && Sound(reg, lang, text) && x < |text| && reg.langs(lang).Grammar?
    requires n == TokenAt(reg.langs(lang).tokenize(text), x)
    requires !reg.langs(lang).classify(reg.langs(lang).tokenize(text)[n]).Embedded?
    requires p == Lex(reg, lang, base, text) && style == StyleOf(reg, lang, base, text, x)
    ensures Shows(p, base + x, style)
  {
    var g := reg.langs(lang);
    LexIsLexed(reg, lang, base, text);
    BelowIsLawful(reg, lang, text);
    TokenHasItsStyle(base, g.tokenize(text), n, g.classify, Below(reg, lang, text), base + x);
  }

  /** Where a character of an embedding token stands: in which part, from where on, and which language
      decorates it. */
  ghost predicate InPart(reg: Registry, lang: int, text: string, x: nat, n: nat, i: nat, at: nat, part: Part)
    requires Grounded(reg) && Sound(reg, lang, text) && x < |text| && reg.langs(lang).Grammar?
  {
    var g := reg.langs(lang);
    var tokens := g.tokenize(text);
    && n == TokenAt(tokens, x) && g.classify(tokens[n]).Embedded?
    && var f, m := tokens[n], g.classify(tokens[n]);
       && i < 3 && part == PartsOf(f, m)[i] && at == |Flat(tokens[..n])| + PartStart(f, m, i)
       && i == PartAt(f, m, x - |Flat(tokens[..n])|) && at <= x < at + |part.text|
  }

  /** What a lexer does to a part of an embedding token: in it, the style is the one that the lexer
      called for the part gives. */
  lemma {:induction false} LexKeepsPart(
    reg: Registry, lang: int, base: nat, text: string, x: nat, n: nat, i: nat, at: nat, part: Part,
    p: seq<int>, own: seq<int>)
    requires Grounded(reg) && Sound(reg, lang, text) && x < |text| && reg.langs(lang).Grammar?
    requires InPart(reg, lang, text, x, n, i, at, part) && part.Handled?
    requires p == Lex(reg, lang, base, text)
    requires own == Lex(reg, Pick(reg, lang, part.who, part.text), base + at, part.text)
    ensures SameStyle(p, own, base + x)
  {
    var g := reg.langs(lang);
    var tokens := g.tokenize(text);
    TokenFits(tokens, n);
    PartsDescend(reg, lang, text, tokens[n], g.classify(tokens[n]), i);
    LexIsLexed(reg, lang, base, text);
    PartIsLexed(reg, lang, text, base + at, part);
    BelowIsLawful(reg, lang, text);
    PartOfTokenKeepsItsStyle(
      base, tokens, n, g.classify, Below(reg, lang, text), i, base + x, part, base + at, p, own);
  }

  lemma {:induction false} PlaceOf(reg: Registry, lang: int, text: string, x: nat)
    returns (i: nat, at: nat, part: Part, l: int)
    requires Grounded(reg) && Sound(reg, lang, text) && x < |text| && reg.langs(lang).Grammar?
    requires var g := reg.langs(lang); g.classify(g.tokenize(text)[TokenAt(g.tokenize(text), x)]).Embedded?
    ensures InPart(reg, lang, text, x, TokenAt(reg.langs(lang).tokenize(text), x), i, at, part)
    ensures part.Handled? && l == Pick(reg, lang, part.who, part.text) && Smaller(reg, l, part.text, lang, text)
  {
    var g := reg.langs(lang);
    var tokens := g.tokenize(text);
    var n := TokenAt(tokens, x);
    var f, m, o := tokens[n], g.classify(tokens[n]), |Flat(tokens[..n])|;
    i := PartAt(f, m, x - o);
    part, at := PartsOf(f, m)[i], o + PartStart(f, m, i);
    l := Pick(reg, lang, part.who, part.text);
    TokenFits(tokens, n);
    PartsDescend(reg, lang, text, f, m, i);
  }

  lemma {:induction false} StyleOfPart(
    reg: Registry, lang: int, base: nat, text: string, x: nat, n: nat, i: nat, at: nat, part: Part, style: int)
    requires Grounded(reg) && Sound(reg, lang, text) && x < |text| && reg.langs(lang).Grammar?
    requires InPart(reg, lang, text, x, n, i, at, part) && part.Handled?
    requires style == StyleOf(reg, lang, base, text, x)
    ensures style == StyleOf(reg, Pick(reg, lang, part.who, part.text), base + at, part.text, x - at)
  {
    var g := reg.langs(lang);
    var f, m, o := g.tokenize(text)[n], g.classify(g.tokenize(text)[n]), |Flat(g.tokenize(text)[..n])|;
    if i == 0 {
      assert base + at == base + o && x - at == x - o;
    } else if i == 1 {
      assert base + at == base + o + InnerStart(f, m) && x - at == x - o - InnerStart(f, m);
    } else {
      var k := InnerStart(f, m) + |m.inner|;
      assert base + at == base + o + k && x - at == x - o - k;
    }
  }

  /** The style of character `y` of an embedding token whose embedded text starts at `at`. */
  ghost function StyleInParts(
    reg: Registry, lang: int, base: nat, f: string, m: Match, at: nat, y: nat): int
    requires Grounded(reg) && m.Embedded? && at + |m.inner| <= |f| && y < |f|
  {
    var k := at + |m.inner|;
    if y < at then StyleOf(reg, lang, base, f[..at], y)
    else if y < k then StyleOf(reg, reg.choose(m.lang, m.inner), base + at, m.inner, y - at)
    else StyleOf(reg, lang, base + k, f[k..], y - k)
  }

  /** Inside an embedding token: the embedded text has exactly the style that its language gives to it, and
      what stands before and behind it that which this language gives to it.  The embedded text stands
      right before the second group, or where it occurs first. */
  lemma {:induction false} EmbeddedTextHasItsStyle(
    reg: Registry, lang: int, base: nat, text: string, n: nat, at: nat, y: nat)
    requires Grounded(reg) && reg.langs(lang).Grammar? && n < |reg.langs(lang).tokenize(text)|
    requires var f, m := reg.langs(lang).tokenize(text)[n], reg.langs(lang).classify(reg.langs(lang).tokenize(text)[n]);
             && m.Embedded? && y < |f| && at + |m.inner| <= |f|
             && (if m.suffix != [] then at == |f| - |m.suffix| - |m.inner|
                 else OccursAt(f, m.inner, at) && forall i :: 0 <= i < at ==> !OccursAt(f, m.inner, i))
    ensures var tokens := reg.langs(lang).tokenize(text);
            var f, m, o := tokens[n], reg.langs(lang).classify(tokens[n]), |Flat(tokens[..n])|;
            && o + y < |text|
            && StyleOf(reg, lang, base, text, o + y) == StyleInParts(reg, lang, base + o, f, m, at, y)
  {
    var tokens := reg.langs(lang).tokenize(text);
    var f, m, o := tokens[n], reg.langs(lang).classify(tokens[n]), |Flat(tokens[..n])|;
    assert Sound(reg, lang, text);
    TokenThere(tokens, n, y);
    InnerStartIs(f, m, at);
    StyleOfEmbedded(reg, lang, base, text, o + y, n, o, f, m, at, StyleOf(reg, lang, base, text, o + y));
  }

  lemma {:induction false} TokenThere(tokens: seq<string>, n: nat, y: nat)
    requires n < |tokens| && y < |tokens[n]|
    ensures |Flat(tokens[..n])| + y < |Flat(tokens)| && TokenAt(tokens, |Flat(tokens[..n])| + y) == n
  {
    var x := |Flat(tokens[..n])| + y;
    FlatGrows(tokens, n);
    PrefixFits(tokens, n + 1);
    OneTokenAt(tokens, TokenAt(tokens, x), n, x);
  }

  lemma {:induction false} InnerStartIs(f: string, m: Match, at: nat)
    requires m.Embedded? && Shaped(f, m)
    requires if m.suffix != [] then at + |m.inner| + |m.suffix| == |f|
             else OccursAt(f, m.inner, at) && forall i :: 0 <= i < at ==> !OccursAt(f, m.inner, i)
    ensures InnerStart(f, m) == at
  {
    if m.suffix == [] {
      var j := InnerStart(f, m);
      assert OccursAt(f, m.inner, j) && OccursAt(f, m.inner, at);
    }
  }

  /** Which part of an embedding token character `y` of it stands in, said from the start `at` of the
      embedded text. */
  lemma {:induction false} PartIs(f: string, m: Match, at: nat, y: nat, i: nat, part: Part, start: nat)
    requires m.Embedded? && Shaped(f, m) && at == InnerStart(f, m) && y < |f|
    requires i == PartAt(f, m, y) && part == PartsOf(f, m)[i] && start == PartStart(f, m, i)
    ensures y < at ==> start == 0 && part == Handled(f[..at], Self)
    ensures at <= y < at + |m.inner| ==> start == at && part == Handled(m.inner, Named(m.lang))
    ensures at + |m.inner| <= y ==> start == at + |m.inner| && part == Handled(f[at + |m.inner|..], Self)
  {
  }

  lemma {:induction false} StyleOfEmbedded(
    reg: Registry, lang: int, base: nat, text: string, x: nat, n: nat, o: nat, f: string, m: Match, at: nat, style: int)
    requires Grounded(reg) && Sound(reg, lang, text) && reg.langs(lang).Grammar? && o <= x < |text|
    requires var tokens := reg.langs(lang).tokenize(text);
             n == TokenAt(tokens, x) && o == |Flat(tokens[..n])| && f == tokens[n] && x - o < |f|
    requires m == reg.langs(lang).classify(f) && m.Embedded? && Shaped(f, m) && at == InnerStart(f, m)
    requires style == StyleOf(reg, lang, base, text, x)
    ensures style == StyleInParts(reg, lang, base + o, f, m, at, x - o)
  {
    var i, start, part, l := PlaceOf(reg, lang, text, x);
    StyleOfPart(reg, lang, base, text, x, n, i, start, part, style);
    PartIs(f, m, at, x - o, i, part, start - o);
    SamePlace(reg, lang, base, o, f, m, at, x, part, start, style);
  }

  lemma {:induction false} SamePlace(
    reg: Registry, lang: int, base: nat, o: nat, f: string, m: Match, at: nat, x: nat, part: Part, start: nat,
    style: int)
    requires Grounded(reg) && m.Embedded? && at + |m.inner| <= |f| && o <= x && x - o < |f| && part.Handled?
    requires var y, k := x - o, at + |m.inner|;
             && (y < at ==> start == o && part == Handled(f[..at], Self))
             && (at <= y < k ==> start == o + at && part == Handled(m.inner, Named(m.lang)))
             && (k <= y ==> start == o + k && part == Handled(f[k..], Self))
    requires start <= x < start + |part.text|
    requires style == StyleOf(reg, Pick(reg, lang, part.who, part.text), base + start, part.text, x - start)
    ensures style == StyleInParts(reg, lang, base + o, f, m, at, x - o)
  {
    var y, k := x - o, at + |m.inner|;
    if y < at {
      assert base + start == base + o && x - start == y;
    } else if y < k {
      assert base + start == base + o + at && x - start == y - at;
    } else {
      assert base + start == base + o + k && x - start == y - k;
    }
  }

  /** A character of a token that embeds nothing has the style of that token. */
  lemma {:induction false} TokenIsThere(reg: Registry, lang: int, base: nat, text: string, x: nat, n: nat)
    requires Grounded(reg) && reg.langs(lang).Grammar? && x < |text|
    requires var g := reg.langs(lang);
             && n < |g.tokenize(text)| && !g.classify(g.tokenize(text)[n]).Embedded?
             && var o := |Flat(g.tokenize(text)[..n])|; o <= x < o + |g.tokenize(text)[n]|
    ensures var g := reg.langs(lang);
            var m := g.classify(g.tokenize(text)[n]);
            StyleOf(reg, lang, base, text, x) == if m.Style? then m.style else SOURCE
  {
    var g := reg.langs(lang);
    assert Sound(reg, lang, text);
    OneTokenAt(g.tokenize(text), TokenAt(g.tokenize(text), x), n, x);
  }

  /** No two tokens hold the same character. */
  lemma {:induction false} OneTokenAt(tokens: seq<string>, m: nat, n: nat, x: nat)
    requires m < |tokens| && |Flat(tokens[..m])| <= x < |Flat(tokens[..m])| + |tokens[m]|
    requires n < |tokens| && |Flat(tokens[..n])| <= x < |Flat(tokens[..n])| + |tokens[n]|
    ensures m == n
  {
    FlatGrows(tokens, m);
    FlatGrows(tokens, n);
    if m < n {
      assert tokens[..n][..m + 1] == tokens[..m + 1];
      PrefixFits(tokens[..n], m + 1);
    } else if n < m {
      assert tokens[..m][..n + 1] == tokens[..n + 1];
      PrefixFits(tokens[..m], n + 1);
    }
  }

  lemma {:induction false} FlatGrows(tokens: seq<string>, n: nat)
    requires n < |tokens|
    ensures |Flat(tokens[..n + 1])| == |Flat(tokens[..n])| + |tokens[n]|
  {
    if n == 0 {
      assert tokens[..1][1..] == [];
    } else {
      FlatGrows(tokens[1..], n - 1);
      assert tokens[..n + 1][1..] == tokens[1..][..n];
      assert tokens[..n][1..] == tokens[1..][..n - 1];
    }
  }

  lemma {:induction false} PrefixFits(tokens: seq<string>, n: nat)
    requires n <= |tokens|
    ensures |Flat(tokens[..n])| <= |Flat(tokens)|
  {
    if n > 0 {
      PrefixFits(tokens[1..], n - 1);
      assert tokens[..n][1..] == tokens[1..][..n - 1];
    }
  }

  // ---------------------------------------------------------------- the loop

  /** Call the handler of a language. */
  method Decorate(reg: Registry, lang: int, base: nat, text: string) returns (p: seq<int>)
    requires Grounded(reg)
    ensures p == Lex(reg, lang, base, text)
    decreases |text|, reg.rank(lang), 4
  {
    match reg.langs(lang) {
      case Other(decorate) => { p := decorate(base, text); }
      case Grammar(_, _) => { p := DecorateTokens(reg, lang, base, text); }
    }
  }

  /** What the lexer may rely on for each token of a text. */
  lemma {:induction false} TokenIsReady(reg: Registry, lang: int, text: string, n: nat)
    requires Grounded(reg) && reg.langs(lang).Grammar? && n < |reg.langs(lang).tokenize(text)|
    ensures var f, m := reg.langs(lang).tokenize(text)[n], reg.langs(lang).classify(reg.langs(lang).tokenize(text)[n]);
            && f != [] && |f| <= |text| && Shaped(f, m) && Descends(reg, lang, text, f, m)
  {
    assert Sound(reg, lang, text);
    TokenFits(reg.langs(lang).tokenize(text), n);
  }

  /** The lexer's loop with its cache of token styles. */
  method DecorateTokens(reg: Registry, lang: int, base: nat, text: string) returns (p: seq<int>)
    requires Grounded(reg) && reg.langs(lang).Grammar?
    ensures p == Lex(reg, lang, base, text)
    decreases |text|, reg.rank(lang), 3
  {
    var classify := reg.langs(lang).classify;
    var tokens := reg.langs(lang).tokenize(text);
    assert AllShaped(tokens, classify) by {
      assert Sound(reg, lang, text);
    }
    ghost var sub := Below(reg, lang, text);
    p := [base, PLAIN];
    var cache: map<string, int> := map[];
    var d, n := 0, 0;
    while n < |tokens|
      invariant n <= |tokens| && d == Offset(tokens, n)
      invariant p == LexedUpTo(base, tokens, n, classify, sub)
      invariant CacheIsRight(cache, classify)
    {
      TokenIsReady(reg, lang, text, n);
      var q;
      q, cache := DecorateToken(reg, lang, text, base + d, tokens[n], classify, cache);
      LexedNext(base, tokens, n, classify, sub, p, q);
      p := p + q;
      d := d + |tokens[n]|;
      n := n + 1;
    }
    LexedAll(base, tokens, n, classify, sub);
  }

  function LexedUpTo(base: nat, tokens: seq<string>, n: nat, classify: string -> Match, sub: Handlers): seq<int>
    requires n <= |tokens| && AllShaped(tokens, classify)
  {
    [base, PLAIN] + EmitTokens(base, tokens, n, classify, sub)
  }

  lemma {:induction false} LexedNext(
    base: nat, tokens: seq<string>, n: nat, classify: string -> Match, sub: Handlers, p: seq<int>, q: seq<int>)
    requires n < |tokens| && AllShaped(tokens, classify) && p == LexedUpTo(base, tokens, n, classify, sub)
    requires q == Emit(base + Offset(tokens, n), PartsOf(tokens[n], classify(tokens[n])), sub)
    ensures p + q == LexedUpTo(base, tokens, n + 1, classify, sub)
  {
    Regroup([base, PLAIN], EmitTokens(base, tokens, n, classify, sub), q);
  }

  lemma {:induction false} LexedAll(base: nat, tokens: seq<string>, n: nat, classify: string -> Match, sub: Handlers)
    requires n == |tokens| && AllShaped(tokens, classify)
    ensures LexedUpTo(base, tokens, n, classify, sub) == Lexed(base, tokens, classify, sub)
  {
    EmitTokensIs(base, tokens, n, classify, sub);
    assert tokens[..n] == tokens;
  }

  /** Where token `n` starts. */
  function Offset(tokens: seq<string>, n: nat): nat
    requires n <= |tokens|
  {
    if n == 0 then 0 else Offset(tokens, n - 1) + |tokens[n - 1]|
  }

  /** What the first `n` tokens give. */
  function EmitTokens(base: nat, tokens: seq<string>, n: nat, classify: string -> Match, sub: Handlers): seq<int>
    requires n <= |tokens| && AllShaped(tokens, classify)
  {
    if n == 0 then []
    else
      EmitTokens(base, tokens, n - 1, classify, sub)
      + Emit(base + Offset(tokens, n - 1), PartsOf(tokens[n - 1], classify(tokens[n - 1])), sub)
  }

  lemma {:induction false} EmitTokensIs(
    base: nat, tokens: seq<string>, n: nat, classify: string -> Match, sub: Handlers)
    requires n <= |tokens| && AllShaped(tokens, classify)
    ensures EmitTokens(base, tokens, n, classify, sub) == Emit(base, AllParts(tokens[..n], classify), sub)
    ensures Offset(tokens, n) == Width(AllParts(tokens[..n], classify))
  {
    if n > 0 {
      var parts, more := AllParts(tokens[..n - 1], classify), AllParts(tokens[..n], classify);
      EmitTokensIs(base, tokens, n - 1, classify, sub);
      NextToken(tokens, n - 1, classify);
      EmitTokensNext(base, tokens, n - 1, classify, sub);
      EmitToken(base, parts, more, tokens[n - 1], classify(tokens[n - 1]), sub);
    }
  }

  lemma {:induction false} EmitTokensNext(
    base: nat, tokens: seq<string>, n: nat, classify: string -> Match, sub: Handlers)
    requires n < |tokens| && AllShaped(tokens, classify)
    ensures EmitTokens(base, tokens, n + 1, classify, sub) ==
            EmitTokens(base, tokens, n, classify, sub)
            + Emit(base + Offset(tokens, n), PartsOf(tokens[n], classify(tokens[n])), sub)
    ensures Offset(tokens, n + 1) == Offset(tokens, n) + |tokens[n]|
  {
  }

  lemma {:induction false} EmitToken(base: nat, parts: seq<Part>, more: seq<Part>, f: string, m: Match, sub: Handlers)
    requires Shaped(f, m) && more == parts + PartsOf(f, m)
    ensures Emit(base, more, sub) == Emit(base, parts, sub) + Emit(base + Width(parts), PartsOf(f, m), sub)
    ensures Width(more) == Width(parts) + |f|
  {
    PartsWidth(f, m);
    EmitConcat(base, parts, PartsOf(f, m), sub);
  }

  lemma {:induction false} NextToken(tokens: seq<string>, n: nat, classify: string -> Match)
    requires AllShaped(tokens, classify) && n < |tokens|
    ensures AllParts(tokens[..n + 1], classify) ==
            AllParts(tokens[..n], classify) + PartsOf(tokens[n], classify(tokens[n]))
  {
    var one := [tokens[n]];
    assert one[1..] == [];
    assert tokens[..n + 1] == tokens[..n] + one;
    AllPartsConcat(tokens[..n], one, classify);
  }

  /** A cached style is what classifying the token afresh would give. */
  predicate CacheIsRight(cache: map<string, int>, classify: string -> Match) {
    forall f :: f in cache ==>
      !classify(f).Embedded? && cache[f] == (if classify(f).Style? then classify(f).style else SOURCE)
  }

  method DecorateToken(
    reg: Registry, lang: int, ghost text: string, at: nat, f: string, classify: string -> Match,
    cache: map<string, int>)
    returns (q: seq<int>, after: map<string, int>)
    requires Grounded(reg) && Shaped(f, classify(f)) && CacheIsRight(cache, classify)
    requires f != [] && |f| <= |text| && Descends(reg, lang, text, f, classify(f))
    ensures q == Emit(at, PartsOf(f, classify(f)), Below(reg, lang, text))
    ensures CacheIsRight(after, classify)
    decreases |text|, reg.rank(lang), 2
  {
    after := cache;
    var m := if f in cache then Style(cache[f]) else classify(f);
    if m.NoGroup? {
      m := Style(SOURCE);
    }
    if m.Style? {
      if f !in cache {
        after := after[f := m.style];
      }
      EmitOne(at, Plain(f, m.style), Below(reg, lang, text));
      return [at, m.style], after;
    }
    q := DecorateEmbedded(reg, lang, text, at, f, m);
  }

  /** What stands before the embedded text, the embedded text, and what stands behind it. */
  method DecorateEmbedded(reg: Registry, lang: int, ghost text: string, at: nat, f: string, m: Match)
    returns (q: seq<int>)
    requires Grounded(reg) && m.Embedded? && Shaped(f, m)
    requires f != [] && |f| <= |text| && Descends(reg, lang, text, f, m)
    ensures q == Emit(at, PartsOf(f, m), Below(reg, lang, text))
    decreases |text|, reg.rank(lang), 1
  {
    var j := InnerStart(f, m);
    var k := j + |m.inner|;
    RecursionIsOnShorterText(f, m);
    var x := Handle(reg, lang, text, at, f[..j], Self);
    var y := Handle(reg, lang, text, at + j, m.inner, Named(m.lang));
    var z := Handle(reg, lang, text, at + k, f[k..], Self);
    q := x + y + z;
    EmitEmbedded(at, f, m, Below(reg, lang, text), x, y, z);
  }

  lemma {:induction false} EmitEmbedded(
    at: nat, f: string, m: Match, sub: Handlers, x: seq<int>, y: seq<int>, z: seq<int>)
    requires m.Embedded? && Shaped(f, m)
    requires var j := InnerStart(f, m);
             && x == PartDecos(at, Handled(f[..j], Self), sub)
             && y == PartDecos(at + j, Handled(m.inner, Named(m.lang)), sub)
             && z == PartDecos(at + j + |m.inner|, Handled(f[j + |m.inner|..], Self), sub)
    ensures x + y + z == Emit(at, PartsOf(f, m), sub)
  {
    var j := InnerStart(f, m);
    EmitThree(at, Handled(f[..j], Self), Handled(m.inner, Named(m.lang)), Handled(f[j + |m.inner|..], Self), sub);
  }

  /** Call the handler of a part, unless there is nothing to decorate. */
  method Handle(reg: Registry, lang: int, ghost text: string, at: nat, t: string, who: Who) returns (q: seq<int>)
    requires Grounded(reg) && (t != [] ==> Smaller(reg, Pick(reg, lang, who, t), t, lang, text))
    ensures q == PartDecos(at, Handled(t, who), Below(reg, lang, text))
    decreases |text|, reg.rank(lang), 0
  {
    q := [];
    if t != [] {
      q := Decorate(reg, Pick(reg, lang, who, t), at, t);
    }
  }

  lemma {:induction false} EmitOne(at: nat, a: Part, sub: Handlers)
    ensures Emit(at, [a], sub) == PartDecos(at, a, sub)
  {
    assert [a][1..] == [];
  }

  lemma {:induction false} EmitThree(at: nat, a: Part, b: Part, c: Part, sub: Handlers)
    ensures Emit(at, [a, b, c], sub) ==
            PartDecos(at, a, sub) + PartDecos(at + |a.text|, b, sub) + PartDecos(at + |a.text| + |b.text|, c, sub)
  {
    assert [a, b, c][1..] == [b, c] && [b, c][1..] == [c];
    EmitOne(at + |a.text| + |b.text|, c, sub);
    assert Emit(at + |a.text|, [b, c], sub) ==
           PartDecos(at + |a.text|, b, sub) + Emit(at + |a.text| + |b.text|, [c], sub);
  }
}
