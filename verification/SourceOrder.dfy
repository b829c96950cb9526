/** What the walk over the document finds, said by the places of the nodes: each text node and each line
    break outside elements that are no code, once, in document order, a break behind everything in its
    element. */
module SourceOrder {
  import opened Options
  import opened SourceSpans

  /** Which child to go to, from the root down. */
  type Path = seq<nat>

  /** The node at a place, if it is there and nothing above it is marked as not being code. */
  function At(n: Node, p: Path): Option<Node>
    decreases |p|
  {
    if p == [] then Some(n)
    else if n.Element? && !n.nocode && p[0] < |n.children| then At(n.children[p[0]], p[1..])
    else None
  }

  /** Text that is not empty, and a breaking element that is code, give something to the source. */
  predicate Gives(n: Node) {
    (n.Text? && n.value != []) || (n.Element? && n.breaks && !n.nocode)
  }

  function Given(n: Node, pre: bool): Chunk
    requires Gives(n)
  {
    if n.Text? then Chunk(Normalized(n.value, pre), true, n.id) else Chunk("\n", false, n.id)
  }

  /** What stands at `p` is given before what stands at `q`: it is inside it, or in an earlier branch. */
  predicate Earlier(p: Path, q: Path)
    decreases |p|
  {
    if p == [] then false
    else if q == [] then true
    else p[0] < q[0] || (p[0] == q[0] && Earlier(p[1..], q[1..]))
  }

  /** The chunk `c` is given at `p`. */
  predicate GivenAt(n: Node, pre: bool, p: Path, c: Chunk) {
    var m := At(n, p);
    m.Some? && Gives(m.value) && c == Given(m.value, pre)
  }

  predicate Ordered(ps: seq<Path>) {
    forall j, k :: 0 <= j < k < |ps| ==> Earlier(ps[j], ps[k])
  }

  // ---------------------------------------------------------------- the places of the chunks

  function Below(i: nat, ps: seq<Path>): (r: seq<Path>)
    ensures |r| == |ps| && forall k :: 0 <= k < |ps| ==> r[k] == [i] + ps[k]
  {
    seq(|ps|, k requires 0 <= k < |ps| => [i] + ps[k])
  }

  function Places(n: Node): seq<Path>
    decreases n, 0
  {
    match n
    case Text(v, _) => if v == [] then [] else [[]]
    case Element(breaks, nocode, children, _) =>
      if nocode then [] else PlacesOfAll(children, 0) + if breaks then [[]] else []
    case Other => []
  }

  function PlacesOfAll(ns: seq<Node>, i: nat): seq<Path>
    decreases ns, 1
  {
    if ns == [] then [] else Below(i, Places(ns[0])) + PlacesOfAll(ns[1..], i + 1)
  }

  lemma {:induction false} PlacesFit(n: Node, pre: bool)
    ensures |Places(n)| == |ChunksOf(n, pre)|
    ensures forall k :: 0 <= k < |Places(n)| ==> GivenAt(n, pre, Places(n)[k], ChunksOf(n, pre)[k])
    decreases n, 0
  {
    if n.Element? && !n.nocode {
      var ps, cs := PlacesOfAll(n.children, 0), ChunksOfAll(n.children, pre);
      PlacesOfAllFit(n.children, 0, pre);
      forall k | 0 <= k < |Places(n)| ensures GivenAt(n, pre, Places(n)[k], ChunksOf(n, pre)[k]) {
        if k < |ps| {
          assert Places(n)[k] == ps[k] && ChunksOf(n, pre)[k] == cs[k];
        } else {
          assert Places(n)[k] == [];
        }
      }
    }
  }

  /** The place `p` leads into the row `ns`, whose first node has number `i`, and gives `c`. */
  predicate GivenIn(ns: seq<Node>, i: nat, pre: bool, p: Path, c: Chunk) {
    p != [] && i <= p[0] < i + |ns| && GivenAt(ns[p[0] - i], pre, p[1..], c)
  }

  lemma {:induction false} PlacesOfAllFit(ns: seq<Node>, i: nat, pre: bool)
    ensures |PlacesOfAll(ns, i)| == |ChunksOfAll(ns, pre)|
    ensures forall k :: 0 <= k < |PlacesOfAll(ns, i)| ==>
              GivenIn(ns, i, pre, PlacesOfAll(ns, i)[k], ChunksOfAll(ns, pre)[k])
    decreases ns, 1
  {
    if ns != [] {
      PlacesFit(ns[0], pre);
      PlacesOfAllFit(ns[1..], i + 1, pre);
      var first, all := Places(ns[0]), PlacesOfAll(ns, i);
      var cs := ChunksOfAll(ns, pre);
      forall k | 0 <= k < |all| ensures GivenIn(ns, i, pre, all[k], cs[k]) {
        if k < |first| {
          assert all[k] == [i] + first[k] && all[k][1..] == first[k];
        } else {
          assert GivenIn(ns[1..], i + 1, pre, all[k], cs[k]);
        }
      }
    }
  }

  lemma {:induction false} PlacesOrdered(n: Node)
    ensures Ordered(Places(n))
    decreases n, 0
  {
    if n.Element? && !n.nocode {
      PlacesOfAllOrdered(n.children, 0);
    }
  }

  lemma {:induction false} PlacesOfAllOrdered(ns: seq<Node>, i: nat)
    ensures Ordered(PlacesOfAll(ns, i))
    ensures forall k :: 0 <= k < |PlacesOfAll(ns, i)| ==> PlacesOfAll(ns, i)[k] != [] && i <= PlacesOfAll(ns, i)[k][0]
    decreases ns, 1
  {
    if ns != [] {
      PlacesOrdered(ns[0]);
      PlacesOfAllOrdered(ns[1..], i + 1);
      var first, all := Places(ns[0]), PlacesOfAll(ns, i);
      forall j, k | 0 <= j < k < |all| ensures Earlier(all[j], all[k]) {
        if k < |first| {
          assert all[j] == [i] + first[j] && all[k] == [i] + first[k];
          assert all[j][1..] == first[j] && all[k][1..] == first[k];
        }
      }
    }
  }

  lemma {:induction false} PlacesAreAll(n: Node, p: Path)
    requires At(n, p).Some? && Gives(At(n, p).value)
    ensures p in Places(n)
    decreases n, 0
  {
    if p == [] {
      assert Places(n) != [] && Places(n)[|Places(n)| - 1] == [];
    } else {
      PlacesOfAllAreAll(n.children, 0, p);
    }
  }

  lemma {:induction false} PlacesOfAllAreAll(ns: seq<Node>, i: nat, p: Path)
    requires p != [] && i <= p[0] < i + |ns|
    requires At(ns[p[0] - i], p[1..]).Some? && Gives(At(ns[p[0] - i], p[1..]).value)
    ensures p in PlacesOfAll(ns, i)
    decreases ns, 1
  {
    if p[0] == i {
      PlacesAreAll(ns[0], p[1..]);
      var k :| 0 <= k < |Places(ns[0])| && Places(ns[0])[k] == p[1..];
      assert PlacesOfAll(ns, i)[k] == [i] + p[1..] == p;
    } else {
      PlacesOfAllAreAll(ns[1..], i + 1, p);
    }
  }

  /** The chunks of a document are what its text nodes and breaks give, each of them once, wherever they
      stand outside elements that are no code: texts in document order, and a break behind all that its
      element contains and before all that follows it. */
  lemma {:induction false} ChunksAreInDocumentOrder(n: Node, pre: bool) returns (places: seq<Path>)
    ensures |places| == |ChunksOf(n, pre)| && Ordered(places)
    ensures forall k :: 0 <= k < |places| ==> GivenAt(n, pre, places[k], ChunksOf(n, pre)[k])
    ensures forall p :: At(n, p).Some? && Gives(At(n, p).value) ==> p in places
  {
    places := Places(n);
    PlacesFit(n, pre);
    PlacesOrdered(n);
    forall p | At(n, p).Some? && Gives(At(n, p).value) ensures p in places {
      PlacesAreAll(n, p);
    }
  }

  /** No place is earlier than itself, so none gives twice. */
  lemma {:induction false} NotEarlierThanItself(p: Path)
    ensures !Earlier(p, p)
  {
    if p != [] {
      NotEarlierThanItself(p[1..]);
    }
  }

  // ---------------------------------------------------------------- normalised text

  predicate EndsWith(v: string, c: char) {
    v != [] && v[|v| - 1] == c
  }

  predicate StartsWith(v: string, c: char) {
    v != [] && v[0] == c
  }

  /** Preformatted text is normalised piece by piece, wherever it is cut but inside a `\r\n`. */
  lemma {:induction false} UnixLinesConcat(a: string, b: string)
    requires !(EndsWith(a, '\r') && StartsWith(b, '\n'))
    ensures UnixLines(a + b) == UnixLines(a) + UnixLines(b)
    decreases |a|
  {
    if a == [] {
      assert a + b == b;
    } else {
      var ab := a + b;
      assert ab[0] == a[0] && ab[1..] == a[1..] + b;
      if a[0] == '\r' && |ab| > 1 && ab[1] == '\n' {
        assert a[1] == '\n' && ab[2..] == a[2..] + b;
        UnixLinesConcat(a[2..], b);
      } else {
        UnixLinesConcat(a[1..], b);
      }
    }
  }

  /** Each of the three line breaks becomes one `\n`, any other character stays. */
  lemma {:induction false} UnixLinesOf(c: char)
    ensures UnixLines("\r\n") == UnixLines("\r") == UnixLines("\n") == "\n"
    ensures c != '\r' ==> UnixLines([c]) == [c]
  {
    assert "\r\n"[2..] == [] && "\r"[1..] == [] && "\n"[1..] == [] && [c][1..] == [];
  }

  lemma {:induction false} UnixLinesHaveNoReturn(v: string)
    ensures '\r' !in UnixLines(v)
    decreases |v|
  {
    if v != [] {
      UnixLinesHaveNoReturn(v[1..]);
      if |v| > 1 {
        UnixLinesHaveNoReturn(v[2..]);
      }
    }
  }

  predicate Blank(v: string) {
    forall k :: 0 <= k < |v| ==> IsSpace(v[k])
  }

  /** Other text is normalised piece by piece, wherever it is cut but inside white space. */
  lemma {:induction false} CollapseConcat(a: string, b: string)
    requires !(a != [] && IsSpace(a[|a| - 1]) && b != [] && IsSpace(b[0]))
    ensures Collapse(a + b) == Collapse(a) + Collapse(b)
    decreases |a|
  {
    if a == [] {
      assert a + b == b;
    } else {
      var ab := a + b;
      assert ab[0] == a[0] && ab[1..] == a[1..] + b;
      CollapseConcat(a[1..], b);
    }
  }

  /** A run of white space becomes one space, any other character stays. */
  lemma {:induction false} CollapseOf(v: string, c: char)
    requires v != [] && Blank(v)
    ensures Collapse(v) == " "
    ensures !IsSpace(c) ==> Collapse([c]) == [c]
    decreases |v|
  {
    assert [c][1..] == [];
    if |v| > 1 {
      CollapseOf(v[1..], c);
    } else {
      assert v[1..] == [];
    }
  }

  /** The characters that are no white space. */
  function Solid(v: string): string {
    if v == [] then [] else (if IsSpace(v[0]) then [] else [v[0]]) + Solid(v[1..])
  }

  /** In what comes out no two white spaces stand together, all of them are spaces, and everything else is
      still there in its order. */
  lemma {:induction false} CollapsedText(v: string)
    ensures var r := Collapse(v);
            && (forall k :: 0 <= k < |r| && IsSpace(r[k]) ==> r[k] == ' ')
            && (forall k :: 0 <= k < |r| - 1 ==> !(IsSpace(r[k]) && IsSpace(r[k + 1])))
            && Solid(r) == Solid(v)
            && (v != [] && !IsSpace(v[0]) ==> r[0] == v[0])
    decreases |v|
  {
    if v != [] {
      var rest := Collapse(v[1..]);
      CollapsedText(v[1..]);
      if IsSpace(v[0]) && !(|v| > 1 && IsSpace(v[1])) {
        assert (" " + rest)[1..] == rest;
      } else if !IsSpace(v[0]) {
        assert ([v[0]] + rest)[1..] == rest;
      }
    }
  }
}
