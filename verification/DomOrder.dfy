/** Sizzle's fallback comparator for document order: it knows only `parentNode` and `nextSibling`,
    builds the two chains of ancestors and walks siblings where they part.  On one document it is
    proved to agree with the order in which a depth-first walk meets the nodes. */
module DomOrder {
  import opened Options

  type Id = nat

  datatype Tree = Tree(id: Id, children: seq<Tree>)

  /** `parentNode` and `nextSibling`; an absent key is `null`. */
  datatype Links = Links(parent: map<Id, Id>, next: map<Id, Id>)

  function Parent(l: Links, x: Id): Option<Id> {
    if x in l.parent then Some(l.parent[x]) else None
  }

  function Next(l: Links, x: Id): Option<Id> {
    if x in l.next then Some(l.next[x]) else None
  }

  /** The nodes of a forest in document order. */
  function Pre(ts: seq<Tree>): seq<Id> {
    if ts == [] then [] else [ts[0].id] + Pre(ts[0].children) + Pre(ts[1..])
  }

  function Roots(ts: seq<Tree>): seq<Id> {
    if ts == [] then [] else [ts[0].id] + Roots(ts[1..])
  }

  predicate Distinct(s: seq<Id>) {
    forall i, j :: 0 <= i < j < |s| ==> s[i] != s[j]
  }

  /** The links describe the forest `ts`, whose roots are the children of `up`. */
  predicate Linked(l: Links, up: Option<Id>, ts: seq<Tree>)
    decreases ts
  {
    ts == [] ||
    (&& Parent(l, ts[0].id) == up
     && Next(l, ts[0].id) == (if |ts| > 1 then Some(ts[1].id) else None)
     && Linked(l, Some(ts[0].id), ts[0].children)
     && Linked(l, up, ts[1..]))
  }

  /** One document: a finite tree in which every node occurs once. */
  predicate Document(l: Links, t: Tree) {
    Linked(l, None, [t]) && Distinct(Pre([t]))
  }

  /** Position of the first occurrence of `x`. */
  function Pos(s: seq<Id>, x: Id): (r: nat)
    requires x in s
    ensures r < |s| && s[r] == x
  {
    if s[0] == x then 0 else 1 + Pos(s[1..], x)
  }

  /** The children of `p`. */
  function Kids(ts: seq<Tree>, p: Id): seq<Id> {
    if ts == [] then []
    else if ts[0].id == p then Roots(ts[0].children)
    else if p in Pre(ts[0].children) then Kids(ts[0].children, p)
    else Kids(ts[1..], p)
  }

  /** The ancestors of `x` from a root down, and `x` itself. */
  function Path(ts: seq<Tree>, x: Id): seq<Id>
    requires x in Pre(ts)
  {
    if ts[0].id == x then [x]
    else if x in Pre(ts[0].children) then [ts[0].id] + Path(ts[0].children, x)
    else Path(ts[1..], x)
  }

  /** Where two paths part, the earlier sibling decides; a path that ends first comes first. */
  predicate PathLess(ts: seq<Tree>, row: seq<Id>, p: seq<Id>, q: seq<Id>)
    decreases |p|
  {
    if p == [] then true
    else if q == [] then false
    else if p[0] == q[0] then PathLess(ts, Kids(ts, p[0]), p[1..], q[1..])
    else p[0] in row && q[0] in row && Pos(row, p[0]) < Pos(row, q[0])
  }

  // ---------------------------------------------------------------- sequences

  lemma {:induction false} PosConcat(a: seq<Id>, b: seq<Id>, x: Id)
    requires x in a + b
    ensures Pos(a + b, x) == if x in a then Pos(a, x) else |a| + Pos(b, x)
  {
    if a == [] {
      assert a + b == b;
    } else if a[0] != x {
      assert (a + b)[1..] == a[1..] + b;
      PosConcat(a[1..], b, x);
    }
  }

  lemma {:induction false} DistinctParts(h: Id, a: seq<Id>, b: seq<Id>)
    requires Distinct([h] + a + b)
    ensures Distinct(a) && Distinct(b) && h !in a && h !in b
    ensures forall x :: x in a ==> x !in b
  {
    var s := [h] + a + b;
    assert s[0] == h;
    assert forall i :: 0 <= i < |a| ==> s[1 + i] == a[i];
    assert forall j :: 0 <= j < |b| ==> s[1 + |a| + j] == b[j];
  }

  lemma {:induction false} RootsInPre(ts: seq<Tree>)
    ensures forall x :: x in Roots(ts) ==> x in Pre(ts)
    ensures |Roots(ts)| == |ts| && forall i :: 0 <= i < |ts| ==> Roots(ts)[i] == ts[i].id
  {
    if ts != [] {
      RootsInPre(ts[1..]);
    }
  }

  // ---------------------------------------------------------------- paths and rows

  /** Going up from `x` by `parentNode` retraces its path. */
  lemma {:induction false} PathLinks(l: Links, up: Option<Id>, ts: seq<Tree>, x: Id)
    requires Linked(l, up, ts) && x in Pre(ts)
    ensures var p := Path(ts, x);
            && |p| > 0 && p[|p| - 1] == x
            && Parent(l, p[0]) == up && p[0] in Roots(ts)
            && (forall k :: 1 <= k < |p| ==> Parent(l, p[k]) == Some(p[k - 1]))
            && (forall k :: 0 <= k < |p| ==> p[k] in Pre(ts))
    decreases ts
  {
    if ts[0].id != x {
      if x in Pre(ts[0].children) {
        PathLinks(l, Some(ts[0].id), ts[0].children, x);
        var p := Path(ts, x);
        var q := Path(ts[0].children, x);
        assert forall k :: 1 <= k < |p| ==> p[k] == q[k - 1];
      } else {
        PathLinks(l, up, ts[1..], x);
      }
    }
  }

  function After(row: seq<Id>, i: nat): Option<Id> {
    if i + 1 < |row| then Some(row[i + 1]) else None
  }

  lemma {:induction false} LaterInside(s: seq<Id>, a: seq<Id>, t: seq<Id>, x: Id, y: Id)
    requires x in a && y in a && Pos(a, x) < Pos(a, y) && x !in s && y !in s
    ensures x in s + a + t && y in s + a + t && Pos(s + a + t, x) < Pos(s + a + t, y)
  {
    PosConcat(s + a, t, x);
    PosConcat(s + a, t, y);
    PosConcat(s, a, x);
    PosConcat(s, a, y);
  }

  /** In document order a next sibling comes behind everything in its elder. */
  lemma {:induction false} NextComesLater(l: Links, up: Option<Id>, ts: seq<Tree>, x: Id, y: Id)
    requires Linked(l, up, ts) && Distinct(Pre(ts)) && x in Pre(ts) && Next(l, x) == Some(y)
    ensures y in Pre(ts) && Pos(Pre(ts), x) < Pos(Pre(ts), y)
    decreases ts
  {
    var h, a, b := ts[0].id, Pre(ts[0].children), Pre(ts[1..]);
    DistinctParts(h, a, b);
    if x == h {
      assert y == ts[1].id && b[0] == y && Pre(ts)[1 + |a|] == y;
      PosConcat([h] + a, b, y);
    } else if x in a {
      NextComesLater(l, Some(h), ts[0].children, x, y);
      LaterInside([h], a, b, x, y);
    } else {
      assert x in b;
      NextComesLater(l, up, ts[1..], x, y);
      LaterInside([h] + a, b, [], x, y);
      assert [h] + a + b + [] == [h] + a + b;
    }
  }

  /** `row` is a complete list of siblings. */
  predicate IsRow(l: Links, row: seq<Id>) {
    && Distinct(row)
    && (forall i {:trigger After(row, i)} :: 0 <= i < |row| ==> Next(l, row[i]) == After(row, i))
  }

  lemma {:induction false} RootsRow(l: Links, up: Option<Id>, ts: seq<Tree>)
    requires Linked(l, up, ts) && Distinct(Pre(ts))
    ensures IsRow(l, Roots(ts))
    decreases ts
  {
    if ts != [] {
      DistinctParts(ts[0].id, Pre(ts[0].children), Pre(ts[1..]));
      RootsRow(l, up, ts[1..]);
      RootsInPre(ts[1..]);
      RowCons(l, ts[0].id, Roots(ts[1..]));
    }
  }

  lemma {:induction false} RowCons(l: Links, x: Id, row: seq<Id>)
    requires IsRow(l, row) && x !in row && Next(l, x) == if row == [] then None else Some(row[0])
    ensures IsRow(l, [x] + row)
  {
    var r := [x] + row;
    forall i | 0 <= i < |r| ensures Next(l, r[i]) == After(r, i) {
      if i > 0 {
        assert r[i] == row[i - 1];
        assert After(r, i) == After(row, i - 1);
      }
    }
  }

  lemma {:induction false} KidsRow(l: Links, up: Option<Id>, ts: seq<Tree>, p: Id)
    requires Linked(l, up, ts) && Distinct(Pre(ts)) && p in Pre(ts)
    ensures IsRow(l, Kids(ts, p))
    decreases ts
  {
    DistinctParts(ts[0].id, Pre(ts[0].children), Pre(ts[1..]));
    if ts[0].id == p {
      RootsRow(l, Some(p), ts[0].children);
    } else if p in Pre(ts[0].children) {
      KidsRow(l, Some(ts[0].id), ts[0].children, p);
    } else {
      KidsRow(l, up, ts[1..], p);
    }
  }

  /** Every step of a path goes to a child. */
  lemma {:induction false} PathKids(l: Links, up: Option<Id>, ts: seq<Tree>, x: Id, k: nat)
    requires Linked(l, up, ts) && Distinct(Pre(ts)) && x in Pre(ts) && 1 <= k < |Path(ts, x)|
    ensures Path(ts, x)[k] in Kids(ts, Path(ts, x)[k - 1])
    decreases ts
  {
    DistinctParts(ts[0].id, Pre(ts[0].children), Pre(ts[1..]));
    if x in Pre(ts[0].children) {
      PathLinks(l, Some(ts[0].id), ts[0].children, x);
      var q := Path(ts[0].children, x);
      if k > 1 {
        PathKids(l, Some(ts[0].id), ts[0].children, x, k - 1);
        assert q[k - 2] in Pre(ts[0].children);
      }
    } else {
      PathLinks(l, up, ts[1..], x);
      PathKids(l, up, ts[1..], x, k);
      assert Path(ts[1..], x)[k - 1] in Pre(ts[1..]);
    }
  }

  // ---------------------------------------------------------------- paths and document order

  lemma {:induction false} PathLessLocal(ts: seq<Tree>, us: seq<Tree>, row: seq<Id>, p: seq<Id>, q: seq<Id>)
    requires forall k :: 0 <= k < |p| ==> Kids(ts, p[k]) == Kids(us, p[k])
    ensures PathLess(ts, row, p, q) == PathLess(us, row, p, q)
    decreases |p|
  {
    if p != [] && q != [] && p[0] == q[0] {
      PathLessLocal(ts, us, Kids(ts, p[0]), p[1..], q[1..]);
    }
  }

  /** What a path looks like from the head of the forest. */
  lemma {:induction false} PathHead(l: Links, up: Option<Id>, ts: seq<Tree>, x: Id)
    requires Linked(l, up, ts) && Distinct(Pre(ts)) && x in Pre(ts)
    ensures var h := ts[0];
            && (x == h.id ==> Path(ts, x) == [x])
            && (x in Pre(h.children) ==>
                  && x != h.id && Path(ts, x) == [h.id] + Path(h.children, x)
                  && Path(ts, x)[1..] == Path(h.children, x) && |Path(h.children, x)| > 0)
            && (x in Pre(ts[1..]) ==>
                  && x != h.id && x !in Pre(h.children) && Path(ts, x) == Path(ts[1..], x)
                  && |Path(ts, x)| > 0 && Path(ts, x)[0] in Roots(ts[1..]) && Path(ts, x)[0] != h.id)
  {
    DistinctParts(ts[0].id, Pre(ts[0].children), Pre(ts[1..]));
    if x in Pre(ts[0].children) {
      PathLinks(l, Some(ts[0].id), ts[0].children, x);
    } else if x != ts[0].id {
      PathLinks(l, up, ts[1..], x);
      RootsInPre(ts[1..]);
    }
  }

  lemma {:induction false} OneIsHead(l: Links, up: Option<Id>, ts: seq<Tree>, a: Id, b: Id)
    requires Linked(l, up, ts) && Distinct(Pre(ts)) && a in Pre(ts) && b in Pre(ts) && a != b
    requires a == ts[0].id || b == ts[0].id
    ensures PathLess(ts, Roots(ts), Path(ts, a), Path(ts, b)) <==> a == ts[0].id
  {
    PathHead(l, up, ts, a);
    PathHead(l, up, ts, b);
    var p, q := Path(ts, a), Path(ts, b);
    assert a == ts[0].id ==> p[1..] == [];
    assert b == ts[0].id ==> q[1..] == [];
  }

  lemma {:induction false} BothBelow(l: Links, up: Option<Id>, ts: seq<Tree>, a: Id, b: Id)
    requires Linked(l, up, ts) && Distinct(Pre(ts)) && a in Pre(ts) && b in Pre(ts) && a != b
    requires a in Pre(ts[0].children) && b in Pre(ts[0].children)
    ensures var us := ts[0].children;
            PathLess(ts, Roots(ts), Path(ts, a), Path(ts, b)) == PathLess(us, Roots(us), Path(us, a), Path(us, b))
  {
    PathHead(l, up, ts, a);
    PathHead(l, up, ts, b);
    DistinctParts(ts[0].id, Pre(ts[0].children), Pre(ts[1..]));
    var us := ts[0].children;
    PathLinks(l, Some(ts[0].id), us, a);
    PathLessLocal(ts, us, Roots(us), Path(us, a), Path(us, b));
  }

  lemma {:induction false} BothBeside(l: Links, up: Option<Id>, ts: seq<Tree>, a: Id, b: Id)
    requires Linked(l, up, ts) && Distinct(Pre(ts)) && a in Pre(ts) && b in Pre(ts) && a != b
    requires a in Pre(ts[1..]) && b in Pre(ts[1..])
    ensures var us := ts[1..];
            PathLess(ts, Roots(ts), Path(ts, a), Path(ts, b)) == PathLess(us, Roots(us), Path(us, a), Path(us, b))
  {
    PathHead(l, up, ts, a);
    PathHead(l, up, ts, b);
    DistinctParts(ts[0].id, Pre(ts[0].children), Pre(ts[1..]));
    var us := ts[1..];
    PathLinks(l, up, us, a);
    var p, q := Path(us, a), Path(us, b);
    forall k | 0 <= k < |p| ensures Kids(ts, p[k]) == Kids(us, p[k]) {
      assert p[k] in Pre(us);
    }
    if p[0] == q[0] {
      PathLessLocal(ts, us, Kids(us, p[0]), p[1..], q[1..]);
    } else {
      assert Roots(ts)[1..] == Roots(us);
    }
  }

  lemma {:induction false} Apart(l: Links, up: Option<Id>, ts: seq<Tree>, a: Id, b: Id)
    requires Linked(l, up, ts) && Distinct(Pre(ts)) && a in Pre(ts) && b in Pre(ts) && a != b
    requires a in Pre(ts[0].children) <==> b in Pre(ts[1..])
    requires a in Pre(ts[1..]) <==> b in Pre(ts[0].children)
    ensures a in Pre(ts[0].children) ==> PathLess(ts, Roots(ts), Path(ts, a), Path(ts, b))
    ensures a in Pre(ts[1..]) ==> !PathLess(ts, Roots(ts), Path(ts, a), Path(ts, b))
  {
    PathHead(l, up, ts, a);
    PathHead(l, up, ts, b);
  }

  /** Where a node comes in document order, by the part of the forest it is in. */
  lemma {:induction false} PosPre(ts: seq<Tree>, x: Id)
    requires Distinct(Pre(ts)) && x in Pre(ts)
    ensures var h := ts[0];
            && Distinct(Pre(h.children)) && Distinct(Pre(ts[1..]))
            && (x == h.id ==> x !in Pre(h.children) && x !in Pre(ts[1..]) && Pos(Pre(ts), x) == 0)
            && (x in Pre(h.children) ==>
                  && x != h.id && x !in Pre(ts[1..])
                  && Pos(Pre(ts), x) == 1 + Pos(Pre(h.children), x))
            && (x in Pre(ts[1..]) ==>
                  && x != h.id && x !in Pre(h.children)
                  && Pos(Pre(ts), x) == 1 + |Pre(h.children)| + Pos(Pre(ts[1..]), x))
            && (x == h.id || x in Pre(h.children) || x in Pre(ts[1..]))
  {
    var h := ts[0];
    var below := Pre(h.children);
    var rest := Pre(ts[1..]);
    DistinctParts(h.id, below, rest);
    assert Pre(ts) == [h.id] + (below + rest);
    PosConcat([h.id], below + rest, x);
    if x != h.id {
      PosConcat(below, rest, x);
    }
  }

  /** Paths compare as the nodes come in document order. */
  lemma {:induction false} PathLessIsPreorder(l: Links, up: Option<Id>, ts: seq<Tree>, a: Id, b: Id)
    requires Linked(l, up, ts) && Distinct(Pre(ts)) && a in Pre(ts) && b in Pre(ts) && a != b
    ensures PathLess(ts, Roots(ts), Path(ts, a), Path(ts, b)) <==> Pos(Pre(ts), a) < Pos(Pre(ts), b)
    decreases ts
  {
    var h := ts[0];
    PosPre(ts, a);
    PosPre(ts, b);
    if a == h.id || b == h.id {
      OneIsHead(l, up, ts, a, b);
    } else if a in Pre(h.children) && b in Pre(h.children) {
      BothBelow(l, up, ts, a, b);
      PathLessIsPreorder(l, Some(h.id), h.children, a, b);
    } else if a in Pre(ts[1..]) && b in Pre(ts[1..]) {
      BothBeside(l, up, ts, a, b);
      PathLessIsPreorder(l, up, ts[1..], a, b);
    } else {
      Apart(l, up, ts, a, b);
    }
  }

  // ---------------------------------------------------------------- the comparator

  /** Walk the siblings that follow `a`, looking for `b`. */
  method SiblingCheck(l: Links, a: Id, b: Id, ret: int, ghost row: seq<Id>) returns (r: int)
    requires a != b ==> IsRow(l, row) && a in row && b in row
    ensures r == if a == b then ret else if Pos(row, a) < Pos(row, b) then -1 else 1
  {
    if a == b { return ret; }
    r := WalkSiblings(l, a, b, row, Pos(row, a), Pos(row, b));
  }

  method WalkSiblings(l: Links, a: Id, b: Id, ghost row: seq<Id>, ghost p: nat, ghost q: nat) returns (r: int)
    requires IsRow(l, row) && p < |row| && row[p] == a && q < |row| && row[q] == b && p != q
    ensures r == if p < q then -1 else 1
  {
    var cur := Next(l, a);
    ghost var i := p + 1;
    assert cur == After(row, p);
    while cur.Some?
      invariant p < i <= |row| && (p < q ==> i <= q)
      invariant cur == After(row, i - 1)
      decreases |row| - i
    {
      if cur.value == b {
        return -1;
      }
      assert Next(l, cur.value) == After(row, i);
      cur := Next(l, cur.value);
      i := i + 1;
    }
    r := 1;
  }

  /** All ancestors above and including `start`, from the root down. */
  method Ancestors(l: Links, start: Option<Id>, ghost chain: seq<Id>) returns (e: seq<Id>)
    requires IsChain(l, start, chain)
    ensures e == chain
  {
    e := [];
    var cur := start;
    while cur.Some?
      invariant |e| <= |chain| && e == chain[|chain| - |e|..]
      invariant cur == if |e| == |chain| then None else Some(chain[|chain| - |e| - 1])
      decreases |chain| - |e|
    {
      e := [cur.value] + e;
      cur := Parent(l, cur.value);
    }
  }

  lemma {:induction false} PathRow(l: Links, ts: seq<Tree>, x: Id, k: nat)
    requires Linked(l, None, ts) && Distinct(Pre(ts)) && x in Pre(ts) && k < |Path(ts, x)|
    ensures IsRow(l, RowAt(ts, Path(ts, x), k)) && Path(ts, x)[k] in RowAt(ts, Path(ts, x), k)
  {
    PathLinks(l, None, ts, x);
    if k == 0 {
      RootsRow(l, None, ts);
    } else {
      KidsRow(l, None, ts, Path(ts, x)[k - 1]);
      PathKids(l, None, ts, x, k);
    }
  }

  /** Paths that agree on their first `k` steps go on in the same row. */
  lemma {:induction false} SameRow(ts: seq<Tree>, p: seq<Id>, q: seq<Id>, k: nat)
    requires k <= |p| && k <= |q| && p[..k] == q[..k]
    ensures RowAt(ts, p, k) == RowAt(ts, q, k)
  {
    if k > 0 {
      assert p[k - 1] == p[..k][k - 1] && q[k - 1] == q[..k][k - 1];
    }
  }

  lemma {:induction false} ConsPrefix(x: Id, s: seq<Id>, k: nat)
    requires 0 < k <= |s|
    ensures ([x] + s)[..k + 1] == [x] + s[..k] && ([x] + s)[k] == s[k - 1]
  {
  }

  /** A prefix of a path is the path of the node it ends at. */
  lemma {:induction false} PathPrefix(l: Links, up: Option<Id>, ts: seq<Tree>, x: Id, k: nat)
    requires Linked(l, up, ts) && Distinct(Pre(ts)) && x in Pre(ts) && k < |Path(ts, x)|
    ensures Path(ts, x)[k] in Pre(ts) && Path(ts, Path(ts, x)[k]) == Path(ts, x)[..k + 1]
    decreases ts
  {
    PathHead(l, up, ts, x);
    PathLinks(l, up, ts, x);
    DistinctParts(ts[0].id, Pre(ts[0].children), Pre(ts[1..]));
    var h := ts[0];
    if x in Pre(h.children) {
      if k > 0 {
        PathPrefix(l, Some(h.id), h.children, x, k - 1);
        ConsPrefix(h.id, Path(h.children, x), k);
        PathHead(l, up, ts, Path(ts, x)[k]);
      }
    } else if x in Pre(ts[1..]) {
      PathPrefix(l, up, ts[1..], x, k);
      PathHead(l, up, ts, Path(ts, x)[k]);
    }
  }

  /** Nodes with the same parent have the same chain of ancestors; in one tree only the root has
      none. */
  lemma {:induction false} SameParent(l: Links, t: Tree, a: Id, b: Id)
    requires Document(l, t) && a in Pre([t]) && b in Pre([t])
    ensures var p, q := Path([t], a), Path([t], b);
            && |p| > 0 && |q| > 0 && p[0] == t.id && q[0] == t.id
            && (Parent(l, a) == Parent(l, b) <==> p[..|p| - 1] == q[..|q| - 1])
            && (Parent(l, a).None? <==> |p| == 1)
            && (Parent(l, b).None? <==> |q| == 1)
  {
    var ts := [t];
    PathLinks(l, None, ts, a);
    PathLinks(l, None, ts, b);
    var p, q := Path(ts, a), Path(ts, b);
    assert Roots(ts) == [t.id];
    assert Parent(l, p[|p| - 1]) == if |p| == 1 then None else Some(p[|p| - 2]);
    assert Parent(l, q[|q| - 1]) == if |q| == 1 then None else Some(q[|q| - 2]);
    if Parent(l, a) == Parent(l, b) && |p| > 1 {
      PathPrefix(l, None, ts, a, |p| - 2);
      PathPrefix(l, None, ts, b, |q| - 2);
    }
    if p[..|p| - 1] == q[..|q| - 1] {
      assert |p| == |q|;
      if |p| > 1 {
        assert p[|p| - 2] == p[..|p| - 1][|p| - 2] && q[|q| - 2] == q[..|q| - 1][|p| - 2];
      }
    }
  }

  /** Two paths that agree on their first `k` steps are ordered by what follows. */
  lemma {:induction false} Parted(ts: seq<Tree>, p: seq<Id>, q: seq<Id>, k: nat)
    requires k <= |p| && k <= |q| && p[..k] == q[..k]
    ensures RowAt(ts, p, k) == RowAt(ts, q, k)
    ensures PathLess(ts, Roots(ts), p, q) == PathLess(ts, RowAt(ts, p, k), p[k..], q[k..])
  {
    SameRow(ts, p, q, k);
    if k > 0 {
      assert p[..k - 1] == p[..k][..k - 1] && q[..k - 1] == q[..k][..k - 1];
      Parted(ts, p, q, k - 1);
      assert p[k - 1] == p[..k][k - 1] && q[k - 1] == q[..k][k - 1];
      assert p[k - 1..][1..] == p[k..] && q[k - 1..][1..] == q[k..];
    }
  }

  /** The first step at which two paths may part decides which node comes first. */
  lemma {:induction false} Decide(l: Links, t: Tree, a: Id, b: Id, k: nat)
    requires Document(l, t) && a in Pre([t]) && b in Pre([t]) && a != b
    requires k < |Path([t], a)| && k < |Path([t], b)| && Path([t], a)[..k] == Path([t], b)[..k]
    ensures var p, q := Path([t], a), Path([t], b);
            var row := RowAt([t], p, k);
            && IsRow(l, row) && p[k] in row && q[k] in row
            && (p[k] != q[k] ==>
                  (Pos(row, p[k]) < Pos(row, q[k]) <==> Pos(Pre([t]), a) < Pos(Pre([t]), b)))
            && (p[k] == q[k] && k + 1 == |p| ==> Pos(Pre([t]), a) < Pos(Pre([t]), b))
            && (p[k] == q[k] && k + 1 == |q| && k + 1 < |p| ==> Pos(Pre([t]), b) < Pos(Pre([t]), a))
  {
    var ts := [t];
    var p, q := Path(ts, a), Path(ts, b);
    PathRow(l, ts, a, k);
    PathRow(l, ts, b, k);
    Parted(ts, p, q, k);
    PathLessIsPreorder(l, None, ts, a, b);
    assert p[k..][1..] == p[k + 1..] && q[k..][1..] == q[k + 1..];
  }

  /** The comparator that Sizzle sorts with when the browser cannot compare positions itself; `dup`
      reports that the same node was met twice. */
  method Compare(l: Links, a: Id, b: Id, ghost t: Tree) returns (r: int, dup: bool)
    requires Document(l, t) && a in Pre([t]) && b in Pre([t])
    ensures dup <==> a == b
    ensures r == if a == b then 0 else if Pos(Pre([t]), a) < Pos(Pre([t]), b) then -1 else 1
  {
    if a == b { return 0, true; }
    dup := false;
    var up, over := Parent(l, a), Parent(l, b);
    Chains(l, t, a, b);
    if up == over {
      r := SiblingCheck(l, a, b, 0, RowAt([t], Path([t], a), |Path([t], a)| - 1));
      return;
    }
    if up.None? { return -1, false; }
    if over.None? { return 1, false; }
    ghost var p, q := Path([t], a), Path([t], b);
    var e := Ancestors(l, up, p[..|p| - 1]);
    var f := Ancestors(l, over, q[..|q| - 1]);
    r := CompareChains(l, a, b, e, f, t);
  }

  /** `chain` is the list of ancestors of a node whose parent is `up`. */
  predicate IsChain(l: Links, up: Option<Id>, chain: seq<Id>) {
    && up == (if chain == [] then None else Some(chain[|chain| - 1]))
    && (chain != [] ==> Parent(l, chain[0]) == None)
    && (forall k :: 1 <= k < |chain| ==> Parent(l, chain[k]) == Some(chain[k - 1]))
  }

  /** What the parents of two nodes say about them. */
  lemma {:induction false} OneChain(l: Links, t: Tree, a: Id)
    requires Document(l, t) && a in Pre([t])
    ensures var p := Path([t], a);
            |p| > 0 && p == p[..|p| - 1] + [a] && IsChain(l, Parent(l, a), p[..|p| - 1])
  {
    PathLinks(l, None, [t], a);
  }

  lemma {:induction false} Chains(l: Links, t: Tree, a: Id, b: Id)
    requires Document(l, t) && a in Pre([t]) && b in Pre([t]) && a != b
    ensures var p, q := Path([t], a), Path([t], b);
            && |p| > 0 && p == p[..|p| - 1] + [a] && IsChain(l, Parent(l, a), p[..|p| - 1])
            && |q| > 0 && q == q[..|q| - 1] + [b] && IsChain(l, Parent(l, b), q[..|q| - 1])
    ensures var p, q := Path([t], a), Path([t], b);
            Parent(l, a) == Parent(l, b) <==> p[..|p| - 1] == q[..|q| - 1]
    ensures Parent(l, a) != Parent(l, b) && Parent(l, a).None? ==> Pos(Pre([t]), a) < Pos(Pre([t]), b)
    ensures Parent(l, a) != Parent(l, b) && Parent(l, b).None? ==> Pos(Pre([t]), b) < Pos(Pre([t]), a)
    ensures Parent(l, a) == Parent(l, b) ==>
              var row := RowAt([t], Path([t], a), |Path([t], a)| - 1);
              && IsRow(l, row) && a in row && b in row
              && (Pos(row, a) < Pos(row, b) <==> Pos(Pre([t]), a) < Pos(Pre([t]), b))
  {
    SameParent(l, t, a, b);
    OneChain(l, t, a);
    OneChain(l, t, b);
    var p, q := Path([t], a), Path([t], b);
    if Parent(l, a) == Parent(l, b) {
      assert |p[..|p| - 1]| == |q[..|q| - 1]|;
      Decide(l, t, a, b, |p| - 1);
    } else if Parent(l, a).None? || Parent(l, b).None? {
      Decide(l, t, a, b, 0);
    }
  }

  /** Find where two chains of ancestors part. */
  method CompareChains(l: Links, a: Id, b: Id, e: seq<Id>, f: seq<Id>, ghost t: Tree) returns (r: int)
    requires Document(l, t) && a in Pre([t]) && b in Pre([t]) && a != b && e != f
    requires Path([t], a) == e + [a] && Path([t], b) == f + [b]
    ensures r == if Pos(Pre([t]), a) < Pos(Pre([t]), b) then -1 else 1
  {
    ghost var p, q := Path([t], a), Path([t], b);
    var k := 0;
    while k < |e| && k < |f|
      invariant 0 <= k <= |e| && k <= |f|
      invariant e[..k] == f[..k]
    {
      assert p[..k] == q[..k];
      Decide(l, t, a, b, k);
      if e[k] != f[k] {
        r := SiblingCheck(l, e[k], f[k], 0, RowAt([t], p, k));
        return;
      }
      k := k + 1;
    }
    assert p[..k] == q[..k];
    Decide(l, t, a, b, k);
    if k == |e| {
      assert e == e[..k] && f[..|f|] == f;
      r := SiblingCheck(l, a, f[k], -1, RowAt([t], p, k));
    } else {
      r := SiblingCheck(l, e[k], b, 1, RowAt([t], p, k));
    }
  }

  /** The siblings among which a path takes its step `k`. */
  function RowAt(ts: seq<Tree>, p: seq<Id>, k: nat): seq<Id>
    requires k <= |p|
  {
    if k == 0 then Roots(ts) else Kids(ts, p[k - 1])
  }

  /** An ancestor comes before its descendants in the order the comparator computes. */
  lemma {:induction false} AncestorsComeFirst(l: Links, t: Tree, x: Id, k: nat)
    requires Document(l, t) && x in Pre([t]) && k + 1 < |Path([t], x)|
    ensures Path([t], x)[k] in Pre([t])
    ensures Pos(Pre([t]), Path([t], x)[k]) < Pos(Pre([t]), x)
  {
    var ts := [t];
    var p := Path(ts, x);
    PathLinks(l, None, ts, x);
    PathPrefix(l, None, ts, x, k);
    var y := p[k];
    assert Path(ts, y) == p[..k + 1];
    assert |Path(ts, y)| < |Path(ts, x)|;
    Parted(ts, p[..k + 1], p, k + 1);
    PathLessIsPreorder(l, None, ts, y, x);
  }
}
