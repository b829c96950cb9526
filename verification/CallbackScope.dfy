/** jQuery's `Callbacks` with the variables the source keeps: one array per list and the integers
    firingStart, firingLength and firingIndex, which `add` and `remove` repair while the array is
    being walked.  Every method is proved to do exactly what CallbackSpec says with a waiting line. */
module CallbackScope {
  import opened Options
  import opened CallbackSpec
  import opened CallbackFrame

  /** The closed-over variables of one `Callbacks(flags)`; `list` is None once disabled and `stack`
      is None once locked. */
  datatype Callbacks = Callbacks(
    flags: Flags, list: Option<seq<Entry>>, stack: Option<seq<Args>>, memory: Memory, firing: bool,
    firingStart: nat, firingLength: int, firingIndex: int)

  /** An argument of `add`. */
  datatype Item = Func(fn: Fn) | Nested(items: seq<Item>) | Ignored

  /** The functions among the arguments, however deeply nested, in order. */
  function Flat(items: seq<Item>): seq<Fn>
    decreases items
  {
    if items == [] then [] else Flat(items[..|items| - 1]) + FlatOne(items[|items| - 1])
  }

  function FlatOne(item: Item): seq<Fn>
    decreases item
  {
    match item
    case Func(f) => [f]
    case Nested(inner) => Flat(inner)
    case Ignored => []
  }

  function Functions(fs: seq<Fn>): (r: seq<Item>)
    ensures |r| == |fs| && forall k :: 0 <= k < |fs| ==> r[k] == Func(fs[k])
  {
    seq(|fs|, k requires 0 <= k < |fs| => Func(fs[k]))
  }

  lemma {:induction false} FlatFunctions(fs: seq<Fn>)
    ensures Flat(Functions(fs)) == fs
  {
    if fs != [] {
      var n := |fs| - 1;
      assert Functions(fs)[..n] == Functions(fs[..n]);
      FlatFunctions(fs[..n]);
      assert fs == fs[..n] + [fs[n]];
    }
  }

  /** A function is taken, nesting changes nothing, and any other value is ignored. */
  lemma {:induction false} FlatOf(f: Fn, items: seq<Item>)
    ensures Flat([Func(f)]) == [f] && Flat([Nested(items)]) == Flat(items) && Flat([Ignored]) == []
  {
    FlatPush([], Func(f));
    FlatPush([], Nested(items));
    FlatPush([], Ignored);
  }

  lemma {:induction false} FlatPush(a: seq<Item>, x: Item)
    ensures Flat(a + [x]) == Flat(a) + FlatOne(x)
  {
    assert (a + [x])[..|a|] == a;
  }

  /** Arguments one after another give their functions one after another. */
  lemma {:induction false} FlatConcat(a: seq<Item>, b: seq<Item>)
    ensures Flat(a + b) == Flat(a) + Flat(b)
    decreases |b|
  {
    if b == [] {
      assert a + b == a;
    } else {
      var n := |b| - 1;
      FlatConcat(a, b[..n]);
      assert a + b[..n] + [b[n]] == a + b;
      FlatPush(a + b[..n], b[n]);
    }
  }

  /** One more argument. */
  lemma {:induction false} FlatStep(w: World, i: nat, items: seq<Item>, k: nat, w1: World)
    requires i < |w.chans| && w.chans[i].line.Some? && k < |items| && w1 == Enrol(w, i, Flat(items[..k]))
    ensures Enrol(w, i, Flat(items[..k + 1])) == Enrol(w1, i, FlatOne(items[k]))
  {
    assert items[..k + 1][..k] == items[..k];
    EnrolMore(w, i, Flat(items[..k]), FlatOne(items[k]));
  }

  function NewCallbacks(flags: Flags): Callbacks {
    Callbacks(flags, Some([]), Some([]), Unfired, false, 0, 0, 0)
  }

  predicate Distinct(s: seq<Entry>) {
    forall a, b :: 0 <= a < b < |s| ==> s[a].fn != s[b].fn
  }

  /** A list and its line, but for the integers of a round. */
  predicate Agrees(c: Callbacks, s: Chan) {
    && c.flags == s.flags && c.stack == s.queue && c.memory == s.memory && c.firing == s.firing
    && c.firingStart == 0
    && (c.list.None? <==> s.line.None?)
    && (c.list.None? ==> c.stack.None?)
    && (c.list.Some? ==>
          && c.list.value == Whole(s.line.value)
          && (!c.firing ==> s.line.value.past == [])
          && (c.flags.unique ==> Distinct(c.list.value)))
    && (!c.firing ==> s.gap == NO_GAP)
    && (s.gap.missing > 0 ==> ListLen(s) == 0) && (s.gap.skip > 0 ==> NextLen(s) == 0)
  }

  /** How the integers of a list relate to its line; `lag` is 1 while a callback runs, when the
      index still points at the entry being called, and 0 at the loop head. */
  predicate Matches(c: Callbacks, s: Chan, lag: int) {
    && Agrees(c, s)
    && (c.firing ==>
          c.firingLength == ListLen(s) + s.gap.missing && c.firingIndex == PastLen(s) + s.gap.skip - lag)
  }

  function WithLength(c: Callbacks): Callbacks {
    if c.firing && c.list.Some? then c.(firingLength := |c.list.value|) else c
  }

  lemma {:induction false} DistinctPush(s: seq<Entry>, e: Entry)
    ensures Distinct(s) && e.fn !in Fns(s) ==> Distinct(s + [e])
  {
    if Distinct(s) && e.fn !in Fns(s) {
      forall a, b | 0 <= a < b < |s + [e]| ensures (s + [e])[a].fn != (s + [e])[b].fn {
        assert Fns(s)[a] == s[a].fn;
      }
    }
  }

  lemma {:induction false} WithoutSplit(a: seq<Entry>, b: seq<Entry>, f: Fn)
    ensures Without(a + b, f) == Without(a, f) + Without(b, f)
  {
    if a == [] {
      assert a + b == b;
    } else {
      var ab := a + b;
      assert ab[0] == a[0] && ab[1..] == a[1..] + b;
      WithoutSplit(a[1..], b, f);
      WithoutHead(ab, f);
      WithoutHead(a, f);
    }
  }

  lemma {:induction false} WithoutHead(s: seq<Entry>, f: Fn)
    requires s != []
    ensures Without(s, f) == if s[0].fn == f then Without(s[1..], f) else [s[0]] + Without(s[1..], f)
  {
  }

  lemma {:induction false} WithoutAbsent(s: seq<Entry>, f: Fn)
    requires forall k :: 0 <= k < |s| ==> s[k].fn != f
    ensures Without(s, f) == s
  {
    if s != [] {
      WithoutAbsent(s[1..], f);
    }
  }

  lemma {:induction false} DistinctAhead(s: seq<Entry>, t: seq<Entry>)
    requires s != [] && Distinct(s) && Distinct(t) && forall e :: e in t ==> e in s[1..]
    ensures Distinct([s[0]] + t)
  {
    forall k | 0 <= k < |t| ensures t[k].fn != s[0].fn {
      assert t[k] in s[1..];
    }
  }

  lemma {:induction false} WithoutDistinct(s: seq<Entry>, f: Fn)
    requires Distinct(s)
    ensures Distinct(Without(s, f))
    ensures forall e :: e in Without(s, f) ==> e in s
  {
    if s != [] {
      WithoutDistinct(s[1..], f);
      WithoutHead(s, f);
      DistinctAhead(s, Without(s[1..], f));
    }
  }

  /** One more element examined by the removal loop. */
  lemma {:induction false} WithoutStep(s: seq<Entry>, g: nat, f: Fn)
    requires g < |s|
    ensures Without(s[..g + 1], f) == Without(s[..g], f) + (if s[g].fn == f then [] else [s[g]])
  {
    assert s[..g + 1] == s[..g] + [s[g]];
    WithoutSplit(s[..g], [s[g]], f);
  }

  /** The scope that several lists live in: the lists, the user code still to run, what has been
      called so far, and the settlement variable of a Deferred. */
  class Scope {
    var lists: seq<Callbacks>
    var scripts: seq<Script>
    var log: seq<Call>
    var nextId: nat
    var state: Settlement
    /** A round has called an entry that is not there; the error is on its way out. */
    var crashed: bool
    ghost var world: World

    /** Everything agrees with `world` but for the lists. */
    ghost predicate Same()
      reads this
    {
      && scripts == world.scripts && log == world.log && nextId == world.nextId && state == world.state
      && crashed == world.crashed && |lists| == |world.chans|
    }

    /** Everything agrees with `world`; list `head` is at its loop head.  After an error nobody looks
        at the integers any more. */
    ghost predicate ValidAt(head: int)
      reads this
    {
      && Same()
      && (forall j :: 0 <= j < |lists| ==> Agrees(lists[j], world.chans[j]))
      && (!crashed ==>
            forall j :: 0 <= j < |lists| ==> Matches(lists[j], world.chans[j], if j == head then 0 else 1))
    }

    ghost predicate Valid()
      reads this
    {
      ValidAt(-1)
    }

    constructor (flags: seq<Flags>)
      ensures Valid()
      ensures world == Start(flags)
    {
      lists := seq(|flags|, k requires 0 <= k < |flags| => NewCallbacks(flags[k]));
      scripts, log, nextId, state, crashed := [], [], 0, Pending, false;
      world := Start(flags);
    }

    /** The environment supplies what user callbacks will do next. */
    method Supply(s: seq<Script>)
      requires Valid()
      modifies this
      ensures Valid() && world == old(world).(scripts := s)
    {
      scripts := s;
      world := world.(scripts := s);
    }

    method Has(i: nat, f: Fn) returns (found: bool)
      requires i < |lists| && lists[i].list.Some?
      ensures found <==> f in Fns(lists[i].list.value)
    {
      var list := lists[i].list.value;
      var b := 0;
      while b < |list|
        invariant 0 <= b <= |list|
        invariant forall k :: 0 <= k < b ==> list[k].fn != f
      {
        if list[b].fn == f {
          assert Fns(list)[b] == f;
          return true;
        }
        b := b + 1;
      }
      return false;
    }

    /** Valid but for the end of a running round on list `i`, which a push leaves stale. */
    ghost predicate ValidButLength(i: nat)
      reads this
    {
      && Same() && !crashed && i < |lists| && lists[i].list.Some? && world.chans[i].gap.missing == 0
      && (forall j :: 0 <= j < |lists| && j != i ==> Matches(lists[j], world.chans[j], 1))
      && Matches(WithLength(lists[i]), world.chans[i], 1)
    }

    /** Append one function, unless the list is unique and has it already. */
    method Push(i: nat, f: Fn)
      requires ValidButLength(i)
      modifies this
      ensures ValidButLength(i) && world == EnrolOne(old(world), i, f)
      ensures lists[i].firing == old(lists[i].firing) && lists[i].memory == old(lists[i].memory)
      ensures scripts == old(scripts) && lists[i].stack == old(lists[i].stack)
    {
      if lists[i].flags.unique {
        var seen := Has(i, f);
        if seen { return; }
      }
      var e := Entry(f, nextId);
      DistinctPush(lists[i].list.value, e);
      lists := lists[i := lists[i].(list := Some(lists[i].list.value + [e]))];
      nextId := nextId + 1;
      world := EnrolOne(world, i, f);
    }

    /** The arguments of `add`: functions, arrays of arguments, and anything else. */
    method PushItems(i: nat, items: seq<Item>)
      requires ValidButLength(i)
      modifies this
      ensures ValidButLength(i) && world == Enrol(old(world), i, Flat(items))
      ensures lists[i].firing == old(lists[i].firing) && lists[i].memory == old(lists[i].memory)
      ensures scripts == old(scripts) && lists[i].stack == old(lists[i].stack)
      decreases items
    {
      ghost var w0 := world;
      var k := 0;
      while k < |items|
        invariant 0 <= k <= |items|
        invariant ValidButLength(i) && w0.chans[i].line.Some? && |w0.chans| == |world.chans|
        invariant world == Enrol(w0, i, Flat(items[..k]))
        invariant lists[i].firing == old(lists[i].firing) && lists[i].memory == old(lists[i].memory)
        invariant scripts == old(scripts) && lists[i].stack == old(lists[i].stack)
        decreases |items| - k
      {
        FlatStep(w0, i, items, k, world);
        PushItem(i, items[k]);
        k := k + 1;
      }
      assert items[..k] == items;
    }

    method PushItem(i: nat, item: Item)
      requires ValidButLength(i)
      modifies this
      ensures ValidButLength(i) && world == Enrol(old(world), i, FlatOne(item))
      ensures lists[i].firing == old(lists[i].firing) && lists[i].memory == old(lists[i].memory)
      ensures scripts == old(scripts) && lists[i].stack == old(lists[i].stack)
      decreases item
    {
      match item
      case Func(f) =>
        assert [f][1..] == [];
        Push(i, f);
      case Nested(inner) => PushItems(i, inner);
      case Ignored =>
    }

    method Add(i: nat, items: seq<Item>)
      requires Valid() && i < |lists| && !crashed
      modifies this
      ensures Valid() && world == Do(old(world), CallbackSpec.Add(i, Flat(items)))
      decreases |scripts|, 1, 0, 0, 0
    {
      if lists[i].list.Some? {
        var length := |lists[i].list.value|;
        world := Repair(world, i);
        PushItems(i, items);
        if lists[i].firing {
          lists := lists[i := lists[i].(firingLength := |lists[i].list.value|)];
        } else if lists[i].memory.Kept? {
          lists := lists[i := lists[i].(firingStart := length)];
          Fire(i, lists[i].memory.args);
        }
      }
    }

    method Remove(i: nat, fs: seq<Fn>)
      requires Valid() && i < |lists| && !crashed
      modifies this
      ensures Valid() && world == Do(old(world), CallbackSpec.Remove(i, fs))
    {
      if lists[i].list.Some? {
        ghost var w0 := world;
        var k := 0;
        while k < |fs|
          invariant 0 <= k <= |fs| && i < |lists| && !crashed
          invariant Valid() && lists[i].list.Some?
          invariant RemoveAll(world, i, fs[k..]) == RemoveAll(w0, i, fs)
        {
          assert fs[k..][1..] == fs[k + 1..];
          Splice(i, fs[k]);
          k := k + 1;
        }
        assert fs[k..] == [];
      }
    }

    /** The inner loop of `remove`: splice out every registration of one function, moving the end
        and the index of a running round along. */
    method Splice(i: nat, f: Fn)
      requires Valid() && i < |lists| && lists[i].list.Some? && !crashed
      modifies this
      ensures Valid() && |lists| == old(|lists|) && lists[i].list.Some? && !crashed
      ensures world == RemoveOne(old(world), i, f)
    {
      var c := SpliceList(lists[i], f, world.chans[i].line.value, world.chans[i].gap);
      SpliceMatches(world, lists[i], c, i, f);
      lists := lists[i := c];
      world := RemoveOne(world, i, f);
    }

    method FireWith(i: nat, a: Args)
      requires Valid() && i < |lists| && !crashed
      modifies this
      ensures Valid() && world == Do(old(world), CallbackSpec.FireWith(i, a))
      decreases |scripts|, 0, if lists[i].stack.Some? then |lists[i].stack.value| else 0, 4, 0
    {
      if lists[i].stack.Some? {
        if lists[i].firing {
          if !lists[i].flags.once {
            lists := lists[i := lists[i].(stack := Some(lists[i].stack.value + [a]))];
            world := Enqueue(world, i, a);
          }
        } else if !(lists[i].flags.once && lists[i].memory != Unfired) {
          Fire(i, a);
        }
      }
    }

    method Empty(i: nat)
      requires Valid() && i < |lists| && !crashed
      modifies this
      ensures Valid() && !crashed && world == Do(old(world), CallbackSpec.Empty(i))
    {
      lists := lists[i := lists[i].(list := Some([]))];
      world := EmptyChan(world, i);
    }

    method Disable(i: nat)
      requires Valid() && i < |lists| && !crashed
      modifies this
      ensures Valid() && !crashed && world == Do(old(world), CallbackSpec.Disable(i))
    {
      lists := lists[i := lists[i].(list := None, stack := None, memory := Unfired)];
      world := DisableChan(world, i);
    }

    method Lock(i: nat)
      requires Valid() && i < |lists| && !crashed
      modifies this
      ensures Valid() && !crashed && world == Do(old(world), CallbackSpec.Lock(i))
    {
      ghost var w0 := world;
      lists := lists[i := lists[i].(stack := None)];
      world := world.(chans := world.chans[i := world.chans[i].(queue := None)]);
      if !lists[i].memory.Kept? {
        Disable(i);
      }
    }

    /** Call everything from firingStart on, and whatever joins the list meanwhile. */
    method Fire(i: nat, a: Args)
      requires Same() && !crashed && i < |lists|
      requires forall j :: 0 <= j < |lists| && j != i ==> Matches(lists[j], world.chans[j], 1)
      requires Matches(lists[i].(firingStart := 0), world.chans[i], 1)
      requires lists[i].list.Some? && !lists[i].firing && lists[i].firingStart <= |lists[i].list.value|
      modifies this
      ensures Valid() && world == Round(old(world), i, old(lists[i].firingStart), a)
      decreases |scripts|, 0, if lists[i].stack.Some? then |lists[i].stack.value| else 0, 3, 0
    {
      ghost var w0 := world;
      ghost var start := lists[i].firingStart;
      lists := lists[i := lists[i].(memory := if !lists[i].flags.memory then Halted else Kept(a))];
      lists := lists[i := lists[i].(firing := true, firingIndex := lists[i].firingStart, firingStart := 0,
                                    firingLength := |lists[i].list.value|)];
      world := Begin(w0, i, start, a);
      LoopCalm(world, i);
      Serve(i, a);
      if !crashed {
        Settle(i);
      }
    }

    /** Valid but for the index of list `i`, whose loop has ended. */
    ghost predicate ValidButIndex(i: nat)
      reads this
    {
      && Same() && !crashed && i < |lists|
      && (forall j :: 0 <= j < |lists| && j != i ==> Matches(lists[j], world.chans[j], 1))
      && Matches(lists[i].(firing := false), Quiet(world, i).chans[i], 1)
    }

    /** The loop of a firing. */
    method Serve(i: nat, a: Args)
      requires ValidAt(i) && i < |lists| && lists[i].firing && world.chans[i].hist.args == a && !crashed
      modifies this
      ensures if crashed then Valid() else ValidButIndex(i)
      ensures world == Loop(old(world), i)
      decreases |scripts|, 0, if lists[i].stack.Some? then |lists[i].stack.value| else 0, 2, 0
    {
      while lists[i].list.Some? && lists[i].firingIndex < lists[i].firingLength
        invariant ValidAt(i) && i < |lists| && lists[i].firing && world.chans[i].hist.args == a && !crashed
        invariant Loop(world, i) == Loop(old(world), i)
        invariant |scripts| <= old(|scripts|)
        decreases |scripts|, NextLen(world.chans[i])
      {
        HeadMeans(lists[i], world.chans[i]);
        if lists[i].firingIndex >= |lists[i].list.value| {
          crashed := true;
          world := world.(crashed := true);
          return;
        }
        var halted := ServeOne(i, a);
        if crashed {
          return;
        }
        if halted {
          return;
        }
      }
      if lists[i].list.Some? {
        HeadMeans(lists[i], world.chans[i]);
      }
    }

    method ServeOne(i: nat, a: Args) returns (halted: bool)
      requires ValidAt(i) && i < |lists| && lists[i].firing && world.chans[i].hist.args == a && !crashed
      requires lists[i].list.Some? && 0 <= lists[i].firingIndex < |lists[i].list.value| && HasNext(world, i)
      modifies this
      ensures crashed ==> Valid() && !halted
      ensures halted ==> ValidButIndex(i)
      ensures !crashed && !halted ==>
                ValidAt(i) && i < |lists| && lists[i].firing && world.chans[i].hist.args == a
      ensures Loop(old(world), i) == if halted || crashed then world else Loop(world, i)
      ensures |scripts| <= old(|scripts|)
      ensures !crashed && !halted && |scripts| == old(|scripts|) ==>
                NextLen(world.chans[i]) < NextLen(old(world).chans[i])
      decreases |scripts|, 0, 0, 1, 0
    {
      ghost var w0 := world;
      var e := lists[i].list.value[lists[i].firingIndex];
      HeadMeans(lists[i], world.chans[i]);
      HeadOfLine(world.chans[i].line.value, lists[i].firingIndex);
      log := log + [Call(i, e, a)];
      world := Advance(world, i);
      BodyCalm(world, e.fn);
      var stop := Invoke(e.fn);
      halted := false;
      if crashed {
        return;
      }
      halted := GoOn(i, stop);
    }

    /** After a call: on to the next entry, unless the callback returned `false` and that counts. */
    method GoOn(i: nat, stop: bool) returns (halted: bool)
      requires Valid() && i < |lists| && lists[i].firing && !crashed
      modifies this
      ensures halted <==> stop && old(lists[i].flags.stopOnFalse)
      ensures halted ==> ValidButIndex(i) && world == Halt(old(world), i)
      ensures !halted ==> ValidAt(i) && world == old(world) && i < |lists| && lists[i].firing
      ensures scripts == old(scripts) && !crashed
    {
      halted := stop && lists[i].flags.stopOnFalse;
      if halted {
        lists := lists[i := lists[i].(memory := Halted)];
        world := Halt(world, i);
      } else {
        lists := lists[i := lists[i].(firingIndex := lists[i].firingIndex + 1)];
      }
    }

    /** The end of a firing. */
    method Settle(i: nat)
      requires ValidButIndex(i)
      modifies this
      ensures Valid() && world == Finish(old(world), i)
      decreases |scripts|, 0, if lists[i].stack.Some? then |lists[i].stack.value| else 0, 2, 0
    {
      ghost var w0 := world;
      lists := lists[i := lists[i].(firing := false)];
      world := Quiet(world, i);
      if lists[i].list.Some? {
        if lists[i].flags.once {
          if lists[i].memory == Halted {
            Disable(i);
          } else {
            lists := lists[i := lists[i].(list := Some([]))];
            world := Clear(world, i);
          }
        } else if lists[i].stack.Some? && lists[i].stack.value != [] {
          Resume(i);
        }
      }
    }

    /** Serve the oldest postponed firing. */
    method Resume(i: nat)
      requires Valid() && !crashed && i < |lists| && lists[i].list.Some? && !lists[i].firing && !lists[i].flags.once
      requires lists[i].stack.Some? && lists[i].stack.value != []
      modifies this
      ensures Valid()
      ensures world == Round(Dequeue(old(world), i), i, 0, old(lists[i].stack.value[0]))
      decreases |scripts|, 0, if lists[i].stack.Some? then |lists[i].stack.value| else 0, 1, 0
    {
      var oldest := lists[i].stack.value[0];
      lists := lists[i := lists[i].(memory := Kept(oldest), stack := Some(lists[i].stack.value[1..]))];
      ghost var w1 := Dequeue(world, i);
      world := w1.(chans := w1.chans[i := w1.chans[i].(memory := Kept(oldest))]);
      assert Begin(world, i, 0, oldest) == Begin(w1, i, 0, oldest);
      FireWith(i, oldest);
    }

    /** One call of a registered function. */
    method Invoke(f: Fn) returns (stop: bool)
      requires Valid() && !crashed
      modifies this
      ensures Valid() && world == Body(old(world), f) && stop == Stops(old(world), f)
      decreases |scripts|, 0, 0, 0, 0
    {
      stop := false;
      match f
      case User(_) =>
        if scripts != [] {
          var s := scripts[0];
          scripts := scripts[1..];
          world := world.(scripts := scripts);
          RunOps(s.ops);
          stop := s.stop;
        }
      case Setter(s) =>
        state := s;
        world := world.(state := s);
      case Disabler(j) => if j < |lists| { Disable(j); }
      case Locker(j) => if j < |lists| { Lock(j); }
    }

    method RunOps(ops: seq<Op>)
      requires Valid() && !crashed
      modifies this
      ensures Valid() && world == DoAll(old(world), ops)
      decreases |scripts|, 2, |ops|, 0, 0
    {
      if ops != [] {
        var op := ops[0];
        if op.on < |lists| {
          match op
          case Add(i, fs) =>
            FlatFunctions(fs);
            Add(i, Functions(fs));
          case Remove(i, fs) => Remove(i, fs);
          case FireWith(i, a) => FireWith(i, a);
          case Disable(i) => Disable(i);
          case Lock(i) => Lock(i);
          case Empty(i) => Empty(i);
        }
        if crashed {
          NothingAfterAnError(world, ops[1..]);
        } else {
          RunOps(ops[1..]);
        }
      }
    }
  }

  /** What the loop condition says about the line. */
  lemma {:induction false} HeadMeans(c: Callbacks, s: Chan)
    requires Matches(c, s, 0) && c.firing && c.list.Some?
    ensures c.firingIndex < c.firingLength <==> s.line.value.next != [] || Overruns(s)
    ensures 0 <= c.firingIndex < |c.list.value| <==> s.line.value.next != []
    ensures s.line.value.next != [] ==> c.firingIndex == |s.line.value.past|
  {
  }

  lemma {:induction false} NothingAfterAnError(w: World, ops: seq<Op>)
    requires w.crashed
    ensures DoAll(w, ops) == w
  {
    if ops != [] {
      NothingAfterAnError(w, ops[1..]);
    }
  }

  lemma {:induction false} HeadOfLine(l: Line, at: nat)
    requires at == |l.past| && l.next != []
    ensures at < |Whole(l)| && Whole(l)[at] == l.next[0]
    ensures Whole(l) == Whole(Line(l.past + [l.next[0]], l.next[1..]))
  {
  }

  /** Where the index of a round stands after the first `g` entries have been examined. */
  function IndexAfter(l: Line, f: Fn, g: nat): int
    requires g <= |Whole(l)|
  {
    if g <= |l.past| then |Without(Whole(l)[..g], f)| + |l.past| - g - 1 else |Without(l.past, f)| - 1
  }

  /** Splice out one entry; a running round ends one earlier, and if the entry is at or before the
      index, the index moves back too. */
  function Cut(c: Callbacks, at: nat): Callbacks
    requires c.list.Some? && at < |c.list.value|
  {
    var c1 :=
      if c.firing && at <= c.firingLength then
        var c2 := c.(firingLength := c.firingLength - 1);
        if at <= c.firingIndex then c2.(firingIndex := c.firingIndex - 1) else c2
      else c;
    c1.(list := Some(c.list.value[..at] + c.list.value[at + 1..]))
  }

  /** What the removal loop has made of the entries `all`, after `g` of them; `at` is its counter. */
  predicate Thinned(now: seq<Entry>, all: seq<Entry>, f: Fn, at: int, g: nat) {
    g <= |all| && at == |Without(all[..g], f)| && now == Without(all[..g], f) + all[g..]
  }

  lemma {:induction false} ThinnedStep(now: seq<Entry>, all: seq<Entry>, f: Fn, at: int, g: nat)
    requires Thinned(now, all, f, at, g) && at < |now|
    ensures g < |all| && 0 <= at && now[at] == all[g]
    ensures all[g].fn != f ==> Thinned(now, all, f, at + 1, g + 1)
    ensures all[g].fn == f ==> Thinned(now[..at] + now[at + 1..], all, f, at, g + 1)
  {
    WithoutStep(all, g, f);
    var kept := Without(all[..g], f);
    assert all[g..] == [all[g]] + all[g + 1..];
    assert now[..at] == kept && now[at + 1..] == all[g + 1..];
    assert kept + [all[g]] + all[g + 1..] == now;
  }

  lemma {:induction false} IndexStep(l: Line, f: Fn, g: nat, at: int)
    requires g < |Whole(l)| && at == |Without(Whole(l)[..g], f)|
    ensures IndexAfter(l, f, g + 1)
            == IndexAfter(l, f, g) - if Whole(l)[g].fn == f && at <= IndexAfter(l, f, g) then 1 else 0
    ensures g < |l.past| ==> at <= IndexAfter(l, f, g)
  {
    var all := Whole(l);
    if g < |l.past| {
      WithoutStep(all, g, f);
      WithoutShrinks(all[..g], f);
      if g + 1 == |l.past| {
        assert all[..g + 1] == l.past;
      }
    } else {
      assert all[..g] == l.past + l.next[..g - |l.past|];
      WithoutSplit(l.past, l.next[..g - |l.past|], f);
      assert all[..|l.past|] == l.past;
    }
  }

  /** The removal loop on list `was`, after `g` of its entries; `at` is its own counter. */
  predicate SpliceState(
    was: Callbacks, c: Callbacks, l: Line, gap: Gap, f: Fn, at: int, g: nat) {
    && c.list.Some?
    && c == was.(list := c.list, firingLength := c.firingLength, firingIndex := c.firingIndex)
    && Thinned(c.list.value, Whole(l), f, at, g)
    && (gap.missing > 0 ==> Whole(l) == []) && (gap.skip > 0 ==> l.next == [])
    && (c.firing ==>
          c.firingLength == |c.list.value| + gap.missing && c.firingIndex == IndexAfter(l, f, g) + gap.skip)
  }

  /** One turn of the removal loop. */
  lemma {:induction false} SpliceStep(
    was: Callbacks, c: Callbacks, l: Line, gap: Gap, f: Fn, at: int, g: nat)
    requires SpliceState(was, c, l, gap, f, at, g) && at < |c.list.value|
    ensures g < |Whole(l)| && 0 <= at && c.list.value[at] == Whole(l)[g]
    ensures Whole(l)[g].fn != f ==> SpliceState(was, c, l, gap, f, at + 1, g + 1)
    ensures Whole(l)[g].fn == f ==> SpliceState(was, Cut(c, at), l, gap, f, at, g + 1)
  {
    ThinnedStep(c.list.value, Whole(l), f, at, g);
    IndexStep(l, f, g, at);
  }

  predicate NoneLeft(all: seq<Entry>, g: nat, f: Fn) {
    forall k :: g <= k < |all| ==> all[k].fn != f
  }

  lemma {:induction false} NoneBehind(all: seq<Entry>, g: nat, f: Fn)
    requires Distinct(all) && 0 < g <= |all| && all[g - 1].fn == f
    ensures NoneLeft(all, g, f)
  {
  }

  method SpliceList(was: Callbacks, f: Fn, ghost l: Line, ghost gap: Gap) returns (c: Callbacks)
    requires was.list.Some? && was.list.value == Whole(l)
    requires (gap.missing > 0 ==> Whole(l) == []) && (gap.skip > 0 ==> l.next == [])
    requires was.firing ==>
               was.firingLength == |was.list.value| + gap.missing && was.firingIndex == |l.past| + gap.skip - 1
    requires was.flags.unique ==> Distinct(was.list.value)
    ensures Spliced(was, c, l, gap, f)
  {
    ghost var all := Whole(l);
    c := was;
    var at := 0;
    ghost var g := 0;
    SpliceStart(was, l, gap, f);
    while at < |c.list.value|
      invariant SpliceState(was, c, l, gap, f, at, g) && g <= |all|
      decreases |all| - g
    {
      SpliceStep(was, c, l, gap, f, at, g);
      g := g + 1;
      if c.list.value[at].fn == f {
        c := Cut(c, at);
        if c.flags.unique {
          NoneBehind(all, g, f);
          break;
        }
      } else {
        at := at + 1;
      }
    }
    assert at >= |c.list.value| || NoneLeft(all, g, f);
    SpliceEnd(was, c, l, gap, f, at, g);
  }

  lemma {:induction false} SpliceStart(was: Callbacks, l: Line, gap: Gap, f: Fn)
    requires was.list.Some? && was.list.value == Whole(l)
    requires (gap.missing > 0 ==> Whole(l) == []) && (gap.skip > 0 ==> l.next == [])
    requires was.firing ==>
               was.firingLength == |was.list.value| + gap.missing && was.firingIndex == |l.past| + gap.skip - 1
    ensures SpliceState(was, was, l, gap, f, 0, 0)
  {
    var all := Whole(l);
    assert all[..0] == [] && all[0..] == all;
  }

  /** What the removal loop has left when it stops, early or not. */
  lemma {:induction false} SpliceEnd(
    was: Callbacks, c: Callbacks, l: Line, gap: Gap, f: Fn, at: int, g: nat)
    requires SpliceState(was, c, l, gap, f, at, g)
    requires at >= |c.list.value| || NoneLeft(Whole(l), g, f)
    ensures Spliced(was, c, l, gap, f)
  {
    var all := Whole(l);
    WithoutAbsent(all[g..], f);
    SpliceDone(l, g, f);
  }

  /** All registrations of `f` are gone, and the end and index still fit. */
  predicate Spliced(was: Callbacks, c: Callbacks, l: Line, gap: Gap, f: Fn) {
    && c.list.Some?
    && c == was.(list := c.list, firingLength := c.firingLength, firingIndex := c.firingIndex)
    && c.list.value == Without(l.past, f) + Without(l.next, f)
    && (c.firing ==>
          && c.firingLength == |c.list.value| + gap.missing
          && c.firingIndex == |Without(l.past, f)| + gap.skip - 1)
  }

  lemma {:induction false} SpliceMatches(w: World, was: Callbacks, c: Callbacks, i: nat, f: Fn)
    requires i < |w.chans| && w.chans[i].line.Some? && Matches(was, w.chans[i], 1)
    requires Spliced(was, c, w.chans[i].line.value, w.chans[i].gap, f)
    ensures Matches(c, RemoveOne(w, i, f).chans[i], 1)
  {
    var l := w.chans[i].line.value;
    WithoutSplit(l.past, l.next, f);
    if c.flags.unique {
      WithoutDistinct(Whole(l), f);
    }
  }

  lemma {:induction false} SpliceDone(l: Line, g: nat, f: Fn)
    requires g <= |Whole(l)| && Without(Whole(l)[g..], f) == Whole(l)[g..]
    ensures Without(Whole(l)[..g], f) + Whole(l)[g..] == Without(l.past, f) + Without(l.next, f)
    ensures IndexAfter(l, f, g) == |Without(l.past, f)| - 1
  {
    Rejoin(Whole(l), g, f);
    WithoutSplit(l.past, l.next, f);
    if g <= |l.past| {
      assert Whole(l)[g..] == l.past[g..] + l.next && Whole(l)[..g] == l.past[..g];
      IndexDone(l.past, l.next, g, f, Whole(l)[g..]);
    }
  }

  lemma {:induction false} Rejoin(all: seq<Entry>, g: nat, f: Fn)
    requires g <= |all| && Without(all[g..], f) == all[g..]
    ensures Without(all[..g], f) + all[g..] == Without(all, f)
  {
    assert all[..g] + all[g..] == all;
    WithoutSplit(all[..g], all[g..], f);
  }

  lemma {:induction false} IndexDone(past: seq<Entry>, next: seq<Entry>, g: nat, f: Fn, left: seq<Entry>)
    requires g <= |past| && left == past[g..] + next && Without(left, f) == left
    ensures |Without(past, f)| == |Without(past[..g], f)| + |past| - g
  {
    assert past == past[..g] + past[g..];
    WithoutSplit(past[g..], next, f);
    WithoutSplit(past[..g], past[g..], f);
    WithoutShrinks(past[g..], f);
    WithoutShrinks(next, f);
  }

  lemma {:induction false} WithoutShrinks(s: seq<Entry>, f: Fn)
    ensures |Without(s, f)| <= |s|
  {
    if s != [] {
      WithoutShrinks(s[1..], f);
    }
  }
}
