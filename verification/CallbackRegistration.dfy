/** What `add` and `remove` do to a list, whatever state it is in, and that a registration which has left
    its list is never called again. */
module CallbackRegistration {
  import opened Options
  import opened CallbackSpec
  import opened CallbackFrame
  import opened CallbackRounds
  import opened CallbackEmpty
  import opened CallbackTurns

  // ---------------------------------------------------------------- add

  /** The first occurrences of functions that are not among `seen`. */
  function Unseen(fs: seq<Fn>, seen: seq<Fn>): seq<Fn> {
    if fs == [] then []
    else if fs[0] in seen then Unseen(fs[1..], seen)
    else [fs[0]] + Unseen(fs[1..], seen + [fs[0]])
  }

  /** One more function at the end is new unless it was seen or stands further ahead. */
  lemma {:induction false} UnseenPush(fs: seq<Fn>, g: Fn, seen: seq<Fn>)
    ensures Unseen(fs + [g], seen) == Unseen(fs, seen) + if g in seen || g in fs then [] else [g]
  {
    if fs == [] {
      assert fs + [g] == [g] && [g][1..] == [];
    } else {
      var all := fs + [g];
      assert all[0] == fs[0] && all[1..] == fs[1..] + [g] && fs == [fs[0]] + fs[1..];
      UnseenPush(fs[1..], g, if fs[0] in seen then seen else seen + [fs[0]]);
    }
  }

  /** No function twice, and none that was seen. */
  lemma {:induction false} UnseenIsDistinct(fs: seq<Fn>, seen: seq<Fn>)
    ensures forall f :: f in Unseen(fs, seen) <==> f in fs && f !in seen
    ensures forall a, b :: 0 <= a < b < |Unseen(fs, seen)| ==> Unseen(fs, seen)[a] != Unseen(fs, seen)[b]
    decreases |fs|
  {
    if fs != [] {
      assert fs == [fs[0]] + fs[1..];
      if fs[0] in seen {
        UnseenIsDistinct(fs[1..], seen);
      } else {
        var rest := Unseen(fs[1..], seen + [fs[0]]);
        UnseenIsDistinct(fs[1..], seen + [fs[0]]);
        forall k | 0 <= k < |rest| ensures rest[k] != fs[0] {
          assert rest[k] in rest;
        }
      }
    }
  }

  /** Which of `fs` a list takes: all of them, or if it is `unique` those that it does not have. */
  function Joining(c: Chan, fs: seq<Fn>): seq<Fn>
    requires c.line.Some?
  {
    if c.flags.unique then Unseen(fs, Fns(Whole(c.line.value))) else fs
  }

  /** Registrations `s` are new at the end of the list, and nothing else about it has changed. */
  predicate Grown(c: Chan, d: Chan, s: seq<Entry>) {
    && c.line.Some? && d.line.Some? && Whole(d.line.value) == Whole(c.line.value) + s
    && d.hist.enrolled == c.hist.enrolled + s
    && (c.gap.skip == 0 ==> d.gap.skip == 0 && d.line == Some(Line(c.line.value.past, c.line.value.next + s)))
    && c.flags == d.flags && c.queue == d.queue && c.memory == d.memory && c.firing == d.firing
    && c.hist.ran == d.hist.ran && c.hist.deeds == d.hist.deeds && c.hist.queued == d.hist.queued
  }

  /** Everything outside list `i` is the same, but for numbers handed out. */
  predicate OnlyList(w: World, r: World, i: nat) {
    && i < |w.chans| == |r.chans| && r.chans == w.chans[i := r.chans[i]]
    && r.log == w.log && r.scripts == w.scripts && r.state == w.state && r.crashed == w.crashed
  }

  lemma {:induction false} GrownThen(c: Chan, d: Chan, e: Chan, s: seq<Entry>, t: seq<Entry>)
    requires Grown(c, d, s) && Grown(d, e, t)
    ensures Grown(c, e, s + t)
  {
    Regroup(Whole(c.line.value), s, t);
    Regroup(c.hist.enrolled, s, t);
    Regroup(c.line.value.next, s, t);
  }

  lemma {:induction false} GrownNot(c: Chan)
    requires c.line.Some?
    ensures Grown(c, c, [])
  {
    assert Whole(c.line.value) + [] == Whole(c.line.value) && c.line.value.next + [] == c.line.value.next;
    assert c.hist.enrolled + [] == c.hist.enrolled;
  }

  lemma {:induction false} OneGrows(w: World, i: nat, f: Fn)
    requires i < |w.chans| && w.chans[i].line.Some?
    ensures var c, r := w.chans[i], EnrolOne(w, i, f);
            if c.flags.unique && f in Fns(Whole(c.line.value)) then r == w
            else OnlyList(w, r, i) && r.nextId == w.nextId + 1 && Grown(c, r.chans[i], [Entry(f, w.nextId)])
  {
    var c, d := w.chans[i], EnrolOne(w, i, f).chans[i];
    assert !BehindTheEnd(c) ==> Whole(Line(c.line.value.past, c.line.value.next + [Entry(f, w.nextId)]))
                                == Whole(c.line.value) + [Entry(f, w.nextId)];
  }

  lemma {:induction false} FnsPush(s: seq<Entry>, f: Fn, id: nat)
    ensures Fns(s + [Entry(f, id)]) == Fns(s) + [f]
  {
  }

  predicate GrowsBy(w: World, r: World, i: nat, s: seq<Entry>) {
    OnlyList(w, r, i) && r.nextId == w.nextId + |s| && Grown(w.chans[i], r.chans[i], s)
  }

  lemma {:induction false} GrowsThen(
    w: World, w1: World, r: World, i: nat, s: seq<Entry>, t: seq<Entry>, st: seq<Entry>)
    requires GrowsBy(w, w1, i, s) && GrowsBy(w1, r, i, t) && st == s + t
    ensures GrowsBy(w, r, i, st)
  {
    GrownThen(w.chans[i], w1.chans[i], r.chans[i], s, t);
  }

  lemma {:induction false} GrowsNot(w: World, i: nat)
    requires i < |w.chans| && w.chans[i].line.Some?
    ensures GrowsBy(w, w, i, [])
  {
    GrownNot(w.chans[i]);
  }

  lemma {:induction false} EnrolGrows(w: World, i: nat, fs: seq<Fn>, r: World, s: seq<Entry>)
    requires i < |w.chans| && w.chans[i].line.Some?
    requires r == Enrol(w, i, fs) && s == NewEntries(Joining(w.chans[i], fs), w.nextId)
    ensures GrowsBy(w, r, i, s)
    decreases |fs|
  {
    if fs == [] {
      GrowsNot(w, i);
      assert s == [] && r == w;
    } else {
      var w1 := EnrolOne(w, i, fs[0]);
      var t := NewEntries(Joining(w1.chans[i], fs[1..]), w1.nextId);
      EnrolGrows(w1, i, fs[1..], r, t);
      GrowsCons(w, w1, r, i, fs, t, s);
    }
  }

  lemma {:induction false} GrowsCons(
    w: World, w1: World, r: World, i: nat, fs: seq<Fn>, t: seq<Entry>, s: seq<Entry>)
    requires i < |w.chans| && w.chans[i].line.Some? && fs != [] && w1 == EnrolOne(w, i, fs[0])
    requires t == NewEntries(Joining(w1.chans[i], fs[1..]), w1.nextId) && GrowsBy(w1, r, i, t)
    requires s == NewEntries(Joining(w.chans[i], fs), w.nextId)
    ensures GrowsBy(w, r, i, s)
  {
    var c := w.chans[i];
    OneGrows(w, i, fs[0]);
    if c.flags.unique && fs[0] in Fns(Whole(c.line.value)) {
      assert w1 == w && Joining(c, fs) == Joining(c, fs[1..]);
    } else {
      JoiningEntries(c, w1.chans[i], fs, w.nextId, s, t);
      assert GrowsBy(w, w1, i, [Entry(fs[0], w.nextId)]);
      GrowsThen(w, w1, r, i, [Entry(fs[0], w.nextId)], t, s);
    }
  }

  lemma {:induction false} JoiningEntries(c: Chan, d: Chan, fs: seq<Fn>, id: nat, s: seq<Entry>, t: seq<Entry>)
    requires c.line.Some? && fs != [] && !(c.flags.unique && fs[0] in Fns(Whole(c.line.value)))
    requires Grown(c, d, [Entry(fs[0], id)])
    requires s == NewEntries(Joining(c, fs), id) && t == NewEntries(Joining(d, fs[1..]), id + 1)
    ensures s == [Entry(fs[0], id)] + t
  {
    JoiningCons(c, d, fs, id);
    NewEntriesCons(Joining(c, fs), id);
  }

  lemma {:induction false} JoiningCons(c: Chan, d: Chan, fs: seq<Fn>, id: nat)
    requires c.line.Some? && fs != [] && !(c.flags.unique && fs[0] in Fns(Whole(c.line.value)))
    requires Grown(c, d, [Entry(fs[0], id)])
    ensures Joining(c, fs) != [] && Joining(c, fs)[0] == fs[0] && Joining(c, fs)[1..] == Joining(d, fs[1..])
  {
    FnsPush(Whole(c.line.value), fs[0], id);
  }

  lemma {:induction false} RepairGrowsNot(w: World, i: nat)
    requires i < |w.chans| && w.chans[i].line.Some?
    ensures OnlyList(w, Repair(w, i), i) && Repair(w, i).nextId == w.nextId
    ensures Grown(w.chans[i], Repair(w, i).chans[i], [])
  {
    GrownNot(w.chans[i]);
  }

  /** `add` on a list that does not remember a firing, or is firing: the functions it takes are registered
      at the end of the list, in the order given, where a round in step will come to them; nobody is
      called, and nothing else changes. */
  lemma {:induction false} AddRegisters(w: World, i: nat, fs: seq<Fn>)
    requires !w.crashed && i < |w.chans| && w.chans[i].line.Some?
    requires w.chans[i].firing || !w.chans[i].memory.Kept?
    ensures var c, r, s := w.chans[i], Do(w, Add(i, fs)), NewEntries(Joining(w.chans[i], fs), w.nextId);
            OnlyList(w, r, i) && Grown(c, r.chans[i], s)
  {
    var w1 := Repair(w, i);
    RepairGrowsNot(w, i);
    var s := NewEntries(Joining(w.chans[i], fs), w.nextId);
    EnrolGrows(w1, i, fs, Enrol(w1, i, fs), s);
    GrownThen(w.chans[i], w1.chans[i], Enrol(w1, i, fs).chans[i], [], s);
    assert [] + s == s;
  }

  /** `add` on an idle list that remembers a firing: the same, and then a round with the remembered
      arguments over exactly the new registrations, and over whoever joins during it. */
  lemma {:induction false} AddFires(w: World, i: nat, fs: seq<Fn>) returns (u: World)
    requires Ready(w, i) && AllIdle(w) && w.chans[i].memory.Kept?
    ensures var c, s := w.chans[i], NewEntries(Joining(w.chans[i], fs), w.nextId);
            && Ready(u, i) && OnlyList(w, u, i) && Grown(c, u.chans[i], s)
            && Listing(u, i) == Listing(w, i) + s
            && Do(w, Add(i, fs)) == Round(u, i, |Listing(w, i)|, c.memory.args)
            && var v := Served(u, i, |Listing(w, i)|, c.memory.args);
               && u.chans[i].hist.enrolled <= v.chans[i].hist.enrolled
               && s <= Concerned(u, v, i, |Listing(w, i)|)
               && On(v.log, i) == On(w.log, i) + CallsOf(i, v.chans[i].hist.ran, c.memory.args)
               && v.log <= Do(w, Add(i, fs)).log
  {
    var c, s := w.chans[i], NewEntries(Joining(w.chans[i], fs), w.nextId);
    assert Sound(c, w.nextId);
    u := Enrol(w, i, fs);
    GoodEnrol(w, i, fs);
    EnrolGrows(w, i, fs, u, s);
    assert Listing(u, i)[|Listing(w, i)|..] == s;
    var v := Served(u, i, |Listing(w, i)|, c.memory.args);
    ServedLog(u, i, |Listing(w, i)|, c.memory.args);
    LoopCalm(Begin(u, i, |Listing(w, i)|, c.memory.args), i);
    RoundKeepsLog(u, i, |Listing(w, i)|, c.memory.args);
  }

  lemma {:induction false} RoundKeepsLog(w: World, i: nat, start: nat, a: Args)
    requires Ready(w, i) && start <= |Listing(w, i)|
    ensures Served(w, i, start, a).log <= Round(w, i, start, a).log
  {
    assert Spent(Served(w, i, start, a), Round(w, i, start, a));
  }

  // ---------------------------------------------------------------- remove

  /** The entries of `s` whose functions are not among `fs`, in the same order. */
  function Sifted(s: seq<Entry>, fs: seq<Fn>): seq<Entry> {
    if s == [] then []
    else
      var n := |s| - 1;
      Sifted(s[..n], fs) + if s[n].fn in fs then [] else [s[n]]
  }

  lemma {:induction false} SiftedMeans(s: seq<Entry>, fs: seq<Fn>, e: Entry)
    ensures e in Sifted(s, fs) <==> e in s && e.fn !in fs
  {
    if s != [] {
      var n := |s| - 1;
      SiftedMeans(s[..n], fs, e);
      assert s == s[..n] + [s[n]];
    }
  }

  lemma {:induction false} SiftedAgain(s: seq<Entry>, f: Fn, fs: seq<Fn>)
    ensures Sifted(Sifted(s, [f]), fs) == Sifted(s, [f] + fs)
  {
    if s != [] {
      var n := |s| - 1;
      var front := Sifted(s[..n], [f]);
      SiftedAgain(s[..n], f, fs);
      assert (front + [s[n]])[..|front|] == front && front + [] == front;
      assert s[n].fn in [f] + fs <==> s[n].fn == f || s[n].fn in fs;
    }
  }

  lemma {:induction false} SiftedByNone(s: seq<Entry>)
    ensures Sifted(s, []) == s
  {
    if s != [] {
      var n := |s| - 1;
      SiftedByNone(s[..n]);
      assert s == s[..n] + [s[n]];
    }
  }

  lemma {:induction false} WithoutPush(s: seq<Entry>, x: Entry, f: Fn)
    ensures Without(s + [x], f) == Without(s, f) + if x.fn == f then [] else [x]
  {
    if s == [] {
      assert s + [x] == [x] && [x][1..] == [];
    } else {
      var all := s + [x];
      assert all[0] == s[0] && all[1..] == s[1..] + [x];
      WithoutPush(s[1..], x, f);
    }
  }

  lemma {:induction false} WithoutSifts(s: seq<Entry>, f: Fn)
    ensures Without(s, f) == Sifted(s, [f])
  {
    if s != [] {
      var n := |s| - 1;
      WithoutSifts(s[..n], f);
      WithoutPush(s[..n], s[n], f);
      assert s == s[..n] + [s[n]];
    }
  }

  /** The functions `fs` have left both halves of the line, and nothing else about the list has changed. */
  predicate Rid(c: Chan, d: Chan, fs: seq<Fn>) {
    && c.line.Some?
    && d.line == Some(Line(Sifted(c.line.value.past, fs), Sifted(c.line.value.next, fs)))
    && c.flags == d.flags && c.queue == d.queue && c.memory == d.memory && c.firing == d.firing && c.gap == d.gap
    && c.hist.enrolled == d.hist.enrolled && c.hist.ran == d.hist.ran && c.hist.queued == d.hist.queued
  }

  lemma {:induction false} OneIsRid(w: World, i: nat, f: Fn)
    requires i < |w.chans| && w.chans[i].line.Some?
    ensures OnlyList(w, RemoveOne(w, i, f), i) && Rid(w.chans[i], RemoveOne(w, i, f).chans[i], [f])
    ensures RemoveOne(w, i, f).nextId == w.nextId
  {
    WithoutSifts(w.chans[i].line.value.past, f);
    WithoutSifts(w.chans[i].line.value.next, f);
  }

  lemma {:induction false} RidThen(c: Chan, d: Chan, e: Chan, f: Fn, fs: seq<Fn>, all: seq<Fn>)
    requires Rid(c, d, [f]) && Rid(d, e, fs) && all == [f] + fs
    ensures Rid(c, e, all)
  {
    SiftedAgain(c.line.value.past, f, fs);
    SiftedAgain(c.line.value.next, f, fs);
  }

  lemma {:induction false} AllAreRid(w: World, i: nat, fs: seq<Fn>, r: World)
    requires i < |w.chans| && w.chans[i].line.Some? && r == RemoveAll(w, i, fs)
    ensures OnlyList(w, r, i) && Rid(w.chans[i], r.chans[i], fs) && r.nextId == w.nextId
    decreases |fs|
  {
    if fs == [] {
      SiftedByNone(w.chans[i].line.value.past);
      SiftedByNone(w.chans[i].line.value.next);
    } else {
      var w1 := RemoveOne(w, i, fs[0]);
      OneIsRid(w, i, fs[0]);
      AllAreRid(w1, i, fs[1..], r);
      assert fs == [fs[0]] + fs[1..];
      RidThen(w.chans[i], w1.chans[i], r.chans[i], fs[0], fs[1..], fs);
    }
  }

  /** `remove` on any list, firing or not: every registration of the functions leaves it, all others stay
      in their order, and nothing else changes. */
  lemma {:induction false} RemoveTakesOff(w: World, i: nat, fs: seq<Fn>)
    requires !w.crashed && i < |w.chans| && w.chans[i].line.Some?
    ensures var c, r := w.chans[i], Do(w, Remove(i, fs));
            && OnlyList(w, r, i) && Rid(c, r.chans[i], fs) && r.nextId == w.nextId
            && forall e :: e in Whole(r.chans[i].line.value) <==> e in Whole(c.line.value) && e.fn !in fs
  {
    var c, r := w.chans[i], Do(w, Remove(i, fs));
    AllAreRid(w, i, fs, r);
    forall e ensures e in Whole(r.chans[i].line.value) <==> e in Whole(c.line.value) && e.fn !in fs {
      SiftedMeans(c.line.value.past, fs, e);
      SiftedMeans(c.line.value.next, fs, e);
    }
  }

  // ---------------------------------------------------------------- registrations that are gone

  /** `e` has been registered, but is not on list `i`. */
  predicate Absent(w: World, i: nat, e: Entry) {
    i < |w.chans| && e.id < w.nextId && (w.chans[i].line.Some? ==> e !in Whole(w.chans[i].line.value))
  }

  /** It stays away, and list `i` does not call it. */
  predicate StaysAway(w: World, r: World, i: nat, e: Entry) {
    && Absent(r, i, e) && w.log <= r.log
    && forall k :: |w.log| <= k < |r.log| ==> !(r.log[k].on == i && r.log[k].entry == e)
  }

  lemma {:induction false} AwayThen(w: World, r: World, s: World, i: nat, e: Entry)
    requires StaysAway(w, r, i, e) && StaysAway(r, s, i, e)
    ensures StaysAway(w, s, i, e)
  {
    assert forall k :: |w.log| <= k < |r.log| ==> s.log[k] == r.log[k];
  }

  lemma {:induction false} EnrolAway(w: World, j: nat, fs: seq<Fn>, i: nat, e: Entry)
    requires Absent(w, i, e) && j < |w.chans| && w.chans[j].line.Some?
    ensures StaysAway(w, Enrol(Repair(w, j), j, fs), i, e)
  {
    var w1 := Repair(w, j);
    var s := NewEntries(Joining(w1.chans[j], fs), w1.nextId);
    EnrolGrows(w1, j, fs, Enrol(w1, j, fs), s);
    assert e !in s;
  }

  lemma {:induction false} RemoveAway(w: World, j: nat, fs: seq<Fn>, i: nat, e: Entry)
    requires Absent(w, i, e) && j < |w.chans| && w.chans[j].line.Some?
    ensures StaysAway(w, RemoveAll(w, j, fs), i, e)
  {
    AllAreRid(w, j, fs, RemoveAll(w, j, fs));
    SiftedMeans(w.chans[j].line.value.past, fs, e);
    SiftedMeans(w.chans[j].line.value.next, fs, e);
  }

  lemma {:induction false} DoAway(w: World, op: Op, i: nat, e: Entry)
    requires Absent(w, i, e)
    ensures StaysAway(w, Do(w, op), i, e)
    decreases |w.scripts|, 1, 0, 0, 0
  {
    var j := op.on;
    if !w.crashed && j < |w.chans| {
      var c := w.chans[j];
      match op
      case Add(_, fs) =>
        if c.line.Some? {
          var w1 := Enrol(Repair(w, j), j, fs);
          EnrolAway(w, j, fs, i, e);
          if !c.firing && c.memory.Kept? {
            RoundAway(w1, j, |Whole(c.line.value)|, c.memory.args, i, e);
            AwayThen(w, w1, Do(w, op), i, e);
          }
        }
      case Remove(_, fs) =>
        if c.line.Some? {
          RemoveAway(w, j, fs, i, e);
        }
      case FireWith(_, a) =>
        if c.queue.Some? && !c.firing && c.line.Some? && !(c.flags.once && c.memory != Unfired) {
          RoundAway(w, j, 0, a, i, e);
        }
      case _ =>
    }
  }

  lemma {:induction false} DoAllAway(w: World, ops: seq<Op>, i: nat, e: Entry)
    requires Absent(w, i, e)
    ensures StaysAway(w, DoAll(w, ops), i, e)
    decreases |w.scripts|, 2, |ops|, 0, 0
  {
    if ops != [] {
      DoAway(w, ops[0], i, e);
      DoAllAway(Do(w, ops[0]), ops[1..], i, e);
      AwayThen(w, Do(w, ops[0]), DoAll(w, ops), i, e);
    }
  }

  lemma {:induction false} BodyAway(w: World, f: Fn, i: nat, e: Entry)
    requires Absent(w, i, e)
    ensures StaysAway(w, Body(w, f), i, e)
    decreases |w.scripts|, 0, 0, 0, 0
  {
    if f.User? && w.scripts != [] {
      var w1 := w.(scripts := w.scripts[1..]);
      DoAllAway(w1, w.scripts[0].ops, i, e);
    }
  }

  lemma {:induction false} AdvanceAway(w: World, j: nat, i: nat, e: Entry)
    requires Absent(w, i, e) && HasNext(w, j)
    ensures StaysAway(w, Advance(w, j), i, e)
  {
    var l := w.chans[j].line.value;
    assert Whole(l)[|l.past|] == l.next[0];
    assert Whole(Advance(w, j).chans[j].line.value) == Whole(l);
  }

  lemma {:induction false} LoopAway(w: World, j: nat, i: nat, e: Entry)
    requires Absent(w, i, e) && j < |w.chans|
    ensures StaysAway(w, Loop(w, j), i, e)
    decreases |w.scripts|, 0, QueueLen(w.chans[j]), 1, NextLen(w.chans[j])
  {
    if !w.crashed && HasNext(w, j) {
      var f := w.chans[j].line.value.next[0].fn;
      var w1 := Advance(w, j);
      var w2 := Body(w1, f);
      AdvanceAway(w, j, i, e);
      BodyAway(w1, f, i, e);
      AwayThen(w, w1, w2, i, e);
      if !(!w2.crashed && Stops(w1, f) && w.chans[j].flags.stopOnFalse) {
        LoopAway(w2, j, i, e);
        AwayThen(w, w2, Loop(w2, j), i, e);
      }
    }
  }

  lemma {:induction false} RoundAway(w: World, j: nat, start: nat, a: Args, i: nat, e: Entry)
    requires Absent(w, i, e)
    requires j < |w.chans| && w.chans[j].line.Some? && start <= |Whole(w.chans[j].line.value)|
    ensures StaysAway(w, Round(w, j, start, a), i, e)
    decreases |w.scripts|, 0, QueueLen(w.chans[j]), 3, 0
  {
    var w1 := Begin(w, j, start, a);
    assert Whole(w1.chans[j].line.value) == Whole(w.chans[j].line.value);
    LoopAway(w1, j, i, e);
    var w2 := Loop(w1, j);
    if !w2.crashed {
      FinishAway(w2, j, i, e);
      AwayThen(w1, w2, Finish(w2, j), i, e);
    }
  }

  lemma {:induction false} FinishAway(w: World, j: nat, i: nat, e: Entry)
    requires Absent(w, i, e) && j < |w.chans|
    ensures StaysAway(w, Finish(w, j), i, e)
    decreases |w.scripts|, 0, QueueLen(w.chans[j]), 2, 0
  {
    var c := w.chans[j];
    var w1 := Quiet(w, j);
    assert Absent(w1, i, e);
    if c.line.Some? && !c.flags.once && c.queue.Some? && c.queue.value != [] {
      RoundAway(Dequeue(w1, j), j, 0, c.queue.value[0], i, e);
    }
  }

  lemma {:induction false} RunAway(w: World, turns: seq<Turn>, i: nat, e: Entry)
    requires Absent(w, i, e)
    ensures StaysAway(w, Run(w, turns), i, e)
  {
    if turns != [] {
      var n := |turns| - 1;
      var w1 := Run(w, turns[..n]).(scripts := turns[n].scripts);
      RunAway(w, turns[..n], i, e);
      DoAway(w1, turns[n].op, i, e);
      AwayThen(w, w1, Do(w1, turns[n].op), i, e);
    }
  }

  /** Who is taken off a list, firing or not, is never called by it again, whatever is done later:
      those whose functions are removed, and everybody on a list that is emptied or disabled.  (The same
      function may be registered anew; that is another registration.) */
  lemma {:induction false} TakenOffIsNeverCalled(w: World, op: Op, turns: seq<Turn>, e: Entry)
    requires Good(w) && !w.crashed && op.on < |w.chans|
    requires w.chans[op.on].line.Some? && e in Whole(w.chans[op.on].line.value)
    requires op.Disable? || op.Empty? || (op.Remove? && e.fn in op.fns)
    ensures StaysAway(w, Run(Do(w, op), turns), op.on, e)
  {
    var i := op.on;
    assert Sound(w.chans[i], w.nextId);
    if op.Remove? {
      RemoveTakesOff(w, i, op.fns);
    }
    assert Absent(Do(w, op), i, e) && StaysAway(w, Do(w, op), i, e);
    RunAway(Do(w, op), turns, i, e);
    AwayThen(w, Do(w, op), Run(Do(w, op), turns), i, e);
  }
}
