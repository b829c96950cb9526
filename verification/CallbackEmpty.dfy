/** `empty` and `disable`.  Between rounds `empty` is harmless.  Inside a round it makes a new array but
    leaves the recorded length and index as they are: entries that join at positions the round has
    already passed are never called in it, and a length that nobody corrects makes the round call an
    entry that is not there. */
module CallbackEmpty {
  import opened Options
  import opened CallbackSpec
  import opened CallbackFrame
  import opened CallbackRounds

  // ---------------------------------------------------------------- rounds without empty

  predicate NoEmpties(s: seq<Script>) {
    forall k :: 0 <= k < |s| ==> forall op :: op in s[k].ops ==> !op.Empty?
  }

  /** In step, or disabled. */
  predicate Tame(c: Chan) {
    && (c.line.Some? ==> c.gap == NO_GAP)
    && (c.firing ==> c.hist.passed == {})
  }

  predicate AllTame(w: World) {
    && !w.crashed && NoEmpties(w.scripts)
    && forall j :: 0 <= j < |w.chans| ==> Tame(w.chans[j])
  }

  lemma {:induction false} TameStep(w: World, r: World, i: nat)
    requires AllTame(w) && i < |w.chans| == |r.chans| && r.chans == w.chans[i := r.chans[i]]
    requires !r.crashed && r.scripts == w.scripts && Tame(r.chans[i])
    ensures AllTame(r)
  {
  }

  lemma {:induction false} EnrolTame(w: World, i: nat, fs: seq<Fn>)
    requires AllTame(w) && i < |w.chans| && w.chans[i].line.Some?
    ensures AllTame(Enrol(w, i, fs))
    decreases |fs|
  {
    if fs != [] {
      var w1 := EnrolOne(w, i, fs[0]);
      TameStep(w, w1, i);
      EnrolTame(w1, i, fs[1..]);
    }
  }

  lemma {:induction false} RemoveTame(w: World, i: nat, fs: seq<Fn>)
    requires AllTame(w) && i < |w.chans| && w.chans[i].line.Some?
    ensures AllTame(RemoveAll(w, i, fs))
    decreases |fs|
  {
    if fs != [] {
      var w1 := RemoveOne(w, i, fs[0]);
      TameStep(w, w1, i);
      RemoveTame(w1, i, fs[1..]);
    }
  }

  lemma {:induction false} DropTame(w: World, i: nat)
    requires AllTame(w)
    ensures AllTame(DisableChan(w, i)) && AllTame(LockChan(w, i))
  {
    if i < |w.chans| {
      var w1 := w.(chans := w.chans[i := w.chans[i].(queue := None)]);
      TameStep(w, w1, i);
      TameStep(w1, DisableChan(w1, i), i);
      TameStep(w, DisableChan(w, i), i);
    }
  }

  lemma {:induction false} DoTame(w: World, op: Op)
    requires AllTame(w) && !op.Empty?
    ensures AllTame(Do(w, op))
    decreases |w.scripts|, 1, 0, 0, 0
  {
    var i := op.on;
    if i < |w.chans| {
      var c := w.chans[i];
      match op
      case Add(_, fs) =>
        if c.line.Some? {
          EnrolTame(w, i, fs);
          assert Repair(w, i) == w;
          if !c.firing && c.memory.Kept? {
            RoundTame(Enrol(w, i, fs), i, |Whole(c.line.value)|, c.memory.args);
          }
        }
      case Remove(_, fs) =>
        if c.line.Some? {
          RemoveTame(w, i, fs);
        }
      case FireWith(_, a) =>
        if c.queue.Some? && c.firing && !c.flags.once {
          TameStep(w, Enqueue(w, i, a), i);
        } else if c.queue.Some? && !c.firing && c.line.Some? && !(c.flags.once && c.memory != Unfired) {
          RoundTame(w, i, 0, a);
        }
      case Disable(_) => DropTame(w, i);
      case Lock(_) => DropTame(w, i);
    }
  }

  lemma {:induction false} DoAllTame(w: World, ops: seq<Op>)
    requires AllTame(w) && forall op :: op in ops ==> !op.Empty?
    ensures AllTame(DoAll(w, ops))
    decreases |w.scripts|, 2, |ops|, 0, 0
  {
    if ops != [] {
      DoTame(w, ops[0]);
      DoAllTame(Do(w, ops[0]), ops[1..]);
    }
  }

  lemma {:induction false} BodyTame(w: World, f: Fn)
    requires AllTame(w)
    ensures AllTame(Body(w, f))
    decreases |w.scripts|, 0, 0, 0, 0
  {
    match f
    case User(_) =>
      if w.scripts != [] {
        assert forall op :: op in w.scripts[0].ops ==> !op.Empty?;
        DoAllTame(w.(scripts := w.scripts[1..]), w.scripts[0].ops);
      }
    case Disabler(j) => DropTame(w, j);
    case Locker(j) => DropTame(w, j);
    case Setter(_) =>
  }

  lemma {:induction false} LoopTame(w: World, i: nat)
    requires AllTame(w) && i < |w.chans|
    ensures AllTame(Loop(w, i))
    decreases |w.scripts|, 0, QueueLen(w.chans[i]), 1, NextLen(w.chans[i])
  {
    if HasNext(w, i) {
      var f := w.chans[i].line.value.next[0].fn;
      var w1 := Advance(w, i);
      TameStep(w, w1, i);
      BodyTame(w1, f);
      var w2 := Body(w1, f);
      if Stops(w1, f) && w.chans[i].flags.stopOnFalse {
        TameStep(w2, Halt(w2, i), i);
      } else {
        LoopTame(w2, i);
      }
    }
  }

  lemma {:induction false} RoundTame(w: World, i: nat, start: nat, a: Args)
    requires AllTame(w) && i < |w.chans| && w.chans[i].line.Some? && start <= |Whole(w.chans[i].line.value)|
    ensures AllTame(Round(w, i, start, a))
    decreases |w.scripts|, 0, QueueLen(w.chans[i]), 3, 0
  {
    TameStep(w, Begin(w, i, start, a), i);
    LoopTame(Begin(w, i, start, a), i);
    FinishTame(Loop(Begin(w, i, start, a), i), i);
  }

  lemma {:induction false} FinishTame(w: World, i: nat)
    requires AllTame(w) && i < |w.chans|
    ensures AllTame(Finish(w, i))
    decreases |w.scripts|, 0, QueueLen(w.chans[i]), 2, 0
  {
    var c := w.chans[i];
    var w1 := Quiet(w, i);
    TameStep(w, w1, i);
    if c.line.Some? && c.flags.once {
      TameStep(w1, Clear(w1, i), i);
      DropTame(w1, i);
    } else if c.line.Some? && c.queue.Some? && c.queue.value != [] {
      TameStep(w1, Dequeue(w1, i), i);
      RoundTame(Dequeue(w1, i), i, 0, c.queue.value[0]);
    }
  }

  /** If callbacks do not call `empty`, a round calls everybody it is about who was not taken off the list
      before their turn, and nothing that is not there, whatever they add, remove, fire, lock and
      disable. */
  lemma {:induction false} RoundsWithoutEmptyForgetNobody(w: World, i: nat, start: nat, a: Args)
    requires Ready(w, i) && AllTame(w) && start <= |Listing(w, i)| && !w.chans[i].flags.stopOnFalse
    ensures var r := Served(w, i, start, a);
            && !r.crashed && w.chans[i].hist.enrolled <= r.chans[i].hist.enrolled
            && NobodyForgotten(r.chans[i], Concerned(w, r, i, start))
            && r.chans[i].hist.ran == Keep(Concerned(w, r, i, start), r.chans[i].hist.dropped)
            && (forall e :: e in Concerned(w, r, i, start) ==>
                  (e in r.chans[i].hist.ran <==> !LostTurn(r.chans[i].hist.deeds, e)))
  {
    var w1 := Begin(w, i, start, a);
    TameStep(w, w1, i);
    LoopTame(w1, i);
    var r := Served(w, i, start, a);
    RoundCallsEachEntryOnce(w, i, start, a);
    LoopCalm(w1, i);
    var h := r.chans[i].hist;
    assert Tame(r.chans[i]) && h.passed == {} && h.dropped + h.passed == h.dropped;
  }

  /** Runs in which callbacks do not call `empty`; between rounds it may be called. */
  lemma {:induction false} RunsWithoutEmptyDoNotCrash(flags: seq<Flags>, turns: seq<Turn>)
    requires forall k :: 0 <= k < |turns| ==> NoEmpties(turns[k].scripts)
    ensures AllTame(Run(Start(flags), turns))
  {
    if turns != [] {
      var n := |turns| - 1;
      RunsWithoutEmptyDoNotCrash(flags, turns[..n]);
      EveryRunIsGood(flags, turns[..n]);
      var w := Run(Start(flags), turns[..n]).(scripts := turns[n].scripts);
      if turns[n].op.Empty? {
        EmptyBetweenRounds(w, turns[n].op.on);
      } else {
        DoTame(w, turns[n].op);
      }
    }
  }

  lemma {:induction false} EmptyBetweenRounds(w: World, i: nat)
    requires AllTame(w) && Good(w) && (i < |w.chans| ==> !w.chans[i].firing)
    ensures AllTame(Do(w, Empty(i)))
  {
    if i < |w.chans| {
      assert Sound(w.chans[i], w.nextId);
      TameStep(w, EmptyChan(w, i), i);
    }
  }

  // ---------------------------------------------------------------- empty in a round

  lemma {:induction false} DoAllThen(w: World, a: seq<Op>, b: seq<Op>)
    ensures DoAll(w, a + b) == DoAll(DoAll(w, a), b)
    decreases |a|
  {
    if a == [] {
      assert a + b == b;
    } else {
      assert (a + b)[1..] == a[1..] + b;
      DoAllThen(Do(w, a[0]), a[1..], b);
    }
  }

  /** A callback whose last act is to empty its own list ends the round, whatever it did before: with an
      error if and only if the round stood before the recorded end, which in a round in step means that
      somebody was waiting; otherwise quietly. */
  lemma {:induction false} EmptyEndsTheRound(w: World, i: nat, ops: seq<Op>, w2: World)
    requires HasNext(w, i) && !w.crashed && w.chans[i].firing && w.chans[i].line.value.next[0].fn.User?
    requires w.scripts != [] && w.scripts[0].ops == ops + [Empty(i)] && !w.scripts[0].stop
    requires w2 == DoAll(Advance(w, i).(scripts := w.scripts[1..]), ops) && !w2.crashed
    ensures i < |w2.chans|
    ensures var c := w2.chans[i];
            && (Loop(w, i).crashed <==> PastLen(c) + c.gap.skip < ListLen(c) + c.gap.missing)
            && (c.gap == NO_GAP ==> (Loop(w, i).crashed <==> NextLen(c) != 0))
            && (!Loop(w, i).crashed ==> Loop(w, i) == EmptyChan(w2, i))
  {
    var w1 := Advance(w, i).(scripts := w.scripts[1..]);
    DoAllCalm(w1, ops);
    assert Undisturbed(w1.chans[i], w2.chans[i]);
    DoAllThen(w1, ops, [Empty(i)]);
    var w3 := EmptyChan(w2, i);
    assert [Empty(i)][1..] == [] && DoAll(w3, []) == w3;
    assert Body(Advance(w, i), w.chans[i].line.value.next[0].fn) == w3;
    assert Loop(w, i) == Loop(w3, i);
  }

  function Least(a: nat, b: nat): nat {
    if a < b then a else b
  }

  /** The entries that `fs` make when the next number is `n`. */
  function NewEntries(fs: seq<Fn>, n: nat): (r: seq<Entry>)
    ensures |r| == |fs| && forall k :: 0 <= k < |fs| ==> r[k] == Entry(fs[k], n + k)
  {
    seq(|fs|, k requires 0 <= k < |fs| => Entry(fs[k], n + k))
  }

  lemma {:induction false} NewEntriesCons(fs: seq<Fn>, n: nat)
    requires fs != []
    ensures NewEntries(fs, n) == [Entry(fs[0], n)] + NewEntries(fs[1..], n + 1)
  {
  }

  lemma {:induction false} Regroup(s: seq<Entry>, t: seq<Entry>, u: seq<Entry>)
    ensures s + t + u == s + (t + u)
  {
  }

  lemma {:induction false} IdsConcat(s: seq<Entry>, t: seq<Entry>)
    ensures AllIds(s + t) == AllIds(s) + AllIds(t)
  {
    assert forall x :: x in s + t <==> x in s || x in t;
  }

  /** Entries `s` have joined the end of the waiting half. */
  predicate Waits(c: Chan, d: Chan, s: seq<Entry>) {
    && c.line.Some? && c.flags == d.flags
    && d.line == Some(Line(c.line.value.past, c.line.value.next + s))
    && d.hist.enrolled == c.hist.enrolled + s && d.gap == c.gap
    && d.hist.passed == c.hist.passed && d.hist.dropped == c.hist.dropped
  }

  /** Entries `s` have joined at positions the round has passed. */
  predicate Passed(c: Chan, d: Chan, s: seq<Entry>) {
    && c.line.Some? && c.flags == d.flags && |s| <= c.gap.skip && c.line.value.next == []
    && d.line == Some(Line(c.line.value.past + s, [])) && d.gap == c.gap.(skip := c.gap.skip - |s|)
    && d.hist.enrolled == c.hist.enrolled + s
    && d.hist.passed == c.hist.passed + AllIds(s) && d.hist.dropped == c.hist.dropped
  }

  lemma {:induction false} WaitsThen(c: Chan, c1: Chan, d: Chan, s: seq<Entry>, t: seq<Entry>)
    requires Waits(c, c1, s) && Waits(c1, d, t)
    ensures Waits(c, d, s + t)
  {
    Regroup(c.line.value.next, s, t);
    Regroup(c.hist.enrolled, s, t);
  }

  lemma {:induction false} PassedThen(c: Chan, c1: Chan, d: Chan, s: seq<Entry>, t: seq<Entry>)
    requires Passed(c, c1, s) && Passed(c1, d, t)
    ensures Passed(c, d, s + t)
  {
    Regroup(c.line.value.past, s, t);
    Regroup(c.hist.enrolled, s, t);
    IdsConcat(s, t);
  }

  lemma {:induction false} NoneJoins(c: Chan)
    requires c.line.Some?
    ensures Waits(c, c, []) && (c.line.value.next == [] ==> Passed(c, c, []))
  {
    assert AllIds([]) == {};
    assert c.line.value.next + [] == c.line.value.next && c.line.value.past + [] == c.line.value.past;
    assert c.hist.enrolled + [] == c.hist.enrolled;
  }

  lemma {:induction false} OneJoins(w: World, i: nat, f: Fn)
    requires i < |w.chans| && w.chans[i].line.Some? && !w.chans[i].flags.unique
    ensures var c, d, e := w.chans[i], EnrolOne(w, i, f).chans[i], Entry(f, w.nextId);
            if BehindTheEnd(c) then Passed(c, d, [e]) else Waits(c, d, [e])
    ensures EnrolOne(w, i, f).nextId == w.nextId + 1
  {
    var e := Entry(f, w.nextId);
    assert AllIds([e]) == {e.id};
  }

  /** Entries that join a list whose round is in step. */
  lemma {:induction false} EnrolWaits(w: World, i: nat, fs: seq<Fn>)
    requires i < |w.chans| && w.chans[i].line.Some? && !w.chans[i].flags.unique && w.chans[i].gap.skip == 0
    ensures Waits(w.chans[i], Enrol(w, i, fs).chans[i], NewEntries(fs, w.nextId))
    decreases |fs|
  {
    if fs == [] {
      NoneJoins(w.chans[i]);
      assert NewEntries(fs, w.nextId) == [];
    } else {
      var w1 := EnrolOne(w, i, fs[0]);
      OneJoins(w, i, fs[0]);
      EnrolWaits(w1, i, fs[1..]);
      NewEntriesCons(fs, w.nextId);
      WaitsThen(w.chans[i], w1.chans[i], Enrol(w, i, fs).chans[i],
                [Entry(fs[0], w.nextId)], NewEntries(fs[1..], w.nextId + 1));
    }
  }

  lemma {:induction false} EnrolPasses(w: World, i: nat, fs: seq<Fn>)
    requires i < |w.chans| && w.chans[i].line.Some? && !w.chans[i].flags.unique
    requires w.chans[i].line.value.next == [] && |fs| <= w.chans[i].gap.skip
    ensures Passed(w.chans[i], Enrol(w, i, fs).chans[i], NewEntries(fs, w.nextId))
    ensures Enrol(w, i, fs).nextId == w.nextId + |fs|
    decreases |fs|
  {
    if fs == [] {
      NoneJoins(w.chans[i]);
      assert NewEntries(fs, w.nextId) == [];
    } else {
      var w1 := EnrolOne(w, i, fs[0]);
      OneJoins(w, i, fs[0]);
      var r := Enrol(w1, i, fs[1..]);
      EnrolPasses(w1, i, fs[1..]);
      NewEntriesCons(fs, w.nextId);
      assert Enrol(w, i, fs) == r && w1.nextId == w.nextId + 1;
      PassedThen(w.chans[i], w1.chans[i], r.chans[i], [Entry(fs[0], w.nextId)], NewEntries(fs[1..], w1.nextId));
    }
  }

  /** New entries on a list that is out of step: the first ones are passed over. */
  lemma {:induction false} EnrolOutOfStep(w: World, i: nat, fs: seq<Fn>)
    requires i < |w.chans| && w.chans[i].line == Some(Line([], [])) && !w.chans[i].flags.unique
    ensures var c, d := w.chans[i], Enrol(w, i, fs).chans[i];
            var n := Least(c.gap.skip, |fs|);
            var s := NewEntries(fs, w.nextId);
            && d.line == Some(Line(s[..n], s[n..])) && d.hist.enrolled == c.hist.enrolled + s
            && d.hist.passed == c.hist.passed + AllIds(s[..n])
            && d.hist.dropped == c.hist.dropped && d.gap.missing == c.gap.missing
  {
    var n := Least(w.chans[i].gap.skip, |fs|);
    var w1 := Enrol(w, i, fs[..n]);
    var s1, s2 := NewEntries(fs[..n], w.nextId), NewEntries(fs[n..], w.nextId + n);
    NewEntriesSplit(fs, n, w.nextId);
    EnrolMore(w, i, fs[..n], fs[n..]);
    EnrolPasses(w, i, fs[..n]);
    RestWaits(w1, i, fs[n..]);
    PassedThenWaits(w.chans[i], w1.chans[i], Enrol(w, i, fs).chans[i], s1, s2);
  }

  lemma {:induction false} NewEntriesSplit(fs: seq<Fn>, n: nat, id: nat)
    requires n <= |fs|
    ensures NewEntries(fs[..n], id) == NewEntries(fs, id)[..n] && NewEntries(fs[n..], id + n) == NewEntries(fs, id)[n..]
    ensures fs == fs[..n] + fs[n..] && NewEntries(fs, id) == NewEntries(fs[..n], id) + NewEntries(fs[n..], id + n)
  {
    var s, s1, s2 := NewEntries(fs, id), NewEntries(fs[..n], id), NewEntries(fs[n..], id + n);
    forall k | 0 <= k < n ensures s1[k] == s[..n][k] {
      assert fs[..n][k] == fs[k];
    }
    forall k | 0 <= k < |fs| - n ensures s2[k] == s[n..][k] {
      assert fs[n..][k] == fs[n + k];
    }
    assert s1 == s[..n] && s2 == s[n..];
  }

  lemma {:induction false} RestWaits(w: World, i: nat, fs: seq<Fn>)
    requires i < |w.chans| && w.chans[i].line.Some? && !w.chans[i].flags.unique
    requires w.chans[i].gap.skip == 0 || fs == []
    ensures Waits(w.chans[i], Enrol(w, i, fs).chans[i], NewEntries(fs, w.nextId))
  {
    if fs == [] {
      NoneJoins(w.chans[i]);
      assert NewEntries(fs, w.nextId) == [];
    } else {
      EnrolWaits(w, i, fs);
    }
  }

  lemma {:induction false} PassedThenWaits(c: Chan, c1: Chan, d: Chan, s: seq<Entry>, t: seq<Entry>)
    requires Passed(c, c1, s) && Waits(c1, d, t) && c.line == Some(Line([], []))
    ensures d.line == Some(Line(s, t)) && d.hist.enrolled == c.hist.enrolled + (s + t)
    ensures d.hist.passed == c.hist.passed + AllIds(s) && d.hist.dropped == c.hist.dropped
    ensures d.gap.missing == c.gap.missing
  {
    assert [] + s == s && [] + t == t;
    Regroup(c.hist.enrolled, s, t);
  }

  /** What `empty` followed by `add` does to a round: of the new entries exactly as many go without a turn
      as the round has positions behind it.  So the round stays in order if and only if it has none, or
      nothing is added. */
  lemma {:induction false} EmptyThenAdd(w: World, i: nat, fs: seq<Fn>)
    requires !w.crashed && i < |w.chans| && w.chans[i].firing && w.chans[i].line.Some?
    requires !w.chans[i].flags.unique && w.chans[i].hist.passed == {}
    ensures var c := w.chans[i];
            var d := DoAll(w, [Empty(i), Add(i, fs)]).chans[i];
            var n := Least(PastLen(c) + c.gap.skip, |fs|);
            var s := NewEntries(fs, w.nextId);
            && d.line == Some(Line(s[..n], s[n..])) && d.hist.enrolled == c.hist.enrolled + s
            && d.hist.passed == AllIds(s[..n]) && d.hist.dropped == c.hist.dropped + AllIds(c.line.value.next)
            && (d.hist.passed == {} <==> PastLen(c) + c.gap.skip == 0 || fs == [])
            && !Overruns(d)
  {
    var c, w1 := w.chans[i], EmptyChan(w, i);
    var w2 := Repair(w1, i);
    EnrolOutOfStep(w2, i, fs);
    TwoOps(w, w1, Enrol(w2, i, fs), [Empty(i), Add(i, fs)]);
    var s, n := NewEntries(fs, w.nextId), Least(PastLen(c) + c.gap.skip, |fs|);
    NoIds(s, n);
    assert c.hist.dropped + AllIds(c.line.value.next) + {} == c.hist.dropped + AllIds(c.line.value.next);
  }

  lemma {:induction false} NoIds(s: seq<Entry>, n: nat)
    requires n <= |s|
    ensures AllIds(s[..n]) == {} <==> n == 0
  {
    if n > 0 {
      assert s[..n][0].id in AllIds(s[..n]);
    }
  }

  lemma {:induction false} TwoOps(w: World, w1: World, w2: World, ops: seq<Op>)
    requires |ops| == 2 && Do(w, ops[0]) == w1 && Do(w1, ops[1]) == w2
    ensures DoAll(w, ops) == w2
  {
    assert ops[1..][0] == ops[1] && ops[1..][1..] == [];
    assert DoAll(w2, []) == w2 && DoAll(w1, ops[1..]) == w2;
  }

  /** A round over one function that empties its own list and adds another one: nobody was waiting, the
      other function is on the list, and it is not called. */
  lemma {:induction false} EmptyThenAddForgets(w: World, i: nat, a: Args, g: Fn)
    requires Ready(w, i) && |Listing(w, i)| == 1 && Listing(w, i)[0].fn.User?
    requires !w.chans[i].flags.unique && !w.chans[i].flags.stopOnFalse
    requires |w.scripts| == 1 && w.scripts[0].ops == [Empty(i), Add(i, [g])]
    ensures var r := Served(w, i, 0, a);
            && !r.crashed && w.chans[i].hist.enrolled <= r.chans[i].hist.enrolled
            && r.chans[i].line.Some? && Fns(Whole(r.chans[i].line.value)) == [g]
            && !NobodyForgotten(r.chans[i], Concerned(w, r, i, 0))
  {
    var w1 := Begin(w, i, 0, a);
    var e := Listing(w, i)[0];
    assert w1.chans[i].line.value.next == [e];
    var w2 := Advance(w1, i);
    assert w2.chans[i].line.value == Line([e], []);
    var w3 := w2.(scripts := w2.scripts[1..]);
    EmptyThenAdd(w3, i, [g]);
    var w4 := DoAll(w3, [Empty(i), Add(i, [g])]);
    assert Body(w2, e.fn) == w4;
    var d, s := w4.chans[i], NewEntries([g], w3.nextId);
    assert s[..1] == s && s[1..] == [] && s[0].id in AllIds(s) && AllIds([]) == {};
    CrashesNot(w3, i, g);
    assert Loop(w4, i) == w4 && Loop(w1, i) == w4;
    assert Whole(d.line.value) == s && Fns(s) == [g];
    RoundCallsEachEntryOnce(w, i, 0, a);
  }

  lemma {:induction false} CrashesNot(w: World, i: nat, g: Fn)
    requires !w.crashed && i < |w.chans| && w.chans[i].firing && w.chans[i].line.Some?
    ensures !DoAll(w, [Empty(i), Add(i, [g])]).crashed
  {
    var w1 := EmptyChan(w, i);
    TwoOps(w, w1, Enrol(Repair(w1, i), i, [g]), [Empty(i), Add(i, [g])]);
  }

  /** A round in which the first of several functions empties its own list and leaves it at that. */
  lemma {:induction false} EmptyAloneCrashes(w: World, i: nat, a: Args)
    requires Ready(w, i) && |Listing(w, i)| > 1 && Listing(w, i)[0].fn.User?
    requires |w.scripts| == 1 && w.scripts[0].ops == [Empty(i)] && !w.scripts[0].stop
    ensures Served(w, i, 0, a).crashed
  {
    var w1 := Begin(w, i, 0, a);
    var list := Listing(w, i);
    assert list[0..] == list && w1.chans[i].line.value.next == list;
    assert [Empty(i)] == [] + [Empty(i)];
    EmptyEndsTheRound(w1, i, [], Advance(w1, i).(scripts := w1.scripts[1..]));
  }

  // ---------------------------------------------------------------- disabled lists

  /** Disabled at some time and not firing; `empty` may have given it a new array since. */
  predicate Mute(w: World, i: nat) {
    && i < |w.chans|
    && !w.chans[i].firing && w.chans[i].queue.None? && w.chans[i].memory == Unfired
  }

  /** List `i` stays mute and makes no call. */
  predicate StaysMute(w: World, r: World, i: nat) {
    Mute(r, i) && On(r.log, i) == On(w.log, i)
  }

  lemma {:induction false} EnrolMute(w: World, i: nat, fs: seq<Fn>)
    requires Mute(w, i) && w.chans[i].line.Some?
    ensures Mute(Enrol(w, i, fs), i)
    decreases |fs|
  {
    if fs != [] {
      EnrolMute(EnrolOne(w, i, fs[0]), i, fs[1..]);
    }
  }

  lemma {:induction false} RemoveMute(w: World, i: nat, fs: seq<Fn>)
    requires Mute(w, i) && w.chans[i].line.Some?
    ensures Mute(RemoveAll(w, i, fs), i)
    decreases |fs|
  {
    if fs != [] {
      RemoveMute(RemoveOne(w, i, fs[0]), i, fs[1..]);
    }
  }

  lemma {:induction false} DoMute(w: World, op: Op, i: nat)
    requires Mute(w, i)
    ensures StaysMute(w, Do(w, op), i)
    decreases |w.scripts|, 1, 0, 0, 0
  {
    var j := op.on;
    if !w.crashed && j < |w.chans| {
      var c := w.chans[j];
      match op
      case Add(_, fs) =>
        if c.line.Some? {
          if i == j {
            EnrolMute(Repair(w, i), i, fs);
          } else {
            EnrolElsewhere(Repair(w, j), j, fs);
            if !c.firing && c.memory.Kept? {
              RoundMute(Enrol(Repair(w, j), j, fs), j, |Whole(c.line.value)|, c.memory.args, i);
            }
          }
        }
      case Remove(_, fs) =>
        if c.line.Some? {
          if i == j {
            RemoveMute(w, i, fs);
          } else {
            RemoveElsewhere(w, j, fs);
          }
        }
      case FireWith(_, a) =>
        if c.queue.Some? && !c.firing && c.line.Some? && !(c.flags.once && c.memory != Unfired) {
          RoundMute(w, j, 0, a, i);
        }
      case _ =>
    }
  }

  lemma {:induction false} DoAllMute(w: World, ops: seq<Op>, i: nat)
    requires Mute(w, i)
    ensures StaysMute(w, DoAll(w, ops), i)
    decreases |w.scripts|, 2, |ops|, 0, 0
  {
    if ops != [] {
      DoMute(w, ops[0], i);
      DoAllMute(Do(w, ops[0]), ops[1..], i);
    }
  }

  lemma {:induction false} BodyMute(w: World, f: Fn, i: nat)
    requires Mute(w, i)
    ensures StaysMute(w, Body(w, f), i)
    decreases |w.scripts|, 0, 0, 0, 0
  {
    if f.User? && w.scripts != [] {
      DoAllMute(w.(scripts := w.scripts[1..]), w.scripts[0].ops, i);
    }
  }

  lemma {:induction false} LoopMute(w: World, j: nat, i: nat)
    requires Mute(w, i) && j < |w.chans| && i != j
    ensures StaysMute(w, Loop(w, j), i)
    decreases |w.scripts|, 0, QueueLen(w.chans[j]), 1, NextLen(w.chans[j])
  {
    if !w.crashed && HasNext(w, j) {
      var e := w.chans[j].line.value.next[0];
      var w1 := Advance(w, j);
      OnAppend(w.log, Call(j, e, w.chans[j].hist.args), i);
      BodyMute(w1, e.fn, i);
      var w2 := Body(w1, e.fn);
      if !(!w2.crashed && Stops(w1, e.fn) && w.chans[j].flags.stopOnFalse) {
        LoopMute(w2, j, i);
      }
    }
  }

  lemma {:induction false} RoundMute(w: World, j: nat, start: nat, a: Args, i: nat)
    requires Mute(w, i) && i != j
    requires j < |w.chans| && w.chans[j].line.Some? && start <= |Whole(w.chans[j].line.value)|
    ensures StaysMute(w, Round(w, j, start, a), i)
    decreases |w.scripts|, 0, QueueLen(w.chans[j]), 3, 0
  {
    LoopMute(Begin(w, j, start, a), j, i);
    if !Loop(Begin(w, j, start, a), j).crashed {
      FinishMute(Loop(Begin(w, j, start, a), j), j, i);
    }
  }

  lemma {:induction false} FinishMute(w: World, j: nat, i: nat)
    requires Mute(w, i) && j < |w.chans| && i != j
    ensures StaysMute(w, Finish(w, j), i)
    decreases |w.scripts|, 0, QueueLen(w.chans[j]), 2, 0
  {
    var c := w.chans[j];
    var w1 := Quiet(w, j);
    if c.line.Some? && !c.flags.once && c.queue.Some? && c.queue.value != [] {
      RoundMute(Dequeue(w1, j), j, 0, c.queue.value[0], i);
    }
  }

  /** A list that is disabled between rounds never calls anything again, whatever is done to it, even if
      `empty` gives it a new array and functions are added to that. */
  lemma {:induction false} DisabledListIsSilent(w: World, i: nat, turns: seq<Turn>)
    requires i < |w.chans| && !w.chans[i].firing && !w.crashed
    ensures StaysMute(w, Run(Do(w, Disable(i)), turns), i)
  {
    var d := Do(w, Disable(i));
    if turns != [] {
      var n := |turns| - 1;
      DisabledListIsSilent(w, i, turns[..n]);
      DoMute(Run(d, turns[..n]).(scripts := turns[n].scripts), turns[n].op, i);
    }
  }
}
