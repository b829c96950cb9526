/** Nested operations leave every round in progress where it was. */
module CallbackFrame {
  import opened Options
  import opened CallbackSpec

  /** `d` is a later state of list `c`: same flags, nothing registered or postponed is forgotten, a locked
      list stays locked, and one that has fired has fired for good, unless it is locked. */
  predicate Continues(c: Chan, d: Chan) {
    && c.flags == d.flags && (c.queue.None? ==> d.queue.None?)
    && (c.memory != Unfired ==> d.memory != Unfired || d.queue.None?)
    && c.hist.enrolled <= d.hist.enrolled && c.hist.queued <= d.hist.queued && c.hist.resumed <= d.hist.resumed
  }

  /** What has joined the round in progress meanwhile is what was registered meanwhile. */
  predicate Joins(c: Chan, d: Chan)
    requires Continues(c, d)
  {
    d.hist.arrivals == c.hist.arrivals + d.hist.enrolled[|c.hist.enrolled|..]
  }

  /** A later state of the list; if it was firing it still is, and its round has made no further call. */
  predicate Undisturbed(c: Chan, d: Chan) {
    && Continues(c, d)
    && (c.firing ==> d.firing && Joins(c, d))
    && (c.firing ==> c.hist.before == d.hist.before && c.hist.args == d.hist.args && c.hist.ran == d.hist.ran)
    && (c.firing ==> c.hist.resumed == d.hist.resumed && (d.memory == c.memory || d.memory == Unfired))
  }

  /** Unless an error ended everything, no list has started or stopped firing. */
  predicate Calm(w: World, r: World) {
    && |w.chans| == |r.chans|
    && (forall j :: 0 <= j < |w.chans| ==> Undisturbed(w.chans[j], r.chans[j]))
    && (!r.crashed ==> forall j :: 0 <= j < |w.chans| ==> w.chans[j].firing == r.chans[j].firing)
  }

  /** Calm everywhere but on list `i`, which keeps its flags. */
  predicate CalmBut(w: World, r: World, i: nat) {
    && |w.chans| == |r.chans|
    && (forall j :: 0 <= j < |w.chans| && j != i ==> Undisturbed(w.chans[j], r.chans[j]))
    && (!r.crashed ==> forall j :: 0 <= j < |w.chans| && j != i ==> w.chans[j].firing == r.chans[j].firing)
    && (i < |w.chans| ==> Continues(w.chans[i], r.chans[i]))
  }

  lemma {:induction false} JoinsThen(c: Chan, d: Chan, e: Chan)
    requires Continues(c, d) && Continues(d, e) && Joins(c, d) && Joins(d, e)
    ensures Continues(c, e) && Joins(c, e)
  {
    var k, m := |c.hist.enrolled|, |d.hist.enrolled|;
    assert e.hist.enrolled[..m] == d.hist.enrolled;
    assert e.hist.enrolled[k..] == d.hist.enrolled[k..] + e.hist.enrolled[m..];
  }

  lemma {:induction false} CalmThen(w: World, r: World, s: World)
    requires Calm(w, r) && Calm(r, s) && (r.crashed ==> s.crashed)
    ensures Calm(w, s)
  {
    forall j | 0 <= j < |w.chans| ensures Undisturbed(w.chans[j], s.chans[j]) {
      assert Undisturbed(w.chans[j], r.chans[j]) && Undisturbed(r.chans[j], s.chans[j]);
      if w.chans[j].firing {
        JoinsThen(w.chans[j], r.chans[j], s.chans[j]);
      }
    }
  }

  /** A step that replaces list `i` only. */
  lemma {:induction false} CalmStep(w: World, r: World, i: nat)
    requires i < |w.chans| == |r.chans| && r.chans == w.chans[i := r.chans[i]]
    requires Undisturbed(w.chans[i], r.chans[i]) && (!r.crashed ==> r.chans[i].firing == w.chans[i].firing)
    ensures Calm(w, r)
  {
  }

  lemma {:induction false} EnrolOneCalm(w: World, i: nat, f: Fn)
    requires i < |w.chans| && w.chans[i].line.Some?
    ensures Calm(w, EnrolOne(w, i, f))
    ensures EnrolOne(w, i, f).chans[i].memory == w.chans[i].memory
    ensures EnrolOne(w, i, f).chans[i].queue == w.chans[i].queue
    ensures EnrolOne(w, i, f).crashed == w.crashed
  {
    CalmStep(w, EnrolOne(w, i, f), i);
  }

  lemma {:induction false} EnrolCalm(w: World, i: nat, fs: seq<Fn>)
    requires i < |w.chans| && w.chans[i].line.Some?
    ensures Calm(w, Enrol(w, i, fs))
    ensures Enrol(w, i, fs).chans[i].memory == w.chans[i].memory
    ensures Enrol(w, i, fs).chans[i].queue == w.chans[i].queue
    decreases |fs|
  {
    if fs != [] {
      EnrolOneCalm(w, i, fs[0]);
      EnrolCalm(EnrolOne(w, i, fs[0]), i, fs[1..]);
      CalmThen(w, EnrolOne(w, i, fs[0]), Enrol(w, i, fs));
    }
  }

  lemma {:induction false} EnrolMore(w: World, i: nat, a: seq<Fn>, b: seq<Fn>)
    requires i < |w.chans| && w.chans[i].line.Some?
    ensures Enrol(w, i, a + b) == Enrol(Enrol(w, i, a), i, b)
    decreases |a|
  {
    if a == [] {
      assert a + b == b;
    } else {
      assert (a + b)[1..] == a[1..] + b;
      EnrolMore(EnrolOne(w, i, a[0]), i, a[1..], b);
    }
  }

  lemma {:induction false} EnrolElsewhere(w: World, i: nat, fs: seq<Fn>)
    requires i < |w.chans| && w.chans[i].line.Some?
    ensures forall j :: 0 <= j < |w.chans| && j != i ==> Enrol(w, i, fs).chans[j] == w.chans[j]
    decreases |fs|
  {
    if fs != [] {
      EnrolElsewhere(EnrolOne(w, i, fs[0]), i, fs[1..]);
    }
  }

  lemma {:induction false} RemoveElsewhere(w: World, i: nat, fs: seq<Fn>)
    requires i < |w.chans| && w.chans[i].line.Some?
    ensures forall j :: 0 <= j < |w.chans| && j != i ==> RemoveAll(w, i, fs).chans[j] == w.chans[j]
    decreases |fs|
  {
    if fs != [] {
      RemoveElsewhere(RemoveOne(w, i, fs[0]), i, fs[1..]);
    }
  }

  lemma {:induction false} RemoveCalm(w: World, i: nat, fs: seq<Fn>)
    requires i < |w.chans| && w.chans[i].line.Some?
    ensures Calm(w, RemoveAll(w, i, fs))
    decreases |fs|
  {
    if fs != [] {
      CalmStep(w, RemoveOne(w, i, fs[0]), i);
      RemoveCalm(RemoveOne(w, i, fs[0]), i, fs[1..]);
      CalmThen(w, RemoveOne(w, i, fs[0]), RemoveAll(w, i, fs));
    }
  }

  lemma {:induction false} DropCalm(w: World, i: nat)
    ensures Calm(w, DisableChan(w, i)) && Calm(w, LockChan(w, i)) && Calm(w, EmptyChan(w, i))
  {
    if i < |w.chans| {
      CalmStep(w, DisableChan(w, i), i);
      CalmStep(w, EmptyChan(w, i), i);
      CalmStep(w, LockChan(w, i), i);
    }
  }

  lemma {:induction false} AddCalm(w: World, i: nat, fs: seq<Fn>)
    requires i < |w.chans| && w.chans[i].line.Some?
    ensures Calm(w, Enrol(Repair(w, i), i, fs))
    ensures var r := Enrol(Repair(w, i), i, fs);
            r.chans[i].memory == w.chans[i].memory && r.chans[i].queue == w.chans[i].queue && r.crashed == w.crashed
  {
    CalmStep(w, Repair(w, i), i);
    EnrolCalm(Repair(w, i), i, fs);
    CalmThen(w, Repair(w, i), Enrol(Repair(w, i), i, fs));
  }

  lemma {:induction false} DoCalm(w: World, op: Op)
    ensures Calm(w, Do(w, op))
    decreases |w.scripts|, 1, 0, 0, 0
  {
    var i := op.on;
    if !w.crashed && i < |w.chans| {
      var c := w.chans[i];
      match op
      case Add(_, fs) =>
        if c.line.Some? {
          AddCalm(w, i, fs);
          if !c.firing && c.memory.Kept? {
            var w1 := Enrol(Repair(w, i), i, fs);
            RoundCalm(w1, i, |Whole(c.line.value)|, c.memory.args);
            CalmThen(w, w1, Do(w, op));
          }
        }
      case Remove(_, fs) =>
        if c.line.Some? {
          RemoveCalm(w, i, fs);
        }
      case FireWith(_, a) =>
        if c.queue.Some? && !c.firing && c.line.Some? && !(c.flags.once && c.memory != Unfired) {
          RoundCalm(w, i, 0, a);
        }
      case _ => DropCalm(w, i);
    }
  }

  lemma {:induction false} DoAllCalm(w: World, ops: seq<Op>)
    ensures Calm(w, DoAll(w, ops))
    decreases |w.scripts|, 2, |ops|, 0, 0
  {
    if ops != [] {
      DoCalm(w, ops[0]);
      DoAllCalm(Do(w, ops[0]), ops[1..]);
      CalmThen(w, Do(w, ops[0]), DoAll(w, ops));
    }
  }

  lemma {:induction false} BodyCalm(w: World, f: Fn)
    ensures Calm(w, Body(w, f))
    decreases |w.scripts|, 0, 0, 0, 0
  {
    match f
    case User(_) =>
      if w.scripts != [] {
        DoAllCalm(w.(scripts := w.scripts[1..]), w.scripts[0].ops);
      }
    case Disabler(j) => DropCalm(w, j);
    case Locker(j) => DropCalm(w, j);
    case Setter(_) =>
  }

  /** The round of list `i` goes on; elsewhere all is calm. */
  predicate Serves(w: World, r: World, i: nat) {
    && CalmBut(w, r, i) && i < |w.chans| && r.chans[i].firing
    && r.chans[i].hist.before == w.chans[i].hist.before && r.chans[i].hist.args == w.chans[i].hist.args
    && r.chans[i].hist.resumed == w.chans[i].hist.resumed
    && Joins(w.chans[i], r.chans[i])
    && (w.chans[i].flags.stopOnFalse || r.chans[i].memory == w.chans[i].memory || r.chans[i].memory == Unfired)
  }

  lemma {:induction false} CalmServes(w: World, r: World, i: nat)
    requires Calm(w, r) && i < |w.chans| && w.chans[i].firing
    ensures Serves(w, r, i)
  {
    assert Undisturbed(w.chans[i], r.chans[i]);
  }

  /** A step of the round itself. */
  lemma {:induction false} StepServes(w: World, r: World, i: nat)
    requires i < |w.chans| == |r.chans| && r.chans == w.chans[i := r.chans[i]] && r.chans[i].firing
    requires w.chans[i].flags == r.chans[i].flags && (w.chans[i].queue.None? ==> r.chans[i].queue.None?)
    requires r.chans[i].memory == w.chans[i].memory || (r.chans[i].memory == Halted && w.chans[i].flags.stopOnFalse)
    requires w.chans[i].hist.(ran := [], deeds := []) == r.chans[i].hist.(ran := [], deeds := [])
    ensures Serves(w, r, i)
  {
    var c, d := w.chans[i], r.chans[i];
    var h := c.hist.(ran := [], deeds := []);
    assert h.enrolled == d.hist.enrolled && h.arrivals == d.hist.arrivals;
    assert h.before == d.hist.before && h.args == d.hist.args;
    assert h.queued == d.hist.queued && h.resumed == d.hist.resumed;
    assert c.hist.arrivals + [] == c.hist.arrivals;
  }

  lemma {:induction false} ServesThen(w: World, r: World, s: World, i: nat)
    requires Serves(w, r, i) && Serves(r, s, i) && (r.crashed ==> s.crashed)
    ensures Serves(w, s, i)
  {
    JoinsThen(w.chans[i], r.chans[i], s.chans[i]);
    forall j | 0 <= j < |w.chans| && j != i ensures Undisturbed(w.chans[j], s.chans[j]) {
      assert Undisturbed(w.chans[j], r.chans[j]) && Undisturbed(r.chans[j], s.chans[j]);
      if w.chans[j].firing {
        JoinsThen(w.chans[j], r.chans[j], s.chans[j]);
      }
    }
  }

  lemma {:induction false} LoopCalm(w: World, i: nat)
    requires i < |w.chans| && w.chans[i].firing
    ensures Serves(w, Loop(w, i), i)
    decreases |w.scripts|, 0, QueueLen(w.chans[i]), 1, NextLen(w.chans[i])
  {
    if w.crashed || !HasNext(w, i) {
      StepServes(w, Loop(w, i), i);
    } else {
      var f := w.chans[i].line.value.next[0].fn;
      var w1 := Advance(w, i);
      StepServes(w, w1, i);
      BodyCalm(w1, f);
      var w2 := Body(w1, f);
      CalmServes(w1, w2, i);
      ServesThen(w, w1, w2, i);
      if !w2.crashed && Stops(w1, f) && w.chans[i].flags.stopOnFalse {
        StepServes(w2, Halt(w2, i), i);
        ServesThen(w, w2, Halt(w2, i), i);
      } else {
        LoopCalm(w2, i);
        ServesThen(w, w2, Loop(w2, i), i);
      }
    }
  }

  /** A whole round of a list that was not firing. */
  lemma {:induction false} RoundIsCalm(w: World, w1: World, w2: World, r: World, i: nat)
    requires i < |w.chans| == |w1.chans| && w1.chans == w.chans[i := w1.chans[i]] && w1.crashed == w.crashed
    requires Continues(w.chans[i], w1.chans[i]) && !w.chans[i].firing
    requires Serves(w1, w2, i)
    requires if w2.crashed then r == w2 else CalmBut(w2, r, i) && (!r.crashed ==> !r.chans[i].firing)
    ensures Calm(w, r)
  {
    forall j | 0 <= j < |w.chans| && j != i ensures Undisturbed(w.chans[j], r.chans[j]) {
      assert Undisturbed(w1.chans[j], w2.chans[j]);
      if !w2.crashed {
        assert Undisturbed(w2.chans[j], r.chans[j]);
        if w.chans[j].firing {
          JoinsThen(w.chans[j], w2.chans[j], r.chans[j]);
        }
      }
    }
  }

  lemma {:induction false} RoundCalm(w: World, i: nat, start: nat, a: Args)
    requires i < |w.chans| && w.chans[i].line.Some? && start <= |Whole(w.chans[i].line.value)|
    requires !w.chans[i].firing
    ensures Calm(w, Round(w, i, start, a))
    decreases |w.scripts|, 0, QueueLen(w.chans[i]), 3, 0
  {
    var w1 := Begin(w, i, start, a);
    LoopCalm(w1, i);
    var w2 := Loop(w1, i);
    if !w2.crashed {
      FinishCalm(w2, i);
    }
    RoundIsCalm(w, w1, w2, Round(w, i, start, a), i);
  }

  lemma {:induction false} FinishCalm(w: World, i: nat)
    requires i < |w.chans|
    ensures CalmBut(w, Finish(w, i), i)
    ensures !Finish(w, i).crashed ==> !Finish(w, i).chans[i].firing
    decreases |w.scripts|, 0, QueueLen(w.chans[i]), 2, 0
  {
    var c := w.chans[i];
    var w1 := Quiet(w, i);
    if c.line.Some? && !c.flags.once && c.queue.Some? && c.queue.value != [] {
      RoundCalm(Dequeue(w1, i), i, 0, c.queue.value[0]);
    }
  }
}
