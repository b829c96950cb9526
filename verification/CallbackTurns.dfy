/** Who loses a turn: nobody whom no operation asks to go.  Said of the scripts that callbacks may run and
    of the lists they run on, before the round is opened. */
module CallbackTurns {
  import opened Options
  import opened CallbackSpec
  import opened CallbackFrame
  import opened CallbackRounds

  /** A function of a Deferred that, when called, takes everybody off list `i`; `keeps` says that the
      list remembers its firings, so that locking it leaves it as it is. */
  predicate Ends(g: Fn, i: nat, keeps: bool) {
    g == Disabler(i) || (g == Locker(i) && !keeps)
  }

  /** `op` takes no registration of `f` off list `i`, and lists nothing that would. */
  predicate Spares(op: Op, i: nat, keeps: bool, f: Fn) {
    match op
    case Add(_, fs) => forall g :: g in fs ==> !Ends(g, i, keeps)
    case Remove(j, fs) => j == i ==> f !in fs
    case FireWith(_, _) => true
    case Disable(j) => j != i
    case Lock(j) => j != i || keeps
    case Empty(j) => j != i
  }

  predicate AllSpare(ops: seq<Op>, i: nat, keeps: bool, f: Fn) {
    forall op :: op in ops ==> Spares(op, i, keeps, f)
  }

  predicate Harmless(c: Chan, i: nat, keeps: bool) {
    c.line.Some? ==> forall e :: e in Whole(c.line.value) ==> !Ends(e.fn, i, keeps)
  }

  /** Neither a callback nor a function that is listed anywhere asks registrations of `f` to leave list
      `i`. */
  predicate Spared(w: World, i: nat, keeps: bool, f: Fn) {
    && (forall j :: 0 <= j < |w.chans| ==> Harmless(w.chans[j], i, keeps))
    && (forall k :: 0 <= k < |w.scripts| ==> AllSpare(w.scripts[k].ops, i, keeps, f))
  }

  /** In the round in progress every registration of `f` has been called or waits. */
  predicate InTurn(c: Chan, keeps: bool, f: Fn) {
    && c.firing && c.line.Some? && c.gap == NO_GAP && c.hist.passed == {}
    && !c.flags.stopOnFalse && (keeps ==> c.memory.Kept?)
    && (forall e :: e in c.hist.arrivals && e.fn == f ==>
          (e in c.hist.ran || e in c.line.value.next) && e in Whole(c.line.value))
    && (forall e :: e in Taken(c.hist.deeds) ==> e.fn != f)
  }

  predicate Safe(w: World, i: nat, keeps: bool, f: Fn) {
    i < |w.chans| && InTurn(w.chans[i], keeps, f) && Spared(w, i, keeps, f)
  }

  /** A step that replaces list `j` only. */
  lemma {:induction false} SafeStep(w: World, r: World, j: nat, i: nat, keeps: bool, f: Fn)
    requires Safe(w, i, keeps, f) && j < |w.chans| == |r.chans| && r.chans == w.chans[j := r.chans[j]]
    requires r.scripts == w.scripts && Harmless(r.chans[j], i, keeps)
    requires j == i ==> InTurn(r.chans[i], keeps, f)
    ensures Safe(r, i, keeps, f)
  {
  }

  lemma {:induction false} EnrolOneSafe(w: World, j: nat, g: Fn, i: nat, keeps: bool, f: Fn)
    requires Safe(w, i, keeps, f) && j < |w.chans| && w.chans[j].line.Some? && !Ends(g, i, keeps)
    ensures Safe(EnrolOne(w, j, g), i, keeps, f)
  {
    var r := EnrolOne(w, j, g);
    if r != w {
      assert Whole(r.chans[j].line.value) == Whole(w.chans[j].line.value) + [Entry(g, w.nextId)];
      SafeStep(w, r, j, i, keeps, f);
    }
  }

  lemma {:induction false} EnrolSafe(w: World, j: nat, fs: seq<Fn>, i: nat, keeps: bool, f: Fn)
    requires Safe(w, i, keeps, f) && j < |w.chans| && w.chans[j].line.Some?
    requires forall g :: g in fs ==> !Ends(g, i, keeps)
    ensures Safe(Enrol(w, j, fs), i, keeps, f)
    decreases |fs|
  {
    if fs != [] {
      EnrolOneSafe(w, j, fs[0], i, keeps, f);
      EnrolSafe(EnrolOne(w, j, fs[0]), j, fs[1..], i, keeps, f);
    }
  }

  lemma {:induction false} RemoveOneSafe(w: World, j: nat, g: Fn, i: nat, keeps: bool, f: Fn)
    requires Safe(w, i, keeps, f) && j < |w.chans| && w.chans[j].line.Some? && (j == i ==> g != f)
    ensures Safe(RemoveOne(w, j, g), i, keeps, f)
  {
    var c, d := w.chans[j], RemoveOne(w, j, g).chans[j];
    forall e ensures e in Whole(d.line.value) <==> e in Whole(c.line.value) && e.fn != g {
      WithoutMeans(c.line.value.past, g, e);
      WithoutMeans(c.line.value.next, g, e);
    }
    forall e ensures e in d.line.value.next <==> e in c.line.value.next && e.fn != g {
      WithoutMeans(c.line.value.next, g, e);
    }
    DeedsPush(c.hist.deeds, TakesOff(Registrations(c.line.value, g)));
    SafeStep(w, RemoveOne(w, j, g), j, i, keeps, f);
  }

  lemma {:induction false} RemoveSafe(w: World, j: nat, fs: seq<Fn>, i: nat, keeps: bool, f: Fn)
    requires Safe(w, i, keeps, f) && j < |w.chans| && w.chans[j].line.Some? && (j == i ==> f !in fs)
    ensures Safe(RemoveAll(w, j, fs), i, keeps, f)
    decreases |fs|
  {
    if fs != [] {
      RemoveOneSafe(w, j, fs[0], i, keeps, f);
      RemoveSafe(RemoveOne(w, j, fs[0]), j, fs[1..], i, keeps, f);
    }
  }

  lemma {:induction false} DropSafe(w: World, j: nat, i: nat, keeps: bool, f: Fn)
    requires Safe(w, i, keeps, f)
    ensures j != i ==> Safe(DisableChan(w, j), i, keeps, f) && Safe(EmptyChan(w, j), i, keeps, f)
    ensures j != i || keeps ==> Safe(LockChan(w, j), i, keeps, f)
  {
    if j < |w.chans| {
      var w1 := w.(chans := w.chans[j := w.chans[j].(queue := None)]);
      SafeStep(w, w1, j, i, keeps, f);
      if j != i {
        SafeStep(w, DisableChan(w, j), j, i, keeps, f);
        SafeStep(w, EmptyChan(w, j), j, i, keeps, f);
        SafeStep(w1, DisableChan(w1, j), j, i, keeps, f);
      }
    }
  }

  lemma {:induction false} DoSafe(w: World, op: Op, i: nat, keeps: bool, f: Fn)
    requires Safe(w, i, keeps, f) && Spares(op, i, keeps, f)
    ensures Safe(Do(w, op), i, keeps, f)
    decreases |w.scripts|, 1, 0, 0, 0
  {
    var j := op.on;
    if !w.crashed && j < |w.chans| {
      var c := w.chans[j];
      match op
      case Add(_, fs) =>
        if c.line.Some? {
          SafeStep(w, Repair(w, j), j, i, keeps, f);
          EnrolSafe(Repair(w, j), j, fs, i, keeps, f);
          if !c.firing && c.memory.Kept? {
            RoundSafe(Enrol(Repair(w, j), j, fs), j, |Whole(c.line.value)|, c.memory.args, i, keeps, f);
          }
        }
      case Remove(_, fs) =>
        if c.line.Some? {
          RemoveSafe(w, j, fs, i, keeps, f);
        }
      case FireWith(_, a) =>
        if c.queue.Some? && c.firing && !c.flags.once {
          SafeStep(w, Enqueue(w, j, a), j, i, keeps, f);
        } else if c.queue.Some? && !c.firing && c.line.Some? && !(c.flags.once && c.memory != Unfired) {
          RoundSafe(w, j, 0, a, i, keeps, f);
        }
      case _ => DropSafe(w, j, i, keeps, f);
    }
  }

  lemma {:induction false} DoAllSafe(w: World, ops: seq<Op>, i: nat, keeps: bool, f: Fn)
    requires Safe(w, i, keeps, f) && AllSpare(ops, i, keeps, f)
    ensures Safe(DoAll(w, ops), i, keeps, f)
    decreases |w.scripts|, 2, |ops|, 0, 0
  {
    if ops != [] {
      DoSafe(w, ops[0], i, keeps, f);
      DoAllSafe(Do(w, ops[0]), ops[1..], i, keeps, f);
    }
  }

  lemma {:induction false} BodySafe(w: World, g: Fn, i: nat, keeps: bool, f: Fn)
    requires Safe(w, i, keeps, f) && !Ends(g, i, keeps)
    ensures Safe(Body(w, g), i, keeps, f)
    decreases |w.scripts|, 0, 0, 0, 0
  {
    match g
    case User(_) =>
      if w.scripts != [] {
        DoAllSafe(w.(scripts := w.scripts[1..]), w.scripts[0].ops, i, keeps, f);
      }
    case Disabler(j) => DropSafe(w, j, i, keeps, f);
    case Locker(j) => DropSafe(w, j, i, keeps, f);
    case Setter(_) =>
  }

  lemma {:induction false} AdvanceSafe(w: World, j: nat, i: nat, keeps: bool, f: Fn)
    requires Safe(w, i, keeps, f) && HasNext(w, j)
    ensures Safe(Advance(w, j), i, keeps, f) && !Ends(w.chans[j].line.value.next[0].fn, i, keeps)
  {
    var l, r := w.chans[j].line.value, Advance(w, j);
    assert Whole(l)[|l.past|] == l.next[0];
    assert Whole(r.chans[j].line.value) == Whole(l);
    DeedsPush(w.chans[j].hist.deeds, Calls(l.next[0]));
    SafeStep(w, r, j, i, keeps, f);
  }

  lemma {:induction false} LoopSafe(w: World, j: nat, i: nat, keeps: bool, f: Fn)
    requires Safe(w, i, keeps, f) && j < |w.chans|
    ensures Safe(Loop(w, j), i, keeps, f)
    decreases |w.scripts|, 0, QueueLen(w.chans[j]), 1, NextLen(w.chans[j])
  {
    if !w.crashed && HasNext(w, j) {
      var g := w.chans[j].line.value.next[0].fn;
      var w1 := Advance(w, j);
      AdvanceSafe(w, j, i, keeps, f);
      BodySafe(w1, g, i, keeps, f);
      var w2 := Body(w1, g);
      if !w2.crashed && Stops(w1, g) && w.chans[j].flags.stopOnFalse {
        SafeStep(w2, Halt(w2, j), j, i, keeps, f);
      } else {
        LoopSafe(w2, j, i, keeps, f);
      }
    }
  }

  lemma {:induction false} RoundSafe(w: World, j: nat, start: nat, a: Args, i: nat, keeps: bool, f: Fn)
    requires Safe(w, i, keeps, f) && j != i
    requires j < |w.chans| && w.chans[j].line.Some? && start <= |Whole(w.chans[j].line.value)|
    ensures Safe(Round(w, j, start, a), i, keeps, f)
    decreases |w.scripts|, 0, QueueLen(w.chans[j]), 3, 0
  {
    SafeStep(w, Begin(w, j, start, a), j, i, keeps, f);
    LoopSafe(Begin(w, j, start, a), j, i, keeps, f);
    if !Loop(Begin(w, j, start, a), j).crashed {
      FinishSafe(Loop(Begin(w, j, start, a), j), j, i, keeps, f);
    }
  }

  lemma {:induction false} FinishSafe(w: World, j: nat, i: nat, keeps: bool, f: Fn)
    requires Safe(w, i, keeps, f) && j < |w.chans| && j != i
    ensures Safe(Finish(w, j), i, keeps, f)
    decreases |w.scripts|, 0, QueueLen(w.chans[j]), 2, 0
  {
    var c := w.chans[j];
    var w1 := Quiet(w, j);
    SafeStep(w, w1, j, i, keeps, f);
    if c.line.Some? && c.flags.once {
      SafeStep(w1, Clear(w1, j), j, i, keeps, f);
      DropSafe(w1, j, i, keeps, f);
    } else if c.line.Some? && c.queue.Some? && c.queue.value != [] {
      SafeStep(w1, Dequeue(w1, j), j, i, keeps, f);
      RoundSafe(Dequeue(w1, j), j, 0, c.queue.value[0], i, keeps, f);
    }
  }

  /** The turn of a registration is lost only if some callback, or a function of a Deferred, asks for it:
      by removing its function, or by disabling, locking or emptying the list.  Everybody else whom the
      round is about is called, and stays on the list. */
  lemma {:induction false} OnlyWhoIsAskedToGoLosesATurn(w: World, i: nat, start: nat, a: Args, e: Entry)
    requires Ready(w, i) && start <= |Listing(w, i)| && !w.chans[i].flags.stopOnFalse
    requires !Served(w, i, start, a).crashed
    requires w.chans[i].hist.enrolled <= Served(w, i, start, a).chans[i].hist.enrolled
    requires e in Concerned(w, Served(w, i, start, a), i, start)
    requires Spared(w, i, w.chans[i].flags.memory, e.fn)
    ensures var c := Served(w, i, start, a).chans[i];
            e in c.hist.ran && e !in Taken(c.hist.deeds) && Listed(c, e)
  {
    var keeps, w1 := w.chans[i].flags.memory, Begin(w, i, start, a);
    GoodBegin(w, i, start, a);
    LoopGood(w1, i);
    LoopCalm(w1, i);
    BeginSafe(w, i, start, a, keeps, e.fn);
    LoopSafe(w1, i, i, keeps, e.fn);
    SafeMeans(Served(w, i, start, a), i, keeps, e);
  }

  lemma {:induction false} BeginSafe(w: World, i: nat, start: nat, a: Args, keeps: bool, f: Fn)
    requires i < |w.chans| && w.chans[i].line.Some? && start <= |Listing(w, i)| && !w.chans[i].flags.stopOnFalse
    requires Spared(w, i, keeps, f) && keeps == w.chans[i].flags.memory
    ensures Safe(Begin(w, i, start, a), i, keeps, f)
  {
    var w1 := Begin(w, i, start, a);
    assert Whole(w1.chans[i].line.value) == Listing(w, i);
    assert forall e :: e in Listing(w, i)[start..] ==> e in Listing(w, i);
  }

  lemma {:induction false} SafeMeans(r: World, i: nat, keeps: bool, e: Entry)
    requires Safe(r, i, keeps, e.fn) && e in r.chans[i].hist.arrivals && NextLen(r.chans[i]) == 0
    ensures e in r.chans[i].hist.ran && e !in Taken(r.chans[i].hist.deeds) && Listed(r.chans[i], e)
  {
  }

  /** `op` takes nobody off list `i`. */
  predicate SparesAll(op: Op, i: nat, keeps: bool) {
    match op
    case Add(_, fs) => forall g :: g in fs ==> !Ends(g, i, keeps)
    case Remove(j, _) => j != i
    case FireWith(_, _) => true
    case Disable(j) => j != i
    case Lock(j) => j != i || keeps
    case Empty(j) => j != i
  }

  /** Nothing that may run in a round of list `i` takes anybody off it. */
  predicate NobodyIsAskedToGo(w: World, i: nat)
    requires i < |w.chans|
  {
    var keeps := w.chans[i].flags.memory;
    && (forall j :: 0 <= j < |w.chans| ==> Harmless(w.chans[j], i, keeps))
    && (forall k :: 0 <= k < |w.scripts| ==> forall op :: op in w.scripts[k].ops ==> SparesAll(op, i, keeps))
  }

  lemma {:induction false} AllAreSpared(w: World, i: nat, f: Fn)
    requires i < |w.chans| && NobodyIsAskedToGo(w, i)
    ensures Spared(w, i, w.chans[i].flags.memory, f)
  {
    var keeps := w.chans[i].flags.memory;
    forall k, op | 0 <= k < |w.scripts| && op in w.scripts[k].ops ensures Spares(op, i, keeps, f) {
      assert SparesAll(op, i, keeps);
    }
  }

  /** So a round in which callbacks add, fire and work on other lists as they like calls everybody: all
      that are on the list from its start on, and all that join, in that order and each once. */
  lemma {:induction false} UndisturbedRoundsCallEverybody(w: World, i: nat, start: nat, a: Args)
    requires Ready(w, i) && start <= |Listing(w, i)| && !w.chans[i].flags.stopOnFalse
    requires !Served(w, i, start, a).crashed && NobodyIsAskedToGo(w, i)
    ensures var r := Served(w, i, start, a);
            && w.chans[i].hist.enrolled <= r.chans[i].hist.enrolled
            && r.chans[i].hist.ran == Concerned(w, r, i, start)
            && On(r.log, i) == On(w.log, i) + CallsOf(i, Concerned(w, r, i, start), a)
  {
    RoundCallsEachEntryOnce(w, i, start, a);
    var r := Served(w, i, start, a);
    var s, h := Concerned(w, r, i, start), r.chans[i].hist;
    forall e | e in s ensures e.id !in Out(h) {
      AllAreSpared(w, i, e.fn);
      OnlyWhoIsAskedToGoLosesATurn(w, i, start, a, e);
      KeepMeans(s, Out(h), e);
    }
    KeepAll(s, Out(h));
  }

  // ---------------------------------------------------------------- what an operation takes off

  /** Whom `op` takes off its list while that is firing. */
  function Leavers(c: Chan, op: Op): set<Entry> {
    if c.line.None? then {}
    else
      var all := Whole(c.line.value);
      match op
      case Remove(_, fs) => set e | e in all && e.fn in fs
      case Disable(_) => Everybody(c.line.value)
      case Empty(_) => Everybody(c.line.value)
      case Lock(_) => if c.memory.Kept? then {} else Everybody(c.line.value)
      case _ => {}
  }

  /** The deeds of a round are made by the round itself, one for every call, and by operations on its list:
      each takes off whom it names, at once, and calls nobody. */
  lemma {:induction false} OperationsTakeOff(w: World, op: Op)
    requires op.on < |w.chans| && w.chans[op.on].firing && !w.crashed
    ensures TakesJust(w.chans[op.on], Do(w, op).chans[op.on], Leavers(w.chans[op.on], op))
  {
    var i := op.on;
    var c, d := w.chans[i], Do(w, op).chans[i];
    match op {
      case Add(_, fs) => {
        if c.line.Some? {
          EnrolTakesNobody(Repair(w, i), i, fs);
        }
        TakesNobody(c, d);
      }
      case Remove(_, fs) => {
        if c.line.Some? {
          RemoveTakes(w, i, fs);
        } else {
          TakesNobody(c, d);
        }
      }
      case FireWith(_, _) => TakesNobody(c, d);
      case Disable(_) => TakesEverybody(c, d);
      case Empty(_) => TakesEverybody(c, d);
      case Lock(_) => {
        if c.memory.Kept? {
          TakesNobody(c, d);
        } else {
          assert Unlisted(c.(queue := None)).hist == Unlisted(c).hist;
          TakesEverybody(c, d);
        }
      }
    }
  }

  /** Between `c` and `d` just `gone` was taken off, and nobody called. */
  predicate TakesJust(c: Chan, d: Chan, gone: set<Entry>) {
    && c.hist.deeds <= d.hist.deeds && CallsIn(d.hist.deeds) == CallsIn(c.hist.deeds)
    && Taken(d.hist.deeds) == Taken(c.hist.deeds) + gone
    && (d.line.Some? ==> forall e :: e in gone ==> e !in Whole(d.line.value))
  }

  lemma {:induction false} TakesNobody(c: Chan, d: Chan)
    requires d.hist.deeds == c.hist.deeds
    ensures TakesJust(c, d, {})
  {
  }

  lemma {:induction false} TakesEverybody(c: Chan, d: Chan)
    requires c.firing && d.hist == Unlisted(c).hist && (d.line.Some? ==> Whole(d.line.value) == [])
    ensures TakesJust(c, d, if c.line.Some? then Everybody(c.line.value) else {})
  {
    if c.line.Some? {
      DeedsPush(c.hist.deeds, TakesOff(Everybody(c.line.value)));
    }
  }

  lemma {:induction false} EnrolTakesNobody(w: World, i: nat, fs: seq<Fn>)
    requires i < |w.chans| && w.chans[i].line.Some?
    ensures Enrol(w, i, fs).chans[i].hist.deeds == w.chans[i].hist.deeds
    decreases |fs|
  {
    if fs != [] {
      EnrolTakesNobody(EnrolOne(w, i, fs[0]), i, fs[1..]);
    }
  }

  lemma {:induction false} RemoveOneTakes(c: Chan, d: Chan, f: Fn)
    requires c.line.Some?
    requires d.line == Some(Line(Without(c.line.value.past, f), Without(c.line.value.next, f)))
    requires d.hist.deeds == c.hist.deeds + [TakesOff(Registrations(c.line.value, f))]
    ensures TakesJust(c, d, Registrations(c.line.value, f))
    ensures forall e :: e in Whole(d.line.value) <==> e in Whole(c.line.value) && e.fn != f
  {
    forall e ensures e in Whole(d.line.value) <==> e in Whole(c.line.value) && e.fn != f {
      WithoutMeans(c.line.value.past, f, e);
      WithoutMeans(c.line.value.next, f, e);
    }
    DeedsPush(c.hist.deeds, TakesOff(Registrations(c.line.value, f)));
  }

  lemma {:induction false} TakesThen(c: Chan, d: Chan, r: Chan, a: set<Entry>, b: set<Entry>)
    requires TakesJust(c, d, a) && TakesJust(d, r, b) && d.line.Some? && r.line.Some?
    requires forall e :: e in Whole(r.line.value) ==> e in Whole(d.line.value)
    ensures TakesJust(c, r, a + b)
  {
  }

  lemma {:induction false} RemoveTakes(w: World, i: nat, fs: seq<Fn>)
    requires i < |w.chans| && w.chans[i].line.Some?
    ensures var c, d := w.chans[i], RemoveAll(w, i, fs).chans[i];
            && TakesJust(c, d, Leavers(c, Remove(i, fs)))
            && (forall e :: e in Whole(d.line.value) ==> e in Whole(c.line.value))
    decreases |fs|
  {
    var c := w.chans[i];
    if fs == [] {
      assert Leavers(c, Remove(i, fs)) == {};
      TakesNobody(c, c);
    } else {
      var w1 := RemoveOne(w, i, fs[0]);
      var d := w1.chans[i];
      RemoveOneTakes(c, d, fs[0]);
      RemoveTakes(w1, i, fs[1..]);
      TakesThen(c, d, RemoveAll(w, i, fs).chans[i], Registrations(c.line.value, fs[0]), Leavers(d, Remove(i, fs[1..])));
      LeaversCons(c, d, i, fs);
    }
  }

  lemma {:induction false} LeaversCons(c: Chan, d: Chan, i: nat, fs: seq<Fn>)
    requires c.line.Some? && d.line.Some? && fs != []
    requires forall e :: e in Whole(d.line.value) <==> e in Whole(c.line.value) && e.fn != fs[0]
    ensures Leavers(c, Remove(i, fs)) == Registrations(c.line.value, fs[0]) + Leavers(d, Remove(i, fs[1..]))
  {
    assert fs == [fs[0]] + fs[1..];
  }
}
