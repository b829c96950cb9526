/** How firing ends: what a once-list, a locked list and a list that stops on `false` do. */
module CallbackFiring {
  import opened Options
  import opened CallbackSpec
  import opened CallbackFrame
  import opened CallbackRounds
  import opened CallbackTurns
  import opened CallbackRegistration

  // ---------------------------------------------------------------- once and locked lists

  /** No firing can start on the list any more. */
  predicate FiresNoMore(c: Chan) {
    c.queue.None? || (c.flags.once && c.memory != Unfired)
  }

  lemma {:induction false} RunContinues(w: World, turns: seq<Turn>, i: nat)
    requires i < |w.chans|
    ensures |Run(w, turns).chans| == |w.chans| && Continues(w.chans[i], Run(w, turns).chans[i])
  {
    if turns != [] {
      var n := |turns| - 1;
      var w1 := Run(w, turns[..n]).(scripts := turns[n].scripts);
      RunContinues(w, turns[..n], i);
      DoCalm(w1, turns[n].op);
      assert Undisturbed(w1.chans[i], Do(w1, turns[n].op).chans[i]);
    }
  }

  /** Firing it then does nothing, whatever has been done to it in the meantime. */
  lemma {:induction false} FiresNoMoreInAnyRun(w: World, turns: seq<Turn>, i: nat, a: Args)
    requires i < |w.chans| && FiresNoMore(w.chans[i])
    ensures Do(Run(w, turns), FireWith(i, a)) == Run(w, turns)
  {
    RunContinues(w, turns, i);
  }

  /** A once-list that has not fired: its first firing is one round, and every later one does nothing. */
  lemma {:induction false} OnceListFiresOnce(w: World, i: nat, a: Args, turns: seq<Turn>, b: Args)
    requires Ready(w, i) && AllIdle(w) && w.chans[i].queue.Some?
    requires w.chans[i].flags.once && w.chans[i].memory == Unfired
    requires !Do(w, FireWith(i, a)).crashed
    ensures var r, s := Do(w, FireWith(i, a)), Served(w, i, 0, a);
            && !s.crashed && r.log == s.log && |r.chans| == |w.chans| && r.chans[i].hist.ran == s.chans[i].hist.ran
            && On(r.log, i) == On(w.log, i) + CallsOf(i, s.chans[i].hist.ran, a)
            && Remembers(w.chans[i], r.chans[i], a)
            && Do(Run(r, turns), FireWith(i, b)) == Run(r, turns)
  {
    var r, s := Do(w, FireWith(i, a)), Served(w, i, 0, a);
    assert r == Finish(s, i);
    ServedLog(w, i, 0, a);
    ServedRemembers(w, i, 0, a, s);
    LoopCalm(Begin(w, i, 0, a), i);
    OnceFinishes(s, i);
    FiresNoMoreInAnyRun(r, turns, i, b);
  }

  lemma {:induction false} OnceFinishes(s: World, i: nat)
    requires i < |s.chans| && s.chans[i].flags.once && FiresNoMore(s.chans[i])
    ensures var r := Finish(s, i);
            && |r.chans| == |s.chans| && r.log == s.log && r.chans[i].hist.ran == s.chans[i].hist.ran
            && FiresNoMore(r.chans[i]) && r.chans[i].flags == s.chans[i].flags
            && (r.chans[i].memory == s.chans[i].memory || r.chans[i].queue.None?)
            && (r.chans[i].queue.Some? ==> s.chans[i].queue.Some?)
  {
  }

  /** `lock` drops what is postponed, and no firing starts any more in any run.  A list that remembers a
      firing stays as it is, so `add` still fires new registrations; another one is disabled. */
  lemma {:induction false} LockedListFiresNoMore(w: World, i: nat, turns: seq<Turn>, a: Args)
    requires !w.crashed && i < |w.chans|
    ensures var c, r := w.chans[i], Do(w, Lock(i));
            && OnlyList(w, r, i) && r.nextId == w.nextId
            && r.chans[i].queue == None && r.chans[i].firing == c.firing
            && (if c.memory.Kept? then r.chans[i] == c.(queue := None)
                else r.chans[i].line == None && r.chans[i].memory == Unfired)
            && Do(Run(r, turns), FireWith(i, a)) == Run(r, turns)
  {
    FiresNoMoreInAnyRun(Do(w, Lock(i)), turns, i, a);
  }

  // ---------------------------------------------------------------- stopping on false

  /** A callback that returns `false` on a list that stops on it is the last one of its round: nobody behind
      it is called, and the list does not remember the firing. */
  lemma {:induction false} FalseEndsTheRound(w: World, i: nat)
    requires Good(w) && AllIdle(w) && !w.crashed && HasNext(w, i) && w.chans[i].firing && w.chans[i].flags.stopOnFalse
    requires Stops(w, w.chans[i].line.value.next[0].fn) && !Loop(w, i).crashed
    ensures var e, r := w.chans[i].line.value.next[0], Loop(w, i);
            && i < |r.chans| && On(r.log, i) == On(w.log, i) + [Call(i, e, w.chans[i].hist.args)]
            && r.chans[i].hist.ran == w.chans[i].hist.ran + [e] && r.chans[i].memory == Halted
  {
    var e := w.chans[i].line.value.next[0];
    var w1 := Advance(w, i);
    var w2 := Body(w1, e.fn);
    BodyCalm(w1, e.fn);
    GoodAdvance(w, i);
    BodyGood(w1, e.fn);
    assert Undisturbed(w1.chans[i], w2.chans[i]);
    assert AllCalls(i, w1.chans[i].hist) == AllCalls(i, w.chans[i].hist) + [Call(i, e, w.chans[i].hist.args)];
  }

  /** What comes after a callback that does not. */
  lemma {:induction false} OtherwiseTheRoundGoesOn(w: World, i: nat)
    requires !w.crashed && HasNext(w, i) && w.chans[i].firing
    requires !(Stops(w, w.chans[i].line.value.next[0].fn) && w.chans[i].flags.stopOnFalse)
    ensures Loop(w, i) == Loop(Body(Advance(w, i), w.chans[i].line.value.next[0].fn), i)
  {
  }

  /** Whoever still waits when a round has ended waits because the last callback called returned `false`. */
  lemma {:induction false} WhoWaitsWasStopped(w: World, i: nat) returns (v: World)
    requires Good(w) && AllIdle(w) && i < |w.chans| && w.chans[i].firing
    requires !Loop(w, i).crashed && NextLen(Loop(w, i).chans[i]) > 0
    ensures !v.crashed && HasNext(v, i) && v.chans[i].flags.stopOnFalse && w.log <= v.log
    ensures var e := v.chans[i].line.value.next[0];
            && Stops(v, e.fn) && i < |Loop(w, i).chans|
            && On(Loop(w, i).log, i) == On(v.log, i) + [Call(i, e, v.chans[i].hist.args)]
    decreases |w.scripts|, QueueLen(w.chans[i]), NextLen(w.chans[i])
  {
    var f := w.chans[i].line.value.next[0].fn;
    var w1 := Advance(w, i);
    var w2 := Body(w1, f);
    TurnGood(w, i);
    if Stops(w1, f) && w.chans[i].flags.stopOnFalse {
      v := w;
      FalseEndsTheRound(w, i);
    } else {
      v := WhoWaitsWasStopped(w2, i);
    }
  }

  /** So the calls of a round are, in order, those it is about who kept their turn, up to and including the
      first that returns `false`. */
  lemma {:induction false} RoundCallsUpToFalse(w: World, i: nat, start: nat, a: Args) returns (v: World)
    requires Ready(w, i) && start <= |Listing(w, i)| && !Served(w, i, start, a).crashed
    ensures var r := Served(w, i, start, a);
            var c := r.chans[i];
            && w.chans[i].hist.enrolled <= c.hist.enrolled
            && On(r.log, i) == On(w.log, i) + CallsOf(i, c.hist.ran, a) && Increasing(c.hist.ran)
            && c.hist.ran <= Keep(Concerned(w, r, i, start), c.hist.dropped + c.hist.passed)
            && (c.hist.ran != Keep(Concerned(w, r, i, start), c.hist.dropped + c.hist.passed) ==>
                  && HasNext(v, i) && v.chans[i].flags.stopOnFalse && w.log <= v.log
                  && Stops(v, v.chans[i].line.value.next[0].fn)
                  && On(r.log, i) == On(v.log, i) + [Call(i, v.chans[i].line.value.next[0], v.chans[i].hist.args)])
  {
    var w1, r := Begin(w, i, start, a), Served(w, i, start, a);
    GoodBegin(w, i, start, a);
    LoopGood(w1, i);
    LoopCalm(w1, i);
    var c := r.chans[i];
    assert Sound(c, r.nextId) && RoundSound(c, r.nextId);
    KeepIncreasing(c.hist.arrivals, Out(c.hist));
    PrefixIncreasing(c.hist.ran, Ahead(c));
    v := w;
    if NextLen(c) > 0 {
      v := WhoWaitsWasStopped(w1, i);
    } else {
      assert c.hist.ran + [] == c.hist.ran;
    }
  }
}
