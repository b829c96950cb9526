/** What a Deferred does with the functions it is given: those passed to `done` of a resolved one, and to
    `fail` of a rejected one, are called. */
module DeferredCalls {
  import opened Options
  import opened CallbackSpec
  import opened CallbackFrame
  import opened CallbackRounds
  import opened CallbackEmpty
  import opened CallbackTurns
  import opened CallbackRegistration
  import opened CallbackAsked
  import opened DeferredSpec

  /** The functions called on list `k`, in order. */
  function FunctionsCalled(w: World, k: nat): seq<Fn> {
    Fns(Entries(On(w.log, k)))
  }

  lemma {:induction false} UserTurnsAreTame(turns: seq<Turn>)
    requires UserTurns(turns)
    ensures forall k :: 0 <= k < |turns| ==> NoEmpties(turns[k].scripts) && !turns[k].op.Empty?
  {
    forall k, m, op | 0 <= k < |turns| && 0 <= m < |turns[k].scripts| && op in turns[k].scripts[m].ops
      ensures !op.Empty?
    {
      assert UserScripts(turns[k].scripts) && UserOp(op);
    }
  }

  /** Once list `k` has settled the Deferred, its calls are its registrations. */
  lemma {:induction false} SettledCalls(turns: seq<Turn>, k: nat)
    requires UserTurns(turns) && k < 2 && Run(Fresh(), turns).state == Outcome(k)
    ensures var r := Run(Fresh(), turns);
            && |r.chans| == 3 && r.chans[k].line.Some?
            && FunctionsCalled(r, k) == Fns(r.chans[k].hist.enrolled) && FunctionsCalled(r, Other(k)) == []
  {
    var r := Run(Fresh(), turns);
    FreshStable();
    var q := RunStable(Fresh(), turns, Open);
    StableAccount(r, q);
    assert q.Closed? && q.k == k;
    var all := r.chans[k].hist.enrolled;
    assert Entries(CallsOf(k, all, q.v)) == all;
  }

  // ---------------------------------------------------------------- the order

  /** The functions passed to list `k` from outside, one after another. */
  function AddedInOrder(turns: seq<Turn>, k: nat): seq<Fn> {
    if turns == [] then []
    else
      var t := turns[|turns| - 1];
      AddedInOrder(turns[..|turns| - 1], k) + if t.op.Add? && t.op.on == k then t.op.fns else []
  }

  /** Callbacks add nothing to list `k`. */
  predicate AddNothing(s: seq<Script>, k: nat) {
    AddedIn(s, k) == multiset{}
  }

  lemma {:induction false} NothingAddedInPart(s: seq<Script>, t: seq<Script>, k: nat)
    requires AddNothing(s + t, k)
    ensures AddNothing(s, k)
  {
    ScriptsConcat(s, t, k);
    forall f ensures AddedIn(s, k)[f] == 0 {
      assert AddedIn(s + t, k)[f] == AddedIn(s, k)[f] + AddedIn(t, k)[f];
    }
  }

  /** A longer sequence with the same names is no longer. */
  lemma {:induction false} NoMoreNames(s: seq<Entry>, t: seq<Entry>)
    requires s <= t && Names(t) == Names(s)
    ensures t == s
  {
    assert t == s + t[|s|..];
    NamesConcat(s, t[|s|..]);
    assert Names(t[|s|..]) == Names(t) - Names(s) == multiset{};
    assert |Fns(t[|s|..])| == |Names(t[|s|..])| == 0;
  }

  /** After an operation all registrations there were are still there, with those just passed behind them. */
  lemma {:induction false} RegisteredAhead(w: World, op: Op, k: nat, r: World)
    requires Good(w) && AllIdle(w) && !w.crashed && r == Do(w, op) && k < |w.chans| && w.chans[k].line.Some?
    requires !w.chans[k].flags.unique && !w.chans[k].firing
    ensures |r.chans| == |w.chans| && w.chans[k].hist.enrolled <= r.chans[k].hist.enrolled
    ensures op.Add? && op.on == k ==>
              w.chans[k].hist.enrolled + NewEntries(op.fns, w.nextId) <= r.chans[k].hist.enrolled
  {
    DoCalm(w, op);
    assert Undisturbed(w.chans[k], r.chans[k]);
    if op.Add? && op.on == k {
      if w.chans[k].memory.Kept? {
        var u := AddFires(w, k, op.fns);
        AddedAhead(u, r, k, |Listing(w, k)|, w.chans[k].memory.args);
      } else {
        AddRegisters(w, k, op.fns);
      }
    }
  }

  /** One turn: what is passed to list `k` is registered behind what is there, and nothing else is. */
  lemma {:induction false} TurnRegisters(w: World, op: Op, k: nat, r: World)
    requires Good(w) && AllIdle(w) && AllTame(w) && k < |w.chans| && !w.chans[k].flags.unique && !w.chans[k].firing
    requires !op.Empty? && AddNothing(w.scripts, k) && r == Do(w, op) && |r.chans| == |w.chans|
    requires r.chans[k].line.Some?
    ensures w.chans[k].line.Some?
    ensures Fns(r.chans[k].hist.enrolled)
            == Fns(w.chans[k].hist.enrolled) + if op.Add? && op.on == k then op.fns else []
  {
    DoAccounts(w, op, k, r);
    NothingAddedInPart(Done(w, r), r.scripts, k);
    RegisteredAhead(w, op, k, r);
    SameNames(w.chans[k].hist.enrolled, r.chans[k].hist.enrolled, if op.Add? && op.on == k then op.fns else [],
              w.nextId);
  }

  lemma {:induction false} SameNames(was: seq<Entry>, now: seq<Entry>, fs: seq<Fn>, id: nat)
    requires was + NewEntries(fs, id) <= now && Names(now) == Names(was) + multiset(fs)
    ensures Fns(now) == Fns(was) + fs
  {
    var s := NewEntries(fs, id);
    assert Fns(s) == fs;
    NamesConcat(was, s);
    NoMoreNames(was + s, now);
    assert Fns(was + s) == Fns(was) + Fns(s);
  }

  lemma {:induction false} AddedAhead(u: World, r: World, k: nat, start: nat, a: Args)
    requires Ready(u, k) && start <= |Listing(u, k)| && r == Round(u, k, start, a)
    ensures |r.chans| == |u.chans| && u.chans[k].hist.enrolled <= r.chans[k].hist.enrolled
  {
    RoundCalm(u, k, start, a);
    assert Undisturbed(u.chans[k], r.chans[k]);
  }

  lemma {:induction false} TurnsRegister(w: World, turns: seq<Turn>, k: nat)
    requires Good(w) && AllIdle(w) && AllTame(w) && k < |w.chans| && !w.chans[k].flags.unique
    requires forall j :: 0 <= j < |w.chans| ==> !w.chans[j].firing
    requires forall m :: 0 <= m < |turns| ==>
               NoEmpties(turns[m].scripts) && !turns[m].op.Empty? && AddNothing(turns[m].scripts, k)
    ensures var r := Run(w, turns);
            && Good(r) && AllIdle(r) && AllTame(r) && |r.chans| == |w.chans| && r.chans[k].flags == w.chans[k].flags
            && (forall j :: 0 <= j < |r.chans| ==> !r.chans[j].firing)
            && (r.chans[k].line.Some? ==>
                  w.chans[k].line.Some?
                  && Fns(r.chans[k].hist.enrolled) == Fns(w.chans[k].hist.enrolled) + AddedInOrder(turns, k))
  {
    if turns == [] {
      assert Fns(w.chans[k].hist.enrolled) + [] == Fns(w.chans[k].hist.enrolled);
    } else {
      var n := |turns| - 1;
      var t := turns[n];
      var w1 := Run(w, turns[..n]).(scripts := t.scripts);
      var r := Do(w1, t.op);
      TurnsRegister(w, turns[..n], k);
      TurnKeeps(w1, t.op, r);
      if r.chans[k].line.Some? {
        TurnRegisters(w1, t.op, k, r);
        ThenMore(Fns(w.chans[k].hist.enrolled), AddedInOrder(turns[..n], k), Fns(w1.chans[k].hist.enrolled),
                 if t.op.Add? && t.op.on == k then t.op.fns else [], Fns(r.chans[k].hist.enrolled));
      }
    }
  }

  lemma {:induction false} ThenMore(a: seq<Fn>, b: seq<Fn>, ab: seq<Fn>, c: seq<Fn>, abc: seq<Fn>)
    requires ab == a + b && abc == ab + c
    ensures abc == a + (b + c)
  {
  }

  lemma {:induction false} TurnKeeps(w: World, op: Op, r: World)
    requires Good(w) && AllIdle(w) && AllTame(w) && !op.Empty? && r == Do(w, op)
    requires forall j :: 0 <= j < |w.chans| ==> !w.chans[j].firing
    ensures Good(r) && AllIdle(r) && AllTame(r) && |r.chans| == |w.chans|
    ensures forall j :: 0 <= j < |w.chans| ==> !r.chans[j].firing && r.chans[j].flags == w.chans[j].flags
  {
    DoGood(w, op);
    DoCalm(w, op);
    DoTame(w, op);
    assert forall j :: 0 <= j < |r.chans| ==> Undisturbed(w.chans[j], r.chans[j]);
  }

  /** A new Deferred is a run of the lists it is made of. */
  lemma {:induction false} FreshIs()
    ensures var w := Fresh();
            && Good(w) && AllIdle(w) && AllTame(w) && |w.chans| == 3
            && (forall k :: 0 <= k < 3 ==> w.chans[k].flags == LISTS[k] && !w.chans[k].firing)
            && (forall k :: 0 <= k < 2 ==> Fns(w.chans[k].hist.enrolled) == Builtins(k))
  {
    var one, two := Turn(Add(0, Builtins(0)), []), Turn(Add(1, Builtins(1)), []);
    FreshIsRun(one, two, [one, two]);
    RunIs(Fresh(), [one, two]);
    FreshStable();
    OnlyBuiltins(Fresh());
  }

  lemma {:induction false} OnlyBuiltins(w: World)
    requires In(w, Phase.Open) && forall k :: 0 <= k < 2 ==> |w.chans[k].hist.enrolled| == 3
    ensures forall k :: 0 <= k < 2 ==> Fns(w.chans[k].hist.enrolled) == Builtins(k)
  {
    forall k | 0 <= k < 2 ensures Fns(w.chans[k].hist.enrolled) == Builtins(k) {
      var fs := Fns(w.chans[k].hist.enrolled);
      assert fs[..3] == fs;
    }
  }

  lemma {:induction false} RunIs(r: World, turns: seq<Turn>)
    requires r == Run(Start(LISTS), turns)
    requires forall m :: 0 <= m < |turns| ==> turns[m].scripts == []
    ensures Good(r) && AllIdle(r) && AllTame(r) && |r.chans| == 3
    ensures forall k :: 0 <= k < 3 ==> r.chans[k].flags == LISTS[k] && !r.chans[k].firing
  {
    EveryRunIsGood(LISTS, turns);
    RunsWithoutEmptyDoNotCrash(LISTS, turns);
  }

  lemma {:induction false} FreshIsRun(one: Turn, two: Turn, made: seq<Turn>)
    requires made == [one, two] && one == Turn(Add(0, Builtins(0)), []) && two == Turn(Add(1, Builtins(1)), [])
    ensures Run(Start(LISTS), made) == Fresh()
  {
    var w := Start(LISTS);
    assert made[..1] == [one] && [one][..0] == [];
    assert Run(w, [one]) == Take(w, one) && w.(scripts := []) == w;
    EnrolThree(w, 0, Builtins(0));
    assert Take(w, one).scripts == [];
  }

  /** Every function ever passed to `done` of a Deferred that is resolved in the end, before, during or after
      its settlement, from outside or by a callback, is called exactly as often as it was passed; besides
      these only the three functions that the Deferred has put there itself.  The same holds for `fail`
      of one that is rejected, and nothing is called on the other list. */
  lemma {:induction false} EveryFunctionPassedIsCalled(turns: seq<Turn>)
    requires UserTurns(turns)
    ensures var r := Run(Fresh(), turns);
            && (r.state == Resolved ==>
                  && multiset(FunctionsCalled(r, 0)) == multiset(Builtins(0)) + AllAdded(Fresh(), turns, 0)
                  && FunctionsCalled(r, 1) == [])
            && (r.state == Rejected ==>
                  && multiset(FunctionsCalled(r, 1)) == multiset(Builtins(1)) + AllAdded(Fresh(), turns, 1)
                  && FunctionsCalled(r, 0) == [])
  {
    FreshIs();
    UserTurnsAreTame(turns);
    var r := Run(Fresh(), turns);
    forall k | 0 <= k < 2 && r.state == Outcome(k)
      ensures multiset(FunctionsCalled(r, k)) == multiset(Builtins(k)) + AllAdded(Fresh(), turns, k)
      ensures FunctionsCalled(r, Other(k)) == []
    {
      SettledCalls(turns, k);
      RegisteredSince(Fresh(), turns, k);
    }
  }

  /** If callbacks add nothing to it themselves, the list that settles calls its own three functions and then
      those passed to it, in the order in which they were passed. */
  lemma {:induction false} FunctionsAreCalledInTheOrderPassed(turns: seq<Turn>, k: nat)
    requires UserTurns(turns) && k < 2 && Run(Fresh(), turns).state == Outcome(k)
    requires forall m :: 0 <= m < |turns| ==> AddNothing(turns[m].scripts, k)
    ensures FunctionsCalled(Run(Fresh(), turns), k) == Builtins(k) + AddedInOrder(turns, k)
  {
    FreshIs();
    FreshStable();
    UserTurnsAreTame(turns);
    SettledCalls(turns, k);
    TurnsRegister(Fresh(), turns, k);
  }
}
