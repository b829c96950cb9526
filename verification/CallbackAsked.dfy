/** What callbacks ask for is done: every function passed to `add` is registered, and every firing asked
    for during a round is postponed, exactly as often as it was asked for. */
module CallbackAsked {
  import opened Options
  import opened CallbackSpec
  import opened CallbackFrame
  import opened CallbackRounds
  import opened CallbackEmpty
  import opened CallbackTurns
  import opened CallbackRegistration

  // ---------------------------------------------------------------- what scripts ask for

  function AddedBy(op: Op, i: nat): multiset<Fn> {
    if op.Add? && op.on == i then multiset(op.fns) else multiset{}
  }

  function FiredBy(op: Op, i: nat): multiset<Args> {
    if op.FireWith? && op.on == i then multiset{op.args} else multiset{}
  }

  function AddedByAll(ops: seq<Op>, i: nat): multiset<Fn> {
    if ops == [] then multiset{} else AddedBy(ops[0], i) + AddedByAll(ops[1..], i)
  }

  function FiredByAll(ops: seq<Op>, i: nat): multiset<Args> {
    if ops == [] then multiset{} else FiredBy(ops[0], i) + FiredByAll(ops[1..], i)
  }

  function AddedIn(s: seq<Script>, i: nat): multiset<Fn> {
    if s == [] then multiset{} else AddedByAll(s[0].ops, i) + AddedIn(s[1..], i)
  }

  function FiredIn(s: seq<Script>, i: nat): multiset<Args> {
    if s == [] then multiset{} else FiredByAll(s[0].ops, i) + FiredIn(s[1..], i)
  }

  lemma {:induction false} ScriptsConcat(s: seq<Script>, t: seq<Script>, i: nat)
    ensures AddedIn(s + t, i) == AddedIn(s, i) + AddedIn(t, i)
    ensures FiredIn(s + t, i) == FiredIn(s, i) + FiredIn(t, i)
  {
    if s == [] {
      assert s + t == t;
    } else {
      assert (s + t)[0] == s[0] && (s + t)[1..] == s[1..] + t;
      ScriptsConcat(s[1..], t, i);
    }
  }

  /** The scripts that have been run between `w` and `r`. */
  function Done(w: World, r: World): seq<Script>
    requires |r.scripts| <= |w.scripts|
  {
    w.scripts[..|w.scripts| - |r.scripts|]
  }

  /** Scripts are run from the front. */
  predicate RunsOn(w: World, r: World) {
    |r.scripts| <= |w.scripts| && w.scripts == Done(w, r) + r.scripts
  }

  lemma {:induction false} RunsOnThen(w: World, r: World, s: World)
    requires RunsOn(w, r) && RunsOn(r, s)
    ensures RunsOn(w, s) && Done(w, s) == Done(w, r) + Done(r, s)
  {
    assert w.scripts == Done(w, r) + (Done(r, s) + s.scripts);
  }

  function Names(s: seq<Entry>): multiset<Fn> {
    multiset(Fns(s))
  }

  lemma {:induction false} NamesConcat(s: seq<Entry>, t: seq<Entry>)
    ensures Names(s + t) == Names(s) + Names(t)
  {
    assert Fns(s + t) == Fns(s) + Fns(t);
  }

  // ---------------------------------------------------------------- the two accounts

  /** On a list that takes everybody and is alive at the end, what was registered is `more` and what the
      scripts asked for. */
  predicate AddsUp(w: World, r: World, i: nat, more: multiset<Fn>)
    requires i < |w.chans| == |r.chans| && |r.scripts| <= |w.scripts|
  {
    r.chans[i].line.Some? && !r.chans[i].flags.unique ==>
      && w.chans[i].line.Some?
      && Names(r.chans[i].hist.enrolled) == Names(w.chans[i].hist.enrolled) + more + AddedIn(Done(w, r), i)
  }

  /** On a list that is not a once-list and not locked at the end, what was postponed is `more` and what the
      scripts asked for. */
  predicate FiresUp(w: World, r: World, i: nat, more: multiset<Args>)
    requires i < |w.chans| == |r.chans| && |r.scripts| <= |w.scripts|
  {
    r.chans[i].queue.Some? && !r.chans[i].flags.once ==>
      && w.chans[i].queue.Some?
      && multiset(r.chans[i].hist.queued) == multiset(w.chans[i].hist.queued) + more + FiredIn(Done(w, r), i)
  }

  /** Callbacks do not empty lists. */
  predicate Open(w: World, i: nat) {
    AllTame(w) && i < |w.chans|
  }

  predicate Accounts(w: World, r: World, i: nat, added: multiset<Fn>, fired: multiset<Args>) {
    && RunsOn(w, r) && i < |w.chans| == |r.chans| && AllTame(r) && r.chans[i].flags == w.chans[i].flags
    && AddsUp(w, r, i, added)
    && (w.chans[i].firing ==> r.chans[i].firing && FiresUp(w, r, i, fired))
  }

  lemma {:induction false} AddsUpThen(w: World, r: World, s: World, i: nat, a: multiset<Fn>, b: multiset<Fn>)
    requires RunsOn(w, r) && RunsOn(r, s) && i < |w.chans| == |r.chans| == |s.chans|
    requires AddsUp(w, r, i, a) && AddsUp(r, s, i, b) && r.chans[i].flags == s.chans[i].flags
    ensures |s.scripts| <= |w.scripts| && AddsUp(w, s, i, a + b)
  {
    RunsOnThen(w, r, s);
    ScriptsConcat(Done(w, r), Done(r, s), i);
  }

  lemma {:induction false} FiresUpThen(w: World, r: World, s: World, i: nat, a: multiset<Args>, b: multiset<Args>)
    requires RunsOn(w, r) && RunsOn(r, s) && i < |w.chans| == |r.chans| == |s.chans|
    requires FiresUp(w, r, i, a) && FiresUp(r, s, i, b) && r.chans[i].flags == s.chans[i].flags
    ensures |s.scripts| <= |w.scripts| && FiresUp(w, s, i, a + b)
  {
    RunsOnThen(w, r, s);
    ScriptsConcat(Done(w, r), Done(r, s), i);
  }

  lemma {:induction false} AccountsThen(
    w: World, r: World, s: World, i: nat, a: multiset<Fn>, b: multiset<Fn>, c: multiset<Args>, d: multiset<Args>)
    requires Accounts(w, r, i, a, c) && Accounts(r, s, i, b, d)
    ensures Accounts(w, s, i, a + b, c + d)
  {
    RunsOnThen(w, r, s);
    AddsUpThen(w, r, s, i, a, b);
    if w.chans[i].firing {
      FiresUpThen(w, r, s, i, c, d);
    }
  }

  /** A step that runs no script. */
  lemma {:induction false} StepAccounts(w: World, r: World, i: nat, added: multiset<Fn>, fired: multiset<Args>)
    requires i < |w.chans| == |r.chans| && r.scripts == w.scripts && AllTame(r)
    requires r.chans[i].flags == w.chans[i].flags && (w.chans[i].firing ==> r.chans[i].firing)
    requires r.chans[i].line.Some? && !r.chans[i].flags.unique ==>
               w.chans[i].line.Some? && Names(r.chans[i].hist.enrolled) == Names(w.chans[i].hist.enrolled) + added
    requires w.chans[i].firing && r.chans[i].queue.Some? && !r.chans[i].flags.once ==>
               && w.chans[i].queue.Some?
               && multiset(r.chans[i].hist.queued) == multiset(w.chans[i].hist.queued) + fired
    ensures Accounts(w, r, i, added, fired)
  {
    assert Done(w, r) == [] && [] + r.scripts == w.scripts;
  }

  // ---------------------------------------------------------------- operations and rounds

  lemma {:induction false} EnrolAccounts(w: World, j: nat, fs: seq<Fn>, i: nat)
    requires Open(w, i) && j < |w.chans| && w.chans[j].line.Some?
    ensures Accounts(w, Enrol(w, j, fs), i, AddedBy(Add(j, fs), i), multiset{})
  {
    var r, s := Enrol(w, j, fs), NewEntries(Joining(w.chans[j], fs), w.nextId);
    EnrolGrows(w, j, fs, r, s);
    EnrolTame(w, j, fs);
    if i == j && !w.chans[i].flags.unique {
      NamesConcat(w.chans[i].hist.enrolled, s);
      assert Fns(s) == fs;
    }
    StepAccounts(w, r, i, AddedBy(Add(j, fs), i), multiset{});
  }

  lemma {:induction false} RemoveAccounts(w: World, j: nat, fs: seq<Fn>, i: nat)
    requires Open(w, i) && j < |w.chans| && w.chans[j].line.Some?
    ensures Accounts(w, RemoveAll(w, j, fs), i, multiset{}, multiset{})
  {
    AllAreRid(w, j, fs, RemoveAll(w, j, fs));
    RemoveTame(w, j, fs);
    StepAccounts(w, RemoveAll(w, j, fs), i, multiset{}, multiset{});
  }

  lemma {:induction false} DropAccounts(w: World, j: nat, i: nat)
    requires Open(w, i)
    ensures Accounts(w, DisableChan(w, j), i, multiset{}, multiset{})
    ensures Accounts(w, LockChan(w, j), i, multiset{}, multiset{})
  {
    DropTame(w, j);
    DropKeeps(w, DisableChan(w, j), j, i);
    DropKeeps(w, LockChan(w, j), j, i);
  }

  lemma {:induction false} DropKeeps(w: World, r: World, j: nat, i: nat)
    requires Open(w, i) && AllTame(r) && (r == DisableChan(w, j) || r == LockChan(w, j))
    ensures Accounts(w, r, i, multiset{}, multiset{})
  {
    StepAccounts(w, r, i, multiset{}, multiset{});
  }

  lemma {:induction false} EnqueueAccounts(w: World, j: nat, a: Args, i: nat)
    requires Open(w, i) && j < |w.chans| && w.chans[j].queue.Some?
    ensures Accounts(w, Enqueue(w, j, a), i, multiset{}, FiredBy(FireWith(j, a), i))
  {
    TameStep(w, Enqueue(w, j, a), j);
    StepAccounts(w, Enqueue(w, j, a), i, multiset{}, FiredBy(FireWith(j, a), i));
  }

  lemma {:induction false} DoAccounts(w: World, op: Op, i: nat, r: World)
    requires Open(w, i) && !op.Empty? && r == Do(w, op)
    ensures Accounts(w, r, i, AddedBy(op, i), FiredBy(op, i))
    decreases |w.scripts|, 1, 1, 0, 0
  {
    var j := op.on;
    if j >= |w.chans| {
      NothingAccounts(w, i, AddedBy(op, i), FiredBy(op, i));
    } else if op.Add? {
      AddAccounts(w, j, op.fns, i, r);
    } else if op.FireWith? {
      FireAccounts(w, j, op.args, i, r);
    } else if op.Remove? {
      if w.chans[j].line.Some? {
        RemoveAccounts(w, j, op.fns, i);
      } else {
        NothingAccounts(w, i, multiset{}, multiset{});
      }
    } else {
      DropAccounts(w, j, i);
    }
  }

  lemma {:induction false} NothingAccounts(w: World, i: nat, added: multiset<Fn>, fired: multiset<Args>)
    requires Open(w, i) && (w.chans[i].line.Some? ==> added == multiset{})
    requires w.chans[i].queue.Some? && w.chans[i].firing && !w.chans[i].flags.once ==> fired == multiset{}
    ensures Accounts(w, w, i, added, fired)
  {
    StepAccounts(w, w, i, added, fired);
  }

  lemma {:induction false} AddAccounts(w: World, j: nat, fs: seq<Fn>, i: nat, r: World)
    requires Open(w, i) && j < |w.chans| && r == Do(w, Add(j, fs))
    ensures Accounts(w, r, i, AddedBy(Add(j, fs), i), multiset{})
    decreases |w.scripts|, 1, 0, 0, 0
  {
    var c := w.chans[j];
    if c.line.None? {
      StepAccounts(w, w, i, AddedBy(Add(j, fs), i), multiset{});
    } else {
      assert Repair(w, j) == w;
      var w1 := Enrol(w, j, fs);
      EnrolAccounts(w, j, fs, i);
      EnrolCalm(w, j, fs);
      if !c.firing && c.memory.Kept? {
        assert r == Round(w1, j, |Whole(c.line.value)|, c.memory.args) && !w1.chans[j].firing;
        RoundAccounts(w1, j, |Whole(c.line.value)|, c.memory.args, i);
        AccountsThen(w, w1, r, i, AddedBy(Add(j, fs), i), multiset{}, multiset{}, multiset{});
      } else {
        assert r == w1;
      }
    }
  }

  lemma {:induction false} FireAccounts(w: World, j: nat, a: Args, i: nat, r: World)
    requires Open(w, i) && j < |w.chans| && r == Do(w, FireWith(j, a))
    ensures Accounts(w, r, i, multiset{}, FiredBy(FireWith(j, a), i))
    decreases |w.scripts|, 1, 0, 0, 0
  {
    var c := w.chans[j];
    if c.queue.Some? && c.firing && !c.flags.once {
      EnqueueAccounts(w, j, a, i);
    } else if c.queue.Some? && !c.firing && c.line.Some? && !(c.flags.once && c.memory != Unfired) {
      RoundAccounts(w, j, 0, a, i);
    } else {
      NothingAccounts(w, i, multiset{}, FiredBy(FireWith(j, a), i));
    }
  }

  lemma {:induction false} DoAllAccounts(w: World, ops: seq<Op>, i: nat)
    requires Open(w, i) && forall op :: op in ops ==> !op.Empty?
    ensures Accounts(w, DoAll(w, ops), i, AddedByAll(ops, i), FiredByAll(ops, i))
    decreases |w.scripts|, 2, |ops|, 0, 0
  {
    if ops == [] {
      StepAccounts(w, w, i, multiset{}, multiset{});
    } else {
      var w1 := Do(w, ops[0]);
      DoAccounts(w, ops[0], i, w1);
      DoAllAccounts(w1, ops[1..], i);
      AccountsThen(w, w1, DoAll(w, ops), i, AddedBy(ops[0], i), AddedByAll(ops[1..], i),
                   FiredBy(ops[0], i), FiredByAll(ops[1..], i));
    }
  }

  lemma {:induction false} BodyAccounts(w: World, f: Fn, i: nat, r: World)
    requires Open(w, i) && r == Body(w, f)
    ensures Accounts(w, r, i, multiset{}, multiset{})
    decreases |w.scripts|, 0, 0, 0, 0
  {
    if f.User? {
      if w.scripts == [] {
        NothingAccounts(w, i, multiset{}, multiset{});
      } else {
        var w1 := w.(scripts := w.scripts[1..]);
        assert forall op :: op in w.scripts[0].ops ==> !op.Empty?;
        DoAllAccounts(w1, w.scripts[0].ops, i);
        ScriptAccounts(w, w1, r, i);
      }
    } else if f.Setter? {
      StepAccounts(w, r, i, multiset{}, multiset{});
    } else {
      DropAccounts(w, f.on, i);
    }
  }

  /** What a script asks for is asked for by the scripts that have been run. */
  lemma {:induction false} ScriptAccounts(w: World, w1: World, r: World, i: nat)
    requires w.scripts != [] && w1 == w.(scripts := w.scripts[1..])
    requires Accounts(w1, r, i, AddedByAll(w.scripts[0].ops, i), FiredByAll(w.scripts[0].ops, i))
    ensures Accounts(w, r, i, multiset{}, multiset{})
  {
    assert Done(w, r) == [w.scripts[0]] + Done(w1, r);
    assert Done(w, r)[0] == w.scripts[0] && Done(w, r)[1..] == Done(w1, r);
    assert w.scripts == [w.scripts[0]] + (Done(w1, r) + r.scripts);
  }

  lemma {:induction false} TurnAccounts(w: World, j: nat, i: nat)
    requires Open(w, i) && HasNext(w, j)
    ensures Accounts(w, Body(Advance(w, j), w.chans[j].line.value.next[0].fn), i, multiset{}, multiset{})
    decreases |w.scripts|, 0, 0, 1, 0
  {
    var f := w.chans[j].line.value.next[0].fn;
    var w1 := Advance(w, j);
    TameStep(w, w1, j);
    StepAccounts(w, w1, i, multiset{}, multiset{});
    BodyAccounts(w1, f, i, Body(w1, f));
    AccountsThen(w, w1, Body(w1, f), i, multiset{}, multiset{}, multiset{}, multiset{});
  }

  lemma {:induction false} LoopAccounts(w: World, j: nat, i: nat)
    requires Open(w, i) && j < |w.chans|
    ensures Accounts(w, Loop(w, j), i, multiset{}, multiset{})
    decreases |w.scripts|, 0, QueueLen(w.chans[j]), 1, NextLen(w.chans[j])
  {
    if !HasNext(w, j) {
      LoopTame(w, j);
      StepAccounts(w, w, i, multiset{}, multiset{});
    } else {
      var f := w.chans[j].line.value.next[0].fn;
      var w1 := Advance(w, j);
      var w2 := Body(w1, f);
      TurnAccounts(w, j, i);
      if Stops(w1, f) && w.chans[j].flags.stopOnFalse {
        TameStep(w2, Halt(w2, j), j);
        StepAccounts(w2, Halt(w2, j), i, multiset{}, multiset{});
      } else {
        LoopAccounts(w2, j, i);
      }
      AccountsThen(w, w2, Loop(w, j), i, multiset{}, multiset{}, multiset{}, multiset{});
    }
  }

  /** Both accounts, of a list whose rounds are all that happens. */
  predicate Sums(w: World, r: World, i: nat) {
    && RunsOn(w, r) && i < |w.chans| == |r.chans| && AllTame(r) && r.chans[i].flags == w.chans[i].flags
    && AddsUp(w, r, i, multiset{}) && FiresUp(w, r, i, multiset{})
  }

  lemma {:induction false} SumsThen(w: World, r: World, s: World, i: nat)
    requires Sums(w, r, i) && Sums(r, s, i)
    ensures Sums(w, s, i)
  {
    RunsOnThen(w, r, s);
    AddsUpThen(w, r, s, i, multiset{}, multiset{});
    FiresUpThen(w, r, s, i, multiset{}, multiset{});
  }

  /** A step of list `i` that runs no script, registers nobody and postpones nothing. */
  lemma {:induction false} StepSums(w: World, r: World, i: nat)
    requires i < |w.chans| == |r.chans| && r.scripts == w.scripts && AllTame(r)
    requires r.chans[i].flags == w.chans[i].flags
    requires r.chans[i].line.Some? ==> w.chans[i].line.Some?
    requires r.chans[i].queue.Some? ==> w.chans[i].queue.Some?
    requires r.chans[i].hist.enrolled == w.chans[i].hist.enrolled && r.chans[i].hist.queued == w.chans[i].hist.queued
    ensures Sums(w, r, i)
  {
    assert Done(w, r) == [] && [] + r.scripts == w.scripts;
  }

  lemma {:induction false} RoundAccounts(w: World, j: nat, start: nat, a: Args, i: nat)
    requires Open(w, i) && j < |w.chans| && w.chans[j].line.Some? && start <= |Whole(w.chans[j].line.value)|
    requires !w.chans[j].firing
    ensures Accounts(w, Round(w, j, start, a), i, multiset{}, multiset{})
    ensures j == i ==> Sums(w, Round(w, j, start, a), i)
    decreases |w.scripts|, 0, QueueLen(w.chans[j]), 3, 0
  {
    var w1 := Begin(w, j, start, a);
    var w2 := Loop(w1, j);
    TameStep(w, w1, j);
    LoopAccounts(w1, j, i);
    LoopCalm(w1, j);
    FinishAccounts(w2, j, i);
    if j == i {
      StepSums(w, w1, i);
      SumsThen(w, w1, w2, i);
      SumsThen(w, w2, Finish(w2, j), i);
    } else {
      StepAccounts(w, w1, i, multiset{}, multiset{});
      AccountsThen(w, w1, w2, i, multiset{}, multiset{}, multiset{}, multiset{});
      AccountsThen(w, w2, Finish(w2, j), i, multiset{}, multiset{}, multiset{}, multiset{});
    }
  }

  lemma {:induction false} FinishAccounts(w: World, j: nat, i: nat)
    requires Open(w, i) && j < |w.chans| && w.chans[j].firing
    ensures j != i ==> Accounts(w, Finish(w, j), i, multiset{}, multiset{})
    ensures j == i ==> Sums(w, Finish(w, j), i)
    decreases |w.scripts|, 0, QueueLen(w.chans[j]), 2, 0
  {
    var c := w.chans[j];
    var w1 := Quiet(w, j);
    FinishTame(w, j);
    TameStep(w, w1, j);
    if c.line.Some? && !c.flags.once && c.queue.Some? && c.queue.value != [] {
      var w2 := Dequeue(w1, j);
      TameStep(w1, w2, j);
      RoundAccounts(w2, j, 0, c.queue.value[0], i);
      if j == i {
        StepSums(w, w2, i);
        SumsThen(w, w2, Finish(w, j), i);
      } else {
        StepAccounts(w, w2, i, multiset{}, multiset{});
        AccountsThen(w, w2, Finish(w, j), i, multiset{}, multiset{}, multiset{}, multiset{});
      }
    } else if j == i {
      StepSums(w, Finish(w, j), i);
    } else {
      StepAccounts(w, Finish(w, j), i, multiset{}, multiset{});
    }
  }

  // ---------------------------------------------------------------- what was asked for is done

  /** A firing of an idle list that is not a once-list: there is one round for it, and one for every firing
      that callbacks ask for meanwhile, on whatever list they run, unless the list is locked. */
  lemma {:induction false} EveryFiringGetsItsRound(w: World, i: nat, a: Args)
    returns (worlds: seq<World>, args: seq<Args>)
    requires Ready(w, i) && AllIdle(w) && AllTame(w) && w.chans[i].queue.Some? && !w.chans[i].flags.once
    ensures var r := Do(w, FireWith(i, a));
            && RunsOn(w, r) && i < |r.chans|
            && Rounds(i, 0, worlds, args, r) && worlds[0] == w && args[0] == a
            && On(r.log, i) == On(w.log, i) + CallsOfRounds(i, 0, worlds, args, r)
            && (r.chans[i].queue.Some? ==> multiset(args) == multiset{a} + FiredIn(Done(w, r), i))
  {
    var r := Do(w, FireWith(i, a));
    FiringAccounts(w, i, a, r);
    worlds, args := PostponedFiringsAreServedInOrder(w, i, a);
    if r.chans[i].queue.Some? {
      CountArgs(w.chans[i].hist.queued, r.chans[i].hist.queued, args, a, FiredIn(Done(w, r), i));
    }
  }

  lemma {:induction false} FiringAccounts(w: World, i: nat, a: Args, r: World)
    requires Ready(w, i) && AllIdle(w) && AllTame(w) && w.chans[i].queue.Some? && !w.chans[i].flags.once
    requires r == Do(w, FireWith(i, a))
    ensures Sums(w, r, i) && !r.crashed && !r.chans[i].flags.once
  {
    FireIsRound(w, i, a);
    RoundAccounts(w, i, 0, a, i);
  }

  lemma {:induction false} CountArgs(was: seq<Args>, now: seq<Args>, args: seq<Args>, a: Args, more: multiset<Args>)
    requires args != [] && args[0] == a && was + args[1..] == now
    requires multiset(now) == multiset(was) + more
    ensures multiset(args) == multiset{a} + more
  {
    var rest := args[1..];
    assert args == [a] + rest && multiset(args) == multiset{a} + multiset(rest);
    assert now == was + rest && multiset(now) == multiset(was) + multiset(rest);
    assert multiset(rest) == multiset(now) - multiset(was) == more;
  }

  /** What has been passed to `add` of list `i` in some turns, from outside or by callbacks. */
  function AllAdded(w: World, turns: seq<Turn>, i: nat): multiset<Fn> {
    if turns == [] then multiset{}
    else
      var n := |turns| - 1;
      var t := turns[n];
      var w1 := Run(w, turns[..n]).(scripts := t.scripts);
      AllAdded(w, turns[..n], i) + AddedBy(t.op, i) + AddedIn(Done(w1, Do(w1, t.op)), i)
  }

  /** Over a whole run: on a list that takes everybody, and is not disabled, the registrations made are those
      asked for, each as often as it was asked for. */
  lemma {:induction false} EveryFunctionPassedIsRegistered(flags: seq<Flags>, turns: seq<Turn>, i: nat)
    requires forall k :: 0 <= k < |turns| ==> NoEmpties(turns[k].scripts) && !turns[k].op.Empty?
    requires i < |flags| && !flags[i].unique
    ensures var r := Run(Start(flags), turns);
            && i < |r.chans|
            && (r.chans[i].line.Some? ==> Names(r.chans[i].hist.enrolled) == AllAdded(Start(flags), turns, i))
  {
    RegisteredSince(Start(flags), turns, i);
  }

  lemma {:induction false} RegisteredSince(w: World, turns: seq<Turn>, i: nat)
    requires AllTame(w) && i < |w.chans| && !w.chans[i].flags.unique
    requires forall k :: 0 <= k < |turns| ==> NoEmpties(turns[k].scripts) && !turns[k].op.Empty?
    ensures var r := Run(w, turns);
            && AllTame(r) && |r.chans| == |w.chans| && r.chans[i].flags == w.chans[i].flags
            && (r.chans[i].line.Some? ==>
                  && w.chans[i].line.Some?
                  && Names(r.chans[i].hist.enrolled) == Names(w.chans[i].hist.enrolled) + AllAdded(w, turns, i))
  {
    if turns != [] {
      var n := |turns| - 1;
      var t := turns[n];
      RegisteredSince(w, turns[..n], i);
      var w1 := Run(w, turns[..n]).(scripts := t.scripts);
      DoAccounts(w1, t.op, i, Do(w1, t.op));
    }
  }
}
