/** jQuery's Deferred: two once-lists that remember (`done` and `fail`), a list that remembers
    (`progress`), and a state.  Settling runs three functions that the Deferred registered itself:
    one sets the state, one disables the opposite list, one locks `progress`. */
module DeferredSpec {
  import opened Options
  import opened CallbackSpec
  import opened CallbackFrame
  import opened CallbackRounds
  import opened CallbackEmpty

  const ONCE_MEMORY := Flags(true, true, false, false)
  const MEMORY := Flags(false, true, false, false)

  /** The three lists: 0 is `done`, 1 is `fail`, 2 is `progress`. */
  const LISTS := [ONCE_MEMORY, ONCE_MEMORY, MEMORY]

  function Other(k: nat): nat {
    if k == 0 then 1 else 0
  }

  function Outcome(k: nat): Settlement {
    if k == 0 then Resolved else Rejected
  }

  /** What a Deferred puts in front of list `k` when it is made. */
  function Builtins(k: nat): seq<Fn> {
    [Setter(Outcome(k)), Disabler(Other(k)), Locker(2)]
  }

  function Fresh(): World {
    var unused := Start(LISTS);
    var half := Do(unused, Add(0, Builtins(0)));
    Do(half, Add(1, Builtins(1)))
  }

  /** What the public face of a Deferred lets user code do: register its own functions and fire. */
  predicate UserOp(op: Op) {
    match op
    case Add(_, fs) => forall f :: f in fs ==> f.User?
    case FireWith(_, _) => true
    case _ => false
  }

  predicate UserScripts(s: seq<Script>) {
    forall k :: 0 <= k < |s| ==> forall op :: op in s[k].ops ==> UserOp(op)
  }

  predicate UserEntries(s: seq<Entry>) {
    forall k :: 0 <= k < |s| ==> s[k].fn.User?
  }

  /** Where a Deferred stands.  `Closed`: settled through list `k` with arguments `v`, when `progress`
      remembered `m`, had made `mark` calls and had `reg` registrations, and the entries `due` were
      waiting in a round of it. */
  datatype Phase = Open | Closed(k: nat, v: Args, m: Memory, mark: nat, due: seq<Entry>, reg: nat)

  /** `done` or `fail` before settlement. */
  predicate Waiting(c: Chan, k: nat, calls: seq<Call>) {
    && calls == [] && !c.firing && c.memory == Unfired && c.queue.Some?
    && c.line.Some? && c.line.value.past == [] && c.line.value.next == c.hist.enrolled
    && |c.hist.enrolled| >= 3 && Fns(c.hist.enrolled)[..3] == Builtins(k)
    && UserEntries(c.hist.enrolled[3..])
  }

  predicate AllWith(calls: seq<Call>, a: Args) {
    forall j :: 0 <= j < |calls| ==> calls[j].args == a
  }

  /** The list that settled: everything registered on it has been called with `v`, in order, but for
      what still waits in the round in progress. */
  predicate Fired(c: Chan, v: Args, calls: seq<Call>) {
    && c.memory == Kept(v) && c.queue.Some? && c.line.Some?
    && UserEntries(c.line.value.next)
    && AllWith(calls, v) && Entries(calls) + c.line.value.next == c.hist.enrolled
    && (if c.firing then c.hist.args == v else c.line.value.past == [])
  }

  /** The opposite list, dead for ever. */
  predicate Dead(c: Chan, calls: seq<Call>) {
    calls == [] && !c.firing && c.line.None? && c.queue.None? && c.memory == Unfired
  }

  predicate Telling(c: Chan) {
    && c.line.Some? && c.queue.Some? && UserEntries(Whole(c.line.value)) && c.memory != Halted
    && (c.firing ==> c.memory == Kept(c.hist.args))
    && (!c.firing ==> c.line.value.past == [])
  }

  /** What `progress` has called and still has to call since settlement: what was due then, and what was
      registered since. */
  predicate Repeats(c: Chan, p: Phase, calls: seq<Call>, waiting: seq<Entry>)
    requires p.Closed? && p.mark <= |calls|
  {
    p.reg <= |c.hist.enrolled| && Entries(calls[p.mark..]) + waiting == p.due + c.hist.enrolled[p.reg..]
  }

  /** `progress` after settlement. */
  predicate Told(c: Chan, p: Phase, calls: seq<Call>)
    requires p.Closed?
  {
    && c.queue.None? && c.memory == p.m && p.m != Halted
    && (p.m.Unfired? ==> c.line.None? && !c.firing && |calls| == p.mark)
    && p.mark <= |calls|
    && (p.m.Kept? ==>
          && c.line.Some? && UserEntries(Whole(c.line.value)) && AllWith(calls[p.mark..], p.m.args)
          && (!c.firing ==> c.line.value.past == [])
          && (c.firing ==> c.hist.args == p.m.args && Repeats(c, p, calls, c.line.value.next)))
  }

  predicate In(w: World, p: Phase) {
    && |w.chans| == 3 && UserScripts(w.scripts) && !w.crashed
    && (forall i :: 0 <= i < 3 ==> w.chans[i].flags == LISTS[i] && w.chans[i].gap == NO_GAP)
    && match p
       case Open =>
         && w.state == Pending
         && Waiting(w.chans[0], 0, On(w.log, 0))
         && Waiting(w.chans[1], 1, On(w.log, 1))
         && Telling(w.chans[2])
       case Closed(k, v, _, _, _, _) =>
         && k < 2 && w.state == Outcome(k)
         && Fired(w.chans[k], v, On(w.log, k))
         && Dead(w.chans[Other(k)], On(w.log, Other(k)))
         && Told(w.chans[2], p, On(w.log, 2))
  }

  /** No registration on the settled list is left uncalled between rounds. */
  predicate Rested(w: World, p: Phase)
    requires In(w, p)
  {
    && (p.Closed? && !w.chans[p.k].firing ==> w.chans[p.k].line.value.next == [])
    && Told2(w, p)
  }

  /** Neither is one on `progress`. */
  predicate Told2(w: World, p: Phase)
    requires In(w, p)
  {
    p.Closed? && p.m.Kept? && !w.chans[2].firing ==> Repeats(w.chans[2], p, On(w.log, 2), [])
  }

  /** Once closed, a Deferred stays closed in the same way. */
  predicate Later(p: Phase, q: Phase) {
    p.Closed? ==> q == p
  }

  // ---------------------------------------------------------------- single steps

  /** `d` is `c` with one more registration. */
  predicate Joined(c: Chan, d: Chan, e: Entry) {
    && c.line.Some? && e.fn.User?
    && d == c.(line := Some(Line(c.line.value.past, c.line.value.next + [e])),
               hist := c.hist.(arrivals := c.hist.arrivals + [e], enrolled := c.hist.enrolled + [e]))
  }

  lemma {:induction false} WaitingJoin(c: Chan, d: Chan, e: Entry, k: nat, calls: seq<Call>)
    requires Waiting(c, k, calls) && Joined(c, d, e)
    ensures Waiting(d, k, calls)
  {
    assert Fns(d.hist.enrolled)[..3] == Fns(c.hist.enrolled)[..3];
    assert d.hist.enrolled[3..] == c.hist.enrolled[3..] + [e];
  }

  lemma {:induction false} FiredJoin(c: Chan, d: Chan, e: Entry, v: Args, calls: seq<Call>)
    requires Fired(c, v, calls) && Joined(c, d, e)
    ensures Fired(d, v, calls)
  {
    assert Entries(calls) + d.line.value.next == (Entries(calls) + c.line.value.next) + [e];
  }

  lemma {:induction false} UsersJoin(l: Line, e: Entry)
    requires UserEntries(Whole(l)) && e.fn.User?
    ensures UserEntries(Whole(Line(l.past, l.next + [e])))
  {
    assert Whole(Line(l.past, l.next + [e])) == Whole(l) + [e];
  }

  lemma {:induction false} ToldJoin(c: Chan, d: Chan, e: Entry, p: Phase, calls: seq<Call>)
    requires p.Closed? && Told(c, p, calls) && Joined(c, d, e)
    ensures Told(d, p, calls)
  {
    UsersJoin(c.line.value, e);
    if c.firing {
      RepeatsJoin(c, d, e, p, calls, c.line.value.next);
    }
  }

  lemma {:induction false} RepeatsJoin(c: Chan, d: Chan, e: Entry, p: Phase, calls: seq<Call>, waiting: seq<Entry>)
    requires p.Closed? && p.mark <= |calls| && Repeats(c, p, calls, waiting)
    requires d.hist.enrolled == c.hist.enrolled + [e]
    ensures Repeats(d, p, calls, waiting + [e])
  {
    assert d.hist.enrolled[p.reg..] == c.hist.enrolled[p.reg..] + [e];
    assert Entries(calls[p.mark..]) + (waiting + [e]) == (Entries(calls[p.mark..]) + waiting) + [e];
    assert p.due + (c.hist.enrolled[p.reg..] + [e]) == (p.due + c.hist.enrolled[p.reg..]) + [e];
  }

  lemma {:induction false} InEnrolOne(w: World, i: nat, f: Fn, p: Phase)
    requires In(w, p) && i < 3 && w.chans[i].line.Some? && f.User?
    ensures In(EnrolOne(w, i, f), p)
  {
    var c := w.chans[i];
    var d := EnrolOne(w, i, f).chans[i];
    var e := Entry(f, w.nextId);
    assert Joined(c, d, e);
    if i < 2 && p.Open? {
      WaitingJoin(c, d, e, i, On(w.log, i));
    } else if i < 2 {
      FiredJoin(c, d, e, p.v, On(w.log, i));
    } else if p.Open? {
      UsersJoin(c.line.value, e);
    } else {
      ToldJoin(c, d, e, p, On(w.log, i));
    }
  }

  lemma {:induction false} InEnrol(w: World, i: nat, fs: seq<Fn>, p: Phase)
    requires In(w, p) && i < 3 && w.chans[i].line.Some? && (forall f :: f in fs ==> f.User?)
    ensures In(Enrol(w, i, fs), p)
    decreases |fs|
  {
    if fs != [] {
      InEnrolOne(w, i, fs[0], p);
      InEnrol(EnrolOne(w, i, fs[0]), i, fs[1..], p);
    }
  }

  lemma {:induction false} FiredAdvance(c: Chan, d: Chan, v: Args, calls: seq<Call>, x: Call)
    requires Fired(c, v, calls) && c.firing && c.line.value.next != []
    requires x.args == v && x.entry == c.line.value.next[0]
    requires d.line == Some(Line(c.line.value.past + [x.entry], c.line.value.next[1..]))
    requires d.memory == c.memory && d.queue == c.queue && d.firing && d.hist.args == c.hist.args
    requires d.hist.enrolled == c.hist.enrolled
    ensures Fired(d, v, calls + [x])
  {
    assert Entries(calls + [x]) == Entries(calls) + [x.entry];
    assert Entries(calls + [x]) + d.line.value.next == Entries(calls) + c.line.value.next;
  }

  lemma {:induction false} ToldAdvance(c: Chan, d: Chan, p: Phase, calls: seq<Call>, x: Call)
    requires p.Closed? && Told(c, p, calls) && c.firing && c.line.Some? && c.line.value.next != []
    requires x.args == c.hist.args && x.entry == c.line.value.next[0]
    requires d.line == Some(Line(c.line.value.past + [x.entry], c.line.value.next[1..]))
    requires d.memory == c.memory && d.queue == c.queue && d.firing && d.hist.args == c.hist.args
    requires d.hist.enrolled == c.hist.enrolled
    ensures Told(d, p, calls + [x])
  {
    var next := c.line.value.next;
    assert Whole(d.line.value) == Whole(c.line.value);
    assert (calls + [x])[p.mark..] == calls[p.mark..] + [x];
    assert Entries(calls[p.mark..] + [x]) == Entries(calls[p.mark..]) + [x.entry];
    assert Entries(calls[p.mark..]) + [x.entry] + next[1..] == Entries(calls[p.mark..]) + next;
  }

  lemma {:induction false} HeadIsUser(l: Line)
    requires l.next != [] && (UserEntries(Whole(l)) || UserEntries(l.next))
    ensures l.next[0].fn.User?
    ensures Whole(Line(l.past + [l.next[0]], l.next[1..])) == Whole(l)
  {
    assert Whole(l)[|l.past|] == l.next[0];
  }

  /** What list `i` is in phase `p`. */
  predicate ChanIn(c: Chan, i: nat, p: Phase, calls: seq<Call>) {
    match p
    case Open => if i < 2 then Waiting(c, i, calls) else Telling(c)
    case Closed(k, v, _, _, _, _) =>
      if i == k then Fired(c, v, calls) else if i < 2 then Dead(c, calls) else Told(c, p, calls)
  }

  lemma {:induction false} InMeans(w: World, i: nat, p: Phase)
    requires In(w, p) && i < 3
    ensures ChanIn(w.chans[i], i, p, On(w.log, i)) && w.chans[i].flags == LISTS[i] && w.chans[i].gap == NO_GAP
  {
  }

  /** Nothing but list `i` and the calls made by it have changed. */
  predicate OnlyChan(w: World, r: World, i: nat) {
    && |w.chans| == |r.chans| && w.scripts == r.scripts && w.state == r.state && w.crashed == r.crashed
    && forall j :: 0 <= j < |w.chans| && j != i ==> r.chans[j] == w.chans[j] && On(r.log, j) == On(w.log, j)
  }

  lemma {:induction false} InChange(w: World, r: World, i: nat, p: Phase)
    requires In(w, p) && i < 3 && OnlyChan(w, r, i)
    requires r.chans[i].flags == w.chans[i].flags && r.chans[i].gap == NO_GAP && ChanIn(r.chans[i], i, p, On(r.log, i))
    ensures In(r, p)
  {
  }

  lemma {:induction false} ChanAdvance(c: Chan, d: Chan, i: nat, p: Phase, calls: seq<Call>, x: Call)
    requires ChanIn(c, i, p, calls) && c.firing && c.line.Some? && c.line.value.next != []
    requires x.args == c.hist.args && x.entry == c.line.value.next[0]
    requires d == c.(line := Some(Line(c.line.value.past + [x.entry], c.line.value.next[1..])),
                     hist := c.hist.(ran := c.hist.ran + [x.entry], deeds := c.hist.deeds + [Calls(x.entry)]))
    ensures ChanIn(d, i, p, calls + [x]) && x.entry.fn.User?
  {
    HeadIsUser(c.line.value);
    if p.Closed? && i == p.k {
      FiredAdvance(c, d, p.v, calls, x);
    } else if p.Closed? {
      ToldAdvance(c, d, p, calls, x);
    }
  }

  lemma {:induction false} InAdvance(w: World, i: nat, p: Phase)
    requires In(w, p) && i < 3 && HasNext(w, i) && w.chans[i].firing
    ensures In(Advance(w, i), p)
    ensures w.chans[i].line.value.next[0].fn.User?
  {
    var c, r := w.chans[i], Advance(w, i);
    var x := Call(i, c.line.value.next[0], c.hist.args);
    OnAppend(w.log, x, 0);
    OnAppend(w.log, x, 1);
    OnAppend(w.log, x, 2);
    InMeans(w, i, p);
    ChanAdvance(c, r.chans[i], i, p, On(w.log, i), x);
    InChange(w, r, i, p);
  }

  lemma {:induction false} FiredBegin(c: Chan, d: Chan, v: Args, calls: seq<Call>)
    requires Fired(c, v, calls) && !c.firing
    requires d.line == Some(Line([], c.line.value.next)) && d.memory == Kept(v) && d.queue == c.queue
    requires d.firing && d.hist.args == v && d.hist.enrolled == c.hist.enrolled
    ensures Fired(d, v, calls)
  {
  }

  lemma {:induction false} ToldBegin(c: Chan, d: Chan, p: Phase, calls: seq<Call>, start: nat)
    requires p.Closed? && Told(c, p, calls) && p.m.Kept? && start <= |Whole(c.line.value)|
    requires Repeats(c, p, calls, Whole(c.line.value)[start..])
    requires d.line == Some(Line(Whole(c.line.value)[..start], Whole(c.line.value)[start..]))
    requires d.memory == c.memory && d.queue == c.queue && d.firing && d.hist.args == p.m.args
    requires d.hist.enrolled == c.hist.enrolled
    ensures Told(d, p, calls)
  {
    assert Whole(d.line.value) == Whole(c.line.value);
  }

  lemma {:induction false} InBegin(w: World, i: nat, start: nat, a: Args, p: Phase)
    requires In(w, p) && i < 3 && w.chans[i].line.Some? && !w.chans[i].firing
    requires start <= |Whole(w.chans[i].line.value)|
    requires RoundFits(w, i, start, a, p) && (p.Open? ==> i == 2)
    ensures In(Begin(w, i, start, a), p) && Rested(Begin(w, i, start, a), p)
  {
    var c, r := w.chans[i], Begin(w, i, start, a);
    var list := Whole(c.line.value);
    var d := r.chans[i];
    InMeans(w, i, p);
    assert list[..start] + list[start..] == list;
    if i < 2 {
      assert list == c.line.value.next && list[..0] == [] && list[0..] == list;
      FiredBegin(c, d, p.v, On(w.log, i));
    } else if p.Closed? {
      ToldBegin(c, d, p, On(w.log, 2), start);
    }
    InChange(w, r, i, p);
  }

  /** A builtin at the head of the line runs without consuming user code. */
  lemma {:induction false} BuiltinStep(w: World, i: nat, f: Fn)
    requires HasNext(w, i) && w.chans[i].line.value.next[0].fn == f && !f.User? && !w.crashed
    ensures Loop(w, i) == Loop(Body(Advance(w, i), f), i)
  {
  }

  function TurnsOf(s: seq<Entry>): (r: seq<Deed>)
    ensures |r| == |s| && forall k :: 0 <= k < |s| ==> r[k] == Calls(s[k])
  {
    seq(|s|, k requires 0 <= k < |s| => Calls(s[k]))
  }

  /** `w` with the first round of list `i` begun and its first `n` entries called. */
  function Served(w: World, i: nat, v: Args, n: nat): World
    requires i < |w.chans| && n <= |w.chans[i].hist.enrolled|
  {
    var c := w.chans[i];
    var all := c.hist.enrolled;
    w.(log := w.log + CallsOf(i, all[..n], v),
       chans := w.chans[i := c.(
         line := Some(Line(all[..n], all[n..])), memory := Kept(v), firing := true, gap := NO_GAP,
         hist := c.hist.(before := AllCalls(i, c.hist), args := v, arrivals := all, dropped := {}, passed := {},
                         ran := all[..n], deeds := TurnsOf(all[..n])))])
  }

  lemma {:induction false} ServedStep(w: World, i: nat, v: Args, n: nat)
    requires i < |w.chans| && n < |w.chans[i].hist.enrolled|
    ensures HasNext(Served(w, i, v, n), i)
    ensures Served(w, i, v, n).chans[i].line.value.next[0] == w.chans[i].hist.enrolled[n]
    ensures Advance(Served(w, i, v, n), i) == Served(w, i, v, n + 1)
  {
    var all := w.chans[i].hist.enrolled;
    assert all[..n] + [all[n]] == all[..n + 1];
    assert TurnsOf(all[..n]) + [Calls(all[n])] == TurnsOf(all[..n + 1]);
    assert all[n..][1..] == all[n + 1..];
    assert w.log + CallsOf(i, all[..n], v) + [Call(i, all[n], v)] == w.log + CallsOf(i, all[..n + 1], v);
  }

  lemma {:induction false} ServedBegin(w: World, i: nat, v: Args)
    requires In(w, Open) && i < 2
    ensures Begin(w, i, 0, v) == Served(w, i, v, 0)
  {
    var all := w.chans[i].hist.enrolled;
    assert Whole(w.chans[i].line.value) == all && all[..0] == [] && all[0..] == all && TurnsOf([]) == [];
    assert w.log + CallsOf(i, all[..0], v) == w.log;
  }

  /** A builtin that works elsewhere does the same in the round of list `i` as outside it. */
  lemma {:induction false} BuiltinElsewhere(w: World, i: nat, v: Args, n: nat, f: Fn)
    requires i < |w.chans| && n <= |w.chans[i].hist.enrolled|
    requires f.Setter? || ((f.Disabler? || f.Locker?) && f.on != i)
    ensures |Body(w, f).chans| == |w.chans| && Body(w, f).chans[i] == w.chans[i] && Body(w, f).log == w.log
    ensures Body(Served(w, i, v, n), f) == Served(Body(w, f), i, v, n)
  {
  }

  /** Calling a builtin that works elsewhere leaves the round of list `i` as it is. */
  lemma {:induction false} ServedBuiltin(w: World, i: nat, v: Args, n: nat, f: Fn)
    requires i < |w.chans| && n < |w.chans[i].hist.enrolled| && w.chans[i].hist.enrolled[n].fn == f && !w.crashed
    requires f.Setter? || ((f.Disabler? || f.Locker?) && f.on != i)
    ensures |Body(w, f).chans| == |w.chans| && Body(w, f).chans[i] == w.chans[i] && Body(w, f).log == w.log
    ensures Loop(Served(w, i, v, n), i) == Loop(Served(Body(w, f), i, v, n + 1), i)
  {
    ServedStep(w, i, v, n);
    BuiltinStep(Served(w, i, v, n), i, f);
    BuiltinElsewhere(w, i, v, n + 1, f);
  }

  /** What the three builtins of list `i` do to the rest of the Deferred. */
  function Effects(w: World, i: nat): World
    requires i < 2
  {
    LockChan(DisableChan(w.(state := Outcome(i)), Other(i)), 2)
  }

  /** The line of list `i` starts with its three builtins. */
  predicate Headed(w: World, i: nat) {
    && |w.chans| == 3 && i < 2 && |w.chans[i].hist.enrolled| >= 3
    && w.chans[i].hist.enrolled[0].fn == Setter(Outcome(i))
    && w.chans[i].hist.enrolled[1].fn == Disabler(Other(i))
    && w.chans[i].hist.enrolled[2].fn == Locker(2)
  }

  lemma {:induction false} OpenHeaded(w: World, i: nat)
    requires In(w, Open) && i < 2
    ensures Headed(w, i)
  {
    var all := w.chans[i].hist.enrolled;
    assert forall x :: 0 <= x < 3 ==> all[x].fn == Fns(all)[..3][x];
  }

  lemma {:induction false} ServedNext(w: World, i: nat, v: Args, n: nat, f: Fn, w1: World, s: World, s1: World)
    requires i < |w.chans| && n < |w.chans[i].hist.enrolled| && w.chans[i].hist.enrolled[n].fn == f && !w.crashed
    requires f.Setter? || ((f.Disabler? || f.Locker?) && f.on != i)
    requires w1 == Body(w, f)
    requires |w1.chans| == |w.chans| && w1.chans[i] == w.chans[i]
    requires s == Served(w, i, v, n) && s1 == Served(w1, i, v, n + 1)
    ensures !w1.crashed && Loop(s, i) == Loop(s1, i)
  {
    ServedBuiltin(w, i, v, n, f);
  }

  lemma {:induction false} ServedEffects(w: World, i: nat, v: Args)
    requires Headed(w, i) && !w.crashed
    ensures Loop(Served(w, i, v, 0), i) == Loop(Served(Effects(w, i), i, v, 3), i)
  {
    var w1 := w.(state := Outcome(i));
    var w2 := DisableChan(w1, Other(i));
    var s0, s1, s2 := Served(w, i, v, 0), Served(w1, i, v, 1), Served(w2, i, v, 2);
    ServedNext(w, i, v, 0, Setter(Outcome(i)), w1, s0, s1);
    ServedNext(w1, i, v, 1, Disabler(Other(i)), w2, s1, s2);
    ServedNext(w2, i, v, 2, Locker(2), Effects(w, i), s2, Served(Effects(w, i), i, v, 3));
  }

  lemma {:induction false} ServedFired(w: World, i: nat, v: Args, c: Chan)
    requires In(w, Open) && i < 2 && c == Served(w, i, v, 3).chans[i]
    ensures Fired(c, v, CallsOf(i, w.chans[i].hist.enrolled[..3], v))
  {
    var all := w.chans[i].hist.enrolled;
    assert Entries(CallsOf(i, all[..3], v)) == all[..3];
    assert all[..3] + all[3..] == all;
  }

  /** The phase that a settlement of list `i` leads to. */
  function Settled(w: World, i: nat, v: Args): Phase
    requires |w.chans| == 3
  {
    var c := w.chans[2];
    Closed(i, v, c.memory, |On(w.log, 2)|, if c.firing && c.line.Some? then c.line.value.next else [],
           |c.hist.enrolled|)
  }

  lemma {:induction false} LockedTold(w: World, i: nat, v: Args, d: Chan)
    requires |w.chans| == 3 && Telling(w.chans[2])
    requires var c := w.chans[2];
             d == if c.memory.Kept? then c.(queue := None) else c.(line := None, queue := None)
    ensures Told(d, Settled(w, i, v), On(w.log, 2))
    ensures Settled(w, i, v).m.Kept? && !d.firing ==> Repeats(d, Settled(w, i, v), On(w.log, 2), [])
  {
    var c, calls := w.chans[2], On(w.log, 2);
    assert calls[|calls|..] == [] && c.hist.enrolled[|c.hist.enrolled|..] == [];
    assert c.line.value.next + [] == [] + c.line.value.next;
  }

  lemma {:induction false} EffectsAre(w: World, i: nat)
    requires In(w, Open) && i < 2
    ensures var r, c := Effects(w, i), w.chans[2];
            && |r.chans| == 3 && r.log == w.log && r.scripts == w.scripts && !r.crashed && r.state == Outcome(i)
            && r.chans[i] == w.chans[i]
            && r.chans[Other(i)] == w.chans[Other(i)].(line := None, queue := None, memory := Unfired)
            && r.chans[2] == if c.memory.Kept? then c.(queue := None) else c.(line := None, queue := None)
  {
  }

  lemma {:induction false} InClosed(r: World, p: Phase)
    requires p.Closed? && |r.chans| == 3 && UserScripts(r.scripts) && !r.crashed
    requires p.k < 2 && r.state == Outcome(p.k)
    requires forall i :: 0 <= i < 3 ==> r.chans[i].flags == LISTS[i] && r.chans[i].gap == NO_GAP
    requires Fired(r.chans[p.k], p.v, On(r.log, p.k)) && Dead(r.chans[Other(p.k)], On(r.log, Other(p.k)))
    requires Told(r.chans[2], p, On(r.log, 2))
    ensures In(r, p)
  {
  }

  /** The list that settles, and the opposite one, once the builtins have been called. */
  lemma {:induction false} SettledLists(w: World, i: nat, v: Args, w4: World)
    requires In(w, Open) && i < 2 && Headed(w, i) && w4 == Served(Effects(w, i), i, v, 3)
    ensures Fired(w4.chans[i], v, On(w4.log, i)) && Dead(w4.chans[Other(i)], On(w4.log, Other(i)))
    ensures On(w4.log, 2) == On(w.log, 2) && w4.chans[2] == Effects(w, i).chans[2]
    ensures forall j :: 0 <= j < 3 ==> w4.chans[j].flags == LISTS[j] && w4.chans[j].gap == NO_GAP
  {
    var all := w.chans[i].hist.enrolled;
    EffectsAre(w, i);
    SettleLog(w.log, i, v, all);
    assert w4.chans[i] == Served(w, i, v, 3).chans[i] && On(w4.log, i) == CallsOf(i, all[..3], v);
    ServedFired(w, i, v, w4.chans[i]);
    assert w.chans[i].gap == NO_GAP && w.chans[2].gap == NO_GAP && w.chans[Other(i)].gap == NO_GAP;
  }

  lemma {:induction false} SettledIn(w: World, i: nat, v: Args)
    requires In(w, Open) && i < 2
    ensures var w4 := Served(Effects(w, i), i, v, 3);
            In(w4, Settled(w, i, v)) && Rested(w4, Settled(w, i, v))
  {
    OpenHeaded(w, i);
    EffectsAre(w, i);
    var w4 := Served(Effects(w, i), i, v, 3);
    SettledLists(w, i, v, w4);
    LockedTold(w, i, v, w4.chans[2]);
    InClosed(w4, Settled(w, i, v));
  }

  /** The first round of `done` (or `fail`) sets the state, kills the opposite list and locks
      `progress` before any user code runs. */
  lemma {:induction false} SettleStart(w: World, i: nat, v: Args) returns (w4: World, q: Phase)
    requires In(w, Open) && i < 2
    ensures q == Settled(w, i, v)
    ensures In(w4, q) && Rested(w4, q) && w4.chans[i].firing && w4.scripts == w.scripts
    ensures QueueLen(w4.chans[i]) == QueueLen(w.chans[i])
    ensures Loop(Begin(w, i, 0, v), i) == Loop(w4, i)
  {
    q := Settled(w, i, v);
    w4 := Served(Effects(w, i), i, v, 3);
    OpenHeaded(w, i);
    ServedBegin(w, i, v);
    ServedEffects(w, i, v);
    SettledIn(w, i, v);
  }

  lemma {:induction false} SettleLog(log: seq<Call>, i: nat, v: Args, all: seq<Entry>)
    requires |all| >= 3 && i < 2 && On(log, i) == []
    ensures var l := log + CallsOf(i, all[..3], v);
            && On(l, i) == CallsOf(i, all[..3], v)
            && On(l, Other(i)) == On(log, Other(i))
            && On(l, 2) == On(log, 2)
  {
    var l1 := log + [Call(i, all[0], v)];
    var l2 := l1 + [Call(i, all[1], v)];
    assert l2 + [Call(i, all[2], v)] == log + CallsOf(i, all[..3], v);
    forall j: nat
      ensures On(log + CallsOf(i, all[..3], v), j) == On(log, j) + (if i == j then CallsOf(i, all[..3], v) else [])
    {
      OnAppend(log, Call(i, all[0], v), j);
      OnAppend(l1, Call(i, all[1], v), j);
      OnAppend(l2, Call(i, all[2], v), j);
    }
  }

  // ---------------------------------------------------------------- whole operations

  /** On `progress` what was just registered is what a round from the old length on will call. */
  lemma {:induction false} LateAdd(w: World, fs: seq<Fn>, p: Phase)
    requires In(w, p) && p.Closed? && p.m.Kept? && !w.chans[2].firing && Told2(w, p)
    ensures var c, d := w.chans[2], Enrol(w, 2, fs).chans[2];
            d.line.Some? && |Whole(c.line.value)| <= |Whole(d.line.value)|
            && Repeats(d, p, On(w.log, 2), Whole(d.line.value)[|Whole(c.line.value)|..])
  {
    var c, d, s := w.chans[2], Enrol(w, 2, fs).chans[2], NewEntries(fs, w.nextId);
    assert c.flags == LISTS[2];
    EnrolWaits(w, 2, fs);
    assert Whole(d.line.value) == Whole(c.line.value) + s;
    assert d.hist.enrolled[p.reg..] == c.hist.enrolled[p.reg..] + s;
    assert Whole(d.line.value)[|Whole(c.line.value)|..] == s;
    assert Entries(On(w.log, 2)[p.mark..]) + [] == Entries(On(w.log, 2)[p.mark..]);
    assert p.due + (c.hist.enrolled[p.reg..] + s) == p.due + c.hist.enrolled[p.reg..] + s;
  }

  lemma {:induction false} AddIn(w: World, i: nat, fs: seq<Fn>, p: Phase)
    requires In(w, p) && Rested(w, p) && i < 3 && w.chans[i].line.Some? && (forall f :: f in fs ==> f.User?)
    ensures var c, w1 := w.chans[i], Enrol(w, i, fs);
            && In(w1, p) && w1.chans[i].firing == c.firing && w1.chans[i].line.Some?
            && |Whole(c.line.value)| <= |Whole(w1.chans[i].line.value)|
            && (c.firing || c.memory.Unfired? || c.memory.Halted? ==> Rested(w1, p))
            && (!c.firing && c.memory.Kept? ==> RoundFits(w1, i, |Whole(c.line.value)|, c.memory.args, p))
  {
    InEnrol(w, i, fs, p);
    EnrolCalm(w, i, fs);
    var w1 := Enrol(w, i, fs);
    assert forall j :: 0 <= j < 3 ==> Undisturbed(w.chans[j], w1.chans[j]);
    EnrolElsewhere(w, i, fs);
    if i == 2 && p.Closed? && p.m.Kept? && !w.chans[2].firing {
      LateAdd(w, fs, p);
    }
  }

  lemma {:induction false} AddFireIn(w: World, i: nat, fs: seq<Fn>, p: Phase) returns (q: Phase)
    requires In(w, p) && Rested(w, p) && i < 3 && w.chans[i].line.Some? && (forall f :: f in fs ==> f.User?)
    ensures In(Do(w, Add(i, fs)), q) && Rested(Do(w, Add(i, fs)), q) && Later(p, q)
    decreases |w.scripts|, 1, 0, 0, 0
  {
    var c := w.chans[i];
    q := p;
    assert Repair(w, i) == w;
    AddIn(w, i, fs, p);
    if !c.firing && c.memory.Kept? {
      q := RoundIn(Enrol(w, i, fs), i, |Whole(c.line.value)|, c.memory.args, p);
    }
  }

  lemma {:induction false} DoIn(w: World, op: Op, p: Phase) returns (q: Phase)
    requires In(w, p) && Rested(w, p) && UserOp(op)
    ensures In(Do(w, op), q) && Rested(Do(w, op), q) && Later(p, q)
    ensures p.Open? && op.FireWith? && op.on < 2 ==> q.Closed? && q.k == op.on && q.v == op.args
    decreases |w.scripts|, 1, 1, 0, 0
  {
    q := p;
    var i := op.on;
    if i < 3 {
      var c := w.chans[i];
      match op
      case Add(_, fs) =>
        if c.line.Some? {
          q := AddFireIn(w, i, fs, p);
        }
      case FireWith(_, a) =>
        if c.queue.Some? && !c.firing && c.line.Some? && !(c.flags.once && c.memory != Unfired) {
          q := RoundIn(w, i, 0, a, p);
        }
    }
  }

  lemma {:induction false} DoAllIn(w: World, ops: seq<Op>, p: Phase) returns (q: Phase)
    requires In(w, p) && Rested(w, p) && (forall op :: op in ops ==> UserOp(op))
    ensures In(DoAll(w, ops), q) && Rested(DoAll(w, ops), q) && Later(p, q)
    decreases |w.scripts|, 2, |ops|, 0, 0
  {
    q := p;
    if ops != [] {
      q := DoIn(w, ops[0], p);
      q := DoAllIn(Do(w, ops[0]), ops[1..], q);
    }
  }

  lemma {:induction false} BodyIn(w: World, f: Fn, p: Phase) returns (q: Phase)
    requires In(w, p) && Rested(w, p) && f.User?
    ensures In(Body(w, f), q) && Rested(Body(w, f), q) && Later(p, q)
    decreases |w.scripts|, 0, 0, 0, 0
  {
    q := p;
    if w.scripts != [] {
      var w1 := w.(scripts := w.scripts[1..]);
      assert In(w1, p) && Rested(w1, p);
      q := DoAllIn(w1, w.scripts[0].ops, p);
    }
  }

  /** One turn of a round. */
  lemma {:induction false} TurnIn(w: World, i: nat, p: Phase) returns (q: Phase)
    requires In(w, p) && Rested(w, p) && i < 3 && w.chans[i].firing && HasNext(w, i)
    ensures var w2 := Body(Advance(w, i), w.chans[i].line.value.next[0].fn);
            In(w2, q) && Rested(w2, q) && Later(p, q) && w2.chans[i].firing
    decreases |w.scripts|, 0, 0, 1, 0
  {
    var f := w.chans[i].line.value.next[0].fn;
    var w1 := Advance(w, i);
    InAdvance(w, i, p);
    BodyCalm(w1, f);
    q := BodyIn(w1, f, p);
    assert Undisturbed(w1.chans[i], Body(w1, f).chans[i]);
  }

  lemma {:induction false} LoopIn(w: World, i: nat, p: Phase) returns (q: Phase)
    requires In(w, p) && Rested(w, p) && i < 3 && w.chans[i].firing
    ensures In(Loop(w, i), q) && Rested(Loop(w, i), q) && Later(p, q)
    ensures Loop(w, i).chans[i].firing && NextLen(Loop(w, i).chans[i]) == 0
    decreases |w.scripts|, 0, QueueLen(w.chans[i]), 1, NextLen(w.chans[i])
  {
    q := p;
    if HasNext(w, i) {
      var f := w.chans[i].line.value.next[0].fn;
      var w1 := Advance(w, i);
      q := TurnIn(w, i, p);
      assert !w.chans[i].flags.stopOnFalse;
      q := LoopIn(Body(w1, f), i, q);
    }
  }

  /** A round that can start in phase `p`. */
  predicate RoundFits(w: World, i: nat, start: nat, a: Args, p: Phase)
    requires In(w, p)
  {
    && (p.Open? && i < 2 ==> start == 0)
    && (p.Closed? ==> i != Other(p.k) && (i == p.k ==> a == p.v && start == 0))
    && (p.Closed? && i == 2 ==>
          && p.m == Kept(a) && w.chans[2].line.Some? && start <= |Whole(w.chans[2].line.value)|
          && Repeats(w.chans[2], p, On(w.log, 2), Whole(w.chans[2].line.value)[start..])
          && (!w.chans[p.k].firing ==> w.chans[p.k].line.value.next == []))
    && (i != 2 ==> Told2(w, p))
  }

  lemma {:induction false} RoundIn(w: World, i: nat, start: nat, a: Args, p: Phase) returns (q: Phase)
    requires In(w, p) && i < 3 && w.chans[i].line.Some? && !w.chans[i].firing
    requires start <= |Whole(w.chans[i].line.value)|
    requires RoundFits(w, i, start, a, p)
    ensures In(Round(w, i, start, a), q) && Rested(Round(w, i, start, a), q) && Later(p, q)
    ensures p.Open? && i < 2 ==> q.Closed? && q.k == i && q.v == a
    decreases |w.scripts|, 0, QueueLen(w.chans[i]), 3, 0
  {
    var w1 := Begin(w, i, start, a);
    if p.Open? && i < 2 {
      var w4, p4 := SettleStart(w, i, a);
      q := LoopIn(w4, i, p4);
    } else {
      InBegin(w, i, start, a, p);
      q := LoopIn(w1, i, p);
    }
    q := FinishIn(Loop(w1, i), i, q);
  }

  lemma {:induction false} FinishIn(w: World, i: nat, p: Phase) returns (q: Phase)
    requires In(w, p) && Rested(w, p) && i < 3 && w.chans[i].firing && NextLen(w.chans[i]) == 0
    ensures In(Finish(w, i), q) && Rested(Finish(w, i), q) && Later(p, q)
    decreases |w.scripts|, 0, QueueLen(w.chans[i]), 2, 0
  {
    q := p;
    var c := w.chans[i];
    var w1 := Quiet(w, i);
    if i == 2 {
      InQuiet(w, p);
      if c.queue.Some? && c.queue.value != [] {
        var w2 := Dequeue(w1, i);
        assert p.Open? && In(w2, p);
        q := RoundIn(w2, i, 0, c.queue.value[0], p);
      }
    } else {
      InClear(w, i, p);
    }
  }

  lemma {:induction false} InQuiet(w: World, p: Phase)
    requires In(w, p) && Rested(w, p) && w.chans[2].firing && NextLen(w.chans[2]) == 0
    ensures In(Quiet(w, 2), p) && Rested(Quiet(w, 2), p)
  {
    var c := w.chans[2];
    var d := Quiet(w, 2).chans[2];
    assert c.line.Some? && Whole(d.line.value) == Whole(c.line.value);
  }

  lemma {:induction false} InClear(w: World, i: nat, p: Phase)
    requires In(w, p) && Rested(w, p) && i < 2 && w.chans[i].firing && NextLen(w.chans[i]) == 0
    ensures In(Clear(Quiet(w, i), i), p) && Rested(Clear(Quiet(w, i), i), p)
    ensures Finish(w, i) == Clear(Quiet(w, i), i)
  {
  }

  // ---------------------------------------------------------------- whole runs

  predicate UserTurns(turns: seq<Turn>) {
    forall k :: 0 <= k < |turns| ==> UserOp(turns[k].op) && UserScripts(turns[k].scripts)
  }

  predicate Quiescent(w: World) {
    forall i :: 0 <= i < |w.chans| ==> !w.chans[i].firing
  }

  /** Stable: in some phase, with every round closed and nothing left over. */
  predicate Stable(w: World, p: Phase) {
    In(w, p) && Rested(w, p) && Quiescent(w)
  }

  lemma {:induction false} FreshStable()
    ensures Stable(Fresh(), Open)
    ensures forall k :: 0 <= k < 2 ==> |Fresh().chans[k].hist.enrolled| == 3
  {
    var w := Start(LISTS);
    var w1 := Enrol(w, 0, Builtins(0));
    EnrolThree(w, 0, Builtins(0));
    EnrolThree(w1, 1, Builtins(1));
    var w2 := Enrol(w1, 1, Builtins(1));
    assert Fresh() == w2;
    assert Fns(w2.chans[0].hist.enrolled)[..3] == Builtins(0);
    assert Fns(w2.chans[1].hist.enrolled)[..3] == Builtins(1);
  }

  lemma {:induction false} EnrolThree(w: World, i: nat, fs: seq<Fn>)
    requires i < |w.chans| && |fs| == 3
    requires w.chans[i] == NewChan(w.chans[i].flags) && !w.chans[i].flags.unique
    ensures var e := [Entry(fs[0], w.nextId), Entry(fs[1], w.nextId + 1), Entry(fs[2], w.nextId + 2)];
            var c := w.chans[i];
            Enrol(w, i, fs) == w.(nextId := w.nextId + 3, chans := w.chans[i := c.(
              line := Some(Line([], e)), hist := c.hist.(arrivals := e, enrolled := e))])
  {
    var w1 := EnrolOne(w, i, fs[0]);
    var w2 := EnrolOne(w1, i, fs[1]);
    var w3 := EnrolOne(w2, i, fs[2]);
    assert fs[1..][0] == fs[1] && fs[1..][1..] == fs[2..] && fs[2..][1..] == [];
    assert Enrol(w3, i, []) == w3;
    assert Enrol(w2, i, fs[2..]) == w3;
    assert Enrol(w1, i, fs[1..]) == w3;
    var e := [Entry(fs[0], w.nextId), Entry(fs[1], w.nextId + 1), Entry(fs[2], w.nextId + 2)];
    assert w3.chans[i].line.value.next == e;
    assert w3.chans[i].hist.arrivals == e && w3.chans[i].hist.enrolled == e;
  }

  lemma {:induction false} TakeStable(w: World, t: Turn, p: Phase) returns (q: Phase)
    requires Stable(w, p) && UserOp(t.op) && UserScripts(t.scripts)
    ensures Stable(Take(w, t), q) && Later(p, q)
    ensures p.Open? && t.op.FireWith? && t.op.on < 2 ==> q.Closed? && q.k == t.op.on && q.v == t.op.args
  {
    var w1 := w.(scripts := t.scripts);
    assert In(w1, p) && Rested(w1, p);
    q := DoIn(w1, t.op, p);
    DoCalm(w1, t.op);
    assert forall i :: 0 <= i < 3 ==> Undisturbed(w1.chans[i], Do(w1, t.op).chans[i]);
  }

  lemma {:induction false} RunStable(w: World, turns: seq<Turn>, p: Phase) returns (q: Phase)
    requires Stable(w, p) && UserTurns(turns)
    ensures Stable(Run(w, turns), q) && Later(p, q)
  {
    q := p;
    if turns != [] {
      var n := |turns| - 1;
      assert UserTurns(turns[..n]);
      q := RunStable(w, turns[..n], p);
      q := TakeStable(Run(w, turns[..n]), turns[n], q);
    }
  }

  lemma {:induction false} RunSplit(w: World, a: seq<Turn>, b: seq<Turn>)
    ensures Run(w, a + b) == Run(Run(w, a), b)
    decreases |b|
  {
    if b == [] {
      assert a + b == a;
    } else {
      var n := |b| - 1;
      assert (a + b)[..|a + b| - 1] == a + b[..n];
      RunSplit(w, a, b[..n]);
    }
  }

  lemma {:induction false} OnIsOn(log: seq<Call>, i: nat)
    ensures forall j :: 0 <= j < |On(log, i)| ==> On(log, i)[j].on == i
  {
    if log != [] {
      OnIsOn(log[..|log| - 1], i);
    }
  }

  /** Nothing has been called on list `k`. */
  predicate Silent(w: World, k: nat) {
    On(w.log, k) == []
  }

  /** List `k` has called all its registrations, each once, in order, with arguments `v`. */
  predicate CalledAll(w: World, k: nat, v: Args) {
    k < |w.chans| && On(w.log, k) == CallsOf(k, w.chans[k].hist.enrolled, v)
  }

  lemma {:induction false} StableAccount(w: World, q: Phase)
    requires Stable(w, q)
    ensures q.Open? ==> w.state == Pending && Silent(w, 0) && Silent(w, 1)
    ensures q.Closed? ==> q.k < 2 && w.state == Outcome(q.k) && Silent(w, Other(q.k)) && CalledAll(w, q.k, q.v)
  {
    if q.Closed? {
      var k := q.k;
      var calls := On(w.log, k);
      OnIsOn(w.log, k);
      assert Entries(calls) + [] == Entries(calls);
      forall j | 0 <= j < |calls| ensures calls[j] == CallsOf(k, w.chans[k].hist.enrolled, q.v)[j] {
        assert calls[j].entry == Entries(calls)[j];
      }
    }
  }

  ghost predicate SomeArgs(w: World, k: nat) {
    exists v :: CalledAll(w, k, v)
  }

  ghost predicate Account(w: World) {
    && (w.state == Pending ==> Silent(w, 0) && Silent(w, 1))
    && (w.state == Resolved ==> Silent(w, 1) && SomeArgs(w, 0))
    && (w.state == Rejected ==> Silent(w, 0) && SomeArgs(w, 1))
  }

  lemma {:induction false} AccountFrom(w0: World, turns: seq<Turn>)
    requires Stable(w0, Open) && UserTurns(turns)
    ensures Account(Run(w0, turns))
  {
    var q := RunStable(w0, turns, Open);
    StableAccount(Run(w0, turns), q);
  }

  /** In every run of a Deferred: while it is pending neither `done` nor `fail` has called anything;
      once settled through one list, everything ever registered on that list, before, during or
      after settlement, has been called exactly once, in the order of registration and with one and
      the same arguments, and the opposite list has never called anything. */
  lemma {:induction false} EveryCallbackRunsOnceWithTheSettlement(turns: seq<Turn>)
    requires UserTurns(turns)
    ensures Account(Run(Fresh(), turns))
  {
    var w0 := Fresh();
    assert Stable(w0, Open) by { FreshStable(); }
    AccountFrom(w0, turns);
  }

  lemma {:induction false} FirstSettlementFrom(w0: World, turns: seq<Turn>, t: Turn, more: seq<Turn>)
    requires Stable(w0, Open) && UserTurns(turns) && UserTurns(more)
    requires UserOp(t.op) && UserScripts(t.scripts)
    requires Run(w0, turns).state == Pending && t.op.FireWith? && t.op.on < 2
    ensures var w := Run(w0, turns + [t] + more);
            w.state == Outcome(t.op.on) && Silent(w, Other(t.op.on)) && CalledAll(w, t.op.on, t.op.args)
  {
    var p := RunStable(w0, turns, Open);
    var q := TakeStable(Run(w0, turns), t, p);
    assert (turns + [t])[..|turns|] == turns;
    assert Run(w0, turns + [t]) == Take(Run(w0, turns), t);
    q := RunStable(Run(w0, turns + [t]), more, q);
    RunSplit(w0, turns + [t], more);
    StableAccount(Run(w0, turns + [t] + more), q);
  }

  /** The first firing of `done` or `fail` decides: from then on, whatever is done to the Deferred,
      the state and the arguments of every call on that list stay those of that firing. */
  lemma {:induction false} FirstSettlementWins(turns: seq<Turn>, t: Turn, more: seq<Turn>)
    requires UserTurns(turns) && UserTurns(more)
    requires UserOp(t.op) && UserScripts(t.scripts)
    requires Run(Fresh(), turns).state == Pending && t.op.FireWith? && t.op.on < 2
    ensures var w := Run(Fresh(), turns + [t] + more);
            w.state == Outcome(t.op.on) && Silent(w, Other(t.op.on)) && CalledAll(w, t.op.on, t.op.args)
  {
    var w0 := Fresh();
    assert Stable(w0, Open) by { FreshStable(); }
    FirstSettlementFrom(w0, turns, t, more);
  }

  lemma {:induction false} FiringClosed(w: World, p: Phase, op: Op)
    requires Stable(w, p) && w.state != Pending && op.FireWith?
    ensures Do(w, op) == w
  {
  }

  /** After settlement no firing of any list has any effect. */
  lemma {:induction false} FiringAfterSettlementDoesNothing(turns: seq<Turn>, op: Op)
    requires UserTurns(turns) && op.FireWith?
    requires Run(Fresh(), turns).state != Pending
    ensures Do(Run(Fresh(), turns), op) == Run(Fresh(), turns)
  {
    var w0 := Fresh();
    assert Stable(w0, Open) by { FreshStable(); }
    var q := RunStable(w0, turns, Open);
    FiringClosed(Run(w0, turns), q, op);
  }

  /** The calls that `r` has made on list 2 beyond those of `w`: everything registered on it since, each
      once, in order, with what list 2 remembered in `w`; none if it remembered nothing. */
  predicate OnlyRepeats(w: World, r: World) {
    && |w.chans| == |r.chans| == 3 && |w.chans[2].hist.enrolled| <= |r.chans[2].hist.enrolled|
    && On(r.log, 2) == On(w.log, 2)
       + match w.chans[2].memory
         case Kept(a) => CallsOf(2, r.chans[2].hist.enrolled[|w.chans[2].hist.enrolled|..], a)
         case _ => []
  }

  /** The same phase, seen from a later moment between rounds. */
  function Remarked(w: World, p: Phase): Phase
    requires |w.chans| == 3 && p.Closed?
  {
    p.(mark := |On(w.log, 2)|, due := [], reg := |w.chans[2].hist.enrolled|)
  }

  lemma {:induction false} Remark(w: World, p: Phase)
    requires Stable(w, p) && p.Closed?
    ensures Stable(w, Remarked(w, p))
  {
    assert On(w.log, 2)[|On(w.log, 2)|..] == [];
    assert w.chans[2].hist.enrolled[|w.chans[2].hist.enrolled|..] == [];
  }

  lemma {:induction false} OnPrefix(a: seq<Call>, b: seq<Call>, i: nat)
    requires a <= b
    ensures On(a, i) <= On(b, i)
    decreases |b|
  {
    if a == b {
    } else {
      OnPrefix(a, b[..|b| - 1], i);
    }
  }

  lemma {:induction false} RunGrows(w: World, turns: seq<Turn>)
    ensures w.log <= Run(w, turns).log && |Run(w, turns).chans| == |w.chans|
    ensures forall j :: 0 <= j < |w.chans| ==>
              |w.chans[j].hist.enrolled| <= |Run(w, turns).chans[j].hist.enrolled|
  {
    if turns != [] {
      var n := |turns| - 1;
      RunGrows(w, turns[..n]);
      var w1 := Run(w, turns[..n]).(scripts := turns[n].scripts);
      DoCalm(w1, turns[n].op);
      forall j | 0 <= j < |w.chans|
        ensures |w1.chans[j].hist.enrolled| <= |Run(w, turns).chans[j].hist.enrolled|
      {
        assert Undisturbed(w1.chans[j], Run(w, turns).chans[j]);
      }
    }
  }

  lemma {:induction false} RepeatsMeans(w: World, r: World, q: Phase)
    requires Stable(r, q) && q.Closed? && |w.chans| == 3 && q == Remarked(w, q) && q.m == w.chans[2].memory
    requires w.log <= r.log && |w.chans[2].hist.enrolled| <= |r.chans[2].hist.enrolled|
    ensures OnlyRepeats(w, r)
  {
    OnPrefix(w.log, r.log, 2);
    OnIsOn(r.log, 2);
    var was, calls := On(w.log, 2), On(r.log, 2);
    assert calls == was + calls[|was|..];
    if q.m.Kept? {
      var late := r.chans[2].hist.enrolled[q.reg..];
      assert Entries(calls[|was|..]) + [] == Entries(calls[|was|..]) && [] + late == late;
      forall j | 0 <= j < |late| ensures calls[|was|..][j] == CallsOf(2, late, q.m.args)[j] {
        assert Entries(calls[|was|..])[j] == late[j];
        assert calls[|was|..][j] == calls[|was| + j];
      }
    }
  }

  lemma {:induction false} RepeatsFrom(w: World, p: Phase, more: seq<Turn>)
    requires Stable(w, p) && w.state != Pending && UserTurns(more)
    ensures OnlyRepeats(w, Run(w, more)) && Run(w, more).state == w.state
  {
    Remark(w, p);
    var q := RunStable(w, more, Remarked(w, p));
    RunGrows(w, more);
    RepeatsMeans(w, Run(w, more), q);
  }

  /** After settlement `progress` starts no round for a notification: it calls what is registered from
      then on, each once and in order, with what it remembered when the Deferred settled, and nothing
      else; if it remembered nothing it never calls anything again. */
  lemma {:induction false} NoNotifyRoundAfterSettlement(turns: seq<Turn>, more: seq<Turn>)
    requires UserTurns(turns) && UserTurns(more)
    requires Run(Fresh(), turns).state != Pending
    ensures var w := Run(Fresh(), turns);
            var r := Run(Fresh(), turns + more);
            r.state == w.state && OnlyRepeats(w, r)
  {
    var w0 := Fresh();
    assert Stable(w0, Open) by { FreshStable(); }
    var p := RunStable(w0, turns, Open);
    RunSplit(w0, turns, more);
    RepeatsFrom(Run(w0, turns), p, more);
  }
}
