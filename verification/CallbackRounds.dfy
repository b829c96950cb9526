/** What every run of a set of callback lists keeps, whatever the callbacks do. */
module CallbackRounds {
  import opened Options
  import opened CallbackSpec
  import opened CallbackFrame

  predicate Increasing(s: seq<Entry>) {
    forall a, b :: 0 <= a < b < |s| ==> s[a].id < s[b].id
  }

  predicate Below(s: seq<Entry>, n: nat) {
    forall k :: 0 <= k < |s| ==> s[k].id < n
  }

  function Entries(s: seq<Call>): (r: seq<Entry>)
    ensures |r| == |s|
    ensures forall k :: 0 <= k < |s| ==> r[k] == s[k].entry
  {
    seq(|s|, k requires 0 <= k < |s| => s[k].entry)
  }

  function Called(h: History): seq<Entry> {
    Entries(h.before) + h.ran
  }

  function Ahead(c: Chan): seq<Entry> {
    if c.line.Some? then c.line.value.next else []
  }

  /** Numbers of entries that have no turn left. */
  function Out(h: History): set<nat> {
    h.dropped + h.passed
  }

  /** The numbers of the entries whose position the round has left behind. */
  function PastIds(c: Chan): set<nat> {
    if c.line.Some? then AllIds(c.line.value.past) else {}
  }

  /** The round in progress: what has run, followed by what still waits, is what was there at the
      start or joined since, less what left the list before its turn or joined behind its back; what
      left is gone from the list, and what joined behind its back is still there if it did not leave. */
  predicate RoundSound(c: Chan, n: nat) {
    && Increasing(c.hist.arrivals) && Below(c.hist.arrivals, n)
    && (forall d :: d in Out(c.hist) ==> d < n)
    && c.hist.ran + Ahead(c) == Keep(c.hist.arrivals, Out(c.hist))
    && (c.line.Some? ==> Gone(Whole(c.line.value), c.hist.dropped))
    && c.hist.passed <= PastIds(c) + c.hist.dropped
    && c.hist.passed <= AllIds(c.hist.arrivals)
  }

  predicate Gone(s: seq<Entry>, ids: set<nat>) {
    forall k :: 0 <= k < |s| ==> s[k].id !in ids
  }

  /** A once-list never postpones a firing and never calls a registration twice. */
  predicate OnceSound(c: Chan, n: nat) {
    && c.hist.queued == []
    && Increasing(Called(c.hist) + Ahead(c)) && Below(Called(c.hist), n)
    && (c.memory == Unfired && c.queue.Some? ==> !c.firing && Called(c.hist) == [])
  }

  predicate GapSound(c: Chan) {
    && (!c.firing ==> c.gap == NO_GAP)
    && (c.gap.missing > 0 ==> ListLen(c) == 0) && (c.gap.skip > 0 ==> NextLen(c) == 0)
  }

  /** The calls among some deeds. */
  function CallsIn(deeds: seq<Deed>): seq<Entry> {
    if deeds == [] then []
    else
      var d := deeds[|deeds| - 1];
      CallsIn(deeds[..|deeds| - 1]) + if d.Calls? then [d.entry] else []
  }

  /** Everybody who was taken off the list. */
  function Taken(deeds: seq<Deed>): set<Entry> {
    if deeds == [] then {}
    else
      var d := deeds[|deeds| - 1];
      Taken(deeds[..|deeds| - 1]) + if d.TakesOff? then d.gone else {}
  }

  /** Nobody is called after having been taken off. */
  predicate InOrder(deeds: seq<Deed>) {
    forall j, k :: 0 <= j < k < |deeds| && deeds[j].TakesOff? && deeds[k].Calls? ==>
      deeds[k].entry !in deeds[j].gone
  }

  /** The deeds of the round in progress account for its calls, and for everybody who lost a turn: these
      are exactly those taken off the list without having been called. */
  predicate Accounted(c: Chan) {
    && (forall e :: e in c.hist.arrivals ==> e in c.hist.enrolled)
    && (forall e :: e in Taken(c.hist.deeds) ==> e in c.hist.enrolled)
    && (c.line.Some? ==> forall e :: e in Taken(c.hist.deeds) ==> e !in Whole(c.line.value))
    && CallsIn(c.hist.deeds) == c.hist.ran && InOrder(c.hist.deeds)
    && (forall e :: e in c.hist.arrivals ==>
          (e.id in c.hist.dropped <==> e in Taken(c.hist.deeds) && e !in c.hist.ran))
  }

  /** Registrations have their own numbers, and the list holds registrations. */
  predicate Numbered(c: Chan, n: nat) {
    && Increasing(c.hist.enrolled) && Below(c.hist.enrolled, n)
    && (c.line.Some? ==> forall e :: e in Whole(c.line.value) ==> e in c.hist.enrolled)
  }

  predicate Booked(c: Chan, n: nat) {
    Numbered(c, n) && (c.firing ==> Accounted(c))
  }

  predicate Sound(c: Chan, n: nat) {
    && (c.line.None? ==> c.queue.None?)
    && Booked(c, n)
    && (c.line.Some? ==> Increasing(Whole(c.line.value)) && Below(Whole(c.line.value), n))
    && (c.line.Some? && !c.firing ==> c.line.value.past == [])
    && (if c.queue.Some? then c.hist.queued == c.hist.resumed + c.queue.value
        else c.hist.resumed <= c.hist.queued)
    && GapSound(c)
    && (c.firing ==> RoundSound(c, n))
    && (c.flags.once ==> OnceSound(c, n))
  }

  /** Firings are postponed only while the list is firing. */
  predicate Idle(c: Chan) {
    !c.firing ==> QueueLen(c) == 0
  }

  predicate Good(w: World) {
    && (forall i :: 0 <= i < |w.chans| ==> Sound(w.chans[i], w.nextId))
    && (forall i :: 0 <= i < |w.chans| ==> On(w.log, i) == AllCalls(i, w.chans[i].hist))
  }

  predicate AllIdle(w: World) {
    forall i :: 0 <= i < |w.chans| ==> Idle(w.chans[i])
  }

  predicate IdleBut(w: World, i: nat) {
    forall j :: 0 <= j < |w.chans| && j != i ==> Idle(w.chans[j])
  }

  // ---------------------------------------------------------------- filters

  lemma {:induction false} KeepSplit(a: seq<Entry>, b: seq<Entry>, g: set<nat>)
    ensures Keep(a + b, g) == Keep(a, g) + Keep(b, g)
  {
    if a == [] {
      assert a + b == b;
    } else {
      assert (a + b)[1..] == a[1..] + b;
      KeepSplit(a[1..], b, g);
    }
  }

  lemma {:induction false} KeepTwice(s: seq<Entry>, g: set<nat>, h: set<nat>)
    ensures Keep(s, g + h) == Keep(Keep(s, g), h)
  {
    if s != [] {
      KeepTwice(s[1..], g, h);
      KeepSplit(if s[0].id in g then [] else [s[0]], Keep(s[1..], g), h);
    }
  }

  lemma {:induction false} KeepAll(s: seq<Entry>, g: set<nat>)
    requires forall k :: 0 <= k < |s| ==> s[k].id !in g
    ensures Keep(s, g) == s
  {
    if s != [] {
      KeepAll(s[1..], g);
    }
  }

  /** With distinct numbers, removing a function's registrations is removing their numbers. */
  lemma {:induction false} KeepIsWithout(s: seq<Entry>, f: Fn, g: set<nat>)
    requires forall k :: 0 <= k < |s| ==> (s[k].id in g <==> s[k].fn == f)
    ensures Keep(s, g) == Without(s, f)
  {
    if s != [] {
      KeepIsWithout(s[1..], f, g);
    }
  }

  lemma {:induction false} WithoutIncreasing(s: seq<Entry>, f: Fn)
    requires Increasing(s)
    ensures Increasing(Without(s, f))
    ensures forall e :: e in Without(s, f) ==> e in s
  {
    if s != [] {
      WithoutIncreasing(s[1..], f);
      var t := Without(s[1..], f);
      forall k | 0 <= k < |t| ensures s[0].id < t[k].id {
        assert t[k] in s[1..];
      }
    }
  }

  lemma {:induction false} WithoutBelow(s: seq<Entry>, f: Fn, n: nat)
    requires Increasing(s) && Below(s, n)
    ensures Below(Without(s, f), n)
  {
    WithoutIncreasing(s, f);
    var t := Without(s, f);
    forall k | 0 <= k < |t| ensures t[k].id < n {
      assert t[k] in s;
    }
  }

  /** Dropping entries out of the waiting half keeps the account of the round. */
  lemma {:induction false} RoundRemove(
    ran: seq<Entry>, next: seq<Entry>, arrivals: seq<Entry>, dropped: set<nat>, f: Fn)
    requires Increasing(ran + next) && ran + next == Keep(arrivals, dropped)
    ensures ran + Without(next, f) == Keep(arrivals, dropped + Ids(next, f))
  {
    var g := Ids(next, f);
    KeepTwice(arrivals, dropped, g);
    KeepSplit(ran, next, g);
    forall k, e | 0 <= k < |ran| && e in next ensures ran[k].id < e.id {
      var m :| 0 <= m < |next| && next[m] == e;
      assert (ran + next)[k] == ran[k] && (ran + next)[|ran| + m] == e;
    }
    KeepAll(ran, g);
    forall k | 0 <= k < |next| ensures next[k].id in g <==> next[k].fn == f {
      if next[k].id in g {
        var e :| e in next && e.fn == f && e.id == next[k].id;
        var m :| 0 <= m < |next| && next[m] == e;
        assert (ran + next)[|ran| + k] == next[k] && (ran + next)[|ran| + m] == e;
      }
    }
    KeepIsWithout(next, f, g);
  }

  lemma {:induction false} KeepIncreasing(s: seq<Entry>, g: set<nat>)
    requires Increasing(s)
    ensures Increasing(Keep(s, g))
    ensures forall e :: e in Keep(s, g) ==> e in s
  {
    if s != [] {
      KeepIncreasing(s[1..], g);
      var t := Keep(s[1..], g);
      forall k | 0 <= k < |t| ensures s[0].id < t[k].id {
        assert t[k] in s[1..];
      }
    }
  }

  // ---------------------------------------------------------------- single steps

  /** A step that replaces list `i` only, makes no call and hands out numbers up to `n`. */
  lemma {:induction false} GoodStep(w: World, r: World, i: nat, c: Chan)
    requires Good(w) && i < |w.chans| && r.chans == w.chans[i := c]
    requires w.nextId <= r.nextId && r.log == w.log
    requires Sound(c, r.nextId) && AllCalls(i, c.hist) == AllCalls(i, w.chans[i].hist)
    ensures Good(r)
  {
    forall j | 0 <= j < |r.chans| && j != i ensures Sound(r.chans[j], r.nextId) {
      assert Sound(w.chans[j], w.nextId);
    }
  }

  /** A number that no entry of `s` has makes no difference. */
  lemma {:induction false} KeepExtra(s: seq<Entry>, g: set<nat>, x: nat)
    requires forall k :: 0 <= k < |s| ==> s[k].id != x
    ensures Keep(s, g + {x}) == Keep(s, g)
  {
    if s != [] {
      KeepExtra(s[1..], g, x);
    }
  }

  lemma {:induction false} RoundEnrol(c: Chan, d: Chan, e: Entry, n: nat)
    requires RoundSound(c, n) && c.line.Some? && e.id == n && !BehindTheEnd(c)
    requires d.line == Some(Line(c.line.value.past, c.line.value.next + [e]))
    requires d.hist.arrivals == c.hist.arrivals + [e] && d.hist.ran == c.hist.ran
    requires d.hist.dropped == c.hist.dropped && d.hist.passed == c.hist.passed
    ensures RoundSound(d, n + 1)
  {
    KeepSplit(c.hist.arrivals, [e], Out(c.hist));
    assert Out(d.hist) == Out(c.hist) && Keep([e], Out(c.hist)) == [e];
    assert d.hist.ran + Ahead(d) == (c.hist.ran + Ahead(c)) + [e];
    assert Whole(d.line.value) == Whole(c.line.value) + [e];
    IdsPush(c.hist.arrivals, e);
  }

  /** A new entry that is left out makes no difference. */
  lemma {:induction false} KeepNotNew(s: seq<Entry>, g: set<nat>, e: Entry)
    requires forall k :: 0 <= k < |s| ==> s[k].id != e.id
    ensures Keep(s + [e], g + {e.id}) == Keep(s, g)
  {
    KeepSplit(s, [e], g + {e.id});
    KeepExtra(s, g, e.id);
    KeepNone([e], g + {e.id});
  }

  lemma {:induction false} RoundPassOver(c: Chan, d: Chan, e: Entry, n: nat)
    requires RoundSound(c, n) && e.id == n && BehindTheEnd(c)
    requires d.line == Some(Line(c.line.value.past + [e], []))
    requires d.hist.arrivals == c.hist.arrivals + [e] && d.hist.ran == c.hist.ran
    requires d.hist.dropped == c.hist.dropped && d.hist.passed == c.hist.passed + {e.id}
    ensures RoundSound(d, n + 1)
  {
    assert d.hist.ran + Ahead(d) == Keep(d.hist.arrivals, Out(d.hist)) by {
      assert Out(d.hist) == Out(c.hist) + {e.id};
      KeepNotNew(c.hist.arrivals, Out(c.hist), e);
    }
    IncreasingPush(c.hist.arrivals, e, n);
    assert Gone(Whole(d.line.value), d.hist.dropped) by {
      assert Whole(d.line.value) == Whole(c.line.value) + [e];
    }
    assert d.hist.passed <= PastIds(d) + d.hist.dropped by {
      IdsPush(c.line.value.past, e);
    }
    assert d.hist.passed <= AllIds(d.hist.arrivals) by {
      IdsPush(c.hist.arrivals, e);
    }
  }

  lemma {:induction false} IncreasingPush(s: seq<Entry>, e: Entry, n: nat)
    requires Increasing(s) && Below(s, n) && e.id == n
    ensures Increasing(s + [e]) && Below(s + [e], n + 1)
  {
  }

  lemma {:induction false} IdsPush(s: seq<Entry>, e: Entry)
    ensures AllIds(s + [e]) == AllIds(s) + {e.id}
  {
    assert forall x :: x in s + [e] <==> x in s || x == e;
  }

  lemma {:induction false} BookedEnrol(c: Chan, d: Chan, e: Entry, n: nat)
    requires Booked(c, n) && c.line.Some? && d.line.Some? && e.id == n && c.firing == d.firing
    requires c.firing ==> RoundSound(c, n)
    requires Whole(d.line.value) == Whole(c.line.value) + [e] && d.hist.enrolled == c.hist.enrolled + [e]
    requires d.hist.arrivals == c.hist.arrivals + [e] && d.hist.ran == c.hist.ran
    requires d.hist.dropped == c.hist.dropped && d.hist.deeds == c.hist.deeds
    ensures Booked(d, n + 1)
  {
  }

  lemma {:induction false} GoodEnrolOne(w: World, i: nat, f: Fn)
    requires Good(w) && i < |w.chans| && w.chans[i].line.Some? && w.chans[i].gap.missing == 0
    ensures Good(EnrolOne(w, i, f)) && EnrolOne(w, i, f).chans[i].gap.missing == 0
  {
    var c := w.chans[i];
    var l := c.line.value;
    var r := EnrolOne(w, i, f);
    if r != w {
      var e := Entry(f, w.nextId);
      var d := r.chans[i];
      assert Sound(c, w.nextId);
      assert Whole(d.line.value) == Whole(l) + [e];
      if c.firing {
        if BehindTheEnd(c) {
          RoundPassOver(c, d, e, w.nextId);
        } else {
          RoundEnrol(c, d, e, w.nextId);
        }
      }
      BookedEnrol(c, d, e, w.nextId);
      if c.flags.once {
        OnceEnrol(c, d, e, w.nextId);
      }
      GoodStep(w, r, i, d);
    }
  }

  lemma {:induction false} OnceEnrol(c: Chan, d: Chan, e: Entry, n: nat)
    requires OnceSound(c, n) && c.line.Some? && Increasing(Whole(c.line.value)) && Below(Whole(c.line.value), n)
    requires e.id == n && (Ahead(d) == Ahead(c) + [e] || Ahead(d) == Ahead(c))
    requires d.hist.queued == c.hist.queued && Called(d.hist) == Called(c.hist)
    requires d.memory == c.memory && d.queue == c.queue && d.firing == c.firing
    ensures OnceSound(d, n + 1)
  {
    var l := c.line.value;
    forall k | 0 <= k < |l.next| ensures l.next[k].id < n {
      assert Whole(l)[|l.past| + k] == l.next[k];
    }
    assert Called(d.hist) + (Ahead(c) + [e]) == (Called(c.hist) + Ahead(c)) + [e];
  }

  lemma {:induction false} GoodEnrol(w: World, i: nat, fs: seq<Fn>)
    requires Good(w) && i < |w.chans| && w.chans[i].line.Some? && w.chans[i].gap.missing == 0
    ensures Good(Enrol(w, i, fs))
    decreases |fs|
  {
    if fs != [] {
      GoodEnrolOne(w, i, fs[0]);
      GoodEnrol(EnrolOne(w, i, fs[0]), i, fs[1..]);
    }
  }

  lemma {:induction false} SplitIncreasing(a: seq<Entry>, b: seq<Entry>, n: nat)
    requires Increasing(a + b) && Below(a + b, n)
    ensures Increasing(a) && Increasing(b) && Below(a, n) && Below(b, n)
    ensures forall x, y :: 0 <= x < |a| && 0 <= y < |b| ==> a[x].id < b[y].id
  {
    forall k | 0 <= k < |b| ensures b[k] == (a + b)[|a| + k] {}
    forall k | 0 <= k < |a| ensures a[k] == (a + b)[k] {}
    forall x, y | 0 <= x < y < |b| ensures b[x].id < b[y].id {
      assert (a + b)[|a| + x].id < (a + b)[|a| + y].id;
    }
  }

  lemma {:induction false} JoinWithout(a: seq<Entry>, b: seq<Entry>, f: Fn, n: nat)
    requires Increasing(a + b) && Below(a + b, n)
    ensures Increasing(Without(a, f) + Without(b, f)) && Below(Without(a, f) + Without(b, f), n)
    ensures Increasing(a + Without(b, f))
  {
    SplitIncreasing(a, b, n);
    WithoutIncreasing(a, f);
    WithoutIncreasing(b, f);
    WithoutBelow(a, f, n);
    WithoutBelow(b, f, n);
    forall x, y | 0 <= x < |Without(a, f)| && 0 <= y < |Without(b, f)|
      ensures Without(a, f)[x].id < Without(b, f)[y].id
    {
      assert Without(a, f)[x] in a && Without(b, f)[y] in b;
    }
    forall x, y | 0 <= x < |a| && 0 <= y < |Without(b, f)| ensures a[x].id < Without(b, f)[y].id {
      assert Without(b, f)[y] in b;
    }
  }

  lemma {:induction false} WithoutMeans(s: seq<Entry>, f: Fn, e: Entry)
    ensures e in Without(s, f) <==> e in s && e.fn != f
  {
    if s != [] {
      WithoutMeans(s[1..], f, e);
      assert s == [s[0]] + s[1..];
    }
  }

  lemma {:induction false} SameId(s: seq<Entry>, e: Entry, x: Entry)
    requires Increasing(s) && e in s && x in s && e.id == x.id
    ensures e == x
  {
    var a :| 0 <= a < |s| && s[a] == e;
    var b :| 0 <= b < |s| && s[b] == x;
    assert a == b;
  }

  /** What a removal takes off the list, and what it leaves there. */
  lemma {:induction false} LostMeans(c: Chan, l: Line, f: Fn, n: nat)
    requires Increasing(Whole(l)) && Gone(Whole(l), c.hist.dropped)
    requires c.hist.passed <= AllIds(l.past) + c.hist.dropped
    ensures Gone(Without(l.past, f) + Without(l.next, f), c.hist.dropped + Lost(c, l, f))
    ensures c.hist.passed <= AllIds(Without(l.past, f)) + (c.hist.dropped + Lost(c, l, f))
  {
    var left := Without(l.past, f) + Without(l.next, f);
    forall k | 0 <= k < |left| ensures left[k].id !in c.hist.dropped + Lost(c, l, f) {
      var e := left[k];
      WithoutMeans(l.past, f, e);
      WithoutMeans(l.next, f, e);
      assert e in Without(l.past, f) || e in Without(l.next, f);
      assert e in Whole(l) && e.fn != f;
      if e.id in Lost(c, l, f) {
        var x :| (x in l.next || x in l.past) && x.fn == f && x.id == e.id;
        assert x in Whole(l);
        SameId(Whole(l), e, x);
      }
    }
    forall p | p in c.hist.passed && p !in c.hist.dropped && p !in Lost(c, l, f)
      ensures p in AllIds(Without(l.past, f))
    {
      var x :| x in l.past && x.id == p;
      WithoutMeans(l.past, f, x);
      assert x.fn == f ==> p in Ids(l.past, f);
    }
  }

  lemma {:induction false} KeepMeans(s: seq<Entry>, g: set<nat>, e: Entry)
    ensures e in Keep(s, g) <==> e in s && e.id !in g
  {
    if s != [] {
      KeepMeans(s[1..], g, e);
      assert s == [s[0]] + s[1..];
    }
  }

  lemma {:induction false} DeedsPush(deeds: seq<Deed>, d: Deed)
    ensures CallsIn(deeds + [d]) == CallsIn(deeds) + if d.Calls? then [d.entry] else []
    ensures Taken(deeds + [d]) == Taken(deeds) + if d.TakesOff? then d.gone else {}
  {
    assert (deeds + [d])[..|deeds|] == deeds;
  }

  lemma {:induction false} OrderPush(deeds: seq<Deed>, d: Deed)
    requires InOrder(deeds) && (d.Calls? ==> d.entry !in Taken(deeds))
    ensures InOrder(deeds + [d])
  {
    var all := deeds + [d];
    forall j, k | 0 <= j < k < |all| && all[j].TakesOff? && all[k].Calls? ensures all[k].entry !in all[j].gone {
      if k == |deeds| {
        TakenThere(deeds, j);
      }
    }
  }

  /** Which deed took `e` off. */
  lemma {:induction false} WhoTook(deeds: seq<Deed>, e: Entry) returns (j: nat)
    requires e in Taken(deeds)
    ensures j < |deeds| && deeds[j].TakesOff? && e in deeds[j].gone
  {
    j := |deeds| - 1;
    if !(deeds[j].TakesOff? && e in deeds[j].gone) {
      j := WhoTook(deeds[..j], e);
    }
  }

  lemma {:induction false} TakenThere(deeds: seq<Deed>, j: nat)
    requires j < |deeds| && deeds[j].TakesOff?
    ensures deeds[j].gone <= Taken(deeds)
  {
    if j < |deeds| - 1 {
      TakenThere(deeds[..|deeds| - 1], j);
    }
  }

  /** Some registrations are taken off the list: everybody in `gone`, and `lost` are the numbers of those
      who had no turn yet. */
  lemma {:induction false} BookedTake(c: Chan, d: Chan, gone: set<Entry>, n: nat)
    requires Booked(c, n) && c.firing && RoundSound(c, n) && c.line.Some?
    requires d.hist == c.hist.(dropped := d.hist.dropped, deeds := c.hist.deeds + [TakesOff(gone)])
    requires forall e :: e in gone ==> e in Whole(c.line.value)
    requires d.line.Some? ==> forall e :: e in Whole(d.line.value) ==> e in Whole(c.line.value) && e !in gone
    requires forall x :: x in d.hist.dropped <==>
               x in c.hist.dropped || exists e :: e in gone && e.id == x && (e in Ahead(c) || x in c.hist.passed)
    ensures Booked(d, n)
  {
    DeedsPush(c.hist.deeds, TakesOff(gone));
    OrderPush(c.hist.deeds, TakesOff(gone));
    forall e | e in c.hist.arrivals
      ensures e.id in d.hist.dropped <==> e in Taken(d.hist.deeds) && e !in c.hist.ran
    {
      KeepMeans(c.hist.arrivals, Out(c.hist), e);
      assert e in c.hist.ran + Ahead(c) <==> e.id !in Out(c.hist);
      TurnIsLost(c, gone, e, n);
    }
  }

  lemma {:induction false} TurnIsLost(c: Chan, gone: set<Entry>, e: Entry, n: nat)
    requires Booked(c, n) && c.firing && RoundSound(c, n) && c.line.Some?
    requires e in c.hist.arrivals && forall x :: x in gone ==> x in Whole(c.line.value)
    ensures e.id !in c.hist.dropped ==>
              ((exists x :: x in gone && x.id == e.id && (x in Ahead(c) || e.id in c.hist.passed))
               <==> e in gone && e !in c.hist.ran)
  {
    KeepMeans(c.hist.arrivals, Out(c.hist), e);
    assert e in c.hist.ran + Ahead(c) <==> e.id !in Out(c.hist);
    if x :| x in gone && x.id == e.id && (x in Ahead(c) || e.id in c.hist.passed) {
      SameId(c.hist.enrolled, e, x);
      if e in Ahead(c) {
        KeepIncreasing(c.hist.arrivals, Out(c.hist));
        NotBoth(c.hist.ran, Ahead(c), e);
      }
    }
  }

  lemma {:induction false} NotBoth(a: seq<Entry>, b: seq<Entry>, e: Entry)
    requires Increasing(a + b) && e in b
    ensures e !in a
  {
    var y :| 0 <= y < |b| && b[y] == e;
    forall x | 0 <= x < |a| ensures a[x] != e {
      assert (a + b)[x].id < (a + b)[|a| + y].id;
    }
  }

  lemma {:induction false} RoundRemoveOne(c: Chan, d: Chan, f: Fn, n: nat)
    requires RoundSound(c, n) && c.line.Some?
    requires Increasing(Whole(c.line.value)) && Below(Whole(c.line.value), n)
    requires d.line == Some(Line(Without(c.line.value.past, f), Without(c.line.value.next, f)))
    requires d.hist == c.hist.(dropped := c.hist.dropped + Lost(c, c.line.value, f), deeds := d.hist.deeds)
    ensures RoundSound(d, n)
  {
    var l := c.line.value;
    KeepIncreasing(c.hist.arrivals, Out(c.hist));
    RoundRemove(c.hist.ran, l.next, c.hist.arrivals, Out(c.hist), f);
    assert Out(d.hist) == Out(c.hist) + Ids(l.next, f);
    LostMeans(c, l, f, n);
    forall x | x in Ids(l.next, f) ensures x < n {
      var e :| e in l.next && e.fn == f && e.id == x;
      assert e in Whole(l);
    }
  }

  lemma {:induction false} BookedRemove(c: Chan, d: Chan, f: Fn, n: nat)
    requires Booked(c, n) && c.line.Some? && (c.firing ==> RoundSound(c, n)) && d.firing == c.firing
    requires d.line == Some(Line(Without(c.line.value.past, f), Without(c.line.value.next, f)))
    requires d.hist == c.hist.(dropped := c.hist.dropped + Lost(c, c.line.value, f),
                               deeds := c.hist.deeds + [TakesOff(Registrations(c.line.value, f))])
    ensures Booked(d, n)
  {
    var l := c.line.value;
    forall e | e in Whole(d.line.value) ensures e in Whole(l) && e !in Registrations(l, f) {
      WithoutMeans(l.past, f, e);
      WithoutMeans(l.next, f, e);
    }
    if c.firing {
      forall x
        ensures x in Lost(c, l, f) <==>
                exists e :: e in Registrations(l, f) && e.id == x && (e in Ahead(c) || x in c.hist.passed)
      {
        LostIs(c, l, f, x);
      }
      BookedTake(c, d, Registrations(l, f), n);
    }
  }

  lemma {:induction false} LostIs(c: Chan, l: Line, f: Fn, x: nat)
    ensures x in Lost(c, l, f) <==>
            exists e :: e in Registrations(l, f) && e.id == x && (e in l.next || x in c.hist.passed)
  {
    if x in Lost(c, l, f) {
      var e :| (e in l.next || (e in l.past && x in c.hist.passed)) && e.fn == f && e.id == x;
      assert e in Registrations(l, f);
    }
  }

  lemma {:induction false} GoodRemoveOne(w: World, i: nat, f: Fn)
    requires Good(w) && i < |w.chans| && w.chans[i].line.Some?
    ensures Good(RemoveOne(w, i, f))
  {
    var c := w.chans[i];
    var l := c.line.value;
    var r := RemoveOne(w, i, f);
    var d := r.chans[i];
    assert Sound(c, w.nextId);
    JoinWithout(l.past, l.next, f, w.nextId);
    if c.firing {
      RoundRemoveOne(c, d, f, w.nextId);
    }
    BookedRemove(c, d, f, w.nextId);
    if c.flags.once {
      OnceRemove(c, d, f, w.nextId);
    }
    GoodStep(w, r, i, d);
  }

  lemma {:induction false} OnceRemove(c: Chan, d: Chan, f: Fn, n: nat)
    requires OnceSound(c, n) && c.line.Some? && Increasing(Whole(c.line.value)) && Below(Whole(c.line.value), n)
    requires Ahead(d) == Without(Ahead(c), f) && d.hist.queued == c.hist.queued && Called(d.hist) == Called(c.hist)
    requires d.memory == c.memory && d.queue == c.queue && d.firing == c.firing
    ensures OnceSound(d, n)
  {
    SplitIncreasing(c.line.value.past, c.line.value.next, n);
    JoinWithout(Called(c.hist), Ahead(c), f, n);
  }

  lemma {:induction false} GoodRemove(w: World, i: nat, fs: seq<Fn>)
    requires Good(w) && i < |w.chans| && w.chans[i].line.Some?
    ensures Good(RemoveAll(w, i, fs))
    decreases |fs|
  {
    if fs != [] {
      GoodRemoveOne(w, i, fs[0]);
      GoodRemove(RemoveOne(w, i, fs[0]), i, fs[1..]);
    }
  }

  lemma {:induction false} GoodRepair(w: World, i: nat)
    requires Good(w) && i < |w.chans|
    ensures Good(Repair(w, i))
  {
    var d := Repair(w, i).chans[i];
    assert Sound(w.chans[i], w.nextId);
    assert Ahead(d) == Ahead(w.chans[i]);
    GoodStep(w, Repair(w, i), i, d);
  }

  /** Keeping everything but the tail of what was kept. */
  lemma {:induction false} KeepPrefix(arrivals: seq<Entry>, out: set<nat>, ran: seq<Entry>, next: seq<Entry>)
    requires Increasing(ran + next) && ran + next == Keep(arrivals, out)
    ensures ran == Keep(arrivals, out + AllIds(next))
  {
    KeepTwice(arrivals, out, AllIds(next));
    KeepSplit(ran, next, AllIds(next));
    forall k, e | 0 <= k < |ran| && e in next ensures ran[k].id != e.id {
      var m :| 0 <= m < |next| && next[m] == e;
      assert (ran + next)[k] == ran[k] && (ran + next)[|ran| + m] == e;
    }
    KeepAll(ran, AllIds(next));
    KeepNone(next, AllIds(next));
    assert ran + [] == ran;
  }

  /** A round whose list is thrown away loses everything that was still waiting. */
  lemma {:induction false} RoundUnlisted(c: Chan, d: Chan, n: nat)
    requires RoundSound(c, n) && c.firing
    requires c.line.Some? ==> Increasing(Whole(c.line.value)) && Below(Whole(c.line.value), n)
    requires d.hist == Unlisted(c).hist && Ahead(d) == [] && PastIds(d) == {}
    requires d.line.Some? ==> Whole(d.line.value) == []
    ensures RoundSound(d, n)
  {
    assert d.hist.ran + [] == d.hist.ran;
    if c.line.Some? {
      KeepIncreasing(c.hist.arrivals, Out(c.hist));
      KeepPrefix(c.hist.arrivals, Out(c.hist), c.hist.ran, c.line.value.next);
      assert Out(d.hist) == Out(c.hist) + AllIds(c.line.value.next);
      IdsBelow(c.line.value, n);
    }
  }

  lemma {:induction false} IdsBelow(l: Line, n: nat)
    requires Below(Whole(l), n)
    ensures forall x :: x in AllIds(l.next) ==> x < n
  {
    forall x | x in AllIds(l.next) ensures x < n {
      var m :| 0 <= m < |l.next| && l.next[m].id == x;
      assert Whole(l)[|l.past| + m] == l.next[m];
    }
  }

  lemma {:induction false} KeepNone(s: seq<Entry>, g: set<nat>)
    requires forall k :: 0 <= k < |s| ==> s[k].id in g
    ensures Keep(s, g) == []
  {
    if s != [] {
      KeepNone(s[1..], g);
    }
  }

  lemma {:induction false} OnceUnlisted(c: Chan, d: Chan, n: nat)
    requires OnceSound(c, n) && Ahead(d) == [] && d.hist.queued == c.hist.queued && Called(d.hist) == Called(c.hist)
    requires d.queue.None? || (d.memory == c.memory && d.queue == c.queue && d.firing == c.firing)
    ensures OnceSound(d, n)
  {
    assert forall k :: 0 <= k < |Called(c.hist)| ==> Called(c.hist)[k] == (Called(c.hist) + Ahead(c))[k];
    assert Called(d.hist) + Ahead(d) == Called(c.hist);
  }

  lemma {:induction false} BookedUnlisted(c: Chan, d: Chan, n: nat)
    requires Booked(c, n) && c.firing && RoundSound(c, n) && d.hist == Unlisted(c).hist
    requires d.line.Some? ==> Whole(d.line.value) == []
    ensures Booked(d, n)
  {
    if c.line.Some? {
      var l := c.line.value;
      forall x
        ensures x in d.hist.dropped <==>
                x in c.hist.dropped
                || exists e :: e in Everybody(l) && e.id == x && (e in Ahead(c) || x in c.hist.passed)
      {
        if x in AllIds(l.next) {
          var e :| e in l.next && e.id == x;
          assert e in Everybody(l);
        } else if x in c.hist.passed && x !in c.hist.dropped {
          var e :| e in l.past && e.id == x;
          assert e in Everybody(l);
        }
      }
      BookedTake(c, d, Everybody(l), n);
    }
  }

  lemma {:induction false} GoodUnlisted(w: World, r: World, i: nat, d: Chan)
    requires Good(w) && i < |w.chans| && r == w.(chans := w.chans[i := d])
    requires d == Unlisted(w.chans[i]).(line := None, queue := None, memory := Unfired)
             || d == Unlisted(w.chans[i]).(line := Some(Line([], [])))
    ensures Good(r)
  {
    var c := w.chans[i];
    assert Sound(c, w.nextId);
    if c.firing {
      RoundUnlisted(c, d, w.nextId);
      BookedUnlisted(c, d, w.nextId);
    }
    if c.flags.once {
      OnceUnlisted(c, d, w.nextId);
    }
    GoodStep(w, r, i, d);
  }

  lemma {:induction false} GoodDisable(w: World, i: nat)
    requires Good(w)
    ensures Good(DisableChan(w, i)) && Good(EmptyChan(w, i))
  {
    if i < |w.chans| {
      GoodUnlisted(w, DisableChan(w, i), i, DisableChan(w, i).chans[i]);
      GoodUnlisted(w, EmptyChan(w, i), i, EmptyChan(w, i).chans[i]);
    }
  }

  lemma {:induction false} GoodLock(w: World, i: nat)
    requires Good(w)
    ensures Good(LockChan(w, i))
  {
    if i < |w.chans| {
      var d := w.chans[i].(queue := None);
      var w1 := w.(chans := w.chans[i := d]);
      assert Sound(w.chans[i], w.nextId);
      assert Ahead(d) == Ahead(w.chans[i]);
      GoodStep(w, w1, i, d);
      GoodDisable(w1, i);
    }
  }

  lemma {:induction false} GoodEnqueue(w: World, i: nat, a: Args)
    requires Good(w) && i < |w.chans| && w.chans[i].queue.Some? && !w.chans[i].flags.once
    ensures Good(Enqueue(w, i, a))
  {
    GoodStep(w, Enqueue(w, i, a), i, Enqueue(w, i, a).chans[i]);
  }

  lemma {:induction false} GoodDequeue(w: World, i: nat)
    requires Good(w) && i < |w.chans| && w.chans[i].queue.Some? && w.chans[i].queue.value != []
    requires !w.chans[i].flags.once
    ensures Good(Dequeue(w, i))
  {
    var q := w.chans[i].queue.value;
    var d := Dequeue(w, i).chans[i];
    assert q == [q[0]] + q[1..];
    assert d.hist.resumed + q[1..] == w.chans[i].hist.resumed + q;
    GoodStep(w, Dequeue(w, i), i, d);
  }

  lemma {:induction false} SkipIncreasing(t: seq<Entry>, list: seq<Entry>, start: nat)
    requires Increasing(t + list) && start <= |list|
    ensures Increasing(t + list[start..])
  {
    forall x, y | 0 <= x < y < |t + list[start..]|
      ensures (t + list[start..])[x].id < (t + list[start..])[y].id
    {
      var x' := if x < |t| then x else x + start;
      var y' := if y < |t| then y else y + start;
      assert (t + list)[x'].id < (t + list)[y'].id;
    }
  }

  lemma {:induction false} TailIncreasing(list: seq<Entry>, start: nat, n: nat)
    requires Increasing(list) && Below(list, n) && start <= |list|
    ensures Increasing(list[start..]) && Below(list[start..], n)
  {
  }

  lemma {:induction false} CutList(list: seq<Entry>, start: nat)
    requires start <= |list|
    ensures list[..start] + list[start..] == list
    ensures [] + list[start..] == Keep(list[start..], {} + {})
  {
    KeepAll(list[start..], {} + {});
  }

  lemma {:induction false} BeginOnce(c: Chan, list: seq<Entry>, start: nat, d: Chan, n: nat, i: nat)
    requires c.flags.once && OnceSound(c, n) && c.line == Some(Line([], list)) && start <= |list|
    requires d.hist.before == AllCalls(i, c.hist) && d.hist.ran == [] && d.hist.queued == c.hist.queued
    requires d.line == Some(Line(list[..start], list[start..])) && d.memory != Unfired
    ensures OnceSound(d, n)
  {
    assert Called(d.hist) == Called(c.hist);
    SkipIncreasing(Called(c.hist), list, start);
  }

  lemma {:induction false} BookedBegin(c: Chan, d: Chan, list: seq<Entry>, start: nat, n: nat)
    requires Numbered(c, n) && c.line == Some(Line([], list)) && start <= |list|
    requires d.line == Some(Line(list[..start], list[start..]))
    requires d.hist.enrolled == c.hist.enrolled && d.hist.arrivals == list[start..]
    requires d.hist.dropped == {} && d.hist.ran == [] && d.hist.deeds == []
    ensures Booked(d, n)
  {
    assert forall e :: e in Whole(d.line.value) ==> e in Whole(c.line.value);
  }

  lemma {:induction false} GoodBegin(w: World, i: nat, start: nat, a: Args)
    requires Good(w) && i < |w.chans| && w.chans[i].line.Some? && !w.chans[i].firing
    requires start <= |Whole(w.chans[i].line.value)|
    ensures Good(Begin(w, i, start, a))
  {
    var c := w.chans[i];
    assert Sound(c, w.nextId);
    var list := Whole(c.line.value);
    var r := Begin(w, i, start, a);
    var d := r.chans[i];
    assert c.line.value.past == [] && list == c.line.value.next;
    assert c.line == Some(Line([], list));
    TailIncreasing(list, start, w.nextId);
    CutList(list, start);
    assert RoundSound(d, w.nextId);
    BookedBegin(c, d, list, start, w.nextId);
    if c.flags.once {
      BeginOnce(c, list, start, d, w.nextId, i);
    }
    assert AllCalls(i, d.hist) == AllCalls(i, c.hist);
    assert Sound(d, r.nextId);
    GoodStep(w, r, i, d);
  }

  lemma {:induction false} OnAppend(log: seq<Call>, x: Call, j: nat)
    ensures On(log + [x], j) == On(log, j) + (if x.on == j then [x] else [])
  {
    assert (log + [x])[..|log|] == log;
  }

  lemma {:induction false} BookedAdvance(c: Chan, d: Chan, n: nat)
    requires Booked(c, n) && c.firing && RoundSound(c, n) && c.line.Some? && c.line.value.next != []
    requires d.line.Some? && Whole(d.line.value) == Whole(c.line.value)
    requires d.hist == c.hist.(ran := c.hist.ran + [c.line.value.next[0]],
                               deeds := c.hist.deeds + [Calls(c.line.value.next[0])])
    ensures Booked(d, n)
  {
    var l := c.line.value;
    var e := l.next[0];
    DeedsPush(c.hist.deeds, Calls(e));
    OrderPush(c.hist.deeds, Calls(e));
    assert Whole(l)[|l.past|] == e;
    assert e in Whole(l) && e.id !in c.hist.dropped;
  }

  lemma {:induction false} GoodAdvance(w: World, i: nat)
    requires Good(w) && HasNext(w, i) && w.chans[i].firing
    ensures Good(Advance(w, i))
  {
    var c := w.chans[i];
    var l := c.line.value;
    var r := Advance(w, i);
    var d := r.chans[i];
    var x := Call(i, l.next[0], c.hist.args);
    assert Whole(d.line.value) == Whole(l);
    assert d.hist.ran + d.line.value.next == c.hist.ran + l.next;
    assert Called(d.hist) + Ahead(d) == Called(c.hist) + Ahead(c);
    assert Called(d.hist) == Called(c.hist) + [l.next[0]];
    assert Whole(l)[|l.past|] == l.next[0];
    assert AllCalls(i, d.hist) == AllCalls(i, c.hist) + [x];
    BookedAdvance(c, d, w.nextId);
    forall j | 0 <= j < |r.chans| ensures On(r.log, j) == AllCalls(j, r.chans[j].hist) {
      OnAppend(w.log, x, j);
    }
    forall j | 0 <= j < |r.chans| ensures Sound(r.chans[j], r.nextId) {
      assert Sound(w.chans[j], w.nextId);
    }
  }

  lemma {:induction false} GoodHalt(w: World, i: nat)
    requires Good(w) && i < |w.chans| && w.chans[i].firing
    ensures Good(Halt(w, i))
  {
    assert Ahead(Halt(w, i).chans[i]) == Ahead(w.chans[i]);
    GoodStep(w, Halt(w, i), i, Halt(w, i).chans[i]);
  }

  /** Closing the round of a list that is to be fired again. */
  lemma {:induction false} GoodQuiet(w: World, i: nat)
    requires Good(w) && i < |w.chans| && !(w.chans[i].flags.once && w.chans[i].line.Some?)
    ensures Good(Quiet(w, i))
  {
    var d := Quiet(w, i).chans[i];
    if d.line.Some? {
      assert Whole(d.line.value) == Whole(w.chans[i].line.value);
    } else {
      assert Ahead(d) == Ahead(w.chans[i]);
    }
    GoodStep(w, Quiet(w, i), i, d);
  }

  /** Closing the round of a once-list. */
  lemma {:induction false} GoodClear(w: World, i: nat)
    requires Good(w) && i < |w.chans| && w.chans[i].flags.once && w.chans[i].firing
    requires w.chans[i].line.Some?
    ensures Good(Clear(Quiet(w, i), i))
  {
    var c := w.chans[i];
    var d := Clear(Quiet(w, i), i).chans[i];
    assert forall k :: 0 <= k < |Called(c.hist)| ==> Called(c.hist)[k] == (Called(c.hist) + Ahead(c))[k];
    assert Called(d.hist) + Ahead(d) == Called(c.hist);
    GoodStep(w, Clear(Quiet(w, i), i), i, d);
  }

  lemma {:induction false} GoodClearOut(w: World, i: nat)
    requires i < |w.chans| && Good(Clear(Quiet(w, i), i))
    ensures Good(DisableChan(Quiet(w, i), i))
  {
    GoodDisable(Clear(Quiet(w, i), i), i);
    assert DisableChan(Clear(Quiet(w, i), i), i) == DisableChan(Quiet(w, i), i);
  }

  // ---------------------------------------------------------------- whole operations

  lemma {:induction false} IdleStep(w: World, r: World, i: nat)
    requires IdleBut(w, i) && i < |w.chans| == |r.chans|
    requires r.chans == w.chans[i := r.chans[i]] && Idle(r.chans[i])
    ensures AllIdle(r)
  {
  }

  lemma {:induction false} DropIdle(w: World, i: nat)
    requires AllIdle(w)
    ensures AllIdle(DisableChan(w, i)) && AllIdle(LockChan(w, i)) && AllIdle(EmptyChan(w, i))
  {
    if i < |w.chans| {
      IdleStep(w, DisableChan(w, i), i);
      IdleStep(w, LockChan(w, i), i);
      IdleStep(w, EmptyChan(w, i), i);
    }
  }

  lemma {:induction false} EnrolIdle(w: World, i: nat, fs: seq<Fn>)
    requires i < |w.chans| && w.chans[i].line.Some? && AllIdle(w)
    ensures AllIdle(Enrol(w, i, fs))
    decreases |fs|
  {
    if fs != [] {
      EnrolIdle(EnrolOne(w, i, fs[0]), i, fs[1..]);
    }
  }

  lemma {:induction false} RemoveIdle(w: World, i: nat, fs: seq<Fn>)
    requires i < |w.chans| && w.chans[i].line.Some? && AllIdle(w)
    ensures AllIdle(RemoveAll(w, i, fs))
    decreases |fs|
  {
    if fs != [] {
      RemoveIdle(RemoveOne(w, i, fs[0]), i, fs[1..]);
    }
  }

  lemma {:induction false} GoodAdd(w: World, i: nat, fs: seq<Fn>)
    requires Good(w) && AllIdle(w) && i < |w.chans| && w.chans[i].line.Some?
    ensures var r := Enrol(Repair(w, i), i, fs);
            Good(r) && AllIdle(r) && (!w.crashed ==> r.chans[i].firing == w.chans[i].firing)
  {
    GoodRepair(w, i);
    GoodEnrol(Repair(w, i), i, fs);
    EnrolIdle(Repair(w, i), i, fs);
    AddCalm(w, i, fs);
  }

  /** Any operation, on any list, in the middle of any rounds, with any user code. */
  lemma {:induction false} DoGood(w: World, op: Op)
    requires Good(w) && AllIdle(w)
    ensures Good(Do(w, op)) && AllIdle(Do(w, op))
    decreases |w.scripts|, 1, 0, 0, 0
  {
    var i := op.on;
    if !w.crashed && i < |w.chans| {
      var c := w.chans[i];
      match op
      case Add(_, fs) =>
        if c.line.Some? {
          GoodAdd(w, i, fs);
          if !c.firing && c.memory.Kept? {
            RoundGood(Enrol(Repair(w, i), i, fs), i, |Whole(c.line.value)|, c.memory.args);
          }
        }
      case Remove(_, fs) =>
        if c.line.Some? {
          GoodRemove(w, i, fs);
          RemoveIdle(w, i, fs);
        }
      case FireWith(_, a) =>
        if c.queue.Some? {
          if c.firing {
            if !c.flags.once {
              GoodEnqueue(w, i, a);
              IdleStep(w, Enqueue(w, i, a), i);
            }
          } else if c.line.Some? && !(c.flags.once && c.memory != Unfired) {
            RoundGood(w, i, 0, a);
          }
        }
      case Disable(_) =>
        GoodDisable(w, i);
        DropIdle(w, i);
      case Lock(_) =>
        GoodLock(w, i);
        DropIdle(w, i);
      case Empty(_) =>
        GoodDisable(w, i);
        DropIdle(w, i);
    }
  }

  lemma {:induction false} DoAllGood(w: World, ops: seq<Op>)
    requires Good(w) && AllIdle(w)
    ensures Good(DoAll(w, ops)) && AllIdle(DoAll(w, ops))
    decreases |w.scripts|, 2, |ops|, 0, 0
  {
    if ops != [] {
      DoGood(w, ops[0]);
      DoAllGood(Do(w, ops[0]), ops[1..]);
    }
  }

  lemma {:induction false} BodyGood(w: World, f: Fn)
    requires Good(w) && AllIdle(w)
    ensures Good(Body(w, f)) && AllIdle(Body(w, f))
    decreases |w.scripts|, 0, 0, 0, 0
  {
    match f
    case User(_) =>
      if w.scripts != [] {
        DoAllGood(w.(scripts := w.scripts[1..]), w.scripts[0].ops);
      }
    case Setter(_) =>
    case Disabler(j) =>
      GoodDisable(w, j);
      DropIdle(w, j);
    case Locker(j) =>
      GoodLock(w, j);
      DropIdle(w, j);
  }

  /** One turn of the loop. */
  lemma {:induction false} TurnGood(w: World, i: nat)
    requires Good(w) && AllIdle(w) && HasNext(w, i) && w.chans[i].firing
    ensures var w2 := Body(Advance(w, i), w.chans[i].line.value.next[0].fn);
            Good(w2) && AllIdle(w2) && w2.chans[i].firing && w2.chans[i].flags == w.chans[i].flags
    decreases |w.scripts|, 0, 0, 1, 0
  {
    var f := w.chans[i].line.value.next[0].fn;
    var w1 := Advance(w, i);
    GoodAdvance(w, i);
    BodyGood(w1, f);
    BodyCalm(w1, f);
    assert Undisturbed(w1.chans[i], Body(w1, f).chans[i]);
  }

  /** Unless a callback may stop the round, the loop serves the whole line. */
  lemma {:induction false} LoopGood(w: World, i: nat)
    requires Good(w) && AllIdle(w) && i < |w.chans| && w.chans[i].firing
    ensures Good(Loop(w, i)) && AllIdle(Loop(w, i)) && Loop(w, i).chans[i].firing
    ensures !w.chans[i].flags.stopOnFalse && !Loop(w, i).crashed ==> NextLen(Loop(w, i).chans[i]) == 0
    decreases |w.scripts|, 0, QueueLen(w.chans[i]), 1, NextLen(w.chans[i])
  {
    if !w.crashed && HasNext(w, i) {
      var f := w.chans[i].line.value.next[0].fn;
      var w1 := Advance(w, i);
      var w2 := Body(w1, f);
      TurnGood(w, i);
      if !w2.crashed && Stops(w1, f) && w.chans[i].flags.stopOnFalse {
        GoodHalt(w2, i);
      } else {
        LoopGood(w2, i);
      }
    }
  }

  lemma {:induction false} RoundGood(w: World, i: nat, start: nat, a: Args)
    requires Good(w) && IdleBut(w, i) && i < |w.chans| && w.chans[i].line.Some? && !w.chans[i].firing
    requires start <= |Whole(w.chans[i].line.value)|
    ensures Good(Round(w, i, start, a)) && AllIdle(Round(w, i, start, a))
    decreases |w.scripts|, 0, QueueLen(w.chans[i]), 3, 0
  {
    GoodBegin(w, i, start, a);
    LoopGood(Begin(w, i, start, a), i);
    if !Loop(Begin(w, i, start, a), i).crashed {
      FinishGood(Loop(Begin(w, i, start, a), i), i);
    }
  }

  lemma {:induction false} FinishGood(w: World, i: nat)
    requires Good(w) && AllIdle(w) && i < |w.chans| && w.chans[i].firing
    ensures Good(Finish(w, i)) && AllIdle(Finish(w, i))
    decreases |w.scripts|, 0, QueueLen(w.chans[i]), 2, 0
  {
    var c := w.chans[i];
    if c.line.Some? && c.flags.once {
      FinishOnce(w, i);
    } else {
      GoodQuiet(w, i);
      var w1 := Quiet(w, i);
      if c.line.Some? && c.queue.Some? && c.queue.value != [] {
        GoodDequeue(w1, i);
        RoundGood(Dequeue(w1, i), i, 0, c.queue.value[0]);
      }
    }
  }

  lemma {:induction false} FinishOnce(w: World, i: nat)
    requires Good(w) && AllIdle(w) && i < |w.chans| && w.chans[i].firing
    requires w.chans[i].line.Some? && w.chans[i].flags.once
    ensures Good(Finish(w, i)) && AllIdle(Finish(w, i))
  {
    GoodClear(w, i);
    GoodClearOut(w, i);
    OnceQueueIsEmpty(w.chans[i], w.nextId);
    FinishOnceIs(w, i);
    IdleStep(w, Finish(w, i), i);
  }

  lemma {:induction false} FinishOnceIs(w: World, i: nat)
    requires i < |w.chans| && w.chans[i].line.Some? && w.chans[i].flags.once
    ensures var d := Finish(w, i).chans[i];
            && |Finish(w, i).chans| == |w.chans| && Finish(w, i).chans == w.chans[i := d]
            && !d.firing && QueueLen(d) <= QueueLen(w.chans[i])
  {
  }

  lemma {:induction false} OnceQueueIsEmpty(c: Chan, n: nat)
    requires Sound(c, n) && c.flags.once
    ensures QueueLen(c) == 0
  {
  }

  // ---------------------------------------------------------------- one round

  /** A list on which a round can be opened. */
  predicate Ready(w: World, i: nat) {
    && Good(w) && IdleBut(w, i) && !w.crashed
    && i < |w.chans| && w.chans[i].line.Some? && !w.chans[i].firing
  }

  /** What is on a list that is not firing. */
  function Listing(w: World, i: nat): seq<Entry>
    requires i < |w.chans| && w.chans[i].line.Some?
  {
    Whole(w.chans[i].line.value)
  }

  /** When a round opened at position `start` has made its last call. */
  function Served(w: World, i: nat, start: nat, a: Args): (r: World)
    requires Ready(w, i) && start <= |Listing(w, i)|
    ensures |r.chans| == |w.chans|
  {
    Loop(Begin(w, i, start, a), i)
  }

  /** The entries a round is about: those on the list from its start position on, and those registered
      since. */
  function Concerned(w: World, r: World, i: nat, start: nat): seq<Entry>
    requires i < |w.chans| == |r.chans| && w.chans[i].line.Some? && start <= |Listing(w, i)|
    requires w.chans[i].hist.enrolled <= r.chans[i].hist.enrolled
  {
    Listing(w, i)[start..] + r.chans[i].hist.enrolled[|w.chans[i].hist.enrolled|..]
  }

  /** The registration is still on the list. */
  predicate Listed(c: Chan, e: Entry) {
    c.line.Some? && e.id in AllIds(Whole(c.line.value))
  }

  /** Everybody who is still on the list has had a turn. */
  predicate NobodyForgotten(c: Chan, s: seq<Entry>) {
    forall e :: e in s && Listed(c, e) ==> e in c.hist.ran
  }

  lemma {:induction false} PrefixIncreasing(s: seq<Entry>, t: seq<Entry>)
    requires Increasing(s + t)
    ensures Increasing(s)
  {
    assert forall k :: 0 <= k < |s| ==> s[k] == (s + t)[k];
  }

  /** `e` was taken off the list before it was called. */
  predicate LostTurn(deeds: seq<Deed>, e: Entry) {
    exists k :: 0 <= k < |deeds| && deeds[k].TakesOff? && e in deeds[k].gone && Calls(e) !in deeds[..k]
  }

  lemma {:induction false} CallsInMeans(deeds: seq<Deed>, e: Entry)
    ensures e in CallsIn(deeds) <==> Calls(e) in deeds
  {
    if deeds != [] {
      var n := |deeds| - 1;
      CallsInMeans(deeds[..n], e);
      assert deeds == deeds[..n] + [deeds[n]];
    }
  }

  lemma {:induction false} LostTurnMeans(deeds: seq<Deed>, e: Entry)
    requires InOrder(deeds)
    ensures LostTurn(deeds, e) <==> e in Taken(deeds) && e !in CallsIn(deeds)
  {
    CallsInMeans(deeds, e);
    if LostTurn(deeds, e) {
      var k :| 0 <= k < |deeds| && deeds[k].TakesOff? && e in deeds[k].gone && Calls(e) !in deeds[..k];
      TakenThere(deeds, k);
      forall j | 0 <= j < |deeds| ensures deeds[j] != Calls(e) {
        if j < k {
          assert deeds[..k][j] == deeds[j];
        }
      }
    }
    if e in Taken(deeds) && e !in CallsIn(deeds) {
      var k := WhoTook(deeds, e);
      assert Calls(e) !in deeds[..k];
    }
  }

  /** What the deeds of a round say about the entry `e`. */
  lemma {:induction false} AccountedMeans(c: Chan, n: nat, e: Entry)
    requires Booked(c, n) && c.firing && e in c.hist.arrivals
    ensures e.id in c.hist.dropped <==> LostTurn(c.hist.deeds, e)
    ensures e in Taken(c.hist.deeds) ==> !Listed(c, e)
  {
    LostTurnMeans(c.hist.deeds, e);
    if e in Taken(c.hist.deeds) && Listed(c, e) {
      var x :| x in Whole(c.line.value) && x.id == e.id;
      SameId(c.hist.enrolled, e, x);
    }
  }

  /** What the account of a finished round means. */
  lemma {:induction false} AccountMeans(c: Chan, n: nat, s: seq<Entry>)
    requires RoundSound(c, n) && c.hist.arrivals == s && NextLen(c) == 0
    ensures c.hist.ran == Keep(s, Out(c.hist)) && Increasing(c.hist.ran)
    ensures NobodyForgotten(c, s) <==> c.hist.passed <= c.hist.dropped
  {
    assert c.hist.ran + [] == c.hist.ran;
    KeepIncreasing(s, Out(c.hist));
    forall e ensures e in c.hist.ran <==> e in s && e.id !in Out(c.hist) {
      KeepMeans(s, Out(c.hist), e);
    }
    if p :| p in c.hist.passed && p !in c.hist.dropped {
      var x :| x in s && x.id == p;
      assert p in PastIds(c);
      var y :| y in c.line.value.past && y.id == p;
      assert y in Whole(c.line.value) && Listed(c, x) && x !in c.hist.ran;
    } else {
      assert Out(c.hist) == c.hist.dropped;
    }
  }

  /** A round of a list that cannot be stopped by `false`.  Its calls are the next ones on that list;
      they are, in list order and each once, the entries the round is about, less those that were taken
      off the list before their turn and those that joined behind its back.  Who was taken off is gone
      from the list and is not called any more; and nobody on the list is forgotten if and only if
      everybody who joined behind the back of the round was taken off again. */
  lemma {:induction false} RoundCallsEachEntryOnce(w: World, i: nat, start: nat, a: Args)
    requires Ready(w, i) && start <= |Listing(w, i)| && !w.chans[i].flags.stopOnFalse
    requires !Served(w, i, start, a).crashed
    ensures var r := Served(w, i, start, a);
            var c := r.chans[i];
            && w.chans[i].hist.enrolled <= c.hist.enrolled
            && On(r.log, i) == On(w.log, i) + CallsOf(i, c.hist.ran, a)
            && Increasing(c.hist.ran) && CallsIn(c.hist.deeds) == c.hist.ran && InOrder(c.hist.deeds)
            && c.hist.ran == Keep(Concerned(w, r, i, start), c.hist.dropped + c.hist.passed)
            && (forall e :: e in Concerned(w, r, i, start) ==>
                  && (e.id in c.hist.dropped <==> LostTurn(c.hist.deeds, e))
                  && (e in c.hist.ran <==> !LostTurn(c.hist.deeds, e) && e.id !in c.hist.passed)
                  && (e in Taken(c.hist.deeds) ==> !Listed(c, e)))
            && (NobodyForgotten(c, Concerned(w, r, i, start)) <==> c.hist.passed <= c.hist.dropped)
  {
    GoodBegin(w, i, start, a);
    var w1 := Begin(w, i, start, a);
    LoopGood(w1, i);
    LoopCalm(w1, i);
    var r := Loop(w1, i);
    assert Sound(r.chans[i], r.nextId);
    var c := r.chans[i];
    AccountMeans(c, r.nextId, Concerned(w, r, i, start));
    forall e | e in Concerned(w, r, i, start)
      ensures e.id in c.hist.dropped <==> LostTurn(c.hist.deeds, e)
      ensures e in c.hist.ran <==> !LostTurn(c.hist.deeds, e) && e.id !in c.hist.passed
      ensures e in Taken(c.hist.deeds) ==> !Listed(c, e)
    {
      AccountedMeans(c, r.nextId, e);
      KeepMeans(Concerned(w, r, i, start), Out(c.hist), e);
    }
  }

  // ---------------------------------------------------------------- postponed firings

  /** How a list is left between two rounds: its entries and the calls made. */
  predicate LeftAs(r: World, s: World, i: nat) {
    && i < |r.chans| == |s.chans| && r.log == s.log
    && (r.chans[i].line.None? <==> s.chans[i].line.None?)
    && (r.chans[i].line.Some? ==> Listing(r, i) == Listing(s, i))
    && r.chans[i].hist.enrolled == s.chans[i].hist.enrolled
  }

  /** One round after another on list `i`: each is opened on the list and the log as the one before has
      left them, and after the last one comes `r`.  Only the first need not start at the front. */
  ghost predicate Rounds(i: nat, start: nat, worlds: seq<World>, args: seq<Args>, r: World)
    decreases |worlds|
  {
    && |worlds| == |args| > 0
    && Ready(worlds[0], i) && start <= |Listing(worlds[0], i)|
    && var s := Served(worlds[0], i, start, args[0]);
       && !s.crashed
       && if |worlds| == 1 then LeftAs(r, s, i)
          else LeftAs(worlds[1], s, i) && Rounds(i, 0, worlds[1..], args[1..], r)
  }

  lemma {:induction false} QuietLeaves(s: World, i: nat)
    requires i < |s.chans| && s.chans[i].firing && !s.crashed && Good(s) && AllIdle(s)
    requires !s.chans[i].flags.once
    ensures var q := Quiet(s, i);
            Good(q) && LeftAs(q, s, i) && !q.chans[i].firing && q.chans[i].hist == s.chans[i].hist
    ensures s.chans[i].line.Some? && QueueLen(s.chans[i]) > 0 ==>
              var d := Dequeue(Quiet(s, i), i);
              && Ready(d, i) && LeftAs(d, s, i) && !d.chans[i].flags.once
              && d.chans[i].hist.resumed == s.chans[i].hist.resumed + [s.chans[i].queue.value[0]]
  {
    GoodQuiet(s, i);
    var q := Quiet(s, i);
    if s.chans[i].line.Some? && QueueLen(s.chans[i]) > 0 {
      GoodDequeue(q, i);
    }
  }

  lemma {:induction false} ServedIsGood(w: World, i: nat, start: nat, a: Args)
    requires Ready(w, i) && start <= |Listing(w, i)|
    ensures var s := Served(w, i, start, a);
            && Good(s) && AllIdle(s) && s.chans[i].firing && s.chans[i].flags == w.chans[i].flags
            && s.chans[i].hist.resumed == w.chans[i].hist.resumed
  {
    GoodBegin(w, i, start, a);
    LoopGood(Begin(w, i, start, a), i);
    LoopCalm(Begin(w, i, start, a), i);
  }

  /** What comes after the first round. */
  predicate Resumes(s: World, i: nat) {
    i < |s.chans| && s.chans[i].line.Some? && QueueLen(s.chans[i]) > 0
  }

  function Resumed(s: World, i: nat): World
    requires Resumes(s, i)
  {
    Dequeue(Quiet(s, i), i)
  }

  lemma {:induction false} RoundIs(w: World, i: nat, start: nat, a: Args, s: World)
    requires Ready(w, i) && !w.chans[i].flags.once && start <= |Listing(w, i)| && s == Served(w, i, start, a)
    requires s.chans[i].flags == w.chans[i].flags && !s.crashed
    ensures Resumes(s, i) ==> Round(w, i, start, a) == Round(Resumed(s, i), i, 0, s.chans[i].queue.value[0])
    ensures !Resumes(s, i) ==> Round(w, i, start, a) == Quiet(s, i)
    ensures |s.scripts| <= |w.scripts| && (|s.scripts| == |w.scripts| ==> QueueLen(s.chans[i]) <= QueueLen(w.chans[i]))
  {
    assert Round(w, i, start, a) == Finish(s, i);
  }

  lemma {:induction false} RoundsOne(w: World, i: nat, start: nat, a: Args, r: World)
    requires Ready(w, i) && start <= |Listing(w, i)|
    requires !Served(w, i, start, a).crashed && LeftAs(r, Served(w, i, start, a), i)
    ensures Rounds(i, start, [w], [a], r)
  {
  }

  lemma {:induction false} ServedDidNotCrash(w: World, i: nat, start: nat, a: Args)
    requires Ready(w, i) && start <= |Listing(w, i)| && !Round(w, i, start, a).crashed
    ensures !Served(w, i, start, a).crashed
  {
  }

  /** A list with memory remembers its last firing, another one only that there was one; unless it was
      locked meanwhile. */
  predicate Remembers(c: Chan, d: Chan, last: Args) {
    c.flags == d.flags
    && (d.queue.Some? && !c.flags.stopOnFalse ==> d.memory == if c.flags.memory then Kept(last) else Halted)
  }

  lemma {:induction false} ServedRemembers(w: World, i: nat, start: nat, a: Args, s: World)
    requires Ready(w, i) && start <= |Listing(w, i)| && s == Served(w, i, start, a)
    ensures Remembers(w.chans[i], s.chans[i], a)
  {
    LoopCalm(Begin(w, i, start, a), i);
  }

  /** Unless it crashes, firing a list that is not a once-list is one round after another: the one asked
      for, and then one for each postponed firing taken from the queue, in that order. */
  lemma {:induction false} RoundThenPostponed(w: World, i: nat, start: nat, a: Args, r: World)
    returns (worlds: seq<World>, args: seq<Args>)
    requires Ready(w, i) && !w.chans[i].flags.once && start <= |Listing(w, i)|
    requires r == Round(w, i, start, a) && !r.crashed
    ensures Rounds(i, start, worlds, args, r) && worlds[0] == w && args[0] == a
    ensures w.chans[i].hist.resumed + args[1..] == r.chans[i].hist.resumed
    ensures Remembers(w.chans[i], r.chans[i], args[|args| - 1])
    decreases |w.scripts|, QueueLen(w.chans[i])
  {
    var s := Served(w, i, start, a);
    ServedDidNotCrash(w, i, start, a);
    ServedIsGood(w, i, start, a);
    QuietLeaves(s, i);
    ServedRemembers(w, i, start, a, s);
    RoundIs(w, i, start, a, s);
    if Resumes(s, i) {
      var d, b := Resumed(s, i), s.chans[i].queue.value[0];
      var more, rest := RoundThenPostponed(d, i, 0, b, r);
      worlds, args := [w] + more, [a] + rest;
      MoreRounds(w, i, start, a, d, b, more, rest, r);
    } else {
      worlds, args := [w], [a];
      RoundsOne(w, i, start, a, r);
      NoArgs(w.chans[i].hist.resumed, a);
    }
  }

  /** One round in front of others. */
  lemma {:induction false} MoreRounds(
    w: World, i: nat, start: nat, a: Args, d: World, b: Args, more: seq<World>, rest: seq<Args>, r: World)
    requires Ready(w, i) && start <= |Listing(w, i)| && !Served(w, i, start, a).crashed
    requires Rounds(i, 0, more, rest, r) && more[0] == d && rest[0] == b && LeftAs(d, Served(w, i, start, a), i)
    requires d.chans[i].hist.resumed == w.chans[i].hist.resumed + [b] && d.chans[i].flags == w.chans[i].flags
    requires i < |r.chans| && d.chans[i].hist.resumed + rest[1..] == r.chans[i].hist.resumed
    requires Remembers(d.chans[i], r.chans[i], rest[|rest| - 1])
    ensures Rounds(i, start, [w] + more, [a] + rest, r)
    ensures w.chans[i].hist.resumed + ([a] + rest)[1..] == r.chans[i].hist.resumed
    ensures Remembers(w.chans[i], r.chans[i], ([a] + rest)[|rest|])
  {
    RoundsCons(w, i, start, a, more, rest, r);
    ConsArgs(w.chans[i].hist.resumed, b, rest, r.chans[i].hist.resumed);
  }

  lemma {:induction false} ConsArgs(was: seq<Args>, b: Args, rest: seq<Args>, now: seq<Args>)
    requires rest != [] && rest[0] == b && was + [b] + rest[1..] == now
    ensures was + rest == now
  {
    assert rest == [b] + rest[1..];
  }

  lemma {:induction false} NoArgs(was: seq<Args>, a: Args)
    ensures was + [a][1..] == was
  {
  }

  lemma {:induction false} RoundsCons(
    w: World, i: nat, start: nat, a: Args, more: seq<World>, rest: seq<Args>, r: World)
    requires Ready(w, i) && start <= |Listing(w, i)| && Rounds(i, 0, more, rest, r)
    requires !Served(w, i, start, a).crashed && LeftAs(more[0], Served(w, i, start, a), i)
    ensures Rounds(i, start, [w] + more, [a] + rest, r) && ([a] + rest)[1..] == rest
  {
    var worlds, args := [w] + more, [a] + rest;
    assert worlds[1..] == more && args[1..] == rest;
  }

  /** The calls of some rounds, one after another. */
  ghost function CallsOfRounds(i: nat, start: nat, worlds: seq<World>, args: seq<Args>, r: World): seq<Call>
    requires Rounds(i, start, worlds, args, r)
    decreases |worlds|
  {
    CallsOf(i, Served(worlds[0], i, start, args[0]).chans[i].hist.ran, args[0])
    + if |worlds| == 1 then [] else CallsOfRounds(i, 0, worlds[1..], args[1..], r)
  }

  lemma {:induction false} RoundsMakeTheLog(i: nat, start: nat, worlds: seq<World>, args: seq<Args>, r: World)
    requires Rounds(i, start, worlds, args, r)
    ensures On(r.log, i) == On(worlds[0].log, i) + CallsOfRounds(i, start, worlds, args, r)
    decreases |worlds|
  {
    var s := Served(worlds[0], i, start, args[0]);
    ServedLog(worlds[0], i, start, args[0]);
    if |worlds| > 1 {
      RoundsMakeTheLog(i, 0, worlds[1..], args[1..], r);
      LogAfter(On(worlds[0].log, i), CallsOf(i, s.chans[i].hist.ran, args[0]), On(s.log, i),
               CallsOfRounds(i, 0, worlds[1..], args[1..], r), On(r.log, i));
    } else {
      LogAfter(On(worlds[0].log, i), CallsOf(i, s.chans[i].hist.ran, args[0]), On(s.log, i), [], On(r.log, i));
    }
  }

  lemma {:induction false} LogAfter(a: seq<Call>, b: seq<Call>, ab: seq<Call>, c: seq<Call>, abc: seq<Call>)
    requires ab == a + b && abc == ab + c
    ensures abc == a + (b + c)
  {
  }

  lemma {:induction false} ServedLog(w: World, i: nat, start: nat, a: Args)
    requires Ready(w, i) && start <= |Listing(w, i)|
    ensures On(Served(w, i, start, a).log, i) == On(w.log, i) + CallsOf(i, Served(w, i, start, a).chans[i].hist.ran, a)
  {
    GoodBegin(w, i, start, a);
    LoopGood(Begin(w, i, start, a), i);
    LoopCalm(Begin(w, i, start, a), i);
  }

  /** A firing of an idle list that is not a once-list, whatever its callbacks do: the calls made on that
      list are those of rounds opened one after another, each to the law of RoundCallsEachEntryOnce: the
      first for this firing, and then one for each firing asked for meanwhile, in that order.  None is
      lost, unless the list was locked or disabled before its turn. */
  lemma {:induction false} PostponedFiringsAreServedInOrder(w: World, i: nat, a: Args)
    returns (worlds: seq<World>, args: seq<Args>)
    requires Ready(w, i) && AllIdle(w) && w.chans[i].queue.Some? && !w.chans[i].flags.once
    requires !Do(w, FireWith(i, a)).crashed
    ensures var r := Do(w, FireWith(i, a));
            var c := r.chans[i];
            && Rounds(i, 0, worlds, args, r) && worlds[0] == w && args[0] == a
            && On(r.log, i) == On(w.log, i) + CallsOfRounds(i, 0, worlds, args, r)
            && w.chans[i].hist.queued + args[1..] <= c.hist.queued && Remembers(w.chans[i], c, args[|args| - 1])
            && (c.queue.Some? ==> w.chans[i].hist.queued + args[1..] == c.hist.queued)
  {
    var r := Do(w, FireWith(i, a));
    FireIsRound(w, i, a);
    worlds, args := RoundThenPostponed(w, i, 0, a, r);
    RoundsMakeTheLog(i, 0, worlds, args, r);
    QueueIsServed(w, i, r, args[1..]);
  }

  lemma {:induction false} FireIsRound(w: World, i: nat, a: Args)
    requires Ready(w, i) && AllIdle(w) && w.chans[i].queue.Some? && !w.chans[i].flags.once
    ensures Do(w, FireWith(i, a)) == Round(w, i, 0, a)
    ensures var r := Do(w, FireWith(i, a));
            && Good(r) && AllIdle(r) && (!r.crashed ==> !r.chans[i].firing)
  {
    DoGood(w, FireWith(i, a));
    DoCalm(w, FireWith(i, a));
  }

  lemma {:induction false} QueueIsServed(w: World, i: nat, r: World, args: seq<Args>)
    requires Ready(w, i) && AllIdle(w) && w.chans[i].queue.Some? && Good(r) && AllIdle(r)
    requires |r.chans| == |w.chans| && !r.chans[i].firing
    requires w.chans[i].hist.resumed + args == r.chans[i].hist.resumed
    ensures w.chans[i].hist.queued + args <= r.chans[i].hist.queued
    ensures r.chans[i].queue.Some? ==> w.chans[i].hist.queued + args == r.chans[i].hist.queued
  {
    assert Sound(w.chans[i], w.nextId) && Sound(r.chans[i], r.nextId);
    assert w.chans[i].hist.resumed + [] == w.chans[i].hist.resumed;
    assert r.chans[i].hist.resumed + [] == r.chans[i].hist.resumed;
  }

  /** Over its whole life a once-list calls no registration twice, and calls them in the order of
      registration. */
  lemma {:induction false} OnceListCallsNothingTwice(w: World, op: Op, i: nat)
    requires Good(w) && AllIdle(w) && i < |w.chans| && w.chans[i].flags.once
    ensures Increasing(Entries(On(Do(w, op).log, i)))
  {
    DoGood(w, op);
    DoCalm(w, op);
    var r := Do(w, op);
    var c := r.chans[i];
    assert Undisturbed(w.chans[i], c);
    OnceCallsInOrder(c, r.nextId, i);
  }

  lemma {:induction false} OnceCallsInOrder(c: Chan, n: nat, i: nat)
    requires Sound(c, n) && c.flags.once
    ensures Increasing(Entries(AllCalls(i, c.hist)))
  {
    assert Entries(AllCalls(i, c.hist)) == Called(c.hist);
    PrefixIncreasing(Called(c.hist), Ahead(c));
  }

  /** Every run of calls from outside, from fresh lists, with any operations and scripts, keeps all lists
      in order, so the lemmas above apply to every call of every run; and unless an error ended the run,
      no round is left open. */
  lemma {:induction false} EveryRunIsGood(flags: seq<Flags>, turns: seq<Turn>)
    ensures var r := Run(Start(flags), turns);
            && Good(r) && AllIdle(r) && |r.chans| == |flags|
            && (forall i :: 0 <= i < |flags| ==> r.chans[i].flags == flags[i])
            && (!r.crashed ==> forall i :: 0 <= i < |flags| ==> !r.chans[i].firing)
  {
    if turns != [] {
      var t := turns[|turns| - 1];
      EveryRunIsGood(flags, turns[..|turns| - 1]);
      var w := Run(Start(flags), turns[..|turns| - 1]).(scripts := t.scripts);
      DoGood(w, t.op);
      DoCalm(w, t.op);
      assert forall i :: 0 <= i < |flags| ==> Undisturbed(w.chans[i], Do(w, t.op).chans[i]);
    }
  }
}
