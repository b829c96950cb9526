/** jQuery's `when`: a counter, an array of results and a master Deferred, which a single promise is
    itself.  An argument that is a promise delivers its settlement once: during the subscription loop
    if it is settled already, or later, in any order. */
module When {
  import opened Options

  type Val = int

  /** One argument of `when`; `v` is the argument itself. */
  datatype Arg = Arg(v: Val, isPromise: bool)

  datatype Outcome = Won(v: Val) | Lost(reason: Val)

  /** Argument `i` delivered its outcome. */
  datatype Event = Event(i: nat, outcome: Outcome)

  datatype Verdict = Resolved(values: seq<Val>) | Rejected(reason: Val)

  /** Every promise delivers at most once, and only promises deliver. */
  predicate Proper(args: seq<Arg>, h: seq<Event>) {
    && (forall k :: 0 <= k < |h| ==> h[k].i < |args| && args[h[k].i].isPromise)
    && (forall a, b :: 0 <= a < b < |h| ==> h[a].i != h[b].i)
  }

  predicate Delivered(h: seq<Event>, i: nat, o: Outcome) {
    Event(i, o) in h
  }

  /** The first loss delivered, if any. */
  function FirstLoss(h: seq<Event>): Option<Val> {
    if h == [] then None
    else if h[0].outcome.Lost? then Some(h[0].outcome.reason)
    else FirstLoss(h[1..])
  }

  /** The results delivered so far, by argument. */
  function Got(n: nat, h: seq<Event>): (r: seq<Option<Val>>)
    ensures |r| == n
  {
    if h == [] then seq(n, _ => None)
    else
      var r := Got(n, h[..|h| - 1]);
      var e := h[|h| - 1];
      if e.i < n && e.outcome.Won? then r[e.i := Some(e.outcome.v)] else r
  }

  /** The results in the order of the arguments; a plain argument is its own result. */
  function Values(args: seq<Arg>, got: seq<Option<Val>>): (r: seq<Val>)
    requires |got| == |args|
    ensures |r| == |args|
    ensures forall i :: 0 <= i < |args| ==> r[i] == if got[i].Some? then got[i].value else args[i].v
  {
    seq(|args|, i requires 0 <= i < |args| => if got[i].Some? then got[i].value else args[i].v)
  }

  /** Has the counter not yet been decremented for argument `i`, when the subscription loop has
      reached `c`? */
  predicate Owes(args: seq<Arg>, got: seq<Option<Val>>, c: nat, i: nat)
    requires i < |args| == |got|
  {
    got[i].None? && (args[i].isPromise || i >= c)
  }

  /** How many of the first `k` arguments are still to be counted down. */
  function Owed(args: seq<Arg>, got: seq<Option<Val>>, c: nat, k: nat): nat
    requires k <= |args| == |got|
  {
    if k == 0 then 0 else Owed(args, got, c, k - 1) + (if Owes(args, got, c, k - 1) then 1 else 0)
  }

  predicate Complete(args: seq<Arg>, got: seq<Option<Val>>)
    requires |args| == |got|
  {
    forall i :: 0 <= i < |args| && args[i].isPromise ==> got[i].Some?
  }

  /** What `when` should have answered after `h`. */
  function Answer(args: seq<Arg>, h: seq<Event>): Option<Verdict> {
    if FirstLoss(h).Some? then Some(Rejected(FirstLoss(h).value))
    else if Complete(args, Got(|args|, h)) then Some(Resolved(Values(args, Got(|args|, h))))
    else None
  }

  // ---------------------------------------------------------------- histories

  lemma {:induction false} ProperAppend(args: seq<Arg>, h: seq<Event>, e: Event)
    requires Proper(args, h + [e])
    ensures Proper(args, h) && e.i < |args| && args[e.i].isPromise
    ensures forall k :: 0 <= k < |h| ==> h[k].i != e.i
  {
    assert forall k :: 0 <= k < |h| ==> (h + [e])[k] == h[k];
    assert (h + [e])[|h|] == e;
  }

  lemma {:induction false} GotAppend(n: nat, h: seq<Event>, e: Event)
    ensures Got(n, h + [e]) ==
            if e.i < n && e.outcome.Won? then Got(n, h)[e.i := Some(e.outcome.v)] else Got(n, h)
  {
    assert (h + [e])[..|h|] == h;
  }

  lemma {:induction false} GotIs(args: seq<Arg>, h: seq<Event>)
    requires Proper(args, h)
    ensures forall i, v :: 0 <= i < |args| ==> (Got(|args|, h)[i] == Some(v) <==> Delivered(h, i, Won(v)))
    ensures forall i :: 0 <= i < |args| && Got(|args|, h)[i].Some? ==> Delivered(h, i, Won(Got(|args|, h)[i].value))
  {
    if h != [] {
      var n := |h| - 1;
      var e := h[n];
      assert h == h[..n] + [e];
      ProperAppend(args, h[..n], e);
      GotIs(args, h[..n]);
      GotAppend(|args|, h[..n], e);
      assert forall v :: !Delivered(h[..n], e.i, Won(v));
      forall i, v | 0 <= i < |args|
        ensures Got(|args|, h)[i] == Some(v) <==> Delivered(h, i, Won(v))
      {
        assert Delivered(h, i, Won(v)) <==> Delivered(h[..n], i, Won(v)) || e == Event(i, Won(v));
      }
    }
  }

  lemma {:induction false} FirstLossAppend(h: seq<Event>, e: Event)
    ensures FirstLoss(h + [e]) ==
            if FirstLoss(h).Some? then FirstLoss(h) else if e.outcome.Lost? then Some(e.outcome.reason) else None
  {
    if h == [] {
      assert h + [e] == [e];
    } else {
      assert (h + [e])[1..] == h[1..] + [e];
      FirstLossAppend(h[1..], e);
    }
  }

  lemma {:induction false} FirstLossIs(h: seq<Event>, k: nat)
    requires k < |h| && h[k].outcome.Lost? && forall m :: 0 <= m < k ==> h[m].outcome.Won?
    ensures FirstLoss(h) == Some(h[k].outcome.reason)
  {
    if k > 0 {
      assert h[1..][k - 1] == h[k];
      FirstLossIs(h[1..], k - 1);
    }
  }

  lemma {:induction false} LossIsInHistory(h: seq<Event>)
    requires FirstLoss(h).Some?
    ensures exists k :: 0 <= k < |h| && h[k].outcome.Lost?
  {
    if h[0].outcome.Won? {
      LossIsInHistory(h[1..]);
      var k :| 0 <= k < |h[1..]| && h[1..][k].outcome.Lost?;
      assert h[k + 1] == h[1..][k];
    }
  }

  // ---------------------------------------------------------------- the counter

  lemma {:induction false} OwedNone(args: seq<Arg>, got: seq<Option<Val>>, c: nat, k: nat)
    requires k <= |args| == |got|
    ensures Owed(args, got, c, k) == 0 <==> forall i :: 0 <= i < k ==> !Owes(args, got, c, i)
  {
    if k > 0 {
      OwedNone(args, got, c, k - 1);
    }
  }

  lemma {:induction false} OwedDelivery(args: seq<Arg>, got: seq<Option<Val>>, c: nat, k: nat, i: nat, v: Val)
    requires k <= |args| == |got| && i < |args| && Owes(args, got, c, i)
    ensures Owed(args, got[i := Some(v)], c, k) == Owed(args, got, c, k) - (if i < k then 1 else 0)
  {
    if k > 0 {
      OwedDelivery(args, got, c, k - 1, i, v);
    }
  }

  /** The subscription loop moves past argument `c`; a plain argument is counted down there. */
  lemma {:induction false} OwedPass(args: seq<Arg>, got: seq<Option<Val>>, c: nat, k: nat)
    requires k <= |args| == |got| && c < |args| && (!args[c].isPromise ==> got[c].None?)
    ensures Owed(args, got, c + 1, k) ==
            Owed(args, got, c, k) - (if c < k && !args[c].isPromise then 1 else 0)
  {
    if k > 0 {
      OwedPass(args, got, c, k - 1);
    }
  }

  lemma {:induction false} OwedAll(args: seq<Arg>, k: nat)
    requires k <= |args|
    ensures Owed(args, seq(|args|, _ => None), 0, k) == k
  {
    if k > 0 {
      OwedAll(args, k - 1);
    }
  }

  /** A lost argument is owed for ever, so a loss and a resolution exclude each other. */
  lemma {:induction false} LossIsOwed(args: seq<Arg>, h: seq<Event>, c: nat)
    requires Proper(args, h) && FirstLoss(h).Some?
    ensures Owed(args, Got(|args|, h), c, |args|) > 0
  {
    LossIsInHistory(h);
    var k :| 0 <= k < |h| && h[k].outcome.Lost?;
    GotIs(args, h);
    var i := h[k].i;
    assert forall v :: !Delivered(h, i, Won(v));
    assert Owes(args, Got(|args|, h), c, i);
    OwedNone(args, Got(|args|, h), c, |args|);
  }

  // ---------------------------------------------------------------- what the answer means

  /** No answer before the last promise has delivered, unless something is lost. */
  lemma {:induction false} AnswersOnlyWhenComplete(args: seq<Arg>, h: seq<Event>, i: nat)
    requires Proper(args, h) && FirstLoss(h).None?
    requires i < |args| && args[i].isPromise
    requires forall k :: 0 <= k < |h| ==> h[k].i != i
    ensures Answer(args, h) == None
  {
    GotIs(args, h);
    assert forall v :: !Delivered(h, i, Won(v));
    assert Got(|args|, h)[i].None?;
  }

  /** Once given, the answer never changes. */
  lemma {:induction false} AnswerIsFinal(args: seq<Arg>, h: seq<Event>, e: Event)
    requires Proper(args, h + [e]) && Answer(args, h).Some?
    ensures Answer(args, h + [e]) == Answer(args, h)
  {
    FirstLossAppend(h, e);
    ProperAppend(args, h, e);
    if FirstLoss(h).None? {
      AnswersOnlyWhenComplete(args, h, e.i);
    }
  }

  /** If nothing is lost and every promise has delivered, the answer is the results in the order of
      the arguments, whatever the order of delivery. */
  lemma {:induction false} ResolvesInArgumentOrder(args: seq<Arg>, h: seq<Event>, results: seq<Val>)
    requires Proper(args, h) && |results| == |args|
    requires forall k :: 0 <= k < |h| ==> h[k].outcome == Won(results[h[k].i])
    requires forall i :: 0 <= i < |args| && args[i].isPromise ==> Delivered(h, i, Won(results[i]))
    requires forall i :: 0 <= i < |args| && !args[i].isPromise ==> results[i] == args[i].v
    ensures Answer(args, h) == Some(Resolved(results))
  {
    GotIs(args, h);
    if FirstLoss(h).Some? {
      LossIsInHistory(h);
    }
    var got := Got(|args|, h);
    forall i | 0 <= i < |args| ensures got[i] == if args[i].isPromise then Some(results[i]) else None {
      if !args[i].isPromise {
        assert forall v :: !Delivered(h, i, Won(v));
      }
    }
    assert Values(args, got) == results;
  }

  /** If anything is lost, the answer is the first loss delivered, and never a resolution. */
  lemma {:induction false} RejectsWithTheFirstLoss(args: seq<Arg>, h: seq<Event>, k: nat)
    requires k < |h| && h[k].outcome.Lost?
    requires forall m :: 0 <= m < k ==> h[m].outcome.Won?
    ensures Answer(args, h) == Some(Rejected(h[k].outcome.reason))
  {
    FirstLossIs(h, k);
  }

  /** What delivering `e` does to the results and to the counter. */
  lemma {:induction false} DeliveryStep(args: seq<Arg>, h: seq<Event>, e: Event, c: nat)
    requires Proper(args, h + [e])
    ensures Proper(args, h) && e.i < |args|
    ensures e.outcome.Won? ==>
              && Values(args, Got(|args|, h + [e])) == Values(args, Got(|args|, h))[e.i := e.outcome.v]
              && Owed(args, Got(|args|, h + [e]), c, |args|) == Owed(args, Got(|args|, h), c, |args|) - 1
    ensures e.outcome.Lost? ==> Got(|args|, h + [e]) == Got(|args|, h)
  {
    ProperAppend(args, h, e);
    GotAppend(|args|, h, e);
    GotIs(args, h);
    var got := Got(|args|, h);
    assert forall v :: !Delivered(h, e.i, Won(v));
    assert got[e.i].None?;
    if e.outcome.Won? {
      OwedDelivery(args, got, c, |args|, e.i, e.outcome.v);
    }
  }

  /** The master has been told of a loss, and is never told anything wrong. */
  predicate Fits(args: seq<Arg>, h: seq<Event>, master: Option<Verdict>) {
    && (master.Some? ==> master == Answer(args, h))
    && (FirstLoss(h).Some? ==> master.Some?)
  }

  lemma {:induction false} FitsDelivery(args: seq<Arg>, h: seq<Event>, e: Event, master: Option<Verdict>)
    requires Proper(args, h + [e]) && Fits(args, h, master)
    ensures e.outcome.Won? || master.Some? ==> Fits(args, h + [e], master)
    ensures e.outcome.Lost? && master.None? ==> Fits(args, h + [e], Some(Rejected(e.outcome.reason)))
  {
    FirstLossAppend(h, e);
    if master.Some? {
      AnswerIsFinal(args, h, e);
    }
  }

  /** When the counter is zero everything has been won. */
  lemma {:induction false} ZeroResolves(args: seq<Arg>, h: seq<Event>, master: Option<Verdict>, c: nat)
    requires Proper(args, h) && Fits(args, h, master) && Owed(args, Got(|args|, h), c, |args|) == 0
    ensures Answer(args, h) == Some(Resolved(Values(args, Got(|args|, h))))
    ensures master.None? || master == Answer(args, h)
  {
    if FirstLoss(h).Some? {
      LossIsOwed(args, h, c);
    }
    OwedNone(args, Got(|args|, h), c, |args|);
    var got := Got(|args|, h);
    forall i | 0 <= i < |args| && args[i].isPromise ensures got[i].Some? {
      assert !Owes(args, got, c, i);
    }
  }

  /** While the counter is not zero there is no answer but a loss. */
  lemma {:induction false} OwedMeansNoAnswer(args: seq<Arg>, h: seq<Event>, master: Option<Verdict>)
    requires Fits(args, h, master)
    requires Owed(args, Got(|args|, h), |args|, |args|) == 0 ==> master.Some?
    ensures master == Answer(args, h)
  {
    OwedNone(args, Got(|args|, h), |args|, |args|);
  }

  predicate Tally(args: seq<Arg>, h: seq<Event>, values: seq<Val>, remaining: int, c: nat) {
    && Proper(args, h)
    && values == Values(args, Got(|args|, h))
    && remaining == Owed(args, Got(|args|, h), c, |args|)
  }

  lemma {:induction false} TallyDelivery(
    args: seq<Arg>, h: seq<Event>, values: seq<Val>, remaining: int, c: nat, e: Event, after: seq<Event>)
    requires Tally(args, h, values, remaining, c) && after == h + [e] && Proper(args, after)
    ensures e.i < |values| == |args|
    ensures e.outcome.Won? ==> Tally(args, after, values[e.i := e.outcome.v], remaining - 1, c)
    ensures e.outcome.Lost? ==> Tally(args, after, values, remaining, c)
  {
    DeliveryStep(args, h, e, c);
  }

  lemma {:induction false} TallyPass(args: seq<Arg>, h: seq<Event>, values: seq<Val>, remaining: int, c: nat)
    requires Tally(args, h, values, remaining, c) && c < |args| && (!args[c].isPromise ==> Got(|args|, h)[c].None?)
    ensures Tally(args, h, values, if args[c].isPromise then remaining else remaining - 1, c + 1)
  {
    OwedPass(args, Got(|args|, h), c, |args|);
  }

  /** The variables of one call of `when`, and the callbacks it subscribes. */
  class When {
    const args: seq<Arg>
    var values: seq<Val>
    var remaining: int
    /** What the master Deferred was settled with; a second settlement is ignored. */
    var master: Option<Verdict>
    ghost var history: seq<Event>

    /** When the subscription loop has reached `c`, the counter is the number of arguments not yet
        counted down, and the results are in place. */
    ghost predicate Counts(c: nat)
      reads this
    {
      Tally(args, history, values, remaining, c)
    }

    ghost predicate MasterFits()
      reads this
    {
      Fits(args, history, master)
    }

    ghost predicate Valid()
      reads this
    {
      && (|args| > 1 ==> Counts(|args|))
      && Proper(args, history) && master == Answer(args, history)
    }

    /** With more than one argument, the subscription loop; `already[i]` is what argument `i` delivers
        while being subscribed.  A single promise is the master itself, and what is left to wait for
        otherwise is nothing. */
    constructor (a: seq<Arg>, already: seq<Option<Outcome>>)
      requires |already| == |a|
      ensures Valid() && args == a
      ensures history == Immediate(a, already, |a|)
    {
      args := a;
      values := seq(|a|, i requires 0 <= i < |a| => a[i].v);
      remaining := |a|;
      master := None;
      history := [];
      new;
      if |args| > 1 {
        OwedAll(args, |args|);
        Subscribe(already);
        if remaining == 0 {
          ResolveMaster(|args|);
        }
        OwedMeansNoAnswer(args, history, master);
      } else if |args| == 1 && args[0].isPromise {
        OnePromise(args, history);
        if already[0].Some? {
          SettleItself(already[0].value);
        }
        ImmediateOfOne(args, already);
      } else {
        NothingToWaitFor(args, already);
        master := Some(Resolved(if |args| == 1 then [args[0].v] else []));
      }
    }

    /** The only argument, which is the master, is settled by whoever owns it. */
    method SettleItself(o: Outcome)
      requires |args| == 1 && args[0].isPromise && history == []
      modifies this
      ensures Valid() && history == [Event(0, o)]
    {
      history := [Event(0, o)];
      OnePromise(args, history);
      master := Some(OwnVerdict(o));
    }

    method Subscribe(already: seq<Option<Outcome>>)
      requires |already| == |args| && history == [] && Counts(0) && MasterFits()
      modifies this
      ensures Counts(|args|) && MasterFits() && history == Immediate(args, already, |args|)
    {
      var c := 0;
      while c < |args|
        invariant c <= |args|
        invariant Counts(c) && MasterFits()
        invariant history == Immediate(args, already, c)
      {
        SubscribeOne(already, c);
        c := c + 1;
      }
    }

    /** Argument `c`: a promise gets its callbacks, anything else is counted down at once. */
    method SubscribeOne(already: seq<Option<Outcome>>, c: nat)
      requires c < |args| == |already| && history == Immediate(args, already, c) && Counts(c) && MasterFits()
      modifies this
      ensures Counts(c + 1) && MasterFits() && history == Immediate(args, already, c + 1)
    {
      ImmediateNext(args, already, c);
      if args[c].isPromise {
        if already[c].Some? {
          ImmediateBelow(args, already, c);
          ProperAdd(args, history, c, already[c].value);
          Settle(c, already[c].value, c);
        }
        TallyPass(args, history, values, remaining, c);
      } else {
        NotDelivered(args, history, c);
        TallyPass(args, history, values, remaining, c);
        remaining := remaining - 1;
      }
    }

    method ResolveMaster(ghost c: nat)
      requires Counts(c) && MasterFits() && remaining == 0
      modifies this`master
      ensures Counts(c) && MasterFits() && master.Some? && master == Answer(args, history)
    {
      ZeroResolves(args, history, master, c);
      if master.None? {
        master := Some(Resolved(values));
      }
    }

    /** The callback that `when` put on argument `i`, called with a result. */
    method Win(i: nat, v: Val, ghost c: nat)
      requires Counts(c) && MasterFits() && Proper(args, history + [Event(i, Won(v))])
      modifies this
      ensures Counts(c) && MasterFits() && history == old(history) + [Event(i, Won(v))]
      ensures remaining == 0 ==> master.Some?
    {
      ghost var e := Event(i, Won(v));
      ghost var after := history + [e];
      TallyDelivery(args, history, values, remaining, c, e, after);
      FitsDelivery(args, history, e, master);
      assert Fits(args, after, master);
      assert Tally(args, after, values[i := v], remaining - 1, c);
      history := after;
      values := values[i := v];
      remaining := remaining - 1;
      assert Counts(c) && MasterFits();
      if remaining == 0 {
        ResolveMaster(c);
      }
    }

    /** The master's own `reject`, called by an argument that was lost. */
    method Lose(i: nat, reason: Val, ghost c: nat)
      requires Counts(c) && MasterFits() && Proper(args, history + [Event(i, Lost(reason))])
      modifies this
      ensures Counts(c) && MasterFits() && history == old(history) + [Event(i, Lost(reason))]
      ensures master.Some?
    {
      ghost var e := Event(i, Lost(reason));
      ghost var h := history + [e];
      TallyDelivery(args, history, values, remaining, c, e, h);
      FitsDelivery(args, history, e, master);
      if master.None? {
        master := Some(Rejected(reason));
      }
      assert Fits(args, h, master);
      history := h;
    }

    method Settle(i: nat, o: Outcome, ghost c: nat)
      requires Counts(c) && MasterFits() && Proper(args, history + [Event(i, o)])
      modifies this
      ensures Counts(c) && MasterFits() && history == old(history) + [Event(i, o)]
      ensures remaining == 0 ==> master.Some?
    {
      match o
      case Won(v) => Win(i, v, c);
      case Lost(reason) => Lose(i, reason, c);
    }

    /** Argument `i`, a promise that has delivered nothing yet, delivers its outcome. */
    method Deliver(i: nat, o: Outcome)
      requires Valid() && Proper(args, history + [Event(i, o)])
      modifies this
      ensures Valid() && history == old(history) + [Event(i, o)]
    {
      if |args| > 1 {
        Settle(i, o, |args|);
        OwedMeansNoAnswer(args, history, master);
      } else {
        OnlyDelivery(args, history, Event(i, o));
        SettleItself(o);
      }
    }
  }

  /** How a promise that is itself the master settles it. */
  function OwnVerdict(o: Outcome): Verdict {
    match o
    case Won(v) => Resolved([v])
    case Lost(reason) => Rejected(reason)
  }

  /** A single promise has delivered nothing, or has settled the master. */
  lemma {:induction false} OnePromise(args: seq<Arg>, h: seq<Event>)
    requires |args| == 1 && args[0].isPromise && |h| <= 1 && forall k :: 0 <= k < |h| ==> h[k].i == 0
    ensures Proper(args, h)
    ensures h == [] ==> Answer(args, h) == None
    ensures h != [] ==> Answer(args, h) == Some(OwnVerdict(h[0].outcome))
  {
    if h == [] {
      AnswersOnlyWhenComplete(args, h, 0);
    } else if h[0].outcome.Won? {
      ResolvesInArgumentOrder(args, h, [h[0].outcome.v]);
    } else {
      RejectsWithTheFirstLoss(args, h, 0);
    }
  }

  lemma {:induction false} OnlyDelivery(args: seq<Arg>, h: seq<Event>, e: Event)
    requires |args| <= 1 && Proper(args, h + [e])
    ensures |args| == 1 && args[0].isPromise && h == [] && e.i == 0
  {
    ProperAppend(args, h, e);
    if h != [] {
      var first := h[0].i;
      assert false;
    }
  }

  lemma {:induction false} ImmediateOfOne(a: seq<Arg>, already: seq<Option<Outcome>>)
    requires |a| == |already| == 1 && a[0].isPromise
    ensures Immediate(a, already, 1) == if already[0].Some? then [Event(0, already[0].value)] else []
  {
    ImmediateNext(a, already, 0);
  }

  lemma {:induction false} NothingToWaitFor(a: seq<Arg>, already: seq<Option<Outcome>>)
    requires |a| == |already| <= 1 && (|a| == 1 ==> !a[0].isPromise)
    ensures Immediate(a, already, |a|) == []
    ensures Answer(a, []) == Some(Resolved(if |a| == 1 then [a[0].v] else []))
  {
    if |a| == 1 {
      ImmediateNext(a, already, 0);
    }
    ResolvesInArgumentOrder(a, [], if |a| == 1 then [a[0].v] else []);
  }

  /** What the subscription loop hears from the first `c` arguments. */
  function Immediate(a: seq<Arg>, already: seq<Option<Outcome>>, c: nat): seq<Event>
    requires c <= |a| == |already|
  {
    if c == 0 then []
    else
      Immediate(a, already, c - 1)
      + (if a[c - 1].isPromise && already[c - 1].Some? then [Event(c - 1, already[c - 1].value)] else [])
  }

  lemma {:induction false} ImmediateNext(a: seq<Arg>, already: seq<Option<Outcome>>, c: nat)
    requires c < |a| == |already|
    ensures Immediate(a, already, c + 1) ==
            if a[c].isPromise && already[c].Some? then Immediate(a, already, c) + [Event(c, already[c].value)]
            else Immediate(a, already, c)
  {
  }

  lemma {:induction false} ImmediateBelow(a: seq<Arg>, already: seq<Option<Outcome>>, c: nat)
    requires c <= |a| == |already|
    ensures forall k :: 0 <= k < |Immediate(a, already, c)| ==> Immediate(a, already, c)[k].i < c
    ensures Proper(a, Immediate(a, already, c))
  {
    if c > 0 {
      ImmediateBelow(a, already, c - 1);
    }
  }

  lemma {:induction false} NotDelivered(a: seq<Arg>, h: seq<Event>, c: nat)
    requires Proper(a, h) && c < |a| && !a[c].isPromise
    ensures Got(|a|, h)[c] == None
  {
    GotIs(a, h);
    assert forall v :: !Delivered(h, c, Won(v));
  }

  lemma {:induction false} ProperAdd(a: seq<Arg>, h: seq<Event>, c: nat, o: Outcome)
    requires Proper(a, h) && c < |a| && a[c].isPromise
    requires forall k :: 0 <= k < |h| ==> h[k].i < c
    ensures Proper(a, h + [Event(c, o)])
  {
  }
}
