/** What a set of jQuery callback lists does, said without any index arithmetic.

    The source keeps one array per list and three integers (start, length, index) that every
    re-entrant `add` and `remove` has to repair while the array is being walked.  Here a list is a
    waiting line cut in two: the entries whose turn has come and those whose turn is still to come.

    Several lists live side by side, as the three lists of a Deferred do, and a callback may work on
    any of them while any of them is firing.  What user callbacks do is an arbitrary finite script:
    the n-th invocation of a user callback, whichever it is, performs the n-th script, and once the
    scripts are used up callbacks do nothing.  Every terminating run makes finitely many calls, so
    every terminating run whose callbacks do not throw is covered.  The one error that the lists
    themselves can raise, calling an entry that is not there, ends the run. */
module CallbackSpec {
  import opened Options

  /** One (context, arguments) pair; only its identity matters. */
  type Args = int

  datatype Settlement = Pending | Resolved | Rejected

  datatype Flags = Flags(once: bool, memory: bool, unique: bool, stopOnFalse: bool)

  /** A user's function, or one of the functions that a Deferred registers on its own lists. */
  datatype Fn = User(name: nat) | Setter(state: Settlement) | Disabler(on: nat) | Locker(on: nat)

  /** One registration: `id` numbers registrations in the order they were accepted. */
  datatype Entry = Entry(fn: Fn, id: nat)

  /** The source's `memory` variable: undefined, `true`, or the arguments of the last firing. */
  datatype Memory = Unfired | Halted | Kept(args: Args)

  datatype Op =
    | Add(on: nat, fns: seq<Fn>)
    | Remove(on: nat, fns: seq<Fn>)
    | FireWith(on: nat, args: Args)
    | Disable(on: nat)
    | Lock(on: nat)
    | Empty(on: nat)

  /** What one call of a user callback does, and whether it returns `false`. */
  datatype Script = Script(ops: seq<Op>, stop: bool)

  datatype Call = Call(on: nat, entry: Entry, args: Args)

  datatype Line = Line(past: seq<Entry>, next: seq<Entry>)

  /** How far a round in progress is out of step because its list was thrown away under it: `skip`
      entries that join from now on will not get a turn, and `missing` entries are thought to be
      there that are not. */
  datatype Gap = Gap(skip: nat, missing: nat)

  const NO_GAP := Gap(0, 0)

  /** What a round does to a registration, and what a removal, a disabling or an emptying does to those
      that it takes off the list. */
  datatype Deed = Calls(entry: Entry) | TakesOff(gone: set<Entry>)

  /** What happened to one list.  `before`, `args`, `arrivals`, `dropped`, `passed`, `ran` and `deeds`
      describe the round in progress: the calls before it, its arguments, the entries that were there or
      joined, those of them that left the list before their turn, those that joined behind the back of
      the round, those that were called, and who was called and taken off in what order.  The others
      describe the whole life of the list. */
  datatype History = History(
    before: seq<Call>, args: Args, arrivals: seq<Entry>, dropped: set<nat>, passed: set<nat>, ran: seq<Entry>,
    deeds: seq<Deed>, queued: seq<Args>, resumed: seq<Args>, enrolled: seq<Entry>)

  /** One list: `line` is None once disabled, `queue` is None once locked. */
  datatype Chan = Chan(
    flags: Flags, line: Option<Line>, queue: Option<seq<Args>>, memory: Memory, firing: bool, gap: Gap,
    hist: History)

  /** `crashed`: a round has called an entry that is not there; the error has ended everything. */
  datatype World = World(
    chans: seq<Chan>, scripts: seq<Script>, log: seq<Call>, nextId: nat, state: Settlement, crashed: bool)

  function NewChan(flags: Flags): Chan {
    Chan(flags, Some(Line([], [])), Some([]), Unfired, false, NO_GAP,
         History([], 0, [], {}, {}, [], [], [], [], []))
  }

  /** Fresh lists, before any callback has been registered. */
  function Start(flags: seq<Flags>): World {
    World(seq(|flags|, k requires 0 <= k < |flags| => NewChan(flags[k])), [], [], 0, Pending, false)
  }

  function Whole(l: Line): seq<Entry> {
    l.past + l.next
  }

  function Fns(s: seq<Entry>): (r: seq<Fn>)
    ensures |r| == |s|
    ensures forall k :: 0 <= k < |s| ==> r[k] == s[k].fn
  {
    seq(|s|, k requires 0 <= k < |s| => s[k].fn)
  }

  /** The entries of `s` that are not registrations of `f`. */
  function Without(s: seq<Entry>, f: Fn): seq<Entry> {
    if s == [] then []
    else (if s[0].fn == f then [] else [s[0]]) + Without(s[1..], f)
  }

  /** The entries of `s` whose number is not in `gone`. */
  function Keep(s: seq<Entry>, gone: set<nat>): seq<Entry> {
    if s == [] then []
    else (if s[0].id in gone then [] else [s[0]]) + Keep(s[1..], gone)
  }

  function Ids(s: seq<Entry>, f: Fn): set<nat> {
    set e | e in s && e.fn == f :: e.id
  }

  function AllIds(s: seq<Entry>): set<nat> {
    set e | e in s :: e.id
  }

  function CallsOf(i: nat, s: seq<Entry>, a: Args): (r: seq<Call>)
    ensures |r| == |s|
    ensures forall k :: 0 <= k < |s| ==> r[k] == Call(i, s[k], a)
  {
    seq(|s|, k requires 0 <= k < |s| => Call(i, s[k], a))
  }

  /** All calls made on list `i` so far. */
  function AllCalls(i: nat, h: History): seq<Call> {
    h.before + CallsOf(i, h.ran, h.args)
  }

  /** The part of a log that concerns list `i`. */
  function On(log: seq<Call>, i: nat): seq<Call> {
    if log == [] then []
    else On(log[..|log| - 1], i) + (if log[|log| - 1].on == i then [log[|log| - 1]] else [])
  }

  function ListLen(c: Chan): nat {
    if c.line.Some? then |Whole(c.line.value)| else 0
  }

  function PastLen(c: Chan): nat {
    if c.line.Some? then |c.line.value.past| else 0
  }

  function NextLen(c: Chan): nat {
    if c.line.Some? then |c.line.value.next| else 0
  }

  function QueueLen(c: Chan): nat {
    if c.queue.Some? then |c.queue.value| else 0
  }

  // ---------------------------------------------------------------- steps that call nobody

  function EnrolOne(w: World, i: nat, f: Fn): (r: World)
    requires i < |w.chans| && w.chans[i].line.Some?
    ensures |r.chans| == |w.chans| && r.chans[i].line.Some?
    ensures Whole(w.chans[i].line.value) <= Whole(r.chans[i].line.value)
  {
    var c := w.chans[i];
    var l := c.line.value;
    if c.flags.unique && f in Fns(Whole(l)) then w
    else
      var e := Entry(f, w.nextId);
      var d := c.(hist := c.hist.(arrivals := c.hist.arrivals + [e], enrolled := c.hist.enrolled + [e]));
      w.(nextId := w.nextId + 1,
         chans := w.chans[
           i := if BehindTheEnd(c) then PassOver(d, l, e) else d.(line := Some(l.(next := l.next + [e])))])
  }

  /** The round stands behind the end of the list. */
  predicate BehindTheEnd(c: Chan) {
    c.gap.skip > 0 && c.line.Some? && c.line.value.next == []
  }

  /** The entry joins at a position that the round has left behind. */
  function PassOver(d: Chan, l: Line, e: Entry): Chan
    requires d.gap.skip > 0
  {
    d.(line := Some(Line(l.past + [e], [])), gap := d.gap.(skip := d.gap.skip - 1),
       hist := d.hist.(passed := d.hist.passed + {e.id}))
  }

  /** `add` on a firing list records the length anew. */
  function Repair(w: World, i: nat): (r: World)
    requires i < |w.chans|
    ensures |r.chans| == |w.chans| && r.chans[i].line == w.chans[i].line && r.scripts == w.scripts
    ensures w.chans[i].gap.missing == 0 ==> r == w
  {
    if w.chans[i].gap.missing == 0 then w
    else w.(chans := w.chans[i := w.chans[i].(gap := w.chans[i].gap.(missing := 0))])
  }

  /** New registrations join the end of the line; a unique list refuses a second registration. */
  function Enrol(w: World, i: nat, fs: seq<Fn>): (r: World)
    requires i < |w.chans| && w.chans[i].line.Some?
    ensures |r.chans| == |w.chans| && r.chans[i].line.Some?
    ensures r.scripts == w.scripts && r.crashed == w.crashed && r.log == w.log && r.state == w.state
    ensures Whole(w.chans[i].line.value) <= Whole(r.chans[i].line.value)
    decreases |fs|
  {
    if fs == [] then w else Enrol(EnrolOne(w, i, fs[0]), i, fs[1..])
  }

  function RemoveOne(w: World, i: nat, f: Fn): (r: World)
    requires i < |w.chans| && w.chans[i].line.Some?
    ensures |r.chans| == |w.chans| && r.chans[i].line.Some?
  {
    var c := w.chans[i];
    var l := c.line.value;
    w.(chans := w.chans[i := c.(
         line := Some(Line(Without(l.past, f), Without(l.next, f))),
         hist := c.hist.(dropped := c.hist.dropped + Lost(c, l, f),
                         deeds := c.hist.deeds + [TakesOff(Registrations(l, f))]))])
  }

  function Registrations(l: Line, f: Fn): set<Entry> {
    set e | e in Whole(l) && e.fn == f
  }

  function Everybody(l: Line): set<Entry> {
    set e | e in Whole(l)
  }

  /** The entries that lose their turn when `f` is removed. */
  function Lost(c: Chan, l: Line, f: Fn): set<nat> {
    if c.hist.passed == {} then Ids(l.next, f) else Ids(l.next, f) + Ids(l.past, f) * c.hist.passed
  }

  /** Removal takes every registration of the functions out of both halves of the line. */
  function RemoveAll(w: World, i: nat, fs: seq<Fn>): (r: World)
    requires i < |w.chans| && w.chans[i].line.Some?
    ensures |r.chans| == |w.chans| && r.chans[i].line.Some?
    ensures r.scripts == w.scripts && r.crashed == w.crashed && r.log == w.log && r.state == w.state
    decreases |fs|
  {
    if fs == [] then w else RemoveAll(RemoveOne(w, i, fs[0]), i, fs[1..])
  }

  /** The array is thrown away; a round in progress keeps its length and index. */
  function Unlisted(c: Chan): Chan {
    if c.firing && c.line.Some? then
      var l := c.line.value;
      c.(gap := Gap(|l.past| + c.gap.skip, |Whole(l)| + c.gap.missing),
         hist := c.hist.(dropped := c.hist.dropped + AllIds(l.next) + c.hist.passed,
                         deeds := c.hist.deeds + [TakesOff(Everybody(l))]))
    else c
  }

  function DisableChan(w: World, i: nat): World {
    if i >= |w.chans| then w
    else w.(chans := w.chans[i := Unlisted(w.chans[i]).(line := None, queue := None, memory := Unfired)])
  }

  /** A new array, on a disabled list too. */
  function EmptyChan(w: World, i: nat): World {
    if i >= |w.chans| then w
    else w.(chans := w.chans[i := Unlisted(w.chans[i]).(line := Some(Line([], [])))])
  }

  function LockChan(w: World, i: nat): World {
    if i >= |w.chans| then w
    else
      var w1 := w.(chans := w.chans[i := w.chans[i].(queue := None)]);
      if w.chans[i].memory.Kept? then w1 else DisableChan(w1, i)
  }

  function Enqueue(w: World, i: nat, a: Args): World
    requires i < |w.chans| && w.chans[i].queue.Some?
  {
    var c := w.chans[i];
    w.(chans := w.chans[i := c.(queue := Some(c.queue.value + [a]),
                                hist := c.hist.(queued := c.hist.queued + [a]))])
  }

  /** Take the oldest postponed firing out of the queue. */
  function Dequeue(w: World, i: nat): World
    requires i < |w.chans| && w.chans[i].queue.Some? && w.chans[i].queue.value != []
  {
    var c := w.chans[i];
    w.(chans := w.chans[i := c.(queue := Some(c.queue.value[1..]),
                                hist := c.hist.(resumed := c.hist.resumed + [c.queue.value[0]]))])
  }

  /** Open a round that will call everything from position `start` on. */
  function Begin(w: World, i: nat, start: nat, a: Args): World
    requires i < |w.chans| && w.chans[i].line.Some? && start <= |Whole(w.chans[i].line.value)|
  {
    var c := w.chans[i];
    var list := Whole(c.line.value);
    w.(chans := w.chans[i := c.(
         line := Some(Line(list[..start], list[start..])),
         memory := if c.flags.memory then Kept(a) else Halted,
         firing := true,
         gap := NO_GAP,
         hist := c.hist.(before := AllCalls(i, c.hist), args := a, arrivals := list[start..],
                         dropped := {}, passed := {}, ran := [], deeds := []))])
  }

  predicate HasNext(w: World, i: nat) {
    i < |w.chans| && w.chans[i].line.Some? && w.chans[i].line.value.next != []
  }

  /** The head of the waiting part gets its turn. */
  function Advance(w: World, i: nat): World
    requires HasNext(w, i)
  {
    var c := w.chans[i];
    var l := c.line.value;
    var e := l.next[0];
    w.(log := w.log + [Call(i, e, c.hist.args)],
       chans := w.chans[i := c.(line := Some(Line(l.past + [e], l.next[1..])),
                                hist := c.hist.(ran := c.hist.ran + [e], deeds := c.hist.deeds + [Calls(e)]))])
  }

  function Halt(w: World, i: nat): World
    requires i < |w.chans|
  {
    w.(chans := w.chans[i := w.chans[i].(memory := Halted)])
  }

  /** Does the next call of `f` return `false`? */
  predicate Stops(w: World, f: Fn) {
    f.User? && w.scripts != [] && w.scripts[0].stop
  }

  /** Close the round; the list is whole again. */
  function Quiet(w: World, i: nat): World
    requires i < |w.chans|
  {
    var c := w.chans[i];
    w.(chans := w.chans[i := c.(firing := false, gap := NO_GAP,
         line := if c.line.Some? then Some(Line([], Whole(c.line.value))) else None)])
  }

  /** Nobody is waiting, but the recorded length says otherwise. */
  predicate Overruns(c: Chan) {
    c.line.Some? && c.line.value.next == [] && c.gap.skip < c.gap.missing
  }

  function Clear(w: World, i: nat): World
    requires i < |w.chans|
  {
    w.(chans := w.chans[i := w.chans[i].(line := Some(Line([], [])))])
  }

  // ---------------------------------------------------------------- operations and rounds

  /** Running an operation uses up scripts but never adds any; no call and no error is undone. */
  predicate Spent(w: World, r: World) {
    |r.chans| == |w.chans| && |r.scripts| <= |w.scripts| && w.log <= r.log && (w.crashed ==> r.crashed)
  }

  function Do(w: World, op: Op): (r: World)
    ensures Spent(w, r)
    decreases |w.scripts|, 1, 0, 0, 0
  {
    var i := op.on;
    if w.crashed || i >= |w.chans| then w
    else
      var c := w.chans[i];
      match op
      case Add(_, fs) =>
        if c.line.None? then w
        else
          var w1 := Enrol(Repair(w, i), i, fs);
          if !c.firing && c.memory.Kept? then Round(w1, i, |Whole(c.line.value)|, c.memory.args)
          else w1
      case Remove(_, fs) => if c.line.None? then w else RemoveAll(w, i, fs)
      case FireWith(_, a) =>
        if c.queue.None? then w
        else if c.firing then if c.flags.once then w else Enqueue(w, i, a)
        else if c.line.None? || (c.flags.once && c.memory != Unfired) then w
        else Round(w, i, 0, a)
      case Disable(_) => DisableChan(w, i)
      case Lock(_) => LockChan(w, i)
      case Empty(_) => EmptyChan(w, i)
  }

  function DoAll(w: World, ops: seq<Op>): (r: World)
    ensures Spent(w, r)
    decreases |w.scripts|, 2, |ops|, 0, 0
  {
    if ops == [] then w else DoAll(Do(w, ops[0]), ops[1..])
  }

  /** One call of `f`. */
  function Body(w: World, f: Fn): (r: World)
    ensures Spent(w, r)
    ensures |r.scripts| == |w.scripts| ==>
              forall j :: 0 <= j < |w.chans| ==>
                NextLen(r.chans[j]) <= NextLen(w.chans[j]) && QueueLen(r.chans[j]) <= QueueLen(w.chans[j])
    decreases |w.scripts|, 0, 0, 0, 0
  {
    match f
    case User(_) =>
      if w.scripts == [] then w else DoAll(w.(scripts := w.scripts[1..]), w.scripts[0].ops)
    case Setter(s) => w.(state := s)
    case Disabler(j) => DisableChan(w, j)
    case Locker(j) => LockChan(w, j)
  }

  /** Serve the line of list `i` until nobody waits, or it is disabled, halted or overrun. */
  function Loop(w: World, i: nat): (r: World)
    requires i < |w.chans|
    ensures Spent(w, r)
    ensures |r.scripts| == |w.scripts| ==> QueueLen(r.chans[i]) <= QueueLen(w.chans[i])
    decreases |w.scripts|, 0, QueueLen(w.chans[i]), 1, NextLen(w.chans[i])
  {
    if w.crashed then w
    else if !HasNext(w, i) then if Overruns(w.chans[i]) then w.(crashed := true) else w
    else
      var f := w.chans[i].line.value.next[0].fn;
      var w1 := Advance(w, i);
      var w2 := Body(w1, f);
      if !w2.crashed && Stops(w1, f) && w.chans[i].flags.stopOnFalse then Halt(w2, i) else Loop(w2, i)
  }

  function Round(w: World, i: nat, start: nat, a: Args): (r: World)
    requires i < |w.chans| && w.chans[i].line.Some? && start <= |Whole(w.chans[i].line.value)|
    ensures Spent(w, r)
    decreases |w.scripts|, 0, QueueLen(w.chans[i]), 3, 0
  {
    var w1 := Loop(Begin(w, i, start, a), i);
    if w1.crashed then w1 else Finish(w1, i)
  }

  /** After the last call: a once-list is emptied or disabled, another one serves its queue. */
  function Finish(w: World, i: nat): (r: World)
    requires i < |w.chans|
    ensures Spent(w, r)
    decreases |w.scripts|, 0, QueueLen(w.chans[i]), 2, 0
  {
    var c := w.chans[i];
    var w1 := Quiet(w, i);
    if c.line.None? then w1
    else if c.flags.once then if c.memory == Halted then DisableChan(w1, i) else Clear(w1, i)
    else if c.queue.Some? && c.queue.value != [] then Round(Dequeue(w1, i), i, 0, c.queue.value[0])
    else w1
  }

  /** One call made from outside, together with what user callbacks will do during it. */
  datatype Turn = Turn(op: Op, scripts: seq<Script>)

  function Take(w: World, t: Turn): World {
    Do(w.(scripts := t.scripts), t.op)
  }

  function Run(w: World, turns: seq<Turn>): World {
    if turns == [] then w else Take(Run(w, turns[..|turns| - 1]), turns[|turns| - 1])
  }
}
