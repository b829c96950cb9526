/** The remote benchmark: a sender that pushes bursts of payloads, each burst followed by one token
    that the receiver echoes.  Both channels deliver in order. */
module Benchmark {

  datatype Msg =
    | Payload
    | Start
    | Done
    | Shutdown
    | Continue(remaining: int, startTime: int, burstStartTime: int, n: int)
    | Warmup
    | Identity(found: bool)
    | ReceiveTimeout
    | Terminated

  datatype Config = Config(totalMessages: int, burstSize: int)

  predicate Echo(m: Msg) {
    m.Start? || m.Done? || m.Continue?
  }

  /** The receiver: an echo is sent back, everything else is dropped. */
  function Reply(m: Msg): seq<Msg> {
    if Echo(m) then [m] else []
  }

  function Payloads(n: int): (r: seq<Msg>)
    ensures |r| == if n > 0 then n else 0
    ensures forall k :: 0 <= k < |r| ==> r[k] == Payload
  {
    seq(if n > 0 then n else 0, _ => Payload)
  }

  function Min(a: int, b: int): int {
    if a < b then a else b
  }

  predicate IsMax(m: int, a: int, b: int) {
    a <= m && b <= m && (m == a || m == b)
  }

  /** Milliseconds between two readings of the clock in nanoseconds. */
  function Millis(from: int, to: int): int {
    (to - from) / 1_000_000
  }

  // ---------------------------------------------------------------- the sender

  /** What the sender puts on the wire for one message; it is active and the clock reads `now`. */
  function Sends(cfg: Config, m: Msg, now: int): seq<Msg> {
    match m
    case Warmup => Payloads(cfg.burstSize) + [Start]
    case Start =>
      var batch := Min(cfg.totalMessages, cfg.burstSize);
      Payloads(batch) + [Next(cfg, cfg.totalMessages - batch, Continue(0, now, now, cfg.burstSize))]
    case Continue(remaining, t0, _, n) =>
      var batch := Min(remaining, cfg.burstSize);
      Payloads(batch)
      + [Next(cfg, remaining - batch,
              if Millis(t0, now) >= 500 then Continue(0, now, now, cfg.burstSize)
              else Continue(0, t0, now, n + cfg.burstSize))]
    case Done => [Shutdown]
    case _ => []
  }

  /** The token that follows a batch. */
  function Next(cfg: Config, remaining: int, c: Msg): Msg
    requires c.Continue?
  {
    if remaining == 0 then Done else c.(remaining := remaining)
  }

  class Sender {
    const cfg: Config
    var active: bool
    var startTime: int
    var maxRoundTripMillis: int
    /** Messages sent to the receiver and to itself, oldest first. */
    var wire: seq<Msg>
    var self: seq<Msg>

    constructor (c: Config)
      ensures cfg == c && !active && wire == [] && self == []
    {
      cfg := c;
      active, startTime, maxRoundTripMillis, wire, self := false, 0, 0, [], [];
    }

    method SendBatch(remaining: int) returns (left: int)
      modifies this`wire
      ensures wire == old(wire) + Payloads(Min(remaining, cfg.burstSize))
      ensures left == remaining - Min(remaining, cfg.burstSize)
    {
      var batchSize := Min(remaining, cfg.burstSize);
      var x := 1;
      while x <= batchSize
        invariant 1 <= x && (batchSize >= 1 ==> x <= batchSize + 1) && (batchSize < 1 ==> x == 1)
        invariant wire == old(wire) + Payloads(x - 1)
        decreases batchSize - x
      {
        wire := wire + [Payload];
        x := x + 1;
      }
      left := remaining - batchSize;
    }

    /** The `identifying` behaviour. */
    method Identifying(m: Msg)
      requires !active
      modifies this
      ensures wire == old(wire) && startTime == old(startTime) && maxRoundTripMillis == old(maxRoundTripMillis)
      ensures active <==> m == Identity(true)
      ensures self == old(self) + (if m == Identity(true) then [Warmup] else [])
    {
      if m == Identity(true) {
        active := true;
        self := self + [Warmup];
      }
    }

    /** The `active` behaviour. */
    method Active(m: Msg, now: int)
      requires active
      modifies this
      ensures active && self == old(self)
      ensures wire == old(wire) + Sends(cfg, m, now)
      ensures startTime == if m.Start? then now else old(startTime)
      ensures !m.Continue? ==> maxRoundTripMillis == old(maxRoundTripMillis)
      ensures m.Continue? ==> IsMax(maxRoundTripMillis, old(maxRoundTripMillis), Millis(m.burstStartTime, now))
    {
      match m
      case Warmup =>
        var left := SendBatch(cfg.burstSize);
        wire := wire + [Start];
      case Start =>
        startTime := now;
        var remaining := SendBatch(cfg.totalMessages);
        if remaining == 0 {
          wire := wire + [Done];
        } else {
          wire := wire + [Continue(remaining, startTime, startTime, cfg.burstSize)];
        }
      case Continue(remaining, t0, t1, n) =>
        var duration := Millis(t0, now);
        var roundTripMillis := Millis(t1, now);
        maxRoundTripMillis := if roundTripMillis > maxRoundTripMillis then roundTripMillis else maxRoundTripMillis;
        var nextRemaining := SendBatch(remaining);
        if nextRemaining == 0 {
          wire := wire + [Done];
        } else if duration >= 500 {
          wire := wire + [Continue(nextRemaining, now, now, cfg.burstSize)];
        } else {
          wire := wire + [m.(remaining := nextRemaining, burstStartTime := now, n := n + cfg.burstSize)];
        }
      case Done =>
        wire := wire + [Shutdown];
      case _ =>
    }
  }

  // ---------------------------------------------------------------- the whole system

  /** The system between two steps.  `times` are the moments at which the payloads since Start were
      sent, `mark` how many of them precede the start time of the current token, `warm` the payloads
      of the warm-up burst, `consumed` the payloads the receiver has dropped, and `finished` says
      that the sender has handled Done. */
  datatype State = State(
    active: bool, toReceiver: seq<Msg>, toSender: seq<Msg>, clock: int,
    times: seq<int>, mark: nat, warm: nat, consumed: nat, finished: bool)

  const INITIAL := State(false, [], [], 0, [], 0, 0, 0, false)

  /** A message from outside: an answer to an identify request, or a receive timeout. */
  predicate External(m: Msg) {
    m.Identity? || m.ReceiveTimeout?
  }

  datatype Step = Outside(m: Msg) | SenderTakes(now: int) | ReceiverTakes

  predicate Enabled(s: State, step: Step) {
    match step
    case Outside(m) => External(m)
    case SenderTakes(now) => s.toSender != [] && s.clock <= now
    case ReceiverTakes => s.toReceiver != []
  }

  function CountPayloads(ms: seq<Msg>): nat {
    if ms == [] then 0 else (if ms[0].Payload? then 1 else 0) + CountPayloads(ms[1..])
  }

  /** The moments at which a batch sent for `m` leaves. */
  function Stamps(cfg: Config, m: Msg, now: int): seq<int> {
    seq(CountPayloads(Sends(cfg, m, now)), _ => now)
  }

  function SenderStep(cfg: Config, s: State, now: int): State
    requires s.toSender != []
  {
    var m := s.toSender[0];
    var rest := s.toSender[1..];
    if !s.active then
      s.(clock := now, active := m == Identity(true),
         toSender := rest + (if m == Identity(true) then [Warmup] else []))
    else
      var out := Sends(cfg, m, now);
      var t := s.(clock := now, toSender := rest, toReceiver := s.toReceiver + out);
      match m
      case Warmup => t.(warm := s.warm + CountPayloads(out))
      case Start => t.(times := Stamps(cfg, m, now), mark := 0)
      case Continue(_, t0, _, _) =>
        t.(times := s.times + Stamps(cfg, m, now),
           mark := if Millis(t0, now) >= 500 then |s.times| else s.mark)
      case Done => t.(finished := true)
      case _ => t
  }

  function ReceiverStep(s: State): State
    requires s.toReceiver != []
  {
    var m := s.toReceiver[0];
    s.(toReceiver := s.toReceiver[1..],
       toSender := s.toSender + Reply(m) + (if m.Shutdown? then [Terminated] else []),
       consumed := s.consumed + (if m.Payload? then 1 else 0))
  }

  function Apply(cfg: Config, s: State, step: Step): State
    requires Enabled(s, step)
  {
    match step
    case Outside(m) => s.(toSender := s.toSender + [m])
    case SenderTakes(now) => SenderStep(cfg, s, now)
    case ReceiverTakes => ReceiverStep(s)
  }

  // ---------------------------------------------------------------- counting

  lemma {:induction false} CountConcat(a: seq<Msg>, b: seq<Msg>)
    ensures CountPayloads(a + b) == CountPayloads(a) + CountPayloads(b)
  {
    if a == [] {
      assert a + b == b;
    } else {
      assert (a + b)[1..] == a[1..] + b;
      CountConcat(a[1..], b);
    }
  }

  lemma {:induction false} CountBatch(n: int, m: Msg)
    requires !m.Payload?
    ensures CountPayloads(Payloads(n) + [m]) == if n > 0 then n else 0
    decreases if n > 0 then n else 0
  {
    if n > 0 {
      assert (Payloads(n) + [m])[1..] == Payloads(n - 1) + [m];
      CountBatch(n - 1, m);
    } else {
      assert Payloads(n) + [m] == [m];
    }
  }

  // ---------------------------------------------------------------- the protocol, step by step

  predicate Junk(ms: seq<Msg>) {
    forall k :: 0 <= k < |ms| ==> External(ms[k]) || ms[k].Terminated?
  }

  /** How far a run has come.  `at` is where in the sender's mailbox the warm-up or the token is, `k`
      how many payloads are in front of the token on its way out. */
  datatype Stage = Asleep | Warming(at: nat) | Out(k: nat, token: Msg) | Back(at: nat, token: Msg) | Over

  function Positive(n: int): nat {
    if n > 0 then n else 0
  }

  predicate AtMost(ts: seq<int>, t: int) {
    forall k :: 0 <= k < |ts| ==> ts[k] <= t
  }

  predicate AtLeast(ts: seq<int>, t: int) {
    forall k :: 0 <= k < |ts| ==> t <= ts[k]
  }

  /** What a token says agrees with what has been sent: `remaining` and the payloads sent since Start
      add up to the total, and `n` counts exactly the payloads sent since the token's start time. */
  predicate Accounts(cfg: Config, s: State, token: Msg) {
    && AtMost(s.times, s.clock)
    && match token
       case Start => s.times == [] && s.mark == 0
       case Continue(remaining, t0, _, n) =>
         && remaining > 0 && remaining + |s.times| == cfg.totalMessages
         && s.mark <= |s.times| && n == |s.times| - s.mark
         && AtMost(s.times[..s.mark], t0) && AtLeast(s.times[s.mark..], t0) && t0 <= s.clock
       case Done => |s.times| == Positive(cfg.totalMessages)
       case _ => false
  }

  /** Only junk but for one message at `at`. */
  predicate OneAt(ms: seq<Msg>, at: nat, m: Msg) {
    at < |ms| && ms[at] == m && Junk(ms[..at]) && Junk(ms[at + 1..])
  }

  /** The invariant of every run with bursts of at least one message: there is exactly one of a
      pending warm-up, a token, or a shutdown; the channels hold nothing else but the payloads in
      front of the token; and the accounts are right. */
  predicate Holds(cfg: Config, s: State, stage: Stage) {
    && s.consumed + CountPayloads(s.toReceiver) == s.warm + |s.times|
    && (s.active <==> !stage.Asleep?)
    && (s.finished <==> stage.Over?)
    && s.warm == (if stage.Asleep? || stage.Warming? then 0 else cfg.burstSize)
    && match stage
       case Asleep => s.toReceiver == [] && Junk(s.toSender) && s.times == [] && s.mark == 0
       case Warming(at) => s.toReceiver == [] && OneAt(s.toSender, at, Warmup) && s.times == [] && s.mark == 0
       case Out(k, token) =>
         && s.toReceiver == Payloads(k) + [token] && Junk(s.toSender)
         && Echo(token) && Accounts(cfg, s, token)
       case Back(at, token) =>
         && s.toReceiver == [] && OneAt(s.toSender, at, token)
         && Echo(token) && Accounts(cfg, s, token)
       case Over =>
         && (s.toReceiver == [Shutdown] || s.toReceiver == []) && Junk(s.toSender)
         && |s.times| == Positive(cfg.totalMessages)
  }

  lemma {:induction false} JunkPush(ms: seq<Msg>, m: Msg)
    requires Junk(ms) && (External(m) || m.Terminated?)
    ensures Junk(ms + [m])
  {
  }

  lemma {:induction false} OneAtPush(ms: seq<Msg>, at: nat, m: Msg, j: Msg)
    requires OneAt(ms, at, m) && (External(j) || j.Terminated?)
    ensures OneAt(ms + [j], at, m)
  {
    assert (ms + [j])[..at] == ms[..at];
    assert (ms + [j])[at + 1..] == ms[at + 1..] + [j];
  }

  lemma {:induction false} OneAtShift(ms: seq<Msg>, at: nat, m: Msg)
    requires OneAt(ms, at, m) && at > 0
    ensures OneAt(ms[1..], at - 1, m) && (External(ms[0]) || ms[0].Terminated?)
  {
    assert ms[..at][0] == ms[0];
    assert ms[1..][..at - 1] == ms[..at][1..];
    assert ms[1..][at..] == ms[at + 1..];
  }

  lemma {:induction false} JunkThen(ms: seq<Msg>, m: Msg)
    requires Junk(ms)
    ensures OneAt(ms + [m], |ms|, m)
  {
    assert (ms + [m])[..|ms|] == ms && (ms + [m])[|ms| + 1..] == [];
  }

  lemma {:induction false} OutsideHolds(cfg: Config, s: State, stage: Stage, m: Msg)
    requires Holds(cfg, s, stage) && External(m)
    ensures Holds(cfg, Apply(cfg, s, Outside(m)), stage)
  {
    match stage
    case Warming(at) => OneAtPush(s.toSender, at, Warmup, m);
    case Back(at, token) => OneAtPush(s.toSender, at, token, m);
    case _ => JunkPush(s.toSender, m);
  }

  lemma {:induction false} ReceiverHolds(cfg: Config, s: State, stage: Stage) returns (next: Stage)
    requires Holds(cfg, s, stage) && s.toReceiver != []
    ensures Holds(cfg, ReceiverStep(s), next)
  {
    next := stage;
    var r := ReceiverStep(s);
    match stage
    case Out(k, token) =>
      if k > 0 {
        assert r.toReceiver == Payloads(k - 1) + [token];
        assert r.toSender == s.toSender;
        next := Out(k - 1, token);
      } else {
        assert s.toReceiver == [token];
        assert r.toSender == s.toSender + [token] + [] == s.toSender + [token];
        JunkThen(s.toSender, token);
        next := Back(|s.toSender|, token);
      }
    case Over =>
      assert r.toSender == s.toSender + [Terminated];
      JunkPush(s.toSender, Terminated);
  }

  lemma {:induction false} JunkStep(cfg: Config, s: State, now: int)
    requires s.active && s.toSender != [] && (External(s.toSender[0]) || s.toSender[0].Terminated?)
    ensures SenderStep(cfg, s, now) == s.(clock := now, toSender := s.toSender[1..])
  {
    assert s.toReceiver + [] == s.toReceiver;
  }

  lemma {:induction false} AccountsLater(cfg: Config, s: State, token: Msg, now: int)
    requires Accounts(cfg, s, token) && s.clock <= now
    ensures Accounts(cfg, s.(clock := now, toSender := s.toSender[if s.toSender == [] then 0 else 1..]), token)
  {
  }

  /** The token that goes out after a batch of `batch` payloads has right accounts again. */
  lemma {:induction false} StartAccounts(cfg: Config, s: State, now: int)
    requires cfg.burstSize >= 1 && s.toSender != [] && s.toSender[0] == Start && s.active
    requires Accounts(cfg, s, Start) && s.clock <= now
    ensures var batch := Min(cfg.totalMessages, cfg.burstSize);
            var next := Next(cfg, cfg.totalMessages - batch, Continue(0, now, now, cfg.burstSize));
            var r := SenderStep(cfg, s, now);
            && Echo(next) && Accounts(cfg, r, next)
            && r.toReceiver == s.toReceiver + (Payloads(batch) + [next])
            && |r.times| == Positive(batch)
  {
    var batch := Min(cfg.totalMessages, cfg.burstSize);
    var next := Next(cfg, cfg.totalMessages - batch, Continue(0, now, now, cfg.burstSize));
    CountBatch(batch, next);
  }

  lemma {:induction false} ContinueAccounts(cfg: Config, s: State, now: int)
    requires cfg.burstSize >= 1 && s.toSender != [] && s.toSender[0].Continue? && s.active
    requires Accounts(cfg, s, s.toSender[0]) && s.clock <= now
    ensures var m := s.toSender[0];
            var batch := Min(m.remaining, cfg.burstSize);
            var next := Next(cfg, m.remaining - batch,
                             if Millis(m.startTime, now) >= 500 then Continue(0, now, now, cfg.burstSize)
                             else Continue(0, m.startTime, now, m.n + cfg.burstSize));
            var r := SenderStep(cfg, s, now);
            && Echo(next) && Accounts(cfg, r, next)
            && r.toReceiver == s.toReceiver + (Payloads(batch) + [next])
            && |r.times| == |s.times| + batch && batch > 0
  {
    var m := s.toSender[0];
    var batch := Min(m.remaining, cfg.burstSize);
    var next := Next(cfg, m.remaining - batch,
                     if Millis(m.startTime, now) >= 500 then Continue(0, now, now, cfg.burstSize)
                     else Continue(0, m.startTime, now, m.n + cfg.burstSize));
    CountBatch(batch, next);
    var r := SenderStep(cfg, s, now);
    assert r.times == s.times + Stamps(cfg, m, now);
    assert r.times[..s.mark] == s.times[..s.mark];
    assert r.times[s.mark..] == s.times[s.mark..] + Stamps(cfg, m, now);
    assert r.times[..|s.times|] == s.times && r.times[|s.times|..] == Stamps(cfg, m, now);
  }

  lemma {:induction false} SenderHolds(cfg: Config, s: State, stage: Stage, now: int) returns (next: Stage)
    requires cfg.burstSize >= 1 && Holds(cfg, s, stage) && s.toSender != [] && s.clock <= now
    ensures Holds(cfg, SenderStep(cfg, s, now), next)
  {
    next := stage;
    var rest := s.toSender[1..];
    match stage
    case Asleep =>
      if s.toSender[0] == Identity(true) {
        JunkThen(rest, Warmup);
        next := Warming(|rest|);
      } else {
        assert rest + [] == rest;
      }
    case Warming(at) =>
      if at == 0 {
        CountBatch(cfg.burstSize, Start);
        assert s.toReceiver + Sends(cfg, Warmup, now) == Payloads(cfg.burstSize) + [Start];
        next := Out(cfg.burstSize, Start);
      } else {
        OneAtShift(s.toSender, at, Warmup);
        JunkStep(cfg, s, now);
        next := Warming(at - 1);
      }
    case Out(k, token) =>
      JunkStep(cfg, s, now);
      AccountsLater(cfg, s, token, now);
    case Over =>
      JunkStep(cfg, s, now);
    case Back(at, token) =>
      if at == 0 {
        next := TokenHolds(cfg, s, token, now);
      } else {
        OneAtShift(s.toSender, at, token);
        JunkStep(cfg, s, now);
        AccountsLater(cfg, s, token, now);
        next := Back(at - 1, token);
      }
  }

  /** A batch and the next token are out. */
  lemma {:induction false} BatchIsOut(cfg: Config, s: State, r: State, batch: int, token: Msg)
    requires cfg.burstSize >= 1 && s.toSender != [] && !s.toSender[0].Done?
    requires Holds(cfg, s, Back(0, s.toSender[0]))
    requires r.toReceiver == s.toReceiver + (Payloads(batch) + [token]) && r.toSender == s.toSender[1..]
    requires r.active && !r.finished && r.warm == s.warm && r.consumed == s.consumed
    requires |r.times| == |s.times| + Positive(batch)
    requires Echo(token) && Accounts(cfg, r, token)
    ensures Holds(cfg, r, OutAgain(batch, token))
  {
    CountBatch(batch, token);
    assert r.toReceiver == Payloads(Positive(batch)) + [token];
    assert r.toSender == s.toSender[0 + 1..];
  }

  lemma {:induction false} TokenHolds(cfg: Config, s: State, token: Msg, now: int) returns (next: Stage)
    requires cfg.burstSize >= 1 && Holds(cfg, s, Back(0, token)) && s.clock <= now
    ensures Holds(cfg, SenderStep(cfg, s, now), next)
    ensures token.Done? <==> next.Over?
  {
    var r := SenderStep(cfg, s, now);
    match token
    case Done =>
      next := Over;
      assert r.toSender == s.toSender[0 + 1..];
      assert s.toReceiver + [Shutdown] == [Shutdown];
    case Start =>
      StartAccounts(cfg, s, now);
      var batch := Min(cfg.totalMessages, cfg.burstSize);
      var tok := Next(cfg, cfg.totalMessages - batch, Continue(0, now, now, cfg.burstSize));
      next := OutAgain(batch, tok);
      BatchIsOut(cfg, s, r, batch, tok);
    case Continue(remaining, t0, _, n) =>
      ContinueAccounts(cfg, s, now);
      var batch := Min(remaining, cfg.burstSize);
      var tok := Next(cfg, remaining - batch,
                      if Millis(t0, now) >= 500 then Continue(0, now, now, cfg.burstSize)
                      else Continue(0, t0, now, n + cfg.burstSize));
      next := OutAgain(batch, tok);
      BatchIsOut(cfg, s, r, batch, tok);
  }

  function OutAgain(batch: int, token: Msg): Stage {
    Out(Positive(batch), token)
  }

  // ---------------------------------------------------------------- whole runs

  predicate Possible(cfg: Config, s: State, steps: seq<Step>)
    decreases |steps|
  {
    steps == [] || (Enabled(s, steps[0]) && Possible(cfg, Apply(cfg, s, steps[0]), steps[1..]))
  }

  function Run(cfg: Config, s: State, steps: seq<Step>): State
    requires Possible(cfg, s, steps)
    decreases |steps|
  {
    if steps == [] then s else Run(cfg, Apply(cfg, s, steps[0]), steps[1..])
  }

  lemma {:induction false} StepHolds(cfg: Config, s: State, stage: Stage, step: Step) returns (next: Stage)
    requires cfg.burstSize >= 1 && Holds(cfg, s, stage) && Enabled(s, step)
    ensures Holds(cfg, Apply(cfg, s, step), next)
  {
    match step
    case Outside(m) =>
      OutsideHolds(cfg, s, stage, m);
      next := stage;
    case SenderTakes(now) => next := SenderHolds(cfg, s, stage, now);
    case ReceiverTakes => next := ReceiverHolds(cfg, s, stage);
  }

  lemma {:induction false} RunHolds(cfg: Config, s: State, stage: Stage, steps: seq<Step>) returns (next: Stage)
    requires cfg.burstSize >= 1 && Holds(cfg, s, stage) && Possible(cfg, s, steps)
    ensures Holds(cfg, Run(cfg, s, steps), next)
    decreases |steps|
  {
    next := stage;
    if steps != [] {
      next := StepHolds(cfg, s, stage, steps[0]);
      next := RunHolds(cfg, Apply(cfg, s, steps[0]), next, steps[1..]);
    }
  }

  /** Warm-ups and echo tokens in a channel. */
  function Tokens(ms: seq<Msg>): nat {
    if ms == [] then 0 else (if Echo(ms[0]) || ms[0].Warmup? then 1 else 0) + Tokens(ms[1..])
  }

  lemma {:induction false} TokensConcat(a: seq<Msg>, b: seq<Msg>)
    ensures Tokens(a + b) == Tokens(a) + Tokens(b)
  {
    if a == [] {
      assert a + b == b;
    } else {
      assert (a + b)[1..] == a[1..] + b;
      TokensConcat(a[1..], b);
    }
  }

  lemma {:induction false} NoTokens(ms: seq<Msg>)
    requires forall k :: 0 <= k < |ms| ==> !Echo(ms[k]) && !ms[k].Warmup?
    ensures Tokens(ms) == 0
  {
    if ms != [] {
      NoTokens(ms[1..]);
    }
  }

  lemma {:induction false} OneToken(ms: seq<Msg>, at: nat, m: Msg)
    requires at < |ms| && ms[at] == m && (Echo(m) || m.Warmup?)
    requires forall k :: 0 <= k < |ms| && k != at ==> !Echo(ms[k]) && !ms[k].Warmup?
    ensures Tokens(ms) == 1
  {
    var a, b := ms[..at], ms[at + 1..];
    assert ms == a + ([m] + b);
    TokensConcat(a, [m] + b);
    TokensConcat([m], b);
    NoTokens(a);
    NoTokens(b);
  }

  lemma {:induction false} JunkAround(ms: seq<Msg>, at: nat, m: Msg)
    requires OneAt(ms, at, m)
    ensures forall k :: 0 <= k < |ms| && k != at ==> External(ms[k]) || ms[k].Terminated?
  {
    forall k | 0 <= k < |ms| && k != at ensures External(ms[k]) || ms[k].Terminated? {
      if k < at {
        assert ms[..at][k] == ms[k];
      } else {
        assert ms[at + 1..][k - at - 1] == ms[k];
      }
    }
  }

  /** In every run: an active sender has exactly one of a pending warm-up, a token under way, and a
      shutdown; what any token says agrees with what was sent; when a token is back, everything sent
      before it has been consumed; and a finished sender has sent the whole total. */
  lemma {:induction false} EveryRun(cfg: Config, steps: seq<Step>)
    requires cfg.burstSize >= 1 && Possible(cfg, INITIAL, steps)
    ensures var s := Run(cfg, INITIAL, steps);
            && Tokens(s.toSender) + Tokens(s.toReceiver) + (if s.finished then 1 else 0) == (if s.active then 1 else 0)
            && (forall m :: m in s.toReceiver && Echo(m) ==>
                  Accounts(cfg, s, m) && m == s.toReceiver[|s.toReceiver| - 1])
            && (forall m :: m in s.toSender && Echo(m) ==>
                  Accounts(cfg, s, m) && s.toReceiver == [] && s.consumed == cfg.burstSize + |s.times|)
            && (s.finished ==> |s.times| == Positive(cfg.totalMessages))
  {
    var s := Run(cfg, INITIAL, steps);
    var stage := RunHolds(cfg, INITIAL, Asleep, steps);
    match stage
    case Asleep => NoTokens(s.toSender);
    case Warming(at) =>
      JunkAround(s.toSender, at, Warmup);
      OneToken(s.toSender, at, Warmup);
    case Out(k, token) =>
      NoTokens(s.toSender);
      OneToken(s.toReceiver, |s.toReceiver| - 1, token);
    case Back(at, token) =>
      JunkAround(s.toSender, at, token);
      OneToken(s.toSender, at, token);
    case Over =>
      NoTokens(s.toSender);
      NoTokens(s.toReceiver);
  }

  // ---------------------------------------------------------------- runs end

  /** Bounds the steps that a message in the sender's mailbox can still cause. */
  function Ahead(cfg: Config, m: Msg): nat {
    match m
    case Done => 3
    case Continue(remaining, _, _, _) => 3 * Positive(remaining) + 5
    case Start => 3 * Positive(cfg.totalMessages) + 6
    case Warmup => Positive(cfg.burstSize) + 3 * Positive(cfg.totalMessages) + 8
    case Identity(_) => Positive(cfg.burstSize) + 3 * Positive(cfg.totalMessages) + 9
    case _ => 1
  }

  /** The same for a message on its way to the receiver. */
  function Beyond(cfg: Config, m: Msg): nat {
    if Echo(m) then 1 + Ahead(cfg, m) else if m.Shutdown? then 2 else 1
  }

  function SumAhead(cfg: Config, ms: seq<Msg>): nat {
    if ms == [] then 0 else Ahead(cfg, ms[0]) + SumAhead(cfg, ms[1..])
  }

  function SumBeyond(cfg: Config, ms: seq<Msg>): nat {
    if ms == [] then 0 else Beyond(cfg, ms[0]) + SumBeyond(cfg, ms[1..])
  }

  function WorkLeft(cfg: Config, s: State): nat {
    SumAhead(cfg, s.toSender) + SumBeyond(cfg, s.toReceiver)
  }

  lemma {:induction false} SumAheadConcat(cfg: Config, a: seq<Msg>, b: seq<Msg>)
    ensures SumAhead(cfg, a + b) == SumAhead(cfg, a) + SumAhead(cfg, b)
  {
    if a == [] {
      assert a + b == b;
    } else {
      assert (a + b)[1..] == a[1..] + b;
      SumAheadConcat(cfg, a[1..], b);
    }
  }

  lemma {:induction false} SumBeyondConcat(cfg: Config, a: seq<Msg>, b: seq<Msg>)
    ensures SumBeyond(cfg, a + b) == SumBeyond(cfg, a) + SumBeyond(cfg, b)
  {
    if a == [] {
      assert a + b == b;
    } else {
      assert (a + b)[1..] == a[1..] + b;
      SumBeyondConcat(cfg, a[1..], b);
    }
  }

  lemma {:induction false} SumBeyondBatch(cfg: Config, n: int, m: Msg)
    ensures SumBeyond(cfg, Payloads(n) + [m]) == Positive(n) + Beyond(cfg, m)
    decreases Positive(n)
  {
    if n > 0 {
      assert (Payloads(n) + [m])[1..] == Payloads(n - 1) + [m];
      SumBeyondBatch(cfg, n - 1, m);
    } else {
      assert Payloads(n) + [m] == [m];
      assert [m][1..] == [];
    }
  }

  lemma {:induction false} SendsCostLess(cfg: Config, m: Msg, now: int)
    requires cfg.burstSize >= 1
    ensures SumBeyond(cfg, Sends(cfg, m, now)) < Ahead(cfg, m)
  {
    match m
    case Warmup => SumBeyondBatch(cfg, cfg.burstSize, Start);
    case Start =>
      var batch := Min(cfg.totalMessages, cfg.burstSize);
      SumBeyondBatch(cfg, batch, Next(cfg, cfg.totalMessages - batch, Continue(0, now, now, cfg.burstSize)));
    case Continue(remaining, t0, _, n) =>
      var batch := Min(remaining, cfg.burstSize);
      SumBeyondBatch(cfg, batch, Next(cfg, remaining - batch,
              if Millis(t0, now) >= 500 then Continue(0, now, now, cfg.burstSize)
              else Continue(0, t0, now, n + cfg.burstSize)));
    case Done => SumBeyondBatch(cfg, 0, Shutdown); assert Payloads(0) + [Shutdown] == [Shutdown];
    case _ =>
  }

  /** Every delivery brings the end nearer, in any state whatever. */
  lemma {:induction false} StepsUseUpWork(cfg: Config, s: State, step: Step)
    requires cfg.burstSize >= 1 && Enabled(s, step) && !step.Outside?
    ensures WorkLeft(cfg, Apply(cfg, s, step)) < WorkLeft(cfg, s)
  {
    match step
    case SenderTakes(now) =>
      var m, rest := s.toSender[0], s.toSender[1..];
      if s.active {
        SendsCostLess(cfg, m, now);
        SumBeyondConcat(cfg, s.toReceiver, Sends(cfg, m, now));
      } else {
        var more := if m == Identity(true) then [Warmup] else [];
        SumAheadConcat(cfg, rest, more);
        assert more != [] ==> more[1..] == [];
      }
    case ReceiverTakes =>
      var m, rest := s.toReceiver[0], s.toReceiver[1..];
      var last := if m.Shutdown? then [Terminated] else [];
      SumAheadConcat(cfg, s.toSender + Reply(m), last);
      SumAheadConcat(cfg, s.toSender, Reply(m));
      assert Reply(m) != [] ==> Reply(m)[1..] == [];
      assert last != [] ==> last[1..] == [];
  }

  /** Without messages from outside no run is longer than the work in its first state. */
  lemma {:induction false} RunsAreBounded(cfg: Config, s: State, steps: seq<Step>)
    requires cfg.burstSize >= 1 && Possible(cfg, s, steps)
    requires forall k :: 0 <= k < |steps| ==> !steps[k].Outside?
    ensures |steps| <= WorkLeft(cfg, s)
    decreases |steps|
  {
    if steps != [] {
      StepsUseUpWork(cfg, s, steps[0]);
      RunsAreBounded(cfg, Apply(cfg, s, steps[0]), steps[1..]);
    }
  }

  predicate Quiet(s: State) {
    s.toReceiver == [] && s.toSender == []
  }

  /** Every run of an active sender that cannot go on has ended as it should: the sender is finished,
      exactly the total was sent after the warm-up burst, and all of it was consumed. */
  lemma {:induction false} QuietRunsAreComplete(cfg: Config, steps: seq<Step>)
    requires cfg.burstSize >= 1 && Possible(cfg, INITIAL, steps)
    requires Quiet(Run(cfg, INITIAL, steps)) && Run(cfg, INITIAL, steps).active
    ensures var s := Run(cfg, INITIAL, steps);
            && s.finished && |s.times| == Positive(cfg.totalMessages)
            && s.consumed == cfg.burstSize + Positive(cfg.totalMessages)
  {
    var stage := RunHolds(cfg, INITIAL, Asleep, steps);
  }

  lemma {:induction false} GoesQuiet(cfg: Config, s: State) returns (steps: seq<Step>)
    requires cfg.burstSize >= 1
    ensures Possible(cfg, s, steps) && Quiet(Run(cfg, s, steps))
    ensures s.active ==> Run(cfg, s, steps).active
    decreases WorkLeft(cfg, s)
  {
    steps := [];
    if !Quiet(s) {
      var step := if s.toReceiver != [] then ReceiverTakes else SenderTakes(s.clock);
      StepsUseUpWork(cfg, s, step);
      var more := GoesQuiet(cfg, Apply(cfg, s, step));
      steps := [step] + more;
      assert steps[1..] == more;
    }
  }

  lemma {:induction false} RunThen(cfg: Config, s: State, first: seq<Step>, more: seq<Step>)
    requires Possible(cfg, s, first) && Possible(cfg, Run(cfg, s, first), more)
    ensures Possible(cfg, s, first + more)
    ensures Run(cfg, s, first + more) == Run(cfg, Run(cfg, s, first), more)
    decreases |first|
  {
    if first == [] {
      assert first + more == more;
    } else {
      assert (first + more)[1..] == first[1..] + more;
      RunThen(cfg, Apply(cfg, s, first[0]), first[1..], more);
    }
  }

  /** Every run that has reached the receiver can be continued until the sender is finished. */
  lemma {:induction false} EveryRunCanFinish(cfg: Config, steps: seq<Step>) returns (all: seq<Step>)
    requires cfg.burstSize >= 1 && Possible(cfg, INITIAL, steps) && Run(cfg, INITIAL, steps).active
    ensures steps <= all && Possible(cfg, INITIAL, all) && Run(cfg, INITIAL, all).finished
  {
    var more := GoesQuiet(cfg, Run(cfg, INITIAL, steps));
    all := steps + more;
    RunThen(cfg, INITIAL, steps, more);
    QuietRunsAreComplete(cfg, all);
  }

  // ---------------------------------------------------------------- bursts of size zero

  predicate Restless(m: Msg) {
    !m.Done? && (m.Continue? ==> m.remaining > 0)
  }

  predicate AllRestless(s: State) {
    && !s.finished
    && (forall k :: 0 <= k < |s.toSender| ==> Restless(s.toSender[k]))
    && (forall k :: 0 <= k < |s.toReceiver| ==> Restless(s.toReceiver[k]))
  }

  lemma {:induction false} SendsRestless(cfg: Config, m: Msg, now: int)
    requires cfg.burstSize == 0 && cfg.totalMessages > 0 && Restless(m)
    ensures forall k :: 0 <= k < |Sends(cfg, m, now)| ==> Restless(Sends(cfg, m, now)[k])
  {
  }

  lemma {:induction false} StaysRestless(cfg: Config, s: State, steps: seq<Step>)
    requires cfg.burstSize == 0 && cfg.totalMessages > 0 && AllRestless(s) && Possible(cfg, s, steps)
    ensures AllRestless(Run(cfg, s, steps))
    decreases |steps|
  {
    if steps != [] {
      if s.toSender != [] && steps[0].SenderTakes? {
        SendsRestless(cfg, s.toSender[0], steps[0].now);
      }
      StaysRestless(cfg, Apply(cfg, s, steps[0]), steps[1..]);
    }
  }

  lemma {:induction false} OneStepMore(cfg: Config, s: State, step: Step, r: State, more: seq<Step>)
    requires Enabled(s, step) && Apply(cfg, s, step) == r && Possible(cfg, r, more)
    ensures Possible(cfg, s, [step] + more) && Run(cfg, s, [step] + more) == Run(cfg, r, more)
  {
    var steps := [step] + more;
    assert steps[0] == step && steps[1..] == more;
  }

  lemma {:induction false} WakesUp(cfg: Config) returns (steps: seq<Step>)
    ensures Possible(cfg, INITIAL, steps)
    ensures Run(cfg, INITIAL, steps) == INITIAL.(active := true, toSender := [Warmup])
  {
    var s1 := Apply(cfg, INITIAL, Outside(Identity(true)));
    assert s1.toSender == [Identity(true)];
    var s2 := Apply(cfg, s1, SenderTakes(0));
    assert s2.toSender == [Warmup];
    OneStepMore(cfg, s1, SenderTakes(0), s2, []);
    OneStepMore(cfg, INITIAL, Outside(Identity(true)), s1, [SenderTakes(0)] + []);
    steps := [Outside(Identity(true))] + ([SenderTakes(0)] + []);
  }

  /** With nothing to send the token comes back as Done at once. */
  lemma {:induction false} NothingToSend(cfg: Config) returns (steps: seq<Step>)
    requires cfg.burstSize == 0 && cfg.totalMessages <= 0
    ensures var s := INITIAL.(active := true, toSender := [Warmup]);
            Possible(cfg, s, steps) && Run(cfg, s, steps).finished
  {
    var s := INITIAL.(active := true, toSender := [Warmup]);
    var out, back := s.(toSender := [], toReceiver := [Start]), s.(toSender := [Start]);
    var done, last := s.(toSender := [], toReceiver := [Done]), s.(toSender := [Done]);
    var over := s.(toSender := [], toReceiver := [Shutdown], finished := true);
    assert Payloads(0) + [Start] == [Start] && Payloads(cfg.totalMessages) + [Done] == [Done];
    assert Sends(cfg, Warmup, 0) == [Start] && Sends(cfg, Start, 0) == [Done];
    assert Apply(cfg, s, SenderTakes(0)) == out && Apply(cfg, out, ReceiverTakes) == back;
    assert Apply(cfg, back, SenderTakes(0)) == done && Apply(cfg, done, ReceiverTakes) == last;
    assert Apply(cfg, last, SenderTakes(0)) == over;
    var s5 := [SenderTakes(0)] + [];
    var s4 := [ReceiverTakes] + s5;
    var s3 := [SenderTakes(0)] + s4;
    var s2 := [ReceiverTakes] + s3;
    OneStepMore(cfg, last, SenderTakes(0), over, []);
    OneStepMore(cfg, done, ReceiverTakes, last, s5);
    OneStepMore(cfg, back, SenderTakes(0), done, s4);
    OneStepMore(cfg, out, ReceiverTakes, back, s3);
    OneStepMore(cfg, s, SenderTakes(0), out, s2);
    steps := [SenderTakes(0)] + s2;
  }

  /** The exact condition: some run is finished just when bursts are not empty or there is nothing to
      send.  With empty bursts and something to send the token goes round for ever. */
  lemma {:induction false} SomeRunFinishes(cfg: Config)
    requires cfg.burstSize >= 0
    ensures (exists steps :: Possible(cfg, INITIAL, steps) && Run(cfg, INITIAL, steps).finished)
            <==> cfg.burstSize >= 1 || cfg.totalMessages <= 0
  {
    if cfg.burstSize == 0 && cfg.totalMessages > 0 {
      forall steps | Possible(cfg, INITIAL, steps) ensures !Run(cfg, INITIAL, steps).finished {
        StaysRestless(cfg, INITIAL, steps);
      }
    } else {
      var steps := WakesUp(cfg);
      if cfg.burstSize >= 1 {
        var all := EveryRunCanFinish(cfg, steps);
      } else {
        var more := NothingToSend(cfg);
        RunThen(cfg, INITIAL, steps, more);
        assert Possible(cfg, INITIAL, steps + more) && Run(cfg, INITIAL, steps + more).finished;
      }
    }
  }
}
