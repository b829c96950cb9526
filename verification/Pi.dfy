/** Leibniz's series summed by many workers: the master hands out chunks, adds up the answers in the
    order in which they happen to arrive, and announces the total.  Numbers are reals. */
module Pi {

  import opened Arrivals

  /** The remainder of a division that truncates. */
  function Rem(i: int, d: int): int
    requires d > 0
  {
    if i < 0 then -((-i) % d) else i % d
  }

  function Term(i: int): real {
    4.0 * ((1 - Rem(i, 2) * 2) as real) / ((2 * i + 1) as real)
  }

  /** The terms from `from` on, up to but not including `to`. */
  function Sum(from: int, to: int): real
    decreases to - from
  {
    if to <= from then 0.0 else Sum(from, to - 1) + Term(to - 1)
  }

  method CalculatePiFor(start: int, nrOfElements: int) returns (acc: real)
    ensures acc == Sum(start, start + nrOfElements)
  {
    acc := 0.0;
    var i := start;
    while i < start + nrOfElements
      invariant start <= i && (nrOfElements >= 0 ==> i <= start + nrOfElements) && (nrOfElements < 0 ==> i == start)
      invariant acc == Sum(start, i)
      decreases start + nrOfElements - i
    {
      acc := acc + 4.0 * ((1 - Rem(i, 2) * 2) as real) / ((2 * i + 1) as real);
      i := i + 1;
    }
  }

  datatype Work = Work(start: int, nrOfElements: int)

  /** The master's fields, what it has announced, and whether it has stopped itself. */
  datatype State = State(pi: real, nrOfResults: int, announced: seq<real>, stopped: bool)

  const FRESH := State(0.0, 0, [], false)

  /** A stopped actor receives nothing. */
  function Receive(nrOfMessages: int, s: State, value: real): State {
    if s.stopped then s
    else if s.nrOfResults + 1 == nrOfMessages then
      State(s.pi + value, s.nrOfResults + 1, s.announced + [s.pi + value], true)
    else State(s.pi + value, s.nrOfResults + 1, s.announced, false)
  }

  class Master {
    const nrOfMessages: int
    const nrOfElements: int
    var pi: real
    var nrOfResults: int
    var announced: seq<real>
    var stopped: bool
    var router: seq<Work>

    constructor (messages: int, elements: int)
      ensures nrOfMessages == messages && nrOfElements == elements
      ensures Current() == FRESH && router == []
    {
      nrOfMessages, nrOfElements := messages, elements;
      pi, nrOfResults, announced, stopped, router := 0.0, 0, [], false, [];
    }

    function Current(): State
      reads this
    {
      State(pi, nrOfResults, announced, stopped)
    }

    /** One piece of work for each chunk; together they are all the terms, each exactly once. */
    method Calculate()
      modifies this`router
      ensures |router| == |old(router)| + (if nrOfMessages > 0 then nrOfMessages else 0)
      ensures router[..|old(router)|] == old(router)
      ensures forall k :: |old(router)| <= k < |router| ==>
                router[k] == Work((k - |old(router)|) * nrOfElements, nrOfElements)
    {
      var i := 0;
      while i < nrOfMessages
        invariant 0 <= i && (nrOfMessages >= 0 ==> i <= nrOfMessages) && (nrOfMessages < 0 ==> i == 0)
        invariant |router| == |old(router)| + i
        invariant router[..|old(router)|] == old(router)
        invariant forall k :: |old(router)| <= k < |router| ==>
                    router[k] == Work((k - |old(router)|) * nrOfElements, nrOfElements)
        decreases nrOfMessages - i
      {
        router := router + [Work(i * nrOfElements, nrOfElements)];
        i := i + 1;
      }
    }

    method Result(value: real)
      requires !stopped
      modifies this`pi, this`nrOfResults, this`announced, this`stopped
      ensures Current() == Receive(nrOfMessages, old(Current()), value)
    {
      pi := pi + value;
      nrOfResults := nrOfResults + 1;
      if nrOfResults == nrOfMessages {
        announced := announced + [pi];
        stopped := true;
      }
    }
  }

  // ---------------------------------------------------------------- any order of arrival

  /** What a worker answers for the chunk with number `i`. */
  function Chunk(elements: int, i: int): real {
    Sum(i * elements, i * elements + elements)
  }

  /** The master after the first answers, oldest first. */
  function After(messages: int, elements: int, order: seq<int>): State {
    if order == [] then FRESH
    else
      Receive(messages, After(messages, elements, order[..|order| - 1]), Chunk(elements, order[|order| - 1]))
  }

  /** The chunks below `n` that are in `got`, added up by number. */
  function SumOf(elements: int, n: nat, got: set<int>): real {
    if n == 0 then 0.0
    else SumOf(elements, n - 1, got) + if n - 1 in got then Chunk(elements, n - 1) else 0.0
  }

  lemma {:induction false} SumOfAdd(elements: int, n: nat, got: set<int>, x: int)
    requires x !in got
    ensures SumOf(elements, n, got + {x})
            == SumOf(elements, n, got) + if 0 <= x < n then Chunk(elements, x) else 0.0
  {
    if n > 0 {
      SumOfAdd(elements, n - 1, got, x);
    }
  }

  lemma {:induction false} SumSplit(a: int, b: int, c: int)
    requires a <= b <= c
    ensures Sum(a, c) == Sum(a, b) + Sum(b, c)
    decreases c - b
  {
    if b < c {
      SumSplit(a, b, c - 1);
    }
  }

  lemma {:induction false} NoTerms(elements: int, i: int)
    requires elements <= 0
    ensures Chunk(elements, i) == 0.0
  {
  }

  lemma {:induction false} AllChunks(elements: int, n: nat, got: set<int>)
    requires forall i :: 0 <= i < n ==> i in got
    ensures SumOf(elements, n, got) == Sum(0, n * elements)
  {
    if n > 0 {
      AllChunks(elements, n - 1, got);
      var from := (n - 1) * elements;
      assert n * elements == from + elements;
      if elements > 0 {
        assert from >= 0;
        SumSplit(0, from, from + elements);
      } else {
        NoTerms(elements, n - 1);
        assert from <= 0;
      }
    }
  }

  lemma {:induction false} NothingGot(elements: int, n: nat)
    ensures SumOf(elements, n, {}) == 0.0
  {
    if n > 0 {
      NothingGot(elements, n - 1);
    }
  }

  lemma {:induction false} AfterPush(messages: int, elements: int, front: seq<int>, x: int, order: seq<int>)
    requires order != [] && order[..|order| - 1] == front && order[|order| - 1] == x
    ensures After(messages, elements, order)
            == Receive(messages, After(messages, elements, front), Chunk(elements, x))
  {
  }

  /** What the master knows when the chunks in `got` are in. */
  predicate Knows(messages: nat, elements: int, s: State, got: set<int>) {
    && s.pi == SumOf(elements, messages, got)
    && s.nrOfResults == |got| && s.stopped == (|got| == messages)
    && s.announced == if |got| == messages then [s.pi] else []
  }

  lemma {:induction false} ReceiveKnows(messages: nat, elements: int, s: State, got: set<int>, x: int)
    requires Knows(messages, elements, s, got) && x !in got && 0 <= x < messages && |got| < messages
    ensures Knows(messages, elements, Receive(messages, s, Chunk(elements, x)), got + {x})
  {
    SumOfAdd(elements, messages, got, x);
  }

  lemma {:induction false} AfterSome(messages: int, elements: int, order: seq<int>)
    requires messages >= 1 && Arrives(messages, order)
    ensures Knows(messages, elements, After(messages, elements, order), Elements(order))
    decreases |order|
  {
    if order == [] {
      assert Elements(order) == {};
      NothingGot(elements, messages);
    } else {
      var front, x := order[..|order| - 1], order[|order| - 1];
      assert order == front + [x];
      AfterSome(messages, elements, front);
      HowMany(messages, front);
      HowMany(messages, order);
      ElementsPush(front, x);
      ReceiveKnows(messages, elements, After(messages, elements, front), Elements(front), x);
      AfterPush(messages, elements, front, x, order);
    }
  }

  /** Whatever the order in which the answers arrive: nothing is announced until the last one is in,
      and then exactly one number, the sequential sum of all the terms. */
  lemma {:induction false} OrderDoesNotMatter(messages: int, elements: int, order: seq<int>)
    requires Arrives(messages, order)
    ensures After(messages, elements, order).announced
            == if messages >= 1 && |order| == messages then [Sum(0, messages * elements)] else []
  {
    HowMany(messages, order);
    if messages >= 1 {
      AfterSome(messages, elements, order);
      if |order| == messages {
        AllChunks(elements, messages, Elements(order));
      }
    } else {
      assert order == [];
    }
  }

  /** A master without chunks never announces anything, and every other one does: the condition is
      exact. */
  lemma {:induction false} AnnouncesWhenThereIsWork(messages: int, elements: int)
    ensures (exists order :: Arrives(messages, order) && After(messages, elements, order).announced != [])
            <==> messages >= 1
  {
    if messages >= 1 {
      var order := seq(messages, i => i);
      assert Arrives(messages, order);
      OrderDoesNotMatter(messages, elements, order);
    } else {
      forall order | Arrives(messages, order) ensures After(messages, elements, order).announced == [] {
        OrderDoesNotMatter(messages, elements, order);
      }
    }
  }

  // ---------------------------------------------------------------- how good the sum is

  function Size(n: nat): real {
    4.0 / ((2 * n + 1) as real)
  }

  function Signed(n: nat, x: real): real {
    if n % 2 == 0 then x else -x
  }

  lemma {:induction false} TermIs(n: nat)
    ensures Term(n) == Signed(n, Size(n))
    ensures 0.0 < Size(n + 1) < Size(n)
  {
    var d := (2 * n + 1) as real;
    assert (2 * (n + 1) + 1) as real == d + 2.0;
    Smaller(d);
  }

  lemma {:induction false} Smaller(d: real)
    requires d > 0.0
    ensures 0.0 < 4.0 / (d + 2.0) < 4.0 / d
  {
    var x, y := 4.0 / d, 4.0 / (d + 2.0);
    assert x * d == 4.0 && y * (d + 2.0) == 4.0;
  }

  /** A stretch of the series has the sign of its first term and is at most as large. */
  lemma {:induction false} Stretch(n: nat, m: nat)
    requires n <= m
    ensures 0.0 <= Signed(n, Sum(n, m)) <= Size(n)
    decreases m - n
  {
    if n < m {
      SumSplit(n, n + 1, m);
      assert Sum(n, n + 1) == Sum(n, n) + Term(n) == Term(n);
      TermIs(n);
      Stretch(n + 1, m);
    } else {
      TermIs(n);
    }
  }

  /** No longer sum is further away than the first term left out; sums of an even number of terms
      are below all longer ones and sums of an odd number above. */
  lemma {:induction false} LaterSumsAreNear(n: nat, m: nat)
    requires n <= m
    ensures -Size(n) <= Sum(0, m) - Sum(0, n) <= Size(n)
    ensures n % 2 == 0 ==> Sum(0, n) <= Sum(0, m)
    ensures n % 2 == 1 ==> Sum(0, m) <= Sum(0, n)
  {
    SumSplit(0, n, m);
    Stretch(n, m);
  }

  /** The announced number is as near to every longer sum as the first term it leaves out. */
  lemma {:induction false} AnnouncedIsNear(messages: nat, elements: nat, order: seq<int>, m: nat)
    requires messages >= 1 && Arrives(messages, order) && |order| == messages
    requires messages * elements <= m
    ensures var s := After(messages, elements, order);
            && |s.announced| == 1
            && -Size(messages * elements) <= Sum(0, m) - s.announced[0] <= Size(messages * elements)
  {
    OrderDoesNotMatter(messages, elements, order);
    LaterSumsAreNear(messages * elements, m);
  }
}
