/** Counting words with several workers: the master slices the text, every worker counts its slice,
    and the master merges the partial counts in the order in which they happen to arrive. */
module WordCount {

  import opened Arrivals

  type Word = string

  function Count(words: seq<Word>, w: Word): nat {
    if words == [] then 0
    else Count(words[..|words| - 1], w) + if words[|words| - 1] == w then 1 else 0
  }

  /** The table of a text: exactly its words, each with how often it occurs. */
  function Table(words: seq<Word>): (t: map<Word, int>) {
    map w | w in words :: Count(words, w)
  }

  function GetOrElse(t: map<Word, int>, w: Word, default: int): int {
    if w in t then t[w] else default
  }

  function Merged(a: map<Word, int>, b: map<Word, int>): (t: map<Word, int>) {
    map w | w in a.Keys + b.Keys :: GetOrElse(a, w, 0) + GetOrElse(b, w, 0)
  }

  lemma {:induction false} CountIsMultiplicity(words: seq<Word>, w: Word)
    ensures Count(words, w) == multiset(words)[w]
  {
    if words != [] {
      var front := words[..|words| - 1];
      CountIsMultiplicity(front, w);
      assert words == front + [words[|words| - 1]];
    }
  }

  lemma {:induction false} CountPositive(words: seq<Word>, w: Word)
    ensures Count(words, w) > 0 <==> w in words
  {
    if words != [] {
      var front := words[..|words| - 1];
      CountPositive(front, w);
      assert words == front + [words[|words| - 1]];
    }
  }

  lemma {:induction false} CountConcat(a: seq<Word>, b: seq<Word>, w: Word)
    ensures Count(a + b, w) == Count(a, w) + Count(b, w)
    decreases |b|
  {
    if b == [] {
      assert a + b == a;
    } else {
      assert (a + b)[..|a + b| - 1] == a + b[..|b| - 1];
      CountConcat(a, b[..|b| - 1], w);
    }
  }

  /** The worker's loop. */
  method CountWords(data: seq<Word>) returns (count: map<Word, int>)
    ensures count == Table(data)
  {
    count := map[];
    var i := 0;
    while i < |data|
      invariant 0 <= i <= |data|
      invariant count.Keys == set w | w in data[..i]
      invariant forall w :: w in count ==> count[w] == Count(data[..i], w)
    {
      ghost var before := data[..i];
      var word := data[i];
      var numExisted := GetOrElse(count, word, 0);
      CountPositive(before, word);
      var newNum := numExisted + 1;
      count := count[word := newNum];
      i := i + 1;
      assert data[..i] == before + [word];
      assert data[..i][..|data[..i]| - 1] == before;
    }
    assert data[..i] == data;
  }

  /** The master's merge; the entries of a hash map come in no particular order. */
  method MergeRes(allData: map<Word, int>, partData: map<Word, int>) returns (merged: map<Word, int>)
    ensures merged == Merged(allData, partData)
  {
    merged := allData;
    var left := partData.Keys;
    while left != {}
      invariant left <= partData.Keys
      invariant merged.Keys == allData.Keys + (partData.Keys - left)
      invariant forall w :: w in merged ==>
                  merged[w] == GetOrElse(allData, w, 0) + if w in left then 0 else GetOrElse(partData, w, 0)
    {
      var w :| w in left;
      var numExisted := GetOrElse(merged, w, 0);
      var newNum := numExisted + partData[w];
      merged := merged[w := newNum];
      left := left - {w};
    }
  }

  // ---------------------------------------------------------------- slices

  /** An array slice that clamps its bounds. */
  function Slice<T>(a: seq<T>, from: int, until: int): seq<T> {
    var lo := if from < 0 then 0 else from;
    var hi := if until < 0 then 0 else if until > |a| then |a| else until;
    if lo < hi then a[lo..hi] else []
  }

  /** The slice of the worker with number `i`, counted from one. */
  function Part(data: seq<Word>, workers: int, i: int): seq<Word>
    requires workers >= 1
  {
    var job := |data| / workers;
    Slice(data, (i - 1) * job, if i == workers then |data| - 1 else i * job)
  }

  function Joined(data: seq<Word>, workers: int, n: nat): seq<Word>
    requires workers >= 1
  {
    if n == 0 then [] else Joined(data, workers, n - 1) + Part(data, workers, n)
  }

  function AllButLast(data: seq<Word>): seq<Word> {
    if data == [] then [] else data[..|data| - 1]
  }

  lemma {:induction false} Shares(size: nat, workers: int)
    requires workers >= 1
    ensures var job := size / workers; workers * job <= size
    ensures size > 0 ==> (workers - 1) * (size / workers) <= size - 1
  {
    var job := size / workers;
    assert size == workers * job + size % workers;
    assert (workers - 1) * job == workers * job - job;
  }

  lemma {:induction false} PartIs(data: seq<Word>, workers: int, i: int, from: nat, to: nat)
    requires workers >= 1 && i != workers
    requires from == (i - 1) * (|data| / workers) && to == i * (|data| / workers)
    requires from <= to <= |data|
    ensures Part(data, workers, i) == data[from..to]
  {
    var part := Part(data, workers, i);
    assert part == Slice(data, from, to);
  }

  lemma {:induction false} JoinedPrefix(data: seq<Word>, workers: int, n: nat, to: nat)
    requires workers >= 1 && n < workers && to == n * (|data| / workers)
    ensures to <= |data| && Joined(data, workers, n) == data[..to]
    decreases n
  {
    var job := |data| / workers;
    Shares(|data|, workers);
    Ordered(n, workers, job);
    if n > 0 {
      Ordered(n - 1, n, job);
      var from := (n - 1) * job;
      JoinedPrefix(data, workers, n - 1, from);
      PartIs(data, workers, n, from, to);
      assert data[..from] + data[from..to] == data[..to];
    }
  }

  lemma {:induction false} Ordered(n: nat, m: nat, job: nat)
    requires n <= m
    ensures 0 <= n * job <= m * job
  {
    assert m * job == n * job + (m - n) * job;
  }

  lemma {:induction false} LastPart(data: seq<Word>, workers: int, from: nat)
    requires workers >= 1 && from == (workers - 1) * (|data| / workers)
    requires from <= |data| && (data != [] ==> from <= |data| - 1)
    ensures data[..from] + Part(data, workers, workers) == AllButLast(data)
  {
    var part := Part(data, workers, workers);
    assert part == Slice(data, from, |data| - 1);
  }

  /** The slices put together are the text without its last word. */
  lemma {:induction false} PartsMissOnlyTheLastWord(data: seq<Word>, workers: int)
    requires workers >= 1
    ensures Joined(data, workers, workers) == AllButLast(data)
  {
    var from := LastStart(|data|, workers);
    JoinedPrefix(data, workers, workers - 1, from);
    LastPart(data, workers, from);
    JoinedNext(data, workers, workers - 1);
  }

  lemma {:induction false} JoinedNext(data: seq<Word>, workers: int, n: nat)
    requires workers >= 1
    ensures Joined(data, workers, n + 1) == Joined(data, workers, n) + Part(data, workers, n + 1)
  {
  }

  lemma {:induction false} LastStart(size: nat, workers: int) returns (from: nat)
    requires workers >= 1
    ensures from == (workers - 1) * (size / workers)
    ensures from <= size && (size > 0 ==> from <= size - 1)
  {
    Shares(size, workers);
    Ordered(0, workers - 1, size / workers);
    from := (workers - 1) * (size / workers);
  }

  // ---------------------------------------------------------------- the master

  datatype State = State(totalRes: map<Word, int>, receivedMsg: int, announced: seq<map<Word, int>>, stopped: bool)

  const FRESH := State(map[], 0, [], false)

  /** A stopped actor receives nothing. */
  function Receive(workers: int, s: State, part: map<Word, int>): State {
    if s.stopped then s
    else
      var total := Merged(s.totalRes, part);
      if s.receivedMsg + 1 == workers then State(total, s.receivedMsg + 1, s.announced + [total], true)
      else State(total, s.receivedMsg + 1, s.announced, false)
  }

  class Master {
    const dataArray: seq<Word>
    const numWorker: int
    var totalRes: map<Word, int>
    var receivedMsg: int
    var announced: seq<map<Word, int>>
    var stopped: bool
    var router: seq<seq<Word>>

    constructor (data: seq<Word>, workers: int)
      ensures dataArray == data && numWorker == workers && Current() == FRESH && router == []
    {
      dataArray, numWorker := data, workers;
      totalRes, receivedMsg, announced, stopped, router := map[], 0, [], false, [];
    }

    function Current(): State
      reads this
    {
      State(totalRes, receivedMsg, announced, stopped)
    }

    method Map()
      requires numWorker >= 1
      modifies this`router
      ensures |router| == |old(router)| + numWorker
      ensures router[..|old(router)|] == old(router)
      ensures forall k :: |old(router)| <= k < |router| ==>
                router[k] == Part(dataArray, numWorker, k - |old(router)| + 1)
    {
      var sumSize := |dataArray|;
      var jobPerWork := sumSize / numWorker;
      var i := 1;
      while i <= numWorker
        invariant 1 <= i <= numWorker + 1
        invariant |router| == |old(router)| + i - 1
        invariant router[..|old(router)|] == old(router)
        invariant forall k :: |old(router)| <= k < |router| ==>
                    router[k] == Part(dataArray, numWorker, k - |old(router)| + 1)
      {
        var endIndex := 0;
        if i == numWorker {
          endIndex := sumSize - 1;
        } else {
          endIndex := i * jobPerWork;
        }
        var sendData := Slice(dataArray, (i - 1) * jobPerWork, endIndex);
        router := router + [sendData];
        i := i + 1;
      }
    }

    method Reduce(partData: map<Word, int>)
      requires !stopped
      modifies this`totalRes, this`receivedMsg, this`announced, this`stopped
      ensures Current() == Receive(numWorker, old(Current()), partData)
    {
      totalRes := MergeRes(totalRes, partData);
      receivedMsg := receivedMsg + 1;
      if receivedMsg == numWorker {
        announced := announced + [totalRes];
        stopped := true;
      }
    }
  }

  // ---------------------------------------------------------------- any order of arrival

  /** The master after the first answers, oldest first. */
  function After(data: seq<Word>, workers: int, order: seq<int>): State
    requires workers >= 1
  {
    if order == [] then FRESH
    else
      Receive(workers, After(data, workers, order[..|order| - 1]),
              Table(Part(data, workers, order[|order| - 1] + 1)))
  }

  /** How often `w` occurs in the first `n` slices that are in `got`. */
  function Occurs(data: seq<Word>, workers: int, n: nat, got: set<int>, w: Word): nat
    requires workers >= 1
  {
    if n == 0 then 0
    else Occurs(data, workers, n - 1, got, w) + if n - 1 in got then Count(Part(data, workers, n), w) else 0
  }

  lemma {:induction false} OccursAdd(data: seq<Word>, workers: int, n: nat, got: set<int>, x: int, w: Word)
    requires workers >= 1 && x !in got
    ensures Occurs(data, workers, n, got + {x}, w)
            == Occurs(data, workers, n, got, w) + if 0 <= x < n then Count(Part(data, workers, x + 1), w) else 0
  {
    if n > 0 {
      OccursAdd(data, workers, n - 1, got, x, w);
    }
  }

  lemma {:induction false} OccursNone(data: seq<Word>, workers: int, n: nat, w: Word)
    requires workers >= 1
    ensures Occurs(data, workers, n, {}, w) == 0
  {
    if n > 0 {
      OccursNone(data, workers, n - 1, w);
    }
  }

  lemma {:induction false} OccursAll(data: seq<Word>, workers: int, n: nat, got: set<int>, w: Word)
    requires workers >= 1 && forall i :: 0 <= i < n ==> i in got
    ensures Occurs(data, workers, n, got, w) == Count(Joined(data, workers, n), w)
  {
    if n > 0 {
      OccursAll(data, workers, n - 1, got, w);
      CountConcat(Joined(data, workers, n - 1), Part(data, workers, n), w);
    }
  }

  /** A table that holds exactly the words of the slices in `got`. */
  predicate Tabulates(t: map<Word, int>, data: seq<Word>, workers: int, got: set<int>, w: Word)
    requires workers >= 1
  {
    && (w in t <==> Occurs(data, workers, workers, got, w) > 0)
    && (w in t ==> t[w] == Occurs(data, workers, workers, got, w))
  }

  lemma {:induction false} AfterCount(data: seq<Word>, workers: int, order: seq<int>)
    requires workers >= 1 && Arrives(workers, order)
    ensures var s := After(data, workers, order);
            && s.receivedMsg == |order| && s.stopped == (|order| == workers)
            && s.announced == if |order| == workers then [s.totalRes] else []
    decreases |order|
  {
    if order != [] {
      AfterCount(data, workers, order[..|order| - 1]);
      HowMany(workers, order);
    }
  }

  lemma {:induction false} TabulatesMerged(
    t: map<Word, int>, data: seq<Word>, workers: int, got: set<int>, x: int, w: Word)
    requires workers >= 1 && 0 <= x < workers && x !in got && Tabulates(t, data, workers, got, w)
    ensures Tabulates(Merged(t, Table(Part(data, workers, x + 1))), data, workers, got + {x}, w)
  {
    OccursAdd(data, workers, workers, got, x, w);
    CountPositive(Part(data, workers, x + 1), w);
    MergedAt(t, Table(Part(data, workers, x + 1)), w);
  }

  lemma {:induction false} MergedAt(a: map<Word, int>, b: map<Word, int>, w: Word)
    ensures w in Merged(a, b) <==> w in a || w in b
    ensures w in Merged(a, b) ==> Merged(a, b)[w] == GetOrElse(a, w, 0) + GetOrElse(b, w, 0)
  {
  }

  lemma {:induction false} ReceiveMerges(workers: int, s: State, part: map<Word, int>)
    requires !s.stopped
    ensures Receive(workers, s, part).totalRes == Merged(s.totalRes, part)
  {
  }

  lemma {:induction false} AfterPush(
    data: seq<Word>, workers: int, front: seq<int>, x: int, order: seq<int>, part: map<Word, int>)
    requires workers >= 1 && order != [] && order[..|order| - 1] == front && order[|order| - 1] == x
    requires !After(data, workers, front).stopped && part == Table(Part(data, workers, x + 1))
    ensures After(data, workers, order).totalRes == Merged(After(data, workers, front).totalRes, part)
  {
    ReceiveMerges(workers, After(data, workers, front), part);
  }

  lemma {:induction false} AfterTabulates(data: seq<Word>, workers: int, order: seq<int>, w: Word)
    requires workers >= 1 && Arrives(workers, order)
    ensures Tabulates(After(data, workers, order).totalRes, data, workers, Elements(order), w)
    decreases |order|
  {
    if order == [] {
      assert Elements(order) == {};
      OccursNone(data, workers, workers, w);
    } else {
      var front, x := order[..|order| - 1], order[|order| - 1];
      assert order == front + [x];
      AfterTabulates(data, workers, front, w);
      AfterCount(data, workers, front);
      HowMany(workers, order);
      ElementsPush(front, x);
      AfterPush(data, workers, front, x, order, Table(Part(data, workers, x + 1)));
      TabulatesMerged(After(data, workers, front).totalRes, data, workers, Elements(front), x, w);
    }
  }

  /** Whatever the order in which the counts arrive: nothing is announced until the last one is in,
      and then exactly one table, that of the text without its last word. */
  lemma {:induction false} OrderDoesNotMatter(data: seq<Word>, workers: int, order: seq<int>)
    requires workers >= 1 && Arrives(workers, order)
    ensures After(data, workers, order).announced
            == if |order| == workers then [Table(AllButLast(data))] else []
  {
    AfterCount(data, workers, order);
    if |order| == workers {
      HowMany(workers, order);
      PartsMissOnlyTheLastWord(data, workers);
      var t := After(data, workers, order).totalRes;
      forall w: Word
        ensures w in t <==> w in AllButLast(data)
        ensures w in t ==> t[w] == Count(AllButLast(data), w)
      {
        AfterTabulates(data, workers, order, w);
        OccursAll(data, workers, workers, Elements(order), w);
        CountPositive(AllButLast(data), w);
      }
      assert t == Table(AllButLast(data));
    }
  }

  /** The announced table is that of the whole text only if there is no text: the end of the last
      slice is exclusive and one short. */
  lemma {:induction false} LastWordIsLost(data: seq<Word>, workers: int, order: seq<int>)
    requires workers >= 1 && Arrives(workers, order) && |order| == workers
    ensures After(data, workers, order).announced == [Table(data)] <==> data == []
  {
    OrderDoesNotMatter(data, workers, order);
    if data != [] {
      var last := data[|data| - 1];
      assert last in data;
      assert Table(data)[last] == Count(data, last) == Count(AllButLast(data), last) + 1;
      if last in AllButLast(data) {
        assert Table(AllButLast(data))[last] == Count(AllButLast(data), last);
      }
      assert Table(data) != Table(AllButLast(data));
    }
  }
}
