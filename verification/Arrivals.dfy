/** Answers to numbered requests that arrive in any order, each at most once. */
module Arrivals {

  /** Numbers of answered requests in the order in which the answers arrive. */
  predicate Arrives(requests: int, order: seq<int>) {
    && (forall k :: 0 <= k < |order| ==> 0 <= order[k] < requests)
    && (forall j, k :: 0 <= j < k < |order| ==> order[j] != order[k])
  }

  function Range(n: nat): (r: set<int>)
    ensures |r| == n
    ensures forall i :: i in r <==> 0 <= i < n
  {
    if n == 0 then {} else Range(n - 1) + {n - 1}
  }

  function Elements(order: seq<int>): set<int> {
    set k | 0 <= k < |order| :: order[k]
  }

  lemma {:induction false} ElementsPush(order: seq<int>, x: int)
    requires forall k :: 0 <= k < |order| ==> order[k] != x
    ensures Elements(order + [x]) == Elements(order) + {x} && x !in Elements(order)
  {
    var all := order + [x];
    assert all[|order|] == x;
    forall y | y in Elements(order) ensures y in Elements(all) {
      var k :| 0 <= k < |order| && order[k] == y;
      assert all[k] == y;
    }
  }

  lemma {:induction false} SubsetSize(a: set<int>, b: set<int>)
    requires a <= b
    ensures |a| <= |b|
    ensures |a| == |b| ==> a == b
  {
    assert b == a + (b - a);
    assert |b| == |a| + |b - a|;
  }

  /** As many arrivals as requests are all of them. */
  lemma {:induction false} HowMany(requests: int, order: seq<int>)
    requires Arrives(requests, order)
    ensures |Elements(order)| == |order|
    ensures |order| <= if requests > 0 then requests else 0
    ensures requests >= 0 && |order| == requests ==> Elements(order) == Range(requests)
  {
    if order == [] {
      assert Elements(order) == {};
    } else {
      var front, x := order[..|order| - 1], order[|order| - 1];
      assert order == front + [x];
      HowMany(requests, front);
      ElementsPush(front, x);
    }
    if requests >= 0 {
      assert Elements(order) <= Range(requests);
      SubsetSize(Elements(order), Range(requests));
    }
  }
}
