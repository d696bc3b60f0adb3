/**
 Picker.Pick of pkg/grpc/balancer/capacity/v2/picker.go: bounded round robin that takes a full node at once, a
 partly grown one by lot, and falls back to plain round robin.
 */
module Picker {
  import opened Common

  /** One round of the loop as the environment shapes it: how far other callers moved the shared index just before
      this round's Add, what the four atomic loads return, and what the random source yields (None: it failed). */
  datatype Round = Round(skip: nat, cur: int, max: int, curAgain: int, maxAgain: int, draw: Option<int>)

  /** Whether the round selects the node it landed on (lines 82-97). */
  predicate Hit(r: Round) {
    || r.cur == r.max
    || (r.maxAgain > 0 && r.draw.Some? && r.draw.value < r.curAgain)
  }

  /** The shared index after k rounds that started from `index`. */
  function Advance(index: int, rounds: seq<Round>, k: nat): int
    requires k <= |rounds|
  {
    if k == 0 then index else Advance(index, rounds, k - 1) + rounds[k - 1].skip + 1
  }

  /** The number of rounds Pick makes: up to the first hit, at most 2n, plus the fallback draw. */
  function Rounds(rounds: seq<Round>, limit: nat, k: nat): (r: nat)
    requires |rounds| == limit + 1 && k <= limit
    ensures k < r <= limit + 1
    ensures forall i :: k <= i < r - 1 ==> !Hit(rounds[i])
    ensures r <= limit ==> Hit(rounds[r - 1])
    decreases limit - k
  {
    if k == limit || Hit(rounds[k]) then k + 1 else Rounds(rounds, limit, k + 1)
  }

  class Picker {
    const conns: seq<nat>
    var index: int

    constructor (conns: seq<nat>)
      ensures this.conns == conns && index == 0
    {
      this.conns, index := conns, 0;
    }

    /** Pick draws at most 2n + 1 indices, one per round and one more if every round misses. It stops in the first round
        whose node is full or whose lot, cast against the node's capacity, falls for it, and returns the connection the
        last index it drew points to; with no connection at all it fails and draws nothing. */
    method Pick(rounds: seq<Round>) returns (selected: Option<nat>, draws: nat)
      requires index >= 0 && |rounds| == 2 * |conns| + 1
      modifies this`index
      ensures conns == [] ==> selected == None && draws == 0 && index == old(index)
      ensures conns != [] ==>
        && draws == Rounds(rounds, 2 * |conns|, 0)
        && draws <= 2 * |conns| + 1
        && index == Advance(old(index), rounds, draws)
        && selected == Some(conns[index % |conns|])
      ensures conns != [] && (forall i :: 0 <= i < draws ==> rounds[i].skip == 0) ==> index == old(index) + draws
      ensures conns != [] ==> forall i :: 0 <= i < draws - 1 ==>
                && rounds[i].cur != rounds[i].max
                && (rounds[i].maxAgain <= 0 || rounds[i].draw.None? || rounds[i].draw.value >= rounds[i].curAgain)
      ensures conns != [] && draws <= 2 * |conns| ==>
                var r := rounds[draws - 1];
                r.cur == r.max || (r.maxAgain > 0 && r.draw.Some? && r.draw.value < r.curAgain)
    {
      if |conns| == 0 {
        return None, 0;
      }
      selected, draws := None, 0;
      var maxAttempts := |conns| * 2;
      while draws < maxAttempts
        invariant 0 <= draws <= maxAttempts && selected == None
        invariant index == Advance(old(index), rounds, draws) && index >= 0
        invariant Rounds(rounds, maxAttempts, 0) == Rounds(rounds, maxAttempts, draws)
      {
        var r := rounds[draws];
        index := index + r.skip + 1;
        draws := draws + 1;
        if Hit(r) {
          selected := Some(conns[Node(index, |conns|)]);
          PlainAdvance(old(index), rounds, draws);
          return;
        }
      }
      index := index + rounds[draws].skip + 1;
      draws := draws + 1;
      PlainAdvance(old(index), rounds, draws);
      selected := Some(conns[Node(index, |conns|)]);
    }
  }

  // ----- n consecutive indices visit every connection once

  lemma MulAtLeast(k: int, n: int)
    requires k >= 1 && n >= 1
    ensures k * n >= n
  {
    assert k * n == (k - 1) * n + n;
  }

  lemma UniqueQuotient(q: int, r: int, q': int, r': int, n: int)
    requires 0 <= r < n && 0 <= r' < n && q * n + r == q' * n + r'
    ensures q == q' && r == r'
  {
    assert (q - q') * n == q * n - q' * n && (q' - q) * n == q' * n - q * n;
    if q > q' {
      MulAtLeast(q - q', n);
    } else if q < q' {
      MulAtLeast(q' - q, n);
    }
  }

  /** The connection an index points to. */
  function Node(index: int, n: nat): (j: int)
    requires n > 0
    ensures 0 <= j < n
  {
    index % n
  }

  lemma NodeStep(index: int, n: nat)
    requires n > 0
    ensures Node(index + 1, n) == if Node(index, n) + 1 == n then 0 else Node(index, n) + 1
  {
    var q, r := index / n, index % n;
    var q', r' := (index + 1) / n, (index + 1) % n;
    assert index == q * n + r && index + 1 == q' * n + r';
    if r + 1 == n {
      assert (q + 1) * n == q * n + n;
      UniqueQuotient(q + 1, 0, q', r', n);
    } else {
      UniqueQuotient(q, r + 1, q', r', n);
    }
  }

  lemma {:induction false} NodeAhead(start: int, n: nat, d: nat)
    requires n > 0 && d <= n
    ensures Node(start + d, n) == if Node(start, n) + d < n then Node(start, n) + d else Node(start, n) + d - n
    decreases d
  {
    if d > 0 {
      NodeAhead(start, n, d - 1);
      NodeStep(start + (d - 1), n);
    }
  }

  /** How far ahead of index start node j lies. */
  function Distance(start: int, n: nat, j: nat): (d: nat)
    requires j < n
    ensures 1 <= d <= n
  {
    if j > Node(start, n) then j - Node(start, n) else j - Node(start, n) + n
  }

  /** Among any n consecutive indices exactly one lands on node j. */
  lemma OneVisit(start: int, n: nat, j: nat, e: nat)
    requires j < n && 1 <= e <= n
    ensures Node(start + e, n) == j <==> e == Distance(start, n, j)
  {
    NodeAhead(start, n, e);
  }

  /** Nobody else moves the index, and each round sees the fixed capacities of the node it lands on. */
  ghost predicate Undisturbed(rounds: seq<Round>, index: int, current: seq<int>, max: seq<int>) {
    && |current| == |max| > 0 && index >= 0
    && forall i :: 0 <= i < |rounds| ==>
         && rounds[i].skip == 0
         && rounds[i].cur == current[Node(index + i + 1, |current|)]
         && rounds[i].max == max[Node(index + i + 1, |max|)]
  }

  lemma {:induction false} PlainAdvance(index: int, rounds: seq<Round>, k: nat)
    requires k <= |rounds|
    ensures (forall i :: 0 <= i < k ==> rounds[i].skip == 0) ==> Advance(index, rounds, k) == index + k
  {
    if k > 0 {
      PlainAdvance(index, rounds, k - 1);
    }
  }

  /** Run without interference, Pick never reaches the fallback when some node is at full capacity: it has selected
      within one tour of the connections, and the node of the last index it drew is full, or the lot fell for it. */
  lemma FullNodeIsFound(rounds: seq<Round>, index: int, current: seq<int>, max: seq<int>, j: nat)
    requires Undisturbed(rounds, index, current, max) && |rounds| == 2 * |current| + 1
    requires j < |current| && current[j] == max[j]
    ensures var n, r := |current|, Rounds(rounds, 2 * |current|, 0);
            && r <= n
            && Advance(index, rounds, r) == index + r
            && (current[Node(index + r, n)] == max[Node(index + r, n)]
                || (rounds[r - 1].maxAgain > 0 && rounds[r - 1].draw.Some?
                    && rounds[r - 1].draw.value < rounds[r - 1].curAgain))
  {
    var n := |current|;
    var d := Distance(index, n, j);
    OneVisit(index, n, j, d);
    assert rounds[d - 1].cur == current[Node(index + (d - 1) + 1, n)];
    assert Hit(rounds[d - 1]);
    var r := Rounds(rounds, 2 * n, 0);
    PlainAdvance(index, rounds, r);
    assert index + (r - 1) + 1 == index + r;
    assert rounds[r - 1].cur == current[Node(index + (r - 1) + 1, n)];
  }

  /** The search ends in round k exactly if that round's node is full or its lot, cast against the node's capacity,
      falls for it, and no earlier round's did; it goes to the fallback exactly if no round's did. */
  lemma SearchEndsIff(rounds: seq<Round>, limit: nat, k: nat)
    requires |rounds| == limit + 1 && 1 <= k <= limit + 1
    ensures Rounds(rounds, limit, 0) == k <==>
              && (k <= limit ==>
                    var r := rounds[k - 1];
                    r.cur == r.max || (r.maxAgain > 0 && r.draw.Some? && r.draw.value < r.curAgain))
              && forall i :: 0 <= i < k - 1 ==>
                   && rounds[i].cur != rounds[i].max
                   && (rounds[i].maxAgain <= 0 || rounds[i].draw.None? || rounds[i].draw.value >= rounds[i].curAgain)
  {
    var n := Rounds(rounds, limit, 0);
    assert n <= limit ==> Hit(rounds[n - 1]);
    if n < k {
      assert Hit(rounds[n - 1]);
    }
  }

  /** Whatever other callers do to the index meanwhile: if the node of the first index it draws is full when it looks,
      Pick takes that node and draws no other index. */
  lemma FullFirstIsTaken(rounds: seq<Round>, index: int, n: nat)
    requires n > 0 && |rounds| == 2 * n + 1 && rounds[0].cur == rounds[0].max
    ensures Rounds(rounds, 2 * n, 0) == 1
    ensures Advance(index, rounds, Rounds(rounds, 2 * n, 0)) == index + rounds[0].skip + 1
  {
    assert Hit(rounds[0]);
    assert Advance(index, rounds, 1) == Advance(index, rounds, 0) + rounds[0].skip + 1;
  }

  /** How many of the indices start + 1 .. start + k belong to node j. */
  function Taken(start: int, n: nat, k: nat, j: nat): nat
    requires n > 0
  {
    if k == 0 then 0 else Taken(start, n, k - 1, j) + (if Node(start + k, n) == j then 1 else 0)
  }

  lemma {:induction false} TakenSplit(start: int, n: nat, k: nat, m: nat, j: nat)
    requires n > 0
    ensures Taken(start, n, k + m, j) == Taken(start, n, k, j) + Taken(start + k, n, m, j)
  {
    if m > 0 {
      TakenSplit(start, n, k, m - 1, j);
      assert start + (k + m) == (start + k) + m;
    }
  }

  lemma {:induction false} TakenOnTour(start: int, n: nat, k: nat, j: nat)
    requires j < n && k <= n
    ensures Taken(start, n, k, j) == if Distance(start, n, j) <= k then 1 else 0
  {
    if k > 0 {
      OneVisit(start, n, j, k);
      TakenOnTour(start, n, k - 1, j);
    }
  }

  /** Any r * n consecutive indices belong to each node exactly r times. */
  lemma {:induction false} ToursAreFair(start: int, n: nat, r: nat, j: nat)
    requires j < n
    ensures Taken(start, n, r * n, j) == r
    decreases r
  {
    if r > 0 {
      TakenOnTour(start, n, n, j);
      ToursAreFair(start + n, n, r - 1, j);
      assert r * n == n + (r - 1) * n;
      TakenSplit(start, n, n, (r - 1) * n, j);
    } else {
      assert r * n == 0;
    }
  }
}
