/**
 Scale-out rebalancing: how many connections an old node redirects (internal/websocket_server.go lines 480-494), and
 which ones RandomLinksSelector picks (internal/link/random_selector.go).
 */
module Rebalance {
  import opened Common

  /** Go's integer division truncates towards zero. */
  function GoDiv(a: int, b: int): int
    requires b > 0
  {
    if a >= 0 then a / b else -((-a) / b)
  }

  /** Line 487: m connections, n nodes in all, k of them new. */
  function MigrationCount(m: int, n: int, k: int): int
    requires n > 0
  {
    m - GoDiv(m * (n - k), n)
  }

  lemma MulOrder(a: int, b: int, c: int)
    requires a <= b && 0 <= c
    ensures a * c <= b * c
  {
  }

  /** q is the quotient of a by b if a lies between q and q + 1 times b. */
  lemma Quotient(a: int, b: int, q: int)
    requires b > 0 && q * b <= a < (q + 1) * b
    ensures a / b == q
  {
    var d := a / b;
    assert d * b <= a < (d + 1) * b by {
      assert a == b * d + a % b;
    }
    if d < q {
      MulOrder(d + 1, q, b);
    } else if d > q {
      MulOrder(q + 1, d, b);
    }
  }

  /** For a well-formed event the node redirects its share of the new nodes, rounded up, and keeps the cluster average
      m * (n - k) / n, rounded down: never a negative number, never more than it has. */
  lemma MigratesItsShare(m: nat, n: nat, k: nat)
    requires 1 <= n && k <= n
    ensures var count := MigrationCount(m, n, k);
            && count == (m * k + n - 1) / n
            && 0 <= count <= m
            && (m - count) * n <= m * (n - k) < (m - count + 1) * n
            && m * k <= count * n < m * k + n
  {
    var a := m * (n - k);
    assert a == m * n - m * k;
    MulOrder(0, m, n - k);
    MulOrder(0, m, k);
    var kept := a / n;
    assert kept * n <= a < (kept + 1) * n by {
      assert a == n * kept + a % n;
    }
    var count := m - kept;
    assert count * n == m * n - kept * n;
    assert (count + 1) * n == count * n + n && (kept + 1) * n == kept * n + n;
    Quotient(m * k + n - 1, n, count);
    assert (m + 1) * n == m * n + n;
    if kept > m {
      MulOrder(m + 1, kept, n);
    }
  }

  /** The comment's M * k / N is what is redirected exactly when it is a whole number. */
  lemma ShareIsExactIff(m: nat, n: nat, k: nat)
    requires 1 <= n && k <= n
    ensures MigrationCount(m, n, k) * n == m * k <==> (m * k) % n == 0
  {
    MigratesItsShare(m, n, k);
    MultipleIff(m * k, n, MigrationCount(m, n, k));
  }

  lemma MultipleIff(x: nat, n: nat, c: int)
    requires 1 <= n && x <= c * n < x + n
    ensures c * n == x <==> x % n == 0
  {
    var q := x / n;
    assert x == q * n + x % n;
    assert (q + 1) * n == q * n + n && (c + 1) * n == c * n + n;
    if x % n == 0 {
      Quotient(c * n, n, q);
      Quotient(c * n, n, c);
    } else if c * n == x {
      Quotient(x, n, c);
    }
  }

  /** The sum of a node-wise quantity. */
  function Sum(xs: seq<int>): int {
    if xs == [] then 0 else xs[0] + Sum(xs[1..])
  }

  function Kept(loads: seq<nat>, n: nat, k: nat): (r: seq<int>)
    requires n > 0
  {
    seq(|loads|, i requires 0 <= i < |loads| => loads[i] - MigrationCount(loads[i], n, k))
  }

  /** Whatever the old nodes hold, together they keep at most their n - k shares of the total, and less than one
      connection per node below that. */
  lemma {:induction false} ClusterKeepsItsShare(loads: seq<nat>, n: nat, k: nat)
    requires 1 <= n && k <= n
    ensures Sum(Kept(loads, n, k)) * n <= Sum(loads) * (n - k) <= Sum(Kept(loads, n, k)) * n + |loads| * (n - 1)
  {
    if loads == [] {
    } else {
      var rest := loads[1..];
      ClusterKeepsItsShare(rest, n, k);
      MigratesItsShare(loads[0], n, k);
      var kept := loads[0] - MigrationCount(loads[0], n, k);
      assert Kept(loads, n, k)[1..] == Kept(rest, n, k);
      assert Sum(Kept(loads, n, k)) == kept + Sum(Kept(rest, n, k));
      Distribute(kept, Sum(Kept(rest, n, k)), n);
      Distribute(loads[0], Sum(rest), n - k);
      Distribute(1, |rest|, n - 1);
      assert (kept + 1) * n == kept * n + n;
    }
  }

  lemma Distribute(a: int, b: int, c: int)
    ensures (a + b) * c == a * c + b * c
  {
  }

  /** When an event names at least as many new nodes as there are nodes, every connection is redirected. */
  lemma TooManyNewNodes(m: nat, n: nat, k: nat)
    requires 1 <= n <= k
    ensures MigrationCount(m, n, k) >= m
  {
    MulOrder(0, m, k - n);
    assert m * (n - k) == -(m * (k - n));
  }

  /** The counter of the link manager can be negative for a moment; then, and only then, so is the number to redirect. */
  lemma NegativeCountIff(m: int, n: nat, k: nat)
    requires 1 <= n && k <= n
    ensures MigrationCount(m, n, k) < 0 <==> m < 0 && k > 0
  {
    if m >= 0 {
      MigratesItsShare(m, n, k);
    } else {
      MulOrder(0, -m, n - k);
      assert m * (n - k) == -((-m) * (n - k));
      NegativeShare(-m, n, k);
    }
  }

  lemma NegativeShare(p: nat, n: nat, k: nat)
    requires 1 <= n && k <= n && p > 0
    ensures (p * (n - k)) / n < p <==> k > 0
  {
    var a := p * (n - k);
    var kept := a / n;
    assert a == kept * n + a % n;
    assert a == p * n - p * k;
    if k > 0 {
      MulOrder(1, p, k);
      if kept >= p {
        MulOrder(p, kept, n);
      }
    } else {
      Quotient(a, n, p);
    }
  }

  // ----- the selector

  predicate WithinBounds(swaps: seq<(nat, nat)>, n: nat) {
    forall i :: 0 <= i < |swaps| ==> swaps[i].0 < n && swaps[i].1 < n
  }

  /** The order after the given exchanges. */
  function Swapped<T>(s: seq<T>, swaps: seq<(nat, nat)>): (r: seq<T>)
    requires WithinBounds(swaps, |s|)
    ensures |r| == |s|
  {
    if swaps == [] then s
    else
      var t := Swapped(s, swaps[..|swaps| - 1]);
      var (a, b) := swaps[|swaps| - 1];
      t[a := t[b]][b := t[a]]
  }

  lemma {:induction false} SwappedPermutes<T>(s: seq<T>, swaps: seq<(nat, nat)>)
    requires WithinBounds(swaps, |s|)
    ensures multiset(Swapped(s, swaps)) == multiset(s)
  {
    if swaps != [] {
      SwappedPermutes(s, swaps[..|swaps| - 1]);
    }
  }

  /** The last exchange swaps two elements and touches no other. */
  lemma SwapExchanges<T>(s: seq<T>, swaps: seq<(nat, nat)>, a: nat, b: nat)
    requires WithinBounds(swaps, |s|) && a < |s| && b < |s|
    ensures WithinBounds(swaps + [(a, b)], |s|)
    ensures var t, t' := Swapped(s, swaps), Swapped(s, swaps + [(a, b)]);
            && t'[a] == t[b] && t'[b] == t[a]
            && forall i :: 0 <= i < |s| && i != a && i != b ==> t'[i] == t[i]
  {
    var longer := swaps + [(a, b)];
    assert longer[..|swaps|] == swaps && longer[|swaps|] == (a, b);
    assert forall i :: 0 <= i < |longer| ==> longer[i] == (if i < |swaps| then swaps[i] else (a, b));
    var t := Swapped(s, swaps);
    SwappedLast(s, longer);
    hide Swapped;
    assert Swapped(s, longer) == t[a := t[b]][b := t[a]];
  }

  lemma SwappedLast<T>(s: seq<T>, swaps: seq<(nat, nat)>)
    requires WithinBounds(swaps, |s|) && swaps != []
    ensures var t := Swapped(s, swaps[..|swaps| - 1]);
            var (a, b) := swaps[|swaps| - 1];
            Swapped(s, swaps) == t[a := t[b]][b := t[a]]
  {
  }

  function Positions(n: nat): (r: seq<nat>) {
    seq(n, i requires 0 <= i < n => i)
  }

  lemma {:induction false} SwappedPositions<T>(s: seq<T>, swaps: seq<(nat, nat)>, i: nat)
    requires WithinBounds(swaps, |s|) && i < |s|
    ensures 0 <= Swapped(Positions(|s|), swaps)[i] < |s|
    ensures Swapped(s, swaps)[i] == s[Swapped(Positions(|s|), swaps)[i]]
  {
    if swaps != [] {
      var front := swaps[..|swaps| - 1];
      var (a, b) := swaps[|swaps| - 1];
      SwappedPositions(s, front, i);
      SwappedPositions(s, front, a);
      SwappedPositions(s, front, b);
    }
  }

  lemma PositionOf(n: nat, swaps: seq<(nat, nat)>, x: nat) returns (p: nat)
    requires WithinBounds(swaps, n) && x < n
    ensures p < n && Swapped(Positions(n), swaps)[p] == x
  {
    SwappedPermutes(Positions(n), swaps);
    assert Positions(n)[x] == x;
    assert x in multiset(Positions(n)) && x in multiset(Swapped(Positions(n), swaps));
    p :| 0 <= p < n && Swapped(Positions(n), swaps)[p] == x;
  }

  lemma {:induction false} Arrange(n: nat, chosen: seq<nat>) returns (swaps: seq<(nat, nat)>)
    requires |chosen| <= n && forall i :: 0 <= i < |chosen| ==> chosen[i] < n
    requires forall i, j :: 0 <= i < j < |chosen| ==> chosen[i] != chosen[j]
    ensures WithinBounds(swaps, n)
    ensures forall i :: 0 <= i < |chosen| ==> Swapped(Positions(n), swaps)[i] == chosen[i]
    decreases |chosen|
  {
    swaps := [];
    if chosen != [] {
      var k := |chosen| - 1;
      var front := Arrange(n, chosen[..k]);
      var p := PositionOf(n, front, chosen[k]);
      SwapExchanges(Positions(n), front, k, p);
      swaps := front + [(k, p)];
    }
  }

  /** Every choice of links is possible: whichever distinct positions are wanted in front, in whichever order, some
      sequence of exchanges brings them there. */
  lemma AnyChoiceIsPossible<T>(s: seq<T>, chosen: seq<nat>) returns (swaps: seq<(nat, nat)>)
    requires |chosen| <= |s| && forall i :: 0 <= i < |chosen| ==> chosen[i] < |s|
    requires forall i, j :: 0 <= i < j < |chosen| ==> chosen[i] != chosen[j]
    ensures WithinBounds(swaps, |s|)
    ensures forall i :: 0 <= i < |chosen| ==> Swapped(s, swaps)[i] == s[chosen[i]]
  {
    swaps := Arrange(|s|, chosen);
    forall i | 0 <= i < |chosen| ensures Swapped(s, swaps)[i] == s[chosen[i]] {
      SwappedPositions(s, swaps, i);
    }
  }

  /** Lines 24-26. */
  method Shuffle<T>(cloned: array<T>, swaps: seq<(nat, nat)>)
    requires WithinBounds(swaps, cloned.Length)
    modifies cloned
    ensures cloned[..] == Swapped(old(cloned[..]), swaps)
  {
    for i := 0 to |swaps|
      invariant cloned[..] == Swapped(old(cloned[..]), swaps[..i])
    {
      assert swaps[..i + 1][..i] == swaps[..i];
      cloned[swaps[i].0], cloned[swaps[i].1] := cloned[swaps[i].1], cloned[swaps[i].0];
    }
    assert swaps[..|swaps|] == swaps;
  }

  /** RandomLinksSelector.Select, lines 18-28, for any sequence of swaps that rand.Shuffle may ask for. The input is
      not modified; the result holds min(count, len) of its links, none of them twice, and is the whole input in order
      if nothing has to be left out. A negative count makes the slice expression of line 27 panic (None). */
  method Select<T>(links: array<T>, count: int, swaps: seq<(nat, nat)>) returns (selected: Option<seq<T>>)
    requires WithinBounds(swaps, links.Length)
    ensures selected.None? <==> count < 0
    ensures selected.Some? ==>
              && |selected.value| == Min(count, links.Length)
              && multiset(selected.value) <= multiset(links[..])
              && selected.value == (if count >= links.Length then links[..] else Swapped(links[..], swaps)[..count])
  {
    if count >= links.Length {
      return Some(links[..]);
    }
    if links.Length == 0 {
      return None;
    }
    var cloned := new T[links.Length](i requires 0 <= i < links.Length reads links => links[i]);
    assert cloned[..] == links[..];
    SwappedPermutes(cloned[..], swaps);
    Shuffle(cloned, swaps);
    if count < 0 {
      return None;
    }
    assert cloned[..] == cloned[..count] + cloned[count..];
    return Some(cloned[..count]);
  }
}
