/**
 What the capacity balancer tracks after an update from the resolver, and what its long-term memory of node
 capacities is worth: a node's capacity never falls while its address stays listed, across disconnects, reconnects,
 rebuilds and concurrent Done callbacks.
 */
module BalancerMemory {
  import opened Common
  import opened BalancerModel
  import opened BalancerProofs
  import G = CapacityGrowth

  // ----- what is tracked after an update from the resolver

  /** Some occurrence of addr in the resolver's list for which NewSubConn would succeed. */
  ghost predicate CreatedFor(addrs: seq<Address>, created: seq<bool>, addr: string)
    requires |addrs| == |created|
  {
    exists i :: 0 <= i < |addrs| && addrs[i].addr == addr && created[i]
  }

  lemma CreatedForUnfold(addrs: seq<Address>, created: seq<bool>, addr: string)
    requires |addrs| == |created| && addrs != []
    ensures CreatedFor(addrs, created, addr)
            <==> (addrs[0].addr == addr && created[0]) || CreatedFor(addrs[1..], created[1..], addr)
  {
    if CreatedFor(addrs, created, addr) {
      var i :| 0 <= i < |addrs| && addrs[i].addr == addr && created[i];
      if i > 0 {
        assert addrs[1..][i - 1].addr == addr && created[1..][i - 1];
      }
    }
    if CreatedFor(addrs[1..], created[1..], addr) {
      var i :| 0 <= i < |addrs[1..]| && addrs[1..][i].addr == addr && created[1..][i];
      assert addrs[i + 1].addr == addr && created[i + 1];
    }
  }

  lemma {:induction false} CreateTracks(s: State, addrs: seq<Address>, created: seq<bool>, addr: string)
    requires |addrs| == |created| && ConnShape(s.subConns, s.nextConn)
    ensures Tracked(CreateStep(s, addrs, created).subConns, addr)
            <==> Tracked(s.subConns, addr) || CreatedFor(addrs, created, addr)
    decreases |addrs|
  {
    if addrs != [] {
      CreatedForUnfold(addrs, created, addr);
      if Tracked(s.subConns, addrs[0].addr) || !created[0] {
        CreateTracks(s, addrs[1..], created[1..], addr);
      } else {
        var s1 := s.(subConns := s.subConns[s.nextConn := Info(addrs[0], Idle)], nextConn := s.nextConn + 1);
        CreateKeeps(s, addrs[..1], created[..1]);
        assert s1 == CreateStep(s, addrs[..1], created[..1]);
        assert Tracked(s1.subConns, addr) <==> Tracked(s.subConns, addr) || addrs[0].addr == addr by {
          assert s1.subConns[s.nextConn].addr == addrs[0];
          if Tracked(s.subConns, addr) {
            var sc :| sc in s.subConns && s.subConns[sc].addr.addr == addr;
            assert s1.subConns[sc].addr.addr == addr;
          }
        }
        CreateTracks(s1, addrs[1..], created[1..], addr);
      }
    }
  }

  lemma {:induction false} CreateExtends(s: State, addrs: seq<Address>, created: seq<bool>)
    requires |addrs| == |created| && ConnShape(s.subConns, s.nextConn)
    ensures var s' := CreateStep(s, addrs, created);
            && (forall sc :: sc in s.subConns ==> sc in s'.subConns && s'.subConns[sc] == s.subConns[sc])
            && (forall sc :: sc in s'.subConns && sc !in s.subConns ==>
                  s.nextConn <= sc && s'.subConns[sc].state == Idle && s'.subConns[sc].addr in addrs)
    decreases |addrs|
  {
    if addrs != [] {
      if Tracked(s.subConns, addrs[0].addr) || !created[0] {
        CreateExtends(s, addrs[1..], created[1..]);
      } else {
        var s1 := s.(subConns := s.subConns[s.nextConn := Info(addrs[0], Idle)], nextConn := s.nextConn + 1);
        CreateKeeps(s, addrs[..1], created[..1]);
        assert s1 == CreateStep(s, addrs[..1], created[..1]);
        CreateExtends(s1, addrs[1..], created[1..]);
      }
    }
  }

  /** After an update from the resolver an address is tracked exactly if it is listed and was tracked already, or
      NewSubConn succeeds for one of its occurrences. */
  lemma TrackedAfterResolve(s: State, addrs: seq<Address>, created: seq<bool>, order: seq<nat>, addr: string)
    requires Shape(s) && Enabled(s, Resolve(addrs, created, order))
    ensures Tracked(ResolveStep(s, addrs, created, order).subConns, addr)
            <==> addr in Listed(addrs) && (Tracked(s.subConns, addr) || CreatedFor(addrs, created, addr))
  {
    var s0 := RemoveStep(s, Listed(addrs));
    RemoveKeeps(s, Listed(addrs));
    CreateTracks(s0, addrs, created, addr);
    assert Tracked(s0.subConns, addr) <==> Tracked(s.subConns, addr) && addr in Listed(addrs) by {
      if Tracked(s.subConns, addr) && addr in Listed(addrs) {
        var sc :| sc in s.subConns && s.subConns[sc].addr.addr == addr;
        assert sc in s0.subConns && s0.subConns[sc].addr.addr == addr;
      }
    }
    if CreatedFor(addrs, created, addr) {
      var i :| 0 <= i < |addrs| && addrs[i].addr == addr && created[i];
      assert addrs[i].addr in Listed(addrs);
    }
    PublishKeepsConns(ResolvedState(s, addrs, created), order);
  }

  lemma PublishKeepsConns(s: State, order: seq<nat>)
    requires forall i :: 0 <= i < |order| ==> order[i] in s.subConns
    ensures var s' := PublishStep(s, order);
            s' == s.(memory := s'.memory, wrappers := s'.wrappers, nextWrapper := s'.nextWrapper, published := s'.published)
  {
  }

  /** Every SubConn whose address left the list is untracked and shut down, no other one is, and every SubConn that
      stays keeps the very address value it was created with: a change of attributes for a tracked address is lost. */
  lemma ResolveShutsDownDropped(s: State, addrs: seq<Address>, created: seq<bool>, order: seq<nat>)
    requires Shape(s) && Enabled(s, Resolve(addrs, created, order))
    ensures var s' := ResolveStep(s, addrs, created, order);
            && s'.shutdowns == s.shutdowns + Dropped(s, Listed(addrs))
            && Dropped(s, Listed(addrs)) !! s'.subConns.Keys
            && (forall sc :: sc in s.subConns && sc !in Dropped(s, Listed(addrs)) ==>
                  sc in s'.subConns && s'.subConns[sc] == s.subConns[sc])
            && (forall sc :: sc in s'.subConns && sc !in s.subConns ==>
                  s'.subConns[sc].state == Idle && s'.subConns[sc].addr in addrs)
  {
    var s0 := RemoveStep(s, Listed(addrs));
    RemoveKeeps(s, Listed(addrs));
    CreateExtends(s0, addrs, created);
    CreateKeeps(s0, addrs, created);
    PublishKeepsConns(ResolvedState(s, addrs, created), order);
  }

  // ----- the memory after an update

  /** Build adds exactly the nodes it visits. */
  lemma {:induction false} BuildRemembers(s: State, order: seq<nat>, active: seq<nat>, n: string)
    requires forall i :: 0 <= i < |order| ==> order[i] in s.subConns
    requires MemoryShape(s.memory, s.wrappers, s.nextWrapper) && CallbackShape(s.callbacks, s.wrappers)
    ensures n in BuildLoop(s, order, active).0.memory
            <==> n in s.memory || (n != "" && exists i :: 0 <= i < |order| && NodeID(s.subConns[order[i]].addr) == n)
    decreases |order|
  {
    if order != [] {
      var visits := exists i :: 0 <= i < |order| && NodeID(s.subConns[order[i]].addr) == n;
      var later := exists i :: 0 <= i < |order[1..]| && NodeID(s.subConns[order[1..][i]].addr) == n;
      assert visits <==> NodeID(s.subConns[order[0]].addr) == n || later by {
        if visits {
          var i :| 0 <= i < |order| && NodeID(s.subConns[order[i]].addr) == n;
          if i > 0 {
            assert NodeID(s.subConns[order[1..][i - 1]].addr) == n;
          }
        }
      }
      if NodeID(s.subConns[order[0]].addr) == "" {
        BuildRemembers(s, order[1..], active, n);
      } else {
        BuildOneKeeps(s, order[0]);
        BuildRemembers(BuildOne(s, order[0]), order[1..], active + [Used(s, order[0])], n);
      }
    }
  }

  /** A Ready SubConn of node n. */
  ghost predicate ReadyNode(subConns: map<nat, Info>, n: string) {
    exists sc :: sc in subConns && subConns[sc].state == Ready && subConns[sc].addr.nodeID == Some(n)
  }

  /** A SubConn of node n whose address is not listed. */
  ghost predicate UnlistedNode(subConns: map<nat, Info>, addrs: seq<Address>, n: string) {
    exists sc :: sc in subConns && subConns[sc].addr.nodeID == Some(n)
              && forall i :: 0 <= i < |addrs| ==> addrs[i].addr != subConns[sc].addr.addr
  }

  lemma ForgottenIff(s: State, addrs: seq<Address>, n: string)
    ensures n in ForgottenNodes(s, Listed(addrs)) <==> n != "" && UnlistedNode(s.subConns, addrs, n)
  {
    if n != "" && UnlistedNode(s.subConns, addrs, n) {
      var sc :| sc in s.subConns && s.subConns[sc].addr.nodeID == Some(n)
                && forall i :: 0 <= i < |addrs| ==> addrs[i].addr != s.subConns[sc].addr.addr;
      assert sc in Dropped(s, Listed(addrs));
    }
    if n in ForgottenNodes(s, Listed(addrs)) {
      var sc :| sc in Dropped(s, Listed(addrs)) && NodeID(s.subConns[sc].addr) == n && n != "";
      forall i | 0 <= i < |addrs| ensures addrs[i].addr != s.subConns[sc].addr.addr {
        assert addrs[i].addr in Listed(addrs);
      }
    }
  }

  /** The memory after an update: what is left of the old one, and the Ready nodes. The node of a dropped SubConn is
      forgotten unless another Ready SubConn claims the same node identity. */
  lemma MemoryAfterResolve(s: State, addrs: seq<Address>, created: seq<bool>, order: seq<nat>, n: string)
    requires Shape(s) && Enabled(s, Resolve(addrs, created, order))
    ensures var s' := ResolveStep(s, addrs, created, order);
            n in s'.memory
            <==> (n in s.memory && !(n != "" && UnlistedNode(s.subConns, addrs, n)))
                 || (n != "" && ReadyNode(s'.subConns, n))
  {
    ForgottenIff(s, addrs, n);
    var s1 := ResolvedState(s, addrs, created);
    RemoveKeeps(s, Listed(addrs));
    CreateKeeps(RemoveStep(s, Listed(addrs)), addrs, created);
    PublishKeepsConns(s1, order);
    if order != [] {
      BuildRemembers(s1, order, [], n);
    }
    if ReadyNode(s1.subConns, n) {
      var sc :| sc in s1.subConns && s1.subConns[sc].state == Ready && s1.subConns[sc].addr.nodeID == Some(n);
      assert sc in ReadySet(s1.subConns) && NodeID(s1.subConns[sc].addr) == n;
      assert sc in order;
    }
    if exists i :: 0 <= i < |order| && NodeID(s1.subConns[order[i]].addr) == n {
      var i :| 0 <= i < |order| && NodeID(s1.subConns[order[i]].addr) == n;
      assert order[i] in ReadySet(s1.subConns);
    }
  }

  /** An update replaces the address value of a tracked SubConn only if there was nothing to replace: promises of live
      configuration changes hold exactly for values that did not change. */
  lemma UpdateReachesTrackedIff(s: State, addrs: seq<Address>, created: seq<bool>, order: seq<nat>, i: nat, sc: nat)
    requires Shape(s) && Enabled(s, Resolve(addrs, created, order))
    requires i < |addrs| && sc in s.subConns && s.subConns[sc].addr.addr == addrs[i].addr
    ensures var s' := ResolveStep(s, addrs, created, order);
            (exists sc' :: sc' in s'.subConns && s'.subConns[sc'].addr == addrs[i]) <==> s.subConns[sc].addr == addrs[i]
  {
    var s' := ResolveStep(s, addrs, created, order);
    assert addrs[i].addr in Listed(addrs);
    ResolveShutsDownDropped(s, addrs, created, order);
    ResolveTracks(s, addrs, created, order);
    assert s'.subConns[sc] == s.subConns[sc];
  }

  // ----- what Build puts into a wrapper

  /** The wrapper has the identity that this address names, and the configuration it gives: a maximum of 100, a step of
      0 and a rate of 0.1 where it gives none. */
  predicate Carries(w: Wrapper, a: Address) {
    && a.nodeID == Some(w.id) && w.id != ""
    && (if a.maxCap.Some? then w.max == a.maxCap.value else w.max == 100)
    && (if a.step.Some? then w.step == a.step.value else w.step == 0)
    && (if a.rate.Some? then w.rate == a.rate.value else w.rate == 0.1)
  }

  /** The initial capacity: 10 where the address gives none. */
  predicate StartsAt(a: Address, current: int) {
    if a.initCap.Some? then current == a.initCap.value else current == 10
  }

  /** Every wrapper collected carries the node identity and the configuration of the SubConn it serves. */
  ghost predicate Configured(s: State, active: seq<nat>) {
    Serving(s, active)
    && forall i :: 0 <= i < |active| ==>
         Carries(s.wrappers[active[i]], s.subConns[s.wrappers[active[i]].conn].addr)
  }

  /** Known wrappers keep identity, address and capacity; new ones start at their initial capacity. */
  ghost predicate CapacityKept(before: map<nat, Wrapper>, after: map<nat, Wrapper>) {
    && (forall w :: w in before ==>
          w in after && after[w].id == before[w].id && after[w].addr == before[w].addr && after[w].current == before[w].current)
    && (forall w :: w in after && w !in before ==> StartsAt(after[w].addr, after[w].current))
  }

  lemma BuildOneConfigures(s: State, sc: nat, active: seq<nat>)
    requires Shape(s) && sc in s.subConns && Configured(s, active) && sc !in Conns(s.wrappers, active)
    requires NodeID(s.subConns[sc].addr) != ""
    ensures Configured(BuildOne(s, sc), active + [Used(s, sc)])
    ensures CapacityKept(s.wrappers, BuildOne(s, sc).wrappers)
  {
    BuildOneKeeps(s, sc);
    BuildOneServes(s, sc, active);
    BuildOneCarries(s, sc);
    hide BuildOne, Used, Carries, NodeID, Shape, StartsAt;
    forall i | 0 <= i < |active| ensures active[i] != Used(s, sc) {
      assert Conns(s.wrappers, active)[i] == s.wrappers[active[i]].conn;
    }
  }

  lemma BuildOneCarries(s: State, sc: nat)
    requires Shape(s) && sc in s.subConns && NodeID(s.subConns[sc].addr) != ""
    ensures Used(s, sc) in BuildOne(s, sc).wrappers
    ensures Carries(BuildOne(s, sc).wrappers[Used(s, sc)], s.subConns[sc].addr)
    ensures CapacityKept(s.wrappers, BuildOne(s, sc).wrappers)
  {
    hide ConnShape, CallbackShape;
  }

  lemma {:induction false} BuildConfigures(s: State, order: seq<nat>, active: seq<nat>)
    requires Shape(s) && Configured(s, active) && Distinct(order)
    requires forall i :: 0 <= i < |order| ==> order[i] in s.subConns && order[i] !in Conns(s.wrappers, active)
    ensures var (built, all) := BuildLoop(s, order, active);
            Configured(built, all) && CapacityKept(s.wrappers, built.wrappers)
    decreases |order|
  {
    hide BuildOne, Used, Remembered, MemoryShape, ConnShape, CallbackShape, Conns, NodeID, Configured, Serving, Carries;
    if order == [] {
    } else if NodeID(s.subConns[order[0]].addr) == "" {
      BuildConfigures(s, order[1..], active);
    } else {
      var s1, active1 := BuildOne(s, order[0]), active + [Used(s, order[0])];
      BuildOneKeeps(s, order[0]);
      ConfiguredServes(s, active);
      BuildOneServes(s, order[0], active);
      BuildOneConfigures(s, order[0], active);
      forall i | 0 <= i < |order[1..]| ensures order[1..][i] == order[i + 1] && order[1..][i] != order[0] {}
      BuildConfigures(s1, order[1..], active1);
    }
  }

  lemma ConfiguredServes(s: State, active: seq<nat>)
    requires Configured(s, active)
    ensures Serving(s, active)
  {
  }

  /** A freshly published picker: each wrapper has the identity, maximum, step and rate of the SubConn it hands out; a
      node seen before, whether it was away or not, keeps its capacity, and a new one starts at its initial capacity. */
  lemma PublishedIsConfigured(s: State, order: seq<nat>)
    requires Shape(s) && Enumerates(order, ReadySet(s.subConns)) && order != []
    ensures var s' := PublishStep(s, order);
            s'.published.Picking? && Configured(s', s'.published.wrappers) && CapacityKept(s.wrappers, s'.wrappers)
  {
    assert Conns(s.wrappers, []) == [];
    assert Configured(s, []);
    BuildConfigures(s, order, []);
  }

  // ----- capacity across a run

  /** If the address carries node n, it is the address `home` and does not shrink on a successful call. */
  predicate Homed(a: Address, n: string, home: string) {
    a.nodeID == Some(n) ==> a.addr == home && (a.step.Some? ==> a.step.value >= 0)
  }

  ghost predicate Settled(s: State, n: string, home: string) {
    && (forall sc :: sc in s.subConns ==> Homed(s.subConns[sc].addr, n, home))
    && (forall w :: w in s.wrappers && s.wrappers[w].id == n ==>
          s.wrappers[w].addr.addr == home && s.wrappers[w].step >= 0)
  }

  /** Node n keeps the same remembered wrapper, and its capacity has not fallen. */
  ghost predicate NotLower(s: State, s': State, n: string)
    requires Shape(s) && Shape(s')
  {
    n in s.memory ==>
      n in s'.memory && s'.memory[n] == s.memory[n]
      && s.wrappers[s.memory[n]].current <= s'.wrappers[s.memory[n]].current
  }

  lemma BuildOneNotLower(s: State, sc: nat, n: string, home: string)
    requires Shape(s) && Settled(s, n, home) && sc in s.subConns && NodeID(s.subConns[sc].addr) != ""
    ensures Shape(BuildOne(s, sc)) && Settled(BuildOne(s, sc), n, home) && NotLower(s, BuildOne(s, sc), n)
  {
    hide ConnShape;
    BuildOneKeeps(s, sc);
  }

  lemma {:induction false} BuildNotLower(s: State, order: seq<nat>, active: seq<nat>, n: string, home: string)
    requires Shape(s) && Settled(s, n, home) && forall i :: 0 <= i < |order| ==> order[i] in s.subConns
    ensures var s' := BuildLoop(s, order, active).0; Shape(s') && Settled(s', n, home) && NotLower(s, s', n)
    decreases |order|
  {
    if order == [] {
    } else if NodeID(s.subConns[order[0]].addr) == "" {
      BuildNotLower(s, order[1..], active, n, home);
    } else {
      BuildOneNotLower(s, order[0], n, home);
      BuildNotLower(BuildOne(s, order[0]), order[1..], active + [Used(s, order[0])], n, home);
    }
  }

  /** The resolver keeps home in its list and never advertises n elsewhere. */
  predicate StaysListed(a: Action, n: string, home: string) {
    a.Resolve? ==> home in Listed(a.addrs) && forall i :: 0 <= i < |a.addrs| ==> Homed(a.addrs[i], n, home)
  }

  lemma ResolveNotLower(s: State, a: Action, n: string, home: string)
    requires Shape(s) && Settled(s, n, home) && a.Resolve? && Enabled(s, a) && StaysListed(a, n, home)
    ensures Shape(Step(s, a)) && Settled(Step(s, a), n, home) && NotLower(s, Step(s, a), n)
  {
    var s0 := RemoveStep(s, Listed(a.addrs));
    var s1 := ResolvedState(s, a.addrs, a.created);
    RemoveKeeps(s, Listed(a.addrs));
    assert n !in ForgottenNodes(s, Listed(a.addrs));
    CreateKeeps(s0, a.addrs, a.created);
    CreateExtends(s0, a.addrs, a.created);
    assert Settled(s1, n, home);
    BuildNotLower(s1, a.order, [], n, home);
  }

  lemma RecordNotLower(s: State, sc: nat, state: Connectivity, n: string, home: string)
    requires Shape(s) && Settled(s, n, home) && sc in s.subConns
    ensures var s' := RecordState(s, sc, state);
            && Shape(s') && Settled(s', n, home) && s'.memory == s.memory && s'.wrappers == s.wrappers
  {
  }

  lemma PublishNotLower(s: State, order: seq<nat>, n: string, home: string)
    requires Shape(s) && Settled(s, n, home) && Enumerates(order, ReadySet(s.subConns))
    ensures var s' := PublishStep(s, order); Shape(s') && Settled(s', n, home) && NotLower(s, s', n)
  {
    BuildNotLower(s, order, [], n, home);
  }

  lemma StateChangeNotLower(s: State, a: Action, n: string, home: string)
    requires Shape(s) && Settled(s, n, home) && a.StateChange? && Enabled(s, a)
    ensures Shape(Step(s, a)) && Settled(Step(s, a), n, home) && NotLower(s, Step(s, a), n)
  {
    if a.sc in s.subConns {
      RecordNotLower(s, a.sc, a.state, n, home);
      hide Shape, Settled, NotLower, RecordState, Enumerates, BuildLoop;
      if ShouldUpdatePicker(s.subConns[a.sc].state, a.state) {
        PublishNotLower(RecordState(s, a.sc, a.state), a.order, n, home);
      }
    }
  }

  lemma DoneSwapNotLower(s: State, a: Action, n: string, home: string)
    requires Shape(s) && Settled(s, n, home) && a.DoneSwap? && Enabled(s, a)
    ensures Shape(Step(s, a)) && Settled(Step(s, a), n, home) && NotLower(s, Step(s, a), n)
  {
    var c := s.callbacks[a.t];
    DoneSwapTracks(s, a.t);
    if s.wrappers[c.wrapper].id == n {
      G.GrowBounds(c.seen, c.max.value, s.wrappers[c.wrapper].step, s.wrappers[c.wrapper].rate);
    }
  }

  /** The step or the share, whichever is larger, up to the maximum. */
  function Gained(w: Wrapper, share: int): int {
    if w.current >= w.max then w.current
    else if w.step >= share then (if w.max - w.current <= w.step then w.max else w.current + w.step)
    else (if w.max - w.current <= share then w.max else w.current + share)
  }

  lemma FullCallback(s: State, t: nat, w: nat)
    requires w in s.wrappers && t !in s.callbacks && s.wrappers[w].current >= s.wrappers[w].max
    ensures Enabled(s, DoneLoad(t, w)) && Enabled(Step(s, DoneLoad(t, w)), DoneLook(t))
    ensures Step(Step(s, DoneLoad(t, w)), DoneLook(t)) == s
  {
    assert s.callbacks[t := Callback(w, s.wrappers[w].current, None)] - {t} == s.callbacks;
  }

  lemma GrowingCallback(s: State, t: nat, w: nat, share: int)
    requires w in s.wrappers && t !in s.callbacks && s.wrappers[w].step >= 0
    requires G.TowardsZero(s.wrappers[w].current as real * s.wrappers[w].rate, share)
    requires s.wrappers[w].current < s.wrappers[w].max
    ensures Enabled(s, DoneLoad(t, w)) && Enabled(Step(s, DoneLoad(t, w)), DoneLook(t))
    ensures Enabled(Step(Step(s, DoneLoad(t, w)), DoneLook(t)), DoneSwap(t))
    ensures Step(Step(Step(s, DoneLoad(t, w)), DoneLook(t)), DoneSwap(t))
            == s.(wrappers := s.wrappers[w := s.wrappers[w].(current := Gained(s.wrappers[w], share))])
  {
    var v := s.wrappers[w];
    G.GrowIsExact(v.current, v.max, v.step, v.rate, share);
    hide G.TowardsZero;
    var c := Callback(w, v.current, Some(v.max));
    assert s.callbacks[t := Callback(w, v.current, None)][t := c] - {t} == s.callbacks;
  }

  /** A Done callback that nobody overtakes: a full node stays as it is, any other one gains the step, or its rate's
      share of the capacity without the fraction if that is more, up to its maximum. Nothing else changes. */
  lemma UndisturbedCallbackGrows(s: State, t: nat, w: nat, share: int)
    requires w in s.wrappers && t !in s.callbacks && s.wrappers[w].step >= 0
    requires G.TowardsZero(s.wrappers[w].current as real * s.wrappers[w].rate, share)
    ensures var full := s.wrappers[w].current >= s.wrappers[w].max;
            var acts := if full then [DoneLoad(t, w), DoneLook(t)] else [DoneLoad(t, w), DoneLook(t), DoneSwap(t)];
            && CanRun(s, acts)
            && Run(s, acts) == s.(wrappers := s.wrappers[w := s.wrappers[w].(current := Gained(s.wrappers[w], share))])
  {
    hide Step, Enabled, G.TowardsZero;
    if s.wrappers[w].current < s.wrappers[w].max {
      GrowingCallback(s, t, w, share);
      var s1 := Step(s, DoneLoad(t, w));
      var s2 := Step(s1, DoneLook(t));
      Chain(s, DoneLoad(t, w), [DoneLook(t), DoneSwap(t)]);
      Chain(s1, DoneLook(t), [DoneSwap(t)]);
      Chain(s2, DoneSwap(t), []);
    } else {
      FullCallback(s, t, w);
      var s1 := Step(s, DoneLoad(t, w));
      assert s.wrappers[w := s.wrappers[w]] == s.wrappers;
      Chain(s, DoneLoad(t, w), [DoneLook(t)]);
      Chain(s1, DoneLook(t), []);
    }
  }

  lemma Chain(s: State, a: Action, acts: seq<Action>)
    requires Enabled(s, a)
    ensures CanRun(s, [a] + acts) <==> CanRun(Step(s, a), acts)
    ensures CanRun(s, [a] + acts) ==> Run(s, [a] + acts) == Run(Step(s, a), acts)
  {
    assert ([a] + acts)[1..] == acts;
    hide Enabled, Step;
  }

  lemma StepNotLower(s: State, a: Action, n: string, home: string)
    requires Shape(s) && Settled(s, n, home) && Enabled(s, a) && StaysListed(a, n, home)
    ensures Shape(Step(s, a)) && Settled(Step(s, a), n, home) && NotLower(s, Step(s, a), n)
  {
    match a {
      case Resolve(_, _, _) => ResolveNotLower(s, a, n, home);
      case StateChange(_, _, _) => StateChangeNotLower(s, a, n, home);
      case DoneSwap(_) => DoneSwapNotLower(s, a, n, home);
      case _ =>
    }
  }

  /** Across any run of disconnects, reconnects, rebuilds, resolver updates and Done callbacks, a node that has been
      seen Ready keeps its wrapper, and its capacity never falls, while its address stays in the resolver's list. */
  lemma {:induction false} CapacityNeverFalls(s: State, acts: seq<Action>, n: string, home: string)
    requires Shape(s) && Settled(s, n, home) && CanRun(s, acts)
    requires forall i :: 0 <= i < |acts| ==> StaysListed(acts[i], n, home)
    ensures Shape(Run(s, acts)) && Settled(Run(s, acts), n, home) && NotLower(s, Run(s, acts), n)
    decreases |acts|
  {
    if acts != [] {
      StepNotLower(s, acts[0], n, home);
      CapacityNeverFalls(Step(s, acts[0]), acts[1..], n, home);
    }
  }

  /** Once the address of its only SubConn leaves the list, a node is forgotten. */
  lemma UnlistedIsForgotten(s: State, addrs: seq<Address>, created: seq<bool>, order: seq<nat>, n: string, sc: nat)
    requires Shape(s) && Enabled(s, Resolve(addrs, created, order)) && n != ""
    requires sc in s.subConns && s.subConns[sc].addr.nodeID == Some(n) && s.subConns[sc].addr.addr !in Listed(addrs)
    requires forall other :: other in s.subConns && other != sc ==> s.subConns[other].addr.nodeID != Some(n)
    ensures n !in ResolveStep(s, addrs, created, order).memory
  {
    var s' := ResolveStep(s, addrs, created, order);
    assert sc in Dropped(s, Listed(addrs));
    MemoryAfterResolve(s, addrs, created, order, n);
    ForgottenIff(s, addrs, n);
    assert NodeID(s.subConns[sc].addr) == n;
    ResolveShutsDownDropped(s, addrs, created, order);
    forall other | other in ReadySet(s'.subConns) ensures s'.subConns[other].addr.nodeID != Some(n) {}
  }

  // ----- the limit

  predicate Limited(a: Address, n: string, max: int) {
    a.nodeID == Some(n) ==>
      && (if a.maxCap.Some? then a.maxCap.value == max else max == 100)
      && (if a.initCap.Some? then a.initCap.value <= max else 10 <= max)
      && (a.step.Some? ==> a.step.value >= 0)
  }

  /** Node n's capacity is at most its one configured limit. */
  ghost predicate Capped(s: State, n: string, max: int) {
    && (forall sc :: sc in s.subConns ==> Limited(s.subConns[sc].addr, n, max))
    && (forall w :: w in s.wrappers && s.wrappers[w].id == n ==>
          s.wrappers[w].current <= s.wrappers[w].max == max && s.wrappers[w].step >= 0)
    && (forall t :: t in s.callbacks && s.callbacks[t].wrapper in s.wrappers ==>
          (s.wrappers[s.callbacks[t].wrapper].id == n && s.callbacks[t].max.Some? ==> s.callbacks[t].max.value == max))
  }

  lemma {:induction false} BuildCapped(s: State, order: seq<nat>, active: seq<nat>, n: string, max: int)
    requires Shape(s) && Capped(s, n, max) && forall i :: 0 <= i < |order| ==> order[i] in s.subConns
    ensures var s' := BuildLoop(s, order, active).0; Shape(s') && Capped(s', n, max)
    decreases |order|
  {
    if order == [] {
    } else if NodeID(s.subConns[order[0]].addr) == "" {
      BuildCapped(s, order[1..], active, n, max);
    } else {
      BuildOneCapped(s, order[0], n, max);
      BuildCapped(BuildOne(s, order[0]), order[1..], active + [Used(s, order[0])], n, max);
    }
  }

  lemma BuildOneCapped(s: State, sc: nat, n: string, max: int)
    requires Shape(s) && Capped(s, n, max) && sc in s.subConns && NodeID(s.subConns[sc].addr) != ""
    ensures Shape(BuildOne(s, sc)) && Capped(BuildOne(s, sc), n, max)
  {
    hide ConnShape;
    BuildOneKeeps(s, sc);
  }

  lemma ResolveCapped(s: State, a: Action, n: string, max: int)
    requires Shape(s) && Capped(s, n, max) && a.Resolve? && Enabled(s, a)
    requires forall i :: 0 <= i < |a.addrs| ==> Limited(a.addrs[i], n, max)
    ensures Shape(Step(s, a)) && Capped(Step(s, a), n, max)
  {
    var s0 := RemoveStep(s, Listed(a.addrs));
    var s1 := ResolvedState(s, a.addrs, a.created);
    RemoveKeeps(s, Listed(a.addrs));
    CreateKeeps(s0, a.addrs, a.created);
    CreateExtends(s0, a.addrs, a.created);
    assert Capped(s1, n, max);
    BuildCapped(s1, a.order, [], n, max);
  }

  lemma RecordCapped(s: State, sc: nat, state: Connectivity, n: string, max: int)
    requires Shape(s) && Capped(s, n, max) && sc in s.subConns
    ensures Shape(RecordState(s, sc, state)) && Capped(RecordState(s, sc, state), n, max)
  {
  }

  lemma PublishCapped(s: State, order: seq<nat>, n: string, max: int)
    requires Shape(s) && Capped(s, n, max) && Enumerates(order, ReadySet(s.subConns))
    ensures Shape(PublishStep(s, order)) && Capped(PublishStep(s, order), n, max)
  {
    BuildCapped(s, order, [], n, max);
  }

  lemma StateChangeCapped(s: State, a: Action, n: string, max: int)
    requires Shape(s) && Capped(s, n, max) && a.StateChange? && Enabled(s, a)
    ensures Shape(Step(s, a)) && Capped(Step(s, a), n, max)
  {
    if a.sc in s.subConns {
      RecordCapped(s, a.sc, a.state, n, max);
      hide Shape, Capped, RecordState, Enumerates, BuildLoop;
      if ShouldUpdatePicker(s.subConns[a.sc].state, a.state) {
        PublishCapped(RecordState(s, a.sc, a.state), a.order, n, max);
      }
    }
  }

  lemma DoneCapped(s: State, a: Action, n: string, max: int)
    requires Shape(s) && Capped(s, n, max) && (a.DoneSwap? || a.DoneLook? || a.DoneLoad?) && Enabled(s, a)
    ensures Shape(Step(s, a)) && Capped(Step(s, a), n, max)
  {
    if a.DoneSwap? {
      var c := s.callbacks[a.t];
      DoneSwapTracks(s, a.t);
      if s.wrappers[c.wrapper].id == n {
        G.GrowBounds(c.seen, c.max.value, s.wrappers[c.wrapper].step, s.wrappers[c.wrapper].rate);
      }
    }
  }

  /** With an initial capacity within the limit and a limit that is never changed, a node stays within it. */
  lemma {:induction false} CapacityStaysWithinMax(s: State, acts: seq<Action>, n: string, max: int)
    requires Shape(s) && Capped(s, n, max) && CanRun(s, acts)
    requires forall i :: 0 <= i < |acts| && acts[i].Resolve? ==>
               forall k :: 0 <= k < |acts[i].addrs| ==> Limited(acts[i].addrs[k], n, max)
    ensures Shape(Run(s, acts)) && Capped(Run(s, acts), n, max)
    ensures n in Run(s, acts).memory ==> Run(s, acts).wrappers[Run(s, acts).memory[n]].current <= max
    decreases |acts|
  {
    if acts != [] {
      match acts[0] {
        case Resolve(_, _, _) => ResolveCapped(s, acts[0], n, max);
        case StateChange(_, _, _) => StateChangeCapped(s, acts[0], n, max);
        case DoneLoad(_, _) => DoneCapped(s, acts[0], n, max);
        case DoneLook(_) => DoneCapped(s, acts[0], n, max);
        case DoneSwap(_) => DoneCapped(s, acts[0], n, max);
        case _ =>
      }
      CapacityStaysWithinMax(Step(s, acts[0]), acts[1..], n, max);
    }
  }
}
