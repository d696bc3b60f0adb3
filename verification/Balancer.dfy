/**
 capacityBalancer and pickerBuilder as the object they form under the balancer's lock. Each method is tied to the
 step of BalancerModel it performs; an order in which Go happened to range over a map is an out-parameter.
 */
module Balancer {
  import opened Common
  import opened BalancerModel
  import opened BalancerProofs

  /** RemoveStep, done for the SubConns in `seen`. */
  ghost function RemovedAmong(s: State, listed: set<string>, seen: set<nat>): State {
    var gone := Dropped(s, listed) * seen;
    s.(subConns := s.subConns - gone,
       memory := s.memory - (set sc | sc in gone && NodeID(s.subConns[sc].addr) != "" :: NodeID(s.subConns[sc].addr)),
       shutdowns := s.shutdowns + gone)
  }

  lemma RemovedAmongNext(s: State, listed: set<string>, seen: set<nat>, sc: nat)
    requires sc in s.subConns && sc !in seen
    ensures var r, r' := RemovedAmong(s, listed, seen), RemovedAmong(s, listed, seen + {sc});
            if s.subConns[sc].addr.addr in listed then r' == r
            else
              && r'.subConns == r.subConns - {sc} && r'.shutdowns == r.shutdowns + {sc}
              && r'.memory == if NodeID(s.subConns[sc].addr) != "" then r.memory - {NodeID(s.subConns[sc].addr)} else r.memory
  {
    var gone, gone' := Dropped(s, listed) * seen, Dropped(s, listed) * (seen + {sc});
    if s.subConns[sc].addr.addr in listed {
      assert gone' == gone;
    } else {
      assert gone' == gone + {sc};
    }
  }

  lemma RemovedNone(s: State, listed: set<string>)
    ensures RemovedAmong(s, listed, {}) == s
  {
  }

  lemma RemovedAll(s: State, listed: set<string>)
    ensures RemovedAmong(s, listed, s.subConns.Keys) == RemoveStep(s, listed)
  {
    assert Dropped(s, listed) * s.subConns.Keys == Dropped(s, listed);
  }

  lemma ListedAppend(addrs: seq<Address>, i: nat)
    requires i < |addrs|
    ensures Listed(addrs[..i + 1]) == Listed(addrs[..i]) + {addrs[i].addr}
  {
    forall x | x in Listed(addrs[..i]) + {addrs[i].addr} ensures x in Listed(addrs[..i + 1]) {
      if x == addrs[i].addr {
        assert addrs[..i + 1][i].addr == x;
      } else {
        var k :| 0 <= k < i && addrs[..i][k].addr == x;
        assert addrs[..i + 1][k].addr == x;
      }
    }
  }

  /** One more SubConn at the end of Build's loop. */
  lemma {:induction false} BuildAppend(s: State, order: seq<nat>, sc: nat, active: seq<nat>)
    requires forall i :: 0 <= i < |order| ==> order[i] in s.subConns
    requires sc in s.subConns
    ensures var (b, ws) := BuildLoop(s, order, active);
            BuildLoop(s, order + [sc], active)
            == if NodeID(s.subConns[sc].addr) == "" then (b, ws) else (BuildOne(b, sc), ws + [Used(b, sc)])
    decreases |order|
  {
    if order == [] {
      assert [] + [sc] == [sc];
    } else {
      assert (order + [sc])[1..] == order[1..] + [sc];
      if NodeID(s.subConns[order[0]].addr) == "" {
        BuildAppend(s, order[1..], sc, active);
      } else {
        BuildAppend(BuildOne(s, order[0]), order[1..], sc, active + [Used(s, order[0])]);
      }
    }
  }

  class CapacityBalancer {
    var subConns: map<nat, Info>
    var memory: map<string, nat>
    var wrappers: map<nat, Wrapper>
    var published: Published
    var nextConn: nat
    var nextWrapper: nat
    var shutdowns: set<nat>
    var closed: bool
    var callbacks: map<nat, Callback>

    ghost function Abs(): State
      reads this
    {
      State(subConns, memory, wrappers, published, nextConn, nextWrapper, shutdowns, closed, callbacks)
    }

    constructor ()
      ensures Abs() == Init() && Shape(Abs()) && Tracks(Abs())
    {
      subConns, memory, wrappers, published := map[], map[], map[], Nothing;
      nextConn, nextWrapper, shutdowns, closed, callbacks := 0, 0, {}, false, map[];
    }

    /** Lines 84-87. */
    method AddressSet(addrs: seq<Address>) returns (listed: set<string>)
      ensures listed == Listed(addrs)
    {
      listed := {};
      for i := 0 to |addrs|
        invariant listed == Listed(addrs[..i])
      {
        ListedAppend(addrs, i);
        listed := listed + {addrs[i].addr};
      }
      assert addrs[..|addrs|] == addrs;
    }

    /** Lines 92-100. */
    method RemoveConn(sc: nat, ghost s: State, ghost listed: set<string>, ghost seen: set<nat>)
      requires sc in s.subConns && sc !in seen && Abs() == RemovedAmong(s, listed, seen)
      requires s.subConns[sc].addr.addr !in listed
      modifies this
      ensures Abs() == RemovedAmong(s, listed, seen + {sc})
    {
      RemovedAmongNext(s, listed, seen, sc);
      var nodeID := NodeID(subConns[sc].addr);
      shutdowns := shutdowns + {sc};
      subConns := subConns - {sc};
      if nodeID != "" {
        memory := memory - {nodeID};
      }
    }

    /** Lines 89-101. */
    method RemoveUnlisted(listed: set<string>)
      modifies this
      ensures Abs() == RemoveStep(old(Abs()), listed)
    {
      ghost var s := Abs();
      var todo := subConns.Keys;
      RemovedNone(s, listed);
      while todo != {}
        invariant todo <= s.subConns.Keys
        invariant Abs() == RemovedAmong(s, listed, s.subConns.Keys - todo)
        decreases todo
      {
        var sc :| sc in todo;
        ghost var seen := s.subConns.Keys - todo;
        assert s.subConns.Keys - (todo - {sc}) == seen + {sc};
        RemovedAmongNext(s, listed, seen, sc);
        assert sc in subConns && subConns[sc] == s.subConns[sc];
        if subConns[sc].addr.addr !in listed {
          RemoveConn(sc, s, listed, seen);
        }
        todo := todo - {sc};
      }
      assert s.subConns.Keys - todo == s.subConns.Keys;
      RemovedAll(s, listed);
    }

    /** Lines 105-111. */
    method Found(addr: string) returns (found: bool)
      ensures found == Tracked(subConns, addr)
    {
      var todo := subConns.Keys;
      found := false;
      while todo != {}
        invariant todo <= subConns.Keys && !found
        invariant forall sc :: sc in subConns && sc !in todo ==> subConns[sc].addr.addr != addr
        decreases todo
      {
        var sc :| sc in todo;
        if subConns[sc].addr.addr == addr {
          return true;
        }
        todo := todo - {sc};
      }
    }

    /** Lines 104-134. */
    method CreateListed(addrs: seq<Address>, created: seq<bool>)
      requires |addrs| == |created|
      modifies this
      ensures Abs() == CreateStep(old(Abs()), addrs, created)
    {
      ghost var s := Abs();
      for i := 0 to |addrs|
        invariant CreateStep(s, addrs, created) == CreateStep(Abs(), addrs[i..], created[i..])
      {
        assert addrs[i..][1..] == addrs[i + 1..] && created[i..][1..] == created[i + 1..];
        var found := Found(addrs[i].addr);
        if found || !created[i] {
          continue;
        }
        subConns := subConns[nextConn := Info(addrs[i], Idle)];
        nextConn := nextConn + 1;
      }
    }

    /** picker_builder.go lines 49-60: reuse the remembered wrapper or create one. */
    method Activate(sc: nat) returns (w: nat)
      requires sc in subConns
      modifies `memory, `wrappers, `nextWrapper
      ensures Abs() == BuildOne(old(Abs()), sc) && w == Used(old(Abs()), sc)
    {
      var a := subConns[sc].addr;
      var nodeID := AttrAs(a.nodeID, "");
      if nodeID in memory && memory[nodeID] in wrappers && wrappers[memory[nodeID]].addr.addr == a.addr {
        w := memory[nodeID];
        wrappers := wrappers[w := wrappers[w].(conn := sc)];
        wrappers := wrappers[w := wrappers[w].(step := AttrAs(a.step, 0), rate := AttrAs(a.rate, DefaultRate))];
        wrappers := wrappers[w := wrappers[w].(max := AttrAs(a.maxCap, DefaultMax))];
      } else {
        w := nextWrapper;
        wrappers := wrappers[w := NewWrapper(sc, a)];
        memory := memory[nodeID := w];
        nextWrapper := nextWrapper + 1;
      }
    }

    /** picker_builder.go lines 31-67. */
    method Build(ready: set<nat>) returns (active: seq<nat>, ghost order: seq<nat>)
      requires ready <= subConns.Keys
      modifies `memory, `wrappers, `nextWrapper
      ensures Enumerates(order, ready)
      ensures (Abs(), active) == BuildLoop(old(Abs()), order, [])
    {
      ghost var s := Abs();
      var todo := ready;
      active, order := [], [];
      while todo != {}
        invariant todo <= ready
        invariant Enumerates(order, ready - todo)
        invariant subConns == s.subConns
        invariant (Abs(), active) == BuildLoop(s, order, [])
        decreases todo
      {
        hide BuildLoop, BuildOne, Used, Enumerates;
        var sc :| sc in todo;
        EnumeratesWithin(order, ready - todo);
        BuildAppend(s, order, sc, []);
        EnumeratesAppend(order, ready - todo, sc);
        assert ready - (todo - {sc}) == ready - todo + {sc};
        todo := todo - {sc};
        order := order + [sc];
        if NodeID(subConns[sc].addr) == "" {
          continue;
        }
        var w := Activate(sc);
        active := active + [w];
      }
      assert ready - todo == ready;
    }

    /** updatePicker, lines 142-174. */
    method UpdatePicker() returns (ghost order: seq<nat>)
      requires Shape(Abs())
      modifies `memory, `wrappers, `nextWrapper, `published
      ensures Enumerates(order, ReadySet(old(Abs()).subConns))
      ensures Abs() == PublishStep(old(Abs()), order)
      ensures Shape(Abs()) && Tracks(Abs())
    {
      ghost var s := Abs();
      var ready: set<nat> := {};
      var todo := subConns.Keys;
      while todo != {}
        invariant todo <= subConns.Keys
        invariant ready == set sc | sc in subConns.Keys - todo && subConns[sc].state.Ready?
        decreases todo
      {
        var sc :| sc in todo;
        if subConns[sc].state == Ready {
          ready := ready + {sc};
        }
        todo := todo - {sc};
      }
      assert ready == ReadySet(s.subConns);
      if ready == {} {
        published := Failing;
        order := [];
      } else {
        var active;
        active, order := Build(ready);
        assert order != [];
        published := Picking(active);
      }
      PublishTracks(s, order);
    }

    /** Lines 79-139. */
    method UpdateClientConnState(addrs: seq<Address>, created: seq<bool>) returns (ghost order: seq<nat>)
      requires Shape(Abs()) && !closed && |addrs| == |created|
      modifies this
      ensures Enabled(old(Abs()), Resolve(addrs, created, order))
      ensures Abs() == Step(old(Abs()), Resolve(addrs, created, order))
      ensures Shape(Abs()) && Tracks(Abs())
    {
      ghost var s := Abs();
      var listed := AddressSet(addrs);
      RemoveUnlisted(listed);
      RemoveKeeps(s, Listed(addrs));
      CreateKeeps(Abs(), addrs, created);
      CreateListed(addrs, created);
      order := UpdatePicker();
    }

    /** Lines 190-225. */
    method HandleSubConnStateChange(sc: nat, newState: Connectivity) returns (ghost order: seq<nat>)
      requires Shape(Abs()) && Tracks(Abs())
      modifies this
      ensures Enabled(old(Abs()), StateChange(sc, newState, order))
      ensures Abs() == Step(old(Abs()), StateChange(sc, newState, order))
      ensures Shape(Abs()) && Tracks(Abs())
    {
      hide PublishStep, Tracks, Enumerates;
      ghost var s := Abs();
      order := [];
      if sc !in subConns {
        return;
      }
      var oldState := subConns[sc].state;
      subConns := subConns[sc := subConns[sc].(state := newState)];
      match newState {
        case Shutdown => subConns := subConns - {sc};
        case _ =>
      }
      assert Abs() == RecordState(s, sc, newState);
      RecordKeeps(s, sc, newState);
      if ShouldUpdatePicker(oldState, newState) {
        order := UpdatePicker();
      }
      StateChangeTracks(s, sc, newState, order);
    }

    /** Lines 260-268. */
    method Close()
      modifies this
      ensures Abs() == CloseStep(old(Abs()))
    {
      ghost var s := Abs();
      var todo := subConns.Keys;
      while todo != {}
        invariant todo <= s.subConns.Keys
        invariant Abs() == s.(shutdowns := s.shutdowns + (s.subConns.Keys - todo))
        decreases todo
      {
        var sc :| sc in todo;
        shutdowns := shutdowns + {sc};
        todo := todo - {sc};
      }
      subConns := map[];
      closed := true;
    }
  }

  lemma RecordKeeps(s: State, sc: nat, state: Connectivity)
    requires Shape(s) && sc in s.subConns
    ensures Shape(RecordState(s, sc, state))
  {
  }

  lemma EnumeratesWithin(order: seq<nat>, ready: set<nat>)
    requires Enumerates(order, ready)
    ensures forall i :: 0 <= i < |order| ==> order[i] in ready
  {
  }

  lemma EnumeratesAppend(order: seq<nat>, seen: set<nat>, sc: nat)
    requires Enumerates(order, seen) && sc !in seen
    ensures Enumerates(order + [sc], seen + {sc})
  {
    forall x | x in seen + {sc} ensures x in order + [sc] {
      if x == sc {
        assert (order + [sc])[|order|] == sc;
      }
    }
  }
}
