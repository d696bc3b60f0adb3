/**
 What every run of the capacity balancer keeps: at most one SubConn per address, a memory that points at live
 wrappers, and a published picker that offers exactly the Ready SubConns although it is rebuilt only when
 shouldUpdatePicker says so.
 */
module BalancerProofs {
  import opened Common
  import opened BalancerModel

  // ----- shape

  lemma RemoveKeeps(s: State, listed: set<string>)
    requires Shape(s)
    ensures Shape(RemoveStep(s, listed))
  {
  }

  lemma {:induction false} CreateKeeps(s: State, addrs: seq<Address>, created: seq<bool>)
    requires |addrs| == |created| && ConnShape(s.subConns, s.nextConn)
    ensures var s' := CreateStep(s, addrs, created);
            && ConnShape(s'.subConns, s'.nextConn)
            && s' == s.(subConns := s'.subConns, nextConn := s'.nextConn)
    decreases |addrs|
  {
    if addrs == [] {
    } else if Tracked(s.subConns, addrs[0].addr) || !created[0] {
      CreateKeeps(s, addrs[1..], created[1..]);
    } else {
      var s1 := s.(subConns := s.subConns[s.nextConn := Info(addrs[0], Idle)], nextConn := s.nextConn + 1);
      forall sc | sc in s.subConns ensures s.subConns[sc].addr.addr != addrs[0].addr {}
      CreateKeeps(s1, addrs[1..], created[1..]);
    }
  }

  lemma BuildOneKeeps(s: State, sc: nat)
    requires MemoryShape(s.memory, s.wrappers, s.nextWrapper) && CallbackShape(s.callbacks, s.wrappers) && sc in s.subConns
    ensures var s' := BuildOne(s, sc);
            && MemoryShape(s'.memory, s'.wrappers, s'.nextWrapper) && CallbackShape(s'.callbacks, s'.wrappers)
            && Used(s, sc) in s'.wrappers && s'.wrappers[Used(s, sc)].conn == sc
            && s'.wrappers[Used(s, sc)].addr.addr == s.subConns[sc].addr.addr
            && s'.wrappers[Used(s, sc)].id == NodeID(s.subConns[sc].addr)
            && s'.subConns == s.subConns && s'.nextConn == s.nextConn
            && s'.wrappers.Keys >= s.wrappers.Keys
            && forall w :: w in s.wrappers && w != Used(s, sc) ==> s'.wrappers[w] == s.wrappers[w]
  {
  }

  // ----- Build

  /** The connections of `order` that Build does not skip. */
  function Identified(subConns: map<nat, Info>, order: seq<nat>): (r: seq<nat>)
    requires forall i :: 0 <= i < |order| ==> order[i] in subConns
  {
    if order == [] then []
    else if !Named(subConns[order[0]].addr) then Identified(subConns, order[1..])
    else [order[0]] + Identified(subConns, order[1..])
  }

  /** Wrappers collected so far serve SubConns at their own addresses. */
  ghost predicate Serving(s: State, active: seq<nat>) {
    forall i :: 0 <= i < |active| ==>
      && active[i] in s.wrappers
      && s.wrappers[active[i]].conn in s.subConns
      && s.wrappers[active[i]].addr.addr == s.subConns[s.wrappers[active[i]].conn].addr.addr
  }

  lemma BuildOneServes(s: State, sc: nat, active: seq<nat>)
    requires ConnShape(s.subConns, s.nextConn) && MemoryShape(s.memory, s.wrappers, s.nextWrapper)
    requires CallbackShape(s.callbacks, s.wrappers) && sc in s.subConns && Serving(s, active)
    requires sc !in Conns(s.wrappers, active)
    ensures Serving(BuildOne(s, sc), active + [Used(s, sc)])
    ensures Conns(BuildOne(s, sc).wrappers, active + [Used(s, sc)]) == Conns(s.wrappers, active) + [sc]
  {
    BuildOneKeeps(s, sc);
    forall i | 0 <= i < |active| ensures active[i] != Used(s, sc) {
      assert Conns(s.wrappers, active)[i] == s.wrappers[active[i]].conn;
    }
  }

  /** Build hands out one wrapper for each SubConn that has a node identity, in the order it visits them, and its
      wrappers are never shared between two SubConns. */
  lemma {:induction false} BuildServes(s: State, order: seq<nat>, active: seq<nat>)
    requires ConnShape(s.subConns, s.nextConn) && MemoryShape(s.memory, s.wrappers, s.nextWrapper)
    requires CallbackShape(s.callbacks, s.wrappers) && Serving(s, active)
    requires forall i :: 0 <= i < |order| ==> order[i] in s.subConns && order[i] !in Conns(s.wrappers, active)
    requires Distinct(order)
    ensures var (built, all) := BuildLoop(s, order, active);
            && MemoryShape(built.memory, built.wrappers, built.nextWrapper)
            && CallbackShape(built.callbacks, built.wrappers)
            && Serving(built, all)
            && Conns(built.wrappers, all) == Conns(s.wrappers, active) + Identified(s.subConns, order)
    decreases |order|
  {
    hide BuildOne, Used, Remembered, MemoryShape, ConnShape, CallbackShape, Conns, Enumerates;
    if order == [] {
      assert Conns(s.wrappers, active) + [] == Conns(s.wrappers, active);
    } else if NodeID(s.subConns[order[0]].addr) == "" {
      BuildServes(s, order[1..], active);
    } else {
      BuildOneKeeps(s, order[0]);
      BuildOneServes(s, order[0], active);
      forall i | 0 <= i < |order[1..]| ensures order[1..][i] == order[i + 1] && order[1..][i] != order[0] {}
      BuildServes(BuildOne(s, order[0]), order[1..], active + [Used(s, order[0])]);
      assert Conns(s.wrappers, active) + [order[0]] + Identified(s.subConns, order[1..])
          == Conns(s.wrappers, active) + Identified(s.subConns, order);
    }
  }

  lemma DistinctPrepend(x: nat, s: seq<nat>)
    requires Distinct(s) && x !in s
    ensures Distinct([x] + s)
  {
  }

  lemma {:induction false} IdentifiedEnumerates(subConns: map<nat, Info>, order: seq<nat>)
    requires forall i :: 0 <= i < |order| ==> order[i] in subConns
    requires Distinct(order)
    ensures forall sc :: sc in Identified(subConns, order) <==> sc in order && Named(subConns[sc].addr)
    ensures Distinct(Identified(subConns, order))
  {
    if order != [] {
      var rest := Identified(subConns, order[1..]);
      IdentifiedEnumerates(subConns, order[1..]);
      assert order[0] !in order[1..];
      assert order == [order[0]] + order[1..];
      assert order[0] !in rest;
      DistinctPrepend(order[0], rest);
    }
  }

  lemma PublishTracks(s: State, order: seq<nat>)
    requires Shape(s) && Enumerates(order, ReadySet(s.subConns))
    ensures Shape(PublishStep(s, order)) && Tracks(PublishStep(s, order))
  {
    if order == [] {
    } else {
      assert Conns(s.wrappers, []) == [];
      assert order[0] in ReadySet(s.subConns);
      BuildServes(s, order, []);
      OrderIsPickable(s.subConns, order);
      hide BuildLoop, Identified, Enumerates, MemoryShape, ConnShape, CallbackShape, Conns, NodeID;
      var (built, active) := BuildLoop(s, order, []);
      assert [] + Identified(s.subConns, order) == Identified(s.subConns, order);
      assert Shape(built);
    }
  }

  lemma OrderIsPickable(subConns: map<nat, Info>, order: seq<nat>)
    requires Enumerates(order, ReadySet(subConns))
    ensures Enumerates(Identified(subConns, order), Pickable(subConns))
  {
    IdentifiedEnumerates(subConns, order);
    var cs := Identified(subConns, order);
    forall i | 0 <= i < |cs| ensures cs[i] in Pickable(subConns) {
      assert cs[i] in cs;
    }
  }

  // ----- steps

  lemma ResolveTracks(s: State, addrs: seq<Address>, created: seq<bool>, order: seq<nat>)
    requires Shape(s) && Enabled(s, Resolve(addrs, created, order))
    ensures Shape(ResolveStep(s, addrs, created, order)) && Tracks(ResolveStep(s, addrs, created, order))
  {
    RemoveKeeps(s, Listed(addrs));
    CreateKeeps(RemoveStep(s, Listed(addrs)), addrs, created);
    PublishTracks(ResolvedState(s, addrs, created), order);
  }

  /** When shouldUpdatePicker says no, the Ready SubConns are the same ones as before. */
  lemma NoUpdateNeeded(s: State, sc: nat, state: Connectivity)
    requires sc in s.subConns && !s.subConns[sc].state.Shutdown?
    ensures !ShouldUpdatePicker(s.subConns[sc].state, state)
            ==> && ReadySet(RecordState(s, sc, state).subConns) == ReadySet(s.subConns)
                && Pickable(RecordState(s, sc, state).subConns) == Pickable(s.subConns)
    ensures ShouldUpdatePicker(s.subConns[sc].state, state) && !state.Shutdown?
            ==> ReadySet(RecordState(s, sc, state).subConns) != ReadySet(s.subConns)
    ensures var before := s.subConns[sc].state;
            ShouldUpdatePicker(before, state) <==> before != state && (before == Ready || state == Ready || state == Shutdown)
  {
    if ShouldUpdatePicker(s.subConns[sc].state, state) && !state.Shutdown? {
      assert sc in ReadySet(RecordState(s, sc, state).subConns) <==> sc !in ReadySet(s.subConns);
    }
  }

  /** A state event: a SubConn that is shut down is no longer tracked, any other one is in the new state under its old
      address. No other SubConn is touched, and gRPC gets a new picker only if the Ready SubConns may have changed. */
  lemma StateChangeRecords(s: State, sc: nat, state: Connectivity, order: seq<nat>)
    requires Enabled(s, StateChange(sc, state, order)) && sc in s.subConns
    ensures var s' := Step(s, StateChange(sc, state, order));
            && (if state == Shutdown then sc !in s'.subConns
                else sc in s'.subConns && s'.subConns[sc] == Info(s.subConns[sc].addr, state))
            && (forall o :: o != sc ==> (o in s'.subConns <==> o in s.subConns))
            && (forall o :: o != sc && o in s.subConns ==> s'.subConns[o] == s.subConns[o])
            && (state == s.subConns[sc].state || !(state == Ready || s.subConns[sc].state == Ready || state == Shutdown) ==>
                  s'.published == s.published && s'.wrappers == s.wrappers && s'.memory == s.memory)
            && s'.shutdowns == s.shutdowns && s'.closed == s.closed
  {
  }

  /** An error of the resolver replaces the picker by a failing one exactly if nothing is tracked. */
  lemma ErrorFailsIff(acts: seq<Action>)
    requires CanRun(Init(), acts) && forall i :: 0 <= i < |acts| ==> !acts[i].Close?
    ensures var s := Run(Init(), acts);
            var s' := Step(s, ResolverError);
            && (s'.published == Failing <==> s.published == Failing || s.subConns == map[])
            && s' == s.(published := s'.published)
            && (s'.published != s.published ==> s'.published == Failing)
  {
  }

  lemma StateChangeTracks(s: State, sc: nat, state: Connectivity, order: seq<nat>)
    requires Shape(s) && Tracks(s) && Enabled(s, StateChange(sc, state, order))
    ensures Shape(StateChangeStep(s, sc, state, order)) && Tracks(StateChangeStep(s, sc, state, order))
  {
    if sc in s.subConns {
      assert Shape(RecordState(s, sc, state));
      if ShouldUpdatePicker(s.subConns[sc].state, state) {
        PublishTracks(RecordState(s, sc, state), order);
      } else {
        NoUpdateNeeded(s, sc, state);
      }
    }
  }

  lemma DoneSwapTracks(s: State, t: nat)
    requires Shape(s) && Enabled(s, DoneSwap(t))
    ensures Shape(DoneSwapStep(s, t)) && (Tracks(s) ==> Tracks(DoneSwapStep(s, t)))
  {
    var s' := DoneSwapStep(s, t);
    if Tracks(s) && s.published.Picking? {
      var ws := s.published.wrappers;
      assert Conns(s'.wrappers, ws) == Conns(s.wrappers, ws);
    }
  }

  /** Every operation but Close leaves a picker over exactly the Ready SubConns. */
  lemma StepTracks(s: State, a: Action)
    requires Shape(s) && Tracks(s) && Enabled(s, a) && !a.Close?
    ensures Shape(Step(s, a)) && Tracks(Step(s, a))
  {
    match a {
      case Resolve(addrs, created, order) => ResolveTracks(s, addrs, created, order);
      case StateChange(sc, state, order) => StateChangeTracks(s, sc, state, order);
      case DoneSwap(t) => DoneSwapTracks(s, t);
      case _ =>
    }
  }

  lemma {:induction false} RunTracks(s: State, acts: seq<Action>)
    requires Shape(s) && Tracks(s) && CanRun(s, acts)
    requires forall i :: 0 <= i < |acts| ==> !acts[i].Close?
    ensures Shape(Run(s, acts)) && Tracks(Run(s, acts))
    decreases |acts|
  {
    if acts != [] {
      StepTracks(s, acts[0]);
      RunTracks(Step(s, acts[0]), acts[1..]);
    }
  }

  /** The picker gRPC holds, after any run of an open balancer: it offers the Ready SubConns that have a node
      identity, each exactly once; it fails when nothing is Ready. */
  lemma PickerOffersReady(acts: seq<Action>)
    requires CanRun(Init(), acts) && forall i :: 0 <= i < |acts| ==> !acts[i].Close?
    ensures var s := Run(Init(), acts);
            match s.published
            case Picking(ws) =>
              && ReadySet(s.subConns) != {}
              && (forall i :: 0 <= i < |ws| ==> ws[i] in s.wrappers)
              && Enumerates(Conns(s.wrappers, ws), Pickable(s.subConns))
            case _ => ReadySet(s.subConns) == {}
  {
    RunTracks(Init(), acts);
  }

  /** Build skips SubConns without a node identity, so the picker offers every Ready SubConn exactly when each of
      them has one; if none has, gRPC holds a picker that was published as Ready and offers nothing. */
  lemma OffersAllReadyIff(s: State)
    requires Shape(s) && Tracks(s) && s.published.Picking?
    ensures Enumerates(Conns(s.wrappers, s.published.wrappers), ReadySet(s.subConns))
            <==> forall sc :: sc in ReadySet(s.subConns) ==>
                   s.subConns[sc].addr.nodeID != None && s.subConns[sc].addr.nodeID != Some("")
    ensures s.published.wrappers == []
            <==> forall sc :: sc in ReadySet(s.subConns) ==>
                   s.subConns[sc].addr.nodeID == None || s.subConns[sc].addr.nodeID == Some("")
  {
    var ws, cs := s.published.wrappers, Conns(s.wrappers, s.published.wrappers);
    assert |cs| == |ws|;
    if forall sc :: sc in ReadySet(s.subConns) ==> Named(s.subConns[sc].addr) {
      assert ReadySet(s.subConns) == Pickable(s.subConns);
    }
    if Enumerates(cs, ReadySet(s.subConns)) {
      forall sc | sc in ReadySet(s.subConns) ensures sc in Pickable(s.subConns) {
        var i :| 0 <= i < |cs| && cs[i] == sc;
      }
    }
    if ws != [] {
      assert cs[0] in Pickable(s.subConns);
    } else {
      forall sc | sc in ReadySet(s.subConns) ensures sc !in Pickable(s.subConns) {}
    }
  }

  /** Close shuts every SubConn down but publishes nothing: the picker is right afterwards only if nothing was Ready. */
  lemma CloseLeavesPicker(s: State)
    requires Shape(s) && Tracks(s)
    ensures Shape(CloseStep(s))
    ensures CloseStep(s).subConns == map[] && CloseStep(s).closed && CloseStep(s).shutdowns == s.shutdowns + s.subConns.Keys
    ensures Tracks(CloseStep(s)) <==> ReadySet(s.subConns) == {}
    ensures CloseStep(s).published == s.published
  {
    assert ReadySet(CloseStep(s).subConns) == {};
  }
}
