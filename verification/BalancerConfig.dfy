/**
 Which configuration a node's wrapper carries over a run of the capacity balancer: the attributes its SubConn was
 created with, whatever the resolver says later; only a SubConn that is created anew brings new ones.
 */
module BalancerConfig {
  import opened Common
  import opened BalancerModel
  import opened BalancerProofs
  import opened BalancerMemory

  /** A wrapper whose SubConn is tracked carries what that SubConn was created with. */
  ghost predicate Mirrored(s: State) {
    forall w :: w in s.wrappers ==>
      && s.wrappers[w].conn < s.nextConn
      && (s.wrappers[w].conn in s.subConns ==> Carries(s.wrappers[w], s.subConns[s.wrappers[w].conn].addr))
  }

  /** s' tracks nothing that s does not track, except under new identities, and no address value has changed. */
  ghost predicate AddressesKept(s: State, s': State) {
    && s.nextConn <= s'.nextConn
    && forall sc :: sc in s'.subConns && sc < s.nextConn ==> sc in s.subConns && s'.subConns[sc].addr == s.subConns[sc].addr
  }

  lemma BuildOneMirrored(s: State, sc: nat)
    requires Shape(s) && Mirrored(s) && sc in s.subConns && NodeID(s.subConns[sc].addr) != ""
    ensures Mirrored(BuildOne(s, sc)) && Shape(BuildOne(s, sc))
  {
    BuildOneKeeps(s, sc);
  }

  lemma {:induction false} BuildMirrored(s: State, order: seq<nat>, active: seq<nat>)
    requires Shape(s) && Mirrored(s) && forall i :: 0 <= i < |order| ==> order[i] in s.subConns
    ensures Mirrored(BuildLoop(s, order, active).0) && Shape(BuildLoop(s, order, active).0)
    decreases |order|
  {
    hide Mirrored, Shape, Used;
    if order == [] {
    } else if NodeID(s.subConns[order[0]].addr) == "" {
      BuildMirrored(s, order[1..], active);
    } else {
      BuildOneMirrored(s, order[0]);
      hide BuildOne;
      SameConns(s, order[0]);
      BuildMirrored(BuildOne(s, order[0]), order[1..], active + [Used(s, order[0])]);
    }
  }

  lemma SameConns(s: State, sc: nat)
    requires sc in s.subConns
    ensures BuildOne(s, sc).subConns == s.subConns
  {
  }

  lemma PublishMirrored(s: State, order: seq<nat>)
    requires Shape(s) && Mirrored(s) && forall i :: 0 <= i < |order| ==> order[i] in s.subConns
    ensures var s' := PublishStep(s, order);
            Shape(s') && Mirrored(s') && s'.subConns == s.subConns && s'.nextConn == s.nextConn
  {
    BuildMirrored(s, order, []);
  }

  lemma EnumeratesTracked(s: State, order: seq<nat>)
    requires Enumerates(order, ReadySet(s.subConns))
    ensures forall i :: 0 <= i < |order| ==> order[i] in s.subConns
  {
  }

  lemma ResolvedMirrored(s: State, addrs: seq<Address>, created: seq<bool>)
    requires Shape(s) && Mirrored(s) && |addrs| == |created|
    ensures var s' := ResolvedState(s, addrs, created); Shape(s') && Mirrored(s') && AddressesKept(s, s')
  {
    var s0 := RemoveStep(s, Listed(addrs));
    RemoveKeeps(s, Listed(addrs));
    CreateKeeps(s0, addrs, created);
    CreateExtends(s0, addrs, created);
    CreateCounts(s0, addrs, created);
  }

  lemma {:induction false} CreateCounts(s: State, addrs: seq<Address>, created: seq<bool>)
    requires |addrs| == |created|
    ensures CreateStep(s, addrs, created).nextConn >= s.nextConn
    decreases |addrs|
  {
    if addrs != [] {
      if Tracked(s.subConns, addrs[0].addr) || !created[0] {
        CreateCounts(s, addrs[1..], created[1..]);
      } else {
        CreateCounts(s.(subConns := s.subConns[s.nextConn := Info(addrs[0], Idle)], nextConn := s.nextConn + 1),
                     addrs[1..], created[1..]);
      }
    }
  }

  lemma ResolveMirrored(s: State, addrs: seq<Address>, created: seq<bool>, order: seq<nat>)
    requires Shape(s) && Mirrored(s) && Enabled(s, Resolve(addrs, created, order))
    ensures var s' := ResolveStep(s, addrs, created, order); Shape(s') && Mirrored(s') && AddressesKept(s, s')
  {
    hide Shape, Mirrored, ResolvedState, Enumerates, PublishStep;
    ResolvedMirrored(s, addrs, created);
    EnumeratesTracked(ResolvedState(s, addrs, created), order);
    PublishMirrored(ResolvedState(s, addrs, created), order);
  }

  lemma RecordMirrored(s: State, sc: nat, state: Connectivity)
    requires Shape(s) && Mirrored(s) && sc in s.subConns
    ensures var s' := RecordState(s, sc, state); Shape(s') && Mirrored(s') && AddressesKept(s, s')
  {
  }

  lemma StateChangeMirrored(s: State, sc: nat, state: Connectivity, order: seq<nat>)
    requires Shape(s) && Mirrored(s) && Enabled(s, StateChange(sc, state, order))
    ensures var s' := StateChangeStep(s, sc, state, order); Shape(s') && Mirrored(s') && AddressesKept(s, s')
  {
    hide Shape, Mirrored, RecordState, Enumerates, PublishStep;
    if sc in s.subConns {
      RecordMirrored(s, sc, state);
      if ShouldUpdatePicker(s.subConns[sc].state, state) {
        EnumeratesTracked(RecordState(s, sc, state), order);
        PublishMirrored(RecordState(s, sc, state), order);
      }
    }
  }

  lemma OtherMirrored(s: State, a: Action)
    requires Shape(s) && Mirrored(s) && Enabled(s, a) && !a.Resolve? && !a.StateChange?
    ensures Shape(Step(s, a)) && Mirrored(Step(s, a)) && AddressesKept(s, Step(s, a))
  {
    if a.DoneSwap? {
      DoneSwapTracks(s, a.t);
    }
  }

  lemma StepMirrored(s: State, a: Action)
    requires Shape(s) && Mirrored(s) && Enabled(s, a)
    ensures Shape(Step(s, a)) && Mirrored(Step(s, a)) && AddressesKept(s, Step(s, a))
  {
    hide Shape, Mirrored, AddressesKept;
    match a {
      case Resolve(addrs, created, order) => ResolveMirrored(s, addrs, created, order);
      case StateChange(sc, state, order) => StateChangeMirrored(s, sc, state, order);
      case _ => OtherMirrored(s, a);
    }
  }

  lemma {:induction false} RunMirrored(s: State, acts: seq<Action>)
    requires Shape(s) && Mirrored(s) && CanRun(s, acts)
    ensures Shape(Run(s, acts)) && Mirrored(Run(s, acts)) && AddressesKept(s, Run(s, acts))
    decreases |acts|
  {
    hide Shape, Mirrored, Step, Enabled;
    if acts != [] {
      StepMirrored(s, acts[0]);
      RunMirrored(Step(s, acts[0]), acts[1..]);
    }
  }

  /** Over any run, whatever attributes the resolver lists for its address in the meantime: as long as a SubConn is
      tracked, every wrapper that hands it out carries the attributes the SubConn was created with. */
  lemma ConfigurationIsFrozen(acts: seq<Action>, more: seq<Action>, sc: nat)
    requires CanRun(Init(), acts) && CanRun(Run(Init(), acts), more)
    requires sc in Run(Init(), acts).subConns && sc in Run(Run(Init(), acts), more).subConns
    ensures var s, s' := Run(Init(), acts), Run(Run(Init(), acts), more);
            && s'.subConns[sc].addr == s.subConns[sc].addr
            && forall w :: w in s'.wrappers && s'.wrappers[w].conn == sc ==> Carries(s'.wrappers[w], s.subConns[sc].addr)
  {
    assert Shape(Init()) && Mirrored(Init());
    RunMirrored(Init(), acts);
    var s := Run(Init(), acts);
    RunMirrored(s, more);
    assert sc < s.nextConn;
  }

  /** The picker gRPC holds after any run of an open balancer serves nodes under their own names: each of its wrappers
      hands out a Ready SubConn with the identity and configuration of that SubConn's address, and each Ready SubConn
      whose nodeID is set, and not empty, is handed out by exactly one of them. */
  lemma PickerServesNamedNodes(acts: seq<Action>)
    requires CanRun(Init(), acts) && forall i :: 0 <= i < |acts| ==> !acts[i].Close?
    requires Run(Init(), acts).published.Picking?
    ensures var s := Run(Init(), acts);
            var ws := s.published.wrappers;
            && (forall i :: 0 <= i < |ws| ==>
                  && ws[i] in s.wrappers
                  && var w := s.wrappers[ws[i]];
                     w.conn in s.subConns && s.subConns[w.conn].state == Ready && Carries(w, s.subConns[w.conn].addr))
            && (forall sc ::
                  (&& sc in s.subConns && s.subConns[sc].state == Ready
                   && s.subConns[sc].addr.nodeID != None && s.subConns[sc].addr.nodeID != Some("")) ==>
                    exists i :: 0 <= i < |ws| && s.wrappers[ws[i]].conn == sc)
            && (forall i, j :: 0 <= i < j < |ws| ==> s.wrappers[ws[i]].conn != s.wrappers[ws[j]].conn)
  {
    assert Shape(Init()) && Mirrored(Init());
    PickerOffersReady(acts);
    RunMirrored(Init(), acts);
    var s := Run(Init(), acts);
    var ws := s.published.wrappers;
    var cs := Conns(s.wrappers, ws);
    hide CanRun, Run, Shape;
    forall i | 0 <= i < |ws|
      ensures s.wrappers[ws[i]].conn in s.subConns && s.subConns[s.wrappers[ws[i]].conn].state == Ready
      ensures Carries(s.wrappers[ws[i]], s.subConns[s.wrappers[ws[i]].conn].addr)
    {
      assert cs[i] in Pickable(s.subConns);
    }
    forall sc | sc in s.subConns && s.subConns[sc].state == Ready
                && s.subConns[sc].addr.nodeID != None && s.subConns[sc].addr.nodeID != Some("")
      ensures exists i :: 0 <= i < |ws| && s.wrappers[ws[i]].conn == sc
    {
      assert sc in Pickable(s.subConns);
      var i :| 0 <= i < |cs| && cs[i] == sc;
      assert s.wrappers[ws[i]].conn == sc;
    }
    forall i, j | 0 <= i < j < |ws| ensures s.wrappers[ws[i]].conn != s.wrappers[ws[j]].conn {
      assert cs[i] != cs[j];
    }
  }

  /** A SubConn in its first state tracks exactly this address value. */
  ghost predicate NewlyTracked(subConns: map<nat, Info>, a: Address) {
    exists sc :: sc in subConns && subConns[sc] == Info(a, Idle)
  }

  /** The way out: an address that is not tracked when the resolver lists it (it was never seen, or its SubConn went away
      with a Shutdown event or a shorter list) gets a SubConn with the attributes of its first occurrence for which
      NewSubConn succeeds. */
  lemma UntrackedTakesNewAttributes(s: State, addrs: seq<Address>, created: seq<bool>, order: seq<nat>, i: nat)
    requires Shape(s) && Enabled(s, Resolve(addrs, created, order)) && i < |addrs| && created[i]
    requires !Tracked(s.subConns, addrs[i].addr)
    requires forall j :: 0 <= j < i && addrs[j].addr == addrs[i].addr ==> !created[j]
    ensures var s' := ResolveStep(s, addrs, created, order);
            NewlyTracked(s'.subConns, addrs[i])
  {
    var s0 := RemoveStep(s, Listed(addrs));
    RemoveKeeps(s, Listed(addrs));
    assert !Tracked(s0.subConns, addrs[i].addr) by {
      forall sc | sc in s0.subConns ensures s0.subConns[sc].addr.addr != addrs[i].addr {
        assert sc in s.subConns;
      }
    }
    FirstCreates(s0, addrs, created, i);
    PublishKeepsConns(ResolvedState(s, addrs, created), order);
  }

  lemma {:induction false} FirstCreates(s: State, addrs: seq<Address>, created: seq<bool>, i: nat)
    requires |addrs| == |created| && ConnShape(s.subConns, s.nextConn) && i < |addrs| && created[i]
    requires !Tracked(s.subConns, addrs[i].addr)
    requires forall j :: 0 <= j < i && addrs[j].addr == addrs[i].addr ==> !created[j]
    ensures var s' := CreateStep(s, addrs, created);
            NewlyTracked(s'.subConns, addrs[i])
    decreases |addrs|
  {
    var skip := Tracked(s.subConns, addrs[0].addr) || !created[0];
    var s1 := if skip then s
              else s.(subConns := s.subConns[s.nextConn := Info(addrs[0], Idle)], nextConn := s.nextConn + 1);
    assert CreateStep(s, addrs, created) == CreateStep(s1, addrs[1..], created[1..]);
    CreateKeeps(s, addrs[..1], created[..1]);
    assert ConnShape(s1.subConns, s1.nextConn) by {
      assert s1 == CreateStep(s, addrs[..1], created[..1]);
    }
    if i == 0 {
      CreateExtends(s1, addrs[1..], created[1..]);
      var s' := CreateStep(s1, addrs[1..], created[1..]);
      assert s.nextConn in s'.subConns && s'.subConns[s.nextConn] == Info(addrs[0], Idle);
    } else {
      assert !Tracked(s1.subConns, addrs[i].addr);
      assert forall j :: 0 <= j < i - 1 && addrs[1..][j].addr == addrs[1..][i - 1].addr ==> !created[1..][j];
      FirstCreates(s1, addrs[1..], created[1..], i - 1);
    }
  }
}
