/**
 When Stop keeps its promise (coordinator.go line 287) to finish the batches in hand before it wakes the waiters,
 decided by the state in which it is called.
 */
module CoordinatorShutdown {
  import opened Common
  import opened CoordinatorModel
  import opened CoordinatorProofs
  import opened CoordinatorTheorems
  import opened CoordinatorProgress

  /** Every accepted request has its result. */
  ghost predicate AllSent(s: State) {
    forall r :: r in s.place ==> Sent(s, r)
  }

  /** Whatever is scheduled after a call of Stop, all accepted requests have their results once stopCh is closed. */
  ghost predicate StopWaits(s: State) {
    forall more: seq<Action> ::
      CanRun(s, more) && more != [] && more[0].Stop? && Run(s, more).closes == 1 ==> AllSent(Run(s, more))
  }

  // ----- after Stop nothing new is accepted

  lemma StoppedStep(s: State, a: Action)
    requires s.stopped && Enabled(s, a) && AllSent(s)
    ensures Step(s, a).stopped && AllSent(Step(s, a))
  {
    StopIsForGood(s, a);
    assert Step(s, a).place == s.place;
  }

  lemma {:induction false} StoppedRun(s: State, acts: seq<Action>)
    requires s.stopped && CanRun(s, acts) && AllSent(s)
    ensures AllSent(Run(s, acts))
    decreases |acts|
  {
    hide AllSent, Step, Enabled;
    if acts != [] {
      StoppedStep(s, acts[0]);
      StoppedRun(Step(s, acts[0]), acts[1..]);
    }
  }

  // ----- how Stop's own goroutines can be overtaken

  /** Some timers have been faster than everybody else: nothing is in the map, no result was sent. */
  ghost predicate Overtaken(s: State, s': State) {
    && s'.batches == map[] && s'.sends == s.sends && s'.place == s.place && s'.closes == s.closes
    && s'.stops == s.stops && Inv(s')
  }

  lemma TakeQuietly(s: State, t: nat)
    requires CanTake(s, t)
    ensures var s' := TakeStep(s, t);
            && s'.batches == s.batches - {s.triggers[t].biz} && s'.sends == s.sends && s'.place == s.place
            && s'.closes == s.closes && s'.stops == s.stops
  {
  }

  lemma FireQuietly(s: State, b: nat, t: nat)
    requires CanFire(s, b, t)
    ensures var s' := FireStep(s, b, t);
            && s'.batches == s.batches && s'.sends == s.sends && s'.place == s.place && s'.closes == s.closes
            && s'.stops == s.stops && CanTake(s', t) && s'.triggers[t].biz == s.heap[b].biz
  {
  }

  /** The batch of a bizID has its timer armed, or a goroutine of its timer about to take it. */
  lemma TimerOf(s: State, biz: int) returns (armed: bool, t: nat)
    requires Inv(s) && biz in s.batches
    ensures s.batches[biz] in s.heap && s.heap[s.batches[biz]].biz == biz
    ensures armed ==> CanFire(s, s.batches[biz], t)
    ensures !armed ==> CanTake(s, t) && s.triggers[t].biz == biz
  {
    hide TakenInv, HeapInv, PartitionInv, PlaceInv, OwnerInv, TakerInv, SendsInv, CloseInv, StopTriggersInv, DrainInv,
         PlacedClients, RejectedInv, BufferInv;
    var b := s.batches[biz];
    assert b in s.heap;
    armed := s.heap[b].timer.Armed?;
    if armed {
      t := FreshId(s.triggers.Keys);
    } else {
      t :| Pends(s.triggers, t, biz, ByTimer(b));
    }
  }

  /** From any state the timers alone can empty the map. */
  lemma {:induction false} TimersEmptyTheMap(s: State) returns (acts: seq<Action>)
    requires Inv(s)
    ensures CanRun(s, acts) && Overtaken(s, Run(s, acts))
    decreases |s.batches|
  {
    hide Inv, FireStep, TakeStep, CanFire, CanTake, Enabled, Step;
    if s.batches == map[] {
      acts := [];
      assert CanRun(s, []) && Run(s, []) == s;
    } else {
      assert s.batches.Keys != {};
      var biz := Pick(s.batches.Keys);
      MapShrinks(s.batches, biz);
      var armed, t := TimerOf(s, biz);
      if armed {
        var b := s.batches[biz];
        FireQuietly(s, b, t);
        var s1 := FireStep(s, b, t);
        Performs(s, Fire(b, t));
        TakeQuietly(s1, t);
        Performs(s1, Take(t));
        var rest := TimersEmptyTheMap(TakeStep(s1, t));
        acts := [Fire(b, t)] + ([Take(t)] + rest);
        RunFirst(s1, Take(t), rest);
        RunFirst(s, Fire(b, t), [Take(t)] + rest);
      } else {
        TakeQuietly(s, t);
        Performs(s, Take(t));
        var rest := TimersEmptyTheMap(TakeStep(s, t));
        acts := [Take(t)] + rest;
        RunFirst(s, Take(t), rest);
      }
    }
  }

  /** The step functions behind the actions used here. */
  lemma Performs(s: State, a: Action)
    requires Inv(s)
    requires match a
             case Fire(b, t) => CanFire(s, b, t)
             case Take(t) => CanTake(s, t)
             case Stop(sid) => CanStop(s, sid)
             case Spawn(sid, biz, t) => CanSpawn(s, sid, biz, t)
             case Close(sid) => CanClose(s, sid)
             case _ => false
    ensures Enabled(s, a) && Inv(Step(s, a))
    ensures match a
            case Fire(b, t) => CanFire(s, b, t) && Step(s, a) == FireStep(s, b, t)
            case Take(t) => CanTake(s, t) && Step(s, a) == TakeStep(s, t)
            case Stop(sid) => Step(s, a) == StopStep(s, sid)
            case Spawn(sid, biz, t) => CanSpawn(s, sid, biz, t) && Step(s, a) == SpawnStep(s, sid, biz, t)
            case Close(sid) => Step(s, a) == CloseStep(s, sid)
            case _ => true
  {
    hide Inv, FireStep, TakeStep, StopStep, SpawnStep, CloseStep, CanFire, CanTake, CanStop, CanSpawn, CanClose;
    StepKeeps(s, a);
  }

  lemma RunFirst(s: State, a: Action, rest: seq<Action>)
    requires Enabled(s, a) && CanRun(Step(s, a), rest)
    ensures CanRun(s, [a] + rest) && Run(s, [a] + rest) == Run(Step(s, a), rest)
  {
    hide Enabled, Step;
    var acts := [a] + rest;
    assert acts[0] == a && acts[1..] == rest;
  }

  /** Stop's call sid drains an empty map, and the goroutines it has started so far are done. */
  ghost predicate DrainsNothing(s: State, sid: nat) {
    && s.batches == map[] && sid in s.stops && s.stops[sid].Draining?
    && AllDone(s.stops[sid].spawned, s.triggers, s.heap)
  }

  lemma SpawnFindsNothing(s: State, sid: nat, biz: int, t: nat)
    requires DrainsNothing(s, sid) && CanSpawn(s, sid, biz, t)
    ensures CanTake(SpawnStep(s, sid, biz, t), t)
    ensures var s' := TakeStep(SpawnStep(s, sid, biz, t), t);
            && DrainsNothing(s', sid) && sid in s'.stops && s'.stops[sid].Draining? && s'.stops[sid].todo == s.stops[sid].todo - {biz}
            && s'.sends == s.sends && s'.place == s.place && s'.closes == s.closes
  {
    var s1 := SpawnStep(s, sid, biz, t);
    var s' := TakeStep(s1, t);
    assert s'.heap == s.heap && s'.triggers[t].stage.Idle?;
    assert s'.batches == map[];
  }

  /** When the map is empty Stop's goroutines find nothing, and Stop closes stopCh. */
  lemma {:induction false} StopGoesThrough(s: State, sid: nat) returns (acts: seq<Action>)
    requires Inv(s) && DrainsNothing(s, sid) && sid in s.stops && s.stops[sid].Draining?
    ensures CanRun(s, acts)
    ensures var s' := Run(s, acts); s'.closes == s.closes + 1 && s'.sends == s.sends && s'.place == s.place
    decreases s.stops[sid].todo
  {
    hide Inv, SpawnStep, TakeStep, CloseStep, CanSpawn, CanTake, CanClose, Enabled, Step, DrainsNothing;
    if s.stops[sid].todo == {} {
      CloseQuietly(s, sid);
      Performs(s, Close(sid));
      acts := [Close(sid)] + [];
      RunFirst(s, Close(sid), []);
    } else {
      var biz, t := NextSpawn(s, sid);
      SpawnFindsNothing(s, sid, biz, t);
      var s1 := SpawnStep(s, sid, biz, t);
      Performs(s, Spawn(sid, biz, t));
      Performs(s1, Take(t));
      var rest := StopGoesThrough(TakeStep(s1, t), sid);
      acts := [Spawn(sid, biz, t)] + ([Take(t)] + rest);
      RunFirst(s1, Take(t), rest);
      RunFirst(s, Spawn(sid, biz, t), [Take(t)] + rest);
    }
  }

  lemma NextSpawn(s: State, sid: nat) returns (biz: int, t: nat)
    requires DrainsNothing(s, sid) && sid in s.stops && s.stops[sid].Draining? && s.stops[sid].todo != {}
    ensures CanSpawn(s, sid, biz, t) && biz in s.stops[sid].todo
  {
    biz := Pick(s.stops[sid].todo);
    t := FreshId(s.triggers.Keys);
  }

  lemma CloseQuietly(s: State, sid: nat)
    requires DrainsNothing(s, sid) && s.stops[sid].todo == {}
    ensures CanClose(s, sid)
    ensures var s' := CloseStep(s, sid); s'.closes == s.closes + 1 && s'.sends == s.sends && s'.place == s.place
  {
  }

  lemma {:induction false} RunConcat(s: State, acts: seq<Action>, more: seq<Action>)
    requires CanRun(s, acts) && CanRun(Run(s, acts), more)
    ensures CanRun(s, acts + more) && Run(s, acts + more) == Run(Run(s, acts), more)
    decreases |acts|
  {
    hide Enabled, Step;
    if acts == [] {
      assert [] + more == more;
    } else {
      assert (acts + more)[0] == acts[0] && (acts + more)[1..] == acts[1..] + more;
      RunConcat(Step(s, acts[0]), acts[1..], more);
    }
  }

  lemma OpenBeforeStop(s: State)
    requires Inv(s) && !s.stopped
    ensures s.closes == 0 && forall sid :: sid in s.stops ==> !s.stops[sid].Draining?
  {
    hide MapInv, TakenInv, HeapInv, PartitionInv, PlaceInv, OwnerInv, TakerInv, SendsInv, LivenessInv,
         StopTriggersInv, DrainInv, PlacedClients, RejectedInv, BufferInv;
  }

  lemma StopStarts(s: State, sid: nat)
    requires !s.stopped && CanStop(s, sid)
    ensures var s' := StopStep(s, sid);
            && s'.stops == s.stops[sid := Draining(s.batches.Keys, {})]
            && s'.sends == s.sends && s'.place == s.place && s'.closes == s.closes && s'.stopped
  {
  }

  /** There is always a run in which every timer overtakes Stop's goroutines, and stopCh is closed with no request
      answered that was not answered when Stop was called. */
  lemma StopCanBeOvertaken(s: State) returns (acts: seq<Action>)
    requires Inv(s) && !s.stopped
    ensures CanRun(s, acts) && acts != [] && acts[0].Stop?
    ensures var s' := Run(s, acts); s'.closes == 1 && s'.sends == s.sends && s'.place == s.place
  {
    hide Inv, StopStep, Enabled, Step, CanRun, Run;
    var sid := FreshId(s.stops.Keys);
    assert CanStop(s, sid);
    OpenBeforeStop(s);
    StopStarts(s, sid);
    Performs(s, Stop(sid));
    var s1 := StopStep(s, sid);
    var empty := TimersEmptyTheMap(s1);
    var s2 := Run(s1, empty);
    assert DrainsNothing(s2, sid);
    var rest := StopGoesThrough(s2, sid);
    RunConcat(s1, empty, rest);
    acts := [Stop(sid)] + (empty + rest);
    RunFirst(s, Stop(sid), empty + rest);
  }

  // ----- the exact condition

  lemma StopWaitsIff(s: State)
    requires Inv(s) && !s.stopped
    ensures StopWaits(s) <==> AllSent(s)
  {
    hide Inv;
    if AllSent(s) {
      forall more: seq<Action> | CanRun(s, more) && more != [] && more[0].Stop? ensures AllSent(Run(s, more)) {
        assert Step(s, more[0]).place == s.place && Step(s, more[0]).sends == s.sends;
        StoppedRun(Step(s, more[0]), more[1..]);
      }
    }
    if StopWaits(s) {
      var more := StopCanBeOvertaken(s);
      assert AllSent(Run(s, more));
    }
  }

  /** The condition in terms of the coordinator itself: the map is empty and every goroutine that took a batch has
      handed out all its results. */
  lemma AllSentIff(s: State)
    requires Inv(s)
    ensures AllSent(s)
       <==> s.batches == map[] && forall t :: t in s.triggers && HasBatch(s.triggers[t]) ==> Done(s.triggers[t], s.heap)
  {
    hide Inv, Sent, HasBatch, Done;
    if AllSent(s) {
      forall biz ensures biz !in s.batches {
        if biz in s.batches {
          var r := WaitingInMap(s, biz);
        }
      }
      forall t | t in s.triggers && HasBatch(s.triggers[t]) ensures Done(s.triggers[t], s.heap) {
        if !Done(s.triggers[t], s.heap) {
          var r := WaitingIn(s, t);
          StillUnsent(s, r, t);
        }
      }
    }
    if s.batches == map[] && forall t :: t in s.triggers && HasBatch(s.triggers[t]) ==> Done(s.triggers[t], s.heap) {
      forall r | r in s.place ensures Sent(s, r) {
        var t := TakerOf(s, r);
        DoneIsSent(s, r, t);
      }
    }
  }

  lemma WaitingInMap(s: State, biz: int) returns (r: Request)
    requires Inv(s) && biz in s.batches
    ensures r in s.place && !Sent(s, r)
  {
    hide TakenInv, HeapInv, PartitionInv, OwnerInv, TakerInv, LivenessInv, SendsInv, CloseInv, StopTriggersInv, DrainInv,
         PlacedClients, RejectedInv, BufferInv;
    r := s.heap[s.batches[biz]].requests[0];
    assert s.place[r] == Place(s.batches[biz], 0);
    RankOf(s, r);
  }

  lemma StillUnsent(s: State, r: Request, t: nat)
    requires Inv(s) && r in s.place && s.place[r].bid in s.heap && s.heap[s.place[r].bid].taker == Some(t)
    requires t in s.triggers && HasBatch(s.triggers[t])
    requires s.triggers[t].stage.Scattering? ==> s.triggers[t].stage.next <= s.place[r].index
    ensures !Sent(s, r)
  {
    RankOf(s, r);
    hide Inv;
  }

  lemma TakerOf(s: State, r: Request) returns (t: nat)
    requires Inv(s) && s.batches == map[] && r in s.place
    ensures s.place[r].bid in s.heap && s.heap[s.place[r].bid].taker == Some(t) && t in s.triggers
    ensures HasBatch(s.triggers[t]) && s.triggers[t].stage.bid == s.place[r].bid
    ensures s.place[r].index < |s.heap[s.place[r].bid].requests|
  {
    hide MapInv, TakenInv, PartitionInv, PlaceInv, OwnerInv, LivenessInv, SendsInv, CloseInv, StopTriggersInv, DrainInv,
         PlacedClients, RejectedInv, BufferInv;
    PlacedInBatch(s, r);
    t := s.heap[s.place[r].bid].taker.value;
    TakerAt(s.triggers, s.heap, s.place[r].bid, t);
  }

  lemma DoneIsSent(s: State, r: Request, t: nat)
    requires Inv(s) && r in s.place && s.place[r].bid in s.heap && s.heap[s.place[r].bid].taker == Some(t)
    requires t in s.triggers && HasBatch(s.triggers[t]) && s.triggers[t].stage.bid == s.place[r].bid
    requires s.place[r].index < |s.heap[s.place[r].bid].requests| && Done(s.triggers[t], s.heap)
    ensures Sent(s, r)
  {
    RankOf(s, r);
    hide Inv;
  }

  /** Stop is sure to find every accepted request answered when it closes stopCh if and only if they are all answered
      when it is called, that is, if the map is empty and no goroutine is still working on a batch: from any other
      reachable state there is a schedule in which it wakes the waiters too early. */
  lemma GracefulIff(batchSize: int, acts: seq<Action>)
    requires CanRun(Init(batchSize), acts) && !Run(Init(batchSize), acts).stopped
    ensures var s := Run(Init(batchSize), acts);
            && (StopWaits(s) <==> AllSent(s))
            && (AllSent(s) <==> s.batches == map[] && forall t ::
                  t in s.triggers && HasBatch(s.triggers[t]) ==> Done(s.triggers[t], s.heap))
  {
    Reachable(batchSize, acts);
    hide Inv, AllSent, StopWaits, HasBatch, Done, CanRun, Run;
    StopWaitsIff(Run(Init(batchSize), acts));
    AllSentIff(Run(Init(batchSize), acts));
  }
}
