/** No accepted request is lost, and what a shutdown does and does not wait for. */
module CoordinatorProgress {
  import opened Common
  import opened CoordinatorModel
  import opened CoordinatorProofs
  import opened CoordinatorTheorems

  // ----- no lost request

  /** How many steps, at most, separate r from its result if the goroutines of its batch run undisturbed. */
  ghost function Rank(s: State, r: Request): nat
    requires r in s.place && s.place[r].bid in s.heap
  {
    var p := s.place[r];
    var n := |s.heap[p.bid].requests|;
    match s.heap[p.bid].taker
    case None => if s.heap[p.bid].timer.Armed? then n + 4 else n + 3
    case Some(t) =>
      if t !in s.triggers then 0
      else match s.triggers[t].stage
           case Holding(_) => n + 2
           case Processing(_) => n + 1
           case Scattering(_, _, next) => if next > p.index then 0 else p.index + 1 - next
           case _ => 0
  }

  lemma RankZero(s: State, r: Request)
    requires PlaceInv(s.heap, s.place) && TakerInv(s.triggers, s.heap)
    requires SendsInv(s.sends, s.place, s.heap, s.triggers) && r in s.place
    ensures Rank(s, r) == 0 <==> At(s.sends, r) != []
    ensures Rank(s, r) <= |s.heap[s.place[r].bid].requests| + 4
  {
    assert At(s.sends, r) == Expected(s.heap, s.triggers, s.place[r]);
  }

  /** The step that brings r closer to its result. */
  ghost predicate Advances(s: State, r: Request, a: Action) {
    && r in s.place && s.place[r].bid in s.heap && Enabled(s, a)
    && r in Step(s, a).place && s.place[r].bid in Step(s, a).heap && Step(s, a).place[r] == s.place[r]
    && Rank(Step(s, a), r) < Rank(s, r)
    && Step(s, a).clients == s.clients
  }

  lemma AdvancesBy(s: State, r: Request, a: Action)
    requires Advances(s, r, a)
    ensures r in s.place && s.place[r].bid in s.heap && Enabled(s, a)
    ensures var s' := Step(s, a);
            r in s'.place && s'.place[r].bid in s'.heap && Rank(s', r) < Rank(s, r) && s'.clients == s.clients
  {
    hide Step, Enabled, Rank;
  }

  lemma FireAdvances(s: State, r: Request, b: nat, t: nat)
    requires r in s.place && s.place[r].bid == b && CanFire(s, b, t) && s.heap[b].taker == None
    ensures Advances(s, r, Fire(b, t))
  {
  }

  lemma TakeAdvances(s: State, r: Request, b: nat, t: nat)
    requires r in s.place && s.place[r].bid == b && CanTake(s, t)
    requires s.triggers[t].biz in s.batches && s.batches[s.triggers[t].biz] == b && b in s.heap
    requires s.heap[b].taker == None
    ensures Advances(s, r, Take(t))
  {
    TakeFinds(s, TakeStep(s, t), t, s.triggers[t].biz);
  }

  lemma BeginAdvances(s: State, r: Request, b: nat, t: nat)
    requires Inv(s) && r in s.place && s.place[r].bid == b && CanBegin(s, t) && s.triggers[t].stage.bid == b
    requires s.heap[b].taker == Some(t)
    ensures Advances(s, r, Begin(t))
  {
    hide Inv;
    BeginCloses(s, t);
  }

  lemma ReplyAdvances(s: State, r: Request, b: nat, t: nat, o: Outcome)
    requires r in s.place && s.place[r].bid == b && CanReply(s, t) && s.triggers[t].stage.bid == b && b in s.heap
    requires s.heap[b].taker == Some(t) && s.place[r].index < |s.heap[b].requests|
    ensures Advances(s, r, Reply(t, o))
  {
  }

  lemma ScatterAdvances(s: State, r: Request, b: nat, t: nat)
    requires r in s.place && s.place[r].bid == b && b in s.heap && s.heap[b].taker == Some(t)
    requires t in s.triggers && s.triggers[t].stage.Scattering? && s.triggers[t].stage.bid == b
    requires s.triggers[t].stage.next <= s.place[r].index < |s.heap[b].requests|
    ensures Advances(s, r, Scatter(t))
  {
    hide ScatterStep;
  }

  /** A request still waiting in the map has an armed timer, or a goroutine about to take its batch. */
  lemma MoveInMap(s: State, r: Request, b: nat) returns (a: Action)
    requires Inv(s) && r in s.place && s.place[r].bid == b && b in s.heap && s.heap[b].taker == None
    ensures Advances(s, r, a)
  {
    hide TakenInv, PartitionInv, PlaceInv, OwnerInv, TakerInv, SendsInv, CloseInv, StopTriggersInv, DrainInv,
         PlacedClients, RejectedInv, BufferInv, Advances;
    var biz := s.heap[b].biz;
    assert biz in s.batches && s.batches[biz] == b;
    hide MapInv, HeapInv;
    if s.heap[b].timer.Armed? {
      var t := FreshId(s.triggers.Keys);
      FireAdvances(s, r, b, t);
      a := Fire(b, t);
    } else {
      var t :| Pends(s.triggers, t, biz, ByTimer(b));
      TakeAdvances(s, r, b, t);
      a := Take(t);
    }
  }

  lemma MoveTaken(s: State, r: Request, b: nat, t: nat, o: Outcome) returns (a: Action)
    requires Inv(s) && r in s.place && s.place[r].bid == b && b in s.heap && s.heap[b].taker == Some(t)
    requires s.place[r].index < |s.heap[b].requests| && Rank(s, r) > 0
    ensures Advances(s, r, a)
  {
    TakerAt(s.triggers, s.heap, b, t);
    hide MapInv, TakenInv, HeapInv, PartitionInv, PlaceInv, OwnerInv, TakerInv, SendsInv, LivenessInv,
         CloseInv, StopTriggersInv, DrainInv, PlacedClients, RejectedInv, BufferInv, Advances;
    match s.triggers[t].stage
    case Holding(_) => BeginAdvances(s, r, b, t); a := Begin(t);
    case Processing(_) => ReplyAdvances(s, r, b, t, o); a := Reply(t, o);
    case Scattering(_, _, _) => ScatterAdvances(s, r, b, t); a := Scatter(t);
  }

  lemma TakerAt(triggers: map<nat, Trigger>, heap: map<nat, Batch>, b: nat, t: nat)
    requires TakerInv(triggers, heap) && b in heap && heap[b].taker == Some(t)
    ensures t in triggers && HasBatch(triggers[t]) && triggers[t].stage.bid == b
  {
  }

  /** In every state the run of the system may reach, some enabled step brings an unanswered request closer. */
  lemma NextMove(s: State, r: Request, o: Outcome) returns (a: Action)
    requires Inv(s) && r in s.place && s.place[r].bid in s.heap && Rank(s, r) > 0
    ensures Advances(s, r, a)
  {
    hide MapInv, TakenInv, HeapInv, PartitionInv, PlaceInv, OwnerInv, TakerInv, SendsInv, LivenessInv,
         CloseInv, StopTriggersInv, DrainInv, PlacedClients, RejectedInv, BufferInv, Advances;
    PlacedAt(s.heap, s.place, s.clients, r);
    match s.heap[s.place[r].bid].taker
    case None => a := MoveInMap(s, r, s.place[r].bid);
    case Some(t) => a := MoveTaken(s, r, s.place[r].bid, t, o);
  }

  lemma RankOf(s: State, r: Request)
    requires Inv(s) && r in s.place
    ensures s.place[r].bid in s.heap
    ensures Rank(s, r) == 0 <==> At(s.sends, r) != []
    ensures Rank(s, r) <= |s.heap[s.place[r].bid].requests| + 4
  {
    hide MapInv, TakenInv, HeapInv, PartitionInv, PlaceInv, OwnerInv, TakerInv, SendsInv, LivenessInv,
         CloseInv, StopTriggersInv, DrainInv, PlacedClients, RejectedInv, BufferInv;
    PlacedAt(s.heap, s.place, s.clients, r);
    RankZero(s, r);
  }

  /** From any state that satisfies the invariant, a continuation no longer than the request's rank deposits its
      result, whatever the processor answers. */
  lemma {:induction false} Serve(s: State, r: Request, o: Outcome) returns (acts: seq<Action>)
    requires Inv(s) && r in s.place && s.place[r].bid in s.heap
    ensures CanRun(s, acts) && At(Run(s, acts).sends, r) != []
    ensures |acts| <= Rank(s, r) && Run(s, acts).clients == s.clients
    decreases Rank(s, r)
  {
    RankOf(s, r);
    if Rank(s, r) == 0 {
      acts := [];
    } else {
      hide Inv, Step, Enabled, Rank, Advances;
      var a := NextMove(s, r, o);
      AdvancesBy(s, r, a);
      StepKeeps(s, a);
      var rest := Serve(Step(s, a), r, o);
      acts := [a] + rest;
      assert acts[0] == a && acts[1..] == rest;
    }
  }

  /** No accepted request is ever lost: whatever has happened so far, its result can still be deposited. */
  lemma AcceptedIsNeverLost(batchSize: int, acts: seq<Action>, r: Request, o: Outcome) returns (more: seq<Action>)
    requires CanRun(Init(batchSize), acts) && r in Run(Init(batchSize), acts).place
    ensures CanRun(Run(Init(batchSize), acts), more)
    ensures At(Run(Run(Init(batchSize), acts), more).sends, r) != []
  {
    Reachable(batchSize, acts);
    var s := Run(Init(batchSize), acts);
    RankOf(s, r);
    hide Inv, Rank;
    more := Serve(s, r, o);
  }

  lemma WaitingCanReceive(s: State, r: Request)
    requires Inv(s) && r in s.clients && s.clients[r] == Waiting && At(s.sends, r) != []
    ensures Enabled(s, Receive(r))
    ensures var s' := Step(s, Receive(r));
            r in s'.clients && s'.clients[r] == Returned(At(s.sends, r)[0]) && s'.sends == s.sends && r !in s'.buffers
  {
    hide MapInv, TakenInv, HeapInv, PartitionInv, PlaceInv, OwnerInv, TakerInv, SendsInv, LivenessInv,
         CloseInv, StopTriggersInv, DrainInv, PlacedClients, RejectedInv;
    assert r in s.buffers;
    assert At(s.sends, r) == [s.buffers[r]];
  }

  lemma RejectedIsSent(s: State, r: Request)
    requires Inv(s) && r in s.clients && s.clients[r] == Waiting && r !in s.place
    ensures At(s.sends, r) == [Failure(CoordinatorStopped)]
  {
    hide MapInv, TakenInv, HeapInv, PartitionInv, PlaceInv, OwnerInv, TakerInv, SendsInv, LivenessInv,
         CloseInv, StopTriggersInv, DrainInv, PlacedClients, BufferInv;
  }

  /** No caller waits for ever: whatever has happened so far, it can still return, with the one result sent to it. */
  lemma WaitingCallerReturns(batchSize: int, acts: seq<Action>, r: Request, o: Outcome) returns (more: seq<Action>)
    requires CanRun(Init(batchSize), acts)
    requires var s := Run(Init(batchSize), acts); r in s.clients && s.clients[r] == Waiting
    ensures CanRun(Run(Init(batchSize), acts), more)
    ensures var s' := Run(Run(Init(batchSize), acts), more);
            r in s'.clients && s'.clients[r].Returned? && At(s'.sends, r) == [s'.clients[r].result] && r !in s'.buffers
  {
    Reachable(batchSize, acts);
    var s := Run(Init(batchSize), acts);
    hide Inv, CanRun, Run, Step, Enabled, Init;
    var served := ServeWaiting(s, r, o);
    more := ReceiveAfter(s, served, r);
  }

  lemma ServeWaiting(s: State, r: Request, o: Outcome) returns (acts: seq<Action>)
    requires Inv(s) && r in s.clients && s.clients[r] == Waiting
    ensures CanRun(s, acts) && Inv(Run(s, acts)) && Run(s, acts).clients == s.clients && At(Run(s, acts).sends, r) != []
  {
    hide Inv, Rank, Step, Enabled;
    acts := [];
    if r in s.place {
      RankOf(s, r);
      acts := Serve(s, r, o);
    } else {
      RejectedIsSent(s, r);
    }
    RunKeeps(s, acts);
  }

  lemma ReceiveAfter(s: State, acts: seq<Action>, r: Request) returns (more: seq<Action>)
    requires CanRun(s, acts) && Inv(Run(s, acts)) && r in Run(s, acts).clients && Run(s, acts).clients[r] == Waiting
    requires At(Run(s, acts).sends, r) != []
    ensures more == acts + [Receive(r)] && CanRun(s, more)
    ensures var s' := Run(s, more);
            r in s'.clients && s'.clients[r].Returned? && At(s'.sends, r) == [s'.clients[r].result] && r !in s'.buffers
  {
    hide Inv, Step, Enabled, CanRun, Run;
    WaitingCanReceive(Run(s, acts), r);
    RunAppend(s, acts, Receive(r));
    SentOnce(Run(s, acts), r);
    more := acts + [Receive(r)];
  }

  lemma SentOnce(s: State, r: Request)
    requires Inv(s)
    ensures |At(s.sends, r)| <= 1
  {
    hide MapInv, TakenInv, HeapInv, PartitionInv, PlaceInv, OwnerInv, TakerInv, SendsInv, LivenessInv,
         CloseInv, StopTriggersInv, DrainInv, PlacedClients, RejectedInv, BufferInv;
    SendsAt(s, r);
  }

  /** A caller that was told the coordinator has stopped although nothing of the kind was sent to it saw stopCh closed. */
  ghost predicate AbandonedInv(s: State) {
    forall r :: r in s.clients && s.clients[r] == Returned(Failure(CoordinatorStopped)) ==>
      At(s.sends, r) == [Failure(CoordinatorStopped)] || s.closes > 0
  }

  lemma StepAbandoned(s: State, a: Action)
    requires AbandonedInv(s) && BufferInv(s.buffers, s.sends, s.clients) && Enabled(s, a)
    requires a.Scatter? ==> At(s.sends, s.heap[s.triggers[a.tid].stage.bid].requests[s.triggers[a.tid].stage.next]) == []
    requires a.Add? ==> At(s.sends, a.r) == []
    ensures AbandonedInv(Step(s, a))
  {
    hide AcceptStep;
    match a
    case Receive(r) => assert At(s.sends, r) == [s.buffers[r]];
    case Scatter(tid) => hide BufferInv;
    case _ => hide BufferInv;
  }

  lemma {:induction false} RunAbandoned(s: State, acts: seq<Action>)
    requires Inv(s) && AbandonedInv(s) && CanRun(s, acts)
    ensures AbandonedInv(Run(s, acts))
    decreases |acts|
  {
    hide AbandonedInv, Inv, Step, Enabled;
    if acts != [] {
      NothingSentYet(s, acts[0]);
      StepAbandoned(s, acts[0]);
      StepKeeps(s, acts[0]);
      RunAbandoned(Step(s, acts[0]), acts[1..]);
    }
  }

  lemma NothingSentYet(s: State, a: Action)
    requires Inv(s) && Enabled(s, a)
    ensures BufferInv(s.buffers, s.sends, s.clients)
    ensures a.Scatter? ==>
              && CanScatter(s, a.tid)
              && At(s.sends, s.heap[s.triggers[a.tid].stage.bid].requests[s.triggers[a.tid].stage.next]) == []
    ensures a.Add? ==> At(s.sends, a.r) == []
  {
    hide MapInv, TakenInv, HeapInv, PartitionInv, PlaceInv, OwnerInv, TakerInv, SendsInv, LivenessInv,
         CloseInv, StopTriggersInv, DrainInv, PlacedClients, RejectedInv, BufferInv;
    match a
    case Scatter(tid) => NextChannelIsFresh(s, tid);
    case Add(r, _, _) => CheckedIsClean(s, r);
    case _ =>
  }

  /** Stop abandons nobody before it has closed stopCh: until then a caller that has returned was sent exactly what it
      was told, be it an answer, an error of the processor, or, under the lock, that the coordinator has stopped. */
  lemma NobodyAbandonedBeforeClose(batchSize: int, acts: seq<Action>, r: Request)
    requires CanRun(Init(batchSize), acts)
    requires var s := Run(Init(batchSize), acts); s.closes == 0 && r in s.clients && s.clients[r].Returned?
    ensures var s := Run(Init(batchSize), acts); At(s.sends, r) == [s.clients[r].result]
  {
    InitInv(batchSize);
    assert AbandonedInv(Init(batchSize));
    Reachable(batchSize, acts);
    hide MapInv, TakenInv, HeapInv, PartitionInv, PlaceInv, OwnerInv, TakerInv, SendsInv, LivenessInv,
         CloseInv, StopTriggersInv, DrainInv, PlacedClients, RejectedInv;
    RunAbandoned(Init(batchSize), acts);
  }

  /** Every batch in the map is open, untaken and non-empty; its own timer is armed or has fired and its goroutine is
      about to look; and once it is full a goroutine started for its size is, too. */
  lemma WaitingBatchWillBeTaken(batchSize: int, acts: seq<Action>, biz: int)
    requires CanRun(Init(batchSize), acts) && biz in Run(Init(batchSize), acts).batches
    ensures var s := Run(Init(batchSize), acts);
            var b := s.batches[biz];
            && b in s.heap && s.heap[b].requests != [] && !s.heap[b].closed && s.heap[b].taker == None
            && (s.heap[b].timer.Armed? || exists t :: Pends(s.triggers, t, biz, ByTimer(b)))
            && (|s.heap[b].requests| >= batchSize ==> exists t :: Pends(s.triggers, t, biz, BySize))
  {
    Reachable(batchSize, acts);
    RunKeepsSize(Init(batchSize), acts);
    hide TakenInv, HeapInv, PartitionInv, PlaceInv, OwnerInv, TakerInv, SendsInv, CloseInv, StopTriggersInv, DrainInv,
         PlacedClients, RejectedInv, BufferInv, CanRun, Run;
  }

  lemma {:induction false} RunKeepsSize(s: State, acts: seq<Action>)
    requires CanRun(s, acts)
    ensures Run(s, acts).batchSize == s.batchSize
    decreases |acts|
  {
    if acts != [] {
      StepKeepsSize(s, acts[0]);
      hide Step, Enabled;
      RunKeepsSize(Step(s, acts[0]), acts[1..]);
    }
  }

  lemma StepKeepsSize(s: State, a: Action)
    requires Enabled(s, a)
    ensures Step(s, a).batchSize == s.batchSize
  {
  }

  // ----- shutdown

  /** At most one close of stopCh over any number of Stop calls, and the reset at line 330 discards no batch. */
  lemma StopClosesOnceAndLosesNothing(batchSize: int, acts: seq<Action>)
    requires CanRun(Init(batchSize), acts)
    ensures var s := Run(Init(batchSize), acts);
            && s.closes <= 1 && s.discarded == 0
            && (s.closes == 1 ==> s.stopped && s.batches == map[])
  {
    Reachable(batchSize, acts);
    hide MapInv, TakenInv, HeapInv, PartitionInv, PlaceInv, OwnerInv, TakerInv, SendsInv, LivenessInv,
         StopTriggersInv, DrainInv, PlacedClients, RejectedInv, BufferInv;
  }

  ghost predicate Sent(s: State, r: Request) {
    At(s.sends, r) != []
  }

  /** After the close every batch is taken, and the goroutines Stop started have finished theirs. */
  lemma TakenAtClose(s: State, b: nat)
    requires Inv(s) && s.closes == 1 && b in s.heap
    ensures s.heap[b].taker.Some? && s.heap[b].taker.value in s.triggers && s.heap[b].requests != []
    ensures HasBatch(s.triggers[s.heap[b].taker.value]) && s.triggers[s.heap[b].taker.value].stage.bid == b
    ensures s.triggers[s.heap[b].taker.value].origin.ByStop? ==> Done(s.triggers[s.heap[b].taker.value], s.heap)
  {
    hide MapInv, TakenInv, PartitionInv, PlaceInv, OwnerInv, SendsInv, LivenessInv,
         DrainInv, PlacedClients, RejectedInv, BufferInv;
    assert s.batches == map[];
    assert s.heap[b].taker.Some?;
    hide HeapInv;
    assert forall sid :: sid in s.stops ==> !s.stops[sid].Draining?;
    hide CloseInv;
  }

  lemma UnansweredIff(s: State, r: Request)
    requires Inv(s) && s.closes == 1 && r in s.place
    ensures s.place[r].bid in s.heap && s.heap[s.place[r].bid].taker.Some?
    ensures s.heap[s.place[r].bid].taker.value in s.triggers
    ensures var t := s.triggers[s.heap[s.place[r].bid].taker.value];
            !Sent(s, r) <==>
              && !t.origin.ByStop?
              && !(t.stage.Scattering? && t.stage.next > s.place[r].index)
  {
    hide MapInv, TakenInv, HeapInv, PartitionInv, PlaceInv, OwnerInv, TakerInv, SendsInv, LivenessInv,
         CloseInv, StopTriggersInv, DrainInv, PlacedClients, RejectedInv, BufferInv;
    PlacedAt(s.heap, s.place, s.clients, r);
    TakenAtClose(s, s.place[r].bid);
    RankOf(s, r);
  }

  lemma FinishedIff(s: State)
    requires Inv(s) && s.closes == 1
    ensures (forall r :: r in s.place ==> Sent(s, r))
       <==> (forall t :: t in s.triggers && HasBatch(s.triggers[t]) && !s.triggers[t].origin.ByStop?
                         ==> Done(s.triggers[t], s.heap))
  {
    hide Inv, Sent;
    if forall r :: r in s.place ==> Sent(s, r) {
      forall t | t in s.triggers && HasBatch(s.triggers[t]) && !s.triggers[t].origin.ByStop?
        ensures Done(s.triggers[t], s.heap)
      {
        if !Done(s.triggers[t], s.heap) {
          var r := WaitingIn(s, t);
          UnansweredIff(s, r);
        }
      }
    }
    if forall t :: t in s.triggers && HasBatch(s.triggers[t]) && !s.triggers[t].origin.ByStop?
                   ==> Done(s.triggers[t], s.heap) {
      forall r | r in s.place ensures Sent(s, r) {
        UnansweredIff(s, r);
        TakenAtClose(s, s.place[r].bid);
        PlacedInBatch(s, r);
      }
    }
  }

  /** When stopCh has been closed, a request of any run is still without its result exactly when the goroutine that took
      its batch was started by a timer or a size trigger and has not come to it: Stop's own triggers are done. */
  lemma UnansweredAtClose(batchSize: int, acts: seq<Action>, r: Request)
    requires CanRun(Init(batchSize), acts)
    requires var s := Run(Init(batchSize), acts); s.closes == 1 && r in s.place
    ensures var s := Run(Init(batchSize), acts);
            && s.place[r].bid in s.heap && s.heap[s.place[r].bid].taker.Some?
            && s.heap[s.place[r].bid].taker.value in s.triggers
            && var t := s.triggers[s.heap[s.place[r].bid].taker.value];
               !Sent(s, r) <==> !t.origin.ByStop? && !(t.stage.Scattering? && t.stage.next > s.place[r].index)
  {
    Reachable(batchSize, acts);
    hide Inv, CanRun, Run, Init, Sent;
    UnansweredIff(Run(Init(batchSize), acts), r);
  }

  /** At the close: every accepted request has its result exactly when no goroutine of a timer or a size trigger is
      still working on a batch. */
  lemma AllAnsweredAtCloseIff(batchSize: int, acts: seq<Action>)
    requires CanRun(Init(batchSize), acts) && Run(Init(batchSize), acts).closes == 1
    ensures var s := Run(Init(batchSize), acts);
            (forall r :: r in s.place ==> Sent(s, r))
            <==> (forall t :: t in s.triggers && HasBatch(s.triggers[t]) && !s.triggers[t].origin.ByStop?
                              ==> Done(s.triggers[t], s.heap))
  {
    Reachable(batchSize, acts);
    hide Inv, CanRun, Run, Init, Sent, HasBatch, Done;
    FinishedIff(Run(Init(batchSize), acts));
  }

  lemma PlacedInBatch(s: State, r: Request)
    requires Inv(s) && r in s.place
    ensures s.place[r].bid in s.heap && s.place[r].index < |s.heap[s.place[r].bid].requests|
  {
    hide MapInv, TakenInv, HeapInv, PartitionInv, PlaceInv, OwnerInv, TakerInv, SendsInv, LivenessInv,
         CloseInv, StopTriggersInv, DrainInv, PlacedClients, RejectedInv, BufferInv;
    PlacedAt(s.heap, s.place, s.clients, r);
  }

  /** An unfinished goroutine has a next request to serve. */
  lemma WaitingIn(s: State, t: nat) returns (r: Request)
    requires Inv(s) && t in s.triggers && HasBatch(s.triggers[t]) && !Done(s.triggers[t], s.heap)
    ensures r in s.place && s.place[r].bid == s.triggers[t].stage.bid && s.place[r].bid in s.heap
    ensures s.heap[s.place[r].bid].taker == Some(t)
    ensures s.triggers[t].stage.Scattering? ==> s.triggers[t].stage.next <= s.place[r].index
  {
    hide MapInv, TakenInv, HeapInv, PartitionInv, OwnerInv, TakerInv, SendsInv, LivenessInv,
         CloseInv, StopTriggersInv, DrainInv, PlacedClients, RejectedInv, BufferInv;
    OwnerAt(s.triggers, s.heap, t);
    var b := s.triggers[t].stage.bid;
    NonEmptyAt(s.heap, s.batches, s.taken, b);
    var i := if s.triggers[t].stage.Scattering? then s.triggers[t].stage.next else 0;
    r := s.heap[b].requests[i];
  }

  ghost function LoneBatch(r: Request, closed: bool, timer: TimerState, taker: Option<nat>): map<nat, Batch> {
    map[0 := Batch(r.biz, [r], closed, timer, taker)]
  }

  ghost function LoneTrigger(r: Request, stage: Stage): map<nat, Trigger> {
    map[1 := Trigger(r.biz, ByTimer(0), stage)]
  }

  /** The state in which one request's batch is inside the processor, reached in five steps. */
  ghost function InProcessor(r: Request): State {
    State(2, map[], LoneBatch(r, true, Fired, Some(1)), LoneTrigger(r, Processing(0)), false, 0, map[],
          map[r := Waiting], map[], map[r.biz := [r]], map[r.biz := [0]], map[r := Place(0, 0)], map[], 0, 0)
  }

  ghost function Asked(r: Request): State {
    Init(2).(clients := map[r := Checked])
  }

  ghost function InMap(r: Request, timer: TimerState): State {
    Init(2).(clients := map[r := Waiting], batches := map[r.biz := 0], heap := LoneBatch(r, false, timer, None),
             accepted := map[r.biz := [r]], place := map[r := Place(0, 0)])
  }

  lemma LoneAdd(r: Request)
    ensures CanAdd(Asked(r), r, 0, 0) && AddStep(Asked(r), r, 0, 0) == InMap(r, Armed)
  {
    assert At<int, Request>(map[], r.biz) + [r] == [r];
  }

  ghost function TimedOut(r: Request): State {
    InMap(r, Fired).(triggers := LoneTrigger(r, Pending))
  }

  ghost function Detached(r: Request): State {
    InMap(r, Fired).(batches := map[], heap := LoneBatch(r, false, Fired, Some(1)), taken := map[r.biz := [0]],
                     triggers := LoneTrigger(r, Holding(0)))
  }

  lemma LoneFire(r: Request)
    ensures CanFire(InMap(r, Armed), 0, 1) && FireStep(InMap(r, Armed), 0, 1) == TimedOut(r)
  {
  }

  lemma LoneTake(r: Request)
    ensures CanTake(TimedOut(r), 1) && TakeStep(TimedOut(r), 1) == Detached(r)
  {
    assert TimedOut(r).batches - {r.biz} == map[];
    assert At<int, nat>(map[], r.biz) + [0] == [0];
  }

  lemma LoneBegin(r: Request)
    ensures CanBegin(Detached(r), 1) && BeginStep(Detached(r), 1) == InProcessor(r)
  {
  }

  lemma ReachesProcessor(r: Request)
    ensures var acts := [Check(r), Add(r, 0, 0), Fire(0, 1), Take(1), Begin(1)];
            CanRun(Init(2), acts) && Run(Init(2), acts) == InProcessor(r)
  {
    LoneAdd(r); LoneFire(r); LoneTake(r); LoneBegin(r);
    hide AddStep, FireStep, TakeStep, BeginStep, CanAdd, CanFire, CanTake, CanBegin,
         InProcessor, LoneBatch, LoneTrigger, InMap, TimedOut, Detached;
    RunOfTrace(Init(2), [Check(r), Add(r, 0, 0), Fire(0, 1), Take(1), Begin(1)],
               [Init(2), Asked(r), InMap(r, Armed), TimedOut(r), Detached(r), InProcessor(r)]);
  }

  ghost function Closed(r: Request): State {
    InProcessor(r).(stopped := true, closes := 1, stops := map[0 := StopReturned])
  }

  ghost function Stopping(r: Request): State {
    InProcessor(r).(stopped := true, stops := map[0 := Draining({}, {})])
  }

  lemma LoneStop(r: Request)
    ensures CanStop(InProcessor(r), 0) && StopStep(InProcessor(r), 0) == Stopping(r)
    ensures CanClose(Stopping(r), 0) && CloseStep(Stopping(r), 0) == Closed(r)
  {
    assert InProcessor(r).batches.Keys == {};
  }

  ghost function Told(r: Request): State {
    Closed(r).(clients := map[r := Returned(Failure(CoordinatorStopped))])
  }

  ghost function Replied(r: Request): State {
    Told(r).(triggers := LoneTrigger(r, Scattering(0, Responses(["done"]), 0)))
  }

  ghost function AnsweredLate(r: Request): State {
    Told(r).(triggers := LoneTrigger(r, Scattering(0, Responses(["done"]), 1)),
             sends := map[r := [Answer("done")]], buffers := map[r := Answer("done")])
  }

  lemma LateReply(r: Request)
    ensures CanObserve(Closed(r), r) && ObserveStep(Closed(r), r) == Told(r)
    ensures CanReply(Told(r), 1) && ReplyStep(Told(r), 1, Responses(["done"])) == Replied(r)
  {
  }

  lemma LateScatter(r: Request)
    ensures CanScatter(Replied(r), 1) && ScatterStep(Replied(r), 1) == AnsweredLate(r)
  {
    assert At<Request, Result>(map[], r) + [Answer("done")] == [Answer("done")];
  }

  /** One request in a batch of its own, whose timer has fired and whose goroutine is inside the processor when Stop
      runs: Stop finds the map empty and closes stopCh at once; the caller is told the coordinator has stopped,
      although the answer to its request arrives afterwards. */
  lemma StopMayNotWait(r: Request)
    ensures var acts := [Stop(0), Close(0), Observe(r), Reply(1, Responses(["done"])), Scatter(1)];
            CanRun(InProcessor(r), acts) && Run(InProcessor(r), acts) == AnsweredLate(r)
    ensures AnsweredLate(r).clients == map[r := Returned(Failure(CoordinatorStopped))]
    ensures AnsweredLate(r).sends == map[r := [Answer("done")]]
  {
    LoneStop(r); LateReply(r); LateScatter(r);
    hide StopStep, CloseStep, ObserveStep, ReplyStep, ScatterStep, CanStop, CanClose, CanObserve, CanReply, CanScatter,
         InProcessor, LoneTrigger, Closed, Stopping, Replied;
    RunOfTrace(InProcessor(r), [Stop(0), Close(0), Observe(r), Reply(1, Responses(["done"])), Scatter(1)],
               [InProcessor(r), Stopping(r), Closed(r), Told(r), Replied(r), AnsweredLate(r)]);
  }

  /** A list of states that follow one another under acts is the run of acts. */
  lemma {:induction false} RunOfTrace(s: State, acts: seq<Action>, trace: seq<State>)
    requires |trace| == |acts| + 1 && trace[0] == s
    requires forall i :: 0 <= i < |acts| ==> Enabled(trace[i], acts[i]) && Step(trace[i], acts[i]) == trace[i + 1]
    ensures CanRun(s, acts) && Run(s, acts) == trace[|acts|]
    decreases |acts|
  {
    if acts != [] {
      hide Enabled, Step;
      RunOfTrace(trace[1], acts[1..], trace[1..]);
    }
  }
}
