/** Each step of the coordinator keeps its invariant, one clause family at a time. */
module CoordinatorProofs {
  import opened Common
  import opened CoordinatorModel

  lemma InitInv(batchSize: int)
    ensures Inv(Init(batchSize))
  {
  }

  // ----- steps that move one client

  lemma ClientMoves(place: map<Request, Place>, clients: map<Request, Client>, clients': map<Request, Client>,
                    sends: map<Request, seq<Result>>, r: Request, c: Client)
    requires clients' == clients[r := c]
    requires PlacedClients(place, clients) && RejectedInv(sends, place, clients)
    requires Past(clients, r) == (c.Waiting? || c.Returned?)
    ensures PlacedClients(place, clients') && RejectedInv(sends, place, clients')
  {
    assert forall q :: Past(clients', q) == Past(clients, q);
  }

  lemma CheckKeeps(s: State, r: Request)
    requires Inv(s) && CanCheck(s, r)
    ensures Inv(CheckStep(s, r))
  {
    hide MapInv, TakenInv, HeapInv, PartitionInv, PlaceInv, OwnerInv, TakerInv, SendsInv, LivenessInv,
         CloseInv, StopTriggersInv, DrainInv, PlacedClients, RejectedInv;
    var s' := CheckStep(s, r);
    ClientMoves(s.place, s.clients, s'.clients, s.sends, r, s'.clients[r]);
  }

  lemma ReceiveKeeps(s: State, r: Request)
    requires Inv(s) && CanReceive(s, r)
    ensures Inv(ReceiveStep(s, r))
  {
    hide MapInv, TakenInv, HeapInv, PartitionInv, PlaceInv, OwnerInv, TakerInv, SendsInv, LivenessInv,
         CloseInv, StopTriggersInv, DrainInv, PlacedClients, RejectedInv;
    var s' := ReceiveStep(s, r);
    ClientMoves(s.place, s.clients, s'.clients, s.sends, r, s'.clients[r]);
  }

  lemma ObserveStopKeeps(s: State, r: Request)
    requires Inv(s) && CanObserve(s, r)
    ensures Inv(ObserveStep(s, r))
  {
    hide MapInv, TakenInv, HeapInv, PartitionInv, PlaceInv, OwnerInv, TakerInv, SendsInv, LivenessInv,
         CloseInv, StopTriggersInv, DrainInv, PlacedClients, RejectedInv;
    var s' := ObserveStep(s, r);
    ClientMoves(s.place, s.clients, s'.clients, s.sends, r, s'.clients[r]);
  }

  // ----- frames over the heap of batches

  lemma {:induction false} FlatFrame(heap: map<nat, Batch>, heap': map<nat, Batch>, bids: seq<nat>)
    requires forall i :: 0 <= i < |bids| ==>
      bids[i] in heap && bids[i] in heap' && heap'[bids[i]].requests == heap[bids[i]].requests
    ensures Flat(heap', bids) == Flat(heap, bids)
    decreases |bids|
  {
    if bids != [] {
      FlatFrame(heap, heap', bids[..|bids| - 1]);
    }
  }

  lemma PartitionFrame(heap: map<nat, Batch>, heap': map<nat, Batch>, taken: map<int, seq<nat>>,
                       batches: map<int, nat>, accepted: map<int, seq<Request>>)
    requires TakenInv(taken, heap) && SameRequests(heap, heap')
    requires PartitionInv(heap, taken, batches, accepted)
    ensures PartitionInv(heap', taken, batches, accepted)
  {
    hide Flat, Current, TakenBatches, SameRequests;
    forall biz ensures Flat(heap', At(taken, biz)) + Current(batches, heap', biz) == At(accepted, biz) {
      assert TakenBatches(At(taken, biz), biz, heap);
      SameFlat(heap, heap', At(taken, biz), batches, biz);
      assert Flat(heap, At(taken, biz)) + Current(batches, heap, biz) == At(accepted, biz);
    }
  }

  lemma SameFlat(heap: map<nat, Batch>, heap': map<nat, Batch>, bids: seq<nat>, batches: map<int, nat>, biz: int)
    requires TakenBatches(bids, biz, heap) && SameRequests(heap, heap')
    ensures Flat(heap', bids) == Flat(heap, bids) && Current(batches, heap', biz) == Current(batches, heap, biz)
  {
    FlatFrame(heap, heap', bids);
  }

  lemma PlaceFrame(heap: map<nat, Batch>, heap': map<nat, Batch>, place: map<Request, Place>)
    requires PlaceInv(heap, place) && SameRequests(heap, heap')
    ensures PlaceInv(heap', place)
  {
  }

  // ----- a timer fires

  /** heap' differs from heap only in the timer of batch bid, which fired. */
  ghost predicate OnlyTimerFired(heap: map<nat, Batch>, heap': map<nat, Batch>, bid: nat) {
    bid in heap && heap' == heap[bid := heap[bid].(timer := Fired)]
  }

  lemma FiredBatches(batches: map<int, nat>, heap: map<nat, Batch>, heap': map<nat, Batch>,
                     taken: map<int, seq<nat>>, bid: nat)
    requires MapInv(batches, heap) && TakenInv(taken, heap) && HeapInv(heap, batches, taken)
    requires OnlyTimerFired(heap, heap', bid)
    ensures MapInv(batches, heap') && TakenInv(taken, heap') && HeapInv(heap', batches, taken)
  {
    forall biz ensures TakenBatches(At(taken, biz), biz, heap') {
      assert TakenBatches(At(taken, biz), biz, heap);
    }
  }

  lemma FiredOwners(triggers: map<nat, Trigger>, triggers': map<nat, Trigger>, heap: map<nat, Batch>,
                    heap': map<nat, Batch>, bid: nat, tid: nat, t: Trigger)
    requires OwnerInv(triggers, heap) && TakerInv(triggers, heap)
    requires OnlyTimerFired(heap, heap', bid)
    requires tid !in triggers && triggers' == triggers[tid := t] && t.stage.Pending?
    ensures OwnerInv(triggers', heap') && TakerInv(triggers', heap')
  {
  }

  lemma FiredLiveness(batchSize: int, batches: map<int, nat>, heap: map<nat, Batch>, heap': map<nat, Batch>,
                      triggers: map<nat, Trigger>, triggers': map<nat, Trigger>, bid: nat, tid: nat)
    requires MapInv(batches, heap) && LivenessInv(batchSize, batches, heap, triggers)
    requires OnlyTimerFired(heap, heap', bid)
    requires tid !in triggers && triggers' == triggers[tid := Trigger(heap[bid].biz, ByTimer(bid), Pending)]
    ensures LivenessInv(batchSize, batches, heap', triggers')
  {
    assert forall t, biz, o :: Pends(triggers, t, biz, o) ==> Pends(triggers', t, biz, o);
    assert Pends(triggers', tid, heap[bid].biz, ByTimer(bid));
  }

  /** Starting a goroutine leaves what other goroutines, and the Stop calls waiting for them, rely on. */
  lemma FreshTrigger(stops: map<nat, StopCall>, batches: map<int, nat>, triggers: map<nat, Trigger>,
                     triggers': map<nat, Trigger>, heap: map<nat, Batch>, heap': map<nat, Batch>, tid: nat, t: Trigger)
    requires StopTriggersInv(stops, triggers, heap) && DrainInv(stops, batches, triggers)
    requires SameRequests(heap, heap')
    requires tid !in triggers && triggers' == triggers[tid := t] && !t.origin.ByStop?
    ensures StopTriggersInv(stops, triggers', heap') && DrainInv(stops, batches, triggers')
  {
    assert forall u, biz, o :: Pends(triggers, u, biz, o) ==> Pends(triggers', u, biz, o);
    assert forall u :: u in triggers ==> Done(triggers'[u], heap') == Done(triggers[u], heap);
  }

  lemma FiredSends(sends: map<Request, seq<Result>>, place: map<Request, Place>, heap: map<nat, Batch>,
                   heap': map<nat, Batch>, triggers: map<nat, Trigger>, triggers': map<nat, Trigger>,
                   bid: nat, tid: nat, t: Trigger)
    requires SendsInv(sends, place, heap, triggers) && TakerInv(triggers, heap) && PlaceInv(heap, place)
    requires OnlyTimerFired(heap, heap', bid)
    requires tid !in triggers && triggers' == triggers[tid := t]
    ensures SendsInv(sends, place, heap', triggers')
  {
    forall r | r in place ensures At(sends, r) == Expected(heap', triggers', place[r]) {
      assert Expected(heap', triggers', place[r]) == Expected(heap, triggers, place[r]);
    }
  }

  lemma TimerFiresKeeps(s: State, bid: nat, tid: nat)
    requires Inv(s) && CanFire(s, bid, tid)
    ensures Inv(FireStep(s, bid, tid))
  {
    hide MapInv, TakenInv, HeapInv, PartitionInv, PlaceInv, OwnerInv, TakerInv, SendsInv, LivenessInv,
         CloseInv, StopTriggersInv, DrainInv, PlacedClients, RejectedInv, BufferInv;
    var s' := FireStep(s, bid, tid);
    var t := Trigger(s.heap[bid].biz, ByTimer(bid), Pending);
    PartitionFrame(s.heap, s'.heap, s.taken, s.batches, s.accepted);
    PlaceFrame(s.heap, s'.heap, s.place);
    FiredBatches(s.batches, s.heap, s'.heap, s.taken, bid);
    FiredOwners(s.triggers, s'.triggers, s.heap, s'.heap, bid, tid, t);
    FiredLiveness(s.batchSize, s.batches, s.heap, s'.heap, s.triggers, s'.triggers, bid, tid);
    FreshTrigger(s.stops, s.batches, s.triggers, s'.triggers, s.heap, s'.heap, tid, t);
    FiredSends(s.sends, s.place, s.heap, s'.heap, s.triggers, s'.triggers, bid, tid, t);
  }

  // ----- a request joins its batch

  /** r was appended to the batch of its bizID, which is b: the one in the map, or a new one. */
  ghost predicate Appended(batches: map<int, nat>, batches': map<int, nat>, heap: map<nat, Batch>,
                           heap': map<nat, Batch>, r: Request, b: nat) {
    && batches' == batches[r.biz := b]
    && if r.biz in batches then
         b == batches[r.biz] && b in heap && heap' == heap[b := heap[b].(requests := heap[b].requests + [r])]
       else
         b !in heap && heap' == heap[b := Batch(r.biz, [r], false, Armed, None)]
  }

  lemma AppendedBatches(batches: map<int, nat>, batches': map<int, nat>, heap: map<nat, Batch>,
                        heap': map<nat, Batch>, taken: map<int, seq<nat>>, r: Request, b: nat)
    requires MapInv(batches, heap) && TakenInv(taken, heap) && HeapInv(heap, batches, taken)
    requires Appended(batches, batches', heap, heap', r, b)
    ensures MapInv(batches', heap') && TakenInv(taken, heap') && HeapInv(heap', batches', taken)
  {
    forall biz ensures TakenBatches(At(taken, biz), biz, heap') {
      assert TakenBatches(At(taken, biz), biz, heap);
    }
  }

  lemma AppendedPartition(batches: map<int, nat>, batches': map<int, nat>, heap: map<nat, Batch>,
                          heap': map<nat, Batch>, taken: map<int, seq<nat>>, accepted: map<int, seq<Request>>,
                          accepted': map<int, seq<Request>>, r: Request, b: nat)
    requires MapInv(batches, heap) && TakenInv(taken, heap) && PartitionInv(heap, taken, batches, accepted)
    requires Appended(batches, batches', heap, heap', r, b)
    requires accepted' == accepted[r.biz := At(accepted, r.biz) + [r]]
    ensures PartitionInv(heap', taken, batches', accepted')
  {
    hide MapInv, Appended, Flat, Current, TakenBatches;
    forall biz ensures Flat(heap', At(taken, biz)) + Current(batches', heap', biz) == At(accepted', biz) {
      assert TakenBatches(At(taken, biz), biz, heap);
      AppendedFlat(batches, batches', heap, heap', r, b, biz, At(taken, biz));
      AppendedCurrent(batches, batches', heap, heap', r, b, biz);
      assert Flat(heap, At(taken, biz)) + Current(batches, heap, biz) == At(accepted, biz);
      hide TakenInv;
      if biz == r.biz {
        assert Flat(heap, At(taken, biz)) + (Current(batches, heap, biz) + [r])
            == Flat(heap, At(taken, biz)) + Current(batches, heap, biz) + [r];
      } else {
        assert Current(batches, heap, biz) + [] == Current(batches, heap, biz);
      }
    }
  }

  lemma AppendedFlat(batches: map<int, nat>, batches': map<int, nat>, heap: map<nat, Batch>,
                     heap': map<nat, Batch>, r: Request, b: nat, biz: int, bids: seq<nat>)
    requires MapInv(batches, heap) && TakenBatches(bids, biz, heap)
    requires Appended(batches, batches', heap, heap', r, b)
    ensures Flat(heap', bids) == Flat(heap, bids)
  {
    AppendedCurrent(batches, batches', heap, heap', r, b, biz);
    hide MapInv;
    FlatFrame(heap, heap', bids);
  }

  lemma AppendedCurrent(batches: map<int, nat>, batches': map<int, nat>, heap: map<nat, Batch>,
                        heap': map<nat, Batch>, r: Request, b: nat, biz: int)
    requires MapInv(batches, heap) && Appended(batches, batches', heap, heap', r, b)
    ensures Current(batches', heap', biz) == Current(batches, heap, biz) + (if biz == r.biz then [r] else [])
    ensures b in heap ==> heap[b].taker == None
  {
  }

  lemma AppendedPlaces(batches: map<int, nat>, batches': map<int, nat>, heap: map<nat, Batch>,
                       heap': map<nat, Batch>, place: map<Request, Place>, place': map<Request, Place>,
                       r: Request, b: nat)
    requires MapInv(batches, heap) && PlaceInv(heap, place) && r !in place
    requires Appended(batches, batches', heap, heap', r, b)
    requires place' == place[r := Place(b, |heap'[b].requests| - 1)]
    ensures PlaceInv(heap', place')
  {
  }

  /** triggers' is triggers, possibly with one new pending size trigger. */
  ghost predicate MaybeSizeTrigger(triggers: map<nat, Trigger>, triggers': map<nat, Trigger>, tid: nat, biz: int) {
    tid !in triggers && (triggers' == triggers || triggers' == triggers[tid := Trigger(biz, BySize, Pending)])
  }

  lemma AppendedOwners(batches: map<int, nat>, batches': map<int, nat>, heap: map<nat, Batch>,
                       heap': map<nat, Batch>, triggers: map<nat, Trigger>, triggers': map<nat, Trigger>,
                       r: Request, b: nat, tid: nat)
    requires b in heap ==> heap[b].taker == None
    requires OwnerInv(triggers, heap) && TakerInv(triggers, heap)
    requires Appended(batches, batches', heap, heap', r, b) && MaybeSizeTrigger(triggers, triggers', tid, r.biz)
    ensures OwnerInv(triggers', heap') && TakerInv(triggers', heap')
  {
    assert forall t :: t in triggers && HasBatch(triggers[t]) ==> triggers[t].stage.bid != b;
  }

  lemma AppendedStops(batches: map<int, nat>, batches': map<int, nat>, heap: map<nat, Batch>,
                      heap': map<nat, Batch>, triggers: map<nat, Trigger>, triggers': map<nat, Trigger>,
                      stops: map<nat, StopCall>, r: Request, b: nat, tid: nat)
    requires b in heap ==> heap[b].taker == None
    requires OwnerInv(triggers, heap) && StopTriggersInv(stops, triggers, heap)
    requires Appended(batches, batches', heap, heap', r, b) && MaybeSizeTrigger(triggers, triggers', tid, r.biz)
    ensures StopTriggersInv(stops, triggers', heap')
  {
    forall t | t in triggers ensures Done(triggers'[t], heap') == Done(triggers[t], heap) {
      assert HasBatch(triggers[t]) ==> triggers[t].stage.bid != b;
    }
    hide OwnerInv, Done, Appended;
  }

  lemma AppendedLiveness(batchSize: int, batches: map<int, nat>, batches': map<int, nat>, heap: map<nat, Batch>,
                         heap': map<nat, Batch>, triggers: map<nat, Trigger>, triggers': map<nat, Trigger>,
                         r: Request, b: nat, tid: nat)
    requires MapInv(batches, heap) && LivenessInv(batchSize, batches, heap, triggers)
    requires Appended(batches, batches', heap, heap', r, b) && tid !in triggers
    requires triggers' == if |heap'[b].requests| >= batchSize
                          then triggers[tid := Trigger(r.biz, BySize, Pending)] else triggers
    ensures LivenessInv(batchSize, batches', heap', triggers')
  {
    assert forall t, biz, o :: Pends(triggers, t, biz, o) ==> Pends(triggers', t, biz, o);
    assert |heap'[b].requests| >= batchSize ==> Pends(triggers', tid, r.biz, BySize);
  }

  lemma AppendedSends(batches: map<int, nat>, batches': map<int, nat>, heap: map<nat, Batch>,
                      heap': map<nat, Batch>, triggers: map<nat, Trigger>, triggers': map<nat, Trigger>,
                      sends: map<Request, seq<Result>>, place: map<Request, Place>, place': map<Request, Place>,
                      r: Request, b: nat, tid: nat)
    requires MapInv(batches, heap) && PlaceInv(heap, place) && TakerInv(triggers, heap)
    requires SendsInv(sends, place, heap, triggers) && r !in place && At(sends, r) == []
    requires Appended(batches, batches', heap, heap', r, b) && MaybeSizeTrigger(triggers, triggers', tid, r.biz)
    requires place' == place[r := Place(b, |heap'[b].requests| - 1)]
    ensures SendsInv(sends, place', heap', triggers')
  {
    forall q | q in place' ensures At(sends, q) == Expected(heap', triggers', place'[q]) {
      if q != r {
        assert Expected(heap', triggers', place'[q]) == Expected(heap, triggers, place[q]);
      }
    }
  }

  /** Under the lock, r's slot is clean: nothing was sent to it and it occupies no batch. */
  lemma CheckedIsClean(s: State, r: Request)
    requires PlacedClients(s.place, s.clients) && RejectedInv(s.sends, s.place, s.clients)
    requires BufferInv(s.buffers, s.sends, s.clients)
    requires r in s.clients && s.clients[r].Checked?
    ensures r !in s.place && At(s.sends, r) == [] && r !in s.buffers
  {
  }

  lemma AcceptedClients(s: State, s': State, r: Request, p: Place)
    requires PlacedClients(s.place, s.clients) && RejectedInv(s.sends, s.place, s.clients)
    requires BufferInv(s.buffers, s.sends, s.clients)
    requires r in s.clients && s.clients[r].Checked? && At(s.sends, r) == []
    requires s'.clients == s.clients[r := Waiting] && s'.place == s.place[r := p]
    requires s'.sends == s.sends && s'.buffers == s.buffers
    ensures PlacedClients(s'.place, s'.clients) && RejectedInv(s'.sends, s'.place, s'.clients)
    ensures BufferInv(s'.buffers, s'.sends, s'.clients)
  {
    assert forall q :: q != r ==> Past(s'.clients, q) == Past(s.clients, q);
  }

  /** s' is s with r accepted into batch b. */
  ghost predicate Accepted(s: State, s': State, r: Request, b: nat, tid: nat) {
    && Appended(s.batches, s'.batches, s.heap, s'.heap, r, b)
    && s'.clients == s.clients[r := Waiting] && s'.sends == s.sends && s'.buffers == s.buffers
    && s'.accepted == s.accepted[r.biz := At(s.accepted, r.biz) + [r]]
    && b in s'.heap && s'.heap[b].requests != []
    && s'.place == s.place[r := Place(b, |s'.heap[b].requests| - 1)]
    && tid !in s.triggers
    && s'.triggers == (if |s'.heap[b].requests| >= s.batchSize
                       then s.triggers[tid := Trigger(r.biz, BySize, Pending)] else s.triggers)
    && s'.batchSize == s.batchSize && s'.stopped == s.stopped && s'.closes == s.closes && s'.stops == s.stops
    && s'.taken == s.taken && s'.drops == s.drops && s'.discarded == s.discarded
  }

  lemma AcceptStepAccepts(s: State, r: Request, bid: nat, tid: nat)
    requires CanAdd(s, r, bid, tid)
    requires r.biz in s.batches ==> s.batches[r.biz] in s.heap
    ensures Accepted(s, AcceptStep(s, r, bid, tid), r, Target(s.batches, r, bid), tid)
  {
  }

  lemma AcceptKeeps(s: State, r: Request, bid: nat, tid: nat)
    requires Inv(s) && CanAdd(s, r, bid, tid) && !s.stopped
    ensures Inv(AcceptStep(s, r, bid, tid))
  {
    hide MapInv, TakenInv, HeapInv, PartitionInv, PlaceInv, OwnerInv, TakerInv, SendsInv, LivenessInv,
         CloseInv, StopTriggersInv, DrainInv, PlacedClients, RejectedInv, BufferInv;
    hide AcceptStep, Target, Appended;
    var s' := AcceptStep(s, r, bid, tid);
    var b := Target(s.batches, r, bid);
    CheckedIsClean(s, r);
    MapAt(s.batches, s.heap, r.biz);
    AcceptStepAccepts(s, r, bid, tid);
    AppendedBatches(s.batches, s'.batches, s.heap, s'.heap, s.taken, r, b);
    AppendedPartition(s.batches, s'.batches, s.heap, s'.heap, s.taken, s.accepted, s'.accepted, r, b);
    AppendedPlaces(s.batches, s'.batches, s.heap, s'.heap, s.place, s'.place, r, b);
    AppendedCurrent(s.batches, s'.batches, s.heap, s'.heap, r, b, r.biz);
    AppendedOwners(s.batches, s'.batches, s.heap, s'.heap, s.triggers, s'.triggers, r, b, tid);
    AppendedStops(s.batches, s'.batches, s.heap, s'.heap, s.triggers, s'.triggers, s.stops, r, b, tid);
    AppendedLiveness(s.batchSize, s.batches, s'.batches, s.heap, s'.heap, s.triggers, s'.triggers, r, b, tid);
    AppendedSends(s.batches, s'.batches, s.heap, s'.heap, s.triggers, s'.triggers, s.sends, s.place, s'.place, r, b, tid);
    AcceptedClients(s, s', r, s'.place[r]);
    NotDraining(s.stopped, s.closes, s.stops, s.batches, s'.batches, s.triggers, s'.triggers, s.discarded);
  }

  lemma MapAt(batches: map<int, nat>, heap: map<nat, Batch>, biz: int)
    requires MapInv(batches, heap)
    ensures biz in batches ==> batches[biz] in heap && heap[batches[biz]].taker == None
  {
  }

  lemma NotDraining(stopped: bool, closes: nat, stops: map<nat, StopCall>, batches: map<int, nat>,
                    batches': map<int, nat>, triggers: map<nat, Trigger>, triggers': map<nat, Trigger>, discarded: nat)
    requires CloseInv(stopped, closes, stops, batches, discarded) && !stopped
    ensures CloseInv(stopped, closes, stops, batches', discarded) && DrainInv(stops, batches', triggers')
  {
  }

  lemma RejectKeeps(s: State, r: Request, bid: nat, tid: nat)
    requires Inv(s) && CanAdd(s, r, bid, tid) && s.stopped
    ensures Inv(RejectStep(s, r))
  {
    hide MapInv, TakenInv, HeapInv, PartitionInv, PlaceInv, OwnerInv, TakerInv, SendsInv, LivenessInv,
         CloseInv, StopTriggersInv, DrainInv, PlacedClients, RejectedInv, BufferInv;
    var s' := RejectStep(s, r);
    CheckedIsClean(s, r);
    assert At(s.sends, r) + [Failure(CoordinatorStopped)] == [Failure(CoordinatorStopped)];
    RejectedSend(s, s', r);
    RejectedBuffer(s, s', r);
  }

  lemma AddKeeps(s: State, r: Request, bid: nat, tid: nat)
    requires Inv(s) && CanAdd(s, r, bid, tid)
    ensures Inv(AddStep(s, r, bid, tid))
  {
    hide Inv, AcceptStep, RejectStep;
    if s.stopped {
      RejectKeeps(s, r, bid, tid);
    } else {
      AcceptKeeps(s, r, bid, tid);
    }
  }

  lemma RejectedSend(s: State, s': State, r: Request)
    requires PlacedClients(s.place, s.clients) && RejectedInv(s.sends, s.place, s.clients)
    requires SendsInv(s.sends, s.place, s.heap, s.triggers)
    requires r in s.clients && s.clients[r].Checked? && r !in s.place
    requires s'.clients == s.clients[r := Waiting]
    requires s'.sends == s.sends[r := [Failure(CoordinatorStopped)]]
    ensures PlacedClients(s.place, s'.clients) && RejectedInv(s'.sends, s.place, s'.clients)
    ensures SendsInv(s'.sends, s.place, s.heap, s.triggers)
  {
    hide Expected;
    assert forall q :: q != r ==> Past(s'.clients, q) == Past(s.clients, q);
    assert forall q :: q != r ==> At(s'.sends, q) == At(s.sends, q);
  }

  lemma RejectedBuffer(s: State, s': State, r: Request)
    requires BufferInv(s.buffers, s.sends, s.clients)
    requires r in s.clients && s.clients[r].Checked? && At(s.sends, r) == [] && r !in s.buffers
    requires s'.clients == s.clients[r := Waiting]
    requires s'.sends == s.sends[r := [Failure(CoordinatorStopped)]]
    requires s'.buffers == s.buffers[r := Failure(CoordinatorStopped)]
    ensures BufferInv(s'.buffers, s'.sends, s'.clients)
  {
    assert forall q :: q != r ==> At(s'.sends, q) == At(s.sends, q);
  }

  // ----- a goroutine takes the batch of its bizID out of the map

  /** Goroutine tid took batch b of bizID biz. */
  ghost predicate Took(s: State, s': State, tid: nat, b: nat, biz: int) {
    && tid in s.triggers && s.triggers[tid].stage.Pending? && s.triggers[tid].biz == biz
    && biz in s.batches && s.batches[biz] == b && b in s.heap
    && s' == s.(batches := s.batches - {biz},
                heap := s.heap[b := s.heap[b].(taker := Some(tid))],
                taken := s.taken[biz := At(s.taken, biz) + [b]],
                triggers := s.triggers[tid := s.triggers[tid].(stage := Holding(b))])
  }

  lemma TookBatches(s: State, s': State, tid: nat, b: nat, biz: int)
    requires Took(s, s', tid, b, biz)
    requires MapInv(s.batches, s.heap) && TakenInv(s.taken, s.heap) && HeapInv(s.heap, s.batches, s.taken)
    ensures MapInv(s'.batches, s'.heap) && TakenInv(s'.taken, s'.heap) && HeapInv(s'.heap, s'.batches, s'.taken)
  {
    forall z ensures TakenBatches(At(s'.taken, z), z, s'.heap) {
      assert TakenBatches(At(s.taken, z), z, s.heap);
    }
    forall x | x in s'.heap && s'.heap[x].taker.Some? ensures x in At(s'.taken, s'.heap[x].biz) {
      if x == b {
        assert At(s'.taken, biz)[|At(s.taken, biz)|] == b;
      } else {
        assert x in At(s.taken, s.heap[x].biz);
      }
    }
  }

  lemma TookPartition(s: State, s': State, tid: nat, b: nat, biz: int)
    requires Took(s, s', tid, b, biz) && TakenInv(s.taken, s.heap)
    requires PartitionInv(s.heap, s.taken, s.batches, s.accepted)
    ensures PartitionInv(s'.heap, s'.taken, s'.batches, s'.accepted)
  {
    forall z ensures Flat(s'.heap, At(s'.taken, z)) + Current(s'.batches, s'.heap, z) == At(s'.accepted, z) {
      assert TakenBatches(At(s.taken, z), z, s.heap);
      assert Flat(s.heap, At(s.taken, z)) + Current(s.batches, s.heap, z) == At(s.accepted, z);
      TookPartitionAt(s, s', tid, b, biz, z, At(s.taken, z));
      hide *;
    }
  }

  lemma TookPartitionAt(s: State, s': State, tid: nat, b: nat, biz: int, z: int, bids: seq<nat>)
    requires Took(s, s', tid, b, biz) && TakenBatches(bids, z, s.heap) && bids == At(s.taken, z)
    ensures Flat(s'.heap, At(s'.taken, z)) + Current(s'.batches, s'.heap, z)
            == Flat(s.heap, bids) + Current(s.batches, s.heap, z)
  {
    FlatFrame(s.heap, s'.heap, bids);
    if z == biz {
      assert At(s'.taken, z)[..|bids|] == bids;
    } else {
      assert At(s'.taken, z) == bids;
    }
  }

  lemma TookOwners(s: State, s': State, tid: nat, b: nat, biz: int)
    requires Took(s, s', tid, b, biz)
    requires MapInv(s.batches, s.heap) && OwnerInv(s.triggers, s.heap) && TakerInv(s.triggers, s.heap)
    ensures OwnerInv(s'.triggers, s'.heap) && TakerInv(s'.triggers, s'.heap)
  {
  }

  lemma TookSends(s: State, s': State, tid: nat, b: nat, biz: int)
    requires Took(s, s', tid, b, biz)
    requires MapInv(s.batches, s.heap) && TakerInv(s.triggers, s.heap)
    requires SendsInv(s.sends, s.place, s.heap, s.triggers)
    ensures SendsInv(s'.sends, s'.place, s'.heap, s'.triggers)
  {
    forall r | r in s.place ensures At(s.sends, r) == Expected(s'.heap, s'.triggers, s.place[r]) {
      assert Expected(s'.heap, s'.triggers, s.place[r]) == Expected(s.heap, s.triggers, s.place[r]);
    }
  }

  /** Goroutine tid, pending for biz, moved on; no batch of biz is left in the map. */
  ghost predicate MovedOn(s: State, s': State, tid: nat, biz: int) {
    && tid in s.triggers && s.triggers[tid].stage.Pending? && s.triggers[tid].biz == biz
    && tid in s'.triggers && s'.triggers == s.triggers[tid := s'.triggers[tid]]
    && s'.triggers[tid].origin == s.triggers[tid].origin
    && biz !in s'.batches
    && (forall z :: z in s'.batches ==> z in s.batches && s'.batches[z] == s.batches[z])
    && SameRequests(s.heap, s'.heap)
    && (forall b :: b in s.heap ==> s'.heap[b].timer == s.heap[b].timer)
    && s'.stops == s.stops && s'.batchSize == s.batchSize
  }

  lemma MovedOnLiveness(s: State, s': State, tid: nat, biz: int)
    requires MovedOn(s, s', tid, biz) && LivenessInv(s.batchSize, s.batches, s.heap, s.triggers)
    ensures LivenessInv(s'.batchSize, s'.batches, s'.heap, s'.triggers)
  {
    assert forall t, z, o :: Pends(s.triggers, t, z, o) && z != biz ==> Pends(s'.triggers, t, z, o);
  }

  lemma MovedOnStops(s: State, s': State, tid: nat, biz: int)
    requires MovedOn(s, s', tid, biz)
    requires StopTriggersInv(s.stops, s.triggers, s.heap) && DrainInv(s.stops, s.batches, s.triggers)
    ensures StopTriggersInv(s'.stops, s'.triggers, s'.heap) && DrainInv(s'.stops, s'.batches, s'.triggers)
  {
    assert forall t, z, o :: Pends(s.triggers, t, z, o) && z != biz ==> Pends(s'.triggers, t, z, o);
    assert forall t :: t in s.triggers && t != tid ==> Done(s'.triggers[t], s'.heap) == Done(s.triggers[t], s.heap);
  }

  lemma ClosedStays(s: State, s': State)
    requires CloseInv(s.stopped, s.closes, s.stops, s.batches, s.discarded)
    requires s'.stopped == s.stopped && s'.closes == s.closes && s'.stops == s.stops && s'.discarded == s.discarded
    requires s'.batches.Keys <= s.batches.Keys
    ensures CloseInv(s'.stopped, s'.closes, s'.stops, s'.batches, s'.discarded)
  {
  }

  lemma TakeFinds(s: State, s': State, tid: nat, biz: int)
    requires CanTake(s, tid) && s' == TakeStep(s, tid) && biz == s.triggers[tid].biz
    requires biz in s.batches && s.batches[biz] in s.heap
    ensures MovedOn(s, s', tid, biz) && Took(s, s', tid, s.batches[biz], biz)
  {
  }

  lemma TakeFindsNone(s: State, s': State, tid: nat, biz: int)
    requires CanTake(s, tid) && s' == TakeStep(s, tid) && biz == s.triggers[tid].biz
    requires biz !in s.batches
    ensures MovedOn(s, s', tid, biz)
    ensures s' == s.(triggers := s.triggers[tid := s.triggers[tid].(stage := Idle)])
  {
    assert s.batches - {biz} == s.batches;
  }

  lemma TakeKeeps(s: State, tid: nat)
    requires Inv(s) && CanTake(s, tid)
    ensures Inv(TakeStep(s, tid))
  {
    hide MapInv, TakenInv, HeapInv, PartitionInv, PlaceInv, OwnerInv, TakerInv, SendsInv, LivenessInv,
         CloseInv, StopTriggersInv, DrainInv, PlacedClients, RejectedInv, BufferInv;
    hide TakeStep;
    var s' := TakeStep(s, tid);
    var biz := s.triggers[tid].biz;
    MapAt(s.batches, s.heap, biz);
    if biz in s.batches {
      TakeFinds(s, s', tid, biz);
      TookKeeps(s, s', tid, s.batches[biz], biz);
    } else {
      TakeFindsNone(s, s', tid, biz);
      MovedOnLiveness(s, s', tid, biz);
      MovedOnStops(s, s', tid, biz);
      ClosedStays(s, s');
      StageOwners(s, s', tid);
      StageSends(s, s', tid);
    }
  }

  lemma TookKeeps(s: State, s': State, tid: nat, b: nat, biz: int)
    requires Inv(s) && MovedOn(s, s', tid, biz) && Took(s, s', tid, b, biz)
    ensures Inv(s')
  {
    hide MapInv, TakenInv, HeapInv, PartitionInv, PlaceInv, OwnerInv, TakerInv, SendsInv, LivenessInv,
         CloseInv, StopTriggersInv, DrainInv, PlacedClients, RejectedInv, BufferInv;
    MovedOnLiveness(s, s', tid, biz);
    MovedOnStops(s, s', tid, biz);
    ClosedStays(s, s');
    TookBatches(s, s', tid, b, biz);
    TookPartition(s, s', tid, b, biz);
    TookOwners(s, s', tid, b, biz);
    TookSends(s, s', tid, b, biz);
    PlaceFrame(s.heap, s'.heap, s.place);
  }

  /** tid changed its stage without holding a batch before or after; nothing it owns changed. */
  lemma StageOwners(s: State, s': State, tid: nat)
    requires OwnerInv(s.triggers, s.heap) && TakerInv(s.triggers, s.heap)
    requires tid in s.triggers && s.triggers[tid].stage.Pending? && s'.heap == s.heap
    requires tid in s'.triggers && s'.triggers == s.triggers[tid := s'.triggers[tid]] && s'.triggers[tid].stage.Idle?
    ensures OwnerInv(s'.triggers, s'.heap) && TakerInv(s'.triggers, s'.heap)
  {
  }

  lemma StageSends(s: State, s': State, tid: nat)
    requires SendsInv(s.sends, s.place, s.heap, s.triggers) && s'.heap == s.heap
    requires tid in s.triggers && !s.triggers[tid].stage.Scattering?
    requires tid in s'.triggers && s'.triggers == s.triggers[tid := s'.triggers[tid]]
    requires s'.triggers[tid].stage.Scattering? ==> s'.triggers[tid].stage.next == 0
    ensures SendsInv(s.sends, s.place, s'.heap, s'.triggers)
  {
    forall r | r in s.place ensures At(s.sends, r) == Expected(s'.heap, s'.triggers, s.place[r]) {
      assert Expected(s'.heap, s'.triggers, s.place[r]) == Expected(s.heap, s.triggers, s.place[r]);
    }
  }

  // ----- the owner of a batch closes it, calls the processor and scatters the results

  /** Goroutine tid, which holds batch b, advanced from one stage to the next, changing at most b's flags. */
  ghost predicate Advanced(s: State, s': State, tid: nat, b: nat) {
    && tid in s.triggers && HasBatch(s.triggers[tid]) && s.triggers[tid].stage.bid == b
    && tid in s'.triggers && HasBatch(s'.triggers[tid]) && s'.triggers[tid].stage.bid == b
    && s'.triggers == s.triggers[tid := s'.triggers[tid]]
    && s'.triggers[tid].origin == s.triggers[tid].origin && s'.triggers[tid].biz == s.triggers[tid].biz
    && b in s.heap && b in s'.heap && s'.heap == s.heap[b := s'.heap[b]]
    && s'.heap[b].requests == s.heap[b].requests && s'.heap[b].biz == s.heap[b].biz
    && s'.heap[b].taker == s.heap[b].taker
    && s'.heap[b].closed == !s'.triggers[tid].stage.Holding?
    && (s'.triggers[tid].stage.Scattering? ==> s'.triggers[tid].stage.next <= |s.heap[b].requests|)
    && s'.batches == s.batches && s'.taken == s.taken && s'.stops == s.stops && s'.batchSize == s.batchSize
  }

  /** heap' differs from heap at most in the flags of the taken batch b. */
  ghost predicate SameButFlags(heap: map<nat, Batch>, heap': map<nat, Batch>, b: nat) {
    && SameRequests(heap, heap')
    && (forall x :: x in heap ==> heap'[x].taker == heap[x].taker && (x != b ==> heap'[x] == heap[x]))
    && b in heap && heap[b].taker.Some?
  }

  lemma FlagsTaken(heap: map<nat, Batch>, heap': map<nat, Batch>, b: nat, taken: map<int, seq<nat>>)
    requires SameButFlags(heap, heap', b) && TakenInv(taken, heap)
    ensures TakenInv(taken, heap')
  {
    forall z ensures TakenBatches(At(taken, z), z, heap') {
      assert TakenBatches(At(taken, z), z, heap);
    }
  }

  lemma FlagsBatches(heap: map<nat, Batch>, heap': map<nat, Batch>, b: nat, batches: map<int, nat>,
                     taken: map<int, seq<nat>>)
    requires SameButFlags(heap, heap', b) && MapInv(batches, heap) && HeapInv(heap, batches, taken)
    ensures MapInv(batches, heap') && HeapInv(heap', batches, taken)
  {
  }

  lemma AdvancedOwners(s: State, s': State, tid: nat, b: nat)
    requires Advanced(s, s', tid, b)
    requires OwnerInv(s.triggers, s.heap) && TakerInv(s.triggers, s.heap)
    ensures OwnerInv(s'.triggers, s'.heap) && TakerInv(s'.triggers, s'.heap)
  {
  }

  lemma AdvancedLiveness(s: State, s': State, tid: nat, b: nat)
    requires Advanced(s, s', tid, b) && OwnerInv(s.triggers, s.heap) && MapInv(s.batches, s.heap)
    requires LivenessInv(s.batchSize, s.batches, s.heap, s.triggers)
    ensures LivenessInv(s'.batchSize, s'.batches, s'.heap, s'.triggers)
  {
    assert s.heap[b].taker == Some(tid);
    hide OwnerInv;
    assert forall t, z, o :: Pends(s.triggers, t, z, o) ==> Pends(s'.triggers, t, z, o);
  }

  lemma AdvancedStops(s: State, s': State, tid: nat, b: nat)
    requires Advanced(s, s', tid, b) && !Done(s.triggers[tid], s.heap)
    requires StopTriggersInv(s.stops, s.triggers, s.heap) && DrainInv(s.stops, s.batches, s.triggers)
    ensures StopTriggersInv(s'.stops, s'.triggers, s'.heap) && DrainInv(s'.stops, s'.batches, s'.triggers)
  {
    assert forall t, z, o :: Pends(s.triggers, t, z, o) ==> Pends(s'.triggers, t, z, o);
    assert forall t :: t in s.triggers && t != tid ==> Done(s'.triggers[t], s'.heap) == Done(s.triggers[t], s.heap);
  }

  lemma AdvancedQuietly(s: State, s': State, tid: nat, b: nat)
    requires Advanced(s, s', tid, b) && OwnerInv(s.triggers, s.heap)
    requires !s.triggers[tid].stage.Scattering?
    requires s'.triggers[tid].stage.Scattering? ==> s'.triggers[tid].stage.next == 0
    requires SendsInv(s.sends, s.place, s.heap, s.triggers)
    ensures SendsInv(s.sends, s.place, s'.heap, s'.triggers)
  {
    assert s.heap[b].taker == Some(tid);
    forall r | r in s.place ensures At(s.sends, r) == Expected(s'.heap, s'.triggers, s.place[r]) {
      assert Expected(s'.heap, s'.triggers, s.place[r]) == Expected(s.heap, s.triggers, s.place[r]);
    }
  }

  lemma AdvancedKeeps(s: State, s': State, tid: nat, b: nat)
    requires Advanced(s, s', tid, b) && !Done(s.triggers[tid], s.heap)
    requires MapInv(s.batches, s.heap) && TakenInv(s.taken, s.heap) && HeapInv(s.heap, s.batches, s.taken)
    requires PartitionInv(s.heap, s.taken, s.batches, s.accepted) && PlaceInv(s.heap, s.place)
    requires OwnerInv(s.triggers, s.heap) && TakerInv(s.triggers, s.heap)
    requires LivenessInv(s.batchSize, s.batches, s.heap, s.triggers)
    requires StopTriggersInv(s.stops, s.triggers, s.heap) && DrainInv(s.stops, s.batches, s.triggers)
    ensures MapInv(s'.batches, s'.heap) && TakenInv(s'.taken, s'.heap) && HeapInv(s'.heap, s'.batches, s'.taken)
    ensures PartitionInv(s'.heap, s.taken, s.batches, s.accepted) && PlaceInv(s'.heap, s.place)
    ensures OwnerInv(s'.triggers, s'.heap) && TakerInv(s'.triggers, s'.heap)
    ensures LivenessInv(s'.batchSize, s'.batches, s'.heap, s'.triggers)
    ensures StopTriggersInv(s'.stops, s'.triggers, s'.heap) && DrainInv(s'.stops, s'.batches, s'.triggers)
  {
    hide MapInv, TakenInv, HeapInv, PartitionInv, PlaceInv, OwnerInv, TakerInv, SendsInv, LivenessInv,
         StopTriggersInv, DrainInv;
    assert SameRequests(s.heap, s'.heap);
    PartitionFrame(s.heap, s'.heap, s.taken, s.batches, s.accepted);
    PlaceFrame(s.heap, s'.heap, s.place);
    OwnerAt(s.triggers, s.heap, tid);
    FlagsTaken(s.heap, s'.heap, b, s.taken);
    FlagsBatches(s.heap, s'.heap, b, s.batches, s.taken);
    AdvancedOwners(s, s', tid, b);
    AdvancedLiveness(s, s', tid, b);
    AdvancedStops(s, s', tid, b);
  }

  lemma OwnerAt(triggers: map<nat, Trigger>, heap: map<nat, Batch>, tid: nat)
    requires OwnerInv(triggers, heap) && tid in triggers && HasBatch(triggers[tid])
    ensures triggers[tid].stage.bid in heap
    ensures heap[triggers[tid].stage.bid].taker == Some(tid)
    ensures heap[triggers[tid].stage.bid].closed == !triggers[tid].stage.Holding?
    ensures triggers[tid].stage.Scattering? ==> triggers[tid].stage.next <= |heap[triggers[tid].stage.bid].requests|
  {
  }

  lemma NonEmptyAt(heap: map<nat, Batch>, batches: map<int, nat>, taken: map<int, seq<nat>>, b: nat)
    requires HeapInv(heap, batches, taken) && b in heap
    ensures |heap[b].requests| > 0
  {
  }

  /** The early return at line 193 is never taken: a batch just taken is open and not empty. */
  lemma BeginCloses(s: State, tid: nat)
    requires Inv(s) && CanBegin(s, tid)
    ensures BeginStep(s, tid).triggers[tid].stage == Processing(s.triggers[tid].stage.bid)
    ensures Advanced(s, BeginStep(s, tid), tid, s.triggers[tid].stage.bid)
  {
    hide MapInv, TakenInv, HeapInv, PartitionInv, PlaceInv, OwnerInv, TakerInv, SendsInv, LivenessInv,
         CloseInv, StopTriggersInv, DrainInv, PlacedClients, RejectedInv, BufferInv;
    OwnerAt(s.triggers, s.heap, tid);
    NonEmptyAt(s.heap, s.batches, s.taken, s.triggers[tid].stage.bid);
  }

  lemma BeginKeeps(s: State, tid: nat)
    requires Inv(s) && CanBegin(s, tid)
    ensures Inv(BeginStep(s, tid))
  {
    BeginCloses(s, tid);
    hide MapInv, TakenInv, HeapInv, PartitionInv, PlaceInv, OwnerInv, TakerInv, SendsInv, LivenessInv,
         CloseInv, StopTriggersInv, DrainInv, PlacedClients, RejectedInv, BufferInv;
    var s' := BeginStep(s, tid);
    var b := s.triggers[tid].stage.bid;
    AdvancedKeeps(s, s', tid, b);
    AdvancedQuietly(s, s', tid, b);
  }

  lemma ReplyKeeps(s: State, tid: nat, o: Outcome)
    requires Inv(s) && CanReply(s, tid)
    ensures Inv(ReplyStep(s, tid, o))
  {
    hide MapInv, TakenInv, HeapInv, PartitionInv, PlaceInv, OwnerInv, TakerInv, SendsInv, LivenessInv,
         CloseInv, StopTriggersInv, DrainInv, PlacedClients, RejectedInv, BufferInv;
    var s' := ReplyStep(s, tid, o);
    var b := s.triggers[tid].stage.bid;
    OwnerAt(s.triggers, s.heap, tid);
    assert Advanced(s, s', tid, b);
    AdvancedKeeps(s, s', tid, b);
    AdvancedQuietly(s, s', tid, b);
  }

  /** The next request of a scattering goroutine has an empty, unused channel: the `default` branches are dead. */
  lemma NextChannelIsFresh(s: State, tid: nat)
    requires Inv(s) && CanScatter(s, tid)
    ensures var r := s.heap[s.triggers[tid].stage.bid].requests[s.triggers[tid].stage.next];
            && r in s.place && s.place[r] == Place(s.triggers[tid].stage.bid, s.triggers[tid].stage.next)
            && At(s.sends, r) == [] && r !in s.buffers
  {
    OwnerAt(s.triggers, s.heap, tid);
    hide MapInv, TakenInv, HeapInv, PartitionInv, OwnerInv, TakerInv, LivenessInv,
         CloseInv, StopTriggersInv, DrainInv, PlacedClients, RejectedInv;
    var b := s.triggers[tid].stage.bid;
    var r := s.heap[b].requests[s.triggers[tid].stage.next];
    assert s.place[r] == Place(b, s.triggers[tid].stage.next);
    hide PlaceInv;
    assert Expected(s.heap, s.triggers, s.place[r]) == [];
  }

  /** tid sent res to r, the request it had come to. */
  ghost predicate SentNext(s: State, s': State, tid: nat, b: nat, r: Request, res: Result) {
    && Advanced(s, s', tid, b)
    && s.triggers[tid].stage.Scattering? && s'.triggers[tid].stage.Scattering?
    && s.heap == s'.heap && s.heap[b].taker == Some(tid)
    && s'.triggers[tid].stage == s.triggers[tid].stage.(next := s.triggers[tid].stage.next + 1)
    && s.triggers[tid].stage.next < |s.heap[b].requests|
    && r in s.place && s.place[r] == Place(b, s.triggers[tid].stage.next)
    && res == Delivery(s.triggers[tid].stage.outcome, |s.heap[b].requests|, s.triggers[tid].stage.next)
    && At(s.sends, r) == [] && r !in s.buffers
    && s'.sends == s.sends[r := [res]] && s'.buffers == s.buffers[r := res]
    && s'.place == s.place && s'.clients == s.clients
  }

  lemma SentNextSends(s: State, s': State, tid: nat, b: nat, r: Request, res: Result)
    requires SentNext(s, s', tid, b, r, res)
    requires SendsInv(s.sends, s.place, s.heap, s.triggers) && PlaceInv(s.heap, s.place)
    requires TakerInv(s.triggers, s.heap)
    ensures SendsInv(s'.sends, s'.place, s'.heap, s'.triggers)
  {
    forall q | q in s.place ensures At(s'.sends, q) == Expected(s'.heap, s'.triggers, s.place[q]) {
      if q != r {
        assert s.place[q] != s.place[r];
        assert Expected(s'.heap, s'.triggers, s.place[q]) == Expected(s.heap, s.triggers, s.place[q]);
      }
    }
  }

  lemma SentNextBuffers(s: State, s': State, tid: nat, b: nat, r: Request, res: Result)
    requires SentNext(s, s', tid, b, r, res)
    requires BufferInv(s.buffers, s.sends, s.clients) && RejectedInv(s.sends, s.place, s.clients)
    ensures BufferInv(s'.buffers, s'.sends, s'.clients) && RejectedInv(s'.sends, s'.place, s'.clients)
  {
    hide Advanced;
    assert forall q :: q != r ==> At(s'.sends, q) == At(s.sends, q);
  }

  lemma ScatterSends(s: State, tid: nat)
    requires Inv(s) && CanScatter(s, tid)
    ensures var st := s.triggers[tid].stage;
            var r := s.heap[st.bid].requests[st.next];
            && SentNext(s, ScatterStep(s, tid), tid, st.bid, r, Delivery(st.outcome, |s.heap[st.bid].requests|, st.next))
            && ScatterStep(s, tid).drops == 0
  {
    hide MapInv, TakenInv, HeapInv, PartitionInv, PlaceInv, OwnerInv, TakerInv, SendsInv, LivenessInv,
         CloseInv, StopTriggersInv, DrainInv, PlacedClients, RejectedInv, BufferInv;
    NextChannelIsFresh(s, tid);
    OwnerAt(s.triggers, s.heap, tid);
    var st := s.triggers[tid].stage;
    var r := s.heap[st.bid].requests[st.next];
    var res := Delivery(st.outcome, |s.heap[st.bid].requests|, st.next);
    assert At(s.sends, r) + [res] == [res];
  }

  lemma ScatterKeeps(s: State, tid: nat)
    requires Inv(s) && CanScatter(s, tid)
    ensures Inv(ScatterStep(s, tid))
  {
    hide MapInv, TakenInv, HeapInv, PartitionInv, PlaceInv, OwnerInv, TakerInv, SendsInv, LivenessInv,
         CloseInv, StopTriggersInv, DrainInv, PlacedClients, RejectedInv, BufferInv;
    ScatterSends(s, tid);
    var s' := ScatterStep(s, tid);
    var st := s.triggers[tid].stage;
    var r := s.heap[st.bid].requests[st.next];
    var res := Delivery(st.outcome, |s.heap[st.bid].requests|, st.next);
    AdvancedKeeps(s, s', tid, st.bid);
    SentNextSends(s, s', tid, st.bid, r, res);
    SentNextBuffers(s, s', tid, st.bid, r, res);
  }

  // ----- Stop

  lemma StopBeginKeeps(s: State, sid: nat)
    requires Inv(s) && CanStop(s, sid)
    ensures Inv(StopStep(s, sid))
  {
    hide MapInv, TakenInv, HeapInv, PartitionInv, PlaceInv, OwnerInv, TakerInv, SendsInv, LivenessInv,
         CloseInv, StopTriggersInv, DrainInv, PlacedClients, RejectedInv, BufferInv;
    StopBegins(s, StopStep(s, sid), sid);
  }

  lemma StopBegins(s: State, s': State, sid: nat)
    requires sid !in s.stops && s' == StopStep(s, sid)
    requires CloseInv(s.stopped, s.closes, s.stops, s.batches, s.discarded)
    requires StopTriggersInv(s.stops, s.triggers, s.heap) && DrainInv(s.stops, s.batches, s.triggers)
    ensures CloseInv(s'.stopped, s'.closes, s'.stops, s'.batches, s'.discarded)
    ensures StopTriggersInv(s'.stops, s'.triggers, s'.heap) && DrainInv(s'.stops, s'.batches, s'.triggers)
  {
    if !s.stopped {
      assert sid in s'.stops && s'.stops[sid].Draining?;
    } else if s.closes == 0 {
      var x :| x in s.stops && s.stops[x].Draining?;
      assert x in s'.stops && s'.stops[x].Draining?;
    }
  }

  /** Stop call sid started goroutine tid for biz. */
  ghost predicate Spawned(s: State, s': State, sid: nat, biz: int, tid: nat) {
    && sid in s.stops && s.stops[sid].Draining? && biz in s.stops[sid].todo && tid !in s.triggers
    && s'.stops == s.stops[sid := Draining(s.stops[sid].todo - {biz}, s.stops[sid].spawned + {tid})]
    && s'.triggers == s.triggers[tid := Trigger(biz, ByStop(sid), Pending)]
    && s'.heap == s.heap && s'.batches == s.batches && s'.batchSize == s.batchSize
    && s'.stopped == s.stopped && s'.closes == s.closes && s'.discarded == s.discarded
  }

  lemma SpawnedStops(s: State, s': State, sid: nat, biz: int, tid: nat)
    requires Spawned(s, s', sid, biz, tid)
    requires CloseInv(s.stopped, s.closes, s.stops, s.batches, s.discarded)
    requires StopTriggersInv(s.stops, s.triggers, s.heap)
    ensures CloseInv(s'.stopped, s'.closes, s'.stops, s'.batches, s'.discarded)
    ensures StopTriggersInv(s'.stops, s'.triggers, s'.heap)
  {
    assert sid in s'.stops && s'.stops[sid].Draining?;
  }

  lemma SpawnedDrain(s: State, s': State, sid: nat, biz: int, tid: nat)
    requires Spawned(s, s', sid, biz, tid) && DrainInv(s.stops, s.batches, s.triggers)
    ensures DrainInv(s'.stops, s'.batches, s'.triggers)
  {
    assert forall t, z, o :: Pends(s.triggers, t, z, o) ==> Pends(s'.triggers, t, z, o);
    assert Pends(s'.triggers, tid, biz, ByStop(sid));
    assert tid in s'.stops[sid].spawned;
  }

  lemma SpawnedOwners(s: State, s': State, sid: nat, biz: int, tid: nat)
    requires Spawned(s, s', sid, biz, tid)
    requires OwnerInv(s.triggers, s.heap) && TakerInv(s.triggers, s.heap)
    ensures OwnerInv(s'.triggers, s'.heap) && TakerInv(s'.triggers, s'.heap)
  {
  }

  lemma SpawnedLiveness(s: State, s': State, sid: nat, biz: int, tid: nat)
    requires Spawned(s, s', sid, biz, tid)
    requires LivenessInv(s.batchSize, s.batches, s.heap, s.triggers)
    ensures LivenessInv(s'.batchSize, s'.batches, s'.heap, s'.triggers)
  {
    assert forall t, z, o :: Pends(s.triggers, t, z, o) ==> Pends(s'.triggers, t, z, o);
  }

  lemma SpawnedSends(s: State, s': State, sid: nat, biz: int, tid: nat)
    requires Spawned(s, s', sid, biz, tid) && TakerInv(s.triggers, s.heap)
    requires SendsInv(s.sends, s.place, s.heap, s.triggers)
    ensures SendsInv(s.sends, s.place, s'.heap, s'.triggers)
  {
    forall r | r in s.place ensures At(s.sends, r) == Expected(s'.heap, s'.triggers, s.place[r]) {
      assert Expected(s'.heap, s'.triggers, s.place[r]) == Expected(s.heap, s.triggers, s.place[r]);
    }
  }

  lemma StopSpawnKeeps(s: State, sid: nat, biz: int, tid: nat)
    requires Inv(s) && CanSpawn(s, sid, biz, tid)
    ensures Inv(SpawnStep(s, sid, biz, tid))
  {
    hide MapInv, TakenInv, HeapInv, PartitionInv, PlaceInv, OwnerInv, TakerInv, SendsInv, LivenessInv,
         CloseInv, StopTriggersInv, DrainInv, PlacedClients, RejectedInv, BufferInv;
    var s' := SpawnStep(s, sid, biz, tid);
    SpawnedStops(s, s', sid, biz, tid);
    SpawnedDrain(s, s', sid, biz, tid);
    SpawnedOwners(s, s', sid, biz, tid);
    SpawnedLiveness(s, s', sid, biz, tid);
    SpawnedSends(s, s', sid, biz, tid);
  }

  /** When a Stop call reaches its third phase its goroutines have emptied the map, so the reset loses nothing. */
  lemma MapEmptyAtClose(s: State, sid: nat)
    requires Inv(s) && CanClose(s, sid)
    ensures s.batches == map[] && s.closes == 0
  {
    hide MapInv, TakenInv, HeapInv, PartitionInv, PlaceInv, OwnerInv, TakerInv, SendsInv, LivenessInv,
         StopTriggersInv, PlacedClients, RejectedInv, BufferInv;
    forall biz ensures biz !in s.batches {
      assert forall t :: t in s.stops[sid].spawned ==> !Pends(s.triggers, t, biz, ByStop(sid));
    }
    assert s.batches == map[];
  }

  lemma StopCloses(s: State, s': State, sid: nat)
    requires CanClose(s, sid) && s' == CloseStep(s, sid) && s.batches == map[] && s.closes == 0
    requires CloseInv(s.stopped, s.closes, s.stops, s.batches, s.discarded)
    requires StopTriggersInv(s.stops, s.triggers, s.heap)
    ensures CloseInv(s'.stopped, s'.closes, s'.stops, s'.batches, s'.discarded)
    ensures StopTriggersInv(s'.stops, s'.triggers, s'.heap) && DrainInv(s'.stops, s'.batches, s'.triggers)
  {
  }

  lemma StopCloseKeeps(s: State, sid: nat)
    requires Inv(s) && CanClose(s, sid)
    ensures Inv(CloseStep(s, sid))
  {
    MapEmptyAtClose(s, sid);
    hide MapInv, TakenInv, HeapInv, PartitionInv, PlaceInv, OwnerInv, TakerInv, SendsInv, LivenessInv,
         CloseInv, StopTriggersInv, DrainInv, PlacedClients, RejectedInv, BufferInv;
    StopCloses(s, CloseStep(s, sid), sid);
  }

  lemma InvParts(s: State)
    requires Inv(s)
    ensures MapInv(s.batches, s.heap) && OwnerInv(s.triggers, s.heap)
  {
    hide MapInv, TakenInv, HeapInv, PartitionInv, PlaceInv, OwnerInv, TakerInv, SendsInv, LivenessInv,
         CloseInv, StopTriggersInv, DrainInv, PlacedClients, RejectedInv, BufferInv;
  }

  // ----- every step, every run

  lemma StepKeeps(s: State, a: Action)
    requires Inv(s) && Enabled(s, a)
    ensures Inv(Step(s, a))
  {
    hide Inv, CheckStep, AddStep, FireStep, TakeStep, BeginStep, ReplyStep, ScatterStep, ReceiveStep,
         ObserveStep, StopStep, SpawnStep, CloseStep;
    match a
    case Check(r) => CheckKeeps(s, r);
    case Add(r, bid, tid) => AddKeeps(s, r, bid, tid);
    case Fire(bid, tid) => TimerFiresKeeps(s, bid, tid);
    case Take(tid) => TakeKeeps(s, tid);
    case Begin(tid) => BeginKeeps(s, tid);
    case Reply(tid, o) => ReplyKeeps(s, tid, o);
    case Scatter(tid) => ScatterKeeps(s, tid);
    case Receive(r) => ReceiveKeeps(s, r);
    case Observe(r) => ObserveStopKeeps(s, r);
    case Stop(sid) => StopBeginKeeps(s, sid);
    case Spawn(sid, biz, tid) => StopSpawnKeeps(s, sid, biz, tid);
    case Close(sid) => StopCloseKeeps(s, sid);
  }

  lemma {:induction false} RunKeeps(s: State, acts: seq<Action>)
    requires Inv(s) && CanRun(s, acts)
    ensures Inv(Run(s, acts))
    decreases |acts|
  {
    hide Inv, Step, Enabled;
    if acts != [] {
      StepKeeps(s, acts[0]);
      RunKeeps(Step(s, acts[0]), acts[1..]);
    }
  }

  lemma {:induction false} RunAppend(s: State, acts: seq<Action>, a: Action)
    requires CanRun(s, acts) && Enabled(Run(s, acts), a)
    ensures CanRun(s, acts + [a]) && Run(s, acts + [a]) == Step(Run(s, acts), a)
    decreases |acts|
  {
    hide Enabled, Step;
    if acts == [] {
      assert (acts + [a])[1..] == [];
    } else {
      assert (acts + [a])[0] == acts[0] && (acts + [a])[1..] == acts[1..] + [a];
      RunAppend(Step(s, acts[0]), acts[1..], a);
    }
  }

  lemma Reachable(batchSize: int, acts: seq<Action>)
    requires CanRun(Init(batchSize), acts)
    ensures Inv(Run(Init(batchSize), acts))
  {
    InitInv(batchSize);
    hide Inv, Step, Enabled;
    RunKeeps(Init(batchSize), acts);
  }
}
