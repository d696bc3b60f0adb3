/** What the coordinator guarantees over whole runs. */
module CoordinatorTheorems {
  import opened Common
  import opened CoordinatorModel
  import opened CoordinatorProofs

  // ----- every accepted request is in exactly one batch

  ghost predicate NoDuplicates(rs: seq<Request>) {
    forall i, j :: 0 <= i < j < |rs| ==> rs[i] != rs[j]
  }

  lemma {:induction false} FlatPlaces(heap: map<nat, Batch>, place: map<Request, Place>, bids: seq<nat>)
    requires PlaceInv(heap, place) && forall i :: 0 <= i < |bids| ==> bids[i] in heap
    requires forall i, j :: 0 <= i < j < |bids| ==> bids[i] != bids[j]
    ensures forall r :: r in Flat(heap, bids) ==> r in place && place[r].bid in bids
    ensures NoDuplicates(Flat(heap, bids))
    decreases |bids|
  {
    if bids != [] {
      var front, b := bids[..|bids| - 1], bids[|bids| - 1];
      FlatPlaces(heap, place, front);
      assert b !in front;
      forall r | r in heap[b].requests ensures r in place && place[r].bid == b {
        var i :| 0 <= i < |heap[b].requests| && heap[b].requests[i] == r;
      }
      assert NoDuplicates(heap[b].requests) by {
        forall i, j | 0 <= i < j < |heap[b].requests| ensures heap[b].requests[i] != heap[b].requests[j] {
          assert place[heap[b].requests[i]] == Place(b, i);
        }
      }
      hide PlaceInv;
    }
  }

  lemma AcceptedAt(s: State, biz: int)
    requires MapInv(s.batches, s.heap) && TakenBatches(At(s.taken, biz), biz, s.heap) && PlaceInv(s.heap, s.place)
    requires Flat(s.heap, At(s.taken, biz)) + Current(s.batches, s.heap, biz) == At(s.accepted, biz)
    ensures NoDuplicates(At(s.accepted, biz))
  {
    hide PlaceInv;
    var bids := At(s.taken, biz);
    if biz in s.batches {
      OpenIsNotTaken(s, biz, bids);
      hide MapInv, TakenBatches;
      FlatAppend(s.heap, bids, s.batches[biz]);
      FlatPlaces(s.heap, s.place, bids + [s.batches[biz]]);
    } else {
      hide MapInv;
      assert Flat(s.heap, bids) + [] == Flat(s.heap, bids);
      FlatPlaces(s.heap, s.place, bids);
    }
  }

  lemma OpenIsNotTaken(s: State, biz: int, bids: seq<nat>)
    requires MapInv(s.batches, s.heap) && biz in s.batches && TakenBatches(bids, biz, s.heap)
    ensures var all := bids + [s.batches[biz]];
            && (forall i :: 0 <= i < |all| ==> all[i] in s.heap)
            && (forall i, j :: 0 <= i < j < |all| ==> all[i] != all[j])
  {
  }

  lemma FlatAppend(heap: map<nat, Batch>, bids: seq<nat>, b: nat)
    requires b in heap && forall i :: 0 <= i < |bids| ==> bids[i] in heap
    ensures Flat(heap, bids + [b]) == Flat(heap, bids) + heap[b].requests
  {
    assert (bids + [b])[..|bids|] == bids;
  }

  /** In every reachable state, per bizID, the batches taken so far followed by the one in the map are exactly the
      accepted requests in acceptance order, and no request occurs twice. */
  lemma BatchesPartitionAcceptance(batchSize: int, acts: seq<Action>, biz: int)
    requires CanRun(Init(batchSize), acts)
    ensures var s := Run(Init(batchSize), acts);
            && Flat(s.heap, At(s.taken, biz)) + Current(s.batches, s.heap, biz) == At(s.accepted, biz)
            && NoDuplicates(At(s.accepted, biz))
  {
    Reachable(batchSize, acts);
    var s := Run(Init(batchSize), acts);
    hide HeapInv, OwnerInv, TakerInv, SendsInv, LivenessInv, CloseInv, StopTriggersInv, DrainInv,
         PlacedClients, RejectedInv, BufferInv, PlaceInv, MapInv;
    assert TakenBatches(At(s.taken, biz), biz, s.heap);
    hide TakenInv, TakenBatches;
    AcceptedAt(s, biz);
  }

  ghost predicate Extends<T>(m: map<int, seq<T>>, m': map<int, seq<T>>) {
    forall k :: At(m, k) <= At(m', k)
  }

  /** What no step changes: the requests and takers of taken batches, the past of both histories, `stopped`. */
  ghost predicate Frozen(s: State, s': State) {
    && (forall b :: b in s.heap && s.heap[b].taker.Some? ==>
          b in s'.heap && s'.heap[b].requests == s.heap[b].requests && s'.heap[b].taker == s.heap[b].taker)
    && Extends(s.taken, s'.taken) && Extends(s.accepted, s'.accepted)
    && (s.stopped ==> s'.stopped && s'.accepted == s.accepted)
  }

  lemma AcceptFreezes(s: State, r: Request, bid: nat, tid: nat)
    requires CanAdd(s, r, bid, tid) && !s.stopped && MapInv(s.batches, s.heap)
    ensures Frozen(s, AcceptStep(s, r, bid, tid))
  {
    MapAt(s.batches, s.heap, r.biz);
    hide MapInv;
  }

  lemma TakeFreezes(s: State, tid: nat)
    requires CanTake(s, tid) && MapInv(s.batches, s.heap)
    ensures Frozen(s, TakeStep(s, tid))
  {
    MapAt(s.batches, s.heap, s.triggers[tid].biz);
    hide MapInv, TakeStep, Frozen, MovedOn, Took;
    var biz := s.triggers[tid].biz;
    if biz in s.batches {
      TakeFinds(s, TakeStep(s, tid), tid, biz);
      TookFreezes(s, TakeStep(s, tid), tid, s.batches[biz], biz);
    } else {
      TakeFindsNone(s, TakeStep(s, tid), tid, biz);
      IdleFreezes(s, TakeStep(s, tid));
    }
  }

  lemma TookFreezes(s: State, s': State, tid: nat, b: nat, biz: int)
    requires Took(s, s', tid, b, biz) && s.heap[b].taker == None
    ensures Frozen(s, s')
  {
  }

  lemma IdleFreezes(s: State, s': State)
    requires s' == s.(triggers := s'.triggers)
    ensures Frozen(s, s')
  {
  }

  lemma FireFreezes(s: State, bid: nat, tid: nat)
    requires CanFire(s, bid, tid)
    ensures Frozen(s, FireStep(s, bid, tid))
  {
  }

  lemma BeginFreezes(s: State, tid: nat)
    requires CanBegin(s, tid)
    ensures Frozen(s, BeginStep(s, tid))
  {
  }

  lemma StepFreezes(s: State, a: Action)
    requires Enabled(s, a) && MapInv(s.batches, s.heap)
    ensures Frozen(s, Step(s, a))
  {
    hide MapInv, AcceptStep, TakeStep, FireStep, BeginStep;
    match a
    case Add(r, bid, tid) => if !s.stopped { AcceptFreezes(s, r, bid, tid); }
    case Take(tid) => TakeFreezes(s, tid);
    case Fire(bid, tid) => FireFreezes(s, bid, tid);
    case Begin(tid) => BeginFreezes(s, tid);
    case _ =>
  }

  lemma FrozenTrans(s: State, t: State, u: State)
    requires Frozen(s, t) && Frozen(t, u)
    ensures Frozen(s, u)
  {
    assert Extends(s.taken, u.taken) by {
      forall k ensures At(s.taken, k) <= At(u.taken, k) {
        assert At(s.taken, k) <= At(t.taken, k) <= At(u.taken, k);
      }
    }
    assert Extends(s.accepted, u.accepted) by {
      forall k ensures At(s.accepted, k) <= At(u.accepted, k) {
        assert At(s.accepted, k) <= At(t.accepted, k) <= At(u.accepted, k);
      }
    }
  }

  lemma {:induction false} RunFreezes(s: State, acts: seq<Action>)
    requires Inv(s) && CanRun(s, acts)
    ensures Frozen(s, Run(s, acts))
    decreases |acts|
  {
    if acts == [] {
      hide Inv;
    } else {
      hide Inv, Step, Enabled, MapInv, OwnerInv, Frozen;
      InvParts(s);
      StepKeeps(s, acts[0]);
      StepFreezes(s, acts[0]);
      RunFreezes(Step(s, acts[0]), acts[1..]);
      FrozenTrans(s, Step(s, acts[0]), Run(s, acts));
    }
  }

  /** Whatever follows a reachable state: a taken batch is never appended to again and never changes its taker, the
      histories of batches and of accepted requests only grow, and once `stopped` is set nothing more is accepted. */
  lemma TakenBatchesAreFrozen(batchSize: int, acts: seq<Action>, more: seq<Action>)
    requires CanRun(Init(batchSize), acts) && CanRun(Run(Init(batchSize), acts), more)
    ensures var s := Run(Init(batchSize), acts);
            var s' := Run(s, more);
            && (forall b :: b in s.heap && s.heap[b].taker.Some? ==>
                  b in s'.heap && s'.heap[b].requests == s.heap[b].requests && s'.heap[b].taker == s.heap[b].taker)
            && Extends(s.taken, s'.taken) && Extends(s.accepted, s'.accepted)
            && (s.stopped ==> s'.stopped && s'.accepted == s.accepted)
  {
    Reachable(batchSize, acts);
    hide Inv, CanRun, Run, Init;
    RunFreezes(Run(Init(batchSize), acts), more);
  }

  // ----- branches that are never taken

  /** In every reachable state: a goroutine that is about to close its batch finds it open and non-empty (so the return
      at line 193 is dead), one that is about to answer a request finds its channel unused and empty (so are the
      `default` branches at 257 and 277), and a Stop call about to close stopCh finds the map empty (line 330). */
  lemma DeadBranches(batchSize: int, acts: seq<Action>, id: nat)
    requires CanRun(Init(batchSize), acts)
    ensures var s := Run(Init(batchSize), acts);
            && (CanBegin(s, id) ==> BeginStep(s, id).triggers[id].stage == Processing(s.triggers[id].stage.bid))
            && (CanScatter(s, id) ==>
                  var r := s.heap[s.triggers[id].stage.bid].requests[s.triggers[id].stage.next];
                  At(s.sends, r) == [] && r !in s.buffers)
            && (CanClose(s, id) ==> s.batches == map[] && s.closes == 0)
  {
    Reachable(batchSize, acts);
    var s := Run(Init(batchSize), acts);
    hide Inv, BeginStep, CanBegin, CanScatter, CanClose, CanRun, Run, Init;
    if CanBegin(s, id) {
      BeginCloses(s, id);
    }
    if CanScatter(s, id) {
      NextChannelIsFresh(s, id);
    }
    if CanClose(s, id) {
      MapEmptyAtClose(s, id);
    }
  }

  // ----- timers and size triggers

  /** A closed batch has no timer that could still expire. */
  ghost predicate TimersInv(heap: map<nat, Batch>) {
    forall b :: b in heap && heap[b].closed ==> !heap[b].timer.Armed?
  }

  lemma AcceptTimers(s: State, r: Request, bid: nat, tid: nat)
    requires MapInv(s.batches, s.heap) && TimersInv(s.heap)
    ensures TimersInv(AcceptStep(s, r, bid, tid).heap)
  {
  }

  lemma StepTimers(s: State, a: Action)
    requires MapInv(s.batches, s.heap) && TimersInv(s.heap) && Enabled(s, a)
    ensures TimersInv(Step(s, a).heap)
  {
    match a
    case Add(r, bid, tid) =>
      if !s.stopped {
        AcceptTimers(s, r, bid, tid);
      }
      hide MapInv, AcceptStep;
    case _ => hide MapInv, AcceptStep;
  }

  lemma {:induction false} RunTimers(s: State, acts: seq<Action>)
    requires Inv(s) && TimersInv(s.heap) && CanRun(s, acts)
    ensures TimersInv(Run(s, acts).heap)
    decreases |acts|
  {
    hide Inv, Step, Enabled, MapInv, OwnerInv, TimersInv;
    if acts != [] {
      InvParts(s);
      StepKeeps(s, acts[0]);
      StepTimers(s, acts[0]);
      RunTimers(Step(s, acts[0]), acts[1..]);
    }
  }

  /** In every reachable state the timer of a closed batch has expired or been stopped, so it starts no more
      goroutines. */
  lemma ClosedBatchNeverFires(batchSize: int, acts: seq<Action>, b: nat)
    requires CanRun(Init(batchSize), acts)
    requires b in Run(Init(batchSize), acts).heap && Run(Init(batchSize), acts).heap[b].closed
    ensures var s := Run(Init(batchSize), acts);
            s.heap[b].timer != Armed && forall tid :: !Enabled(s, Fire(b, tid))
  {
    InitInv(batchSize);
    hide Inv;
    RunTimers(Init(batchSize), acts);
  }

  /** A goroutine inside the processor, or handing out results, has closed its batch and owns it. */
  lemma WorkedOnIsClosed(batchSize: int, acts: seq<Action>, tid: nat)
    requires CanRun(Init(batchSize), acts) && tid in Run(Init(batchSize), acts).triggers
    requires var st := Run(Init(batchSize), acts).triggers[tid].stage; st.Processing? || st.Scattering?
    ensures var s := Run(Init(batchSize), acts);
            var b := s.triggers[tid].stage.bid;
            b in s.heap && s.heap[b].closed && s.heap[b].timer != Armed && s.heap[b].taker == Some(tid)
            && (s.triggers[tid].biz in s.batches ==> s.batches[s.triggers[tid].biz] != b)
  {
    Reachable(batchSize, acts);
    var s := Run(Init(batchSize), acts);
    InvParts(s);
    hide Inv, CanRun, Run, Init;
    assert s.triggers[tid].stage.bid in s.heap && s.heap[s.triggers[tid].stage.bid].closed;
    ClosedBatchNeverFires(batchSize, acts, s.triggers[tid].stage.bid);
  }

  /** Accepting a request starts a goroutine exactly if the batch it joins has then reached the batch size, and that
      goroutine serves the request's bizID. */
  lemma SizeTriggerIff(batchSize: int, acts: seq<Action>, r: Request, bid: nat, tid: nat)
    requires CanRun(Init(batchSize), acts) && Enabled(Run(Init(batchSize), acts), Add(r, bid, tid))
    requires !Run(Init(batchSize), acts).stopped
    ensures var s := Run(Init(batchSize), acts);
            var s' := Step(s, Add(r, bid, tid));
            && Current(s'.batches, s'.heap, r.biz) == Current(s.batches, s.heap, r.biz) + [r]
            && (tid in s'.triggers <==> |Current(s.batches, s.heap, r.biz)| + 1 >= s.batchSize)
            && (tid in s'.triggers ==> s'.triggers[tid] == Trigger(r.biz, BySize, Pending))
            && (forall t :: t != tid ==> (t in s'.triggers <==> t in s.triggers))
            && (forall t :: t in s.triggers ==> s'.triggers[t] == s.triggers[t])
  {
    Reachable(batchSize, acts);
    var s := Run(Init(batchSize), acts);
    hide CanRun, Run, Init, OwnerInv, AcceptStep, MapInv, Inv, Current, Step;
    StepAccepts(s, r, bid, tid);
    InvParts(s);
    MapAt(s.batches, s.heap, r.biz);
    AcceptJoins(s, r, bid, tid);
    AcceptSpawns(s, r, bid, tid);
  }

  lemma StepAccepts(s: State, r: Request, bid: nat, tid: nat)
    requires Enabled(s, Add(r, bid, tid)) && !s.stopped
    ensures CanAdd(s, r, bid, tid) && Step(s, Add(r, bid, tid)) == AcceptStep(s, r, bid, tid)
  {
    hide AcceptStep;
  }

  lemma AcceptJoins(s: State, r: Request, bid: nat, tid: nat)
    requires CanAdd(s, r, bid, tid) && (r.biz in s.batches ==> s.batches[r.biz] in s.heap)
    ensures var s' := AcceptStep(s, r, bid, tid);
            Current(s'.batches, s'.heap, r.biz) == Current(s.batches, s.heap, r.biz) + [r]
  {
  }

  lemma AcceptSpawns(s: State, r: Request, bid: nat, tid: nat)
    requires CanAdd(s, r, bid, tid) && (r.biz in s.batches ==> s.batches[r.biz] in s.heap)
    ensures var s' := AcceptStep(s, r, bid, tid);
            s'.triggers == if |Current(s.batches, s.heap, r.biz)| + 1 >= s.batchSize
                           then s.triggers[tid := Trigger(r.biz, BySize, Pending)] else s.triggers
  {
  }

  // ----- exactly one result each

  lemma SendsAt(s: State, r: Request)
    requires SendsInv(s.sends, s.place, s.heap, s.triggers) && RejectedInv(s.sends, s.place, s.clients)
    ensures |At(s.sends, r)| <= 1
  {
  }

  /** No ResultChan ever sees a second send, so neither `default` branch (lines 257 and 277) is ever taken. */
  lemma AtMostOneSend(batchSize: int, acts: seq<Action>, r: Request)
    requires CanRun(Init(batchSize), acts)
    ensures var s := Run(Init(batchSize), acts);
            |At(s.sends, r)| <= 1 && s.drops == 0
  {
    Reachable(batchSize, acts);
    var s := Run(Init(batchSize), acts);
    hide MapInv, TakenInv, HeapInv, PartitionInv, PlaceInv, OwnerInv, TakerInv, LivenessInv,
         CloseInv, StopTriggersInv, DrainInv, PlacedClients, BufferInv, SendsInv, RejectedInv;
    SendsAt(s, r);
  }

  // ----- batching refines serving one request at a time

  /** A service of single messages: its answers, and the errors it may report instead. */
  datatype Service = Service(answer: (int, string) -> string, fails: Error -> bool)

  /** The processor answered each request of the batch as f would have answered it alone, or failed as a whole. */
  ghost predicate Pointwise(f: Service, biz: int, requests: seq<Request>, o: Outcome) {
    match o
    case Failed(e) => f.fails(e)
    case Responses(rs) =>
      && |rs| == |requests|
      && forall i :: 0 <= i < |requests| ==> rs[i] == f.answer(biz, requests[i].msg)
  }

  ghost predicate Follows(f: Service, s: State, a: Action)
    requires Enabled(s, a)
  {
    a.Reply? ==>
      var t := s.triggers[a.tid];
      t.stage.bid in s.heap && Pointwise(f, t.biz, s.heap[t.stage.bid].requests, a.outcome)
  }

  ghost predicate RunFollows(f: Service, s: State, acts: seq<Action>)
    requires CanRun(s, acts)
    decreases |acts|
  {
    acts == [] || (Follows(f, s, acts[0]) && RunFollows(f, Step(s, acts[0]), acts[1..]))
  }

  /** Every reply a goroutine is handing out was a pointwise one. */
  ghost predicate OutcomesInv(f: Service, s: State) {
    forall t :: t in s.triggers && s.triggers[t].stage.Scattering? ==>
      && s.triggers[t].stage.bid in s.heap
      && Pointwise(f, s.heap[s.triggers[t].stage.bid].biz, s.heap[s.triggers[t].stage.bid].requests,
                   s.triggers[t].stage.outcome)
  }

  lemma OutcomesAccept(f: Service, s: State, r: Request, bid: nat, tid: nat)
    requires MapInv(s.batches, s.heap) && OwnerInv(s.triggers, s.heap) && OutcomesInv(f, s)
    requires CanAdd(s, r, bid, tid)
    ensures OutcomesInv(f, AcceptStep(s, r, bid, tid))
  {
    MapAt(s.batches, s.heap, r.biz);
    hide MapInv;
  }

  /** No new outcome is recorded and no batch's requests change. */
  ghost predicate SameOutcomes(s: State, s': State) {
    && SameRequests(s.heap, s'.heap)
    && forall t :: t in s'.triggers && s'.triggers[t].stage.Scattering? ==>
         && t in s.triggers && s.triggers[t].stage.Scattering?
         && s'.triggers[t].stage.bid == s.triggers[t].stage.bid
         && s'.triggers[t].stage.outcome == s.triggers[t].stage.outcome
  }

  lemma OutcomesSame(f: Service, s: State, s': State)
    requires OutcomesInv(f, s) && SameOutcomes(s, s')
    ensures OutcomesInv(f, s')
  {
  }

  lemma BeginSameOutcomes(s: State, tid: nat)
    requires CanBegin(s, tid)
    ensures SameOutcomes(s, BeginStep(s, tid))
  {
  }

  lemma TakeSameOutcomes(s: State, tid: nat)
    requires CanTake(s, tid)
    ensures SameOutcomes(s, TakeStep(s, tid))
  {
  }

  lemma FireSameOutcomes(s: State, bid: nat, tid: nat)
    requires CanFire(s, bid, tid)
    ensures SameOutcomes(s, FireStep(s, bid, tid))
  {
  }

  lemma ScatterSameOutcomes(s: State, tid: nat)
    requires CanScatter(s, tid)
    ensures SameOutcomes(s, ScatterStep(s, tid))
  {
  }

  lemma SpawnSameOutcomes(s: State, sid: nat, biz: int, tid: nat)
    requires CanSpawn(s, sid, biz, tid)
    ensures SameOutcomes(s, SpawnStep(s, sid, biz, tid))
  {
  }

  lemma StepSameOutcomes(s: State, a: Action)
    requires Enabled(s, a) && !a.Add? && !a.Reply?
    ensures SameOutcomes(s, Step(s, a))
  {
    hide SameCallers, BeginStep, TakeStep, FireStep, ScatterStep, SpawnStep;
    match a
    case Begin(tid) => BeginSameOutcomes(s, tid); hide SameOutcomes;
    case Take(tid) => TakeSameOutcomes(s, tid); hide SameOutcomes;
    case Fire(bid, tid) => FireSameOutcomes(s, bid, tid); hide SameOutcomes;
    case Scatter(tid) => ScatterSameOutcomes(s, tid); hide SameOutcomes;
    case Spawn(sid, biz, tid) => SpawnSameOutcomes(s, sid, biz, tid); hide SameOutcomes;
    case _ =>
  }

  lemma RejectSameOutcomes(s: State, r: Request)
    ensures SameOutcomes(s, RejectStep(s, r))
  {
  }

  lemma OutcomesReply(f: Service, s: State, tid: nat, o: Outcome)
    requires OwnerInv(s.triggers, s.heap) && OutcomesInv(f, s)
    requires CanReply(s, tid) && Follows(f, s, Reply(tid, o))
    ensures OutcomesInv(f, ReplyStep(s, tid, o))
  {
  }

  lemma OutcomesKept(f: Service, s: State, a: Action)
    requires MapInv(s.batches, s.heap) && OwnerInv(s.triggers, s.heap) && OutcomesInv(f, s)
    requires Enabled(s, a) && Follows(f, s, a)
    ensures OutcomesInv(f, Step(s, a))
  {
    hide OutcomesInv, MapInv, OwnerInv, Follows, SameOutcomes, CheckStep, AcceptStep, FireStep, TakeStep, BeginStep,
         ReplyStep, ScatterStep, ReceiveStep, ObserveStep, StopStep, SpawnStep, CloseStep;
    match a
    case Add(r, bid, tid) =>
      if s.stopped {
        RejectSameOutcomes(s, r);
        OutcomesSame(f, s, RejectStep(s, r));
      } else {
        OutcomesAccept(f, s, r, bid, tid);
      }
    case Reply(tid, o) => OutcomesReply(f, s, tid, o);
    case _ =>
      StepSameOutcomes(s, a);
      OutcomesSame(f, s, Step(s, a));
  }

  /** The specification: the life of one request served directly, with no batches. */
  datatype Status = Unknown | Submitted | Queued | Answered(result: Result) | Finished(result: Result)

  ghost function StatusOf(s: State, r: Request): Status {
    if r !in s.clients then Unknown
    else match s.clients[r]
         case Refused => Finished(Failure(CoordinatorStopped))
         case Checked => Submitted
         case Waiting => if At(s.sends, r) == [] then Queued else Answered(At(s.sends, r)[0])
         case Returned(x) => Finished(x)
  }

  /** One move of the direct service: accept a request, answer it as f answers it or with an error of f, hand the
      answer back, or, once the service has been stopped, turn it away; a stopped service accepts nothing. */
  ghost predicate DirectStep(f: Service, r: Request, x: Status, y: Status, stopped: bool) {
    || (!stopped && x.Unknown? && y.Submitted?)
    || (!stopped && x.Submitted? && y.Queued?)
    || (x.Queued? && y.Answered? && (y.result == Answer(f.answer(r.biz, r.msg)) || IsFailure(f, y.result)))
    || (x.Answered? && y == Finished(x.result))
    || (stopped && (x.Unknown? || x.Queued? || x.Answered?) && y == Finished(Failure(CoordinatorStopped)))
    || (stopped && x.Submitted? && y == Answered(Failure(CoordinatorStopped)))
  }

  ghost predicate IsFailure(f: Service, result: Result) {
    result.Failure? && f.fails(result.error)
  }

  /** The request a step serves, if any. */
  ghost function Mover(s: State, a: Action): Option<Request>
    requires Enabled(s, a)
  {
    match a
    case Check(r) => Some(r)
    case Add(r, _, _) => Some(r)
    case Receive(r) => Some(r)
    case Observe(r) => Some(r)
    case Scatter(tid) => Some(s.heap[s.triggers[tid].stage.bid].requests[s.triggers[tid].stage.next])
    case _ => None
  }

  lemma SameStatus(s: State, s': State, q: Request)
    requires At(s'.sends, q) == At(s.sends, q)
    requires q in s'.clients <==> q in s.clients
    requires q in s.clients ==> s'.clients[q] == s.clients[q]
    ensures StatusOf(s', q) == StatusOf(s, q)
  {
  }

  lemma OthersUnmoved(s: State, a: Action, q: Request)
    requires Enabled(s, a) && Mover(s, a) != Some(q)
    ensures StatusOf(Step(s, a), q) == StatusOf(s, q)
  {
    hide AddStep, ScatterStep, AcceptStep, TakeStep, FireStep, BeginStep, ReplyStep, StopStep, SpawnStep, CloseStep, StatusOf;
    match a
    case Check(_) => SameStatus(s, Step(s, a), q);
    case Add(r, bid, tid) => OtherAdds(s, r, bid, tid, q);
    case Scatter(tid) => OtherScatters(s, tid, q);
    case Receive(_) => SameStatus(s, Step(s, a), q);
    case Observe(_) => SameStatus(s, Step(s, a), q);
    case _ => SameStatus(s, Step(s, a), q);
  }

  lemma OtherAdds(s: State, r: Request, bid: nat, tid: nat, q: Request)
    requires CanAdd(s, r, bid, tid) && r != q
    ensures StatusOf(AddStep(s, r, bid, tid), q) == StatusOf(s, q)
  {
    hide AcceptStep, StatusOf;
    SameStatus(s, AddStep(s, r, bid, tid), q);
  }

  lemma OtherScatters(s: State, tid: nat, q: Request)
    requires CanScatter(s, tid) && s.heap[s.triggers[tid].stage.bid].requests[s.triggers[tid].stage.next] != q
    ensures StatusOf(ScatterStep(s, tid), q) == StatusOf(s, q)
  {
    hide StatusOf;
    SameStatus(s, ScatterStep(s, tid), q);
  }

  lemma ScatterIsDirect(f: Service, s: State, tid: nat, r: Request)
    requires CanScatter(s, tid) && Mover(s, Scatter(tid)) == Some(r) && Inv(s) && OutcomesInv(f, s)
    ensures DirectStep(f, r, StatusOf(s, r), StatusOf(ScatterStep(s, tid), r), s.stopped)
         || StatusOf(ScatterStep(s, tid), r) == StatusOf(s, r)
  {
    hide MapInv, TakenInv, HeapInv, PartitionInv, PlaceInv, OwnerInv, TakerInv, SendsInv, LivenessInv,
         CloseInv, StopTriggersInv, DrainInv, RejectedInv, BufferInv, PlacedClients, OutcomesInv, DirectStep, StatusOf,
         ScatterStep, Past, Pointwise;
    NextChannelIsFresh(s, tid);
    PlacedAt(s.heap, s.place, s.clients, r);
    OutcomeAt(f, s, tid);
    SendIsDirect(f, s, tid, r);
  }

  lemma OutcomeAt(f: Service, s: State, tid: nat)
    requires OutcomesInv(f, s) && tid in s.triggers && s.triggers[tid].stage.Scattering?
    ensures s.triggers[tid].stage.bid in s.heap
    ensures Pointwise(f, s.heap[s.triggers[tid].stage.bid].biz, s.heap[s.triggers[tid].stage.bid].requests,
                      s.triggers[tid].stage.outcome)
  {
  }

  lemma SendIsDirect(f: Service, s: State, tid: nat, r: Request)
    requires CanScatter(s, tid) && Mover(s, Scatter(tid)) == Some(r)
    requires Past(s.clients, r) && At(s.sends, r) == []
    requires s.heap[s.triggers[tid].stage.bid].biz == r.biz
    requires Pointwise(f, r.biz, s.heap[s.triggers[tid].stage.bid].requests, s.triggers[tid].stage.outcome)
    ensures DirectStep(f, r, StatusOf(s, r), StatusOf(ScatterStep(s, tid), r), s.stopped)
         || StatusOf(ScatterStep(s, tid), r) == StatusOf(s, r)
  {
    var st := s.triggers[tid].stage;
    assert At(ScatterStep(s, tid).sends, r) == [Delivery(st.outcome, |s.heap[st.bid].requests|, st.next)];
  }

  lemma PlacedAt(heap: map<nat, Batch>, place: map<Request, Place>, clients: map<Request, Client>, r: Request)
    requires PlaceInv(heap, place) && PlacedClients(place, clients) && r in place
    ensures Past(clients, r) && place[r].bid in heap && heap[place[r].bid].biz == r.biz
    ensures place[r].index < |heap[place[r].bid].requests| && heap[place[r].bid].requests[place[r].index] == r
  {
  }

  lemma ReceiveIsDirect(f: Service, s: State, r: Request)
    requires BufferInv(s.buffers, s.sends, s.clients) && CanReceive(s, r)
    ensures DirectStep(f, r, StatusOf(s, r), StatusOf(ReceiveStep(s, r), r), s.stopped)
  {
    assert At(s.sends, r) == [s.buffers[r]];
  }

  lemma StopIsDirect(f: Service, s: State, r: Request)
    requires CloseInv(s.stopped, s.closes, s.stops, s.batches, s.discarded) && CanObserve(s, r)
    ensures DirectStep(f, r, StatusOf(s, r), StatusOf(ObserveStep(s, r), r), s.stopped)
  {
  }

  lemma AddIsDirect(f: Service, s: State, r: Request, bid: nat, tid: nat)
    requires CanAdd(s, r, bid, tid) && At(s.sends, r) == []
    ensures DirectStep(f, r, StatusOf(s, r), StatusOf(AddStep(s, r, bid, tid), r), s.stopped)
  {
  }

  lemma MoveIsDirect(f: Service, s: State, a: Action, r: Request)
    requires Inv(s) && Enabled(s, a) && OutcomesInv(f, s) && Mover(s, a) == Some(r)
    ensures StatusOf(Step(s, a), r) == StatusOf(s, r)
         || DirectStep(f, r, StatusOf(s, r), StatusOf(Step(s, a), r), s.stopped)
  {
    hide MapInv, TakenInv, HeapInv, PartitionInv, PlaceInv, OwnerInv, TakerInv, SendsInv, LivenessInv,
         CloseInv, StopTriggersInv, DrainInv, PlacedClients, RejectedInv, BufferInv, OutcomesInv,
         AddStep, ScatterStep, DirectStep;
    match a
    case Scatter(tid) => ScatterIsDirect(f, s, tid, r);
    case Add(_, bid, tid) =>
      CheckedIsClean(s, r);
      AddIsDirect(f, s, r, bid, tid);
    case Receive(_) => ReceiveIsDirect(f, s, r);
    case Observe(_) => StopIsDirect(f, s, r);
    case Check(_) => CheckIsDirect(f, s, r);
  }

  lemma CheckIsDirect(f: Service, s: State, r: Request)
    requires CanCheck(s, r)
    ensures DirectStep(f, r, StatusOf(s, r), StatusOf(CheckStep(s, r), r), s.stopped)
  {
  }

  /** Every step of the batched coordinator is a step of the direct service for at most one request, and leaves
      every other request's status alone. */
  lemma StepRefinesDirect(f: Service, s: State, a: Action, q: Request)
    requires Inv(s) && Enabled(s, a) && OutcomesInv(f, s)
    ensures StatusOf(Step(s, a), q) == StatusOf(s, q)
         || (Mover(s, a) == Some(q)
             && DirectStep(f, q, StatusOf(s, q), StatusOf(Step(s, a), q), s.stopped))
  {
    hide Inv, OutcomesInv, DirectStep;
    if Mover(s, a) == Some(q) {
      MoveIsDirect(f, s, a, q);
    } else {
      OthersUnmoved(s, a, q);
    }
  }

  /** What an observer of one request sees of a state: its status, and whether Stop has been called. */
  datatype Sight = Sight(status: Status, stopped: bool)

  ghost function SightOf(s: State, r: Request): Sight {
    Sight(StatusOf(s, r), s.stopped)
  }

  /** The status stays or makes one move of the direct service, which only a service already stopped may refuse. */
  ghost predicate Follow(f: Service, r: Request, x: Sight, y: Sight) {
    && (x.stopped ==> y.stopped)
    && (y.status == x.status || DirectStep(f, r, x.status, y.status, x.stopped))
  }

  ghost predicate Moves(f: Service, r: Request, sights: seq<Sight>) {
    forall i :: 0 < i < |sights| ==> Follow(f, r, sights[i - 1], sights[i])
  }

  /** A run of the direct service as seen by an observer of request r. */
  ghost predicate DirectPath(f: Service, r: Request, sights: seq<Sight>) {
    sights != [] && sights[0] == Sight(Unknown, false) && Moves(f, r, sights)
  }

  lemma MovesPrepend(f: Service, r: Request, x: Sight, sights: seq<Sight>)
    requires Moves(f, r, sights) && sights != [] && Follow(f, r, x, sights[0])
    ensures Moves(f, r, [x] + sights)
  {
    hide Follow;
    var o := [x] + sights;
    forall i | 0 < i < |o| ensures Follow(f, r, o[i - 1], o[i]) {
      assert o[i] == sights[i - 1];
      if i > 1 {
        assert o[i - 1] == sights[i - 2];
      }
    }
  }

  ghost function Observed(s: State, acts: seq<Action>, r: Request): (o: seq<Sight>)
    requires CanRun(s, acts)
    ensures |o| == |acts| + 1
    ensures o[0] == SightOf(s, r)
    decreases |acts|
  {
    if acts == [] then [SightOf(s, r)] else [SightOf(s, r)] + Observed(Step(s, acts[0]), acts[1..], r)
  }

  lemma StopIsForGood(s: State, a: Action)
    requires Enabled(s, a) && s.stopped
    ensures Step(s, a).stopped
  {
  }

  lemma StepFollows(f: Service, s: State, a: Action, r: Request)
    requires Inv(s) && Enabled(s, a) && OutcomesInv(f, s)
    ensures Follow(f, r, SightOf(s, r), SightOf(Step(s, a), r))
  {
    hide Inv, OutcomesInv, Step, Enabled, DirectStep, StatusOf, Mover;
    StepRefinesDirect(f, s, a, r);
    if s.stopped {
      StopIsForGood(s, a);
    }
  }

  lemma {:induction false} ObservedSteps(f: Service, s: State, acts: seq<Action>, r: Request)
    requires Inv(s) && OutcomesInv(f, s) && CanRun(s, acts) && RunFollows(f, s, acts)
    ensures Moves(f, r, Observed(s, acts, r))
    ensures OutcomesInv(f, Run(s, acts))
    decreases |acts|
  {
    if acts != [] {
      InvParts(s);
      hide Inv, OutcomesInv, Step, Enabled, Follows, MapInv, OwnerInv, Follow, SightOf, Moves;
      StepFollows(f, s, acts[0], r);
      StepKeeps(s, acts[0]);
      OutcomesKept(f, s, acts[0]);
      ObservedSteps(f, Step(s, acts[0]), acts[1..], r);
      MovesPrepend(f, r, SightOf(s, r), Observed(Step(s, acts[0]), acts[1..], r));
    }
  }

  /** Batching preserves meaning: with an order-preserving processor, whatever the interleaving, each request lives
      through a run of the direct service that calls f on that request alone, accepts it only before Stop, and turns it
      away only after Stop. */
  lemma BatchedRunRefinesDirect(f: Service, batchSize: int, acts: seq<Action>, r: Request)
    requires CanRun(Init(batchSize), acts) && RunFollows(f, Init(batchSize), acts)
    ensures DirectPath(f, r, Observed(Init(batchSize), acts, r))
  {
    InitInv(batchSize);
    hide Inv, RunFollows, CanRun;
    ObservedSteps(f, Init(batchSize), acts, r);
  }

  /** What a caller may be told: f's own answer, an error of f, or, after Stop, that the coordinator has stopped. */
  ghost predicate Deserved(f: Service, r: Request, result: Result, stopped: bool) {
    || result == Answer(f.answer(r.biz, r.msg))
    || IsFailure(f, result)
    || (stopped && result == Failure(CoordinatorStopped))
  }

  lemma {:induction false} PathAnswers(f: Service, r: Request, sights: seq<Sight>, i: nat)
    requires DirectPath(f, r, sights) && i < |sights|
    ensures sights[i].status.Answered? || sights[i].status.Finished? ==>
              Deserved(f, r, sights[i].status.result, sights[i].stopped)
    decreases i
  {
    if i > 0 {
      PathAnswers(f, r, sights, i - 1);
      assert Follow(f, r, sights[i - 1], sights[i]);
    }
  }

  lemma {:induction false} ObservedLast(s: State, acts: seq<Action>, r: Request)
    requires CanRun(s, acts)
    ensures Observed(s, acts, r)[|acts|] == SightOf(Run(s, acts), r)
    decreases |acts|
  {
    if acts != [] {
      ObservedLast(Step(s, acts[0]), acts[1..], r);
    }
  }

  lemma ResultIsDeserved(f: Service, batchSize: int, acts: seq<Action>, r: Request)
    requires CanRun(Init(batchSize), acts) && RunFollows(f, Init(batchSize), acts)
    ensures var s := Run(Init(batchSize), acts);
            StatusOf(s, r).Finished? ==> Deserved(f, r, StatusOf(s, r).result, s.stopped)
  {
    BatchedRunRefinesDirect(f, batchSize, acts, r);
    hide DirectPath, Deserved, StatusOf, CanRun, Run, RunFollows;
    PathAnswers(f, r, Observed(Init(batchSize), acts, r), |acts|);
    ObservedLast(Init(batchSize), acts, r);
  }

  /** A caller that got a response got f's answer to its own request, never another batch member's. */
  lemma CallerGetsItsOwnAnswer(f: Service, batchSize: int, acts: seq<Action>, r: Request)
    requires CanRun(Init(batchSize), acts) && RunFollows(f, Init(batchSize), acts)
    ensures var s := Run(Init(batchSize), acts);
            r in s.clients && s.clients[r].Returned? && s.clients[r].result.Answer? ==>
              s.clients[r].result == Answer(f.answer(r.biz, r.msg))
  {
    ResultIsDeserved(f, batchSize, acts, r);
  }

  /** Unless the processor itself reports that error, a caller is told that the coordinator has stopped only after a
      call of Stop; any other error it gets is one of the processor's. */
  lemma ToldStoppedOnlyAfterStop(f: Service, batchSize: int, acts: seq<Action>, r: Request)
    requires CanRun(Init(batchSize), acts) && RunFollows(f, Init(batchSize), acts) && !f.fails(CoordinatorStopped)
    ensures var s := Run(Init(batchSize), acts);
            && (r in s.clients && s.clients[r].Refused? ==> s.stopped)
            && (r in s.clients && s.clients[r].Returned? && s.clients[r].result.Failure? ==>
                  if s.clients[r].result.error == CoordinatorStopped then s.stopped
                  else f.fails(s.clients[r].result.error))
  {
    ResultIsDeserved(f, batchSize, acts, r);
  }
}
