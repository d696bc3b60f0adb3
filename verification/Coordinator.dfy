/**
 The coordinator as an object: the fields of the Go struct, and one method per region that runs under a lock.
 `trace` records the steps performed; Valid says the object is where that run of the state machine leads, so every
 theorem about reachable states holds of it. The bookkeeping of goroutines and callers is ghost.
 */
module Coordinator {
  import opened Common
  import M = CoordinatorModel
  import P = CoordinatorProofs

  lemma AllDelivered(sends: map<M.Request, seq<M.Result>>, place: map<M.Request, M.Place>, heap: map<nat, M.Batch>,
                     triggers: map<nat, M.Trigger>, tid: nat, b: nat, outcome: M.Outcome)
    requires M.SendsInv(sends, place, heap, triggers) && M.PlaceInv(heap, place)
    requires tid in triggers && b in heap && heap[b].taker == Some(tid)
    requires triggers[tid].stage == M.Scattering(b, outcome, |heap[b].requests|)
    ensures forall i :: 0 <= i < |heap[b].requests| ==>
              At(sends, heap[b].requests[i]) == [M.Delivery(outcome, |heap[b].requests|, i)]
  {
    forall i | 0 <= i < |heap[b].requests|
      ensures At(sends, heap[b].requests[i]) == [M.Delivery(outcome, |heap[b].requests|, i)]
    {
      assert place[heap[b].requests[i]] == M.Place(b, i);
    }
  }

  class Coordinator {
    const batchSize: int
    const processor: (int, seq<string>) -> M.Outcome
    var batches: map<int, nat>
    var heap: map<nat, M.Batch>
    var nextBatch: nat
    var stopped: bool
    var closes: nat
    var buffers: map<M.Request, M.Result>
    ghost var triggers: map<nat, M.Trigger>
    ghost var stops: map<nat, M.StopCall>
    ghost var clients: map<M.Request, M.Client>
    ghost var accepted: map<int, seq<M.Request>>
    ghost var taken: map<int, seq<nat>>
    ghost var place: map<M.Request, M.Place>
    ghost var sends: map<M.Request, seq<M.Result>>
    ghost var drops: nat
    ghost var discarded: nat
    ghost var trace: seq<M.Action>

    ghost function Model(): M.State
      reads this
    {
      M.State(batchSize, batches, heap, triggers, stopped, closes, stops, clients, buffers, accepted, taken, place,
              sends, drops, discarded)
    }

    ghost predicate Valid()
      reads this
    {
      && M.CanRun(M.Init(batchSize), trace)
      && M.Run(M.Init(batchSize), trace) == Model()
      && (forall b :: b in heap ==> b < nextBatch)
    }

    constructor (batchSize: int, processor: (int, seq<string>) -> M.Outcome)
      ensures Valid() && trace == [] && this.batchSize == batchSize && this.processor == processor
    {
      this.batchSize, this.processor := batchSize, processor;
      batches, heap, nextBatch, stopped, closes, buffers := map[], map[], 0, false, 0, map[];
      triggers, stops, clients, accepted, taken, place := map[], map[], map[], map[], map[], map[];
      sends, drops, discarded, trace := map[], 0, 0, [];
    }

    lemma Sound()
      requires Valid()
      ensures M.Inv(Model())
    {
      hide M.Inv;
      P.Reachable(batchSize, trace);
    }

    /** The step just performed on the fields was step a of the machine. */
    ghost method Record(before: M.State, a: M.Action)
      requires M.CanRun(M.Init(batchSize), trace) && M.Run(M.Init(batchSize), trace) == before
      requires M.Enabled(before, a) && Model() == M.Step(before, a)
      requires forall x :: x in heap ==> x < nextBatch
      modifies this`trace
      ensures Valid() && trace == old(trace) + [a]
    {
      hide M.Step, M.Enabled, M.CanRun, M.Run;
      P.RunAppend(M.Init(batchSize), trace, a);
      trace := trace + [a];
    }

    lemma InMap(biz: int)
      requires Valid()
      ensures biz in batches ==> batches[biz] in heap
    {
      Sound();
      hide M.Inv, M.MapInv, M.OwnerInv, M.CanRun, M.Run;
      P.InvParts(Model());
      P.MapAt(batches, heap, biz);
    }

    /** OnReceive's check before it creates the request (lines 91-96). */
    method Admit(r: M.Request) returns (admitted: bool)
      requires Valid() && M.CanCheck(Model(), r)
      modifies this`clients, this`trace
      ensures Valid() && trace == old(trace) + [M.Check(r)]
      ensures Model() == M.CheckStep(old(Model()), r)
      ensures admitted == !stopped
    {
      ghost var before := Model();
      admitted := !stopped;
      clients := clients[r := if stopped then M.Refused else M.Checked];
      hide M.CanRun, M.Run;
      Record(before, M.Check(r));
    }

    /** A non-blocking send on r's channel of capacity one. */
    method TrySend(r: M.Request, res: M.Result)
      modifies this`buffers, this`sends, this`drops
      ensures Model() == M.TrySend(old(Model()), r, res)
    {
      if r in buffers {
        drops := drops + 1;
      } else {
        buffers := buffers[r := res];
      }
      sends := sends[r := At(sends, r) + [res]];
    }

    /** Lines 135-160: find or create the batch of r's bizID, arm its timer if it is new, and append r. */
    method Join(r: M.Request) returns (b: nat)
      requires r.biz in batches ==> batches[r.biz] in heap
      requires forall x :: x in heap ==> x < nextBatch
      modifies this`batches, this`heap, this`nextBatch
      ensures b == M.Target(old(batches), r, old(nextBatch))
      ensures batches == old(batches)[r.biz := b]
      ensures heap == old(heap)[b := M.Joined(old(batches), old(heap), r)]
      ensures b in heap && heap[b].requests != []
      ensures forall x :: x in heap ==> x < nextBatch
    {
      if r.biz in batches {
        b := batches[r.biz];
        heap := heap[b := heap[b].(requests := heap[b].requests + [r])];
        assert batches == old(batches)[r.biz := b];
      } else {
        b := nextBatch;
        heap := heap[b := M.Batch(r.biz, [r], false, M.Armed, None)];
        batches := batches[r.biz := b];
        nextBatch := nextBatch + 1;
      }
    }

    method Accept(r: M.Request, ghost tid: nat)
      requires r.biz in batches ==> batches[r.biz] in heap
      requires forall x :: x in heap ==> x < nextBatch
      modifies this`clients, this`batches, this`heap, this`nextBatch, this`accepted, this`place, this`triggers
      ensures Model() == M.AcceptStep(old(Model()), r, old(nextBatch), tid)
      ensures forall x :: x in heap ==> x < nextBatch
    {
      hide M.Target, M.Joined, M.MaybeSpawn;
      var b := Join(r);
      Enrol(r, b, |heap[b].requests|, tid);
    }

    ghost method Enrol(r: M.Request, b: nat, size: nat, tid: nat)
      requires size > 0
      modifies this`clients, this`accepted, this`place, this`triggers
      ensures clients == old(clients)[r := M.Waiting]
      ensures accepted == old(accepted)[r.biz := At(old(accepted), r.biz) + [r]]
      ensures place == old(place)[r := M.Place(b, size - 1)]
      ensures triggers == M.MaybeSpawn(batchSize, old(triggers), r.biz, size, tid)
    {
      clients := clients[r := M.Waiting];
      accepted := accepted[r.biz := At(accepted, r.biz) + [r]];
      place := place[r := M.Place(b, size - 1)];
      SpawnIfFull(r.biz, size, tid);
    }

    /** Lines 169-173. */
    ghost method SpawnIfFull(biz: int, size: nat, tid: nat)
      modifies this`triggers
      ensures triggers == M.MaybeSpawn(batchSize, old(triggers), biz, size, tid)
    {
      if size >= batchSize {
        triggers := triggers[tid := M.Trigger(biz, M.BySize, M.Pending)];
      }
    }

    /** addToBatch: refuse after Stop, otherwise join the batch and start a goroutine for it if it is full. */
    method AddToBatch(r: M.Request, ghost tid: nat)
      requires Valid() && M.CanAdd(Model(), r, nextBatch, tid)
      modifies this
      ensures Valid() && trace == old(trace) + [M.Add(r, old(nextBatch), tid)]
      ensures Model() == M.AddStep(old(Model()), r, old(nextBatch), tid)
    {
      ghost var before, bid := Model(), nextBatch;
      InMap(r.biz);
      hide M.CanRun, M.Run, M.AcceptStep, M.TrySend;
      if stopped {
        clients := clients[r := M.Waiting];
        TrySend(r, M.Failure(M.CoordinatorStopped));
      } else {
        Accept(r, tid);
      }
      Record(before, M.Add(r, bid, tid));
    }

    method TakeOut(tid: nat, biz: int) returns (found: bool, b: nat)
      requires M.CanTake(Model(), tid) && triggers[tid].biz == biz
      requires biz in batches ==> batches[biz] in heap
      modifies this`batches, this`heap, this`taken, this`triggers
      ensures Model() == M.TakeStep(old(Model()), tid)
      ensures found == (biz in old(batches)) && (found ==> b == old(batches)[biz] && b in heap)
      ensures found ==> b in old(heap) && heap[b].requests == old(heap)[b].requests
      ensures biz !in batches
      ensures tid in triggers && triggers[tid].stage == if found then M.Holding(b) else M.Idle
      ensures heap.Keys == old(heap).Keys
    {
      found := biz in batches;
      if found {
        b := batches[biz];
        batches := batches - {biz};
        heap := heap[b := heap[b].(taker := Some(tid))];
        taken := taken[biz := At(taken, biz) + [b]];
        triggers := triggers[tid := triggers[tid].(stage := M.Holding(b))];
      } else {
        b := 0;
        assert batches - {biz} == batches;
        triggers := triggers[tid := triggers[tid].(stage := M.Idle)];
      }
    }

    /** The part of triggerBatch under the map lock (lines 178-187). */
    method Detach(tid: nat, biz: int) returns (found: bool, b: nat)
      requires Valid() && M.CanTake(Model(), tid) && triggers[tid].biz == biz
      modifies this`batches, this`heap, this`taken, this`triggers, this`trace
      ensures Valid() && trace == old(trace) + [M.Take(tid)]
      ensures Model() == M.TakeStep(old(Model()), tid)
      ensures found == (biz in old(batches)) && (found ==> b == old(batches)[biz] && b in heap)
      ensures found ==> b in old(heap) && heap[b].requests == old(heap)[b].requests
      ensures biz !in batches
      ensures tid in triggers && triggers[tid].stage == if found then M.Holding(b) else M.Idle
    {
      ghost var before := Model();
      InMap(biz);
      hide M.CanRun, M.Run, M.TakeStep;
      found, b := TakeOut(tid, biz);
      Record(before, M.Take(tid));
    }

    method Seal(ghost tid: nat, b: nat)
      requires M.CanBegin(Model(), tid) && triggers[tid].stage.bid == b
      requires !heap[b].closed && heap[b].requests != []
      modifies this`heap, this`triggers
      ensures Model() == M.BeginStep(old(Model()), tid)
      ensures heap.Keys == old(heap).Keys
      ensures tid in triggers && triggers[tid].stage == M.Processing(b)
      ensures b in heap && heap[b].requests == old(heap)[b].requests && heap[b].closed
      ensures heap[b].timer == if old(heap)[b].timer == M.Armed then M.Cancelled else old(heap)[b].timer
    {
      if heap[b].timer.Armed? {
        heap := heap[b := heap[b].(timer := M.Cancelled)];
      }
      heap := heap[b := heap[b].(closed := true)];
      triggers := triggers[tid := triggers[tid].(stage := M.Processing(b))];
    }

    /** A batch just taken is open and has requests. */
    lemma OpenAndFull(tid: nat)
      requires Valid() && M.CanBegin(Model(), tid)
      ensures !heap[triggers[tid].stage.bid].closed && heap[triggers[tid].stage.bid].requests != []
    {
      Sound();
      hide M.MapInv, M.TakenInv, M.HeapInv, M.PartitionInv, M.OwnerInv, M.TakerInv, M.LivenessInv, M.PlaceInv,
           M.CloseInv, M.StopTriggersInv, M.DrainInv, M.PlacedClients, M.RejectedInv, M.BufferInv, M.SendsInv;
      P.OwnerAt(triggers, heap, tid);
      P.NonEmptyAt(heap, batches, taken, triggers[tid].stage.bid);
    }

    /** Lines 193-203: the early return is never taken; the batch's timer is stopped and the batch closed. */
    method CloseBatch(ghost tid: nat, b: nat)
      requires Valid() && M.CanBegin(Model(), tid) && triggers[tid].stage.bid == b
      modifies this`heap, this`triggers, this`trace
      ensures Valid() && trace == old(trace) + [M.Begin(tid)]
      ensures Model() == M.BeginStep(old(Model()), tid)
      ensures b in heap && tid in triggers && triggers[tid].stage == M.Processing(b)
      ensures heap[b].requests == old(heap)[b].requests && heap[b].closed && heap[b].timer != M.Armed
    {
      ghost var before := Model();
      OpenAndFull(tid);
      hide M.CanRun, M.Run, M.BeginStep;
      Seal(tid, b);
      Record(before, M.Begin(tid));
    }

    /** distributeError and distributeResults: one send per request, in order. Afterwards every request of the batch
        has been sent one thing: the processor's error, or the response in its own place, or, if the numbers do not
        match, that they do not. */
    method Distribute(ghost tid: nat, b: nat, outcome: M.Outcome)
      requires Valid() && tid in triggers && triggers[tid].stage == M.Scattering(b, outcome, 0) && b in heap
      modifies this`buffers, this`sends, this`drops, this`triggers, this`trace
      ensures Valid() && old(trace) <= trace
      ensures forall i :: 0 <= i < |heap[b].requests| ==>
                At(sends, heap[b].requests[i]) == [if outcome.Failed? then M.Failure(outcome.error)
                                                   else if |outcome.responses| == |heap[b].requests|
                                                   then M.Answer(outcome.responses[i])
                                                   else M.Failure(M.ResponseMismatch)]
    {
      hide M.Inv, M.CanRun, M.Run;
      var requests := heap[b].requests;
      var i := 0;
      while i < |requests|
        invariant 0 <= i <= |requests| == |heap[b].requests|
        invariant Valid() && old(trace) <= trace
        invariant tid in triggers && triggers[tid].stage == M.Scattering(b, outcome, i)
      {
        SendNext(tid, b, outcome, i);
        i := i + 1;
      }
      Sound();
      DeliveredBy(tid, b, outcome);
    }

    method SendNext(ghost tid: nat, b: nat, outcome: M.Outcome, i: nat)
      requires Valid() && tid in triggers && triggers[tid].stage == M.Scattering(b, outcome, i)
      requires b in heap && i < |heap[b].requests|
      modifies this`buffers, this`sends, this`drops, this`triggers, this`trace
      ensures Valid() && trace == old(trace) + [M.Scatter(tid)]
      ensures tid in triggers && triggers[tid].stage == M.Scattering(b, outcome, i + 1)
    {
      ghost var before := Model();
      hide M.CanRun, M.Run, M.TrySend;
      var requests := heap[b].requests;
      triggers := triggers[tid := triggers[tid].(stage := M.Scattering(b, outcome, i + 1))];
      TrySend(requests[i], M.Delivery(outcome, |requests|, i));
      Record(before, M.Scatter(tid));
    }

    lemma DeliveredBy(tid: nat, b: nat, outcome: M.Outcome)
      requires M.Inv(Model()) && tid in triggers && b in heap
      requires triggers[tid].stage == M.Scattering(b, outcome, |heap[b].requests|)
      ensures forall i :: 0 <= i < |heap[b].requests| ==>
                At(sends, heap[b].requests[i]) == [if outcome.Failed? then M.Failure(outcome.error)
                                                   else if |outcome.responses| == |heap[b].requests|
                                                   then M.Answer(outcome.responses[i])
                                                   else M.Failure(M.ResponseMismatch)]
    {
      hide M.MapInv, M.TakenInv, M.HeapInv, M.PartitionInv, M.OwnerInv, M.TakerInv, M.LivenessInv, M.PlaceInv,
           M.CloseInv, M.StopTriggersInv, M.DrainInv, M.PlacedClients, M.RejectedInv, M.BufferInv, M.SendsInv;
      P.OwnerAt(triggers, heap, tid);
      AllDelivered(sends, place, heap, triggers, tid, b, outcome);
    }

    /** triggerBatch, undisturbed: it takes the batch of its bizID, if there is one, calls the processor on that
        batch's messages and leaves every request of the batch with the processor's answer to it. */
    method TriggerBatch(tid: nat, biz: int)
      requires Valid() && M.CanTake(Model(), tid) && triggers[tid].biz == biz
      modifies this`batches, this`heap, this`taken, this`triggers, this`trace, this`buffers, this`sends, this`drops
      ensures Valid() && old(trace) <= trace
      ensures biz !in batches && drops == 0
      ensures biz in old(batches) && old(batches)[biz] in old(heap) ==>
        var requests := old(heap)[old(batches)[biz]].requests;
        var outcome := processor(biz, Messages(requests));
        forall i :: 0 <= i < |requests| ==>
          At(sends, requests[i]) == [if outcome.Failed? then M.Failure(outcome.error)
                                     else if |outcome.responses| == |requests| then M.Answer(outcome.responses[i])
                                     else M.Failure(M.ResponseMismatch)]
    {
      hide M.CanRun, M.Run, M.TakeStep, M.BeginStep, M.ReplyStep;
      var found, b := Detach(tid, biz);
      if found {
        CloseBatch(tid, b);
        var requests := heap[b].requests;
        var outcome := processor(biz, Messages(requests));
        Receive(tid, b, outcome);
        Distribute(tid, b, outcome);
      }
      NoDrops();
    }

    lemma NoDrops()
      requires Valid()
      ensures drops == 0
    {
      Sound();
      hide M.MapInv, M.TakenInv, M.HeapInv, M.PartitionInv, M.PlaceInv, M.OwnerInv, M.TakerInv, M.SendsInv,
           M.LivenessInv, M.CloseInv, M.StopTriggersInv, M.DrainInv, M.PlacedClients, M.RejectedInv, M.BufferInv;
    }

    ghost method Receive(tid: nat, b: nat, outcome: M.Outcome)
      requires Valid() && tid in triggers && triggers[tid].stage == M.Processing(b)
      modifies this`triggers, this`trace
      ensures Valid() && trace == old(trace) + [M.Reply(tid, outcome)]
      ensures Model() == M.ReplyStep(old(Model()), tid, outcome)
      ensures tid in triggers && triggers[tid].stage == M.Scattering(b, outcome, 0)
    {
      var before := Model();
      hide M.CanRun, M.Run;
      triggers := triggers[tid := triggers[tid].(stage := M.Scattering(b, outcome, 0))];
      Record(before, M.Reply(tid, outcome));
    }
  }

  /** The request bodies handed to the processor (lines 212-215). */
  function Messages(requests: seq<M.Request>): (ms: seq<string>)
    ensures |ms| == |requests| && forall i :: 0 <= i < |requests| ==> ms[i] == requests[i].msg
  {
    seq(|requests|, i requires 0 <= i < |requests| => requests[i].msg)
  }
}
