/**
 The batch coordinator of internal/linkevent/coordinator.go as a state machine.

 Every lock region, timer expiry, goroutine start, channel send and channel receive is one step, so a run is
 any interleaving of any number of OnReceive calls, timers, size triggers and Stop calls. Batches live in `heap`
 and the coordinator's map holds pointers (batch identities) into it, exactly as the Go map holds *Batch.
 */
module CoordinatorModel {
  import opened Common

  /** One OnReceive call; `id` stands for the identity of its *Request and of its ResultChan. */
  datatype Request = Request(id: nat, biz: int, msg: string)

  datatype Error = CoordinatorStopped | ResponseMismatch | UnknownBizID(biz: int) | MaxRetriesExceeded(cause: int)

  datatype Result = Answer(response: string) | Failure(error: Error)

  /** What the processor handed back for one batch. */
  datatype Outcome = Responses(responses: seq<string>) | Failed(error: Error)

  datatype TimerState = Armed | Fired | Cancelled

  datatype Batch = Batch(biz: int, requests: seq<Request>, closed: bool, timer: TimerState, taker: Option<nat>)

  /** Who started a goroutine running triggerBatch. */
  datatype Origin = ByTimer(bid: nat) | BySize | ByStop(stop: nat)

  /** Where such a goroutine stands: before the map lock, holding a detached batch, inside the processor,
      sending results from index `next` on, or returned without having taken a batch. */
  datatype Stage =
    | Pending
    | Holding(bid: nat)
    | Processing(bid: nat)
    | Scattering(bid: nat, outcome: Outcome, next: nat)
    | Idle

  datatype Trigger = Trigger(biz: int, origin: Origin, stage: Stage)

  datatype StopCall = Draining(todo: set<int>, spawned: set<nat>) | StopReturned

  datatype Client = Refused | Checked | Waiting | Returned(result: Result)

  datatype Place = Place(bid: nat, index: nat)

  /**
   `accepted`, `taken`, `place`, `sends`, `drops` and `discarded` are observations: the requests accepted per bizID
   in order, the batches taken per bizID in order, where each accepted request was put, every send attempted on
   each ResultChan, how many of them took a `default` branch, and how many batches the reset at line 330 lost.
   */
  datatype State = State(
    batchSize: int,
    batches: map<int, nat>,
    heap: map<nat, Batch>,
    triggers: map<nat, Trigger>,
    stopped: bool,
    closes: nat,
    stops: map<nat, StopCall>,
    clients: map<Request, Client>,
    buffers: map<Request, Result>,
    accepted: map<int, seq<Request>>,
    taken: map<int, seq<nat>>,
    place: map<Request, Place>,
    sends: map<Request, seq<Result>>,
    drops: nat,
    discarded: nat)

  function Init(batchSize: int): State {
    State(batchSize, map[], map[], map[], false, 0, map[], map[], map[], map[], map[], map[], map[], 0, 0)
  }

  datatype Action =
    | Check(r: Request)
    | Add(r: Request, bid: nat, tid: nat)
    | Fire(bid: nat, tid: nat)
    | Take(tid: nat)
    | Begin(tid: nat)
    | Reply(tid: nat, outcome: Outcome)
    | Scatter(tid: nat)
    | Receive(r: Request)
    | Observe(r: Request)
    | Stop(sid: nat)
    | Spawn(sid: nat, biz: int, tid: nat)
    | Close(sid: nat)

  /** What one request of a batch of n is sent, given what the processor returned (lines 221-249). */
  function Delivery(outcome: Outcome, n: nat, i: nat): Result
    requires i < n
  {
    match outcome
    case Failed(e) => Failure(e)
    case Responses(rs) => if |rs| != n then Failure(ResponseMismatch) else Answer(rs[i])
  }

  predicate Done(t: Trigger, heap: map<nat, Batch>) {
    || t.stage.Idle?
    || (t.stage.Scattering? && t.stage.bid in heap && t.stage.next >= |heap[t.stage.bid].requests|)
  }

  /** Callers, their channels and the record of acceptance are untouched. */
  ghost predicate SameCallers(s: State, s': State) {
    s'.clients == s.clients && s'.sends == s.sends && s'.buffers == s.buffers && s'.accepted == s.accepted
    && s'.place == s.place && s'.drops == s.drops
  }

  /** heap' has the same batches with the same requests; only timers, flags and takers may differ. */
  ghost predicate SameRequests(heap: map<nat, Batch>, heap': map<nat, Batch>) {
    && (forall b :: b in heap' ==> b in heap)
    && forall b :: b in heap ==> b in heap' && heap'[b].requests == heap[b].requests && heap'[b].biz == heap[b].biz
  }

  /** Lines 91-96: the unlocked fast path is a read of `stopped` under the read lock. */
  predicate CanCheck(s: State, r: Request) {
    r !in s.clients
  }

  function CheckStep(s: State, r: Request): State {
    s.(clients := s.clients[r := if s.stopped then Refused else Checked])
  }

  /** A non-blocking send on a ResultChan of capacity one: the `select` with a `default` branch. */
  function Deposit(s: State, r: Request, res: Result): map<Request, Result> {
    if r in s.buffers then s.buffers else s.buffers[r := res]
  }

  function TrySend(s: State, r: Request, res: Result): State {
    s.(sends := s.sends[r := At(s.sends, r) + [res]],
       buffers := Deposit(s, r, res),
       drops := if r in s.buffers then s.drops + 1 else s.drops)
  }

  predicate CanAdd(s: State, r: Request, bid: nat, tid: nat) {
    r in s.clients && s.clients[r].Checked? && bid !in s.heap && tid !in s.triggers
  }

  /** addToBatch, lines 122-174, one region under the coordinator's lock. `bid` is the identity of a batch created
      here and `tid` that of the size trigger started here, if any. */
  function AddStep(s: State, r: Request, bid: nat, tid: nat): State {
    if s.stopped then RejectStep(s, r) else AcceptStep(s, r, bid, tid)
  }

  function RejectStep(s: State, r: Request): State {
    TrySend(s.(clients := s.clients[r := Waiting]), r, Failure(CoordinatorStopped))
  }

  /** The batch r joins: the one in the map (lines 135-136), or a new one (137-157). */
  function Target(batches: map<int, nat>, r: Request, bid: nat): nat {
    if r.biz in batches then batches[r.biz] else bid
  }

  function Joined(batches: map<int, nat>, heap: map<nat, Batch>, r: Request): Batch {
    if r.biz in batches && batches[r.biz] in heap then
      heap[batches[r.biz]].(requests := heap[batches[r.biz]].requests + [r])
    else
      Batch(r.biz, [r], false, Armed, None)
  }

  /** Lines 169-173: a full batch gets a goroutine of its own. */
  function MaybeSpawn(batchSize: int, triggers: map<nat, Trigger>, biz: int, size: nat, tid: nat): map<nat, Trigger> {
    if size >= batchSize then triggers[tid := Trigger(biz, BySize, Pending)] else triggers
  }

  function AcceptStep(s: State, r: Request, bid: nat, tid: nat): (s': State)
    ensures s'.sends == s.sends && s'.clients == s.clients[r := Waiting] && s'.taken == s.taken && s'.closes == s.closes
  {
    var b, batch := Target(s.batches, r, bid), Joined(s.batches, s.heap, r);
    s.(clients := s.clients[r := Waiting],
       batches := s.batches[r.biz := b],
       heap := s.heap[b := batch],
       accepted := s.accepted[r.biz := At(s.accepted, r.biz) + [r]],
       place := s.place[r := Place(b, |batch.requests| - 1)],
       triggers := MaybeSpawn(s.batchSize, s.triggers, r.biz, |batch.requests|, tid))
  }

  predicate CanFire(s: State, bid: nat, tid: nat) {
    bid in s.heap && s.heap[bid].timer.Armed? && tid !in s.triggers
  }

  /** The batch's timer expires and starts a goroutine (lines 144-150). */
  function FireStep(s: State, bid: nat, tid: nat): (s': State)
    requires CanFire(s, bid, tid)
    ensures SameCallers(s, s')
  {
    s.(heap := s.heap[bid := s.heap[bid].(timer := Fired)],
       triggers := s.triggers[tid := Trigger(s.heap[bid].biz, ByTimer(bid), Pending)])
  }

  predicate CanTake(s: State, tid: nat) {
    tid in s.triggers && s.triggers[tid].stage.Pending?
  }

  predicate Found(s: State, biz: int) {
    biz in s.batches && s.batches[biz] in s.heap
  }

  function MarkTaken(s: State, biz: int, tid: nat): map<nat, Batch> {
    if Found(s, biz) then s.heap[s.batches[biz] := s.heap[s.batches[biz]].(taker := Some(tid))] else s.heap
  }

  function LogTaken(s: State, biz: int): map<int, seq<nat>> {
    if Found(s, biz) then s.taken[biz := At(s.taken, biz) + [s.batches[biz]]] else s.taken
  }

  function AfterTake(s: State, biz: int): Stage {
    if Found(s, biz) then Holding(s.batches[biz]) else Idle
  }

  /** The map region of triggerBatch, lines 178-187. */
  function TakeStep(s: State, tid: nat): (s': State)
    requires CanTake(s, tid)
    ensures SameCallers(s, s')
  {
    var t := s.triggers[tid];
    s.(batches := s.batches - {t.biz}, heap := MarkTaken(s, t.biz, tid), taken := LogTaken(s, t.biz),
       triggers := s.triggers[tid := t.(stage := AfterTake(s, t.biz))])
  }

  predicate CanBegin(s: State, tid: nat) {
    tid in s.triggers && s.triggers[tid].stage.Holding? && s.triggers[tid].stage.bid in s.heap
  }

  /** What lines 197-203 do to a batch that passes the check at line 193. */
  function Closing(b: Batch): Batch {
    if b.closed || b.requests == [] then b
    else b.(closed := true, timer := if b.timer.Armed? then Cancelled else b.timer)
  }

  function AfterBegin(b: Batch, bid: nat): Stage {
    if b.closed || b.requests == [] then Idle else Processing(bid)
  }

  /** Lines 190-203: under the batch's own lock, give up or stop the timer and close the batch. */
  function BeginStep(s: State, tid: nat): (s': State)
    requires CanBegin(s, tid)
    ensures SameCallers(s, s') && s'.taken == s.taken
  {
    var t := s.triggers[tid];
    var b := s.heap[t.stage.bid];
    s.(heap := s.heap[t.stage.bid := Closing(b)],
       triggers := s.triggers[tid := t.(stage := AfterBegin(b, t.stage.bid))])
  }

  predicate CanReply(s: State, tid: nat) {
    tid in s.triggers && s.triggers[tid].stage.Processing?
  }

  /** The processor returns (line 218). */
  function ReplyStep(s: State, tid: nat, outcome: Outcome): (s': State)
    requires CanReply(s, tid)
    ensures SameCallers(s, s') && s'.heap == s.heap && s'.taken == s.taken
  {
    var t := s.triggers[tid];
    s.(triggers := s.triggers[tid := t.(stage := Scattering(t.stage.bid, outcome, 0))])
  }

  predicate CanScatter(s: State, tid: nat) {
    && tid in s.triggers && s.triggers[tid].stage.Scattering? && s.triggers[tid].stage.bid in s.heap
    && s.triggers[tid].stage.next < |s.heap[s.triggers[tid].stage.bid].requests|
  }

  /** One iteration of distributeError or distributeResults. */
  function ScatterStep(s: State, tid: nat): (s': State)
    requires CanScatter(s, tid)
    ensures s'.heap == s.heap && s'.taken == s.taken && s'.accepted == s.accepted && s'.clients == s.clients
    ensures s'.place == s.place
    ensures s'.triggers == s.triggers[tid := s.triggers[tid].(stage := s.triggers[tid].stage.(next := s.triggers[tid].stage.next + 1))]
  {
    var t := s.triggers[tid];
    var rs := s.heap[t.stage.bid].requests;
    TrySend(s.(triggers := s.triggers[tid := t.(stage := t.stage.(next := t.stage.next + 1))]),
            rs[t.stage.next], Delivery(t.stage.outcome, |rs|, t.stage.next))
  }

  predicate CanReceive(s: State, r: Request) {
    r in s.clients && s.clients[r].Waiting? && r in s.buffers
  }

  /** The caller's select takes its result (lines 110-114). */
  function ReceiveStep(s: State, r: Request): State
    requires CanReceive(s, r)
  {
    s.(clients := s.clients[r := Returned(s.buffers[r])], buffers := s.buffers - {r})
  }

  predicate CanObserve(s: State, r: Request) {
    r in s.clients && s.clients[r].Waiting? && s.closes > 0
  }

  /** The caller's select takes the closed stopCh (lines 115-116), even if a result is there too. */
  function ObserveStep(s: State, r: Request): State {
    s.(clients := s.clients[r := Returned(Failure(CoordinatorStopped))])
  }

  predicate CanStop(s: State, sid: nat) {
    sid !in s.stops
  }

  /** Stop's first phase, lines 290-307. */
  function FirstPhase(s: State): StopCall {
    if s.stopped then StopReturned else Draining(s.batches.Keys, {})
  }

  function StopStep(s: State, sid: nat): (s': State)
    ensures SameCallers(s, s') && s'.heap == s.heap && s'.taken == s.taken
  {
    s.(stopped := true, stops := s.stops[sid := FirstPhase(s)])
  }

  predicate CanSpawn(s: State, sid: nat, biz: int, tid: nat) {
    sid in s.stops && s.stops[sid].Draining? && biz in s.stops[sid].todo && tid !in s.triggers
  }

  /** One iteration of the loop at lines 313-319; the map is ranged over in any order. */
  function SpawnStep(s: State, sid: nat, biz: int, tid: nat): (s': State)
    requires CanSpawn(s, sid, biz, tid)
    ensures SameCallers(s, s') && s'.heap == s.heap && s'.taken == s.taken
  {
    s.(stops := s.stops[sid := Draining(s.stops[sid].todo - {biz}, s.stops[sid].spawned + {tid})],
       triggers := s.triggers[tid := Trigger(biz, ByStop(sid), Pending)])
  }

  predicate AllDone(spawned: set<nat>, triggers: map<nat, Trigger>, heap: map<nat, Batch>) {
    forall t :: t in spawned ==> t in triggers && Done(triggers[t], heap)
  }

  predicate CanClose(s: State, sid: nat) {
    && sid in s.stops && s.stops[sid].Draining? && s.stops[sid].todo == {}
    && AllDone(s.stops[sid].spawned, s.triggers, s.heap)
  }

  /** wg.Wait has returned: close(stopCh) and the reset of the map, lines 327-331. */
  function CloseStep(s: State, sid: nat): (s': State)
    ensures SameCallers(s, s') && s'.heap == s.heap && s'.taken == s.taken
  {
    s.(closes := s.closes + 1, discarded := s.discarded + |s.batches|, batches := map[],
       stops := s.stops[sid := StopReturned])
  }

  predicate Enabled(s: State, a: Action) {
    match a
    case Check(r) => CanCheck(s, r)
    case Add(r, bid, tid) => CanAdd(s, r, bid, tid)
    case Fire(bid, tid) => CanFire(s, bid, tid)
    case Take(tid) => CanTake(s, tid)
    case Begin(tid) => CanBegin(s, tid)
    case Reply(tid, _) => CanReply(s, tid)
    case Scatter(tid) => CanScatter(s, tid)
    case Receive(r) => CanReceive(s, r)
    case Observe(r) => CanObserve(s, r)
    case Stop(sid) => CanStop(s, sid)
    case Spawn(sid, biz, tid) => CanSpawn(s, sid, biz, tid)
    case Close(sid) => CanClose(s, sid)
  }

  function Step(s: State, a: Action): State
    requires Enabled(s, a)
  {
    match a
    case Check(r) => CheckStep(s, r)
    case Add(r, bid, tid) => AddStep(s, r, bid, tid)
    case Fire(bid, tid) => FireStep(s, bid, tid)
    case Take(tid) => TakeStep(s, tid)
    case Begin(tid) => BeginStep(s, tid)
    case Reply(tid, outcome) => ReplyStep(s, tid, outcome)
    case Scatter(tid) => ScatterStep(s, tid)
    case Receive(r) => ReceiveStep(s, r)
    case Observe(r) => ObserveStep(s, r)
    case Stop(sid) => StopStep(s, sid)
    case Spawn(sid, biz, tid) => SpawnStep(s, sid, biz, tid)
    case Close(sid) => CloseStep(s, sid)
  }

  // ----- runs

  predicate CanRun(s: State, acts: seq<Action>)
    decreases |acts|
  {
    acts == [] || (Enabled(s, acts[0]) && CanRun(Step(s, acts[0]), acts[1..]))
  }

  function Run(s: State, acts: seq<Action>): State
    requires CanRun(s, acts)
    decreases |acts|
  {
    if acts == [] then s else Run(Step(s, acts[0]), acts[1..])
  }

  // ----- the inductive invariant: each clause speaks only of the fields it depends on

  /** The requests of the listed batches, in order. */
  ghost function Flat(heap: map<nat, Batch>, bids: seq<nat>): seq<Request> {
    if bids == [] then []
    else
      var b := bids[|bids| - 1];
      Flat(heap, bids[..|bids| - 1]) + (if b in heap then heap[b].requests else [])
  }

  ghost function Current(batches: map<int, nat>, heap: map<nat, Batch>, biz: int): seq<Request> {
    if biz in batches && batches[biz] in heap then heap[batches[biz]].requests else []
  }

  /** A batch in the map is the open, untaken, non-empty batch of its own bizID. */
  ghost predicate MapInv(batches: map<int, nat>, heap: map<nat, Batch>) {
    forall biz :: biz in batches ==>
      && batches[biz] in heap
      && heap[batches[biz]].biz == biz
      && heap[batches[biz]].requests != []
      && !heap[batches[biz]].closed
      && !heap[batches[biz]].timer.Cancelled?
      && heap[batches[biz]].taker == None
  }

  ghost predicate TakenBatches(bids: seq<nat>, biz: int, heap: map<nat, Batch>) {
    && (forall i :: 0 <= i < |bids| ==> bids[i] in heap && heap[bids[i]].taker.Some? && heap[bids[i]].biz == biz)
    && (forall i, j :: 0 <= i < j < |bids| ==> bids[i] != bids[j])
  }

  /** The batches taken for one bizID are distinct batches of that bizID. */
  ghost predicate TakenInv(taken: map<int, seq<nat>>, heap: map<nat, Batch>) {
    forall biz :: TakenBatches(At(taken, biz), biz, heap)
  }

  /** Every batch is non-empty and is either the one in the map or one of those taken. */
  ghost predicate HeapInv(heap: map<nat, Batch>, batches: map<int, nat>, taken: map<int, seq<nat>>) {
    forall b :: b in heap ==>
      && heap[b].requests != []
      && (heap[b].taker == None ==> !heap[b].closed && heap[b].biz in batches && batches[heap[b].biz] == b)
      && (heap[b].taker.Some? ==> b in At(taken, heap[b].biz))
  }

  /** The partition: the batches already taken, then the batch in the map, are the accepted requests in order. */
  ghost predicate PartitionInv(heap: map<nat, Batch>, taken: map<int, seq<nat>>, batches: map<int, nat>,
                               accepted: map<int, seq<Request>>) {
    forall biz :: Flat(heap, At(taken, biz)) + Current(batches, heap, biz) == At(accepted, biz)
  }

  /** Each accepted request occupies one position of one batch, and each position is recorded. */
  ghost predicate PlaceInv(heap: map<nat, Batch>, place: map<Request, Place>) {
    && (forall b, i :: b in heap && 0 <= i < |heap[b].requests| ==>
          heap[b].requests[i] in place && place[heap[b].requests[i]] == Place(b, i))
    && (forall r :: r in place ==>
          && place[r].bid in heap
          && place[r].index < |heap[place[r].bid].requests|
          && heap[place[r].bid].requests[place[r].index] == r
          && heap[place[r].bid].biz == r.biz)
  }

  ghost predicate Past(clients: map<Request, Client>, r: Request) {
    r in clients && (clients[r].Waiting? || clients[r].Returned?)
  }

  ghost predicate PlacedClients(place: map<Request, Place>, clients: map<Request, Client>) {
    forall r :: r in place ==> Past(clients, r)
  }

  ghost predicate HasBatch(t: Trigger) {
    t.stage.Holding? || t.stage.Processing? || t.stage.Scattering?
  }

  /** A goroutine's batch records it as its taker, and is closed once past the batch lock. */
  ghost predicate OwnerInv(triggers: map<nat, Trigger>, heap: map<nat, Batch>) {
    && (forall t :: t in triggers && HasBatch(triggers[t]) ==>
          && triggers[t].stage.bid in heap
          && heap[triggers[t].stage.bid].taker == Some(t)
          && heap[triggers[t].stage.bid].closed == !triggers[t].stage.Holding?
          && heap[triggers[t].stage.bid].biz == triggers[t].biz)
    && (forall t :: t in triggers && triggers[t].stage.Scattering? ==>
          triggers[t].stage.next <= |heap[triggers[t].stage.bid].requests|)
  }

  /** Each taken batch is held by its taker. */
  ghost predicate TakerInv(triggers: map<nat, Trigger>, heap: map<nat, Batch>) {
    forall b :: b in heap && heap[b].taker.Some? ==>
      && heap[b].taker.value in triggers
      && HasBatch(triggers[heap[b].taker.value])
      && triggers[heap[b].taker.value].stage.bid == b
  }

  /** What has been sent to the request at p, as a function of how far the owner of its batch has come. */
  ghost function Expected(heap: map<nat, Batch>, triggers: map<nat, Trigger>, p: Place): seq<Result> {
    if p.bid in heap && heap[p.bid].taker.Some? && heap[p.bid].taker.value in triggers
       && p.index < |heap[p.bid].requests|
    then
      var st := triggers[heap[p.bid].taker.value].stage;
      if st.Scattering? && p.index < st.next then [Delivery(st.outcome, |heap[p.bid].requests|, p.index)] else []
    else []
  }

  ghost predicate SendsInv(sends: map<Request, seq<Result>>, place: map<Request, Place>, heap: map<nat, Batch>,
                           triggers: map<nat, Trigger>) {
    forall r :: r in place ==> At(sends, r) == Expected(heap, triggers, place[r])
  }

  /** A request turned away under the lock was sent the stop error, once; nobody else outside a batch was sent anything. */
  ghost predicate RejectedInv(sends: map<Request, seq<Result>>, place: map<Request, Place>,
                              clients: map<Request, Client>) {
    forall r :: r !in place ==>
      At(sends, r) == if Past(clients, r) then [Failure(CoordinatorStopped)] else []
  }

  /** A channel holds exactly what was sent and not yet received. */
  ghost predicate BufferInv(buffers: map<Request, Result>, sends: map<Request, seq<Result>>,
                            clients: map<Request, Client>) {
    && (forall r :: r in buffers ==> At(sends, r) == [buffers[r]])
    && (forall r :: At(sends, r) != [] && r in clients && clients[r].Waiting? ==> r in buffers)
    && (forall r :: r in clients && clients[r].Returned? ==>
          clients[r].result == Failure(CoordinatorStopped) || At(sends, r) == [clients[r].result])
  }

  ghost predicate Pends(triggers: map<nat, Trigger>, t: nat, biz: int, origin: Origin) {
    t in triggers && triggers[t] == Trigger(biz, origin, Pending)
  }

  /** Every batch in the map has a step ahead of it that will take it. */
  ghost predicate LivenessInv(batchSize: int, batches: map<int, nat>, heap: map<nat, Batch>,
                              triggers: map<nat, Trigger>) {
    forall biz :: biz in batches && batches[biz] in heap ==>
      && (heap[batches[biz]].timer.Armed? || exists t :: Pends(triggers, t, biz, ByTimer(batches[biz])))
      && (|heap[batches[biz]].requests| >= batchSize ==> exists t :: Pends(triggers, t, biz, BySize))
  }

  /** The `stopped` flag, the number of closes of stopCh and the reset at line 330. */
  ghost predicate CloseInv(stopped: bool, closes: nat, stops: map<nat, StopCall>, batches: map<int, nat>,
                           discarded: nat) {
    && discarded == 0
    && closes <= 1
    && (!stopped ==> closes == 0)
    && (forall sid :: sid in stops && stops[sid].Draining? ==> stopped && closes == 0)
    && (forall a, b :: a in stops && b in stops && stops[a].Draining? && stops[b].Draining? ==> a == b)
    && (stopped && closes == 0 ==> exists sid :: sid in stops && stops[sid].Draining?)
    && (closes == 1 ==> batches == map[])
  }

  /** The goroutines of a draining Stop call are its own, and those of a finished one have returned. */
  ghost predicate StopTriggersInv(stops: map<nat, StopCall>, triggers: map<nat, Trigger>, heap: map<nat, Batch>) {
    && (forall sid, t :: sid in stops && stops[sid].Draining? && t in stops[sid].spawned ==>
          t in triggers && triggers[t].origin == ByStop(sid))
    && (forall t :: t in triggers && triggers[t].origin.ByStop? ==>
          && triggers[t].origin.stop in stops
          && (Done(triggers[t], heap)
              || (stops[triggers[t].origin.stop].Draining? && t in stops[triggers[t].origin.stop].spawned)))
  }

  /** While a Stop call drains, every batch still in the map has one of its triggers, or will get one. */
  ghost predicate DrainInv(stops: map<nat, StopCall>, batches: map<int, nat>, triggers: map<nat, Trigger>) {
    forall sid, biz :: sid in stops && stops[sid].Draining? && biz in batches ==>
      || biz in stops[sid].todo
      || exists t :: t in stops[sid].spawned && Pends(triggers, t, biz, ByStop(sid))
  }

  ghost predicate Inv(s: State) {
    && MapInv(s.batches, s.heap)
    && TakenInv(s.taken, s.heap)
    && HeapInv(s.heap, s.batches, s.taken)
    && PartitionInv(s.heap, s.taken, s.batches, s.accepted)
    && PlaceInv(s.heap, s.place)
    && PlacedClients(s.place, s.clients)
    && OwnerInv(s.triggers, s.heap)
    && TakerInv(s.triggers, s.heap)
    && SendsInv(s.sends, s.place, s.heap, s.triggers)
    && RejectedInv(s.sends, s.place, s.clients)
    && BufferInv(s.buffers, s.sends, s.clients)
    && LivenessInv(s.batchSize, s.batches, s.heap, s.triggers)
    && CloseInv(s.stopped, s.closes, s.stops, s.batches, s.discarded)
    && StopTriggersInv(s.stops, s.triggers, s.heap)
    && DrainInv(s.stops, s.batches, s.triggers)
    && s.drops == 0
  }
}
