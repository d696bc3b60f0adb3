/**
 How a frontend message is admitted, handled and, after some errors, released again (internal/linkevent/handler.go,
 limit_handler.go). Calls interleave; the limiter, the cache's SetNX and Delete and the handler function are steps of
 their own. A cache request may be lost before or after it took effect, or take effect long after its caller gave up.
 The cache has no expiry here.
 */
module DispatchModel {
  import opened Common
  import opened Keys

  datatype Command = Heartbeat | Upstream | DownstreamAck | Other(code: int)

  /** `readable` says whether the body decrypts. */
  datatype Message = Message(cmd: Command, key: string, readable: bool)

  datatype Payload = Garbage | Decoded(msg: Message)

  datatype Sentinel =
    | UnknownBizID | EncryptFailed | MarshalFailed | MaxRetriesExceeded   // the four that release the cache entry
    | SendFailed | BackendFailed

  /** What OnFrontendSendMessage reports; Handled carries the sentinels that the handler's error wraps, none for nil. */
  datatype Outcome =
    | RateLimited | BadFormat | DecryptFailed | CacheFailed | Duplicate | UnknownCommand | Handled(err: set<Sentinel>)

  datatype Stage = AtLimiter | AtCache | Dispatched | Deleting(err: set<Sentinel>) | Ended(outcome: Outcome)

  datatype Call = Call(bizID: int, payload: Payload, stage: Stage)

  datatype Late = LateSet | LateDelete

  /** The cache maps a key to the call that set it (the source stores the message key, which nothing reads).
      `released` are the calls whose Delete took effect; `late` the cache requests still under way. */
  datatype State = State(calls: map<nat, Call>, cache: map<string, nat>, late: map<nat, Late>, released: set<nat>)

  function Init(): State {
    State(map[], map[], map[], {})
  }

  /** How the backend and the link answer: is the business known, does some attempt within the retries succeed, does
      its response marshal, does the reply encrypt and marshal, does the link accept it. */
  datatype Env = Env(known: bool, answered: bool, responseMarshals: bool, encrypts: bool, replyMarshals: bool, sends: bool)

  /** push, lines 267-303. */
  function PushResult(e: Env): set<Sentinel> {
    if !e.encrypts then {EncryptFailed} else if !e.replyMarshals then {MarshalFailed}
    else if !e.sends then {SendFailed} else {}
  }

  /** handleOnUpstreamMessageCmd, lines 306-396. */
  function UpstreamResult(e: Env): set<Sentinel> {
    if !e.known then {UnknownBizID}
    else if !e.answered then {BackendFailed, MaxRetriesExceeded}
    else if !e.responseMarshals then {MarshalFailed}
    else PushResult(e)
  }

  function HandlerResult(cmd: Command, e: Env): set<Sentinel> {
    match cmd
    case Heartbeat => PushResult(e)
    case Upstream => UpstreamResult(e)
    case DownstreamAck => {}
    case Other(_) => {}
  }

  /** Lines 233-239. */
  predicate ShouldDelete(err: set<Sentinel>) {
    UnknownBizID in err || EncryptFailed in err || MarshalFailed in err || MaxRetriesExceeded in err
  }

  /** What became of one request to the cache. */
  datatype Delivery = Answered | LostBefore | LostAfter | Delayed

  datatype Action =
    | Arrive(c: nat, bizID: int, payload: Payload)
    | Limit(c: nat, allowed: bool)
    | Cache(c: nat, d: Delivery)
    | Finish(c: nat, e: Env)
    | Erase(c: nat, d: Delivery)
    | LateApply(c: nat)

  predicate StageIs(s: State, c: nat, stage: Stage) {
    c in s.calls && s.calls[c].stage == stage
  }

  predicate Enabled(s: State, a: Action) {
    match a
    case Arrive(c, _, _) => c !in s.calls
    case Limit(c, _) => StageIs(s, c, AtLimiter)
    case Cache(c, _) => StageIs(s, c, AtCache)
    case Finish(c, _) => StageIs(s, c, Dispatched) && s.calls[c].payload.Decoded?
    case Erase(c, _) => c in s.calls && s.calls[c].stage.Deleting? && s.calls[c].payload.Decoded?
    case LateApply(c) => c in s.late && c in s.calls && s.calls[c].payload.Decoded?
  }

  function KeyOf(call: Call): string
    requires call.payload.Decoded?
  {
    MessageKey(call.bizID, call.payload.msg.key)
  }

  function Put(s: State, c: nat, stage: Stage): State
    requires c in s.calls
  {
    s.(calls := s.calls[c := s.calls[c].(stage := stage)])
  }

  function Reserve(s: State, c: nat): State
    requires c in s.calls && s.calls[c].payload.Decoded?
  {
    var k := KeyOf(s.calls[c]);
    if k in s.cache then s else s.(cache := s.cache[k := c])
  }

  function Release(s: State, c: nat): State
    requires c in s.calls && s.calls[c].payload.Decoded?
  {
    s.(cache := s.cache - {KeyOf(s.calls[c])}, released := s.released + {c})
  }

  /** limit_handler.go lines 29-54. */
  function LimitStep(s: State, c: nat, allowed: bool): State
    requires Enabled(s, Limit(c, allowed))
  {
    var p := s.calls[c].payload;
    if p.Decoded? && !p.msg.cmd.Heartbeat? && !allowed then Put(s, c, Ended(RateLimited)) else Put(s, c, AtCache)
  }

  /** getMessage, lines 188-216. */
  function Rejection(p: Payload): (r: Option<Outcome>)
    ensures r.None? ==> p.Decoded?
  {
    if p.Garbage? || (p.msg.key == "" && !p.msg.cmd.Heartbeat?) then Some(BadFormat)
    else if !p.msg.readable then Some(DecryptFailed)
    else None
  }

  /** SetNX for a fresh or a duplicate message, and the lookup of the handler function: lines 132-165. */
  function AdmitStep(s: State, c: nat, d: Delivery): State
    requires c in s.calls && s.calls[c].payload.Decoded?
  {
    match d
    case Answered =>
      if KeyOf(s.calls[c]) in s.cache then Put(s, c, Ended(Duplicate))
      else Put(Reserve(s, c), c, if s.calls[c].payload.msg.cmd.Other? then Ended(UnknownCommand) else Dispatched)
    case LostBefore => Put(s, c, Ended(CacheFailed))
    case LostAfter => Put(Reserve(s, c), c, Ended(CacheFailed))
    case Delayed => Put(s, c, Ended(CacheFailed)).(late := s.late[c := LateSet])
  }

  /** Lines 119-165. */
  function CacheStep(s: State, c: nat, d: Delivery): State
    requires Enabled(s, Cache(c, d))
  {
    var p := s.calls[c].payload;
    if Rejection(p).Some? then Put(s, c, Ended(Rejection(p).value))
    else if p.msg.cmd.Heartbeat? then Put(s, c, Dispatched)
    else AdmitStep(s, c, d)
  }

  /** Lines 166-171 and 242-245: a heartbeat has no entry to delete. */
  function FinishStep(s: State, c: nat, e: Env): State
    requires Enabled(s, Finish(c, e))
  {
    var cmd := s.calls[c].payload.msg.cmd;
    var err := HandlerResult(cmd, e);
    if ShouldDelete(err) && !cmd.Heartbeat? then Put(s, c, Deleting(err)) else Put(s, c, Ended(Handled(err)))
  }

  /** Lines 171-181: the outcome of the Delete is only logged. */
  function EraseStep(s: State, c: nat, d: Delivery): State
    requires Enabled(s, Erase(c, d))
  {
    var s' := Put(s, c, Ended(Handled(s.calls[c].stage.err)));
    match d
    case LostBefore => s'
    case Delayed => s'.(late := s.late[c := LateDelete])
    case _ => Release(s', c)
  }

  function LateStep(s: State, c: nat): State
    requires Enabled(s, LateApply(c))
  {
    var s' := s.(late := s.late - {c});
    match s.late[c]
    case LateSet => Reserve(s', c)
    case LateDelete => Release(s', c)
  }

  function Step(s: State, a: Action): State
    requires Enabled(s, a)
  {
    match a
    case Arrive(c, bizID, payload) => s.(calls := s.calls[c := Call(bizID, payload, AtLimiter)])
    case Limit(c, allowed) => LimitStep(s, c, allowed)
    case Cache(c, d) => CacheStep(s, c, d)
    case Finish(c, e) => FinishStep(s, c, e)
    case Erase(c, d) => EraseStep(s, c, d)
    case LateApply(c) => LateStep(s, c)
  }

  predicate CanRun(s: State, acts: seq<Action>)
    decreases |acts|
  {
    acts == [] || (Enabled(s, acts[0]) && CanRun(Step(s, acts[0]), acts[1..]))
  }

  function Run(s: State, acts: seq<Action>): State
    requires CanRun(s, acts)
    decreases |acts|
  {
    if acts == [] then s else Run(Step(s, acts[0]), acts[1..])
  }

  lemma {:induction false} Then(s: State, acts: seq<Action>, a: Action) returns (longer: seq<Action>)
    requires CanRun(s, acts) && Enabled(Run(s, acts), a)
    ensures longer == acts + [a] && CanRun(s, longer) && Run(s, longer) == Step(Run(s, acts), a)
    decreases |acts|
  {
    longer := acts + [a];
    if acts == [] {
      assert [] + [a] == [a];
    } else {
      assert (acts + [a])[1..] == acts[1..] + [a];
      var _ := Then(Step(s, acts[0]), acts[1..], a);
    }
  }
}
