/**
 The processor of internal/linkevent/batch_processor.go: find the backend client of a bizID, reloading the client
 table at most once, then call it until it answers or the retry strategy gives up.
 */
module BatchProcessor {
  import opened CoordinatorModel
  import T = CoordinatorTheorems

  /** What one RPC attempt returned. */
  datatype Reply = Answered(responses: seq<string>) | RpcError(code: int)

  /** The backend reached through a client: the reply to attempt k of a call with these messages. */
  type Backend = (nat, nat, seq<string>) -> Reply

  /** callBatchServiceWithRetry from attempt k on, with `retries` more retries granted by the strategy. */
  function Attempt(backend: Backend, client: nat, msgs: seq<string>, k: nat, retries: nat): Outcome
    decreases retries
  {
    match backend(client, k, msgs)
    case Answered(rs) => Responses(rs)
    case RpcError(code) =>
      if retries == 0 then Failed(MaxRetriesExceeded(code)) else Attempt(backend, client, msgs, k + 1, retries - 1)
  }

  /** The responses are those of the first attempt that succeeds; the call fails only when all retries + 1 attempts
      did, and then reports the last error. */
  lemma {:induction false} AttemptFindsFirst(backend: Backend, client: nat, msgs: seq<string>, k: nat, retries: nat)
    ensures match Attempt(backend, client, msgs, k, retries)
            case Responses(rs) =>
              exists j :: k <= j <= k + retries && backend(client, j, msgs) == Answered(rs)
                       && forall i :: k <= i < j ==> backend(client, i, msgs).RpcError?
            case Failed(e) =>
              && (forall i :: k <= i <= k + retries ==> backend(client, i, msgs).RpcError?)
              && e == MaxRetriesExceeded(backend(client, k + retries, msgs).code)
    decreases retries
  {
    match backend(client, k, msgs)
    case Answered(rs) => assert backend(client, k, msgs) == Answered(rs);
    case RpcError(_) =>
      if retries > 0 {
        AttemptFindsFirst(backend, client, msgs, k + 1, retries - 1);
      }
  }

  class BatchProcessor {
    var clients: map<int, nat>
    const retries: nat

    constructor (retries: nat)
      ensures clients == map[] && this.retries == retries
    {
      this.retries := retries;
      clients := map[];
    }

    /** getBatchBackendServiceClient; `table` is what the loader returns if it is asked. */
    method GetClient(biz: int, table: map<int, nat>) returns (client: nat, err: bool)
      modifies this`clients
      ensures clients == if biz in old(clients) then old(clients) else table
      ensures err <==> biz !in clients
      ensures !err ==> client == clients[biz]
    {
      var loaded := false;
      while true
        invariant clients == if loaded then table else old(clients)
        invariant loaded ==> biz !in old(clients)
        decreases !loaded
      {
        if biz in clients {
          return clients[biz], false;
        }
        if loaded {
          return 0, true;
        }
        clients := table;
        loaded := true;
      }
    }

    method Call(backend: Backend, client: nat, msgs: seq<string>) returns (o: Outcome)
      ensures o == Attempt(backend, client, msgs, 0, retries)
    {
      var k := 0;
      while true
        invariant k <= retries
        invariant Attempt(backend, client, msgs, 0, retries) == Attempt(backend, client, msgs, k, retries - k)
        decreases retries - k
      {
        match backend(client, k, msgs) {
          case Answered(rs) => return Responses(rs);
          case RpcError(code) =>
            if k == retries {
              return Failed(MaxRetriesExceeded(code));
            }
            k := k + 1;
        }
      }
    }

    /** Process: an unknown bizID is an error. Otherwise the first attempt that answers decides: its responses are
        handed on when there is one per message, and any other number is an error. When no attempt answers, the last
        one's code is reported. */
    method Process(biz: int, msgs: seq<string>, table: map<int, nat>, backend: Backend) returns (o: Outcome)
      modifies this`clients
      ensures clients == if biz in old(clients) then old(clients) else table
      ensures biz !in clients ==> o == Failed(UnknownBizID(biz))
      ensures biz in clients ==> forall j, rs ::
                (&& 0 <= j <= retries && backend(clients[biz], j, msgs) == Answered(rs)
                 && forall i :: 0 <= i < j ==> backend(clients[biz], i, msgs).RpcError?) ==>
                  o == if |rs| == |msgs| then Responses(rs) else Failed(ResponseMismatch)
      ensures biz in clients && (forall i :: 0 <= i <= retries ==> backend(clients[biz], i, msgs).RpcError?) ==>
                o == Failed(MaxRetriesExceeded(backend(clients[biz], retries, msgs).code))
    {
      var client, err := GetClient(biz, table);
      if err {
        return Failed(UnknownBizID(biz));
      }
      o := Call(backend, client, msgs);
      ProcessOutcome(backend, client, msgs, retries);
      match o {
        case Failed(_) =>
        case Responses(rs) =>
          if |rs| != |msgs| {
            o := Failed(ResponseMismatch);
          }
      }
    }
  }

  /** The length check of lines 83-92. */
  function LengthChecked(o: Outcome, n: nat): Outcome {
    if o.Responses? && |o.responses| != n then Failed(ResponseMismatch) else o
  }

  /** The errors Process reports; that the coordinator has stopped is none of them. */
  predicate ProcessError(e: Error) {
    e.UnknownBizID? || e.ResponseMismatch? || e.MaxRetriesExceeded?
  }

  /** Serving single messages as `answer` does, with the errors of Process. */
  function ServiceOf(answer: (int, string) -> string): T.Service {
    T.Service(answer, ProcessError)
  }

  /** The backend answers each message of a batch as `answer` would have answered it alone, whenever it answers with
      the right number of responses. */
  ghost predicate OrderPreserving(backend: Backend, answer: (int, string) -> string, biz: int, client: nat) {
    forall k: nat, msgs: seq<string> ::
      var reply := backend(client, k, msgs);
      reply.Answered? && |reply.responses| == |msgs| ==>
        forall i :: 0 <= i < |msgs| ==> reply.responses[i] == answer(biz, msgs[i])
  }

  /** What Process makes of a call, told without its loop. */
  lemma ProcessOutcome(backend: Backend, client: nat, msgs: seq<string>, retries: nat)
    ensures var o := LengthChecked(Attempt(backend, client, msgs, 0, retries), |msgs|);
            && (forall j, rs ::
                  (&& 0 <= j <= retries && backend(client, j, msgs) == Answered(rs)
                   && forall i :: 0 <= i < j ==> backend(client, i, msgs).RpcError?) ==>
                    o == if |rs| == |msgs| then Responses(rs) else Failed(ResponseMismatch))
            && ((forall i :: 0 <= i <= retries ==> backend(client, i, msgs).RpcError?) ==>
                  o == Failed(MaxRetriesExceeded(backend(client, retries, msgs).code)))
  {
    AttemptFindsFirst(backend, client, msgs, 0, retries);
    var a := Attempt(backend, client, msgs, 0, retries);
    forall j, rs | && 0 <= j <= retries && backend(client, j, msgs) == Answered(rs)
                   && forall i :: 0 <= i < j ==> backend(client, i, msgs).RpcError?
      ensures a == Responses(rs)
    {
      match a
      case Failed(_) => assert false;
      case Responses(rs') =>
        var j' :| 0 <= j' <= retries && backend(client, j', msgs) == Answered(rs')
                  && forall i :: 0 <= i < j' ==> backend(client, i, msgs).RpcError?;
        assert j' == j;
    }
  }

  /** With such a backend, what Process hands to the coordinator is pointwise, so the refinement theorem applies, the
      coordinator's own length check (coordinator.go line 232) can never fire, and no caller is told by the processor
      that the coordinator has stopped. When the first attempt that answers has one response per request, each request
      gets the answer it would have got alone. */
  lemma ProcessIsPointwise(backend: Backend, answer: (int, string) -> string, biz: int, client: nat,
                           requests: seq<Request>, msgs: seq<string>, retries: nat, j: nat)
    requires OrderPreserving(backend, answer, biz, client)
    requires |msgs| == |requests| && forall i :: 0 <= i < |msgs| ==> msgs[i] == requests[i].msg
    ensures var o := LengthChecked(Attempt(backend, client, msgs, 0, retries), |msgs|);
            && T.Pointwise(ServiceOf(answer), biz, requests, o)
            && (o.Responses? ==> |o.responses| == |requests|)
            && o != Failed(CoordinatorStopped)
            && ((&& j <= retries && backend(client, j, msgs).Answered?
                 && (forall i :: 0 <= i < j ==> backend(client, i, msgs).RpcError?)
                 && |backend(client, j, msgs).responses| == |msgs|) ==>
                  o == Responses(seq(|requests|, i requires 0 <= i < |requests| => answer(biz, requests[i].msg))))
  {
    AttemptFindsFirst(backend, client, msgs, 0, retries);
    ProcessOutcome(backend, client, msgs, retries);
    var a := Attempt(backend, client, msgs, 0, retries);
    if a.Responses? && |a.responses| == |msgs| {
      var first :| 0 <= first <= retries && backend(client, first, msgs) == Answered(a.responses);
      forall i | 0 <= i < |requests| ensures a.responses[i] == answer(biz, requests[i].msg) {
        assert backend(client, first, msgs).responses[i] == answer(biz, msgs[i]);
      }
      assert a.responses == seq(|requests|, i requires 0 <= i < |requests| => answer(biz, requests[i].msg));
    }
  }
}
