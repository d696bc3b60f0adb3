/**
 LinkEventHandlerWrapper (types.go lines 79-108) over handlers that share a state S, and the chain as it is wired: the
 limiter first, the message handler and the observers after it (ioc/linkevent_handler.go line 186).
 */
module HandlerChain {
  import opened DispatchModel

  /** An error value as the sentinels errors.Is finds in it, in the order multierr appended them; nil is empty. */
  datatype Error = RateLimitExceeded | Failure(code: int)

  type Handler<!S> = (S, Payload) -> (S, seq<Error>)

  /** The state before handler i, when the first i handlers have run. */
  function StateAt<S>(handlers: seq<Handler<S>>, s: S, payload: Payload, i: nat): S
    requires i <= |handlers|
  {
    if i == 0 then s else handlers[i - 1](StateAt(handlers, s, payload, i - 1), payload).0
  }

  function ErrorOf<S>(handlers: seq<Handler<S>>, s: S, payload: Payload, i: nat): seq<Error>
    requires i < |handlers|
  {
    handlers[i](StateAt(handlers, s, payload, i), payload).1
  }

  /** Handler i is the first to report the rate limit. */
  ghost predicate CutsAt<S>(handlers: seq<Handler<S>>, s: S, payload: Payload, i: nat)
    requires i < |handlers|
  {
    && RateLimitExceeded in ErrorOf(handlers, s, payload, i)
    && forall k :: 0 <= k < i ==> RateLimitExceeded !in ErrorOf(handlers, s, payload, k)
  }

  /** All errors of the first i handlers, in order. */
  function Collected<S>(handlers: seq<Handler<S>>, s: S, payload: Payload, i: nat): seq<Error>
    requires i <= |handlers|
  {
    if i == 0 then [] else Collected(handlers, s, payload, i - 1) + ErrorOf(handlers, s, payload, i - 1)
  }

  /** Lines 97-108: the handlers run in order; the first rate limit ends the chain with no error at all, discarding what
      came before it, and no later handler runs; otherwise every handler's errors are reported. */
  method OnFrontendSendMessage<S>(handlers: seq<Handler<S>>, s: S, payload: Payload) returns (s': S, err: seq<Error>)
    ensures (exists i: nat :: i < |handlers| && CutsAt(handlers, s, payload, i)
                              && s' == StateAt(handlers, s, payload, i + 1) && err == [])
            || ((forall i :: 0 <= i < |handlers| ==> RateLimitExceeded !in ErrorOf(handlers, s, payload, i))
                && s' == StateAt(handlers, s, payload, |handlers|) && err == Collected(handlers, s, payload, |handlers|)
                && (forall e :: e in err <==> exists i :: 0 <= i < |handlers| && e in ErrorOf(handlers, s, payload, i)))
  {
    s', err := s, [];
    for i := 0 to |handlers|
      invariant s' == StateAt(handlers, s, payload, i) && err == Collected(handlers, s, payload, i)
      invariant forall k :: 0 <= k < i ==> RateLimitExceeded !in ErrorOf(handlers, s, payload, k)
    {
      var r := handlers[i](s', payload);
      s' := r.0;
      if RateLimitExceeded in r.1 {
        assert CutsAt(handlers, s, payload, i);
        assert s' == StateAt(handlers, s, payload, i + 1);
        return s', [];
      }
      err := err + r.1;
    }
    NoErrorIsLost(handlers, s, payload, |handlers|);
  }

  lemma {:induction false} NoErrorIsLost<S>(handlers: seq<Handler<S>>, s: S, payload: Payload, n: nat)
    requires n <= |handlers|
    ensures forall e :: e in Collected(handlers, s, payload, n)
                   <==> exists i :: 0 <= i < n && e in ErrorOf(handlers, s, payload, i)
  {
    if n > 0 {
      NoErrorIsLost(handlers, s, payload, n - 1);
    }
  }

  // ----- the wired chain

  /** What the limiter works on, beside whatever the other handlers share. */
  datatype Shared<R> = Shared(allow: seq<bool>, notices: seq<string>, rest: R)

  /** LimitHandler, limit_handler.go lines 29-54: `allow` holds the answers rate.Limiter will give, `notices` the keys
      of the rate limit messages sent on the link. */
  function Limiter<R>(s: Shared<R>, payload: Payload): (Shared<R>, seq<Error>) {
    if payload.Garbage? || payload.msg.cmd.Heartbeat? then (s, [])
    else if s.allow == [] || !s.allow[0] then
      (s.(allow := if s.allow == [] then [] else s.allow[1..], notices := s.notices + [payload.msg.key]),
       [RateLimitExceeded])
    else (s.(allow := s.allow[1..]), [])
  }

  lemma {:induction false} StateAtShift<S>(first: Handler<S>, others: seq<Handler<S>>, s: S, payload: Payload, i: nat)
    requires i <= |others|
    ensures StateAt([first] + others, s, payload, i + 1) == StateAt(others, first(s, payload).0, payload, i)
    ensures Collected([first] + others, s, payload, i + 1)
            == first(s, payload).1 + Collected(others, first(s, payload).0, payload, i)
  {
    var all := [first] + others;
    if i == 0 {
      assert StateAt(all, s, payload, 0) == s;
      assert Collected(all, s, payload, 1) == [] + ErrorOf(all, s, payload, 0);
    } else {
      StateAtShift(first, others, s, payload, i - 1);
      assert all[i] == others[i - 1];
      assert Collected(all, s, payload, i + 1) == Collected(all, s, payload, i) + ErrorOf(all, s, payload, i);
    }
  }

  /** With the limiter first, a message it refuses reaches no other handler: what they share (the deduplication cache
      among it) is untouched, the sender is told once, and the chain reports no error. */
  lemma RefusedReachesNobody<R>(others: seq<Handler<Shared<R>>>, s: Shared<R>, payload: Payload)
    requires payload.Decoded? && !payload.msg.cmd.Heartbeat? && (s.allow == [] || !s.allow[0])
    ensures var all := [Limiter] + others;
            && CutsAt(all, s, payload, 0)
            && StateAt(all, s, payload, 1).rest == s.rest
            && StateAt(all, s, payload, 1).notices == s.notices + [payload.msg.key]
            && StateAt(all, s, payload, 1).allow == (if s.allow == [] then [] else s.allow[1..])
            && forall i: nat :: i < |all| && CutsAt(all, s, payload, i) ==> i == 0
  {
    var all := [Limiter] + others;
    assert all[0] == Limiter<R>;
    assert StateAt(all, s, payload, 0) == s;
    assert ErrorOf(all, s, payload, 0) == Limiter(s, payload).1 == [RateLimitExceeded];
    assert RateLimitExceeded in ErrorOf(all, s, payload, 0);
  }

  /** A message the limiter lets pass is handled exactly as if the limiter were not there. */
  lemma PassedIsUnchanged<R>(others: seq<Handler<Shared<R>>>, s: Shared<R>, payload: Payload)
    requires payload.Garbage? || payload.msg.cmd.Heartbeat? || (s.allow != [] && s.allow[0])
    ensures var all := [Limiter] + others;
            var passed := Limiter(s, payload).0;
            && passed.rest == s.rest && passed.notices == s.notices
            && passed.allow == (if payload.Garbage? || payload.msg.cmd.Heartbeat? then s.allow else s.allow[1..])
            && StateAt(all, s, payload, |all|) == StateAt(others, passed, payload, |others|)
            && Collected(all, s, payload, |all|) == Collected(others, passed, payload, |others|)
  {
    StateAtShift<Shared<R>>(Limiter, others, s, payload, |others|);
    assert [] + Collected(others, Limiter(s, payload).0, payload, |others|)
        == Collected(others, Limiter(s, payload).0, payload, |others|);
  }

  /** The limiter in the chain and the limiter step of a call agree: whatever the other handlers are, the chain is cut off
      at once exactly if the call ends rate-limited, and otherwise the call goes on to the cache. */
  lemma ChainFollowsTheCall<R>(others: seq<Handler<Shared<R>>>, s: Shared<R>, m: State, c: nat)
    requires StageIs(m, c, AtLimiter)
    ensures var payload, allowed := m.calls[c].payload, s.allow != [] && s.allow[0];
            var m' := LimitStep(m, c, allowed);
            && (CutsAt([Limiter] + others, s, payload, 0) <==> StageIs(m', c, Ended(RateLimited)))
            && (!CutsAt([Limiter] + others, s, payload, 0) <==> StageIs(m', c, AtCache))
  {
    var all, payload := [Limiter] + others, m.calls[c].payload;
    assert all[0] == Limiter<R> && StateAt(all, s, payload, 0) == s;
    assert ErrorOf(all, s, payload, 0) == Limiter(s, payload).1;
  }
}
