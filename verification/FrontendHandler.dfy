/**
 Handler.OnFrontendSendMessage (internal/linkevent/handler.go lines 119-182) as an object over its cache. The method
 runs one call from its cache request to its answer, and is tied to the steps of DispatchModel.
 */
module FrontendHandler {
  import opened Common
  import opened Keys
  import opened DispatchModel
  import opened DispatchTheorems

  /** Why a call is answered before any handler function runs: decoding, the cache, a duplicate, an unknown command. */
  function Refusal(call: Call, cache: map<string, nat>, set_: Delivery): (r: Option<Outcome>)
    ensures r.None? ==> call.payload.Decoded?
    ensures r.Some? ==> !r.value.Handled? && !r.value.RateLimited?
  {
    if Rejection(call.payload).Some? then Rejection(call.payload)
    else if call.payload.msg.cmd.Heartbeat? then None
    else if !set_.Answered? then Some(CacheFailed)
    else if KeyOf(call) in cache then Some(Duplicate)
    else if call.payload.msg.cmd.Other? then Some(UnknownCommand)
    else None
  }

  class Handler {
    var calls: map<nat, Call>
    var cache: map<string, nat>
    var late: map<nat, Late>
    var released: set<nat>

    ghost function Abs(): State
      reads this
    {
      State(calls, cache, late, released)
    }

    constructor ()
      ensures Abs() == Init() && Inv(Abs())
    {
      calls, cache, late, released := map[], map[], map[], {};
    }

    /** cacheMessage, lines 218-226; ok and err as the source returns them. */
    method CacheMessage(c: nat, d: Delivery) returns (ok: bool, failed: bool)
      requires c in calls && calls[c].payload.Decoded?
      modifies `cache, `late
      ensures calls[c].payload.msg.cmd.Heartbeat? ==> ok && !failed && Abs() == old(Abs())
      ensures !calls[c].payload.msg.cmd.Heartbeat? ==>
                && failed == !d.Answered?
                && (d.Answered? ==> ok == (KeyOf(calls[c]) !in old(cache)))
                && cache == (if d.Answered? || d.LostAfter? then Reserve(old(Abs()), c).cache else old(cache))
                && late == (if d.Delayed? then old(late)[c := LateSet] else old(late))
    {
      if calls[c].payload.msg.cmd.Heartbeat? {
        return true, false;
      }
      var key := MessageKey(calls[c].bizID, calls[c].payload.msg.key);
      ok, failed := false, !d.Answered?;
      match d {
        case Answered =>
          ok := key !in cache;
          if ok {
            cache := cache[key := c];
          }
        case LostAfter =>
          if key !in cache {
            cache := cache[key := c];
          }
        case Delayed => late := late[c := LateSet];
        case LostBefore =>
      }
    }

    /** deleteCacheMessage, lines 241-253. */
    method DeleteCacheMessage(c: nat, d: Delivery)
      requires c in calls && calls[c].payload.Decoded? && !calls[c].payload.msg.cmd.Heartbeat?
      modifies `cache, `late, `released
      ensures calls == old(calls)
      ensures d.LostBefore? ==> Abs() == old(Abs())
      ensures d.Delayed? ==> Abs() == old(Abs()).(late := old(late)[c := LateDelete])
      ensures d.Answered? || d.LostAfter? ==> Abs() == Release(old(Abs()), c)
    {
      match d {
        case LostBefore =>
        case Delayed => late := late[c := LateDelete];
        case _ =>
          cache := cache - {MessageKey(calls[c].bizID, calls[c].payload.msg.key)};
          released := released + {c};
      }
    }

    /** Lines 120-165: the answer of a call that does not reach a handler function, or none. */
    method Admit(c: nat, set_: Delivery) returns (outcome: Option<Outcome>)
      requires Inv(Abs()) && StageIs(Abs(), c, AtCache)
      modifies this
      ensures Abs() == CacheStep(old(Abs()), c, set_)
      ensures outcome == Refusal(old(calls[c]), old(cache), set_)
      ensures c in calls && calls[c] == old(calls[c]).(stage := if outcome.Some? then Ended(outcome.value) else Dispatched)
      ensures outcome == Some(Duplicate) ==> cache == old(cache) && late == old(late)
    {
      hide Inv, MessageKey;
      var p := calls[c].payload;
      var rejection := Rejection(p);
      if rejection.Some? {
        calls := calls[c := calls[c].(stage := Ended(rejection.value))];
        return rejection;
      }
      var ok, failed := CacheMessage(c, set_);
      if failed {
        calls := calls[c := calls[c].(stage := Ended(CacheFailed))];
        return Some(CacheFailed);
      } else if !ok {
        calls := calls[c := calls[c].(stage := Ended(Duplicate))];
        return Some(Duplicate);
      }
      if p.msg.cmd.Other? {
        calls := calls[c := calls[c].(stage := Ended(UnknownCommand))];
        return Some(UnknownCommand);
      }
      calls := calls[c := calls[c].(stage := Dispatched)];
      return None;
    }

    /** Lines 119-182, for a call that the limiter let pass. */
    method OnFrontendSendMessage(c: nat, e: Env, set_: Delivery, delete_: Delivery) returns (outcome: Outcome)
      requires Inv(Abs()) && StageIs(Abs(), c, AtCache)
      modifies this
      ensures Inv(Abs()) && c in calls && calls[c].stage == Ended(outcome)
      ensures var p := old(calls[c]).payload;
              outcome == if p == Garbage || (p.msg.key == "" && p.msg.cmd != Heartbeat) then BadFormat
                         else if !p.msg.readable then DecryptFailed
                         else if p.msg.cmd != Heartbeat && set_ != Answered then CacheFailed
                         else if p.msg.cmd != Heartbeat && MessageKey(old(calls[c]).bizID, p.msg.key) in old(cache)
                         then Duplicate
                         else if p.msg.cmd.Other? then UnknownCommand
                         else Handled(HandlerResult(p.msg.cmd, e))
      ensures Deduplicated(calls[c]) && outcome.Handled? && !ShouldDelete(outcome.err) ==> Owns(Abs(), c)
      ensures Deduplicated(calls[c]) && outcome.Handled? && ShouldDelete(outcome.err) && delete_.Answered? ==>
                KeyOf(calls[c]) !in cache
      ensures outcome.Duplicate? ==> cache == old(cache) && late == old(late)
    {
      hide Inv, MessageKey, CacheStep, HandlerResult, ShouldDelete;
      CacheKeeps(Abs(), c, set_);
      var refusal := Admit(c, set_);
      if refusal.Some? {
        return refusal.value;
      }
      outcome := RunHandler(c, e, delete_);
    }

    /** Lines 166-181. */
    method RunHandler(c: nat, e: Env, delete_: Delivery) returns (outcome: Outcome)
      requires Inv(Abs()) && StageIs(Abs(), c, Dispatched)
      modifies this
      ensures Inv(Abs()) && c in calls && calls[c].stage == Ended(outcome) && calls[c].payload == old(calls[c]).payload
      ensures outcome == Handled(HandlerResult(old(calls[c]).payload.msg.cmd, e))
      ensures forall k :: k in old(calls) && k != c ==> k in calls && calls[k] == old(calls)[k]
      ensures Deduplicated(calls[c]) && !ShouldDelete(outcome.err) ==> Owns(Abs(), c)
      ensures Deduplicated(calls[c]) && ShouldDelete(outcome.err) && delete_.Answered? ==> KeyOf(calls[c]) !in cache
    {
      hide MessageKey, HandlerResult, ShouldDelete;
      ghost var s := Abs();
      RunningIsFresh(s, c);
      FinishKeeps(s, c, e);
      var cmd := calls[c].payload.msg.cmd;
      var err := HandlerResult(cmd, e);
      outcome := Handled(err);
      if ShouldDelete(err) && !cmd.Heartbeat? {
        calls := calls[c := calls[c].(stage := Deleting(err))];
        ghost var s1 := Abs();
        EraseKeeps(s1, c, delete_);
        calls := calls[c := calls[c].(stage := Ended(outcome))];
        DeleteCacheMessage(c, delete_);
        assert Abs() == EraseStep(s1, c, delete_);
      } else {
        calls := calls[c := calls[c].(stage := Ended(outcome))];
        if Deduplicated(calls[c]) {
          assert Admitted(calls[c]);
        }
      }
    }
  }
}
