/**
 What deduplication through the cache guarantees for every interleaving and every loss of a cache request.
 */
module DispatchTheorems {
  import opened Common
  import opened Keys
  import opened DispatchModel

  /** The call's message goes through the cache. */
  predicate Deduplicated(call: Call) {
    call.payload.Decoded? && !call.payload.msg.cmd.Heartbeat?
  }

  /** SetNX admitted the call: it is in a handler, deleting its entry, or done. */
  predicate Admitted(call: Call) {
    Deduplicated(call)
    && (call.stage.Dispatched? || call.stage.Deleting?
        || (call.stage.Ended? && (call.stage.outcome.Handled? || call.stage.outcome.UnknownCommand?)))
  }

  /** The handler function is running, or its entry is being deleted. */
  predicate InFlight(call: Call) {
    Deduplicated(call) && (call.stage.Dispatched? || call.stage.Deleting?)
  }

  /** The call ended with one of the four errors after which the sender may try again. */
  predicate Retryable(call: Call) {
    call.stage.Ended? && call.stage.outcome.Handled? && ShouldDelete(call.stage.outcome.err)
  }

  predicate SameMessage(a: Call, b: Call) {
    a.payload.Decoded? && b.payload.Decoded? && a.bizID == b.bizID && a.payload.msg.key == b.payload.msg.key
  }

  /** Call c still owns the cache entry of its key. */
  predicate Owns(s: State, c: nat)
    requires c in s.calls && s.calls[c].payload.Decoded?
  {
    KeyOf(s.calls[c]) in s.cache && s.cache[KeyOf(s.calls[c])] == c
  }

  /** An admitted call owns its entry until its own Delete takes effect, which only follows a retryable error. */
  ghost predicate Owned(s: State) {
    && (forall c :: c in s.calls && Admitted(s.calls[c]) ==> Owns(s, c) || c in s.released)
    && (forall c :: c in s.released ==> c in s.calls && Retryable(s.calls[c]))
  }

  /** Requests still under way belong to calls that gave up on them. */
  ghost predicate Pending(s: State) {
    forall c :: c in s.late ==>
      && c in s.calls && Deduplicated(s.calls[c]) && s.calls[c].stage.Ended?
      && (if s.late[c].LateSet? then s.calls[c].stage.outcome.CacheFailed?
          else Retryable(s.calls[c]) && c !in s.released)
  }

  /** Every entry was set for a message with exactly this business and key. */
  ghost predicate Attributed(s: State) {
    forall k :: k in s.cache ==>
      s.cache[k] in s.calls && Deduplicated(s.calls[s.cache[k]]) && KeyOf(s.calls[s.cache[k]]) == k
  }

  ghost predicate Inv(s: State) {
    Owned(s) && Pending(s) && Attributed(s) && AllWellStaged(s)
  }

  /** Only messages that getMessage accepts get past it. */
  predicate WellStaged(call: Call) {
    call.stage.Dispatched? || call.stage.Deleting? ==> Rejection(call.payload).None?
  }

  ghost predicate AllWellStaged(s: State) {
    && (forall c :: c in s.calls ==> WellStaged(s.calls[c]))
    && (forall c :: c in s.calls && s.calls[c].stage.Deleting? ==>
          ShouldDelete(s.calls[c].stage.err) && Deduplicated(s.calls[c]))
  }

  /** The call has not been answered yet. */
  predicate Running(s: State, c: nat) {
    c in s.calls && !s.calls[c].stage.Ended?
  }

  lemma RunningIsFresh(s: State, c: nat)
    requires Inv(s) && Running(s, c)
    ensures c !in s.late && c !in s.released
  {
  }

  /** Moving a running call to a stage in which it still owns what an admitted call owns. */
  lemma PutKeeps(s: State, c: nat, stage: Stage)
    requires Inv(s) && Running(s, c)
    requires var call := s.calls[c].(stage := stage);
             && WellStaged(call) && (Admitted(call) ==> Owns(s, c))
             && (stage.Deleting? ==> ShouldDelete(stage.err) && Deduplicated(call))
    ensures Inv(Put(s, c, stage))
  {
    hide MessageKey;
    RunningIsFresh(s, c);
    var s' := Put(s, c, stage);
    assert Owned(s');
    assert Pending(s');
    assert Attributed(s');
  }

  /** SetNX changes nothing for the owner of an existing entry, and otherwise makes c the owner. */
  lemma ReserveKeeps(s: State, c: nat)
    requires Inv(s) && c in s.calls && Deduplicated(s.calls[c])
    ensures Inv(Reserve(s, c))
    ensures KeyOf(s.calls[c]) !in s.cache ==> Owns(Reserve(s, c), c)
  {
    hide MessageKey;
  }

  /** Delete after a retryable error removes the caller's own entry. */
  lemma ReleaseKeeps(s: State, c: nat)
    requires Inv(s) && c in s.calls && Deduplicated(s.calls[c]) && Retryable(s.calls[c])
    requires c !in s.released && c !in s.late
    ensures Owns(s, c) && Inv(Release(s, c))
  {
    hide MessageKey;
    var s' := Release(s, c);
    forall c' | c' in s'.calls && Admitted(s'.calls[c']) ensures Owns(s', c') || c' in s'.released {
      assert Owns(s, c') || c' in s.released;
    }
    assert Owned(s');
    assert Pending(s');
  }

  lemma SimpleKeeps(s: State, a: Action)
    requires Inv(s) && Enabled(s, a) && (a.Arrive? || a.Limit?)
    ensures Inv(Step(s, a))
  {
    match a {
      case Arrive(c, bizID, payload) => ArriveKeeps(s, c, bizID, payload);
      case Limit(c, allowed) =>
        PutKeeps(s, c, AtCache);
        PutKeeps(s, c, Ended(RateLimited));
    }
  }

  lemma ArriveKeeps(s: State, c: nat, bizID: int, payload: Payload)
    requires Inv(s) && c !in s.calls
    ensures Inv(s.(calls := s.calls[c := Call(bizID, payload, AtLimiter)]))
  {
    hide MessageKey;
    var s' := s.(calls := s.calls[c := Call(bizID, payload, AtLimiter)]);
    assert c !in s.late && c !in s.released;
    assert Owned(s');
    assert Pending(s');
    assert Attributed(s');
  }

  lemma FinishKeeps(s: State, c: nat, e: Env)
    requires Inv(s) && Enabled(s, Finish(c, e))
    ensures Inv(FinishStep(s, c, e))
  {
    hide MessageKey, HandlerResult;
    RunningIsFresh(s, c);
    var cmd := s.calls[c].payload.msg.cmd;
    var err := HandlerResult(cmd, e);
    PutKeeps(s, c, if ShouldDelete(err) && !cmd.Heartbeat? then Deleting(err) else Ended(Handled(err)));
  }

  lemma LateSetKeeps(s: State, c: nat)
    requires Inv(s) && Running(s, c) && Deduplicated(s.calls[c])
    ensures Inv(Put(s, c, Ended(CacheFailed)).(late := s.late[c := LateSet]))
  {
    hide MessageKey;
    PutKeeps(s, c, Ended(CacheFailed));
  }

  lemma AdmitKeeps(s: State, c: nat, d: Delivery)
    requires Inv(s) && Running(s, c) && Deduplicated(s.calls[c]) && Rejection(s.calls[c].payload).None?
    ensures Inv(AdmitStep(s, c, d))
  {
    hide MessageKey, Inv, KeyOf;
    ReserveKeeps(s, c);
    match d {
      case Answered =>
        if KeyOf(s.calls[c]) in s.cache {
          PutKeeps(s, c, Ended(Duplicate));
        } else {
          PutKeeps(Reserve(s, c), c, if s.calls[c].payload.msg.cmd.Other? then Ended(UnknownCommand) else Dispatched);
        }
      case LostBefore => PutKeeps(s, c, Ended(CacheFailed));
      case LostAfter => PutKeeps(Reserve(s, c), c, Ended(CacheFailed));
      case Delayed => LateSetKeeps(s, c);
    }
  }

  lemma CacheKeeps(s: State, c: nat, d: Delivery)
    requires Inv(s) && Enabled(s, Cache(c, d))
    ensures Inv(CacheStep(s, c, d))
  {
    hide AdmitStep, Inv, MessageKey;
    var p := s.calls[c].payload;
    if Rejection(p).Some? {
      PutKeeps(s, c, Ended(Rejection(p).value));
    } else if p.msg.cmd.Heartbeat? {
      PutKeeps(s, c, Dispatched);
    } else {
      AdmitKeeps(s, c, d);
    }
  }

  lemma EraseKeeps(s: State, c: nat, d: Delivery)
    requires Inv(s) && Enabled(s, Erase(c, d))
    ensures Inv(EraseStep(s, c, d))
  {
    hide MessageKey, ShouldDelete;
    RunningIsFresh(s, c);
    PutKeeps(s, c, Ended(Handled(s.calls[c].stage.err)));
    var s' := Put(s, c, Ended(Handled(s.calls[c].stage.err)));
    if d.Delayed? {
      assert Pending(s'.(late := s.late[c := LateDelete]));
    } else if !d.LostBefore? {
      ReleaseKeeps(s', c);
    }
  }

  lemma LateKeeps(s: State, c: nat)
    requires Inv(s) && Enabled(s, LateApply(c))
    ensures Inv(LateStep(s, c))
  {
    hide MessageKey, ShouldDelete;
    var s' := s.(late := s.late - {c});
    assert Inv(s');
    if s.late[c].LateSet? {
      ReserveKeeps(s', c);
    } else {
      ReleaseKeeps(s', c);
    }
  }

  lemma StepKeeps(s: State, a: Action)
    requires Inv(s) && Enabled(s, a)
    ensures Inv(Step(s, a))
  {
    match a {
      case Arrive(_, _, _) => SimpleKeeps(s, a);
      case Limit(_, _) => SimpleKeeps(s, a);
      case Cache(c, d) => CacheKeeps(s, c, d);
      case Finish(c, e) => FinishKeeps(s, c, e);
      case Erase(c, d) => EraseKeeps(s, c, d);
      case LateApply(c) => LateKeeps(s, c);
    }
  }

  lemma {:induction false} RunKeeps(s: State, acts: seq<Action>)
    requires Inv(s) && CanRun(s, acts)
    ensures Inv(Run(s, acts))
    decreases |acts|
  {
    hide Inv, Step, Enabled;
    if acts != [] {
      StepKeeps(s, acts[0]);
      RunKeeps(Step(s, acts[0]), acts[1..]);
    }
  }

  // ----- main results

  /** Deduplication holds: in every reachable state at most one call per business and message key is in a handler or
      deleting its entry, whatever the cache loses or delays. */
  lemma AtMostOneInFlight(acts: seq<Action>, c: nat, c': nat)
    requires CanRun(Init(), acts)
    requires var s := Run(Init(), acts);
             && c in s.calls && c' in s.calls && InFlight(s.calls[c]) && InFlight(s.calls[c'])
             && SameMessage(s.calls[c], s.calls[c'])
    ensures c == c'
  {
    RunKeeps(Init(), acts);
    var s := Run(Init(), acts);
    assert Owns(s, c) && Owns(s, c');
  }

  /** A message is admitted again only after every earlier admission of it ended in one of the four retryable errors
      and deleted its entry. */
  lemma ReadmittedOnlyAfterRelease(acts: seq<Action>, c: nat, d: Delivery, c': nat)
    requires CanRun(Init(), acts) && Enabled(Run(Init(), acts), Cache(c, d))
    requires var s := Run(Init(), acts);
             && Admitted(CacheStep(s, c, d).calls[c])
             && c' in s.calls && Admitted(s.calls[c']) && SameMessage(s.calls[c], s.calls[c'])
    ensures var s := Run(Init(), acts); c' in s.released && Retryable(s.calls[c'])
  {
    RunKeeps(Init(), acts);
    hide CanRun, Run;
    AdmittedIsAbsent(Run(Init(), acts), c, d);
    hide MessageKey, CacheStep;
    var s := Run(Init(), acts);
    assert KeyOf(s.calls[c]) == KeyOf(s.calls[c']);
    assert !Owns(s, c');
  }

  lemma AdmittedIsAbsent(s: State, c: nat, d: Delivery)
    requires Enabled(s, Cache(c, d)) && Admitted(CacheStep(s, c, d).calls[c])
    ensures s.calls[c].payload.Decoded? && KeyOf(s.calls[c]) !in s.cache
  {
    hide MessageKey;
  }

  /** A message is refused as a duplicate only if the cache entry was set for that very message. */
  lemma DuplicateHasOriginal(acts: seq<Action>, c: nat, d: Delivery)
    requires CanRun(Init(), acts) && Enabled(Run(Init(), acts), Cache(c, d))
    requires CacheStep(Run(Init(), acts), c, d).calls[c].stage == Ended(Duplicate)
    ensures var s := Run(Init(), acts);
            exists c' :: c' in s.calls && c' != c && SameMessage(s.calls[c'], s.calls[c]) && Owns(s, c')
  {
    RunKeeps(Init(), acts);
    var s := Run(Init(), acts);
    NotOwnerYet(acts);
    var c' := s.cache[KeyOf(s.calls[c])];
    MessageKeyInjective(s.calls[c].bizID, s.calls[c].payload.msg.key, s.calls[c'].bizID, s.calls[c'].payload.msg.key);
    assert Owns(s, c') && SameMessage(s.calls[c'], s.calls[c]);
  }

  /** Owners of entries are past their request to the cache. */
  ghost predicate OwnersArePast(s: State) {
    && (forall k :: k in s.cache ==>
          s.cache[k] in s.calls && !s.calls[s.cache[k]].stage.AtLimiter? && !s.calls[s.cache[k]].stage.AtCache?
          && s.calls[s.cache[k]].stage != Ended(RateLimited))
    && (forall c :: c in s.late ==> c in s.calls && s.calls[c].stage.Ended? && s.calls[c].stage != Ended(RateLimited))
  }

  lemma PastCache(s: State, c: nat, d: Delivery)
    requires OwnersArePast(s) && Enabled(s, Cache(c, d)) && c !in s.late
    ensures OwnersArePast(CacheStep(s, c, d))
  {
    hide MessageKey;
  }

  lemma PastErase(s: State, c: nat, d: Delivery)
    requires OwnersArePast(s) && Enabled(s, Erase(c, d)) && c !in s.late
    ensures OwnersArePast(EraseStep(s, c, d))
  {
    hide MessageKey;
  }

  lemma PastOther(s: State, a: Action)
    requires OwnersArePast(s) && Enabled(s, a) && !a.Cache? && !a.Erase?
    requires a.c in s.late ==> a.LateApply?
    ensures OwnersArePast(Step(s, a))
  {
    hide MessageKey, HandlerResult, ShouldDelete;
  }

  lemma StepPast(s: State, a: Action)
    requires OwnersArePast(s) && Inv(s) && Enabled(s, a)
    ensures OwnersArePast(Step(s, a))
  {
    if !a.LateApply? {
      assert a.c !in s.late;
    }
    match a {
      case Cache(c, d) => PastCache(s, c, d);
      case Erase(c, d) => PastErase(s, c, d);
      case _ => PastOther(s, a);
    }
  }

  lemma {:induction false} RunPast(s: State, acts: seq<Action>)
    requires OwnersArePast(s) && Inv(s) && CanRun(s, acts)
    ensures OwnersArePast(Run(s, acts))
    decreases |acts|
  {
    hide Inv, OwnersArePast, Step, Enabled;
    if acts != [] {
      StepPast(s, acts[0]);
      StepKeeps(s, acts[0]);
      RunPast(Step(s, acts[0]), acts[1..]);
    }
  }

  lemma NotOwnerYet(acts: seq<Action>)
    requires CanRun(Init(), acts)
    ensures OwnersArePast(Run(Init(), acts))
  {
    RunPast(Init(), acts);
  }

  /** A rate-limited message leaves no trace in the cache: it owns no entry, and has no request under way. */
  lemma RateLimitedIsNotCached(acts: seq<Action>, c: nat)
    requires CanRun(Init(), acts) && StageIs(Run(Init(), acts), c, Ended(RateLimited))
    ensures var s := Run(Init(), acts); c !in s.late && forall k :: k in s.cache ==> s.cache[k] != c
  {
    NotOwnerYet(acts);
  }

  // ----- entries that stay for good

  /** Call c has been answered, owns its entry, and has no Delete under way. */
  predicate Holds(s: State, c: nat) {
    && c in s.calls && Deduplicated(s.calls[c]) && s.calls[c].stage.Ended?
    && Owns(s, c) && (c in s.late ==> s.late[c].LateSet?)
  }

  lemma StepHolds(s: State, a: Action, c: nat)
    requires Inv(s) && Holds(s, c) && Enabled(s, a)
    ensures Holds(Step(s, a), c) && Step(s, a).calls[c] == s.calls[c]
  {
    match a {
      case Cache(c', d) => CacheHolds(s, c', d, c);
      case Erase(c', d) => EraseHolds(s, c', d, c);
      case LateApply(c') => LateHolds(s, c', c);
      case _ => hide MessageKey, HandlerResult, Inv;
    }
  }

  lemma CacheHolds(s: State, c': nat, d: Delivery, c: nat)
    requires Holds(s, c) && Enabled(s, Cache(c', d))
    ensures Holds(CacheStep(s, c', d), c) && CacheStep(s, c', d).calls[c] == s.calls[c]
  {
    hide MessageKey;
  }

  lemma EraseHolds(s: State, c': nat, d: Delivery, c: nat)
    requires Inv(s) && Holds(s, c) && Enabled(s, Erase(c', d))
    ensures Holds(EraseStep(s, c', d), c) && EraseStep(s, c', d).calls[c] == s.calls[c]
  {
    hide MessageKey;
    assert Owns(s, c') by {
      RunningIsFresh(s, c');
      assert Admitted(s.calls[c']);
    }
  }

  lemma LateHolds(s: State, c': nat, c: nat)
    requires Inv(s) && Holds(s, c) && Enabled(s, LateApply(c'))
    ensures Holds(LateStep(s, c'), c) && LateStep(s, c').calls[c] == s.calls[c]
  {
    hide MessageKey;
    if s.late[c'].LateDelete? {
      assert c' != c && Owns(s, c');
    }
  }

  lemma {:induction false} RunHolds(s: State, acts: seq<Action>, c: nat)
    requires Inv(s) && Holds(s, c) && CanRun(s, acts)
    ensures Inv(Run(s, acts)) && Holds(Run(s, acts), c) && Run(s, acts).calls[c] == s.calls[c]
    decreases |acts|
  {
    hide Inv, Holds, Step, Enabled;
    if acts != [] {
      StepKeeps(s, acts[0]);
      StepHolds(s, acts[0], c);
      RunHolds(Step(s, acts[0]), acts[1..], c);
    }
  }

  lemma InFlightOwns(s: State, c: nat)
    requires Inv(s) && c in s.calls && InFlight(s.calls[c])
    ensures Owns(s, c)
  {
    RunningIsFresh(s, c);
    assert Admitted(s.calls[c]);
  }

  /** An entry whose call was answered stays for good unless its Delete is under way. So a message answered with
      success, or with any other error, is never handled again; and neither is one whose SetNX took effect but was
      reported as failed, or whose Delete was lost, although the sender was told to retry. */
  lemma HeldMessageIsNeverHandledAgain(s: State, acts: seq<Action>, c: nat, c': nat)
    requires Inv(s) && Holds(s, c) && CanRun(s, acts)
    requires c' in Run(s, acts).calls && SameMessage(Run(s, acts).calls[c'], s.calls[c])
    ensures !InFlight(Run(s, acts).calls[c'])
  {
    hide MessageKey;
    RunHolds(s, acts, c);
    var s' := Run(s, acts);
    if InFlight(s'.calls[c']) {
      InFlightOwns(s', c');
    }
  }

  /** When an answered call owns its entry, the entry can ever go away exactly if a Delete of it is under way. */
  lemma EntryCanGoIff(s: State, c: nat)
    requires Inv(s) && c in s.calls && Deduplicated(s.calls[c]) && s.calls[c].stage.Ended? && Owns(s, c)
    ensures (exists acts :: CanRun(s, acts) && c in Run(s, acts).calls && Run(s, acts).calls[c] == s.calls[c]
                            && !Owns(Run(s, acts), c))
            <==> c in s.late && s.late[c].LateDelete?
  {
    if c in s.late && s.late[c].LateDelete? {
      var acts := Then(s, [], LateApply(c));
      assert CanRun(s, acts) && !Owns(Run(s, acts), c);
    } else {
      forall acts | CanRun(s, acts) ensures Holds(Run(s, acts), c) {
        RunHolds(s, acts, c);
      }
    }
  }

  // ----- what the sender is told, and what its call leaves in the cache

  /** Another call holds the entry of c's very message. */
  ghost predicate HeldByAnother(s: State, c: nat)
    requires c in s.calls
  {
    exists o :: o in s.calls && o != c && SameMessage(s.calls[o], s.calls[c]) && Owns(s, o)
  }

  /** Before any handler runs, in this order: an unreadable envelope, or one without a key that is no heartbeat; a body
      that does not decrypt; a heartbeat goes on; a cache that does not answer; a copy of a message that another call
      has entered; a command nobody handles. Whatever goes on, a heartbeat aside, has just entered its message. */
  lemma AdmissionIsTold(acts: seq<Action>, c: nat, d: Delivery)
    requires CanRun(Init(), acts) && Enabled(Run(Init(), acts), Cache(c, d))
    ensures var s := Run(Init(), acts);
            var s' := Step(s, Cache(c, d));
            var p := s.calls[c].payload;
            && c in s'.calls && s'.calls[c].payload == p
            && (if p == Garbage || (p.msg.key == "" && p.msg.cmd != Heartbeat) then
                  s'.calls[c].stage == Ended(BadFormat) && s'.cache == s.cache
                else if !p.msg.readable then s'.calls[c].stage == Ended(DecryptFailed) && s'.cache == s.cache
                else if p.msg.cmd == Heartbeat then s'.calls[c].stage == Dispatched && s'.cache == s.cache
                else if d != Answered then s'.calls[c].stage == Ended(CacheFailed)
                else if HeldByAnother(s, c) then s'.calls[c].stage == Ended(Duplicate) && s'.cache == s.cache
                else
                  && s'.calls[c].stage == (if p.msg.cmd.Other? then Ended(UnknownCommand) else Dispatched)
                  && Owns(s', c))
  {
    RunKeeps(Init(), acts);
    NotOwnerYet(acts);
    var s := Run(Init(), acts);
    hide CanRun, Run;
    if s.calls[c].payload.Decoded? {
      HeldIff(s, c);
    }
    hide Inv, OwnersArePast, MessageKey, HeldByAnother;
  }

  lemma HeldIff(s: State, c: nat)
    requires Inv(s) && OwnersArePast(s) && StageIs(s, c, AtCache) && s.calls[c].payload.Decoded?
    ensures HeldByAnother(s, c) <==> KeyOf(s.calls[c]) in s.cache
  {
    if KeyOf(s.calls[c]) in s.cache {
      var o := s.cache[KeyOf(s.calls[c])];
      MessageKeyInjective(s.calls[c].bizID, s.calls[c].payload.msg.key, s.calls[o].bizID, s.calls[o].payload.msg.key);
      assert o in s.calls && o != c && SameMessage(s.calls[o], s.calls[c]) && Owns(s, o);
    }
    hide MessageKey;
  }

  /** What a request to the cache leaves behind. A SetNX that took effect unnoticed holds the entry for good, although
      the sender is told that the cache failed, and so does one that takes effect later; one that was lost holds
      nothing. A Delete that took effect, noticed or not, frees the entry; one that was lost leaves it for good. */
  lemma CacheRequestsLeave(acts: seq<Action>, c: nat, d: Delivery)
    requires CanRun(Init(), acts)
    ensures var s := Run(Init(), acts);
            && (Enabled(s, Cache(c, d)) && s.calls[c].payload.Decoded? && KeyOf(s.calls[c]) !in s.cache
                && Step(s, Cache(c, d)).calls[c].stage == Ended(CacheFailed) ==>
                  var s' := Step(s, Cache(c, d));
                  match d
                  case Answered => false
                  case LostBefore => s' == s.(calls := s'.calls)
                  case LostAfter => Holds(s', c)
                  case Delayed =>
                    s'.cache == s.cache && Enabled(s', LateApply(c)) && Holds(Step(s', LateApply(c)), c))
            && (Enabled(s, Erase(c, d)) ==>
                  var s' := Step(s, Erase(c, d));
                  && c in s'.calls && s'.calls[c].stage == Ended(Handled(s.calls[c].stage.err))
                  && match d
                     case Answered => KeyOf(s.calls[c]) !in s'.cache && c in s'.released
                     case LostBefore => Holds(s', c)
                     case LostAfter => KeyOf(s.calls[c]) !in s'.cache && c in s'.released
                     case Delayed =>
                       Owns(s', c) && Enabled(s', LateApply(c)) && KeyOf(s.calls[c]) !in Step(s', LateApply(c)).cache)
  {
    RunKeeps(Init(), acts);
    var s := Run(Init(), acts);
    hide CanRun, Run, Inv;
    if Enabled(s, Cache(c, d)) {
      RunningIsFresh(s, c);
      SetLeaves(s, c, d);
    }
    if Enabled(s, Erase(c, d)) {
      RunningIsFresh(s, c);
      InFlightHere(s, c);
      EraseLeaves(s, c, d);
    }
    hide Step, Enabled, Holds, MessageKey;
  }

  lemma InFlightHere(s: State, c: nat)
    requires Inv(s) && c in s.calls && s.calls[c].stage.Deleting?
    ensures Deduplicated(s.calls[c]) && Owns(s, c)
  {
    InFlightOwns(s, c);
  }

  lemma SetLeaves(s: State, c: nat, d: Delivery)
    requires Enabled(s, Cache(c, d)) && c !in s.late
    ensures s.calls[c].payload.Decoded? && KeyOf(s.calls[c]) !in s.cache
            && Step(s, Cache(c, d)).calls[c].stage == Ended(CacheFailed) ==>
              var s' := Step(s, Cache(c, d));
              match d
              case Answered => false
              case LostBefore => s' == s.(calls := s'.calls)
              case LostAfter => Holds(s', c)
              case Delayed => s'.cache == s.cache && Enabled(s', LateApply(c)) && Holds(Step(s', LateApply(c)), c)
  {
    hide MessageKey;
  }

  lemma EraseLeaves(s: State, c: nat, d: Delivery)
    requires Enabled(s, Erase(c, d)) && c !in s.late && Deduplicated(s.calls[c]) && Owns(s, c)
    ensures var s' := Step(s, Erase(c, d));
            && c in s'.calls && s'.calls[c].stage == Ended(Handled(s.calls[c].stage.err))
            && match d
               case Answered => KeyOf(s.calls[c]) !in s'.cache && c in s'.released
               case LostBefore => Holds(s', c)
               case LostAfter => KeyOf(s.calls[c]) !in s'.cache && c in s'.released
               case Delayed =>
                 Owns(s', c) && Enabled(s', LateApply(c)) && KeyOf(s.calls[c]) !in Step(s', LateApply(c)).cache
  {
    hide MessageKey;
  }

  /** Which error a handler reports for which failure, and that the entry is deleted exactly for the four that allow a
      retry, never for a heartbeat. An acknowledgement cannot fail. */
  lemma HandlerErrorIff(s: State, c: nat, e: Env)
    requires Enabled(s, Finish(c, e))
    ensures var cmd := s.calls[c].payload.msg.cmd;
            var served := cmd == Upstream ==> e.known && e.answered && e.responseMarshals;
            var replies := cmd == Upstream || cmd == Heartbeat;
            var stage := Step(s, Finish(c, e)).calls[c].stage;
            var err := if stage.Deleting? then stage.err else if stage.Ended? && stage.outcome.Handled?
                       then stage.outcome.err else {};
            && (stage == Deleting(err) || stage == Ended(Handled(err)))
            && (UnknownBizID in err <==> cmd == Upstream && !e.known)
            && (MaxRetriesExceeded in err <==> cmd == Upstream && e.known && !e.answered)
            && (BackendFailed in err <==> cmd == Upstream && e.known && !e.answered)
            && (EncryptFailed in err <==> replies && served && !e.encrypts)
            && (MarshalFailed in err <==>
                  || (cmd == Upstream && e.known && e.answered && !e.responseMarshals)
                  || (replies && served && e.encrypts && !e.replyMarshals))
            && (SendFailed in err <==> replies && served && e.encrypts && e.replyMarshals && !e.sends)
            && (stage.Deleting? <==>
                  cmd != Heartbeat
                  && (UnknownBizID in err || MaxRetriesExceeded in err || EncryptFailed in err || MarshalFailed in err))
            && Step(s, Finish(c, e)).cache == s.cache
  {
  }

  // ----- which errors release

  /** An upstream message is released exactly when its business is unknown, its retries are exhausted, or the reply
      cannot be built; failing to send the reply does not release it. */
  lemma UpstreamReleasesIff(e: Env)
    ensures ShouldDelete(UpstreamResult(e))
            <==> !e.known || !e.answered || !e.responseMarshals || !e.encrypts || !e.replyMarshals
    ensures UpstreamResult(e) == {} <==> e.known && e.answered && e.responseMarshals && e.encrypts && e.replyMarshals && e.sends
  {
  }

  /** Deduplication does not make the backend see a message once: if the reply cannot be encrypted after the backend
      has answered, the entry is deleted and the next copy is forwarded again. */
  lemma BackendMaySeeAMessageTwice(bizID: int, key: string)
    requires key != ""
    ensures exists acts: seq<Action>, i: nat, j: nat ::
              && CanRun(Init(), acts) && i < j < |acts|
              && acts[i].Finish? && acts[j].Finish? && acts[i].c != acts[j].c
              && acts[i].e.known && acts[i].e.answered && acts[j].e.known && acts[j].e.answered
              && acts[i].c in Run(Init(), acts).calls && acts[j].c in Run(Init(), acts).calls
              && SameMessage(Run(Init(), acts).calls[acts[i].c], Run(Init(), acts).calls[acts[j].c])
  {
    hide MessageKey;
    var p := Decoded(Message(Upstream, key, true));
    var bad, good := Env(true, true, true, false, true, true), Env(true, true, true, true, true, true);
    var first := HandledOnce(bizID, key, bad);
    var acts := Then(Init(), first, Erase(0, Answered));
    acts := HandledAgain(bizID, key, acts, good);
    assert acts[3] == Finish(0, bad) && acts[8] == Finish(1, good);
  }

  lemma HandledOnce(bizID: int, key: string, e: Env) returns (acts: seq<Action>)
    requires key != "" && e == Env(true, true, true, false, true, true)
    ensures |acts| == 4 && acts[3] == Finish(0, e) && CanRun(Init(), acts)
    ensures var s := Run(Init(), acts);
            && s.calls == map[0 := Call(bizID, Decoded(Message(Upstream, key, true)), Deleting({EncryptFailed}))]
            && s.cache == map[MessageKey(bizID, key) := 0]
  {
    hide MessageKey;
    acts := Then(Init(), [], Arrive(0, bizID, Decoded(Message(Upstream, key, true))));
    acts := Then(Init(), acts, Limit(0, true));
    acts := Then(Init(), acts, Cache(0, Answered));
    acts := Then(Init(), acts, Finish(0, e));
    assert Run(Init(), acts).calls[0].stage == Deleting({EncryptFailed});
  }

  lemma HandledAgain(bizID: int, key: string, before: seq<Action>, e: Env) returns (acts: seq<Action>)
    requires key != "" && e == Env(true, true, true, true, true, true) && CanRun(Init(), before)
    requires var s := Run(Init(), before); 1 !in s.calls && s.cache == map[]
    ensures |acts| == |before| + 4 && acts[..|before|] == before && acts[|before| + 3] == Finish(1, e) && CanRun(Init(), acts)
    ensures var s, s' := Run(Init(), before), Run(Init(), acts);
            s'.calls == s.calls[1 := Call(bizID, Decoded(Message(Upstream, key, true)), Ended(Handled({})))]
  {
    hide MessageKey;
    acts := Then(Init(), before, Arrive(1, bizID, Decoded(Message(Upstream, key, true))));
    acts := Then(Init(), acts, Limit(1, true));
    acts := Then(Init(), acts, Cache(1, Answered));
    acts := Then(Init(), acts, Finish(1, e));
  }
}
