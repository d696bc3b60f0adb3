/**
 What a rate-limited message costs everybody else: nothing. The run in which it never arrived is the same run for
 every other call and for the cache.
 */
module DispatchLimit {
  import opened Keys
  import opened DispatchModel
  import opened DispatchTheorems

  /** The steps that are not call c's. */
  function Without(acts: seq<Action>, c: nat): (r: seq<Action>) {
    if acts == [] then []
    else if acts[0].c == c then Without(acts[1..], c)
    else [acts[0]] + Without(acts[1..], c)
  }

  /** The state with call c forgotten; cache, late requests and released entries stay. */
  function Forget(s: State, c: nat): State {
    s.(calls := s.calls - {c})
  }

  /** Call c has not come past the limiter. */
  predicate Outside(s: State, c: nat) {
    c in s.calls ==> s.calls[c].stage.AtLimiter? || s.calls[c].stage == Ended(RateLimited)
  }

  lemma StepOutside(s: State, a: Action, c: nat)
    requires Enabled(s, a) && Outside(Step(s, a), c)
    ensures Outside(s, c)
  {
    hide MessageKey, HandlerResult, ShouldDelete;
  }

  lemma {:induction false} RunOutside(s: State, acts: seq<Action>, c: nat)
    requires CanRun(s, acts) && Outside(Run(s, acts), c)
    ensures Outside(s, c)
    decreases |acts|
  {
    hide Outside, Step, Enabled;
    if acts != [] {
      RunOutside(Step(s, acts[0]), acts[1..], c);
      StepOutside(s, acts[0], c);
    }
  }

  /** Another call's step does the same whether c is there or not. */
  lemma OthersDoNotSee(s: State, a: Action, c: nat)
    requires Enabled(s, a) && a.c != c
    ensures Enabled(Forget(s, c), a) && Step(Forget(s, c), a) == Forget(Step(s, a), c)
  {
    hide MessageKey, HandlerResult, ShouldDelete;
    match a {
      case Arrive(_, _, _) =>
      case Limit(_, _) =>
      case Cache(_, d) => CacheDoesNotSee(s, a.c, d, c);
      case Finish(_, _) =>
      case Erase(_, d) => EraseDoesNotSee(s, a.c, d, c);
      case LateApply(_) =>
    }
  }

  lemma PutDoesNotSee(s: State, c': nat, stage: Stage, c: nat)
    requires c' in s.calls && c' != c
    ensures Put(Forget(s, c), c', stage) == Forget(Put(s, c', stage), c)
  {
  }

  lemma ReserveDoesNotSee(s: State, c': nat, c: nat)
    requires c' in s.calls && s.calls[c'].payload.Decoded? && c' != c
    ensures Reserve(Forget(s, c), c') == Forget(Reserve(s, c'), c)
  {
    hide MessageKey;
  }

  lemma AdmitDoesNotSee(s: State, c': nat, d: Delivery, c: nat)
    requires c' in s.calls && s.calls[c'].payload.Decoded? && c' != c
    ensures AdmitStep(Forget(s, c), c', d) == Forget(AdmitStep(s, c', d), c)
  {
    hide MessageKey, KeyOf;
    ReserveDoesNotSee(s, c', c);
    match d {
      case Answered =>
        PutDoesNotSee(s, c', Ended(Duplicate), c);
        PutDoesNotSee(Reserve(s, c'), c', Ended(UnknownCommand), c);
        PutDoesNotSee(Reserve(s, c'), c', Dispatched, c);
      case LostBefore => PutDoesNotSee(s, c', Ended(CacheFailed), c);
      case LostAfter => PutDoesNotSee(Reserve(s, c'), c', Ended(CacheFailed), c);
      case Delayed => PutDoesNotSee(s, c', Ended(CacheFailed), c);
    }
  }

  lemma CacheDoesNotSee(s: State, c': nat, d: Delivery, c: nat)
    requires Enabled(s, Cache(c', d)) && c' != c
    ensures Enabled(Forget(s, c), Cache(c', d)) && CacheStep(Forget(s, c), c', d) == Forget(CacheStep(s, c', d), c)
  {
    hide MessageKey, AdmitStep, Put;
    var p := s.calls[c'].payload;
    if Rejection(p).Some? {
      PutDoesNotSee(s, c', Ended(Rejection(p).value), c);
    } else if p.msg.cmd.Heartbeat? {
      PutDoesNotSee(s, c', Dispatched, c);
    } else {
      AdmitDoesNotSee(s, c', d, c);
    }
  }

  lemma EraseDoesNotSee(s: State, c': nat, d: Delivery, c: nat)
    requires Enabled(s, Erase(c', d)) && c' != c
    ensures Enabled(Forget(s, c), Erase(c', d)) && EraseStep(Forget(s, c), c', d) == Forget(EraseStep(s, c', d), c)
  {
    hide MessageKey;
  }

  /** A step of c that leaves it outside changes nothing else. */
  lemma OwnStepIsUnseen(s: State, a: Action, c: nat)
    requires OwnersArePast(s) && Enabled(s, a) && a.c == c && Outside(s, c) && Outside(Step(s, a), c)
    ensures Forget(Step(s, a), c) == Forget(s, c)
  {
    hide MessageKey, HandlerResult, ShouldDelete;
    assert a.Arrive? || a.Limit?;
  }

  lemma {:induction false} RunWithout(s: State, acts: seq<Action>, c: nat)
    requires Inv(s) && OwnersArePast(s) && CanRun(s, acts) && Outside(Run(s, acts), c)
    ensures CanRun(Forget(s, c), Without(acts, c)) && Run(Forget(s, c), Without(acts, c)) == Forget(Run(s, acts), c)
    decreases |acts|
  {
    hide Inv, OwnersArePast, Outside, Forget, Step, Enabled;
    if acts != [] {
      var s1 := Step(s, acts[0]);
      RunOutside(s1, acts[1..], c);
      StepOutside(s, acts[0], c);
      StepKeeps(s, acts[0]);
      StepPast(s, acts[0]);
      RunWithout(s1, acts[1..], c);
      if acts[0].c == c {
        OwnStepIsUnseen(s, acts[0], c);
      } else {
        OthersDoNotSee(s, acts[0], c);
        var rest := Without(acts, c);
        assert rest[0] == acts[0] && rest[1..] == Without(acts[1..], c);
      }
    }
  }

  /** A message the limiter refused leaves no trace: dropping its steps from the run gives a run that ends in the same
      cache and the same answers to all other calls. */
  lemma RefusedLeavesNoTrace(acts: seq<Action>, c: nat)
    requires CanRun(Init(), acts) && StageIs(Run(Init(), acts), c, Ended(RateLimited))
    ensures CanRun(Init(), Without(acts, c))
    ensures var s, s' := Run(Init(), acts), Run(Init(), Without(acts, c));
            && s'.cache == s.cache && s'.late == s.late && s'.released == s.released
            && s'.calls == s.calls - {c}
  {
    assert Forget(Init(), c) == Init();
    RunWithout(Init(), acts, c);
  }
}
