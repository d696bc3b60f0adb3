/**
 How often the backend answers one message. Deduplication promises once; it is once exactly as long as the reply to
 the sender can be built.
 */
module DispatchBackend {
  import opened Common
  import opened Keys
  import opened DispatchModel
  import opened DispatchTheorems

  /** The state after the first i steps. */
  function After(s: State, acts: seq<Action>, i: nat): State
    requires CanRun(s, acts) && i <= |acts|
    decreases i
  {
    if i == 0 then s else After(Step(s, acts[0]), acts[1..], i - 1)
  }

  lemma {:induction false} AfterNext(s: State, acts: seq<Action>, i: nat)
    requires CanRun(s, acts) && i < |acts|
    ensures Enabled(After(s, acts, i), acts[i]) && After(s, acts, i + 1) == Step(After(s, acts, i), acts[i])
    decreases i
  {
    hide Step, Enabled;
    if i > 0 {
      AfterNext(Step(s, acts[0]), acts[1..], i - 1);
    }
  }

  lemma {:induction false} AfterAppend(s: State, acts: seq<Action>, a: Action)
    requires CanRun(s, acts) && CanRun(s, acts + [a])
    ensures After(s, acts + [a], |acts|) == Run(s, acts)
    decreases |acts|
  {
    hide Step, Enabled;
    if acts != [] {
      assert (acts + [a])[0] == acts[0] && (acts + [a])[1..] == acts[1..] + [a];
      AfterAppend(Step(s, acts[0]), acts[1..], a);
    }
  }

  lemma {:induction false} AfterKeeps(s: State, acts: seq<Action>, i: nat)
    requires Inv(s) && CanRun(s, acts) && i <= |acts|
    ensures Inv(After(s, acts, i))
    decreases i
  {
    hide Inv, Step, Enabled;
    if i > 0 {
      StepKeeps(s, acts[0]);
      AfterKeeps(Step(s, acts[0]), acts[1..], i - 1);
    }
  }

  /** In state s, step a is the backend's answer to this upstream message. */
  predicate Forward(s: State, a: Action, bizID: int, key: string) {
    && a.Finish? && a.e.known && a.e.answered && a.c in s.calls
    && s.calls[a.c].payload.Decoded? && s.calls[a.c].payload.msg.cmd.Upstream?
    && s.calls[a.c].bizID == bizID && s.calls[a.c].payload.msg.key == key
  }

  /** The answer can be marshalled, and the reply that carries it encrypted and marshalled. */
  predicate BuildsReply(e: Env) {
    e.responseMarshals && e.encrypts && e.replyMarshals
  }

  /** Call c, for this message, has been through its handler with this result. */
  predicate HandledWith(s: State, c: nat, bizID: int, key: string, err: set<Sentinel>) {
    && c in s.calls && Deduplicated(s.calls[c]) && s.calls[c].bizID == bizID && s.calls[c].payload.msg.key == key
    && (s.calls[c].stage == Deleting(err) || s.calls[c].stage == Ended(Handled(err)))
  }

  lemma ForwardHandles(s: State, a: Action, bizID: int, key: string)
    requires Enabled(s, a) && Forward(s, a, bizID, key)
    ensures HandledWith(Step(s, a), a.c, bizID, key, UpstreamResult(a.e))
    ensures ShouldDelete(UpstreamResult(a.e)) <==> !BuildsReply(a.e)
    ensures !BuildsReply(a.e) ==> Step(s, a).calls[a.c].stage == Deleting(UpstreamResult(a.e))
  {
    UpstreamReleasesIff(a.e);
  }

  lemma StepHandledWith(s: State, a: Action, c: nat, bizID: int, key: string, err: set<Sentinel>)
    requires HandledWith(s, c, bizID, key, err) && Enabled(s, a)
    ensures HandledWith(Step(s, a), c, bizID, key, err)
  {
    hide MessageKey, HandlerResult, ShouldDelete;
  }

  lemma {:induction false} StaysHandledWith(s: State, acts: seq<Action>, i: nat, c: nat, bizID: int, key: string,
                                            err: set<Sentinel>)
    requires HandledWith(s, c, bizID, key, err) && CanRun(s, acts) && i <= |acts|
    ensures HandledWith(After(s, acts, i), c, bizID, key, err)
    decreases i
  {
    hide HandledWith, Step, Enabled;
    if i > 0 {
      StepHandledWith(s, acts[0], c, bizID, key, err);
      StaysHandledWith(Step(s, acts[0]), acts[1..], i - 1, c, bizID, key, err);
    }
  }

  /** While another call of the same message is in its handler, an earlier one has given up its entry. */
  lemma EarlierIsReleased(s: State, c: nat, a: Action, bizID: int, key: string, err: set<Sentinel>)
    requires Inv(s) && HandledWith(s, c, bizID, key, err) && Enabled(s, a) && Forward(s, a, bizID, key)
    ensures c != a.c && c in s.released && ShouldDelete(err)
  {
    hide MessageKey, ShouldDelete;
    InFlightOwns(s, a.c);
    assert Admitted(s.calls[c]);
    assert KeyOf(s.calls[c]) == KeyOf(s.calls[a.c]);
  }

  /** The backend answers a message a second time only if the reply to its first answer could not be built and the entry
      of that call was deleted. So if every reply can be built, it answers each message at most once. */
  lemma SecondAnswerNeedsFailedReply(acts: seq<Action>, i: nat, j: nat, bizID: int, key: string)
    requires CanRun(Init(), acts) && i < j < |acts|
    requires Forward(After(Init(), acts, i), acts[i], bizID, key) && Forward(After(Init(), acts, j), acts[j], bizID, key)
    ensures !BuildsReply(acts[i].e) && acts[i].c != acts[j].c && acts[i].c in After(Init(), acts, j).released
  {
    hide Forward, HandledWith, Inv, BuildsReply, UpstreamResult, ShouldDelete, CanRun, After, Enabled, Step;
    var err := HandledAfter(acts, i, j, bizID, key);
    assert Inv(Init()) by { InitKeeps(); }
    AfterKeeps(Init(), acts, j);
    AfterNext(Init(), acts, j);
    IsFinish(After(Init(), acts, i), acts[i], bizID, key);
    IsFinish(After(Init(), acts, j), acts[j], bizID, key);
    EarlierIsReleased(After(Init(), acts, j), acts[i].c, acts[j], bizID, key, err);
  }

  lemma InitKeeps()
    ensures Inv(Init())
  {
  }

  lemma IsFinish(s: State, a: Action, bizID: int, key: string)
    requires Forward(s, a, bizID, key)
    ensures a.Finish?
  {
  }

  /** What the first of two answers left behind is still there at the second. */
  lemma HandledAfter(acts: seq<Action>, i: nat, j: nat, bizID: int, key: string) returns (err: set<Sentinel>)
    requires CanRun(Init(), acts) && i < j < |acts| && Forward(After(Init(), acts, i), acts[i], bizID, key)
    ensures acts[i].Finish? && HandledWith(After(Init(), acts, j), acts[i].c, bizID, key, err)
    ensures ShouldDelete(err) <==> !BuildsReply(acts[i].e)
  {
    hide HandledWith, BuildsReply, UpstreamResult, ShouldDelete, Enabled, Step;
    IsFinish(After(Init(), acts, i), acts[i], bizID, key);
    err := UpstreamResult(acts[i].e);
    AfterNext(Init(), acts, i);
    ForwardHandles(After(Init(), acts, i), acts[i], bizID, key);
    hide Forward, CanRun, After;
    HandledBetween(Init(), acts, i + 1, j, acts[i].c, bizID, key, err);
  }

  lemma {:induction false} HandledBetween(s: State, acts: seq<Action>, i: nat, j: nat, c: nat, bizID: int, key: string,
                                          err: set<Sentinel>)
    requires CanRun(s, acts) && i <= j <= |acts| && HandledWith(After(s, acts, i), c, bizID, key, err)
    ensures HandledWith(After(s, acts, j), c, bizID, key, err)
    decreases i
  {
    hide HandledWith, Step, Enabled;
    if i == 0 {
      StaysHandledWith(s, acts, j, c, bizID, key, err);
    } else {
      HandledBetween(Step(s, acts[0]), acts[1..], i - 1, j - 1, c, bizID, key, err);
    }
  }

  /** Some continuation lets the backend answer the message. */
  ghost predicate AnsweredAgain(s: State, bizID: int, key: string) {
    exists more: seq<Action>, k: nat ::
      CanRun(s, more) && k < |more| && Forward(After(s, more, k), more[k], bizID, key)
  }

  /** The exact condition: after the backend has answered a message, it may be made to answer it again if and only if the
      reply could not be built. */
  lemma AnsweredAgainIff(acts: seq<Action>, a: Action, bizID: int, key: string)
    requires CanRun(Init(), acts) && Enabled(Run(Init(), acts), a) && Forward(Run(Init(), acts), a, bizID, key)
    ensures AnsweredAgain(Step(Run(Init(), acts), a), bizID, key) <==> !BuildsReply(a.e)
  {
    InitKeeps();
    RunKeeps(Init(), acts);
    var s0 := Run(Init(), acts);
    StepKeeps(s0, a);
    ForwardHandles(s0, a, bizID, key);
    var s := Step(s0, a);
    hide Inv, Step, Enabled, HandledWith, BuildsReply, UpstreamResult, ShouldDelete, CanRun, Run;
    if AnsweredAgain(s, bizID, key) {
      NeedsFailedReply(s, a.c, bizID, key, UpstreamResult(a.e));
    }
    if !BuildsReply(a.e) {
      CanBeAnsweredAgain(s, a.c, bizID, key, UpstreamResult(a.e));
    }
  }

  lemma NeedsFailedReply(s: State, c: nat, bizID: int, key: string, err: set<Sentinel>)
    requires Inv(s) && HandledWith(s, c, bizID, key, err) && AnsweredAgain(s, bizID, key)
    ensures ShouldDelete(err)
  {
    hide Inv, Step, Enabled, HandledWith, ShouldDelete;
    var more: seq<Action>, k: nat :| CanRun(s, more) && k < |more| && Forward(After(s, more, k), more[k], bizID, key);
    hide Forward, CanRun, After;
    AfterKeeps(s, more, k);
    AfterNext(s, more, k);
    StaysHandledWith(s, more, k, c, bizID, key, err);
    IsFinish(After(s, more, k), more[k], bizID, key);
    EarlierIsReleased(After(s, more, k), c, more[k], bizID, key, err);
  }

  /** The entry is deleted, and the sender's next copy goes all the way. */
  lemma CanBeAnsweredAgain(s: State, c: nat, bizID: int, key: string, err: set<Sentinel>)
    requires Inv(s) && HandledWith(s, c, bizID, key, err) && s.calls[c].stage == Deleting(err)
    ensures AnsweredAgain(s, bizID, key)
  {
    hide MessageKey;
    assert key != "";
    var p := Decoded(Message(Upstream, key, true));
    var e := Env(true, true, true, true, true, true);
    var c' := FreshId(s.calls.Keys);
    var acts := Then(s, [], Erase(c, Answered));
    assert MessageKey(bizID, key) !in Run(s, acts).cache && c' !in Run(s, acts).calls;
    acts := Resent(s, acts, c', bizID, p);
    var longer := Then(s, acts, Finish(c', e));
    AfterAppend(s, acts, Finish(c', e));
    assert Forward(After(s, longer, |acts|), longer[|acts|], bizID, key);
  }

  lemma Resent(s: State, acts: seq<Action>, c: nat, bizID: int, p: Payload) returns (longer: seq<Action>)
    requires CanRun(s, acts) && p.Decoded? && p.msg.cmd.Upstream? && Rejection(p).None?
    requires c !in Run(s, acts).calls && MessageKey(bizID, p.msg.key) !in Run(s, acts).cache
    ensures CanRun(s, longer) && c in Run(s, longer).calls && Run(s, longer).calls[c] == Call(bizID, p, Dispatched)
  {
    hide MessageKey;
    longer := Then(s, acts, Arrive(c, bizID, p));
    longer := Then(s, longer, Limit(c, true));
    longer := Then(s, longer, Cache(c, Answered));
  }
}
