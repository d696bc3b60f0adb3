/**
 When a task whose key was deleted goes on retransmitting (pkg/pushretry/manager.go lines 130-134): existence is checked
 by key, so a new task under the same key keeps the old task's timer chain going.
 */
module PushRetryRevival {
  import opened Common
  import opened PushRetryModel
  import opened PushRetryTheorems

  // ----- how far a chain can get

  /** The number of pushes the chain can bring its task to, if nothing stops it. */
  function Reach(t: Task, maxRetries: int): nat {
    match t.chain
    case Pushing => t.pushes + 1 + PushesLeft(t, maxRetries)
    case Removing => t.pushes
    case Ended => t.pushes
    case _ => t.pushes + PushesLeft(t, maxRetries)
  }

  /** Below the limit there is room for a push beyond the one that may already be under way. */
  predicate RetriesLeft(t: Task, maxRetries: int) {
    match t.chain
    case Checked => t.count + 2 < maxRetries
    case Removing => false
    case Ended => false
    case _ => t.count + 1 < maxRetries
  }

  lemma RetriesLeftIff(t: Task, maxRetries: int)
    ensures RetriesLeft(t, maxRetries) <==> Reach(t, maxRetries) > Budget(t)
  {
  }

  lemma MovesReach(t: Task, t': Task, maxRetries: int, present: bool)
    requires SameProgress(t, t') || Moves(t, t', maxRetries, present)
    ensures Reach(t', maxRetries) <= Reach(t, maxRetries) && t'.key == t.key
  {
  }

  lemma {:induction false} NeverBeyondReach(s: State, acts: seq<Action>, id: nat)
    requires Arms(s) && CanRun(s, acts) && id in s.arena
    ensures id in Run(s, acts).arena && Run(s, acts).arena[id].pushes <= Reach(s.arena[id], s.maxRetries)
    decreases |acts|
  {
    hide Step, Enabled, Arms, Moves;
    if acts != [] {
      hide Reach;
      var s1 := Step(s, acts[0]);
      StepLocal(s, acts[0], id);
      StepArms(s, acts[0]);
      MovesReach(s.arena[id], s1.arena[id], s.maxRetries, s.arena[id].key in s.tasks);
      NeverBeyondReach(s1, acts[1..], id);
    }
  }

  /** A push that fails is the task's last: whatever follows, it is not pushed again, and the key it was stored under is
      gone once its goroutine has deleted it. A push that succeeds gives nothing up. */
  lemma FailedPushIsLast(s: State, id: nat, ok: bool, d: nat, acts: seq<Action>)
    requires Arms(s) && Enabled(s, Push(id, ok)) && CanRun(Step(s, Push(id, ok)), acts)
    ensures var s' := Run(Step(s, Push(id, ok)), acts);
            && id in s'.arena
            && (!ok ==> s'.arena[id].pushes <= s.arena[id].pushes + 1)
    ensures var s1 := Step(s, Push(id, ok));
            && id in s1.arena && s1.arena[id].pushes == s.arena[id].pushes + 1
            && (!ok && d !in s.deleters ==>
                  Enabled(s1, RemoveOwn(id, d)) && s.arena[id].key !in Step(s1, RemoveOwn(id, d)).tasks)
            && (ok ==> Reach(s1.arena[id], s.maxRetries) == Reach(s.arena[id], s.maxRetries))
  {
    var s1 := Step(s, Push(id, ok));
    StepArms(s, Push(id, ok));
    assert !ok ==> Reach(s1.arena[id], s1.maxRetries) == s1.arena[id].pushes;
    NeverBeyondReach(s1, acts, id);
    hide Arms, CanRun, Run;
  }

  /** A move of the chain that brings it on without giving anything up, while its key is in the map. */
  ghost predicate Onward(s: State, a: Action, id: nat)
    requires id in s.arena
  {
    && Enabled(s, a) && id in Step(s, a).arena
    && Step(s, a).tasks == s.tasks && Step(s, a).maxRetries == s.maxRetries
    && Step(s, a).arena[id].key == s.arena[id].key
    && Reach(Step(s, a).arena[id], s.maxRetries) == Reach(s.arena[id], s.maxRetries)
    && Fuel(Step(s, a).arena[id], s.maxRetries) < Fuel(s.arena[id], s.maxRetries)
  }

  /** The task after its chain's next move, while its key is present and pushes succeed. */
  function Moved(t: Task, maxRetries: int, timer: nat): Task {
    match t.chain
    case Armed(_) => t.(chain := Fired)
    case Fired => t.(chain := Checked)
    case Checked => t.(count := t.count + 1, chain := if t.count + 1 >= maxRetries then Removing else Pushing)
    case Pushing => t.(pushes := t.pushes + 1, chain := Pushed)
    case Pushed => t.(chain := Armed(timer))
    case _ => t
  }

  lemma MovedKeepsReach(t: Task, maxRetries: int, timer: nat)
    requires !t.chain.Unarmed? && !t.chain.Removing? && !t.chain.Ended?
    ensures var t' := Moved(t, maxRetries, timer);
            Reach(t', maxRetries) == Reach(t, maxRetries) && Fuel(t', maxRetries) < Fuel(t, maxRetries) && t'.key == t.key
  {
  }

  lemma StepMoves(s: State, a: Action, id: nat)
    requires Enabled(s, a) && id in s.arena && s.arena[id].key in s.tasks
    requires a == Fire(id) || a == Exists(id) || a == Limit(id) || a == Push(id, true) || a == Rearm(id)
    ensures var s' := Step(s, a);
            && id in s'.arena && s'.tasks == s.tasks && s'.maxRetries == s.maxRetries
            && s'.arena[id] == Moved(s.arena[id], s.maxRetries, s.nextTimer)
            && !s.arena[id].chain.Unarmed? && !s.arena[id].chain.Removing? && !s.arena[id].chain.Ended?
  {
  }

  lemma GoesOnward(s: State, a: Action, id: nat)
    requires Enabled(s, a) && id in s.arena && s.arena[id].key in s.tasks
    requires a == Fire(id) || a == Exists(id) || a == Limit(id) || a == Push(id, true) || a == Rearm(id)
    ensures Onward(s, a, id)
  {
    hide Step, Enabled, Moved, Reach, Fuel;
    StepMoves(s, a, id);
    MovedKeepsReach(s.arena[id], s.maxRetries, s.nextTimer);
  }

  lemma ArmsOnward(s: State, c: nat, id: nat)
    requires Enabled(s, Arm(c)) && In(s, id, Unarmed) && s.adders[c].task == id
    ensures Onward(s, Arm(c), id)
  {
  }

  lemma NextOnward(s: State, id: nat) returns (a: Action)
    requires Arms(s) && id in s.arena && s.arena[id].key in s.tasks
    requires s.arena[id].pushes < Reach(s.arena[id], s.maxRetries)
    ensures Onward(s, a, id)
  {
    hide Onward;
    match s.arena[id].chain {
      case Unarmed =>
        assert In(s, id, Unarmed);
        var c :| c in s.adders && s.adders[c] == Arming(id);
        ArmsOnward(s, c, id);
        a := Arm(c);
      case Armed(_) => a := Fire(id); GoesOnward(s, a, id);
      case Fired => a := Exists(id); GoesOnward(s, a, id);
      case Checked => a := Limit(id); GoesOnward(s, a, id);
      case Pushing => a := Push(id, true); GoesOnward(s, a, id);
      case Pushed => a := Rearm(id); GoesOnward(s, a, id);
    }
  }

  /** While its key is in the map, whoever put it there, a chain can push as often as its own count allows. */
  lemma {:induction false} PresentKeyLetsItPush(s: State, id: nat) returns (acts: seq<Action>)
    requires Arms(s) && id in s.arena && s.arena[id].key in s.tasks
    ensures CanRun(s, acts) && id in Run(s, acts).arena
    ensures Run(s, acts).arena[id].pushes >= Reach(s.arena[id], s.maxRetries)
    decreases Fuel(s.arena[id], s.maxRetries)
  {
    if s.arena[id].pushes >= Reach(s.arena[id], s.maxRetries) {
      acts := [];
    } else {
      hide Step, Enabled, Arms, Reach, Fuel;
      var a := NextOnward(s, id);
      StepArms(s, a);
      var rest := PresentKeyLetsItPush(Step(s, a), id);
      acts := [a] + rest;
      assert acts[0] == a && acts[1..] == rest;
    }
  }

  // ----- when a deleted key can come back

  lemma {:induction false} ClosedStaysAbsent(s: State, acts: seq<Action>, key: string)
    requires s.closed && !Starting(s, key) && key !in s.tasks && CanRun(s, acts)
    ensures StaysAbsent(s, acts, key)
    decreases |acts|
  {
    hide Step, Enabled;
    if acts != [] {
      ClosedStep(s, acts[0]);
      ClosedStaysAbsent(Step(s, acts[0]), acts[1..], key);
    }
  }

  /** A new Start, or one already past the check, stores a task under the key; the old task is left as it is. */
  lemma ComesBack(s: State, key: string) returns (acts: seq<Action>)
    requires Separate(s) && key !in s.tasks && (!s.closed || Starting(s, key))
    ensures CanRun(s, acts)
    ensures var s' := Run(s, acts);
            && key in s'.tasks && s'.maxRetries == s.maxRetries
            && forall id :: id in s.arena && id < s.nextTask ==> id in s'.arena && s'.arena[id] == s.arena[id]
  {
    if Starting(s, key) {
      var c :| c in s.starters && s.starters[c].key == key;
      acts := Then(s, [], Store(c));
    } else {
      var c := FreshId(s.starters.Keys + s.adders.Keys);
      acts := Then(s, [], Enter(c, key, ""));
      acts := Then(s, acts, Store(c));
    }
  }

  lemma {:induction false} RunArms(s: State, acts: seq<Action>)
    requires Arms(s) && CanRun(s, acts)
    ensures Arms(Run(s, acts))
    decreases |acts|
  {
    hide Arms, Step, Enabled;
    if acts != [] {
      StepArms(s, acts[0]);
      RunArms(Step(s, acts[0]), acts[1..]);
    }
  }

  // ----- the exact condition

  /** Some continuation pushes the task more often than the one push its goroutine may already be committed to. */
  ghost predicate CanRevive(s: State, id: nat)
    requires id in s.arena
  {
    exists acts :: CanRun(s, acts) && id in Run(s, acts).arena && Run(s, acts).arena[id].pushes > Budget(s.arena[id])
  }

  lemma ReviveNeeds(s: State, id: nat)
    requires Arms(s) && id in s.arena && s.arena[id].key !in s.tasks && CanRevive(s, id)
    ensures RetriesLeft(s.arena[id], s.maxRetries) && (!s.closed || Starting(s, s.arena[id].key))
  {
    hide Arms, Reach, RetriesLeft;
    var acts :| CanRun(s, acts) && id in Run(s, acts).arena && Run(s, acts).arena[id].pushes > Budget(s.arena[id]);
    NeverBeyondReach(s, acts, id);
    RetriesLeftIff(s.arena[id], s.maxRetries);
    if s.closed && !Starting(s, s.arena[id].key) {
      ClosedStaysAbsent(s, acts, s.arena[id].key);
      DeletedKeyFallsSilent(s, acts, id);
    }
  }

  lemma ReviveWorks(s: State, id: nat)
    requires Arms(s) && Separate(s) && id in s.arena && s.arena[id].key !in s.tasks
    requires RetriesLeft(s.arena[id], s.maxRetries) && (!s.closed || Starting(s, s.arena[id].key))
    ensures CanRevive(s, id)
  {
    assert id < s.nextTask;
    hide Arms, Separate, Reach, RetriesLeft, Starting, CanRun, Run;
    RetriesLeftIff(s.arena[id], s.maxRetries);
    var acts := ComesBack(s, s.arena[id].key);
    RunArms(s, acts);
    var more := PresentKeyLetsItPush(Run(s, acts), id);
    RunConcat(s, acts, more);
    assert Run(s, acts + more).arena[id].pushes > Budget(s.arena[id]);
  }

  /** In every reachable state, a task whose key was deleted can be made to push beyond its goroutine's last commitment
      if and only if it has retries left and its key can come back: the manager is open, or a Start for that key is past
      its closed check. */
  lemma StoppedTaskRevivesIff(maxRetries: int, acts: seq<Action>, id: nat)
    requires CanRun(Init(maxRetries), acts)
    requires id in Run(Init(maxRetries), acts).arena
    requires Run(Init(maxRetries), acts).arena[id].key !in Run(Init(maxRetries), acts).tasks
    ensures var s := Run(Init(maxRetries), acts);
            CanRevive(s, id) <==>
              RetriesLeft(s.arena[id], s.maxRetries) && (!s.closed || Starting(s, s.arena[id].key))
  {
    InitHolds(maxRetries);
    RunArms(Init(maxRetries), acts);
    RunSeparate(Init(maxRetries), acts);
    var s := Run(Init(maxRetries), acts);
    hide Arms, Separate, CanRevive, RetriesLeft, Starting, CanRun, Run;
    if CanRevive(s, id) {
      ReviveNeeds(s, id);
    }
    if RetriesLeft(s.arena[id], s.maxRetries) && (!s.closed || Starting(s, s.arena[id].key)) {
      ReviveWorks(s, id);
    }
  }

  /** Such a state is reachable: a task is deleted while its goroutine is past the existence check. */
  lemma RestartRevivesStoppedTask(maxRetries: int)
    requires maxRetries >= 3
    ensures exists acts ::
              && CanRun(Init(maxRetries), acts)
              && (var s := Run(Init(maxRetries), acts);
                  0 in s.arena && s.arena[0].key !in s.tasks && CanRevive(s, 0))
  {
    var s0 := Init(maxRetries);
    var acts := Then(s0, [], Enter(0, "k", "l"));
    acts := Then(s0, acts, Store(0));
    acts := Then(s0, acts, Arm(0));
    acts := Then(s0, acts, Fire(0));
    acts := Then(s0, acts, Exists(0));
    acts := Then(s0, acts, Delete(0, "k"));
    var s := Run(s0, acts);
    assert s.arena[0].key !in s.tasks && RetriesLeft(s.arena[0], s.maxRetries) && !s.closed;
    hide CanRevive;
    StoppedTaskRevivesIff(maxRetries, acts, 0);
  }
}
