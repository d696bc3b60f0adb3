/**
 Manager as an object whose methods run one at a time. Each method performs an uninterrupted run of the steps of
 PushRetryModel, and states what such a run achieves.
 */
module PushRetryManager {
  import opened Common
  import opened PushRetryModel

  /** The machine can get from s to s'. */
  ghost predicate Reaches(s: State, s': State) {
    exists acts :: CanRun(s, acts) && Run(s, acts) == s'
  }

  lemma ReachesSelf(s: State)
    ensures Reaches(s, s)
  {
    assert CanRun(s, []) && Run(s, []) == s;
  }

  lemma ReachesThen(s: State, s': State, a: Action)
    requires Reaches(s, s') && Enabled(s', a)
    ensures Reaches(s, Step(s', a))
  {
    var acts :| CanRun(s, acts) && Run(s, acts) == s';
    var _ := Then(s, acts, a);
  }

  lemma ReachesTrans(s0: State, s1: State, s2: State)
    requires Reaches(s0, s1) && Reaches(s1, s2)
    ensures Reaches(s0, s2)
  {
    hide Step, Enabled;
    var acts :| CanRun(s0, acts) && Run(s0, acts) == s1;
    var more :| CanRun(s1, more) && Run(s1, more) == s2;
    RunConcat(s0, acts, more);
  }

  /** Between calls: the counter is exact, and every task in the map waits for the timer it points at. */
  ghost predicate Settled(s: State) {
    && s.total == |s.tasks|
    && (forall k :: k in s.tasks ==>
          && s.tasks[k] in s.arena && s.arena[s.tasks[k]].key == k
          && s.arena[s.tasks[k]].pointer.Some? && s.arena[s.tasks[k]].chain == Armed(s.arena[s.tasks[k]].pointer.value))
    && (forall id :: id in s.arena ==> id < s.nextTask)
  }

  // ----- Start

  function NewTask(s: State, key: string, link: string): Task {
    Task(key, link, 0, 0, Some(s.nextTimer), Armed(s.nextTimer))
  }

  /** A Start without interference: nothing if the manager is closed or has the key, else a task with an armed timer. */
  function Started(s: State, key: string, link: string): State {
    if s.closed || key in s.tasks then s
    else
      s.(tasks := s.tasks[key := s.nextTask], arena := s.arena[s.nextTask := NewTask(s, key, link)],
         total := s.total + 1, nextTask := s.nextTask + 1, nextTimer := s.nextTimer + 1)
  }

  lemma StartReaches(s: State, key: string, link: string)
    requires 0 !in s.starters && 0 !in s.adders
    ensures Reaches(s, Started(s, key, link))
  {
    hide CanRun, Run, Reaches;
    ReachesSelf(s);
    if !s.closed && key !in s.tasks {
      var s1 := EnterStep(s, 0, key, link);
      ReachesThen(s, s, Enter(0, key, link));
      var s2 := StoreStep(s1, 0);
      ReachesThen(s, s1, Store(0));
      assert s2.starters == s.starters;
      StoredReaches(s, s2, s.nextTask, key, link);
      assert s2.arena[s.nextTask := NewTask(s, key, link)] == Started(s, key, link).arena;
    }
  }

  lemma StoredReaches(s0: State, s: State, id: nat, key: string, link: string)
    requires Reaches(s0, s) && 0 !in s0.adders && id in s.arena && s.arena[id] == Task(key, link, 0, 0, None, Unarmed)
    requires s.adders == s0.adders[0 := Arming(id)]
    ensures Reaches(s0, s.(arena := s.arena[id := NewTask(s, key, link)], adders := s0.adders, total := s.total + 1,
                           nextTimer := s.nextTimer + 1))
  {
    hide CanRun, Run, Reaches;
    var s1 := ArmStep(s, 0);
    ReachesThen(s0, s, Arm(0));
    var s2 := KeepStep(s1, 0);
    ReachesThen(s0, s1, Keep(0));
    var s3 := CountStep(s2, 0);
    ReachesThen(s0, s2, Count(0));
    assert s3.adders == s0.adders;
    assert s3.arena == s.arena[id := NewTask(s, key, link)];
  }

  lemma StartedSettled(s: State, key: string, link: string)
    requires Settled(s)
    ensures Settled(Started(s, key, link))
  {
    if !s.closed && key !in s.tasks {
      MapGrows(s.tasks, key, s.nextTask);
      var s' := Started(s, key, link);
      assert s'.arena[s.nextTask] == NewTask(s, key, link) && s.nextTask !in s.arena;
      forall k | k in s'.tasks && k != key ensures s'.tasks[k] in s.arena && s'.arena[s'.tasks[k]] == s.arena[s.tasks[k]] {}
    }
  }

  // ----- stopAndDeleteTask

  /** The task after Task.stop: a timer that is still armed takes its chain with it. */
  function Stopped(t: Task): Task {
    if t.pointer.Some? && t.chain == Armed(t.pointer.value) then t.(chain := Ended) else t
  }

  /** A stopAndDeleteTask without interference. */
  function Deleted(s: State, key: string): State
    requires key in s.tasks && s.tasks[key] in s.arena
  {
    s.(tasks := s.tasks - {key}, total := s.total - 1,
       arena := s.arena[s.tasks[key] := Stopped(s.arena[s.tasks[key]])])
  }

  lemma DeleteReaches(s: State, key: string)
    requires key in s.tasks && s.tasks[key] in s.arena && 0 !in s.deleters
    ensures Reaches(s, Deleted(s, key))
  {
    hide CanRun, Run, Reaches;
    ReachesSelf(s);
    ReachesThen(s, s, Delete(0, key));
    TookReaches(s, DeleteStep(s, 0, key), s.tasks[key]);
  }

  lemma TookReaches(s0: State, s: State, id: nat)
    requires Reaches(s0, s) && 0 !in s0.deleters && s.deleters == s0.deleters[0 := Took(id)] && id in s.arena
    ensures Reaches(s0, s.(total := s.total - 1, deleters := s0.deleters, arena := s.arena[id := Stopped(s.arena[id])]))
  {
    hide CanRun, Run, Reaches, Step, Enabled, Stopped;
    LoadReaches(s0, s, id);
    var s1 := s.(deleters := s.deleters[0 := Stopping(id, s.arena[id].pointer)]);
    StopReaches(s0, s1, id);
    var s2 := s1.(deleters := s1.deleters[0 := Subtracting], arena := s.arena[id := Stopped(s.arena[id])]);
    SubtractReaches(s0, s2);
    assert s2.deleters - {0} == s0.deleters;
  }

  lemma LoadReaches(s0: State, s: State, id: nat)
    requires Reaches(s0, s) && 0 in s.deleters && s.deleters[0] == Took(id) && id in s.arena
    ensures Reaches(s0, s.(deleters := s.deleters[0 := Stopping(id, s.arena[id].pointer)]))
  {
    ReachesThen(s0, s, LoadTimer(0));
  }

  lemma StopReaches(s0: State, s: State, id: nat)
    requires Reaches(s0, s) && 0 in s.deleters && id in s.arena && s.deleters[0] == Stopping(id, s.arena[id].pointer)
    ensures Reaches(s0, s.(deleters := s.deleters[0 := Subtracting], arena := s.arena[id := Stopped(s.arena[id])]))
  {
    ReachesThen(s0, s, StopTimer(0));
    assert s.arena[id := s.arena[id]] == s.arena;
  }

  lemma SubtractReaches(s0: State, s: State)
    requires Reaches(s0, s) && 0 in s.deleters && s.deleters[0].Subtracting?
    ensures Reaches(s0, s.(total := s.total - 1, deleters := s.deleters - {0}))
  {
    ReachesThen(s0, s, Subtract(0));
  }

  lemma DistinctTasks(s: State, key: string)
    requires Settled(s) && key in s.tasks
    ensures s.tasks[key] in s.arena && Stopped(s.arena[s.tasks[key]]).chain == Ended
    ensures forall k :: k in s.tasks && k != key ==> s.tasks[k] != s.tasks[key] && s.tasks[k] in s.arena
  {
    forall k | k in s.tasks && k != key ensures s.tasks[k] != s.tasks[key] && s.tasks[k] in s.arena {
      assert s.arena[s.tasks[k]].key == k && s.arena[s.tasks[key]].key == key;
    }
  }

  lemma DeletedSettled(s: State, key: string)
    requires Settled(s) && key in s.tasks
    ensures Settled(Deleted(s, key))
  {
    MapShrinks(s.tasks, key);
    DistinctTasks(s, key);
    hide Stopped;
  }

  // ----- retry

  /** The timer of a task fires and nothing interferes; ok is what pushFunc reports if it is called. The task need not be
      in the map any more: if its key is gone the chain ends, and if another task has taken over the key the chain goes
      on, and at the limit it is that task that is removed. */
  function Retried(s: State, id: nat, ok: bool): State
    requires id in s.arena && (s.arena[id].key in s.tasks ==> s.tasks[s.arena[id].key] in s.arena)
  {
    var t := s.arena[id];
    if t.key !in s.tasks then s.(arena := s.arena[id := t.(chain := Ended)])
    else if t.count + 1 >= s.maxRetries then
      Deleted(s.(arena := s.arena[id := t.(count := t.count + 1, chain := Ended)]), t.key)
    else if !ok then
      Deleted(s.(arena := s.arena[id := t.(count := t.count + 1, pushes := t.pushes + 1, chain := Ended)]), t.key)
    else
      s.(arena := s.arena[id := t.(count := t.count + 1, pushes := t.pushes + 1, pointer := Some(s.nextTimer),
                                   chain := Armed(s.nextTimer))],
         nextTimer := s.nextTimer + 1)
  }

  lemma FiredReaches(s: State, id: nat)
    requires id in s.arena && s.arena[id].chain.Armed?
    ensures Reaches(s, s.(arena := s.arena[id := s.arena[id].(chain :=
                            if s.arena[id].key in s.tasks then Checked else Ended)]))
  {
    hide CanRun, Run, Reaches;
    ReachesSelf(s);
    var s1 := SetChain(s, id, Fired);
    ReachesThen(s, s, Fire(id));
    ReachesThen(s, s1, Exists(id));
    assert ExistsStep(s1, id).arena
        == s.arena[id := s.arena[id].(chain := if s.arena[id].key in s.tasks then Checked else Ended)];
  }

  lemma CountedReaches(s0: State, s: State, id: nat)
    requires Reaches(s0, s) && id in s.arena && s.arena[id].chain.Checked?
    ensures Reaches(s0, LimitStep(s, id))
  {
    ReachesThen(s0, s, Limit(id));
  }

  lemma RemovalReaches(s0: State, s: State, id: nat)
    requires Reaches(s0, s) && id in s.arena && s.arena[id].chain.Removing?
    requires s.arena[id].key in s.tasks && s.tasks[s.arena[id].key] in s.arena
    requires 0 !in s0.deleters && s.deleters == s0.deleters
    ensures Reaches(s0, Deleted(s.(arena := s.arena[id := s.arena[id].(chain := Ended)]), s.arena[id].key))
  {
    hide CanRun, Run, Reaches, Stopped;
    ReachesThen(s0, s, RemoveOwn(id, 0));
    TookReaches(s0, RemoveOwnStep(s, id, 0), s.tasks[s.arena[id].key]);
  }

  lemma PushReaches(s0: State, s: State, id: nat, ok: bool)
    requires Reaches(s0, s) && id in s.arena && s.arena[id].chain.Pushing?
    ensures Reaches(s0, PushStep(s, id, ok))
  {
    ReachesThen(s0, s, Push(id, ok));
  }

  lemma RearmReaches(s0: State, s: State, id: nat)
    requires Reaches(s0, s) && id in s.arena && s.arena[id].chain.Pushed? && s.nextTimer !in s.keepers
    ensures Reaches(s0, s.(arena := s.arena[id := s.arena[id].(pointer := Some(s.nextTimer), chain := Armed(s.nextTimer))],
                           nextTimer := s.nextTimer + 1))
  {
    hide CanRun, Run, Reaches;
    var s1 := RearmStep(s, id);
    ReachesThen(s0, s, Rearm(id));
    var s2 := KeepAgainStep(s1, s.nextTimer);
    ReachesThen(s0, s1, KeepAgain(s.nextTimer));
    assert s2.keepers == s.keepers;
    assert s2.arena == s.arena[id := s.arena[id].(pointer := Some(s.nextTimer), chain := Armed(s.nextTimer))];
  }

  /** From past the limit check, at the limit or below it. */
  lemma LimitedReaches(s0: State, s: State, id: nat, ok: bool, t: Task)
    requires Reaches(s0, s) && id in s.arena && s.arena[id] == t.(chain := Checked)
    requires t.key in s.tasks && s.tasks[t.key] in s.arena && s == s0.(arena := s.arena) && id in s0.arena
    requires s0.arena[id] == t && s.arena == s0.arena[id := t.(chain := Checked)]
    requires 0 !in s0.deleters && s0.nextTimer !in s0.keepers
    ensures Reaches(s0, Retried(s0, id, ok))
  {
    hide CanRun, Run, Reaches, Stopped;
    CountedReaches(s0, s, id);
    var s1 := LimitStep(s, id);
    if t.count + 1 >= s.maxRetries {
      RemovalReaches(s0, s1, id);
      assert s1.arena[id := s1.arena[id].(chain := Ended)] == s0.arena[id := t.(count := t.count + 1, chain := Ended)];
    } else {
      PushReaches(s0, s1, id, ok);
      var s2 := PushStep(s1, id, ok);
      if ok {
        RearmReaches(s0, s2, id);
        assert s2.arena[id := s2.arena[id].(pointer := Some(s.nextTimer), chain := Armed(s.nextTimer))]
            == Retried(s0, id, ok).arena;
      } else {
        RemovalReaches(s0, s2, id);
        assert s2.arena[id := s2.arena[id].(chain := Ended)]
            == s0.arena[id := t.(count := t.count + 1, pushes := t.pushes + 1, chain := Ended)];
      }
    }
  }

  lemma RetryReaches(s: State, id: nat, ok: bool)
    requires id in s.arena && s.arena[id].chain.Armed? && (s.arena[id].key in s.tasks ==> s.tasks[s.arena[id].key] in s.arena)
    requires 0 !in s.deleters && s.nextTimer !in s.keepers
    ensures Reaches(s, Retried(s, id, ok))
  {
    hide CanRun, Run, Reaches;
    FiredReaches(s, id);
    var t := s.arena[id];
    if t.key in s.tasks {
      hide Retried;
      LimitedReaches(s, s.(arena := s.arena[id := t.(chain := Checked)]), id, ok, t);
    }
  }

  lemma GoneSettled(s: State, id: nat)
    requires Settled(s) && id in s.arena && s.arena[id].key !in s.tasks
    ensures Settled(s.(arena := s.arena[id := s.arena[id].(chain := Ended)]))
  {
  }

  /** Deleting the key of task id, whatever became of that task itself. */
  lemma RemovedSettled(s: State, id: nat, t: Task)
    requires Settled(s) && id in s.arena && t.key == s.arena[id].key && t.key in s.tasks
    ensures s.tasks[t.key] in s.arena && Settled(Deleted(s.(arena := s.arena[id := t]), t.key))
  {
    hide Stopped;
    MapShrinks(s.tasks, t.key);
    forall k | k in s.tasks && k != t.key ensures s.tasks[k] != id && s.tasks[k] != s.tasks[t.key] {
      assert s.arena[s.tasks[k]].key == k && s.arena[s.tasks[t.key]].key == t.key;
    }
  }

  lemma RearmedSettled(s: State, id: nat, t: Task)
    requires Settled(s) && id in s.arena && t.key == s.arena[id].key
    requires t.pointer.Some? && t.chain == Armed(t.pointer.value)
    ensures Settled(s.(arena := s.arena[id := t], nextTimer := s.nextTimer + 1))
  {
  }

  lemma RetriedSettled(s: State, id: nat, ok: bool)
    requires Settled(s) && id in s.arena
    ensures s.arena[id].key in s.tasks ==> s.tasks[s.arena[id].key] in s.arena
    ensures Settled(Retried(s, id, ok))
  {
    hide Settled, Deleted, Stopped;
    OwnedInArena(s, id);
    var t := s.arena[id];
    if t.key !in s.tasks {
      GoneSettled(s, id);
    } else if t.count + 1 >= s.maxRetries {
      RemovedSettled(s, id, t.(count := t.count + 1, chain := Ended));
    } else if !ok {
      RemovedSettled(s, id, t.(count := t.count + 1, pushes := t.pushes + 1, chain := Ended));
    } else {
      RearmedSettled(s, id, t.(count := t.count + 1, pushes := t.pushes + 1, pointer := Some(s.nextTimer),
                               chain := Armed(s.nextTimer)));
    }
  }

  lemma OwnedInArena(s: State, id: nat)
    requires Settled(s) && id in s.arena
    ensures s.arena[id].key in s.tasks ==> s.tasks[s.arena[id].key] in s.arena
  {
  }

  /** The chains of the tasks under `gone` are ended, and every other task is as it was. */
  ghost predicate ChainsSwept(tasks: map<string, nat>, arena: map<nat, Task>, arena': map<nat, Task>, gone: set<string>) {
    && arena'.Keys == arena.Keys
    && (forall k :: k in tasks && k in gone ==> tasks[k] in arena' && arena'[tasks[k]].chain == Ended)
    && (forall k :: k in tasks && k !in gone ==>
          tasks[k] in arena && tasks[k] in arena' && arena'[tasks[k]] == arena[tasks[k]])
  }

  /** s' is s without the keys in `gone`. */
  ghost predicate Swept(s: State, s': State, gone: set<string>) {
    && s'.tasks == s.tasks - gone && gone <= s.tasks.Keys && s'.total == s.total - |gone| && s'.closed == s.closed
    && ChainsSwept(s.tasks, s.arena, s'.arena, gone)
  }

  lemma SweptNone(s: State)
    requires Settled(s)
    ensures Swept(s, s, {})
  {
  }

  lemma SweptRest(s: State, s': State, gone: set<string>, key: string)
    requires Swept(s, s', gone) && key in s.tasks && key !in gone
    ensures key in s'.tasks
  {
    hide ChainsSwept;
  }

  lemma SweptNext(s: State, s': State, gone: set<string>, key: string)
    requires Settled(s) && Settled(s') && Swept(s, s', gone) && key in s'.tasks
    ensures s'.tasks[key] in s'.arena && Swept(s, Deleted(s', key), gone + {key})
  {
    hide Settled, Stopped, ChainsSwept;
    DistinctTasks(s, key);
    DistinctTasks(s', key);
    ChainsNext(s.tasks, s.arena, s'.arena, gone, key, Stopped(s'.arena[s'.tasks[key]]));
    SweptTasks(s.tasks, gone, key);
  }

  lemma SweptTasks(tasks: map<string, nat>, gone: set<string>, key: string)
    requires key !in gone
    ensures tasks - gone - {key} == tasks - (gone + {key}) && |gone + {key}| == |gone| + 1
  {
  }

  lemma ChainsNext(tasks: map<string, nat>, arena: map<nat, Task>, arena': map<nat, Task>, gone: set<string>, key: string,
                   t: Task)
    requires ChainsSwept(tasks, arena, arena', gone) && key in tasks && tasks[key] in arena && t.chain == Ended
    requires forall k :: k in tasks && k != key ==> tasks[k] != tasks[key] && tasks[k] in arena
    ensures ChainsSwept(tasks, arena, arena'[tasks[key] := t], gone + {key})
  {
  }

  class Manager {
    const maxRetries: int
    var tasks: map<string, nat>
    var arena: map<nat, Task>
    var total: int
    var closed: bool
    var nextTask: nat
    var nextTimer: nat

    ghost function Abs(): State
      reads this
    {
      State(maxRetries, tasks, arena, total, closed, map[], map[], map[], map[], nextTask, nextTimer)
    }

    constructor (maxRetries: int)
      ensures Settled(Abs()) && Abs() == Init(maxRetries)
    {
      this.maxRetries := maxRetries;
      tasks, arena, total, closed, nextTask, nextTimer := map[], map[], 0, false, 0, 0;
    }

    /** Lines 39-63. */
    method Start(key: string, link: string)
      requires Settled(Abs())
      modifies this
      ensures Settled(Abs()) && Reaches(old(Abs()), Abs())
      ensures Abs() == Started(old(Abs()), key, link)
    {
      hide Settled, Reaches;
      StartReaches(Abs(), key, link);
      StartedSettled(Abs(), key, link);
      if closed {
        return;
      }
      if key in tasks {
        return;
      }
      var id, timer := nextTask, nextTimer;
      tasks := tasks[key := id];
      arena := arena[id := Task(key, link, 0, 0, Some(timer), Armed(timer))];
      nextTask, nextTimer := nextTask + 1, nextTimer + 1;
      total := total + 1;
    }

    /** Lines 77-84. */
    method StopAndDeleteTask(key: string) returns (deleted: bool)
      requires Settled(Abs())
      modifies this
      ensures Settled(Abs()) && Reaches(old(Abs()), Abs())
      ensures deleted == (key in old(tasks))
      ensures Abs() == if deleted then Deleted(old(Abs()), key) else old(Abs())
    {
      ghost var s := Abs();
      ReachesSelf(s);
      deleted := false;
      if key in tasks {
        DeleteReaches(s, key);
        DeletedSettled(s, key);
        hide Settled, Reaches, Deleted;
        DeleteBody(key);
        deleted := true;
      }
    }

    /** Lines 78-81, for a key in the map. */
    method DeleteBody(key: string)
      requires key in tasks && tasks[key] in arena
      modifies this
      ensures Abs() == Deleted(old(Abs()), key)
    {
      var id := tasks[key];
      tasks := tasks - {key};
      var t := arena[id];
      arena := arena[id := if t.pointer.Some? && t.chain == Armed(t.pointer.value) then t.(chain := Ended) else t];
      total := total - 1;
    }

    /** Lines 66-75. */
    method Stop(key: string)
      requires Settled(Abs())
      modifies this
      ensures Settled(Abs()) && Reaches(old(Abs()), Abs())
      ensures Swept(old(Abs()), Abs(), old(tasks).Keys * {key})
    {
      ghost var s := Abs();
      ReachesSelf(s);
      SweptNone(s);
      if key !in tasks {
        hide Swept, Settled, Reaches, Deleted;
        assert s.tasks.Keys * {key} == {};
        return;
      }
      SweptNext(s, s, {}, key);
      hide Swept, Settled, Reaches, Deleted;
      assert s.tasks.Keys * {key} == {} + {key};
      var _ := StopAndDeleteTask(key);
    }

    /** Lines 130-171, for any task whose timer has fired. */
    method Retry(id: nat, ok: bool)
      requires Settled(Abs()) && id in arena && arena[id].chain.Armed?
      modifies this
      ensures Settled(Abs()) && Reaches(old(Abs()), Abs())
      ensures arena.Keys == old(arena).Keys
      ensures (old(arena)[id].key in old(tasks) ==> old(tasks)[old(arena)[id].key] in old(arena))
              && Abs() == Retried(old(Abs()), id, ok)
    {
      RetriedSettled(Abs(), id, ok);
      RetryReaches(Abs(), id, ok);
      hide Reaches, Settled, Retried;
      RetryBody(id, ok);
    }

    method RetryBody(id: nat, ok: bool)
      requires id in arena && (arena[id].key in tasks ==> tasks[arena[id].key] in arena)
      modifies this
      ensures Abs() == Retried(old(Abs()), id, ok) && arena.Keys == old(arena).Keys
    {
      var t := arena[id];
      if t.key !in tasks {
        arena := arena[id := t.(chain := Ended)];
        return;
      }
      t := t.(count := t.count + 1);
      if t.count >= maxRetries {
        arena := arena[id := t.(chain := Ended)];
        DeleteBody(t.key);
        return;
      }
      t := t.(pushes := t.pushes + 1);
      if !ok {
        arena := arena[id := t.(chain := Ended)];
        DeleteBody(t.key);
        return;
      }
      arena := arena[id := t.(pointer := Some(nextTimer), chain := Armed(nextTimer))];
      nextTimer := nextTimer + 1;
    }

    method StopOne(key: string, ghost s: State, ghost gone: set<string>)
      requires Settled(s) && Settled(Abs()) && Swept(s, Abs(), gone) && Reaches(s, Abs())
      requires key in s.tasks && key !in gone
      modifies this
      ensures Settled(Abs()) && Swept(s, Abs(), gone + {key}) && Reaches(s, Abs())
    {
      hide Reaches, Deleted, Settled, Swept;
      ghost var before := Abs();
      SweptRest(s, before, gone, key);
      SweptNext(s, before, gone, key);
      var _ := StopAndDeleteTask(key);
      ReachesTrans(s, before, Abs());
    }

    /** The loops of lines 89-96 and 112-115, over the keys they pick. */
    method StopAll(chosen: set<string>) returns (count: nat)
      requires Settled(Abs()) && chosen <= tasks.Keys
      modifies this
      ensures Settled(Abs()) && Reaches(old(Abs()), Abs())
      ensures Swept(old(Abs()), Abs(), chosen) && count == |chosen|
    {
      hide Reaches, Settled, Swept;
      ghost var s := Abs();
      ReachesSelf(s);
      SweptNone(s);
      var todo := chosen;
      count := 0;
      assert chosen - todo == {};
      while todo != {}
        invariant Settled(Abs()) && todo <= chosen && count == |chosen - todo|
        invariant Reaches(s, Abs()) && Swept(s, Abs(), chosen - todo)
        decreases todo
      {
        var key :| key in todo;
        ghost var gone := chosen - todo;
        StopOne(key, s, gone);
        assert chosen - (todo - {key}) == gone + {key} && |gone + {key}| == |gone| + 1;
        todo := todo - {key};
        count := count + 1;
      }
      assert chosen - todo == chosen;
    }

    /** Lines 87-102. */
    method StopByLinkID(link: string) returns (count: nat)
      requires Settled(Abs())
      modifies this
      ensures Settled(Abs()) && Reaches(old(Abs()), Abs())
      ensures Swept(old(Abs()), Abs(), set k | k in old(tasks) && old(arena)[old(tasks)[k]].link == link)
      ensures total == old(total) - count
    {
      var chosen := set k | k in tasks && arena[tasks[k]].link == link;
      count := StopAll(chosen);
    }

    /** Lines 110-117. */
    method Close()
      requires Settled(Abs())
      modifies this
      ensures Settled(Abs()) && Reaches(old(Abs()), Abs())
      ensures closed && tasks == map[] && total == 0
      ensures Swept(old(Abs()).(closed := true), Abs(), old(tasks).Keys)
    {
      ghost var s := Abs();
      ReachesSelf(s);
      ReachesThen(s, s, SetClosed);
      closed := true;
      ghost var s1 := Abs();
      var _ := StopAll(tasks.Keys);
      ReachesTrans(s, s1, Abs());
      assert tasks == map[];
    }
  }
}
