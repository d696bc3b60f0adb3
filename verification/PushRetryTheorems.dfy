/**
 What the retransmission manager guarantees under every interleaving: the task counter is exact up to calls in
 flight, every chain is finite and pushes a bounded number of times, a deleted and never restarted key is pushed at
 most once more per task, and which Start calls Close can miss.
 */
module PushRetryTheorems {
  import opened Common
  import opened PushRetryModel

  // ----- accounting

  ghost predicate Accounted(s: State) {
    s.total + |s.adders| - |s.deleters| == |s.tasks|
  }

  lemma StartAccounted(s: State, a: Action)
    requires Accounted(s) && Enabled(s, a) && (a.Store? || a.Arm? || a.Keep? || a.Count?)
    ensures Accounted(Step(s, a))
  {
    var c := a.c;
    match a {
      case Store(_) =>
        MapGrows(s.tasks, s.starters[c].key, s.nextTask);
        MapGrows(s.adders, c, Arming(s.nextTask));
      case Arm(_) => MapGrows(s.adders, c, Keeping(s.adders[c].task, s.nextTimer));
      case Keep(_) => MapGrows(s.adders, c, Counting);
      case Count(_) => MapShrinks(s.adders, c);
    }
  }

  lemma DeleteAccounted(s: State, d: nat, key: string)
    requires Accounted(s) && d !in s.deleters
    ensures Accounted(DeleteStep(s, d, key))
  {
    if key in s.tasks {
      MapShrinks(s.tasks, key);
      MapGrows(s.deleters, d, Took(s.tasks[key]));
    }
  }

  lemma StopAccounted(s: State, a: Action)
    requires Accounted(s) && Enabled(s, a) && (a.LoadTimer? || a.StopTimer? || a.Subtract?)
    ensures Accounted(Step(s, a))
  {
    var d := a.d;
    match a {
      case LoadTimer(_) => MapGrows(s.deleters, d, Stopping(s.deleters[d].task, s.arena[s.deleters[d].task].pointer));
      case StopTimer(_) => MapGrows(s.deleters, d, Subtracting);
      case Subtract(_) => MapShrinks(s.deleters, d);
    }
  }

  lemma StepAccounted(s: State, a: Action)
    requires Accounted(s) && Enabled(s, a)
    ensures Accounted(Step(s, a))
  {
    match a {
      case Store(_) => StartAccounted(s, a);
      case Arm(_) => StartAccounted(s, a);
      case Keep(_) => StartAccounted(s, a);
      case Count(_) => StartAccounted(s, a);
      case RemoveOwn(id, d) => DeleteAccounted(SetChain(s, id, Ended), d, s.arena[id].key);
      case Delete(d, key) => DeleteAccounted(s, d, key);
      case LoadTimer(_) => StopAccounted(s, a);
      case StopTimer(_) => StopAccounted(s, a);
      case Subtract(_) => StopAccounted(s, a);
      case _ =>
    }
  }

  /** Under every interleaving: the counter, plus the Starts that have stored but not counted, minus the deletions that
      have removed but not counted, is the number of tasks in the map. At quiescence GetStats is exact. */
  lemma {:induction false} StatsAreAccounted(s: State, acts: seq<Action>)
    requires Accounted(s) && CanRun(s, acts)
    ensures var s' := Run(s, acts); s'.total + |s'.adders| - |s'.deleters| == |s'.tasks|
    ensures Run(s, acts).adders == map[] && Run(s, acts).deleters == map[] ==> Run(s, acts).total == |Run(s, acts).tasks|
    decreases |acts|
  {
    if acts != [] {
      StepAccounted(s, acts[0]);
      StatsAreAccounted(Step(s, acts[0]), acts[1..]);
    }
  }

  /** A fresh manager satisfies every invariant below. */
  lemma InitHolds(maxRetries: int)
    ensures Accounted(Init(maxRetries)) && Arms(Init(maxRetries)) && NoLeak(Init(maxRetries))
  {
  }

  /** In flight the counter can even be negative: a deletion may finish before the Start it undoes has counted. */
  lemma StatsCanBeNegative(maxRetries: int)
    ensures exists acts :: CanRun(Init(maxRetries), acts) && Run(Init(maxRetries), acts).total < 0
  {
    var s0 := Init(maxRetries);
    var acts := Then(s0, [], Enter(0, "k", "l"));
    acts := Then(s0, acts, Store(0));
    acts := Then(s0, acts, Delete(0, "k"));
    acts := Then(s0, acts, LoadTimer(0));
    acts := Then(s0, acts, StopTimer(0));
    acts := Then(s0, acts, Subtract(0));
    assert Run(s0, acts).total == -1;
  }

  // ----- one task's chain

  /** Between Start's store and its AfterFunc a task is Unarmed, and only then. */
  ghost predicate Arms(s: State) {
    && (forall id :: id in s.arena ==> id < s.nextTask)
    && (forall c :: c in s.adders && s.adders[c].Arming? ==> In(s, s.adders[c].task, Unarmed))
    && (forall c, c' :: c in s.adders && c' in s.adders && s.adders[c].Arming? && s.adders[c'].Arming? ==>
          (s.adders[c].task == s.adders[c'].task ==> c == c'))
    && (forall id :: In(s, id, Unarmed) ==> exists c :: c in s.adders && s.adders[c] == Arming(id))
  }

  predicate SameProgress(t: Task, t': Task) {
    t'.key == t.key && t'.link == t.link && t'.count == t.count && t'.pushes == t.pushes && t'.chain == t.chain
  }

  /** One move of a task's chain; `present` says whether its key is in the map. */
  predicate Moves(t: Task, t': Task, maxRetries: int, present: bool) {
    && t'.key == t.key && t'.link == t.link
    && match t.chain
       case Unarmed => t'.chain.Armed? && t'.count == t.count && t'.pushes == t.pushes
       case Armed(_) => (t'.chain.Fired? || t'.chain.Ended?) && t'.count == t.count && t'.pushes == t.pushes
       case Fired => t'.chain == (if present then Checked else Ended) && t'.count == t.count && t'.pushes == t.pushes
       case Checked =>
         && t'.count == t.count + 1 && t'.pushes == t.pushes
         && t'.chain == if t'.count >= maxRetries then Removing else Pushing
       case Pushing => (t'.chain.Pushed? || t'.chain.Removing?) && t'.count == t.count && t'.pushes == t.pushes + 1
       case Pushed => t'.chain.Armed? && t'.count == t.count && t'.pushes == t.pushes
       case Removing => t'.chain.Ended? && t'.count == t.count && t'.pushes == t.pushes
       case Ended => false
  }

  ghost predicate Local(s: State, s': State, id: nat)
    requires id in s.arena
  {
    && id in s'.arena && s'.maxRetries == s.maxRetries
    && (SameProgress(s.arena[id], s'.arena[id])
        || Moves(s.arena[id], s'.arena[id], s.maxRetries, s.arena[id].key in s.tasks))
  }

  lemma StartLocal(s: State, a: Action, id: nat)
    requires Arms(s) && Enabled(s, a) && id in s.arena && (a.Store? || a.Arm? || a.Keep? || a.Count?)
    ensures Local(s, Step(s, a), id)
  {
  }

  lemma ChainLocal(s: State, a: Action, id: nat)
    requires Enabled(s, a) && id in s.arena
    requires a.Fire? || a.Exists? || a.Limit? || a.Push? || a.Rearm? || a.KeepAgain?
    ensures Local(s, Step(s, a), id)
  {
  }

  lemma DeleteLocal(s: State, a: Action, id: nat)
    requires Enabled(s, a) && id in s.arena
    requires a.RemoveOwn? || a.Delete? || a.LoadTimer? || a.StopTimer? || a.Subtract?
    ensures Local(s, Step(s, a), id)
  {
  }

  /** No step touches a task's progress except by a move of its own chain. */
  lemma StepLocal(s: State, a: Action, id: nat)
    requires Arms(s) && Enabled(s, a) && id in s.arena
    ensures Local(s, Step(s, a), id)
  {
    if a.Store? || a.Arm? || a.Keep? || a.Count? {
      StartLocal(s, a, id);
    } else if a.Fire? || a.Exists? || a.Limit? || a.Push? || a.Rearm? || a.KeepAgain? {
      ChainLocal(s, a, id);
    } else if a.RemoveOwn? || a.Delete? || a.LoadTimer? || a.StopTimer? || a.Subtract? {
      DeleteLocal(s, a, id);
    }
  }

  lemma StoreArms(s: State, c: nat)
    requires Arms(s) && Enabled(s, Store(c))
    ensures Arms(StoreStep(s, c))
  {
    var s' := StoreStep(s, c);
    forall id | In(s', id, Unarmed) ensures exists d :: d in s'.adders && s'.adders[d] == Arming(id) {
      if In(s, id, Unarmed) {
        var d :| d in s.adders && s.adders[d] == Arming(id);
        assert d in s'.adders && s'.adders[d] == Arming(id);
      } else {
        assert c in s'.adders && s'.adders[c] == Arming(id);
      }
    }
  }

  lemma AdderArms(s: State, a: Action)
    requires Arms(s) && Enabled(s, a) && (a.Arm? || a.Keep? || a.Count?)
    ensures Arms(Step(s, a))
  {
    var s' := Step(s, a);
    forall id | In(s', id, Unarmed) ensures exists d :: d in s'.adders && s'.adders[d] == Arming(id) {
      var d :| d in s.adders && s.adders[d] == Arming(id);
      assert d in s'.adders && s'.adders[d] == Arming(id);
    }
  }

  lemma OtherFrame(s: State, a: Action)
    requires Enabled(s, a) && !a.Store? && !a.Arm? && !a.Keep? && !a.Count?
    ensures var s' := Step(s, a); s'.adders == s.adders && s'.nextTask == s.nextTask && s'.arena.Keys == s.arena.Keys
  {
    if a.Fire? || a.Exists? || a.Limit? || a.Push? || a.Rearm? || a.KeepAgain? {
      ChainFrame(s, a);
    }
  }

  lemma ChainFrame(s: State, a: Action)
    requires Enabled(s, a) && (a.Fire? || a.Exists? || a.Limit? || a.Push? || a.Rearm? || a.KeepAgain?)
    ensures var s' := Step(s, a); s'.adders == s.adders && s'.nextTask == s.nextTask && s'.arena.Keys == s.arena.Keys
  {
  }

  lemma OtherArms(s: State, a: Action)
    requires Arms(s) && Enabled(s, a) && !a.Store? && !a.Arm? && !a.Keep? && !a.Count?
    ensures Arms(Step(s, a))
  {
    hide Step, Enabled;
    var s' := Step(s, a);
    OtherFrame(s, a);
    forall id | id in s.arena ensures In(s', id, Unarmed) <==> In(s, id, Unarmed) {
      StepLocal(s, a, id);
      OtherUnarmed(s, a, id);
    }
  }

  lemma OtherUnarmed(s: State, a: Action, id: nat)
    requires Enabled(s, a) && id in s.arena && !a.Store? && !a.Arm? && !a.Keep? && !a.Count?
    ensures In(Step(s, a), id, Unarmed) <==> In(s, id, Unarmed)
  {
  }

  lemma StepArms(s: State, a: Action)
    requires Arms(s) && Enabled(s, a)
    ensures Arms(Step(s, a))
  {
    if a.Store? {
      StoreArms(s, a.c);
    } else if a.Arm? || a.Keep? || a.Count? {
      AdderArms(s, a);
    } else {
      OtherArms(s, a);
    }
  }

  // ----- finite chains

  /** How many pushes the task's limit still allows. */
  function PushesLeft(t: Task, maxRetries: int): nat {
    Max(0, maxRetries - 1 - t.count)
  }

  /** An upper bound on the moves the chain still has. */
  function Fuel(t: Task, maxRetries: int): nat {
    match t.chain
    case Unarmed => 5 + 5 * PushesLeft(t, maxRetries)
    case Armed(_) => 4 + 5 * PushesLeft(t, maxRetries)
    case Fired => 3 + 5 * PushesLeft(t, maxRetries)
    case Checked => 2 + 5 * PushesLeft(t, maxRetries)
    case Pushing => 6 + 5 * PushesLeft(t, maxRetries)
    case Pushed => 5 + 5 * PushesLeft(t, maxRetries)
    case Removing => 1
    case Ended => 0
  }

  lemma MovesBurn(t: Task, t': Task, maxRetries: int, present: bool)
    requires Moves(t, t', maxRetries, present)
    ensures Fuel(t', maxRetries) < Fuel(t, maxRetries)
  {
  }

  /** How many of the steps move the chain of this task. */
  ghost function MoveCount(s: State, acts: seq<Action>, id: nat): nat
    requires CanRun(s, acts) && id in s.arena
    decreases |acts|
  {
    if acts == [] then 0
    else
      var s' := Step(s, acts[0]);
      if id !in s'.arena then 0
      else (if SameProgress(s.arena[id], s'.arena[id]) then 0 else 1) + MoveCount(s', acts[1..], id)
  }

  /** Every chain ends: over any run, the moves it makes and the moves it has left never exceed what it started with,
      so from its store a task makes at most 5 + 5 * max(0, maxRetries - 1) of them. */
  lemma {:induction false} ChainsAreFinite(s: State, acts: seq<Action>, id: nat)
    requires Arms(s) && CanRun(s, acts) && id in s.arena
    ensures var s' := Run(s, acts);
            && id in s'.arena && s'.maxRetries == s.maxRetries
            && MoveCount(s, acts, id) + Fuel(s'.arena[id], s.maxRetries) <= Fuel(s.arena[id], s.maxRetries)
    decreases |acts|
  {
    hide Step, Enabled, Arms, Fuel, Moves;
    if acts != [] {
      var s1 := Step(s, acts[0]);
      StepLocal(s, acts[0], id);
      StepArms(s, acts[0]);
      ChainsAreFinite(s1, acts[1..], id);
      if SameProgress(s.arena[id], s1.arena[id]) {
        SameFuel(s.arena[id], s1.arena[id], s.maxRetries);
      } else {
        MovesBurn(s.arena[id], s1.arena[id], s.maxRetries, s.arena[id].key in s.tasks);
      }
    }
  }

  lemma SameFuel(t: Task, t': Task, maxRetries: int)
    requires SameProgress(t, t')
    ensures Fuel(t', maxRetries) == Fuel(t, maxRetries)
  {
  }

  ghost predicate MovesChain(s: State, a: Action, id: nat)
    requires id in s.arena
  {
    Enabled(s, a) && id in Step(s, a).arena && !SameProgress(s.arena[id], Step(s, a).arena[id])
  }

  lemma ChainMoves(s: State, a: Action, id: nat)
    requires Enabled(s, a) && id in s.arena
    requires a == Fire(id) || a == Exists(id) || a == Limit(id) || a == Push(id, true) || a == Rearm(id)
    ensures MovesChain(s, a, id)
  {
  }

  lemma ArmMoves(s: State, c: nat, id: nat)
    requires Enabled(s, Arm(c)) && In(s, id, Unarmed) && s.adders[c].task == id
    ensures MovesChain(s, Arm(c), id)
  {
  }

  lemma RemoveMoves(s: State, id: nat, d: nat)
    requires Enabled(s, RemoveOwn(id, d))
    ensures MovesChain(s, RemoveOwn(id, d), id)
  {
  }

  /** A chain that has not ended always has an enabled move of its own. */
  lemma LiveChainCanMove(s: State, id: nat)
    requires Arms(s) && id in s.arena && !s.arena[id].chain.Ended?
    ensures exists a :: MovesChain(s, a, id)
  {
    hide MovesChain;
    match s.arena[id].chain {
      case Unarmed =>
        assert In(s, id, Unarmed);
        var c :| c in s.adders && s.adders[c] == Arming(id);
        ArmMoves(s, c, id);
      case Armed(_) => ChainMoves(s, Fire(id), id);
      case Fired => ChainMoves(s, Exists(id), id);
      case Checked => ChainMoves(s, Limit(id), id);
      case Pushing => ChainMoves(s, Push(id, true), id);
      case Pushed => ChainMoves(s, Rearm(id), id);
      case Removing =>
        var d := FreshId(s.deleters.Keys);
        RemoveMoves(s, id, d);
    }
  }

  // ----- how often a task is pushed

  /** The push limit of a task by the stage of its chain. */
  ghost predicate Paced(t: Task, maxRetries: int) {
    && (t.pushes == 0 || t.pushes < maxRetries)
    && match t.chain
       case Pushing => t.count == t.pushes + 1 && t.count < maxRetries
       case Pushed => t.count == t.pushes && t.count < maxRetries
       case Removing => t.pushes <= t.count
       case Ended => t.pushes <= t.count
       case _ => t.count == t.pushes
  }

  lemma MovesPaced(t: Task, t': Task, maxRetries: int, present: bool)
    requires Paced(t, maxRetries) && Moves(t, t', maxRetries, present)
    ensures Paced(t', maxRetries)
  {
  }

  lemma StepPaced(s: State, a: Action, id: nat)
    requires Arms(s) && Enabled(s, a) && id in Step(s, a).arena
    requires id in s.arena ==> Paced(s.arena[id], s.maxRetries)
    ensures Paced(Step(s, a).arena[id], Step(s, a).maxRetries) && Step(s, a).maxRetries == s.maxRetries
  {
    if id in s.arena {
      hide Step, Enabled, Arms, Paced, Moves;
      StepLocal(s, a, id);
      if SameProgress(s.arena[id], Step(s, a).arena[id]) {
        SamePaced(s.arena[id], Step(s, a).arena[id], s.maxRetries);
      } else {
        MovesPaced(s.arena[id], Step(s, a).arena[id], s.maxRetries, s.arena[id].key in s.tasks);
      }
    }
  }

  lemma SamePaced(t: Task, t': Task, maxRetries: int)
    requires SameProgress(t, t') && Paced(t, maxRetries)
    ensures Paced(t', maxRetries)
  {
  }

  lemma {:induction false} RunPaced(s: State, acts: seq<Action>)
    requires Arms(s) && CanRun(s, acts)
    requires forall id :: id in s.arena ==> Paced(s.arena[id], s.maxRetries)
    ensures var s' := Run(s, acts);
            Arms(s') && s'.maxRetries == s.maxRetries && forall id :: id in s'.arena ==> Paced(s'.arena[id], s.maxRetries)
    decreases |acts|
  {
    hide Step, Enabled, Arms, Paced;
    if acts != [] {
      var s1 := Step(s, acts[0]);
      StepArms(s, acts[0]);
      StepKeepsLimit(s, acts[0]);
      forall id | id in s1.arena ensures Paced(s1.arena[id], s1.maxRetries) {
        StepPaced(s, acts[0], id);
      }
      RunPaced(s1, acts[1..]);
    }
  }

  lemma StepKeepsLimit(s: State, a: Action)
    requires Enabled(s, a)
    ensures Step(s, a).maxRetries == s.maxRetries
  {
  }

  /** In every reachable state no task has been pushed again more than max(0, maxRetries - 1) times. */
  lemma PushesAreBounded(maxRetries: int, acts: seq<Action>, id: nat)
    requires CanRun(Init(maxRetries), acts) && id in Run(Init(maxRetries), acts).arena
    ensures Run(Init(maxRetries), acts).arena[id].pushes <= Max(0, maxRetries - 1)
  {
    RunPaced(Init(maxRetries), acts);
  }

  // ----- after a key is deleted

  /** The key is absent now and after every step of the run. */
  predicate StaysAbsent(s: State, acts: seq<Action>, key: string)
    requires CanRun(s, acts)
    decreases |acts|
  {
    key !in s.tasks && (acts == [] || StaysAbsent(Step(s, acts[0]), acts[1..], key))
  }

  /** Pushes made, and the one push a goroutine already past its existence check may still make. */
  function Budget(t: Task): nat {
    t.pushes + if t.chain.Checked? || t.chain.Pushing? then 1 else 0
  }

  lemma MovesBudget(t: Task, t': Task, maxRetries: int)
    requires SameProgress(t, t') || Moves(t, t', maxRetries, false)
    ensures Budget(t') <= Budget(t) && t.pushes <= t'.pushes && t'.key == t.key
  {
  }

  /** Once a key is deleted, by whichever of Stop, StopByLinkID and Close, and not restarted, each of its tasks pushes
      at most once more, and only if its goroutine is already past the existence check: whatever timers are armed. */
  lemma {:induction false} DeletedKeyFallsSilent(s: State, acts: seq<Action>, id: nat)
    requires Arms(s) && CanRun(s, acts) && id in s.arena && StaysAbsent(s, acts, s.arena[id].key)
    ensures var s' := Run(s, acts);
            && id in s'.arena && s'.arena[id].key == s.arena[id].key
            && s.arena[id].pushes <= s'.arena[id].pushes
            && Budget(s'.arena[id]) <= Budget(s.arena[id])
            && s'.arena[id].pushes
               <= s.arena[id].pushes + if s.arena[id].chain.Checked? || s.arena[id].chain.Pushing? then 1 else 0
    decreases |acts|
  {
    hide Step, Enabled, Arms, Moves;
    if acts != [] {
      var s1 := Step(s, acts[0]);
      StepLocal(s, acts[0], id);
      StepArms(s, acts[0]);
      MovesBudget(s.arena[id], s1.arena[id], s.maxRetries);
      DeletedKeyFallsSilent(s1, acts[1..], id);
    }
  }

  /** A key stays absent if no Start for it is past the closed check, and none is called. */
  lemma {:induction false} AbsentUnlessRestarted(s: State, acts: seq<Action>, key: string)
    requires CanRun(s, acts) && key !in s.tasks
    requires forall c :: c in s.starters ==> s.starters[c].key != key
    requires forall i :: 0 <= i < |acts| && acts[i].Enter? ==> acts[i].key != key
    ensures StaysAbsent(s, acts, key)
    decreases |acts|
  {
    if acts != [] {
      StepAbsent(s, acts[0], key);
      AbsentUnlessRestarted(Step(s, acts[0]), acts[1..], key);
    }
  }

  lemma StepAbsent(s: State, a: Action, key: string)
    requires Enabled(s, a) && key !in s.tasks && (a.Enter? ==> a.key != key)
    requires forall c :: c in s.starters ==> s.starters[c].key != key
    ensures key !in Step(s, a).tasks
    ensures forall c :: c in Step(s, a).starters ==> Step(s, a).starters[c].key != key
  {
    if !a.Store? && !a.Enter? {
      OnlyStoreAdds(s, a);
      hide Step, Enabled;
    }
  }

  lemma OnlyStoreAdds(s: State, a: Action)
    requires Enabled(s, a) && !a.Store? && !a.Enter?
    ensures Step(s, a).tasks.Keys <= s.tasks.Keys && Step(s, a).starters == s.starters
  {
  }

  // ----- no task is forgotten in the map

  /** Every task in the map has a live chain, and a task that is being stopped is out of the map. */
  ghost predicate NoLeak(s: State) {
    && (forall k :: k in s.tasks ==> s.tasks[k] in s.arena && s.arena[s.tasks[k]].key == k
                                     && !s.arena[s.tasks[k]].chain.Ended?)
    && (forall d :: d in s.deleters && !s.deleters[d].Subtracting? ==>
          && s.deleters[d].task in s.arena
          && (forall k :: k in s.tasks ==> s.tasks[k] != s.deleters[d].task))
  }

  lemma StartNoLeak(s: State, a: Action)
    requires Arms(s) && NoLeak(s) && Enabled(s, a) && (a.Store? || a.Arm? || a.Keep? || a.Count?)
    ensures NoLeak(Step(s, a))
  {
  }

  lemma ChainNoLeak(s: State, a: Action)
    requires NoLeak(s) && Enabled(s, a)
    requires a.Fire? || a.Exists? || a.Limit? || a.Push? || a.Rearm? || a.KeepAgain?
    ensures NoLeak(Step(s, a))
  {
  }

  lemma DeleteNoLeak(s: State, d: nat, key: string)
    requires NoLeak(s) && d !in s.deleters
    ensures NoLeak(DeleteStep(s, d, key))
  {
  }

  lemma RemoveOwnNoLeak(s: State, id: nat, d: nat)
    requires NoLeak(s) && Enabled(s, RemoveOwn(id, d))
    ensures NoLeak(RemoveOwnStep(s, id, d))
  {
    var key := s.arena[id].key;
    var s1 := DeleteStep(s, d, key);
    DeleteNoLeak(s, d, key);
    assert RemoveOwnStep(s, id, d) == SetChain(s1, id, Ended);
    assert forall k :: k in s1.tasks ==> s1.tasks[k] != id;
  }

  lemma CountDownNoLeak(s: State, a: Action)
    requires NoLeak(s) && Enabled(s, a) && (a.LoadTimer? || a.Subtract?)
    ensures NoLeak(Step(s, a))
  {
  }

  lemma StopNoLeak(s: State, d: nat)
    requires NoLeak(s) && Enabled(s, StopTimer(d))
    ensures NoLeak(StopTimerStep(s, d))
  {
    var s' := StopTimerStep(s, d);
    forall k | k in s'.tasks ensures s'.arena[s'.tasks[k]] == s.arena[s.tasks[k]] {}
  }

  lemma StepNoLeak(s: State, a: Action)
    requires Arms(s) && NoLeak(s) && Enabled(s, a)
    ensures NoLeak(Step(s, a))
  {
    match a {
      case Store(_) => StartNoLeak(s, a);
      case Arm(_) => StartNoLeak(s, a);
      case Keep(_) => StartNoLeak(s, a);
      case Count(_) => StartNoLeak(s, a);
      case RemoveOwn(id, d) => RemoveOwnNoLeak(s, id, d);
      case Delete(d, key) => DeleteNoLeak(s, d, key);
      case LoadTimer(_) => CountDownNoLeak(s, a);
      case StopTimer(d) => StopNoLeak(s, d);
      case Subtract(_) => CountDownNoLeak(s, a);
      case Enter(_, _, _) =>
      case SetClosed =>
      case _ => ChainNoLeak(s, a);
    }
  }

  /** In every reachable state each task in the map has a chain that can still move: no entry is left behind. */
  lemma {:induction false} EveryEntryIsServed(s: State, acts: seq<Action>, key: string)
    requires Arms(s) && NoLeak(s) && CanRun(s, acts) && key in Run(s, acts).tasks
    ensures var s' := Run(s, acts);
            && s'.tasks[key] in s'.arena
            && exists a :: MovesChain(s', a, s'.tasks[key])
    decreases |acts|
  {
    hide Step, Enabled, MovesChain;
    if acts == [] {
      LiveChainCanMove(s, s.tasks[key]);
    } else {
      StepArms(s, acts[0]);
      StepNoLeak(s, acts[0]);
      hide Arms, NoLeak;
      EveryEntryIsServed(Step(s, acts[0]), acts[1..], key);
    }
  }

  // ----- Close

  /** After the closed flag is set the map can only shrink, except for Starts that were already past the check. */
  lemma {:induction false} ClosedMapGrowsOnlyByLateStarts(s: State, acts: seq<Action>)
    requires s.closed && CanRun(s, acts)
    ensures var s' := Run(s, acts);
            && s'.closed
            && (forall c :: c in s'.starters ==> c in s.starters && s'.starters[c] == s.starters[c])
            && (forall k :: k in s'.tasks && (k !in s.tasks || s'.tasks[k] != s.tasks[k]) ==>
                  exists c :: c in s.starters && s.starters[c].key == k)
    decreases |acts|
  {
    if acts != [] {
      var s1 := Step(s, acts[0]);
      ClosedStep(s, acts[0]);
      ClosedMapGrowsOnlyByLateStarts(s1, acts[1..]);
      var s' := Run(s1, acts[1..]);
      forall k | k in s'.tasks && (k !in s.tasks || s'.tasks[k] != s.tasks[k])
        ensures exists c :: c in s.starters && s.starters[c].key == k
      {
        if k in s'.tasks && (k !in s1.tasks || s'.tasks[k] != s1.tasks[k]) {
          var c :| c in s1.starters && s1.starters[c].key == k;
          assert c in s.starters && s.starters[c].key == k;
        }
      }
    }
  }

  lemma ClosedStep(s: State, a: Action)
    requires s.closed && Enabled(s, a)
    ensures var s' := Step(s, a);
            && s'.closed
            && (forall c :: c in s'.starters ==> c in s.starters && s'.starters[c] == s.starters[c])
            && (forall k :: k in s'.tasks && (k !in s.tasks || s'.tasks[k] != s.tasks[k]) ==>
                  exists c :: c in s.starters && s.starters[c].key == k)
  {
    if a.Store? {
      assert a.c in s.starters;
    }
  }

  /** A goroutine runs one Start at a time. */
  ghost predicate Separate(s: State) {
    forall c :: c in s.starters ==> c !in s.adders
  }

  lemma StepSeparate(s: State, a: Action)
    requires Separate(s) && Enabled(s, a)
    ensures Separate(Step(s, a))
  {
  }

  lemma {:induction false} RunSeparate(s: State, acts: seq<Action>)
    requires Separate(s) && CanRun(s, acts)
    ensures Separate(Run(s, acts))
    decreases |acts|
  {
    hide Separate, Step, Enabled;
    if acts != [] {
      StepSeparate(s, acts[0]);
      RunSeparate(Step(s, acts[0]), acts[1..]);
    }
  }

  /** A Start for the key is past its closed check. */
  ghost predicate Starting(s: State, key: string) {
    exists c :: c in s.starters && s.starters[c].key == key
  }
}
