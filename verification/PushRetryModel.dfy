/**
 The retransmission manager of pkg/pushretry/manager.go as a state machine: every atomic operation on the task map,
 the counter, the closed flag, a timer pointer or a timer is a step of its own, and any number of Start, Stop,
 StopByLinkID and Close calls and of timer goroutines interleave.

 A task is an identity into an arena, because a stopped task's goroutine may still hold it. Each task has one chain:
 the timer armed last, or the goroutine it started.
 */
module PushRetryModel {
  import opened Common

  datatype Chain =
    | Unarmed               // stored, AfterFunc not called yet
    | Armed(timer: nat)
    | Fired                 // retry started, before its existence check
    | Checked               // past the existence check
    | Pushing               // counted and below the limit
    | Pushed                // pushFunc succeeded, timer not armed again yet
    | Removing              // limit reached or push failed, about to delete its key
    | Ended

  datatype Task = Task(key: string, link: string, count: nat, pushes: nat, pointer: Option<nat>, chain: Chain)

  /** A Start call that has stored its task: before AfterFunc, before timerPtr.Store, before totalTasks.Add(1). */
  datatype Adder = Arming(task: nat) | Keeping(task: nat, timer: nat) | Counting

  /** A stopAndDeleteTask call after LoadAndDelete: before timerPtr.Load, before timer.Stop, before Add(-1). */
  datatype Deleter = Took(task: nat) | Stopping(task: nat, pointer: Option<nat>) | Subtracting

  datatype Starter = Starter(key: string, link: string)

  datatype State = State(
    maxRetries: int,
    tasks: map<string, nat>,
    arena: map<nat, Task>,
    total: int,
    closed: bool,
    starters: map<nat, Starter>,   // Start calls past the closed check, task not stored yet
    adders: map<nat, Adder>,
    deleters: map<nat, Deleter>,
    keepers: map<nat, nat>,        // timers armed by retry whose timerPtr.Store is still to come
    nextTask: nat,
    nextTimer: nat)

  function Init(maxRetries: int): State {
    State(maxRetries, map[], map[], 0, false, map[], map[], map[], map[], 0, 0)
  }

  datatype Action =
    | Enter(c: nat, key: string, link: string)
    | Store(c: nat)
    | Arm(c: nat)
    | Keep(c: nat)
    | Count(c: nat)
    | Fire(task: nat)
    | Exists(task: nat)
    | Limit(task: nat)
    | Push(task: nat, ok: bool)
    | Rearm(task: nat)
    | KeepAgain(timer: nat)
    | RemoveOwn(task: nat, d: nat)
    | Delete(d: nat, key: string)
    | LoadTimer(d: nat)
    | StopTimer(d: nat)
    | Subtract(d: nat)
    | SetClosed

  predicate In(s: State, task: nat, stage: Chain) {
    task in s.arena && s.arena[task].chain == stage
  }

  predicate Enabled(s: State, a: Action) {
    match a
    case Enter(c, _, _) => c !in s.starters && c !in s.adders
    case Store(c) => c in s.starters && c !in s.adders
    case Arm(c) => c in s.adders && s.adders[c].Arming? && s.adders[c].task in s.arena
    case Keep(c) => c in s.adders && s.adders[c].Keeping? && s.adders[c].task in s.arena
    case Count(c) => c in s.adders && s.adders[c].Counting?
    case Fire(id) => id in s.arena && s.arena[id].chain.Armed?
    case Exists(id) => In(s, id, Fired)
    case Limit(id) => In(s, id, Checked)
    case Push(id, _) => In(s, id, Pushing)
    case Rearm(id) => In(s, id, Pushed)
    case KeepAgain(x) => x in s.keepers && s.keepers[x] in s.arena
    case RemoveOwn(id, d) => In(s, id, Removing) && d !in s.deleters
    case Delete(d, _) => d !in s.deleters
    case LoadTimer(d) => d in s.deleters && s.deleters[d].Took? && s.deleters[d].task in s.arena
    case StopTimer(d) => d in s.deleters && s.deleters[d].Stopping? && s.deleters[d].task in s.arena
    case Subtract(d) => d in s.deleters && s.deleters[d].Subtracting?
    case SetClosed => true
  }

  function SetChain(s: State, id: nat, chain: Chain): State
    requires id in s.arena
  {
    s.(arena := s.arena[id := s.arena[id].(chain := chain)])
  }

  /** Line 40: a call that finds the manager closed is gone. */
  function EnterStep(s: State, c: nat, key: string, link: string): State {
    if s.closed then s else s.(starters := s.starters[c := Starter(key, link)])
  }

  /** LoadOrStore, lines 44-53. */
  function StoreStep(s: State, c: nat): State
    requires Enabled(s, Store(c))
  {
    var r := s.starters[c];
    var s' := s.(starters := s.starters - {c});
    if r.key in s.tasks then s'
    else
      s'.(tasks := s.tasks[r.key := s.nextTask],
          arena := s.arena[s.nextTask := Task(r.key, r.link, 0, 0, None, Unarmed)],
          adders := s.adders[c := Arming(s.nextTask)],
          nextTask := s.nextTask + 1)
  }

  /** time.AfterFunc, line 56. */
  function ArmStep(s: State, c: nat): State
    requires Enabled(s, Arm(c))
  {
    var id := s.adders[c].task;
    SetChain(s, id, Armed(s.nextTimer)).(adders := s.adders[c := Keeping(id, s.nextTimer)], nextTimer := s.nextTimer + 1)
  }

  /** timerPtr.Store, line 56. */
  function KeepStep(s: State, c: nat): State
    requires Enabled(s, Keep(c))
  {
    var k := s.adders[c];
    s.(arena := s.arena[k.task := s.arena[k.task].(pointer := Some(k.timer))], adders := s.adders[c := Counting])
  }

  /** Line 57. */
  function CountStep(s: State, c: nat): State
    requires Enabled(s, Count(c))
  {
    s.(total := s.total + 1, adders := s.adders - {c})
  }

  /** Lines 132-134: the check is by key. */
  function ExistsStep(s: State, id: nat): State
    requires Enabled(s, Exists(id))
  {
    SetChain(s, id, if s.arena[id].key in s.tasks then Checked else Ended)
  }

  /** Lines 136-146. */
  function LimitStep(s: State, id: nat): State
    requires Enabled(s, Limit(id))
  {
    var t := s.arena[id];
    s.(arena := s.arena[id := t.(count := t.count + 1,
                                 chain := if t.count + 1 >= s.maxRetries then Removing else Pushing)])
  }

  /** Lines 149-159. */
  function PushStep(s: State, id: nat, ok: bool): State
    requires Enabled(s, Push(id, ok))
  {
    var t := s.arena[id];
    s.(arena := s.arena[id := t.(pushes := t.pushes + 1, chain := if ok then Pushed else Removing)])
  }

  /** time.AfterFunc, line 170. */
  function RearmStep(s: State, id: nat): State
    requires Enabled(s, Rearm(id))
  {
    SetChain(s, id, Armed(s.nextTimer)).(keepers := s.keepers[s.nextTimer := id], nextTimer := s.nextTimer + 1)
  }

  /** timerPtr.Store, line 170. */
  function KeepAgainStep(s: State, x: nat): State
    requires Enabled(s, KeepAgain(x))
  {
    var id := s.keepers[x];
    s.(arena := s.arena[id := s.arena[id].(pointer := Some(x))], keepers := s.keepers - {x})
  }

  /** LoadAndDelete, line 78. */
  function DeleteStep(s: State, d: nat, key: string): State
    requires d !in s.deleters
  {
    if key in s.tasks then s.(tasks := s.tasks - {key}, deleters := s.deleters[d := Took(s.tasks[key])]) else s
  }

  /** Lines 144 and 157: the retry deletes whatever task its key holds, and returns. */
  function RemoveOwnStep(s: State, id: nat, d: nat): State
    requires Enabled(s, RemoveOwn(id, d))
  {
    DeleteStep(SetChain(s, id, Ended), d, s.arena[id].key)
  }

  /** Line 175. */
  function LoadTimerStep(s: State, d: nat): State
    requires Enabled(s, LoadTimer(d))
  {
    var id := s.deleters[d].task;
    s.(deleters := s.deleters[d := Stopping(id, s.arena[id].pointer)])
  }

  /** Line 176: stopping a timer that already fired does nothing. */
  function StopTimerStep(s: State, d: nat): State
    requires Enabled(s, StopTimer(d))
  {
    var k := s.deleters[d];
    var s' := s.(deleters := s.deleters[d := Subtracting]);
    if k.pointer.Some? && s.arena[k.task].chain == Armed(k.pointer.value) then SetChain(s', k.task, Ended) else s'
  }

  /** Line 80. */
  function SubtractStep(s: State, d: nat): State
    requires Enabled(s, Subtract(d))
  {
    s.(total := s.total - 1, deleters := s.deleters - {d})
  }

  function Step(s: State, a: Action): State
    requires Enabled(s, a)
  {
    match a
    case Enter(c, key, link) => EnterStep(s, c, key, link)
    case Store(c) => StoreStep(s, c)
    case Arm(c) => ArmStep(s, c)
    case Keep(c) => KeepStep(s, c)
    case Count(c) => CountStep(s, c)
    case Fire(id) => SetChain(s, id, Fired)
    case Exists(id) => ExistsStep(s, id)
    case Limit(id) => LimitStep(s, id)
    case Push(id, ok) => PushStep(s, id, ok)
    case Rearm(id) => RearmStep(s, id)
    case KeepAgain(x) => KeepAgainStep(s, x)
    case RemoveOwn(id, d) => RemoveOwnStep(s, id, d)
    case Delete(d, key) => DeleteStep(s, d, key)
    case LoadTimer(d) => LoadTimerStep(s, d)
    case StopTimer(d) => StopTimerStep(s, d)
    case Subtract(d) => SubtractStep(s, d)
    case SetClosed => s.(closed := true)
  }

  predicate CanRun(s: State, acts: seq<Action>)
    decreases |acts|
  {
    acts == [] || (Enabled(s, acts[0]) && CanRun(Step(s, acts[0]), acts[1..]))
  }

  function Run(s: State, acts: seq<Action>): State
    requires CanRun(s, acts)
    decreases |acts|
  {
    if acts == [] then s else Run(Step(s, acts[0]), acts[1..])
  }

  /** One more step at the end of a run. */
  lemma {:induction false} Then(s: State, acts: seq<Action>, a: Action) returns (longer: seq<Action>)
    requires CanRun(s, acts) && Enabled(Run(s, acts), a)
    ensures longer == acts + [a] && CanRun(s, longer) && Run(s, longer) == Step(Run(s, acts), a)
    decreases |acts|
  {
    longer := acts + [a];
    if acts == [] {
      assert [] + [a] == [a];
    } else {
      assert (acts + [a])[1..] == acts[1..] + [a];
      var _ := Then(Step(s, acts[0]), acts[1..], a);
    }
  }

  lemma {:induction false} RunConcat(s: State, acts: seq<Action>, more: seq<Action>)
    requires CanRun(s, acts) && CanRun(Run(s, acts), more)
    ensures CanRun(s, acts + more) && Run(s, acts + more) == Run(Run(s, acts), more)
    decreases |acts|
  {
    hide Step, Enabled;
    if acts == [] {
      assert [] + more == more;
    } else {
      assert (acts + more)[0] == acts[0] && (acts + more)[1..] == acts[1..] + more;
      RunConcat(Step(s, acts[0]), acts[1..], more);
    }
  }
}
