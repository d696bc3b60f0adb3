/**
 Any number of callers in Pick at once (pkg/grpc/balancer/capacity/v2/picker.go lines 67-104): the Add on the shared
 index, the look at the node it points to, and the growth of capacities by Done callbacks are steps of their own.
 */
module PickerRace {
  import opened Common
  import P = Picker

  /** A caller before its next Add, having failed `attempts` times; after its draw-th Add of all, about to look at the
      node; or returned with the node of that draw. */
  datatype Stage = Looping(attempts: nat) | Judging(attempts: nat, draw: nat) | Chosen(draw: nat)

  /** `draws` counts the Adds since the index stood at `start`, `adds` those of each call; `picked` gives the node
      selected through each draw. */
  datatype State = State(
    current: seq<int>,
    max: seq<int>,
    start: nat,
    draws: nat,
    callers: map<nat, Stage>,
    adds: map<nat, nat>,
    picked: map<nat, nat>)

  predicate Shaped(s: State) {
    |s.current| == |s.max| > 0
  }

  function Init(current: seq<int>, max: seq<int>, start: nat): State {
    State(current, max, start, 0, map[], map[], map[])
  }

  datatype Action = Call(t: nat) | Add(t: nat) | Judge(t: nat, lucky: bool) | Raise(node: nat, value: int)

  /** The node that the draw-th Add points to. */
  function NodeOf(s: State, draw: nat): (j: nat)
    requires Shaped(s)
    ensures j < |s.current|
  {
    P.Node(s.start + draw, |s.current|)
  }

  predicate Enabled(s: State, a: Action) {
    && Shaped(s)
    && match a
       case Call(t) => t !in s.callers
       case Add(t) => t in s.callers && s.callers[t].Looping?
       case Judge(t, lucky) =>
         && t in s.callers && s.callers[t].Judging?
         && (lucky ==> s.max[NodeOf(s, s.callers[t].draw)] > 0 && s.current[NodeOf(s, s.callers[t].draw)] > 0)
       case Raise(j, v) => j < |s.current| && s.current[j] < v <= s.max[j]
  }

  function Choose(s: State, t: nat, draw: nat): State
    requires Shaped(s)
  {
    s.(callers := s.callers[t := Chosen(draw)], picked := s.picked[draw := NodeOf(s, draw)])
  }

  function AddsOf(s: State, t: nat): nat {
    if t in s.adds then s.adds[t] else 0
  }

  /** Line 79, and line 103 once all attempts have failed. */
  function AddStep(s: State, t: nat): State
    requires Enabled(s, Add(t))
  {
    var attempts := s.callers[t].attempts;
    var s' := s.(draws := s.draws + 1, adds := s.adds[t := AddsOf(s, t) + 1]);
    if attempts < 2 * |s.current| then s'.(callers := s.callers[t := Judging(attempts, s.draws + 1)])
    else Choose(s', t, s.draws + 1)
  }

  /** Lines 82-98: a full node is taken, any other one if the dice fall that way. */
  function JudgeStep(s: State, t: nat, lucky: bool): State
    requires Enabled(s, Judge(t, lucky))
  {
    var j := NodeOf(s, s.callers[t].draw);
    if s.current[j] == s.max[j] || lucky then Choose(s, t, s.callers[t].draw)
    else s.(callers := s.callers[t := Looping(s.callers[t].attempts + 1)])
  }

  function Step(s: State, a: Action): State
    requires Enabled(s, a)
  {
    match a
    case Call(t) => s.(callers := s.callers[t := Looping(0)])
    case Add(t) => AddStep(s, t)
    case Judge(t, lucky) => JudgeStep(s, t, lucky)
    case Raise(j, v) => s.(current := s.current[j := v])
  }

  predicate CanRun(s: State, acts: seq<Action>)
    decreases |acts|
  {
    acts == [] || (Enabled(s, acts[0]) && CanRun(Step(s, acts[0]), acts[1..]))
  }

  function Run(s: State, acts: seq<Action>): State
    requires CanRun(s, acts)
    decreases |acts|
  {
    if acts == [] then s else Run(Step(s, acts[0]), acts[1..])
  }

  // ----- every call

  /** A call has added once per failed attempt, and once for the draw in hand; never more than 2 * len + 1 times. */
  ghost predicate Counted(s: State) {
    && (forall t :: t in s.callers ==>
          match s.callers[t]
          case Looping(a) => AddsOf(s, t) == a <= 2 * |s.current|
          case Judging(a, _) => AddsOf(s, t) == a + 1 <= 2 * |s.current|
          case Chosen(_) => 1 <= AddsOf(s, t) <= 2 * |s.current| + 1)
    && (forall t :: t in s.adds ==> t in s.callers)
  }

  /** Each draw is one call's, and its node is the one its index points to. */
  ghost predicate Indexed(s: State) {
    && Shaped(s)
    && (forall t :: t in s.callers && !s.callers[t].Looping? ==>
          1 <= s.callers[t].draw <= s.draws && (s.callers[t].draw in s.picked <==> s.callers[t].Chosen?))
    && (forall k :: k in s.picked ==> 1 <= k <= s.draws && s.picked[k] == NodeOf(s, k))
    && (forall t, u :: t in s.callers && u in s.callers && !s.callers[t].Looping? && !s.callers[u].Looping? ==>
          (s.callers[t].draw == s.callers[u].draw ==> t == u))
  }

  ghost predicate Bounded(s: State) {
    Indexed(s) && Counted(s)
  }

  lemma AddCounted(s: State, t: nat)
    requires Counted(s) && Enabled(s, Add(t))
    ensures Counted(AddStep(s, t))
  {
    hide P.Node, NodeOf;
  }

  lemma JudgeCounted(s: State, t: nat, lucky: bool)
    requires Counted(s) && Enabled(s, Judge(t, lucky))
    ensures Counted(JudgeStep(s, t, lucky))
  {
    hide P.Node, NodeOf;
  }

  lemma CallBounded(s: State, t: nat)
    requires Bounded(s) && Enabled(s, Call(t))
    ensures Bounded(Step(s, Call(t)))
  {
    hide P.Node;
  }

  /** A caller that takes the next index, to look at its node or to return it at once. */
  lemma DrawIndexed(s: State, t: nat, s': State)
    requires Shaped(s) && Indexed(s) && t in s.callers && s.callers[t].Looping?
    requires s' == s.(draws := s.draws + 1, callers := s'.callers, picked := s'.picked, adds := s'.adds)
    requires t in s'.callers && s'.callers == s.callers[t := s'.callers[t]] && !s'.callers[t].Looping? && s'.callers[t].draw == s.draws + 1
    requires s'.picked == if s'.callers[t].Chosen? then s.picked[s.draws + 1 := NodeOf(s, s.draws + 1)] else s.picked
    ensures Indexed(s')
  {
    hide P.Node;
  }

  lemma AddBounded(s: State, t: nat)
    requires Bounded(s) && Enabled(s, Add(t))
    ensures Bounded(AddStep(s, t))
  {
    AddCounted(s, t);
    hide P.Node, Counted, AddsOf, Indexed;
    DrawIndexed(s, t, AddStep(s, t));
  }

  lemma JudgeBounded(s: State, t: nat, lucky: bool)
    requires Bounded(s) && Enabled(s, Judge(t, lucky))
    ensures Bounded(JudgeStep(s, t, lucky))
  {
    JudgeCounted(s, t, lucky);
    hide P.Node, Counted, AddsOf;
  }

  lemma RaiseBounded(s: State, j: nat, v: int)
    requires Bounded(s) && Enabled(s, Raise(j, v))
    ensures Bounded(Step(s, Raise(j, v)))
  {
    hide P.Node;
  }

  lemma StepBounded(s: State, a: Action)
    requires Bounded(s) && Enabled(s, a)
    ensures Bounded(Step(s, a)) && Step(s, a).start == s.start && |Step(s, a).current| == |s.current|
  {
    hide Bounded, NodeOf;
    match a {
      case Call(t) => CallBounded(s, t);
      case Add(t) => AddBounded(s, t);
      case Judge(t, lucky) => JudgeBounded(s, t, lucky);
      case Raise(j, v) => RaiseBounded(s, j, v);
    }
  }

  lemma {:induction false} RunBounded(s: State, acts: seq<Action>)
    requires Bounded(s) && CanRun(s, acts)
    ensures Bounded(Run(s, acts)) && Run(s, acts).start == s.start && |Run(s, acts).current| == |s.current|
    decreases |acts|
  {
    hide Bounded, Step, Enabled;
    if acts != [] {
      StepBounded(s, acts[0]);
      RunBounded(Step(s, acts[0]), acts[1..]);
    }
  }

  /** Over any interleaving of calls and capacity changes: no call adds to the index more than 2 * len + 1 times, a call
      that returns has added at least once, and it returns the node of an index that no other call drew. */
  lemma AddsAreBounded(current: seq<int>, max: seq<int>, start: nat, acts: seq<Action>, t: nat)
    requires current != [] && |current| == |max| && CanRun(Init(current, max, start), acts)
    requires t in Run(Init(current, max, start), acts).callers
    ensures var s := Run(Init(current, max, start), acts);
            && AddsOf(s, t) <= 2 * |current| + 1
            && (s.callers[t].Chosen? ==>
                  && AddsOf(s, t) >= 1
                  && s.callers[t].draw in s.picked
                  && s.picked[s.callers[t].draw] == P.Node(start + s.callers[t].draw, |current|)
                  && forall u :: u in s.callers && u != t && !s.callers[u].Looping? ==>
                       s.callers[u].draw != s.callers[t].draw)
  {
    RunBounded(Init(current, max, start), acts);
    hide CanRun, Run;
  }

  /** Over any interleaving, when a call returns: from a look exactly if the node its index points to is full or the lot
      fell for it, otherwise it goes on with one more attempt; from an Add exactly after 2 * len looks. */
  lemma CallsReturnIff(current: seq<int>, max: seq<int>, start: nat, acts: seq<Action>, t: nat, lucky: bool)
    requires current != [] && |current| == |max| && CanRun(Init(current, max, start), acts)
    ensures var s := Run(Init(current, max, start), acts);
            && (Enabled(s, Judge(t, lucky)) ==>
                  var s' := Step(s, Judge(t, lucky));
                  var draw := s.callers[t].draw;
                  var j := (start + draw) % |current|;
                  && t in s'.callers && j < |s.current| == |s.max|
                  && (if s.current[j] == s.max[j] || lucky
                      then s'.callers[t] == Chosen(draw) && draw in s'.picked && s'.picked[draw] == j
                      else s'.callers[t] == Looping(s.callers[t].attempts + 1) && s'.picked == s.picked))
            && (Enabled(s, Add(t)) ==>
                  var s' := Step(s, Add(t));
                  && t in s'.callers && s'.draws == s.draws + 1 && AddsOf(s', t) == AddsOf(s, t) + 1
                  && (if AddsOf(s, t) == 2 * |current| then s'.callers[t] == Chosen(s.draws + 1)
                      else s'.callers[t] == Judging(AddsOf(s, t), s.draws + 1)))
  {
    RunBounded(Init(current, max, start), acts);
    hide CanRun, Run, Indexed;
  }

  // ----- when every node is full

  predicate AllFull(s: State) {
    s.current == s.max
  }

  /** Caller t made the k-th Add. */
  predicate Made(s: State, t: nat, k: nat) {
    t in s.callers && !s.callers[t].Looping? && s.callers[t].draw == k
  }

  ghost predicate SomebodyMade(s: State, k: nat) {
    exists t :: Made(s, t, k)
  }

  /** No caller has failed an attempt, and every draw is some caller's. */
  ghost predicate OneDrawEach(s: State) {
    && (forall t :: t in s.callers && !s.callers[t].Chosen? ==> s.callers[t].attempts == 0)
    && (forall t :: t in s.callers && s.callers[t].Chosen? ==> AddsOf(s, t) == 1)
    && (forall k :: 1 <= k <= s.draws ==> SomebodyMade(s, k))
  }

  /** How many of the draws after the k-th, m of them, have selected node j. */
  function Selected(picked: map<nat, nat>, k: nat, m: nat, j: nat): nat {
    if m == 0 then 0
    else Selected(picked, k, m - 1, j) + (if k + m in picked && picked[k + m] == j then 1 else 0)
  }

  lemma StepMade(s: State, a: Action, k: nat)
    requires Bounded(s) && AllFull(s) && OneDrawEach(s) && Enabled(s, a) && 1 <= k <= Step(s, a).draws
    ensures SomebodyMade(Step(s, a), k)
  {
    hide NodeOf;
    var s' := Step(s, a);
    if k <= s.draws {
      assert SomebodyMade(s, k);
      var t :| Made(s, t, k);
      assert Made(s', t, k);
    } else {
      assert Made(s', a.t, k);
    }
  }

  lemma StepFull(s: State, a: Action)
    requires Bounded(s) && AllFull(s) && OneDrawEach(s) && Enabled(s, a)
    ensures AllFull(Step(s, a)) && OneDrawEach(Step(s, a))
  {
    hide SomebodyMade;
    forall k | 1 <= k <= Step(s, a).draws ensures SomebodyMade(Step(s, a), k) {
      StepMade(s, a, k);
    }
  }

  lemma {:induction false} RunFull(s: State, acts: seq<Action>)
    requires Bounded(s) && AllFull(s) && OneDrawEach(s) && CanRun(s, acts)
    ensures AllFull(Run(s, acts)) && OneDrawEach(Run(s, acts))
    decreases |acts|
  {
    hide Bounded, AllFull, OneDrawEach, Step, Enabled;
    if acts != [] {
      StepBounded(s, acts[0]);
      StepFull(s, acts[0]);
      RunFull(Step(s, acts[0]), acts[1..]);
    }
  }

  /** Selections follow the indices as far as every draw of the window has led to one. */
  lemma {:induction false} SelectedIsTaken(s: State, k: nat, m: nat, j: nat)
    requires Bounded(s) && forall i :: k < i <= k + m ==> i in s.picked
    ensures Selected(s.picked, k, m, j) == P.Taken(s.start + k, |s.current|, m, j)
  {
    if m > 0 {
      SelectedIsTaken(s, k, m - 1, j);
      assert s.start + (k + m) == s.start + k + m;
      assert s.picked[k + m] == P.Node(s.start + k + m, |s.current|);
    }
  }

  /** Over any interleaving of any number of calls, if every node is full: each call adds to the index once and takes the
      node that this one index points to; and any r * len consecutive Adds, by whatever mixture of callers, whose calls
      have got as far as looking, select every connection exactly r times. */
  lemma FairToConcurrentCallers(current: seq<int>, start: nat, acts: seq<Action>, k: nat, r: nat, j: nat)
    requires current != [] && CanRun(Init(current, current, start), acts) && j < |current|
    requires k + r * |current| <= Run(Init(current, current, start), acts).draws
    requires var s := Run(Init(current, current, start), acts);
             forall t :: t in s.callers && s.callers[t].Judging? ==>
               !(k < s.callers[t].draw <= k + r * |current|)
    ensures var s := Run(Init(current, current, start), acts);
            && (forall t :: t in s.callers ==> AddsOf(s, t) == if s.callers[t].Looping? then 0 else 1)
            && (forall t :: t in s.callers && s.callers[t].Chosen? ==>
                  s.callers[t].draw in s.picked && s.picked[s.callers[t].draw] == P.Node(start + s.callers[t].draw, |current|))
            && Selected(s.picked, k, r * |current|, j) == r
  {
    var s0 := Init(current, current, start);
    RunBounded(s0, acts);
    RunFull(s0, acts);
    var s := Run(s0, acts);
    hide CanRun, Run, Selected;
    WindowIsFair(s, k, r, j);
  }

  lemma WindowIsFair(s: State, k: nat, r: nat, j: nat)
    requires Bounded(s) && OneDrawEach(s) && j < |s.current| && k + r * |s.current| <= s.draws
    requires forall t :: t in s.callers && s.callers[t].Judging? ==> !(k < s.callers[t].draw <= k + r * |s.current|)
    ensures Selected(s.picked, k, r * |s.current|, j) == r
  {
    var n := |s.current|;
    forall i | k < i <= k + r * n ensures i in s.picked {
      assert SomebodyMade(s, i);
      var t :| Made(s, t, i);
      assert s.callers[t].Chosen?;
    }
    hide OneDrawEach;
    SelectedIsTaken(s, k, r * n, j);
    hide Bounded, Selected, P.Taken;
    P.ToursAreFair(s.start + k, n, r, j);
  }
}
