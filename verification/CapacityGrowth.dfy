/**
 How a node's capacity grows (internal arithmetic of pkg/grpc/balancer/capacity/v2/picker.go): any number of Done
 callbacks run the compare-and-swap loop of increaseCapacity on one shared counter, the two loads and the swap being separate
 steps. The product of capacity and growth rate is taken over the reals before truncation.
 */
module CapacityGrowth {
  import opened Common

  /** Go's conversion of a float to int64: towards zero. */
  function Truncate(x: real): int {
    if x >= 0.0 then x.Floor else -((-x).Floor)
  }

  /** Lines 131-132. */
  function Grow(seen: int, max: int, step: int, rate: real): int {
    Min(seen + Max(step, Truncate(seen as real * rate)), max)
  }

  /** n is x without its fraction, the way Go converts a float to int64. */
  predicate TowardsZero(x: real, n: int) {
    if x >= 0.0 then n as real <= x < (n + 1) as real else (n - 1) as real < x <= n as real
  }

  /** The rate's share of a capacity. */
  predicate IsShare(seen: int, rate: real, share: int) {
    TowardsZero(seen as real * rate, share)
  }

  lemma TruncatesTowardsZero(x: real, n: int)
    ensures TowardsZero(x, n) <==> n == Truncate(x)
  {
  }

  /** One callback adds the step or the truncated share, whichever is larger, and stops at the maximum. */
  lemma GrowIsExact(seen: int, max: int, step: int, rate: real, share: int)
    requires seen < max && 0 <= step && IsShare(seen, rate, share)
    ensures Grow(seen, max, step, rate) ==
              if step >= share then (if max - seen <= step then max else seen + step)
              else (if max - seen <= share then max else seen + share)
  {
    TruncatesTowardsZero(seen as real * rate, share);
    hide Truncate, TowardsZero;
  }

  lemma GrowBounds(seen: int, max: int, step: int, rate: real)
    requires seen < max && 0 <= step
    ensures Min(seen + step, max) <= Grow(seen, max, step, rate) <= max
    ensures Grow(seen, max, step, rate) >= seen
    ensures Grow(seen, max, step, rate) == seen <==> step == 0 && Truncate(seen as real * rate) <= 0
  {
  }

  /** What every successful swap adds at least, from the initial capacity on: the step, or the rate's share of the
      initial capacity if the rate is not negative. */
  function Unit(initial: int, step: int, rate: real): int {
    if rate >= 0.0 then Max(step, Truncate(initial as real * rate)) else step
  }

  lemma TruncateMonotone(x: real, y: real)
    requires x <= y
    ensures Truncate(x) <= Truncate(y)
  {
  }

  lemma GrowsByUnit(initial: int, seen: int, max: int, step: int, rate: real)
    requires initial <= seen < max && 0 <= step
    ensures Min(seen + Unit(initial, step, rate), max) <= Grow(seen, max, step, rate)
  {
    if rate >= 0.0 {
      assert initial as real * rate <= seen as real * rate;
      TruncateMonotone(initial as real * rate, seen as real * rate);
    }
  }

  datatype Stage = AtTop | Seen(seen: int) | Loaded(seen: int) | Finished

  /** `failures` counts the swaps of this callback that lost a race. */
  datatype Call = Call(stage: Stage, failures: nat)

  datatype State = State(
    initial: int,
    current: int,
    max: int,
    step: int,
    rate: real,
    calls: map<nat, Call>,
    completed: nat)

  function Init(initial: int, max: int, step: int, rate: real): State {
    State(initial, initial, max, step, rate, map[], 0)
  }

  datatype Action = Start(t: nat) | Load(t: nat) | Look(t: nat) | Swap(t: nat)

  predicate Enabled(s: State, a: Action) {
    match a
    case Start(t) => t !in s.calls
    case Load(t) => t in s.calls && s.calls[t].stage.AtTop?
    case Look(t) => t in s.calls && s.calls[t].stage.Seen?
    case Swap(t) => t in s.calls && s.calls[t].stage.Loaded?
  }

  /** Lines 123-128: a callback that saw a full node is done. */
  function LookStep(s: State, t: nat): State
    requires Enabled(s, Look(t))
  {
    var seen := s.calls[t].stage.seen;
    if seen >= s.max then
      s.(calls := s.calls[t := s.calls[t].(stage := Finished)], completed := s.completed + 1)
    else
      s.(calls := s.calls[t := s.calls[t].(stage := Loaded(seen))])
  }

  /** Lines 131-138. */
  function SwapStep(s: State, t: nat): State
    requires Enabled(s, Swap(t))
  {
    var c := s.calls[t];
    if s.current == c.stage.seen then
      s.(current := Grow(c.stage.seen, s.max, s.step, s.rate),
         calls := s.calls[t := c.(stage := Finished)], completed := s.completed + 1)
    else
      s.(calls := s.calls[t := Call(AtTop, c.failures + 1)])
  }

  function Step(s: State, a: Action): State
    requires Enabled(s, a)
  {
    match a
    case Start(t) => s.(calls := s.calls[t := Call(AtTop, 0)])
    case Load(t) => s.(calls := s.calls[t := s.calls[t].(stage := Seen(s.current))])
    case Look(t) => LookStep(s, t)
    case Swap(t) => SwapStep(s, t)
  }

  predicate CanRun(s: State, acts: seq<Action>)
    decreases |acts|
  {
    acts == [] || (Enabled(s, acts[0]) && CanRun(Step(s, acts[0]), acts[1..]))
  }

  function Run(s: State, acts: seq<Action>): State
    requires CanRun(s, acts)
    decreases |acts|
  {
    if acts == [] then s else Run(Step(s, acts[0]), acts[1..])
  }

  /** Holds whatever the initial capacity: values only rise, each loaded value lies in the past, and a callback has
      lost no more races than the counter has risen. */
  ghost predicate Rising(s: State) {
    && s.initial <= s.current
    && (s.current <= s.max || s.current == s.initial)
    && (forall t :: t in s.calls ==>
          match s.calls[t].stage
          case Seen(seen) => s.initial + s.calls[t].failures <= seen <= s.current
          case Loaded(seen) => s.initial + s.calls[t].failures <= seen <= s.current && seen < s.max
          case _ => s.initial + s.calls[t].failures <= s.current)
    && s.current >= Min(s.max, s.initial + s.completed * Unit(s.initial, s.step, s.rate))
  }

  lemma SwapKeeps(s: State, t: nat)
    requires Rising(s) && 0 <= s.step && Enabled(s, Swap(t))
    ensures Rising(SwapStep(s, t))
  {
    var seen := s.calls[t].stage.seen;
    var u := Unit(s.initial, s.step, s.rate);
    assert (s.completed + 1) * u == s.completed * u + u;
    if s.current == seen {
      GrowBounds(seen, s.max, s.step, s.rate);
      GrowsByUnit(s.initial, seen, s.max, s.step, s.rate);
    }
    hide Grow, Unit;
  }

  lemma LookKeeps(s: State, t: nat)
    requires Rising(s) && 0 <= s.step && Enabled(s, Look(t))
    ensures Rising(LookStep(s, t))
  {
    hide Unit;
  }

  lemma {:induction false} RunKeeps(s: State, acts: seq<Action>)
    requires Rising(s) && 0 <= s.step && CanRun(s, acts)
    ensures Rising(Run(s, acts))
    ensures var s' := Run(s, acts);
            s'.initial == s.initial && s'.max == s.max && s'.step == s.step && s'.rate == s.rate
            && s'.current >= s.current
    decreases |acts|
  {
    if acts != [] {
      match acts[0] {
        case Start(_) =>
        case Load(t) =>
        case Look(t) => LookKeeps(s, t);
        case Swap(t) =>
          SwapKeeps(s, t);
          if s.current == s.calls[t].stage.seen {
            GrowBounds(s.current, s.max, s.step, s.rate);
          }
      }
      hide Rising, Grow;
      RunKeeps(Step(s, acts[0]), acts[1..]);
    }
  }

  /** Under any interleaving capacity never falls and never overshoots, each callback loses at most max - initial
      races, and once completed * step, or completed times the rate's share of the initial capacity, covers the distance
      the capacity is exactly the maximum. */
  lemma CapacityConverges(initial: int, max: int, step: int, rate: real, acts: seq<Action>)
    requires initial <= max && 0 <= step && CanRun(Init(initial, max, step, rate), acts)
    ensures var s := Run(Init(initial, max, step, rate), acts);
            && initial <= s.current <= max
            && (forall t :: t in s.calls ==> s.calls[t].failures <= max - initial)
            && (s.completed * Unit(initial, step, rate) >= max - initial ==> s.current == max)
            && (s.completed * step >= max - initial ==> s.current == max)
  {
    var s0 := Init(initial, max, step, rate);
    RunKeeps(s0, acts);
    var n, u := Run(s0, acts).completed, Unit(initial, step, rate);
    assert n * u >= n * step by { assert n * (u - step) >= 0; }
  }

  // ----- the ramp as a whole

  /** The capacity after n callbacks that run one after the other. */
  function Ramp(initial: int, max: int, step: int, rate: real, n: nat): int {
    if n == 0 then initial
    else
      var c := Ramp(initial, max, step, rate, n - 1);
      if c >= max then c else Grow(c, max, step, rate)
  }

  /** The callbacks that have returned. */
  ghost function Ended(calls: map<nat, Call>): set<nat> {
    set t | t in calls && calls[t].stage.Finished?
  }

  ghost predicate OnRamp(s: State) {
    && s.current == Ramp(s.initial, s.max, s.step, s.rate, s.completed)
    && s.completed == |Ended(s.calls)|
    && (forall t :: t in s.calls ==>
          match s.calls[t].stage
          case Seen(seen) => seen <= s.current
          case Loaded(seen) => seen < s.max
          case _ => true)
  }

  lemma EndedCounts(s: State, a: Action)
    requires Enabled(s, a)
    ensures |Ended(Step(s, a).calls)| - |Ended(s.calls)| == Step(s, a).completed - s.completed
  {
    hide Grow;
    var s' := Step(s, a);
    if s'.calls[a.t].stage.Finished? {
      assert Ended(s'.calls) == Ended(s.calls) + {a.t};
    } else {
      assert Ended(s'.calls) == Ended(s.calls);
    }
  }

  lemma StepStaysOnRamp(s: State, a: Action)
    requires OnRamp(s) && 0 <= s.step && Enabled(s, a)
    ensures OnRamp(Step(s, a))
  {
    EndedCounts(s, a);
    hide Ended;
    if a.Swap? && s.current == s.calls[a.t].stage.seen {
      GrowBounds(s.current, s.max, s.step, s.rate);
    }
    hide Grow;
  }

  lemma {:induction false} RunStaysOnRamp(s: State, acts: seq<Action>)
    requires OnRamp(s) && 0 <= s.step && CanRun(s, acts)
    ensures OnRamp(Run(s, acts))
    ensures var s' := Run(s, acts);
            s'.initial == s.initial && s'.max == s.max && s'.step == s.step && s'.rate == s.rate
    decreases |acts|
  {
    if acts != [] {
      StepStaysOnRamp(s, acts[0]);
      hide OnRamp;
      RunStaysOnRamp(Step(s, acts[0]), acts[1..]);
    }
  }

  /** However the callbacks interleave, the capacity is what the same number of callbacks, one after the other, would
      have made of it: every completed callback counts once, and a lost race neither adds nor takes anything. */
  lemma RacingRampIsSequential(initial: int, max: int, step: int, rate: real, acts: seq<Action>)
    requires 0 <= step && CanRun(Init(initial, max, step, rate), acts)
    ensures var s := Run(Init(initial, max, step, rate), acts);
            && s.current == Ramp(initial, max, step, rate, s.completed)
            && s.completed == |Ended(s.calls)|
  {
    RunStaysOnRamp(Init(initial, max, step, rate), acts);
  }

  /** What one callback adds at most on the way from initial to max. */
  function Largest(initial: int, max: int, step: int, rate: real): int {
    Max(step, Max(Truncate(initial as real * rate), Truncate(max as real * rate)))
  }

  lemma ShareIsBounded(initial: int, seen: int, max: int, rate: real)
    requires initial <= seen <= max
    ensures Truncate(seen as real * rate) <= Max(Truncate(initial as real * rate), Truncate(max as real * rate))
  {
    var lo, x, hi := initial as real * rate, seen as real * rate, max as real * rate;
    if rate >= 0.0 {
      ScaledUp(seen as real, max as real, rate);
      TruncateMonotone(x, hi);
      assert Truncate(x) <= Truncate(hi);
    } else {
      ScaledDown(initial as real, seen as real, rate);
      TruncateMonotone(x, lo);
      assert Truncate(x) <= Truncate(lo);
    }
  }

  lemma ScaledUp(x: real, y: real, rate: real)
    requires x <= y && 0.0 <= rate
    ensures x * rate <= y * rate
  {
  }

  lemma ScaledDown(x: real, y: real, rate: real)
    requires x <= y && rate <= 0.0
    ensures y * rate <= x * rate
  {
    ScaledUp(x, y, -rate);
    assert x * -rate == -(x * rate);
    assert y * -rate == -(y * rate);
  }

  lemma GrowsByLargest(initial: int, seen: int, max: int, step: int, rate: real)
    requires initial <= seen < max && 0 <= step
    ensures Grow(seen, max, step, rate) <= seen + Largest(initial, max, step, rate)
    ensures rate == 0.0 ==> Grow(seen, max, step, rate) == Min(seen + step, max)
  {
    ShareIsBounded(initial, seen, max, rate);
    if rate == 0.0 {
      assert seen as real * rate == 0.0;
      TruncatesTowardsZero(seen as real * rate, 0);
    }
    hide Truncate;
  }

  lemma {:induction false} RampBounds(initial: int, max: int, step: int, rate: real, n: nat)
    requires initial <= max && 0 <= step
    ensures initial <= Ramp(initial, max, step, rate, n) <= max
    ensures Ramp(initial, max, step, rate, n) <= initial + n * Largest(initial, max, step, rate)
    ensures rate == 0.0 ==> Ramp(initial, max, step, rate, n) == Min(max, initial + n * step)
  {
    if n > 0 {
      RampBounds(initial, max, step, rate, n - 1);
      var c, l := Ramp(initial, max, step, rate, n - 1), Largest(initial, max, step, rate);
      assert n * l == (n - 1) * l + l && n * step == (n - 1) * step + step;
      if c < max {
        GrowBounds(c, max, step, rate);
        GrowsByLargest(initial, c, max, step, rate);
      }
      hide Grow, Largest;
    }
  }

  /** Growth is gradual: under any interleaving each completed callback has added at most the step, or the larger of
      the rate's shares of initial and maximum. Without a rate the capacity is initial + completed * step exactly,
      until it reaches the maximum. */
  lemma GrowthIsGradual(initial: int, max: int, step: int, rate: real, acts: seq<Action>)
    requires initial <= max && 0 <= step && CanRun(Init(initial, max, step, rate), acts)
    ensures var s := Run(Init(initial, max, step, rate), acts);
            && s.current <= initial + s.completed * Largest(initial, max, step, rate)
            && (rate == 0.0 ==> s.current == if s.completed * step >= max - initial then max
                                             else initial + s.completed * step)
  {
    RacingRampIsSequential(initial, max, step, rate, acts);
    RampBounds(initial, max, step, rate, Run(Init(initial, max, step, rate), acts).completed);
  }

  /** With a step of at least one, the ceiling of (max - initial) / step completed callbacks are enough. */
  lemma CallbacksToFull(initial: int, max: int, step: int, rate: real, acts: seq<Action>)
    requires initial <= max && 1 <= step && CanRun(Init(initial, max, step, rate), acts)
    requires Run(Init(initial, max, step, rate), acts).completed >= (max - initial + step - 1) / step
    ensures Run(Init(initial, max, step, rate), acts).current == max
  {
    CoversDistance(Run(Init(initial, max, step, rate), acts).completed, max - initial, step);
    CapacityConverges(initial, max, step, rate, acts);
  }

  /** The same without a step: wherever the rate yields whole units from the start, capacity reaches the maximum. */
  lemma CallbacksToFullAtRate(initial: int, max: int, step: int, rate: real, acts: seq<Action>)
    requires initial <= max && 0 <= step && Unit(initial, step, rate) >= 1
    requires CanRun(Init(initial, max, step, rate), acts)
    requires Run(Init(initial, max, step, rate), acts).completed
             >= (max - initial + Unit(initial, step, rate) - 1) / Unit(initial, step, rate)
    ensures Run(Init(initial, max, step, rate), acts).current == max
  {
    var n, u := Run(Init(initial, max, step, rate), acts).completed, Unit(initial, step, rate);
    CoversDistance(n, max - initial, u);
    CapacityConverges(initial, max, step, rate, acts);
  }

  lemma CoversDistance(n: nat, d: nat, u: int)
    requires 1 <= u && n >= (d + u - 1) / u
    ensures n * u >= d
  {
    var q := (d + u - 1) / u;
    assert d + u - 1 == q * u + (d + u - 1) % u;
    assert (n - q) * u >= 0;
    assert n * u == q * u + (n - q) * u;
  }

  /** An initial capacity above the maximum is never corrected: the node stays above it for ever, so it is never
      "full" in the sense of line 82. */
  lemma AboveMaxStaysAbove(initial: int, max: int, step: int, rate: real, acts: seq<Action>)
    requires initial > max && 0 <= step && CanRun(Init(initial, max, step, rate), acts)
    ensures Run(Init(initial, max, step, rate), acts).current == initial
  {
    var s0 := Init(initial, max, step, rate);
    RunKeeps(s0, acts);
  }

  /** Nothing has moved, and every callback that loaded saw the initial value. */
  ghost predicate Stuck(s: State) {
    s.current == s.initial < s.max
    && forall t :: t in s.calls && (s.calls[t].stage.Seen? || s.calls[t].stage.Loaded?) ==> s.calls[t].stage.seen == s.initial
  }

  lemma {:induction false} StuckRun(s: State, acts: seq<Action>)
    requires Stuck(s) && CanRun(s, acts) && s.step == 0 && Truncate(s.initial as real * s.rate) <= 0
    ensures Run(s, acts).current == s.initial
    decreases |acts|
  {
    if acts != [] {
      GrowBounds(s.initial, s.max, s.step, s.rate);
      hide Grow, Truncate;
      var s' := Step(s, acts[0]);
      assert Stuck(s') && s'.step == 0 && s'.rate == s.rate && s'.initial == s.initial;
      StuckRun(s', acts[1..]);
    }
  }

  /** A capacity below the maximum can ever grow if and only if the step is positive or the rate yields at least one
      whole unit at the initial capacity: with neither, no number of successful callbacks changes it. */
  lemma GrowsIff(initial: int, max: int, step: int, rate: real)
    requires initial < max && 0 <= step
    ensures (exists acts :: CanRun(Init(initial, max, step, rate), acts)
                         && Run(Init(initial, max, step, rate), acts).current > initial)
       <==> step > 0 || Truncate(initial as real * rate) >= 1
  {
    var s0 := Init(initial, max, step, rate);
    GrowBounds(initial, max, step, rate);
    if step > 0 || Truncate(initial as real * rate) >= 1 {
      OneCallback(s0);
    } else {
      forall acts | CanRun(s0, acts) ensures Run(s0, acts).current == initial {
        StuckRun(s0, acts);
      }
    }
  }

  lemma OneCallback(s: State)
    requires s.calls == map[] && s.current < s.max
    ensures CanRun(s, [Start(0), Load(0), Look(0), Swap(0)])
    ensures Run(s, [Start(0), Load(0), Look(0), Swap(0)]).current == Grow(s.current, s.max, s.step, s.rate)
  {
    var s1 := Step(s, Start(0));
    var s2 := Step(s1, Load(0));
    var s3 := Step(s2, Look(0));
    var s4 := Step(s3, Swap(0));
    assert s3.calls[0].stage == Loaded(s.current);
    assert CanRun(s4, []) && Run(s4, []) == s4;
    assert [Swap(0)][1..] == [] && CanRun(s3, [Swap(0)]) && Run(s3, [Swap(0)]) == s4;
    assert [Look(0), Swap(0)][1..] == [Swap(0)] && CanRun(s2, [Look(0), Swap(0)]) && Run(s2, [Look(0), Swap(0)]) == s4;
    assert [Load(0), Look(0), Swap(0)][1..] == [Look(0), Swap(0)];
    assert CanRun(s1, [Load(0), Look(0), Swap(0)]) && Run(s1, [Load(0), Look(0), Swap(0)]) == s4;
    assert [Start(0), Load(0), Look(0), Swap(0)][1..] == [Load(0), Look(0), Swap(0)];
  }

  ghost function Share(seen: int, rate: real): (share: int)
    ensures IsShare(seen, rate, share)
  {
    Truncate(seen as real * rate)
  }

  // ----- the loop itself, with other callbacks running between its load and its swap

  class Counter {
    var curCapacity: int
    var maxCapacity: int
    const step: int
    const rate: real

    constructor (current: int, max: int, step: int, rate: real)
      ensures curCapacity == current && maxCapacity == max && this.step == step && this.rate == rate
    {
      curCapacity, maxCapacity, this.step, this.rate := current, max, step, rate;
    }

    /** increaseCapacity. `rivals[i]` is the value other callbacks have raised the counter to between the load and
        the swap of round i; a value not above the current one means nobody interfered. The loop ends within
        max - current rounds. Its last round saw `seen`, the old capacity or what a rival made of it: a full counter
        is left alone, any other grows by the step or the share, `seen * rate` without its fraction, whichever is
        larger, up to the maximum. */
    method IncreaseCapacity(rivals: seq<int>) returns (rounds: nat, ghost seen: int, ghost share: int)
      requires 0 <= step && |rivals| >= maxCapacity - curCapacity
      requires forall i :: 0 <= i < |rivals| ==> rivals[i] <= maxCapacity
      modifies this`curCapacity
      ensures rounds <= Max(0, maxCapacity - old(curCapacity))
      ensures old(curCapacity) <= seen && (seen == old(curCapacity) || seen in rivals)
      ensures seen >= maxCapacity ==> curCapacity == seen
      ensures IsShare(seen, rate, share)
      ensures seen < maxCapacity ==>
                curCapacity == if step >= share then (if maxCapacity - seen <= step then maxCapacity else seen + step)
                               else (if maxCapacity - seen <= share then maxCapacity else seen + share)
      ensures old(curCapacity) < maxCapacity && rivals[0] <= old(curCapacity) ==> rounds == 1 && seen == old(curCapacity)
    {
      rounds := 0;
      seen, share := curCapacity, Share(curCapacity, rate);
      hide Truncate, Grow, TowardsZero, IsShare;
      while true
        invariant old(curCapacity) + rounds <= curCapacity
        invariant old(curCapacity) <= maxCapacity ==> curCapacity <= maxCapacity
        invariant rounds > 0 ==> old(curCapacity) < maxCapacity
        invariant rounds == 0 ==> curCapacity == old(curCapacity)
        invariant rounds >= 1 ==> rivals[0] > old(curCapacity) && curCapacity in rivals
        invariant IsShare(seen, rate, share)
        decreases maxCapacity - curCapacity
      {
        var oldCap := curCapacity;
        var maxCap := maxCapacity;
        seen, share := oldCap, Share(oldCap, rate);
        if oldCap >= maxCap {
          return;
        }
        if rivals[rounds] > curCapacity {
          curCapacity := rivals[rounds];
        }
        rounds := rounds + 1;
        if curCapacity == oldCap {
          GrowIsExact(oldCap, maxCap, step, rate, share);
          curCapacity := Grow(oldCap, maxCap, step, rate);
          return;
        }
      }
    }
  }
}
