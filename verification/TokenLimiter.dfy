/**
 The connection limiter of internal/limiter/connection_limiter.go together with the accept loop and connection
 handlers of internal/websocket_server.go that own its tokens. One ramp-up goroutine runs, as Start starts one.
 */
module TokenLimiter {
  import opened Common

  datatype Config = Config(initial: int, max: int, step: int, interval: int)

  datatype ConfigError = BadMax | NegativeInitial | InitialAboveMax | BadStep | BadInterval

  /** The checks of NewTokenLimiter, in their order (lines 39-53). */
  function Validate(c: Config): Option<ConfigError> {
    if c.max <= 0 then Some(BadMax)
    else if c.initial < 0 then Some(NegativeInitial)
    else if c.initial > c.max then Some(InitialAboveMax)
    else if c.step <= 0 then Some(BadStep)
    else if c.interval <= 0 then Some(BadInterval)
    else None
  }

  /** A configuration is accepted exactly when all its numbers are usable; otherwise the maximum is blamed before the
      initial capacity, that before the step, and the interval last. */
  lemma ValidateIff(c: Config)
    ensures Validate(c) == None <==> 0 <= c.initial <= c.max && 0 < c.max && 0 < c.step && 0 < c.interval
    ensures Validate(c) == Some(BadMax) <==> c.max <= 0
    ensures Validate(c) == Some(NegativeInitial) <==> c.initial < 0 < c.max
    ensures Validate(c) == Some(InitialAboveMax) <==> 0 < c.max < c.initial
    ensures Validate(c) == Some(BadStep) <==> 0 <= c.initial <= c.max && 0 < c.max && c.step <= 0
  {
  }

  /** The ramp-up goroutine: waiting for a tick, part way through the sends of one tick, or gone. */
  datatype Ramp = Ticking | Sending(to: int, sent: nat) | RampGone

  /** acceptConn: at the top of its loop, holding a token around Accept, or returned. */
  datatype Acceptor = AtTop | HasToken | Exited

  /** `ticks` counts completed growth steps and `lostTokens` the Release calls that found the channel full. */
  datatype State = State(
    cfg: Config,
    tokens: nat,
    current: int,
    ramp: Ramp,
    acceptor: Acceptor,
    conns: set<nat>,
    ticks: nat,
    lostTokens: nat)

  ghost predicate Usable(c: Config) {
    Validate(c) == None
  }

  function Init(c: Config): State
    requires Usable(c)
  {
    State(c, c.initial, c.initial, Ticking, AtTop, {}, 0, 0)
  }

  datatype Action =
    | Acquire
    | Accept(conn: nat)
    | AcceptFails(exit: bool)
    | StopAccepting
    | HandlerReturns(conn: nat)
    | Tick
    | RampSend
    | RampStore
    | RampCancel

  predicate Enabled(s: State, a: Action) {
    match a
    case Acquire => s.acceptor.AtTop?
    case Accept(c) => s.acceptor.HasToken? && c !in s.conns
    case AcceptFails(_) => s.acceptor.HasToken?
    case StopAccepting => s.acceptor.AtTop?
    case HandlerReturns(c) => c in s.conns
    case Tick => s.ramp.Ticking?
    // a channel send can proceed only while the channel has room
    case RampSend => s.ramp.Sending? && s.current + s.ramp.sent < s.ramp.to && s.tokens < s.cfg.max
    case RampStore => s.ramp.Sending? && s.current + s.ramp.sent >= s.ramp.to
    case RampCancel => s.ramp.Ticking?
  }

  /** Release, lines 141-151. */
  function ReleaseStep(s: State): State {
    if s.tokens < s.cfg.max then s.(tokens := s.tokens + 1) else s.(lostTokens := s.lostTokens + 1)
  }

  function Grown(s: State): int {
    Min(s.current + s.cfg.step, s.cfg.max)
  }

  function Step(s: State, a: Action): State
    requires Enabled(s, a)
  {
    match a
    case Acquire => if s.tokens > 0 then s.(tokens := s.tokens - 1, acceptor := HasToken) else s
    case Accept(c) => s.(acceptor := AtTop, conns := s.conns + {c})
    case AcceptFails(exit) => ReleaseStep(s.(acceptor := if exit then Exited else AtTop))
    case StopAccepting => s.(acceptor := Exited)
    case HandlerReturns(c) => ReleaseStep(s.(conns := s.conns - {c}))
    case Tick => if s.current >= s.cfg.max then s.(ramp := RampGone) else s.(ramp := Sending(Grown(s), 0))
    case RampSend => s.(tokens := s.tokens + 1, ramp := s.ramp.(sent := s.ramp.sent + 1))
    case RampStore => s.(current := s.ramp.to, ramp := Ticking, ticks := s.ticks + 1)
    case RampCancel => s.(ramp := RampGone)
  }

  predicate CanRun(s: State, acts: seq<Action>)
    decreases |acts|
  {
    acts == [] || (Enabled(s, acts[0]) && CanRun(Step(s, acts[0]), acts[1..]))
  }

  function Run(s: State, acts: seq<Action>): State
    requires CanRun(s, acts)
    decreases |acts|
  {
    if acts == [] then s else Run(Step(s, acts[0]), acts[1..])
  }

  ghost function Held(s: State): nat {
    if s.acceptor.HasToken? then 1 else 0
  }

  ghost function Added(s: State): nat {
    if s.ramp.Sending? then s.ramp.sent else 0
  }

  /** Tokens are conserved: those in the channel, with the accept loop and with open connections are the capacity
      plus what the current ramp step has added so far. */
  ghost predicate Conserved(s: State) {
    s.tokens + Held(s) + |s.conns| == s.current + Added(s)
  }

  /** The capacity after so many growth steps, each of which was needed. */
  ghost predicate Counted(c: Config, current: int, ticks: nat) {
    && current == Min(c.initial + ticks * c.step, c.max)
    && (ticks > 0 ==> c.initial + (ticks - 1) * c.step < c.max)
  }

  ghost predicate Inv(s: State) {
    && Usable(s.cfg)
    && Conserved(s)
    && s.cfg.initial <= s.current <= s.cfg.max
    && s.lostTokens == 0
    && Counted(s.cfg, s.current, s.ticks)
    && (s.ramp.Sending? ==>
          s.current < s.cfg.max && s.ramp.to == Grown(s) && s.current + s.ramp.sent <= s.ramp.to)
  }

  lemma StoreKeeps(s: State)
    requires Inv(s) && Enabled(s, RampStore)
    ensures Inv(Step(s, RampStore))
  {
    var s' := Step(s, RampStore);
    assert (s.ticks + 1) * s.cfg.step == s.ticks * s.cfg.step + s.cfg.step;
    assert s.cfg.initial + s.ticks * s.cfg.step < s.cfg.max;
    assert s'.ticks - 1 == s.ticks;
  }

  lemma StepKeeps(s: State, a: Action)
    requires Inv(s) && Enabled(s, a)
    ensures Inv(Step(s, a)) && Step(s, a).cfg == s.cfg
  {
    hide Counted;
    match a
    case RampStore => StoreKeeps(s);
    case Accept(c) => assert |s.conns + {c}| == |s.conns| + 1;
    case HandlerReturns(c) => assert |s.conns - {c}| == |s.conns| - 1;
    case _ =>
  }

  lemma {:induction false} RunKeeps(s: State, acts: seq<Action>)
    requires Inv(s) && CanRun(s, acts)
    ensures Inv(Run(s, acts)) && Run(s, acts).cfg == s.cfg
    decreases |acts|
  {
    if acts != [] {
      StepKeeps(s, acts[0]);
      hide Step, Enabled, Inv;
      RunKeeps(Step(s, acts[0]), acts[1..]);
    }
  }

  /** In every reachable state tokens are conserved, never more connections are open than the capacity reached so
      far, no Release has ever found the channel full, and the ramp's next send cannot block. */
  lemma TokensAreConserved(c: Config, acts: seq<Action>)
    requires Usable(c) && CanRun(Init(c), acts)
    ensures var s := Run(Init(c), acts);
            && Conserved(s)
            && |s.conns| <= s.current + Added(s) <= c.max
            && s.lostTokens == 0
            && (s.ramp.Sending? ==> Enabled(s, RampSend) || Enabled(s, RampStore))
            && (s.acceptor.AtTop? ==> (Step(s, Acquire).acceptor.HasToken? <==> |s.conns| < s.current + Added(s)))
  {
    assert Inv(Init(c)) by { assert 0 * c.step == 0; }
    RunKeeps(Init(c), acts);
  }

  /** Below the capacity reached so far the accept loop can always serve one more connection, and then goes on; a failed
      Accept gives its token back and ends the loop only if it is told to. */
  lemma FreeTokenServes(c: Config, acts: seq<Action>, conn: nat, exit: bool)
    requires Usable(c) && CanRun(Init(c), acts)
    ensures var s := Run(Init(c), acts);
            && (s.acceptor.AtTop? && |s.conns| < s.current + Added(s) && conn !in s.conns ==>
                  s.tokens > 0 && CanRun(s, [Acquire, Accept(conn)])
                  && Run(s, [Acquire, Accept(conn)]) == s.(tokens := s.tokens - 1, conns := s.conns + {conn}))
            && (Enabled(s, AcceptFails(exit)) ==>
                  Step(s, AcceptFails(exit)) == s.(tokens := s.tokens + 1, acceptor := if exit then Exited else AtTop))
            && (Enabled(s, StopAccepting) ==> Step(s, StopAccepting) == s.(acceptor := Exited))
  {
    assert Inv(Init(c)) by { assert 0 * c.step == 0; }
    RunKeeps(Init(c), acts);
    var s := Run(Init(c), acts);
    hide Counted;
    if s.acceptor.AtTop? && |s.conns| < s.current + Added(s) && conn !in s.conns {
      var s1 := Step(s, Acquire);
      var s2 := Step(s1, Accept(conn));
      assert [Accept(conn)][1..] == [] && CanRun(s2, []) && Run(s2, []) == s2;
      assert CanRun(s1, [Accept(conn)]) && Run(s1, [Accept(conn)]) == s2;
      assert [Acquire, Accept(conn)][1..] == [Accept(conn)];
    }
  }

  /** Once the accept loop has ended no connection is added any more. */
  lemma {:induction false} EndedAcceptsNobody(s: State, acts: seq<Action>)
    requires s.acceptor.Exited? && CanRun(s, acts)
    ensures Run(s, acts).acceptor.Exited? && Run(s, acts).conns <= s.conns
    decreases |acts|
  {
    if acts != [] {
      assert Step(s, acts[0]).acceptor.Exited? && Step(s, acts[0]).conns <= s.conns;
      hide Step, Enabled;
      EndedAcceptsNobody(Step(s, acts[0]), acts[1..]);
    }
  }

  /** The number of growth steps from the initial to the maximal capacity: the ceiling of their distance over step. */
  ghost function TicksToMax(c: Config): nat
    requires Usable(c)
  {
    (c.max - c.initial + c.step - 1) / c.step
  }

  lemma CeilingBounds(c: Config)
    requires Usable(c)
    ensures (TicksToMax(c) - 1) * c.step < c.max - c.initial <= TicksToMax(c) * c.step
  {
    var d, q := c.max - c.initial + c.step - 1, TicksToMax(c);
    assert d == q * c.step + d % c.step;
    assert (q - 1) * c.step == q * c.step - c.step;
  }

  lemma MulMonotone(a: int, b: int, k: int)
    requires a <= b && 0 <= k
    ensures a * k <= b * k
  {
  }

  /** The ramp takes exactly the ceiling of (max - initial) / step growth steps: it never takes more, the capacity
      equals the maximum exactly when it has taken them all, and before that it is initial plus ticks * step. */
  lemma RampReachesMaxExactly(c: Config, acts: seq<Action>)
    requires Usable(c) && CanRun(Init(c), acts)
    ensures var s := Run(Init(c), acts);
            && s.ticks <= TicksToMax(c)
            && (s.current == c.max <==> s.ticks == TicksToMax(c))
            && (s.ticks < TicksToMax(c) ==> s.current == c.initial + s.ticks * c.step)
  {
    assert Inv(Init(c)) by { assert 0 * c.step == 0; }
    RunKeeps(Init(c), acts);
    var s := Run(Init(c), acts);
    var n := TicksToMax(c);
    CeilingBounds(c);
    if s.ticks > n {
      MulMonotone(n, s.ticks - 1, c.step);
    } else if s.ticks < n {
      MulMonotone(s.ticks, n - 1, c.step);
    }
  }

  ghost function Progress(s: State): int {
    3 * s.current + Added(s) + (if s.ramp.Sending? then 1 else 0)
  }

  lemma RampMoves(s: State, a: Action)
    requires Inv(s) && !s.ramp.RampGone? && s.current < s.cfg.max
    requires a == if s.ramp.Ticking? then Tick else if s.current + s.ramp.sent < s.ramp.to then RampSend else RampStore
    ensures Enabled(s, a) && !Step(s, a).ramp.RampGone? && Inv(Step(s, a)) && Step(s, a).cfg == s.cfg
    ensures Progress(s) < Progress(Step(s, a))
    ensures Progress(s) < 3 * s.cfg.max
  {
    StepKeeps(s, a);
  }

  lemma {:induction false} RampLeft(s: State) returns (acts: seq<Action>)
    requires Inv(s) && !s.ramp.RampGone?
    ensures CanRun(s, acts) && Run(s, acts).current == s.cfg.max
    ensures |acts| <= Max(0, 3 * s.cfg.max - Progress(s)) && forall a :: a in acts ==> a in {Tick, RampSend, RampStore}
    decreases 3 * s.cfg.max - Progress(s)
  {
    acts := [];
    if s.current < s.cfg.max {
      var a := if s.ramp.Ticking? then Tick else if s.current + s.ramp.sent < s.ramp.to then RampSend else RampStore;
      RampMoves(s, a);
      hide Inv, Step, Enabled, Progress;
      var rest := RampLeft(Step(s, a));
      acts := [a] + rest;
      assert acts[1..] == rest;
    }
  }

  /** As long as the ramp has not been cancelled it can complete on its own, whatever connections are open: at most three
      steps per missing token raise the capacity to the maximum. */
  lemma RampCompletes(c: Config, acts: seq<Action>) returns (more: seq<Action>)
    requires Usable(c) && CanRun(Init(c), acts) && !Run(Init(c), acts).ramp.RampGone?
    ensures var s := Run(Init(c), acts);
            && CanRun(s, more) && Run(s, more).current == c.max
            && |more| <= 3 * (c.max - s.current)
    ensures forall a :: a in more ==> a in {Tick, RampSend, RampStore}
  {
    assert Inv(Init(c)) by { assert 0 * c.step == 0; }
    RunKeeps(Init(c), acts);
    more := RampLeft(Run(Init(c), acts));
  }

  /** The ramp goroutine goes away only when it is told to, or when there is nothing left to add. */
  lemma RampGoesIff(c: Config, acts: seq<Action>)
    requires Usable(c) && CanRun(Init(c), acts) && Run(Init(c), acts).ramp.Ticking?
    ensures var s := Run(Init(c), acts);
            && (Step(s, Tick).ramp.RampGone? <==> s.current == c.max)
            && Step(s, RampCancel) == s.(ramp := RampGone)
  {
    assert Inv(Init(c)) by { assert 0 * c.step == 0; }
    RunKeeps(Init(c), acts);
  }

  // ----- the limiter as an object

  class Limiter {
    const cfg: Config
    var tokens: nat
    var currentCapacity: int

    ghost predicate Valid(outstanding: nat)
      reads this
    {
      Usable(cfg) && tokens + outstanding == currentCapacity <= cfg.max
    }

    /** The part of NewTokenLimiter after validation: fill the channel with the initial tokens. */
    constructor (cfg: Config)
      requires Usable(cfg)
      ensures Valid(0) && this.cfg == cfg && tokens == cfg.initial == currentCapacity
    {
      this.cfg := cfg;
      tokens := 0;
      currentCapacity := cfg.initial;
      new;
      var i := 0;
      while i < cfg.initial
        invariant 0 <= i <= cfg.initial && tokens == i && currentCapacity == cfg.initial
      {
        tokens := tokens + 1;
        i := i + 1;
      }
    }

    /** Succeeds exactly while fewer tokens are out than the capacity reached so far, so no more than that many can ever
        be out at once. */
    method Acquire(ghost outstanding: nat) returns (ok: bool)
      requires Valid(outstanding)
      modifies this`tokens
      ensures ok <==> outstanding < currentCapacity
      ensures Valid(if ok then outstanding + 1 else outstanding)
    {
      ok := tokens > 0;
      if ok {
        tokens := tokens - 1;
      }
    }

    /** Whoever returns a token it really holds succeeds. */
    method Release(ghost outstanding: nat) returns (ok: bool)
      requires Valid(outstanding) && outstanding > 0
      modifies this`tokens
      ensures ok && Valid(outstanding - 1) && tokens == old(tokens) + 1
    {
      ok := tokens < cfg.max;
      if ok {
        tokens := tokens + 1;
      }
    }

    /** One tick of StartRampUp (lines 98-125): grow by one step, capped at the maximum, adding exactly as many
        tokens, and never sending on a full channel. */
    method GrowOnce(ghost outstanding: nat) returns (finished: bool)
      requires Valid(outstanding)
      modifies this
      ensures Valid(outstanding)
      ensures finished == (old(currentCapacity) >= cfg.max)
      ensures currentCapacity == if finished then old(currentCapacity) else Min(old(currentCapacity) + cfg.step, cfg.max)
      ensures tokens - old(tokens) == currentCapacity - old(currentCapacity)
    {
      var current := currentCapacity;
      if current >= cfg.max {
        return true;
      }
      var newCapacity := current + cfg.step;
      if newCapacity > cfg.max {
        newCapacity := cfg.max;
      }
      var added, i := newCapacity - current, 0;
      while i < added
        invariant 0 <= i <= added && tokens == old(tokens) + i && currentCapacity == current
      {
        assert tokens < cfg.max;
        tokens := tokens + 1;
        i := i + 1;
      }
      currentCapacity := newCapacity;
      return false;
    }
  }

  /** NewTokenLimiter: the first configuration error, or a limiter holding the initial tokens. */
  method NewTokenLimiter(cfg: Config) returns (err: Option<ConfigError>, l: Limiter?)
    ensures err == Validate(cfg)
    ensures err == None <==> l != null
    ensures l != null ==> fresh(l) && l.Valid(0) && l.cfg == cfg && l.tokens == cfg.initial
  {
    err := Validate(cfg);
    l := null;
    if err == None {
      l := new Limiter(cfg);
    }
  }
}
