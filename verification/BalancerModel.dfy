/**
 The capacity balancer of pkg/grpc/balancer/capacity/v2 (balancer.go, picker_builder.go): it keeps one SubConn per
 resolved address, remembers each node's capacity across disconnects, and publishes a picker over the SubConns that
 are Ready. Every method runs under the balancer's lock, so each is one step; the two loads and the swap of
 each Done callback are steps of their own.

 SubConns and the subConn wrappers of picker.go are identities into arenas, since pickers and the memory share
 wrappers by pointer. Go ranges over maps in any order: wherever that order shows, it is an argument.
 */
module BalancerModel {
  import opened Common
  import G = CapacityGrowth

  /** resolver.Address with the attributes of picker.go lines 14-18; None is an attribute that is not set. */
  datatype Address = Address(
    addr: string,
    nodeID: Option<string>,
    initCap: Option<int>,
    maxCap: Option<int>,
    step: Option<int>,
    rate: Option<real>)

  datatype Connectivity = Idle | Connecting | Ready | TransientFailure | Shutdown

  datatype Info = Info(addr: Address, state: Connectivity)

  /** subConn of picker.go. */
  datatype Wrapper = Wrapper(conn: nat, addr: Address, id: string, current: int, max: int, step: int, rate: real)

  /** The last picker handed to gRPC: none yet, one that always fails, or one over these wrappers. */
  datatype Published = Nothing | Failing | Picking(wrappers: seq<nat>)

  /** A Done callback in increaseCapacity, between its first load and its swap; `max` once it has loaded that too. */
  datatype Callback = Callback(wrapper: nat, seen: int, max: Option<int>)

  datatype State = State(
    subConns: map<nat, Info>,
    memory: map<string, nat>,
    wrappers: map<nat, Wrapper>,
    published: Published,
    nextConn: nat,
    nextWrapper: nat,
    shutdowns: set<nat>,
    closed: bool,
    callbacks: map<nat, Callback>)

  const DefaultInit := 10
  const DefaultMax := 100
  const DefaultRate := 0.1

  /** attrAs, lines 104-109. */
  function AttrAs<T>(value: Option<T>, default: T): T {
    match value case Some(v) => v case None => default
  }

  function NodeID(a: Address): string {
    AttrAs(a.nodeID, "")
  }

  function Init(): State {
    State(map[], map[], map[], Nothing, 0, 0, {}, false, map[])
  }

  // ----- UpdateClientConnState

  function Listed(addrs: seq<Address>): set<string> {
    set i | 0 <= i < |addrs| :: addrs[i].addr
  }

  function Dropped(s: State, listed: set<string>): set<nat> {
    set sc | sc in s.subConns && s.subConns[sc].addr.addr !in listed
  }

  function ForgottenNodes(s: State, listed: set<string>): set<string> {
    set sc | sc in Dropped(s, listed) && NodeID(s.subConns[sc].addr) != "" :: NodeID(s.subConns[sc].addr)
  }

  /** Lines 89-101. */
  function RemoveStep(s: State, listed: set<string>): State {
    s.(subConns := s.subConns - Dropped(s, listed),
       memory := s.memory - ForgottenNodes(s, listed),
       shutdowns := s.shutdowns + Dropped(s, listed))
  }

  predicate Tracked(subConns: map<nat, Info>, addr: string) {
    exists sc :: sc in subConns && subConns[sc].addr.addr == addr
  }

  /** Lines 104-134: `created[i]` says whether NewSubConn succeeds for the i-th address, if it is called. */
  function CreateStep(s: State, addrs: seq<Address>, created: seq<bool>): State
    requires |addrs| == |created|
    decreases |addrs|
  {
    if addrs == [] then s
    else if Tracked(s.subConns, addrs[0].addr) || !created[0] then CreateStep(s, addrs[1..], created[1..])
    else
      CreateStep(
        s.(subConns := s.subConns[s.nextConn := Info(addrs[0], Idle)], nextConn := s.nextConn + 1),
        addrs[1..], created[1..])
  }

  // ----- updatePicker and Build

  function ReadySet(subConns: map<nat, Info>): set<nat> {
    set sc | sc in subConns && subConns[sc].state.Ready?
  }

  ghost predicate Distinct(s: seq<nat>) {
    forall i, j :: 0 <= i < j < |s| ==> s[i] != s[j]
  }

  /** order lists the Ready SubConns, each once. */
  ghost predicate Enumerates(order: seq<nat>, ready: set<nat>) {
    && (forall i :: 0 <= i < |order| ==> order[i] in ready)
    && (forall sc :: sc in ready ==> sc in order)
    && Distinct(order)
  }

  /** createNewSubConn, lines 82-95. */
  function NewWrapper(conn: nat, a: Address): Wrapper {
    Wrapper(conn, a, NodeID(a), AttrAs(a.initCap, DefaultInit), AttrAs(a.maxCap, DefaultMax), AttrAs(a.step, 0),
            AttrAs(a.rate, DefaultRate))
  }

  /** Lines 51-53: a known wrapper gets the new SubConn and the latest configuration, and keeps its capacity. */
  function Refreshed(w: Wrapper, conn: nat, a: Address): Wrapper {
    w.(conn := conn, step := AttrAs(a.step, 0), rate := AttrAs(a.rate, DefaultRate), max := AttrAs(a.maxCap, DefaultMax))
  }

  predicate Remembered(s: State, a: Address) {
    NodeID(a) in s.memory && s.memory[NodeID(a)] in s.wrappers && s.wrappers[s.memory[NodeID(a)]].addr.addr == a.addr
  }

  /** One iteration of Build's loop, lines 42-61, for a SubConn with a node identity. */
  function BuildOne(s: State, sc: nat): State
    requires sc in s.subConns
  {
    var a := s.subConns[sc].addr;
    if Remembered(s, a) then
      var w := s.memory[NodeID(a)];
      s.(wrappers := s.wrappers[w := Refreshed(s.wrappers[w], sc, a)])
    else
      s.(wrappers := s.wrappers[s.nextWrapper := NewWrapper(sc, a)],
         memory := s.memory[NodeID(a) := s.nextWrapper],
         nextWrapper := s.nextWrapper + 1)
  }

  function Used(s: State, sc: nat): nat
    requires sc in s.subConns
  {
    if Remembered(s, s.subConns[sc].addr) then s.memory[NodeID(s.subConns[sc].addr)] else s.nextWrapper
  }

  /** Build's loop over `order`, with the wrappers collected so far. */
  function BuildLoop(s: State, order: seq<nat>, active: seq<nat>): (r: (State, seq<nat>))
    requires forall i :: 0 <= i < |order| ==> order[i] in s.subConns
    ensures r.0 == s.(memory := r.0.memory, wrappers := r.0.wrappers, nextWrapper := r.0.nextWrapper)
    decreases |order|
  {
    if order == [] then (s, active)
    else if NodeID(s.subConns[order[0]].addr) == "" then BuildLoop(s, order[1..], active)
    else BuildLoop(BuildOne(s, order[0]), order[1..], active + [Used(s, order[0])])
  }

  /** updatePicker, lines 142-174. */
  function PublishStep(s: State, order: seq<nat>): State
    requires forall i :: 0 <= i < |order| ==> order[i] in s.subConns
  {
    if order == [] then s.(published := Failing)
    else
      var (built, active) := BuildLoop(s, order, []);
      built.(published := Picking(active))
  }

  function ResolvedState(s: State, addrs: seq<Address>, created: seq<bool>): State
    requires |addrs| == |created|
  {
    CreateStep(RemoveStep(s, Listed(addrs)), addrs, created)
  }

  // ----- handleSubConnStateChange

  /** Lines 228-251. */
  predicate ShouldUpdatePicker(before: Connectivity, after: Connectivity) {
    before != after && ((before.Ready? && !after.Ready?) || (!before.Ready? && after.Ready?) || after.Shutdown?)
  }

  /** Lines 194-219. */
  function RecordState(s: State, sc: nat, state: Connectivity): State
    requires sc in s.subConns
  {
    if state.Shutdown? then s.(subConns := s.subConns - {sc})
    else s.(subConns := s.subConns[sc := s.subConns[sc].(state := state)])
  }

  // ----- steps

  datatype Action =
    | Resolve(addrs: seq<Address>, created: seq<bool>, order: seq<nat>)
    | ResolverError
    | StateChange(sc: nat, state: Connectivity, order: seq<nat>)
    | Close
    | DoneLoad(t: nat, wrapper: nat)
    | DoneLook(t: nat)
    | DoneSwap(t: nat)

  ghost predicate Enabled(s: State, a: Action) {
    match a
    case Resolve(addrs, created, order) =>
      && !s.closed && |addrs| == |created|
      && Enumerates(order, ReadySet(ResolvedState(s, addrs, created).subConns))
    case ResolverError => true
    case StateChange(sc, state, order) =>
      sc in s.subConns && ShouldUpdatePicker(s.subConns[sc].state, state) ==>
        Enumerates(order, ReadySet(RecordState(s, sc, state).subConns))
    case Close => true
    case DoneLoad(t, w) => t !in s.callbacks && w in s.wrappers
    case DoneLook(t) => t in s.callbacks && s.callbacks[t].wrapper in s.wrappers && s.callbacks[t].max.None?
    case DoneSwap(t) => t in s.callbacks && s.callbacks[t].wrapper in s.wrappers && s.callbacks[t].max.Some?
  }

  ghost function ResolveStep(s: State, addrs: seq<Address>, created: seq<bool>, order: seq<nat>): State
    requires Enabled(s, Resolve(addrs, created, order))
  {
    PublishStep(ResolvedState(s, addrs, created), order)
  }

  ghost function StateChangeStep(s: State, sc: nat, state: Connectivity, order: seq<nat>): State
    requires Enabled(s, StateChange(sc, state, order))
  {
    if sc !in s.subConns then s
    else if ShouldUpdatePicker(s.subConns[sc].state, state) then PublishStep(RecordState(s, sc, state), order)
    else RecordState(s, sc, state)
  }

  function CloseStep(s: State): State {
    s.(shutdowns := s.shutdowns + s.subConns.Keys, subConns := map[], closed := true)
  }

  /** Line 122 of picker.go. */
  function DoneLoadStep(s: State, t: nat, w: nat): State
    requires w in s.wrappers
  {
    s.(callbacks := s.callbacks[t := Callback(w, s.wrappers[w].current, None)])
  }

  /** Lines 123-128: the maximum is a load of its own, and Build may change it in between; a callback that finds the
      capacity it saw at or above it returns. */
  function DoneLookStep(s: State, t: nat): State
    requires t in s.callbacks && s.callbacks[t].wrapper in s.wrappers
  {
    var c := s.callbacks[t];
    var max := s.wrappers[c.wrapper].max;
    s.(callbacks := if c.seen >= max then s.callbacks - {t} else s.callbacks[t := c.(max := Some(max))])
  }

  /** Lines 131-138; losing the race sends the callback back to its load. */
  function DoneSwapStep(s: State, t: nat): State
    requires t in s.callbacks && s.callbacks[t].wrapper in s.wrappers && s.callbacks[t].max.Some?
  {
    var c := s.callbacks[t];
    var w := s.wrappers[c.wrapper];
    s.(callbacks := s.callbacks - {t},
       wrappers := s.wrappers[c.wrapper :=
         if w.current == c.seen then w.(current := G.Grow(c.seen, c.max.value, w.step, w.rate)) else w])
  }

  ghost function Step(s: State, a: Action): State
    requires Enabled(s, a)
  {
    match a
    case Resolve(addrs, created, order) => ResolveStep(s, addrs, created, order)
    case ResolverError => if s.subConns == map[] then s.(published := Failing) else s
    case StateChange(sc, state, order) => StateChangeStep(s, sc, state, order)
    case Close => CloseStep(s)
    case DoneLoad(t, w) => DoneLoadStep(s, t, w)
    case DoneLook(t) => DoneLookStep(s, t)
    case DoneSwap(t) => DoneSwapStep(s, t)
  }

  ghost predicate CanRun(s: State, acts: seq<Action>)
    decreases |acts|
  {
    acts == [] || (Enabled(s, acts[0]) && CanRun(Step(s, acts[0]), acts[1..]))
  }

  ghost function Run(s: State, acts: seq<Action>): State
    requires CanRun(s, acts)
    decreases |acts|
  {
    if acts == [] then s else Run(Step(s, acts[0]), acts[1..])
  }

  // ----- invariants

  /** Connection identities are fresh, none of them is shut down, and no two SubConns serve one address. */
  ghost predicate ConnShape(subConns: map<nat, Info>, nextConn: nat) {
    && (forall sc :: sc in subConns ==> sc < nextConn && !subConns[sc].state.Shutdown?)
    && (forall a, b :: a in subConns && b in subConns && subConns[a].addr.addr == subConns[b].addr.addr ==> a == b)
  }

  /** Wrapper identities are fresh and the memory points at wrappers of the right node. */
  ghost predicate MemoryShape(memory: map<string, nat>, wrappers: map<nat, Wrapper>, nextWrapper: nat) {
    && (forall w :: w in wrappers ==> w < nextWrapper)
    && (forall n :: n in memory ==> memory[n] in wrappers && wrappers[memory[n]].id == n)
  }

  ghost predicate CallbackShape(callbacks: map<nat, Callback>, wrappers: map<nat, Wrapper>) {
    forall t :: t in callbacks ==> 
      callbacks[t].wrapper in wrappers && (callbacks[t].max.Some? ==> callbacks[t].seen < callbacks[t].max.value)
  }

  ghost predicate Shape(s: State) {
    && ConnShape(s.subConns, s.nextConn)
    && MemoryShape(s.memory, s.wrappers, s.nextWrapper)
    && CallbackShape(s.callbacks, s.wrappers)
  }

  /** The SubConns a picker over these wrappers can return, in its round-robin order. */
  ghost function Conns(wrappers: map<nat, Wrapper>, ws: seq<nat>): (r: seq<nat>)
    requires forall i :: 0 <= i < |ws| ==> ws[i] in wrappers
  {
    seq(|ws|, i requires 0 <= i < |ws| => wrappers[ws[i]].conn)
  }

  /** The address names a node: its nodeID attribute is set, and not to the empty string. */
  predicate Named(a: Address) {
    a.nodeID.Some? && a.nodeID.value != ""
  }

  /** The Ready SubConns whose address names a node. */
  ghost function Pickable(subConns: map<nat, Info>): set<nat> {
    set sc | sc in subConns && subConns[sc].state.Ready? && Named(subConns[sc].addr)
  }

  /** The published picker offers exactly the pickable SubConns, each once, and fails exactly when none is Ready. */
  ghost predicate Tracks(s: State) {
    match s.published
    case Picking(ws) =>
      && ReadySet(s.subConns) != {}
      && (forall i :: 0 <= i < |ws| ==> ws[i] in s.wrappers)
      && Enumerates(Conns(s.wrappers, ws), Pickable(s.subConns))
    case _ => ReadySet(s.subConns) == {}
  }
}
