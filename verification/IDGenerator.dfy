/**
 The distributed ID and port generator of pkg/generator/etcd.go: any number of processes draw values from etcd keys
 by reading a key and putting the next value on condition that the key's ModRevision has not changed.

 A transaction is sent, evaluated by etcd and answered in three separate steps. A caller whose Commit returns an
 error goes back to its loop while the transaction may still be evaluated at any later time, or never.
 */
module IDGenerator {
  import opened Common

  datatype Kv = Kv(value: int, modRevision: nat)

  /** Committed records the transaction's place in the order of successful commits on its key. */
  datatype Status = InFlight | Rejected | Committed(index: nat)

  datatype Txn = Txn(op: nat, key: string, expected: nat, value: int, status: Status)

  /** Where one call of generateValue stands. */
  datatype Stage =
    | Looping
    | Holding(value: int, modRevision: nat)
    | Awaiting(txn: nat)
    | Returned(result: int, txn: nat)
    | Missing
    | Cancelled

  datatype Op = Op(key: string, stage: Stage)

  /** `first` and `commits` are observations: the value a key was initialised with, and the transactions that
      changed it, in order. */
  datatype State = State(
    store: map<string, Kv>,
    revision: nat,
    ops: map<nat, Op>,
    txns: map<nat, Txn>,
    first: map<string, int>,
    commits: map<string, seq<nat>>)

  function Init(): State {
    State(map[], 0, map[], map[], map[], map[])
  }

  datatype Action =
    | Initialize(key: string, value: int)
    | Foreign
    | Begin(op: nat, key: string)
    | Cancel(op: nat)
    | Get(op: nat)
    | Send(op: nat, txn: nat)
    | Apply(txn: nat)
    | Receive(op: nat)
    | Lose(op: nat)

  predicate IsLooping(s: State, op: nat) {
    op in s.ops && s.ops[op].stage.Looping?
  }

  predicate Enabled(s: State, a: Action) {
    match a
    case Initialize(_, _) => true
    case Foreign => true
    case Begin(op, _) => op !in s.ops
    case Cancel(op) => IsLooping(s, op)
    case Get(op) => IsLooping(s, op)
    case Send(op, txn) => op in s.ops && s.ops[op].stage.Holding? && txn !in s.txns
    case Apply(txn) => txn in s.txns && s.txns[txn].status.InFlight?
    case Receive(op) =>
      && op in s.ops && s.ops[op].stage.Awaiting? && s.ops[op].stage.txn in s.txns
      && !s.txns[s.ops[op].stage.txn].status.InFlight?
    case Lose(op) => op in s.ops && s.ops[op].stage.Awaiting?
  }

  function Move(s: State, op: nat, stage: Stage): State
    requires op in s.ops
  {
    s.(ops := s.ops[op := s.ops[op].(stage := stage)])
  }

  /** initializeKey, lines 64-82: put only if CreateRevision is zero, that is, the key does not exist. */
  function InitializeStep(s: State, key: string, value: int): State {
    if key in s.store then s
    else s.(store := s.store[key := Kv(value, s.revision + 1)], revision := s.revision + 1,
            first := s.first[key := value])
  }

  /** Lines 104-121. */
  function GetStep(s: State, op: nat): State
    requires Enabled(s, Get(op))
  {
    var key := s.ops[op].key;
    if key in s.store then Move(s, op, Holding(s.store[key].value, s.store[key].modRevision)) else Move(s, op, Missing)
  }

  /** Lines 124-130: nextValue on condition that ModRevision is still the one read. */
  function SendStep(s: State, op: nat, txn: nat): State
    requires Enabled(s, Send(op, txn))
  {
    var h := s.ops[op].stage;
    Move(s, op, Awaiting(txn)).(
      txns := s.txns[txn := Txn(op, s.ops[op].key, h.modRevision, h.value + 1, InFlight)])
  }

  /** etcd evaluates the transaction. */
  function ApplyStep(s: State, txn: nat): State
    requires Enabled(s, Apply(txn))
  {
    var t := s.txns[txn];
    if t.key in s.store && s.store[t.key].modRevision == t.expected then
      s.(store := s.store[t.key := Kv(t.value, s.revision + 1)],
         revision := s.revision + 1,
         txns := s.txns[txn := t.(status := Committed(|At(s.commits, t.key)|))],
         commits := s.commits[t.key := At(s.commits, t.key) + [txn]])
    else
      s.(txns := s.txns[txn := t.(status := Rejected)])
  }

  /** Lines 140-148: return the value, or go round again. */
  function ReceiveStep(s: State, op: nat): State
    requires Enabled(s, Receive(op))
  {
    var t := s.txns[s.ops[op].stage.txn];
    if t.status.Committed? then Move(s, op, Returned(t.value, s.ops[op].stage.txn)) else Move(s, op, Looping)
  }

  function Step(s: State, a: Action): State
    requires Enabled(s, a)
  {
    match a
    case Initialize(key, value) => InitializeStep(s, key, value)
    case Foreign => s.(revision := s.revision + 1)
    case Begin(op, key) => s.(ops := s.ops[op := Op(key, Looping)])
    case Cancel(op) => Move(s, op, Cancelled)
    case Get(op) => GetStep(s, op)
    case Send(op, txn) => SendStep(s, op, txn)
    case Apply(txn) => ApplyStep(s, txn)
    case Receive(op) => ReceiveStep(s, op)
    case Lose(op) => Move(s, op, Looping)
  }

  predicate CanRun(s: State, acts: seq<Action>)
    decreases |acts|
  {
    acts == [] || (Enabled(s, acts[0]) && CanRun(Step(s, acts[0]), acts[1..]))
  }

  function Run(s: State, acts: seq<Action>): State
    requires CanRun(s, acts)
    decreases |acts|
  {
    if acts == [] then s else Run(Step(s, acts[0]), acts[1..])
  }

  // ----- the invariant

  /** A key's value is its first value plus the number of commits on it. */
  ghost predicate StoreInv(store: map<string, Kv>, revision: nat, first: map<string, int>,
                           commits: map<string, seq<nat>>) {
    && (forall k :: k in store ==>
          k in first && store[k].value == first[k] + |At(commits, k)| && store[k].modRevision <= revision)
    && (forall k :: k !in store ==> k !in first && At(commits, k) == [])
  }

  /** The i-th commit on a key wrote the first value plus i + 1, and records i. */
  ghost predicate CommitInv(txns: map<nat, Txn>, first: map<string, int>, commits: map<string, seq<nat>>) {
    && (forall k, i {:trigger At(commits, k)[i]} :: 0 <= i < |At(commits, k)| ==>
          && At(commits, k)[i] in txns
          && txns[At(commits, k)[i]].key == k
          && txns[At(commits, k)[i]].status == Committed(i))
    && (forall t :: t in txns && txns[t].status.Committed? ==>
          && txns[t].key in first
          && txns[t].status.index < |At(commits, txns[t].key)|
          && At(commits, txns[t].key)[txns[t].status.index] == t
          && txns[t].value == first[txns[t].key] + txns[t].status.index + 1)
  }

  /** A pending transaction would either still succeed, and writes the successor of the current value, or its value has
      been written by another one. The latter holds of every refused transaction. */
  ghost predicate PendingInv(txns: map<nat, Txn>, store: map<string, Kv>, revision: nat) {
    forall t :: t in txns && !txns[t].status.Committed? ==>
      && txns[t].key in store
      && txns[t].expected <= revision
      && (if txns[t].status.InFlight? && store[txns[t].key].modRevision == txns[t].expected
          then txns[t].value == store[txns[t].key].value + 1
          else txns[t].value <= store[txns[t].key].value)
  }

  /** No call reads or writes a value below the first one. */
  ghost predicate ReadInv(ops: map<nat, Op>, txns: map<nat, Txn>, first: map<string, int>) {
    && (forall o :: o in ops && ops[o].stage.Holding? ==>
          ops[o].key in first && ops[o].stage.value >= first[ops[o].key])
    && (forall t :: t in txns ==> txns[t].key in first && txns[t].value > first[txns[t].key])
  }

  ghost predicate OpInv(ops: map<nat, Op>, txns: map<nat, Txn>, store: map<string, Kv>, revision: nat) {
    && (forall o :: o in ops ==>
          match ops[o].stage
          case Holding(v, m) =>
            && ops[o].key in store && m <= revision
            && (if store[ops[o].key].modRevision == m then v == store[ops[o].key].value else v < store[ops[o].key].value)
          case Awaiting(t) => t in txns && txns[t].op == o && txns[t].key == ops[o].key
          case Returned(v, t) =>
            t in txns && txns[t].op == o && txns[t].key == ops[o].key && txns[t].status.Committed? && txns[t].value == v
          case _ => true)
    && (forall t :: t in txns ==> txns[t].op in ops)
  }

  ghost predicate Inv(s: State) {
    && StoreInv(s.store, s.revision, s.first, s.commits)
    && CommitInv(s.txns, s.first, s.commits)
    && PendingInv(s.txns, s.store, s.revision)
    && OpInv(s.ops, s.txns, s.store, s.revision)
    && ReadInv(s.ops, s.txns, s.first)
  }

  /** Adding or rejecting a transaction that has not committed leaves the commits as they were. */
  lemma CommitFrame(txns: map<nat, Txn>, txns': map<nat, Txn>, first: map<string, int>, commits: map<string, seq<nat>>,
                    txn: nat)
    requires CommitInv(txns, first, commits)
    requires txn in txns ==> txns[txn].status.InFlight?
    requires txn in txns' && txns' == txns[txn := txns'[txn]] && !txns'[txn].status.Committed?
    ensures CommitInv(txns', first, commits)
  {
    forall k, i | 0 <= i < |At(commits, k)|
      ensures At(commits, k)[i] in txns' && txns'[At(commits, k)[i]] == txns[At(commits, k)[i]]
    {
      assert txns[At(commits, k)[i]].status == Committed(i);
    }
  }

  lemma CommitFirst(txns: map<nat, Txn>, first: map<string, int>, first': map<string, int>,
                    commits: map<string, seq<nat>>, key: string, value: int)
    requires CommitInv(txns, first, commits) && At(commits, key) == []
    requires first' == first[key := value]
    ensures CommitInv(txns, first', commits)
  {
    assert forall t :: t in txns && txns[t].status.Committed? ==> txns[t].key != key;
  }

  lemma CommitNext(txns: map<nat, Txn>, txns': map<nat, Txn>, first: map<string, int>, commits: map<string, seq<nat>>,
                   commits': map<string, seq<nat>>, txn: nat)
    requires CommitInv(txns, first, commits)
    requires txn in txns && txns[txn].status.InFlight? && txns[txn].key in first
    requires txns[txn].value == first[txns[txn].key] + |At(commits, txns[txn].key)| + 1
    requires txns' == txns[txn := txns[txn].(status := Committed(|At(commits, txns[txn].key)|))]
    requires commits' == commits[txns[txn].key := At(commits, txns[txn].key) + [txn]]
    ensures CommitInv(txns', first, commits')
  {
    var key := txns[txn].key;
    forall k, i {:trigger At(commits', k)[i]} | 0 <= i < |At(commits', k)|
      ensures At(commits', k)[i] in txns' && txns'[At(commits', k)[i]].key == k
                && txns'[At(commits', k)[i]].status == Committed(i)
    {
      if k == key && i == |At(commits, k)| {
        assert At(commits', k)[i] == txn;
      } else {
        assert At(commits', k)[i] == At(commits, k)[i];
        assert txns[At(commits, k)[i]].status == Committed(i);
      }
    }
  }

  lemma InitializeKeeps(s: State, key: string, value: int)
    requires Inv(s) && key !in s.store
    ensures Inv(InitializeStep(s, key, value))
  {
    var s' := InitializeStep(s, key, value);
    hide CommitInv, PendingInv, OpInv, ReadInv;
    assert key !in s.first && At(s.commits, key) == [];
    assert StoreInv(s'.store, s'.revision, s'.first, s'.commits);
    hide StoreInv;
    CommitFirst(s.txns, s.first, s'.first, s.commits, key, value);
    NewKeyKeeps(s, s', key);
  }

  lemma NewKeyKeeps(s: State, s': State, key: string)
    requires PendingInv(s.txns, s.store, s.revision) && OpInv(s.ops, s.txns, s.store, s.revision)
    requires ReadInv(s.ops, s.txns, s.first) && key !in s.store && key !in s.first && key in s'.store && key in s'.first
    requires s'.store == s.store[key := s'.store[key]] && s'.first == s.first[key := s'.first[key]]
    requires s'.revision == s.revision + 1 && s'.ops == s.ops && s'.txns == s.txns
    ensures PendingInv(s'.txns, s'.store, s'.revision)
    ensures OpInv(s'.ops, s'.txns, s'.store, s'.revision) && ReadInv(s'.ops, s'.txns, s'.first)
  {
  }

  lemma MoveKeeps(s: State, op: nat, stage: Stage)
    requires Inv(s) && op in s.ops
    requires stage.Looping? || stage.Cancelled? || stage.Missing?
    ensures Inv(Move(s, op, stage))
  {
    hide StoreInv, CommitInv, PendingInv;
  }

  lemma GetKeeps(s: State, op: nat)
    requires Inv(s) && Enabled(s, Get(op))
    ensures Inv(GetStep(s, op))
  {
    hide CommitInv, PendingInv;
  }

  lemma SendKeeps(s: State, op: nat, txn: nat)
    requires Inv(s) && Enabled(s, Send(op, txn))
    ensures Inv(SendStep(s, op, txn))
  {
    var s' := SendStep(s, op, txn);
    hide CommitInv, StoreInv, PendingInv, OpInv, ReadInv;
    CommitFrame(s.txns, s'.txns, s.first, s.commits, txn);
    SendPending(s, op, txn);
    SendOps(s, op, txn);
  }

  lemma SendPending(s: State, op: nat, txn: nat)
    requires PendingInv(s.txns, s.store, s.revision) && OpInv(s.ops, s.txns, s.store, s.revision)
    requires Enabled(s, Send(op, txn))
    ensures var s' := SendStep(s, op, txn); PendingInv(s'.txns, s'.store, s'.revision)
  {
  }

  lemma SendOps(s: State, op: nat, txn: nat)
    requires OpInv(s.ops, s.txns, s.store, s.revision) && ReadInv(s.ops, s.txns, s.first) && Enabled(s, Send(op, txn))
    ensures var s' := SendStep(s, op, txn);
            OpInv(s'.ops, s'.txns, s'.store, s'.revision) && ReadInv(s'.ops, s'.txns, s'.first)
  {
  }

  lemma PendingCommit(txns: map<nat, Txn>, txns': map<nat, Txn>, store: map<string, Kv>, store': map<string, Kv>,
                      revision: nat, txn: nat)
    requires PendingInv(txns, store, revision)
    requires txn in txns && txn in txns' && txns' == txns[txn := txns'[txn]] && txns'[txn].status.Committed?
    requires txns[txn].key in store && txns[txn].value == store[txns[txn].key].value + 1
    requires store' == store[txns[txn].key := Kv(txns[txn].value, revision + 1)]
    ensures PendingInv(txns', store', revision + 1)
  {
  }

  lemma OpCommit(ops: map<nat, Op>, txns: map<nat, Txn>, txns': map<nat, Txn>, store: map<string, Kv>,
                 store': map<string, Kv>, revision: nat, revision': nat, txn: nat)
    requires OpInv(ops, txns, store, revision)
    requires txn in txns && txns[txn].status.InFlight?
    requires txn in txns' && txns' == txns[txn := txns[txn].(status := txns'[txn].status)]
    requires (store' == store && revision' == revision)
          || (&& txns[txn].key in store && txns[txn].value == store[txns[txn].key].value + 1
              && store' == store[txns[txn].key := Kv(txns[txn].value, revision')] && revision' == revision + 1)
    ensures OpInv(ops, txns', store', revision')
  {
  }

  lemma StoreCommit(store: map<string, Kv>, store': map<string, Kv>, revision: nat, first: map<string, int>,
                    commits: map<string, seq<nat>>, commits': map<string, seq<nat>>, key: string, txn: nat)
    requires StoreInv(store, revision, first, commits) && key in store
    requires store' == store[key := Kv(store[key].value + 1, revision + 1)]
    requires commits' == commits[key := At(commits, key) + [txn]]
    ensures StoreInv(store', revision + 1, first, commits')
    ensures key in first && store[key].value == first[key] + |At(commits, key)|
  {
  }

  lemma PendingAt(txns: map<nat, Txn>, store: map<string, Kv>, revision: nat, txn: nat)
    requires PendingInv(txns, store, revision) && txn in txns && txns[txn].status.InFlight?
    ensures txns[txn].key in store
    ensures store[txns[txn].key].modRevision == txns[txn].expected ==> txns[txn].value == store[txns[txn].key].value + 1
  {
  }

  lemma CommitKeeps(s: State, txn: nat)
    requires Inv(s) && Enabled(s, Apply(txn))
    requires s.txns[txn].key in s.store && s.store[s.txns[txn].key].modRevision == s.txns[txn].expected
    ensures Inv(ApplyStep(s, txn))
  {
    hide StoreInv, PendingInv, OpInv, CommitInv;
    var s' := ApplyStep(s, txn);
    var t := s.txns[txn];
    PendingAt(s.txns, s.store, s.revision, txn);
    StoreCommit(s.store, s'.store, s.revision, s.first, s.commits, s'.commits, t.key, txn);
    CommitNext(s.txns, s'.txns, s.first, s.commits, s'.commits, txn);
    PendingCommit(s.txns, s'.txns, s.store, s'.store, s.revision, txn);
    OpCommit(s.ops, s.txns, s'.txns, s.store, s'.store, s.revision, s'.revision, txn);
  }

  lemma RejectKeeps(s: State, txn: nat)
    requires Inv(s) && Enabled(s, Apply(txn))
    requires s.txns[txn].key !in s.store || s.store[s.txns[txn].key].modRevision != s.txns[txn].expected
    ensures Inv(ApplyStep(s, txn))
  {
    hide StoreInv, PendingInv, OpInv, CommitInv;
    var s' := ApplyStep(s, txn);
    CommitFrame(s.txns, s'.txns, s.first, s.commits, txn);
    PendingAt(s.txns, s.store, s.revision, txn);
    PendingReject(s.txns, s'.txns, s.store, s.revision, txn);
    OpCommit(s.ops, s.txns, s'.txns, s.store, s'.store, s.revision, s'.revision, txn);
  }

  lemma PendingReject(txns: map<nat, Txn>, txns': map<nat, Txn>, store: map<string, Kv>, revision: nat, txn: nat)
    requires PendingInv(txns, store, revision)
    requires txn in txns && txns[txn].status.InFlight? && txns' == txns[txn := txns[txn].(status := Rejected)]
    requires txns[txn].key in store && store[txns[txn].key].modRevision != txns[txn].expected
    ensures PendingInv(txns', store, revision)
  {
  }

  lemma ReceiveKeeps(s: State, op: nat)
    requires Inv(s) && Enabled(s, Receive(op))
    ensures Inv(ReceiveStep(s, op))
  {
    hide StoreInv, CommitInv, PendingInv;
  }

  lemma ForeignKeeps(s: State)
    requires Inv(s)
    ensures Inv(s.(revision := s.revision + 1))
  {
    hide CommitInv;
  }

  lemma BeginKeeps(s: State, op: nat, key: string)
    requires Inv(s) && op !in s.ops
    ensures Inv(s.(ops := s.ops[op := Op(key, Looping)]))
  {
    hide StoreInv, CommitInv, PendingInv;
  }

  lemma StepKeeps(s: State, a: Action)
    requires Inv(s) && Enabled(s, a)
    ensures Inv(Step(s, a))
  {
    hide Inv, GetStep, SendStep, ApplyStep, ReceiveStep, Move, InitializeStep;
    match a
    case Initialize(key, value) => KeyKeeps(s, key, value);
    case Foreign => ForeignKeeps(s);
    case Begin(op, key) => BeginKeeps(s, op, key);
    case Cancel(op) => MoveKeeps(s, op, Cancelled);
    case Get(op) => GetKeeps(s, op);
    case Send(op, txn) => SendKeeps(s, op, txn);
    case Apply(txn) =>
      if s.txns[txn].key in s.store && s.store[s.txns[txn].key].modRevision == s.txns[txn].expected {
        CommitKeeps(s, txn);
      } else {
        RejectKeeps(s, txn);
      }
    case Receive(op) => ReceiveKeeps(s, op);
    case Lose(op) => MoveKeeps(s, op, Looping);
  }

  lemma KeyKeeps(s: State, key: string, value: int)
    requires Inv(s)
    ensures Inv(InitializeStep(s, key, value))
  {
    hide Inv;
    if key !in s.store {
      InitializeKeeps(s, key, value);
    }
  }

  lemma {:induction false} RunKeeps(s: State, acts: seq<Action>)
    requires Inv(s) && CanRun(s, acts)
    ensures Inv(Run(s, acts))
    decreases |acts|
  {
    hide Inv, Step, Enabled;
    if acts != [] {
      StepKeeps(s, acts[0]);
      RunKeeps(Step(s, acts[0]), acts[1..]);
    }
  }

  lemma Reachable(acts: seq<Action>)
    requires CanRun(Init(), acts)
    ensures Inv(Run(Init(), acts))
  {
    assert Inv(Init());
    hide Inv, Step, Enabled;
    RunKeeps(Init(), acts);
  }

  // ----- what callers see

  ghost predicate Drew(s: State, op: nat, value: int) {
    op in s.ops && s.ops[op].stage.Returned? && s.ops[op].stage.result == value
  }

  /** The value a call returned is the first value of its key plus the position of the call's own transaction in the
      order of successful commits, counted from one. */
  lemma DrawnValue(s: State, op: nat, value: int)
    requires Inv(s) && Drew(s, op, value)
    ensures var key := s.ops[op].key;
            var t := s.ops[op].stage.txn;
            && t in s.txns && s.txns[t].status.Committed? && s.txns[t].op == op && key in s.first
            && s.txns[t].status.index < |At(s.commits, key)|
            && At(s.commits, key)[s.txns[t].status.index] == t
            && value == s.first[key] + s.txns[t].status.index + 1
  {
    hide StoreInv, PendingInv;
  }

  /** Uniqueness: in every reachable state, two calls on one key that have returned returned different values. */
  lemma DrawnValuesDiffer(acts: seq<Action>, op1: nat, op2: nat, v1: int, v2: int)
    requires CanRun(Init(), acts)
    requires var s := Run(Init(), acts);
             op1 != op2 && Drew(s, op1, v1) && Drew(s, op2, v2) && s.ops[op1].key == s.ops[op2].key
    ensures v1 != v2
  {
    Reachable(acts);
    var s := Run(Init(), acts);
    hide Inv;
    DrawnValue(s, op1, v1);
    DrawnValue(s, op2, v2);
  }

  /** Gaps come only from lost replies: in every reachable state the values put on a key are exactly the consecutive
      integers after the first, the i-th by one transaction of one call, and that value has been returned to nobody
      precisely when the call that sent the transaction has not received its reply. */
  lemma GapsAreLostReplies(acts: seq<Action>, key: string, i: nat)
    requires CanRun(Init(), acts)
    requires i < |At(Run(Init(), acts).commits, key)|
    ensures var s := Run(Init(), acts);
            var t := At(s.commits, key)[i];
            && t in s.txns && key in s.first && s.txns[t].value == s.first[key] + i + 1
            && ((exists op :: Drew(s, op, s.txns[t].value) && s.ops[op].key == key)
                <==> (s.txns[t].op in s.ops && s.ops[s.txns[t].op].stage == Returned(s.txns[t].value, t)))
  {
    Reachable(acts);
    var s := Run(Init(), acts);
    var t := At(s.commits, key)[i];
    assert t in s.txns && s.txns[t].key == key && s.txns[t].status == Committed(i);
    var owner := s.txns[t].op;
    hide StoreInv, PendingInv;
    forall op | Drew(s, op, s.txns[t].value) && s.ops[op].key == key
      ensures owner in s.ops && s.ops[owner].stage == Returned(s.txns[t].value, t)
    {
      DrawnValue(s, op, s.txns[t].value);
    }
    hide Inv, CommitInv, OpInv;
    if owner in s.ops && s.ops[owner].stage == Returned(s.txns[t].value, t) {
      OwnKey(s, owner, t);
      assert Drew(s, owner, s.txns[t].value);
    }
  }

  lemma OwnKey(s: State, op: nat, t: nat)
    requires Inv(s) && op in s.ops && s.ops[op].stage.Returned? && s.ops[op].stage.txn == t
    ensures t in s.txns && s.txns[t].key == s.ops[op].key
  {
    hide StoreInv, PendingInv, CommitInv;
  }

  // ----- no call ever turns a key back

  /** Values on a key at least this high, for the key itself and for everything call op may still put or return. */
  ghost predicate Above(s: State, key: string, base: int, op: nat) {
    && key in s.store && s.store[key].value >= base
    && (op in s.ops && s.ops[op].key == key ==>
          match s.ops[op].stage
          case Holding(v, _) => v >= base
          case Returned(v, _) => v > base
          case _ => true)
    && (forall t :: t in s.txns && s.txns[t].op == op && s.txns[t].key == key ==> s.txns[t].value > base)
  }

  lemma ReceiveStaysAbove(s: State, o: nat, key: string, base: int, op: nat)
    requires Inv(s) && Enabled(s, Receive(o)) && Above(s, key, base, op)
    ensures var s' := ReceiveStep(s, o);
            Above(s', key, base, op) && s'.first == s.first && s'.store == s.store
  {
    hide StoreInv, PendingInv, CommitInv;
  }

  lemma ApplyStaysAbove(s: State, t: nat, key: string, base: int, op: nat)
    requires PendingInv(s.txns, s.store, s.revision) && Enabled(s, Apply(t)) && Above(s, key, base, op)
    ensures var s' := ApplyStep(s, t);
            Above(s', key, base, op) && s'.first == s.first && s'.store[key].value >= s.store[key].value
  {
    PendingAt(s.txns, s.store, s.revision, t);
    hide PendingInv;
  }

  lemma OtherStaysAbove(s: State, a: Action, key: string, base: int, op: nat)
    requires Enabled(s, a) && Above(s, key, base, op) && !a.Apply? && !a.Receive?
    requires key in s.first
    ensures var s' := Step(s, a);
            Above(s', key, base, op) && key in s'.first && s'.first[key] == s.first[key]
            && s'.store[key].value >= s.store[key].value
  {
  }

  lemma StepStaysAbove(s: State, a: Action, key: string, base: int, op: nat)
    requires Inv(s) && Enabled(s, a) && Above(s, key, base, op)
    ensures Above(Step(s, a), key, base, op) && key in s.first && key in Step(s, a).first
    ensures Step(s, a).first[key] == s.first[key] && Step(s, a).store[key].value >= s.store[key].value
  {
    FirstOf(s, key);
    hide CommitInv, StoreInv, PendingInv, OpInv, ReadInv, ApplyStep, ReceiveStep, GetStep, SendStep, InitializeStep;
    match a
    case Apply(t) => ApplyStaysAbove(s, t, key, base, op);
    case Receive(o) => ReceiveStaysAbove(s, o, key, base, op);
    case _ => OtherStaysAbove(s, a, key, base, op);
  }

  lemma {:induction false} RunStaysAbove(s: State, acts: seq<Action>, key: string, base: int, op: nat)
    requires Inv(s) && CanRun(s, acts) && Above(s, key, base, op)
    ensures Above(Run(s, acts), key, base, op)
    ensures Inv(s) && key in s.first && key in Run(s, acts).first && Run(s, acts).first[key] == s.first[key]
    ensures Run(s, acts).store[key].value >= s.store[key].value
    decreases |acts|
  {
    FirstOf(s, key);
    if acts != [] {
      StepKeeps(s, acts[0]);
      StepStaysAbove(s, acts[0], key, base, op);
      hide Inv, Step, Enabled;
      RunStaysAbove(Step(s, acts[0]), acts[1..], key, base, op);
    }
  }

  lemma FirstOf(s: State, key: string)
    requires Inv(s) && key in s.store
    ensures key in s.first && s.store[key].value == s.first[key] + |At(s.commits, key)|
  {
    hide CommitInv, PendingInv, OpInv;
  }

  /** Once a key exists, no later initialisation changes its first value and no step lowers its value. */
  lemma InitializedOnce(s: State, acts: seq<Action>, key: string)
    requires Inv(s) && CanRun(s, acts) && key in s.store
    ensures key in s.first && key in Run(s, acts).first && Run(s, acts).first[key] == s.first[key]
    ensures key in Run(s, acts).store && Run(s, acts).store[key].value >= s.store[key].value
  {
    var op := UnusedOp(s);
    assert Above(s, key, s.store[key].value, op) by { hide Inv; }
    hide Inv;
    RunStaysAbove(s, acts, key, s.store[key].value, op);
  }

  lemma UnusedOp(s: State) returns (op: nat)
    requires Inv(s)
    ensures op !in s.ops && forall t :: t in s.txns ==> s.txns[t].op != op
  {
    hide StoreInv, CommitInv, PendingInv;
    op := FreshId(s.ops.Keys);
  }

  /** Values follow real time: a call that starts after another has returned draws a larger value. */
  lemma LaterCallsDrawMore(s: State, acts: seq<Action>, op1: nat, op2: nat, v1: int, v2: int)
    requires Inv(s) && CanRun(s, acts) && Drew(s, op1, v1) && op2 !in s.ops
    requires var s' := Run(s, acts);
             Drew(s', op2, v2) && s'.ops[op2].key == s.ops[op1].key
    ensures v1 < v2
  {
    var key := s.ops[op1].key;
    DrawnValue(s, op1, v1);
    CommittedKeyExists(s, key);
    FirstOf(s, key);
    assert forall t :: t in s.txns ==> s.txns[t].op in s.ops by { hide StoreInv, CommitInv, PendingInv; }
    hide Inv;
    assert Above(s, key, s.store[key].value, op2);
    RunStaysAbove(s, acts, key, s.store[key].value, op2);
  }

  lemma CommittedKeyExists(s: State, key: string)
    requires Inv(s) && At(s.commits, key) != []
    ensures key in s.store
  {
    hide CommitInv, PendingInv, OpInv;
  }

  /** A reply is handed on: if the awaited transaction committed, the call returns the value that was put; if it was
      rejected, the call goes round again. */
  lemma ReplyDecides(acts: seq<Action>, op: nat)
    requires CanRun(Init(), acts) && Enabled(Run(Init(), acts), Receive(op))
    ensures var s := Run(Init(), acts);
            var t := s.txns[s.ops[op].stage.txn];
            var s' := Step(s, Receive(op));
            && t.key in s.first
            && (t.status.Committed? ==> Drew(s', op, t.value) && t.value == s.first[t.key] + t.status.index + 1)
            && (t.status.Rejected? ==> IsLooping(s', op))
            && (Drew(s', op, t.value) <==> t.status.Committed?)
  {
    Reachable(acts);
    var s := Run(Init(), acts);
    hide StoreInv, PendingInv;
  }

  /** etcd accepts a transaction exactly when nobody has put a value on the key since it was read, so that the value
      it carries is still the next one. */
  lemma AcceptedIffStillNext(acts: seq<Action>, txn: nat)
    requires CanRun(Init(), acts) && Enabled(Run(Init(), acts), Apply(txn))
    ensures var s := Run(Init(), acts);
            var t := s.txns[txn];
            var s' := Step(s, Apply(txn));
            && t.key in s.store && t.key in s'.store && txn in s'.txns
            && (s'.txns[txn].status.Committed? <==> t.value == s.store[t.key].value + 1)
            && s'.store[t.key].value == s.store[t.key].value + (if s'.txns[txn].status.Committed? then 1 else 0)
            && (s'.txns[txn].status.Rejected? || s'.txns[txn].status.Committed?)
  {
    Reachable(acts);
    hide StoreInv, CommitInv, OpInv, ReadInv;
  }

  /** Lock freedom: a refused transaction has lost to another one, which put the very value it was to put. */
  lemma RefusedLostToAnother(acts: seq<Action>, txn: nat)
    requires CanRun(Init(), acts)
    requires txn in Run(Init(), acts).txns && Run(Init(), acts).txns[txn].status.Rejected?
    ensures var s := Run(Init(), acts);
            exists winner :: winner in s.txns && winner != txn && s.txns[winner].status.Committed?
              && s.txns[winner].key == s.txns[txn].key && s.txns[winner].value == s.txns[txn].value
  {
    Reachable(acts);
    var s := Run(Init(), acts);
    var t := s.txns[txn];
    RefusedAt(s, txn);
    hide StoreInv, PendingInv, OpInv, ReadInv;
    var i := t.value - s.first[t.key] - 1;
    var winner := At(s.commits, t.key)[i];
    assert winner in s.txns && s.txns[winner].status == Committed(i);
  }

  lemma RefusedAt(s: State, txn: nat)
    requires Inv(s) && txn in s.txns && s.txns[txn].status.Rejected?
    ensures var t := s.txns[txn];
            t.key in s.first && s.first[t.key] < t.value <= s.first[t.key] + |At(s.commits, t.key)|
  {
    hide CommitInv, OpInv;
  }

  /** A call that nobody disturbs draws the next value of its key. */
  lemma UndisturbedDraw(s: State, op: nat, txn: nat)
    requires Inv(s) && IsLooping(s, op) && s.ops[op].key in s.store && txn !in s.txns
    ensures var acts := [Get(op), Send(op, txn), Apply(txn), Receive(op)];
            var key := s.ops[op].key;
            && CanRun(s, acts)
            && Drew(Run(s, acts), op, s.store[key].value + 1)
            && key in Run(s, acts).store && Run(s, acts).store[key].value == s.store[key].value + 1
  {
    hide Inv;
    ReadAndSend(s, op, txn);
    var s2 := Step(Step(s, Get(op)), Send(op, txn));
    EvaluateAndReceive(s2, op, txn);
    hide Enabled, Step, IsLooping;
    Chain(s, Get(op), [Send(op, txn), Apply(txn), Receive(op)]);
    Chain(Step(s, Get(op)), Send(op, txn), [Apply(txn), Receive(op)]);
    Chain(s2, Apply(txn), [Receive(op)]);
    Chain(Step(s2, Apply(txn)), Receive(op), []);
  }

  lemma Chain(s: State, a: Action, acts: seq<Action>)
    requires Enabled(s, a)
    ensures CanRun(s, [a] + acts) <==> CanRun(Step(s, a), acts)
    ensures CanRun(s, [a] + acts) ==> Run(s, [a] + acts) == Run(Step(s, a), acts)
  {
    assert ([a] + acts)[1..] == acts;
    hide Enabled, Step;
  }

  lemma ReadAndSend(s: State, op: nat, txn: nat)
    requires IsLooping(s, op) && s.ops[op].key in s.store && txn !in s.txns
    ensures Enabled(s, Get(op)) && Enabled(Step(s, Get(op)), Send(op, txn))
    ensures var s' := Step(Step(s, Get(op)), Send(op, txn));
            var kv := s.store[s.ops[op].key];
            && op in s'.ops && s'.ops[op] == Op(s.ops[op].key, Awaiting(txn)) && s'.store == s.store
            && txn in s'.txns && s'.txns[txn] == Txn(op, s.ops[op].key, kv.modRevision, kv.value + 1, InFlight)
  {
  }

  lemma EvaluateAndReceive(s: State, op: nat, txn: nat)
    requires op in s.ops && s.ops[op].stage == Awaiting(txn) && Enabled(s, Apply(txn))
    requires var t := s.txns[txn];
             t.key in s.store && s.store[t.key].modRevision == t.expected
    ensures Enabled(Step(s, Apply(txn)), Receive(op))
    ensures var s' := Step(Step(s, Apply(txn)), Receive(op));
            var t := s.txns[txn];
            Drew(s', op, t.value) && t.key in s'.store && s'.store[t.key].value == t.value
  {
  }

  /** The first initialisation decides for good: whatever follows, further initialisations included, the key holds the
      given value plus the number of draws from it. */
  lemma FirstInitializationWins(s: State, key: string, value: int, acts: seq<Action>)
    requires Inv(s) && key !in s.store && CanRun(s, [Initialize(key, value)] + acts)
    ensures var s' := Run(s, [Initialize(key, value)] + acts);
            key in s'.store && s'.store[key].value == value + |At(s'.commits, key)|
  {
    Chain(s, Initialize(key, value), acts);
    var s1 := Step(s, Initialize(key, value));
    StepKeeps(s, Initialize(key, value));
    assert s1.first[key] == value && key in s1.store;
    hide Inv, Step, Enabled;
    InitializedOnce(s1, acts, key);
    RunKeeps(s1, acts);
    FirstOf(Run(s1, acts), key);
  }

  // ----- generateValue itself, with everybody else running in between

  /** One turn of the loop: what others do before the Get, between Get and Commit, and while the transaction is out;
      and whether the Get, or the reply to the Commit, fails. */
  datatype Turn = Turn(before: seq<Action>, getFails: bool, between: seq<Action>, during: seq<Action>, lost: bool)

  /** How a turn ended without a value: the Get failed, the reply got lost, etcd had not evaluated the transaction when
      the caller gave up on it, or etcd refused it. */
  datatype End = GetFailed | ReplyLost | Unanswered(txn: nat) | Refused(txn: nat)

  /** Nobody disturbs this turn: both requests go through, and all that happens meanwhile is that etcd evaluates txn. */
  predicate Clean(t: Turn, txn: nat) {
    t == Turn([], false, [], [Apply(txn)], false)
  }

  datatype Result = Value(value: int) | NotInitialized | ContextDone

  predicate ActsFor(a: Action, op: nat) {
    match a
    case Begin(o, _) => o == op
    case Cancel(o) => o == op
    case Get(o) => o == op
    case Send(o, _) => o == op
    case Receive(o) => o == op
    case Lose(o) => o == op
    case _ => false
  }

  class World {
    var s: State
    var nextTxn: nat

    ghost predicate Valid()
      reads this
    {
      Inv(s) && forall t :: t in s.txns ==> t < nextTxn
    }

    constructor ()
      ensures Valid() && s == Init()
    {
      s, nextTxn := Init(), 0;
    }

    /** Perform a, which must be possible. */
    method Do(a: Action)
      requires Valid() && Enabled(s, a)
      modifies this
      ensures Valid() && s == Step(old(s), a)
      ensures nextTxn == if a.Send? && a.txn >= old(nextTxn) then a.txn + 1 else old(nextTxn)
    {
      StepKeeps(s, a);
      StepTxns(s, a);
      hide Inv, Step, Enabled;
      nextTxn := if a.Send? && a.txn >= nextTxn then a.txn + 1 else nextTxn;
      s := Step(s, a);
    }

    /** Everybody but call op does whatever of `others` is possible. */
    method Interfere(others: seq<Action>, op: nat, ghost key: string, ghost base: int)
      requires Valid() && op in s.ops
      modifies this
      ensures Valid() && op in s.ops && s.ops[op] == old(s).ops[op]
      ensures Above(old(s), key, base, op) ==> Above(s, key, base, op)
      ensures others == [] ==> s == old(s) && nextTxn == old(nextTxn)
      ensures |others| == 1 && Enabled(old(s), others[0]) && !ActsFor(others[0], op) ==> s == Step(old(s), others[0])
      ensures Later(old(s), s) && Evaluated(others, old(s), s) && nextTxn >= old(nextTxn)
    {
      NothingYet(s);
      hide Inv, Above, Step, Enabled, Later, Evaluated;
      for i := 0 to |others|
        invariant Valid() && op in s.ops && s.ops[op] == old(s).ops[op]
        invariant i == 0 ==> s == old(s) && nextTxn == old(nextTxn)
        invariant i == 1 && Enabled(old(s), others[0]) && !ActsFor(others[0], op) ==> s == Step(old(s), others[0])
        invariant Later(old(s), s) && Evaluated(others[..i], old(s), s) && nextTxn >= old(nextTxn)
        invariant Above(old(s), key, base, op) ==> Above(s, key, base, op)
      {
        EvaluatesNext(others[..i], old(s), s, others[i]);
        assert others[..i + 1] == others[..i] + [others[i]];
        if Enabled(s, others[i]) && !ActsFor(others[i], op) {
          Undisturbed(s, others[i], op, key, base);
          StepIsLater(s, others[i]);
          LaterTwice(old(s), s, Step(s, others[i]));
          Do(others[i]);
        }
      }
      assert others[..|others|] == others;
    }

    /** The loop of generateValue. Under any interference, a value it returns is its own draw: the first value plus
        its position among the commits, larger than the key's value when the call started, and different from
        everything drawn by others. If its first turn is not disturbed it returns the next value. It ends without a
        value only if the key is missing, or the context is done, here when `turns` runs out, and then every turn has
        failed for the reason given in `ends`. */
    method GenerateValue(op: nat, key: string, turns: seq<Turn>) returns (r: Result, ghost ends: seq<End>)
      requires Valid() && op !in s.ops
      modifies this
      ensures Valid()
      ensures r.Value? ==> Drew(s, op, r.value) && s.ops[op].key == key
      ensures r.Value? && key in old(s).store ==> r.value > old(s).store[key].value
      ensures r.Value? ==> forall o :: o != op && o in s.ops && s.ops[o].key == key ==> !Drew(s, o, r.value)
      ensures r.NotInitialized? ==> key !in old(s).store && op in s.ops && s.ops[op].stage == Missing
      ensures turns != [] && turns[0].before == [] && !turns[0].getFails && key !in old(s).store ==> r == NotInitialized
      ensures r.ContextDone? ==> |ends| == |turns| && Accounts(ends, turns, op, s, old(nextTxn), nextTxn)
      ensures turns != [] && Clean(turns[0], old(nextTxn)) && key in old(s).store ==>
                r == Value(old(s).store[key].value + 1)
    {
      ghost var base := if key in s.store then s.store[key].value else 0;
      ghost var known := key in s.store;
      StartsAbove(s, op, key);
      hide Inv, Above, Step, Enabled, Explains, Later, Drew, Clean, Accounts, Sends;
      Start(op, key);
      ends := [];
      AccountsNone(turns, op, s, nextTxn);
      ghost var decided := turns != [] && if known then Clean(turns[0], nextTxn)
                                          else turns[0].before == [] && !turns[0].getFails;
      for i := 0 to |turns|
        invariant Valid() && op in s.ops && s.ops[op] == Op(key, Looping)
        invariant known ==> Above(s, key, base, op)
        invariant |ends| == i && Accounts(ends, turns, op, s, old(nextTxn), nextTxn)
        invariant i == 0 ==> s.store == old(s).store && nextTxn == old(nextTxn)
        invariant decided ==> i == 0
      {
        ghost var start, sent := s, nextTxn;
        var done, end := TakeTurn(op, key, turns[i], base, known);
        match done {
          case Some(v) =>
            return v, ends;
          case None =>
            AccountsNext(ends, turns, op, start, s, old(nextTxn), sent, nextTxn, end);
            ends := ends + [end];
        }
      }
      Finish(op, key);
      return ContextDone, ends;
    }

    /** One turn of the loop, with what happens meanwhile. None: the loop goes round again. */
    method TakeTurn(op: nat, key: string, t: Turn, ghost base: int, ghost known: bool)
      returns (done: Option<Result>, ghost end: End)
      requires Valid() && op in s.ops && s.ops[op] == Op(key, Looping) && (known ==> Above(s, key, base, op))
      modifies this
      ensures Valid() && op in s.ops && s.ops[op].key == key && (known ==> Above(s, key, base, op))
      ensures Later(old(s), s) && nextTxn >= old(nextTxn)
      ensures done.None? && Sends(end) ==> old(nextTxn) <= end.txn < nextTxn
      ensures done.None? ==> s.ops[op] == Op(key, Looping) && Explains(end, t, op, s)
      ensures done.Some? ==> !done.value.ContextDone?
      ensures done.Some? && done.value.Value? ==>
                && Drew(s, op, done.value.value) && (known ==> done.value.value > base)
                && forall o :: o != op && o in s.ops && s.ops[o].key == key ==> !Drew(s, o, done.value.value)
      ensures done.Some? && done.value.NotInitialized? ==> !known && s.ops[op].stage == Missing
      ensures t.before == [] && !t.getFails && key !in old(s).store ==> done == Some(NotInitialized)
      ensures Clean(t, old(nextTxn)) && key in old(s).store ==> done == Some(Value(old(s).store[key].value + 1))
    {
      hide Inv, Above, Step, Enabled, Drew, Later;
      ghost var s0 := s;
      Interfere(t.before, op, key, base);
      if t.getFails {
        return None, GetFailed;
      }
      ghost var s1 := s;
      var missing := Read(op, key, base, known);
      LaterTwice(s0, s1, s);
      if missing {
        return Some(NotInitialized), GetFailed;
      }
      ghost var s2 := s;
      Interfere(t.between, op, key, base);
      LaterTwice(s0, s2, s);
      ghost var s3 := s;
      var value;
      value, end := Exchange(op, key, t, base, known);
      LaterTwice(s0, s3, s);
      done := None;
      if value.Some? {
        Decided(s, op, key, value.value, base, known);
        done := Some(Value(value.value));
      }
    }

    /** The second half of a turn: send the transaction and await the reply. */
    method Exchange(op: nat, key: string, t: Turn, ghost base: int, ghost known: bool)
      returns (value: Option<int>, ghost end: End)
      requires Valid() && op in s.ops && s.ops[op].key == key && s.ops[op].stage.Holding?
      requires known ==> Above(s, key, base, op)
      requires !t.getFails
      modifies this
      ensures Valid() && op in s.ops && s.ops[op].key == key && (known ==> Above(s, key, base, op))
      ensures Later(old(s), s) && nextTxn >= old(nextTxn)
      ensures Sends(end) ==> old(nextTxn) <= end.txn < nextTxn
      ensures value.None? ==> s.ops[op] == Op(key, Looping) && Explains(end, t, op, s)
      ensures value.Some? ==> Drew(s, op, value.value)
      ensures (&& t.during == [Apply(old(nextTxn))] && !t.lost && key in old(s).store
               && old(s).ops[op].stage == Holding(old(s).store[key].value, old(s).store[key].modRevision)) ==>
                value == Some(old(s).store[key].value + 1)
    {
      hide Inv, Above, Step, Enabled, Drew, Later;
      ghost var s0 := s;
      var txn := Commit(op, key, base, known);
      ghost var s1 := s;
      CanApply(s1, op, txn);
      Interfere(t.during, op, key, base);
      LaterTwice(s0, s1, s);
      StaysOwned(s1, s, txn);
      ghost var s2 := s;
      if t.during == [Apply(txn)] && key in s1.store
         && s1.txns[txn].expected == s1.store[key].modRevision {
        Commits(s1, txn);
      }
      value, end := Answer(op, key, txn, t.lost, base, known);
      LaterTwice(s0, s2, s);
    }

    method Start(op: nat, key: string)
      requires Valid() && op !in s.ops
      modifies this
      ensures Valid() && s == old(s).(ops := old(s).ops[op := Op(key, Looping)]) && nextTxn == old(nextTxn)
    {
      hide Inv;
      Do(Begin(op, key));
    }

    method Finish(op: nat, key: string)
      requires Valid() && op in s.ops && s.ops[op] == Op(key, Looping)
      modifies this
      ensures Valid() && op in s.ops && s.ops[op].stage.Cancelled? && s.txns == old(s).txns && nextTxn == old(nextTxn)
    {
      hide Inv;
      Do(Cancel(op));
    }

    method Read(op: nat, key: string, ghost base: int, ghost known: bool) returns (missing: bool)
      requires Valid() && op in s.ops && s.ops[op] == Op(key, Looping) && (known ==> Above(s, key, base, op))
      modifies this
      ensures Valid() && op in s.ops && s.ops[op].key == key && (known ==> Above(s, key, base, op))
      ensures missing ==> !known && s.ops[op].stage == Missing
      ensures missing <==> key !in old(s).store
      ensures !missing ==> s.ops[op].stage.Holding?
      ensures !missing ==>
                s.ops[op].stage == Holding(old(s).store[key].value, old(s).store[key].modRevision)
      ensures s.store == old(s).store && nextTxn == old(nextTxn) && Later(old(s), s)
    {
      if known {
        StepStaysAbove(s, Get(op), key, base, op);
      }
      hide Inv;
      missing := key !in s.store;
      Do(Get(op));
    }

    method Commit(op: nat, key: string, ghost base: int, ghost known: bool) returns (txn: nat)
      requires Valid() && op in s.ops && s.ops[op].key == key && s.ops[op].stage.Holding?
      requires known ==> Above(s, key, base, op)
      modifies this
      ensures Valid() && op in s.ops && s.ops[op] == Op(key, Awaiting(txn)) && (known ==> Above(s, key, base, op))
      ensures var h := old(s).ops[op].stage;
              s.txns == old(s).txns[txn := Txn(op, key, h.modRevision, h.value + 1, InFlight)]
      ensures nextTxn == txn + 1
      ensures txn == old(nextTxn) && txn !in old(s).txns && s.store == old(s).store && Later(old(s), s)
    {
      txn := nextTxn;
      if known {
        StepStaysAbove(s, Send(op, txn), key, base, op);
      }
      hide Inv;
      Do(Send(op, txn));
    }

    method Answer(op: nat, key: string, txn: nat, lost: bool, ghost base: int, ghost known: bool)
      returns (value: Option<int>, ghost end: End)
      requires Valid() && op in s.ops && s.ops[op] == Op(key, Awaiting(txn)) && (known ==> Above(s, key, base, op))
      modifies this
      ensures Valid() && op in s.ops && s.ops[op].key == key && (known ==> Above(s, key, base, op))
      ensures txn in old(s).txns && s.txns == old(s).txns && Later(old(s), s) && nextTxn == old(nextTxn)
      ensures value.Some? ==> Drew(s, op, value.value)
      ensures value.None? ==> s.ops[op] == Op(key, Looping)
      ensures value == if !lost && old(s).txns[txn].status.Committed? then Some(old(s).txns[txn].value) else None
      ensures end == if lost then ReplyLost else if old(s).txns[txn].status.InFlight? then Unanswered(txn) else Refused(txn)
    {
      AwaitedExists(s, op);
      end := if lost then ReplyLost else if s.txns[txn].status.InFlight? then Unanswered(txn) else Refused(txn);
      var a := if lost || s.txns[txn].status.InFlight? then Lose(op) else Receive(op);
      if known {
        StepStaysAbove(s, a, key, base, op);
      }
      hide Inv;
      Do(a);
      value := match s.ops[op].stage case Returned(v, _) => Some(v) case _ => None;
    }
  }

  predicate Sends(e: End) {
    e.Unanswered? || e.Refused?
  }

  /** Turn t of call op really failed that way: the reply is missing because etcd did not evaluate the transaction
      meanwhile, and a refused transaction stays refused. */
  ghost predicate Explains(e: End, t: Turn, op: nat, s: State) {
    match e
    case GetFailed => t.getFails
    case ReplyLost => !t.getFails && t.lost
    case Unanswered(txn) => !t.getFails && !t.lost && txn in s.txns && s.txns[txn].op == op && Apply(txn) !in t.during
    case Refused(txn) =>
      !t.getFails && !t.lost && txn in s.txns && s.txns[txn].op == op && s.txns[txn].status.Rejected?
  }

  /** Each turn so far failed for its reason, a turn that sent a transaction by one of its own, sent after those of the
      turns before. */
  ghost predicate Accounts(ends: seq<End>, turns: seq<Turn>, op: nat, s: State, from: nat, to: nat) {
    && |ends| <= |turns| && from <= to
    && (forall i :: 0 <= i < |ends| ==> Explains(ends[i], turns[i], op, s))
    && (forall i :: 0 <= i < |ends| && Sends(ends[i]) ==> from <= ends[i].txn < to)
    && (forall i, j :: 0 <= i < j < |ends| && Sends(ends[i]) && Sends(ends[j]) ==> ends[i].txn < ends[j].txn)
  }

  lemma AccountsNone(turns: seq<Turn>, op: nat, s: State, from: nat)
    ensures Accounts([], turns, op, s, from, from)
  {
  }

  lemma AccountsNext(ends: seq<End>, turns: seq<Turn>, op: nat, s: State, s': State, from: nat, to: nat, to': nat,
                     end: End)
    requires Accounts(ends, turns, op, s, from, to) && |ends| < |turns| && Later(s, s')
    requires Explains(end, turns[|ends|], op, s') && to <= to' && (Sends(end) ==> to <= end.txn < to')
    ensures Accounts(ends + [end], turns, op, s', from, to')
  {
    hide Sends;
    var ends' := ends + [end];
    forall i | 0 <= i < |ends'| ensures Explains(ends'[i], turns[i], op, s') {
      assert i < |ends| ==> Explains(ends[i], turns[i], op, s);
    }
  }

  /** Transactions stay, with their owner, and once evaluated they never change. */
  ghost predicate Later(s: State, s': State) {
    forall t :: t in s.txns ==>
      t in s'.txns && s'.txns[t].op == s.txns[t].op && (!s.txns[t].status.InFlight? ==> s'.txns[t] == s.txns[t])
  }

  /** etcd has got round to every transaction it was to evaluate. */
  ghost predicate Evaluated(others: seq<Action>, s: State, s': State) {
    forall t :: t in s.txns && Apply(t) in others ==> t in s'.txns && !s'.txns[t].status.InFlight?
  }

  lemma NothingYet(s: State)
    ensures Later(s, s) && Evaluated([], s, s)
  {
  }

  lemma EvaluatesNext(others: seq<Action>, s: State, s': State, a: Action)
    requires Evaluated(others, s, s') && Later(s, s')
    ensures Enabled(s', a) ==> Evaluated(others + [a], s, Step(s', a))
    ensures !Enabled(s', a) || !a.Apply? ==> Evaluated(others + [a], s, s')
  {
    if Enabled(s', a) {
      StepIsLater(s', a);
    }
  }

  lemma StepTxns(s: State, a: Action)
    requires Enabled(s, a)
    ensures forall t :: t in Step(s, a).txns ==> t in s.txns || (a.Send? && a.txn == t)
  {
  }

  lemma StepIsLater(s: State, a: Action)
    requires Enabled(s, a)
    ensures Later(s, Step(s, a))
  {
  }

  lemma StaysOwned(s: State, s': State, txn: nat)
    requires Later(s, s') && txn in s.txns
    ensures txn in s'.txns && s'.txns[txn].op == s.txns[txn].op
  {
  }

  lemma LaterTwice(s: State, s': State, s'': State)
    requires Later(s, s') && Later(s', s'')
    ensures Later(s, s'')
  {
  }

  /** A transaction sent right after its Get, on the revision just read, is accepted. */
  lemma CanApply(s: State, op: nat, txn: nat)
    requires txn in s.txns && s.txns[txn].status.InFlight?
    ensures Enabled(s, Apply(txn)) && !ActsFor(Apply(txn), op)
  {
  }

  lemma Commits(s: State, txn: nat)
    requires Enabled(s, Apply(txn))
    requires s.txns[txn].key in s.store && s.store[s.txns[txn].key].modRevision == s.txns[txn].expected
    ensures var s' := Step(s, Apply(txn));
            txn in s'.txns && s'.txns[txn].status.Committed? && s'.txns[txn].value == s.txns[txn].value
  {
  }

  lemma AwaitedExists(s: State, op: nat)
    requires Inv(s) && op in s.ops && s.ops[op].stage.Awaiting?
    ensures s.ops[op].stage.txn in s.txns
  {
    hide StoreInv, CommitInv, PendingInv;
  }

  lemma Undisturbed(s: State, a: Action, op: nat, key: string, base: int)
    requires Inv(s) && Enabled(s, a) && !ActsFor(a, op) && op in s.ops
    ensures op in Step(s, a).ops && Step(s, a).ops[op] == s.ops[op]
    ensures Above(s, key, base, op) ==> Above(Step(s, a), key, base, op)
  {
    if Above(s, key, base, op) {
      StepStaysAbove(s, a, key, base, op);
    }
    hide Inv, Above;
  }

  lemma StartsAbove(s: State, op: nat, key: string)
    requires Inv(s) && op !in s.ops
    ensures key in s.store ==> Above(s.(ops := s.ops[op := Op(key, Looping)]), key, s.store[key].value, op)
  {
    hide StoreInv, CommitInv, PendingInv;
  }

  lemma AboveReturned(s: State, op: nat, key: string, base: int, known: bool)
    requires known ==> Above(s, key, base, op)
    requires op in s.ops && s.ops[op].key == key && s.ops[op].stage.Returned?
    ensures known ==> s.ops[op].stage.result > base
  {
  }

  lemma Decided(s: State, op: nat, key: string, v: int, base: int, known: bool)
    requires Inv(s) && Drew(s, op, v) && s.ops[op].key == key && (known ==> Above(s, key, base, op))
    ensures known ==> v > base
    ensures forall o :: o != op && o in s.ops && s.ops[o].key == key ==> !Drew(s, o, v)
  {
    AboveReturned(s, op, key, base, known);
    OwnDraw(s, op, v);
  }

  lemma OwnDraw(s: State, op: nat, v: int)
    requires Inv(s) && Drew(s, op, v)
    ensures forall o :: o != op && o in s.ops && s.ops[o].key == s.ops[op].key ==> !Drew(s, o, v)
  {
    hide Inv;
    forall o | o != op && o in s.ops && s.ops[o].key == s.ops[op].key ensures !Drew(s, o, v) {
      if Drew(s, o, v) {
        DrawnValue(s, o, v);
        DrawnValue(s, op, v);
      }
    }
  }
}
