/**
 One WebSocket connection: Link with its two goroutines (internal/link/link.go lines 151-326). Senders, the loops, the
 consumer of receiveCh and Close interleave; a select with several ready cases may take any of them.

 A payload is a Go byte slice: None is nil, which callers may pass to Send.
 */
module LinkFifo {
  import opened Common

  type Payload = Option<seq<int>>

  // ----- Link

  datatype Sender = Waiting | Holding(payload: Payload) | SenderGone
  datatype Receiver = Reading | Delivering(payload: Payload) | Leaving | ReceiverGone

  /** `accepted` are the payloads that entered sendCh and `taken` how many of them left it; `written` went to the
      connection; `read` came from it and `delivered` entered receiveCh. `closes` counts close(receiveCh). */
  datatype State = State(
    accepted: seq<Payload>, taken: nat, written: seq<Payload>, sender: Sender,
    read: seq<Payload>, delivered: seq<Payload>, consumed: nat, receiver: Receiver,
    cancelled: bool, closes: nat)

  function Init(): State {
    State([], 0, [], Waiting, [], [], 0, Reading, false, 0)
  }

  datatype Action =
    | Accept(payload: Payload)     // Send: the channel case of the select
    | Take                         // sendLoop receives a payload
    | Write                        // the write succeeds
    | WriteTimeout                 // a timed-out write that the retry strategy lets go on
    | GiveUp                       // a write that is not retried, or the context ended meanwhile
    | SenderStops                  // sendLoop sees the context done
    | Read(payload: Payload)
    | ReadTimeout
    | Deliver
    | ReceiverStops                // receiveLoop sees the context done, or a read error that is not a timeout
    | CloseReceive                 // the deferred close(receiveCh)
    | Consume
    | Cancel                       // Close, or the end of the parent context

  predicate Enabled(s: State, a: Action, sendBuffer: nat, receiveBuffer: nat) {
    match a
    case Accept(_) => |s.accepted| < s.taken + sendBuffer
    case Take => s.sender.Waiting? && s.taken < |s.accepted|
    case Write => s.sender.Holding?
    case WriteTimeout => s.sender.Holding?
    case GiveUp => s.sender.Holding?
    case SenderStops => s.sender.Waiting? && s.cancelled
    case Read(_) => s.receiver.Reading?
    case ReadTimeout => s.receiver.Reading?
    case Deliver => s.receiver.Delivering? && |s.delivered| < s.consumed + receiveBuffer
    case ReceiverStops => s.receiver.Reading? || (s.receiver.Delivering? && s.cancelled)
    case CloseReceive => s.receiver.Leaving?
    case Consume => s.consumed < |s.delivered|
    case Cancel => true
  }

  function Step(s: State, a: Action): State {
    match a
    case Accept(p) => s.(accepted := s.accepted + [p])
    case Take => if s.taken < |s.accepted| then s.(sender := Holding(s.accepted[s.taken]), taken := s.taken + 1) else s
    case Write => if s.sender.Holding? then s.(written := s.written + [s.sender.payload], sender := Waiting) else s
    case WriteTimeout => s
    case GiveUp => s.(sender := SenderGone, cancelled := true)
    case SenderStops => s.(sender := SenderGone)
    case Read(p) => s.(read := s.read + [p], receiver := Delivering(p))
    case ReadTimeout => s
    case Deliver =>
      if s.receiver.Delivering? then s.(delivered := s.delivered + [s.receiver.payload], receiver := Reading) else s
    case ReceiverStops => s.(receiver := Leaving)
    case CloseReceive => s.(receiver := ReceiverGone, closes := s.closes + 1, cancelled := true)
    case Consume => s.(consumed := s.consumed + 1)
    case Cancel => s.(cancelled := true)
  }

  predicate CanRun(s: State, acts: seq<Action>, sendBuffer: nat, receiveBuffer: nat)
    decreases |acts|
  {
    acts == []
    || (Enabled(s, acts[0], sendBuffer, receiveBuffer) && CanRun(Step(s, acts[0]), acts[1..], sendBuffer, receiveBuffer))
  }

  function Run(s: State, acts: seq<Action>): State
    decreases |acts|
  {
    if acts == [] then s else Run(Step(s, acts[0]), acts[1..])
  }

  /** What sendLoop holds in its hands, and what has gone through it. */
  ghost predicate Outbound(s: State, sendBuffer: nat) {
    && s.taken <= |s.accepted| <= s.taken + sendBuffer
    && (match s.sender
        case Waiting => s.written == s.accepted[..s.taken]
        case Holding(p) => s.taken >= 1 && s.written == s.accepted[..s.taken - 1] && p == s.accepted[s.taken - 1]
        case SenderGone => s.written <= s.accepted[..s.taken] && |s.written| + 1 >= s.taken)
  }

  /** The same of receiveLoop. */
  ghost predicate Inbound(s: State, receiveBuffer: nat) {
    && s.consumed <= |s.delivered| <= s.consumed + receiveBuffer
    && (match s.receiver
        case Reading => s.delivered == s.read
        case Delivering(p) => s.read == s.delivered + [p]
        case _ => s.delivered <= s.read && |s.delivered| + 1 >= |s.read|)
    && s.closes == (if s.receiver.ReceiverGone? then 1 else 0)
  }

  ghost predicate InOrder(s: State, sendBuffer: nat, receiveBuffer: nat) {
    Outbound(s, sendBuffer) && Inbound(s, receiveBuffer)
  }

  lemma StepOutbound(s: State, a: Action, sendBuffer: nat, receiveBuffer: nat)
    requires Outbound(s, sendBuffer) && Enabled(s, a, sendBuffer, receiveBuffer)
    ensures Outbound(Step(s, a), sendBuffer)
    ensures s.accepted <= Step(s, a).accepted && s.written <= Step(s, a).written
  {
    var s' := Step(s, a);
    match a {
      case Accept(p) => assert s'.accepted[..s.taken] == s.accepted[..s.taken];
      case Take => assert s.accepted[..s.taken + 1] == s.accepted[..s.taken] + [s.accepted[s.taken]];
      case Write => assert s.accepted[..s.taken] == s.accepted[..s.taken - 1] + [s.accepted[s.taken - 1]];
      case _ =>
    }
  }

  lemma StepInbound(s: State, a: Action, sendBuffer: nat, receiveBuffer: nat)
    requires Inbound(s, receiveBuffer) && Enabled(s, a, sendBuffer, receiveBuffer)
    ensures Inbound(Step(s, a), receiveBuffer)
    ensures s.closes >= 1 ==> Step(s, a).delivered == s.delivered && Step(s, a).read == s.read
  {
  }

  lemma StepInOrder(s: State, a: Action, sendBuffer: nat, receiveBuffer: nat)
    requires InOrder(s, sendBuffer, receiveBuffer) && Enabled(s, a, sendBuffer, receiveBuffer)
    ensures InOrder(Step(s, a), sendBuffer, receiveBuffer)
    ensures s.closes >= 1 ==> Step(s, a).delivered == s.delivered && Step(s, a).read == s.read
    ensures s.accepted <= Step(s, a).accepted && s.written <= Step(s, a).written
  {
    hide Outbound, Inbound;
    StepOutbound(s, a, sendBuffer, receiveBuffer);
    StepInbound(s, a, sendBuffer, receiveBuffer);
  }

  lemma {:induction false} RunInOrder(s: State, acts: seq<Action>, sendBuffer: nat, receiveBuffer: nat)
    requires InOrder(s, sendBuffer, receiveBuffer) && CanRun(s, acts, sendBuffer, receiveBuffer)
    ensures InOrder(Run(s, acts), sendBuffer, receiveBuffer)
    decreases |acts|
  {
    if acts != [] {
      StepInOrder(s, acts[0], sendBuffer, receiveBuffer);
      RunInOrder(Step(s, acts[0]), acts[1..], sendBuffer, receiveBuffer);
    }
  }

  /** Over every run of a Link: what was written is a prefix of what was accepted, and misses at most the payload in
      hand of what left the buffer; what was delivered is a prefix of what was read, and misses at most one; the
      buffers are never exceeded; receiveCh is closed at most once. */
  lemma LinkIsFifo(acts: seq<Action>, sendBuffer: nat, receiveBuffer: nat)
    requires CanRun(Init(), acts, sendBuffer, receiveBuffer)
    ensures var s := Run(Init(), acts);
            && s.written <= s.accepted && s.taken <= |s.accepted| && |s.written| <= s.taken <= |s.written| + 1
            && |s.accepted| - s.taken <= sendBuffer
            && s.delivered <= s.read && |s.read| <= |s.delivered| + 1
            && 0 <= |s.delivered| - s.consumed <= receiveBuffer
            && s.closes <= 1
  {
    RunInOrder(Init(), acts, sendBuffer, receiveBuffer);
  }

  /** After receiveCh is closed nothing is sent on it, and it is not closed again. */
  lemma {:induction false} ClosedReceiveStaysClosed(s: State, acts: seq<Action>, sendBuffer: nat, receiveBuffer: nat)
    requires InOrder(s, sendBuffer, receiveBuffer) && CanRun(s, acts, sendBuffer, receiveBuffer) && s.closes == 1
    ensures Run(s, acts).delivered == s.delivered && Run(s, acts).closes == 1
    decreases |acts|
  {
    if acts != [] {
      StepInOrder(s, acts[0], sendBuffer, receiveBuffer);
      ClosedReceiveStaysClosed(Step(s, acts[0]), acts[1..], sendBuffer, receiveBuffer);
    }
  }

  /** As long as sendLoop runs, everything accepted so far can still be written, in order and complete, by steps of its
      own, whatever the receiving side does. */
  lemma {:induction false} AcceptedCanBeWritten(s: State, sendBuffer: nat, receiveBuffer: nat) returns (acts: seq<Action>)
    requires InOrder(s, sendBuffer, receiveBuffer) && !s.sender.SenderGone?
    ensures CanRun(s, acts, sendBuffer, receiveBuffer) && forall a :: a in acts ==> a == Take || a == Write
    ensures Run(s, acts) == s.(written := s.accepted, taken := |s.accepted|, sender := Waiting)
    ensures |acts| == 2 * (|s.accepted| - s.taken) + (if s.sender.Holding? then 1 else 0)
    decreases |s.accepted| - s.taken, s.sender.Holding?
  {
    if s.sender.Waiting? && s.taken == |s.accepted| {
      acts := [];
      assert s.accepted[..s.taken] == s.accepted;
    } else {
      var a := if s.sender.Holding? then Write else Take;
      StepInOrder(s, a, sendBuffer, receiveBuffer);
      var rest := AcceptedCanBeWritten(Step(s, a), sendBuffer, receiveBuffer);
      acts := [a] + rest;
      assert acts[0] == a && acts[1..] == rest;
    }
  }

  /** A message that receiveLoop reads can be delivered, at once or after the handler has taken an earlier one, and the
      loop then reads on. */
  lemma ReadCanBeDelivered(s: State, p: Payload, sendBuffer: nat, receiveBuffer: nat) returns (acts: seq<Action>)
    requires InOrder(s, sendBuffer, receiveBuffer) && s.receiver.Reading? && receiveBuffer > 0
    ensures acts == [Read(p), Deliver] || acts == [Read(p), Consume, Deliver]
    ensures CanRun(s, acts, sendBuffer, receiveBuffer)
    ensures var s' := Run(s, acts);
            s'.delivered == s.read + [p] && s'.read == s'.delivered && s'.receiver == Reading && s'.cancelled == s.cancelled
  {
    var s1 := Step(s, Read(p));
    if |s.delivered| < s.consumed + receiveBuffer {
      acts := [Read(p), Deliver];
      DeliversNext(s1, sendBuffer, receiveBuffer);
      assert acts[1..] == [Deliver];
    } else {
      acts := [Read(p), Consume, Deliver];
      var s2 := Step(s1, Consume);
      DeliversNext(s2, sendBuffer, receiveBuffer);
      assert acts[1..] == [Consume, Deliver] && acts[1..][1..] == [Deliver];
    }
  }

  lemma DeliversNext(s: State, sendBuffer: nat, receiveBuffer: nat)
    requires s.receiver.Delivering? && |s.delivered| < s.consumed + receiveBuffer
    ensures CanRun(s, [Deliver], sendBuffer, receiveBuffer) && Run(s, [Deliver]) == Step(s, Deliver)
  {
    assert [Deliver][1..] == [];
  }

  predicate OneGone(s: State) {
    s.sender.SenderGone? || s.receiver.ReceiverGone?
  }

  lemma {:induction false} RunCancelled(s: State, acts: seq<Action>, sendBuffer: nat, receiveBuffer: nat)
    requires CanRun(s, acts, sendBuffer, receiveBuffer) && (OneGone(s) ==> s.cancelled)
    ensures Run(s, acts).cancelled <==> s.cancelled || Cancel in acts || OneGone(Run(s, acts))
    ensures OneGone(s) ==> OneGone(Run(s, acts))
    decreases |acts|
  {
    if acts != [] {
      var s1 := Step(s, acts[0]);
      assert OneGone(s1) ==> s1.cancelled;
      assert s1.cancelled <==> s.cancelled || acts[0] == Cancel || OneGone(s1);
      assert acts == [acts[0]] + acts[1..];
      RunCancelled(s1, acts[1..], sendBuffer, receiveBuffer);
    }
  }

  /** Nothing else stops them: as long as nobody closes the link, no write is given up and no read fails, both go on. */
  lemma {:induction false} GoesOnUnlessStopped(s: State, acts: seq<Action>, sendBuffer: nat, receiveBuffer: nat)
    requires CanRun(s, acts, sendBuffer, receiveBuffer) && !s.cancelled && !s.sender.SenderGone?
    requires s.receiver.Reading? || s.receiver.Delivering?
    requires Cancel !in acts && GiveUp !in acts && ReceiverStops !in acts
    ensures var s' := Run(s, acts);
            !s'.cancelled && !s'.sender.SenderGone? && (s'.receiver.Reading? || s'.receiver.Delivering?)
    decreases |acts|
  {
    if acts != [] {
      assert acts == [acts[0]] + acts[1..] && acts[0] in acts;
      GoesOnUnlessStopped(Step(s, acts[0]), acts[1..], sendBuffer, receiveBuffer);
    }
  }

  /** The two goroutines end together: over every run the context is done exactly if somebody has closed the link or one
      of the goroutines has gone, and then CancelledLinkCloses takes the other one along. */
  lemma CancelledIff(acts: seq<Action>, sendBuffer: nat, receiveBuffer: nat)
    requires CanRun(Init(), acts, sendBuffer, receiveBuffer)
    ensures var s := Run(Init(), acts);
            s.cancelled <==> Cancel in acts || s.sender.SenderGone? || s.receiver.ReceiverGone?
  {
    RunCancelled(Init(), acts, sendBuffer, receiveBuffer);
  }

  /** What is left for the two goroutines to do once the context is done. */
  function Leftover(s: State): nat {
    (if s.sender.SenderGone? then 0 else 1)
    + match s.receiver
      case Reading => 2
      case Delivering(_) => 2
      case Leaving => 1
      case ReceiverGone => 0
  }

  /** Once the context is done both goroutines end, and receiveCh is closed, within three steps of their own: no sender,
      consumer or full buffer can hold them up. */
  lemma {:induction false} CancelledLinkCloses(s: State, sendBuffer: nat, receiveBuffer: nat) returns (acts: seq<Action>)
    requires InOrder(s, sendBuffer, receiveBuffer) && s.cancelled
    ensures |acts| == Leftover(s) <= 3
    ensures forall i :: 0 <= i < |acts| ==>
              acts[i].GiveUp? || acts[i].SenderStops? || acts[i].ReceiverStops? || acts[i].CloseReceive?
    ensures CanRun(s, acts, sendBuffer, receiveBuffer)
    ensures var s' := Run(s, acts);
            s'.sender.SenderGone? && s'.receiver.ReceiverGone? && s'.closes == 1 && s'.delivered == s.delivered
    decreases Leftover(s)
  {
    if Leftover(s) == 0 {
      acts := [];
    } else {
      var a := if s.sender.Holding? then GiveUp else if s.sender.Waiting? then SenderStops
               else if s.receiver.Leaving? then CloseReceive else ReceiverStops;
      StepInOrder(s, a, sendBuffer, receiveBuffer);
      var rest := CancelledLinkCloses(Step(s, a), sendBuffer, receiveBuffer);
      acts := [a] + rest;
      assert acts[0] == a && acts[1..] == rest;
    }
  }

  // ----- one payload's retries

  /** How one pass through sendWithRetry's loop goes. */
  datatype Attempt = ContextDone | Written | Fatal | TimedOut(thenDone: bool)

  /** The loop comes back for another attempt. */
  predicate GoesOn(a: Attempt) {
    a.TimedOut? && !a.thenDone
  }

  /** Link.sendWithRetry (lines 170-223) and LinkV3.sendWithRetryInternal: `script` is what happens pass by pass, and
      `granted` how many retries the strategy allows. The payload is written exactly if some pass within the granted
      retries succeeds and every earlier one timed out with the context still alive. */
  method SendWithRetry(script: seq<Attempt>, granted: nat) returns (ok: bool, passes: nat)
    requires |script| > granted
    ensures ok <==> exists k :: 0 <= k <= granted && script[k].Written? && forall j :: 0 <= j < k ==> GoesOn(script[j])
    ensures 1 <= passes <= granted + 1
    ensures forall j :: 0 <= j < passes - 1 ==> GoesOn(script[j])
    ensures ok ==> script[passes - 1].Written?
  {
    passes := 0;
    var left := granted;
    while true
      invariant passes + left == granted
      invariant forall j :: 0 <= j < passes ==> GoesOn(script[j])
      decreases left
    {
      var a := script[passes];
      passes := passes + 1;
      match a {
        case ContextDone => return false, passes;
        case Written => return true, passes;
        case Fatal => return false, passes;
        case TimedOut(thenDone) =>
          if left == 0 {
            return false, passes;
          }
          left := left - 1;
          if thenDone {
            return false, passes;
          }
      }
    }
  }
}
