/**
 LinkV3: one goroutine first sends up to sendBatch payloads, then reads once (internal/link/link_v3.go lines 141-207).
 A nil payload is indistinguishable from an empty buffer: it ends the sending phase and is lost.
 */
module LinkV3Fifo {
  import opened Common
  import opened LinkFifo

  const SendBatch := 16

  /** The loop: sending with i payloads sent in this phase, writing one, about to pass the limiter, reading,
      delivering, after the loop, gone. */
  datatype Stage =
    | Sending(i: nat)
    | Writing(i: nat, payload: seq<int>)
    | AtLimiter
    | AtRead
    | Handing(inbound: Payload)
    | AfterLoop
    | Gone

  /** `sinceRead` counts the writes since the loop last turned to the reader, `refusals` the limiter's refusals since. */
  datatype V3State = V3State(
    accepted: seq<Payload>, taken: nat, written: seq<seq<int>>, stage: Stage,
    read: seq<Payload>, delivered: seq<Payload>, consumed: nat, cancelled: bool, closes: nat, sinceRead: nat, refusals: nat)

  function InitV3(): V3State {
    V3State([], 0, [], Sending(0), [], [], 0, false, 0, 0, 0)
  }

  datatype V3Action =
    | Offer(payload: Payload)
    | Pick                      // the sendCh case, or the default case when the buffer is empty
    | WriteDone
    | WriteAgain                // a timed-out write that is retried
    | WriteFails
    | Pass                      // no limiter, or the limiter allows a read
    | Refuse                    // the limiter refuses: back to sending
    | ReadDone(payload: Payload)
    | ReadAgain                 // a read timeout: back to sending
    | ReadFails
    | HandOver
    | ConsumeV3                 // the handler takes a message from receiveCh
    | Stop                      // the context is done where the loop looks at it
    | CloseChannel
    | CancelV3

  predicate CanV3(s: V3State, a: V3Action, sendBuffer: nat, receiveBuffer: nat) {
    match a
    case Offer(_) => |s.accepted| < s.taken + sendBuffer
    case Pick => s.stage.Sending? && s.stage.i < SendBatch
    case WriteDone => s.stage.Writing?
    case WriteAgain => s.stage.Writing?
    case WriteFails => s.stage.Writing?
    case Pass => s.stage.AtLimiter?
    case Refuse => s.stage.AtLimiter?
    case ReadDone(_) => s.stage.AtRead?
    case ReadAgain => s.stage.AtRead?
    case ReadFails => s.stage.AtRead?
    case HandOver => s.stage.Handing? && |s.delivered| < s.consumed + receiveBuffer
    case ConsumeV3 => s.consumed < |s.delivered|
    case Stop => s.cancelled && (s.stage.Sending? || s.stage.Handing?)
    case CloseChannel => s.stage.AfterLoop?
    case CancelV3 => true
  }

  /** Line 149: the for loop's condition. */
  function NextSend(i: nat): Stage {
    if i < SendBatch then Sending(i) else AtLimiter
  }

  /** Lines 150-162: nothing there, or nil taken from the channel, both end the sending phase. */
  function PickStep(s: V3State): V3State
    requires s.stage.Sending?
  {
    if s.taken >= |s.accepted| then s.(stage := AtLimiter)
    else
      match s.accepted[s.taken]
      case None => s.(taken := s.taken + 1, stage := AtLimiter)
      case Some(bytes) => s.(taken := s.taken + 1, stage := Writing(s.stage.i, bytes))
  }

  function StepV3(s: V3State, a: V3Action, sendBuffer: nat, receiveBuffer: nat): V3State
    requires CanV3(s, a, sendBuffer, receiveBuffer)
  {
    match a
    case Offer(p) => s.(accepted := s.accepted + [p])
    case Pick => PickStep(s)
    case WriteDone =>
      s.(written := s.written + [s.stage.payload], stage := NextSend(s.stage.i + 1), sinceRead := s.sinceRead + 1)
    case WriteAgain => s
    case WriteFails => s.(stage := AfterLoop)
    case Pass => s.(stage := AtRead, sinceRead := 0, refusals := 0)
    case Refuse => s.(stage := Sending(0), refusals := s.refusals + 1)
    case ReadDone(p) => s.(read := s.read + [p], stage := Handing(p))
    case ReadAgain => s.(stage := Sending(0))
    case ReadFails => s.(stage := AfterLoop)
    case HandOver => s.(delivered := s.delivered + [s.stage.inbound], stage := Sending(0))
    case ConsumeV3 => s.(consumed := s.consumed + 1)
    case Stop => s.(stage := AfterLoop)
    case CloseChannel => s.(stage := Gone, closes := s.closes + 1, cancelled := true)
    case CancelV3 => s.(cancelled := true)
  }

  predicate CanRunV3(s: V3State, acts: seq<V3Action>, sendBuffer: nat, receiveBuffer: nat)
    decreases |acts|
  {
    acts == []
    || (CanV3(s, acts[0], sendBuffer, receiveBuffer)
        && CanRunV3(StepV3(s, acts[0], sendBuffer, receiveBuffer), acts[1..], sendBuffer, receiveBuffer))
  }

  function RunV3(s: V3State, acts: seq<V3Action>, sendBuffer: nat, receiveBuffer: nat): V3State
    requires CanRunV3(s, acts, sendBuffer, receiveBuffer)
    decreases |acts|
  {
    if acts == [] then s
    else RunV3(StepV3(s, acts[0], sendBuffer, receiveBuffer), acts[1..], sendBuffer, receiveBuffer)
  }

  /** The payloads that are not nil. */
  function NonNil(ps: seq<Payload>): seq<seq<int>> {
    if ps == [] then []
    else
      var rest := NonNil(ps[..|ps| - 1]);
      match ps[|ps| - 1]
      case None => rest
      case Some(bytes) => rest + [bytes]
  }

  lemma {:induction false} NonNilPrefix(ps: seq<Payload>, n: nat)
    requires n <= |ps|
    ensures NonNil(ps[..n]) <= NonNil(ps)
    decreases |ps|
  {
    if n < |ps| {
      NonNilPrefix(ps[..|ps| - 1], n);
      assert ps[..|ps| - 1][..n] == ps[..n];
    } else {
      assert ps[..n] == ps;
    }
  }

  ghost predicate InOrderV3(s: V3State, sendBuffer: nat, receiveBuffer: nat) {
    && s.taken <= |s.accepted| <= s.taken + sendBuffer
    && s.consumed <= |s.delivered| <= s.consumed + receiveBuffer
    && (match s.stage
        case Writing(i, p) => NonNil(s.accepted[..s.taken]) == s.written + [p]
        case AfterLoop => s.written <= NonNil(s.accepted[..s.taken])
        case Gone => s.written <= NonNil(s.accepted[..s.taken])
        case _ => s.written == NonNil(s.accepted[..s.taken]))
    && (match s.stage
        case Handing(p) => s.read == s.delivered + [p]
        case AfterLoop => s.delivered <= s.read && |s.read| <= |s.delivered| + 1
        case Gone => s.delivered <= s.read && |s.read| <= |s.delivered| + 1
        case _ => s.delivered == s.read)
    && (match s.stage
        case Sending(i) => s.sinceRead <= SendBatch * s.refusals + i && i < SendBatch
        case Writing(i, _) => s.sinceRead <= SendBatch * s.refusals + i && i < SendBatch
        case AtRead => s.sinceRead == 0
        case Handing(_) => s.sinceRead == 0
        case _ => s.sinceRead <= SendBatch * (s.refusals + 1))
    && s.closes == (if s.stage.Gone? then 1 else 0)
  }

  lemma OfferInOrder(s: V3State, p: Payload, sendBuffer: nat, receiveBuffer: nat)
    requires InOrderV3(s, sendBuffer, receiveBuffer) && CanV3(s, Offer(p), sendBuffer, receiveBuffer)
    ensures InOrderV3(StepV3(s, Offer(p), sendBuffer, receiveBuffer), sendBuffer, receiveBuffer)
  {
    assert (s.accepted + [p])[..s.taken] == s.accepted[..s.taken];
  }

  lemma PickInOrder(s: V3State, sendBuffer: nat, receiveBuffer: nat)
    requires InOrderV3(s, sendBuffer, receiveBuffer) && CanV3(s, Pick, sendBuffer, receiveBuffer)
    ensures InOrderV3(PickStep(s), sendBuffer, receiveBuffer)
  {
    if s.taken < |s.accepted| {
      var longer := s.accepted[..s.taken + 1];
      assert longer[..|longer| - 1] == s.accepted[..s.taken] && longer[|longer| - 1] == s.accepted[s.taken];
    }
  }

  lemma StepInOrderV3(s: V3State, a: V3Action, sendBuffer: nat, receiveBuffer: nat)
    requires InOrderV3(s, sendBuffer, receiveBuffer) && CanV3(s, a, sendBuffer, receiveBuffer)
    ensures InOrderV3(StepV3(s, a, sendBuffer, receiveBuffer), sendBuffer, receiveBuffer)
    ensures s.closes == 1 ==> StepV3(s, a, sendBuffer, receiveBuffer).delivered == s.delivered
  {
    match a {
      case Offer(p) => OfferInOrder(s, p, sendBuffer, receiveBuffer);
      case Pick => PickInOrder(s, sendBuffer, receiveBuffer);
      case _ =>
    }
  }

  lemma {:induction false} RunInOrderV3(s: V3State, acts: seq<V3Action>, sendBuffer: nat, receiveBuffer: nat)
    requires InOrderV3(s, sendBuffer, receiveBuffer) && CanRunV3(s, acts, sendBuffer, receiveBuffer)
    ensures InOrderV3(RunV3(s, acts, sendBuffer, receiveBuffer), sendBuffer, receiveBuffer)
    ensures s.closes == 1 ==> RunV3(s, acts, sendBuffer, receiveBuffer).delivered == s.delivered
    decreases |acts|
  {
    if acts != [] {
      StepInOrderV3(s, acts[0], sendBuffer, receiveBuffer);
      RunInOrderV3(StepV3(s, acts[0], sendBuffer, receiveBuffer), acts[1..], sendBuffer, receiveBuffer);
    }
  }

  /** Over every run of a LinkV3: what was written is a prefix of the accepted payloads without the nil ones, what was
      delivered a prefix of what was read; the buffers are never exceeded; between two reads at most sendBatch payloads are
      written, and as many again for each time the limiter has refused a read meanwhile; and receiveCh is closed at most once, with nothing sent on it afterwards. */
  lemma LinkV3IsFifo(acts: seq<V3Action>, sendBuffer: nat, receiveBuffer: nat)
    requires CanRunV3(InitV3(), acts, sendBuffer, receiveBuffer)
    ensures var s := RunV3(InitV3(), acts, sendBuffer, receiveBuffer);
            && s.written <= NonNil(s.accepted)
            && 0 <= |s.accepted| - s.taken <= sendBuffer
            && s.delivered <= s.read && |s.read| <= |s.delivered| + 1
            && 0 <= |s.delivered| - s.consumed <= receiveBuffer
            && s.sinceRead <= 16 * (s.refusals + 1)
            && s.closes <= 1
  {
    RunInOrderV3(InitV3(), acts, sendBuffer, receiveBuffer);
    var s := RunV3(InitV3(), acts, sendBuffer, receiveBuffer);
    NonNilPrefix(s.accepted, s.taken);
  }

  /** Once the context is done the loop ends and closes receiveCh within three steps of its own, whatever it was doing:
      no sender, consumer or full buffer can hold it up. */
  lemma CancelledLoopCloses(s: V3State, sendBuffer: nat, receiveBuffer: nat) returns (acts: seq<V3Action>)
    requires InOrderV3(s, sendBuffer, receiveBuffer) && s.cancelled
    ensures |acts| <= 3 && forall i :: 0 <= i < |acts| ==>
              acts[i].WriteFails? || acts[i].Pass? || acts[i].ReadFails? || acts[i].Stop? || acts[i].CloseChannel?
    ensures CanRunV3(s, acts, sendBuffer, receiveBuffer)
    ensures RunV3(s, acts, sendBuffer, receiveBuffer).closes == 1
    ensures RunV3(s, acts, sendBuffer, receiveBuffer).delivered == s.delivered
  {
    match s.stage {
      case Sending(_) => acts := EndsAfter(s, Stop, sendBuffer, receiveBuffer);
      case Writing(_, _) => acts := EndsAfter(s, WriteFails, sendBuffer, receiveBuffer);
      case AtLimiter =>
        var rest := EndsAfter(StepV3(s, Pass, sendBuffer, receiveBuffer), ReadFails, sendBuffer, receiveBuffer);
        acts := [Pass] + rest;
        assert acts[0] == Pass && acts[1..] == rest;
      case AtRead => acts := EndsAfter(s, ReadFails, sendBuffer, receiveBuffer);
      case Handing(_) => acts := EndsAfter(s, Stop, sendBuffer, receiveBuffer);
      case AfterLoop => acts := ClosesNow(s, sendBuffer, receiveBuffer);
      case Gone => acts := [];
    }
  }

  lemma ClosesNow(s: V3State, sendBuffer: nat, receiveBuffer: nat) returns (acts: seq<V3Action>)
    requires InOrderV3(s, sendBuffer, receiveBuffer) && s.stage.AfterLoop?
    ensures acts == [CloseChannel] && CanRunV3(s, acts, sendBuffer, receiveBuffer)
    ensures RunV3(s, acts, sendBuffer, receiveBuffer) == StepV3(s, CloseChannel, sendBuffer, receiveBuffer)
  {
    acts := [CloseChannel];
    assert acts[1..] == [];
  }

  lemma EndsAfter(s: V3State, a: V3Action, sendBuffer: nat, receiveBuffer: nat) returns (acts: seq<V3Action>)
    requires InOrderV3(s, sendBuffer, receiveBuffer) && CanV3(s, a, sendBuffer, receiveBuffer)
    requires a.Stop? || a.WriteFails? || a.ReadFails?
    ensures acts == [a, CloseChannel] && CanRunV3(s, acts, sendBuffer, receiveBuffer)
    ensures RunV3(s, acts, sendBuffer, receiveBuffer).closes == 1
    ensures RunV3(s, acts, sendBuffer, receiveBuffer).delivered == s.delivered
  {
    StepInOrderV3(s, a, sendBuffer, receiveBuffer);
    var rest := ClosesNow(StepV3(s, a, sendBuffer, receiveBuffer), sendBuffer, receiveBuffer);
    acts := [a, CloseChannel];
    assert acts[1..] == rest;
  }

  /** The loop's way back to an empty buffer: finish what is in hand, then take the next payload. */
  function Forward(s: V3State, receiveBuffer: nat): V3Action {
    match s.stage
    case Writing(_, _) => WriteDone
    case AtLimiter => Refuse
    case AtRead => ReadAgain
    case Handing(_) => if |s.delivered| < s.consumed + receiveBuffer then HandOver else ConsumeV3
    case _ => Pick
  }

  ghost function Distance(s: V3State, receiveBuffer: nat): int {
    3 * (|s.accepted| - s.taken)
    + match s.stage
      case Sending(_) => 0
      case Handing(_) => if |s.delivered| < s.consumed + receiveBuffer then 1 else 2
      case Writing(_, _) => 2
      case _ => 1
  }

  ghost predicate Looping(s: V3State) {
    !s.stage.AfterLoop? && !s.stage.Gone?
  }

  lemma ForwardMoves(s: V3State, sendBuffer: nat, receiveBuffer: nat)
    requires InOrderV3(s, sendBuffer, receiveBuffer) && Looping(s) && receiveBuffer > 0
    requires !s.stage.Sending? || s.taken < |s.accepted|
    ensures var a := Forward(s, receiveBuffer);
            && CanV3(s, a, sendBuffer, receiveBuffer)
            && var s' := StepV3(s, a, sendBuffer, receiveBuffer);
               && Looping(s') && s'.accepted == s.accepted && s'.read == s.read
               && 0 <= Distance(s', receiveBuffer) < Distance(s, receiveBuffer)
    ensures InOrderV3(StepV3(s, Forward(s, receiveBuffer), sendBuffer, receiveBuffer), sendBuffer, receiveBuffer)
  {
    StepInOrderV3(s, Forward(s, receiveBuffer), sendBuffer, receiveBuffer);
  }

  /** As long as the loop runs, it can still write every payload accepted so far that is not nil, in order, and deliver
      what it has read: within three steps per payload, and two more. */
  lemma {:induction false} AcceptedCanBeWrittenV3(s: V3State, sendBuffer: nat, receiveBuffer: nat)
    returns (acts: seq<V3Action>)
    requires InOrderV3(s, sendBuffer, receiveBuffer) && Looping(s) && receiveBuffer > 0
    ensures CanRunV3(s, acts, sendBuffer, receiveBuffer)
    ensures |acts| <= Distance(s, receiveBuffer) <= 3 * (|s.accepted| - s.taken) + 2
    ensures var s' := RunV3(s, acts, sendBuffer, receiveBuffer);
            s'.accepted == s.accepted && s'.written == NonNil(s.accepted) && s'.delivered == s'.read == s.read
    decreases Distance(s, receiveBuffer)
  {
    if s.stage.Sending? && s.taken == |s.accepted| {
      acts := [];
      assert s.accepted[..s.taken] == s.accepted;
    } else {
      ForwardMoves(s, sendBuffer, receiveBuffer);
      var a := Forward(s, receiveBuffer);
      hide InOrderV3, StepV3, CanV3, Forward, NonNil;
      var rest := AcceptedCanBeWrittenV3(StepV3(s, a, sendBuffer, receiveBuffer), sendBuffer, receiveBuffer);
      acts := [a] + rest;
      assert acts[0] == a && acts[1..] == rest;
    }
  }

  lemma {:induction false} RunEnds(s: V3State, acts: seq<V3Action>, sendBuffer: nat, receiveBuffer: nat)
    requires CanRunV3(s, acts, sendBuffer, receiveBuffer) && (s.stage.Gone? ==> s.cancelled)
    ensures var s' := RunV3(s, acts, sendBuffer, receiveBuffer);
            && (s'.cancelled <==> s.cancelled || CancelV3 in acts || s'.stage.Gone?)
            && (s.stage.Gone? ==> s'.stage.Gone?)
            && (Looping(s) && !s.cancelled && CancelV3 !in acts && WriteFails !in acts && ReadFails !in acts ==> Looping(s'))
    decreases |acts|
  {
    if acts != [] {
      var s1 := StepV3(s, acts[0], sendBuffer, receiveBuffer);
      assert s1.stage.Gone? ==> s1.cancelled;
      assert s1.cancelled <==> s.cancelled || acts[0] == CancelV3 || s1.stage.Gone?;
      assert acts == [acts[0]] + acts[1..] && acts[0] in acts;
      RunEnds(s1, acts[1..], sendBuffer, receiveBuffer);
    }
  }

  /** Over every run: the context is done exactly if somebody has closed the link or the loop has ended; and the loop goes
      on as long as nobody closes the link and no write and no read fails. */
  lemma EndsOnlyWhenStopped(acts: seq<V3Action>, sendBuffer: nat, receiveBuffer: nat)
    requires CanRunV3(InitV3(), acts, sendBuffer, receiveBuffer)
    ensures var s := RunV3(InitV3(), acts, sendBuffer, receiveBuffer);
            && (s.cancelled <==> CancelV3 in acts || s.stage.Gone?)
            && (CancelV3 !in acts && WriteFails !in acts && ReadFails !in acts ==> !s.stage.AfterLoop? && !s.stage.Gone?)
  {
    RunEnds(InitV3(), acts, sendBuffer, receiveBuffer);
  }

  /** A look at the buffer ends the sending phase exactly if it is empty or yields nil. */
  lemma PickEndsIff(s: V3State, sendBuffer: nat, receiveBuffer: nat)
    requires InOrderV3(s, sendBuffer, receiveBuffer) && CanV3(s, Pick, sendBuffer, receiveBuffer)
    ensures var s' := StepV3(s, Pick, sendBuffer, receiveBuffer);
            && (s'.stage == AtLimiter <==> s.taken == |s.accepted| || s.accepted[s.taken] == None)
            && (s'.stage != AtLimiter ==>
                  s'.taken == s.taken + 1 && s'.stage == Writing(s.stage.i, s.accepted[s.taken].value))
  {
  }

  /** Payloads that are there and not nil are written one after the other in one phase, until sixteen have been. */
  lemma {:induction false} PhaseWrites(s: V3State, n: nat, sendBuffer: nat, receiveBuffer: nat)
    returns (acts: seq<V3Action>)
    requires InOrderV3(s, sendBuffer, receiveBuffer) && s.stage.Sending? && s.stage.i + n <= 16
    requires s.taken + n <= |s.accepted| && forall j :: s.taken <= j < s.taken + n ==> s.accepted[j].Some?
    ensures |acts| == 2 * n && CanRunV3(s, acts, sendBuffer, receiveBuffer)
    ensures forall a :: a in acts ==> a == Pick || a == WriteDone
    ensures var s' := RunV3(s, acts, sendBuffer, receiveBuffer);
            && s'.stage == (if s.stage.i + n < 16 then Sending(s.stage.i + n) else AtLimiter)
            && s'.accepted == s.accepted && s'.taken == s.taken + n && s'.written == NonNil(s.accepted[..s.taken + n])
    decreases n
  {
    if n == 0 {
      acts := [];
    } else {
      PickEndsIff(s, sendBuffer, receiveBuffer);
      StepInOrderV3(s, Pick, sendBuffer, receiveBuffer);
      var s1 := StepV3(s, Pick, sendBuffer, receiveBuffer);
      StepInOrderV3(s1, WriteDone, sendBuffer, receiveBuffer);
      var s2 := StepV3(s1, WriteDone, sendBuffer, receiveBuffer);
      assert s2.accepted == s.accepted && s2.taken == s.taken + 1;
      if s.stage.i + 1 < 16 {
        var rest := PhaseWrites(s2, n - 1, sendBuffer, receiveBuffer);
        acts := [Pick, WriteDone] + rest;
        assert acts[0] == Pick && acts[1..][0] == WriteDone && acts[1..][1..] == rest;
        hide InOrderV3, NonNil;
      } else {
        acts := [Pick, WriteDone];
        assert acts[1..][0] == WriteDone && acts[1..][1..] == [];
      }
    }
  }

  /** While the loop runs, everything taken from the buffer has been written except nil payloads and the one in hand:
      so a taken payload is missing from the connection exactly if it was nil. */
  lemma OnlyNilIsLost(acts: seq<V3Action>, sendBuffer: nat, receiveBuffer: nat)
    requires CanRunV3(InitV3(), acts, sendBuffer, receiveBuffer)
    requires var s := RunV3(InitV3(), acts, sendBuffer, receiveBuffer);
             s.stage.Sending? || s.stage.AtLimiter? || s.stage.AtRead?
    ensures var s := RunV3(InitV3(), acts, sendBuffer, receiveBuffer);
            && s.taken <= |s.accepted| && s.written == NonNil(s.accepted[..s.taken])
            && (|s.written| == s.taken <==> forall i :: 0 <= i < s.taken ==> s.accepted[i].Some?)
  {
    RunInOrderV3(InitV3(), acts, sendBuffer, receiveBuffer);
    var s := RunV3(InitV3(), acts, sendBuffer, receiveBuffer);
    NonNilLength(s.accepted[..s.taken]);
    assert forall i :: 0 <= i < s.taken ==> s.accepted[..s.taken][i] == s.accepted[i];
  }

  lemma {:induction false} NonNilLength(ps: seq<Payload>)
    ensures |NonNil(ps)| <= |ps|
    ensures |NonNil(ps)| == |ps| <==> forall i :: 0 <= i < |ps| ==> ps[i].Some?
  {
    if ps != [] {
      var init := ps[..|ps| - 1];
      NonNilLength(init);
      assert ps == init + [ps[|ps| - 1]];
      if forall i :: 0 <= i < |ps| ==> ps[i].Some? {
        assert forall i :: 0 <= i < |init| ==> init[i].Some?;
      }
      if |NonNil(ps)| == |ps| {
        assert ps[|ps| - 1].Some?;
      }
    }
  }

  // ----- the sending phase as the loop it is

  class Connection {
    var queue: seq<Payload>
    var written: seq<seq<int>>

    constructor ()
      ensures queue == [] && written == []
    {
      queue, written := [], [];
    }

    /** Lines 149-168 with nobody interfering; sends[j] says whether the j-th write of the phase succeeds. The phase
        takes `taken` payloads off the queue; it writes the non-nil ones in order, stops at the first nil, at the end of
        the queue, after sixteen writes or at the first failed write. */
    method SendPhase(sends: seq<bool>) returns (alive: bool, taken: nat)
      requires |sends| == 16
      modifies this
      ensures taken <= |old(queue)| && queue == old(queue)[taken..] && taken <= 16
      ensures alive ==> written == old(written) + NonNil(old(queue)[..taken])
      ensures !alive ==>
                && 1 <= taken && old(queue)[taken - 1].Some? && !sends[taken - 1]
                && written == old(written) + NonNil(old(queue)[..taken - 1])
      ensures forall j :: 0 <= j < taken - 1 ==> old(queue)[j].Some? && sends[j]
      ensures alive ==> queue == [] || taken == 16 || (1 <= taken && old(queue)[taken - 1].None?)
    {
      taken := 0;
      for i := 0 to SendBatch
        invariant taken == i <= |old(queue)| && queue == old(queue)[i..]
        invariant written == old(written) + NonNil(old(queue)[..i])
        invariant forall j :: 0 <= j < i ==> old(queue)[j].Some? && sends[j]
      {
        if queue == [] {
          return true, i;
        }
        var outbound := queue[0];
        queue := queue[1..];
        assert old(queue)[..i + 1][..i] == old(queue)[..i];
        if outbound.None? {
          return true, i + 1;
        }
        if !sends[i] {
          return false, i + 1;
        }
        written := written + [outbound.value];
        taken := i + 1;
      }
      alive := true;
    }
  }
}
