/** How two open sessions end: either side may start the closing exchange at any time, both at once
    included, over a network that loses, duplicates, delays and reorders. */
module Closing {
  import opened Wire
  import opened UdpSockets
  import opened ChownatPeer
  import opened Handshake
  import opened HandshakeSystem

  /** The answering loop stopped at its `sendto`, stopped at its `recv`, or left. */
  datatype Answerer = AboutToAnswer(attempts: nat) | Awaiting(attempts: nat) | Ended(ok: bool)

  /** Open, in `chownat_disconnect_send`, in `chownat_disconnect_recv`, or closed by a failing receive. */
  datatype Side = Open | Asking(asker: Asker) | Answering(answerer: Answerer) | Broken

  datatype Pair = Pair(left: Side, right: Side, toLeft: set<Bytes>, toRight: set<Bytes>)

  /** `Talks`: an open session sends data, requests, answers to requests and keep-alives. `Starts`: the
      application disconnects. `Goes`: a loop test and its `sendto`. */
  datatype Move = Talks(message: Bytes) | Starts | Goes | Gets(result: RecvResult)

  datatype Step = Step(left: bool, move: Move)

  /** `conn_max_attempts` of either side. */
  datatype Attempts = Attempts(left: nat, right: nat)

  predicate ReadsAsAck(message: Bytes) {
    Says(Cut(Got(message), 3), ACK_03)
  }

  predicate ReadsAsClose(message: Bytes) {
    Decode(Clip(message)).Disconnect?
  }

  predicate HasClose(network: set<Bytes>) {
    exists d :: d in network && ReadsAsClose(d)
  }

  predicate Enabled(me: Side, network: set<Bytes>, move: Move) {
    match move
    case Talks(message) => me.Open? && !ReadsAsAck(message) && !ReadsAsClose(message)
    case Starts => me.Open?
    case Goes => (me.Asking? && me.asker.Ready?) || (me.Answering? && me.answerer.AboutToAnswer?)
    case Gets(result) =>
      CanArrive(result, network) &&
      (me.Open? || (me.Asking? && me.asker.Waiting?) || (me.Answering? && me.answerer.Awaiting?))
  }

  /** What becomes of the side and what it sends. A request to disconnect leads an open session into
      the answering loop, a failing receive closes it. */
  function Act(limit: nat, me: Side, network: set<Bytes>, move: Move): (Side, set<Bytes>)
    requires Enabled(me, network, move)
  {
    match move
    case Talks(message) => (me, {message})
    case Starts => (Asking(Ready(0)), {})
    case Goes =>
      (match me
       case Asking(asker) =>
         var (asker', said) := AskerSends(CLOSE_02, limit, asker);
         (Asking(asker'), said)
       case Answering(answerer) =>
         if answerer.attempts < limit then (Answering(Awaiting(answerer.attempts)), {ACK_03})
         else (Answering(Ended(false)), {}))
    case Gets(result) =>
      (match me
       case Asking(asker) =>
         var (asker', said) := AskerGets(asker, Cut(result, 3));
         (Asking(asker'), said)
       case Answering(answerer) =>
         (match Answered(answerer.attempts, Cut(result, 3))
          case GoOn(n) => (Answering(AboutToAnswer(n)), {})
          case _ => (Answering(Ended(true)), {}))
       case Open =>
         if result.TimedOut? then (Broken, {})
         else if ReadsAsClose(result.datagram) then (Answering(AboutToAnswer(0)), {})
         else (Open, {}))
  }

  predicate StepEnabled(p: Pair, step: Step) {
    if step.left then Enabled(p.left, p.toLeft, step.move) else Enabled(p.right, p.toRight, step.move)
  }

  function Apply(limits: Attempts, p: Pair, step: Step): Pair
    requires StepEnabled(p, step)
  {
    if step.left then
      var (side, said) := Act(limits.left, p.left, p.toLeft, step.move);
      p.(left := side, toRight := p.toRight + said)
    else
      var (side, said) := Act(limits.right, p.right, p.toRight, step.move);
      p.(right := side, toLeft := p.toLeft + said)
  }

  predicate Runs(limits: Attempts, p: Pair, steps: seq<Step>)
    decreases |steps|
  {
    steps == [] || (StepEnabled(p, steps[0]) && Runs(limits, Apply(limits, p, steps[0]), steps[1..]))
  }

  function Run(limits: Attempts, p: Pair, steps: seq<Step>): Pair
    requires Runs(limits, p, steps)
    decreases |steps|
  {
    if steps == [] then p else Run(limits, Apply(limits, p, steps[0]), steps[1..])
  }

  /** The side asked, and an 03 confirmed it. */
  predicate Confirmed(side: Side) {
    side == Asking(Done(true))
  }

  // ---------------------------------------------------------------- agreement

  /** A closing is confirmed only if the other side took its 02. */
  predicate Agree(p: Pair) {
    (Confirmed(p.left) ==> p.right.Answering?) && (Confirmed(p.right) ==> p.left.Answering?)
  }

  /** What holds for `me` and the network to it, with the other side's state. `clean`: no 02 was in flight
      when both were open. */
  predicate Knows(clean: bool, me: Side, other: Side, toMe: set<Bytes>) {
    && (HasAck(toMe) ==> other.Answering? || Confirmed(other))
    && (Confirmed(me) ==> other.Answering?)
    && (clean && HasClose(toMe) ==> other.Asking?)
    && (clean && me.Answering? ==> other.Asking?)
    && (clean && me == Answering(Ended(true)) ==> Confirmed(other))
  }

  predicate Knowledge(clean: bool, p: Pair) {
    Knows(clean, p.left, p.right, p.toLeft) && Knows(clean, p.right, p.left, p.toRight)
  }

  lemma ActKeeps(clean: bool, limit: nat, me: Side, other: Side, toMe: set<Bytes>, toOther: set<Bytes>, move: Move)
    requires Knows(clean, me, other, toMe) && Knows(clean, other, me, toOther) && Enabled(me, toMe, move)
    ensures var (me', said) := Act(limit, me, toMe, move);
            Knows(clean, me', other, toMe) && Knows(clean, other, me', toOther + said)
  {
    var (me', said) := Act(limit, me, toMe, move);
    assert ReadsAsAck(ACK_03) && !ReadsAsClose(ACK_03) && !ReadsAsAck(CLOSE_02) && ReadsAsClose(CLOSE_02);
    assert forall d :: d in said ==> !ReadsAsAck(d) || me'.Answering? || Confirmed(me');
    assert forall d :: d in said ==> !ReadsAsClose(d) || me'.Asking?;
    assert HasAck(toOther + said) ==> HasAck(toOther) || me'.Answering? || Confirmed(me');
    assert HasClose(toOther + said) ==> HasClose(toOther) || me'.Asking?;
  }

  lemma {:induction false} RunKeeps(clean: bool, limits: Attempts, p: Pair, steps: seq<Step>)
    requires Knowledge(clean, p) && Runs(limits, p, steps)
    ensures Knowledge(clean, Run(limits, p, steps))
    decreases |steps|
  {
    if steps != [] {
      var step := steps[0];
      if step.left {
        ActKeeps(clean, limits.left, p.left, p.right, p.toLeft, p.toRight, step.move);
      } else {
        ActKeeps(clean, limits.right, p.right, p.left, p.toRight, p.toLeft, step.move);
      }
      RunKeeps(clean, limits, Apply(limits, p, step), steps[1..]);
    }
  }

  /** Two open sessions with no 03 in flight: whenever one side's closing is confirmed the other took its
      02, and so never asked itself; two sides that both ask are never confirmed. With no 02 in flight
      either, a side that answers answers the other's closing, and if its answer is confirmed then so is
      the closing. */
  lemma ClosingAgrees(limits: Attempts, toLeft: set<Bytes>, toRight: set<Bytes>, steps: seq<Step>)
    requires !HasAck(toLeft) && !HasAck(toRight) && Runs(limits, Pair(Open, Open, toLeft, toRight), steps)
    ensures var p := Run(limits, Pair(Open, Open, toLeft, toRight), steps);
            && Agree(p)
            && (!HasClose(toLeft) && !HasClose(toRight) ==>
                  && (p.right.Answering? ==> p.left.Asking?) && (p.left.Answering? ==> p.right.Asking?)
                  && (p.right == Answering(Ended(true)) ==> Confirmed(p.left))
                  && (p.left == Answering(Ended(true)) ==> Confirmed(p.right)))
  {
    RunKeeps(!HasClose(toLeft) && !HasClose(toRight), limits, Pair(Open, Open, toLeft, toRight), steps);
  }

  /** A stale 03 confirms a closing nobody took notice of. */
  lemma StaleAckConfirms(limits: Attempts, left: bool, toLeft: set<Bytes>, toRight: set<Bytes>)
      returns (steps: seq<Step>)
    requires limits.left > 0 && limits.right > 0 && HasAck(if left then toLeft else toRight)
    ensures Runs(limits, Pair(Open, Open, toLeft, toRight), steps)
    ensures var p := Run(limits, Pair(Open, Open, toLeft, toRight), steps);
            if left then Confirmed(p.left) && p.right.Open? else Confirmed(p.right) && p.left.Open?
  {
    var ack :| ack in (if left then toLeft else toRight) && Says(Cut(Got(ack), 3), ACK_03);
    var start, go, get := Step(left, Starts), Step(left, Goes), Step(left, Gets(Got(ack)));
    var started := Apply(limits, Pair(Open, Open, toLeft, toRight), start);
    var asked := Apply(limits, started, go);
    OneFirst(limits, asked, get, []);
    assert [get] + [] == [get];
    OneFirst(limits, started, go, [get]);
    OneFirst(limits, Pair(Open, Open, toLeft, toRight), start, [go] + [get]);
    steps := [start] + ([go] + [get]);
  }

  lemma OneFirst(limits: Attempts, p: Pair, step: Step, later: seq<Step>)
    requires StepEnabled(p, step) && Runs(limits, Apply(limits, p, step), later)
    ensures Runs(limits, p, [step] + later)
    ensures Run(limits, p, [step] + later) == Run(limits, Apply(limits, p, step), later)
  {
    assert ([step] + later)[1..] == later;
  }

  /** That no 03 is in flight when both are open is exactly what the agreement takes. */
  lemma ClosingAgreesIff(limits: Attempts, toLeft: set<Bytes>, toRight: set<Bytes>)
    requires limits.left > 0 && limits.right > 0
    ensures (forall steps :: Runs(limits, Pair(Open, Open, toLeft, toRight), steps) ==>
                               Agree(Run(limits, Pair(Open, Open, toLeft, toRight), steps))) <==>
            !HasAck(toLeft) && !HasAck(toRight)
  {
    if HasAck(toLeft) {
      var steps := StaleAckConfirms(limits, true, toLeft, toRight);
      assert !Agree(Run(limits, Pair(Open, Open, toLeft, toRight), steps));
    } else if HasAck(toRight) {
      var steps := StaleAckConfirms(limits, false, toLeft, toRight);
      assert !Agree(Run(limits, Pair(Open, Open, toLeft, toRight), steps));
    } else {
      forall steps | Runs(limits, Pair(Open, Open, toLeft, toRight), steps)
        ensures Agree(Run(limits, Pair(Open, Open, toLeft, toRight), steps))
      {
        ClosingAgrees(limits, toLeft, toRight, steps);
      }
    }
  }

  /** An open endpoint sends nothing that `Talks` leaves out: no answer to a datagram, no data frame and no
      keep-alive reads as an 03 or as a request to disconnect. */
  lemma OpenSaysNeither(build: Build, peer: Peer, datagram: Bytes, id: Byte, chunk: Bytes)
    ensures forall d :: d in React(build, peer, datagram).replies ==> !ReadsAsAck(d) && !ReadsAsClose(d)
    ensures !ReadsAsAck(DataFrame(id, chunk)) && !ReadsAsClose(DataFrame(id, chunk))
    ensures !ReadsAsAck(KEEP_ALIVE) && !ReadsAsClose(KEEP_ALIVE)
  {
    forall d | d in React(build, peer, datagram).replies ensures StartsOtherwise(d) {
      if Decode(Clip(datagram)).Nak? {
        var k :| 0 <= k < |Burst(build, peer, Decode(Clip(datagram)).got)| &&
                 d == Burst(build, peer, Decode(Clip(datagram)).got)[k];
        RetransmitStarts(build, Decode(Clip(datagram)).got + k, peer.ring[Decode(Clip(datagram)).got + k]);
      }
    }
    assert StartsOtherwise(DataFrame(id, chunk));
  }

  lemma RetransmitStarts(build: Build, id: Byte, payload: Bytes)
    ensures StartsOtherwise(RetransmitFrame(build, id, payload))
  {
    assert |RetransmitFrame(build, id, payload)| >= 2 ==> RetransmitFrame(build, id, payload)[1] == CHAR_9;
  }

  /** Too short for a message, or not its second character. */
  predicate StartsOtherwise(d: Bytes)
    ensures StartsOtherwise(d) ==> !ReadsAsAck(d) && !ReadsAsClose(d)
  {
    |d| < 2 || d[1] == CHAR_8 || d[1] == CHAR_9
  }
}
