/** What every run of the two endpoints delivers. */
module ChownatDelivery {
  import opened Wire
  import opened ChownatPeer
  import opened ChownatLink

  /** The k-th accepted payload came from packet k. */
  ghost predicate InOrder(e: End) {
    forall k :: 0 <= k < |e.accepted| ==> e.accepted[k] == k
  }

  /** Data frames in flight are ordered by the time they were sent, and nothing delivered so far
      is newer than any of them. */
  ghost predicate FifoHolds(source: End, target: End) {
    && (forall i, j :: 0 <= i < j < |source.wire| ==>
          source.wire[i].index == CONTROL || source.wire[j].index == CONTROL
          || source.wire[i].era <= source.wire[j].era)
    && (forall i :: 0 <= i < |source.wire| && source.wire[i].index != CONTROL ==>
          |target.delivered| <= source.wire[i].era <= |source.sent|)
    && |target.delivered| <= |source.sent|
  }

  ghost predicate PairOrdered(channel: Channel, me: End, other: End) {
    && InOrder(me) && InOrder(other)
    && (channel == Fifo ==> FifoHolds(me, other) && FifoHolds(other, me))
  }

  ghost predicate Ordered(channel: Channel, s: System) {
    PairOrdered(channel, s.a, s.b)
  }

  lemma SameResidueNearby(x: int, y: int)
    requires x % RING_SIZE == y % RING_SIZE && y - RING_SIZE < x < y + RING_SIZE
    ensures x == y
  {
  }

  /** How far from the awaited packet a data frame handed over can be. */
  lemma HandedOverNearby(build: Build, channel: Channel, me: End, other: End, at: nat, keep: bool)
    requires at < |other.wire| && IsPacket(build, other.sent, other.wire[at]) && Windowed(channel)
    requires channel == Fifo ==> FifoHolds(other, me)
    requires Enabled(me, other, Receive(at, keep)) && Admits(channel, me, other, Receive(at, keep))
    ensures |me.delivered| - RING_SIZE < other.wire[at].index < |me.delivered| + RING_SIZE
  {
  }

  /** Under either network assumption an accepted frame is the next packet: its residue is the
      awaited one and it lies less than 256 away. */
  lemma AcceptsNext(build: Build, channel: Channel, me: End, other: End, at: nat, keep: bool)
    requires FlowHolds(build, other, me) && Windowed(channel)
    requires channel == Fifo ==> FifoHolds(other, me)
    requires Enabled(me, other, Receive(at, keep)) && Admits(channel, me, other, Receive(at, keep))
    requires React(build, me.peer, other.wire[at].datagram).accepted
    ensures IsPacket(build, other.sent, other.wire[at])
    ensures other.wire[at].index == |me.delivered|
  {
    var t := other.wire[at];
    assert t in other.wire;
    AcceptedPacket(build, other, me, t);
    HandedOverNearby(build, channel, me, other, at, keep);
    SameResidueNearby(t.index, |me.delivered|);
  }

  lemma FifoSend(me: End, other: End, chunk: Bytes)
    requires |chunk| <= TCP_MTU_SIZE
    requires FifoHolds(me, other)
    ensures FifoHolds(AfterSend(me, chunk), other)
  {
  }

  lemma FifoReplies(build: Build, me: End, other: End, t: Tagged)
    requires FifoHolds(me, other)
    ensures FifoHolds(AfterReceive(build, me, t), other)
  {
    var tags := TagReplies(me, t.datagram, React(build, me.peer, t.datagram).replies);
    assert AfterReceive(build, me, t).wire == me.wire + tags;
    assert AfterReceive(build, me, t).sent == me.sent;
    assert forall k :: 0 <= k < |tags| ==> tags[k].era == |me.sent|;
  }

  lemma FifoLose(source: End, target: End, at: nat)
    requires FifoHolds(source, target) && at < |source.wire|
    ensures FifoHolds(source.(wire := Without(source.wire, at)), target)
  {
    var wire := Without(source.wire, at);
    assert forall i :: 0 <= i < |wire| ==> wire[i] == source.wire[if i < at then i else i + 1];
  }

  lemma FifoAccept(build: Build, me: End, other: End)
    requires FlowHolds(build, other, me) && FifoHolds(other, me) && InOrder(me)
    requires Enabled(me, other, Receive(0, true)) && Admits(Fifo, me, other, Receive(0, true))
    ensures FifoHolds(other, AfterReceive(build, me, other.wire[0]))
  {
    var t := other.wire[0];
    var me' := AfterReceive(build, me, t);
    if React(build, me.peer, t.datagram).accepted {
      AcceptsNext(build, Fifo, me, other, 0, true);
      assert |me'.delivered| == |me.delivered| + 1 <= t.era;
    }
  }

  lemma StepKeepsOrder(build: Build, channel: Channel, me: End, other: End, step: Step)
    requires FlowHolds(build, other, me) && Windowed(channel)
    requires Enabled(me, other, step) && Admits(channel, me, other, step)
    requires InOrder(me) && (channel == Fifo ==> FifoHolds(other, me))
    ensures InOrder(Apply(build, me, other, step).0)
    ensures Apply(build, me, other, step).1.accepted == other.accepted
  {
    if step.Receive? {
      if React(build, me.peer, other.wire[step.at].datagram).accepted {
        AcceptsNext(build, channel, me, other, step.at, step.keep);
      }
    }
  }

  lemma FifoControl(source: End, target: End, message: Bytes)
    requires FifoHolds(source, target)
    ensures FifoHolds(source.(wire := source.wire + [Tagged(message, CONTROL, |source.sent|, false)]), target)
  {
  }

  /** What flows from `source` arrives in order so far. */
  ghost predicate OneWay(source: End, target: End) {
    InOrder(target) && FifoHolds(source, target)
  }

  /** A step of the sending side keeps it, whatever the network does. */
  lemma SourceStepKeepsOneWay(build: Build, me: End, other: End, step: Step)
    requires Enabled(me, other, step) && OneWay(me, other)
    ensures var (me', other') := Apply(build, me, other, step); OneWay(me', other')
  {
    match step
    case SendChunk(chunk) => FifoSend(me, other, chunk);
    case Receive(at, keep) => FifoReplies(build, me, other, other.wire[at]);
    case EmitControl(message) => FifoControl(me, other, message);
    case Lose(at) => FifoLose(me, other, at);
    case WriteTcp(n) =>
    case Close(reset) =>
  }

  /** So does a step of the receiving side, if the network keeps order and the window. */
  lemma TargetStepKeepsOneWay(build: Build, me: End, other: End, step: Step)
    requires FlowHolds(build, other, me) && OneWay(other, me)
    requires Enabled(me, other, step) && Admits(Fifo, me, other, step)
    ensures var (me', other') := Apply(build, me, other, step); OneWay(other', me')
  {
    StepKeepsOrder(build, Fifo, me, other, step);
    match step
    case Receive(at, keep) =>
      FifoAccept(build, me, other);
      if !keep { FifoLose(other, AfterReceive(build, me, other.wire[0]), 0); }
    case _ =>
  }

  // ---------------------------------------------------------------- single actions of a run

  lemma SendTaken(build: Build, channel: Channel, s: System, chunk: Bytes)
    requires !s.a.peer.closed && |chunk| <= TCP_MTU_SIZE
    ensures Advance(build, channel, s, Action(A, SendChunk(chunk))) == Reached(System(AfterSend(s.a, chunk), s.b))
  {
  }

  lemma LossTaken(build: Build, channel: Channel, s: System, at: nat)
    requires at < |s.a.wire|
    ensures Advance(build, channel, s, Action(A, Lose(at))) ==
            Reached(System(s.a.(wire := Without(s.a.wire, at)), s.b))
  {
  }

  lemma HandedOver(build: Build, channel: Channel, s: System, at: nat, keep: bool)
    requires Enabled(s.b, s.a, Receive(at, keep)) && Admits(channel, s.b, s.a, Receive(at, keep))
    ensures Advance(build, channel, s, Action(B, Receive(at, keep))) ==
            Reached(System(if keep then s.a else s.a.(wire := Without(s.a.wire, at)),
                           AfterReceive(build, s.b, s.a.wire[at])))
  {
  }

  lemma AnswerTaken(build: Build, channel: Channel, s: System, at: nat)
    requires Enabled(s.a, s.b, Receive(at, false)) && Admits(channel, s.a, s.b, Receive(at, false))
    ensures Advance(build, channel, s, Action(A, Receive(at, false))) ==
            Reached(System(AfterReceive(build, s.a, s.b.wire[at]), s.b.(wire := Without(s.b.wire, at))))
  {
  }

  // ---------------------------------------------------------------- every run

  lemma AdvanceKeeps(build: Build, channel: Channel, s: System, action: Action)
    requires Invariant(build, s) && Advance(build, channel, s, action).Reached?
    ensures Invariant(build, Advance(build, channel, s, action).state)
  {
    StepKeeps(build, Mine(s, action.who), Theirs(s, action.who), action.step);
  }

  lemma StepKeepsPair(build: Build, channel: Channel, me: End, other: End, step: Step)
    requires FlowHolds(build, other, me) && Windowed(channel) && PairOrdered(channel, me, other)
    requires Enabled(me, other, step) && Admits(channel, me, other, step)
    ensures var (me', other') := Apply(build, me, other, step); PairOrdered(channel, me', other')
  {
    if channel == Fifo {
      SourceStepKeepsOneWay(build, me, other, step);
      TargetStepKeepsOneWay(build, me, other, step);
    } else {
      StepKeepsOrder(build, channel, me, other, step);
    }
  }

  lemma AdvanceKeepsOrder(build: Build, channel: Channel, s: System, action: Action)
    requires Invariant(build, s) && Advance(build, channel, s, action).Reached?
    requires Windowed(channel) && Ordered(channel, s)
    ensures Ordered(channel, Advance(build, channel, s, action).state)
  {
    StepKeepsPair(build, channel, Mine(s, action.who), Theirs(s, action.who), action.step);
  }

  lemma {:induction false} RunKeeps(build: Build, channel: Channel, s: System, actions: seq<Action>)
    requires Invariant(build, s) && Run(build, channel, s, actions).Reached?
    ensures Invariant(build, Run(build, channel, s, actions).state)
  {
    if actions != [] {
      var front := actions[..|actions| - 1];
      RunKeeps(build, channel, s, front);
      AdvanceKeeps(build, channel, Run(build, channel, s, front).state, actions[|actions| - 1]);
    }
  }

  lemma {:induction false} RunKeepsOrder(build: Build, channel: Channel, s: System, actions: seq<Action>)
    requires Invariant(build, s) && Run(build, channel, s, actions).Reached?
    requires Windowed(channel) && Ordered(channel, s)
    ensures Ordered(channel, Run(build, channel, s, actions).state)
  {
    if actions != [] {
      var front := actions[..|actions| - 1];
      RunKeepsOrder(build, channel, s, front);
      RunKeeps(build, channel, s, front);
      AdvanceKeepsOrder(build, channel, Run(build, channel, s, front).state, actions[|actions| - 1]);
    }
  }

  // ---------------------------------------------------------------- theorems

  /** Any run over any network: counters and ring refine the packet log, and the k-th accepted
      payload belongs to a packet whose number is k modulo 256. */
  lemma RingRefinesLog(build: Build, actions: seq<Action>)
    requires Run(build, Wild, START, actions).Reached?
    ensures var s := Run(build, Wild, START, actions).state;
            && RingHolds(s.a) && RingHolds(s.b)
            && DeliveryHolds(build, s.a, s.b) && DeliveryHolds(build, s.b, s.a)
  {
    StartHolds(build, Wild);
    RunKeeps(build, Wild, START, actions);
  }

  /** Each payload accepted at `target` is the packet of the same number, cut by three bytes exactly
      if it came from a retransmission as written. */
  ghost predicate DeliversPrefix(build: Build, source: End, target: End) {
    && |target.delivered| <= |source.sent| && |target.copied| == |target.delivered|
    && (forall k :: 0 <= k < |target.delivered| ==>
          Carries(build, source.sent[k], target.copied[k], target.delivered[k]))
    && (build == WholeFrame ==> target.delivered == source.sent[..|target.delivered|])
  }

  lemma OrderedDelivers(build: Build, source: End, target: End)
    requires DeliveryHolds(build, source, target) && InOrder(target)
    ensures DeliversPrefix(build, source, target)
  {
    var n := |target.delivered|;
    if n > 0 {
      assert target.accepted[n - 1] == n - 1;
    }
    forall k | 0 <= k < n ensures Carries(build, source.sent[k], target.copied[k], target.delivered[k]) {
      assert target.accepted[k] == k;
    }
  }

  function Repairs(copied: seq<bool>): nat {
    if copied == [] then 0 else Repairs(copied[..|copied| - 1]) + (if copied[|copied| - 1] then 1 else 0)
  }

  /** Every delivered payload is what its packet carried, from the first transmission or a repair. */
  predicate AllCarried(sent: seq<Bytes>, copied: seq<bool>, delivered: seq<Bytes>) {
    && |sent| == |copied| == |delivered|
    && forall k :: 0 <= k < |sent| ==> Carries(AsWritten, sent[k], copied[k], delivered[k])
  }

  lemma LastCarried(sent: seq<Bytes>, copied: seq<bool>, delivered: seq<Bytes>)
    requires AllCarried(sent, copied, delivered) && sent != []
    ensures var n := |sent| - 1;
            && AllCarried(sent[..n], copied[..n], delivered[..n])
            && |sent[n]| == |delivered[n]| + (if copied[n] then HEADER_SIZE else 0)
            && (delivered[n] == sent[n] <==> !copied[n])
  {
  }

  /** Conservation: as written, three bytes are missing for every accepted retransmission and none
      otherwise. */
  lemma {:induction false} ThreeBytesPerRepair(sent: seq<Bytes>, copied: seq<bool>, delivered: seq<Bytes>)
    requires AllCarried(sent, copied, delivered)
    ensures |Flatten(sent)| == |Flatten(delivered)| + HEADER_SIZE * Repairs(copied)
  {
    if sent != [] {
      var n := |sent| - 1;
      LastCarried(sent, copied, delivered);
      ThreeBytesPerRepair(sent[..n], copied[..n], delivered[..n]);
    }
  }

  /** What was delivered is what was sent exactly if nothing accepted was a retransmission. */
  lemma {:induction false} WholeWithoutRepairs(sent: seq<Bytes>, copied: seq<bool>, delivered: seq<Bytes>)
    requires AllCarried(sent, copied, delivered)
    ensures delivered == sent <==> Repairs(copied) == 0
  {
    if sent != [] {
      var n := |sent| - 1;
      LastCarried(sent, copied, delivered);
      WholeWithoutRepairs(sent[..n], copied[..n], delivered[..n]);
      EqualByFront(sent, delivered);
    }
  }

  lemma EqualByFront(one: seq<Bytes>, other: seq<Bytes>)
    requires |one| == |other| > 0
    ensures one == other <==> one[..|one| - 1] == other[..|one| - 1] && one[|one| - 1] == other[|one| - 1]
  {
    if one[..|one| - 1] == other[..|one| - 1] && one[|one| - 1] == other[|one| - 1] {
      assert one == one[..|one| - 1] + [one[|one| - 1]];
      assert other == other[..|one| - 1] + [other[|one| - 1]];
    }
  }

  lemma StateDelivers(build: Build, s: System)
    requires Invariant(build, s) && InOrder(s.a) && InOrder(s.b)
    ensures DeliversPrefix(build, s.a, s.b) && DeliversPrefix(build, s.b, s.a)
  {
    OrderedDelivers(build, s.a, s.b);
    OrderedDelivers(build, s.b, s.a);
  }

  lemma StartHolds(build: Build, channel: Channel)
    ensures Invariant(build, START) && Ordered(channel, START)
  {
  }

  /** Reliable delivery, in both directions and in every reachable state: over a network that
      keeps to `Fresh` or to `Fifo`, what each side accepted is a prefix of what the other side
      numbered. With the retransmission length as written each payload is the packet, without its
      last three bytes exactly if it was retransmitted. */
  lemma DeliversInOrder(build: Build, channel: Channel, actions: seq<Action>)
    requires Windowed(channel) && Run(build, channel, START, actions).Reached?
    ensures var s := Run(build, channel, START, actions).state;
            DeliversPrefix(build, s.a, s.b) && DeliversPrefix(build, s.b, s.a)
  {
    StartHolds(build, channel);
    RunKeeps(build, channel, START, actions);
    RunKeepsOrder(build, channel, START, actions);
    StateDelivers(build, Run(build, channel, START, actions).state);
  }

  lemma StateCounts(s: System)
    requires DeliversPrefix(AsWritten, s.a, s.b) && BytesHold(s.b)
    ensures s.b.delivered == s.a.sent[..|s.b.delivered|] <==> Repairs(s.b.copied) == 0
    ensures |s.b.written| + |s.b.pending| + HEADER_SIZE * Repairs(s.b.copied) == |Flatten(s.a.sent[..|s.b.delivered|])|
  {
    ThreeBytesPerRepair(s.a.sent[..|s.b.delivered|], s.b.copied, s.b.delivered);
    WholeWithoutRepairs(s.a.sent[..|s.b.delivered|], s.b.copied, s.b.delivered);
    assert |s.b.written + s.b.pending| == |Flatten(s.b.delivered)|;
  }

  /** At no time during the run more than `bound` of a's packets are numbered and not delivered. */
  ghost predicate NeverMore(build: Build, channel: Channel, actions: seq<Action>, bound: nat) {
    && Run(build, channel, START, actions).Reached?
    && (var s := Run(build, channel, START, actions).state; |s.a.sent| - |s.b.delivered| <= bound)
    && (actions != [] ==> NeverMore(build, channel, actions[..|actions| - 1], bound))
  }

  lemma AdvanceKeepsOneWay(build: Build, s: System, action: Action)
    requires Invariant(build, s) && OneWay(s.a, s.b) && |s.a.sent| - |s.b.delivered| <= RING_SIZE
    requires Advance(build, Queue, s, action).Reached?
    ensures var t := Advance(build, Queue, s, action).state; OneWay(t.a, t.b)
  {
    if action.who == A {
      SourceStepKeepsOneWay(build, s.a, s.b, action.step);
    } else {
      TargetStepKeepsOneWay(build, s.b, s.a, action.step);
    }
  }

  /** Nothing that b accepts is out of order as long as a has no more than 256 packets outstanding. */
  lemma {:induction false} WindowKeepsOneWay(build: Build, actions: seq<Action>, bound: nat)
    requires NeverMore(build, Queue, actions, bound) && bound <= RING_SIZE
    ensures var s := Run(build, Queue, START, actions).state; Invariant(build, s) && OneWay(s.a, s.b)
  {
    StartHolds(build, Queue);
    if actions != [] {
      var front, last := actions[..|actions| - 1], actions[|actions| - 1];
      WindowKeepsOneWay(build, front, bound);
      AdvanceKeepsOneWay(build, Run(build, Queue, START, front).state, last);
      AdvanceKeeps(build, Queue, Run(build, Queue, START, front).state, last);
    }
  }

  /** The window as a condition on the sender instead of the network: over any network that keeps order,
      a run in which a never has more than 256 packets outstanding delivers them in order, whatever
      b sends. */
  lemma WindowDeliversInOrder(build: Build, actions: seq<Action>)
    requires NeverMore(build, Queue, actions, RING_SIZE)
    ensures var s := Run(build, Queue, START, actions).state; DeliversPrefix(build, s.a, s.b)
  {
    var s := Run(build, Queue, START, actions).state;
    WindowKeepsOneWay(build, actions, RING_SIZE);
    OrderedDelivers(build, s.a, s.b);
  }

  /** With the retransmission length as written, over a network that keeps order, what b accepted is
      what a numbered exactly if no retransmission was accepted; each one accepted costs the
      stream three bytes. */
  lemma WrittenDeliversIff(channel: Channel, actions: seq<Action>)
    requires Windowed(channel) && Run(AsWritten, channel, START, actions).Reached?
    ensures var s := Run(AsWritten, channel, START, actions).state; var n := |s.b.delivered|;
            && n <= |s.a.sent|
            && (s.b.delivered == s.a.sent[..n] <==> Repairs(s.b.copied) == 0)
            && |s.b.written| + |s.b.pending| + HEADER_SIZE * Repairs(s.b.copied) == |Flatten(s.a.sent[..n])|
  {
    DeliversInOrder(AsWritten, channel, actions);
    StartHolds(AsWritten, channel);
    RunKeeps(AsWritten, channel, START, actions);
    StateCounts(Run(AsWritten, channel, START, actions).state);
  }

  lemma PrefixOfFlatten(source: End, target: End)
    requires DeliversPrefix(WholeFrame, source, target) && BytesHold(source) && BytesHold(target)
    ensures target.written <= source.read
  {
    FlattenPrefix(source.sent, |target.delivered|);
    assert target.written <= target.written + target.pending;
  }

  /** The tunnel is a byte pipe: however TCP reads are cut into chunks and TCP writes are split,
      the bytes written at one side are at all times a prefix of those read at the other. */
  lemma TunnelIsBytePipe(channel: Channel, actions: seq<Action>)
    requires Windowed(channel) && Run(WholeFrame, channel, START, actions).Reached?
    ensures var s := Run(WholeFrame, channel, START, actions).state;
            s.b.written <= s.a.read && s.a.written <= s.b.read
  {
    var s := Run(WholeFrame, channel, START, actions).state;
    StartHolds(WholeFrame, channel);
    RunKeeps(WholeFrame, channel, START, actions);
    DeliversInOrder(WholeFrame, channel, actions);
    PrefixOfFlatten(s.a, s.b);
    PrefixOfFlatten(s.b, s.a);
  }

  /** And one way also over any network that keeps order, as long as the sender keeps to the window. */
  lemma WindowIsBytePipe(actions: seq<Action>)
    requires NeverMore(WholeFrame, Queue, actions, RING_SIZE)
    ensures var s := Run(WholeFrame, Queue, START, actions).state; s.b.written <= s.a.read
  {
    var s := Run(WholeFrame, Queue, START, actions).state;
    WindowKeepsOneWay(WholeFrame, actions, RING_SIZE);
    WindowDeliversInOrder(WholeFrame, actions);
    PrefixOfFlatten(s.a, s.b);
  }
}
