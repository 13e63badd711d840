/** Two CHOWNAT endpoints, the network between them, and the TCP byte streams they tunnel.
    Every datagram in flight carries a ghost-like tag: the number of the packet it holds. The
    code never sees the tags; they only relate one-byte sequence numbers to packet numbers. */
module ChownatLink {
  import opened Wire
  import opened ChownatPeer

  /** `index` is the packet number of a data frame and CONTROL for everything else; `era` is how
      many packets its sender had numbered when the datagram was put on the wire; `copy` marks a
      retransmission. */
  datatype Tagged = Tagged(datagram: Bytes, index: int, era: nat, copy: bool)

  const CONTROL: int := -1

  /** One side: the endpoint, the datagrams it has in flight, the packets it has numbered, the
      payloads it accepted with their tags (number, and whether from a retransmission), and its TCP
      socket (bytes read, accepted bytes still to be written, bytes written). */
  datatype End = End(
    peer: Peer,
    wire: seq<Tagged>,
    sent: seq<Bytes>,
    delivered: seq<Bytes>,
    accepted: seq<int>,
    copied: seq<bool>,
    read: Bytes,
    pending: Bytes,
    written: Bytes)

  datatype System = System(a: End, b: End)

  const IDLE: End := End(INITIAL, [], [], [], [], [], [], [], [])
  const START: System := System(IDLE, IDLE)

  /** `SendChunk`: `tcp_recv` read a chunk and `udp_send` numbered it (a failing `sendto` is a
      send followed by a loss). `Receive`: the network hands over one of the other side's
      datagrams, keeping a copy or not. `WriteTcp`: one `send` of `tcp_send` took n bytes.
      `EmitControl`: a keep-alive or handshake message. `Close`: any of the ways to close. */
  datatype Step =
    | SendChunk(chunk: Bytes)
    | Receive(at: nat, keep: bool)
    | WriteTcp(n: nat)
    | EmitControl(message: Bytes)
    | Lose(at: nat)
    | Close(reset: bool)

  datatype Actor = A | B
  datatype Action = Action(who: Actor, step: Step)

  predicate IsControlMessage(message: Bytes) {
    message == KEEP_ALIVE || message == OPEN_01 || message == CLOSE_02 || message == ACK_03
  }

  predicate Enabled(me: End, other: End, step: Step) {
    match step
    case SendChunk(chunk) => !me.peer.closed && |chunk| <= TCP_MTU_SIZE
    case Receive(at, _) => !me.peer.closed && at < |other.wire|
    case WriteTcp(n) => !me.peer.closed && n <= |me.pending|
    case EmitControl(message) => IsControlMessage(message)
    case Lose(at) => at < |me.wire|
    case Close(_) => true
  }

  function Without<T>(s: seq<T>, at: nat): seq<T>
    requires at < |s|
  {
    s[..at] + s[at + 1..]
  }

  /** Frame k of a burst of n frames repeats packet sent - n + k. */
  function TagReplies(me: End, datagram: Bytes, replies: seq<Bytes>): (tagged: seq<Tagged>)
    ensures |tagged| == |replies|
  {
    var burst := Decode(Clip(datagram)).Nak?;
    seq(|replies|, k requires 0 <= k < |replies| =>
      Tagged(replies[k], if burst then |me.sent| - |replies| + k else CONTROL, |me.sent|, burst))
  }

  function AfterSend(me: End, chunk: Bytes): End
    requires |chunk| <= TCP_MTU_SIZE
  {
    var frame := Tagged(DataFrame(me.peer.id, chunk), |me.sent|, |me.sent| + 1, false);
    me.(peer := Stored(me.peer, chunk), sent := me.sent + [chunk], wire := me.wire + [frame],
        read := me.read + chunk)
  }

  function AfterReceive(build: Build, me: End, tagged: Tagged): End {
    var reaction := React(build, me.peer, tagged.datagram);
    var replied := me.(peer := reaction.peer,
                       wire := me.wire + TagReplies(me, tagged.datagram, reaction.replies));
    if reaction.accepted
    then replied.(delivered := me.delivered + [reaction.payload],
                  accepted := me.accepted + [tagged.index],
                  copied := me.copied + [tagged.copy],
                  pending := me.pending + reaction.payload)
    else replied
  }

  function Apply(build: Build, me: End, other: End, step: Step): (next: (End, End))
    requires Enabled(me, other, step)
  {
    match step
    case SendChunk(chunk) => (AfterSend(me, chunk), other)
    case Receive(at, keep) =>
      (AfterReceive(build, me, other.wire[at]),
       if keep then other else other.(wire := Without(other.wire, at)))
    case WriteTcp(n) =>
      (me.(pending := me.pending[n..], written := me.written + me.pending[..n]), other)
    case EmitControl(message) =>
      (me.(wire := me.wire + [Tagged(message, CONTROL, |me.sent|, false)]), other)
    case Lose(at) => (me.(wire := Without(me.wire, at)), other)
    case Close(reset) =>
      (me.(peer := if reset then Closed(me.peer) else me.peer.(closed := true)), other)
  }

  /** What the network may do. `Wild` loses, duplicates and reorders without limit. `Fresh` does
      too, but hands over no data frame 256 or more packets away from the one awaited. `Queue`
      loses and repeats but never reorders. `Fifo` is a queue that besides hands over no data frame
      while more than 256 packets are numbered and undelivered. */
  datatype Channel = Wild | Fresh | Queue | Fifo

  /** The networks that keep accepted frames within 256 packets of the one awaited. */
  predicate Windowed(channel: Channel) {
    channel == Fresh || channel == Fifo
  }

  predicate Admits(channel: Channel, me: End, other: End, step: Step)
    requires Enabled(me, other, step)
  {
    step.Receive? ==>
      match channel
      case Wild => true
      case Fresh =>
        var index := other.wire[step.at].index;
        index == CONTROL || |me.delivered| - RING_SIZE < index < |me.delivered| + RING_SIZE
      case Queue => step.at == 0
      case Fifo =>
        step.at == 0 &&
        (other.wire[0].index == CONTROL || |other.sent| - |me.delivered| <= RING_SIZE)
  }

  function Mine(s: System, who: Actor): End {
    if who == A then s.a else s.b
  }

  function Theirs(s: System, who: Actor): End {
    if who == A then s.b else s.a
  }

  datatype Outcome = Stuck | Reached(state: System)

  function Advance(build: Build, channel: Channel, s: System, action: Action): Outcome {
    var me, other := Mine(s, action.who), Theirs(s, action.who);
    if Enabled(me, other, action.step) && Admits(channel, me, other, action.step) then
      var (me', other') := Apply(build, me, other, action.step);
      Reached(if action.who == A then System(me', other') else System(other', me'))
    else Stuck
  }

  /** The state a run leads to, if every one of its actions can be taken. */
  function Run(build: Build, channel: Channel, s: System, actions: seq<Action>): Outcome {
    if actions == [] then Reached(s)
    else
      match Run(build, channel, s, actions[..|actions| - 1])
      case Stuck => Stuck
      case Reached(t) => Advance(build, channel, t, actions[|actions| - 1])
  }

  lemma RunOne(build: Build, channel: Channel, s: System, action: Action)
    ensures Run(build, channel, s, [action]) == Advance(build, channel, s, action)
  {
    assert [action][..0] == [];
  }

  /** One action more. */
  lemma RunExtends(build: Build, channel: Channel, s: System, actions: seq<Action>, action: Action)
    ensures Run(build, channel, s, actions + [action]) ==
            match Run(build, channel, s, actions)
            case Stuck => Stuck
            case Reached(t) => Advance(build, channel, t, action)
  {
    assert (actions + [action])[..|actions|] == actions;
  }

  /** One run after another. */
  lemma RunConcat(build: Build, channel: Channel, s: System, first: seq<Action>, second: seq<Action>)
    requires Run(build, channel, s, first).Reached?
    ensures Run(build, channel, s, first + second) ==
            Run(build, channel, Run(build, channel, s, first).state, second)
  {
    RunOnwards(build, channel, s, first, Run(build, channel, s, first).state, second, first + second);
  }

  lemma {:induction false} RunOnwards(build: Build, channel: Channel, s: System, first: seq<Action>, t: System,
                                      second: seq<Action>, whole: seq<Action>)
    requires Run(build, channel, s, first) == Reached(t) && whole == first + second
    ensures Run(build, channel, s, whole) == Run(build, channel, t, second)
    decreases |second|
  {
    if second == [] {
      assert whole == first;
    } else {
      var front, before, last := LastOff(first, second, whole);
      RunOnwards(build, channel, s, first, t, front, before);
      ExtendBoth(build, channel, s, before, whole, t, front, second, last);
    }
  }

  lemma LastOff(first: seq<Action>, second: seq<Action>, whole: seq<Action>)
      returns (front: seq<Action>, before: seq<Action>, last: Action)
    requires second != [] && whole == first + second
    ensures second == front + [last] && before == first + front && whole == before + [last]
  {
    front, last := second[..|second| - 1], second[|second| - 1];
    before := first + front;
  }

  lemma ExtendBoth(build: Build, channel: Channel, s: System, one: seq<Action>, one': seq<Action>,
                   t: System, other: seq<Action>, other': seq<Action>, action: Action)
    requires Run(build, channel, s, one) == Run(build, channel, t, other)
    requires one' == one + [action] && other' == other + [action]
    ensures Run(build, channel, s, one') == Run(build, channel, t, other')
  {
    RunExtends(build, channel, s, one, action);
    RunExtends(build, channel, t, other, action);
  }

  function Flatten(chunks: seq<Bytes>): Bytes {
    if chunks == [] then [] else Flatten(chunks[..|chunks| - 1]) + chunks[|chunks| - 1]
  }

  // ---------------------------------------------------------------- invariants

  /** The counter is the number of packets modulo 256 and each slot written so far holds the
      newest packet of its residue. */
  ghost predicate RingHolds(e: End) {
    && (forall j :: 0 <= j < |e.sent| ==> |e.sent[j]| <= TCP_MTU_SIZE)
    && (!e.peer.closed ==>
        && e.peer.id == |e.sent| % RING_SIZE
        && forall j :: 0 <= j < |e.sent| && |e.sent| - RING_SIZE <= j ==>
             e.peer.ring[j % RING_SIZE] == e.sent[j])
  }

  predicate IsControl(t: Tagged) {
    t.index == CONTROL && !Decode(Clip(t.datagram)).Data?
  }

  /** The datagram is packet `index`, as first sent or as retransmitted, and when it was put on the wire
      fewer than 256 packets had been numbered from it on. */
  predicate IsPacket(build: Build, sent: seq<Bytes>, t: Tagged) {
    && 0 <= t.index < |sent|
    && t.index < t.era <= |sent| && t.era - t.index < RING_SIZE
    && t.datagram == if t.copy then RetransmitFrame(build, t.index % RING_SIZE, sent[t.index])
                     else DataFrame(t.index % RING_SIZE, sent[t.index])
  }

  ghost predicate WireHolds(build: Build, e: End) {
    forall t :: t in e.wire ==> IsControl(t) || IsPacket(build, e.sent, t)
  }

  /** What a payload accepted for `original` is: from a retransmission as written, all but the last
      three bytes; otherwise the packet itself. */
  predicate Carries(build: Build, original: Bytes, copied: bool, payload: Bytes) {
    if copied && build == AsWritten
    then |original| >= HEADER_SIZE && payload == original[..|original| - HEADER_SIZE]
    else payload == original
  }

  ghost predicate DeliveryHolds(build: Build, source: End, target: End) {
    && |target.accepted| == |target.copied| == |target.delivered|
    && (!target.peer.closed ==> target.peer.expected == |target.delivered| % RING_SIZE)
    && (forall k :: 0 <= k < |target.delivered| ==>
          && 0 <= target.accepted[k] < |source.sent|
          && target.accepted[k] % RING_SIZE == k % RING_SIZE
          && Carries(build, source.sent[target.accepted[k]], target.copied[k], target.delivered[k]))
  }

  ghost predicate BytesHold(e: End) {
    e.read == Flatten(e.sent) && e.written + e.pending == Flatten(e.delivered)
  }

  /** What holds of everything that flows from `source` to `target`. */
  ghost predicate FlowHolds(build: Build, source: End, target: End) {
    RingHolds(source) && WireHolds(build, source) && DeliveryHolds(build, source, target) && BytesHold(source)
  }

  ghost predicate Invariant(build: Build, s: System) {
    FlowHolds(build, s.a, s.b) && FlowHolds(build, s.b, s.a)
  }

  // ---------------------------------------------------------------- one step

  lemma FlattenAppend(chunks: seq<Bytes>, chunk: Bytes)
    ensures Flatten(chunks + [chunk]) == Flatten(chunks) + chunk
  {
    assert (chunks + [chunk])[..|chunks|] == chunks;
  }

  lemma {:induction false} FlattenPrefix(chunks: seq<Bytes>, n: nat)
    requires n <= |chunks|
    ensures Flatten(chunks[..n]) <= Flatten(chunks)
  {
    if n < |chunks| {
      var front := chunks[..|chunks| - 1];
      FlattenPrefix(front, n);
      assert front[..n] == chunks[..n];
    } else {
      assert chunks[..n] == chunks;
    }
  }

  lemma SendKeepsRing(me: End, chunk: Bytes)
    requires RingHolds(me) && !me.peer.closed && |chunk| <= TCP_MTU_SIZE
    ensures RingHolds(AfterSend(me, chunk))
  {
  }

  lemma SendKeepsWire(build: Build, me: End, chunk: Bytes)
    requires RingHolds(me) && WireHolds(build, me) && !me.peer.closed && |chunk| <= TCP_MTU_SIZE
    ensures WireHolds(build, AfterSend(me, chunk))
  {
    var me' := AfterSend(me, chunk);
    forall t | t in me'.wire ensures IsControl(t) || IsPacket(build, me'.sent, t) {
      if t in me.wire && !IsControl(t) {
        assert IsPacket(build, me.sent, t);
      }
    }
  }

  lemma SendKeeps(build: Build, me: End, other: End, chunk: Bytes)
    requires FlowHolds(build, me, other) && FlowHolds(build, other, me)
    requires !me.peer.closed && |chunk| <= TCP_MTU_SIZE
    ensures FlowHolds(build, AfterSend(me, chunk), other) && FlowHolds(build, other, AfterSend(me, chunk))
  {
    SendKeepsRing(me, chunk);
    SendKeepsWire(build, me, chunk);
    FlattenAppend(me.sent, chunk);
    assert DeliveryHolds(build, AfterSend(me, chunk), other);
  }

  /** Every frame of a burst repeats the packet its tag names, at most 255 packets old. */
  lemma BurstIsPackets(build: Build, me: End, got: Byte)
    requires RingHolds(me) && !me.peer.closed
    ensures BurstSize(me.peer, got) <= |me.sent|
    ensures forall k :: 0 <= k < BurstSize(me.peer, got) ==>
              var index := |me.sent| - BurstSize(me.peer, got) + k;
              IsPacket(build, me.sent, Tagged(Burst(build, me.peer, got)[k], index, |me.sent|, true))
  {
    forall k | 0 <= k < BurstSize(me.peer, got)
      ensures var index := |me.sent| - BurstSize(me.peer, got) + k;
              IsPacket(build, me.sent, Tagged(Burst(build, me.peer, got)[k], index, |me.sent|, true))
    {
      var index := |me.sent| - BurstSize(me.peer, got) + k;
      assert index % RING_SIZE == got + k;
      assert me.peer.ring[index % RING_SIZE] == me.sent[index];
    }
  }

  /** A data frame is accepted only if its packet has the awaited residue, and its payload is then
      the packet or, from a retransmission as written, the packet without its last three bytes. */
  lemma AcceptedPacket(build: Build, source: End, target: End, t: Tagged)
    requires RingHolds(source) && !target.peer.closed
    requires IsControl(t) || IsPacket(build, source.sent, t)
    requires React(build, target.peer, t.datagram).accepted
    ensures IsPacket(build, source.sent, t)
    ensures t.index % RING_SIZE == target.peer.expected
    ensures Carries(build, source.sent[t.index], t.copy, React(build, target.peer, t.datagram).payload)
  {
    var id: Byte, original := t.index % RING_SIZE, source.sent[t.index];
    FramesRoundTrip(id, original);
    RetransmitDecodes(build, id, original);
  }

  lemma ReceiveKeepsWire(build: Build, me: End, t: Tagged)
    requires RingHolds(me) && WireHolds(build, me) && !me.peer.closed
    ensures WireHolds(build, AfterReceive(build, me, t))
  {
    if Decode(Clip(t.datagram)).Nak? {
      BurstIsPackets(build, me, Decode(Clip(t.datagram)).got);
    }
    var tags := TagReplies(me, t.datagram, React(build, me.peer, t.datagram).replies);
    forall k | 0 <= k < |tags| ensures IsControl(tags[k]) || IsPacket(build, me.sent, tags[k]) {
    }
  }

  lemma NextResidue(n: nat, b: Byte)
    requires b == n % RING_SIZE
    ensures Succ(b) == (n + 1) % RING_SIZE
  {
  }

  lemma DeliveryGrows(build: Build, source: End, before: End, after: End, index: int, copied: bool, payload: Bytes)
    requires DeliveryHolds(build, source, before) && !before.peer.closed
    requires after.delivered == before.delivered + [payload] && after.accepted == before.accepted + [index]
    requires after.copied == before.copied + [copied]
    requires after.peer.expected == Succ(before.peer.expected)
    requires 0 <= index < |source.sent| && index % RING_SIZE == before.peer.expected
    requires Carries(build, source.sent[index], copied, payload)
    ensures DeliveryHolds(build, source, after)
  {
    NextResidue(|before.delivered|, before.peer.expected);
    forall k | 0 <= k < |after.delivered|
      ensures 0 <= after.accepted[k] < |source.sent| && after.accepted[k] % RING_SIZE == k % RING_SIZE
      ensures Carries(build, source.sent[after.accepted[k]], after.copied[k], after.delivered[k])
    {
      assert k == |before.delivered| || after.accepted[k] == before.accepted[k];
    }
  }

  lemma ReceiveKeepsDelivery(build: Build, me: End, other: End, t: Tagged)
    requires RingHolds(other) && DeliveryHolds(build, other, me) && !me.peer.closed
    requires IsControl(t) || IsPacket(build, other.sent, t)
    ensures DeliveryHolds(build, other, AfterReceive(build, me, t))
  {
    var reaction := React(build, me.peer, t.datagram);
    if reaction.accepted {
      AcceptedPacket(build, other, me, t);
      DeliveryGrows(build, other, me, AfterReceive(build, me, t), t.index, t.copy, reaction.payload);
    }
  }

  lemma ReceiveKeepsBytes(build: Build, me: End, t: Tagged)
    requires BytesHold(me)
    ensures BytesHold(AfterReceive(build, me, t))
  {
    var payload := React(build, me.peer, t.datagram).payload;
    FlattenAppend(me.delivered, payload);
    assert me.written + (me.pending + payload) == (me.written + me.pending) + payload;
  }

  lemma ReceiveKeepsSource(build: Build, me: End, other: End, t: Tagged)
    requires FlowHolds(build, me, other) && !me.peer.closed
    ensures FlowHolds(build, AfterReceive(build, me, t), other)
  {
    ReceiveKeepsWire(build, me, t);
    ReceiveKeepsBytes(build, me, t);
    ReceiveKeepsRing(build, me, t);
    SameSource(build, me, AfterReceive(build, me, t), other);
  }

  lemma ReceiveKeepsRing(build: Build, me: End, t: Tagged)
    requires RingHolds(me)
    ensures AfterReceive(build, me, t).sent == me.sent && RingHolds(AfterReceive(build, me, t))
  {
  }

  lemma SameSource(build: Build, before: End, source: End, target: End)
    requires DeliveryHolds(build, before, target) && source.sent == before.sent
    ensures DeliveryHolds(build, source, target)
  {
  }

  lemma ReceiveKeepsTarget(build: Build, me: End, other: End, t: Tagged)
    requires FlowHolds(build, other, me) && !me.peer.closed && t in other.wire
    ensures FlowHolds(build, other, AfterReceive(build, me, t))
  {
    ReceiveKeepsDelivery(build, me, other, t);
  }

  lemma LoseKeeps(build: Build, source: End, target: End, at: nat)
    requires FlowHolds(build, source, target) && at < |source.wire|
    ensures FlowHolds(build, source.(wire := Without(source.wire, at)), target)
  {
    assert forall t :: t in Without(source.wire, at) ==> t in source.wire;
  }

  lemma ReceiveKeeps(build: Build, me: End, other: End, at: nat, keep: bool)
    requires FlowHolds(build, me, other) && FlowHolds(build, other, me)
    requires Enabled(me, other, Receive(at, keep))
    ensures var (me', other') := Apply(build, me, other, Receive(at, keep));
            FlowHolds(build, me', other') && FlowHolds(build, other', me')
  {
    var t := other.wire[at];
    assert t in other.wire;
    ReceiveKeepsSource(build, me, other, t);
    ReceiveKeepsTarget(build, me, other, t);
    var me' := AfterReceive(build, me, t);
    if !keep {
      LoseKeeps(build, other, me', at);
      assert DeliveryHolds(build, me', other.(wire := Without(other.wire, at)));
    }
  }

  lemma WriteKeepsBytes(me: End, n: nat)
    requires BytesHold(me) && n <= |me.pending|
    ensures BytesHold(me.(pending := me.pending[n..], written := me.written + me.pending[..n]))
  {
    assert me.pending == me.pending[..n] + me.pending[n..];
    assert (me.written + me.pending[..n]) + me.pending[n..] == me.written + me.pending;
  }

  lemma ControlKeepsWire(build: Build, me: End, message: Bytes)
    requires WireHolds(build, me) && IsControlMessage(message)
    ensures WireHolds(build, me.(wire := me.wire + [Tagged(message, CONTROL, |me.sent|, false)]))
  {
  }

  lemma StepKeeps(build: Build, me: End, other: End, step: Step)
    requires FlowHolds(build, me, other) && FlowHolds(build, other, me)
    requires Enabled(me, other, step)
    ensures var (me', other') := Apply(build, me, other, step);
            FlowHolds(build, me', other') && FlowHolds(build, other', me')
  {
    match step
    case SendChunk(chunk) => SendKeeps(build, me, other, chunk);
    case Receive(at, keep) => ReceiveKeeps(build, me, other, at, keep);
    case WriteTcp(n) => WriteKeepsBytes(me, n);
    case EmitControl(message) => ControlKeepsWire(build, me, message);
    case Lose(at) => LoseKeeps(build, me, other, at);
    case Close(reset) =>
  }
}
