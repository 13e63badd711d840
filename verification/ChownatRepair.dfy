/** What a repair request repairs, and exactly when a lost packet can still be delivered. */
module ChownatRepair {
  import opened Wire
  import opened ChownatPeer
  import opened ChownatLink
  import opened ChownatDelivery

  // ---------------------------------------------------------------- one answer

  /** The retransmissions of packets [from, to). */
  function Packets(build: Build, sent: seq<Bytes>, from: nat, to: nat): (frames: seq<Bytes>)
    requires from <= to <= |sent|
    ensures |frames| == to - from
  {
    seq(to - from, k requires 0 <= k < to - from =>
      RetransmitFrame(build, (from + k) % RING_SIZE, sent[from + k]))
  }

  /** Whether packets `x` and `y` lie between the same two wraps of the sequence byte. */
  predicate SameLap(x: nat, y: nat) {
    x / RING_SIZE == y / RING_SIZE
  }

  /** The answer to an up-to-date repair request is exactly the missing packets in order if the
      sequence byte has not wrapped since the first missing one, and nothing otherwise. */
  lemma AnswerExact(build: Build, source: End, missing: nat)
    requires RingHolds(source) && !source.peer.closed
    requires missing < |source.sent| <= missing + RING_SIZE
    ensures React(build, source.peer, NakFrame(missing % RING_SIZE)).replies ==
            if SameLap(missing, |source.sent|) then Packets(build, source.sent, missing, |source.sent|) else []
  {
    var n := |source.sent|;
    var got: Byte := missing % RING_SIZE;
    FramesRoundTrip(got, []);
    if SameLap(missing, n) {
      assert BurstSize(source.peer, got) == n - missing;
      forall k | 0 <= k < n - missing
        ensures Burst(build, source.peer, got)[k] == Packets(build, source.sent, missing, n)[k]
      {
        assert (missing + k) % RING_SIZE == got + k;
        assert source.peer.ring[(missing + k) % RING_SIZE] == source.sent[missing + k];
      }
    } else {
      assert BurstSize(source.peer, got) == 0;
    }
  }

  // ---------------------------------------------------------------- what stays lost

  /** The datagram can be read as data, and, if `whole` is asked for, as all of `packet`. */
  predicate Copies(packet: Bytes, datagram: Bytes, whole: bool) {
    Decode(Clip(datagram)).Data? && (whole ==> Decode(Clip(datagram)).payload == packet)
  }

  /** No datagram in flight is a copy of packet `index`. */
  ghost predicate NoCopy(e: End, index: nat, whole: bool)
    requires index < |e.sent|
  {
    forall t :: t in e.wire && t.index == index ==> !Copies(e.sent[index], t.datagram, whole)
  }

  /** The condition under which a retransmission of packet `index` is sent and readable: the
      sequence byte has not wrapped since, and the frame length leaves a whole header, or, for
      the whole packet, all of it. */
  predicate Repairable(build: Build, source: End, index: nat, whole: bool)
    requires index < |source.sent|
  {
    && SameLap(index, |source.sent|)
    && (build == WholeFrame || (!whole && |source.sent[index]| >= HEADER_SIZE))
  }

  /** Nothing carries packet `index` to `target` any more, now or later. */
  ghost predicate GoneFor(build: Build, source: End, target: End, index: nat, whole: bool) {
    && index < |source.sent|
    && !Repairable(build, source, index, whole)
    && NoCopy(source, index, whole)
    && |target.accepted| == |target.delivered|
    && (forall k :: index <= k < |target.accepted| && target.accepted[k] == index ==>
          whole && target.delivered[k] != source.sent[index])
  }

  lemma SendKeepsGone(build: Build, me: End, other: End, chunk: Bytes, index: nat, whole: bool)
    requires GoneFor(build, me, other, index, whole) && |chunk| <= TCP_MTU_SIZE
    ensures GoneFor(build, AfterSend(me, chunk), other, index, whole)
  {
    assert AfterSend(me, chunk).sent[index] == me.sent[index];
  }

  lemma BurstKeepsGone(build: Build, me: End, t: Tagged, index: nat, whole: bool)
    requires RingHolds(me) && !me.peer.closed
    requires index < |me.sent| && !Repairable(build, me, index, whole) && NoCopy(me, index, whole)
    ensures NoCopy(AfterReceive(build, me, t), index, whole)
  {
    var replies := React(build, me.peer, t.datagram).replies;
    var tags := TagReplies(me, t.datagram, replies);
    assert AfterReceive(build, me, t).wire == me.wire + tags;
    if Decode(Clip(t.datagram)).Nak? {
      var got := Decode(Clip(t.datagram)).got;
      BurstIsPackets(build, me, got);
      forall k | 0 <= k < |tags| && tags[k].index == index
        ensures !Copies(me.sent[index], tags[k].datagram, whole)
      {
        assert SameLap(index, |me.sent|);
        assert me.peer.ring[index % RING_SIZE] == me.sent[index];
        RetransmitDecodes(build, index % RING_SIZE, me.sent[index]);
      }
    }
  }

  lemma AcceptKeepsGone(build: Build, me: End, other: End, t: Tagged, index: nat, whole: bool)
    requires GoneFor(build, other, me, index, whole) && t in other.wire
    ensures GoneFor(build, other, AfterReceive(build, me, t), index, whole)
  {
  }

  lemma LoseKeepsGone(build: Build, source: End, target: End, at: nat, index: nat, whole: bool)
    requires GoneFor(build, source, target, index, whole) && at < |source.wire|
    ensures GoneFor(build, source.(wire := Without(source.wire, at)), target, index, whole)
  {
    assert forall t :: t in Without(source.wire, at) ==> t in source.wire;
  }

  /** A step of the sender. */
  lemma SourceStepKeepsGone(build: Build, me: End, other: End, step: Step, index: nat, whole: bool)
    requires RingHolds(me) && Enabled(me, other, step) && GoneFor(build, me, other, index, whole)
    ensures var (me', other') := Apply(build, me, other, step); GoneFor(build, me', other', index, whole)
  {
    match step
    case SendChunk(chunk) => SendKeepsGone(build, me, other, chunk, index, whole);
    case Receive(at, keep) => BurstKeepsGone(build, me, other.wire[at], index, whole);
    case Lose(at) => LoseKeepsGone(build, me, other, at, index, whole);
    case _ =>
  }

  /** A step of the receiver. */
  lemma TargetStepKeepsGone(build: Build, me: End, other: End, step: Step, index: nat, whole: bool)
    requires Enabled(me, other, step) && GoneFor(build, other, me, index, whole)
    ensures var (me', other') := Apply(build, me, other, step); GoneFor(build, other', me', index, whole)
  {
    match step
    case Receive(at, keep) =>
      assert other.wire[at] in other.wire;
      AcceptKeepsGone(build, me, other, other.wire[at], index, whole);
      if !keep { LoseKeepsGone(build, other, AfterReceive(build, me, other.wire[at]), at, index, whole); }
    case _ =>
  }

  lemma {:induction false} RunKeepsGone(build: Build, s: System, actions: seq<Action>, index: nat, whole: bool)
    requires Invariant(build, s) && Run(build, Wild, s, actions).Reached?
    requires GoneFor(build, s.a, s.b, index, whole)
    ensures var u := Run(build, Wild, s, actions).state; GoneFor(build, u.a, u.b, index, whole)
  {
    if actions != [] {
      var front, last := actions[..|actions| - 1], actions[|actions| - 1];
      RunKeepsGone(build, s, front, index, whole);
      RunKeeps(build, Wild, s, front);
      var t := Run(build, Wild, s, front).state;
      if last.who == A {
        SourceStepKeepsGone(build, t.a, t.b, last.step, index, whole);
      } else {
        TargetStepKeepsGone(build, t.b, t.a, last.step, index, whole);
      }
    }
  }

  // ---------------------------------------------------------------- what grows

  /** Neither side ever forgets a packet it numbered or accepted. */
  lemma StepGrows(build: Build, me: End, other: End, step: Step)
    requires Enabled(me, other, step)
    ensures var (me', other') := Apply(build, me, other, step);
            && me.sent <= me'.sent && me.delivered <= me'.delivered
            && other.sent == other'.sent && other.delivered == other'.delivered
  {
  }

  lemma AdvanceGrows(build: Build, channel: Channel, s: System, action: Action)
    requires Advance(build, channel, s, action).Reached?
    ensures var t := Advance(build, channel, s, action).state;
            s.a.sent <= t.a.sent && s.b.delivered <= t.b.delivered
    ensures Advance(build, Wild, s, action) == Advance(build, channel, s, action)
  {
    StepGrows(build, Mine(s, action.who), Theirs(s, action.who), action.step);
  }

  /** A run over any network is a run over the wildest one. */
  lemma {:induction false} RunWithinWild(build: Build, channel: Channel, s: System, actions: seq<Action>)
    requires Run(build, channel, s, actions).Reached?
    ensures Run(build, Wild, s, actions) == Run(build, channel, s, actions)
    ensures var t := Run(build, channel, s, actions).state; s.a.sent <= t.a.sent && s.b.delivered <= t.b.delivered
  {
    if actions != [] {
      var front := actions[..|actions| - 1];
      RunWithinWild(build, channel, s, front);
      AdvanceGrows(build, channel, Run(build, channel, s, front).state, actions[|actions| - 1]);
    }
  }

  // ---------------------------------------------------------------- answering and taking

  /** The retransmissions of packets [from, sent), as they are put on the wire. */
  function AnswerTags(build: Build, sent: seq<Bytes>, from: nat): (tags: seq<Tagged>)
    requires from <= |sent|
    ensures |tags| == |sent| - from
  {
    seq(|sent| - from, k requires 0 <= k < |sent| - from =>
      Tagged(RetransmitFrame(build, (from + k) % RING_SIZE, sent[from + k]), from + k, |sent|, true))
  }

  lemma BurstIsAnswer(build: Build, me: End, request: Tagged, got: Byte)
    requires RingHolds(me) && !me.peer.closed && Decode(Clip(request.datagram)) == Nak(got)
    ensures BurstSize(me.peer, got) <= |me.sent|
    ensures TagReplies(me, request.datagram, Burst(build, me.peer, got)) ==
            AnswerTags(build, me.sent, |me.sent| - BurstSize(me.peer, got))
  {
    BurstIsPackets(build, me, got);
    var tags := TagReplies(me, request.datagram, Burst(build, me.peer, got));
    var answer := AnswerTags(build, me.sent, |me.sent| - BurstSize(me.peer, got));
    forall k | 0 <= k < |tags| ensures tags[k] == answer[k] {
      var index := |me.sent| - BurstSize(me.peer, got) + k;
      assert IsPacket(build, me.sent, Tagged(Burst(build, me.peer, got)[k], index, |me.sent|, true));
    }
  }

  /** The wire after a request was answered. */
  lemma AnswerOnWire(build: Build, me: End, request: Tagged, got: Byte)
    requires RingHolds(me) && !me.peer.closed && Decode(Clip(request.datagram)) == Nak(got)
    ensures BurstSize(me.peer, got) <= |me.sent|
    ensures AfterReceive(build, me, request) ==
            me.(wire := me.wire + AnswerTags(build, me.sent, |me.sent| - BurstSize(me.peer, got)))
  {
    BurstIsAnswer(build, me, request, got);
  }

  /** Where the answer begins. */
  lemma AnswerBegins(missing: nat, n: nat, got: Byte)
    requires missing < n && SameLap(missing, n) && got <= missing % RING_SIZE
    ensures got < n % RING_SIZE && n % RING_SIZE - got <= n
    ensures n - (n % RING_SIZE - got) <= missing
    ensures got == missing % RING_SIZE ==> n - (n % RING_SIZE - got) == missing
  {
  }

  /** The awaited data frame is accepted. */
  lemma TakesAwaited(build: Build, me: End, t: Tagged, payload: Bytes)
    requires Decode(Clip(t.datagram)) == Data(me.peer.expected, payload)
    ensures var me' := AfterReceive(build, me, t);
            && me'.delivered == me.delivered + [payload] && me'.accepted == me.accepted + [t.index]
            && me'.peer == me.peer.(expected := Succ(me.peer.expected))
  {
  }

  /** A keep-alive or an unexpected data frame changes neither the counter nor the deliveries. */
  lemma PassesOver(build: Build, me: End, t: Tagged)
    requires Decode(Clip(t.datagram)).KeepAlive?
          || (Decode(Clip(t.datagram)).Data? && Decode(Clip(t.datagram)).got != me.peer.expected)
    ensures var me' := AfterReceive(build, me, t);
            me'.delivered == me.delivered && me'.accepted == me.accepted && me'.peer == me.peer
  {
  }

  /** An unexpected data frame makes b ask for the packet it awaits. */
  lemma AsksForAwaited(build: Build, me: End, t: Tagged)
    requires Decode(Clip(t.datagram)).Data? && Decode(Clip(t.datagram)).got != me.peer.expected
    ensures AfterReceive(build, me, t) ==
            me.(wire := me.wire + [Tagged(NakFrame(me.peer.expected), CONTROL, |me.sent|, false)])
  {
  }

  /** The retransmission of the awaited packet is accepted wherever it is readable. */
  lemma RetransmissionTaken(build: Build, packet: Bytes, target: End, t: Tagged, whole: bool)
    requires |packet| <= TCP_MTU_SIZE && |target.accepted| == |target.delivered|
    requires build == WholeFrame || (!whole && |packet| >= HEADER_SIZE)
    requires t.datagram == RetransmitFrame(build, target.peer.expected, packet)
    ensures var n, target' := |target.delivered|, AfterReceive(build, target, t);
            && |target'.accepted| == |target'.delivered| == n + 1
            && target'.accepted[n] == t.index && (whole ==> target'.delivered[n] == packet)
  {
    RetransmitDecodes(build, target.peer.expected, packet);
    TakesAwaited(build, target, t, Decode(t.datagram).payload);
  }

  // ---------------------------------------------------------------- what can still be delivered

  /** The run from `s` delivers packet `index` to b, whole if that is asked for. */
  ghost predicate Recovers(build: Build, s: System, actions: seq<Action>, index: nat, whole: bool) {
    && Run(build, Wild, s, actions).Reached? && index < |s.a.sent|
    && var u := Run(build, Wild, s, actions).state;
       && |u.b.accepted| == |u.b.delivered|
       && exists k :: index <= k < |u.b.accepted| && u.b.accepted[k] == index
                      && (whole ==> u.b.delivered[k] == s.a.sent[index])
  }

  /** b awaits a packet that was numbered, and both sides are open. */
  predicate Awaits(s: System) {
    !s.a.peer.closed && !s.b.peer.closed && |s.b.delivered| < |s.a.sent|
  }

  /** A retransmission of the packet is readable. */
  predicate Legible(build: Build, packet: Bytes) {
    build == WholeFrame || |packet| >= HEADER_SIZE
  }

  /** The datagram asks for a packet that is not older than the missing one and readable in the
      answer. */
  ghost predicate Asks(build: Build, sent: seq<Bytes>, datagram: Bytes, missing: nat) {
    && Decode(Clip(datagram)).Nak?
    && exists j :: missing <= j < |sent| && Decode(Clip(datagram)).got <= j % RING_SIZE && Legible(build, sent[j])
  }

  /** The datagram makes a peer that awaits `missing` ask for it. */
  predicate Prompts(datagram: Bytes, missing: nat) {
    Decode(Clip(datagram)).Data? && Decode(Clip(datagram)).got != missing % RING_SIZE
  }

  /** What can set a repair off, as the code has no retransmission timer: a request in flight, a data
      frame in flight that b does not await, or room in the lap for one more packet. */
  ghost predicate Triggered(build: Build, s: System) {
    || (exists i :: 0 <= i < |s.b.wire| && Asks(build, s.a.sent, s.b.wire[i].datagram, |s.b.delivered|))
    || (exists i :: 0 <= i < |s.a.wire| && Prompts(s.a.wire[i].datagram, |s.b.delivered|))
    || SameLap(|s.b.delivered|, |s.a.sent| + 1)
  }

  lemma OneBefore(build: Build, s: System, first: Action, t: System, actions: seq<Action>, index: nat, whole: bool)
    requires Advance(build, Wild, s, first) == Reached(t) && Recovers(build, t, actions, index, whole)
    requires index < |s.a.sent| && s.a.sent[index] == t.a.sent[index]
    ensures Recovers(build, s, [first] + actions, index, whole)
  {
    RunOne(build, Wild, s, first);
    RunConcat(build, Wild, s, [first], actions);
  }

  /** A request for packet j or an older one of its lap puts j on the wire. */
  lemma AnswerReaches(build: Build, s: System, at: nat, j: nat) returns (t: System, place: nat)
    requires RingHolds(s.a) && !s.a.peer.closed && at < |s.b.wire| && Decode(Clip(s.b.wire[at].datagram)).Nak?
    requires j < |s.a.sent| && SameLap(j, |s.a.sent|) && Decode(Clip(s.b.wire[at].datagram)).got <= j % RING_SIZE
    ensures Advance(build, Wild, s, Action(A, Receive(at, false))) == Reached(t)
    ensures t.a.sent == s.a.sent && t.a.peer == s.a.peer && t.b == s.b.(wire := Without(s.b.wire, at))
    ensures place < |t.a.wire| && t.a.wire[place].index == j
    ensures t.a.wire[place].datagram == RetransmitFrame(build, j % RING_SIZE, s.a.sent[j])
  {
    var got := Decode(Clip(s.b.wire[at].datagram)).got;
    AnswerOnWire(build, s.a, s.b.wire[at], got);
    AnswerBegins(j, |s.a.sent|, got);
    AnswerTaken(build, Wild, s, at);
    var from := |s.a.sent| - BurstSize(s.a.peer, got);
    t := System(AfterReceive(build, s.a, s.b.wire[at]), s.b.(wire := Without(s.b.wire, at)));
    place := |s.a.wire| + (j - from);
    assert t.a.wire[place] == AnswerTags(build, s.a.sent, from)[j - from];
  }

  /** A request for the missing packet or an older one of its lap is answered, among others, with the
      missing packet, and b takes it. */
  lemma RequestedIsRepaired(build: Build, s: System, at: nat, whole: bool) returns (actions: seq<Action>)
    requires Invariant(build, s) && Awaits(s) && Repairable(build, s.a, |s.b.delivered|, whole)
    requires at < |s.b.wire| && Decode(Clip(s.b.wire[at].datagram)).Nak?
    requires Decode(Clip(s.b.wire[at].datagram)).got <= |s.b.delivered| % RING_SIZE
    ensures Recovers(build, s, actions, |s.b.delivered|, whole)
  {
    var missing := |s.b.delivered|;
    var t, place := AnswerReaches(build, s, at, missing);
    RetransmissionTaken(build, s.a.sent[missing], t.b, t.a.wire[place], whole);
    actions := TakenFrom(build, t, place, missing, whole);
    OneBefore(build, s, Action(A, Receive(at, false)), t, actions, missing, whole);
    actions := [Action(A, Receive(at, false))] + actions;
  }

  lemma TakenFrom(build: Build, t: System, place: nat, missing: nat, whole: bool) returns (actions: seq<Action>)
    requires !t.b.peer.closed && place < |t.a.wire| && missing < |t.a.sent|
    requires var b' := AfterReceive(build, t.b, t.a.wire[place]);
             && |b'.accepted| == |b'.delivered| == missing + 1 && b'.accepted[missing] == missing
             && (whole ==> b'.delivered[missing] == t.a.sent[missing])
    ensures Recovers(build, t, actions, missing, whole)
  {
    var take := Action(B, Receive(place, false));
    HandedOver(build, Wild, t, place, false);
    RunOne(build, Wild, t, take);
    actions := [take];
    var b' := Run(build, Wild, t, actions).state.b;
    assert b'.accepted[missing] == missing;
  }

  /** A frame that b does not await makes it ask. */
  lemma PromptedIsRepaired(build: Build, s: System, at: nat, whole: bool) returns (actions: seq<Action>)
    requires Invariant(build, s) && Awaits(s) && Repairable(build, s.a, |s.b.delivered|, whole)
    requires at < |s.a.wire| && Prompts(s.a.wire[at].datagram, |s.b.delivered|)
    ensures Recovers(build, s, actions, |s.b.delivered|, whole)
  {
    var missing := |s.b.delivered|;
    var prompt := Action(B, Receive(at, true));
    assert s.b.peer.expected == missing % RING_SIZE;
    AsksForAwaited(build, s.b, s.a.wire[at]);
    HandedOver(build, Wild, s, at, true);
    AdvanceKeeps(build, Wild, s, prompt);
    var t := System(s.a, AfterReceive(build, s.b, s.a.wire[at]));
    FramesRoundTrip(s.b.peer.expected, []);
    assert t.b.wire[|s.b.wire|].datagram == NakFrame(s.b.peer.expected);
    actions := RequestedIsRepaired(build, t, |s.b.wire|, whole);
    OneBefore(build, s, prompt, t, actions, missing, whole);
    actions := [prompt] + actions;
  }

  /** A request for a later packet is answered with frames that b does not await. */
  lemma LaterRequestRepairs(build: Build, s: System, at: nat, j: nat, whole: bool) returns (actions: seq<Action>)
    requires Invariant(build, s) && Awaits(s) && Repairable(build, s.a, |s.b.delivered|, whole)
    requires at < |s.b.wire| && Decode(Clip(s.b.wire[at].datagram)).Nak?
    requires |s.b.delivered| < j < |s.a.sent| && Legible(build, s.a.sent[j])
    requires Decode(Clip(s.b.wire[at].datagram)).got <= j % RING_SIZE
    ensures Recovers(build, s, actions, |s.b.delivered|, whole)
  {
    var missing := |s.b.delivered|;
    var answer := Action(A, Receive(at, false));
    LapBetween(missing, j, |s.a.sent|);
    var t, place := AnswerReaches(build, s, at, j);
    AdvanceKeeps(build, Wild, s, answer);
    LegiblePrompts(build, s.a.sent, missing, j, t.a.wire[place].datagram);
    actions := PromptedIsRepaired(build, t, place, whole);
    OneBefore(build, s, answer, t, actions, missing, whole);
    actions := [answer] + actions;
  }

  lemma LegiblePrompts(build: Build, sent: seq<Bytes>, missing: nat, j: nat, datagram: Bytes)
    requires missing < j < |sent| && SameLap(missing, j) && Legible(build, sent[j]) && |sent[j]| <= TCP_MTU_SIZE
    requires datagram == RetransmitFrame(build, j % RING_SIZE, sent[j])
    ensures Prompts(datagram, missing)
  {
    RetransmitDecodes(build, j % RING_SIZE, sent[j]);
  }

  lemma LapBetween(x: nat, y: nat, z: nat)
    requires x < y <= z && SameLap(x, z)
    ensures SameLap(y, z) && SameLap(x, y) && x % RING_SIZE < y % RING_SIZE
  {
  }

  /** A further chunk that stays in the lap is a frame b does not await. */
  lemma SendingRepairs(build: Build, s: System, whole: bool) returns (actions: seq<Action>)
    requires Invariant(build, s) && Awaits(s) && Repairable(build, s.a, |s.b.delivered|, whole)
    requires SameLap(|s.b.delivered|, |s.a.sent| + 1)
    ensures Recovers(build, s, actions, |s.b.delivered|, whole)
  {
    var missing, n := |s.b.delivered|, |s.a.sent|;
    var send := Action(A, SendChunk([]));
    SendTaken(build, Wild, s, []);
    AdvanceKeeps(build, Wild, s, send);
    var t := System(AfterSend(s.a, []), s.b);
    LapBetween(missing, n, n + 1);
    FramesRoundTrip(s.a.peer.id, []);
    assert t.a.wire[|s.a.wire|].datagram == DataFrame(s.a.peer.id, []) && s.a.peer.id == n % RING_SIZE;
    actions := PromptedIsRepaired(build, t, |s.a.wire|, whole);
    OneBefore(build, s, send, t, actions, missing, whole);
    actions := [send] + actions;
  }

  lemma RequestRepairs(build: Build, s: System, at: nat, whole: bool) returns (actions: seq<Action>)
    requires Invariant(build, s) && Awaits(s) && Repairable(build, s.a, |s.b.delivered|, whole)
    requires at < |s.b.wire| && Asks(build, s.a.sent, s.b.wire[at].datagram, |s.b.delivered|)
    ensures Recovers(build, s, actions, |s.b.delivered|, whole)
  {
    var missing, got := |s.b.delivered|, Decode(Clip(s.b.wire[at].datagram)).got;
    if got <= missing % RING_SIZE {
      actions := RequestedIsRepaired(build, s, at, whole);
    } else {
      var j :| missing <= j < |s.a.sent| && got <= j % RING_SIZE && Legible(build, s.a.sent[j]);
      actions := LaterRequestRepairs(build, s, at, j, whole);
    }
  }

  lemma TriggerRepairs(build: Build, s: System, whole: bool)
    requires Invariant(build, s) && Awaits(s) && Repairable(build, s.a, |s.b.delivered|, whole)
    requires Triggered(build, s)
    ensures exists actions :: Recovers(build, s, actions, |s.b.delivered|, whole)
  {
    var missing := |s.b.delivered|;
    if i :| 0 <= i < |s.b.wire| && Asks(build, s.a.sent, s.b.wire[i].datagram, missing) {
      var _ := RequestRepairs(build, s, i, whole);
    } else if i :| 0 <= i < |s.a.wire| && Prompts(s.a.wire[i].datagram, missing) {
      var _ := PromptedIsRepaired(build, s, i, whole);
    } else {
      var _ := SendingRepairs(build, s, whole);
    }
  }

  // ---------------------------------------------------------------- what is stranded

  /** Frames in flight from a: none is the packet, and all of them carry a residue from that of the
      packet on, short of 255. */
  ghost predicate WireStranded(wire: seq<Tagged>, index: nat) {
    forall t :: t in wire && Decode(Clip(t.datagram)).Data? ==>
      t.index != index && index % RING_SIZE <= Decode(Clip(t.datagram)).got < RING_SIZE - 1
  }

  /** Requests in flight from b: all for later packets. */
  ghost predicate RequestsStranded(wire: seq<Tagged>, index: nat) {
    forall t :: t in wire && Decode(Clip(t.datagram)).Nak? ==> Decode(Clip(t.datagram)).got > index % RING_SIZE
  }

  /** While b awaits the packet: every frame in flight has its residue and no request brings
      another. */
  ghost predicate Silent(build: Build, s: System, index: nat) {
    && (forall t :: t in s.a.wire ==> !Prompts(t.datagram, index))
    && (forall t :: t in s.b.wire ==> !Asks(build, s.a.sent, t.datagram, index))
  }

  /** The lap has no room, nothing brings the packet, and b either awaits it in silence or has taken
      another packet for it. */
  ghost predicate Stranded(build: Build, s: System, index: nat) {
    && index < |s.a.sent| && SameLap(index, |s.a.sent|) && !SameLap(index, |s.a.sent| + 1)
    && Legible(build, s.a.sent[index])
    && WireStranded(s.a.wire, index) && RequestsStranded(s.b.wire, index)
    && |s.b.accepted| == |s.b.delivered|
    && (forall k :: index <= k < |s.b.accepted| ==> s.b.accepted[k] != index)
    && (!s.b.peer.closed ==> index % RING_SIZE <= s.b.peer.expected)
    && (!s.b.peer.closed && s.b.peer.expected == index % RING_SIZE ==> Silent(build, s, index))
  }

  ghost predicate NeverComes(build: Build, s: System, index: nat) {
    Stranded(build, s, index) || GoneFor(build, s.a, s.b, index, false)
  }

  lemma LapEnds(x: nat, n: nat)
    requires x < n && SameLap(x, n) && !SameLap(x, n + 1)
    ensures n % RING_SIZE == RING_SIZE - 1 && x % RING_SIZE < RING_SIZE - 1
  {
  }

  /** The next chunk begins a new lap: then the packet is gone. */
  lemma StrandedSend(build: Build, s: System, index: nat, chunk: Bytes)
    requires Stranded(build, s, index) && |chunk| <= TCP_MTU_SIZE
    ensures GoneFor(build, AfterSend(s.a, chunk), s.b, index, false)
  {
    assert AfterSend(s.a, chunk).sent[index] == s.a.sent[index];
  }

  lemma LaterInLap(index: nat, n: nat, got: nat, k: nat)
    requires index < n && SameLap(index, n) && n % RING_SIZE == RING_SIZE - 1
    requires index % RING_SIZE < got && got + k < n % RING_SIZE
    ensures var j := n - (n % RING_SIZE - got) + k;
            index < j < n && got <= j % RING_SIZE < RING_SIZE - 1 && index % RING_SIZE < j % RING_SIZE
  {
  }

  /** What the answer to a request for a later packet holds: packets after the one missing, and
      nothing readable unless the request asks for it. */
  ghost predicate Harmless(build: Build, sent: seq<Bytes>, request: Bytes, tag: Tagged, index: nat) {
    && tag.index != index
    && (Decode(Clip(tag.datagram)).Data? ==>
          && index % RING_SIZE < Decode(Clip(tag.datagram)).got < RING_SIZE - 1
          && Asks(build, sent, request, index))
  }

  lemma LaterAnswer(build: Build, sent: seq<Bytes>, request: Bytes, tag: Tagged, index: nat, j: nat)
    requires index < j < |sent| && |sent[j]| <= TCP_MTU_SIZE && index % RING_SIZE < j % RING_SIZE < RING_SIZE - 1
    requires Decode(Clip(request)).Nak? && Decode(Clip(request)).got <= j % RING_SIZE
    requires tag.index == j && tag.datagram == RetransmitFrame(build, j % RING_SIZE, sent[j])
    ensures Harmless(build, sent, request, tag, index)
  {
    RetransmitDecodes(build, j % RING_SIZE, sent[j]);
  }

  lemma LaterAnswers(build: Build, me: End, request: Tagged, index: nat, got: Byte, answer: seq<Tagged>)
    requires RingHolds(me) && !me.peer.closed && index < |me.sent|
    requires SameLap(index, |me.sent|) && !SameLap(index, |me.sent| + 1)
    requires Decode(Clip(request.datagram)) == Nak(got) && got > index % RING_SIZE
    requires BurstSize(me.peer, got) <= |me.sent|
    requires answer == AnswerTags(build, me.sent, |me.sent| - BurstSize(me.peer, got))
    ensures forall k :: 0 <= k < |answer| ==> Harmless(build, me.sent, request.datagram, answer[k], index)
  {
    var n := |me.sent|;
    LapEnds(index, n);
    forall k | 0 <= k < |answer| ensures Harmless(build, me.sent, request.datagram, answer[k], index) {
      LaterInLap(index, n, got, k);
      LaterAnswer(build, me.sent, request.datagram, answer[k], index, n - BurstSize(me.peer, got) + k);
    }
  }

  lemma StrandedReplies(build: Build, s: System, index: nat, t: Tagged)
    requires Stranded(build, s, index) && RingHolds(s.a) && !s.a.peer.closed && t in s.b.wire
    ensures WireStranded(AfterReceive(build, s.a, t).wire, index)
    ensures Silent(build, s, index) ==>
              forall x :: x in AfterReceive(build, s.a, t).wire ==> !Prompts(x.datagram, index)
  {
    if Decode(Clip(t.datagram)).Nak? {
      var got := Decode(Clip(t.datagram)).got;
      AnswerOnWire(build, s.a, t, got);
      var answer := AnswerTags(build, s.a.sent, |s.a.sent| - BurstSize(s.a.peer, got));
      LaterAnswers(build, s.a, t, index, got, answer);
      AddedHarmless(build, s.a, t.datagram, answer, index);
    } else {
      OtherReplies(build, s.a, t);
    }
  }

  lemma AddedHarmless(build: Build, me: End, request: Bytes, answer: seq<Tagged>, index: nat)
    requires WireStranded(me.wire, index)
    requires forall k :: 0 <= k < |answer| ==> Harmless(build, me.sent, request, answer[k], index)
    ensures WireStranded(me.wire + answer, index)
    ensures !Asks(build, me.sent, request, index) ==>
              forall x :: x in me.wire + answer ==> x in me.wire || !Prompts(x.datagram, index)
  {
  }

  /** Only the answer to a request holds data. */
  lemma OtherReplies(build: Build, me: End, t: Tagged)
    requires !Decode(Clip(t.datagram)).Nak?
    ensures forall x :: x in AfterReceive(build, me, t).wire ==>
              x in me.wire || x.datagram == NakFrame(me.peer.expected)
    ensures !Decode(Clip(NakFrame(me.peer.expected))).Data?
  {
    FramesRoundTrip(me.peer.expected, []);
  }

  lemma StrandedAnswered(build: Build, s: System, at: nat, keep: bool, index: nat)
    requires RingHolds(s.a) && Stranded(build, s, index) && Enabled(s.a, s.b, Receive(at, keep))
    ensures var (a', b') := Apply(build, s.a, s.b, Receive(at, keep)); Stranded(build, System(a', b'), index)
  {
    assert s.b.wire[at] in s.b.wire;
    StrandedReplies(build, s, index, s.b.wire[at]);
    assert forall x :: x in Without(s.b.wire, at) ==> x in s.b.wire;
    assert AfterReceive(build, s.a, s.b.wire[at]).sent == s.a.sent;
  }

  lemma StrandedSource(build: Build, s: System, step: Step, index: nat)
    requires RingHolds(s.a) && Stranded(build, s, index) && Enabled(s.a, s.b, step)
    ensures var (a', b') := Apply(build, s.a, s.b, step); NeverComes(build, System(a', b'), index)
  {
    match step
    case SendChunk(chunk) => StrandedSend(build, s, index, chunk);
    case Receive(at, keep) => StrandedAnswered(build, s, at, keep, index);
    case Lose(at) => StrandedLoss(build, s, at, index);
    case EmitControl(message) => assert !Decode(Clip(message)).Data?;
    case _ =>
  }

  lemma RetransmissionIsNoRequest(build: Build, id: Byte, payload: Bytes)
    requires |payload| <= TCP_MTU_SIZE
    ensures !Decode(Clip(RetransmitFrame(build, id, payload))).Nak?
  {
    RetransmitDecodes(build, id, payload);
  }

  lemma AnswerIsNoRequest(build: Build, sent: seq<Bytes>, from: nat)
    requires from <= |sent| && forall j :: 0 <= j < |sent| ==> |sent[j]| <= TCP_MTU_SIZE
    ensures forall x :: x in AnswerTags(build, sent, from) ==> !Decode(Clip(x.datagram)).Nak?
  {
    forall x | x in AnswerTags(build, sent, from) ensures !Decode(Clip(x.datagram)).Nak? {
      RetransmissionIsNoRequest(build, x.index % RING_SIZE, sent[x.index]);
    }
  }

  /** What b's receive adds to its wire, if it does not ask: no requests. */
  lemma AnswersAreNoRequests(build: Build, me: End, t: Tagged)
    requires RingHolds(me) && !me.peer.closed && Decode(Clip(t.datagram)).Nak?
    ensures forall x :: x in AfterReceive(build, me, t).wire ==> x in me.wire || !Decode(Clip(x.datagram)).Nak?
  {
    var got := Decode(Clip(t.datagram)).got;
    AnswerOnWire(build, me, t, got);
    AnswerIsNoRequest(build, me.sent, |me.sent| - BurstSize(me.peer, got));
  }

  /** b takes another packet for the one it awaits, or for a later one. */
  lemma StrandedAccept(build: Build, s: System, t: Tagged, index: nat)
    requires Stranded(build, s, index) && !s.b.peer.closed && t in s.a.wire
    requires Decode(Clip(t.datagram)).Data? && Decode(Clip(t.datagram)).got == s.b.peer.expected
    ensures Stranded(build, System(s.a, AfterReceive(build, s.b, t)), index)
  {
    TakesAwaited(build, s.b, t, Decode(Clip(t.datagram)).payload);
    assert AfterReceive(build, s.b, t).wire == s.b.wire;
  }

  lemma StrandedRefuse(build: Build, s: System, t: Tagged, index: nat)
    requires Stranded(build, s, index) && !s.b.peer.closed && t in s.a.wire
    requires Decode(Clip(t.datagram)).Data? && Decode(Clip(t.datagram)).got != s.b.peer.expected
    ensures Stranded(build, System(s.a, AfterReceive(build, s.b, t)), index)
  {
    AsksForAwaited(build, s.b, t);
    FramesRoundTrip(s.b.peer.expected, []);
  }

  lemma StrandedTake(build: Build, s: System, t: Tagged, index: nat)
    requires RingHolds(s.b) && Stranded(build, s, index) && !s.b.peer.closed && t in s.a.wire
    ensures Stranded(build, System(s.a, AfterReceive(build, s.b, t)), index)
  {
    match Decode(Clip(t.datagram))
    case Nak(got) => AnswersAreNoRequests(build, s.b, t);
    case Data(got, payload) =>
      if got == s.b.peer.expected { StrandedAccept(build, s, t, index); } else { StrandedRefuse(build, s, t, index); }
    case _ => assert AfterReceive(build, s.b, t).wire == s.b.wire;
  }

  lemma StrandedLoss(build: Build, s: System, at: nat, index: nat)
    requires Stranded(build, s, index) && at < |s.a.wire|
    ensures Stranded(build, System(s.a.(wire := Without(s.a.wire, at)), s.b), index)
  {
    assert forall x :: x in Without(s.a.wire, at) ==> x in s.a.wire;
  }

  lemma StrandedTarget(build: Build, s: System, step: Step, index: nat)
    requires RingHolds(s.b) && Stranded(build, s, index) && Enabled(s.b, s.a, step)
    ensures var (b', a') := Apply(build, s.b, s.a, step); Stranded(build, System(a', b'), index)
  {
    match step
    case SendChunk(chunk) => FramesRoundTrip(s.b.peer.id, chunk);
    case Receive(at, keep) =>
      assert s.a.wire[at] in s.a.wire;
      StrandedTake(build, s, s.a.wire[at], index);
      if !keep { StrandedLoss(build, System(s.a, AfterReceive(build, s.b, s.a.wire[at])), at, index); }
    case Lose(at) =>
      assert forall x :: x in Without(s.b.wire, at) ==> x in s.b.wire;
    case EmitControl(message) => assert !Decode(Clip(message)).Nak?;
    case _ =>
  }

  lemma AdvanceNeverBrings(build: Build, s: System, action: Action, index: nat)
    requires Invariant(build, s) && NeverComes(build, s, index) && Advance(build, Wild, s, action).Reached?
    ensures NeverComes(build, Advance(build, Wild, s, action).state, index)
  {
    if GoneFor(build, s.a, s.b, index, false) {
      if action.who == A {
        SourceStepKeepsGone(build, s.a, s.b, action.step, index, false);
      } else {
        TargetStepKeepsGone(build, s.b, s.a, action.step, index, false);
      }
    } else if action.who == A {
      StrandedSource(build, s, action.step, index);
    } else {
      StrandedTarget(build, s, action.step, index);
    }
  }

  lemma {:induction false} RunNeverBrings(build: Build, s: System, actions: seq<Action>, index: nat)
    requires Invariant(build, s) && NeverComes(build, s, index) && Run(build, Wild, s, actions).Reached?
    ensures NeverComes(build, Run(build, Wild, s, actions).state, index)
  {
    if actions != [] {
      var front := actions[..|actions| - 1];
      RunNeverBrings(build, s, front, index);
      RunKeeps(build, Wild, s, front);
      AdvanceNeverBrings(build, Run(build, Wild, s, front).state, actions[|actions| - 1], index);
    }
  }

  lemma DataIsCopy(build: Build, sent: seq<Bytes>, t: Tagged, whole: bool)
    requires IsPacket(build, sent, t) && Decode(Clip(t.datagram)).Data? && (whole ==> build == WholeFrame)
    requires |sent[t.index]| <= TCP_MTU_SIZE
    ensures Copies(sent[t.index], t.datagram, whole)
  {
    RetransmitDecodes(build, t.index % RING_SIZE, sent[t.index]);
    FramesRoundTrip(t.index % RING_SIZE, sent[t.index]);
  }

  /** Nothing sets a repair off: the missing packet is stranded. */
  lemma WithoutTriggerStranded(build: Build, s: System, whole: bool)
    requires Invariant(build, s) && Awaits(s) && NoCopy(s.a, |s.b.delivered|, whole)
    requires Repairable(build, s.a, |s.b.delivered|, whole) && !Triggered(build, s)
    ensures Stranded(build, s, |s.b.delivered|)
  {
    var missing, n := |s.b.delivered|, |s.a.sent|;
    assert SameLap(missing, n) && !SameLap(missing, n + 1);
    LapEnds(missing, n);
    forall t | t in s.a.wire ensures !Prompts(t.datagram, missing) {
      var i :| 0 <= i < |s.a.wire| && s.a.wire[i] == t;
    }
    forall t | t in s.b.wire ensures !Asks(build, s.a.sent, t.datagram, missing) {
      var i :| 0 <= i < |s.b.wire| && s.b.wire[i] == t;
    }
    forall t | t in s.a.wire && Decode(Clip(t.datagram)).Data? ensures t.index != missing {
      if t.index == missing { DataIsCopy(build, s.a.sent, t, whole); }
    }
  }

  /** A copy in flight is what b awaits. */
  lemma CopyIsAwaited(build: Build, s: System, t: Tagged)
    requires Invariant(build, s) && Awaits(s) && t in s.a.wire && t.index == |s.b.delivered|
    requires Decode(Clip(t.datagram)).Data?
    ensures Decode(Clip(t.datagram)).got == s.b.peer.expected
  {
    var id: Byte := t.index % RING_SIZE;
    assert IsPacket(build, s.a.sent, t);
    FramesRoundTrip(id, s.a.sent[t.index]);
    RetransmitDecodes(build, id, s.a.sent[t.index]);
  }

  lemma CopyArrives(build: Build, s: System, whole: bool)
    requires Invariant(build, s) && Awaits(s) && !NoCopy(s.a, |s.b.delivered|, whole)
    ensures exists actions :: Recovers(build, s, actions, |s.b.delivered|, whole)
  {
    var missing := |s.b.delivered|;
    var t :| t in s.a.wire && t.index == missing && Copies(s.a.sent[missing], t.datagram, whole);
    var place :| 0 <= place < |s.a.wire| && s.a.wire[place] == t;
    CopyIsAwaited(build, s, t);
    TakesAwaited(build, s.b, t, Decode(Clip(t.datagram)).payload);
    var actions := TakenFrom(build, s, place, missing, whole);
  }

  /** The awaited packet can still be delivered by some continuation over the wildest network exactly if
      a copy is in flight, or it is repairable (no later packet has made the sequence byte wrap and,
      with the length as written, it has at least three bytes) and something sets the repair off; and
      it can be delivered whole exactly if the copy is, or besides whole frames are retransmitted. With
      the length as written no continuation whatever delivers a lost packet whole, and with any length
      the last packet of a lap, once lost, may wait for ever. */
  lemma LostPacketRecoverableIff(build: Build, s: System, whole: bool)
    requires Invariant(build, s) && Awaits(s)
    ensures (exists actions :: Recovers(build, s, actions, |s.b.delivered|, whole))
            <==> !NoCopy(s.a, |s.b.delivered|, whole)
                 || (Repairable(build, s.a, |s.b.delivered|, whole) && Triggered(build, s))
  {
    var missing := |s.b.delivered|;
    if !NoCopy(s.a, missing, whole) {
      CopyArrives(build, s, whole);
    } else if !Repairable(build, s.a, missing, whole) {
      forall actions | Run(build, Wild, s, actions).Reached? ensures !Recovers(build, s, actions, missing, whole) {
        RunKeepsGone(build, s, actions, missing, whole);
        RunWithinWild(build, Wild, s, actions);
      }
    } else if Triggered(build, s) {
      TriggerRepairs(build, s, whole);
    } else {
      WithoutTriggerStranded(build, s, whole);
      forall actions | Run(build, Wild, s, actions).Reached? ensures !Recovers(build, s, actions, missing, whole) {
        RunNeverBrings(build, s, actions, missing);
      }
    }
  }

  lemma NothingNew(before: End, after: End, missing: nat)
    requires |before.delivered| == missing && before.delivered <= after.delivered
    requires InOrder(after) && |after.accepted| == |after.delivered|
    requires forall k :: missing <= k < |after.accepted| ==> after.accepted[k] != missing
    ensures after.delivered == before.delivered
  {
    var next := if missing < |after.accepted| then after.accepted[missing] else CONTROL;
    assert next != missing;
  }

  /** Over a network that keeps order what flows from a arrives in order as long as a does not run 256
      packets ahead; nothing is asked of b. */
  lemma {:induction false} RunKeepsOneWay(build: Build, s: System, actions: seq<Action>)
    requires Invariant(build, s) && OneWay(s.a, s.b) && Run(build, Queue, s, actions).Reached?
    requires |Run(build, Queue, s, actions).state.a.sent| <= |s.b.delivered| + RING_SIZE
    ensures var t := Run(build, Queue, s, actions).state; OneWay(t.a, t.b) && |t.b.accepted| == |t.b.delivered|
  {
    if actions != [] {
      var front, last := actions[..|actions| - 1], actions[|actions| - 1];
      var t := Run(build, Queue, s, front).state;
      AdvanceGrows(build, Queue, t, last);
      RunKeepsOneWay(build, s, front);
      RunKeeps(build, Queue, s, front);
      RunWithinWild(build, Queue, s, front);
      AdvanceKeepsOneWay(build, t, last);
      AdvanceKeeps(build, Queue, t, last);
    }
  }

  /** Over a network that keeps order, losing the awaited packet k beyond repair stops the stream: no
      run, whatever is sent, requested or retransmitted, delivers anything as long as at most
      k + 256 packets are numbered. With one more the stream can go on past the gap
      (`ChownatWindow.WrapSlipsPastGap`). */
  lemma StreamFreezes(build: Build, s: System, actions: seq<Action>)
    requires Invariant(build, s) && OneWay(s.a, s.b) && GoneFor(build, s.a, s.b, |s.b.delivered|, false)
    requires Run(build, Queue, s, actions).Reached?
    requires |Run(build, Queue, s, actions).state.a.sent| <= |s.b.delivered| + RING_SIZE
    ensures Run(build, Queue, s, actions).state.b.delivered == s.b.delivered
  {
    RunKeepsOneWay(build, s, actions);
    RunWithinWild(build, Queue, s, actions);
    RunKeepsGone(build, s, actions, |s.b.delivered|, false);
    NothingNew(s.b, Run(build, Queue, s, actions).state.b, |s.b.delivered|);
  }
}
