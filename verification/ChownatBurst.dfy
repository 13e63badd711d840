/** A repair carried out: the answer to a request is handed over frame by frame. */
module ChownatBurst {
  import opened Wire
  import opened ChownatPeer
  import opened ChownatLink
  import opened ChownatDelivery
  import opened ChownatRepair

  // ---------------------------------------------------------------- what is read from a burst

  /** Where a loss-free burst starting at packet `from` stops being accepted. */
  function FirstUnreadable(build: Build, sent: seq<Bytes>, from: nat): (stop: nat)
    requires from <= |sent|
    ensures from <= stop <= |sent|
    ensures build == WholeFrame ==> stop == |sent|
    decreases |sent| - from
  {
    if from == |sent| || !Legible(build, sent[from]) then from else FirstUnreadable(build, sent, from + 1)
  }

  /** It is the first packet a retransmission of which is not readable. */
  lemma {:induction false} FirstUnreadableExact(build: Build, sent: seq<Bytes>, from: nat, k: nat)
    requires from <= k < |sent| && k <= FirstUnreadable(build, sent, from)
    ensures k == FirstUnreadable(build, sent, from) <==> build == AsWritten && |sent[k]| < HEADER_SIZE
    decreases k - from
  {
    if k > from {
      FirstUnreadableExact(build, sent, from + 1, k);
    }
  }

  function Readable(build: Build, packet: Bytes): Bytes {
    if build == WholeFrame || |packet| < HEADER_SIZE then packet else packet[..|packet| - HEADER_SIZE]
  }

  /** Packets [start, upto) were accepted at `target` as they are read from a retransmission. */
  ghost predicate TookPackets(build: Build, sent: seq<Bytes>, target: End, start: nat, upto: nat) {
    && |target.accepted| == |target.delivered| == upto <= |sent|
    && forall k :: start <= k < upto ==>
         target.accepted[k] == k && target.delivered[k] == Readable(build, sent[k])
  }

  /** How many packets a peer that had `start` has when the frames before packet `now` have been handed
      over to it. */
  function Standing(build: Build, sent: seq<Bytes>, start: nat, now: nat): (upto: nat)
    requires start <= |sent|
    ensures start <= upto <= |sent|
  {
    if now <= start then start
    else if now <= FirstUnreadable(build, sent, start) then now
    else FirstUnreadable(build, sent, start)
  }

  ghost predicate BurstTaken(build: Build, sent: seq<Bytes>, target: End, from: nat, start: nat, now: nat) {
    && from <= start <= |sent| < from + RING_SIZE && from <= now <= |sent|
    && !target.peer.closed && target.peer.expected == |target.delivered| % RING_SIZE
    && TookPackets(build, sent, target, start, Standing(build, sent, start, now))
  }

  lemma ResiduesDiffer(x: nat, y: nat)
    requires x < y < x + RING_SIZE
    ensures x % RING_SIZE != y % RING_SIZE
  {
  }

  lemma OneMoreTook(build: Build, sent: seq<Bytes>, before: End, after: End, start: nat, now: nat)
    requires start <= now < |sent| && TookPackets(build, sent, before, start, now)
    requires after.accepted == before.accepted + [now]
    requires after.delivered == before.delivered + [Readable(build, sent[now])]
    ensures TookPackets(build, sent, after, start, now + 1)
  {
  }

  lemma NextIsTaken(build: Build, sent: seq<Bytes>, target: End, from: nat, start: nat, now: nat, t: Tagged)
    requires BurstTaken(build, sent, target, from, start, now)
    requires start <= now < FirstUnreadable(build, sent, start) && t.index == now
    requires Decode(Clip(t.datagram)) == Data(now % RING_SIZE, Readable(build, sent[now]))
    ensures BurstTaken(build, sent, AfterReceive(build, target, t), from, start, now + 1)
  {
    TakesAwaited(build, target, t, Readable(build, sent[now]));
    OneMoreTook(build, sent, target, AfterReceive(build, target, t), start, now);
  }

  lemma OtherIsPassed(build: Build, sent: seq<Bytes>, target: End, from: nat, start: nat, now: nat, t: Tagged)
    requires BurstTaken(build, sent, target, from, start, now) && now < |sent|
    requires now < start || FirstUnreadable(build, sent, start) <= now
    requires Decode(Clip(t.datagram)).KeepAlive?
          || (Decode(Clip(t.datagram)).Data? && Decode(Clip(t.datagram)).got == now % RING_SIZE
              && now != FirstUnreadable(build, sent, start))
    ensures BurstTaken(build, sent, AfterReceive(build, target, t), from, start, now + 1)
  {
    var upto := Standing(build, sent, start, now);
    if now < upto { ResiduesDiffer(now, upto); } else if upto < now { ResiduesDiffer(upto, now); }
    PassesOver(build, target, t);
  }

  lemma TakeOneFrame(build: Build, sent: seq<Bytes>, target: End, from: nat, start: nat, now: nat, t: Tagged)
    requires BurstTaken(build, sent, target, from, start, now) && now < |sent| && |sent[now]| <= TCP_MTU_SIZE
    requires t.index == now && t.datagram == RetransmitFrame(build, now % RING_SIZE, sent[now])
    ensures BurstTaken(build, sent, AfterReceive(build, target, t), from, start, now + 1)
  {
    var stop := FirstUnreadable(build, sent, start);
    RetransmitDecodes(build, now % RING_SIZE, sent[now]);
    if start <= now <= stop {
      FirstUnreadableExact(build, sent, start, now);
    }
    if start <= now < stop {
      NextIsTaken(build, sent, target, from, start, now, t);
    } else {
      OtherIsPassed(build, sent, target, from, start, now, t);
    }
  }

  // ---------------------------------------------------------------- handing it over

  /** From `place` on the wire of `source` holds exactly the retransmissions of packets [from, sent). */
  predicate BurstFrom(build: Build, source: End, place: nat, from: nat) {
    && from <= |source.sent| && place <= |source.wire|
    && source.wire[place..] == AnswerTags(build, source.sent, from)
  }

  /** The network may hand over what stands at `place`. */
  predicate Hands(channel: Channel, place: nat) {
    channel == Wild || (channel != Fresh && place == 0)
  }

  function Handovers(place: nat, n: nat): (actions: seq<Action>)
    ensures |actions| == n
  {
    if n == 0 then [] else Handovers(place, n - 1) + [Action(B, Receive(place, false))]
  }

  lemma NextOfBurst(build: Build, source: End, place: nat, from: nat)
    requires BurstFrom(build, source, place, from) && from < |source.sent|
    ensures place < |source.wire| && source.wire[place] == AnswerTags(build, source.sent, from)[0]
    ensures BurstFrom(build, source.(wire := Without(source.wire, place)), place, from + 1)
  {
    var tags, rest := AnswerTags(build, source.sent, from), AnswerTags(build, source.sent, from + 1);
    assert source.wire[place] == source.wire[place..][0];
    assert Without(source.wire, place)[place..] == source.wire[place..][1..];
    assert tags[1..] == rest by {
      forall k | 0 <= k < |rest| ensures tags[1..][k] == rest[k] {
        assert from + (k + 1) == from + 1 + k;
      }
    }
  }

  /** b has taken the frames before packet `now`, and the rest of the burst stands at `place`. */
  ghost predicate BurstUnderWay(
    build: Build, sent: seq<Bytes>, s: System, place: nat, from: nat, start: nat, now: nat)
  {
    && s.a.sent == sent && BurstFrom(build, s.a, place, now)
    && BurstTaken(build, sent, s.b, from, start, now)
  }

  lemma HandOverNext(
    build: Build, channel: Channel, s: System, place: nat, from: nat, start: nat, now: nat, next: nat)
      returns (t: System)
    requires BurstUnderWay(build, s.a.sent, s, place, from, start, now) && Hands(channel, place)
    requires now < |s.a.sent| && |s.a.sent[now]| <= TCP_MTU_SIZE && next == now + 1
    ensures Advance(build, channel, s, Action(B, Receive(place, false))) == Reached(t)
    ensures BurstUnderWay(build, s.a.sent, t, place, from, start, next)
    ensures place < |s.a.wire| && t.a == s.a.(wire := Without(s.a.wire, place))
  {
    NextOfBurst(build, s.a, place, now);
    TakeOneFrame(build, s.a.sent, s.b, from, start, now, s.a.wire[place]);
    HandedOver(build, channel, s, place, false);
    t := System(s.a.(wire := Without(s.a.wire, place)), AfterReceive(build, s.b, s.a.wire[place]));
  }

  /** The frames before packet `now` are handed over; what stands before `place` is not touched. */
  lemma {:induction false} HandOverBurst(
    build: Build, channel: Channel, s: System, place: nat, from: nat, start: nat, now: nat)
      returns (count: nat, t: System)
    requires BurstUnderWay(build, s.a.sent, s, place, from, start, from) && Hands(channel, place)
    requires from <= now <= |s.a.sent| && forall j :: 0 <= j < |s.a.sent| ==> |s.a.sent[j]| <= TCP_MTU_SIZE
    ensures count == now - from && Run(build, channel, s, Handovers(place, count)) == Reached(t)
    ensures BurstUnderWay(build, s.a.sent, t, place, from, start, now)
    ensures t.a.wire[..place] == s.a.wire[..place]
    decreases now
  {
    if now == from {
      count, t := 0, s;
    } else {
      var before := now - 1;
      var fewer, u := HandOverBurst(build, channel, s, place, from, start, before);
      t := HandOverNext(build, channel, u, place, from, start, before, now);
      RunExtends(build, channel, s, Handovers(place, fewer), Action(B, Receive(place, false)));
      count := fewer + 1;
      assert Without(u.a.wire, place)[..place] == u.a.wire[..place];
    }
  }

  // ---------------------------------------------------------------- a repair over any network

  /** b asked for the packet it awaits and the request is in flight at position `at`. */
  ghost predicate Requested(s: System, at: nat) {
    && Awaits(s) && at < |s.b.wire| && s.b.wire[at].datagram == NakFrame(s.b.peer.expected)
  }

  /** a takes the request: the missing packets are appended to its wire, and b only loses the
      request in flight. */
  lemma RequestAnswered(build: Build, channel: Channel, s: System, at: nat) returns (t: System)
    requires Invariant(build, s) && Requested(s, at) && SameLap(|s.b.delivered|, |s.a.sent|)
    requires Admits(channel, s.a, s.b, Receive(at, false))
    ensures Advance(build, channel, s, Action(A, Receive(at, false))) == Reached(t)
    ensures t.a == s.a.(wire := s.a.wire + AnswerTags(build, s.a.sent, |s.b.delivered|))
    ensures t.b == s.b.(wire := Without(s.b.wire, at))
  {
    var missing := |s.b.delivered|;
    var got: Byte := missing % RING_SIZE;
    FramesRoundTrip(got, []);
    AnswerOnWire(build, s.a, s.b.wire[at], got);
    AnswerBegins(missing, |s.a.sent|, got);
    AnswerTaken(build, channel, s, at);
    t := System(AfterReceive(build, s.a, s.b.wire[at]), s.b.(wire := Without(s.b.wire, at)));
  }

  lemma LapIsShort(x: nat, y: nat)
    requires x <= y && SameLap(x, y)
    ensures y < x + RING_SIZE
  {
  }

  lemma BurstBegins(build: Build, s: System, place: nat, from: nat, start: nat)
    requires Invariant(build, s) && !s.b.peer.closed && |s.b.delivered| == start
    requires from <= start <= |s.a.sent| && SameLap(from, |s.a.sent|)
    requires BurstFrom(build, s.a, place, from)
    ensures BurstUnderWay(build, s.a.sent, s, place, from, start, from)
    ensures forall j :: 0 <= j < |s.a.sent| ==> |s.a.sent[j]| <= TCP_MTU_SIZE
  {
    LapIsShort(from, |s.a.sent|);
    assert TookPackets(build, s.a.sent, s.b, start, start);
  }

  lemma AnswerStandsAt(build: Build, before: End, after: End, from: nat)
    requires from <= |before.sent| && after == before.(wire := before.wire + AnswerTags(build, before.sent, from))
    ensures BurstFrom(build, after, |before.wire|, from) && after.wire[..|before.wire|] == before.wire
  {
  }

  lemma BurstOver(build: Build, sent: seq<Bytes>, s: System, place: nat, from: nat, start: nat)
    requires from <= |sent| && BurstUnderWay(build, sent, s, place, from, start, |sent|)
    ensures TookPackets(build, sent, s.b, start, FirstUnreadable(build, sent, start))
    ensures s.a.wire == s.a.wire[..place]
  {
  }

  /** A repair without loss, whatever else is in flight: if the sequence byte has not wrapped since
      the missing packet, the request is answered with the missing packets at the end of a's wire
      and they are handed over one by one. With whole frames b then has everything that was sent; as
      written it has everything up to the first packet of fewer than three bytes, each cut by
      three. What else was in flight from a still is. */
  lemma RepairCompletes(build: Build, s: System, at: nat) returns (answered: System, count: nat, repaired: System)
    requires Invariant(build, s) && Requested(s, at) && SameLap(|s.b.delivered|, |s.a.sent|)
    ensures Advance(build, Wild, s, Action(A, Receive(at, false))) == Reached(answered)
    ensures count == |s.a.sent| - |s.b.delivered|
    ensures Run(build, Wild, answered, Handovers(|s.a.wire|, count)) == Reached(repaired)
    ensures TookPackets(build, s.a.sent, repaired.b, |s.b.delivered|,
                        FirstUnreadable(build, s.a.sent, |s.b.delivered|))
    ensures repaired.a.wire == s.a.wire
  {
    var missing, place := |s.b.delivered|, |s.a.wire|;
    answered := RequestAnswered(build, Wild, s, at);
    AdvanceKeeps(build, Wild, s, Action(A, Receive(at, false)));
    AnswerStandsAt(build, s.a, answered.a, missing);
    BurstBegins(build, answered, place, missing, missing);
    count, repaired := HandOverBurst(build, Wild, answered, place, missing, missing, |s.a.sent|);
    BurstOver(build, s.a.sent, repaired, place, missing, missing);
  }

  // ---------------------------------------------------------------- a repair over a network that keeps order

  /** b survives what is in flight: nothing asks it to close. */
  predicate NoDisconnect(wire: seq<Tagged>) {
    forall i :: 0 <= i < |wire| ==> !Decode(Clip(wire[i].datagram)).Disconnect?
  }

  lemma StaysOpen(build: Build, me: End, t: Tagged)
    requires !me.peer.closed && !Decode(Clip(t.datagram)).Disconnect?
    ensures !AfterReceive(build, me, t).peer.closed
    ensures me.delivered <= AfterReceive(build, me, t).delivered
  {
  }

  lemma HeadLost(wire: seq<Tagged>, n: nat)
    requires n < |wire|
    ensures wire[n..][0] == wire[n] && Without(wire[n..], 0) == wire[n + 1..]
  {
  }

  /** The first n datagrams in flight, whatever they are, are handed over in order. */
  lemma {:induction false} HandOverFirst(build: Build, s: System, n: nat) returns (t: System)
    requires !s.b.peer.closed && n <= |s.a.wire| && NoDisconnect(s.a.wire[..n])
    requires |s.a.sent| - |s.b.delivered| <= RING_SIZE
    ensures Run(build, Fifo, s, Handovers(0, n)) == Reached(t)
    ensures t.a == s.a.(wire := s.a.wire[n..])
    ensures !t.b.peer.closed && s.b.delivered <= t.b.delivered
  {
    if n == 0 {
      t := s;
    } else {
      assert s.a.wire[..n - 1] == s.a.wire[..n][..n - 1];
      assert s.a.wire[..n][n - 1] == s.a.wire[n - 1];
      var u := HandOverFirst(build, s, n - 1);
      HeadLost(s.a.wire, n - 1);
      StaysOpen(build, u.b, u.a.wire[0]);
      HandedOver(build, Fifo, u, 0, false);
      RunExtends(build, Fifo, s, Handovers(0, n - 1), Action(B, Receive(0, false)));
      t := System(u.a.(wire := Without(u.a.wire, 0)), AfterReceive(build, u.b, u.a.wire[0]));
    }
  }

  /** A request in flight is a control datagram. */
  lemma RequestIsControl(build: Build, e: End, t: Tagged)
    requires WireHolds(build, e) && RingHolds(e) && t in e.wire && Decode(Clip(t.datagram)).Nak?
    ensures t.index == CONTROL
  {
    if IsPacket(build, e.sent, t) {
      var id: Byte := t.index % RING_SIZE;
      FramesRoundTrip(id, e.sent[t.index]);
      RetransmissionIsNoRequest(build, id, e.sent[t.index]);
    }
  }

  lemma {:induction false} HandoversJoin(place: nat, one: nat, other: nat, total: nat)
    requires total == one + other
    ensures Handovers(place, one) + Handovers(place, other) == Handovers(place, total)
    decreases other
  {
    if other == 0 {
      assert Handovers(place, one) + [] == Handovers(place, one);
    } else {
      HandoversJoin(place, one, other - 1, total - 1);
      var last := [Action(B, Receive(place, false))];
      assert Handovers(place, one) + (Handovers(place, other - 1) + last) ==
             (Handovers(place, one) + Handovers(place, other - 1)) + last;
    }
  }

  /** The request is next in turn. */
  lemma AnsweredInOrder(build: Build, s: System) returns (answered: System)
    requires Invariant(build, s) && Ordered(Fifo, s) && Requested(s, 0) && SameLap(|s.b.delivered|, |s.a.sent|)
    ensures Advance(build, Fifo, s, Action(A, Receive(0, false))) == Reached(answered)
    ensures Invariant(build, answered) && Ordered(Fifo, answered)
    ensures answered.a == s.a.(wire := s.a.wire + AnswerTags(build, s.a.sent, |s.b.delivered|))
    ensures !answered.b.peer.closed && answered.b.delivered == s.b.delivered
  {
    FramesRoundTrip(s.b.peer.expected, []);
    RequestIsControl(build, s.b, s.b.wire[0]);
    answered := RequestAnswered(build, Fifo, s, 0);
    AdvanceKeeps(build, Fifo, s, Action(A, Receive(0, false)));
    AdvanceKeepsOrder(build, Fifo, s, Action(A, Receive(0, false)));
  }

  /** What was in flight before is handed over. */
  lemma OlderInOrder(build: Build, s: System, p: nat, missing: nat) returns (middle: System)
    requires Invariant(build, s) && Ordered(Fifo, s) && !s.b.peer.closed && |s.b.delivered| == missing
    requires missing <= |s.a.sent| <= missing + RING_SIZE && p <= |s.a.wire| && NoDisconnect(s.a.wire[..p])
    requires BurstFrom(build, s.a, p, missing)
    ensures Run(build, Fifo, s, Handovers(0, p)) == Reached(middle)
    ensures Invariant(build, middle) && Ordered(Fifo, middle) && !middle.b.peer.closed
    ensures s.b.delivered <= middle.b.delivered && |middle.b.delivered| <= |middle.a.sent|
    ensures middle.a.sent == s.a.sent && BurstFrom(build, middle.a, 0, missing)
  {
    middle := HandOverFirst(build, s, p);
    var _ := KeptInOrder(build, s, p, middle);
    assert middle.a.wire[0..] == s.a.wire[p..];
  }

  /** The same over a network that keeps order: the request is next in turn, and everything in flight
      from a, old and new, is handed over in order. What was in flight may bring packets of its
      own (`middle`); with whole frames b has everything in the end. */
  lemma RepairCompletesInOrder(build: Build, s: System)
      returns (answered: System, middle: System, total: nat, repaired: System)
    requires Invariant(build, s) && Ordered(Fifo, s) && Requested(s, 0) && SameLap(|s.b.delivered|, |s.a.sent|)
    requires NoDisconnect(s.a.wire)
    ensures Advance(build, Fifo, s, Action(A, Receive(0, false))) == Reached(answered)
    ensures Run(build, Fifo, answered, Handovers(0, |s.a.wire|)) == Reached(middle)
    ensures s.b.delivered <= middle.b.delivered && |middle.b.delivered| <= |s.a.sent|
    ensures total == |answered.a.wire| == |s.a.wire| + |s.a.sent| - |s.b.delivered|
    ensures Run(build, Fifo, answered, Handovers(0, total)) == Reached(repaired)
    ensures TookPackets(build, s.a.sent, repaired.b, |middle.b.delivered|,
                        FirstUnreadable(build, s.a.sent, |middle.b.delivered|))
    ensures build == WholeFrame ==> repaired.b.delivered == s.a.sent
  {
    var missing, p := |s.b.delivered|, |s.a.wire|;
    LapIsShort(missing, |s.a.sent|);
    answered := AnsweredInOrder(build, s);
    AnswerStandsAt(build, s.a, answered.a, missing);
    middle := OlderInOrder(build, answered, p, missing);
    var rest;
    rest, repaired := FinishInOrder(build, middle, missing);
    total := p + rest;
    JoinRuns(build, answered, middle, p, rest, total);
  }

  lemma JoinRuns(build: Build, s: System, middle: System, p: nat, n: nat, total: nat)
    requires Run(build, Fifo, s, Handovers(0, p)) == Reached(middle) && total == p + n
    ensures Run(build, Fifo, s, Handovers(0, total)) == Run(build, Fifo, middle, Handovers(0, n))
  {
    RunConcat(build, Fifo, s, Handovers(0, p), Handovers(0, n));
    HandoversJoin(0, p, n, total);
  }

  lemma KeptInOrder(build: Build, s: System, n: nat, t: System) returns (started: nat)
    requires Invariant(build, s) && Ordered(Fifo, s) && Run(build, Fifo, s, Handovers(0, n)) == Reached(t)
    ensures Invariant(build, t) && Ordered(Fifo, t) && started == |t.b.delivered| <= |t.a.sent|
  {
    RunKeeps(build, Fifo, s, Handovers(0, n));
    RunKeepsOrder(build, Fifo, s, Handovers(0, n));
    started := |t.b.delivered|;
  }

  /** Only the burst is left in flight. */
  lemma FinishInOrder(build: Build, middle: System, missing: nat) returns (rest: nat, repaired: System)
    requires Invariant(build, middle) && Ordered(Fifo, middle) && !middle.b.peer.closed
    requires missing <= |middle.b.delivered| <= |middle.a.sent| && SameLap(missing, |middle.a.sent|)
    requires BurstFrom(build, middle.a, 0, missing)
    ensures rest == |middle.a.sent| - missing && Run(build, Fifo, middle, Handovers(0, rest)) == Reached(repaired)
    ensures TookPackets(build, middle.a.sent, repaired.b, |middle.b.delivered|,
                        FirstUnreadable(build, middle.a.sent, |middle.b.delivered|))
    ensures build == WholeFrame ==> repaired.b.delivered == middle.a.sent
  {
    var n, start := |middle.a.sent|, |middle.b.delivered|;
    BurstBegins(build, middle, 0, missing, start);
    rest, repaired := HandOverBurst(build, Fifo, middle, 0, missing, start, n);
    BurstOver(build, middle.a.sent, repaired, 0, missing, start);
    var _ := KeptInOrder(build, middle, rest, repaired);
    WholeBurstDelivers(build, middle.a.sent, repaired);
  }

  lemma WholeBurstDelivers(build: Build, sent: seq<Bytes>, s: System)
    requires Invariant(build, s) && Ordered(Fifo, s) && s.a.sent == sent
    requires build == WholeFrame ==> |s.b.delivered| == |sent|
    ensures build == WholeFrame ==> s.b.delivered == sent
  {
    OrderedDelivers(build, s.a, s.b);
  }

  /** A request to disconnect among what is in flight is what prevents it: handed over in turn it closes
      b, and nothing more can be handed over. */
  lemma DisconnectEndsRepair(build: Build, s: System, i: nat, total: nat) returns (t: System)
    requires !s.b.peer.closed && |s.a.sent| - |s.b.delivered| <= RING_SIZE && total == i + 1
    requires i < |s.a.wire| && NoDisconnect(s.a.wire[..i]) && Decode(Clip(s.a.wire[i].datagram)).Disconnect?
    ensures Run(build, Fifo, s, Handovers(0, total)) == Reached(t) && t.b.peer.closed
    ensures Run(build, Fifo, s, Handovers(0, total + 1)).Stuck?
  {
    var u := HandOverFirst(build, s, i);
    HeadLost(s.a.wire, i);
    HandedOver(build, Fifo, u, 0, false);
    RunExtends(build, Fifo, s, Handovers(0, i), Action(B, Receive(0, false)));
    t := System(u.a.(wire := Without(u.a.wire, 0)), AfterReceive(build, u.b, u.a.wire[0]));
    RunExtends(build, Fifo, s, Handovers(0, total), Action(B, Receive(0, false)));
  }
}
