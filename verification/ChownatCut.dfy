/** The byte pipe is false of the code as written: one lost packet is enough. */
module ChownatCut {
  import opened Wire
  import opened ChownatPeer
  import opened ChownatLink
  import opened ChownatDelivery
  import opened ChownatBurst
  import opened ChownatRepair
  import opened ChownatWindow

  const FIRST: Bytes := [1, 2, 3, 4]
  const SECOND: Bytes := [5, 6, 7, 8]

  /** b has accepted nothing so far. */
  predicate Untouched(e: End) {
    && !e.peer.closed && e.peer.expected == 0
    && e.delivered == [] && e.accepted == [] && e.pending == [] && e.written == []
  }

  /** a has numbered both packets and has so many datagrams in flight. */
  predicate Numbered(e: End, inFlight: nat) {
    && !e.peer.closed && e.peer.id == 2 && e.peer.ring[0] == FIRST && e.peer.ring[1] == SECOND
    && e.sent == [FIRST, SECOND] && e.read == FIRST + SECOND && |e.wire| == inFlight
  }

  /** Both packets numbered, the first one lost. */
  lemma FirstLost() returns (actions: seq<Action>, s: System)
    ensures Leads(AsWritten, Fifo, actions, s, 1, 2) && Numbered(s.a, 1) && Untouched(s.b) && s.b.wire == []
    ensures s.a.wire[0].datagram == DataFrame(1, SECOND)
  {
    var chunks := [FIRST, SECOND];
    actions, s := LoseUpTo(AsWritten, Fifo, chunks, 0, 1, 2, 2);
    StartHolds(AsWritten, Fifo);
    RunKeeps(AsWritten, Fifo, START, actions);
    SecondInFlight(s);
    BothKept(s.a);
    NothingTaken(s.b);
  }

  lemma SecondInFlight(s: System)
    requires Backlog(s, [FIRST, SECOND], 0, 1, 2)
    ensures s.a.sent == [FIRST, SECOND] && |s.a.wire| == 1 && s.a.wire[0].datagram == DataFrame(1, SECOND)
  {
    assert [FIRST, SECOND][..2] == [FIRST, SECOND];
    assert s.a.wire[0].datagram == DataFrame((1 + 0) % RING_SIZE, [FIRST, SECOND][1 + 0]);
  }

  lemma BothKept(e: End)
    requires RingHolds(e) && BytesHold(e) && !e.peer.closed && e.sent == [FIRST, SECOND]
    ensures Numbered(e, |e.wire|)
  {
    assert e.peer.ring[0 % RING_SIZE] == e.sent[0] && e.peer.ring[1 % RING_SIZE] == e.sent[1];
    assert [FIRST, SECOND][..1] == [FIRST] && [FIRST][..0] == [];
    assert Flatten([FIRST]) == [] + FIRST;
    assert Flatten([FIRST, SECOND]) == Flatten([FIRST]) + SECOND;
  }

  lemma NothingTaken(e: End)
    requires BytesHold(e) && !e.peer.closed && e.delivered == [] && e.peer.expected == 0
    requires |e.accepted| == |e.delivered|
    ensures Untouched(e)
  {
  }

  /** The second packet arrives, is refused, and the first one is asked for. */
  lemma FirstRequested() returns (actions: seq<Action>, s: System)
    ensures Leads(AsWritten, Fifo, actions, s, 1, 2) && Numbered(s.a, 0) && Untouched(s.b)
    ensures s.b.wire == [Tagged(NakFrame(0), CONTROL, |s.b.sent|, false)]
  {
    var before;
    actions, before := FirstLost();
    FramesRoundTrip(1, SECOND);
    AsksForAwaited(AsWritten, before.b, before.a.wire[0]);
    HandedOver(AsWritten, Fifo, before, 0, false);
    s := System(before.a.(wire := Without(before.a.wire, 0)), AfterReceive(AsWritten, before.b, before.a.wire[0]));
    OneMore(AsWritten, Fifo, actions, before, 1, 2, Action(B, Receive(0, false)), s);
    actions := actions + [Action(B, Receive(0, false))];
  }

  /** From there the first packet can be delivered, but whatever happens it is never delivered
      whole. */
  lemma FirstNeverWhole() returns (actions: seq<Action>, s: System)
    ensures Leads(AsWritten, Fifo, actions, s, 1, 2) && s.a.sent == [FIRST, SECOND]
    ensures exists more :: Recovers(AsWritten, s, more, 0, false)
    ensures !exists more :: Recovers(AsWritten, s, more, 0, true)
  {
    actions, s := FirstRequested();
    StartHolds(AsWritten, Fifo);
    RunKeeps(AsWritten, Fifo, START, actions);
    RequestedAndLost(s);
    LostPacketRecoverableIff(AsWritten, s, false);
    LostPacketRecoverableIff(AsWritten, s, true);
  }

  /** The state a repair starts from is reached by a run. */
  lemma RepairIsReached() returns (actions: seq<Action>, s: System)
    ensures Leads(AsWritten, Fifo, actions, s, 1, 2)
    ensures Invariant(AsWritten, s) && Ordered(Fifo, s) && Requested(s, 0)
    ensures SameLap(|s.b.delivered|, |s.a.sent|) && NoDisconnect(s.a.wire)
  {
    actions, s := FirstRequested();
    StartHolds(AsWritten, Fifo);
    RunKeeps(AsWritten, Fifo, START, actions);
    RunKeepsOrder(AsWritten, Fifo, START, actions);
  }

  lemma RequestedAndLost(s: System)
    requires Numbered(s.a, 0) && Untouched(s.b)
    requires s.b.wire == [Tagged(NakFrame(0), CONTROL, |s.b.sent|, false)]
    ensures Awaits(s) && Triggered(AsWritten, s) && NoCopy(s.a, 0, false) && NoCopy(s.a, 0, true)
    ensures Repairable(AsWritten, s.a, 0, false) && !Repairable(AsWritten, s.a, 0, true)
  {
    FramesRoundTrip(0, []);
    assert Legible(AsWritten, s.a.sent[0]);
    assert Asks(AsWritten, s.a.sent, s.b.wire[0].datagram, 0);
  }

  /** The answer to the request: two frames, each three bytes short. */
  lemma AnswerIsCut(e: End, request: Tagged)
    requires RingHolds(e) && Numbered(e, 0) && request.datagram == NakFrame(0)
    ensures var e' := AfterReceive(AsWritten, e, request);
            && e' == e.(wire := e'.wire) && |e'.wire| == 2
            && e'.wire[0].datagram == DataFrame(0, [1]) && e'.wire[0].index == 0
            && e'.wire[1].datagram == DataFrame(1, [5]) && e'.wire[1].index == 1
  {
    FramesRoundTrip(0, []);
    AnswerOnWire(AsWritten, e, request, 0);
    var tags := AnswerTags(AsWritten, e.sent, 0);
    assert e.wire + tags == tags;
    CutFrame(0, FIRST, 1);
    CutFrame(1, SECOND, 5);
  }

  lemma CutFrame(id: Byte, packet: Bytes, head: Byte)
    requires |packet| == 4 && packet[0] == head
    ensures RetransmitFrame(AsWritten, id, packet) == DataFrame(id, [head])
  {
  }

  lemma BothAnswered() returns (actions: seq<Action>, s: System)
    ensures Leads(AsWritten, Fifo, actions, s, 1, 2) && s.a.sent == [FIRST, SECOND] && s.a.read == FIRST + SECOND
    ensures Untouched(s.b) && |s.a.wire| == 2
    ensures s.a.wire[0].datagram == DataFrame(0, [1]) && s.a.wire[0].index == 0
    ensures s.a.wire[1].datagram == DataFrame(1, [5]) && s.a.wire[1].index == 1
  {
    var before;
    actions, before := FirstRequested();
    StartHolds(AsWritten, Fifo);
    RunKeeps(AsWritten, Fifo, START, actions);
    AnswerIsCut(before.a, before.b.wire[0]);
    AnswerTaken(AsWritten, Fifo, before, 0);
    s := System(AfterReceive(AsWritten, before.a, before.b.wire[0]), before.b.(wire := Without(before.b.wire, 0)));
    OneMore(AsWritten, Fifo, actions, before, 1, 2, Action(A, Receive(0, false)), s);
    actions := actions + [Action(A, Receive(0, false))];
  }

  /** b takes a frame that holds one byte. */
  lemma ByteTaken(actions: seq<Action>, s: System, byte: Byte) returns (s': System)
    requires Leads(AsWritten, Fifo, actions, s, 1, 2) && !s.b.peer.closed && s.a.wire != []
    requires |s.a.sent| == 2 && s.a.wire[0].datagram == DataFrame(s.b.peer.expected, [byte])
    ensures Leads(AsWritten, Fifo, actions + [Action(B, Receive(0, false))], s', 1, 2)
    ensures s'.a == s.a.(wire := Without(s.a.wire, 0))
    ensures !s'.b.peer.closed && s'.b.peer.expected == Succ(s.b.peer.expected)
    ensures s'.b.pending == s.b.pending + [byte] && s'.b.written == s.b.written
  {
    FramesRoundTrip(s.b.peer.expected, [byte]);
    TakesAwaited(AsWritten, s.b, s.a.wire[0], [byte]);
    HandedOver(AsWritten, Fifo, s, 0, false);
    s' := System(s.a.(wire := Without(s.a.wire, 0)), AfterReceive(AsWritten, s.b, s.a.wire[0]));
    OneMore(AsWritten, Fifo, actions, s, 1, 2, Action(B, Receive(0, false)), s');
  }

  lemma WriteTaken(actions: seq<Action>, s: System) returns (s': System)
    requires Leads(AsWritten, Fifo, actions, s, 1, 2) && !s.b.peer.closed && |s.b.pending| == 2 && |s.a.sent| == 2
    ensures Leads(AsWritten, Fifo, actions + [Action(B, WriteTcp(2))], s', 1, 2)
    ensures s'.a == s.a && s'.b.written == s.b.written + s.b.pending
  {
    s' := System(s.a, s.b.(pending := s.b.pending[2..], written := s.b.written + s.b.pending[..2]));
    OneMore(AsWritten, Fifo, actions, s, 1, 2, Action(B, WriteTcp(2)), s');
    assert s.b.pending[..2] == s.b.pending;
  }

  /** A run in which exactly one datagram is lost, none is reordered or repeated and never more than two
      packets are outstanding: the bytes written at b are no prefix of those read at a. */
  lemma WrittenLengthBreaksPipe() returns (actions: seq<Action>, s: System)
    ensures Leads(AsWritten, Fifo, actions, s, 1, 2)
    ensures s.a.read == FIRST + SECOND && s.b.written == [1, 5] && !(s.b.written <= s.a.read)
  {
    var take := Action(B, Receive(0, false));
    var zero;
    actions, zero := BothAnswered();
    var one := ByteTaken(actions, zero, 1);
    var two := ByteTaken(actions + [take], one, 5);
    s := WriteTaken(actions + [take] + [take], two);
    actions := actions + [take] + [take] + [Action(B, WriteTcp(2))];
    assert s.b.written == [1, 5] && s.b.written[1] != s.a.read[1];
  }
}
