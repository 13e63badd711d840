/** The whole tunnel: two endpoints in the form they have in the source, each with its TCP socket, and
    the network between them. Every call is shown to be a run of `ChownatLink` whose datagrams in flight
    are ones the endpoint passed to `sendto`, so what is proved about all runs holds of the objects. */
module ChownatTunnel {
  import opened Wire
  import opened ChownatPeer
  import opened UdpSockets
  import opened Handshake
  import opened Chownat
  import opened TcpTunnel
  import opened ChownatLink
  import opened ChownatDelivery

  // ---------------------------------------------------------------- one side

  /** Every datagram in flight was passed to `sendto`. */
  predicate SentBy(wire: seq<Tagged>, outbox: seq<Bytes>) {
    forall i :: 0 <= i < |wire| ==> wire[i].datagram in outbox
  }

  /** The objects of one side have the value `end`: what it has in flight its endpoint has sent, and
      an open session holds back nothing from TCP. */
  ghost predicate Matches(endpoint: Endpoint, tcp: TcpSocket, end: End)
    reads endpoint, endpoint.buffer, endpoint.sizes, endpoint.socket, tcp
  {
    && endpoint.Valid() && endpoint.initialised && end.peer == endpoint.Value()
    && end.read == tcp.read && end.written == tcp.written && SentBy(end.wire, endpoint.socket.outbox)
    && (!endpoint.closed ==> end.pending == [])
  }

  lemma SentMore(wire: seq<Tagged>, more: seq<Tagged>, outbox: seq<Bytes>, said: seq<Bytes>)
    requires SentBy(wire, outbox) && |more| == |said|
    requires forall i :: 0 <= i < |more| ==> more[i].datagram == said[i]
    ensures SentBy(wire + more, outbox + said)
  {
    forall i | 0 <= i < |wire + more| ensures (wire + more)[i].datagram in outbox + said {
      if i >= |wire| { assert said[i - |wire|] in said; }
    }
  }

  lemma SentLess(wire: seq<Tagged>, at: nat, outbox: seq<Bytes>)
    requires SentBy(wire, outbox) && at < |wire|
    ensures SentBy(Without(wire, at), outbox)
  {
  }

  /** The replies to a datagram and the messages of a closing exchange. */
  lemma ServedSent(build: Build, end: End, t: Tagged, n: nat, said: seq<Bytes>, closing: bool,
                   outbox: seq<Bytes>, later: seq<Bytes>)
    requires SentBy(end.wire, outbox) && later == outbox + React(build, end.peer, t.datagram).replies + said
    requires n <= |AfterReceive(build, end, t).pending|
    ensures SentBy(Finished(AfterReceive(build, end, t), n, said, closing).wire, later)
  {
    var replies := React(build, end.peer, t.datagram).replies;
    var tags := TagReplies(end, t.datagram, replies);
    SentMore(end.wire, tags, outbox, replies);
    SentMore(end.wire + tags, ControlTags(said, |end.sent|), outbox + replies, said);
  }

  function ControlTags(said: seq<Bytes>, era: nat): (tags: seq<Tagged>)
    ensures |tags| == |said|
  {
    seq(|said|, i requires 0 <= i < |said| => Tagged(said[i], CONTROL, era, false))
  }

  predicate AllControl(said: seq<Bytes>) {
    forall i :: 0 <= i < |said| ==> IsControlMessage(said[i])
  }

  function Written(me: End, n: nat): End
    requires n <= |me.pending|
  {
    me.(pending := me.pending[n..], written := me.written + me.pending[..n])
  }

  function Said(me: End, said: seq<Bytes>): End {
    me.(wire := me.wire + ControlTags(said, |me.sent|))
  }

  /** What a side does after taking a datagram: it writes n bytes to TCP and, if it closes, says so. */
  function Finished(me: End, n: nat, said: seq<Bytes>, closing: bool): End
    requires n <= |me.pending|
  {
    var told := Said(Written(me, n), said);
    if closing then told.(peer := Closed(told.peer)) else told
  }

  lemma ExchangesAreControl(question: Bytes, limit: nat, inbox: seq<RecvResult>)
    requires IsControlMessage(question)
    ensures AllControl(AskDialogue(question, limit, 0, inbox).said)
    ensures AllControl(AnswerDialogue(limit, 0, inbox).said)
  {
    AskingSays(question, limit, 0, inbox);
    AnsweringBounded(limit, 0, inbox);
  }

  /** What an open side reads from TCP: one chunk, if any has arrived. */
  function ChunksRead(closed: bool, incoming: seq<ReadResult>): (chunks: seq<Bytes>)
    ensures |chunks| <= 1 && forall c :: c in chunks ==> 0 < |c| <= TCP_MTU_SIZE
  {
    if closed then []
    else
      match NextRead(incoming, TCP_MTU_SIZE)
      case Bytes(chunk) => [chunk]
      case _ => []
  }

  /** A turn of TCP: nothing, or one chunk numbered and sent. It fails if there is none, or if the
      `sendto` does. */
  method ReadTurn(endpoint: Endpoint, tcp: TcpSocket, ghost end: End)
      returns (ok: bool, ghost chunks: seq<Bytes>, ghost end': End)
    requires Matches(endpoint, tcp, end)
    modifies tcp`incoming, tcp`read, endpoint`id, endpoint.buffer, endpoint.sizes, endpoint.socket
    ensures Matches(endpoint, tcp, end') && chunks == ChunksRead(end.peer.closed, old(tcp.incoming))
    ensures ok <==> chunks != [] && Goes(old(endpoint.socket.sending))
    ensures endpoint.socket.inbox == old(endpoint.socket.inbox)
    ensures chunks == [] ==> end' == end && endpoint.socket.outbox == old(endpoint.socket.outbox)
    ensures chunks != [] ==>
              && end' == AfterSend(end, chunks[0])
              && endpoint.socket.outbox == old(endpoint.socket.outbox) + [DataFrame(end.peer.id, chunks[0])]
  {
    chunks, end' := ChunksRead(end.peer.closed, tcp.incoming), end;
    var status := TcpRecv(endpoint, tcp);
    ok := status == Ok;
    if chunks != [] {
      end' := AfterSend(end, chunks[0]);
      SentMore(end.wire, end'.wire[|end.wire|..], old(endpoint.socket.outbox), [DataFrame(end.peer.id, chunks[0])]);
    }
  }

  /** TCP refuses a part of the payload, or the datagram asks to disconnect. */
  predicate Closes(datagram: Bytes, payload: Bytes, sending: seq<SendResult>) {
    Decode(Clip(datagram)).Disconnect? || !Accepts(sending, |payload|)
  }

  /** What a pass reads from TCP if it found it readable. */
  function ReadyChunks(tcp: bool, incoming: seq<ReadResult>): seq<Bytes> {
    if tcp then ChunksRead(false, incoming) else []
  }

  /** A readable TCP socket has nothing, or what it has cannot be sent. */
  predicate TcpCloses(tcp: bool, incoming: seq<ReadResult>, going: seq<bool>) {
    tcp && (ChunksRead(false, incoming) == [] || !Goes(going))
  }

  /** A receive that fails, or a datagram that closes. */
  predicate UdpCloses(build: Build, peer: Peer, result: RecvResult, sending: seq<SendResult>) {
    result.TimedOut? || Closes(result.datagram, React(build, peer, result.datagram).payload, sending)
  }

  /** The messages of the closing exchange that follows, if one does. */
  function ClosingSays(limit: nat, datagram: Bytes, payload: Bytes, sending: seq<SendResult>, later: seq<RecvResult>)
    : seq<Bytes>
  {
    if Decode(Clip(datagram)).Disconnect? then AnswerDialogue(limit, 0, later).said
    else if Accepts(sending, |payload|) then []
    else AskDialogue(CLOSE_02, limit, 0, later).said
  }

  lemma ClippedTwice(build: Build, peer: Peer, datagram: Bytes)
    ensures Clip(Clip(datagram)) == Clip(datagram)
    ensures React(build, peer, Clip(datagram)) == React(build, peer, datagram)
    ensures Cut(Got(datagram), FRAME_SIZE) == Got(Clip(datagram))
  {
  }

  /** What a side is after a datagram that asks it to disconnect. */
  lemma ClosedBy(build: Build, end: End, t: Tagged, said: seq<Bytes>)
    requires Decode(Clip(t.datagram)).Disconnect?
    ensures React(build, end.peer, t.datagram).replies == []
    ensures Finished(AfterReceive(build, end, t), 0, said, true) ==
            end.(peer := Closed(end.peer), wire := end.wire + ControlTags(said, |end.sent|))
  {
    assert end.wire + [] == end.wire && end.written + [] == end.written;
  }

  /** What a side is after any other datagram, when TCP took a part of the payload. */
  lemma ForwardedBy(build: Build, end: End, t: Tagged, written: Bytes, n: nat, said: seq<Bytes>, closing: bool)
    requires end.pending == [] && n == |written| - |end.written|
    requires end.written <= written <= end.written + React(build, end.peer, t.datagram).payload
    ensures var reaction, taken := React(build, end.peer, t.datagram), AfterReceive(build, end, t);
            && n <= |taken.pending| && taken.peer == reaction.peer
            && (var end' := Finished(taken, n, said, closing);
                && end'.peer == (if closing then Closed(reaction.peer) else reaction.peer)
                && end'.read == end.read && end'.written == written
                && (written == end.written + reaction.payload ==> end'.pending == []))
  {
    var payload := React(build, end.peer, t.datagram).payload;
    assert [] + payload == payload;
    assert written == (end.written + payload)[..|written|] == end.written + payload[..n];
  }

  /** The closing exchange a side begins. */
  method DisconnectTurn(endpoint: Endpoint) returns (ghost said: seq<Bytes>)
    requires endpoint.Valid() && endpoint.initialised && !endpoint.closed
    modifies endpoint`id, endpoint`expected, endpoint`closed, endpoint.socket
    ensures endpoint.Valid() && endpoint.Value() == Closed(old(endpoint.Value())) && AllControl(said)
    ensures said == AskDialogue(CLOSE_02, endpoint.maxAttempts, 0, old(endpoint.socket.inbox)).said
    ensures endpoint.socket.outbox == old(endpoint.socket.outbox) + said
  {
    said := AskDialogue(CLOSE_02, endpoint.maxAttempts, 0, endpoint.socket.inbox).said;
    ExchangesAreControl(CLOSE_02, endpoint.maxAttempts, endpoint.socket.inbox);
    var _ := endpoint.DisconnectSend();
  }

  /** The payload was offered to TCP: if TCP failed the loop disconnects. */
  method AfterForwarding(endpoint: Endpoint, forwarded: bool) returns (ghost said: seq<Bytes>)
    requires endpoint.Valid() && endpoint.initialised && !endpoint.closed
    modifies endpoint`id, endpoint`expected, endpoint`closed, endpoint.socket
    ensures endpoint.Valid() && AllControl(said)
    ensures endpoint.Value() == if forwarded then old(endpoint.Value()) else Closed(old(endpoint.Value()))
    ensures said == if forwarded then []
                    else AskDialogue(CLOSE_02, endpoint.maxAttempts, 0, old(endpoint.socket.inbox)).said
    ensures endpoint.socket.outbox == old(endpoint.socket.outbox) + said
  {
    said := [];
    if !forwarded { said := DisconnectTurn(endpoint); }
  }

  /** `UdpTurn` on a given datagram. */
  method TurnOn(endpoint: Endpoint, tcp: TcpSocket, datagram: Bytes, later: seq<RecvResult>)
      returns (ok: bool, forwarded: bool)
    requires endpoint.Valid() && endpoint.initialised && !endpoint.closed
    modifies tcp`sending, tcp`written, endpoint`id, endpoint`expected, endpoint`closed, endpoint.socket
    ensures endpoint.Valid()
    ensures var reaction := React(endpoint.build, old(endpoint.Value()), datagram);
            !Decode(Clip(datagram)).Disconnect? ==>
              && ok && !endpoint.closed && endpoint.Value() == reaction.peer && endpoint.socket.inbox == later
              && endpoint.socket.outbox == old(endpoint.socket.outbox) + reaction.replies
              && old(tcp.written) <= tcp.written <= old(tcp.written) + reaction.payload
              && (forwarded <==> Accepts(old(tcp.sending), |reaction.payload|))
              && (forwarded ==> tcp.written == old(tcp.written) + reaction.payload)
    ensures Decode(Clip(datagram)).Disconnect? ==>
              && !ok && endpoint.closed
              && endpoint.Value() == Closed(old(endpoint.Value())) && tcp.written == old(tcp.written)
              && endpoint.socket.outbox ==
                 old(endpoint.socket.outbox) + AnswerDialogue(endpoint.maxAttempts, 0, later).said
  {
    endpoint.socket.inbox := [Got(datagram)] + later;
    ghost var inbox := endpoint.socket.inbox;
    assert inbox[0] == Got(datagram) && Rest(inbox) == later;
    ClippedTwice(endpoint.build, endpoint.Value(), datagram);
    var received;
    received, forwarded := UdpTurn(endpoint, tcp);
    ok := received == Ok;
  }

  /** What the side is after such a turn, from what the endpoint and TCP are. */
  lemma TurnEnds(build: Build, end: End, t: Tagged, ok: bool, forwarded: bool, peer: Peer, written: Bytes,
                 said: seq<Bytes>)
      returns (n: nat, closing: bool, end': End)
    requires end.pending == [] && !end.peer.closed
    requires var reaction := React(build, end.peer, t.datagram);
             if ok then
               && !reaction.peer.closed && peer == (if forwarded then reaction.peer else Closed(reaction.peer))
               && end.written <= written <= end.written + reaction.payload
               && (forwarded ==> written == end.written + reaction.payload)
             else Decode(Clip(t.datagram)).Disconnect? && peer == Closed(end.peer) && written == end.written
    ensures var taken := AfterReceive(build, end, t);
            n <= |taken.pending| && (n > 0 ==> !taken.peer.closed) && end' == Finished(taken, n, said, closing)
    ensures end'.peer == peer && end'.written == written && end'.read == end.read
    ensures !peer.closed ==> end'.pending == []
    ensures !ok ==> React(build, end.peer, t.datagram).replies == []
    ensures (closing <==> !ok || !forwarded) && end'.peer.closed == closing
  {
    if ok {
      n, closing := |written| - |end.written|, !forwarded;
      ForwardedBy(build, end, t, written, n, said, closing);
    } else {
      n, closing := 0, true;
      ClosedBy(build, end, t, said);
    }
    end' := Finished(AfterReceive(build, end, t), n, said, closing);
  }

  /** A turn of UDP on a datagram of the other side, whatever arrives if it makes the endpoint close:
      one step `Receive`, the bytes TCP took, and the messages of a closing exchange. */
  method ServeTurn(endpoint: Endpoint, tcp: TcpSocket, ghost end: End, ghost t: Tagged,
                   datagram: Bytes, later: seq<RecvResult>)
      returns (ghost n: nat, ghost said: seq<Bytes>, ghost closing: bool, ghost end': End)
    requires Matches(endpoint, tcp, end) && !endpoint.closed && t.datagram == datagram
    modifies tcp`sending, tcp`written, endpoint`id, endpoint`expected, endpoint`closed, endpoint.socket
    ensures Matches(endpoint, tcp, end') && AllControl(said)
    ensures var taken := AfterReceive(endpoint.build, end, t);
            n <= |taken.pending| && (n > 0 ==> !taken.peer.closed) && end' == Finished(taken, n, said, closing)
    ensures endpoint.socket.outbox ==
            old(endpoint.socket.outbox) + React(endpoint.build, end.peer, t.datagram).replies + said
    ensures var payload := React(endpoint.build, end.peer, datagram).payload;
            && end'.peer.closed == closing == Closes(datagram, payload, old(tcp.sending))
            && said == ClosingSays(endpoint.maxAttempts, datagram, payload, old(tcp.sending), later)
  {
    var ok, forwarded := TurnOn(endpoint, tcp, datagram, later);
    if ok {
      said := AfterForwarding(endpoint, forwarded);
    } else {
      said := AnswerDialogue(endpoint.maxAttempts, 0, later).said;
      ExchangesAreControl(CLOSE_02, endpoint.maxAttempts, later);
    }
    n, closing, end' := TurnEnds(endpoint.build, end, t, ok, forwarded, endpoint.Value(), tcp.written, said);
    ServedSent(endpoint.build, end, t, n, said, closing, old(endpoint.socket.outbox), endpoint.socket.outbox);
  }

  // ---------------------------------------------------------------- as runs of the link

  function With(s: System, who: Actor, me: End): System {
    if who == A then s.(a := me) else s.(b := me)
  }

  /** The other side's wire after the receive. */
  function WithBoth(s: System, who: Actor, me: End, other: End): System {
    if who == A then System(me, other) else System(other, me)
  }

  function EmitAll(who: Actor, said: seq<Bytes>): seq<Action> {
    if said == [] then [] else EmitAll(who, said[..|said| - 1]) + [Action(who, EmitControl(said[|said| - 1]))]
  }

  lemma {:induction false} EmitAllRuns(build: Build, channel: Channel, s: System, who: Actor, said: seq<Bytes>)
    requires AllControl(said)
    ensures Run(build, channel, s, EmitAll(who, said)) == Reached(With(s, who, Said(Mine(s, who), said)))
  {
    if said == [] {
      assert Mine(s, who).wire + [] == Mine(s, who).wire;
    } else {
      var front, last := said[..|said| - 1], said[|said| - 1];
      EmitAllRuns(build, channel, s, who, front);
      RunExtends(build, channel, s, EmitAll(who, front), Action(who, EmitControl(last)));
      OneSaidMore(Mine(s, who), front, last);
      assert said == front + [last];
    }
  }

  lemma OneSaidMore(me: End, front: seq<Bytes>, last: Bytes)
    ensures var told := Said(me, front);
            told.(wire := told.wire + [Tagged(last, CONTROL, |told.sent|, false)]) == Said(me, front + [last])
  {
    assert ControlTags(front + [last], |me.sent|) ==
           ControlTags(front, |me.sent|) + [Tagged(last, CONTROL, |me.sent|, false)];
  }

  /** The steps a side takes on its own after a receive. */
  function FinishActions(who: Actor, n: nat, said: seq<Bytes>, closing: bool): seq<Action> {
    (if n > 0 then [Action(who, WriteTcp(n))] else []) + EmitAll(who, said) +
    (if closing then [Action(who, Close(true))] else [])
  }

  /** The closing exchange of the loop. */
  function HangUp(who: Actor, limit: nat, inbox: seq<RecvResult>): seq<Action> {
    FinishActions(who, 0, AskDialogue(CLOSE_02, limit, 0, inbox).said, true)
  }

  lemma FinishRuns(build: Build, channel: Channel, s: System, who: Actor, n: nat, said: seq<Bytes>, closing: bool)
    requires n <= |Mine(s, who).pending| && (n > 0 ==> !Mine(s, who).peer.closed) && AllControl(said)
    ensures Run(build, channel, s, FinishActions(who, n, said, closing)) ==
            Reached(With(s, who, Finished(Mine(s, who), n, said, closing)))
  {
    var write := if n > 0 then [Action(who, WriteTcp(n))] else [];
    var written := With(s, who, Written(Mine(s, who), n));
    var told := With(s, who, Said(Written(Mine(s, who), n), said));
    WriteRuns(build, channel, s, who, n);
    EmitAllRuns(build, channel, written, who, said);
    RunConcat(build, channel, s, write, EmitAll(who, said));
    CloseRuns(build, channel, told, who, closing);
    RunConcat(build, channel, s, write + EmitAll(who, said), if closing then [Action(who, Close(true))] else []);
  }

  lemma CloseRuns(build: Build, channel: Channel, s: System, who: Actor, closing: bool)
    ensures Run(build, channel, s, if closing then [Action(who, Close(true))] else []) ==
            Reached(if closing then With(s, who, Mine(s, who).(peer := Closed(Mine(s, who).peer))) else s)
  {
    if closing { RunOne(build, channel, s, Action(who, Close(true))); }
  }

  lemma WriteRuns(build: Build, channel: Channel, s: System, who: Actor, n: nat)
    requires n <= |Mine(s, who).pending| && (n > 0 ==> !Mine(s, who).peer.closed)
    ensures Run(build, channel, s, if n > 0 then [Action(who, WriteTcp(n))] else []) ==
            Reached(With(s, who, Written(Mine(s, who), n)))
  {
    if n > 0 {
      RunOne(build, channel, s, Action(who, WriteTcp(n)));
    } else {
      assert Mine(s, who).written + [] == Mine(s, who).written;
    }
  }

  /** A receive and what follows it. */
  lemma ServeRuns(build: Build, channel: Channel, s: System, who: Actor, at: nat, keep: bool,
                  n: nat, said: seq<Bytes>, closing: bool)
    requires Enabled(Mine(s, who), Theirs(s, who), Receive(at, keep))
    requires Admits(channel, Mine(s, who), Theirs(s, who), Receive(at, keep)) && AllControl(said)
    requires var taken := AfterReceive(build, Mine(s, who), Theirs(s, who).wire[at]);
             n <= |taken.pending| && (n > 0 ==> !taken.peer.closed)
    ensures var taken := AfterReceive(build, Mine(s, who), Theirs(s, who).wire[at]);
            Run(build, channel, s, [Action(who, Receive(at, keep))] + FinishActions(who, n, said, closing)) ==
            Reached(WithBoth(s, who, Finished(taken, n, said, closing), Left(Theirs(s, who), at, keep)))
  {
    var receive := Action(who, Receive(at, keep));
    var taken := AfterReceive(build, Mine(s, who), Theirs(s, who).wire[at]);
    var middle := WithBoth(s, who, taken, Left(Theirs(s, who), at, keep));
    RunOne(build, channel, s, receive);
    FinishRuns(build, channel, middle, who, n, said, closing);
    RunConcat(build, channel, s, [receive], FinishActions(who, n, said, closing));
  }

  /** The side after it has read these chunks. */
  function AfterReading(me: End, chunks: seq<Bytes>): End
    requires |chunks| <= 1 && forall c :: c in chunks ==> |c| <= TCP_MTU_SIZE
  {
    if chunks == [] then me else AfterSend(me, chunks[0])
  }

  /** The chunks become packets. */
  function SendAll(who: Actor, chunks: seq<Bytes>): seq<Action> {
    seq(|chunks|, i requires 0 <= i < |chunks| => Action(who, SendChunk(chunks[i])))
  }

  lemma ReadRuns(build: Build, channel: Channel, s: System, who: Actor, chunks: seq<Bytes>)
    requires |chunks| <= 1 && forall c :: c in chunks ==> |c| <= TCP_MTU_SIZE
    requires chunks != [] ==> !Mine(s, who).peer.closed
    ensures Run(build, channel, s, SendAll(who, chunks)) ==
            Reached(With(s, who, AfterReading(Mine(s, who), chunks)))
  {
    if chunks != [] {
      assert SendAll(who, chunks) == [Action(who, SendChunk(chunks[0]))];
      RunOne(build, channel, s, Action(who, SendChunk(chunks[0])));
    }
  }

  function KeptAlive(s: System, who: Actor): (next: System)
    ensures next.a == s.a.(wire := next.a.wire) && next.b == s.b.(wire := next.b.wire)
  {
    With(s, who, Mine(s, who).(wire := Mine(s, who).wire + [Tagged(KEEP_ALIVE, CONTROL, |Mine(s, who).sent|, false)]))
  }

  lemma KeepAliveRuns(build: Build, channel: Channel, s: System, who: Actor)
    ensures Run(build, channel, s, [Action(who, EmitControl(KEEP_ALIVE))]) == Reached(KeptAlive(s, who))
  {
    RunOne(build, channel, s, Action(who, EmitControl(KEEP_ALIVE)));
  }

  /** Reading TCP neither closes a side nor delivers anything to it. */
  predicate Same(before: End, after: End) {
    && after.peer.closed == before.peer.closed && after.peer.expected == before.peer.expected
    && after.delivered == before.delivered
  }

  /** The payload a side accepts depends on the number it awaits alone. */
  lemma SamePayload(build: Build, before: Peer, after: Peer, datagram: Bytes)
    requires after.expected == before.expected
    ensures React(build, after, datagram).payload == React(build, before, datagram).payload
  {
  }

  /** The network may hand the datagram in place `at` to `me`. */
  predicate HandsOver(channel: Channel, me: End, other: End, at: nat, keep: bool, datagram: Bytes) {
    && Enabled(me, other, Receive(at, keep)) && Admits(channel, me, other, Receive(at, keep))
    && other.wire[at].datagram == datagram
  }

  function Left(other: End, at: nat, keep: bool): End
    requires at < |other.wire|
  {
    if keep then other else other.(wire := Without(other.wire, at))
  }

  // ---------------------------------------------------------------- the objects together

  class Tunnel {
    const channel: Channel
    const endA: Endpoint
    const endB: Endpoint
    const tcpA: TcpSocket
    const tcpB: TcpSocket
    ghost var state: System
    ghost var history: seq<Action>

    ghost predicate Apart() {
      && endA != endB && tcpA != tcpB && endA.socket != endB.socket
      && endA.buffer != endB.buffer && endA.sizes != endB.sizes && endA.build == endB.build
    }

    ghost predicate BothMatch(s: System)
      reads endA, endA.buffer, endA.sizes, endA.socket, tcpA
      reads endB, endB.buffer, endB.sizes, endB.socket, tcpB
    {
      Matches(endA, tcpA, s.a) && Matches(endB, tcpB, s.b)
    }

    /** The objects are what the run made of the two sides. */
    ghost predicate Valid()
      reads this`state, this`history, endA, endA.buffer, endA.sizes, endA.socket, tcpA
      reads endB, endB.buffer, endB.sizes, endB.socket, tcpB
    {
      Apart() && BothMatch(state) && Run(endA.build, channel, START, history) == Reached(state)
    }

    /** Two endpoints just initialised. */
    constructor (channel: Channel, endA: Endpoint, endB: Endpoint, tcpA: TcpSocket, tcpB: TcpSocket)
      requires endA != endB && tcpA != tcpB && endA.socket != endB.socket
      requires endA.buffer != endB.buffer && endA.sizes != endB.sizes && endA.build == endB.build
      requires endA.Valid() && endA.initialised && endA.Value() == INITIAL && tcpA.read == tcpA.written == []
      requires endB.Valid() && endB.initialised && endB.Value() == INITIAL && tcpB.read == tcpB.written == []
      ensures Valid() && state == START && history == [] && this.channel == channel
      ensures this.endA == endA && this.endB == endB && this.tcpA == tcpA && this.tcpB == tcpB
    {
      this.channel := channel;
      this.endA, this.endB, this.tcpA, this.tcpB := endA, endB, tcpA, tcpB;
      state, history := START, [];
    }

    ghost method Record(actions: seq<Action>, next: System)
      requires Run(endA.build, channel, START, history) == Reached(state)
      requires Run(endA.build, channel, state, actions) == Reached(next)
      modifies this`state, this`history
      ensures state == next && history == old(history) + actions
      ensures Run(endA.build, channel, START, history) == Reached(state)
    {
      RunConcat(endA.build, channel, START, history, actions);
      state, history := next, history + actions;
    }

    /** The same when only one side changes. */
    ghost method RecordMine(who: Actor, actions: seq<Action>, me: End)
      requires Apart() && BothMatch(With(state, who, me))
      requires Run(endA.build, channel, START, history) == Reached(state)
      requires Run(endA.build, channel, state, actions) == Reached(With(state, who, me))
      modifies this`state, this`history
      ensures Valid() && history == old(history) + actions
      ensures Mine(state, who) == me && Theirs(state, who) == Theirs(old(state), who)
    {
      Record(actions, With(state, who, me));
    }

    function EndpointOf(who: Actor): Endpoint {
      if who == A then endA else endB
    }

    function TcpOf(who: Actor): TcpSocket {
      if who == A then tcpA else tcpB
    }

    /** The objects' part of `Read`. */
    method ReadSide(who: Actor) returns (ok: bool, ghost chunks: seq<Bytes>, ghost me: End)
      requires Apart() && BothMatch(state)
      modifies tcpA`incoming, tcpA`read, tcpB`incoming, tcpB`read
      modifies endA, endA.buffer, endA.sizes, endA.socket, endB, endB.buffer, endB.sizes, endB.socket
      ensures BothMatch(With(state, who, me))
      ensures chunks == ChunksRead(Mine(state, who).peer.closed, old(TcpOf(who).incoming))
      ensures ok <==> chunks != [] && Goes(old(EndpointOf(who).socket.sending))
      ensures EndpointOf(who).socket.inbox == old(EndpointOf(who).socket.inbox)
      ensures me == AfterReading(Mine(state, who), chunks) && Same(Mine(state, who), me)
    {
      if who == A {
        ok, chunks, me := ReadTurn(endA, tcpA, state.a);
      } else {
        ok, chunks, me := ReadTurn(endB, tcpB, state.b);
      }
    }

    /** `select` found the TCP socket of one side readable. */
    method Read(who: Actor) returns (ok: bool)
      requires Valid()
      modifies this`state, this`history, tcpA`incoming, tcpA`read, tcpB`incoming, tcpB`read
      modifies endA, endA.buffer, endA.sizes, endA.socket, endB, endB.buffer, endB.sizes, endB.socket
      ensures Valid()
      ensures var chunks := ChunksRead(Mine(old(state), who).peer.closed, old(TcpOf(who).incoming));
              && history == old(history) + SendAll(who, chunks)
              && (ok <==> chunks != [] && Goes(old(EndpointOf(who).socket.sending)))
      ensures EndpointOf(who).socket.inbox == old(EndpointOf(who).socket.inbox)
      ensures Theirs(state, who) == Theirs(old(state), who) && Same(Mine(old(state), who), Mine(state, who))
    {
      ghost var chunks, me;
      ok, chunks, me := ReadSide(who);
      ReadRuns(endA.build, channel, state, who, chunks);
      RecordMine(who, SendAll(who, chunks), me);
    }

    /** The objects' part of `Serve`. */
    method ServeSide(who: Actor, ghost t: Tagged, datagram: Bytes, later: seq<RecvResult>)
        returns (ghost n: nat, ghost said: seq<Bytes>, ghost closing: bool, ghost me: End)
      requires Apart() && BothMatch(state) && !Mine(state, who).peer.closed && t.datagram == datagram
      modifies endA, endA.buffer, endA.sizes, endA.socket, tcpA, endB, endB.buffer, endB.sizes, endB.socket, tcpB
      ensures BothMatch(With(state, who, me)) && AllControl(said)
      ensures var taken := AfterReceive(endA.build, Mine(state, who), t);
              && n <= |taken.pending| && (n > 0 ==> !taken.peer.closed) && me == Finished(taken, n, said, closing)
      ensures var payload := React(endA.build, Mine(state, who).peer, datagram).payload;
              && me.peer.closed == closing == Closes(datagram, payload, old(TcpOf(who).sending))
              && said == ClosingSays(EndpointOf(who).maxAttempts, datagram, payload, old(TcpOf(who).sending), later)
    {
      if who == A {
        n, said, closing, me := ServeTurn(endA, tcpA, state.a, t, datagram, later);
      } else {
        n, said, closing, me := ServeTurn(endB, tcpB, state.b, t, datagram, later);
      }
    }

    /** The network hands one of the other side's datagrams to an open side; whatever else it hands
        over (`later`) is read only by a closing exchange, which there is exactly if the datagram asks
        to disconnect or TCP refuses the payload. */
    method Serve(who: Actor, ghost at: nat, ghost keep: bool, datagram: Bytes, later: seq<RecvResult>)
        returns (ghost n: nat, ghost said: seq<Bytes>, ghost closing: bool)
      requires Valid() && HandsOver(channel, Mine(state, who), Theirs(state, who), at, keep, datagram)
      modifies this`state, this`history
      modifies endA, endA.buffer, endA.sizes, endA.socket, tcpA, endB, endB.buffer, endB.sizes, endB.socket, tcpB
      ensures Valid() && Mine(state, who).peer.closed == closing
      ensures history == old(history) + ([Action(who, Receive(at, keep))] + FinishActions(who, n, said, closing))
      ensures var payload := React(endA.build, Mine(old(state), who).peer, datagram).payload;
              && closing == Closes(datagram, payload, old(TcpOf(who).sending))
              && said == ClosingSays(EndpointOf(who).maxAttempts, datagram, payload, old(TcpOf(who).sending), later)
    {
      ghost var me;
      n, said, closing, me := ServeSide(who, Theirs(state, who).wire[at], datagram, later);
      RecordServed(who, at, keep, n, said, closing, me);
    }

    ghost method RecordServed(who: Actor, at: nat, keep: bool, n: nat, said: seq<Bytes>, closing: bool, me: End)
      requires Apart() && BothMatch(With(state, who, me)) && AllControl(said)
      requires Run(endA.build, channel, START, history) == Reached(state)
      requires Enabled(Mine(state, who), Theirs(state, who), Receive(at, keep))
      requires Admits(channel, Mine(state, who), Theirs(state, who), Receive(at, keep))
      requires var taken := AfterReceive(endA.build, Mine(state, who), Theirs(state, who).wire[at]);
               && n <= |taken.pending| && (n > 0 ==> !taken.peer.closed) && me == Finished(taken, n, said, closing)
      modifies this`state, this`history
      ensures Valid() && Mine(state, who) == me
      ensures history == old(history) + ([Action(who, Receive(at, keep))] + FinishActions(who, n, said, closing))
    {
      ServeRuns(endA.build, channel, state, who, at, keep, n, said, closing);
      ghost var next := WithBoth(state, who, me, Left(Theirs(state, who), at, keep));
      TakenMatches(state, who, at, keep, me);
      Record([Action(who, Receive(at, keep))] + FinishActions(who, n, said, closing), next);
    }

    /** What is in flight is no part of the objects, as long as they have sent it. */
    lemma LeftMatches(s: System, next: System)
      requires BothMatch(s) && SentBy(next.a.wire, endA.socket.outbox) && SentBy(next.b.wire, endB.socket.outbox)
      requires next.a == s.a.(wire := next.a.wire) && next.b == s.b.(wire := next.b.wire)
      ensures BothMatch(next)
    {
    }

    /** The network takes a datagram of the other side, or a copy of it. */
    lemma TakenMatches(s: System, who: Actor, at: nat, keep: bool, me: End)
      requires BothMatch(With(s, who, me)) && at < |Theirs(s, who).wire|
      ensures BothMatch(WithBoth(s, who, me, Left(Theirs(s, who), at, keep)))
    {
      if !keep { SentLess(Theirs(s, who).wire, at, (if who == A then endB else endA).socket.outbox); }
      LeftMatches(With(s, who, me), WithBoth(s, who, me, Left(Theirs(s, who), at, keep)));
    }

    /** The objects' part of `Disconnect`. */
    method DisconnectSide(who: Actor) returns (ghost said: seq<Bytes>, ghost me: End)
      requires Apart() && BothMatch(state) && !Mine(state, who).peer.closed
      modifies endA, endA.socket, endB, endB.socket
      ensures BothMatch(With(state, who, me)) && AllControl(said)
      ensures said == AskDialogue(CLOSE_02, EndpointOf(who).maxAttempts, 0, old(EndpointOf(who).socket.inbox)).said
      ensures me == Finished(Mine(state, who), 0, said, true)
    {
      if who == A {
        said := DisconnectTurn(endA);
      } else {
        said := DisconnectTurn(endB);
      }
      me := Finished(Mine(state, who), 0, said, true);
      SentMore(Mine(state, who).wire, ControlTags(said, |Mine(state, who).sent|),
               old(EndpointOf(who).socket.outbox), said);
    }

    /** The loop disconnects one side, which runs the closing exchange. */
    method Disconnect(who: Actor)
      requires Valid() && !Mine(state, who).peer.closed
      modifies this`state, this`history, endA, endA.socket, endB, endB.socket
      ensures Valid() && Mine(state, who).peer.closed
      ensures history == old(history) + HangUp(who, EndpointOf(who).maxAttempts, old(EndpointOf(who).socket.inbox))
    {
      ghost var said, me := DisconnectSide(who);
      FinishRuns(endA.build, channel, state, who, 0, said, true);
      RecordMine(who, FinishActions(who, 0, said, true), me);
    }

    /** The objects' part of `KeepAlive`. */
    method KeepAliveSide(who: Actor)
      requires Apart() && BothMatch(state) && !Mine(state, who).peer.closed
      modifies endA.socket, endB.socket
      ensures BothMatch(KeptAlive(state, who))
      ensures EndpointOf(who).socket.inbox == old(EndpointOf(who).socket.inbox)
    {
      if who == A {
        var _ := endA.UdpSendKeepAlive();
      } else {
        var _ := endB.UdpSendKeepAlive();
      }
      var me := Mine(state, who);
      SentMore(me.wire, [Tagged(KEEP_ALIVE, CONTROL, |me.sent|, false)],
               old((if who == A then endA else endB).socket.outbox), [KEEP_ALIVE]);
    }

    /** The loop sends a keep-alive. */
    method KeepAlive(who: Actor)
      requires Valid() && !Mine(state, who).peer.closed
      modifies this`state, this`history, endA.socket, endB.socket
      ensures Valid() && history == old(history) + [Action(who, EmitControl(KEEP_ALIVE))]
      ensures EndpointOf(who).socket.inbox == old(EndpointOf(who).socket.inbox)
      ensures Mine(state, who).peer == Mine(old(state), who).peer
    {
      KeepAliveSide(who);
      ghost var next := KeptAlive(state, who);
      KeepAliveRuns(endA.build, channel, state, who);
      Record([Action(who, EmitControl(KEEP_ALIVE))], next);
    }

    /** `recv` fails on one side, which closes it. */
    method FailReceive(who: Actor)
      requires Valid() && !Mine(state, who).peer.closed
      modifies this`state, this`history, endA, endA.socket, endB, endB.socket
      ensures Valid() && history == old(history) + [Action(who, Close(false))] && Mine(state, who).peer.closed
    {
      ghost var me := FailSide(who);
      RunOne(endA.build, channel, state, Action(who, Close(false)));
      RecordMine(who, [Action(who, Close(false))], me);
    }

    /** The objects' part of `FailReceive`. */
    method FailSide(who: Actor) returns (ghost me: End)
      requires Apart() && BothMatch(state) && !Mine(state, who).peer.closed
      modifies endA, endA.socket, endB, endB.socket
      ensures BothMatch(With(state, who, me))
      ensures me == Mine(state, who).(peer := Mine(state, who).peer.(closed := true))
    {
      var socket := if who == A then endA.socket else endB.socket;
      socket.inbox := [];
      if who == A {
        var _, _ := endA.UdpRecv(TCP_MTU_SIZE);
      } else {
        var _, _ := endB.UdpRecv(TCP_MTU_SIZE);
      }
      me := Mine(state, who).(peer := Mine(state, who).peer.(closed := true));
    }

    /** The TCP socket may be readable: then a chunk becomes a packet, and if there is none, or its
        `sendto` fails, the loop disconnects. */
    method TcpPart(who: Actor, tcp: bool) returns (closed: bool, ghost read: seq<Action>, ghost hungUp: seq<Action>)
      requires Valid() && !Mine(state, who).peer.closed
      modifies this`state, this`history, tcpA`incoming, tcpA`read, tcpB`incoming, tcpB`read
      modifies endA, endA.buffer, endA.sizes, endA.socket, endB, endB.buffer, endB.sizes, endB.socket
      ensures Valid() && history == old(history) + read + hungUp
      ensures closed == Mine(state, who).peer.closed
      ensures closed == TcpCloses(tcp, old(TcpOf(who).incoming), old(EndpointOf(who).socket.sending))
      ensures read == SendAll(who, ReadyChunks(tcp, old(TcpOf(who).incoming)))
      ensures hungUp == if closed then HangUp(who, EndpointOf(who).maxAttempts, old(EndpointOf(who).socket.inbox))
                        else []
      ensures !closed ==> Theirs(state, who) == Theirs(old(state), who) && Same(Mine(old(state), who), Mine(state, who))
    {
      closed, hungUp, read := false, [], SendAll(who, ReadyChunks(tcp, TcpOf(who).incoming));
      if tcp {
        var ok := Read(who);
        if !ok {
          hungUp := HangUp(who, EndpointOf(who).maxAttempts, EndpointOf(who).socket.inbox);
          Disconnect(who);
        }
        closed := !ok;
      }
    }

    /** The UDP socket is readable, or its `recv` fails. `peer`: the endpoint before TCP was read. */
    method UdpPart(who: Actor, ghost peer: Peer, ghost at: nat, ghost keep: bool, result: RecvResult,
                   later: seq<RecvResult>)
        returns (ghost taken: seq<Action>)
      requires Valid() && !Mine(state, who).peer.closed && Mine(state, who).peer.expected == peer.expected
      requires result.Got? ==> HandsOver(channel, Mine(state, who), Theirs(state, who), at, keep, result.datagram)
      modifies this`state, this`history
      modifies endA, endA.buffer, endA.sizes, endA.socket, tcpA, endB, endB.buffer, endB.sizes, endB.socket, tcpB
      ensures Valid() && history == old(history) + taken
      ensures Mine(state, who).peer.closed == UdpCloses(endA.build, peer, result, old(TcpOf(who).sending))
      ensures taken != [] && taken[0] == Action(who, if result.Got? then Receive(at, keep) else Close(false))
    {
      match result {
        case TimedOut =>
          FailReceive(who);
          taken := [Action(who, Close(false))];
        case Got(datagram) =>
          SamePayload(endA.build, peer, Mine(state, who).peer, datagram);
          ghost var n, said, closing := Serve(who, at, keep, datagram, later);
          taken := [Action(who, Receive(at, keep))] + FinishActions(who, n, said, closing);
      }
    }

    /** One pass of the loop of one side that found sockets ready: TCP first, then UDP, unless the session
        is closed by then. It leaves the session open exactly if neither turn fails. */
    method SocketsReady(who: Actor, tcp: bool, udp: bool, ghost at: nat, ghost keep: bool,
                        result: RecvResult, later: seq<RecvResult>)
        returns (ghost read: seq<Action>, ghost hungUp: seq<Action>, ghost taken: seq<Action>)
      requires Valid() && !Mine(state, who).peer.closed
      requires udp && result.Got? ==>
                 HandsOver(channel, Mine(state, who), Theirs(state, who), at, keep, result.datagram)
      modifies this`state, this`history
      modifies endA, endA.buffer, endA.sizes, endA.socket, tcpA, endB, endB.buffer, endB.sizes, endB.socket, tcpB
      ensures Valid() && history == old(history) + read + hungUp + taken
      ensures var tcpCloses := TcpCloses(tcp, old(TcpOf(who).incoming), old(EndpointOf(who).socket.sending));
              var udpCloses := UdpCloses(endA.build, Mine(old(state), who).peer, result, old(TcpOf(who).sending));
              && read == SendAll(who, ReadyChunks(tcp, old(TcpOf(who).incoming)))
              && hungUp == (if tcpCloses then HangUp(who, EndpointOf(who).maxAttempts,
                                                     old(EndpointOf(who).socket.inbox)) else [])
              && (taken != [] <==> udp && !tcpCloses)
              && (taken != [] ==> taken[0] == Action(who, if result.Got? then Receive(at, keep) else Close(false)))
              && (Mine(state, who).peer.closed <==> tcpCloses || (udp && udpCloses))
    {
      var closed;
      closed, read, hungUp := TcpPart(who, tcp);
      taken := [];
      if udp && !closed { taken := UdpPart(who, Mine(old(state), who).peer, at, keep, result, later); }
    }

    /** One pass that found the deadline reached. */
    method DeadlineReached(who: Actor, inactive: bool)
      requires Valid() && !Mine(state, who).peer.closed
      modifies this`state, this`history, endA, endA.socket, endB, endB.socket
      ensures Valid() && (inactive <==> Mine(state, who).peer.closed)
      ensures history == old(history) + [Action(who, EmitControl(KEEP_ALIVE))] +
                         (if inactive then HangUp(who, EndpointOf(who).maxAttempts, old(EndpointOf(who).socket.inbox))
                          else [])
    {
      KeepAlive(who);
      if inactive { Disconnect(who); }
    }

    /** The network loses a datagram. */
    ghost method LoseDatagram(who: Actor, at: nat)
      requires Valid() && at < |Mine(state, who).wire|
      modifies this`state, this`history
      ensures Valid() && history == old(history) + [Action(who, Lose(at))]
    {
      ghost var next := With(state, who, Mine(state, who).(wire := Without(Mine(state, who).wire, at)));
      RunOne(endA.build, channel, state, Action(who, Lose(at)));
      SentLess(Mine(state, who).wire, at, (if who == A then endA else endB).socket.outbox);
      LeftMatches(state, next);
      Record([Action(who, Lose(at))], next);
    }

    /** At all times, with whole frames and a network that keeps the channel's promise, the bytes written
        to the TCP socket of one side are a prefix of those read from that of the other. */
    lemma BytesArriveInOrder()
      requires Valid() && endA.build == WholeFrame && Windowed(channel)
      ensures tcpB.written <= tcpA.read && tcpA.written <= tcpB.read
    {
      TunnelIsBytePipe(channel, history);
    }

    /** The same one way, over any network that keeps order, if the first side never had more than 256
        packets outstanding. */
    lemma BytesArriveWithinWindow()
      requires Valid() && endA.build == WholeFrame && channel == Queue
      requires NeverMore(WholeFrame, Queue, history, RING_SIZE)
      ensures tcpB.written <= tcpA.read
    {
      WindowIsBytePipe(history);
    }
  }
}
