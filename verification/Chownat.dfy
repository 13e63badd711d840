/** The CHOWNAT endpoint in the form it has in the source: counters and a 256-row retransmit
    buffer updated in place. Every method is proved against `ChownatPeer` and `Handshake`. */
module Chownat {
  import opened Wire
  import opened ChownatPeer
  import opened UdpSockets
  import opened Handshake

  datatype Status = Ok | OkTruncated | Err | AlreadyInit | NotInit | SessionClosed

  datatype Mode = ClientMode | ServerMode | OtherMode

  /** What was said before and during a turn, followed by what is said later. */
  lemma SaidThen(out: seq<Bytes>, said: seq<Bytes>, receives: nat, later: Dialogue)
    ensures (out + said) + later.said == out + Then(said, receives, later).said
    ensures out + [] == out
  {
  }

  lemma AskStep(question: Bytes, limit: nat, attempts: nat, inbox: seq<RecvResult>)
    requires attempts < limit
    ensures AskDialogue(question, limit, attempts, inbox) ==
            if First(inbox, 3) == Got(ACK_03) then Dialogue(true, [question, ACK_03], Rest(inbox), 1)
            else Then([question], 1, AskDialogue(question, limit, attempts + 1, Rest(inbox)))
  {
  }

  lemma AnswerStep(limit: nat, attempts: nat, inbox: seq<RecvResult>)
    requires attempts < limit
    ensures AnswerDialogue(limit, attempts, inbox) ==
            if First(inbox, 3) == Got(ACK_03) then Dialogue(true, [ACK_03], Rest(inbox), 1)
            else if First(inbox, 3) == TimedOut then Then([ACK_03], 1, AnswerDialogue(limit, attempts + 1, Rest(inbox)))
            else Then([ACK_03], 1, AnswerDialogue(limit, attempts, Rest(inbox)))
  {
  }

  ghost predicate Shape(buffer: array2<Byte>, sizes: array<nat>)
    reads sizes
  {
    && buffer.Length0 == RING_SIZE && buffer.Length1 == FRAME_SIZE && sizes.Length == RING_SIZE
    && forall k :: 0 <= k < RING_SIZE ==> sizes[k] <= TCP_MTU_SIZE
  }

  /** The first `sizes[k]` bytes of row k; what lies behind them is left over. */
  ghost function Row(buffer: array2<Byte>, sizes: array<nat>, k: nat): (row: Bytes)
    requires Shape(buffer, sizes) && k < RING_SIZE
    reads buffer, sizes
    ensures |row| == sizes[k] && forall j :: 0 <= j < sizes[k] ==> row[j] == buffer[k, j]
  {
    seq(sizes[k], j requires 0 <= j < sizes[k] && Shape(buffer, sizes) reads sizes, buffer => buffer[k, j])
  }

  ghost function Rows(buffer: array2<Byte>, sizes: array<nat>): (rows: seq<Bytes>)
    requires Shape(buffer, sizes)
    reads buffer, sizes
    ensures |rows| == RING_SIZE && forall k :: 0 <= k < RING_SIZE ==> rows[k] == Row(buffer, sizes, k)
  {
    seq(RING_SIZE, k requires 0 <= k < RING_SIZE && Shape(buffer, sizes) reads buffer, sizes => Row(buffer, sizes, k))
  }

  /** `memcpy` of a payload into a row. */
  method StoreRow(buffer: array2<Byte>, sizes: array<nat>, slot: nat, payload: Bytes)
    requires Shape(buffer, sizes) && slot < RING_SIZE && |payload| <= TCP_MTU_SIZE
    modifies buffer, sizes
    ensures Shape(buffer, sizes) && Rows(buffer, sizes) == old(Rows(buffer, sizes))[slot := payload]
  {
    ghost var before := Rows(buffer, sizes);
    forall j | 0 <= j < |payload| { buffer[slot, j] := payload[j]; }
    sizes[slot] := |payload|;
    assert Row(buffer, sizes, slot) == payload;
    forall k | 0 <= k < RING_SIZE && k != slot ensures Row(buffer, sizes, k) == before[k] {
      assert |before[k]| == sizes[k];
    }
  }

  /** `memcpy` of the used part of a row. */
  method CopyRow(buffer: array2<Byte>, sizes: array<nat>, k: nat) returns (row: Bytes)
    requires Shape(buffer, sizes) && k < RING_SIZE
    ensures row == Row(buffer, sizes, k)
  {
    row := [];
    var j := 0;
    while j < sizes[k]
      invariant 0 <= j <= sizes[k] && |row| == j
      invariant forall x :: 0 <= x < j ==> row[x] == buffer[k, x]
    {
      row := row + [buffer[k, j]];
      j := j + 1;
    }
  }

  /** `memset` of both arrays. */
  method ClearRows(buffer: array2<Byte>, sizes: array<nat>)
    requires Shape(buffer, sizes)
    modifies buffer, sizes
    ensures Shape(buffer, sizes) && Rows(buffer, sizes) == EmptyRing()
  {
    forall i, j | 0 <= i < RING_SIZE && 0 <= j < FRAME_SIZE { buffer[i, j] := 0; }
    forall k | 0 <= k < RING_SIZE { sizes[k] := 0; }
    assert forall k :: 0 <= k < RING_SIZE ==> Row(buffer, sizes, k) == [];
  }

  class Endpoint {
    const build: Build
    const maxAttempts: nat
    const socket: UdpSocket
    var initialised: bool
    var closed: bool
    var id: int
    var expected: int
    const buffer: array2<Byte>
    const sizes: array<nat>

    ghost predicate Valid()
      reads this, sizes
    {
      Shape(buffer, sizes) && 0 <= id < RING_SIZE && 0 <= expected < RING_SIZE
    }

    ghost function Value(): Peer
      requires Valid()
      reads this, buffer, sizes
    {
      PeerValue(closed, id, expected, Rows(buffer, sizes))
    }

    constructor (build: Build, maxAttempts: nat, socket: UdpSocket)
      ensures Valid() && fresh(buffer) && fresh(sizes)
      ensures this.build == build && this.maxAttempts == maxAttempts && this.socket == socket
      ensures !initialised
    {
      this.build, this.maxAttempts, this.socket := build, maxAttempts, socket;
      this.initialised, this.closed, this.id, this.expected := false, false, 0, 0;
      buffer := new Byte[RING_SIZE, FRAME_SIZE]((i, j) => 0);
      sizes := new nat[RING_SIZE](i => 0);
    }

    /** `prepared`: whether setting the socket options and binding succeeded. */
    method Init(prepared: bool) returns (status: Status)
      requires Valid()
      modifies this, buffer, sizes
      ensures Valid()
      ensures old(initialised) ==> status == AlreadyInit && initialised && Value() == old(Value())
      ensures !old(initialised) && !prepared ==> status == Err && !initialised && Value() == old(Value())
      ensures !old(initialised) && prepared ==> status == Ok && initialised && Value() == INITIAL
    {
      if initialised { return AlreadyInit; }
      if !prepared { return Err; }
      id, expected := 0, 0;
      ClearRows(buffer, sizes);
      initialised, closed := true, false;
      return Ok;
    }

    method Deinit() returns (status: Status)
      requires Valid()
      modifies this, socket
      ensures Valid() && !initialised
      ensures !old(initialised) ==> status == NotInit && Value() == old(Value()) && socket.outbox == old(socket.outbox)
      ensures old(initialised) ==> status == Ok && closed
      ensures old(initialised) && !old(closed) ==>
                && Value() == Closed(old(Value()))
                && socket.outbox == old(socket.outbox) + AskDialogue(CLOSE_02, maxAttempts, 0, old(socket.inbox)).said
      ensures old(initialised) && old(closed) ==> Value() == old(Value()) && socket.outbox == old(socket.outbox)
    {
      if !initialised { return NotInit; }
      if !closed {
        var _ := DisconnectSend();
      }
      initialised := false;
      return Ok;
    }

    /** Keeps the payload in slot `id`, advances the counter modulo 256 and sends one data frame.
        All of that has happened even if `sendto` fails. */
    method UdpSend(payload: Bytes) returns (status: Status, sent: nat)
      requires Valid()
      modifies this`id, buffer, sizes, socket
      ensures Valid()
      ensures !initialised ==> status == NotInit
      ensures initialised && closed ==> status == SessionClosed
      ensures initialised && !closed && |payload| > TCP_MTU_SIZE ==> status == Err
      ensures !initialised || closed || |payload| > TCP_MTU_SIZE ==>
                Value() == old(Value()) && socket.outbox == old(socket.outbox)
      ensures initialised && !closed && |payload| <= TCP_MTU_SIZE ==>
                && Value() == Stored(old(Value()), payload)
                && socket.outbox == old(socket.outbox) + [DataFrame(old(id), payload)]
                && status == (if Goes(old(socket.sending)) then Ok else Err)
                && sent == (if Goes(old(socket.sending)) then |payload| else 0)
      ensures socket.inbox == old(socket.inbox)
    {
      sent := 0;
      if !initialised { return NotInit, 0; }
      if closed { return SessionClosed, 0; }
      if |payload| > FRAME_SIZE - HEADER_SIZE { return Err, 0; }
      StoreRow(buffer, sizes, id, payload);
      var outbuf: Bytes := [CHAR_0, CHAR_9, id];
      id := id + 1;
      if id == 256 { id := 0; }
      outbuf := outbuf + payload;
      var ok := socket.SendTo(outbuf);
      if !ok { return Err, 0; }
      return Ok, |outbuf| - HEADER_SIZE;
    }

    /** The answer to a repair request: the loop variable is an unsigned byte, so the loop ends
        only because `id` never exceeds 255. */
    method Retransmit(got: Byte)
      requires Valid()
      modifies socket
      ensures socket.outbox == old(socket.outbox) + Burst(build, Value(), got)
      ensures socket.inbox == old(socket.inbox) && socket.receives == old(socket.receives)
    {
      var i: Byte := got;
      while i < id
        invariant got <= i && (i <= id || i == got)
        invariant i <= id ==> socket.outbox == old(socket.outbox) + Burst(build, Value(), got)[..i - got]
        invariant i > id ==> socket.outbox == old(socket.outbox)
        invariant socket.inbox == old(socket.inbox) && socket.receives == old(socket.receives)
        decreases id - i
      {
        var row := CopyRow(buffer, sizes, i);
        var outbuf := DataFrame(i, row);
        var _ := socket.SendTo(outbuf[..RetransmitLength(build, row)]);
        assert Burst(build, Value(), got)[i - got] == RetransmitFrame(build, i, row);
        i := (i + 1) % 256;
      }
    }

    /** One datagram, as `ChownatPeer.React` says; a failing receive closes the session, a request
        to disconnect runs the answering exchange first. */
    method UdpRecv(capacity: nat) returns (status: Status, payload: Bytes)
      requires Valid()
      modifies this`id, this`expected, this`closed, socket
      ensures Valid()
      ensures !initialised ==> status == NotInit
      ensures initialised && old(closed) ==> status == SessionClosed
      ensures !initialised || old(closed) ==>
                Value() == old(Value()) && payload == []
                && socket.outbox == old(socket.outbox) && socket.inbox == old(socket.inbox)
      ensures initialised && !old(closed) ==>
                var result := First(old(socket.inbox), FRAME_SIZE);
                if result.TimedOut? then
                  && status == Err && payload == [] && Value() == old(Value()).(closed := true)
                  && socket.outbox == old(socket.outbox)
                else if Decode(result.datagram).Disconnect? then
                  var exchange := AnswerDialogue(maxAttempts, 0, Rest(old(socket.inbox)));
                  && status == Err && payload == [] && Value() == Closed(old(Value()))
                  && socket.outbox == old(socket.outbox) + exchange.said && socket.inbox == exchange.rest
                else
                  var reaction := React(build, old(Value()), result.datagram);
                  && Value() == reaction.peer && socket.outbox == old(socket.outbox) + reaction.replies
                  && socket.inbox == Rest(old(socket.inbox))
                  && payload == (if |reaction.payload| > capacity then reaction.payload[..capacity]
                                 else reaction.payload)
                  && status == (if |reaction.payload| > capacity then OkTruncated else Ok)
    {
      payload := [];
      if !initialised { return NotInit, []; }
      if closed { return SessionClosed, []; }
      var result := socket.Recv(FRAME_SIZE);
      if result.TimedOut? {
        closed := true;
        return Err, [];
      }
      var message := result.datagram;
      assert Clip(message) == message;
      match Decode(message)
      case Disconnect =>
        var _ := DisconnectRecv();
        closed := true;
        return Err, [];
      case Nak(got) =>
        Retransmit(got);
        return Ok, [];
      case Data(got, body) =>
        if got != expected {
          var _ := socket.SendTo(NakFrame(expected));
          return Ok, [];
        }
        expected := expected + 1;
        if expected == 256 { expected := 0; }
        if |body| > capacity {
          return OkTruncated, body[..capacity];
        }
        return Ok, body;
      case _ =>
        return Ok, [];
    }

    /** The asking loop of the client's opening and of `DisconnectSend`. */
    method Ask(question: Bytes) returns (ok: bool)
      modifies socket
      ensures var d := AskDialogue(question, maxAttempts, 0, old(socket.inbox));
              && ok == d.ok && socket.outbox == old(socket.outbox) + d.said && socket.inbox == d.rest
              && socket.receives == old(socket.receives) + d.receives
    {
      var attempts := 0;
      ghost var whole := AskDialogue(question, maxAttempts, 0, socket.inbox);
      while attempts < maxAttempts
        invariant attempts <= maxAttempts
        invariant var d := AskDialogue(question, maxAttempts, attempts, socket.inbox);
                  && d.ok == whole.ok && d.rest == whole.rest
                  && socket.outbox + d.said == old(socket.outbox) + whole.said
                  && socket.receives + d.receives == old(socket.receives) + whole.receives
      {
        ghost var out := socket.outbox;
        AskStep(question, maxAttempts, attempts, socket.inbox);
        var _ := socket.SendTo(question);
        var result := socket.Recv(3);
        if result == Got(ACK_03) {
          var _ := socket.SendTo(ACK_03);
          assert out + [question, ACK_03] == out + [question] + [ACK_03];
          return true;
        }
        attempts := attempts + 1;
        SaidThen(out, [question], 1, AskDialogue(question, maxAttempts, attempts, socket.inbox));
      }
      assert socket.outbox + [] == socket.outbox;
      return false;
    }

    /** The answering loop of the server's opening and of `DisconnectRecv`. */
    method Answer() returns (ok: bool)
      modifies socket
      ensures var d := AnswerDialogue(maxAttempts, 0, old(socket.inbox));
              && ok == d.ok && socket.outbox == old(socket.outbox) + d.said && socket.inbox == d.rest
              && socket.receives == old(socket.receives) + d.receives
    {
      var attempts := 0;
      ghost var whole := AnswerDialogue(maxAttempts, 0, socket.inbox);
      while attempts < maxAttempts
        invariant attempts <= maxAttempts
        invariant var d := AnswerDialogue(maxAttempts, attempts, socket.inbox);
                  && d.ok == whole.ok && d.rest == whole.rest
                  && socket.outbox + d.said == old(socket.outbox) + whole.said
                  && socket.receives + d.receives == old(socket.receives) + whole.receives
        decreases |socket.inbox|, maxAttempts - attempts
      {
        ghost var out := socket.outbox;
        AnswerStep(maxAttempts, attempts, socket.inbox);
        var _ := socket.SendTo(ACK_03);
        var result := socket.Recv(3);
        if result == TimedOut {
          attempts := attempts + 1;
        } else if result == Got(ACK_03) {
          return true;
        }
        SaidThen(out, [ACK_03], 1, AnswerDialogue(maxAttempts, attempts, socket.inbox));
      }
      assert socket.outbox + [] == socket.outbox;
      return false;
    }

    /** A closed session sends no keep-alive. */
    method UdpSendKeepAlive() returns (status: Status)
      modifies socket
      ensures status == if !initialised then NotInit else if closed then SessionClosed else Ok
      ensures socket.outbox == old(socket.outbox) + (if status == Ok then [KEEP_ALIVE] else [])
      ensures socket.inbox == old(socket.inbox) && socket.receives == old(socket.receives)
    {
      if !initialised { return NotInit; }
      if closed { return SessionClosed; }
      var _ := socket.SendTo(KEEP_ALIVE);
      return Ok;
    }

    /** The server's opening: listen, and answer every 01. */
    method Listen() returns (ok: bool)
      requires initialised
      modifies socket
      ensures var d := ListenDialogue(!closed, maxAttempts, 0, old(socket.inbox));
              && ok == d.ok && socket.outbox == old(socket.outbox) + d.said && socket.inbox == d.rest
              && socket.receives == old(socket.receives) + d.receives
    {
      var attempts := 0;
      ghost var whole := ListenDialogue(!closed, maxAttempts, 0, socket.inbox);
      while attempts < maxAttempts
        invariant attempts <= maxAttempts
        invariant var d := ListenDialogue(!closed, maxAttempts, attempts, socket.inbox);
                  && d.ok == whole.ok && d.rest == whole.rest
                  && socket.outbox + d.said == old(socket.outbox) + whole.said
                  && socket.receives + d.receives == old(socket.receives) + whole.receives
        decreases |socket.inbox|, maxAttempts - attempts
      {
        ghost var out := socket.outbox;
        ghost var n, inbox := attempts, socket.inbox;
        var result := socket.Recv(3);
        if result == TimedOut {
          var _ := UdpSendKeepAlive();
          attempts := attempts + 1;
          ListeningPasses(!closed, maxAttempts, n, inbox);
          SaidThen(out, if closed then [] else [KEEP_ALIVE], 1,
                   ListenDialogue(!closed, maxAttempts, attempts, socket.inbox));
        } else if result == Got(OPEN_01) {
          ListeningAnswers(!closed, maxAttempts, n, inbox);
          ghost var inner := AnswerDialogue(maxAttempts, 0, socket.inbox);
          var answered := Answer();
          if answered {
            SaidThen(out, [], 1, inner);
            return true;
          }
          SaidThen(out, inner.said, 1 + inner.receives, ListenDialogue(!closed, maxAttempts, attempts, socket.inbox));
        } else {
          ListeningPasses(!closed, maxAttempts, n, inbox);
          SaidThen(out, [], 1, ListenDialogue(!closed, maxAttempts, attempts, socket.inbox));
        }
      }
      assert socket.outbox + [] == socket.outbox;
      return false;
    }

    method HolePunching(mode: Mode) returns (status: Status)
      modifies socket
      ensures !initialised ==> status == NotInit && socket.outbox == old(socket.outbox)
      ensures initialised && mode == OtherMode ==> status == Err && socket.outbox == old(socket.outbox)
      ensures initialised && mode != OtherMode ==>
                var d := if mode == ClientMode then AskDialogue(OPEN_01, maxAttempts, 0, old(socket.inbox))
                         else ListenDialogue(!closed, maxAttempts, 0, old(socket.inbox));
                && status == (if d.ok then Ok else Err)
                && socket.outbox == old(socket.outbox) + d.said && socket.inbox == d.rest
                && socket.receives == old(socket.receives) + d.receives
    {
      if !initialised { return NotInit; }
      var ok := false;
      match mode {
        case ClientMode => ok := Ask(OPEN_01);
        case ServerMode => ok := Listen();
        case OtherMode =>
      }
      return if ok then Ok else Err;
    }

    /** Whatever the exchange brought, the session ends closed with both counters at zero. */
    method DisconnectSend() returns (status: Status)
      requires Valid()
      modifies this`id, this`expected, this`closed, socket
      ensures Valid()
      ensures !initialised ==> status == NotInit
      ensures initialised && old(closed) ==> status == SessionClosed
      ensures !initialised || old(closed) ==> Value() == old(Value()) && socket.outbox == old(socket.outbox)
      ensures initialised && !old(closed) ==>
                var d := AskDialogue(CLOSE_02, maxAttempts, 0, old(socket.inbox));
                && status == Ok && Value() == Closed(old(Value())) && closed && id == expected == 0
                && socket.outbox == old(socket.outbox) + d.said && socket.inbox == d.rest
                && socket.receives == old(socket.receives) + d.receives
    {
      if !initialised { return NotInit; }
      if closed { return SessionClosed; }
      var _ := Ask(CLOSE_02);
      id, expected := 0, 0;
      closed := true;
      return Ok;
    }

    method DisconnectRecv() returns (status: Status)
      requires Valid()
      modifies this`id, this`expected, this`closed, socket
      ensures Valid()
      ensures !initialised ==> status == NotInit
      ensures initialised && old(closed) ==> status == SessionClosed
      ensures !initialised || old(closed) ==> Value() == old(Value()) && socket.outbox == old(socket.outbox)
      ensures initialised && !old(closed) ==>
                var d := AnswerDialogue(maxAttempts, 0, old(socket.inbox));
                && status == Ok && Value() == Closed(old(Value())) && closed && id == expected == 0
                && socket.outbox == old(socket.outbox) + d.said && socket.inbox == d.rest
                && socket.receives == old(socket.receives) + d.receives
    {
      if !initialised { return NotInit; }
      if closed { return SessionClosed; }
      var _ := Answer();
      id, expected := 0, 0;
      closed := true;
      return Ok;
    }
  }

  // ---------------------------------------------------------------- all call sequences

  datatype Call =
    | CallInit(prepared: bool)
    | CallDeinit
    | CallHolePunching(mode: Mode)
    | CallUdpSend(payload: Bytes)
    | CallUdpRecv(capacity: nat)
    | CallKeepAlive
    | CallDisconnect

  /** One call: only `Init` opens a closed session, and a closed session neither changes nor, hole
      punching apart, sends anything. */
  method Take(endpoint: Endpoint, call: Call)
    requires endpoint.Valid()
    modifies endpoint, endpoint.buffer, endpoint.sizes, endpoint.socket
    ensures endpoint.Valid()
    ensures endpoint.initialised ==
            ((call.CallInit? && call.prepared) || (old(endpoint.initialised) && !call.CallDeinit?))
    ensures old(endpoint.closed) && !(call.CallInit? && call.prepared && !old(endpoint.initialised)) ==>
              endpoint.closed && endpoint.Value() == old(endpoint.Value())
    ensures old(endpoint.closed) && !call.CallInit? && !call.CallHolePunching? ==>
              endpoint.socket.outbox == old(endpoint.socket.outbox)
  {
    match call {
      case CallInit(prepared) => var _ := endpoint.Init(prepared);
      case CallDeinit => var _ := endpoint.Deinit();
      case CallHolePunching(mode) => var _ := endpoint.HolePunching(mode);
      case CallUdpSend(payload) => var _, _ := endpoint.UdpSend(payload);
      case CallUdpRecv(capacity) => var _, _ := endpoint.UdpRecv(capacity);
      case CallKeepAlive => var _ := endpoint.UdpSendKeepAlive();
      case CallDisconnect => var _ := endpoint.DisconnectSend();
    }
  }

  predicate NoInit(calls: seq<Call>) {
    forall i :: 0 <= i < |calls| ==> !calls[i].CallInit?
  }

  predicate NoDeinit(calls: seq<Call>) {
    forall i :: 0 <= i < |calls| ==> !calls[i].CallDeinit?
  }

  predicate NoHolePunching(calls: seq<Call>) {
    forall i :: 0 <= i < |calls| ==> !calls[i].CallHolePunching?
  }

  /** Over every sequence of calls a closed session stays closed, with nothing about it changed, unless
      it is deinitialised and then initialised again; and until then it sends nothing but what a
      further hole punching sends. */
  method Use(endpoint: Endpoint, calls: seq<Call>)
    requires endpoint.Valid()
    modifies endpoint, endpoint.buffer, endpoint.sizes, endpoint.socket
    ensures endpoint.Valid()
    ensures NoDeinit(calls) && old(endpoint.initialised) ==> endpoint.initialised
    ensures old(endpoint.closed) && (NoInit(calls) || (NoDeinit(calls) && old(endpoint.initialised))) ==>
              endpoint.closed && endpoint.Value() == old(endpoint.Value())
    ensures old(endpoint.closed) && NoInit(calls) && NoHolePunching(calls) ==>
              endpoint.socket.outbox == old(endpoint.socket.outbox)
    decreases |calls|
  {
    if |calls| > 0 {
      Use(endpoint, calls[..|calls| - 1]);
      Take(endpoint, calls[|calls| - 1]);
    }
  }
}
