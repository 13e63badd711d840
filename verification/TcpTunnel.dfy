/** The two socket turns of the event loop on the endpoint itself: a TCP chunk becomes a data
    frame, and an accepted payload is written to TCP. */
module TcpTunnel {
  import opened Wire
  import opened ChownatPeer
  import opened UdpSockets
  import opened Handshake
  import opened Chownat

  datatype ReadResult = Bytes(chunk: seq<Byte>) | Ended | ReadFailed

  /** `send` was interrupted, failed, or took some of the bytes offered. */
  datatype SendResult = Interrupted | SendFailed | Took(n: nat)

  /** What the next of some coming reads returns: at most `capacity` bytes of what has arrived. */
  function NextRead(incoming: seq<ReadResult>, capacity: nat): (result: ReadResult)
    ensures result.Bytes? ==> 0 < |result.chunk| <= capacity || capacity == 0
  {
    if incoming == [] then ReadFailed
    else if !incoming[0].Bytes? then incoming[0]
    else if incoming[0].chunk == [] then Ended
    else if |incoming[0].chunk| > capacity then Bytes(incoming[0].chunk[..capacity])
    else incoming[0]
  }

  class TcpSocket {
    /** What the coming calls return; afterwards reads fail and a `send` takes all it is offered. */
    var incoming: seq<ReadResult>
    var sending: seq<SendResult>
    var read: seq<Byte>
    var written: seq<Byte>

    /** What does not fit into the buffer is left for the next call. */
    method Recv(capacity: nat) returns (result: ReadResult)
      requires capacity > 0
      modifies this`incoming, this`read
      ensures result == NextRead(old(incoming), capacity)
      ensures read == if result.Bytes? then old(read) + result.chunk else old(read)
      ensures old(incoming) != [] ==>
                if old(incoming)[0].Bytes? && |old(incoming)[0].chunk| > capacity
                then incoming == [Bytes(old(incoming)[0].chunk[capacity..])] + old(incoming)[1..]
                else incoming == old(incoming)[1..]
    {
      if incoming == [] { return ReadFailed; }
      result := incoming[0];
      incoming := incoming[1..];
      if result.Bytes? {
        if result.chunk == [] { return Ended; }
        if |result.chunk| > capacity {
          incoming := [Bytes(result.chunk[capacity..])] + incoming;
          result := Bytes(result.chunk[..capacity]);
        }
        read := read + result.chunk;
      }
    }

    /** The next answer; no call takes more than it is offered. */
    method Send(bytes: seq<Byte>) returns (result: SendResult)
      requires bytes != []
      modifies this`sending, this`written
      ensures var answer := if old(sending) == [] then Took(|bytes|) else old(sending)[0];
              result == if answer.Took? && answer.n > |bytes| then Took(|bytes|) else answer
      ensures sending == if old(sending) == [] then [] else old(sending)[1..]
      ensures written == if result.Took? then old(written) + bytes[..result.n] else old(written)
    {
      if sending == [] {
        result := Took(|bytes|);
      } else {
        result := sending[0];
        sending := sending[1..];
        if result.Took? && result.n > |bytes| { result := Took(|bytes|); }
      }
      if result.Took? { written := written + bytes[..result.n]; }
    }
  }

  /** An answer that ends the writing: an error, or a `send` that takes nothing. */
  predicate Refuses(answer: SendResult) {
    answer == SendFailed || answer == Took(0)
  }

  /** The bytes some answers take together. */
  function Taken(answers: seq<SendResult>): nat {
    if answers == [] then 0
    else Taken(answers[..|answers| - 1]) + (if answers[|answers| - 1].Took? then answers[|answers| - 1].n else 0)
  }

  /** No answer refuses before `size` bytes are taken: interruptions and partial writes do no harm. */
  predicate Accepts(sending: seq<SendResult>, size: nat) {
    forall k :: 0 <= k < |sending| && Refuses(sending[k]) ==> Taken(sending[..k]) >= size
  }

  lemma TakenOneMore(answers: seq<SendResult>, k: nat)
    requires k < |answers|
    ensures Taken(answers[..k + 1]) == Taken(answers[..k]) + (if answers[k].Took? then answers[k].n else 0)
  {
    assert answers[..k + 1][..k] == answers[..k];
  }

  lemma {:induction false} TakenGrows(answers: seq<SendResult>, m: nat, n: nat)
    requires m <= n <= |answers|
    ensures Taken(answers[..m]) <= Taken(answers[..n])
  {
    if m < n {
      TakenGrows(answers, m, n - 1);
      TakenOneMore(answers, n - 1);
    }
  }

  /** Answer k refuses the bytes left. */
  ghost predicate RefusedAt(sending: seq<SendResult>, k: nat, size: nat) {
    k < |sending| && Refuses(sending[k]) && Taken(sending[..k]) < size
    && forall i :: 0 <= i < k ==> !Refuses(sending[i])
  }

  /** The first k answers have taken everything, or there are no more. */
  lemma AllAccepted(sending: seq<SendResult>, k: nat, size: nat)
    requires k <= |sending| && (Taken(sending[..k]) >= size || k == |sending|)
    requires forall i :: 0 <= i < k ==> !Refuses(sending[i])
    ensures Accepts(sending, size)
  {
    forall i | 0 <= i < |sending| && Refuses(sending[i]) ensures Taken(sending[..i]) >= size {
      TakenGrows(sending, k, i);
    }
  }

  lemma PrefixGrows(buf: seq<Byte>, offset: nat, n: nat)
    requires offset + n <= |buf|
    ensures buf[..offset] + buf[offset..][..n] == buf[..offset + n]
  {
  }

  /** `tcp_send`: it succeeds exactly if no answer refuses before all bytes are taken, and then every byte
      was written in order; otherwise those the answers before the refusal took. */
  method TcpSend(tcp: TcpSocket, buf: seq<Byte>) returns (ok: bool)
    modifies tcp`sending, tcp`written
    ensures ok <==> Accepts(old(tcp.sending), |buf|)
    ensures ok ==> tcp.written == old(tcp.written) + buf
    ensures !ok ==> exists k: nat ::
              && RefusedAt(old(tcp.sending), k, |buf|) && tcp.sending == old(tcp.sending)[k + 1..]
              && tcp.written == old(tcp.written) + buf[..Taken(old(tcp.sending)[..k])]
    ensures old(tcp.written) <= tcp.written <= old(tcp.written) + buf
    ensures !ok ==> tcp.written < old(tcp.written) + buf
  {
    var offset := 0;
    ghost var k, all := 0, tcp.sending;
    while offset < |buf|
      invariant 0 <= offset <= |buf| && tcp.written == old(tcp.written) + buf[..offset]
      invariant k <= |all| && tcp.sending == all[k..] && forall i :: 0 <= i < k ==> !Refuses(all[i])
      invariant if offset < |buf| then offset == Taken(all[..k]) else Taken(all[..k]) >= |buf| || k == |all|
      decreases |buf| - offset, |tcp.sending|
    {
      ghost var answered := k < |all|;
      if answered { TakenOneMore(all, k); }
      var result := tcp.Send(buf[offset..]);
      match result {
        case Interrupted =>
        case SendFailed =>
          assert RefusedAt(all, k, |buf|);
          return false;
        case Took(n) =>
          if n == 0 {
            assert RefusedAt(all, k, |buf|);
            return false;
          }
          PrefixGrows(buf, offset, n);
          offset := offset + n;
      }
      if answered { k := k + 1; }
    }
    assert buf[..offset] == buf;
    AllAccepted(all, k, |buf|);
    return true;
  }

  /** `tcp_recv`: what was read is what is numbered and sent, whole. */
  method TcpRecv(endpoint: Endpoint, tcp: TcpSocket) returns (status: Status)
    requires endpoint.Valid()
    modifies tcp`incoming, tcp`read, endpoint`id, endpoint.buffer, endpoint.sizes, endpoint.socket
    ensures endpoint.Valid()
    ensures !endpoint.initialised ==> status == NotInit
    ensures endpoint.initialised && endpoint.closed ==> status == SessionClosed
    ensures !endpoint.initialised || endpoint.closed ==>
              && tcp.read == old(tcp.read) && tcp.incoming == old(tcp.incoming)
              && endpoint.Value() == old(endpoint.Value()) && endpoint.socket.outbox == old(endpoint.socket.outbox)
    ensures endpoint.initialised && !endpoint.closed ==>
              match NextRead(old(tcp.incoming), TCP_MTU_SIZE)
              case Bytes(chunk) =>
                && tcp.read == old(tcp.read) + chunk && 0 < |chunk| <= TCP_MTU_SIZE
                && endpoint.Value() == Stored(old(endpoint.Value()), chunk)
                && endpoint.socket.outbox == old(endpoint.socket.outbox) + [DataFrame(old(endpoint.id), chunk)]
                && status == (if Goes(old(endpoint.socket.sending)) then Ok else Err)
              case _ =>
                && status == Err && tcp.read == old(tcp.read) && endpoint.Value() == old(endpoint.Value())
                && endpoint.socket.outbox == old(endpoint.socket.outbox)
    ensures endpoint.socket.inbox == old(endpoint.socket.inbox)
  {
    if !endpoint.initialised { return NotInit; }
    if endpoint.closed { return SessionClosed; }
    var result := tcp.Recv(TCP_MTU_SIZE);
    match result {
      case Ended => return Err;
      case ReadFailed => return Err;
      case Bytes(chunk) =>
        var outcome, _ := endpoint.UdpSend(chunk);
        return outcome;
    }
  }

  /** `udp_recv` followed by `tcp_send`: the receive never reports truncation, and what reaches TCP
      is the accepted payload, or a prefix of it if TCP refuses some of it. A failing receive and a
      request to disconnect, and only those, close the endpoint and leave TCP alone. */
  method UdpTurn(endpoint: Endpoint, tcp: TcpSocket) returns (received: Status, forwarded: bool)
    requires endpoint.Valid() && endpoint.initialised && !endpoint.closed
    modifies tcp`sending, tcp`written, endpoint`id, endpoint`expected, endpoint`closed, endpoint.socket
    ensures endpoint.Valid() && received != OkTruncated
    ensures var result := First(old(endpoint.socket.inbox), FRAME_SIZE);
            if result.Got? && !Decode(result.datagram).Disconnect? then
              && received == Ok
              && (var reaction := React(endpoint.build, old(endpoint.Value()), result.datagram);
                  && endpoint.Value() == reaction.peer
                  && endpoint.socket.outbox == old(endpoint.socket.outbox) + reaction.replies
                  && old(tcp.written) <= tcp.written <= old(tcp.written) + reaction.payload
                  && endpoint.socket.inbox == Rest(old(endpoint.socket.inbox))
                  && (forwarded <==> Accepts(old(tcp.sending), |reaction.payload|))
                  && (forwarded ==> tcp.written == old(tcp.written) + reaction.payload)
                  && !endpoint.closed)
            else
              && received == Err && !forwarded && tcp.written == old(tcp.written) && endpoint.closed
              && (if result.TimedOut? then
                    && endpoint.Value() == old(endpoint.Value()).(closed := true)
                    && endpoint.socket.outbox == old(endpoint.socket.outbox)
                  else
                    && Decode(result.datagram).Disconnect?
                    && endpoint.Value() == Closed(old(endpoint.Value()))
                    && endpoint.socket.outbox == old(endpoint.socket.outbox) +
                         AnswerDialogue(endpoint.maxAttempts, 0, Rest(old(endpoint.socket.inbox))).said)
  {
    forwarded := false;
    var payload;
    received, payload := endpoint.UdpRecv(TCP_MTU_SIZE);
    if received == Ok {
      forwarded := TcpSend(tcp, payload);
    }
  }
}
