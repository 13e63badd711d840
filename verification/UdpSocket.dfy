/** A UDP socket as the endpoint sees it: the results its coming `recv` calls will have, and the
    datagrams it passed to `sendto`. */
module UdpSockets {
  import opened Wire

  datatype RecvResult = TimedOut | Got(datagram: Bytes)

  /** A datagram longer than the receive buffer is cut. */
  function Cut(result: RecvResult, capacity: nat): RecvResult {
    if result.Got? && |result.datagram| > capacity then Got(result.datagram[..capacity]) else result
  }

  function First(inbox: seq<RecvResult>, capacity: nat): RecvResult {
    if inbox == [] then TimedOut else Cut(inbox[0], capacity)
  }

  function Rest(inbox: seq<RecvResult>): seq<RecvResult> {
    if inbox == [] then [] else inbox[1..]
  }

  /** What the next of some coming `sendto` calls returns: after the last entry every one succeeds. */
  predicate Goes(sending: seq<bool>) {
    sending == [] || sending[0]
  }

  class UdpSocket {
    /** What the coming `recv` calls return; after the last entry every call times out. */
    var inbox: seq<RecvResult>
    /** Every datagram passed to `sendto`; one whose `sendto` failed is lost at the first hop. */
    var outbox: seq<Bytes>
    /** Whether the coming `sendto` calls succeed. */
    var sending: seq<bool>
    var receives: nat

    constructor (inbox: seq<RecvResult>, sending: seq<bool>)
      ensures this.inbox == inbox && outbox == [] && this.sending == sending && receives == 0
    {
      this.inbox, outbox, this.sending, receives := inbox, [], sending, 0;
    }

    method Recv(capacity: nat) returns (result: RecvResult)
      modifies this
      ensures result == First(old(inbox), capacity)
      ensures inbox == Rest(old(inbox)) && outbox == old(outbox) && receives == old(receives) + 1
      ensures sending == old(sending)
    {
      if inbox == [] {
        result := TimedOut;
      } else {
        result := Cut(inbox[0], capacity);
        inbox := inbox[1..];
      }
      receives := receives + 1;
    }

    method SendTo(datagram: Bytes) returns (ok: bool)
      modifies this
      ensures outbox == old(outbox) + [datagram] && inbox == old(inbox) && receives == old(receives)
      ensures ok == Goes(old(sending)) && sending == if old(sending) == [] then [] else old(sending)[1..]
    {
      outbox := outbox + [datagram];
      ok := sending == [] || sending[0];
      if sending != [] { sending := sending[1..]; }
    }
  }
}
