/** The abstract value of one CHOWNAT endpoint and what each call does to it. */
module ChownatPeer {
  import opened Wire

  const RING_SIZE: nat := 256

  /** `ring[k]` is the payload kept in slot k: the first `sizes[k]` bytes of `buffer[k]`. */
  datatype PeerValue = PeerValue(closed: bool, id: Byte, expected: Byte, ring: seq<Bytes>)

  predicate Shaped(peer: PeerValue) {
    && |peer.ring| == RING_SIZE
    && forall k :: 0 <= k < RING_SIZE ==> |peer.ring[k]| <= TCP_MTU_SIZE
  }

  function EmptyRing(): seq<Bytes> {
    seq(RING_SIZE, _ => [])
  }

  const INITIAL: PeerValue := PeerValue(false, 0, 0, EmptyRing())

  type Peer = peer: PeerValue | Shaped(peer) witness INITIAL

  /** One-byte sequence numbers count modulo 256. */
  function Succ(b: Byte): Byte {
    (b + 1) % RING_SIZE
  }

  /** `chownat_udp_send`: keep the payload for repair and advance. */
  function Stored(peer: Peer, payload: Bytes): Peer
    requires |payload| <= TCP_MTU_SIZE
  {
    peer.(ring := peer.ring[peer.id := payload], id := Succ(peer.id))
  }

  /** The answer to a repair request for `got`: slots got, got + 1, ... below the current id.
      The loop does not cross the wrap, so a request at or above `id` is answered by nothing. */
  function BurstSize(peer: Peer, got: Byte): nat {
    if got < peer.id then peer.id - got else 0
  }

  function Burst(build: Build, peer: Peer, got: Byte): (burst: seq<Bytes>)
    ensures |burst| == BurstSize(peer, got)
  {
    seq(BurstSize(peer, got), k requires 0 <= k < BurstSize(peer, got) =>
      RetransmitFrame(build, got + k, peer.ring[got + k]))
  }

  /** Both closing handshakes leave the counters at zero and the session closed. */
  function Closed(peer: Peer): Peer {
    peer.(closed := true, id := 0, expected := 0)
  }

  /** What `chownat_udp_recv` does with one datagram: the new value, the datagrams it sends back
      and the payload it accepts, if any (before it is cut to the caller's buffer). */
  datatype Reaction = Reaction(peer: Peer, replies: seq<Bytes>, accepted: bool, payload: Bytes)

  function React(build: Build, peer: Peer, datagram: Bytes): Reaction
  {
    match Decode(Clip(datagram))
    case Nak(got) => Reaction(peer, Burst(build, peer, got), false, [])
    case Data(got, payload) =>
      if got != peer.expected then Reaction(peer, [NakFrame(peer.expected)], false, [])
      else Reaction(peer.(expected := Succ(peer.expected)), [], true, payload)
    case Disconnect => Reaction(Closed(peer), [], false, [])
    case _ => Reaction(peer, [], false, [])
  }
}
