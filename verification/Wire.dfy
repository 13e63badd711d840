/** The datagrams of the CHOWNAT protocol, as bytes.
    A data frame is "09", one sequence byte and the payload; a repair request is "08",
    one sequence byte and the terminating zero of the C string it is built from. */
module Wire {

  type Byte = b: int | 0 <= b < 256
  type Bytes = seq<Byte>

  const TCP_MTU_SIZE: nat := 1024
  const HEADER_SIZE: nat := 3
  const FRAME_SIZE: nat := TCP_MTU_SIZE + HEADER_SIZE

  /** The characters '0', '1', '2', '3', '8', '9' and the newline. */
  const CHAR_0: Byte := 48
  const CHAR_1: Byte := 49
  const CHAR_2: Byte := 50
  const CHAR_3: Byte := 51
  const CHAR_8: Byte := 56
  const CHAR_9: Byte := 57
  const NEWLINE: Byte := 10

  const KEEP_ALIVE: Bytes := [0]
  const OPEN_01: Bytes := [CHAR_0, CHAR_1, NEWLINE]
  const CLOSE_02: Bytes := [CHAR_0, CHAR_2, NEWLINE]
  const ACK_03: Bytes := [CHAR_0, CHAR_3, NEWLINE]

  function Spelled(text: string): (bytes: Bytes)
    requires forall i :: 0 <= i < |text| ==> text[i] < 256 as char
    ensures |bytes| == |text| && forall i :: 0 <= i < |text| ==> bytes[i] == text[i] as int
  {
    seq(|text|, i requires 0 <= i < |text| => text[i] as int)
  }

  datatype Frame =
    | KeepAlive
    | Disconnect
    | Handshake
    | Nak(got: Byte)
    | Data(got: Byte, payload: Bytes)
    | Ignored

  /** Whether a retransmission carries the frame length the code passes to `sendto` (the payload
      size without the header) or the whole frame, as the reference server sends it. */
  datatype Build = AsWritten | WholeFrame

  /** The kernel cuts a datagram to the receive buffer. */
  function Clip(datagram: Bytes): (clipped: Bytes)
    ensures |clipped| <= FRAME_SIZE && clipped <= datagram
    ensures |datagram| <= FRAME_SIZE ==> clipped == datagram
  {
    if |datagram| > FRAME_SIZE then datagram[..FRAME_SIZE] else datagram
  }

  /** The order of tests in `chownat_udp_recv`. */
  function Decode(datagram: Bytes): Frame {
    if |datagram| < HEADER_SIZE then KeepAlive
    else if datagram[0] == CHAR_0 && datagram[1] == CHAR_2 && datagram[2] == NEWLINE then Disconnect
    else if datagram[0] == CHAR_0 && datagram[1] == CHAR_3 && datagram[2] == NEWLINE then Handshake
    else if datagram[0] == CHAR_0 && datagram[1] == CHAR_8 then Nak(datagram[2])
    else if datagram[0] == CHAR_0 && datagram[1] == CHAR_9 then Data(datagram[2], datagram[3..])
    else Ignored
  }

  function DataFrame(id: Byte, payload: Bytes): Bytes {
    [CHAR_0, CHAR_9, id] + payload
  }

  function NakFrame(expected: Byte): Bytes {
    [CHAR_0, CHAR_8, expected, 0]
  }

  /** The number of bytes a retransmission hands to `sendto`. */
  function RetransmitLength(build: Build, payload: Bytes): nat {
    match build
    case AsWritten => |payload|
    case WholeFrame => |payload| + HEADER_SIZE
  }

  function RetransmitFrame(build: Build, id: Byte, payload: Bytes): Bytes {
    DataFrame(id, payload)[..RetransmitLength(build, payload)]
  }

  /** The messages are the strings of the source, and the frames begin with them. */
  lemma MessagesSpelled(id: Byte, payload: Bytes)
    ensures Spelled("01\n") == OPEN_01 && Spelled("02\n") == CLOSE_02 && Spelled("03\n") == ACK_03
    ensures Spelled("\0") == KEEP_ALIVE
    ensures DataFrame(id, payload) == Spelled("09") + [id] + payload
    ensures NakFrame(id) == Spelled("08") + [id] + Spelled("\0")
  {
    assert Spelled("09") == [CHAR_0, CHAR_9] && Spelled("08") == [CHAR_0, CHAR_8];
  }

  /** A received datagram is read as data (id, payload) exactly when it is that data frame. */
  lemma DataFrameExact(datagram: Bytes, id: Byte, payload: Bytes)
    ensures Decode(datagram) == Data(id, payload) <==> datagram == DataFrame(id, payload)
  {
    if Decode(datagram) == Data(id, payload) {
      assert datagram == [datagram[0], datagram[1], datagram[2]] + datagram[3..];
    }
    assert DataFrame(id, payload)[3..] == payload;
  }

  /** Every frame the code builds is read back as itself, and frames of different kinds never
      share an encoding: a repair request only names its sequence byte and the three-byte
      control messages never look like data, whatever the sequence byte. */
  lemma FramesRoundTrip(id: Byte, payload: Bytes)
    requires |payload| <= TCP_MTU_SIZE
    ensures |DataFrame(id, payload)| <= FRAME_SIZE
    ensures Decode(Clip(DataFrame(id, payload))) == Data(id, payload)
    ensures Decode(Clip(NakFrame(id))) == Nak(id)
    ensures Decode(CLOSE_02) == Disconnect && Decode(ACK_03) == Handshake
    ensures Decode(OPEN_01) == Ignored && Decode(KEEP_ALIVE) == KeepAlive
  {
    DataFrameExact(DataFrame(id, payload), id, payload);
  }

  /** No datagram, conforming or not, yields more payload than the loop's buffer holds. */
  lemma PayloadFitsLoopBuffer(datagram: Bytes)
    requires Decode(Clip(datagram)).Data?
    ensures |Decode(Clip(datagram)).payload| <= TCP_MTU_SIZE
  {
  }

  /** What the far side reads from a retransmission. Sent with the length the code uses, a payload
      of fewer than three bytes turns into a keep-alive and a longer one loses its last three. */
  lemma RetransmitDecodes(build: Build, id: Byte, payload: Bytes)
    requires |payload| <= TCP_MTU_SIZE
    ensures |RetransmitFrame(build, id, payload)| <= FRAME_SIZE
    ensures build == WholeFrame ==> RetransmitFrame(build, id, payload) == DataFrame(id, payload)
    ensures Decode(RetransmitFrame(WholeFrame, id, payload)) == Data(id, payload)
    ensures Decode(RetransmitFrame(AsWritten, id, payload)) ==
            if |payload| < HEADER_SIZE then KeepAlive else Data(id, payload[..|payload| - HEADER_SIZE])
  {
    DataFrameExact(DataFrame(id, payload), id, payload);
    assert DataFrame(id, payload)[..|payload| + 3] == DataFrame(id, payload);
    if |payload| >= HEADER_SIZE {
      assert DataFrame(id, payload)[..|payload|] == DataFrame(id, payload[..|payload| - HEADER_SIZE]);
      DataFrameExact(RetransmitFrame(AsWritten, id, payload), id, payload[..|payload| - HEADER_SIZE]);
    }
  }
}
