# Verification of the UDP tunnel library

A Dafny model of the tunnel library: the CHOWNAT protocol (reliable delivery with one-byte sequence
numbers, opening and closing exchanges), the event loop that carries TCP over it, and the smaller
state machines around them (QUIC session life and hole punching, cipher list, UDP transport
descriptors, the line framer of the QUIC test program). `dafny verify dfyconfig.toml` checks all of
it.

## How it is organised

| file | content |
|---|---|
| `Wire.dfy` | datagrams as bytes: `Decode`, `DataFrame`, `NakFrame`, `RetransmitFrame` |
| `ChownatPeer.dfy` | the abstract endpoint (closed flag, two one-byte counters, 256 slots) and `React`, what one datagram does to it |
| `Chownat.dfy` | the endpoint as the source has it: counters, a 256-row buffer and a size array updated in place, loops over a socket; every method is proved against `ChownatPeer` and `Handshake` |
| `ChownatLink.dfy` | two endpoints, the network, two TCP streams; all steps; the invariant |
| `ChownatDelivery.dfy` | theorems over every run: ring refines log, in-order delivery, byte pipe, the exact result for the length as written |
| `ChownatRepair.dfy` | what a repair request is answered with, and exactly when a lost packet can still be delivered |
| `ChownatBurst.dfy` | a repair carried out frame by frame, over any network and over one that keeps order |
| `ChownatWindow.dfy`, `ChownatCut.dfy` | runs that show the 256 bound is tight, that two packets of every lap cannot be repaired, that the stream can go on past a gap of a lap, and that the length as written breaks the stream |
| `ChownatTunnel.dfy` | two endpoint objects with their TCP sockets, each call shown to be a run of `ChownatLink` over what the objects passed to `sendto` |
| `UdpSocket.dfy`, `Handshake.dfy`, `Listening.dfy` | a UDP socket; the opening and closing loops; the server's opening round by round |
| `HandshakeSystem.dfy`, `Closing.dfy`, `Alone.dfy` | two processes that open; two open sessions that close; each process, driven by one inbox, is the loop it stands for |
| `TcpTunnel.dfy`, `UdpConnection.dfy` | TCP chunking and partial writes on the endpoint; the event loop and its schedule |
| `QuicSession.dfy`, `QuicHolePunch.dfy`, `CipherList.dfy` | QUIC shutdown budget, close status, handle ownership; hole punching; the cipher suite string |
| `UdpTransport.dfy` | the descriptor ledger |
| `LineFramer.dfy`, `LineDialogue.dfy` | the newline framer of the QUIC test program and its dialogue |

A datagram in flight carries a tag the code never reads: the number of the packet it holds, how many
packets had been numbered when it was put on the wire, and whether it is a retransmission. Four
networks are distinguished. `Wild` loses, duplicates and reorders without limit. `Fresh` does too,
but hands over no data frame 256 or more packets away from the one awaited. `Queue` loses and repeats
but never reorders. `Fifo` is a queue that besides hands over no data frame while more than 256
packets are numbered and undelivered. In-order delivery is proved for `Fresh` and `Fifo`, and for
`Queue` in every run in which the sender has no more than 256 packets outstanding
(`WindowDeliversInOrder`); `WindowIsTight` shows it fails for `Wild`, for every position of the
stream, with one packet more outstanding and neither reordering nor duplication.

## Where the code and the intent differ

The model follows the code.

* `chownat.c:485` passes `sizes[i]` to `sendto` although the frame in the buffer is three bytes
  longer; the reference server (`chownat/C/chownat_server.c:279`) passes `sizes[i]+3`. The parameter
  `Build` selects `AsWritten` or `WholeFrame`. With `WholeFrame` the tunnel is a byte pipe
  (`TunnelIsBytePipe`). With `AsWritten` it is not (`WrittenLengthBreaksPipe`, a run with a single
  lost datagram); it delivers what was sent exactly if no retransmission is accepted, and loses three
  bytes for each one (`WrittenDeliversIff`). A lost packet can never be delivered whole
  (`LostPacketRecoverableIff` with `whole`, `FirstNeverWhole` in a run), and one of fewer than three
  bytes never at all.
* The loop at `chownat.c:478` counts an unsigned byte up to `id`, so a request for a packet before the
  last wrap of `id` is answered by nothing (`AnswerExact`). A packet lost on one side of a wrap with
  `id` on the other, packet k, is lost for good. Over a network that keeps order nothing more is
  delivered as long as at most k + 256 packets are numbered (`StreamFreezes`). With one more the
  stream can go on 256 packets later: packet k + 256 is accepted as number k, and nobody notices
  (`WrapSlipsPastGap`). Losing the last packet of any lap alone leads there (`WrapLosesPacket`).
* There is no retransmission timer: a packet of which no copy is in flight is repaired only if a
  request is in flight, or a frame that makes the receiver ask, or there is room in the lap for a further chunk that will
  (`LostPacketRecoverableIff`). The last packet but one of any lap, lost as the last one numbered,
  waits for ever (`LapEndWaitsForEver`).
* Nothing in `chownat_udp_send` limits the packets outstanding (`WindowIsTight`).
* The comment at `chownat.c:402` says payloads have at most 1021 bytes. `size` is 1027, so the limit
  is 1024.
* 03 means both "I accept your opening" and "I accept your closing". A client that gave up opening and
  is deinitialised runs the closing exchange, and its closing 03 makes a server that is still
  answering an 01 succeed (`TeardownBreaksAgreement`). Without such a teardown agreement holds
  (`OpeningAgrees`); with it, the weaker statement `OpeningWithTeardown`. Likewise the 03 of the
  opening can confirm the client's closing before anyone took its 02 (`StaleAckClosesClient`): that a
  confirmed closing was noticed holds exactly if no 03 is in flight when both are open
  (`ClosingAgreesIff`).
* `chownat_udp_send_ka` sends nothing on a closed session, so a server that listens again after a
  close, without a new `Init`, no longer keeps its NAT mapping open (`Listen`, `UdpSendKeepAlive`).
* The inner counter at `chownat.c:209` hides the outer one, so the opening of the server receives up to
  A + R + A * R times for A attempts and R datagrams (`ListeningBounded`, `ListeningBoundTight`).
* `ossl_quic.c:671` clears `closed` after the CONNECTED callback, so a session the application closed
  inside the callback is open again with its DISCONNECTED callback already made, and makes it a
  second time (`HangUpTwice`). The count of DISCONNECTED callbacks is exact only together with the
  count of such reopenings (`Session.Latched`).
* `ossl_quic_connect` ignores the result of `ossl_quic_pre_connect` and overwrites the handles of an
  earlier connection. A client loses its connection and a server its connection and its listener,
  so nothing is lost exactly if those were NULL (`Connect`); what was lost (`leaked`) is all that
  `Deinit` does not release.
* The callback of the QUIC test program is not independent of how QUIC cuts the stream on the client
  side: the check at line 114 looks at the end of the chunk (`ClientChunksMatterIff`,
  `ClientTellsChunksApart`).

## Assumptions

`recv`, `send`, `sendto`, `select`, the clock and OpenSSL are objects that may answer anything; what
they answer is either given beforehand (`UdpSocket`, `TcpSocket`, `Kernel`) or written to a log
(`Environment`, `Library`). Except: the monotonic clock never goes back; a `recv` or `send` moves no
more than it was offered (UDP: one datagram, cut to the buffer); `SSL_free` and `close` succeed in freeing; a
`select` that reports a timeout waited. Loops that the environment can keep going for ever carry an
arbitrary but finite budget, which stands for how long they are observed (`Environment.budget`,
`Library.undecided`). A `sendto` that fails is a send followed by a loss.

## Model

| member | source | states |
|---|---|---|
| Wire.DataFrameExact | source/libs/protocols/chownat/src/chownat.c:491-502 | a datagram is read as data (id, payload) exactly if it is that data frame |
| Wire.FramesRoundTrip | source/libs/protocols/chownat/src/chownat.c:452-498 | every frame the code builds, for every sequence byte and payload, is read back as itself and as no other kind, within 1027 bytes |
| Wire.MessagesSpelled | source/libs/protocols/chownat/src/chownat.c:171-229 | the control messages and the prefixes of the frames are the strings of the source |
| Wire.PayloadFitsLoopBuffer | source/libs/protocols/udp_conn/src/udp_conn.c:263 | no datagram whatever yields more payload than the buffer of the loop holds |
| Wire.RetransmitDecodes | source/libs/protocols/chownat/src/chownat.c:479-485 | what the far side reads from a retransmission: the packet with whole frames; as written a keep-alive for fewer than three bytes and otherwise the packet without its last three |
| Chownat.StoreRow | source/libs/protocols/chownat/src/chownat.c:407-408 | the copy into row `id` changes that slot to the payload and no other slot |
| Chownat.CopyRow | source/libs/protocols/chownat/src/chownat.c:483 | copies exactly the used part of a row |
| Chownat.ClearRows | source/libs/protocols/chownat/src/chownat.c:54-55 | after it every slot is empty |
| Chownat.Endpoint.Init | source/libs/protocols/chownat/src/chownat.c:16-63 | a failed or repeated call changes nothing; success gives the initial value: open, counters zero, slots empty |
| Chownat.Endpoint.Deinit | source/libs/protocols/chownat/src/chownat.c:65-98 | leaves the endpoint closed and uninitialised; an open session first runs the closing exchange, a closed one sends nothing |
| Chownat.Endpoint.UdpSend | source/libs/protocols/chownat/src/chownat.c:389-432 | the payload is stored for repair, the counter advanced modulo 256 and one frame with the old counter sent, even if `sendto` fails; the call succeeds exactly if `sendto` does; every refusal changes nothing |
| Chownat.Endpoint.Retransmit | source/libs/protocols/chownat/src/chownat.c:474-486 | the loop over an unsigned byte ends and sends exactly the frames of slots got .. id-1 in order, with the length selected |
| Chownat.Endpoint.UdpRecv | source/libs/protocols/chownat/src/chownat.c:434-512 | one receive does what `React` says: repair, accept in order, ask for the awaited packet, close on 02 or on a failing receive |
| Chownat.Endpoint.Ask | source/libs/protocols/chownat/src/chownat.c:281-302 | the asking loop in place sends, reads and counts as `AskDialogue` |
| Chownat.Endpoint.Answer | source/libs/protocols/chownat/src/chownat.c:350-368 | the answering loop in place sends, reads and counts as `AnswerDialogue` |
| Chownat.Endpoint.UdpSendKeepAlive | source/libs/protocols/chownat/src/chownat.c:121-143 | one keep-alive on an open session, nothing on a closed or uninitialised one |
| Chownat.Endpoint.Listen | source/libs/protocols/chownat/src/chownat.c:190-234 | the nested loops of the server's opening in place send, read and count as `ListenDialogue`, which `Listening.ListeningSays` describes from the inbox alone; keep-alives exactly if the session is not closed |
| Chownat.Endpoint.HolePunching | source/libs/protocols/chownat/src/chownat.c:145-241 | mode selects the exchange, an unknown mode fails without sending |
| Chownat.Endpoint.DisconnectSend | source/libs/protocols/chownat/src/chownat.c:260-327 | whatever the exchange brought: closed, `id` and `expected` zero; a closed session is left alone |
| Chownat.Endpoint.DisconnectRecv | source/libs/protocols/chownat/src/chownat.c:329-387 | whatever the exchange brought: closed, `id` and `expected` zero; a closed session is left alone |
| Chownat.Use | source/libs/protocols/chownat/src/chownat.c:16-512 | over every sequence of calls a closed session stays closed and unchanged unless deinitialised and initialised again, and sends nothing but further hole punching |
| ChownatLink.BurstIsPackets | source/libs/protocols/chownat/src/chownat.c:475-486 | every frame of an answer repeats the packet sent-(id-got)+k, at most 255 packets old |
| ChownatLink.AcceptedPacket | source/libs/protocols/chownat/src/chownat.c:491-505 | an accepted frame has the awaited number modulo 256; its payload is the packet, cut by three exactly if it is a retransmission as written |
| ChownatLink.SendKeeps | source/libs/protocols/chownat/src/chownat.c:399-419 | numbering a chunk keeps the invariant of both directions |
| ChownatLink.ReceiveKeeps | source/libs/protocols/chownat/src/chownat.c:452-511 | taking any datagram in flight keeps the invariant of both directions |
| ChownatLink.StepKeeps | source/libs/protocols/chownat/src/chownat.c:389-511 | every step of either side or of the network keeps the invariant |
| ChownatDelivery.AcceptsNext | source/libs/protocols/chownat/src/chownat.c:495-501 | over `Fresh` and `Fifo` an accepted frame is the very packet awaited |
| ChownatDelivery.RingRefinesLog | source/libs/protocols/chownat/src/chownat.c:407-416 | in every run over any network: id is sent mod 256, expected is delivered mod 256, every used slot holds the newest packet of its residue, the k-th accepted payload has number k mod 256 |
| ChownatDelivery.DeliversInOrder | source/libs/protocols/chownat/src/chownat.c:491-509 | in every run over `Fresh` or `Fifo`, both ways: with whole frames the accepted payloads are a prefix of those numbered; as written each is its packet, cut by three exactly if retransmitted |
| ChownatDelivery.WindowDeliversInOrder | source/libs/protocols/chownat/src/chownat.c:389-419 | over any network that keeps order, in every run in which the sender never has more than 256 packets outstanding, what one side sends is delivered in order, whatever the other sends |
| ChownatDelivery.ThreeBytesPerRepair | source/libs/protocols/chownat/src/chownat.c:485 | as written, three bytes are missing for each accepted retransmission and none otherwise |
| ChownatDelivery.WholeWithoutRepairs | source/libs/protocols/chownat/src/chownat.c:485 | as written, what was delivered is what was sent exactly if nothing accepted was a retransmission |
| ChownatDelivery.WrittenDeliversIff | source/libs/protocols/chownat/src/chownat.c:478-508 | as written, what was accepted is what was numbered exactly if no retransmission was accepted; the byte counts differ by three for each |
| ChownatDelivery.TunnelIsBytePipe | source/libs/protocols/udp_conn/src/udp_conn.c:252-278 | with whole frames, in every reachable state, for every chunking and partial write, the bytes written at one TCP socket are a prefix of those read at the other |
| ChownatDelivery.WindowIsBytePipe | source/libs/protocols/udp_conn/src/udp_conn.c:252-278 | the same one way over any network that keeps order, in every run in which the sender never has more than 256 packets outstanding |
| ChownatTunnel.ReadTurn | source/libs/protocols/udp_conn/src/udp_conn.c:252-257 | a turn of TCP on the objects is one step `SendChunk` with the first chunk that has arrived, and its frame sent, exactly if there is one and the side is open; it fails exactly if there is none or `sendto` fails |
| ChownatTunnel.ServeTurn | source/libs/protocols/udp_conn/src/udp_conn.c:260-278 | a turn of UDP on the objects is one step `Receive`, a TCP write and, exactly if the datagram asks to disconnect or TCP refuses the payload, a closing exchange, with exactly those datagrams sent |
| ChownatTunnel.Tunnel.Read | source/libs/protocols/udp_conn/src/udp_conn.c:252-257 | the run is extended by the chunk that has arrived, if there is one and the side is open, and by nothing else; every datagram the run has in flight is one its endpoint passed to `sendto` |
| ChownatTunnel.Tunnel.Serve | source/libs/protocols/udp_conn/src/udp_conn.c:260-278 | the run is extended by that receive, the bytes TCP took and the messages of the closing exchange; the side is closed exactly if the datagram asks to disconnect or TCP refuses the payload |
| ChownatTunnel.Tunnel.Disconnect | source/libs/protocols/chownat/src/chownat.c:260-327 | the run is extended by exactly the messages of the asking exchange and the close, all sent by the endpoint |
| ChownatTunnel.Tunnel.KeepAlive | source/libs/protocols/chownat/src/chownat.c:121-143 | the call extends the run by one keep-alive, which the endpoint sent |
| ChownatTunnel.Tunnel.FailReceive | source/libs/protocols/chownat/src/chownat.c:452-458 | a failing receive extends the run of the two sides by a close that keeps the counters |
| ChownatTunnel.Tunnel.SocketsReady | source/libs/protocols/udp_conn/src/udp_conn.c:249-278 | a pass of the loop of one side with sockets ready: the chunk that has arrived at TCP becomes a packet; with none, or if its `sendto` fails, the side hangs up; otherwise the datagram is taken or the failing receive closes; the side is closed exactly if one of these fails |
| ChownatTunnel.Tunnel.DeadlineReached | source/libs/protocols/udp_conn/src/udp_conn.c:290-307 | a pass at the deadline sends a keep-alive and, exactly if the side is found inactive, runs the closing exchange |
| ChownatTunnel.Tunnel.BytesArriveInOrder | source/libs/protocols/udp_conn/src/udp_conn.c:252-278 | after any calls on the two objects, over `Fresh` or `Fifo` carrying only what the objects sent, with whole frames, the bytes written to one TCP socket are a prefix of those read from the other |
| ChownatTunnel.Tunnel.BytesArriveWithinWindow | source/libs/protocols/udp_conn/src/udp_conn.c:252-278 | the same one way over any network that keeps order, if the sender never had more than 256 packets outstanding |
| ChownatCut.WrittenLengthBreaksPipe | source/libs/protocols/chownat/src/chownat.c:478-486 | a run with exactly one lost datagram, no reordering or duplication and at most two packets outstanding in which, as written, the bytes written are no prefix of those read |
| ChownatCut.FirstNeverWhole | source/libs/protocols/chownat/src/chownat.c:478-486 | as written, a run to a state with a lost packet that some continuation delivers and none delivers whole |
| ChownatCut.RepairIsReached | source/libs/protocols/chownat/src/chownat.c:495-499 | a run to a state in which the preconditions of a repair hold |
| ChownatRepair.AnswerExact | source/libs/protocols/chownat/src/chownat.c:474-486 | the answer to an up-to-date request is exactly packets [delivered, sent) in order if the sequence byte has not wrapped since, and nothing otherwise |
| ChownatRepair.RunKeepsGone | source/libs/protocols/chownat/src/chownat.c:474-505 | a packet without a copy in flight and beyond repair stays so in every run over any network |
| ChownatRepair.RequestedIsRepaired | source/libs/protocols/chownat/src/chownat.c:474-505 | a request for the missing packet or an older one of its lap, wherever it is in flight, can be answered and the missing packet taken |
| ChownatRepair.RunNeverBrings | source/libs/protocols/chownat/src/chownat.c:474-505 | a packet that nothing asks for, in a lap without room, is delivered by no run over any network |
| ChownatRepair.LostPacketRecoverableIff | source/libs/protocols/chownat/src/chownat.c:474-498 | the awaited packet can still be delivered by some continuation exactly if a copy is in flight, or the sequence byte has not wrapped, as written it has at least three bytes, and a request, a frame that prompts one or room for a further chunk sets the repair off; whole exactly if the copy is, or besides whole frames are sent |
| ChownatRepair.StreamFreezes | source/libs/protocols/chownat/src/chownat.c:478-498 | once the awaited packet k is beyond repair no run over a network that keeps order delivers anything while at most k+256 packets are numbered |
| ChownatBurst.RepairCompletes | source/libs/protocols/chownat/src/chownat.c:474-505 | whatever else is in flight, a loss-free answer brings delivered to sent with whole frames, as written to the first packet of fewer than three bytes, each packet cut by three |
| ChownatBurst.RepairCompletesInOrder | source/libs/protocols/chownat/src/chownat.c:474-505 | the same over a network that keeps order, with everything in flight handed over in turn |
| ChownatBurst.DisconnectEndsRepair | source/libs/protocols/chownat/src/chownat.c:464-468 | a request to disconnect that is in turn before the answer closes the receiver, and nothing more is handed over |
| ChownatBurst.FirstUnreadableExact | source/libs/protocols/chownat/src/chownat.c:460-486 | where a burst stops being accepted is the first packet of fewer than three bytes, as written only |
| ChownatWindow.WindowIsTight | source/libs/protocols/chownat/src/chownat.c:389-419 | for every k a run, in turn and without duplicates, with never more than 257 packets outstanding and exactly the 256 from k on lost, accepts packet k+256 as number k |
| ChownatWindow.WrapLosesPacket | source/libs/protocols/chownat/src/chownat.c:478-486 | for every lap a run that loses only its last packet k, with the next one in flight: no continuation over any network delivers it, and over a network that keeps order none delivers anything while at most k+256 packets are numbered |
| ChownatWindow.WrapSlipsPastGap | source/libs/protocols/chownat/src/chownat.c:389-419 | from every such state, for both lengths, a run over a network that keeps order, without a further loss and with at most 257 packets outstanding, accepts packet k+256 as number k |
| ChownatWindow.LapEndWaitsForEver | source/libs/protocols/chownat/src/chownat.c:495-499 | for every lap a run that loses only its last packet but one: it is repairable, yet no continuation delivers it |
| Handshake.AskingExact | source/libs/protocols/chownat/src/chownat.c:162-187 | asking succeeds exactly if one of the next A receives is an 03, stops at the first, and otherwise receives exactly A times |
| Handshake.AskingSays | source/libs/protocols/chownat/src/chownat.c:281-302 | one question before each receive, one 03 only after success |
| Handshake.AskingLeaves | source/libs/protocols/chownat/src/chownat.c:281-302 | one result is read for each receive and the rest left |
| Handshake.AnsweringBounded | source/libs/protocols/chownat/src/chownat.c:350-368 | at most one receive for each attempt left and each datagram taken, with one 03 before each |
| Handshake.AnsweringExact | source/libs/protocols/chownat/src/chownat.c:211-229 | answering succeeds exactly if an 03 comes before timeouts use up the attempts |
| Handshake.ListeningBounded | source/libs/protocols/chownat/src/chownat.c:195-234 | the server's opening ends after at most A + R + A*R receives |
| Handshake.ListeningBoundTight | source/libs/protocols/chownat/src/chownat.c:205-232 | for every A and R some arrivals need that many |
| Handshake.ListeningNeeds | source/libs/protocols/chownat/src/chownat.c:205-229 | the server's opening succeeds only with an 03 as the last thing read, after an 01 and fewer than A timeouts |
| Listening.AnswersExactly | source/libs/protocols/chownat/src/chownat.c:211-229 | answering says one 03 for each result up to the first 03 or the last timeout allowed, whichever comes first, reads exactly those and succeeds exactly in the first case |
| Listening.ListeningSays | source/libs/protocols/chownat/src/chownat.c:195-234 | for whatever rounds the inbox begins with: one keep-alive for every timeout of a wait, if it can be heard, one 03 for every answer, nothing more on failure; receives, unread results and success likewise exact |
| Listening.ListeningEnds | source/libs/protocols/chownat/src/chownat.c:195-234 | every inbox begins with some rounds in vain and an opening or the last timeout allowed |
| Listening.NobodyAsks | source/libs/protocols/chownat/src/chownat.c:195-204 | with no 01 among the results read the server sends one keep-alive for each attempt, if it can be heard, nothing else, and fails |
| Listening.ListeningSuffices | source/libs/protocols/chownat/src/chownat.c:205-229 | it succeeds if the first 01 comes with attempts left and any 03 follows before A timeouts |
| Listening.ListeningExact | source/libs/protocols/chownat/src/chownat.c:205-229 | it succeeds exactly if, after some rounds in vain (an 01 whose answers meet A timeouts before an 03), an 01 comes before the timeouts of all waits are A, and an 03 before A timeouts more |
| HandshakeSystem.OpeningAgrees | source/libs/protocols/chownat/src/chownat.c:158-234 | in every run over a network that loses, duplicates and reorders, server success implies it took an 01 and the client took an 03 and confirmed; client success implies the server took its 01 |
| HandshakeSystem.OpeningWithTeardown | source/libs/protocols/chownat/src/chownat.c:79-81 | with either side torn down once it gave up, server success implies only that the client confirmed an 03 of its opening or of its closing; client success still implies the server took its 01 |
| HandshakeSystem.TeardownBreaksAgreement | source/libs/protocols/chownat/src/chownat.c:296-298 | for all limits a run in which the server succeeds and the client failed |
| HandshakeSystem.ClientCanStandAlone | source/libs/protocols/chownat/src/chownat.c:180-182 | for all limits a run in which the client succeeds and the server runs out of attempts |
| HandshakeSystem.StaleAckClosesClient | source/libs/protocols/chownat/src/chownat.c:281-302 | for all limits a run in which the 03 of the opening confirms the client's closing while the server still answers the 01 |
| HandshakeSystem.SimultaneousClose | source/libs/protocols/chownat/src/chownat.c:281-302 | two peers that close at once with no 03 in flight never confirm each other; each is through after exactly 2A+1 turns and A receives, whatever arrives |
| Alone.ClientAsks | source/libs/protocols/chownat/src/chownat.c:162-187 | the client's steps, opening or closing and driven by one inbox, say, read and end as `AskDialogue` |
| Alone.ServerListens | source/libs/protocols/chownat/src/chownat.c:195-232 | the server's steps driven by one inbox say, read and end as `ListenDialogue`; a round in vain leaves the count as it was |
| Alone.ClosingBegins | source/libs/protocols/chownat/src/chownat.c:79-81 | client or server, a process that closes begins the whole asking exchange with 02 |
| Closing.ClosingAgrees | source/libs/protocols/chownat/src/chownat.c:260-386 | two open sessions with no 03 in flight, in every run: a confirmed closing was noticed by the other side; with no 02 in flight either, a side that answers answers the other's closing, and a confirmed answer means a confirmed closing |
| Closing.ClosingAgreesIff | source/libs/protocols/chownat/src/chownat.c:281-302 | every run keeps that a confirmed closing was noticed exactly if no 03 is in flight when both sessions are open |
| Closing.OpenSaysNeither | source/libs/protocols/chownat/src/chownat.c:459-509 | nothing an open endpoint sends, however short a retransmission is cut, reads as an 03 or a request to disconnect |
| Alone.SideAsks | source/libs/protocols/chownat/src/chownat.c:281-302 | the steps of a side that closes first say, read and end as `AskDialogue` |
| Alone.SideAnswers | source/libs/protocols/chownat/src/chownat.c:350-368 | the steps of a side asked to close say, read and end as `AnswerDialogue` |
| Alone.OpenSideTakes | source/libs/protocols/chownat/src/chownat.c:452-468 | an open side stays open exactly as long as the endpoint does; a request to disconnect begins the whole answering exchange, a failing receive closes without one |
| TcpTunnel.TcpSend | source/libs/protocols/udp_conn/src/udp_conn.c:109-122 | succeeds exactly if no answer refuses before all bytes are taken, so interruptions and partial writes alone never fail it; success means every byte was written in order; a failure leaves what the answers before the refusal took |
| TcpTunnel.TcpRecv | source/libs/protocols/udp_conn/src/udp_conn.c:79-106 | on an open session the first chunk that has arrived, at most 1024 bytes, is what is stored, numbered and sent, and the call succeeds exactly if `sendto` does; with none it fails and nothing changes |
| TcpTunnel.UdpTurn | source/libs/protocols/udp_conn/src/udp_conn.c:260-278 | truncation never arises; the call fails exactly on a failing receive or a request to disconnect; what reaches TCP is the accepted payload, or a prefix of it exactly if TCP refuses some |
| UdpConnection.DrainPending | source/libs/protocols/udp_conn/src/udp_conn.c:177-204 | everything the backend holds is read and written to TCP until it holds or delivers nothing; payload renews the deadline and clears the count; a failure on an open session ends the loop |
| UdpConnection.ChooseWait | source/libs/protocols/udp_conn/src/udp_conn.c:213-227 | the wait chosen is the minimum of the backend timeout and the time left to the deadline |
| UdpConnection.ServeUdp | source/libs/protocols/udp_conn/src/udp_conn.c:260-278 | a receive that is owed is taken and what it brought on an open session written to TCP; a failing read or write disconnects and ends the loop, unless the session is found closed |
| UdpConnection.ServeTcp | source/libs/protocols/udp_conn/src/udp_conn.c:252-257 | the turn of TCP is taken, and a disconnect follows exactly if it fails |
| UdpConnection.ServeSockets | source/libs/protocols/udp_conn/src/udp_conn.c:249-282 | readable sockets are served, TCP first; then the deadline is renewed and the count cleared |
| UdpConnection.Idle | source/libs/protocols/udp_conn/src/udp_conn.c:283-309 | an open session gets a keep-alive exactly if due; inactivity disconnects exactly at the threshold |
| UdpConnection.Loop | source/libs/protocols/udp_conn/src/udp_conn.c:161-313 | over the whole log: every turn of TCP and UDP, every write to TCP, every read of buffered payload, every keep-alive and every disconnect comes exactly when it is owed; every wait is the minimum of the backend timeout and the time left and comes after the backend's events and payload; nothing is done to a session found closed; it ends only with a session found closed or after a failure, owing nothing, or unobserved |
| UdpConnection.TurnsMatchWakes | source/libs/protocols/udp_conn/src/udp_conn.c:249-278 | over the whole log the turns of TCP are as many as the waits that found it readable, and the writes to TCP as many as the successful receives on an open session |
| UdpConnection.IdleKeepAlivesTakeTime | source/libs/protocols/udp_conn/src/udp_conn.c:288-300 | n idle keep-alives take at least n times 5 s |
| UdpConnection.NoEarlyDisconnect | source/libs/protocols/udp_conn/src/udp_conn.c:303-307 | inactivity never disconnects before (threshold+1) times 5 s of silence |
| UdpConnection.IdleWaitKeepsAlive | source/libs/protocols/udp_conn/src/udp_conn.c:213-227 | with the 5 s timeout of CHOWNAT an expired wait always leads to a keep-alive |
| QuicSession.ShutdownEnds | source/libs/protocols/ossl_quic/src/ossl_quic.c:731-800 | if the clock gains a millisecond between iterations a shutdown waits at most 5000 times |
| QuicSession.WaitChosen | source/libs/protocols/ossl_quic/src/ossl_quic.c:765-777 | the wait chosen is non-negative, ends by started+5000 ms and is the next event rounded up to a millisecond wherever that comes first |
| QuicSession.Session.RecordCloseStatus | source/libs/protocols/ossl_quic/src/ossl_quic.c:699-712 | exactly a known close with a code other than 0 turns OK into error |
| QuicSession.Session.FinishShutdown | source/libs/protocols/ossl_quic/src/ossl_quic.c:722-801 | every wait is inside the budget and comes after an attempt; it succeeds exactly if the status was OK and the shutdown was completed without a code; it is not completed only if a call failed, the shutdown did or its time was over |
| QuicSession.Session.Disconnect | source/libs/protocols/ossl_quic/src/ossl_quic.c:803-823 | closes even on failure, with one callback; idempotent; the status stays OK exactly if it was, there was a connection and the shutdown was completed without a code |
| QuicSession.Session.ProcessEvents | source/libs/protocols/ossl_quic/src/ossl_quic.c:886-896 | fails exactly without a connection or if its events cannot be handled; a close known by then is recorded and completed, and otherwise nothing changes |
| QuicSession.Session.Init | source/libs/protocols/ossl_quic/src/ossl_quic.c:94-222 | succeeds exactly on an uninitialised session with a known mode, a certificate for a server, a new context and everything prepared; only success resets closed flag, status and callbacks; a context left over is freed first |
| QuicSession.Session.PreConnect | source/libs/protocols/ossl_quic/src/ossl_quic.c:527-595 | every live handle stays accounted for; a client loses exactly the connection it had and a server the connection and the listener |
| QuicSession.Session.Connect | source/libs/protocols/ossl_quic/src/ossl_quic.c:622-674 | succeeds exactly if every call on the way to a connection does; leaves the session open and counts a reopening exactly if it was closed before or the application hung up inside the callback; nothing is lost exactly if there was nothing to overwrite |
| QuicSession.Session.Deinit | source/libs/protocols/ossl_quic/src/ossl_quic.c:224-265 | closes if needed, with the status that `Disconnect` gives, and releases every handle it holds, whatever the closing brought |
| QuicSession.Use | source/libs/protocols/ossl_quic/src/ossl_quic.c:669-671 | over every sequence of calls no handle is freed twice, the status only goes from OK to error until the next init, no handle is lost without a connect, DISCONNECTED callbacks equal reopenings plus one if closed |
| QuicSession.HangUpTwice | source/libs/protocols/ossl_quic/src/ossl_quic.c:669-671 | init, a connect in which the application hangs up and a disconnect make two DISCONNECTED callbacks, unless a handle or a call on the way to the connection fails |
| QuicHolePunch.Discovery | source/libs/protocols/ossl_quic/src/ossl_quic.c:441-483 | ends with the first probe received, if there is one, and takes nothing after it; a client sends one probe for each receive, a server one keep-alive for each receive that times out, and nothing else |
| QuicHolePunch.Transient | source/libs/protocols/ossl_quic/src/ossl_quic.c:486-507 | succeeds exactly if one of as many results as probes were sent is a probe, and takes nothing after it; sends one probe for each round that is not interrupted |
| QuicHolePunch.HolePunching | source/libs/protocols/ossl_quic/src/ossl_quic.c:441-524 | waits for ever exactly if no probe comes; succeeds exactly if a second one is among the results after the first, as many as probes were sent; what is sent and what is left unread are exact |
| QuicHolePunch.PunchingOrder | source/libs/protocols/ossl_quic/src/ossl_quic.c:441-507 | in every run no server probe exists before the network gave the server a client probe; a client past discovery implies the server is; each side succeeds exactly if the network gave it two probes |
| QuicHolePunch.PunchingCanDisagree | source/libs/protocols/ossl_quic/src/ossl_quic.c:485-521 | a run in which the server succeeds and the client fails |
| CipherList.SplitRecovers | source/libs/protocols/ossl_quic/src/ossl_quic.c:78-88 | splitting a joined list at its colons recovers the list |
| CipherList.AddSuite | source/libs/protocols/ossl_quic/src/ossl_quic.c:78-88 | one iteration stays inside 256 bytes, extends the string by the name, and refuses only a number without a name |
| CipherList.NamesFollowCodePoints | source/libs/protocols/ossl_quic/src/ossl_quic.c:38-48 | the name of each number is that of the cipher, mode and hash registered for the code point 0x1301 + number |
| CipherList.CustomSuites | source/libs/protocols/ossl_quic/src/ossl_quic.c:72-91 | refused exactly if empty, longer than five or holding a number without a name; the exit for a full buffer is never taken |
| CipherList.ListSplitsIntoNames | source/libs/protocols/ossl_quic/src/ossl_quic.c:38-48 | the string given to OpenSSL splits into the names asked for |
| UdpTransports.Transport.InitUdp | source/libs/protocols/udp_conn/src/udp_transport.c:130-206 | succeeds exactly under the stated conditions; failure changes no transport state and closes only a descriptor made by this call; only success adopts |
| UdpTransports.Transport.Check | source/libs/protocols/udp_conn/src/udp_transport.c:157-189 | exactly which descriptors are fit for use |
| UdpTransports.Transport.SetTcpFd | source/libs/protocols/udp_conn/src/udp_transport.c:263-274 | accepted exactly on an active transport within range |
| UdpTransports.Transport.Close | source/libs/protocols/udp_conn/src/udp_transport.c:113-127 | an owned descriptor is closed once, a borrowed one never, the transport is inactive afterwards; it fails exactly if `close` does; a second call does nothing |
| UdpTransports.Use | source/libs/protocols/udp_conn/src/udp_transport.c:130-291 | over every sequence of calls what was created or adopted is what was closed plus the one in use; the caller's descriptors stay open unless it closes them or hands them over |
| LineFramer.ServerIgnoresChunks | source/tests/WebRTC/test_openssl_quic_udp/test_openssl_quic_udp.c:66-107 | two splits of one stream into non-empty chunks leave the server in the same state with the same answers |
| LineFramer.ClientChunksMatterIff | source/tests/WebRTC/test_openssl_quic_udp/test_openssl_quic_udp.c:109-124 | the client ends as if fed byte by byte exactly if the last response does not end inside a chunk or the disconnect fails |
| LineFramer.CutRun | source/tests/WebRTC/test_openssl_quic_udp/test_openssl_quic_udp.c:114-117 | otherwise it ends in the failure for extra data, in the state reached at that byte |
| LineFramer.ClientTellsChunksApart | source/tests/WebRTC/test_openssl_quic_udp/test_openssl_quic_udp.c:109-124 | the last response and an unfinished line after it: in two chunks the client has not failed, in one it has |
| LineFramer.Framer.EndOfLine | source/tests/WebRTC/test_openssl_quic_udp/test_openssl_quic_udp.c:93-124 | a complete line is answered or fails the test as the byte-step function says |
| LineFramer.Framer.Receive | source/tests/WebRTC/test_openssl_quic_udp/test_openssl_quic_udp.c:77-126 | the callback with its 64-byte buffer in place does to a chunk what the byte-step function says |
| LineFramer.LinesInFull | source/tests/WebRTC/test_openssl_quic_udp/test_openssl_quic_udp.c:52-56 | the lines of the dialogue, letter by letter |
| LineFramer.FailureHangsUp | source/tests/WebRTC/test_openssl_quic_udp/test_openssl_quic_udp.c:45-50 | a side whose test has failed has hung up, however the bytes came |
| LineDialogue.RoundsInLockStep | source/tests/WebRTC/test_openssl_quic_udp/test_openssl_quic_udp.c:66-126 | over reliable streams, however they are cut, neither side fails, server rounds equal client rounds or are one ahead, and quiet means all rounds done and the client hung up |

## Left out

- Socket set-up and I/O plumbing: `setsockopt`, `bind`, `listen`, `accept`, `connect`, `fd_set` handling, debug output and exits on fatal errors; they appear as Booleans a caller may choose.
- The application callbacks, except that the CONNECTED callback of QUIC may hang up.
- Null-pointer checks on the arguments of every function.
- Closing of UDP and TCP descriptors inside the CHOWNAT and QUIC disconnect and deinit functions.
- Stale bytes that a short receive leaves in the four-byte handshake buffers: receives deliver whole messages, and a shorter one never equals a control message.
- Datagrams of an earlier session still in flight after a new `Init`: the two-endpoint system closes for good, as `closed` stays set until then.
- The datagrams the closing exchange consumes inside `chownat_udp_recv`: in the two-endpoint system they are losses or still in flight, and its 03s are control messages; `Chownat.Endpoint.UdpRecv` has them exactly.
- ChownatBurst.RepairCompletes: stated, like all of `ChownatRepair` and `ChownatWindow`, for packets from a to b; the other direction is the same system with the names exchanged.
- ChownatBurst.RepairCompletesInOrder: for a wire without a request to disconnect, which closes the receiver before the answer arrives (`DisconnectEndsRepair`).
- Hard errors of `sendto` and `recv` in QUIC hole punching, and its final `setsockopt`: they only add failures.
- QUIC data transfer (`SSL_read_ex`, `SSL_write_ex`), `ossl_quic_get_timeout`, TLS and everything inside OpenSSL.
- The two fixed cipher strings of the presets: constants handed to OpenSSL.
- `udp_transport_send`, `udp_transport_recv` and `udp_transport_wait`: single calls behind a guard.
- UdpConnection.Loop: the opening of the session before the loop, and descriptors in the `fd_set`, are not in the log; the loop runs on an environment that may answer anything; on the endpoint objects there are its passes (`ChownatTunnel.Tunnel.SocketsReady`, `DeadlineReached`), in any order, without the clock.
- QuicSession.Session.FinishShutdown: arithmetic is unbounded; 64-bit milliseconds do not wrap in practice.
- The `#if 0` code in `ossl_quic.c`, the C client and Perl scripts under `chownat/`, `quic_like`, and the test harnesses.
