# A model of the Aether tunnel client

Aether carries a user's TCP and UDP traffic through a tunnel: CONNECT-IP over QUIC or
HTTP/2, or WireGuard. This project models the parts of it that are written by hand and
hold state, branching or arithmetic, and proves what they keep.

* `Net`, `NetVisits`, `NetFlows`, `NetRuns`, `NetAnswers`, `NetStack`: the connection
  layer over the userspace TCP/IP stack. `Net` says what each event makes of the state,
  `NetVisits` and `NetFlows` what that does to the bytes and packets of a connection or
  flow, `NetRuns` and `NetAnswers` what holds after any sequence of events, and the class
  `NetStack` has the methods that update the state in place.
* `Octets`, `Masque`, `Datagrams`, `CapsuleStream`, `H2Drain`: variable-length integers (section 16 of
  RFC 9000), capsules (section 3.2 of RFC 9297), CONNECT-IP bodies (section 4.7 of
  RFC 9484), HTTP/3 datagrams (section 2.1 of RFC 9297), the incremental parser and the
  HTTP/2 receive path.
* `H2Loop`, `QuicLoop`, `MasqueVerify`, `WgVerify`: the event loops that validate a
  tunnel, keep it alive, retry and probe.
* `Dedup`, `Candidates`, `Cidr`, `CidrV6`, `FullScan`, `Hunt`: which endpoints are probed, in which
  order, and which one wins.
* `Dns`, `DnsQuery`, `Socks`: DNS messages (section 4.1 of RFC 1035), HTTPS records
  (section 2.2 of RFC 9460) and SOCKS UDP datagrams (section 7 of RFC 1928).
* `Fragment`: the writer that cuts the start of a connection into small pieces.
* `Checksum`: the IPv4 header checksum (section 3.1 of RFC 791) and the probe packet.
* `Wire`: bytes, optional values, big-endian numbers.

Everything outside the program is a parameter. A loop runs over an arbitrary script whose
entries say what the clock, the connection and the channels show in one iteration; the
sockets of the stack change state freely, take any prefix of what they are offered and
yield any chunks, and freed socket handles may come back; random draws are any numbers.
A loop is tied to its log twice: what it did is a function of the log so far and of the
script, and, independently of that function, the log is cut into what each iteration did,
which must be exactly what the script entry and the log before it demand. The lemmas speak
of all such runs. Well-formed capsules, datagrams and messages are printed with the
literal numbers of the standards, and the parsers are proved against the printers.
Integers are unbounded except where the width matters: the checksum and the IPv4 subnet
arithmetic wrap at 32 bits, label lengths are cut to eight.

## What turned out not to hold

* A pass over the capsule buffer stops at the first malformed capsule, so a packet behind
  it waits for the next chunk (`H2Drain.PacketHeldBack`); nothing is lost, and
  `H2Drain.HeldBackIff` says exactly when it happens.
* A connection that the peer accepts and closes between two sweeps is reported as refused
  (`NetRuns.AcceptedButRefused`); `NetAnswers.ConnectedIff` says exactly when.
* A close or a reset by the peer, and an application that is gone, drop bytes still
  queued (`NetRuns.QueuedByteLeftBehind`, `NetRuns.ResetDropsByte`; the exact condition,
  for every visit that lets go of a connection, is `NetRuns.BytesLeftBehindIff`).
* The resolver behind the SOCKS proxy writes an empty label for a trailing or doubled dot
  and so ends the name early (`DnsQuery.TrailingDot`); the question is well formed exactly
  when no label is empty (`DnsQuery.QuestionWellFormedIff`).
* The 32-bit checksum sum is exact for all headers of a length exactly when the length is
  at most 131074 bytes (`Checksum.NoOverflowIff`).
* The reset of the request stream on an ECH retry never changes anything: a retry never
  finds one (`QuicLoop.RetryFindsNoStream`).

## Model

| member | source | states |
|---|---|---|
| Net.PortCycle | aether/src/netstack.rs:397-401 | the k-th allocated port is 49152 + k mod 15849, so always in 49152..65000 |
| Net.PortsCoincide | aether/src/netstack.rs:397-401 | two allocations get the same port exactly when their numbers agree modulo 15849 |
| Net.OpenTcpKeeps | aether/src/netstack.rs:477-509 | opening a connection, or failing to, keeps handle coherence, byte conservation, single answers and ports, for any free handle |
| Net.OpenUdpKeeps | aether/src/netstack.rs:510-536 | the same for opening a flow, which is answered at once |
| Net.DataKeeps | aether/src/netstack.rs:546-555 | queueing data and half-closing keep all invariants; unknown ids are ignored |
| Net.SendUdpKeeps | aether/src/netstack.rs:556-561 | sending a UDP packet keeps all invariants, whether or not the socket has room |
| Net.CloseUdpKeeps | aether/src/netstack.rs:562-566 | closing a flow removes its socket with it and keeps all invariants |
| Net.PollKeeps | aether/src/netstack.rs:411-418 | the stack may move TCP sockets to any states without breaking an invariant |
| Net.Visit | aether/src/netstack.rs:573-664 | one turn of the TCP sweep keeps all invariants, touches no other entry, queues nothing and takes no answer back; what it does to its own entry is `NetVisits.VisitServes` |
| Net.Sweep | aether/src/netstack.rs:570-665 | a whole sweep over distinct live ids, in any order, keeps all invariants |
| Net.VisitUdpKeeps | aether/src/netstack.rs:670-695 | one turn of the UDP sweep keeps all invariants |
| Net.MovedOk | aether/src/netstack.rs:609-655 | whatever the socket takes, accepted bytes plus pending bytes stay the queued bytes, and what the application got stays what was received |
| NetRuns.HandlesCoherent | aether/src/netstack.rs:475-665 | after any run: every id owns a distinct live socket of its kind, every live socket has an owner, the id sets are apart and below the next id, even with reused handles |
| NetRuns.LivePorts | aether/src/netstack.rs:397-401 | after any run: live sockets have distinct allocation numbers, ports in range, equal ports exactly for numbers congruent modulo 15849 |
| NetRuns.BytesConserved | aether/src/netstack.rs:544-628 | after any run: for each live connection, bytes accepted followed by pending are all data ever handed over for that id, in order |
| NetRuns.AnsweredExactlyOnce | aether/src/netstack.rs:477-663 | after any run: each request was answered once, or not yet while one live entry holds its channel; channel and receiver are held exactly until established |
| NetRuns.StepQueued | aether/src/netstack.rs:475-568 | only a data event for a live id changes queued data, by appending; new ids are at least the old next id |
| NetRuns.StepAnswers | aether/src/netstack.rs:475-665 | no event takes an answer back or invents a request |
| NetRuns.VisitAnswers | aether/src/netstack.rs:582-607 | a waiting request is told connected exactly when the visit sees Established, refused exactly when it sees Closed or TimeWait |
| NetRuns.HalfCloseIsClean | aether/src/netstack.rs:622-628 | when the half-close branch closes the socket, every byte queued so far has been accepted |
| NetRuns.BytesLeftBehindIff | aether/src/netstack.rs:582-663 | a visit that closes the socket or removes the entry leaves bytes behind exactly when it refuses an entry with pending bytes, or the socket did not take all and the application's end, the peer's close or a reset is the cause; never the half-close |
| NetRuns.VisitRemoves | aether/src/netstack.rs:596-663 | a visit removes the entry exactly when it is refused, or established with a socket closed in the end |
| NetRuns.AcceptedButRefused | aether/src/netstack.rs:582-607 | a run in which a connection accepted by the peer is reported as refused |
| NetRuns.QueuedByteLeftBehind | aether/src/netstack.rs:656-658 | a run in which a queued byte is still pending after the layer closed the socket |
| NetRuns.ResetDropsByte | aether/src/netstack.rs:659-663 | a run in which a queued byte goes with the entry after a reset, without any `close` |
| NetAnswers.ToldTheVerdict | aether/src/netstack.rs:477-607 | after any run: what a request was told is decided by the first state among Established, Closed and TimeWait in which a visit saw its socket |
| NetAnswers.ConnectedIff | aether/src/netstack.rs:477-607 | after any run: told connected exactly when some visit saw Established before any saw Closed or TimeWait, refused exactly in the opposite case, nothing until then |
| NetVisits.VisitServes | aether/src/netstack.rs:573-664 | the whole effect of a visit: which prefix of the pending bytes the socket takes and what stays pending, which chunks come in and reach the application, how the socket is closed, and exactly when entry and socket go |
| NetVisits.VisitTouches | aether/src/netstack.rs:573-664 | a visit touches no other entry, no other socket, no flow and no counter |
| NetVisits.SweepServes | aether/src/netstack.rs:570-665 | a sweep does to every entry what a visit of it alone would do, whatever the order of the ids |
| NetVisits.SweepSends | aether/src/netstack.rs:609-628 | of an entry that stays, the socket takes exactly the pending bytes it has room for when it can send; with room for all nothing stays pending, and a half-closed connection has its socket closed in that visit |
| NetFlows.OpenTcpAdds | aether/src/netstack.rs:477-509 | opening uses up a port in any case; with a socket that connects the next id gets a fresh entry holding the reply channel, otherwise the request is answered at once |
| NetFlows.OpenUdpAnswers | aether/src/netstack.rs:510-536 | opening a flow uses up a port in any case and answers at once |
| NetFlows.HalfCloseMarks | aether/src/netstack.rs:551-555 | exactly the mark of a live entry changes |
| NetFlows.QueueDataPends | aether/src/netstack.rs:546-550 | the data goes behind what is pending for a live entry, and nothing else changes |
| NetFlows.SendUdpHands | aether/src/netstack.rs:556-561 | a packet for a live flow with room goes behind those before it, and nothing else changes |
| NetFlows.CloseUdpTakes | aether/src/netstack.rs:562-566 | exactly the flow and its socket go |
| NetFlows.VisitUdpServes | aether/src/netstack.rs:670-695 | up to 128 packets are taken in order and handed on until the application is gone |
| NetFlows.PollMoves | aether/src/netstack.rs:411-418 | exactly the TCP sockets named move |
| NetFlows.FlowsConserved | aether/src/netstack.rs:556-695 | after any run: the socket of a live flow was handed exactly the packets sent while there was room, in order, and the application got those it gave up, in order |
| NetFlows.HalfClosedIff | aether/src/netstack.rs:551-555 | after any run: a live connection is marked half-closed exactly when the application half-closed it |
| NetStack.NetStack.AllocPort | aether/src/netstack.rs:397-401 | returns the port of this allocation and advances the counter cyclically |
| NetStack.NetStack.HandleOpenTcp | aether/src/netstack.rs:477-509 | in place: the whole new state is the one the event function says |
| NetStack.NetStack.HandleOpenUdp | aether/src/netstack.rs:510-536 | the same for flows |
| NetStack.NetStack.HandleTcpData | aether/src/netstack.rs:546-550 | appends to the entry's pending bytes and to nothing else |
| NetStack.NetStack.HandleTcpClose | aether/src/netstack.rs:551-555 | marks the entry half-closed and changes nothing else |
| NetStack.NetStack.HandleUdpData | aether/src/netstack.rs:556-561 | hands the packet to the flow's own socket |
| NetStack.NetStack.HandleUdpClose | aether/src/netstack.rs:562-566 | removes entry and socket together |
| NetStack.NetStack.ReceiveChunks | aether/src/netstack.rs:630-642 | takes chunks up to an empty one or 128 of them |
| NetStack.NetStack.ForwardChunks | aether/src/netstack.rs:644-651 | the application gets a prefix of the chunks, and a failure is reported exactly when it is a proper one |
| NetStack.NetStack.SendPending | aether/src/netstack.rs:609-620 | in place: what the socket takes leaves the front of the pending bytes; how much that is, is `NetVisits.SweepSends` |
| NetStack.NetStack.VisitTcp | aether/src/netstack.rs:573-664 | one turn of the sweep, in place, is the visit whose effect `NetVisits.VisitServes` states, and no lookup of it fails |
| NetStack.NetStack.Settle | aether/src/netstack.rs:656-663 | the close on CloseWait and the removal of an established entry on Closed, in place |
| NetStack.NetStack.ServiceTcp | aether/src/netstack.rs:570-665 | the loop over the ids found at the start is the sweep function |
| NetStack.NetStack.VisitUdpConn | aether/src/netstack.rs:670-695 | one turn of the UDP sweep, in place |
| Octets.GetVarintOf | aether/src/masque.rs:76-84 | a value written in any width that fits is read back, whatever follows |
| Octets.GetVarintExact | aether/src/masque.rs:135-142 | what was read is the only value whose encoding of that width stands there |
| Octets.Shortest | aether/src/masque.rs:226-236 | the computed length is the smallest width that holds the value |
| Masque.ParseAddressAssign | aether/src/masque.rs:174-198 | the cursor loop terminates on every input and computes the list of entries or the first error |
| Masque.AddressBodyExact | aether/src/masque.rs:174-198 | accepts exactly the concatenations of well-formed entries and returns them in order |
| Masque.ParsedAddressesAreIps | aether/src/masque_h2.rs:556-566 | a parsed address has 4 or 16 bytes by its version, so it is never refused afterwards |
| Masque.ParseRouteAdvertisement | aether/src/masque.rs:200-224 | the cursor loop terminates on every input and computes the list of routes or the first error |
| Masque.RouteBodyExact | aether/src/masque.rs:200-224 | accepts exactly the printed lists of routes whose two addresses have the length of their version |
| Masque.CapsuleParser.Push | aether/src/masque.rs:128-130 | bytes are added at the end |
| Masque.CapsuleParser.Next | aether/src/masque.rs:132-165 | nothing changes while the first capsule is incomplete; otherwise exactly its frame leaves the buffer, also when its body is malformed, and what is returned is read by its kind as `CapsuleStream.AnyFrame` states |
| Masque.EncodeCapsule | aether/src/masque.rs:91-101 | every write succeeds and fills the buffer exactly to its computed length |
| Masque.EncodeIpDatagram | aether/src/masque.rs:56-71 | never fails, and fills the buffer exactly |
| Masque.DatagramRoundTrip | aether/src/masque.rs:56-89 | an encoded packet is decoded on every stream with the same quarter id and on no other |
| Masque.DecodeIff | aether/src/masque.rs:73-89 | a datagram of any widths yields its payload exactly for the stream's quarter id and context 0, and nothing otherwise |
| Masque.DecodeErrors | aether/src/masque.rs:73-89 | it is an error exactly when the first integer is cut off, or on a matching stream the second |
| CapsuleStream.FrontStable | aether/src/masque.rs:132-165 | bytes that arrive later never change a complete capsule |
| CapsuleStream.ExhaustInTwoSteps | aether/src/masque.rs:128-165 | draining a prefix first and the rest later yields the same items and leftover |
| CapsuleStream.LeftoverIncomplete | aether/src/masque.rs:132-145 | the leftover never holds a complete capsule |
| CapsuleStream.Exhaust | aether/src/masque.rs:132-165 | calling `next` until it wants more terminates, past any errors |
| CapsuleStream.PushAll | aether/src/masque.rs:128-165 | chunking independence: for every split of every stream, the same capsules and errors and the same leftover as for one push |
| CapsuleStream.FrontOfCapsule | aether/src/masque.rs:91-165 | an encoded capsule is parsed back whatever follows it: kind 0 its packet, 1 and 3 the entries its body is printed from or an error if there are none, 2 a request, any other kind its payload |
| CapsuleStream.CapsuleRoundTrip | aether/src/masque.rs:91-165 | parsing the concatenated outputs of the encoder gives exactly the capsules, each read by its kind, and an empty buffer |
| CapsuleStream.FrontIff | aether/src/masque.rs:132-145 | something is taken off exactly when a whole frame, of any widths, stands at the front |
| CapsuleStream.AnyFrame | aether/src/masque.rs:132-165 | any frame, with a well-formed or malformed body, is read by its kind and leaves exactly what follows it |
| CapsuleStream.WireItems | aether/src/masque.rs:132-165 | any well-formed capsules are returned in order with their packets, addresses, routes and payloads unchanged, and what follows is parsed as if it stood alone |
| H2Drain.PassKeepsItems | aether/src/masque_h2.rs:520-553 | a pass takes a prefix of the items and leaves exactly the others, whatever arrives behind |
| H2Drain.DrainCapsules | aether/src/masque_h2.rs:515-554 | while the receiver is open, the packets of the pass are delivered in order and addresses offered, otherwise a prefix; of well-formed capsules that is every packet, and every address with its prefix length in order; the result says whether a packet was met |
| H2Drain.WirePass | aether/src/masque_h2.rs:520-553 | a pass over well-formed capsules takes exactly them: their packets, and for each assigned entry its 4- or 16-byte address with its own prefix length |
| H2Drain.EncodedPackets | aether/src/masque.rs:91-165 | the packets in the encoder's outputs for datagrams are the packets encoded |
| H2Drain.EveryAddressIsOffered | aether/src/masque_h2.rs:529-540 | no entry of a parsed ADDRESS_ASSIGN body is dropped |
| H2Drain.NoLoss | aether/src/masque_h2.rs:515-554 | after every chunk, packets delivered followed by those still decodable from the buffer are the packets of the whole stream |
| H2Drain.ReceiveBody | aether/src/masque_h2.rs:448-453 | the same for the receive arm over all chunks, in place |
| H2Drain.PacketHeldBack | aether/src/masque_h2.rs:547-550 | a concrete stream whose packet is held back by a malformed capsule |
| H2Drain.HeldBackIff | aether/src/masque_h2.rs:547-550 | a pass holds a packet back exactly when a datagram stands behind the first malformed capsule |
| H2Drain.VerifyPass | aether/src/masque_h2.rs:215-235 | the probe's inner loop ends with success exactly when the second packet was met, and with an error when the follow-up could not be sent |
| H2Drain.VerifyData | aether/src/masque_h2.rs:210-246 | the edge is accepted exactly when the passes over the chunks met two packets; then the stream holds at least two |
| H2Drain.WireChunks | aether/src/masque_h2.rs:210-246 | when the chunks are well-formed capsules, the passes meet exactly their packets |
| H2Loop.Run | aether/src/masque_h2.rs:328-488 | for every script: each iteration adds to the log exactly what its first enabled event demands (ping with its time, pong, probe, packet, delivery, gate) and ends the loop exactly as that event says; ready is sent at most once, exactly when the gate opened and somebody waits; no iteration passes the loop head at or after a live deadline |
| H2Loop.RunsAreLawful | aether/src/masque_h2.rs:334-475 | in every run each action was allowed, and with data checking the gate is open exactly from the second delivery on |
| H2Loop.LawfulHistory | aether/src/masque_h2.rs:372-412 | at every moment: the gate opened at most once, pings minus pongs is 1 while one is unanswered and else 0, no ping before the gate |
| H2Loop.GateAfterTwoDeliveries | aether/src/masque_h2.rs:454-475 | with data checking exactly two iterations delivered data before the gate opened, and every ping comes after the gate |
| H2Loop.DeadlinesKept | aether/src/masque_h2.rs:347-370 | every iteration that passed the loop head, the last one included, was before the validation deadline while the gate was closed and before the deadline of an unanswered ping; the loop is stopped there exactly when one is reached |
| H2Loop.GateTold | aether/src/masque_h2.rs:454-475 | the gate is open exactly when the log shows it opened |
| H2Loop.PingTold | aether/src/masque_h2.rs:389-412 | a ping is open exactly when the log shows it sent with no pong after it |
| QuicLoop.DrainDatagrams | aether/src/quic.rs:506-538 | the consumer gets the packets of the own stream in order, up to where it is gone; delivery is reported exactly when there was one |
| QuicLoop.Tunnel.Establish | aether/src/quic.rs:307-331 | in place: one request on the first establishment, with the deadline or the open gate that the history says |
| QuicLoop.Tunnel.Receive | aether/src/quic.rs:333-352 | in place: a delivery counts once per iteration, and the second one opens the gate |
| QuicLoop.Tunnel.Finish | aether/src/quic.rs:354-399 | in place: a closed connection is retried only with an ECH configuration, once, and before any establishment |
| QuicLoop.Run | aether/src/quic.rs:219-400 | for every script: each iteration adds to the log exactly the actions due, each once and in order, and ends the loop exactly as the flags the log implies say; ready is sent at most once, exactly when the gate opened and somebody waits; no iteration passes the loop head at or after the validation deadline |
| QuicLoop.TurnIsLawful | aether/src/quic.rs:219-400 | one iteration keeps the rules, also when it ends the loop |
| QuicLoop.RunsAreLawful | aether/src/quic.rs:307-352 | in every run and between iterations: a request stream without data checking means an open gate, with data checking the gate is open exactly after two deliveries |
| QuicLoop.GateAndRetry | aether/src/quic.rs:307-379 | at every moment: at most one gate opening and one retry, each action allowed by what came before it: the gate after two deliveries, the retry only when nothing was established |
| QuicLoop.DeadlinesKept | aether/src/quic.rs:218-230 | every iteration that passed the loop head, the last one included, was before the validation deadline of the request while the gate was closed; the loop is stopped there exactly when it is reached |
| QuicLoop.RetryFindsNoStream | aether/src/quic.rs:356-377 | a request stream belongs to an establishment, so a retry finds no stream to reset |
| QuicLoop.TurnHandled | aether/src/quic.rs:219-400 | one iteration does exactly what is due: probe, outbound packet, establishment, request, delivery, gate, retry, and its ending |
| QuicLoop.PacketsGoOut | aether/src/quic.rs:282-297 | the packets that went out are exactly the outbound packets of the iterations in which no preferred event was there and a request stream was held, in order, each once and on that stream |
| QuicLoop.PastTold | aether/src/quic.rs:307-379 | gate, retry, establishment and request with its time are what the log shows |
| Datagrams.PacketsForWire | aether/src/quic.rs:506-538 | of datagrams that name a stream and a context, exactly the payloads for the stream are taken, in order |
| MasqueVerify.Verify | aether/src/quic.rs:646-770 | for every script: each iteration adds exactly what is due and ends the check exactly as it says; success needs status 200 and, with data checking, exactly two packets |
| MasqueVerify.TurnHandled | aether/src/quic.rs:646-770 | one iteration: the request, every 200 up to the event that decides, a probe when 700 ms have passed, the packets of the own stream, and how the check ends |
| MasqueVerify.TurnIsSound | aether/src/quic.rs:646-770 | an iteration succeeds only if entered before the deadline; probes are repeated only 700 ms after the last one |
| MasqueVerify.ChecksAreSound | aether/src/quic.rs:646-770 | while a check goes on, fewer than two packets came, and none before status 200 |
| WgVerify.InjectClientId | aether/src/wireguard.rs:20-28 | in place: bytes 1 to 3 of a WireGuard message become the id, any other packet is untouched |
| WgVerify.StripClientId | aether/src/wireguard.rs:30-38 | in place: the same with zeros |
| WgVerify.ReservedBytes | aether/src/wireguard.rs:20-38 | packets of four bytes or more whose first byte is 1 to 4 get bytes 1 to 3 replaced, nothing else changes anywhere |
| WgVerify.StripUndoesInject | aether/src/wireguard.rs:20-38 | stripping gives the packet back exactly when it is no WireGuard message or had zero reserved bytes |
| WgVerify.VerifyDataplane | aether/src/wireguard.rs:321-389 | for every script: each iteration adds exactly the resend, the wait and the answer that are due, and the loop ends exactly so; it succeeds exactly with two confirmations |
| WgVerify.TurnHandled | aether/src/wireguard.rs:338-386 | one iteration: a resend when 700 ms have passed since the booked probe, a wait to the deadline or the next resend, a confirmation with a reply booked 600 ms after the last probe at the earliest, the second confirmation ends it |
| WgVerify.DueTold | aether/src/wireguard.rs:333-376 | the booked time is that of the last probe in the log |
| WgVerify.TurnIsLawful | aether/src/wireguard.rs:338-386 | success exactly with the second confirmation, in an iteration entered before the deadline; every wait is positive and ends at the deadline or the next resend |
| WgVerify.RunsAreLawful | aether/src/wireguard.rs:338-386 | every run keeps the rules for resends, replies and confirmations |
| WgVerify.ProbeBudget | aether/src/wireguard.rs:333-376 | at most one reply, as many replies as answered confirmations, and resends that fit between the first probe and the deadline at 700 ms each |
| Dedup.FirstsDistinct | aether/src/prober.rs:394-473 | the deduplicated list has no duplicates and keeps a list without duplicates as it is |
| Dedup.FirstsHold | aether/src/prober.rs:394-473 | it has exactly the elements of the list |
| Dedup.FirstsKeepOrder | aether/src/prober.rs:394-473 | elements keep the order of their first occurrences |
| Dedup.Collector.Offer | aether/src/prober.rs:403-405 | inserting into the set and pushing when new computes that list |
| Candidates.InterleavedKeepsAll | aether/src/prober.rs:418-427 | taking the host lists in turns takes every address as often as the lists hold it |
| Candidates.BuildCandidates | aether/src/prober.rs:394-473 | the loops compute the first occurrences of the planned order |
| Candidates.CandidatesExact | aether/src/prober.rs:394-473 | no endpoint twice; exactly the seeds on every port, the primary included, and the subnet hosts on the primary port |
| Candidates.FairTurns | aether/src/prober.rs:417-427 | a host follows all hosts of earlier rounds of its family, apart from addresses already placed |
| Candidates.SeedsFirst | aether/src/prober.rs:402-427 | the seeds of a family come before all its other hosts |
| Candidates.CandidatesOrder | aether/src/prober.rs:402-454 | both orders hold in the whole list, for either family |
| Candidates.PrimaryPortFirst | aether/src/prober.rs:402-471 | everything on the primary port comes before everything on another port |
| Candidates.FamiliesInOrder | aether/src/prober.rs:402-471 | IPv4 comes before IPv6 on the primary port, and so on the other ports |
| Candidates.TurnsInOrder | aether/src/prober.rs:418-427 | earlier rounds come first, and within a round earlier lists |
| Candidates.ExtraInOrder | aether/src/prober.rs:456-471 | the other ports come seed by seed, and for each seed in their order |
| Candidates.BuildWgCandidates | aether/src/wg_prober.rs:293-370 | the loops compute the first occurrences of the addresses paired with ports in turns |
| Candidates.WgIpsExact | aether/src/wg_prober.rs:302-355 | the addresses are the seeds and hosts of the wanted families, each as often as listed |
| Candidates.WgIpsInOrder | aether/src/wg_prober.rs:352-355 | seeds of both families before hosts of both, and in each the first family first |
| Candidates.WgPortsExact | aether/src/wg_prober.rs:294-302 | the given ports, each once in the order of first occurrence, or 2408 |
| Candidates.WgCandidatesExact | aether/src/wg_prober.rs:293-370 | no endpoint twice; every address of the wanted families is tried, each place on the port whose turn it is, and nothing else; different addresses keep the list as it is |
| Candidates.WgCandidatesCycle | aether/src/wg_prober.rs:356-370 | two addresses share a port exactly when their places agree modulo the number of ports, and as many addresses in a row as there are ports try every port |
| Cidr.EnumerateExact | aether/src/prober.rs:480-496 | exactly the addresses strictly between the first and the last one, ascending |
| Cidr.EnumerateOthers | aether/src/prober.rs:485-492 | a single address yields itself, a subnet of more than 4096 addresses nothing |
| Cidr.SizeIs | aether/src/prober.rs:503-507 | the size by the prefix, 2^32 - 1 for the whole space |
| Cidr.SampleCidrV4 | aether/src/prober.rs:498-523 | draws until it has min(n, usable) different offsets and no longer, in the order of their first draw |
| Cidr.SampleHolds | aether/src/prober.rs:515-520 | an address is sampled exactly when some draw stands for it |
| Cidr.SampleSound | aether/src/prober.rs:498-523 | no address twice, never the first or last one, inside the subnet if its base is aligned |
| Cidr.Pigeonhole | aether/src/prober.rs:515-520 | fewer than all usable offsets were picked exactly when one is still free, so the rejection loop can always make progress |
| Cidr.FullSampleIsEnumeration | aether/src/prober.rs:480-523 | a sample of all hosts holds exactly the enumerated addresses |
| FullScan.CollectHosts | aether/src/prober.rs:408-416 | the host lists of the subnets, in order |
| FullScan.FullScanExact | aether/src/prober.rs:394-496 | with full subnets the IPv4 candidates on the primary port are exactly the seeds and every strict-interior address of every listed aligned subnet that is enumerated, none twice |
| CidrV6.SampleCidrV6 | aether/src/prober.rs:530-558 | as many samples as asked for, each the base with an embedded IPv4 address |
| CidrV6.SampleKeepsPrefix | aether/src/prober.rs:540-557 | the upper 96 bits stay the base's, the low 32 bits are the embedded address, which lies in a listed subnet |
| CidrV6.HostIs | aether/src/prober.rs:545-556 | the embedded address is the subnet base with as many drawn low bits as the prefix leaves |
| Hunt.HuntBest | aether/src/prober.rs:245-317 | for every sequence of results and times: the earliest of the smallest round trips consumed, none exactly when none succeeded; the first success with early exit; when and why it stops; the count of successes; the quiet window; every iteration entered before the deadline and the window's end |
| Hunt.SuccessesExact | aether/src/prober.rs:275-286 | the successes are those of the script, each once and in order |
| Hunt.KeepLeader | aether/src/prober.rs:282-285 | replacing the leader only by a strictly smaller round trip keeps the earliest minimum |
| Hunt.BestIsUnique | aether/src/wg_prober.rs:204-207 | no other result could have been returned |
| Hunt.QuietNeverMoves | aether/src/prober.rs:249-296 | the quiet window is set once, when the target is met, never moves, and every later result was awaited inside it |
| Dns.SkipNameLoop | aether/src/dns.rs:127-138 | on every byte string the loop ends and finds the end of the name, or none |
| Dns.SkipNameOf | aether/src/dns.rs:127-138 | a printed name, plain or compressed, is skipped exactly |
| Dns.ParseSvcParamsEch | aether/src/dns.rs:105-125 | the parameter loop ends without an out-of-range read and finds the first key-5 value |
| Dns.ParseHttpsEch | aether/src/dns.rs:71-103 | on every byte string: the first key-5 value among the answers that can be read |
| Dns.ParseDnsA | aether/src/socks.rs:173-208 | on every byte string: the first four-byte address record among the answers that can be read |
| Dns.ReadRecordOf | aether/src/dns.rs:84-94 | a printed record is read back with its type, place and length |
| Dns.EchOfRecord | aether/src/dns.rs:105-125 | a printed HTTPS record yields the value of its first key-5 parameter, any other record nothing |
| Dns.RecordsOf | aether/src/dns.rs:84-102 | walking printed records finds what the first fitting one carries |
| Dns.MessageRoundTrip | aether/src/dns.rs:71-138 | on every printed message, with plain or compressed names: the key-5 value of the first HTTPS record that carries one, and the first IPv4 address |
| Dns.RecordsThenAnything | aether/src/dns.rs:84-102 | well-formed records keep their answer, whatever malformed ones follow |
| Dns.EchIsThere | aether/src/dns.rs:84-125 | whatever the message, a returned value stands in it as a key-5 parameter inside the data of an answer of type 65 |
| Dns.AddressIsThere | aether/src/socks.rs:186-207 | whatever the message, a returned address is the data of the first answer of type 1 and length 4 |
| DnsQuery.BuildQuery | aether/src/dns.rs:51-69 | header, the labels that are not empty, type and class |
| DnsQuery.BuildDnsQuery | aether/src/socks.rs:156-171 | header, all labels, type and class |
| DnsQuery.SplitJoins | aether/src/dns.rs:58-58 | the labels joined by dots are the name, and none holds a dot |
| DnsQuery.PartByPart | aether/src/dns.rs:58-64 | exactly the empty labels are dropped, the others keep their order and get their own length byte |
| DnsQuery.NothingToDrop | aether/src/dns.rs:58-64 | for a name without empty labels both builders write the same |
| DnsQuery.QueryIsMessage | aether/src/dns.rs:51-69 | the bootstrap's query is a well-formed message with one question |
| DnsQuery.QuestionWellFormedIff | aether/src/socks.rs:156-171 | the proxy's question ends where it should exactly when no label is empty; the bootstrap's always does |
| DnsQuery.TrailingDot | aether/src/socks.rs:163-167 | every name that ends in a dot is sent malformed by the proxy |
| Socks.ParseUdpRequest | aether/src/socks.rs:332-375 | the branches and cursor steps compute the parse, for every datagram |
| Socks.BuildUdpReply | aether/src/socks.rs:377-392 | prints the reply with zero reserved bytes and fragment number |
| Socks.ParsedPrinted | aether/src/socks.rs:332-392 | parsing a printed datagram, a reply among them, returns exactly its address, port and data |
| Socks.ParsedExact | aether/src/socks.rs:332-375 | accepted datagrams are exactly the printed ones: the parts determine all bytes but the reserved two |
| Fragment.FromEnv | aether/src/fragment.rs:30-54 | every setting, sensible or not, yields bounds in order and a positive smallest size |
| Fragment.SettingsUsed | aether/src/fragment.rs:30-54 | every number given is used, in order; what is missing is 16 to 32 bytes and 2 to 10 ms |
| Fragment.ParseRange | aether/src/fragment.rs:83-103 | a range in order, made of the two numbers given when both can be read |
| Fragment.PickChunkLen | aether/src/fragment.rs:56-64 | a positive piece of what remains, at most the largest size and at least the smallest one unless it is the rest |
| Fragment.PickDelay | aether/src/fragment.rs:66-76 | a pause between the bounds |
| Fragment.AnyPick | aether/src/fragment.rs:56-76 | every length and every pause between the bounds can be drawn |
| Fragment.FragmentingStream.PollRead | aether/src/fragment.rs:128-136 | from a read on nothing is cut any more |
| Fragment.FragmentingStream.PollWrite | aether/src/fragment.rs:143-174 | pending exactly while a pause runs or the inner stream is not ready; else exactly the bytes reported as written went to the inner stream, in pieces and pauses that keep the rules, and a new pause is between the bounds |
| Fragment.WriteAll | aether/src/fragment.rs:143-174 | for any caller that writes everything, with any reads, pauses and partial acceptance: the inner stream holds a prefix of the source, in order; a caller that waits out the longest pause finishes in at most one turn a byte |
| Fragment.PieceCount | aether/src/fragment.rs:44-64 | L bytes written in pieces with full acceptance take between ceil(L/size_max) and ceil(L/size_min) writes |
| Fragment.NeverResumesAndPaced | aether/src/fragment.rs:128-174 | no piece is cut after a read, and consecutive pieces are at least the shortest pause apart |
| Fragment.DisabledPassesThrough | aether/src/fragment.rs:20-28 | with fragmenting disabled every write is offered whole |
| Checksum.HeaderChecksum | aether/src/masque.rs:290-304 | for headers of any length the loops end with the complement of the folded sum, which wraps at 32 bits |
| Checksum.NoOverflowIff | aether/src/masque.rs:290-299 | the 32-bit sum is exact for all headers of a length exactly when that is at most 131074 |
| Checksum.FoldCongruent | aether/src/masque.rs:300-302 | folding keeps the sum modulo 65535 and never makes a positive sum zero |
| Checksum.PatchedHeaderFolds | aether/src/masque.rs:257-261 | a value in the zeroed field makes the header fold to 0xffff exactly when it is the checksum, up to the two zeros of ones' complement |
| Checksum.ProbeHeader | aether/src/wireguard.rs:275-288 | the header verifies and carries length, id and addresses in their places |
| Checksum.BuildDnsProbePacket | aether/src/masque.rs:242-288 | the probe has a header that verifies, lengths that fit, no UDP checksum, and a well-formed query to port 53 |

## Left out

- TLS, QUIC, HTTP/2, WireGuard cryptography and the TCP/IP stack itself: libraries, here only as answers in a script.
- Real clocks, tasks and channels: time is a number per iteration; a blocked send to a slow application is not modelled as back pressure, only a failing one.
- H2Loop.Run: the deadline checks are those of the loop head, so nothing is said about real time between two iterations; the probe payload and the capsule parser are those of `Checksum` and `H2Drain`.
- QuicLoop.Run: keepalive packets, migration and the HTTP/3 events with their capsules only change the connection, which is a parameter; three failing library calls of a retry are one answer.
- NetStack.NetStack.ServiceTcp: the ids of a sweep come in any order, as from a hash map; commands that arrive during a sweep are separate events of `NetRuns`.
- NetRuns.AnsweredExactlyOnce: whether the asking side still listens on its reply channel is not modelled.
- Cidr.SampleCidrV4: that the random draws end the rejection loop is only almost sure, so partial correctness and possible progress are stated; base and offset are added as in a release build.
- CidrV6.SampleCidrV6: repetitions among samples are possible, as in the code.
- Socks.ParseUdpRequest: a domain name is kept as its bytes, without the lossy decoding to text.
- DnsQuery.QuestionWellFormedIff: for labels of up to 63 bytes; longer ones are not rejected by the builders, and length bytes from 64 to 191 are read as plain lengths.
- Dns.MessageRoundTrip: the printer writes labels of 1 to 63 bytes; a pointer is not followed, as the code only skips names.
- WgVerify.ProbeBudget: speaks of the times for which probes are booked; the reply to the first confirmation goes out at once and is only booked 600 ms after the probe before it.
- Fragment.FromEnv: the settings come as the numbers that could be read; trimming and number syntax are not modelled.
- Parsing of subnet texts and of scan modes: text handling without state.
- Address changes from the edge applied to the interface, and the request capsule for addresses: no state of this model depends on them.
- The handshake phase of the WireGuard check and the tunnel's packet pumps: the library decides what happens there.
- The second copies of the subnet functions and of the selection loop in the WireGuard prober: the same code.
- Reconnect loops, command line, settings files, noise generation, HTTP probing and the macOS application.
