# µTP over UDP: a verified model

This project models the µTP implementation (BEP 29) of utp-rs: the stream protocol, the packet
codec, connection setup, the routing of arriving datagrams and the queue of outgoing ones. It
proves what the protocol promises over whole runs, and exactly where it stops to hold.

The parts, one module per file:

| module | what it holds |
|---|---|
| `Words`, `Packets` | wrapping 16-bit arithmetic; the packet and its type bytes |
| `Codec`, `Layout` | serialising and parsing, the grammar of the wire format, both round trips; and where every byte stands |
| `Streams` | one stream: what each operation does (functions) and how (class `UtpStream`) |
| `Filters` | the packet filter, acknowledgement pruning and segmentation, exactly |
| `Intake` | what one poll takes in, packet by packet, and what the drain loop takes out |
| `Endpoints` | a stream with its history, and what every sequence of operations on it keeps |
| `Handshake`, `Listener`, `Acceptance` | connection setup, as values and against a socket; which SYN an accept takes, over whole runs |
| `Transfer` | two endpoints and a hostile network; in-order delivery |
| `Outcomes`, `Reassembly` | what reads, writes and flushes report in every run; what was handed over in time is read |
| `ReorderBuffer`, `AckSafety` | the bound on the reorder buffer; acknowledgements across both endpoints |
| `Runs` | building blocks for runs that lead to a given state |
| `Limits`, `BufferLimits`, `Replies` | the conditions of the above are exact: if-and-only-if results with failing runs |
| `Outgoing`, `Routing` | the two background tasks of a socket |
| `Worlds` | sockets, network and one connection from its setup on, at the level of datagrams |
| `Wiring`, `Datagrams` | what every step of such a world keeps; these worlds refine the network of `Transfer`; delivery and flush for them |
| `WorldRuns`, `Realisation` | the converse: every run of `Transfer` is the work of sockets and datagrams, setup included |
| `DatagramLimits` | so the limits of `Transfer` are exactly those of two hosts about to connect |
| `Twins`, `TwinLimits`, `TwinOrigins` | streams that share a connection ID, and data left over under it: a check on the routing tables, that it is exact, and how such a stream comes to be |

How to read the main results. A segment has an unbounded index, counted from 1; its number on the
wire is that index plus the initial number, modulo 65536 (`Words.Num`). A run of `Transfer` is any
sequence of polls of either stream, with any buffers, any refused sends and any clock readings,
interleaved with the network handing over a copy of any packet ever sent, any number of times, in
any order, or never. `Worlds` replaces that network by the real path: register or accept, serialise,
queue, send, carry bytes, parse, look up the mailbox, take the first packet mailed for the reply. A run
there is any interleaving of these steps on any number of sockets, for one connection of interest
(a `Plan`: two addresses, which may be the same, and an ID) and for all others, whose streams are
streams like any other, with their own mailboxes and the IDs these give them.

Inputs that the program gets from outside are parameters: random draws, clock readings, the answers
of the UDP socket, whether a channel takes a packet, the bytes of a datagram. A branch that is a
`todo!()` in the program is modelled as an outcome (`Panicked`, `ReadPanic`, `FlushPanic`,
`AcceptPanic`), not excluded.

Where the program and its comments disagree, the model follows the program: `ack_number` is the
number of the last segment assembled, not of the next one to acknowledge (src/stream.rs:41 against
src/stream.rs:345-351).

Results about failures of the program:

- Delivery in order holds against any network up to 65535 segments in a direction and fails from
  65536 on, because a late copy of an assembled segment is still put in the reorder buffer
  (`Limits.DeliveryLimit`). If no segment comes late, it holds without end exactly as long as the
  sender is never more than 65536 segments ahead (`Limits.LeadLimit`).
- A successful flush means what it says exactly as long as no number sent has wrapped, because
  pruning compares numbers with a plain `<=`, and no acknowledgement left over from an earlier
  connection under the same IDs names one of the numbers sent, or one so far up that the filter takes
  it for one just before them (`Limits.FlushLimit`, and `DatagramLimits.DatagramFlushLimit` with what
  is left over told from queues and wire). Packet by packet, `Filters.PruneExact` says when an
  acknowledgement drops the right segments.
- The client takes the first State packet for the SYN-ACK. If the server has read before, this may be
  an acknowledgement; the client then misses the first segments for good. Of all packets the server
  may have sent by then, a data packet makes the client panic, and of the others the SYN-ACK is the
  only one after which delivery is assured (`Replies.ReplyLimit`).
- The reorder buffer is bounded by 128 exactly as long as no segment comes late and the sender is less
  than 65408 ahead (`BufferLimits.BufferLeadLimit`); against any network, exactly up to 128 segments,
  because copies of assembled segments are parked and never removed (`BufferLimits.BufferCountLimit`).
- Connection IDs are only checked against the receiver's own table. A host may come to hold two
  streams that send under the same ID to the same peer, one opened and one accepted: the peer has
  dropped its end of the older connection, and its ID is free there again. `TwinOrigins.TwinArises` is
  a run of two new sockets to that point. Data of the one is then assembled by the peer of the other;
  so is data left over under the ID. For two hosts about to connect, delivery is assured if and only
  if there is neither such a twin nor such data (`TwinLimits.DeliveryExact`); acknowledgements left
  over do no harm to it. Twins can be told from the two routing tables (`Twins.SoloCheck`), and there
  are none while both ends of each connection live (`Twins.PairedIsSolo`).

## Model

| member | source | states |
|---|---|---|
| `Codec.Serialize` | src/packet.rs:130-169 | the loops produce exactly the printed form of the packet, and fill exactly the capacity computed up front |
| `Codec.AppendExtensions` | src/packet.rs:152-166 | the extension loop emits the linked list in which each element carries the type byte of its successor |
| `Codec.ParseExtensions` | src/packet.rs:197-247 | the look-ahead loop, total on every byte string, computes the recursive grammar of the extension chain |
| `Codec.Parse` | src/packet.rs:174-261 | the cursor-based parser computes `ParsePacket`, with the same errors in the same order |
| `Codec.ChainAccepts` | src/packet.rs:197-247 | a chain is accepted as given extensions and payload if and only if it is their printed form and they are well-formed |
| `Codec.ChainRejects` | src/packet.rs:203-233 | a chain is refused with a given error if and only if well-formed extensions are followed by an announced element that is cut short; the error carries that element's index, length and remaining bytes |
| `Codec.ChainComplete` | src/packet.rs:213-247 | what follows well-formed links is parsed as if alone, at a later index |
| `Codec.ParseUndoesPrint` | src/packet.rs:130-261 | parsing the printed form gives back the packet if and only if the packet is well-formed (version 1, extension data of at most 255 bytes, extension types with one name only and not the end marker) |
| `Codec.PrintUndoesParse` | src/packet.rs:47-69 | printing what was parsed reproduces every accepted byte string exactly |
| `Codec.AcceptedAreThePrinted` | src/packet.rs:174-261 | the parser accepts exactly the printed forms of well-formed packets |
| `Codec.ParserInjective` | src/packet.rs:174-261 | no two accepted datagrams stand for the same packet |
| `Codec.TypeAndVersionByte` | src/packet.rs:139-182 | the first byte keeps packet type and version 1 apart |
| `Layout.LayoutExact` | src/packet.rs:130-261 | a datagram is accepted as a given packet if and only if the packet is well-formed and the datagram is laid out for it: the first byte by type name, every number at its place with its most significant byte first, each extension with the type of its successor, its length and its data, then the payload |
| `Layout.PrintLayout` | src/packet.rs:139-167 | every well-formed packet is printed in this layout |
| `Layout.HeaderErrors` | src/packet.rs:175-185 | which error a bad header gives: fewer than 20 bytes first, then a type above 4, then a version other than 1, and in no other case |
| `Streams.UtpStream.constructor` | src/stream.rs:53-79 | a new stream has empty buffers and the given numbers |
| `Streams.UtpStream.PollReadPacket` | src/stream.rs:157-179 | skips suspicious packets, hands over the first other one, and leaves the rest to be absorbed as if it had not been called |
| `Streams.UtpStream.Handle` | src/stream.rs:224-248 | parks data under its number; the pop and put-back loop leaves the pruned queue |
| `Streams.UtpStream.AbsorbPackets` | src/stream.rs:335-342 | the packet loop of a poll computes `Absorb` |
| `Streams.UtpStream.AssembleData` | src/stream.rs:344-352 | the drain loop takes consecutive segments out of the reorder buffer, appends their bytes and moves the acknowledgement number along |
| `Streams.UtpStream.TakeReceived` | src/stream.rs:363-371 | what is handed out followed by what is kept is what was buffered, and as much as fits is handed out |
| `Streams.UtpStream.Read` | src/stream.rs:330-375 | one `poll_read` has the outcome and the new state of `PollRead`, in every branch |
| `Streams.UtpStream.Send` | src/stream.rs:276-289 | a refused send changes nothing; an accepted one queues packet and segment and advances the number |
| `Streams.UtpStream.Write` | src/stream.rs:379-398 | one `poll_write` has the outcome and the new state of `PollWrite`, wherever the socket refuses |
| `Streams.UtpStream.Flush` | src/stream.rs:401-420 | one `poll_flush` has the outcome and the new state of `PollFlush` |
| `Streams.AbsorbFrame` | src/stream.rs:224-248 | taking packets in changes nothing but mailbox, reorder buffer, in-flight queue and shutdown flag, and leaves a suffix of the queue |
| `Streams.SendAllEffect` | src/stream.rs:276-289 | a burst of sends numbers its segments consecutively modulo 65536, in the queue and in the packets alike |
| `Filters.DataFilterExact` | src/stream.rs:189-197 | for indices less than a full turn apart, data is accepted if and only if it is within 128 of the last assembled segment, or within 128 of a full turn away |
| `Filters.AckFilterExact` | src/stream.rs:207-215 | with at most 65532 segments in flight, an acknowledgement is accepted if and only if it names one of them or one of the three before the oldest |
| `Filters.PruneExact` | src/stream.rs:232-244 | an accepted acknowledgement drops exactly the max(0, len - distance + 1) oldest segments if and only if the numbers involved do not turn over from 65535 to 0 |
| `Filters.PruneWithinRange` | src/stream.rs:232-244 | in particular it does when nothing turns over in the range the filter lets through |
| `Filters.ChunksFit` | src/stream.rs:389-391 | the segments of a buffer concatenate to it and have 1 to 1452 bytes each |
| `Filters.ChunksMaximal` | src/stream.rs:389-391 | all segments of a buffer but the last have 1452 bytes, so that there are as few as can be |
| `Filters.WriteFitsTheWire` | src/stream.rs:388-397 | an uninterrupted write reports the whole buffer; its packets carry it in order and in full, fit one datagram of 1472 bytes each and are read back unchanged |
| `Filters.RefusedWrite` | src/stream.rs:391-394 | a refused write reports an error, with a prefix of the buffer already sent and in flight |
| `Filters.SendableFits` | src/stream.rs:27-28 | a packet without extensions and with at most 1452 bytes fits the receive buffer and parses back |
| `Intake.AbsorbAppend` | src/stream.rs:336-342 | taking in two batches of packets at once is taking in one and then the other: no packet is skipped, lost or taken twice |
| `Intake.AbsorbPanics` | src/stream.rs:217-219 | at a packet of an unsupported type the loop has taken in what comes before, and goes no further |
| `Intake.AbsorbStops` | src/stream.rs:157-179 | the loop panics if and only if an unsupported packet waits, and else stops for the end of the channel or for want of packets |
| `Intake.AbsorbBuffers` | src/stream.rs:189-230 | the reorder buffer after a poll, number by number: the data of the last packet in the mailbox under that number if it is within 128 of the acknowledged one, else what was there |
| `Intake.AbsorbDrops` | src/stream.rs:207-244 | an acknowledgement anywhere in the mailbox that names a number in flight leaves no segment up to it in flight, whatever else is there, without a turn-over |
| `Intake.AbsorbQueues` | src/stream.rs:207-244 | with acknowledgements of earlier numbers only, exactly the segments above the greatest one stay in flight |
| `Intake.AssembleExact` | src/stream.rs:344-352 | the drain takes out exactly the segments under the next numbers, in order, up to the first that is missing, and nothing else |
| `Endpoints.LocalInvariant` | src/stream.rs:224-289 | over every sequence of operations, refused sends and arbitrary packets received: the in-flight queue is the consecutive run of numbers ending just before the next one, over the most recent segments; bytes are conserved on the read side; sent packets are what the history says |
| `Endpoints.DoKeepsLocal` | src/stream.rs:224-289 | each single operation keeps that invariant |
| `Endpoints.AbsorbKeepsContiguous` | src/stream.rs:232-244 | any packets, however hostile, leave a suffix of the in-flight run |
| `Endpoints.ReachableAck` | src/stream.rs:207-244 | in every reachable state with at most 65532 segments in flight: an acknowledgement is accepted if and only if it names one of them or one of the three before the oldest, and then drops exactly the segments it covers if and only if the numbers involved do not turn over |
| `Endpoints.ReadEffect` | src/stream.rs:336-355 | the acknowledgement sent is the number of the last segment assembled, in order, from the peer's initial number |
| `Endpoints.ReadBytes` | src/stream.rs:344-373 | bytes handed out plus bytes kept are bytes had plus bytes joined up, also on errors and at the end of the channel |
| `Endpoints.ReadDoesAllItCan` | src/stream.rs:336-374 | by how the packet loop stops: at the end of the channel the read is EOF and after a panic nothing, with all that is buffered kept; otherwise no packet is left waiting and no next segment parked, and all that is available is kept if the acknowledgement is refused and else handed out as far as it fits, the read being pending exactly when there is nothing |
| `Handshake.HandshakeEstablishes` | src/listener.rs:38-72 | after a completed handshake each side's acknowledgement number plus one is the other's next number, and both endpoints satisfy the invariant that all transfer results start from |
| `Replies.ReplyExact` | src/stream.rs:107-127 | after any writes, reads and flushes of the server before the client has a reply, at most 65534 segments: the client panics on the server's packet `j` if and only if it is data; otherwise it gets the right number, and is the client of an agreed handshake, if and only if `j` is 0, the SYN-ACK |
| `Replies.ReplyLimit` | src/stream.rs:107-127 | likewise, at most 65533 segments: what the client is given in every later run with fewer than 65536 segments is a prefix of what the server writes if and only if `j` is 0 |
| `Replies.PreludeKeepsUnheard` | src/stream.rs:266-274 | over all such sequences of operations each acknowledgement carries the number of the next segment, and each segment stands in the log |
| `Replies.EarlyAckFails` | src/stream.rs:107-124 | the failing runs, for every early acknowledgement: the server writes on and the client assembles from a later segment |
| `Listener.Accept` | src/listener.rs:36-78 | leaves routing table, SYN queue, outgoing channel and result as `AcceptFrom` says, in all four branches: no SYN, ID routed already, sending task gone, connected |
| `Listener.Connect` | src/stream.rs:92-102 | leaves routing table, outgoing channel and result as `ConnectFrom` says: still drawing, SYN sent, or sending task gone and the mailbox dropped again |
| `Listener.AcceptKeeps` | src/listener.rs:46-72 | whatever SYN is taken, routing stays isolated and no mailbox that was there is touched |
| `Listener.ConnectKeeps` | src/stream.rs:92-102 | likewise for the client's half, whatever IDs are drawn |
| `Acceptance.AcceptTakesOne` | src/listener.rs:36-78 | of the SYNs that wait an accept takes the first and leaves the others in order; it panics, fails or opens the stream for that SYN's ID and sender |
| `Acceptance.AcceptsInOrder` | src/socket.rs:128-131 | over every interleaving of accepts, connects, arrivals and drops, the `k`-th accept that finds a SYN takes the `k`-th that arrived, each once |
| `Acceptance.ConnectTakesFirst` | src/socket.rs:85-103 | a connect takes the first drawn ID that is vacant; the mailbox is open if the SYN could be sent and given up otherwise |
| `Acceptance.SetupOnWire` | src/stream.rs:97-101 | SYN and SYN-ACK as datagrams of 20 bytes, by their bytes |
| `Transfer.PrefixDelivery` | src/stream.rs:181-198 | over every tame run, with wrapping numbers, loss, reordering and duplication, what is assembled and what the reader is given are prefixes of what was written |
| `Transfer.AdversarialDelivery` | src/stream.rs:330-398 | with fewer than 65536 segments in a direction the same holds against any network, for every interleaving of polls |
| `Transfer.StepKeepsDirection` | src/stream.rs:224-231 | every step of either endpoint or the network keeps what waits at the receiver genuine |
| `Transfer.NextIsNext` | src/stream.rs:345-346 | under the next number there can only be the next segment |
| `Transfer.AssembleInOrder` | src/stream.rs:344-352 | the drain loop yields exactly the next segments written and leaves a genuine buffer |
| `Transfer.NeverUnsupported` | src/stream.rs:217-246 | in no run does a poll of either stream hit a packet type that is not implemented |
| `Outcomes.FlushOutcomes` | src/stream.rs:401-420 | at the end of every run, a flush succeeds if and only if the stream it leaves has nothing in flight; otherwise it is pending while the channel has not ended, and panics once it has |
| `Outcomes.ReadOutcomes` | src/stream.rs:330-375 | a read reports the end of the stream if and only if the channel has ended, never panics, and else gives out what there is and fits, or is pending, or refused |
| `Outcomes.WriteOutcomes` | src/stream.rs:379-398 | a write reports the whole buffer unless a packet is refused, and that nothing was written once a read or flush has seen the channel end |
| `Reassembly.OfferedAreAssembled` | src/stream.rs:335-352 | in every run, wrapped or not: if each segment up to the `k`-th was handed over while at most 128 ahead of what was assembled, in any order and with any polls in between, a read on an open channel ends with at least `k` assembled |
| `Reassembly.OfferedAreGiven` | src/stream.rs:335-373 | with fewer than 65536 segments, all of them offered so, a read with room enough has given the reader all bytes written |
| `Reassembly.FlushSucceeds` | src/stream.rs:401-420 | a flush that finds the acknowledgement of the last segment in its mailbox succeeds, whatever else is there, as long as no number wraps |
| `Reassembly.TransferCompletes` | src/stream.rs:330-420 | then a read, the delivery of its acknowledgement and a flush end with all bytes given and the flush successful |
| `ReorderBuffer.BufferBoundedAndFaithful` | src/stream.rs:189-230 | if no segment comes late and the sender is less than 65408 ahead, every key of the reorder buffer stands for exactly one of the 128 segments after the last assembled and holds its data; it never holds more than 128 |
| `ReorderBuffer.CalmDelivery` | src/stream.rs:181-198 | under the same conditions delivery is in order without end |
| `BufferLimits.BufferLeadLimit` | src/stream.rs:189-230 | without late copies, the reorder buffer never holds more than 128 segments for a sender at most `lead` ahead if and only if `lead` is below 65408 |
| `BufferLimits.LeadOverfills` | src/stream.rs:193-197 | the failing run: of 65408 segments the first 128 and the last are parked together |
| `BufferLimits.BufferCountLimit` | src/stream.rs:228-230 | against any network and with at most `n` segments, it never holds more than 128 if and only if `n` is at most 128 |
| `BufferLimits.LateCopiesOverfill` | src/stream.rs:228-230 | the failing run: copies of 128 assembled segments are parked next to the 129th |
| `AckSafety.DroppedOnlyIfAssembled` | src/stream.rs:232-244 | if the numbers sent do not wrap, with any loss, reordering and duplication, and any acknowledgements left over but harmful ones, what has left the in-flight queue is a prefix of what the peer has assembled |
| `AckSafety.FlushMeansAssembled` | src/stream.rs:401-420 | then a flush that reports success means that the peer has assembled everything written |
| `AckSafety.StepKeepsAckMail` | src/stream.rs:266-274 | every acknowledgement on its way names a segment that had been assembled, or does no harm, with no condition on the run but that none left over does |
| `AckSafety.HarmlessDropsNothing` | src/stream.rs:207-244 | an acknowledgement left over that names none of the numbers sent, and none so far up that it wraps into the filter's leeway, is ignored or drops nothing |
| `AckSafety.PruneCovers` | src/stream.rs:234-243 | without a wrap, pruning on an acknowledgement never goes beyond the segment it names |
| `Limits.DeliveryLimit` | src/stream.rs:228-230 | delivery holds against any network up to `n` segments if and only if `n` is below 65536 |
| `Limits.LateCopyBreaksDelivery` | src/stream.rs:228-230 | the failing run: a late copy of the first segment is assembled again after 65536 |
| `Limits.LeadLimit` | src/stream.rs:189-197 | without late copies, delivery holds for a sender at most `lead` segments ahead if and only if `lead` is at most 65536 |
| `Limits.LeadBreaksDelivery` | src/stream.rs:189-197 | the failing run: of 65537 segments only the last arrives and is taken for the first |
| `Limits.FlushLimit` | src/stream.rs:207-243 | a successful flush after at most `n` segments, with acknowledgements left over under given numbers, can be believed if and only if initial number plus `n` is below 65536 and none of these numbers is among those sent or, with anything sent, 65534 or more above the initial one |
| `Limits.WrapBreaksFlush` | src/stream.rs:235-236 | the failing run, for either side and every initial number: the segment numbered 0 is dropped on the acknowledgement of 65535 |
| `Limits.StrayBreaksFlush` | src/stream.rs:207-243 | the failing run for every harmful acknowledgement left over: all segments are dropped though none was assembled |
| `Outgoing.PacketSender.Poll` | src/socket/packet_sender.rs:26-113 | one poll of the sending task has the new state of `PollSender` |
| `Outgoing.PacketSender.Fetch` | src/socket/packet_sender.rs:46-59 | the channel is moved behind the buffer, in order |
| `Outgoing.PacketSender.SendBuffered` | src/socket/packet_sender.rs:71-103 | the send loop with put-back sends a prefix of the buffer and keeps the rest, whatever the socket answers |
| `Outgoing.FifoConservation` | src/socket/packet_sender.rs:46-103 | over every sequence of enqueues and polls with every pattern of answers, datagrams sent, then buffer, then channel are the packets ever enqueued; none lost, duplicated, altered or reordered |
| `Outgoing.FifoFromStart` | src/socket/packet_sender.rs:46-103 | in particular for every run of a new task |
| `Outgoing.SentCountExact` | src/socket/packet_sender.rs:71-102 | a poll sends one packet per success reported before the socket blocks, if it has as many |
| `Outgoing.PollSends` | src/socket/packet_sender.rs:62-103 | a poll sends the oldest packets it has, as many as the socket takes before it blocks, and keeps the rest in order |
| `Outgoing.FinishesExactly` | src/socket/packet_sender.rs:37-59 | over every run the task finishes exactly when it is polled with the socket gone or the channel closed |
| `Routing.UtpSocket.RegisterConnection` | src/socket.rs:85-103 | the loop takes the first drawn ID that is vacant and routes it to a new mailbox |
| `Routing.UtpSocket.InsertConnection` | src/socket.rs:108-126 | fails exactly if the key is taken, without touching the entry |
| `Routing.UtpSocket.SendTo` | src/socket.rs:76-81 | queues the packet, or fails if the sending task is gone |
| `Routing.UtpSocket.GetSyn` | src/socket.rs:128-131 | SYNs are taken in order of arrival |
| `Routing.UtpSocket.PutInMailbox` | src/socket/packet_receiver.rs:96-133 | a packet goes to the mailbox for its key; an entry whose stream is gone is removed |
| `Routing.UtpSocket.RouteDatagram` | src/socket/packet_receiver.rs:50-138 | an invalid datagram is ignored, a SYN queued, anything else put in a mailbox |
| `Routing.UtpSocket.PollReceiver` | src/socket/packet_receiver.rs:46-172 | one poll of the receiving task computes `ReceiveAll` |
| `Routing.PollMissesNothing` | src/socket/packet_receiver.rs:46-172 | in order of arrival, every valid SYN goes to the SYN queue and every other valid packet is looked up in the table, up to the answer that ends the task |
| `Routing.RoutingIsolation` | src/socket/packet_receiver.rs:53-133 | over every interleaving of registration, insertion, drops and arrivals, each mailbox has received exactly the valid packets with its key during its lifetime, in order of arrival; live entries are their own mailbox's; lifetimes for a key do not overlap |
| `Routing.LiveStaysLive` | src/socket.rs:85-126 | only the drop of its own stream ends a live mailbox; its entry is never overwritten or removed |
| `Routing.NoPacketReachesTwo` | src/socket/packet_receiver.rs:96-124 | in no run does a packet get into two mailboxes |
| `Routing.RoutedByKey` | src/socket/packet_receiver.rs:97-124 | an arrival is put in the open mailbox for its key and leaves all others alone |
| `Routing.VacantIsVacant` | src/socket.rs:90-102 | the ID chosen is the first drawn that is vacant, and none is chosen only if all drawn are taken |
| `Routing.StaleRemoved` | src/socket/packet_receiver.rs:96-124 | an arrival removes the entry for its key if the stream is gone, and no other entry |
| `Wiring.MailedByKey` | src/socket/packet_receiver.rs:53-124 | what a datagram adds to a stream's mailbox is nothing, or the packet parsed from it, which then is no SYN and has the mailbox's key |
| `Wiring.MailComesFromPeer` | src/socket/packet_receiver.rs:53-124 | whatever lands in a stream's mailbox was sent by its peer's stream, unaltered, or was left over before the connection |
| `Wiring.AcceptKeepsOurs` | src/listener.rs:36-72 | the SYN that `accept` takes for the connection, first copy or stale one, yields the server's stream of a fresh connection |
| `Datagrams.ConnectedTracks` | src/stream.rs:107-124 | taking the SYN-ACK for the reply gives the client's stream that the abstract system has had since the server accepted, with what was mailed meanwhile |
| `Datagrams.StepRefines` | src/packet.rs:130-262 | each step of sockets, tasks, network, setup and other connections, without twins, with the SYN-ACK first and nothing but acknowledgements left over, keeps the invariant, and is a step of the abstract system or none |
| `Datagrams.RunRefines` | src/socket/packet_sender.rs:46-103 | each such run, from before the connection on, leaves the two streams in a state that a run of the abstract system from a fresh connection reaches; a punctual run, by a run without late copies |
| `Datagrams.DatagramDelivery` | src/socket/packet_receiver.rs:47-138 | at the level of datagrams, from before the connection on, without data left over and with fewer than 65536 segments in a direction, the reader is given a prefix of what was written |
| `Datagrams.DatagramDeliveryUnbounded` | src/socket/packet_receiver.rs:47-138 | likewise without bound if no segment comes late and the sender is never more than 65536 ahead |
| `Datagrams.DatagramFlush` | src/stream.rs:401-420 | at the level of datagrams, as long as no number wraps and no acknowledgement left over does harm, a successful flush means that the peer has assembled everything |
| `Endpoints.PerformSendsOn` | src/stream.rs:250-289 | every operation on a stream in any state sends sendable data and acknowledgements under the stream's own ID only |
| `Twins.StepKeepsHoused` | src/listener.rs:46-72 | whatever happens, every stream keeps an open mailbox that gives it its ID, its channel does not end, and every accepted connection has its stream |
| `Twins.SoloCheck` | src/socket.rs:85-126 | before its setup as well as while it lives, a connection has no twin if and only if the client's table has no live accepted entry at ID plus two for the server, and the server's no registered entry with a stream at ID minus one for the client |
| `Twins.PairedIsSolo` | src/socket/packet_receiver.rs:96-124 | before setup as well as after, while every live stream between the two hosts has a live other end, there is no twin |
| `Twins.PairedAssures` | src/socket/packet_receiver.rs:96-124 | two such hosts, about to connect and without data left over, can count on delivery |
| `DatagramLimits.StepKeepsSolo` | src/socket.rs:85-126 | only a new stream, accepted or with its reply taken, can be a new twin; polls, drops and arrivals bring none |
| `WorldRuns.SetupRun` | src/stream.rs:82-127 | any two hosts with vacant entries and running tasks can get connected, datagram by datagram, whatever else they carry and whatever number the server draws, and both streams are then those of an agreed handshake |
| `Realisation.RunRealised` | src/socket/packet_sender.rs:46-103 | every run of the abstract system without strays, from any state of it, is matched by one of sockets, tasks and datagrams that leaves the two streams in the same state, without any other connection joining; one without late copies and too far a lead, by an orderly run |
| `DatagramLimits.DatagramDeliveryLimit` | src/stream.rs:228-230 | for two hosts about to connect, without twins and data left over: delivery is assured up to `n` segments in a direction if and only if `n` is below 65536 |
| `DatagramLimits.DatagramLeadLimit` | src/stream.rs:189-197 | without late copies, it is assured for a sender at most `lead` segments ahead if and only if `lead` is at most 65536 |
| `DatagramLimits.DatagramFlushLimit` | src/stream.rs:207-243 | for either side: a successful flush after at most `n` segments can be believed if and only if initial number plus `n` is below 65536 and no harmful acknowledgement is left over, queued or on the wire |
| `TwinLimits.StaleBreaksDelivery` | src/stream.rs:189-231 | any data left over under the IDs of the connection, queued or on the wire, from either side and with any number, breaks delivery in some run with fewer than 65536 segments |
| `TwinLimits.DeliveryExact` | src/socket/packet_receiver.rs:96-124 | for two hosts that can connect, whatever else they hold and carry: delivery in both directions over all runs with fewer than 65536 segments that no other connection joins, with the SYN-ACK first, is assured if and only if neither host holds a twin and no data is left over under the connection's IDs |
| `TwinLimits.TwinBreaksDelivery` | src/socket/packet_receiver.rs:96-124 | the failing run, for a twin at either host in any state: what comes before its next number is written and read, then it writes one byte, which the peer assembles though nothing more was written |
| `TwinOrigins.TwinArises` | src/socket/packet_receiver.rs:113-121 | between any two new sockets and for every ID, a run of seven events ends with the two about to connect, only acknowledgements left over, and a twin: an older connection is opened and accepted, one end is dropped and its entry removed by the next packet, the other end lives |
| `TwinOrigins.NewSocketsAssured` | src/socket.rs:43-50 | two new sockets, or one that is to connect to itself, can count on delivery |

## Left out

- tokio, wakers, reference counts and locks: channels are sequences, the routing table is updated atomically, a poll is one step; a poll that gives up early because of task budgeting is the same as packets arriving later.
- The congestion controller (src/congestion.rs): it records samples that no decision reads.
- The values of timestamps, window and delta beyond their encoding: they do not affect the protocol.
- Fin, Reset and Syn packets inside a stream, and `poll_shutdown`: not implemented in the program; the panics are modelled as outcomes.
- Liveness: nothing is retransmitted, so no result promises that anything arrives; what is read once it was handed over is the subject of `Reassembly`.
- Endless loops: a send that fails for ever is retried for ever, and drawing IDs may go on for ever; the answers and draws of one poll are finite lists, after which the socket blocks or the draw is still going on.
- Outgoing.PacketSender.Poll: a successful send is taken to send the whole datagram, as UDP does.
- Datagrams.DatagramDelivery: other hosts are taken not to forge the two addresses.
- Datagrams.RunRefines: the two streams of interest are not dropped; a task that stops receiving is covered as one to which nothing more arrives, and a socket that is dropped altogether is not modelled.
- Replies.ReplyLimit: from 65534 segments on no run with fewer than 65536 is left in which the client could be seen to miss one, so nothing is stated there.
- Filters.AckFilterExact: with more than 65532 segments in flight the filter accepts every distance but zero, which is not stated.
- Address lookup, binding, logging and error texts.
