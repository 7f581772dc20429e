/** Connection setup: the client half in `UtpStream::connect`, the server half in
    `UtpListener::accept` (section "connection setup" of BEP 29). */
module Handshake {
  import opened Words
  import opened Packets
  import opened Streams
  import opened Endpoints

  const FIRST_SEQ_NUMBER: u16 := 1

  /** The SYN sent for a connection registered under `id`. */
  function SynPacket(id: u16): Packet {
    Packet(Syn, 1, id, 0, 0, 0, FIRST_SEQ_NUMBER, 0, [], [])
  }

  /** The client's stream once `response`, a State packet, is the first to reach its mailbox. */
  function Connected(id: u16, remoteAddr: SocketAddr, response: Packet): StreamState {
    StreamState(id, WrappingAdd(id, 1), remoteAddr, [], false, WrappingAdd(FIRST_SEQ_NUMBER, 1),
                response.seqNumber, map[], [], [], false, [SynPacket(id)])
  }

  /** The reply of a server that drew `random` to a SYN. */
  function SynAckPacket(syn: Packet, random: u16): Packet {
    Packet(State, 1, syn.connectionId, 0, 0, 0, random, syn.seqNumber, [], [])
  }

  /** The server's stream for that SYN, once its route is in place. */
  function Accepted(syn: Packet, remoteAddr: SocketAddr, random: u16): StreamState {
    StreamState(WrappingAdd(syn.connectionId, 1), syn.connectionId, remoteAddr, [], false,
                WrappingAdd(random, 1), syn.seqNumber, map[], [], [], false, [SynAckPacket(syn, random)])
  }

  /** What `connect` makes of the first packet in its mailbox: only a State packet will do. */
  function TakeReply(id: u16, remoteAddr: SocketAddr, response: Packet): Option<StreamState> {
    if response.packetType == State then Some(Connected(id, remoteAddr, response)) else None
  }

  /** Each side sends to the ID the other receives on, and expects next the number the other
      sends next. */
  predicate Agree(client: StreamState, server: StreamState) {
    && client.connectionIdSend == server.connectionIdRecv
    && client.connectionIdRecv == server.connectionIdSend
    && WrappingAdd(client.ackNumber, 1) == server.seqNumber
    && WrappingAdd(server.ackNumber, 1) == client.seqNumber
  }

  // ---------------------------------------------------------------------------------------
  // The two endpoints of a fresh connection
  // ---------------------------------------------------------------------------------------

  function Fresh(st: StreamState, isn: u16): Endpoint {
    Endpoint(st, isn, [], [], [], [0], {})
  }

  function ClientEndpoint(id: u16, random: u16, serverAddr: SocketAddr): Endpoint {
    Fresh(Connected(id, serverAddr, SynAckPacket(SynPacket(id), random)), FIRST_SEQ_NUMBER)
  }

  function ServerEndpoint(id: u16, random: u16, clientAddr: SocketAddr): Endpoint {
    Fresh(Accepted(SynPacket(id), clientAddr, random), random)
  }

  /** A completed handshake puts both endpoints in agreement and in the state that all transfer
      results start from. */
  lemma HandshakeEstablishes(id: u16, random: u16, clientAddr: SocketAddr, serverAddr: SocketAddr)
    ensures var client, server := ClientEndpoint(id, random, serverAddr), ServerEndpoint(id, random, clientAddr);
            && Agree(client.st, server.st)
            && Local(client, server.isn)
            && Local(server, client.isn)
  {
    var client, server := ClientEndpoint(id, random, serverAddr), ServerEndpoint(id, random, clientAddr);
  }
}
