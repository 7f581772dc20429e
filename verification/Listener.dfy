/** The two halves of connection setup, run against a socket. */
module Listener {
  import opened Words
  import opened Packets
  import opened Streams
  import opened Handshake
  import opened Routing

  datatype AcceptResult = AcceptOk(st: StreamState) | AcceptWaiting | AcceptError | AcceptPanic

  /** What a call leaves behind: the routing state, the SYNs taken so far, the packets it sent. */
  datatype Setup<+R> = Setup(router: Router, synsTaken: nat, sent: seq<(Packet, SocketAddr)>, result: R)

  /** Take the oldest SYN, route the ID after its own, and send the SYN-ACK if the sending task is
      `alive`. A SYN whose ID is already routed is a `todo!()`. */
  function AcceptFrom(r: Router, synsTaken: nat, alive: bool, random: u16): Setup<AcceptResult> {
    if synsTaken >= |r.syns| then
      Setup(r, synsTaken, [], AcceptWaiting)
    else
      var (syn, addr) := r.syns[synsTaken];
      var key := (WrappingAdd(syn.connectionId, 1), addr);
      if key in r.table then
        Setup(r, synsTaken + 1, [], AcceptPanic)
      else if alive then
        Setup(AddBox(r, key, false), synsTaken + 1, [(SynAckPacket(syn, random), addr)],
              AcceptOk(Accepted(syn, addr, random)))
      else
        Setup(DropStream(AddBox(r, key, false), |r.boxes|), synsTaken + 1, [], AcceptError)
  }

  datatype ConnectResult = SynSent(id: u16) | StillDrawing | ConnectError

  /** Register the first vacant one of the IDs drawn, and send the SYN if the sending task is `alive`. */
  function ConnectFrom(r: Router, synsTaken: nat, alive: bool, remoteAddr: SocketAddr, draws: seq<u16>)
    : Setup<ConnectResult>
  {
    match FirstVacant(r.table, remoteAddr, draws)
    case None => Setup(r, synsTaken, [], StillDrawing)
    case Some(id) =>
      var routed := AddBox(r, (id, remoteAddr), true);
      if alive then
        Setup(routed, synsTaken, [(SynPacket(id), remoteAddr)], SynSent(id))
      else
        Setup(DropStream(routed, |r.boxes|), synsTaken, [], ConnectError)
  }

  /** Setting up a connection adds at most one mailbox, keeps the routing state isolated and leaves
      all mailboxes that were there alone. */
  lemma AcceptKeeps(r: Router, synsTaken: nat, alive: bool, random: u16)
    requires Isolated(r)
    ensures var s := AcceptFrom(r, synsTaken, alive, random);
            Isolated(s.router) && r.boxes <= s.router.boxes && s.router.syns == r.syns
  {
    if synsTaken < |r.syns| {
      var (syn, addr) := r.syns[synsTaken];
      var key := (WrappingAdd(syn.connectionId, 1), addr);
      if key !in r.table {
        AddBoxIsolated(r, key, false);
        DropIsolated(AddBox(r, key, false), |r.boxes|);
      }
    }
  }

  lemma ConnectKeeps(r: Router, synsTaken: nat, alive: bool, remoteAddr: SocketAddr, draws: seq<u16>)
    requires Isolated(r)
    ensures var s := ConnectFrom(r, synsTaken, alive, remoteAddr, draws);
            Isolated(s.router) && r.boxes <= s.router.boxes && s.router.syns == r.syns
  {
    VacantIsVacant(r.table, remoteAddr, draws);
    var vacant := FirstVacant(r.table, remoteAddr, draws);
    if vacant.Some? {
      AddBoxIsolated(r, (vacant.value, remoteAddr), true);
      DropIsolated(AddBox(r, (vacant.value, remoteAddr), true), |r.boxes|);
    }
  }

  /** The socket has become what `s` says, from one with the queue `before` and a sending task that
      was `alive`. */
  ghost predicate Performs<R>(socket: UtpSocket, before: seq<(Packet, SocketAddr)>, alive: bool, s: Setup<R>)
    reads socket
  {
    && socket.Contents() == s.router
    && socket.synsTaken == s.synsTaken
    && socket.outgoing == before + s.sent
    && socket.senderAlive == alive
  }

  /** `UtpListener::accept`, with the random draw as input. */
  method Accept(socket: UtpSocket, random: u16) returns (r: AcceptResult)
    requires socket.Valid()
    modifies socket
    ensures socket.Valid()
    ensures var s := old(AcceptFrom(socket.Contents(), socket.synsTaken, socket.senderAlive, random));
            r == s.result && Performs(socket, old(socket.outgoing), old(socket.senderAlive), s)
  {
    var got := socket.GetSyn();
    if got.None? {
      return AcceptWaiting;
    }
    var (packet, remoteAddr) := got.value;
    var connectionIdRecv := WrappingAdd(packet.connectionId, 1);
    var connectionIdSend := packet.connectionId;
    var ackNumber := packet.seqNumber;
    var mailbox := |socket.boxes|;
    var inserted := socket.InsertConnection(connectionIdRecv, remoteAddr);
    if !inserted {
      return AcceptPanic;
    }
    var synAck := Packet(State, 1, connectionIdSend, 0, 0, 0, random, ackNumber, [], []);
    var seqNumber := WrappingAdd(random, 1);
    var ok := socket.SendTo(synAck, remoteAddr);
    if !ok {
      socket.DropReceiver(mailbox);
      return AcceptError;
    }
    r := AcceptOk(StreamState(connectionIdRecv, connectionIdSend, remoteAddr, [], false, seqNumber, ackNumber,
                              map[], [], [], false, [synAck]));
  }

  /** The first half of `UtpStream::connect`: register and send the SYN. */
  method Connect(socket: UtpSocket, remoteAddr: SocketAddr, draws: seq<u16>) returns (r: ConnectResult)
    requires socket.Valid()
    modifies socket
    ensures socket.Valid()
    ensures var s := old(ConnectFrom(socket.Contents(), socket.synsTaken, socket.senderAlive, remoteAddr, draws));
            r == s.result && Performs(socket, old(socket.outgoing), old(socket.senderAlive), s)
  {
    var mailbox := |socket.boxes|;
    var id := socket.RegisterConnection(remoteAddr, draws);
    if id.None? {
      return StillDrawing;
    }
    var seqNumber := 1;
    var syn := Packet(Syn, 1, id.value, 0, 0, 0, seqNumber, 0, [], []);
    var ok := socket.SendTo(syn, remoteAddr);
    if !ok {
      socket.DropReceiver(mailbox);
      return ConnectError;
    }
    r := SynSent(id.value);
  }
}
