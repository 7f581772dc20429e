/** The whole system at the level of datagrams: sockets with their two tasks, the network that carries
    bytes, and one connection of interest between two of the sockets, from its setup on, among any
    other connections of theirs. */
module Worlds {
  import opened Words
  import opened Packets
  import opened Codec
  import opened Streams
  import opened Endpoints
  import opened Handshake
  import opened Transfer
  import opened Outgoing
  import opened Routing
  import opened Listener

  /** The connection of interest: a client that registers `id` for the server's address. The two
      addresses may be the same. */
  datatype Plan = Plan(clientAddr: SocketAddr, serverAddr: SocketAddr, id: u16) {
    function Addr(side: Side): SocketAddr {
      if side == Client then clientAddr else serverAddr
    }

    function RecvId(side: Side): u16 {
      if side == Client then id else WrappingAdd(id, 1)
    }

    function SendId(side: Side): u16 {
      RecvId(side.Other())
    }

    /** The key of a side's mailbox. */
    function Key(side: Side): Key {
      (RecvId(side), Addr(side.Other()))
    }
  }

  /** A datagram under way, with its sender's address. */
  datatype Frame = Frame(from: SocketAddr, to: SocketAddr, bytes: Bytes)

  datatype Socket = Socket(router: Router, synsTaken: nat, sender: SenderState) {
    /** Everything ever put in mailbox `m`. */
    function Mail(m: nat): seq<Packet> {
      if m < |router.boxes| then router.boxes[m].history else []
    }

    function IsOpen(m: nat): bool {
      m < |router.boxes| && router.boxes[m].open
    }

    /** Whether the channel to the sending task takes packets. */
    predicate Running() {
      !sender.finished && !sender.closed
    }

    function Queue(items: seq<Item>): Socket {
      if Running() then this.(sender := sender.(channel := sender.channel + items)) else this
    }

    /** The socket after a call that sets up a connection. */
    function Apply<R>(s: Setup<R>): Socket {
      this.(router := s.router, synsTaken := s.synsTaken).Queue(s.sent)
    }

    function Accept(random: u16): Setup<AcceptResult> {
      AcceptFrom(router, synsTaken, Running(), random)
    }

    function Connect(remoteAddr: SocketAddr, draws: seq<u16>): Setup<ConnectResult> {
      ConnectFrom(router, synsTaken, Running(), remoteAddr, draws)
    }
  }

  /** One side of the connection: not there yet, waiting for the reply to its SYN, or a stream. */
  datatype Party = Absent | Connecting(mailbox: nat) | Live(mailbox: nat, endpoint: Endpoint) {
    /** All that the stream has handed to its socket. */
    function Log(): seq<Packet> {
      if Live? then endpoint.st.outgoing else []
    }

    function Segs(): seq<Bytes> {
      if Live? then endpoint.segs else []
    }

    function Assembled(): seq<Bytes> {
      if Live? then endpoint.assembled else []
    }
  }

  /** Where a stream has its mailbox: at a socket, and there in a place. */
  type Slot = (SocketAddr, nat)

  /** `others` are all streams but those of the connection of interest. */
  datatype World = World(
    sockets: map<SocketAddr, Socket>,
    net: set<Frame>,
    client: Party,
    server: Party,
    others: map<Slot, StreamState>)
  {
    function At(side: Side): Party {
      if side == Client then client else server
    }

    function Set(side: Side, party: Party): World {
      if side == Client then this.(client := party) else this.(server := party)
    }

    function With(addr: SocketAddr, k: Socket): World {
      this.(sockets := sockets[addr := k])
    }
  }

  datatype WorldEvent =
    | Connects(addr: SocketAddr, remoteAddr: SocketAddr, draws: seq<u16>, ours: bool)
    | Accepts(addr: SocketAddr, random: u16)
    | ReplyTaken                                        // by the client of interest
    | OtherReply(addr: SocketAddr, mailbox: nat)        // by any other client
    | StreamPolled(side: Side, op: Op)                  // a stream of interest
    | OtherPolled(addr: SocketAddr, mailbox: nat, op: Op)
    | OtherDropped(addr: SocketAddr, mailbox: nat)      // a stream, or a client that waits for its reply
    | SenderPolled(addr: SocketAddr, alive: bool, results: seq<SendResult>)
    | Injected(frame: Frame)                            // another host
    | DatagramArrives(frame: Frame)

  /** Mailbox `m` of the socket at `addr` belongs to the connection of interest. */
  predicate Mine(plan: Plan, w: World, addr: SocketAddr, m: nat) {
    || (addr == plan.clientAddr && !w.client.Absent? && m == w.client.mailbox)
    || (addr == plan.serverAddr && !w.server.Absent? && m == w.server.mailbox)
  }

  /** The SYN that `accept` would take next is that of the client of interest. */
  predicate TakesOurs(plan: Plan, w: World, addr: SocketAddr) {
    && addr == plan.serverAddr && addr in w.sockets
    && !w.client.Absent? && w.server.Absent?
    && var k := w.sockets[addr];
       && k.synsTaken < |k.router.syns|
       && k.router.syns[k.synsTaken].0.connectionId == plan.id
       && k.router.syns[k.synsTaken].1 == plan.clientAddr
  }

  /** The packets a poll hands to the socket, addressed to the peer. */
  function NewItems(st: StreamState, st': StreamState, to: SocketAddr): seq<Item> {
    if |st.outgoing| <= |st'.outgoing| then
      var added := st'.outgoing[|st.outgoing|..];
      seq(|added|, i requires 0 <= i < |added| => (added[i], to))
    else []
  }

  function ReadFrom(k: Socket, f: Frame): Socket {
    k.(router := Routing.Receive(k.router, Arrived(f.bytes, f.from, false)))
  }

  /** The packet that an arriving datagram puts in the mailbox of a side, if any. */
  function Mailed(plan: Plan, w: World, side: Side, f: Frame): Option<Packet> {
    if w.At(side).Absent? || f.to != plan.Addr(side) || f.to !in w.sockets then None
    else
      var before := w.sockets[f.to].Mail(w.At(side).mailbox);
      var now := ReadFrom(w.sockets[f.to], f).Mail(w.At(side).mailbox);
      if |before| < |now| then Some(now[|before|]) else None
  }

  function Notice(party: Party, mail: Option<Packet>): Party {
    if party.Live? && mail.Some? then
      party.(endpoint := Endpoints.Do(party.endpoint, Endpoints.Receive(mail.value)))
    else party
  }

  /** Another stream, once what has come for it since `before` is in its channel. */
  function Hears(st: StreamState, before: seq<Packet>, now: seq<Packet>): StreamState {
    if |before| < |now| then st.(mailbox := st.mailbox + now[|before|..]) else st
  }

  function HearsAll(others: map<Slot, StreamState>, addr: SocketAddr, k: Socket, k': Socket): map<Slot, StreamState> {
    map slot | slot in others ::
      if slot.0 == addr then Hears(others[slot], k.Mail(slot.1), k'.Mail(slot.1)) else others[slot]
  }

  /** The stream of a client once the first packet in its mailbox is taken for the reply. */
  function Reply(k: Socket, m: nat, id: u16, remoteAddr: SocketAddr): Option<StreamState> {
    var mail := k.Mail(m);
    if mail == [] then None
    else
      var st := TakeReply(id, remoteAddr, mail[0]);
      if st.None? then None else Some(st.value.(mailbox := mail[1..]))
  }

  predicate WorldEnabled(plan: Plan, w: World, ev: WorldEvent) {
    match ev
    case Connects(addr, remoteAddr, draws, ours) =>
      && addr in w.sockets
      && (ours ==>
            && addr == plan.clientAddr && remoteAddr == plan.serverAddr && w.client.Absent?
            && w.sockets[addr].Connect(remoteAddr, draws).result == SynSent(plan.id))
    case Accepts(addr, random) => addr in w.sockets
    case ReplyTaken =>
      && w.client.Connecting? && plan.clientAddr in w.sockets
      && Reply(w.sockets[plan.clientAddr], w.client.mailbox, plan.id, plan.serverAddr).Some?
    case OtherReply(addr, m) =>
      && addr in w.sockets && w.sockets[addr].IsOpen(m) && w.sockets[addr].router.boxes[m].registered
      && !Mine(plan, w, addr, m) && (addr, m) !in w.others
      && var key := w.sockets[addr].router.boxes[m].key;
         Reply(w.sockets[addr], m, key.0, key.1).Some?
    case StreamPolled(side, op) =>
      && w.At(side).Live? && !op.Receive? && plan.Addr(side) in w.sockets
      && (w.sockets[plan.Addr(side)].Running()
          || |Endpoints.Do(w.At(side).endpoint, op).st.outgoing| == |w.At(side).endpoint.st.outgoing|)
    case OtherPolled(addr, m, op) =>
      && (addr, m) in w.others && (op.Write? || op.Read? || op.Flush?) && addr in w.sockets
      && (w.sockets[addr].Running() || |Perform(w.others[(addr, m)], op).outgoing| == |w.others[(addr, m)].outgoing|)
    case OtherDropped(addr, m) => addr in w.sockets && !Mine(plan, w, addr, m)
    case SenderPolled(addr, _, _) => addr in w.sockets && !w.sockets[addr].sender.finished
    case Injected(f) => f.from !in w.sockets
    case DatagramArrives(f) => f in w.net && f.to in w.sockets && !w.sockets[f.to].router.stopped
  }

  /** What the sending task has put on the wire, as datagrams under way. */
  function NewFrames(addr: SocketAddr, before: SenderState, now: SenderState): set<Frame> {
    if |before.wire| <= |now.wire| then
      set d | d in now.wire[|before.wire|..] :: Frame(addr, d.to, d.bytes)
    else {}
  }

  function WorldStep(plan: Plan, w: World, ev: WorldEvent): World
    requires WorldEnabled(plan, w, ev)
  {
    match ev
    case Connects(addr, remoteAddr, draws, ours) =>
      var k := w.sockets[addr];
      var w' := w.With(addr, k.Apply(k.Connect(remoteAddr, draws)));
      if ours then w'.(client := Connecting(|k.router.boxes|)) else w'
    case Accepts(addr, random) =>
      var k := w.sockets[addr];
      var s := k.Accept(random);
      var w' := w.With(addr, k.Apply(s));
      if !s.result.AcceptOk? then w'
      else if TakesOurs(plan, w, addr) then w'.(server := Live(|k.router.boxes|, Fresh(s.result.st, random)))
      else w'.(others := w.others[(addr, |k.router.boxes|) := s.result.st])
    case ReplyTaken =>
      var st := Reply(w.sockets[plan.clientAddr], w.client.mailbox, plan.id, plan.serverAddr).value;
      w.(client := Live(w.client.mailbox, Fresh(st, FIRST_SEQ_NUMBER)))
    case OtherReply(addr, m) =>
      var key := w.sockets[addr].router.boxes[m].key;
      w.(others := w.others[(addr, m) := Reply(w.sockets[addr], m, key.0, key.1).value])
    case StreamPolled(side, op) =>
      var party := w.At(side);
      var e := Endpoints.Do(party.endpoint, op);
      var items := NewItems(party.endpoint.st, e.st, plan.Addr(side.Other()));
      w.Set(side, party.(endpoint := e)).With(plan.Addr(side), w.sockets[plan.Addr(side)].Queue(items))
    case OtherPolled(addr, m, op) =>
      var st := w.others[(addr, m)];
      var items := NewItems(st, Perform(st, op), st.remoteAddr);
      w.With(addr, w.sockets[addr].Queue(items)).(others := w.others[(addr, m) := Perform(st, op)])
    case OtherDropped(addr, m) =>
      var k := w.sockets[addr];
      w.With(addr, k.(router := DropStream(k.router, m))).(others := w.others - {(addr, m)})
    case SenderPolled(addr, alive, results) =>
      var k := w.sockets[addr];
      var sender := PollSender(k.sender, alive, results);
      w.With(addr, k.(sender := sender)).(net := w.net + NewFrames(addr, k.sender, sender))
    case Injected(f) => w.(net := w.net + {f})
    case DatagramArrives(f) =>
      var k, k' := w.sockets[f.to], ReadFrom(w.sockets[f.to], f);
      w.With(f.to, k')
       .(client := Notice(w.client, Mailed(plan, w, Client, f)),
         server := Notice(w.server, Mailed(plan, w, Server, f)),
         others := HearsAll(w.others, f.to, k, k'))
  }

  ghost predicate WorldPossible(plan: Plan, w: World, evs: seq<WorldEvent>)
    decreases |evs|
  {
    evs != [] ==> WorldEnabled(plan, w, evs[0]) && WorldPossible(plan, WorldStep(plan, w, evs[0]), evs[1..])
  }

  ghost function WorldAfter(plan: Plan, w: World, evs: seq<WorldEvent>): World
    requires WorldPossible(plan, w, evs)
    decreases |evs|
  {
    if evs == [] then w else WorldAfter(plan, WorldStep(plan, w, evs[0]), evs[1..])
  }

  // ---------------------------------------------------------------------------------------
  // Conditions
  // ---------------------------------------------------------------------------------------

  /** A packet that the peer of `side` will take for one of `side`'s stream. */
  predicate Under(plan: Plan, side: Side, from: SocketAddr, p: Packet, to: SocketAddr) {
    && from == plan.Addr(side) && to == plan.Addr(side.Other())
    && p.connectionId == plan.SendId(side) && p.packetType != Syn
  }

  predicate Queued(w: World, addr: SocketAddr, item: Item) {
    addr in w.sockets && item in w.sockets[addr].sender.buffer + w.sockets[addr].sender.channel
  }

  /** The datagram that carries `p` from the host of `side` to the other. */
  function FrameOf(plan: Plan, side: Side, p: Packet): Frame {
    Frame(plan.Addr(side), plan.Addr(side.Other()), Print(p))
  }

  /** A packet that the peer of `side` will take for one of `side`'s stream is queued or on the wire. */
  predicate UnderWay(plan: Plan, w: World, side: Side, p: Packet) {
    && OfStream(p, plan.SendId(side))
    && (Queued(w, plan.Addr(side), (p, plan.Addr(side.Other()))) || FrameOf(plan, side, p) in w.net)
  }

  /** Data under the connection's IDs is under way, from either side. */
  ghost predicate DataUnderWay(plan: Plan, w: World) {
    exists side: Side, p :: UnderWay(plan, w, side, p) && p.packetType == Data
  }

  /** A stream at the host of `side` that sends under the ID of `side`'s stream, to the same peer. */
  predicate Twin(plan: Plan, side: Side, slot: Slot, st: StreamState) {
    && slot.0 == plan.Addr(side)
    && st.connectionIdSend == plan.SendId(side) && st.remoteAddr == plan.Addr(side.Other())
  }

  /** No other stream of the two hosts sends under the IDs of this connection to the other host. */
  ghost predicate Solo(plan: Plan, w: World) {
    forall slot, side: Side | slot in w.others :: !Twin(plan, side, slot, w.others[slot])
  }

  /** All that waits for the client's `connect`. */
  function ClientMail(plan: Plan, w: World): seq<Packet> {
    if w.client.Connecting? && plan.clientAddr in w.sockets
    then w.sockets[plan.clientAddr].Mail(w.client.mailbox) else []
  }

  /** The first packet to reach a waiting client is the server's SYN-ACK. */
  ghost predicate SynAckFirst(plan: Plan, w: World) {
    ClientMail(plan, w) != [] ==> |w.server.Log()| > 0 && ClientMail(plan, w)[0] == w.server.Log()[0]
  }

  /** A run throughout which these two hold. */
  ghost predicate Fair(plan: Plan, w: World, evs: seq<WorldEvent>)
    requires WorldPossible(plan, w, evs)
    decreases |evs|
  {
    && Solo(plan, w) && SynAckFirst(plan, w)
    && (evs != [] ==> Fair(plan, WorldStep(plan, w, evs[0]), evs[1..]))
  }
}
