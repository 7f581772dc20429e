/** What every step of the sockets and the network keeps: whatever lands in the mailbox of a stream of
    interest comes from its peer's stream, or was left over before the connection. */
module Wiring {
  import opened Words
  import opened Packets
  import opened Codec
  import opened Streams
  import opened Filters
  import opened Endpoints
  import opened Handshake
  import opened Transfer
  import opened Outgoing
  import opened Routing
  import opened Listener
  import opened Worlds

  // ---------------------------------------------------------------------------------------
  // The invariant
  // ---------------------------------------------------------------------------------------

  /** All that the two streams of interest have handed to their sockets, and packets that bear the
      connection's IDs but were left over from before. */
  datatype Logs = Logs(client: seq<Packet>, server: seq<Packet>, strays: iset<Packet>) {
    function At(side: Side): seq<Packet> {
      if side == Client then client else server
    }

    predicate Extends(earlier: Logs) {
      earlier.client <= client && earlier.server <= server && earlier.strays == strays
    }
  }

  function LogsOf(w: World, strays: iset<Packet>): Logs {
    Logs(w.client.Log(), w.server.Log(), strays)
  }

  /** A packet that a socket may have sent: one that its peer would take for a stream of interest's
      is that stream's, or left over. */
  ghost predicate Wired(plan: Plan, logs: Logs, from: SocketAddr, p: Packet, to: SocketAddr) {
    && Sendable(p)
    && (Supported(p) || p == SynPacket(p.connectionId))
    && forall side: Side :: Under(plan, side, from, p, to) ==> p in logs.At(side) || p in logs.strays
  }

  ghost predicate QueueWired(plan: Plan, logs: Logs, addr: SocketAddr, sender: SenderState) {
    forall item <- sender.buffer + sender.channel :: Wired(plan, logs, addr, item.0, item.1)
  }

  ghost predicate SynsWired(plan: Plan, syns: seq<(Packet, SocketAddr)>) {
    forall i | 0 <= i < |syns| && syns[i].1 == plan.clientAddr :: syns[i].0 == SynPacket(syns[i].0.connectionId)
  }

  ghost predicate SocketClean(plan: Plan, logs: Logs, addr: SocketAddr, k: Socket) {
    Isolated(k.router) && QueueWired(plan, logs, addr, k.sender) && SynsWired(plan, k.router.syns)
  }

  ghost predicate SocketsClean(plan: Plan, logs: Logs, sockets: map<SocketAddr, Socket>) {
    forall addr <- sockets :: SocketClean(plan, logs, addr, sockets[addr])
  }

  ghost predicate FrameWired(plan: Plan, logs: Logs, f: Frame) {
    exists p :: f.bytes == Print(p) && Wired(plan, logs, f.from, p, f.to)
  }

  ghost predicate NetClean(plan: Plan, logs: Logs, hosts: set<SocketAddr>, net: set<Frame>) {
    forall f <- net | f.from in hosts :: FrameWired(plan, logs, f)
  }

  /** Mailbox `m` is open and stands under the key of `side`; the client's was registered. */
  ghost predicate Holds(plan: Plan, side: Side, k: Socket, m: nat) {
    k.IsOpen(m) && k.router.boxes[m].key == plan.Key(side) && k.router.boxes[m].registered == (side == Client)
  }

  ghost predicate Routed(plan: Plan, w: World, side: Side) {
    && plan.Addr(side) in w.sockets
    && (!w.At(side).Absent? ==> Holds(plan, side, w.sockets[plan.Addr(side)], w.At(side).mailbox))
    && (w.At(side).Live? ==> w.At(side).endpoint.st.connectionIdSend == plan.SendId(side))
  }

  /** The server's stream comes after the client's SYN, the client's stream after that. */
  predicate Ordered(w: World) {
    && !w.server.Connecting?
    && (w.server.Live? ==> !w.client.Absent?)
    && (w.client.Live? ==> w.server.Live?)
  }

  ghost predicate Clean(plan: Plan, w: World, strays: iset<Packet>) {
    && SocketsClean(plan, LogsOf(w, strays), w.sockets)
    && NetClean(plan, LogsOf(w, strays), w.sockets.Keys, w.net)
    && Routed(plan, w, Client) && Routed(plan, w, Server)
    && Ordered(w)
  }

  // ---------------------------------------------------------------------------------------
  // Growth
  // ---------------------------------------------------------------------------------------

  lemma WiredGrows(plan: Plan, logs: Logs, logs': Logs, from: SocketAddr, p: Packet, to: SocketAddr)
    requires Wired(plan, logs, from, p, to) && logs'.Extends(logs)
    ensures Wired(plan, logs', from, p, to)
  {
    forall side: Side | Under(plan, side, from, p, to)
      ensures p in logs'.At(side) || p in logs'.strays
    {
      if p in logs.At(side) {
        var j :| 0 <= j < |logs.At(side)| && logs.At(side)[j] == p;
        assert logs'.At(side)[j] == p;
      }
    }
  }

  lemma QueueGrows(plan: Plan, logs: Logs, logs': Logs, addr: SocketAddr, sender: SenderState)
    requires QueueWired(plan, logs, addr, sender) && logs'.Extends(logs)
    ensures QueueWired(plan, logs', addr, sender)
  {
    forall item <- sender.buffer + sender.channel
      ensures Wired(plan, logs', addr, item.0, item.1)
    {
      WiredGrows(plan, logs, logs', addr, item.0, item.1);
    }
  }

  lemma NetGrows(plan: Plan, logs: Logs, logs': Logs, hosts: set<SocketAddr>, net: set<Frame>)
    requires NetClean(plan, logs, hosts, net) && logs'.Extends(logs)
    ensures NetClean(plan, logs', hosts, net)
  {
    forall f <- net | f.from in hosts
      ensures FrameWired(plan, logs', f)
    {
      var p :| f.bytes == Print(p) && Wired(plan, logs, f.from, p, f.to);
      WiredGrows(plan, logs, logs', f.from, p, f.to);
    }
  }

  lemma SocketsGrow(plan: Plan, logs: Logs, logs': Logs, sockets: map<SocketAddr, Socket>, addr: SocketAddr, k: Socket)
    requires SocketsClean(plan, logs, sockets) && logs'.Extends(logs)
    requires SocketClean(plan, logs', addr, k)
    ensures SocketsClean(plan, logs', sockets[addr := k])
  {
    var sockets' := sockets[addr := k];
    forall a <- sockets'
      ensures SocketClean(plan, logs', a, sockets'[a])
    {
      if a != addr {
        assert SocketClean(plan, logs, a, sockets[a]);
        QueueGrows(plan, logs, logs', a, sockets[a].sender);
      }
    }
  }

  /** A step that changes one socket and lets the streams' logs grow. */
  lemma SocketStep(plan: Plan, w: World, w': World, addr: SocketAddr, k: Socket, strays: iset<Packet>)
    requires Clean(plan, w, strays) && addr in w.sockets && w'.sockets == w.sockets[addr := k] && w'.net == w.net
    requires LogsOf(w', strays).Extends(LogsOf(w, strays)) && SocketClean(plan, LogsOf(w', strays), addr, k)
    requires Routed(plan, w', Client) && Routed(plan, w', Server) && Ordered(w')
    ensures Clean(plan, w', strays)
  {
    SocketsGrow(plan, LogsOf(w, strays), LogsOf(w', strays), w.sockets, addr, k);
    NetGrows(plan, LogsOf(w, strays), LogsOf(w', strays), w.sockets.Keys, w.net);
    assert w'.sockets.Keys == w.sockets.Keys;
  }

  /** The mailboxes of interest are the same in `k` as in the socket at `addr`. */
  ghost predicate KeepsMine(plan: Plan, w: World, addr: SocketAddr, k: Socket) {
    addr in w.sockets &&
    forall side: Side | addr == plan.Addr(side) && !w.At(side).Absent? ::
      Holds(plan, side, k, w.At(side).mailbox) && k.Mail(w.At(side).mailbox) == w.sockets[addr].Mail(w.At(side).mailbox)
  }

  lemma KeptRouted(plan: Plan, w: World, addr: SocketAddr, k: Socket, side: Side)
    requires Routed(plan, w, side) && KeepsMine(plan, w, addr, k)
    ensures Routed(plan, w.With(addr, k), side)
  {
  }

  /** The step from `w` to `w'` is not about the connection of interest. */
  ghost predicate Aside(plan: Plan, w: World, w': World) {
    w'.client == w.client && w'.server == w.server && ClientMail(plan, w') == ClientMail(plan, w)
  }

  lemma OtherStep(plan: Plan, w: World, w': World, addr: SocketAddr, k: Socket, strays: iset<Packet>)
    requires Clean(plan, w, strays) && KeepsMine(plan, w, addr, k) && SocketClean(plan, LogsOf(w, strays), addr, k)
    requires w'.sockets == w.sockets[addr := k] && w'.net == w.net && w'.client == w.client && w'.server == w.server
    ensures Clean(plan, w', strays) && Aside(plan, w, w')
  {
    assert plan.Addr(Client) == plan.clientAddr && w.At(Client) == w.client;
    KeptRouted(plan, w, addr, k, Client);
    KeptRouted(plan, w, addr, k, Server);
    SocketStep(plan, w, w', addr, k, strays);
  }

  /** More mailboxes, or other changes to the rest of the socket, leave those of interest alone. */
  lemma MoreBoxes(plan: Plan, w: World, addr: SocketAddr, k: Socket)
    requires addr in w.sockets && Routed(plan, w, Client) && Routed(plan, w, Server)
    requires w.sockets[addr].router.boxes <= k.router.boxes
    ensures KeepsMine(plan, w, addr, k)
  {
    forall side: Side | addr == plan.Addr(side) && !w.At(side).Absent?
      ensures Holds(plan, side, k, w.At(side).mailbox)
      ensures k.Mail(w.At(side).mailbox) == w.sockets[addr].Mail(w.At(side).mailbox)
    {
      assert Routed(plan, w, side);
    }
  }

  // ---------------------------------------------------------------------------------------
  // Queueing
  // ---------------------------------------------------------------------------------------

  lemma QueueMore(plan: Plan, logs: Logs, addr: SocketAddr, k: Socket, items: seq<Item>)
    requires QueueWired(plan, logs, addr, k.sender)
    requires k.Running() ==> forall item <- items :: Wired(plan, logs, addr, item.0, item.1)
    ensures QueueWired(plan, logs, addr, k.Queue(items).sender)
  {
    var sender := k.Queue(items).sender;
    forall item <- sender.buffer + sender.channel
      ensures Wired(plan, logs, addr, item.0, item.1)
    {
      if item !in k.sender.buffer + k.sender.channel {
        assert item in items;
      }
    }
  }

  /** All packets that streams send. */
  ghost function AnyPacket(): iset<Packet> {
    iset p: Packet | Sendable(p)
  }

  /** No other stream is a twin, or packets of twins are reckoned with. */
  ghost predicate Separate(plan: Plan, w: World, strays: iset<Packet>) {
    Solo(plan, w) || strays == AnyPacket()
  }

  /** What a stream that is no twin sends is not taken for a packet of interest. */
  lemma OtherWired(plan: Plan, logs: Logs, w: World, slot: Slot, p: Packet)
    requires Separate(plan, w, logs.strays) && slot in w.others && OfStream(p, w.others[slot].connectionIdSend)
    ensures Wired(plan, logs, slot.0, p, w.others[slot].remoteAddr)
  {
    forall side: Side | Solo(plan, w)
      ensures !Under(plan, side, slot.0, p, w.others[slot].remoteAddr)
    {
      assert !Twin(plan, side, slot, w.others[slot]);
    }
  }

  /** Packets for the peer, under the ID of their stream, are those of interest only for that side. */
  lemma ItemWired(plan: Plan, logs: Logs, side: Side, p: Packet)
    requires OfStream(p, plan.SendId(side)) && p in logs.At(side)
    ensures Wired(plan, logs, plan.Addr(side), p, plan.Addr(side.Other()))
  {
    assert plan.SendId(Client) != plan.SendId(Server);
  }

  lemma SynWired(plan: Plan, logs: Logs, from: SocketAddr, id: u16, to: SocketAddr)
    ensures Wired(plan, logs, from, SynPacket(id), to)
  {
  }

  // ---------------------------------------------------------------------------------------
  // Every step keeps it
  // ---------------------------------------------------------------------------------------

  lemma ConnectKeepsSocket(plan: Plan, logs: Logs, addr: SocketAddr, k: Socket, remoteAddr: SocketAddr, draws: seq<u16>)
    requires SocketClean(plan, logs, addr, k)
    ensures var k' := k.Apply(k.Connect(remoteAddr, draws));
            SocketClean(plan, logs, addr, k') && k.router.boxes <= k'.router.boxes
  {
    var s := k.Connect(remoteAddr, draws);
    ConnectKeeps(k.router, k.synsTaken, k.Running(), remoteAddr, draws);
    forall item <- s.sent
      ensures Wired(plan, logs, addr, item.0, item.1)
    {
      SynWired(plan, logs, addr, item.0.connectionId, item.1);
    }
    QueueMore(plan, logs, addr, k.(router := s.router, synsTaken := s.synsTaken), s.sent);
  }

  lemma ConnectKeepsClean(plan: Plan, w: World, ev: WorldEvent, strays: iset<Packet>)
    requires ev.Connects? && Clean(plan, w, strays) && WorldEnabled(plan, w, ev)
    ensures Clean(plan, WorldStep(plan, w, ev), strays)
    ensures !ev.ours ==> Aside(plan, w, WorldStep(plan, w, ev))
  {
    var k, w' := w.sockets[ev.addr], WorldStep(plan, w, ev);
    var k' := k.Apply(k.Connect(ev.remoteAddr, ev.draws));
    ConnectKeepsSocket(plan, LogsOf(w, strays), ev.addr, k, ev.remoteAddr, ev.draws);
    MoreBoxes(plan, w, ev.addr, k');
    OtherStep(plan, w, w.With(ev.addr, k'), ev.addr, k', strays);
    if ev.ours {
      assert Holds(plan, Client, k', |k.router.boxes|);
      SocketStep(plan, w, w', ev.addr, k', strays);
    }
  }

  /** The SYN-ACK of any other connection than that of interest comes from a stream that is no twin. */
  lemma AcceptSendsWired(plan: Plan, logs: Logs, w': World, addr: SocketAddr, k: Socket, random: u16)
    requires Separate(plan, w', logs.strays)
    requires var s := k.Accept(random);
             s.result.AcceptOk? ==> (addr, |k.router.boxes|) in w'.others
                                    && w'.others[(addr, |k.router.boxes|)] == s.result.st
    ensures forall item <- k.Accept(random).sent :: Wired(plan, logs, addr, item.0, item.1)
  {
    var s := k.Accept(random);
    if s.result.AcceptOk? {
      OtherWired(plan, logs, w', (addr, |k.router.boxes|), s.sent[0].0);
      assert s.sent == [s.sent[0]];
    }
  }

  lemma AcceptKeepsSocket(plan: Plan, logs: Logs, addr: SocketAddr, k: Socket, random: u16)
    requires SocketClean(plan, logs, addr, k)
    requires k.Running() ==> forall item <- k.Accept(random).sent :: Wired(plan, logs, addr, item.0, item.1)
    ensures var k' := k.Apply(k.Accept(random));
            SocketClean(plan, logs, addr, k') && k.router.boxes <= k'.router.boxes
  {
    var s := k.Accept(random);
    AcceptKeeps(k.router, k.synsTaken, k.Running(), random);
    QueueMore(plan, logs, addr, k.(router := s.router, synsTaken := s.synsTaken), s.sent);
  }

  lemma AcceptKeepsOthers(plan: Plan, w: World, addr: SocketAddr, random: u16, strays: iset<Packet>)
    requires Clean(plan, w, strays) && addr in w.sockets && !TakesOurs(plan, w, addr)
    requires Separate(plan, WorldStep(plan, w, Accepts(addr, random)), strays)
    ensures Clean(plan, WorldStep(plan, w, Accepts(addr, random)), strays)
    ensures Aside(plan, w, WorldStep(plan, w, Accepts(addr, random)))
  {
    var k, w' := w.sockets[addr], WorldStep(plan, w, Accepts(addr, random));
    var k' := k.Apply(k.Accept(random));
    AcceptSendsWired(plan, LogsOf(w, strays), w', addr, k, random);
    AcceptKeepsSocket(plan, LogsOf(w, strays), addr, k, random);
    MoreBoxes(plan, w, addr, k');
    OtherStep(plan, w, w', addr, k', strays);
  }

  lemma SynAckWired(plan: Plan, logs: Logs, random: u16)
    requires SynAckPacket(SynPacket(plan.id), random) in logs.server
    ensures Wired(plan, logs, plan.serverAddr, SynAckPacket(SynPacket(plan.id), random), plan.clientAddr)
  {
    ItemWired(plan, logs, Server, SynAckPacket(SynPacket(plan.id), random));
  }

  /** The server of interest: its SYN-ACK is the first packet of its log. */
  lemma OursKeepsSocket(plan: Plan, logs: Logs, logs': Logs, k: Socket, random: u16)
    requires SocketClean(plan, logs, plan.serverAddr, k) && logs'.Extends(logs)
    requires k.synsTaken < |k.router.syns| && k.router.syns[k.synsTaken] == (SynPacket(plan.id), plan.clientAddr)
    requires k.Accept(random).result.AcceptOk? ==> SynAckPacket(SynPacket(plan.id), random) in logs'.server
    ensures var k' := k.Apply(k.Accept(random));
            SocketClean(plan, logs', plan.serverAddr, k') && k.router.boxes <= k'.router.boxes
  {
    QueueGrows(plan, logs, logs', plan.serverAddr, k.sender);
    if k.Accept(random).result.AcceptOk? {
      SynAckWired(plan, logs', random);
    }
    AcceptKeepsSocket(plan, logs', plan.serverAddr, k, random);
  }

  lemma OursShape(plan: Plan, w: World, addr: SocketAddr, random: u16)
    requires addr in w.sockets && TakesOurs(plan, w, addr) && SynsWired(plan, w.sockets[addr].router.syns)
    ensures var k := w.sockets[addr];
            var w' := WorldStep(plan, w, Accepts(addr, random));
            && k.router.syns[k.synsTaken] == (SynPacket(plan.id), plan.clientAddr)
            && w'.sockets == w.sockets[addr := k.Apply(k.Accept(random))] && w'.net == w.net && w'.client == w.client
            && w'.server == (if k.Accept(random).result.AcceptOk?
                             then Live(|k.router.boxes|, ServerEndpoint(plan.id, random, plan.clientAddr))
                             else w.server)
  {
  }

  lemma OursRouted(plan: Plan, w: World, w': World, k: Socket, random: u16)
    requires Routed(plan, w, Client) && Routed(plan, w, Server) && k == w.sockets[plan.serverAddr]
    requires k.router.boxes <= k.Apply(k.Accept(random)).router.boxes
    requires k.synsTaken < |k.router.syns| && k.router.syns[k.synsTaken] == (SynPacket(plan.id), plan.clientAddr)
    requires w'.sockets == w.sockets[plan.serverAddr := k.Apply(k.Accept(random))] && w'.client == w.client
    requires w'.server == if k.Accept(random).result.AcceptOk?
                          then Live(|k.router.boxes|, ServerEndpoint(plan.id, random, plan.clientAddr)) else w.server
    ensures Routed(plan, w', Client) && Routed(plan, w', Server) && ClientMail(plan, w') == ClientMail(plan, w)
  {
    MoreBoxes(plan, w, plan.serverAddr, k.Apply(k.Accept(random)));
    KeptRouted(plan, w, plan.serverAddr, k.Apply(k.Accept(random)), Client);
    KeptRouted(plan, w, plan.serverAddr, k.Apply(k.Accept(random)), Server);
    assert plan.Addr(Client) == plan.clientAddr && w.At(Client) == w.client;
  }

  lemma OursCleans(plan: Plan, w: World, w': World, k: Socket, random: u16, strays: iset<Packet>)
    requires Clean(plan, w, strays) && plan.serverAddr in w.sockets && k == w.sockets[plan.serverAddr]
    requires !w.client.Absent? && w.server.Absent? && SynAckFirst(plan, w)
    requires k.synsTaken < |k.router.syns| && k.router.syns[k.synsTaken] == (SynPacket(plan.id), plan.clientAddr)
    requires w'.sockets == w.sockets[plan.serverAddr := k.Apply(k.Accept(random))] && w'.net == w.net
    requires w'.client == w.client
    requires w'.server == if k.Accept(random).result.AcceptOk?
                          then Live(|k.router.boxes|, ServerEndpoint(plan.id, random, plan.clientAddr)) else w.server
    ensures Clean(plan, w', strays) && ClientMail(plan, w') == ClientMail(plan, w) == []
  {
    OursKeepsSocket(plan, LogsOf(w, strays), LogsOf(w', strays), k, random);
    OursRouted(plan, w, w', k, random);
    SocketStep(plan, w, w', plan.serverAddr, k.Apply(k.Accept(random)), strays);
  }

  lemma AcceptKeepsOurs(plan: Plan, w: World, addr: SocketAddr, random: u16, strays: iset<Packet>)
    requires Clean(plan, w, strays) && addr in w.sockets && TakesOurs(plan, w, addr) && SynAckFirst(plan, w)
    ensures Clean(plan, WorldStep(plan, w, Accepts(addr, random)), strays)
    ensures var w' := WorldStep(plan, w, Accepts(addr, random));
            && w'.client == w.client && ClientMail(plan, w') == ClientMail(plan, w) == []
            && (w'.server == w.server
                || w'.server == Live(|w.sockets[addr].router.boxes|, ServerEndpoint(plan.id, random, plan.clientAddr)))
  {
    var k := w.sockets[addr];
    assert SocketClean(plan, LogsOf(w, strays), addr, k);
    OursShape(plan, w, addr, random);
    OursCleans(plan, w, WorldStep(plan, w, Accepts(addr, random)), k, random, strays);
  }

  /** What a stream hands to the socket is its own. */
  lemma NewItemsKnown(st: StreamState, st': StreamState, to: SocketAddr)
    requires SendsOn(st, st')
    ensures forall item <- NewItems(st, st', to) ::
              item.0 in st'.outgoing && OfStream(item.0, st.connectionIdSend) && item.1 == to
  {
    var items := NewItems(st, st', to);
    forall item <- items
      ensures item.0 in st'.outgoing && OfStream(item.0, st.connectionIdSend) && item.1 == to
    {
      var i :| 0 <= i < |items| && items[i] == item;
      assert item.0 == st'.outgoing[|st.outgoing| + i] && item.0 in st'.outgoing[|st.outgoing|..];
    }
  }

  lemma PollItemsWired(plan: Plan, logs: Logs, st: StreamState, st': StreamState, side: Side)
    requires SendsOn(st, st') && st.connectionIdSend == plan.SendId(side) && logs.At(side) == st'.outgoing
    ensures forall item <- NewItems(st, st', plan.Addr(side.Other())) ::
              Wired(plan, logs, plan.Addr(side), item.0, item.1)
  {
    var items := NewItems(st, st', plan.Addr(side.Other()));
    NewItemsKnown(st, st', plan.Addr(side.Other()));
    forall item <- items
      ensures Wired(plan, logs, plan.Addr(side), item.0, item.1)
    {
      ItemWired(plan, logs, side, item.0);
    }
  }

  lemma DoSendsOn(e: Endpoint, op: Op)
    ensures SendsOn(e.st, Endpoints.Do(e, op).st)
  {
    DoPerforms(e, op);
    PerformSendsOn(e.st, op);
  }

  /** All that a poll changes. */
  lemma PollShape(plan: Plan, w: World, side: Side, op: Op)
    requires WorldEnabled(plan, w, StreamPolled(side, op))
    ensures var w', e := WorldStep(plan, w, StreamPolled(side, op)), w.At(side).endpoint;
            && w'.At(side) == w.At(side).(endpoint := Endpoints.Do(e, op))
            && w'.At(side.Other()) == w.At(side.Other()) && w'.net == w.net && w'.others == w.others
            && w'.sockets == w.sockets[plan.Addr(side) := w.sockets[plan.Addr(side)].Queue(
                                         NewItems(e.st, Endpoints.Do(e, op).st, plan.Addr(side.Other())))]
  {
  }

  lemma PolledSocketClean(plan: Plan, logs: Logs, logs': Logs, k: Socket, st: StreamState, st': StreamState, side: Side)
    requires SocketClean(plan, logs, plan.Addr(side), k) && logs'.Extends(logs)
    requires SendsOn(st, st') && st.connectionIdSend == plan.SendId(side) && logs'.At(side) == st'.outgoing
    ensures SocketClean(plan, logs', plan.Addr(side), k.Queue(NewItems(st, st', plan.Addr(side.Other()))))
  {
    PollItemsWired(plan, logs', st, st', side);
    QueueGrows(plan, logs, logs', plan.Addr(side), k.sender);
    QueueMore(plan, logs', plan.Addr(side), k, NewItems(st, st', plan.Addr(side.Other())));
  }

  lemma PolledRouted(plan: Plan, w: World, w': World, side: Side, e': Endpoint, other: Side, k: Socket)
    requires Routed(plan, w, other) && w.At(side).Live? && SendsOn(w.At(side).endpoint.st, e'.st)
    requires w'.At(side) == w.At(side).(endpoint := e') && w'.At(side.Other()) == w.At(side.Other())
    requires KeepsMine(plan, w, plan.Addr(side), k) && w'.sockets == w.sockets[plan.Addr(side) := k]
    ensures Routed(plan, w', other)
  {
    KeptRouted(plan, w, plan.Addr(side), k, other);
    assert other == side || other == side.Other();
  }

  /** The stream of `side` has gone on to `e'` and handed what it sent to its socket, which is now `k`. */
  ghost predicate Polled(plan: Plan, w: World, w': World, side: Side, e': Endpoint, k: Socket) {
    && w.At(side).Live? && plan.Addr(side) in w.sockets && SendsOn(w.At(side).endpoint.st, e'.st)
    && w'.At(side) == w.At(side).(endpoint := e') && w'.At(side.Other()) == w.At(side.Other()) && w'.net == w.net
    && k == w.sockets[plan.Addr(side)].Queue(NewItems(w.At(side).endpoint.st, e'.st, plan.Addr(side.Other())))
    && w'.sockets == w.sockets[plan.Addr(side) := k]
  }

  lemma PolledLogs(plan: Plan, w: World, w': World, side: Side, e': Endpoint, k: Socket, strays: iset<Packet>)
    requires Polled(plan, w, w', side, e', k)
    ensures LogsOf(w', strays).At(side) == e'.st.outgoing && LogsOf(w', strays).Extends(LogsOf(w, strays))
    ensures Ordered(w) ==> Ordered(w')
  {
  }

  lemma PolledMail(plan: Plan, w: World, w': World, side: Side, e': Endpoint, k: Socket)
    requires Polled(plan, w, w', side, e', k) && KeepsMine(plan, w, plan.Addr(side), k)
    ensures ClientMail(plan, w') == ClientMail(plan, w)
  {
    assert plan.Addr(Client) == plan.clientAddr && w.At(Client) == w.client;
  }

  lemma PollCleans(plan: Plan, w: World, w': World, side: Side, e': Endpoint, k: Socket, strays: iset<Packet>)
    requires Clean(plan, w, strays) && Polled(plan, w, w', side, e', k)
    ensures Clean(plan, w', strays) && ClientMail(plan, w') == ClientMail(plan, w)
  {
    assert Routed(plan, w, side);
    var addr := plan.Addr(side);
    PolledLogs(plan, w, w', side, e', k, strays);
    assert SocketClean(plan, LogsOf(w, strays), addr, w.sockets[addr]);
    PolledSocketClean(plan, LogsOf(w, strays), LogsOf(w', strays), w.sockets[addr], w.At(side).endpoint.st, e'.st, side);
    MoreBoxes(plan, w, addr, k);
    PolledRouted(plan, w, w', side, e', Client, k);
    PolledRouted(plan, w, w', side, e', Server, k);
    PolledMail(plan, w, w', side, e', k);
    SocketStep(plan, w, w', addr, k, strays);
  }

  lemma PollKeepsClean(plan: Plan, w: World, side: Side, op: Op, strays: iset<Packet>)
    requires Clean(plan, w, strays) && WorldEnabled(plan, w, StreamPolled(side, op))
    ensures Clean(plan, WorldStep(plan, w, StreamPolled(side, op)), strays)
    ensures ClientMail(plan, WorldStep(plan, w, StreamPolled(side, op))) == ClientMail(plan, w)
  {
    PollShape(plan, w, side, op);
    DoSendsOn(w.At(side).endpoint, op);
    var w', e' := WorldStep(plan, w, StreamPolled(side, op)), Endpoints.Do(w.At(side).endpoint, op);
    PollCleans(plan, w, w', side, e', w'.sockets[plan.Addr(side)], strays);
  }

  lemma ReplyShape(plan: Plan, w: World)
    requires WorldEnabled(plan, w, ReplyTaken)
    ensures var w' := WorldStep(plan, w, ReplyTaken);
            && w.client.Connecting? && plan.clientAddr in w.sockets && ClientMail(plan, w) != []
            && w' == w.(client := Live(w.client.mailbox, w'.client.endpoint))
            && w'.client.endpoint
               == Fresh(Connected(plan.id, plan.serverAddr, ClientMail(plan, w)[0]).(mailbox := ClientMail(plan, w)[1..]),
                        FIRST_SEQ_NUMBER)
  {
  }

  lemma ConnectedKeepsClean(plan: Plan, w: World, w': World, strays: iset<Packet>)
    requires Clean(plan, w, strays) && w.client.Connecting? && w'.client.Live? && w.server.Live?
    requires w' == w.(client := Live(w.client.mailbox, w'.client.endpoint))
    requires w'.client.endpoint.st.connectionIdSend == plan.SendId(Client)
    ensures Clean(plan, w', strays)
  {
    var k := w.sockets[plan.clientAddr];
    assert SocketClean(plan, LogsOf(w, strays), plan.clientAddr, k);
    QueueGrows(plan, LogsOf(w, strays), LogsOf(w', strays), plan.clientAddr, k.sender);
    assert w'.sockets == w.sockets[plan.clientAddr := k];
    SocketStep(plan, w, w', plan.clientAddr, k, strays);
  }

  lemma ReplyKeepsClean(plan: Plan, w: World, strays: iset<Packet>)
    requires Clean(plan, w, strays) && SynAckFirst(plan, w) && WorldEnabled(plan, w, ReplyTaken)
    ensures Clean(plan, WorldStep(plan, w, ReplyTaken), strays)
  {
    ReplyShape(plan, w);
    ConnectedKeepsClean(plan, w, WorldStep(plan, w, ReplyTaken), strays);
  }

  lemma OtherItemsWired(plan: Plan, logs: Logs, w: World, slot: Slot, st': StreamState)
    requires Separate(plan, w, logs.strays) && slot in w.others && SendsOn(w.others[slot], st')
    ensures forall item <- NewItems(w.others[slot], st', w.others[slot].remoteAddr) ::
              Wired(plan, logs, slot.0, item.0, item.1)
  {
    var items := NewItems(w.others[slot], st', w.others[slot].remoteAddr);
    NewItemsKnown(w.others[slot], st', w.others[slot].remoteAddr);
    forall item <- items
      ensures Wired(plan, logs, slot.0, item.0, item.1)
    {
      OtherWired(plan, logs, w, slot, item.0);
    }
  }

  lemma OtherPollKeepsClean(plan: Plan, w: World, ev: WorldEvent, strays: iset<Packet>)
    requires ev.OtherPolled? && Clean(plan, w, strays) && Separate(plan, w, strays) && WorldEnabled(plan, w, ev)
    ensures Clean(plan, WorldStep(plan, w, ev), strays) && Aside(plan, w, WorldStep(plan, w, ev))
  {
    var k, slot := w.sockets[ev.addr], (ev.addr, ev.mailbox);
    var st := w.others[slot];
    var items := NewItems(st, Perform(st, ev.op), st.remoteAddr);
    PerformSendsOn(st, ev.op);
    OtherItemsWired(plan, LogsOf(w, strays), w, slot, Perform(st, ev.op));
    assert SocketClean(plan, LogsOf(w, strays), ev.addr, k);
    QueueMore(plan, LogsOf(w, strays), ev.addr, k, items);
    MoreBoxes(plan, w, ev.addr, k.Queue(items));
    OtherStep(plan, w, WorldStep(plan, w, ev), ev.addr, k.Queue(items), strays);
  }

  lemma DropKeepsMine(plan: Plan, w: World, addr: SocketAddr, m: nat)
    requires Routed(plan, w, Client) && Routed(plan, w, Server) && addr in w.sockets && !Mine(plan, w, addr, m)
    ensures KeepsMine(plan, w, addr, w.sockets[addr].(router := DropStream(w.sockets[addr].router, m)))
  {
    var k' := w.sockets[addr].(router := DropStream(w.sockets[addr].router, m));
    forall side: Side | addr == plan.Addr(side) && !w.At(side).Absent?
      ensures Holds(plan, side, k', w.At(side).mailbox)
      ensures k'.Mail(w.At(side).mailbox) == w.sockets[addr].Mail(w.At(side).mailbox)
    {
      assert Routed(plan, w, side);
    }
  }

  lemma DropKeepsClean(plan: Plan, w: World, ev: WorldEvent, strays: iset<Packet>)
    requires ev.OtherDropped? && Clean(plan, w, strays) && WorldEnabled(plan, w, ev)
    ensures Clean(plan, WorldStep(plan, w, ev), strays) && Aside(plan, w, WorldStep(plan, w, ev))
  {
    var k := w.sockets[ev.addr];
    var k' := k.(router := DropStream(k.router, ev.mailbox));
    assert SocketClean(plan, LogsOf(w, strays), ev.addr, k);
    DropIsolated(k.router, ev.mailbox);
    DropKeepsMine(plan, w, ev.addr, ev.mailbox);
    OtherStep(plan, w, WorldStep(plan, w, ev), ev.addr, k', strays);
  }

  // ---------------------------------------------------------------------------------------
  // The sending task and the network
  // ---------------------------------------------------------------------------------------

  lemma SentWasQueued(all: seq<Item>, k: nat)
    requires k <= |all|
    ensures forall d <- ToDatagrams(all[..k]) :: exists item :: item in all && d == ToDatagram(item)
  {
    var sent := ToDatagrams(all[..k]);
    forall d <- sent
      ensures exists item :: item in all && d == ToDatagram(item)
    {
      var i :| 0 <= i < |sent| && sent[i] == d;
      assert all[..k][i] in all;
    }
  }

  /** What the sending task puts on the wire was in its queues, and the rest stays there. */
  lemma SenderMoves(st: SenderState, alive: bool, results: seq<SendResult>)
    ensures var st' := PollSender(st, alive, results);
            && st.wire <= st'.wire
            && (forall d <- st'.wire[|st.wire|..] ::
                  exists item :: item in st.buffer + st.channel && d == ToDatagram(item))
            && (forall item <- st'.buffer + st'.channel :: item in st.buffer + st.channel)
  {
    var all := st.buffer + st.channel;
    var st' := PollSender(st, alive, results);
    if alive && !st.closed {
      var k := SentCount(|all|, results);
      SentWasQueued(all, k);
      assert st'.wire[|st.wire|..] == ToDatagrams(all[..k]);
      assert st'.buffer + st'.channel == all[k..];
    } else {
      assert st'.wire[|st.wire|..] == [];
      assert st'.buffer + st'.channel == all;
    }
  }

  lemma FramesWired(plan: Plan, logs: Logs, addr: SocketAddr, st: SenderState, alive: bool, results: seq<SendResult>)
    requires QueueWired(plan, logs, addr, st)
    ensures QueueWired(plan, logs, addr, PollSender(st, alive, results))
    ensures forall f <- NewFrames(addr, st, PollSender(st, alive, results)) :: FrameWired(plan, logs, f)
  {
    SenderMoves(st, alive, results);
    var frames := NewFrames(addr, st, PollSender(st, alive, results));
    forall f <- frames
      ensures FrameWired(plan, logs, f)
    {
      var item :| item in st.buffer + st.channel && ToDatagram(item) == Datagram(f.bytes, f.to);
      assert f.bytes == Print(item.0) && Wired(plan, logs, f.from, item.0, f.to);
    }
  }

  lemma NetMore(plan: Plan, w: World, frames: set<Frame>, strays: iset<Packet>)
    requires Clean(plan, w, strays) && forall f <- frames | f.from in w.sockets :: FrameWired(plan, LogsOf(w, strays), f)
    ensures Clean(plan, w.(net := w.net + frames), strays)
  {
  }

  lemma SenderPollKeepsClean(plan: Plan, w: World, ev: WorldEvent, strays: iset<Packet>)
    requires ev.SenderPolled? && Clean(plan, w, strays) && WorldEnabled(plan, w, ev)
    ensures Clean(plan, WorldStep(plan, w, ev), strays) && Aside(plan, w, WorldStep(plan, w, ev))
  {
    var k, w' := w.sockets[ev.addr], WorldStep(plan, w, ev);
    var k' := k.(sender := PollSender(k.sender, ev.alive, ev.results));
    assert SocketClean(plan, LogsOf(w, strays), ev.addr, k);
    FramesWired(plan, LogsOf(w, strays), ev.addr, k.sender, ev.alive, ev.results);
    MoreBoxes(plan, w, ev.addr, k');
    OtherStep(plan, w, w.With(ev.addr, k'), ev.addr, k', strays);
    NetMore(plan, w.With(ev.addr, k'), NewFrames(ev.addr, k.sender, k'.sender), strays);
  }

  // ---------------------------------------------------------------------------------------
  // Arrivals
  // ---------------------------------------------------------------------------------------

  /** A socket's packet is read off its datagram unaltered. */
  lemma ParseWired(plan: Plan, logs: Logs, f: Frame, p: Packet)
    requires FrameWired(plan, logs, f) && ParsePacket(Received(f.bytes)) == Ok(p)
    ensures Wired(plan, logs, f.from, p, f.to)
  {
    var q :| f.bytes == Print(q) && Wired(plan, logs, f.from, q, f.to);
    SendableFits(q);
  }

  predicate MailFor(key: Key, f: Frame, p: Packet) {
    ParsePacket(Received(f.bytes)) == Ok(p) && p.packetType != Syn && (p.connectionId, f.from) == key
  }

  /** What reading a datagram puts in an open mailbox: nothing, or the packet in it, if that is valid,
      no SYN, and bears the mailbox's key. */
  lemma MailboxAfterRead(k: Socket, f: Frame, m: nat)
    requires Isolated(k.router) && k.IsOpen(m)
    ensures var k', key := ReadFrom(k, f), k.router.boxes[m].key;
            && k'.IsOpen(m) && k'.router.boxes[m].key == key
            && k'.router.boxes[m].registered == k.router.boxes[m].registered
            && (|| k'.Mail(m) == k.Mail(m)
                || exists p :: k'.Mail(m) == k.Mail(m) + [p] && MailFor(key, f, p))
  {
    var parsed := ParsePacket(Received(f.bytes));
    if parsed.Ok? && parsed.value.packetType != Syn {
      RoutedByKey(k.router, parsed.value, f.from, m);
      assert (parsed.value.connectionId, f.from) == k.router.boxes[m].key ==> MailFor(k.router.boxes[m].key, f, parsed.value);
    }
  }

  /** Only a valid packet other than a SYN, with the mailbox's key, is mailed, and then unaltered. */
  lemma MailedByKey(plan: Plan, w: World, side: Side, f: Frame)
    requires Routed(plan, w, side) && Isolated(w.sockets[plan.Addr(side)].router) && !w.At(side).Absent?
    ensures var mail, m, addr := Mailed(plan, w, side, f), w.At(side).mailbox, plan.Addr(side);
            && (mail.Some? ==> f.to == addr && MailFor(plan.Key(side), f, mail.value))
            && (f.to == addr ==>
                  && Holds(plan, side, ReadFrom(w.sockets[addr], f), m)
                  && ReadFrom(w.sockets[addr], f).Mail(m)
                     == w.sockets[addr].Mail(m) + (if mail.Some? then [mail.value] else []))
  {
    if f.to == plan.Addr(side) {
      MailboxAfterRead(w.sockets[f.to], f, w.At(side).mailbox);
    }
  }

  /** Datagram level to packet level: whatever lands in the mailbox of a stream of interest was sent
      by its peer's stream, unaltered, or was left over. */
  lemma MailComesFromPeer(plan: Plan, w: World, side: Side, f: Frame, strays: iset<Packet>)
    requires Clean(plan, w, strays) && f in w.net && Mailed(plan, w, side, f).Some?
    ensures var p := Mailed(plan, w, side, f).value;
            && (p in w.At(side.Other()).Log() || p in strays)
            && OfStream(p, plan.RecvId(side))
  {
    assert Routed(plan, w, side) && Routed(plan, w, side.Other());
    MailedByKey(plan, w, side, f);
    var p := Mailed(plan, w, side, f).value;
    ParseWired(plan, LogsOf(w, strays), f, p);
    assert side.Other().Other() == side;
    assert Under(plan, side.Other(), f.from, p, f.to);
  }

  lemma KeysDiffer(plan: Plan, f: Frame, p: Packet, q: Packet)
    requires MailFor(plan.Key(Client), f, p)
    ensures !MailFor(plan.Key(Server), f, q)
  {
    assert plan.RecvId(Client) != plan.RecvId(Server);
  }

  /** No packet lands in both. */
  lemma MailedToOne(plan: Plan, w: World, f: Frame, mail: Option<Packet>, mail': Option<Packet>, strays: iset<Packet>)
    requires Clean(plan, w, strays) && mail == Mailed(plan, w, Client, f) && mail' == Mailed(plan, w, Server, f)
    ensures mail.None? || mail'.None?
  {
    if mail.Some? && mail'.Some? {
      MailedByKey(plan, w, Client, f);
      MailedByKey(plan, w, Server, f);
      KeysDiffer(plan, f, mail.value, mail'.value);
    }
  }

  lemma ReadDispatches(k: Socket, f: Frame)
    ensures ReadFrom(k, f).router == match ParsePacket(Received(f.bytes))
                                     case Err(_) => k.router
                                     case Ok(p) => Dispatch(k.router, p, f.from)
  {
  }

  lemma DispatchKeepsSyns(plan: Plan, r: Router, p: Packet, from: SocketAddr)
    requires SynsWired(plan, r.syns)
    requires from == plan.clientAddr && p.packetType == Syn ==> p == SynPacket(p.connectionId)
    ensures SynsWired(plan, Dispatch(r, p, from).syns)
  {
  }

  lemma ReadKeepsSyns(plan: Plan, logs: Logs, k: Socket, f: Frame)
    requires SynsWired(plan, k.router.syns) && (f.from == plan.clientAddr ==> FrameWired(plan, logs, f))
    ensures SynsWired(plan, ReadFrom(k, f).router.syns)
  {
    var parsed := ParsePacket(Received(f.bytes));
    ReadDispatches(k, f);
    if parsed.Ok? {
      if f.from == plan.clientAddr {
        ParseWired(plan, logs, f, parsed.value);
      }
      DispatchKeepsSyns(plan, k.router, parsed.value, f.from);
    }
  }

  lemma ReadKeepsSocket(plan: Plan, logs: Logs, k: Socket, f: Frame)
    requires SocketClean(plan, logs, f.to, k) && (f.from == plan.clientAddr ==> FrameWired(plan, logs, f))
    ensures SocketClean(plan, logs, f.to, ReadFrom(k, f))
  {
    ReceiveIsolated(k.router, Arrived(f.bytes, f.from, false));
    ReadKeepsSyns(plan, logs, k, f);
  }

  lemma NoticeKeeps(party: Party, mail: Option<Packet>)
    ensures var party' := Notice(party, mail);
            && party'.Log() == party.Log() && party'.Absent? == party.Absent? && party'.Live? == party.Live?
            && (!party.Absent? ==> party'.mailbox == party.mailbox)
            && (!party.Live? ==> party' == party)
            && (party.Live? ==> party'.endpoint.st.connectionIdSend == party.endpoint.st.connectionIdSend)
  {
  }

  /** All that an arrival changes. */
  lemma ArrivalShape(plan: Plan, w: World, f: Frame)
    requires WorldEnabled(plan, w, DatagramArrives(f))
    ensures var w' := WorldStep(plan, w, DatagramArrives(f));
            && w'.sockets == w.sockets[f.to := ReadFrom(w.sockets[f.to], f)] && w'.net == w.net
            && w'.client == Notice(w.client, Mailed(plan, w, Client, f))
            && w'.server == Notice(w.server, Mailed(plan, w, Server, f))
            && w'.others == HearsAll(w.others, f.to, w.sockets[f.to], ReadFrom(w.sockets[f.to], f))
  {
  }

  lemma ArrivalKeepsRouted(plan: Plan, w: World, w': World, f: Frame, side: Side, strays: iset<Packet>)
    requires Routed(plan, w, side) && SocketsClean(plan, LogsOf(w, strays), w.sockets) && f.to in w.sockets
    requires w'.sockets == w.sockets[f.to := ReadFrom(w.sockets[f.to], f)]
    requires w'.At(side).Absent? == w.At(side).Absent?
    requires !w.At(side).Absent? ==> w'.At(side).mailbox == w.At(side).mailbox
    requires w'.At(side).Live? ==> w'.At(side).endpoint.st.connectionIdSend == plan.SendId(side)
    ensures Routed(plan, w', side)
  {
    if !w.At(side).Absent? {
      MailedByKey(plan, w, side, f);
    }
  }

  predicate SameParty(party: Party, party': Party) {
    && party'.Absent? == party.Absent? && party'.Live? == party.Live?
    && (!party.Absent? ==> party'.mailbox == party.mailbox)
    && (party.Live? ==> party'.endpoint.st.connectionIdSend == party.endpoint.st.connectionIdSend)
  }

  /** The parties of `w'` are those of `w`, but for what came for them. */
  predicate SameParties(w: World, w': World) {
    && w'.client.Log() == w.client.Log() && w'.server.Log() == w.server.Log()
    && SameParty(w.client, w'.client) && SameParty(w.server, w'.server)
  }

  lemma NoticesKeep(w: World, w': World, mail: Option<Packet>, mail': Option<Packet>)
    requires w'.client == Notice(w.client, mail) && w'.server == Notice(w.server, mail')
    ensures SameParties(w, w')
  {
    NoticeKeeps(w.client, mail);
    NoticeKeeps(w.server, mail');
  }

  lemma ArrivalCleans(plan: Plan, w: World, w': World, f: Frame, strays: iset<Packet>)
    requires Clean(plan, w, strays) && f in w.net && f.to in w.sockets && SameParties(w, w')
    requires w'.sockets == w.sockets[f.to := ReadFrom(w.sockets[f.to], f)] && w'.net == w.net
    ensures Clean(plan, w', strays)
  {
    assert LogsOf(w', strays) == LogsOf(w, strays);
    ReadKeepsSocket(plan, LogsOf(w, strays), w.sockets[f.to], f);
    ArrivalKeepsRouted(plan, w, w', f, Client, strays);
    ArrivalKeepsRouted(plan, w, w', f, Server, strays);
    SocketStep(plan, w, w', f.to, ReadFrom(w.sockets[f.to], f), strays);
  }

  lemma ArrivalKeepsClean(plan: Plan, w: World, f: Frame, strays: iset<Packet>)
    requires Clean(plan, w, strays) && WorldEnabled(plan, w, DatagramArrives(f))
    ensures Clean(plan, WorldStep(plan, w, DatagramArrives(f)), strays)
  {
    var w' := WorldStep(plan, w, DatagramArrives(f));
    ArrivalShape(plan, w, f);
    NoticesKeep(w, w', Mailed(plan, w, Client, f), Mailed(plan, w, Server, f));
    ArrivalCleans(plan, w, w', f, strays);
  }
}
