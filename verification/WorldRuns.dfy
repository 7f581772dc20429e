/** Runs at the level of datagrams, built event by event: how a packet gets from one stream to the
    other, and how two hosts get connected. */
module WorldRuns {
  import opened Words
  import opened Packets
  import opened Codec
  import opened Streams
  import opened Filters
  import opened Endpoints
  import opened Handshake
  import opened Transfer
  import opened Outgoing
  import opened Routing
  import opened Listener
  import opened Worlds
  import opened Wiring

  // ---------------------------------------------------------------------------------------
  // Runs that no other connection joins
  // ---------------------------------------------------------------------------------------

  /** The event makes another stream. */
  predicate Joins(plan: Plan, w: World, ev: WorldEvent) {
    match ev
    case Accepts(addr, random) =>
      !TakesOurs(plan, w, addr) && addr in w.sockets && w.sockets[addr].Accept(random).result.AcceptOk?
    case OtherReply(_, _) => true
    case _ => false
  }

  ghost predicate Settled(plan: Plan, w: World, evs: seq<WorldEvent>)
    requires WorldPossible(plan, w, evs)
    decreases |evs|
  {
    && SynAckFirst(plan, w)
    && (evs != [] ==> !Joins(plan, w, evs[0]) && Settled(plan, WorldStep(plan, w, evs[0]), evs[1..]))
  }

  /** A run that no other connection joins, from `w` to `w'`. */
  ghost predicate Path(plan: Plan, w: World, evs: seq<WorldEvent>, w': World) {
    WorldPossible(plan, w, evs) && Settled(plan, w, evs) && WorldAfter(plan, w, evs) == w'
  }

  lemma OneEvent(plan: Plan, w: World, ev: WorldEvent)
    requires WorldEnabled(plan, w, ev) && !Joins(plan, w, ev)
    requires SynAckFirst(plan, w) && SynAckFirst(plan, WorldStep(plan, w, ev))
    ensures Path(plan, w, [ev], WorldStep(plan, w, ev))
  {
    assert [ev][1..] == [];
  }

  lemma {:induction false} Append(plan: Plan, w: World, evs: seq<WorldEvent>, w': World, more: seq<WorldEvent>, w'': World)
    requires Path(plan, w, evs, w') && Path(plan, w', more, w'')
    ensures Path(plan, w, evs + more, w'')
    decreases |evs|
  {
    if evs == [] {
      assert evs + more == more;
    } else {
      Append(plan, WorldStep(plan, w, evs[0]), evs[1..], w', more, w'');
      assert (evs + more)[1..] == evs[1..] + more;
    }
  }

  lemma LivePath(plan: Plan, w: World, ev: WorldEvent)
    requires WorldEnabled(plan, w, ev) && !Joins(plan, w, ev) && w.client.Live? && WorldStep(plan, w, ev).client.Live?
    ensures Path(plan, w, [ev], WorldStep(plan, w, ev))
  {
    OneEvent(plan, w, ev);
  }

  // ---------------------------------------------------------------------------------------
  // Hosts
  // ---------------------------------------------------------------------------------------

  /** A socket whose two tasks run. */
  ghost predicate Ready(w: World, addr: SocketAddr) {
    && addr in w.sockets
    && w.sockets[addr].Running() && !w.sockets[addr].router.stopped && Isolated(w.sockets[addr].router)
  }

  ghost predicate Hosts(plan: Plan, w: World) {
    && Ready(w, plan.clientAddr) && Ready(w, plan.serverAddr)
    && Routed(plan, w, Client) && Routed(plan, w, Server)
  }

  /** A mailbox of interest stays one. */
  predicate KeepsMailboxes(w: World, w': World) {
    && (!w.client.Absent? ==> !w'.client.Absent? && w'.client.mailbox == w.client.mailbox)
    && (!w.server.Absent? ==> !w'.server.Absent? && w'.server.mailbox == w.server.mailbox)
  }

  /** What was queued is queued still, or under way. */
  ghost predicate KeepsQueued(w: World, w': World) {
    forall addr, item :: Queued(w, addr, item) ==> Queued(w', addr, item) || Frame(addr, item.1, Print(item.0)) in w'.net
  }

  predicate SameButMail(st: StreamState, st': StreamState) {
    st' == st.(mailbox := st'.mailbox)
  }

  /** The other streams are as they were, but for what has come for them, and what is queued or on the
      wire can still arrive. */
  ghost predicate Retains(w: World, w': World) {
    && w.net <= w'.net && KeepsQueued(w, w')
    && forall slot <- w.others :: slot in w'.others && SameButMail(w.others[slot], w'.others[slot])
  }

  lemma RetainsTwice(w: World, w': World, w'': World)
    requires Retains(w, w') && Retains(w', w'')
    ensures Retains(w, w'')
  {
  }

  /** Only queues and the network differ. */
  ghost predicate SameHosts(w: World, w': World) {
    && w'.client == w.client && w'.server == w.server && w'.others == w.others
    && w'.sockets.Keys == w.sockets.Keys && w.net <= w'.net
    && forall addr <- w.sockets ::
         && w'.sockets[addr].router == w.sockets[addr].router
         && w'.sockets[addr].synsTaken == w.sockets[addr].synsTaken
         && w'.sockets[addr].Running() == w.sockets[addr].Running()
  }

  lemma SameHostsKeeps(plan: Plan, w: World, w': World)
    requires SameHosts(w, w') && Hosts(plan, w)
    ensures Hosts(plan, w') && (KeepsQueued(w, w') ==> Retains(w, w')) && ClientMail(plan, w') == ClientMail(plan, w)
    ensures SynAckFirst(plan, w) ==> SynAckFirst(plan, w')
  {
  }

  // ---------------------------------------------------------------------------------------
  // Carrying one packet
  // ---------------------------------------------------------------------------------------

  function Successful(n: nat): seq<SendResult> {
    seq(n, _ => SendOk)
  }

  lemma {:induction false} AllSent(n: nat)
    ensures SentCount(n, Successful(n)) == n
  {
    if n > 0 {
      AllSent(n - 1);
      assert Successful(n)[1..] == Successful(n - 1);
    }
  }

  /** The sending task of a socket sends all it has. */
  lemma SendsAll(addr: SocketAddr, st: SenderState)
    requires !st.closed
    ensures var st' := PollSender(st, true, Successful(|st.buffer + st.channel|));
            && st'.finished == st.finished && st'.closed == st.closed
            && forall item <- st.buffer + st.channel :: Frame(addr, item.1, Print(item.0)) in NewFrames(addr, st, st')
  {
    var all := st.buffer + st.channel;
    var st' := PollSender(st, true, Successful(|all|));
    AllSent(|all|);
    assert all[..|all|] == all && st'.wire == st.wire + ToDatagrams(all);
    assert st'.wire[|st.wire|..] == ToDatagrams(all);
    forall item <- all
      ensures Frame(addr, item.1, Print(item.0)) in NewFrames(addr, st, st')
    {
      var i :| 0 <= i < |all| && all[i] == item;
      assert ToDatagrams(all)[i] == Datagram(Print(item.0), item.1);
      assert Datagram(Print(item.0), item.1) in st'.wire[|st.wire|..];
    }
  }

  lemma PushedHosts(w: World, w': World, addr: SocketAddr, sender: SenderState)
    requires addr in w.sockets && w'.sockets == w.sockets[addr := w.sockets[addr].(sender := sender)]
    requires sender.finished == w.sockets[addr].sender.finished && sender.closed == w.sockets[addr].sender.closed
    requires w'.client == w.client && w'.server == w.server && w'.others == w.others && w.net <= w'.net
    ensures SameHosts(w, w')
  {
  }

  lemma PushedQueues(w: World, w': World, addr: SocketAddr, sender: SenderState)
    requires addr in w.sockets && w'.sockets == w.sockets[addr := w.sockets[addr].(sender := sender)]
    requires forall item :: Queued(w, addr, item) ==> Frame(addr, item.1, Print(item.0)) in w'.net
    ensures KeepsQueued(w, w')
  {
  }

  /** The sending task at `addr` sends all that is queued there. */
  lemma Push(plan: Plan, w: World, addr: SocketAddr) returns (ev: WorldEvent, w': World)
    requires Hosts(plan, w) && SynAckFirst(plan, w) && Ready(w, addr)
    ensures ev.SenderPolled? && Path(plan, w, [ev], w') && SameHosts(w, w') && KeepsQueued(w, w')
    ensures forall item :: Queued(w, addr, item) ==> Frame(addr, item.1, Print(item.0)) in w'.net
  {
    var st := w.sockets[addr].sender;
    ev := SenderPolled(addr, true, Successful(|st.buffer + st.channel|));
    SendsAll(addr, st);
    w' := WorldStep(plan, w, ev);
    PushedHosts(w, w', addr, w'.sockets[addr].sender);
    PushedQueues(w, w', addr, w'.sockets[addr].sender);
    SameHostsKeeps(plan, w, w');
    OneEvent(plan, w, ev);
  }

  /** Reading a datagram leaves a socket ready, and its mailboxes what they are. */
  ghost predicate Continues(k: Socket, k': Socket) {
    && k'.Running() == k.Running() && k'.router.stopped == k.router.stopped
    && (Isolated(k.router) ==> Isolated(k'.router))
    && k'.synsTaken == k.synsTaken
    && forall m: nat | k.IsOpen(m) ::
         && k'.IsOpen(m) && k'.router.boxes[m].key == k.router.boxes[m].key
         && k'.router.boxes[m].registered == k.router.boxes[m].registered
  }

  /** The parties have the same mailboxes. */
  predicate SameMailboxes(w: World, w': World) {
    KeepsMailboxes(w, w') && w'.client.Absent? == w.client.Absent? && w'.server.Absent? == w.server.Absent?
  }

  /** And send under the same IDs. */
  predicate SameIds(w: World, w': World) {
    forall side: Side :: w'.At(side).Live? ==>
      w.At(side).Live? && w'.At(side).endpoint.st.connectionIdSend == w.At(side).endpoint.st.connectionIdSend
  }

  lemma ContinuesRouted(plan: Plan, w: World, w': World, addr: SocketAddr, k': Socket, side: Side)
    requires Routed(plan, w, side) && addr in w.sockets && w'.sockets == w.sockets[addr := k']
    requires Continues(w.sockets[addr], k') && SameMailboxes(w, w') && SameIds(w, w')
    ensures Routed(plan, w', side)
  {
  }

  lemma ContinuesReady(w: World, w': World, addr: SocketAddr, k': Socket, host: SocketAddr)
    requires Ready(w, host) && addr in w.sockets && w'.sockets == w.sockets[addr := k']
    requires Continues(w.sockets[addr], k')
    ensures Ready(w', host)
  {
  }

  lemma ContinuesKeeps(plan: Plan, w: World, w': World, addr: SocketAddr, k': Socket)
    requires Hosts(plan, w) && addr in w.sockets && w'.sockets == w.sockets[addr := k']
    requires Continues(w.sockets[addr], k') && SameMailboxes(w, w') && SameIds(w, w')
    ensures Hosts(plan, w')
  {
    ContinuesReady(w, w', addr, k', plan.clientAddr);
    ContinuesReady(w, w', addr, k', plan.serverAddr);
    ContinuesRouted(plan, w, w', addr, k', Client);
    ContinuesRouted(plan, w, w', addr, k', Server);
  }

  lemma RoutingContinues(k: Socket, p: Packet, from: SocketAddr)
    requires Isolated(k.router) && p.packetType != Syn
    ensures Continues(k, k.(router := RoutePacket(k.router, p, from)))
  {
    RouteIsolated(k.router, p, from);
    var k' := k.(router := RoutePacket(k.router, p, from));
    forall m: nat | k.IsOpen(m)
      ensures k'.IsOpen(m) && k'.router.boxes[m].key == k.router.boxes[m].key
      ensures k'.router.boxes[m].registered == k.router.boxes[m].registered
    {
      RoutedByKey(k.router, p, from, m);
    }
  }

  lemma ReadsPacket(k: Socket, f: Frame, p: Packet)
    requires Sendable(p) && f.bytes == Print(p)
    ensures ReadFrom(k, f) == k.(router := Dispatch(k.router, p, f.from))
  {
    SendableFits(p);
    ReadDispatches(k, f);
  }

  /** `f` carries `p`, for the mailbox of `side`. */
  ghost predicate Carries(plan: Plan, side: Side, f: Frame, p: Packet) {
    && Sendable(p) && p.packetType != Syn && f.bytes == Print(p)
    && f.to == plan.Addr(side) && (p.connectionId, f.from) == plan.Key(side)
  }

  lemma OtherGetsNothing(plan: Plan, w: World, side: Side, f: Frame, p: Packet)
    requires Hosts(plan, w) && MailFor(plan.Key(side), f, p)
    ensures Mailed(plan, w, side.Other(), f) == None
  {
    var other := side.Other();
    assert Routed(plan, w, other);
    if !w.At(other).Absent? {
      MailedByKey(plan, w, other, f);
      var mail := Mailed(plan, w, other, f);
      if mail.Some? {
        if side == Client {
          KeysDiffer(plan, f, p, mail.value);
        } else {
          KeysDiffer(plan, f, mail.value, p);
        }
      }
    }
  }

  lemma ReadMails(k: Socket, f: Frame, m: nat, p: Packet)
    requires Isolated(k.router) && k.IsOpen(m) && Sendable(p) && p.packetType != Syn && f.bytes == Print(p)
    requires k.router.boxes[m].key == (p.connectionId, f.from)
    ensures Continues(k, ReadFrom(k, f)) && ReadFrom(k, f).Mail(m) == k.Mail(m) + [p]
  {
    ReadsPacket(k, f, p);
    RoutingContinues(k, p, f.from);
    RoutedByKey(k.router, p, f.from, m);
  }

  lemma CarriesMail(plan: Plan, side: Side, f: Frame, p: Packet)
    requires Carries(plan, side, f, p)
    ensures MailFor(plan.Key(side), f, p)
  {
    SendableFits(p);
  }

  lemma MailArrives(plan: Plan, w: World, side: Side, f: Frame, p: Packet)
    requires Hosts(plan, w) && !w.At(side).Absent? && Carries(plan, side, f, p)
    ensures Mailed(plan, w, side, f) == Some(p) && Mailed(plan, w, side.Other(), f) == None
    ensures Continues(w.sockets[f.to], ReadFrom(w.sockets[f.to], f))
    ensures ReadFrom(w.sockets[f.to], f).Mail(w.At(side).mailbox) == w.sockets[f.to].Mail(w.At(side).mailbox) + [p]
  {
    assert Routed(plan, w, side) && Ready(w, f.to);
    ReadMails(w.sockets[f.to], f, w.At(side).mailbox, p);
    CarriesMail(plan, side, f, p);
    OtherGetsNothing(plan, w, side, f, p);
  }

  lemma RerouteKeepsQueued(w: World, w': World, addr: SocketAddr, r: Router)
    requires addr in w.sockets && w'.sockets == w.sockets[addr := w.sockets[addr].(router := r)]
    ensures KeepsQueued(w, w')
  {
  }

  lemma HearsRetains(w: World, w': World, addr: SocketAddr, k: Socket, k': Socket)
    requires w'.others == HearsAll(w.others, addr, k, k') && w.net <= w'.net && KeepsQueued(w, w')
    ensures Retains(w, w')
  {
  }

  lemma ArrivedRetains(w: World, w': World, f: Frame)
    requires f.to in w.sockets && w'.sockets == w.sockets[f.to := ReadFrom(w.sockets[f.to], f)] && w'.net == w.net
    requires w'.others == HearsAll(w.others, f.to, w.sockets[f.to], ReadFrom(w.sockets[f.to], f))
    ensures Retains(w, w')
  {
    RerouteKeepsQueued(w, w', f.to, ReadFrom(w.sockets[f.to], f).router);
    HearsRetains(w, w', f.to, w.sockets[f.to], ReadFrom(w.sockets[f.to], f));
  }

  /** What a datagram for the stream of `side` makes of the parties. */
  lemma ArrivedParties(w: World, w': World, side: Side, p: Packet, mail: Option<Packet>, mail': Option<Packet>)
    requires w'.client == Notice(w.client, mail) && w'.server == Notice(w.server, mail')
    requires mail == (if side == Client then Some(p) else None) && mail' == (if side == Server then Some(p) else None)
    ensures w'.At(side) == Notice(w.At(side), Some(p)) && w'.At(side.Other()) == w.At(side.Other())
    ensures SameMailboxes(w, w') && SameIds(w, w')
  {
    NoticeKeeps(w.At(side), Some(p));
  }

  lemma ArrivedHosts(plan: Plan, w: World, w': World, side: Side, f: Frame, p: Packet)
    requires Hosts(plan, w) && !w.At(side).Absent? && Carries(plan, side, f, p)
    requires w'.sockets == w.sockets[f.to := ReadFrom(w.sockets[f.to], f)]
    requires w'.client == Notice(w.client, Mailed(plan, w, Client, f))
    requires w'.server == Notice(w.server, Mailed(plan, w, Server, f))
    ensures Hosts(plan, w')
    ensures w'.At(side) == Notice(w.At(side), Some(p)) && w'.At(side.Other()) == w.At(side.Other())
  {
    MailArrives(plan, w, side, f, p);
    ArrivedParties(w, w', side, p, Mailed(plan, w, Client, f), Mailed(plan, w, Server, f));
    ContinuesKeeps(plan, w, w', f.to, ReadFrom(w.sockets[f.to], f));
  }

  lemma ArrivedMail(plan: Plan, w: World, w': World, side: Side, f: Frame, p: Packet)
    requires Hosts(plan, w) && !w.At(side).Absent? && Carries(plan, side, f, p)
    requires w'.sockets == w.sockets[f.to := ReadFrom(w.sockets[f.to], f)]
    requires w.At(side).Connecting? && side == Client && w'.client == w.client
    ensures ClientMail(plan, w') == ClientMail(plan, w) + [p]
  {
    MailArrives(plan, w, side, f, p);
    assert w.At(Client) == w.client && plan.Addr(Client) == plan.clientAddr;
  }

  /** A datagram for one of the two streams arrives; a waiting client gets the SYN-ACK first. */
  lemma Arrives(plan: Plan, w: World, side: Side, f: Frame, p: Packet) returns (w': World)
    requires Hosts(plan, w) && SynAckFirst(plan, w) && !w.At(side).Absent?
    requires f in w.net && Carries(plan, side, f, p)
    requires w.At(side).Connecting? ==>
               side == Client && ClientMail(plan, w) == [] && |w.server.Log()| > 0 && p == w.server.Log()[0]
    requires side == Server ==> w.client.Live?
    ensures Path(plan, w, [DatagramArrives(f)], w') && Hosts(plan, w') && Retains(w, w')
    ensures w'.At(side) == Notice(w.At(side), Some(p)) && w'.At(side.Other()) == w.At(side.Other())
    ensures w.At(side).Connecting? ==> ClientMail(plan, w') == [p]
  {
    w' := WorldStep(plan, w, DatagramArrives(f));
    ArrivalShape(plan, w, f);
    ArrivedHosts(plan, w, w', side, f, p);
    if w.At(side).Connecting? {
      ArrivedMail(plan, w, w', side, f, p);
    }
    ArrivedRetains(w, w', f);
    OneEvent(plan, w, DatagramArrives(f));
  }

  lemma FrameCarries(plan: Plan, side: Side, p: Packet)
    requires OfStream(p, plan.SendId(side))
    ensures Carries(plan, side.Other(), FrameOf(plan, side, p), p)
  {
    assert side.Other().Other() == side;
  }

  /** A packet that bears the ID of `side`, wherever it comes from, gets to the peer. */
  lemma GetsThrough(plan: Plan, w: World, side: Side, p: Packet) returns (evs: seq<WorldEvent>, w': World)
    requires Hosts(plan, w) && w.client.Live? && w.server.Live? && UnderWay(plan, w, side, p)
    ensures Path(plan, w, evs, w') && Hosts(plan, w') && Retains(w, w')
    ensures w'.At(side) == w.At(side) && w'.At(side.Other()) == Notice(w.At(side.Other()), Some(p))
  {
    var other, f := side.Other(), FrameOf(plan, side, p);
    assert other.Other() == side && Ready(w, plan.Addr(side));
    var push, w1 := Push(plan, w, plan.Addr(side));
    SameHostsKeeps(plan, w, w1);
    FrameCarries(plan, side, p);
    w' := Arrives(plan, w1, other, f, p);
    Append(plan, w, [push], w1, [DatagramArrives(f)], w');
    RetainsTwice(w, w1, w');
    evs := [push] + [DatagramArrives(f)];
  }

  lemma PollPath(plan: Plan, w: World, side: Side, op: Op) returns (w': World)
    requires Hosts(plan, w) && w.client.Live? && w.At(side).Live? && !op.Receive?
    ensures Path(plan, w, [StreamPolled(side, op)], w')
    ensures w'.At(side) == w.At(side).(endpoint := Endpoints.Do(w.At(side).endpoint, op))
    ensures w'.At(side.Other()) == w.At(side.Other()) && w'.net == w.net && w'.others == w.others
    ensures var e := w.At(side).endpoint;
            w'.sockets == w.sockets[plan.Addr(side) := w.sockets[plan.Addr(side)].Queue(
                                      NewItems(e.st, Endpoints.Do(e, op).st, plan.Addr(side.Other())))]
  {
    assert Ready(w, plan.Addr(side));
    w' := WorldStep(plan, w, StreamPolled(side, op));
    PollShape(plan, w, side, op);
    LivePath(plan, w, StreamPolled(side, op));
  }

  lemma QueueLast(k: Socket, item: Item)
    requires k.Running()
    ensures var k' := k.Queue([item]);
            k'.router == k.router && k'.Running() && item in k'.sender.buffer + k'.sender.channel
  {
    var channel := k.Queue([item]).sender.channel;
    assert channel[|channel| - 1] == item;
  }

  // ---------------------------------------------------------------------------------------
  // Setting up the connection
  // ---------------------------------------------------------------------------------------

  ghost predicate ServerWilling(plan: Plan, w: World) {
    && plan.serverAddr in w.sockets
    && plan.Key(Server) !in w.sockets[plan.serverAddr].router.table
    && w.sockets[plan.serverAddr].synsTaken == |w.sockets[plan.serverAddr].router.syns|
  }

  /** Both hosts can set up the connection: the two table entries are vacant, all tasks run, and no
      other SYN waits at the server. */
  ghost predicate Willing(plan: Plan, w: World) {
    && Ready(w, plan.clientAddr) && Ready(w, plan.serverAddr)
    && plan.Key(Client) !in w.sockets[plan.clientAddr].router.table
    && ServerWilling(plan, w)
  }

  /** The client waits for a reply that has not come. */
  ghost predicate Waits(plan: Plan, w: World) {
    Hosts(plan, w) && w.client.Connecting? && ClientMail(plan, w) == []
  }

  lemma DialSocket(plan: Plan, k: Socket)
    requires Isolated(k.router) && k.Running() && plan.Key(Client) !in k.router.table
    ensures var s := k.Connect(plan.serverAddr, [plan.id]);
            var k' := k.Apply(s);
            && s.result == SynSent(plan.id) && Continues(k, k')
            && k'.router == AddBox(k.router, plan.Key(Client), true)
            && (SynPacket(plan.id), plan.serverAddr) in k'.sender.buffer + k'.sender.channel
  {
    AddBoxIsolated(k.router, plan.Key(Client), true);
    var channel := k.Apply(k.Connect(plan.serverAddr, [plan.id])).sender.channel;
    assert channel[|channel| - 1] == (SynPacket(plan.id), plan.serverAddr);
  }

  /** One side of the connection gets its mailbox, the last one of its socket. */
  ghost predicate Opens(plan: Plan, w: World, w': World, side: Side) {
    var addr := plan.Addr(side);
    && addr in w.sockets && addr in w'.sockets && w.At(side).Absent?
    && w'.sockets == w.sockets[addr := w'.sockets[addr]] && w'.net == w.net && w'.others == w.others
    && w'.At(side.Other()) == w.At(side.Other())
    && (w'.At(side).Live? ==> w'.At(side).endpoint.st.connectionIdSend == plan.SendId(side))
    && !w'.At(side).Absent? && w'.At(side).mailbox == |w.sockets[addr].router.boxes|
    && w'.sockets[addr].router == AddBox(w.sockets[addr].router, plan.Key(side), side == Client)
    && w'.sockets[addr].Running() && Isolated(w'.sockets[addr].router)
    && w.sockets[addr].sender.channel <= w'.sockets[addr].sender.channel
    && w'.sockets[addr].sender.buffer == w.sockets[addr].sender.buffer
  }

  lemma OpensKeepsReady(plan: Plan, w: World, w': World, side: Side, addr: SocketAddr)
    requires Ready(w, addr) && Opens(plan, w, w', side)
    ensures Ready(w', addr)
  {
  }

  lemma OpensKeepsRouted(plan: Plan, w: World, w': World, side: Side, other: Side)
    requires Routed(plan, w, other) && Opens(plan, w, w', side)
    ensures Routed(plan, w', other)
  {
    assert other == side || other == side.Other();
  }

  lemma OpensKeepsHosts(plan: Plan, w: World, w': World, side: Side)
    requires Hosts(plan, w) && Opens(plan, w, w', side)
    ensures Hosts(plan, w')
  {
    OpensKeepsReady(plan, w, w', side, plan.clientAddr);
    OpensKeepsReady(plan, w, w', side, plan.serverAddr);
    OpensKeepsRouted(plan, w, w', side, Client);
    OpensKeepsRouted(plan, w, w', side, Server);
  }

  lemma OpensRetains(plan: Plan, w: World, w': World, side: Side)
    requires Opens(plan, w, w', side)
    ensures Retains(w, w')
  {
  }

  lemma OpensKeepsMail(plan: Plan, w: World, w': World, side: Side)
    requires Hosts(plan, w) && Opens(plan, w, w', side)
    ensures ClientMail(plan, w') == if side == Client then [] else ClientMail(plan, w)
  {
    assert Routed(plan, w, Client);
  }

  lemma DialPath(plan: Plan, w: World, ev: WorldEvent)
    requires ev.Connects? && ev.ours && WorldEnabled(plan, w, ev) && !w.client.Connecting?
    requires ClientMail(plan, WorldStep(plan, w, ev)) == []
    ensures Path(plan, w, [ev], WorldStep(plan, w, ev))
  {
    assert SynAckFirst(plan, w) && SynAckFirst(plan, WorldStep(plan, w, ev));
    OneEvent(plan, w, ev);
  }

  lemma StaysWilling(plan: Plan, w: World, w': World)
    requires ServerWilling(plan, w) && Opens(plan, w, w', Client)
    requires w'.sockets[plan.clientAddr].synsTaken == w.sockets[plan.clientAddr].synsTaken
    ensures ServerWilling(plan, w')
  {
    assert plan.Key(Client) != plan.Key(Server);
  }

  lemma Dial(plan: Plan, w: World) returns (ev: WorldEvent, w': World)
    requires w.client.Absent? && w.server.Absent? && Willing(plan, w)
    ensures Path(plan, w, [ev], w') && Waits(plan, w') && w'.server.Absent?
    ensures ServerWilling(plan, w') && Retains(w, w')
    ensures Queued(w', plan.clientAddr, (SynPacket(plan.id), plan.serverAddr))
  {
    DialSocket(plan, w.sockets[plan.clientAddr]);
    ev := Connects(plan.clientAddr, plan.serverAddr, [plan.id], true);
    w' := WorldStep(plan, w, ev);
    assert Opens(plan, w, w', Client);
    OpensKeepsHosts(plan, w, w', Client);
    OpensKeepsMail(plan, w, w', Client);
    OpensRetains(plan, w, w', Client);
    StaysWilling(plan, w, w');
    DialPath(plan, w, ev);
  }

  /** The SYN of interest is the one that `accept` takes next. */
  ghost predicate Asked(plan: Plan, w: World) {
    && Waits(plan, w) && w.server.Absent? && TakesOurs(plan, w, plan.serverAddr)
    && var k := w.sockets[plan.serverAddr];
       && plan.Key(Server) !in k.router.table
       && k.router.syns[k.synsTaken] == (SynPacket(plan.id), plan.clientAddr)
  }

  lemma SynContinues(k: Socket, syns: seq<(Packet, SocketAddr)>)
    requires Isolated(k.router)
    ensures Continues(k, k.(router := k.router.(syns := syns)))
  {
  }

  lemma SynRead(k: Socket, f: Frame, id: u16)
    requires Isolated(k.router) && f.bytes == Print(SynPacket(id))
    ensures var k' := ReadFrom(k, f);
            && k' == k.(router := k.router.(syns := k.router.syns + [(SynPacket(id), f.from)]))
            && Continues(k, k')
  {
    ReadsPacket(k, f, SynPacket(id));
    SynContinues(k, k.router.syns + [(SynPacket(id), f.from)]);
  }

  lemma SynNotMailed(plan: Plan, w: World, f: Frame, side: Side)
    requires Hosts(plan, w) && f.bytes == Print(SynPacket(plan.id))
    ensures Mailed(plan, w, side, f) == None
  {
    assert Routed(plan, w, side);
    SynRead(w.sockets[plan.Addr(side)], f, plan.id);
  }

  lemma SynArrived(plan: Plan, w: World, w': World, f: Frame)
    requires Waits(plan, w) && w.server.Absent? && ServerWilling(plan, w)
    requires f == Frame(plan.clientAddr, plan.serverAddr, Print(SynPacket(plan.id)))
    requires w'.sockets == w.sockets[f.to := ReadFrom(w.sockets[f.to], f)] && w'.client == w.client && w'.server == w.server
    ensures Asked(plan, w')
  {
    SynRead(w.sockets[f.to], f, plan.id);
    ContinuesKeeps(plan, w, w', f.to, ReadFrom(w.sockets[f.to], f));
  }

  lemma SynArrives(plan: Plan, w: World, f: Frame) returns (w': World)
    requires Waits(plan, w) && w.server.Absent? && ServerWilling(plan, w)
    requires f in w.net && f == Frame(plan.clientAddr, plan.serverAddr, Print(SynPacket(plan.id)))
    ensures Path(plan, w, [DatagramArrives(f)], w') && Asked(plan, w') && Retains(w, w')
  {
    w' := WorldStep(plan, w, DatagramArrives(f));
    ArrivalShape(plan, w, f);
    SynNotMailed(plan, w, f, Client);
    SynNotMailed(plan, w, f, Server);
    SynArrived(plan, w, w', f);
    ArrivedRetains(w, w', f);
    assert SynAckFirst(plan, w) && SynAckFirst(plan, w');
    OneEvent(plan, w, DatagramArrives(f));
  }

  function SynAck(plan: Plan, random: u16): Packet {
    SynAckPacket(SynPacket(plan.id), random)
  }

  /** The server's stream is there, and its SYN-ACK on its way to the client. */
  ghost predicate Answered(plan: Plan, w: World, random: u16) {
    && Waits(plan, w) && w.server.Live?
    && w.server.endpoint == ServerEndpoint(plan.id, random, plan.clientAddr)
  }

  lemma AnswerSocket(plan: Plan, k: Socket, random: u16)
    requires Isolated(k.router) && k.Running() && plan.Key(Server) !in k.router.table
    requires k.synsTaken < |k.router.syns| && k.router.syns[k.synsTaken] == (SynPacket(plan.id), plan.clientAddr)
    ensures var s := k.Accept(random);
            var k' := k.Apply(s);
            && s.result == AcceptOk(Accepted(SynPacket(plan.id), plan.clientAddr, random))
            && k'.router == AddBox(k.router, plan.Key(Server), false) && Isolated(k'.router)
            && k'.Running()
            && (SynAck(plan, random), plan.clientAddr) in k'.sender.buffer + k'.sender.channel
  {
    AddBoxIsolated(k.router, plan.Key(Server), false);
    var channel := k.Apply(k.Accept(random)).sender.channel;
    assert channel[|channel| - 1] == (SynAck(plan, random), plan.clientAddr);
  }

  lemma AnswerOpens(plan: Plan, w: World, random: u16)
    requires Asked(plan, w)
    ensures var w' := WorldStep(plan, w, Accepts(plan.serverAddr, random));
            && Opens(plan, w, w', Server)
            && w'.server.Live? && w'.server.endpoint == ServerEndpoint(plan.id, random, plan.clientAddr)
            && Queued(w', plan.serverAddr, (SynAck(plan, random), plan.clientAddr))
  {
    AnswerSocket(plan, w.sockets[plan.serverAddr], random);
  }

  lemma AnswerPath(plan: Plan, w: World, random: u16)
    requires plan.serverAddr in w.sockets && TakesOurs(plan, w, plan.serverAddr)
    requires ClientMail(plan, w) == []
    requires ClientMail(plan, WorldStep(plan, w, Accepts(plan.serverAddr, random))) == []
    ensures Path(plan, w, [Accepts(plan.serverAddr, random)], WorldStep(plan, w, Accepts(plan.serverAddr, random)))
  {
    var ev := Accepts(plan.serverAddr, random);
    assert SynAckFirst(plan, w) && SynAckFirst(plan, WorldStep(plan, w, ev));
    OneEvent(plan, w, ev);
  }

  lemma Answer(plan: Plan, w: World, random: u16) returns (ev: WorldEvent, w': World)
    requires Asked(plan, w)
    ensures Path(plan, w, [ev], w') && Answered(plan, w', random) && Retains(w, w')
    ensures Queued(w', plan.serverAddr, (SynAck(plan, random), plan.clientAddr))
  {
    ev := Accepts(plan.serverAddr, random);
    w' := WorldStep(plan, w, ev);
    AnswerOpens(plan, w, random);
    OpensKeepsHosts(plan, w, w', Server);
    OpensKeepsMail(plan, w, w', Server);
    OpensRetains(plan, w, w', Server);
    AnswerPath(plan, w, random);
  }

  /** Both streams are there, as the handshake leaves them. */
  ghost predicate Established(plan: Plan, w: World, random: u16) {
    && Hosts(plan, w) && w.client.Live? && w.server.Live?
    && w.client.endpoint == ClientEndpoint(plan.id, random, plan.serverAddr)
    && w.server.endpoint == ServerEndpoint(plan.id, random, plan.clientAddr)
  }

  lemma FinishPath(plan: Plan, w: World, random: u16)
    requires plan.clientAddr in w.sockets && w.client.Connecting? && ClientMail(plan, w) == [SynAck(plan, random)]
    requires w.server.Live? && w.server.endpoint == ServerEndpoint(plan.id, random, plan.clientAddr)
    ensures WorldEnabled(plan, w, ReplyTaken)
    ensures Path(plan, w, [ReplyTaken], WorldStep(plan, w, ReplyTaken))
  {
    assert SynAckFirst(plan, w) && SynAckFirst(plan, WorldStep(plan, w, ReplyTaken));
    OneEvent(plan, w, ReplyTaken);
  }

  lemma FinishHosts(plan: Plan, w: World, e: Endpoint)
    requires Hosts(plan, w) && w.client.Connecting? && e.st.connectionIdSend == plan.SendId(Client)
    ensures Hosts(plan, w.(client := Live(w.client.mailbox, e)))
  {
    assert Routed(plan, w, Client) && Routed(plan, w, Server);
  }

  lemma Finish(plan: Plan, w: World, random: u16) returns (w': World)
    requires Hosts(plan, w) && w.client.Connecting? && ClientMail(plan, w) == [SynAck(plan, random)]
    requires w.server.Live? && w.server.endpoint == ServerEndpoint(plan.id, random, plan.clientAddr)
    ensures Path(plan, w, [ReplyTaken], w') && Established(plan, w', random) && Retains(w, w')
  {
    var mail := ClientMail(plan, w);
    assert mail[1..] == [];
    FinishPath(plan, w, random);
    w' := WorldStep(plan, w, ReplyTaken);
    ReplyShape(plan, w);
    FinishHosts(plan, w, w'.client.endpoint);
  }

  /** The client's SYN gets to the server. */
  lemma Ask(plan: Plan, w: World) returns (evs: seq<WorldEvent>, w': World)
    requires w.client.Absent? && w.server.Absent? && Willing(plan, w)
    ensures Path(plan, w, evs, w') && Asked(plan, w') && Retains(w, w')
  {
    var dial, w1 := Dial(plan, w);
    var push, w2 := Push(plan, w1, plan.clientAddr);
    SameHostsKeeps(plan, w1, w2);
    var f := Frame(plan.clientAddr, plan.serverAddr, Print(SynPacket(plan.id)));
    w' := SynArrives(plan, w2, f);
    Append(plan, w, [dial], w1, [push], w2);
    Append(plan, w, [dial] + [push], w2, [DatagramArrives(f)], w');
    evs := [dial] + [push] + [DatagramArrives(f)];
    RetainsTwice(w, w1, w2);
    RetainsTwice(w, w2, w');
  }

  /** The server's SYN-ACK gets to the client, which takes it for the reply. */
  lemma Agreed(plan: Plan, w: World, random: u16) returns (evs: seq<WorldEvent>, w': World)
    requires Asked(plan, w)
    ensures Path(plan, w, evs, w') && Established(plan, w', random) && Retains(w, w')
    ensures Frame(plan.serverAddr, plan.clientAddr, Print(SynAck(plan, random))) in w'.net
  {
    var answer, w1 := Answer(plan, w, random);
    var push, w2 := Push(plan, w1, plan.serverAddr);
    SameHostsKeeps(plan, w1, w2);
    var f := Frame(plan.serverAddr, plan.clientAddr, Print(SynAck(plan, random)));
    var w3 := Arrives(plan, w2, Client, f, SynAck(plan, random));
    w' := Finish(plan, w3, random);
    Append(plan, w, [answer], w1, [push], w2);
    Append(plan, w, [answer] + [push], w2, [DatagramArrives(f)], w3);
    Append(plan, w, [answer] + [push] + [DatagramArrives(f)], w3, [ReplyTaken], w');
    evs := [answer] + [push] + [DatagramArrives(f)] + [ReplyTaken];
    RetainsTwice(w, w1, w2);
    RetainsTwice(w, w2, w3);
    RetainsTwice(w, w3, w');
  }

  /** Two willing hosts, with any other connections and traffic, can get connected, whatever number
      the server draws: SYN, SYN-ACK, and both streams are as the abstract system starts. */
  lemma SetupRun(plan: Plan, w: World, random: u16) returns (evs: seq<WorldEvent>, w': World)
    requires w.client.Absent? && w.server.Absent? && Willing(plan, w)
    ensures Path(plan, w, evs, w') && Established(plan, w', random) && Retains(w, w')
    ensures Frame(plan.serverAddr, plan.clientAddr, Print(SynAck(plan, random))) in w'.net
  {
    var first, w1 := Ask(plan, w);
    var second;
    second, w' := Agreed(plan, w1, random);
    Append(plan, w, first, w1, second, w');
    evs := first + second;
    RetainsTwice(w, w1, w');
  }
}
