/** Connection IDs: when two streams of a host send under the same one to the same peer, told from the
    routing tables. */
module Twins {
  import opened Words
  import opened Packets
  import Codec
  import opened Streams
  import Filters
  import opened Endpoints
  import opened Transfer
  import opened Routing
  import opened Worlds
  import opened Wiring
  import opened Datagrams
  import opened WorldRuns
  import opened DatagramLimits

  // ---------------------------------------------------------------------------------------
  // Every stream has its mailbox
  // ---------------------------------------------------------------------------------------

  /** A stream with the given mailbox: addressed as the mailbox says, its channel not ended. */
  predicate HousedIn(st: StreamState, box: Mailbox) {
    && box.open && st.connectionIdSend == Routing.SendId(box) && st.remoteAddr == box.key.1
    && !st.closed && !st.isShutdown
  }

  predicate SlotHoused(plan: Plan, w: World, slot: Slot, st: StreamState) {
    && slot.0 in w.sockets && slot.1 < |w.sockets[slot.0].router.boxes| && !Mine(plan, w, slot.0, slot.1)
    && HousedIn(st, w.sockets[slot.0].router.boxes[slot.1])
  }

  ghost predicate StreamsHoused(plan: Plan, w: World) {
    forall slot <- w.others :: SlotHoused(plan, w, slot, w.others[slot])
  }

  /** Mailbox `m` is not open, or one whose client may still wait for its reply, or one whose stream is there. */
  predicate Lived(plan: Plan, w: World, addr: SocketAddr, m: nat) {
    addr in w.sockets && w.sockets[addr].IsOpen(m) ==>
      w.sockets[addr].router.boxes[m].registered || Mine(plan, w, addr, m) || (addr, m) in w.others
  }

  /** A connection that was accepted has its stream at once. */
  ghost predicate AcceptedLive(plan: Plan, w: World) {
    forall addr, m: nat :: Lived(plan, w, addr, m)
  }

  ghost predicate Housed(plan: Plan, w: World) {
    StreamsHoused(plan, w) && AcceptedLive(plan, w)
  }

  predicate SameBox(box: Mailbox, box': Mailbox) {
    box' == box.(history := box'.history)
  }

  /** The mailboxes of `k` are there in `k'`, each as it was but for what came for it. */
  ghost predicate BoxesStay(k: Socket, k': Socket) {
    && |k.router.boxes| <= |k'.router.boxes|
    && forall m | 0 <= m < |k.router.boxes| :: SameBox(k.router.boxes[m], k'.router.boxes[m])
  }

  /** Mailboxes of interest are those that were, or new ones. */
  predicate MineGrows(plan: Plan, w: World, w': World, addr: SocketAddr, k: Socket) {
    && KeepsMailboxes(w, w')
    && (w.client.Absent? && !w'.client.Absent? ==> addr == plan.clientAddr && w'.client.mailbox >= |k.router.boxes|)
    && (w.server.Absent? && !w'.server.Absent? ==> addr == plan.serverAddr && w'.server.mailbox >= |k.router.boxes|)
  }

  /** A stream that sends as it did, its channel as open as it was. */
  predicate GoesOn(st: StreamState, st': StreamState) {
    SendsAlike(st, st') && st'.closed == st.closed && st'.isShutdown == st.isShutdown
  }

  lemma SlotStays(plan: Plan, w: World, w': World, addr: SocketAddr, k': Socket, slot: Slot, st: StreamState, st': StreamState)
    requires SlotHoused(plan, w, slot, st) && GoesOn(st, st')
    requires addr in w.sockets && w'.sockets == w.sockets[addr := k']
    requires BoxesStay(w.sockets[addr], k') && MineGrows(plan, w, w', addr, w.sockets[addr])
    ensures SlotHoused(plan, w', slot, st')
  {
    if slot.0 == addr {
      assert SameBox(w.sockets[addr].router.boxes[slot.1], k'.router.boxes[slot.1]);
    }
  }

  lemma LivedStays(plan: Plan, w: World, w': World, addr: SocketAddr, k': Socket, at: SocketAddr, m: nat)
    requires Lived(plan, w, at, m) && addr in w.sockets && w'.sockets == w.sockets[addr := k']
    requires BoxesStay(w.sockets[addr], k') && MineGrows(plan, w, w', addr, w.sockets[addr])
    requires (at, m) in w.others ==> (at, m) in w'.others
    requires at == addr && m >= |w.sockets[addr].router.boxes| ==> Lived(plan, w', at, m)
    ensures Lived(plan, w', at, m)
  {
    if at == addr && m < |w.sockets[addr].router.boxes| {
      assert SameBox(w.sockets[addr].router.boxes[m], k'.router.boxes[m]);
    }
  }

  /** A step that keeps all streams and mailboxes, and may add one of each at `addr`. */
  lemma GrowKeepsHoused(plan: Plan, w: World, w': World, addr: SocketAddr, k': Socket)
    requires Housed(plan, w) && addr in w.sockets && w'.sockets == w.sockets[addr := k']
    requires BoxesStay(w.sockets[addr], k') && MineGrows(plan, w, w', addr, w.sockets[addr])
    requires forall slot <- w.others :: slot in w'.others && GoesOn(w.others[slot], w'.others[slot])
    requires forall slot <- w'.others :: slot !in w.others ==> SlotHoused(plan, w', slot, w'.others[slot])
    requires forall m: nat | m >= |w.sockets[addr].router.boxes| :: Lived(plan, w', addr, m)
    ensures Housed(plan, w')
  {
    forall slot <- w'.others
      ensures SlotHoused(plan, w', slot, w'.others[slot])
    {
      if slot in w.others {
        SlotStays(plan, w, w', addr, k', slot, w.others[slot], w'.others[slot]);
      }
    }
    forall at, m: nat
      ensures Lived(plan, w', at, m)
    {
      assert Lived(plan, w, at, m);
      LivedStays(plan, w, w', addr, k', at, m);
    }
  }

  // ---------------------------------------------------------------------------------------
  // Every step keeps it
  // ---------------------------------------------------------------------------------------

  lemma ConnectKeepsHoused(plan: Plan, w: World, ev: WorldEvent)
    requires ev.Connects? && Housed(plan, w) && WorldEnabled(plan, w, ev)
    ensures Housed(plan, WorldStep(plan, w, ev))
  {
    var k, w' := w.sockets[ev.addr], WorldStep(plan, w, ev);
    var k' := k.Apply(k.Connect(ev.remoteAddr, ev.draws));
    assert BoxesStay(k, k');
    GrowKeepsHoused(plan, w, w', ev.addr, k');
  }

  lemma AcceptStays(k: Socket, random: u16)
    ensures BoxesStay(k, k.Apply(k.Accept(random)))
  {
  }

  /** The stream of an accepted connection has its mailbox. */
  lemma AcceptedHoused(plan: Plan, w: World, w': World, addr: SocketAddr, k: Socket, random: u16)
    requires k.Accept(random).result.AcceptOk? && w'.sockets == w.sockets[addr := k.Apply(k.Accept(random))]
    requires Routed(plan, w, Client) && Routed(plan, w, Server) && addr in w.sockets && k == w.sockets[addr]
    requires w'.client == w.client && w'.server == w.server
    ensures SlotHoused(plan, w', (addr, |k.router.boxes|), k.Accept(random).result.st)
  {
  }

  lemma AcceptKeepsHoused(plan: Plan, w: World, ev: WorldEvent)
    requires ev.Accepts? && Housed(plan, w) && WorldEnabled(plan, w, ev)
    requires Routed(plan, w, Client) && Routed(plan, w, Server)
    ensures Housed(plan, WorldStep(plan, w, ev))
  {
    var k, w' := w.sockets[ev.addr], WorldStep(plan, w, ev);
    var k' := k.Apply(k.Accept(ev.random));
    AcceptStays(k, ev.random);
    if k.Accept(ev.random).result.AcceptOk? && !TakesOurs(plan, w, ev.addr) {
      AcceptedHoused(plan, w, w', ev.addr, k, ev.random);
    }
    GrowKeepsHoused(plan, w, w', ev.addr, k');
  }

  lemma {:induction false} AbsorbStaysOpen(st: StreamState)
    requires !st.closed && !st.isShutdown
    ensures !Absorb(st).st.closed && !Absorb(st).st.isShutdown
    decreases |st.mailbox|
  {
    if st.mailbox != [] {
      var p := st.mailbox[0];
      var st1 := st.(mailbox := st.mailbox[1..]);
      if Supported(p) {
        AbsorbStaysOpen(if Ignores(st1, p) then st1 else HandlePacket(st1, p));
      }
    }
  }

  lemma PerformGoesOn(st: StreamState, op: Op)
    requires !st.closed && !st.isShutdown && (op.Write? || op.Read? || op.Flush?)
    ensures GoesOn(st, Perform(st, op))
  {
    PerformSendsOn(st, op);
    AbsorbStaysOpen(st);
    match op
    case Write(buf, sends, clock) => Filters.WriteEffect(st, buf, sends, clock);
    case _ =>
  }

  lemma OtherPollKeepsHoused(plan: Plan, w: World, ev: WorldEvent)
    requires ev.OtherPolled? && Housed(plan, w) && WorldEnabled(plan, w, ev)
    ensures Housed(plan, WorldStep(plan, w, ev))
  {
    var slot, w' := (ev.addr, ev.mailbox), WorldStep(plan, w, ev);
    assert SlotHoused(plan, w, slot, w.others[slot]);
    PerformGoesOn(w.others[slot], ev.op);
    GrowKeepsHoused(plan, w, w', ev.addr, w'.sockets[ev.addr]);
  }

  lemma OtherReplyKeepsHoused(plan: Plan, w: World, ev: WorldEvent)
    requires ev.OtherReply? && Housed(plan, w) && WorldEnabled(plan, w, ev)
    ensures Housed(plan, WorldStep(plan, w, ev))
  {
    var w', k := WorldStep(plan, w, ev), w.sockets[ev.addr];
    assert w'.sockets == w.sockets[ev.addr := k];
    assert SlotHoused(plan, w', (ev.addr, ev.mailbox), w'.others[(ev.addr, ev.mailbox)]);
    GrowKeepsHoused(plan, w, w', ev.addr, k);
  }

  lemma DropKeepsHoused(plan: Plan, w: World, ev: WorldEvent)
    requires ev.OtherDropped? && Housed(plan, w) && WorldEnabled(plan, w, ev)
    ensures Housed(plan, WorldStep(plan, w, ev))
  {
    var w' := WorldStep(plan, w, ev);
    forall slot <- w'.others
      ensures SlotHoused(plan, w', slot, w'.others[slot])
    {
      assert SlotHoused(plan, w, slot, w.others[slot]);
    }
    forall at, m: nat
      ensures Lived(plan, w', at, m)
    {
      assert Lived(plan, w, at, m);
    }
  }

  lemma DispatchStays(k: Socket, p: Packet, from: SocketAddr)
    requires Isolated(k.router)
    ensures BoxesStay(k, k.(router := Dispatch(k.router, p, from)))
    ensures |Dispatch(k.router, p, from).boxes| == |k.router.boxes|
  {
    if p.packetType != Syn {
      var r' := RoutePacket(k.router, p, from);
      forall m | 0 <= m < |k.router.boxes|
        ensures SameBox(k.router.boxes[m], r'.boxes[m])
      {
        RoutedByKey(k.router, p, from, m);
      }
    }
  }

  lemma ReadStays(k: Socket, f: Frame)
    requires Isolated(k.router)
    ensures BoxesStay(k, ReadFrom(k, f)) && |ReadFrom(k, f).router.boxes| == |k.router.boxes|
  {
    ReadDispatches(k, f);
    var parsed := Codec.ParsePacket(Received(f.bytes));
    if parsed.Ok? {
      DispatchStays(k, parsed.value, f.from);
    }
  }

  lemma HeardKeepsHoused(plan: Plan, w: World, w': World, addr: SocketAddr, k': Socket)
    requires Housed(plan, w) && addr in w.sockets && w'.sockets == w.sockets[addr := k']
    requires BoxesStay(w.sockets[addr], k') && |k'.router.boxes| == |w.sockets[addr].router.boxes|
    requires MineGrows(plan, w, w', addr, w.sockets[addr])
    requires w'.others == HearsAll(w.others, addr, w.sockets[addr], k')
    ensures Housed(plan, w')
  {
    GrowKeepsHoused(plan, w, w', addr, k');
  }

  lemma ArrivalKeepsHoused(plan: Plan, w: World, f: Frame)
    requires Housed(plan, w) && WorldEnabled(plan, w, DatagramArrives(f)) && Isolated(w.sockets[f.to].router)
    ensures Housed(plan, WorldStep(plan, w, DatagramArrives(f)))
  {
    var k, w' := w.sockets[f.to], WorldStep(plan, w, DatagramArrives(f));
    ArrivalShape(plan, w, f);
    NoticeKeeps(w.client, Mailed(plan, w, Client, f));
    NoticeKeeps(w.server, Mailed(plan, w, Server, f));
    ReadStays(k, f);
    HeardKeepsHoused(plan, w, w', f.to, ReadFrom(k, f));
  }

  lemma SameHousing(plan: Plan, w: World, w': World)
    requires Housed(plan, w) && w'.others == w.others && w'.sockets.Keys == w.sockets.Keys
    requires forall addr <- w.sockets :: w'.sockets[addr].router == w.sockets[addr].router
    requires KeepsMailboxes(w, w') && w'.client.Absent? == w.client.Absent? && w'.server.Absent? == w.server.Absent?
    ensures Housed(plan, w')
  {
    forall slot <- w'.others
      ensures SlotHoused(plan, w', slot, w'.others[slot])
    {
      assert SlotHoused(plan, w, slot, w.others[slot]);
    }
    forall at, m: nat
      ensures Lived(plan, w', at, m)
    {
      assert Lived(plan, w, at, m);
    }
  }

  /** Steps that touch neither mailboxes nor other streams. */
  lemma ElseKeepsHoused(plan: Plan, w: World, ev: WorldEvent)
    requires ev.ReplyTaken? || ev.StreamPolled? || ev.SenderPolled? || ev.Injected?
    requires Housed(plan, w) && WorldEnabled(plan, w, ev)
    ensures Housed(plan, WorldStep(plan, w, ev))
  {
    SameHousing(plan, w, WorldStep(plan, w, ev));
  }

  lemma StepKeepsHoused(plan: Plan, w: World, ev: WorldEvent, strays: iset<Packet>)
    requires Clean(plan, w, strays) && Housed(plan, w) && WorldEnabled(plan, w, ev)
    ensures Housed(plan, WorldStep(plan, w, ev))
  {
    match ev
    case Connects(_, _, _, _) => ConnectKeepsHoused(plan, w, ev);
    case Accepts(_, _) => AcceptKeepsHoused(plan, w, ev);
    case OtherReply(_, _) => OtherReplyKeepsHoused(plan, w, ev);
    case OtherPolled(_, _, _) => OtherPollKeepsHoused(plan, w, ev);
    case OtherDropped(_, _) => DropKeepsHoused(plan, w, ev);
    case DatagramArrives(f) =>
      assert SocketClean(plan, LogsOf(w, strays), f.to, w.sockets[f.to]);
      ArrivalKeepsHoused(plan, w, f);
    case _ => ElseKeepsHoused(plan, w, ev);
  }

  /** In every fair run, every stream keeps its mailbox, and every accepted connection has its stream. */
  lemma {:induction false} RunKeepsHoused(plan: Plan, w: World, evs: seq<WorldEvent>, rules: Rules)
    requires Clean(plan, w, rules.strays) && AllAcks(rules.strays) && Tracked(plan, w, rules) && Housed(plan, w)
    requires WorldPossible(plan, w, evs) && Fair(plan, w, evs) && rules.strict == {}
    ensures Housed(plan, WorldAfter(plan, w, evs))
    decreases |evs|
  {
    if evs != [] {
      var w' := WorldStep(plan, w, evs[0]);
      StepKeepsHoused(plan, w, evs[0], rules.strays);
      StepRefines(plan, w, evs[0], w', rules);
      RunKeepsHoused(plan, w', evs[1..], rules);
    }
  }

  // ---------------------------------------------------------------------------------------
  // Twins by the tables
  // ---------------------------------------------------------------------------------------

  /** The table leads from `key` to the open mailbox of a connection that was opened, respectively
      accepted, by this host. */
  predicate OpenAt(r: Router, key: Key, registered: bool) {
    && key in r.table && r.table[key] < |r.boxes|
    && r.boxes[r.table[key]].open && r.boxes[r.table[key]].registered == registered
  }

  /** The table entry that a twin of `side`'s stream stands under. */
  function TwinKey(plan: Plan, side: Side): Key {
    (if side == Client then WrappingAdd(plan.id, 2) else WrappingSub(plan.id, 1), plan.Addr(side.Other()))
  }

  lemma RegisteredShape(plan: Plan, side: Side, box: Mailbox)
    requires box.registered
    ensures Routing.SendId(box) == plan.SendId(side)
       <==> box.key.0 == if side == Client then plan.id else WrappingSub(plan.id, 1)
  {
  }

  lemma InsertedShape(plan: Plan, side: Side, box: Mailbox)
    requires !box.registered
    ensures Routing.SendId(box) == plan.SendId(side)
       <==> box.key.0 == if side == Client then WrappingAdd(plan.id, 2) else WrappingAdd(plan.id, 1)
  {
  }

  /** A stream sends under the ID of `side` if it stands under the same key and was made the same way,
      or under the key of a twin and was made the other way. */
  lemma TwinShape(plan: Plan, side: Side, box: Mailbox)
    ensures Routing.SendId(box) == plan.SendId(side) && box.key.1 == plan.Addr(side.Other())
       <==> || (box.key == plan.Key(side) && box.registered == (side == Client))
            || (box.key == TwinKey(plan, side) && box.registered == (side == Server))
  {
    if box.registered {
      RegisteredShape(plan, side, box);
    } else {
      InsertedShape(plan, side, box);
    }
  }

  /** The entry of a twin is not that of either stream of interest. */
  lemma TwinKeyIsOther(plan: Plan, side: Side)
    ensures TwinKey(plan, side) != plan.Key(Client) && TwinKey(plan, side) != plan.Key(Server)
  {
  }

  /** The entry of a twin in the table of the host of `side`. At the server's host, where such a
      connection was opened and not accepted, its client must have its reply. */
  predicate TwinOpen(plan: Plan, w: World, side: Side) {
    && plan.Addr(side) in w.sockets
    && var r := w.sockets[plan.Addr(side)].router;
       && OpenAt(r, TwinKey(plan, side), side == Server)
       && (side == Server ==> (plan.Addr(side), r.table[TwinKey(plan, side)]) in w.others)
  }

  /** The key of `side` is taken by the connection of interest, or vacant. */
  predicate Claimed(plan: Plan, w: World, side: Side) {
    && plan.Addr(side) in w.sockets
    && (w.At(side).Absent? ==> plan.Key(side) !in w.sockets[plan.Addr(side)].router.table)
  }

  ghost predicate HasTwin(plan: Plan, w: World, side: Side) {
    exists slot :: slot in w.others && Twin(plan, side, slot, w.others[slot])
  }

  /** A stream under the key of `side` is that of `side`. */
  lemma OwnKeyIsMine(plan: Plan, w: World, side: Side, m: nat)
    requires Routed(plan, w, side) && Claimed(plan, w, side) && LiveReachable(w.sockets[plan.Addr(side)].router)
    requires w.sockets[plan.Addr(side)].IsOpen(m)
    requires w.sockets[plan.Addr(side)].router.boxes[m].key == plan.Key(side)
    ensures Mine(plan, w, plan.Addr(side), m)
  {
  }

  lemma TwinIsOpen(plan: Plan, w: World, side: Side, slot: Slot)
    requires Routed(plan, w, side) && Claimed(plan, w, side) && LiveReachable(w.sockets[plan.Addr(side)].router)
    requires slot in w.others && SlotHoused(plan, w, slot, w.others[slot]) && Twin(plan, side, slot, w.others[slot])
    ensures TwinOpen(plan, w, side)
  {
    var box := w.sockets[slot.0].router.boxes[slot.1];
    TwinShape(plan, side, box);
    if box.key == plan.Key(side) {
      OwnKeyIsMine(plan, w, side, slot.1);
    }
  }

  lemma OtherKeyIsNotMine(plan: Plan, w: World, side: Side, m: nat)
    requires Routed(plan, w, Client) && Routed(plan, w, Server)
    requires w.sockets[plan.Addr(side)].IsOpen(m)
    requires w.sockets[plan.Addr(side)].router.boxes[m].key == TwinKey(plan, side)
    ensures !Mine(plan, w, plan.Addr(side), m)
  {
    TwinKeyIsOther(plan, side);
    assert Routed(plan, w, side) && Routed(plan, w, side.Other());
  }

  lemma OpenIsTwin(plan: Plan, w: World, side: Side)
    requires Routed(plan, w, Client) && Routed(plan, w, Server) && Housed(plan, w) && TwinOpen(plan, w, side)
    requires TableSound(w.sockets[plan.Addr(side)].router)
    ensures HasTwin(plan, w, side)
  {
    var r := w.sockets[plan.Addr(side)].router;
    var slot := (plan.Addr(side), r.table[TwinKey(plan, side)]);
    OtherKeyIsNotMine(plan, w, side, slot.1);
    assert Lived(plan, w, slot.0, slot.1);
    assert SlotHoused(plan, w, slot, w.others[slot]);
    TwinShape(plan, side, r.boxes[slot.1]);
    assert Twin(plan, side, slot, w.others[slot]);
  }

  lemma CleanRouter(plan: Plan, w: World, side: Side, strays: iset<Packet>)
    requires Clean(plan, w, strays)
    ensures Routed(plan, w, side) && Isolated(w.sockets[plan.Addr(side)].router)
  {
    assert Routed(plan, w, side);
    assert SocketClean(plan, LogsOf(w, strays), plan.Addr(side), w.sockets[plan.Addr(side)]);
  }

  lemma TwinCheck(plan: Plan, w: World, side: Side, strays: iset<Packet>)
    requires Clean(plan, w, strays) && Housed(plan, w) && Claimed(plan, w, side)
    ensures HasTwin(plan, w, side) <==> TwinOpen(plan, w, side)
  {
    CleanRouter(plan, w, side, strays);
    if TwinOpen(plan, w, side) {
      OpenIsTwin(plan, w, side);
    }
    if HasTwin(plan, w, side) {
      var slot :| slot in w.others && Twin(plan, side, slot, w.others[slot]);
      TwinIsOpen(plan, w, side, slot);
    }
  }

  lemma SoloIsNoTwin(plan: Plan, w: World)
    ensures Solo(plan, w) <==> !HasTwin(plan, w, Client) && !HasTwin(plan, w, Server)
  {
    if !Solo(plan, w) {
      var slot, side: Side :| slot in w.others && Twin(plan, side, slot, w.others[slot]);
      assert HasTwin(plan, w, side);
    }
  }

  /** Before its setup as well as while it lives, a connection has no twin if and only if the client's host
      holds no live connection from the server that receives on the ID two after the client's, and
      the server's host no stream to the client that receives on the ID before it. */
  lemma SoloCheck(plan: Plan, w: World, strays: iset<Packet>)
    requires Clean(plan, w, strays) && Housed(plan, w) && Claimed(plan, w, Client) && Claimed(plan, w, Server)
    ensures Solo(plan, w) <==> !TwinOpen(plan, w, Client) && !TwinOpen(plan, w, Server)
  {
    TwinCheck(plan, w, Client, strays);
    TwinCheck(plan, w, Server, strays);
    SoloIsNoTwin(plan, w);
  }

  // ---------------------------------------------------------------------------------------
  // Connections with both ends
  // ---------------------------------------------------------------------------------------

  /** The other end of a stream with the given mailbox at `addr` is open in the peer's table. */
  predicate OtherEndOpen(r: Router, box: Mailbox, addr: SocketAddr) {
    OpenAt(r, (Routing.SendId(box), addr), !box.registered)
  }

  /** Every other live stream between the two hosts has a live other end. */
  ghost predicate Paired(plan: Plan, w: World, side: Side) {
    && plan.clientAddr in w.sockets && plan.serverAddr in w.sockets
    && forall slot <- w.others | slot.0 == plan.Addr(side) && w.others[slot].remoteAddr == plan.Addr(side.Other()) ::
         && slot.1 < |w.sockets[slot.0].router.boxes|
         && OtherEndOpen(w.sockets[plan.Addr(side.Other())].router, w.sockets[slot.0].router.boxes[slot.1], plan.Addr(side))
  }

  /** The other end of a twin would have to stand under the key of the stream of interest. */
  lemma TwinIsUnpaired(plan: Plan, w: World, side: Side, slot: Slot)
    requires Routed(plan, w, side) && Routed(plan, w, side.Other())
    requires Claimed(plan, w, side) && Claimed(plan, w, side.Other())
    requires LiveReachable(w.sockets[plan.Addr(side)].router)
    requires LiveReachable(w.sockets[plan.Addr(side.Other())].router)
    requires slot in w.others && SlotHoused(plan, w, slot, w.others[slot]) && Twin(plan, side, slot, w.others[slot])
    ensures !OtherEndOpen(w.sockets[plan.Addr(side.Other())].router, w.sockets[slot.0].router.boxes[slot.1], plan.Addr(side))
  {
    var box := w.sockets[slot.0].router.boxes[slot.1];
    TwinShape(plan, side, box);
    if box.key == plan.Key(side) {
      OwnKeyIsMine(plan, w, side, slot.1);
    }
    assert side.Other().Other() == side;
  }

  /** As long as both ends of every connection between the two hosts live, there are no twins. */
  lemma PairedIsSolo(plan: Plan, w: World, strays: iset<Packet>)
    requires Clean(plan, w, strays) && Housed(plan, w) && Claimed(plan, w, Client) && Claimed(plan, w, Server)
    requires Paired(plan, w, Client) && Paired(plan, w, Server)
    ensures Solo(plan, w)
  {
    CleanRouter(plan, w, Client, strays);
    CleanRouter(plan, w, Server, strays);
    forall slot, side: Side | slot in w.others
      ensures !Twin(plan, side, slot, w.others[slot])
    {
      assert SlotHoused(plan, w, slot, w.others[slot]) && Paired(plan, w, side);
      assert side.Other().Other() == side;
      if Twin(plan, side, slot, w.others[slot]) {
        TwinIsUnpaired(plan, w, side, slot);
      }
    }
  }

  /** Two hosts about to connect, all of whose connections with each other live at both ends and which have
      left no data over, can count on delivery. */
  lemma PairedAssures(plan: Plan, w: World)
    requires Before(plan, w) && Willing(plan, w) && Housed(plan, w) && !DataUnderWay(plan, w)
    requires Paired(plan, w, Client) && Paired(plan, w, Server)
    ensures AssuredUpTo(plan, w, 0xFFFF)
  {
    PairedIsSolo(plan, w, AnyPacket());
    SoloAssures(plan, w, 0xFFFF);
  }
}
