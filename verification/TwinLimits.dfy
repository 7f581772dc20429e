/** Data under the connection's IDs that is not the connection's own, from a twin or left over, is exactly
    what breaks delivery; and how a twin comes to be. */
module TwinLimits {
  import opened Words
  import opened Packets
  import opened Streams
  import opened Endpoints
  import opened Transfer
  import opened Runs
  import opened Outgoing
  import opened Worlds
  import opened Wiring
  import opened Datagrams
  import opened WorldRuns
  import opened Realisation
  import opened DatagramLimits
  import opened Twins

  // ---------------------------------------------------------------------------------------
  // The packet that breaks delivery
  // ---------------------------------------------------------------------------------------

  /** The least index, counted from 1, of a segment that would bear the number. */
  function IndexOf(isn: u16, number: u16): (i: nat)
    ensures 1 <= i <= 0x1_0000 && number == Num(isn, i)
  {
    var d := WrappingSub(number, isn);
    if d == 0 then 0x1_0000 else d
  }

  /** `y` has nothing waiting and expects number `Num(isn, |y.assembled| + 1)` next. */
  predicate Expecting(y: Endpoint, isn: u16) {
    Idle(y) && y.st.ackNumber == Num(isn, |y.assembled|) && |y.tags| == |y.st.outgoing|
  }

  /** Both streams are there, and all that `side` has written has been assembled. */
  ghost predicate CaughtUp(plan: Plan, w: World, side: Side, isn: u16, n: nat) {
    && Hosts(plan, w) && w.client.Live? && w.server.Live?
    && |w.At(side).endpoint.segs| == |w.At(side.Other()).endpoint.assembled| == n
    && Expecting(w.At(side.Other()).endpoint, isn)
  }

  lemma CaughtExpecting(plan: Plan, w: World, s: System, side: Side, x: Endpoint)
    requires Realises(plan, w, s) && Caught(s, side, x, x.isn, x.segs)
    ensures CaughtUp(plan, w, side, x.isn, |x.segs|)
  {
    assert RealisesSide(plan, w, s, side.Other()) && RealisesSide(plan, w, s, side);
  }

  /** The two hosts get connected, and `n` segments are written, sent and assembled. */
  lemma ConnectAndRead(plan: Plan, w: World, side: Side, n: nat) returns (evs: seq<WorldEvent>, w': World)
    requires w.client.Absent? && w.server.Absent? && Willing(plan, w)
    ensures Path(plan, w, evs, w') && Retains(w, w')
    ensures CaughtUp(plan, w', side, Origin(plan, 0).At(side).isn, n)
  {
    var s := Origin(plan, 0);
    var write, x := OneWrite(s, side, n);
    var steps := FromStart(s, [write], side, x, n);
    assert x.segs[..n] == x.segs;
    evs, w' := ReachState(plan, w, 0, steps);
    CaughtExpecting(plan, w', After(s, steps), side, x);
  }

  lemma ForeignRead(isn: u16, y: Endpoint, p: Packet)
    requires Expecting(y, isn) && p.packetType == Data && p.seqNumber == Num(isn, |y.assembled| + 1)
    ensures Endpoints.Do(Endpoints.Do(y, Endpoints.Receive(p)), Read(0, true, 0)).assembled == y.assembled + [p.data]
  {
    ReadOne(isn, y, p, |y.assembled| + 1);
  }

  lemma Overlong(w: World, side: Side)
    requires w.At(side).Live? && w.At(side.Other()).Live?
    requires |w.At(side.Other()).endpoint.assembled| > |w.At(side).endpoint.segs|
    ensures !WorldDelivers(w, side)
  {
  }

  /** A packet that bears the ID of `side` gets to the peer, which is then polled. */
  lemma ArriveAndPoll(plan: Plan, w: World, side: Side, p: Packet, op: Op) returns (evs: seq<WorldEvent>, w': World)
    requires Hosts(plan, w) && w.client.Live? && w.server.Live? && UnderWay(plan, w, side, p) && !op.Receive?
    ensures Path(plan, w, evs, w')
    ensures w'.At(side) == w.At(side) && w'.At(side.Other()).Live?
    ensures w'.At(side.Other()).endpoint
         == Endpoints.Do(Endpoints.Do(w.At(side.Other()).endpoint, Endpoints.Receive(p)), op)
  {
    var other := side.Other();
    assert other.Other() == side;
    var first, w1 := GetsThrough(plan, w, side, p);
    NoticeKeeps(w.At(other), Some(p));
    w' := PollPath(plan, w1, other, op);
    Append(plan, w, first, w1, [StreamPolled(other, op)], w');
    evs := first + [StreamPolled(other, op)];
  }

  /** Data under the next number is assembled, wherever it comes from: one segment too many. */
  lemma ForeignIsAssembled(plan: Plan, w: World, isn: u16, side: Side, n: nat, p: Packet)
    returns (evs: seq<WorldEvent>, w': World)
    requires CaughtUp(plan, w, side, isn, n) && UnderWay(plan, w, side, p)
    requires p.packetType == Data && p.seqNumber == Num(isn, n + 1)
    ensures Path(plan, w, evs, w') && w'.At(side) == w.At(side) && !WorldDelivers(w', side)
  {
    var y := w.At(side.Other()).endpoint;
    ForeignRead(isn, y, p);
    evs, w' := ArriveAndPoll(plan, w, side, p, Read(0, true, 0));
    Overlong(w', side);
  }

  lemma NotAssured(plan: Plan, w: World, first: seq<WorldEvent>, w1: World, rest: seq<WorldEvent>, w': World, side: Side)
    requires Path(plan, w, first, w1) && Path(plan, w1, rest, w')
    requires |w'.At(side).Segs()| <= 0xFFFF && !WorldDelivers(w', side)
    ensures !AssuredUpTo(plan, w, 0xFFFF)
  {
    Append(plan, w, first, w1, rest, w');
    assert WorldPossible(plan, w, first + rest) && !WorldDelivers(WorldAfter(plan, w, first + rest), side);
  }

  /** Any data left over under the connection's IDs, queued or on the wire, from either side and whatever
      its number, breaks delivery in some run: once the segments before that number have been sent. */
  lemma StaleBreaksDelivery(plan: Plan, w: World, side: Side, p: Packet)
    requires w.client.Absent? && w.server.Absent? && Willing(plan, w)
    requires UnderWay(plan, w, side, p) && p.packetType == Data
    ensures !AssuredUpTo(plan, w, 0xFFFF)
  {
    var isn := Origin(plan, 0).At(side).isn;
    var n := IndexOf(isn, p.seqNumber) - 1;
    var first, w1 := ConnectAndRead(plan, w, side, n);
    UnderWayStays(plan, w, w1, side, p);
    var rest, w' := ForeignIsAssembled(plan, w1, isn, side, n, p);
    NotAssured(plan, w, first, w1, rest, w', side);
  }

  // ---------------------------------------------------------------------------------------
  // Twins send such packets
  // ---------------------------------------------------------------------------------------

  /** The packet in which a stream sends a single byte. */
  function TwinPacket(st: StreamState): Packet {
    NewPacket(st, Data, 0, [7])
  }

  lemma TwinWrite(st: StreamState, to: SocketAddr)
    requires !st.isShutdown
    ensures NewItems(st, Perform(st, Write([7], 1, [])), to) == [(TwinPacket(st), to)]
  {
    assert Chunks([7]) == [[7]];
    var st' := SendData(st, [7], 0);
    assert [[7]][1..] == [] && SendAll(st', [], [], 1) == st';
    assert Perform(st, Write([7], 1, [])) == st';
    assert st'.outgoing[|st.outgoing|..] == [TwinPacket(st)];
  }

  lemma QueueLast(k: Socket, item: Item)
    requires k.Running()
    ensures item in k.Queue([item]).sender.buffer + k.Queue([item]).sender.channel
  {
    var channel := k.Queue([item]).sender.channel;
    assert channel[|channel| - 1] == item;
  }

  lemma TwinEvent(plan: Plan, w: World, slot: Slot)
    requires slot in w.others && slot.0 in w.sockets && w.sockets[slot.0].Running() && !w.others[slot].isShutdown
    requires w.client.Live?
    ensures var ev, st := OtherPolled(slot.0, slot.1, Write([7], 1, [])), w.others[slot];
            && WorldEnabled(plan, w, ev) && Path(plan, w, [ev], WorldStep(plan, w, ev))
            && WorldStep(plan, w, ev)
               == w.With(slot.0, w.sockets[slot.0].Queue([(TwinPacket(st), st.remoteAddr)]))
                   .(others := w.others[slot := Perform(st, Write([7], 1, []))])
  {
    var ev := OtherPolled(slot.0, slot.1, Write([7], 1, []));
    TwinWrite(w.others[slot], w.others[slot].remoteAddr);
    LivePath(plan, w, ev);
  }

  lemma StillCaughtUp(plan: Plan, w: World, w': World, side: Side, isn: u16, n: nat, addr: SocketAddr, items: seq<Item>)
    requires CaughtUp(plan, w, side, isn, n) && addr in w.sockets
    requires w'.sockets == w.sockets[addr := w.sockets[addr].Queue(items)]
    requires w'.client == w.client && w'.server == w.server
    ensures CaughtUp(plan, w', side, isn, n)
  {
    QueueingContinues(w.sockets[addr], items);
    ContinuesKeeps(plan, w, w', addr, w.sockets[addr].Queue(items));
  }

  /** A twin of `side`'s stream writes: its packet is under way. */
  lemma TwinSends(plan: Plan, w: World, side: Side, slot: Slot, isn: u16, n: nat) returns (ev: WorldEvent, w': World)
    requires CaughtUp(plan, w, side, isn, n) && slot in w.others && Twin(plan, side, slot, w.others[slot])
    requires !w.others[slot].isShutdown
    ensures Path(plan, w, [ev], w') && CaughtUp(plan, w', side, isn, n) && w'.At(side) == w.At(side)
    ensures UnderWay(plan, w', side, TwinPacket(w.others[slot]))
  {
    var st := w.others[slot];
    var item := (TwinPacket(st), st.remoteAddr);
    assert Ready(w, slot.0);
    ev := OtherPolled(slot.0, slot.1, Write([7], 1, []));
    TwinEvent(plan, w, slot);
    w' := WorldStep(plan, w, ev);
    QueueLast(w.sockets[slot.0], item);
    StillCaughtUp(plan, w, w', side, isn, n, slot.0, [item]);
  }

  /** The failing run: connect, write, send and read what comes before the twin's next number, let the
      twin write one byte, read. */
  lemma TwinBreaksDelivery(plan: Plan, w: World, side: Side, slot: Slot)
    requires w.client.Absent? && w.server.Absent? && Willing(plan, w)
    requires slot in w.others && Twin(plan, side, slot, w.others[slot]) && !w.others[slot].isShutdown
    ensures !AssuredUpTo(plan, w, 0xFFFF)
  {
    var isn := Origin(plan, 0).At(side).isn;
    var n := IndexOf(isn, w.others[slot].seqNumber) - 1;
    var first, w1 := ConnectAndRead(plan, w, side, n);
    assert SameButMail(w.others[slot], w1.others[slot]);
    var send, w2 := TwinSends(plan, w1, side, slot, isn, n);
    var rest, w' := ForeignIsAssembled(plan, w2, isn, side, n, TwinPacket(w1.others[slot]));
    Append(plan, w1, [send], w2, rest, w');
    NotAssured(plan, w, first, w1, [send] + rest, w', side);
  }

  /** For two hosts that can set up the connection, with any other connections between them and
      elsewhere and any traffic: delivery is assured if and only if neither holds a stream that sends
      to the other under the ID its side of the new connection is going to use, and no data is left
      over under these IDs. */
  lemma DeliveryExact(plan: Plan, w: World)
    requires Before(plan, w) && Willing(plan, w) && Housed(plan, w)
    ensures AssuredUpTo(plan, w, 0xFFFF) <==> Solo(plan, w) && !DataUnderWay(plan, w)
  {
    if !Solo(plan, w) {
      var slot, side: Side :| slot in w.others && Twin(plan, side, slot, w.others[slot]);
      assert SlotHoused(plan, w, slot, w.others[slot]);
      TwinBreaksDelivery(plan, w, side, slot);
    } else if DataUnderWay(plan, w) {
      var side: Side, p :| UnderWay(plan, w, side, p) && p.packetType == Data;
      StaleBreaksDelivery(plan, w, side, p);
    } else {
      SoloAssures(plan, w, 0xFFFF);
    }
  }
}
