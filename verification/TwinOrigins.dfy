/** How a twin comes to be: a run of two new sockets after which their next connection cannot count on
    delivery. */
module TwinOrigins {
  import opened Words
  import opened Packets
  import opened Codec
  import opened Streams
  import opened Filters
  import opened Handshake
  import opened Transfer
  import opened Outgoing
  import opened Routing
  import opened Worlds
  import opened Wiring
  import opened Datagrams
  import opened WorldRuns
  import opened DatagramLimits
  import opened Twins
  import opened TwinLimits

  const NewRouter := Router(map[], [], [], [], false)
  const NewSender := SenderState([], false, [], [], false)
  const NewSocket := Socket(NewRouter, 0, NewSender)

  /** Two new sockets, on which nothing has happened yet. */
  function NewWorld(plan: Plan): World {
    World(map[plan.clientAddr := NewSocket, plan.serverAddr := NewSocket], {}, Absent, Absent, map[])
  }

  lemma NewWorldSound(plan: Plan)
    ensures Clean(plan, NewWorld(plan), AnyPacket()) && Housed(plan, NewWorld(plan))
  {
    NewRouterIsolated();
  }

  /** Two new sockets, or a new one that is to connect to itself, can count on delivery. */
  lemma NewSocketsAssured(plan: Plan)
    ensures var w := NewWorld(plan);
            && Before(plan, w) && Willing(plan, w) && Housed(plan, w) && Solo(plan, w) && !DataUnderWay(plan, w)
            && AssuredUpTo(plan, w, 0xFFFF)
  {
    NewWorldSound(plan);
    DeliveryExact(plan, NewWorld(plan));
  }

  /** A step of sockets that hold no stream of interest keeps them sound. */
  lemma SoundStep(plan: Plan, w: World, ev: WorldEvent)
    requires Clean(plan, w, AnyPacket()) && Housed(plan, w) && WorldEnabled(plan, w, ev)
    requires w.client.Absent? && w.server.Absent? && (ev.Connects? ==> !ev.ours)
    ensures var w' := WorldStep(plan, w, ev);
            Clean(plan, w', AnyPacket()) && Housed(plan, w') && w'.client.Absent? && w'.server.Absent?
  {
    var w' := WorldStep(plan, w, ev);
    StepKeepsHoused(plan, w, ev, AnyPacket());
    if ev.DatagramArrives? {
      ArrivalKeepsClean(plan, w, ev.frame, AnyPacket());
    } else {
      AsideKeepsClean(plan, w, ev, w', AnyPacket());
    }
  }

  // ---------------------------------------------------------------------------------------
  // The story
  // ---------------------------------------------------------------------------------------

  /** The ID under which the server's host opens the older connection: the one after the plan's. */
  function OldId(plan: Plan): u16 {
    WrappingAdd(plan.id, 1)
  }

  function OldSyn(plan: Plan): Packet {
    SynPacket(OldId(plan))
  }

  function OldSynAck(plan: Plan): Packet {
    SynAckPacket(OldSyn(plan), 0)
  }

  /** A sending task that has a packet to send, and that has sent it. */
  function ToSend(item: Item): SenderState {
    SenderState([item], false, [], [], false)
  }

  function HasSent(item: Item): SenderState {
    SenderState([], false, [], [ToDatagram(item)], false)
  }

  lemma SendOne(addr: SocketAddr, item: Item)
    ensures PollSender(ToSend(item), true, [SendOk]) == HasSent(item)
    ensures NewFrames(addr, ToSend(item), HasSent(item)) == {Frame(addr, item.1, Print(item.0))}
  {
    assert SentCount(1, [SendOk]) == 1 + SentCount(0, []);
    assert [] + [item] == [item] && [item][..1] == [item] && [item][1..] == [];
    assert ToDatagrams([item]) == [ToDatagram(item)] && [] + [ToDatagram(item)] == [ToDatagram(item)];
    assert HasSent(item).wire[0..] == [ToDatagram(item)];
  }

  /** The server's host after it has opened the older connection; after it has dropped its stream; and
      after a packet for it has made it forget the connection. */
  function Opener(plan: Plan): Router {
    AddBox(NewRouter, (OldId(plan), plan.clientAddr), true)
  }

  function Dropper(plan: Plan): Router {
    DropStream(Opener(plan), 0)
  }

  function Forgetter(plan: Plan): Router {
    RoutePacket(Dropper(plan), OldSynAck(plan), plan.clientAddr)
  }

  /** The client's host after the SYN has come, and after it has accepted. */
  function Asked(plan: Plan): Router {
    NewRouter.(syns := [(OldSyn(plan), plan.serverAddr)])
  }

  function Accepter(plan: Plan): Router {
    AddBox(Asked(plan), (WrappingAdd(plan.id, 2), plan.serverAddr), false)
  }

  function SynItem(plan: Plan): Item {
    (OldSyn(plan), plan.clientAddr)
  }

  function SynAckItem(plan: Plan): Item {
    (OldSynAck(plan), plan.serverAddr)
  }

  /** A world of two sockets before the connection of interest. */
  function Stage(plan: Plan, c: Socket, s: Socket, net: set<Frame>, others: map<Slot, StreamState>): World {
    World(map[plan.clientAddr := c, plan.serverAddr := s], net, Absent, Absent, others)
  }

  function SynFrame(plan: Plan): Frame {
    Frame(plan.serverAddr, plan.clientAddr, Print(OldSyn(plan)))
  }

  function SynAckFrame(plan: Plan): Frame {
    Frame(plan.clientAddr, plan.serverAddr, Print(OldSynAck(plan)))
  }

  function Survivor(plan: Plan): map<Slot, StreamState> {
    map[(plan.clientAddr, 0) := Accepted(OldSyn(plan), plan.serverAddr, 0)]
  }

  lemma StageSet(plan: Plan, c: Socket, s: Socket, net: set<Frame>, others: map<Slot, StreamState>, k: Socket)
    requires plan.clientAddr != plan.serverAddr
    ensures Stage(plan, c, s, net, others).With(plan.clientAddr, k) == Stage(plan, k, s, net, others)
    ensures Stage(plan, c, s, net, others).With(plan.serverAddr, k) == Stage(plan, c, k, net, others)
  {
    var w := Stage(plan, c, s, net, others);
    assert w.With(plan.clientAddr, k).sockets == Stage(plan, k, s, net, others).sockets;
    assert w.With(plan.serverAddr, k).sockets == Stage(plan, c, k, net, others).sockets;
  }

  /** The sending task at `addr` sends the one packet it has. */
  lemma SendStep(plan: Plan, w: World, addr: SocketAddr, k: Socket, item: Item)
    requires addr in w.sockets && w.sockets[addr] == k && k.sender == ToSend(item)
    ensures var ev := SenderPolled(addr, true, [SendOk]);
            && WorldEnabled(plan, w, ev)
            && WorldStep(plan, w, ev)
               == w.With(addr, k.(sender := HasSent(item))).(net := w.net + {Frame(addr, item.1, Print(item.0))})
  {
    SendOne(addr, item);
  }

  /** A datagram arrives at a socket without streams of its own. */
  lemma ArriveStep(plan: Plan, w: World, f: Frame, k: Socket)
    requires f in w.net && f.to in w.sockets && w.sockets[f.to] == k && !k.router.stopped
    requires w.client.Absent? && w.server.Absent? && forall slot <- w.others :: slot.0 != f.to
    ensures var ev := DatagramArrives(f);
            && WorldEnabled(plan, w, ev) && WorldStep(plan, w, ev) == w.With(f.to, ReadFrom(k, f))
  {
    assert HearsAll(w.others, f.to, k, ReadFrom(k, f)) == w.others;
  }

  lemma Step1(plan: Plan)
    requires plan.clientAddr != plan.serverAddr
    ensures var w, ev := NewWorld(plan), Connects(plan.serverAddr, plan.clientAddr, [OldId(plan)], false);
            && WorldEnabled(plan, w, ev)
            && WorldStep(plan, w, ev)
               == Stage(plan, NewSocket, Socket(Opener(plan), 0, ToSend(SynItem(plan))), {}, map[])
  {
    assert NewSocket.Connect(plan.clientAddr, [OldId(plan)]).sent == [SynItem(plan)];
    assert [] + [SynItem(plan)] == [SynItem(plan)];
  }

  lemma Step2(plan: Plan)
    requires plan.clientAddr != plan.serverAddr
    ensures var w := Stage(plan, NewSocket, Socket(Opener(plan), 0, ToSend(SynItem(plan))), {}, map[]);
            var ev := SenderPolled(plan.serverAddr, true, [SendOk]);
            && WorldEnabled(plan, w, ev)
            && WorldStep(plan, w, ev)
               == Stage(plan, NewSocket, Socket(Opener(plan), 0, HasSent(SynItem(plan))), {SynFrame(plan)}, map[])
  {
    var s := Socket(Opener(plan), 0, ToSend(SynItem(plan)));
    var w := Stage(plan, NewSocket, s, {}, map[]);
    SendStep(plan, w, plan.serverAddr, s, SynItem(plan));
    StageSet(plan, NewSocket, s, {}, map[], s.(sender := HasSent(SynItem(plan))));
    assert {} + {SynFrame(plan)} == {SynFrame(plan)};
  }

  lemma Step3(plan: Plan)
    requires plan.clientAddr != plan.serverAddr
    ensures var s := Socket(Opener(plan), 0, HasSent(SynItem(plan)));
            var w, ev := Stage(plan, NewSocket, s, {SynFrame(plan)}, map[]), DatagramArrives(SynFrame(plan));
            && WorldEnabled(plan, w, ev)
            && WorldStep(plan, w, ev) == Stage(plan, Socket(Asked(plan), 0, NewSender), s, {SynFrame(plan)}, map[])
  {
    var s := Socket(Opener(plan), 0, HasSent(SynItem(plan)));
    var w := Stage(plan, NewSocket, s, {SynFrame(plan)}, map[]);
    ReadsPacket(NewSocket, SynFrame(plan), OldSyn(plan));
    assert [] + [(OldSyn(plan), plan.serverAddr)] == [(OldSyn(plan), plan.serverAddr)];
    assert ReadFrom(NewSocket, SynFrame(plan)) == Socket(Asked(plan), 0, NewSender);
    ArriveStep(plan, w, SynFrame(plan), NewSocket);
    StageSet(plan, NewSocket, s, {SynFrame(plan)}, map[], Socket(Asked(plan), 0, NewSender));
  }

  lemma Step4(plan: Plan)
    requires plan.clientAddr != plan.serverAddr
    ensures var s := Socket(Opener(plan), 0, HasSent(SynItem(plan)));
            var w, ev := Stage(plan, Socket(Asked(plan), 0, NewSender), s, {SynFrame(plan)}, map[]), Accepts(plan.clientAddr, 0);
            && WorldEnabled(plan, w, ev)
            && WorldStep(plan, w, ev)
               == Stage(plan, Socket(Accepter(plan), 1, ToSend(SynAckItem(plan))), s, {SynFrame(plan)}, Survivor(plan))
  {
    var k := Socket(Asked(plan), 0, NewSender);
    assert WrappingAdd(OldId(plan), 1) == WrappingAdd(plan.id, 2);
    assert k.Accept(0).router == Accepter(plan) && k.Accept(0).sent == [SynAckItem(plan)];
    assert [] + [SynAckItem(plan)] == [SynAckItem(plan)];
  }

  lemma Step5(plan: Plan)
    requires plan.clientAddr != plan.serverAddr
    ensures var c := Socket(Accepter(plan), 1, ToSend(SynAckItem(plan)));
            var w := Stage(plan, c, Socket(Opener(plan), 0, HasSent(SynItem(plan))), {SynFrame(plan)}, Survivor(plan));
            var ev := OtherDropped(plan.serverAddr, 0);
            && WorldEnabled(plan, w, ev)
            && WorldStep(plan, w, ev)
               == Stage(plan, c, Socket(Dropper(plan), 0, HasSent(SynItem(plan))), {SynFrame(plan)}, Survivor(plan))
  {
    assert Survivor(plan) - {(plan.serverAddr, 0)} == Survivor(plan);
  }

  lemma Step6(plan: Plan)
    requires plan.clientAddr != plan.serverAddr
    ensures var s := Socket(Dropper(plan), 0, HasSent(SynItem(plan)));
            var w := Stage(plan, Socket(Accepter(plan), 1, ToSend(SynAckItem(plan))), s, {SynFrame(plan)}, Survivor(plan));
            var ev := SenderPolled(plan.clientAddr, true, [SendOk]);
            && WorldEnabled(plan, w, ev)
            && WorldStep(plan, w, ev)
               == Stage(plan, Socket(Accepter(plan), 1, HasSent(SynAckItem(plan))), s,
                        {SynFrame(plan), SynAckFrame(plan)}, Survivor(plan))
  {
    var c, s := Socket(Accepter(plan), 1, ToSend(SynAckItem(plan))), Socket(Dropper(plan), 0, HasSent(SynItem(plan)));
    var w := Stage(plan, c, s, {SynFrame(plan)}, Survivor(plan));
    SendStep(plan, w, plan.clientAddr, c, SynAckItem(plan));
    StageSet(plan, c, s, {SynFrame(plan)}, Survivor(plan), c.(sender := HasSent(SynAckItem(plan))));
    assert {SynFrame(plan)} + {SynAckFrame(plan)} == {SynFrame(plan), SynAckFrame(plan)};
  }

  lemma Step7(plan: Plan)
    requires plan.clientAddr != plan.serverAddr
    ensures var c := Socket(Accepter(plan), 1, HasSent(SynAckItem(plan)));
            var net := {SynFrame(plan), SynAckFrame(plan)};
            var w := Stage(plan, c, Socket(Dropper(plan), 0, HasSent(SynItem(plan))), net, Survivor(plan));
            var ev := DatagramArrives(SynAckFrame(plan));
            && WorldEnabled(plan, w, ev)
            && WorldStep(plan, w, ev)
               == Stage(plan, c, Socket(Forgetter(plan), 0, HasSent(SynItem(plan))), net, Survivor(plan))
  {
    var c, s := Socket(Accepter(plan), 1, HasSent(SynAckItem(plan))), Socket(Dropper(plan), 0, HasSent(SynItem(plan)));
    var net := {SynFrame(plan), SynAckFrame(plan)};
    ReadsPacket(s, SynAckFrame(plan), OldSynAck(plan));
    assert ReadFrom(s, SynAckFrame(plan)) == s.(router := Forgetter(plan));
    ArriveStep(plan, Stage(plan, c, s, net, Survivor(plan)), SynAckFrame(plan), s);
    StageSet(plan, c, s, net, Survivor(plan), s.(router := Forgetter(plan)));
  }

  /** The world that the story ends in. */
  function Outcome(plan: Plan): World {
    Stage(plan, Socket(Accepter(plan), 1, HasSent(SynAckItem(plan))), Socket(Forgetter(plan), 0, HasSent(SynItem(plan))),
          {SynFrame(plan), SynAckFrame(plan)}, Survivor(plan))
  }

  function Story(plan: Plan): seq<WorldEvent> {
    [Connects(plan.serverAddr, plan.clientAddr, [OldId(plan)], false),
     SenderPolled(plan.serverAddr, true, [SendOk]),
     DatagramArrives(SynFrame(plan)),
     Accepts(plan.clientAddr, 0),
     OtherDropped(plan.serverAddr, 0),
     SenderPolled(plan.clientAddr, true, [SendOk]),
     DatagramArrives(SynAckFrame(plan))]
  }

  ghost predicate Sound(plan: Plan, w: World) {
    Clean(plan, w, AnyPacket()) && Housed(plan, w) && w.client.Absent? && w.server.Absent?
  }

  /** A sound world before the connection, and where a run takes it. */
  ghost predicate Leads(plan: Plan, w: World, evs: seq<WorldEvent>, w': World) {
    && WorldPossible(plan, w, evs) && WorldAfter(plan, w, evs) == w'
    && (Sound(plan, w) ==> Sound(plan, w'))
  }

  lemma LeadsNowhere(plan: Plan, w: World)
    ensures Leads(plan, w, [], w)
  {
  }

  lemma LeadsOn(plan: Plan, w: World, ev: WorldEvent, evs: seq<WorldEvent>, w': World)
    requires WorldEnabled(plan, w, ev) && (ev.Connects? ==> !ev.ours) && w.client.Absent? && w.server.Absent?
    requires Leads(plan, WorldStep(plan, w, ev), evs, w')
    ensures Leads(plan, w, [ev] + evs, w')
  {
    assert ([ev] + evs)[1..] == evs;
    if Sound(plan, w) {
      SoundStep(plan, w, ev);
    }
  }

  lemma LastPart(plan: Plan)
    requires plan.clientAddr != plan.serverAddr
    ensures Leads(plan, Stage(plan, Socket(Accepter(plan), 1, ToSend(SynAckItem(plan))),
                              Socket(Dropper(plan), 0, HasSent(SynItem(plan))), {SynFrame(plan)}, Survivor(plan)),
                  Story(plan)[5..], Outcome(plan))
  {
    var story := Story(plan);
    Step6(plan);
    Step7(plan);
    LeadsNowhere(plan, Outcome(plan));
    LeadsOn(plan, Stage(plan, Socket(Accepter(plan), 1, HasSent(SynAckItem(plan))),
                        Socket(Dropper(plan), 0, HasSent(SynItem(plan))), {SynFrame(plan), SynAckFrame(plan)},
                        Survivor(plan)), story[6], [], Outcome(plan));
    LeadsOn(plan, Stage(plan, Socket(Accepter(plan), 1, ToSend(SynAckItem(plan))),
                        Socket(Dropper(plan), 0, HasSent(SynItem(plan))), {SynFrame(plan)}, Survivor(plan)),
            story[5], [story[6]] + [], Outcome(plan));
    assert story[5..] == [story[5]] + ([story[6]] + []);
  }

  lemma MiddlePart(plan: Plan)
    requires plan.clientAddr != plan.serverAddr
    ensures Leads(plan, Stage(plan, Socket(Asked(plan), 0, NewSender), Socket(Opener(plan), 0, HasSent(SynItem(plan))),
                              {SynFrame(plan)}, map[]), Story(plan)[3..], Outcome(plan))
  {
    var story := Story(plan);
    Step4(plan);
    Step5(plan);
    LastPart(plan);
    LeadsOn(plan, Stage(plan, Socket(Accepter(plan), 1, ToSend(SynAckItem(plan))),
                        Socket(Opener(plan), 0, HasSent(SynItem(plan))), {SynFrame(plan)}, Survivor(plan)),
            story[4], story[5..], Outcome(plan));
    LeadsOn(plan, Stage(plan, Socket(Asked(plan), 0, NewSender), Socket(Opener(plan), 0, HasSent(SynItem(plan))),
                        {SynFrame(plan)}, map[]),
            story[3], [story[4]] + story[5..], Outcome(plan));
    assert story[3..] == [story[3]] + ([story[4]] + story[5..]);
  }

  lemma FromArrival(plan: Plan)
    requires plan.clientAddr != plan.serverAddr
    ensures Leads(plan, Stage(plan, NewSocket, Socket(Opener(plan), 0, HasSent(SynItem(plan))), {SynFrame(plan)}, map[]),
                  Story(plan)[2..], Outcome(plan))
  {
    var story := Story(plan);
    Step3(plan);
    MiddlePart(plan);
    LeadsOn(plan, Stage(plan, NewSocket, Socket(Opener(plan), 0, HasSent(SynItem(plan))), {SynFrame(plan)}, map[]),
            story[2], story[3..], Outcome(plan));
    assert story[2..] == [story[2]] + story[3..];
  }

  lemma FirstPart(plan: Plan)
    requires plan.clientAddr != plan.serverAddr
    ensures Leads(plan, Stage(plan, NewSocket, Socket(Opener(plan), 0, ToSend(SynItem(plan))), {}, map[]),
                  Story(plan)[1..], Outcome(plan))
  {
    var story := Story(plan);
    Step2(plan);
    FromArrival(plan);
    LeadsOn(plan, Stage(plan, NewSocket, Socket(Opener(plan), 0, ToSend(SynItem(plan))), {}, map[]),
            story[1], story[2..], Outcome(plan));
    assert story[1..] == [story[1]] + story[2..];
  }

  lemma WholeStory(plan: Plan)
    requires plan.clientAddr != plan.serverAddr
    ensures Leads(plan, NewWorld(plan), Story(plan), Outcome(plan))
  {
    var story := Story(plan);
    Step1(plan);
    FirstPart(plan);
    LeadsOn(plan, NewWorld(plan), story[0], story[1..], Outcome(plan));
    assert story == [story[0]] + story[1..];
  }

  lemma Forgotten(plan: Plan)
    ensures Forgetter(plan).table == map[] && Forgetter(plan).syns == [] && !Forgetter(plan).stopped
  {
    var key := (OldId(plan), plan.clientAddr);
    assert Dropper(plan).table == map[key := 0] && !Dropper(plan).boxes[0].open;
    assert map[key := 0] - {key} == map[];
  }

  lemma AccepterVacant(plan: Plan)
    ensures plan.Key(Client) !in Accepter(plan).table && !Accepter(plan).stopped
  {
    assert plan.id != WrappingAdd(plan.id, 2);
  }

  lemma OutcomeSockets(plan: Plan)
    requires plan.clientAddr != plan.serverAddr
    ensures plan.clientAddr in Outcome(plan).sockets && plan.serverAddr in Outcome(plan).sockets
    ensures Outcome(plan).sockets[plan.clientAddr] == Socket(Accepter(plan), 1, HasSent(SynAckItem(plan)))
    ensures Outcome(plan).sockets[plan.serverAddr] == Socket(Forgetter(plan), 0, HasSent(SynItem(plan)))
  {
  }

  lemma WillingBy(plan: Plan, w: World)
    requires plan.clientAddr in w.sockets && plan.serverAddr in w.sockets
    requires Isolated(w.sockets[plan.clientAddr].router) && Isolated(w.sockets[plan.serverAddr].router)
    requires w.sockets[plan.clientAddr].Running() && !w.sockets[plan.clientAddr].router.stopped
    requires w.sockets[plan.serverAddr].Running() && !w.sockets[plan.serverAddr].router.stopped
    requires plan.Key(Client) !in w.sockets[plan.clientAddr].router.table
    requires w.sockets[plan.serverAddr].router.table == map[]
    requires w.sockets[plan.serverAddr].router.syns == [] && w.sockets[plan.serverAddr].synsTaken == 0
    ensures Willing(plan, w)
  {
  }

  lemma OutcomeWilling(plan: Plan)
    requires plan.clientAddr != plan.serverAddr && Clean(plan, Outcome(plan), AnyPacket())
    ensures Willing(plan, Outcome(plan))
  {
    OutcomeSockets(plan);
    Forgotten(plan);
    AccepterVacant(plan);
    CleanRouter(plan, Outcome(plan), Client, AnyPacket());
    CleanRouter(plan, Outcome(plan), Server, AnyPacket());
    WillingBy(plan, Outcome(plan));
  }

  lemma SamePacket(p: Packet, q: Packet)
    requires Sendable(p) && Sendable(q) && Print(p) == Print(q)
    ensures p == q
  {
    SendableFits(p);
    SendableFits(q);
  }

  lemma OutcomeNoData(plan: Plan)
    requires plan.clientAddr != plan.serverAddr
    ensures !DataUnderWay(plan, Outcome(plan))
  {
    var w := Outcome(plan);
    forall side: Side, p | UnderWay(plan, w, side, p)
      ensures p.packetType != Data
    {
      assert !Queued(w, plan.Addr(side), (p, plan.Addr(side.Other())));
      if Print(p) == Print(OldSyn(plan)) {
        SamePacket(p, OldSyn(plan));
      } else {
        SamePacket(p, OldSynAck(plan));
      }
    }
  }

  /** Between any two new sockets and for every ID: the server's host opens a connection under the next ID,
      the client's host accepts it, the server's host drops its end and forgets it. The two are then
      about to connect under the given ID, with nothing but acknowledgements left over; but the end
      that lives on is a twin, and delivery is not assured. */
  lemma TwinArises(plan: Plan)
    requires plan.clientAddr != plan.serverAddr
    ensures WorldPossible(plan, NewWorld(plan), Story(plan))
    ensures var w := WorldAfter(plan, NewWorld(plan), Story(plan));
            && Before(plan, w) && Willing(plan, w) && Housed(plan, w) && !DataUnderWay(plan, w)
            && HasTwin(plan, w, Client) && !Solo(plan, w) && !AssuredUpTo(plan, w, 0xFFFF)
  {
    var w := Outcome(plan);
    NewWorldSound(plan);
    WholeStory(plan);
    OutcomeWilling(plan);
    OutcomeNoData(plan);
    assert Twin(plan, Client, (plan.clientAddr, 0), w.others[(plan.clientAddr, 0)]);
    SoloIsNoTwin(plan, w);
    DeliveryExact(plan, w);
  }
}
