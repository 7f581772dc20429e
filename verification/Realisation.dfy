/** The other half of the refinement: whatever the abstract packet network can do, sockets and datagrams
    can do. */
module Realisation {
  import opened Words
  import opened Packets
  import opened Codec
  import opened Streams
  import opened Endpoints
  import opened Handshake
  import opened Transfer
  import opened Limits
  import opened Outgoing
  import opened Worlds
  import opened Wiring
  import opened Datagrams
  import opened WorldRuns

  // ---------------------------------------------------------------------------------------
  // Worlds in which everything sent can still arrive
  // ---------------------------------------------------------------------------------------

  ghost predicate OnWire(plan: Plan, w: World, side: Side) {
    forall p <- w.At(side).Log() | p.packetType != Syn :: UnderWay(plan, w, side, p)
  }

  ghost predicate RealisesSide(plan: Plan, w: World, s: System, side: Side) {
    && w.At(side).Live? && s.At(side) == w.At(side).endpoint.(late := s.At(side).late)
    && OnWire(plan, w, side)
  }

  /** The streams of `w` are the endpoints of `s`, up to the record of late copies, and all that they
      have sent can still arrive. */
  ghost predicate Realises(plan: Plan, w: World, s: System) {
    && Hosts(plan, w)
    && RealisesSide(plan, w, s, Client) && RealisesSide(plan, w, s, Server)
  }

  lemma UnderWayStays(plan: Plan, w: World, w': World, side: Side, p: Packet)
    requires UnderWay(plan, w, side, p) && KeepsQueued(w, w') && w.net <= w'.net
    ensures UnderWay(plan, w', side, p)
  {
  }

  lemma OnWireStays(plan: Plan, w: World, w': World, side: Side)
    requires OnWire(plan, w, side) && KeepsQueued(w, w') && w.net <= w'.net && w'.At(side).Log() == w.At(side).Log()
    ensures OnWire(plan, w', side)
  {
    forall p <- w'.At(side).Log() | p.packetType != Syn
      ensures UnderWay(plan, w', side, p)
    {
      UnderWayStays(plan, w, w', side, p);
    }
  }

  // ---------------------------------------------------------------------------------------
  // Orderly runs
  // ---------------------------------------------------------------------------------------

  /** The abstract system has recorded no late copy, and the sender is at most `lead` segments ahead. */
  ghost predicate LeadAt(s: System, from: Side, lead: nat) {
    s.At(from.Other()).late == {} && |s.At(from).segs| - |s.At(from.Other()).assembled| <= lead
  }

  lemma RealisesLead(plan: Plan, w: World, s: System, from: Side, lead: nat)
    requires Realises(plan, w, s) && LeadAt(s, from, lead)
    ensures Lead(w, from, lead)
  {
    assert RealisesSide(plan, w, s, from) && RealisesSide(plan, w, s, from.Other());
  }

  lemma OneOrderly(plan: Plan, w: World, ev: WorldEvent, from: Side, lead: nat)
    requires WorldPossible(plan, w, [ev]) && Punctual(plan, w, ev, from)
    requires Lead(w, from, lead) && Lead(WorldAfter(plan, w, [ev]), from, lead)
    ensures Orderly(plan, w, [ev], {from}, lead)
  {
    assert [ev][1..] == [];
    assert WorldAfter(plan, w, [ev]) == WorldStep(plan, w, ev);
  }

  lemma {:induction false} OrderlyAppend(
    plan: Plan, w: World, evs: seq<WorldEvent>, w': World, more: seq<WorldEvent>, strict: set<Side>, lead: nat)
    requires WorldPossible(plan, w, evs) && WorldAfter(plan, w, evs) == w' && WorldPossible(plan, w', more)
    requires WorldPossible(plan, w, evs + more)
    requires Orderly(plan, w, evs, strict, lead) && Orderly(plan, w', more, strict, lead)
    ensures Orderly(plan, w, evs + more, strict, lead)
    decreases |evs|
  {
    if evs == [] {
      assert evs + more == more;
    } else {
      assert (evs + more)[1..] == evs[1..] + more;
      OrderlyAppend(plan, WorldStep(plan, w, evs[0]), evs[1..], w', more, strict, lead);
    }
  }

  // ---------------------------------------------------------------------------------------
  // Polls
  // ---------------------------------------------------------------------------------------

  lemma QueueingKeepsQueued(w: World, w': World, addr: SocketAddr, items: seq<Item>)
    requires addr in w.sockets && w'.sockets == w.sockets[addr := w.sockets[addr].Queue(items)]
    ensures KeepsQueued(w, w')
    ensures w.sockets[addr].Running() ==> forall item <- items :: Queued(w', addr, item)
  {
  }

  lemma QueueingContinues(k: Socket, items: seq<Item>)
    ensures Continues(k, k.Queue(items))
  {
  }

  /** A packet of the log after a poll was there before, or is one of the new items. */
  lemma OldOrNew(st: StreamState, st': StreamState, to: SocketAddr, p: Packet)
    requires st.outgoing <= st'.outgoing && p in st'.outgoing
    ensures p in st.outgoing || (p, to) in NewItems(st, st', to)
  {
    var i :| 0 <= i < |st'.outgoing| && st'.outgoing[i] == p;
    if i >= |st.outgoing| {
      assert NewItems(st, st', to)[i - |st.outgoing|] == (p, to);
    } else {
      assert st.outgoing[i] == p;
    }
  }

  lemma PolledOnWire(plan: Plan, w: World, w': World, side: Side, e': Endpoint)
    requires OnWire(plan, w, side) && w.At(side).Live? && Ready(w, plan.Addr(side))
    requires var e := w.At(side).endpoint;
             && SendsOn(e.st, e'.st) && e.st.connectionIdSend == plan.SendId(side)
             && w'.At(side) == w.At(side).(endpoint := e') && w.net <= w'.net
             && w'.sockets == w.sockets[plan.Addr(side) := w.sockets[plan.Addr(side)].Queue(
                                          NewItems(e.st, e'.st, plan.Addr(side.Other())))]
    ensures OnWire(plan, w', side)
  {
    var st, to := w.At(side).endpoint.st, plan.Addr(side.Other());
    var items := NewItems(st, e'.st, to);
    QueueingKeepsQueued(w, w', plan.Addr(side), items);
    NewItemsKnown(st, e'.st, to);
    forall p <- w'.At(side).Log() | p.packetType != Syn
      ensures UnderWay(plan, w', side, p)
    {
      OldOrNew(st, e'.st, to, p);
      if p in st.outgoing {
        UnderWayStays(plan, w, w', side, p);
      }
    }
  }

  lemma PollSides(plan: Plan, w: World, w': World, s: System, side: Side, op: Op)
    requires RealisesSide(plan, w, s, side) && RealisesSide(plan, w, s, side.Other()) && !op.Receive?
    requires w'.At(side) == w.At(side).(endpoint := Endpoints.Do(w.At(side).endpoint, op))
    requires w'.At(side.Other()) == w.At(side.Other())
    requires OnWire(plan, w', Client) && OnWire(plan, w', Server)
    ensures RealisesSide(plan, w', Step(s, Poll(side, op)), Client)
    ensures RealisesSide(plan, w', Step(s, Poll(side, op)), Server)
  {
    DoIgnoresLate(w.At(side).endpoint, s.At(side).late, op);
    SegsGrow(s.At(side), op);
  }

  lemma PolledHosts(plan: Plan, w: World, w': World, side: Side, op: Op, items: seq<Item>)
    requires Hosts(plan, w) && w.At(side).Live?
    requires w'.At(side) == w.At(side).(endpoint := Endpoints.Do(w.At(side).endpoint, op))
    requires w'.At(side.Other()) == w.At(side.Other())
    requires w'.sockets == w.sockets[plan.Addr(side) := w.sockets[plan.Addr(side)].Queue(items)]
    ensures Hosts(plan, w')
  {
    DoSendsOn(w.At(side).endpoint, op);
    QueueingContinues(w.sockets[plan.Addr(side)], items);
    assert SameMailboxes(w, w') && SameIds(w, w');
    ContinuesKeeps(plan, w, w', plan.Addr(side), w.sockets[plan.Addr(side)].Queue(items));
  }

  lemma PollRealised(plan: Plan, w: World, s: System, side: Side, op: Op) returns (w': World)
    requires Realises(plan, w, s) && !op.Receive?
    ensures Path(plan, w, [StreamPolled(side, op)], w') && Retains(w, w')
    ensures Realises(plan, w', Step(s, Poll(side, op)))
  {
    var e, addr, other := w.At(side).endpoint, plan.Addr(side), side.Other();
    assert RealisesSide(plan, w, s, side) && RealisesSide(plan, w, s, other) && Ready(w, addr) && Routed(plan, w, side);
    w' := PollPath(plan, w, side, op);
    var items := NewItems(e.st, Endpoints.Do(e, op).st, plan.Addr(other));
    PolledHosts(plan, w, w', side, op, items);
    QueueingKeepsQueued(w, w', addr, items);
    DoSendsOn(e, op);
    PolledOnWire(plan, w, w', side, Endpoints.Do(e, op));
    OnWireStays(plan, w, w', other);
    PollSides(plan, w, w', s, side, op);
  }

  // ---------------------------------------------------------------------------------------
  // Deliveries
  // ---------------------------------------------------------------------------------------

  lemma PushRealised(plan: Plan, w: World, s: System, side: Side, p: Packet) returns (ev: WorldEvent, w': World)
    requires Realises(plan, w, s) && UnderWay(plan, w, side, p)
    ensures ev.SenderPolled? && Path(plan, w, [ev], w') && Retains(w, w')
    ensures Realises(plan, w', s) && FrameOf(plan, side, p) in w'.net
  {
    assert Ready(w, plan.Addr(side));
    ev, w' := Push(plan, w, plan.Addr(side));
    SameHostsKeeps(plan, w, w');
    OnWireStays(plan, w, w', Client);
    OnWireStays(plan, w, w', Server);
  }

  lemma DeliverSides(plan: Plan, w: World, w': World, s: System, to: Side, j: nat)
    requires RealisesSide(plan, w, s, Client) && RealisesSide(plan, w, s, Server) && Enabled(s, Deliver(to, j))
    requires w'.At(to) == Notice(w.At(to), Some(s.At(to.Other()).st.outgoing[j]))
    requires w'.At(to.Other()) == w.At(to.Other())
    requires OnWire(plan, w', Client) && OnWire(plan, w', Server)
    ensures RealisesSide(plan, w', Step(s, Deliver(to, j)), Client)
    ensures RealisesSide(plan, w', Step(s, Deliver(to, j)), Server)
  {
  }

  lemma FrameSides(plan: Plan, w: World, w': World, s: System, to: Side, j: nat)
    requires RealisesSide(plan, w, s, Client) && RealisesSide(plan, w, s, Server) && Enabled(s, Deliver(to, j))
    requires w'.At(to) == Notice(w.At(to), Some(s.At(to.Other()).st.outgoing[j]))
    requires w'.At(to.Other()) == w.At(to.Other()) && Retains(w, w')
    ensures RealisesSide(plan, w', Step(s, Deliver(to, j)), Client)
    ensures RealisesSide(plan, w', Step(s, Deliver(to, j)), Server)
  {
    NoticeKeeps(w.At(to), Some(s.At(to.Other()).st.outgoing[j]));
    OnWireStays(plan, w, w', to);
    OnWireStays(plan, w, w', to.Other());
    DeliverSides(plan, w, w', s, to, j);
  }

  lemma FrameArrives(plan: Plan, w: World, s: System, to: Side, p: Packet) returns (w': World)
    requires Realises(plan, w, s) && FrameOf(plan, to.Other(), p) in w.net
    requires Carries(plan, to.Other().Other(), FrameOf(plan, to.Other(), p), p)
    ensures Path(plan, w, [DatagramArrives(FrameOf(plan, to.Other(), p))], w') && Hosts(plan, w') && Retains(w, w')
    ensures w'.At(to) == Notice(w.At(to), Some(p)) && w'.At(to.Other()) == w.At(to.Other())
  {
    assert to.Other().Other() == to;
    assert RealisesSide(plan, w, s, to) && RealisesSide(plan, w, s, to.Other());
    w' := Arrives(plan, w, to, FrameOf(plan, to.Other(), p), p);
  }

  /** Hand over a datagram that is under way. */
  lemma FrameRealised(plan: Plan, w: World, s: System, to: Side, j: nat) returns (w': World)
    requires Realises(plan, w, s) && Enabled(s, Deliver(to, j))
    requires var p := s.At(to.Other()).st.outgoing[j];
             FrameOf(plan, to.Other(), p) in w.net && UnderWay(plan, w, to.Other(), p)
    ensures Path(plan, w, [DatagramArrives(FrameOf(plan, to.Other(), s.At(to.Other()).st.outgoing[j]))], w')
    ensures Retains(w, w') && Realises(plan, w', Step(s, Deliver(to, j)))
  {
    var p := s.At(to.Other()).st.outgoing[j];
    FrameCarries(plan, to.Other(), p);
    w' := FrameArrives(plan, w, s, to, p);
    FrameSides(plan, w, w', s, to, j);
  }

  lemma FresherIgnoresLate(x: Endpoint, late: set<nat>, assembled: nat, p: Packet)
    ensures Fresher(x.(late := late), assembled, p) == Fresher(x, assembled, p)
  {
  }

  /** If the abstract system records no late copy, what it hands over is a segment not yet assembled. */
  lemma NoLateIsFresh(s: System, to: Side, j: nat, lead: nat)
    requires Locals(s) && Enabled(s, Deliver(to, j)) && LeadAt(Step(s, Deliver(to, j)), to.Other(), lead)
    requires s.At(to.Other()).st.outgoing[j].packetType == Data
    ensures Fresher(s.At(to.Other()), |s.At(to).assembled|, s.At(to.Other()).st.outgoing[j])
  {
    var x := s.At(to.Other());
    assert to.Other().Other() == to;
    assert |x.tags| == |x.st.outgoing|;
    assert x.tags[j] !in Step(s, Deliver(to, j)).At(to).late;
  }

  lemma SilentIsPunctual(plan: Plan, w: World, f: Frame, from: Side)
    requires Mailed(plan, w, from.Other(), f) == None
    ensures Punctual(plan, w, DatagramArrives(f), from)
  {
  }

  lemma FresherIsPunctual(plan: Plan, w: World, f: Frame, from: Side, p: Packet)
    requires Mailed(plan, w, from.Other(), f) == Some(p)
    requires p.packetType == Data ==>
               w.At(from).Live? && Fresher(w.At(from).endpoint, |w.At(from.Other()).Assembled()|, p)
    ensures Punctual(plan, w, DatagramArrives(f), from)
  {
  }

  /** Then the datagram is punctual. */
  lemma FramePunctual(plan: Plan, w: World, s: System, to: Side, j: nat, from: Side, lead: nat)
    requires Realises(plan, w, s) && Locals(s) && Enabled(s, Deliver(to, j))
    requires LeadAt(Step(s, Deliver(to, j)), from, lead)
    requires OfStream(s.At(to.Other()).st.outgoing[j], plan.SendId(to.Other()))
    ensures Punctual(plan, w, DatagramArrives(FrameOf(plan, to.Other(), s.At(to.Other()).st.outgoing[j])), from)
  {
    var x, p := s.At(to.Other()), s.At(to.Other()).st.outgoing[j];
    var f := FrameOf(plan, to.Other(), p);
    assert RealisesSide(plan, w, s, to) && RealisesSide(plan, w, s, to.Other());
    FrameCarries(plan, to.Other(), p);
    assert to.Other().Other() == to;
    MailArrives(plan, w, to, f, p);
    if from == to {
      SilentIsPunctual(plan, w, f, from);
    } else {
      assert from == to.Other() && from.Other() == to;
      if p.packetType == Data {
        NoLateIsFresh(s, to, j, lead);
        FresherIgnoresLate(w.At(from).endpoint, x.late, |s.At(to).assembled|, p);
      }
      FresherIsPunctual(plan, w, f, from, p);
    }
  }

  lemma DeliveryRealised(plan: Plan, w: World, s: System, to: Side, j: nat, from: Side, lead: nat)
    returns (evs: seq<WorldEvent>, w': World)
    requires Realises(plan, w, s) && Locals(s) && Enabled(s, Deliver(to, j))
    ensures Path(plan, w, evs, w') && Retains(w, w')
    ensures Realises(plan, w', Step(s, Deliver(to, j)))
    ensures LeadAt(s, from, lead) && LeadAt(Step(s, Deliver(to, j)), from, lead) ==>
              Orderly(plan, w, evs, {from}, lead)
  {
    var p := s.At(to.Other()).st.outgoing[j];
    var f := FrameOf(plan, to.Other(), p);
    assert RealisesSide(plan, w, s, to.Other());
    assert p in w.At(to.Other()).Log();
    var push, w1 := PushRealised(plan, w, s, to.Other(), p);
    assert RealisesSide(plan, w1, s, to.Other());
    assert UnderWay(plan, w1, to.Other(), p);
    w' := FrameRealised(plan, w1, s, to, j);
    Append(plan, w, [push], w1, [DatagramArrives(f)], w');
    RetainsTwice(w, w1, w');
    evs := [push] + [DatagramArrives(f)];
    if LeadAt(s, from, lead) && LeadAt(Step(s, Deliver(to, j)), from, lead) {
      RealisesLead(plan, w, s, from, lead);
      RealisesLead(plan, w1, s, from, lead);
      RealisesLead(plan, w', Step(s, Deliver(to, j)), from, lead);
      OneOrderly(plan, w, push, from, lead);
      FramePunctual(plan, w1, s, to, j, from, lead);
      OneOrderly(plan, w1, DatagramArrives(f), from, lead);
      OrderlyAppend(plan, w, [push], w1, [DatagramArrives(f)], {from}, lead);
    }
  }

  // ---------------------------------------------------------------------------------------
  // Runs
  // ---------------------------------------------------------------------------------------

  lemma LeadRunAt(s: System, evs: seq<Event>, from: Side, lead: nat)
    requires Possible(s, evs) && LeadRun(s, evs, from, lead)
    ensures LeadAt(s, from, lead)
    ensures evs != [] ==> LeadAt(Step(s, evs[0]), from, lead) && LeadRun(Step(s, evs[0]), evs[1..], from, lead)
  {
  }

  lemma StepRealised(plan: Plan, w: World, s: System, ev: Event, from: Side, lead: nat)
    returns (evs: seq<WorldEvent>, w': World)
    requires Realises(plan, w, s) && Locals(s) && Enabled(s, ev) && !ev.Stray?
    ensures Path(plan, w, evs, w') && Retains(w, w') && Realises(plan, w', Step(s, ev))
    ensures LeadAt(s, from, lead) && LeadAt(Step(s, ev), from, lead) ==> Orderly(plan, w, evs, {from}, lead)
  {
    match ev
    case Poll(side, op) =>
      w' := PollRealised(plan, w, s, side, op);
      evs := [StreamPolled(side, op)];
      if LeadAt(s, from, lead) && LeadAt(Step(s, ev), from, lead) {
        RealisesLead(plan, w, s, from, lead);
        RealisesLead(plan, w', Step(s, ev), from, lead);
        OneOrderly(plan, w, StreamPolled(side, op), from, lead);
      }
    case Deliver(to, j) =>
      evs, w' := DeliveryRealised(plan, w, s, to, j, from, lead);
  }

  lemma NothingHappens(plan: Plan, w: World, s: System, from: Side, lead: nat)
    requires Realises(plan, w, s)
    ensures Path(plan, w, [], w) && Retains(w, w)
    ensures LeadAt(s, from, lead) ==> Orderly(plan, w, [], {from}, lead)
  {
    if LeadAt(s, from, lead) {
      RealisesLead(plan, w, s, from, lead);
    }
    assert SynAckFirst(plan, w);
  }

  /** Every run of the abstract system without strays is the work of sockets, tasks and datagrams, with no
      other connection joining in; and one without late copies and too far a lead, by an orderly run. */
  lemma {:induction false} RunRealised(plan: Plan, w: World, s: System, steps: seq<Event>, from: Side, lead: nat)
    returns (evs: seq<WorldEvent>, w': World)
    requires Realises(plan, w, s) && Locals(s) && Possible(s, steps) && Pure(steps)
    ensures Path(plan, w, evs, w') && Retains(w, w')
    ensures Realises(plan, w', After(s, steps))
    ensures LeadRun(s, steps, from, lead) ==> Orderly(plan, w, evs, {from}, lead)
    decreases |steps|
  {
    if LeadRun(s, steps, from, lead) {
      LeadRunAt(s, steps, from, lead);
    }
    if steps == [] {
      NothingHappens(plan, w, s, from, lead);
      return [], w;
    }
    assert steps[0] in steps && forall ev <- steps[1..] :: ev in steps;
    var first, w1 := StepRealised(plan, w, s, steps[0], from, lead);
    StepKeepsLocals(s, steps[0]);
    var rest;
    rest, w' := RunRealised(plan, w1, Step(s, steps[0]), steps[1..], from, lead);
    Append(plan, w, first, w1, rest, w');
    RetainsTwice(w, w1, w');
    evs := first + rest;
    if LeadRun(s, steps, from, lead) {
      OrderlyAppend(plan, w, first, w1, rest, {from}, lead);
    }
  }

  lemma EstablishedRealises(plan: Plan, w: World, random: u16)
    requires Established(plan, w, random)
    requires Frame(plan.serverAddr, plan.clientAddr, Print(SynAck(plan, random))) in w.net
    ensures Realises(plan, w, Origin(plan, random))
  {
    assert FrameOf(plan, Server, SynAck(plan, random)) in w.net;
    assert w.At(Server).Log() == [SynAck(plan, random)] && w.At(Client).Log() == [SynPacket(plan.id)];
    assert UnderWay(plan, w, Server, SynAck(plan, random));
  }

  /** From two hosts that are not connected yet to any state of the abstract system. */
  lemma ReachState(plan: Plan, w: World, random: u16, steps: seq<Event>) returns (evs: seq<WorldEvent>, w': World)
    requires w.client.Absent? && w.server.Absent? && Willing(plan, w)
    requires Possible(Origin(plan, random), steps) && Pure(steps)
    ensures Path(plan, w, evs, w') && Retains(w, w')
    ensures Realises(plan, w', After(Origin(plan, random), steps))
  {
    var setup, w1 := SetupRun(plan, w, random);
    EstablishedRealises(plan, w1, random);
    OpenedEstablishes(plan.id, random, plan.clientAddr, plan.serverAddr);
    var rest;
    rest, w' := RunRealised(plan, w1, Origin(plan, random), steps, Client, 0);
    Append(plan, w, setup, w1, rest, w');
    RetainsTwice(w, w1, w');
    evs := setup + rest;
  }
}
