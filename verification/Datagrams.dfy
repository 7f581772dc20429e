/** Seen from the two streams of a connection, the system of sockets and datagrams is the abstract
    packet network: what is proved there holds here. */
module Datagrams {
  import opened Words
  import opened Packets
  import opened Codec
  import opened Streams
  import opened Endpoints
  import opened Handshake
  import opened Transfer
  import opened AckSafety
  import opened Runs
  import opened Worlds
  import opened Wiring

  // ---------------------------------------------------------------------------------------
  // Refinement
  // ---------------------------------------------------------------------------------------

  function Prospect(plan: Plan, random: u16, mail: seq<Packet>): Endpoint {
    var e := ClientEndpoint(plan.id, random, plan.serverAddr);
    e.(st := e.st.(mailbox := if mail == [] then [] else mail[1..]))
  }

  /** The client's stream; while it waits for the reply, what its stream is going to be, if the first
      packet mailed is the SYN-ACK. */
  function ClientView(plan: Plan, w: World, random: u16): Endpoint {
    if w.client.Live? then w.client.endpoint
    else Prospect(plan, random, ClientMail(plan, w))
  }

  /** The abstract system that a world stands for: the same endpoints, up to the record of late
      copies. */
  ghost predicate Matches(plan: Plan, w: World, random: u16, s: System) {
    && w.server.Live? && s.server == w.server.endpoint.(late := s.server.late)
    && s.client == ClientView(plan, w, random).(late := s.client.late)
    && |w.server.Log()| > 0 && w.server.Log()[0] == SynAckPacket(SynPacket(plan.id), random)
  }

  function Origin(plan: Plan, random: u16): System {
    Opened(plan.id, random, plan.clientAddr, plan.serverAddr)
  }

  /** What a run keeps to: in the directions in `strict` no segment comes late and the sender does not
      get too far ahead, and all that is left over from before are the packets in `strays`. */
  datatype Rules = Rules(strict: set<Side>, strays: iset<Packet>)

  /** The strays of a run are packets left over, under the ID that the one who gets them receives on. */
  ghost predicate StraysLeft(plan: Plan, steps: seq<Event>, strays: iset<Packet>) {
    forall ev <- steps :: ev.Stray? ==> ev.packet in strays && ev.packet.connectionId == plan.RecvId(ev.to)
  }

  ghost predicate Punctually(s: System, steps: seq<Event>, from: Side)
    requires Possible(s, steps)
  {
    TameRun(s, steps, from) && After(s, steps).At(from.Other()).late == {}
  }

  /** `steps` is a run of the abstract system, from a fresh connection, to what the world stands for.
      In the directions in `strict` it is tame and no segment comes late. */
  ghost predicate Tracks(plan: Plan, w: World, random: u16, steps: seq<Event>, rules: Rules) {
    && Possible(Origin(plan, random), steps) && StraysLeft(plan, steps, rules.strays)
    && Matches(plan, w, random, After(Origin(plan, random), steps))
    && forall from <- rules.strict :: Punctually(Origin(plan, random), steps, from)
  }

  ghost predicate Tracked(plan: Plan, w: World, rules: Rules) {
    w.server.Live? ==> exists random, steps :: Tracks(plan, w, random, steps, rules)
  }

  /** The sender is at most `lead` segments ahead. */
  predicate Lead(w: World, from: Side, lead: nat) {
    |w.At(from).Segs()| - |w.At(from.Other()).Assembled()| <= lead
  }

  lemma {:induction false} ExtendTame(s: System, evs: seq<Event>, ev: Event, from: Side)
    requires Possible(s, evs) && Possible(s, evs + [ev]) && TameRun(s, evs, from)
    requires TameAt(After(s, evs + [ev]), from)
    ensures TameRun(s, evs + [ev], from)
    decreases |evs|
  {
    if evs == [] {
      assert evs + [ev] == [ev] && [ev][1..] == [];
      assert After(s, evs + [ev]) == Step(s, ev);
      assert TameAt(Step(s, ev), from);
    } else {
      assert (evs + [ev])[1..] == evs[1..] + [ev];
      ExtendTame(Step(s, evs[0]), evs[1..], ev, from);
    }
  }

  lemma MatchesCounts(plan: Plan, w: World, random: u16, s: System, from: Side)
    requires Matches(plan, w, random, s)
    ensures s.At(from).segs == w.At(from).Segs() && s.At(from.Other()).assembled == w.At(from.Other()).Assembled()
  {
  }

  /** The world moves with a step of the abstract system that records no late copy. */
  lemma MovePunctually(plan: Plan, w: World, random: u16, s: System, steps: seq<Event>, ev: Event, from: Side)
    requires Possible(s, steps) && Enabled(After(s, steps), ev) && Punctually(s, steps, from)
    requires Matches(plan, w, random, Step(After(s, steps), ev)) && Lead(w, from, 0x1_0000)
    requires Step(After(s, steps), ev).At(from.Other()).late == {}
    ensures Possible(s, steps + [ev]) && Punctually(s, steps + [ev], from)
  {
    Extend(s, steps, ev);
    MatchesCounts(plan, w, random, Step(After(s, steps), ev), from);
    ExtendTame(s, steps, ev, from);
  }

  lemma Move(plan: Plan, w: World, random: u16, steps: seq<Event>, ev: Event, rules: Rules)
    requires Possible(Origin(plan, random), steps) && Enabled(After(Origin(plan, random), steps), ev)
    requires StraysLeft(plan, steps, rules.strays) && StraysLeft(plan, [ev], rules.strays)
    requires Matches(plan, w, random, Step(After(Origin(plan, random), steps), ev))
    requires forall from <- rules.strict ::
               && Lead(w, from, 0x1_0000) && Punctually(Origin(plan, random), steps, from)
               && Step(After(Origin(plan, random), steps), ev).At(from.Other()).late == {}
    ensures Tracks(plan, w, random, steps + [ev], rules)
  {
    var s := Origin(plan, random);
    Extend(s, steps, ev);
    assert ev in [ev];
    forall from <- rules.strict
      ensures Punctually(s, steps + [ev], from)
    {
      MovePunctually(plan, w, random, s, steps, ev, from);
    }
  }

  /** Steps that are not about the connection change nothing. */
  lemma AsideTracks(plan: Plan, w: World, w': World, rules: Rules)
    requires Tracked(plan, w, rules) && Aside(plan, w, w')
    ensures Tracked(plan, w', rules)
  {
    if w.server.Live? {
      var random, steps :| Tracks(plan, w, random, steps, rules);
      assert Tracks(plan, w', random, steps, rules);
    }
  }

  lemma FreshIsPunctual(s: System, from: Side)
    requires Start(s)
    ensures Punctually(s, [], from)
  {
    StartFacts(s, from);
    StartFacts(s, from.Other());
    assert After(s, []) == s;
  }

  lemma FreshTracks(plan: Plan, w: World, random: u16, rules: Rules)
    requires w.server.Live? && w.server.endpoint == ServerEndpoint(plan.id, random, plan.clientAddr)
    requires !w.client.Live? && ClientMail(plan, w) == []
    ensures Tracks(plan, w, random, [], rules)
  {
    var s := Origin(plan, random);
    assert Possible(s, []) && After(s, []) == s;
    assert Start(s);
    forall from <- rules.strict
      ensures Punctually(s, [], from)
    {
      FreshIsPunctual(s, from);
    }
  }

  lemma AcceptTracks(plan: Plan, w: World, addr: SocketAddr, random: u16, rules: Rules)
    requires Clean(plan, w, rules.strays) && addr in w.sockets && TakesOurs(plan, w, addr) && SynAckFirst(plan, w)
    ensures Tracked(plan, WorldStep(plan, w, Accepts(addr, random)), rules)
  {
    AcceptKeepsOurs(plan, w, addr, random, rules.strays);
    var w' := WorldStep(plan, w, Accepts(addr, random));
    if w'.server.Live? {
      FreshTracks(plan, w', random, rules);
    }
  }

  lemma ConnectedTracks(plan: Plan, w: World, w': World, rules: Rules)
    requires Tracked(plan, w, rules) && w.client.Connecting? && w'.client.Live? && w'.server == w.server
    requires var mail := ClientMail(plan, w);
             && mail != [] && |w.server.Log()| > 0 && mail[0] == w.server.Log()[0]
             && w'.client.endpoint
                == Fresh(Connected(plan.id, plan.serverAddr, mail[0]).(mailbox := mail[1..]), FIRST_SEQ_NUMBER)
    ensures Tracked(plan, w', rules)
  {
    var random, steps :| Tracks(plan, w, random, steps, rules);
    assert ClientView(plan, w', random) == ClientView(plan, w, random);
    assert Tracks(plan, w', random, steps, rules);
  }

  /** Taking the SYN-ACK for the reply makes the client's stream what it was going to be. */
  lemma ReplyTracks(plan: Plan, w: World, rules: Rules)
    requires Tracked(plan, w, rules) && SynAckFirst(plan, w) && WorldEnabled(plan, w, ReplyTaken)
    ensures Tracked(plan, WorldStep(plan, w, ReplyTaken), rules)
  {
    ReplyShape(plan, w);
    ConnectedTracks(plan, w, WorldStep(plan, w, ReplyTaken), rules);
  }

  lemma DoIgnoresLate(e: Endpoint, late: set<nat>, op: Op)
    ensures Endpoints.Do(e.(late := late), op) == Endpoints.Do(e, op).(late := late)
  {
  }

  lemma LogGrowsKeepsFirst(plan: Plan, w: World, w': World, random: u16)
    requires w.server.Live? && w'.server.Live? && w.server.Log() <= w'.server.Log()
    requires |w.server.Log()| > 0 && w.server.Log()[0] == SynAckPacket(SynPacket(plan.id), random)
    ensures |w'.server.Log()| > 0 && w'.server.Log()[0] == SynAckPacket(SynPacket(plan.id), random)
  {
  }

  /** A poll of one of the two streams is the same poll of the abstract system. */
  lemma PollMatches(plan: Plan, w: World, w': World, random: u16, s: System, side: Side, op: Op)
    requires Matches(plan, w, random, s) && w.At(side).Live? && !op.Receive?
    requires w.At(side).endpoint.st.outgoing <= Endpoints.Do(w.At(side).endpoint, op).st.outgoing
    requires w'.At(side) == w.At(side).(endpoint := Endpoints.Do(w.At(side).endpoint, op))
    requires w'.At(side.Other()) == w.At(side.Other())
    requires ClientMail(plan, w') == ClientMail(plan, w)
    ensures Matches(plan, w', random, Step(s, Poll(side, op)))
    ensures forall from: Side :: Step(s, Poll(side, op)).At(from).late == s.At(from).late
  {
    DoIgnoresLate(w.At(side).endpoint, s.At(side).late, op);
    SegsGrow(s.At(side), op);
    assert w'.server.Live? && w.server.Log() <= w'.server.Log();
    LogGrowsKeepsFirst(plan, w, w', random);
  }

  lemma {:induction false} LocalsAfter(s: System, evs: seq<Event>)
    requires Locals(s) && Possible(s, evs)
    ensures Locals(After(s, evs))
    decreases |evs|
  {
    if evs != [] {
      StepKeepsLocals(s, evs[0]);
      LocalsAfter(Step(s, evs[0]), evs[1..]);
    }
  }

  lemma LocalIgnoresLate(e: Endpoint, late: set<nat>, peerIsn: u16)
    requires Local(e.(late := late), peerIsn)
    ensures Local(e, peerIsn)
  {
  }

  lemma TracksLocal(plan: Plan, w: World, random: u16, steps: seq<Event>, rules: Rules, side: Side)
    requires Tracks(plan, w, random, steps, rules) && w.At(side).Live?
    ensures exists peerIsn :: Local(w.At(side).endpoint, peerIsn)
  {
    var s := Origin(plan, random);
    OpenedEstablishes(plan.id, random, plan.clientAddr, plan.serverAddr);
    LocalsAfter(s, steps);
    LocalIgnoresLate(w.At(side).endpoint, After(s, steps).At(side).late, After(s, steps).At(side.Other()).isn);
  }

  /** The poll of one of the two streams, in terms of the stream alone. */
  ghost predicate Polls(plan: Plan, w: World, w': World, side: Side, op: Op) {
    && w.At(side).Live? && w.server.Live? && !op.Receive?
    && w'.At(side) == w.At(side).(endpoint := Endpoints.Do(w.At(side).endpoint, op))
    && w'.At(side.Other()) == w.At(side.Other())
    && ClientMail(plan, w') == ClientMail(plan, w)
    && w.At(side).endpoint.st.outgoing <= w'.At(side).endpoint.st.outgoing
  }

  lemma PollStep(plan: Plan, w: World, w': World, side: Side, op: Op, strays: iset<Packet>)
    requires Clean(plan, w, strays) && w.server.Live?
    requires WorldEnabled(plan, w, StreamPolled(side, op)) && w' == WorldStep(plan, w, StreamPolled(side, op))
    ensures Clean(plan, w', strays) && Polls(plan, w, w', side, op)
  {
    PollShape(plan, w, side, op);
    PollKeepsClean(plan, w, side, op, strays);
    DoSendsOn(w.At(side).endpoint, op);
  }

  lemma PollMoves(plan: Plan, w: World, w': World, side: Side, op: Op, rules: Rules)
    requires Tracked(plan, w, rules) && Polls(plan, w, w', side, op) && forall from <- rules.strict :: Lead(w', from, 0x1_0000)
    ensures Tracked(plan, w', rules)
  {
    var random, steps :| Tracks(plan, w, random, steps, rules);
    PollMatches(plan, w, w', random, After(Origin(plan, random), steps), side, op);
    Move(plan, w', random, steps, Poll(side, op), rules);
  }

  lemma PollTracks(plan: Plan, w: World, w': World, side: Side, op: Op, rules: Rules)
    requires Clean(plan, w, rules.strays) && Tracked(plan, w, rules) && w.server.Live? && w.At(side).Live?
    requires WorldEnabled(plan, w, StreamPolled(side, op)) && w' == WorldStep(plan, w, StreamPolled(side, op))
    requires forall from <- rules.strict :: Lead(w', from, 0x1_0000)
    ensures Clean(plan, w', rules.strays) && Tracked(plan, w', rules)
  {
    PollStep(plan, w, w', side, op, rules.strays);
    PollMoves(plan, w, w', side, op, rules);
  }

  // ---------------------------------------------------------------------------------------
  // Arrivals are deliveries
  // ---------------------------------------------------------------------------------------

  /** Some packet like `p` was sent for a segment beyond the first `assembled`. */
  ghost predicate Fresher(x: Endpoint, assembled: nat, p: Packet) {
    exists j :: 0 <= j < |x.st.outgoing| && j < |x.tags| && x.st.outgoing[j] == p && x.tags[j] > assembled
  }

  /** No segment comes late: the packet that arrives for the peer of `from`, if it carries data, is a
      segment not yet assembled. */
  ghost predicate Punctual(plan: Plan, w: World, ev: WorldEvent, from: Side) {
    ev.DatagramArrives? ==>
      var mail := Mailed(plan, w, from.Other(), ev.frame);
      mail.Some? && mail.value.packetType == Data ==>
        w.At(from).Live? && Fresher(w.At(from).endpoint, |w.At(from.Other()).Assembled()|, mail.value)
  }

  /** Where in the log of `x` the packet stands; at a segment still to be assembled, if it can. */
  lemma FindInLog(x: Endpoint, assembled: nat, p: Packet) returns (j: nat)
    requires p in x.st.outgoing && |x.tags| == |x.st.outgoing|
    ensures j < |x.tags| && x.st.outgoing[j] == p
    ensures Fresher(x, assembled, p) ==> x.tags[j] > assembled
  {
    if Fresher(x, assembled, p) {
      j :| 0 <= j < |x.st.outgoing| && j < |x.tags| && x.st.outgoing[j] == p && x.tags[j] > assembled;
    } else {
      j :| 0 <= j < |x.st.outgoing| && x.st.outgoing[j] == p;
    }
  }

  /** What the arrival of `p` at `side` makes of the world: the stream is handed it, or a client that
      has a reply already finds it later. */
  ghost predicate Reaches(plan: Plan, w: World, w': World, side: Side, p: Packet) {
    && w'.At(side.Other()) == w.At(side.Other())
    && (if w.At(side).Live? then
          && w'.At(side) == Notice(w.At(side), Some(p))
          && ClientMail(plan, w') == ClientMail(plan, w)
        else
          && side == Client && w'.client == w.client
          && ClientMail(plan, w) != [] && ClientMail(plan, w') == ClientMail(plan, w) + [p])
  }

  lemma ReachesView(plan: Plan, w: World, w': World, random: u16, side: Side, p: Packet)
    requires Reaches(plan, w, w', side, p) && w.server.Live?
    ensures w'.server.Live? && w'.server.Log() == w.server.Log()
    ensures ClientView(plan, w', random)
         == if side == Client then Endpoints.Do(ClientView(plan, w, random), Endpoints.Receive(p))
            else ClientView(plan, w, random)
    ensures side == Server ==> w'.server.endpoint == Endpoints.Do(w.server.endpoint, Endpoints.Receive(p))
    ensures side == Client ==> w'.server == w.server
  {
    if !w.At(side).Live? {
      var mail := ClientMail(plan, w);
      assert (mail + [p])[1..] == mail[1..] + [p];
    }
  }

  /** Handing over the `j`-th packet of the peer is a step of the abstract system. */
  lemma DeliveryMatches(plan: Plan, w: World, w': World, random: u16, s: System, side: Side, j: nat)
    requires Matches(plan, w, random, s)
    requires var x := s.At(side.Other());
             && j < |x.st.outgoing| == |x.tags| && x.st.outgoing[j].packetType != Syn
             && Reaches(plan, w, w', side, x.st.outgoing[j])
    ensures Enabled(s, Deliver(side, j)) && Matches(plan, w', random, Step(s, Deliver(side, j)))
    ensures var s', x := Step(s, Deliver(side, j)), s.At(side.Other());
            && s'.At(side.Other()).late == x.late
            && (x.st.outgoing[j].packetType != Data || x.tags[j] > |s.At(side).assembled|
                ==> s'.At(side).late == s.At(side).late)
  {
    var p := s.At(side.Other()).st.outgoing[j];
    ReachesView(plan, w, w', random, side, p);
    assert side.Other().Other() == side;
  }

  lemma DeliveryMoves(plan: Plan, w: World, w': World, random: u16, steps: seq<Event>, side: Side, p: Packet, rules: Rules)
    returns (j: nat)
    requires Tracks(plan, w, random, steps, rules) && Reaches(plan, w, w', side, p)
    requires w.At(side.Other()).Live? && p in w.At(side.Other()).Log() && p.packetType != Syn
    requires side.Other() in rules.strict && p.packetType == Data ==>
               Fresher(w.At(side.Other()).endpoint, |w.At(side).Assembled()|, p)
    requires forall from <- rules.strict :: Lead(w', from, 0x1_0000)
    ensures Tracks(plan, w', random, steps + [Deliver(side, j)], rules)
  {
    var s := After(Origin(plan, random), steps);
    TracksLocal(plan, w, random, steps, rules, side.Other());
    j := FindInLog(w.At(side.Other()).endpoint, |w.At(side).Assembled()|, p);
    MatchesCounts(plan, w, random, s, side.Other());
    DeliveryMatches(plan, w, w', random, s, side, j);
    Move(plan, w', random, steps, Deliver(side, j), rules);
  }

  /** A packet left over that is no data is a stray of the abstract system. */
  lemma StrayMatches(plan: Plan, w: World, w': World, random: u16, s: System, side: Side, p: Packet)
    requires Matches(plan, w, random, s) && p.packetType == State && Reaches(plan, w, w', side, p)
    ensures Enabled(s, Stray(side, p)) && Matches(plan, w', random, Step(s, Stray(side, p)))
    ensures forall from: Side :: Step(s, Stray(side, p)).At(from).late == s.At(from).late
  {
    ReachesView(plan, w, w', random, side, p);
  }

  lemma StrayMoves(plan: Plan, w: World, w': World, random: u16, steps: seq<Event>, side: Side, p: Packet, rules: Rules)
    requires Tracks(plan, w, random, steps, rules) && Reaches(plan, w, w', side, p)
    requires p.packetType == State && p in rules.strays && p.connectionId == plan.RecvId(side)
    requires forall from <- rules.strict :: Lead(w', from, 0x1_0000)
    ensures Tracks(plan, w', random, steps + [Stray(side, p)], rules)
  {
    StrayMatches(plan, w, w', random, After(Origin(plan, random), steps), side, p);
    Move(plan, w', random, steps, Stray(side, p), rules);
  }

  /** An arrival that mails nothing to either stream, or only the reply itself. */
  lemma SilentArrival(plan: Plan, w: World, w': World, rules: Rules)
    requires Tracked(plan, w, rules) && w'.client == w.client && w'.server == w.server
    requires ClientMail(plan, w') == ClientMail(plan, w) || (ClientMail(plan, w) == [] && |ClientMail(plan, w')| == 1)
    ensures Tracked(plan, w', rules)
  {
    if w.server.Live? {
      var random, steps :| Tracks(plan, w, random, steps, rules);
      assert ClientView(plan, w', random) == ClientView(plan, w, random);
      assert Tracks(plan, w', random, steps, rules);
    }
  }

  /** How the mail of a waiting client changes. */
  lemma ArrivalMail(plan: Plan, w: World, w': World, f: Frame, strays: iset<Packet>)
    requires Clean(plan, w, strays) && f.to in w.sockets
    requires w'.sockets == w.sockets[f.to := ReadFrom(w.sockets[f.to], f)]
    requires w.client.Connecting? && w'.client == w.client
    ensures var mail := Mailed(plan, w, Client, f);
            ClientMail(plan, w') == ClientMail(plan, w) + if mail.Some? then [mail.value] else []
  {
    assert w.At(Client) == w.client && plan.Addr(Client) == plan.clientAddr;
    MailedByKey(plan, w, Client, f);
  }

  /** All that is left over are acknowledgements. */
  ghost predicate AllAcks(strays: iset<Packet>) {
    forall p <- strays :: p.packetType == State
  }

  /** `mail`, if any, is a packet of the peer of `side`, and punctual if that is asked for; or it is an
      acknowledgement left over. */
  ghost predicate FromPeer(plan: Plan, w: World, side: Side, mail: Option<Packet>, rules: Rules) {
    mail.Some? ==>
      var p := mail.value;
      || (&& p in w.At(side.Other()).Log() && p.packetType != Syn
          && (side.Other() in rules.strict && p.packetType == Data ==>
                w.At(side.Other()).Live? && Fresher(w.At(side.Other()).endpoint, |w.At(side).Assembled()|, p)))
      || (p in rules.strays && p.packetType == State && p.connectionId == plan.RecvId(side))
  }

  lemma PunctualIsFresher(plan: Plan, w: World, f: Frame, side: Side, p: Packet)
    requires Mailed(plan, w, side, f) == Some(p) && p.packetType == Data
    requires Punctual(plan, w, DatagramArrives(f), side.Other())
    ensures w.At(side.Other()).Live? && Fresher(w.At(side.Other()).endpoint, |w.At(side).Assembled()|, p)
  {
    assert side.Other().Other() == side;
  }

  lemma MailIsFromPeer(plan: Plan, w: World, f: Frame, side: Side, rules: Rules)
    requires Clean(plan, w, rules.strays) && AllAcks(rules.strays) && f in w.net
    requires forall from <- rules.strict :: Punctual(plan, w, DatagramArrives(f), from)
    ensures FromPeer(plan, w, side, Mailed(plan, w, side, f), rules)
  {
    var mail := Mailed(plan, w, side, f);
    if mail.Some? {
      MailComesFromPeer(plan, w, side, f, rules.strays);
      if side.Other() in rules.strict && mail.value.packetType == Data {
        PunctualIsFresher(plan, w, f, side, mail.value);
      }
    }
  }

  lemma NoMailAbsent(plan: Plan, w: World, f: Frame)
    ensures w.client.Absent? ==> Mailed(plan, w, Client, f).None?
    ensures w.server.Absent? ==> Mailed(plan, w, Server, f).None?
  {
  }

  lemma ReachedTracks(plan: Plan, w: World, w': World, side: Side, p: Packet, rules: Rules)
    requires Ordered(w) && w.server.Live? && Tracked(plan, w, rules) && Reaches(plan, w, w', side, p)
    requires FromPeer(plan, w, side, Some(p), rules)
    requires forall from <- rules.strict :: Lead(w', from, 0x1_0000)
    ensures Tracked(plan, w', rules)
  {
    var random, steps :| Tracks(plan, w, random, steps, rules);
    if p in rules.strays && p.packetType == State && p.connectionId == plan.RecvId(side) {
      StrayMoves(plan, w, w', random, steps, side, p, rules);
    } else {
      var j := DeliveryMoves(plan, w, w', random, steps, side, p, rules);
    }
  }

  lemma NoticesTrack(plan: Plan, w: World, w': World, mail: Option<Packet>, mail': Option<Packet>, rules: Rules)
    requires Ordered(w) && Tracked(plan, w, rules) && forall from <- rules.strict :: Lead(w', from, 0x1_0000)
    requires w'.client == Notice(w.client, mail) && w'.server == Notice(w.server, mail')
    requires mail.None? || mail'.None?
    requires FromPeer(plan, w, Client, mail, rules) && FromPeer(plan, w, Server, mail', rules)
    requires (w.client.Absent? ==> mail.None?) && (w.server.Absent? ==> mail'.None?)
    requires w.client.Connecting? ==>
               ClientMail(plan, w') == ClientMail(plan, w) + if mail.Some? then [mail.value] else []
    ensures Tracked(plan, w', rules)
  {
    if w.server.Live? && mail.Some? && (w.client.Live? || ClientMail(plan, w) != []) {
      assert Reaches(plan, w, w', Client, mail.value);
      ReachedTracks(plan, w, w', Client, mail.value, rules);
    } else if mail'.Some? {
      assert Reaches(plan, w, w', Server, mail'.value);
      ReachedTracks(plan, w, w', Server, mail'.value, rules);
    } else if w.server.Live? {
      SilentArrival(plan, w, w', rules);
    }
  }

  lemma ArrivalTracks(plan: Plan, w: World, w': World, f: Frame, rules: Rules)
    requires Clean(plan, w, rules.strays) && AllAcks(rules.strays) && Tracked(plan, w, rules)
    requires f in w.net && f.to in w.sockets
    requires w'.sockets == w.sockets[f.to := ReadFrom(w.sockets[f.to], f)]
    requires w'.client == Notice(w.client, Mailed(plan, w, Client, f))
    requires w'.server == Notice(w.server, Mailed(plan, w, Server, f))
    requires forall from <- rules.strict :: Lead(w', from, 0x1_0000) && Punctual(plan, w, DatagramArrives(f), from)
    ensures Tracked(plan, w', rules)
  {
    var mail, mail' := Mailed(plan, w, Client, f), Mailed(plan, w, Server, f);
    MailedToOne(plan, w, f, mail, mail', rules.strays);
    MailIsFromPeer(plan, w, f, Client, rules);
    MailIsFromPeer(plan, w, f, Server, rules);
    if w.client.Connecting? {
      ArrivalMail(plan, w, w', f, rules.strays);
    }
    NoMailAbsent(plan, w, f);
    NoticesTrack(plan, w, w', mail, mail', rules);
  }

  // ---------------------------------------------------------------------------------------
  // Steps and runs
  // ---------------------------------------------------------------------------------------

  /** The event is not about the connection of interest. */
  predicate IsAside(plan: Plan, w: World, ev: WorldEvent) {
    match ev
    case Connects(_, _, _, ours) => !ours
    case Accepts(addr, _) => !TakesOurs(plan, w, addr)
    case ReplyTaken => false
    case StreamPolled(_, _) => false
    case DatagramArrives(_) => false
    case _ => true
  }

  lemma OthersDoNotMatter(plan: Plan, w: World, others: map<Slot, StreamState>, strays: iset<Packet>)
    requires Clean(plan, w, strays)
    ensures Clean(plan, w.(others := others), strays) && Aside(plan, w, w.(others := others))
  {
  }

  lemma OtherReplyKeepsClean(plan: Plan, w: World, ev: WorldEvent, strays: iset<Packet>)
    requires ev.OtherReply? && Clean(plan, w, strays) && WorldEnabled(plan, w, ev)
    ensures Clean(plan, WorldStep(plan, w, ev), strays) && Aside(plan, w, WorldStep(plan, w, ev))
  {
    OthersDoNotMatter(plan, w, WorldStep(plan, w, ev).others, strays);
  }

  lemma InjectKeepsClean(plan: Plan, w: World, ev: WorldEvent, strays: iset<Packet>)
    requires ev.Injected? && Clean(plan, w, strays) && WorldEnabled(plan, w, ev)
    ensures Clean(plan, WorldStep(plan, w, ev), strays) && Aside(plan, w, WorldStep(plan, w, ev))
  {
    NetMore(plan, w, {ev.frame}, strays);
  }

  lemma AsideKeepsClean(plan: Plan, w: World, ev: WorldEvent, w': World, strays: iset<Packet>)
    requires Clean(plan, w, strays) && IsAside(plan, w, ev) && WorldEnabled(plan, w, ev) && w' == WorldStep(plan, w, ev)
    requires Separate(plan, w, strays) && Separate(plan, w', strays)
    ensures Clean(plan, w', strays) && Aside(plan, w, w')
  {
    match ev
    case Connects(_, _, _, _) => ConnectKeepsClean(plan, w, ev, strays);
    case Accepts(addr, random) => AcceptKeepsOthers(plan, w, addr, random, strays);
    case OtherReply(_, _) => OtherReplyKeepsClean(plan, w, ev, strays);
    case OtherPolled(_, _, _) => OtherPollKeepsClean(plan, w, ev, strays);
    case OtherDropped(_, _) => DropKeepsClean(plan, w, ev, strays);
    case SenderPolled(_, _, _) => SenderPollKeepsClean(plan, w, ev, strays);
    case Injected(_) => InjectKeepsClean(plan, w, ev, strays);
  }

  lemma AcceptRefines(plan: Plan, w: World, addr: SocketAddr, random: u16, rules: Rules)
    requires Clean(plan, w, rules.strays) && addr in w.sockets && TakesOurs(plan, w, addr) && SynAckFirst(plan, w)
    ensures Clean(plan, WorldStep(plan, w, Accepts(addr, random)), rules.strays)
    ensures Tracked(plan, WorldStep(plan, w, Accepts(addr, random)), rules)
  {
    AcceptKeepsOurs(plan, w, addr, random, rules.strays);
    AcceptTracks(plan, w, addr, random, rules);
  }

  lemma ArrivalRefines(plan: Plan, w: World, f: Frame, w': World, rules: Rules)
    requires Clean(plan, w, rules.strays) && AllAcks(rules.strays) && Tracked(plan, w, rules)
    requires WorldEnabled(plan, w, DatagramArrives(f)) && w' == WorldStep(plan, w, DatagramArrives(f))
    requires forall from <- rules.strict :: Lead(w', from, 0x1_0000) && Punctual(plan, w, DatagramArrives(f), from)
    ensures Clean(plan, w', rules.strays) && Tracked(plan, w', rules)
  {
    ArrivalShape(plan, w, f);
    ArrivalKeepsClean(plan, w, f, rules.strays);
    ArrivalTracks(plan, w, w', f, rules);
  }

  /** Each step of the world, as long as no other stream sends under the connection's IDs, the SYN-ACK is
      the first packet to reach the client and no data was left over, keeps the invariant, and keeps
      the world in step with a run of the abstract system. */
  lemma StepRefines(plan: Plan, w: World, ev: WorldEvent, w': World, rules: Rules)
    requires Clean(plan, w, rules.strays) && AllAcks(rules.strays) && Tracked(plan, w, rules)
    requires WorldEnabled(plan, w, ev) && w' == WorldStep(plan, w, ev)
    requires Solo(plan, w) && SynAckFirst(plan, w) && Solo(plan, w')
    requires forall from <- rules.strict :: Lead(w', from, 0x1_0000) && Punctual(plan, w, ev, from)
    ensures Clean(plan, w', rules.strays) && Tracked(plan, w', rules)
  {
    if IsAside(plan, w, ev) {
      AsideKeepsClean(plan, w, ev, w', rules.strays);
      AsideTracks(plan, w, w', rules);
    } else {
      match ev
      case Connects(_, _, _, _) => ConnectKeepsClean(plan, w, ev, rules.strays);
      case Accepts(addr, random) => AcceptRefines(plan, w, addr, random, rules);
      case ReplyTaken =>
        ReplyKeepsClean(plan, w, rules.strays);
        ReplyTracks(plan, w, rules);
      case StreamPolled(side, op) => PollTracks(plan, w, w', side, op, rules);
      case DatagramArrives(f) => ArrivalRefines(plan, w, f, w', rules);
    }
  }

  /** In the directions in `strict`, no segment comes late and the sender is never more than `lead`
      segments ahead. */
  ghost predicate Orderly(plan: Plan, w: World, evs: seq<WorldEvent>, strict: set<Side>, lead: nat)
    requires WorldPossible(plan, w, evs)
    decreases |evs|
  {
    && (forall from <- strict :: Lead(w, from, lead))
    && (evs != [] ==>
          && (forall from <- strict :: Punctual(plan, w, evs[0], from))
          && Orderly(plan, WorldStep(plan, w, evs[0]), evs[1..], strict, lead))
  }

  /** The refinement: whatever the sockets, their other connections and the network do in a fair run,
      from the connection's setup on, the two streams are in a state that a run of the abstract
      system from a fresh connection reaches. */
  lemma {:induction false} RunRefines(plan: Plan, w: World, evs: seq<WorldEvent>, rules: Rules)
    requires Clean(plan, w, rules.strays) && AllAcks(rules.strays) && Tracked(plan, w, rules)
    requires WorldPossible(plan, w, evs) && Fair(plan, w, evs) && Orderly(plan, w, evs, rules.strict, 0x1_0000)
    ensures Clean(plan, WorldAfter(plan, w, evs), rules.strays) && Tracked(plan, WorldAfter(plan, w, evs), rules)
    decreases |evs|
  {
    if evs != [] {
      var w' := WorldStep(plan, w, evs[0]);
      StepRefines(plan, w, evs[0], w', rules);
      RunRefines(plan, w', evs[1..], rules);
    }
  }

  lemma {:induction false} NothingStrict(plan: Plan, w: World, evs: seq<WorldEvent>)
    requires WorldPossible(plan, w, evs)
    ensures Orderly(plan, w, evs, {}, 0x1_0000)
    decreases |evs|
  {
    if evs != [] {
      NothingStrict(plan, WorldStep(plan, w, evs[0]), evs[1..]);
    }
  }

  // ---------------------------------------------------------------------------------------
  // Before the connection
  // ---------------------------------------------------------------------------------------

  /** Before the connection: any two sockets, or one, with any other connections and any traffic of
      theirs. */
  ghost predicate Before(plan: Plan, w: World) {
    Clean(plan, w, AnyPacket()) && w.client.Absent? && w.server.Absent?
  }

  /** The packets that bear the connection's IDs before there is a connection. */
  ghost function LeftOver(plan: Plan, w: World): iset<Packet> {
    iset side: Side, p | UnderWay(plan, w, side, p) :: p
  }

  lemma QueueLeftOver(plan: Plan, w: World, logs: Logs, addr: SocketAddr)
    requires addr in w.sockets && QueueWired(plan, logs, addr, w.sockets[addr].sender)
    ensures QueueWired(plan, Logs([], [], LeftOver(plan, w)), addr, w.sockets[addr].sender)
  {
    forall item <- w.sockets[addr].sender.buffer + w.sockets[addr].sender.channel
      ensures Wired(plan, Logs([], [], LeftOver(plan, w)), addr, item.0, item.1)
    {
      assert Wired(plan, logs, addr, item.0, item.1);
      forall side: Side | Under(plan, side, addr, item.0, item.1)
        ensures item.0 in LeftOver(plan, w)
      {
        assert Queued(w, addr, item) && UnderWay(plan, w, side, item.0);
      }
    }
  }

  lemma FrameLeftOver(plan: Plan, w: World, logs: Logs, f: Frame)
    requires f in w.net && FrameWired(plan, logs, f)
    ensures FrameWired(plan, Logs([], [], LeftOver(plan, w)), f)
  {
    var p :| f.bytes == Print(p) && Wired(plan, logs, f.from, p, f.to);
    forall side: Side | Under(plan, side, f.from, p, f.to)
      ensures p in LeftOver(plan, w)
    {
      assert FrameOf(plan, side, p) == f && UnderWay(plan, w, side, p);
    }
    assert Wired(plan, Logs([], [], LeftOver(plan, w)), f.from, p, f.to);
  }

  /** What is left over before the connection accounts for all that bears its IDs. */
  lemma BeforeIsClean(plan: Plan, w: World)
    requires Before(plan, w)
    ensures Clean(plan, w, LeftOver(plan, w))
  {
    var logs, logs' := LogsOf(w, AnyPacket()), LogsOf(w, LeftOver(plan, w));
    forall addr <- w.sockets
      ensures SocketClean(plan, logs', addr, w.sockets[addr])
    {
      assert SocketClean(plan, logs, addr, w.sockets[addr]);
      QueueLeftOver(plan, w, logs, addr);
    }
    forall f <- w.net | f.from in w.sockets
      ensures FrameWired(plan, logs', f)
    {
      FrameLeftOver(plan, w, logs, f);
    }
  }

  lemma NoDataIsAcks(plan: Plan, w: World)
    requires !DataUnderWay(plan, w)
    ensures AllAcks(LeftOver(plan, w))
  {
    forall p <- LeftOver(plan, w)
      ensures p.packetType == State
    {
      var side: Side :| UnderWay(plan, w, side, p);
    }
  }

  /** A fair run from before the connection ends in a world that is tracked. */
  lemma RunTracks(plan: Plan, w: World, evs: seq<WorldEvent>, strict: set<Side>)
    requires Before(plan, w) && !DataUnderWay(plan, w) && WorldPossible(plan, w, evs) && Fair(plan, w, evs)
    requires Orderly(plan, w, evs, strict, 0x1_0000)
    ensures Tracked(plan, WorldAfter(plan, w, evs), Rules(strict, LeftOver(plan, w)))
    ensures Ordered(WorldAfter(plan, w, evs))
  {
    BeforeIsClean(plan, w);
    NoDataIsAcks(plan, w);
    RunRefines(plan, w, evs, Rules(strict, LeftOver(plan, w)));
  }

  // ---------------------------------------------------------------------------------------
  // What the readers are given
  // ---------------------------------------------------------------------------------------

  ghost predicate WorldDelivers(w: World, from: Side) {
    w.At(from).Live? && w.At(from.Other()).Live? ==>
      Delivers(w.At(from).endpoint, w.At(from.Other()).endpoint)
  }

  lemma TrackedDelivers(plan: Plan, w: World, from: Side, rules: Rules)
    requires Tracked(plan, w, rules) && w.server.Live? && |w.At(from).Segs()| < 0x1_0000
    ensures WorldDelivers(w, from)
  {
    var random, steps :| Tracks(plan, w, random, steps, rules);
    MatchesCounts(plan, w, random, After(Origin(plan, random), steps), from);
    AdversarialDelivery(Origin(plan, random), steps, from);
  }

  lemma TrackedDeliversOrderly(plan: Plan, w: World, from: Side, rules: Rules)
    requires Tracked(plan, w, rules) && w.server.Live? && from in rules.strict
    ensures WorldDelivers(w, from)
  {
    var random, steps :| Tracks(plan, w, random, steps, rules);
    assert Punctually(Origin(plan, random), steps, from);
    PrefixDelivery(Origin(plan, random), steps, from);
  }

  /** With fewer than 65536 segments in a direction, the reader is given a prefix of what was
      written, whatever the network does to the datagrams and whatever else the sockets carry. */
  lemma DatagramDelivery(plan: Plan, w: World, evs: seq<WorldEvent>, from: Side)
    requires Before(plan, w) && !DataUnderWay(plan, w) && WorldPossible(plan, w, evs) && Fair(plan, w, evs)
    requires |WorldAfter(plan, w, evs).At(from).Segs()| < 0x1_0000
    ensures WorldDelivers(WorldAfter(plan, w, evs), from)
  {
    NothingStrict(plan, w, evs);
    RunTracks(plan, w, evs, {});
    if WorldAfter(plan, w, evs).server.Live? {
      TrackedDelivers(plan, WorldAfter(plan, w, evs), from, Rules({}, LeftOver(plan, w)));
    }
  }

  /** If no segment comes late and the sender is never more than 65536 segments ahead, delivery
      holds without end, wrapping as often as it will. */
  lemma DatagramDeliveryUnbounded(plan: Plan, w: World, evs: seq<WorldEvent>, from: Side)
    requires Before(plan, w) && !DataUnderWay(plan, w) && WorldPossible(plan, w, evs) && Fair(plan, w, evs)
    requires Orderly(plan, w, evs, {from}, 0x1_0000)
    ensures WorldDelivers(WorldAfter(plan, w, evs), from)
  {
    RunTracks(plan, w, evs, {from});
    if WorldAfter(plan, w, evs).server.Live? {
      TrackedDeliversOrderly(plan, WorldAfter(plan, w, evs), from, Rules({from}, LeftOver(plan, w)));
    }
  }

  // ---------------------------------------------------------------------------------------
  // When a successful flush can be believed
  // ---------------------------------------------------------------------------------------

  /** An acknowledgement that does harm to a sender of at most `n` segments after `isn` is under way to
      `side`. */
  ghost predicate HarmUnderWay(plan: Plan, w: World, side: Side, isn: u16, n: nat) {
    exists p :: UnderWay(plan, w, side.Other(), p) && p.packetType == State && Harmful(isn, n, p.ackNumber)
  }

  lemma LeftOverIsHarmless(plan: Plan, w: World, steps: seq<Event>, side: Side, isn: u16, n: nat)
    requires StraysLeft(plan, steps, LeftOver(plan, w)) && !DataUnderWay(plan, w) && !HarmUnderWay(plan, w, side, isn, n)
    ensures Harmless(steps, side, isn, n)
  {
    NoDataIsAcks(plan, w);
    forall ev <- steps | ev.Stray? && ev.to == side
      ensures !Harmful(isn, n, ev.packet.ackNumber)
    {
      var from: Side :| UnderWay(plan, w, from, ev.packet);
      assert plan.SendId(Client) != plan.SendId(Server);
      assert from == side.Other();
    }
  }

  lemma TrackedFlushes(plan: Plan, w0: World, w: World, from: Side)
    requires Tracked(plan, w, Rules({}, LeftOver(plan, w0))) && !DataUnderWay(plan, w0)
    requires w.server.Live? && w.At(from).Live?
    requires w.At(from).endpoint.isn + |w.At(from).endpoint.segs| < 0x1_0000
    requires !HarmUnderWay(plan, w0, from, w.At(from).endpoint.isn, |w.At(from).endpoint.segs|)
    requires PollFlush(w.At(from).endpoint.st).result == FlushOk
    ensures w.At(from.Other()).Assembled() == w.At(from).Segs()
  {
    var random, steps :| Tracks(plan, w, random, steps, Rules({}, LeftOver(plan, w0)));
    MatchesCounts(plan, w, random, After(Origin(plan, random), steps), from);
    IsnFixed(Origin(plan, random), steps, from);
    LeftOverIsHarmless(plan, w0, steps, from, w.At(from).endpoint.isn, |w.At(from).endpoint.segs|);
    FlushMeansAssembled(Origin(plan, random), steps, from);
  }

  /** As long as no number wraps, and no acknowledgement left over does harm, a flush that reports
      success means that the peer's stream has assembled everything. */
  lemma DatagramFlush(plan: Plan, w: World, evs: seq<WorldEvent>, from: Side)
    requires Before(plan, w) && !DataUnderWay(plan, w) && WorldPossible(plan, w, evs) && Fair(plan, w, evs)
    requires var w' := WorldAfter(plan, w, evs);
             && w'.At(from).Live?
             && w'.At(from).endpoint.isn + |w'.At(from).endpoint.segs| < 0x1_0000
             && !HarmUnderWay(plan, w, from, w'.At(from).endpoint.isn, |w'.At(from).endpoint.segs|)
             && PollFlush(w'.At(from).endpoint.st).result == FlushOk
    ensures WorldAfter(plan, w, evs).At(from.Other()).Assembled() == WorldAfter(plan, w, evs).At(from).Segs()
  {
    NothingStrict(plan, w, evs);
    RunTracks(plan, w, evs, {});
    TrackedFlushes(plan, w, WorldAfter(plan, w, evs), from);
  }
}
