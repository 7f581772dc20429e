/** What two hosts about to connect can count on, at the level of datagrams, and for how long: the limits
    of the abstract system are exactly theirs. */
module DatagramLimits {
  import opened Words
  import opened Packets
  import opened Streams
  import opened Endpoints
  import opened Handshake
  import opened Transfer
  import opened AckSafety
  import opened Runs
  import opened Limits
  import opened Worlds
  import opened Wiring
  import opened Datagrams
  import opened WorldRuns
  import opened Realisation

  // ---------------------------------------------------------------------------------------
  // If no other connection joins, no twin appears
  // ---------------------------------------------------------------------------------------

  predicate SendsAlike(st: StreamState, st': StreamState) {
    st'.connectionIdSend == st.connectionIdSend && st'.remoteAddr == st.remoteAddr
  }

  /** Every other stream of `w'` was there in `w`, and sends as it did. */
  ghost predicate NoneNew(w: World, w': World) {
    forall slot <- w'.others :: slot in w.others && SendsAlike(w.others[slot], w'.others[slot])
  }

  lemma StepNoneNew(plan: Plan, w: World, ev: WorldEvent)
    requires WorldEnabled(plan, w, ev) && !Joins(plan, w, ev)
    ensures NoneNew(w, WorldStep(plan, w, ev))
  {
    match ev
    case OtherPolled(addr, m, op) => PerformSendsOn(w.others[(addr, m)], op);
    case _ =>
  }

  /** Only a new stream can be a new twin. */
  lemma StepKeepsSolo(plan: Plan, w: World, ev: WorldEvent)
    requires Solo(plan, w) && WorldEnabled(plan, w, ev) && !Joins(plan, w, ev)
    ensures Solo(plan, WorldStep(plan, w, ev))
  {
    var w' := WorldStep(plan, w, ev);
    StepNoneNew(plan, w, ev);
    forall slot, side: Side | slot in w'.others
      ensures !Twin(plan, side, slot, w'.others[slot])
    {
      assert !Twin(plan, side, slot, w.others[slot]);
    }
  }

  lemma {:induction false} SettledIsFair(plan: Plan, w: World, evs: seq<WorldEvent>)
    requires Solo(plan, w) && WorldPossible(plan, w, evs) && Settled(plan, w, evs)
    ensures Fair(plan, w, evs)
    decreases |evs|
  {
    if evs != [] {
      StepKeepsSolo(plan, w, evs[0]);
      SettledIsFair(plan, WorldStep(plan, w, evs[0]), evs[1..]);
    }
  }

  // ---------------------------------------------------------------------------------------
  // How many segments
  // ---------------------------------------------------------------------------------------

  /** Whatever happens with at most `n` segments in a direction, short of other connections joining and
      of a packet overtaking the SYN-ACK, its reader is given a prefix of what was written. */
  ghost predicate AssuredUpTo(plan: Plan, w: World, n: nat) {
    forall evs, from: Side |
      && WorldPossible(plan, w, evs) && Settled(plan, w, evs)
      && |WorldAfter(plan, w, evs).At(from).Segs()| <= n ::
      WorldDelivers(WorldAfter(plan, w, evs), from)
  }

  lemma SoloAssures(plan: Plan, w: World, n: nat)
    requires Before(plan, w) && Solo(plan, w) && !DataUnderWay(plan, w) && n < 0x1_0000
    ensures AssuredUpTo(plan, w, n)
  {
    forall evs, from: Side |
      && WorldPossible(plan, w, evs) && Settled(plan, w, evs)
      && |WorldAfter(plan, w, evs).At(from).Segs()| <= n
      ensures WorldDelivers(WorldAfter(plan, w, evs), from)
    {
      SettledIsFair(plan, w, evs);
      DatagramDelivery(plan, w, evs, from);
    }
  }

  lemma RealisesDelivers(plan: Plan, w: World, s: System, from: Side)
    requires Realises(plan, w, s)
    ensures WorldDelivers(w, from) <==> Delivers(s.At(from), s.At(from.Other()))
    ensures w.At(from).Segs() == s.At(from).segs
  {
    assert RealisesSide(plan, w, s, from) && RealisesSide(plan, w, s, from.Other());
  }

  /** Delivery at the level of datagrams holds exactly up to 65535 segments. */
  lemma DatagramDeliveryLimit(plan: Plan, w: World, n: nat)
    requires Before(plan, w) && Willing(plan, w) && Solo(plan, w) && !DataUnderWay(plan, w)
    ensures AssuredUpTo(plan, w, n) <==> n < 0x1_0000
  {
    if n < 0x1_0000 {
      SoloAssures(plan, w, n);
    } else {
      var steps := LateCopyBreaksDelivery(Origin(plan, 0), Client);
      var evs, w' := ReachState(plan, w, 0, steps);
      RealisesDelivers(plan, w', After(Origin(plan, 0), steps), Client);
    }
  }

  // ---------------------------------------------------------------------------------------
  // How far ahead
  // ---------------------------------------------------------------------------------------

  /** Whatever happens likewise, if no segment comes late and the sender is never more than `lead` ahead. */
  ghost predicate AssuredAhead(plan: Plan, w: World, lead: nat) {
    forall evs, from: Side |
      WorldPossible(plan, w, evs) && Settled(plan, w, evs) && Orderly(plan, w, evs, {from}, lead) ::
      WorldDelivers(WorldAfter(plan, w, evs), from)
  }

  lemma {:induction false} OrderlyGrows(plan: Plan, w: World, evs: seq<WorldEvent>, strict: set<Side>, lead: nat, lead': nat)
    requires WorldPossible(plan, w, evs) && Orderly(plan, w, evs, strict, lead) && lead <= lead'
    ensures Orderly(plan, w, evs, strict, lead')
    decreases |evs|
  {
    if evs != [] {
      OrderlyGrows(plan, WorldStep(plan, w, evs[0]), evs[1..], strict, lead, lead');
    }
  }

  lemma NoticesKeepSegs(w: World, w': World, mail: Option<Packet>, mail': Option<Packet>, from: Side)
    requires w'.client == Notice(w.client, mail) && w'.server == Notice(w.server, mail')
    ensures w'.At(from).Segs() == w.At(from).Segs()
  {
  }

  lemma ArrivalKeepsSegs(plan: Plan, w: World, f: Frame, from: Side)
    requires WorldEnabled(plan, w, DatagramArrives(f))
    ensures WorldStep(plan, w, DatagramArrives(f)).At(from).Segs() == w.At(from).Segs()
  {
    ArrivalShape(plan, w, f);
    NoticesKeepSegs(w, WorldStep(plan, w, DatagramArrives(f)), Mailed(plan, w, Client, f), Mailed(plan, w, Server, f), from);
  }

  lemma PollKeepsSegs(plan: Plan, w: World, side: Side, op: Op, from: Side)
    requires WorldEnabled(plan, w, StreamPolled(side, op))
    ensures |w.At(from).Segs()| <= |WorldStep(plan, w, StreamPolled(side, op)).At(from).Segs()|
  {
    PollShape(plan, w, side, op);
    SegsGrow(w.At(side).endpoint, op);
    assert from == side || from == side.Other();
  }

  lemma ElseKeepsSegs(plan: Plan, w: World, ev: WorldEvent, from: Side)
    requires WorldEnabled(plan, w, ev) && Ordered(w) && !ev.StreamPolled? && !ev.DatagramArrives?
    ensures |w.At(from).Segs()| <= |WorldStep(plan, w, ev).At(from).Segs()|
  {
  }

  /** What a stream has sent does not become less. */
  lemma SegsStay(plan: Plan, w: World, ev: WorldEvent, from: Side)
    requires WorldEnabled(plan, w, ev) && Ordered(w)
    ensures |w.At(from).Segs()| <= |WorldStep(plan, w, ev).At(from).Segs()|
  {
    match ev
    case StreamPolled(side, op) => PollKeepsSegs(plan, w, side, op, from);
    case DatagramArrives(f) => ArrivalKeepsSegs(plan, w, f, from);
    case _ => ElseKeepsSegs(plan, w, ev, from);
  }

  lemma {:induction false} SegsStayAfter(plan: Plan, w: World, evs: seq<WorldEvent>, from: Side, rules: Rules)
    requires Clean(plan, w, rules.strays) && AllAcks(rules.strays) && Tracked(plan, w, rules) && rules.strict == {}
    requires WorldPossible(plan, w, evs) && Fair(plan, w, evs)
    ensures |w.At(from).Segs()| <= |WorldAfter(plan, w, evs).At(from).Segs()|
    decreases |evs|
  {
    if evs != [] {
      var w' := WorldStep(plan, w, evs[0]);
      SegsStay(plan, w, evs[0], from);
      StepRefines(plan, w, evs[0], w', rules);
      SegsStayAfter(plan, w', evs[1..], from, rules);
    }
  }

  /** A stream that has written nothing has sent no data. */
  lemma NothingWritten(e: Endpoint, peerIsn: u16, p: Packet)
    requires Local(e, peerIsn) && e.segs == [] && p in e.st.outgoing
    ensures p.packetType != Data
  {
    var j :| 0 <= j < |e.st.outgoing| && e.st.outgoing[j] == p;
    assert CarriesTagged(e.isn, e.segs, p, e.tags[j]);
  }

  lemma NoDataWritten(plan: Plan, w: World, from: Side, p: Packet, rules: Rules)
    requires Ordered(w) && Tracked(plan, w, rules) && w.At(from).Segs() == [] && p in w.At(from).Log()
    ensures p.packetType != Data
  {
    assert w.At(from).Live? && w.server.Live?;
    var random, steps :| Tracks(plan, w, random, steps, rules);
    TracksLocal(plan, w, random, steps, rules, from);
    var peerIsn :| Local(w.At(from).endpoint, peerIsn);
    NothingWritten(w.At(from).endpoint, peerIsn, p);
  }

  lemma NothingWrittenIsPunctual(plan: Plan, w: World, ev: WorldEvent, from: Side, rules: Rules)
    requires Clean(plan, w, rules.strays) && AllAcks(rules.strays) && Tracked(plan, w, rules) && rules.strict == {}
    requires WorldEnabled(plan, w, ev) && w.At(from).Segs() == []
    ensures Punctual(plan, w, ev, from)
  {
    if ev.DatagramArrives? {
      var mail := Mailed(plan, w, from.Other(), ev.frame);
      assert from.Other().Other() == from;
      if mail.None? {
        SilentIsPunctual(plan, w, ev.frame, from);
      } else {
        MailIsFromPeer(plan, w, ev.frame, from.Other(), rules);
        if mail.value.packetType == Data {
          NoDataWritten(plan, w, from, mail.value, rules);
        }
        FresherIsPunctual(plan, w, ev.frame, from, mail.value);
      }
    }
  }

  /** As long as nothing is written, every run is orderly. */
  lemma {:induction false} EmptyIsOrderly(plan: Plan, w: World, evs: seq<WorldEvent>, from: Side, lead: nat, rules: Rules)
    requires Clean(plan, w, rules.strays) && AllAcks(rules.strays) && Tracked(plan, w, rules) && rules.strict == {}
    requires WorldPossible(plan, w, evs) && Fair(plan, w, evs)
    requires WorldAfter(plan, w, evs).At(from).Segs() == []
    ensures Orderly(plan, w, evs, {from}, lead)
    decreases |evs|
  {
    SegsStayAfter(plan, w, evs, from, rules);
    if evs != [] {
      var w' := WorldStep(plan, w, evs[0]);
      NothingWrittenIsPunctual(plan, w, evs[0], from, rules);
      StepRefines(plan, w, evs[0], w', rules);
      EmptyIsOrderly(plan, w', evs[1..], from, lead, rules);
    }
  }

  /** The setup of a connection is orderly. */
  lemma SetupOrderly(plan: Plan, w: World, from: Side, lead: nat) returns (evs: seq<WorldEvent>, w': World)
    requires Before(plan, w) && Willing(plan, w) && Solo(plan, w) && !DataUnderWay(plan, w)
    ensures Path(plan, w, evs, w') && Realises(plan, w', Origin(plan, 0)) && Orderly(plan, w, evs, {from}, lead)
  {
    evs, w' := SetupRun(plan, w, 0);
    EstablishedRealises(plan, w', 0);
    SettledIsFair(plan, w, evs);
    BeforeIsClean(plan, w);
    NoDataIsAcks(plan, w);
    EmptyIsOrderly(plan, w, evs, from, lead, Rules({}, LeftOver(plan, w)));
  }

  /** After the setup the sender gets too far ahead. */
  lemma LeadRunFails(plan: Plan, w: World, lead: nat) returns (evs: seq<WorldEvent>, w': World)
    requires Realises(plan, w, Origin(plan, 0)) && lead > 0x1_0000
    ensures Path(plan, w, evs, w') && Orderly(plan, w, evs, {Client}, lead) && !WorldDelivers(w', Client)
  {
    var s := Origin(plan, 0);
    var steps := LeadBreaksDelivery(s, Client, lead);
    OpenedEstablishes(plan.id, 0, plan.clientAddr, plan.serverAddr);
    evs, w' := RunRealised(plan, w, s, steps, Client, lead);
    RealisesDelivers(plan, w', After(s, steps), Client);
  }

  lemma LeadFails(plan: Plan, w: World, lead: nat)
    requires Before(plan, w) && Willing(plan, w) && Solo(plan, w) && !DataUnderWay(plan, w) && lead > 0x1_0000
    ensures !AssuredAhead(plan, w, lead)
  {
    var setup, w1 := SetupOrderly(plan, w, Client, lead);
    var rest, w' := LeadRunFails(plan, w1, lead);
    Append(plan, w, setup, w1, rest, w');
    OrderlyAppend(plan, w, setup, w1, rest, {Client}, lead);
  }

  /** Without late copies, delivery holds exactly for a sender at most 65536 segments ahead. */
  lemma DatagramLeadLimit(plan: Plan, w: World, lead: nat)
    requires Before(plan, w) && Willing(plan, w) && Solo(plan, w) && !DataUnderWay(plan, w)
    ensures AssuredAhead(plan, w, lead) <==> lead <= 0x1_0000
  {
    if lead > 0x1_0000 {
      LeadFails(plan, w, lead);
    } else {
      forall evs, from: Side |
        WorldPossible(plan, w, evs) && Settled(plan, w, evs) && Orderly(plan, w, evs, {from}, lead)
        ensures WorldDelivers(WorldAfter(plan, w, evs), from)
      {
        OrderlyGrows(plan, w, evs, {from}, lead, 0x1_0000);
        SettledIsFair(plan, w, evs);
        DatagramDeliveryUnbounded(plan, w, evs, from);
      }
    }
  }

  // ---------------------------------------------------------------------------------------
  // When a successful flush can be believed
  // ---------------------------------------------------------------------------------------

  /** The stream of `from`, with initial number `isn` and at most `n` segments, reports a successful flush. */
  ghost predicate Flushes(w: World, from: Side, isn: u16, n: nat) {
    && w.At(from).Live? && w.At(from).endpoint.isn == isn && |w.At(from).endpoint.segs| <= n
    && PollFlush(w.At(from).endpoint.st).result == FlushOk
  }

  /** In every run that no other connection joins, this means that the peer has assembled them all. */
  ghost predicate FlushAssured(plan: Plan, w: World, from: Side, isn: u16, n: nat) {
    forall evs |
      && WorldPossible(plan, w, evs) && Settled(plan, w, evs)
      && Flushes(WorldAfter(plan, w, evs), from, isn, n) ::
      WorldAfter(plan, w, evs).At(from.Other()).Assembled() == WorldAfter(plan, w, evs).At(from).Segs()
  }

  lemma HarmGrows(plan: Plan, w: World, side: Side, isn: u16, m: nat, n: nat)
    requires !HarmUnderWay(plan, w, side, isn, n) && m <= n
    ensures !HarmUnderWay(plan, w, side, isn, m)
  {
    forall p | UnderWay(plan, w, side.Other(), p) && p.packetType == State
      ensures !Harmful(isn, m, p.ackNumber)
    {
      assert !Harmful(isn, n, p.ackNumber);
    }
  }

  lemma FlushBelievedHere(plan: Plan, w: World, from: Side, isn: u16, n: nat)
    requires Before(plan, w) && Solo(plan, w) && !DataUnderWay(plan, w)
    requires isn + n < 0x1_0000 && !HarmUnderWay(plan, w, from, isn, n)
    ensures FlushAssured(plan, w, from, isn, n)
  {
    forall evs |
      && WorldPossible(plan, w, evs) && Settled(plan, w, evs)
      && Flushes(WorldAfter(plan, w, evs), from, isn, n)
      ensures WorldAfter(plan, w, evs).At(from.Other()).Assembled() == WorldAfter(plan, w, evs).At(from).Segs()
    {
      SettledIsFair(plan, w, evs);
      HarmGrows(plan, w, from, isn, |WorldAfter(plan, w, evs).At(from).endpoint.segs|, n);
      DatagramFlush(plan, w, evs, from);
    }
  }

  /** The number the server draws, and which initial number that gives `from`. */
  predicate DrawFor(from: Side, isn: u16, random: u16) {
    isn == if from == Client then FIRST_SEQ_NUMBER else random
  }

  lemma RealisedFlush(plan: Plan, w: World, s: System, from: Side, isn: u16, n: nat)
    requires Realises(plan, w, s) && s.At(from).isn == isn && |s.At(from).segs| <= n
    requires PollFlush(s.At(from).st).result == FlushOk
    ensures Flushes(w, from, isn, n)
    ensures w.At(from).Segs() == s.At(from).segs && w.At(from.Other()).Assembled() == s.At(from.Other()).assembled
  {
    assert RealisesSide(plan, w, s, from) && RealisesSide(plan, w, s, from.Other());
    assert s.At(from).st == w.At(from).endpoint.st;
  }

  lemma WrapFails(plan: Plan, w: World, from: Side, isn: u16, n: nat, random: u16)
    requires w.client.Absent? && w.server.Absent? && Willing(plan, w) && DrawFor(from, isn, random)
    requires isn + n >= 0x1_0000
    ensures !FlushAssured(plan, w, from, isn, n)
  {
    var s := Origin(plan, random);
    var steps := WrapBreaksFlush(s, from);
    IsnFixed(s, steps, from);
    var evs, w' := ReachState(plan, w, random, steps);
    RealisedFlush(plan, w', After(s, steps), from, isn, n);
  }

  lemma HarmFlushes(e: Endpoint, x: Endpoint, p: Packet)
    requires x == e.(late := x.late) && PollFlush(Endpoints.Do(x, Endpoints.Receive(p)).st).result == FlushOk
    ensures PollFlush(Endpoints.Do(e, Endpoints.Receive(p)).st).result == FlushOk
  {
  }

  /** A world in which `from` has written just so much that the acknowledgement drops it all. */
  lemma WrittenForHarm(plan: Plan, w: World, from: Side, n: nat, random: u16, p: Packet)
    returns (evs: seq<WorldEvent>, w': World)
    requires w.client.Absent? && w.server.Absent? && Willing(plan, w) && p.packetType == State
    requires var isn := Origin(plan, random).At(from).isn; isn + n < 0x1_0000 && Harmful(isn, n, p.ackNumber)
    ensures Path(plan, w, evs, w') && Retains(w, w') && Hosts(plan, w') && w'.client.Live? && w'.server.Live?
    ensures w'.At(from).endpoint.isn == Origin(plan, random).At(from).isn && 0 < |w'.At(from).endpoint.segs| <= n
    ensures PollFlush(Endpoints.Do(w'.At(from).endpoint, Endpoints.Receive(p)).st).result == FlushOk
    ensures w'.At(from.Other()).endpoint.assembled == []
  {
    var s := Origin(plan, random);
    var write, x := OneWrite(s, from, HarmAt(s.At(from).isn, n, p.ackNumber));
    evs, w' := ReachState(plan, w, random, [write]);
    assert RealisesSide(plan, w', After(s, [write]), from) && RealisesSide(plan, w', After(s, [write]), from.Other());
    HarmDrops(x, n, p);
    HarmFlushes(w'.At(from).endpoint, x, p);
  }

  lemma HarmShown(w: World, w': World, from: Side, isn: u16, n: nat, p: Packet)
    requires w.At(from).Live? && w.At(from).endpoint.isn == isn && 0 < |w.At(from).endpoint.segs| <= n
    requires PollFlush(Endpoints.Do(w.At(from).endpoint, Endpoints.Receive(p)).st).result == FlushOk
    requires w'.At(from) == Notice(w.At(from), Some(p)) && w'.At(from.Other()) == w.At(from.Other())
    requires w.At(from.Other()).Assembled() == []
    ensures Flushes(w', from, isn, n) && w'.At(from.Other()).Assembled() != w'.At(from).Segs()
  {
  }

  /** The acknowledgement left over gets to a stream that has written, before anything else does. */
  lemma HarmFails(plan: Plan, w: World, from: Side, isn: u16, n: nat, random: u16, p: Packet)
    requires w.client.Absent? && w.server.Absent? && Willing(plan, w) && DrawFor(from, isn, random)
    requires isn + n < 0x1_0000 && UnderWay(plan, w, from.Other(), p)
    requires p.packetType == State && Harmful(isn, n, p.ackNumber)
    ensures !FlushAssured(plan, w, from, isn, n)
  {
    assert Origin(plan, random).At(from).isn == isn && from.Other().Other() == from;
    var first, w1 := WrittenForHarm(plan, w, from, n, random, p);
    UnderWayStays(plan, w, w1, from.Other(), p);
    var rest, w' := GetsThrough(plan, w1, from.Other(), p);
    Append(plan, w, first, w1, rest, w');
    HarmShown(w1, w', from, isn, n, p);
  }

  /** A successful flush can be believed, on either side, exactly as long as no number sent has wrapped and
      no acknowledgement left over does harm. */
  lemma DatagramFlushLimit(plan: Plan, w: World, from: Side, isn: u16, n: nat)
    requires Before(plan, w) && Willing(plan, w) && Solo(plan, w) && !DataUnderWay(plan, w)
    requires from == Client ==> isn == FIRST_SEQ_NUMBER
    ensures FlushAssured(plan, w, from, isn, n)
       <==> isn + n < 0x1_0000 && !HarmUnderWay(plan, w, from, isn, n)
  {
    assert DrawFor(from, isn, isn);
    if isn + n >= 0x1_0000 {
      WrapFails(plan, w, from, isn, n, isn);
    } else if HarmUnderWay(plan, w, from, isn, n) {
      var p :| UnderWay(plan, w, from.Other(), p) && p.packetType == State && Harmful(isn, n, p.ackNumber);
      HarmFails(plan, w, from, isn, n, isn, p);
    } else {
      FlushBelievedHere(plan, w, from, isn, n);
    }
  }
}
