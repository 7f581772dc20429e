/** The conditions of the transfer and acknowledgement results are exact: each is met, or there
    is a run that breaks the promise. */
module Limits {
  import opened Words
  import opened Packets
  import opened Streams
  import opened Endpoints
  import opened Transfer
  import opened AckSafety
  import opened Runs

  // ---------------------------------------------------------------------------------------
  // How many segments any network may be given
  // ---------------------------------------------------------------------------------------

  /** Every run with at most `n` segments in a direction delivers a prefix. */
  ghost predicate DeliveryHolds(n: nat) {
    forall s, evs, from: Side | Start(s) && Possible(s, evs) && |After(s, evs).At(from).segs| <= n ::
      Delivers(After(s, evs).At(from), After(s, evs).At(from.Other()))
  }

  lemma TooLong(x: Endpoint, y: Endpoint)
    requires |y.assembled| > |x.segs|
    ensures !Delivers(x, y)
  {
  }

  lemma DeliverAgain(s: System, evs: seq<Event>, from: Side, x: Endpoint) returns (evs': seq<Event>)
    requires Possible(s, evs) && |x.segs| == 0x1_0000 && Caught(After(s, evs), from, x, x.isn, x.segs[..|x.segs|])
    requires |x.st.outgoing| == |x.tags| > 1 && SentAs(x.isn, x.segs[0], x.st.outgoing[1], x.tags[1], 1)
    ensures Possible(s, evs') && After(s, evs').At(from) == x && (Pure(evs) ==> Pure(evs'))
    ensures !Delivers(x, After(s, evs').At(from.Other()))
  {
    assert Num(x.isn, 1) == Num(x.isn, 0x1_0000 + 1);
    evs' := DeliverAndRead(s, evs, from, x, x.isn, x.segs[..|x.segs|], 1);
    TooLong(x, After(s, evs').At(from.Other()));
  }

  /** After 65536 segments have been assembled, a late copy of the first one is assembled again. */
  lemma LateCopyBreaksDelivery(s: System, from: Side) returns (evs: seq<Event>)
    requires Start(s)
    ensures Possible(s, evs) && Pure(evs)
    ensures |After(s, evs).At(from).segs| == 0x1_0000
    ensures !Delivers(After(s, evs).At(from), After(s, evs).At(from.Other()))
  {
    var n := 0x1_0000;
    var write, x := OneWrite(s, from, n);
    evs := FromStart(s, [write], from, x, n);
    assert SentAs(x.isn, x.segs[0], x.st.outgoing[1], x.tags[1], 1);
    evs := DeliverAgain(s, evs, from, x);
  }

  /** The network may do what it likes exactly up to 65535 segments. */
  lemma DeliveryLimit(n: nat)
    ensures DeliveryHolds(n) <==> n < 0x1_0000
  {
    if n < 0x1_0000 {
      forall s, evs, from: Side | Start(s) && Possible(s, evs) && |After(s, evs).At(from).segs| <= n
        ensures Delivers(After(s, evs).At(from), After(s, evs).At(from.Other()))
      {
        AdversarialDelivery(s, evs, from);
      }
    } else {
      var s := Opened(0, 0, SocketAddr([], 0), SocketAddr([], 0));
      var evs := LateCopyBreaksDelivery(s, Client);
    }
  }

  // ---------------------------------------------------------------------------------------
  // How far ahead the sender may get
  // ---------------------------------------------------------------------------------------

  /** At every point no segment has come late and the sender is at most `lead` segments ahead. */
  ghost predicate LeadRun(s: System, evs: seq<Event>, from: Side, lead: nat)
    requires Possible(s, evs)
    decreases |evs|
  {
    && s.At(from.Other()).late == {}
    && |s.At(from).segs| - |s.At(from.Other()).assembled| <= lead
    && (evs != [] ==> LeadRun(Step(s, evs[0]), evs[1..], from, lead))
  }

  ghost predicate LeadHolds(lead: nat) {
    forall s, evs, from: Side | Start(s) && Possible(s, evs) && LeadRun(s, evs, from, lead) ::
      Delivers(After(s, evs).At(from), After(s, evs).At(from.Other()))
  }

  lemma {:induction false} LeadIsTame(s: System, evs: seq<Event>, from: Side, lead: nat)
    requires Possible(s, evs) && LeadRun(s, evs, from, lead) && lead <= 0x1_0000
    ensures TameRun(s, evs, from)
    decreases |evs|
  {
    if evs != [] {
      LeadIsTame(Step(s, evs[0]), evs[1..], from, lead);
    }
  }

  lemma {:induction false} ExtendLead(s: System, evs: seq<Event>, ev: Event, from: Side, lead: nat)
    requires Possible(s, evs) && Possible(s, evs + [ev]) && LeadRun(s, evs, from, lead)
    requires After(s, evs + [ev]).At(from.Other()).late == {}
    requires |After(s, evs + [ev]).At(from).segs| - |After(s, evs + [ev]).At(from.Other()).assembled| <= lead
    ensures LeadRun(s, evs + [ev], from, lead)
    decreases |evs|
  {
    if evs == [] {
      assert evs + [ev] == [ev] && [ev][1..] == [];
    } else {
      assert (evs + [ev])[1..] == evs[1..] + [ev];
      ExtendLead(Step(s, evs[0]), evs[1..], ev, from, lead);
    }
  }

  /** Write 65537 segments, the last of which differs from the first. */
  lemma TwoWrites(s: System, from: Side, lead: nat) returns (evs: seq<Event>, x: Endpoint)
    requires Start(s) && lead > 0x1_0000
    ensures Possible(s, evs) && Caught(After(s, evs), from, x, x.isn, []) && LeadRun(s, evs, from, lead)
    ensures Pure(evs)
    ensures Sent(x) && |x.segs| == 0x1_0001 && x.segs[0] != x.segs[0x1_0000]
  {
    StartFacts(s, from);
    StartFacts(s, from.Other());
    var first, x1 := OneWrite(s, from, 0x1_0000);
    assert Possible(s, []) && [] + [first] == [first];
    ExtendLead(s, [], first, from, lead);
    var second := Poll(from, Write([1], |Chunks([1])|, []));
    WriteIsSent(x1, [1]);
    assert Chunks([1]) == [[1]];
    Extend(s, [first], second);
    x := Do(x1, Write([1], |Chunks([1])|, []));
    ExtendLead(s, [first], second, from, lead);
    evs := [first] + [second];
    assert x.segs[0] == x1.segs[0] && x.segs[0x1_0000] == [1];
  }

  lemma {:induction false} LeadAtEnd(s: System, evs: seq<Event>, from: Side, lead: nat)
    requires Possible(s, evs) && LeadRun(s, evs, from, lead)
    ensures After(s, evs).At(from.Other()).late == {}
    decreases |evs|
  {
    if evs != [] {
      LeadAtEnd(Step(s, evs[0]), evs[1..], from, lead);
    }
  }

  /** Two more events that bring no late copy and add nothing to write keep to the lead. */
  lemma LeadDelivered(s: System, written: seq<Event>, evs: seq<Event>, from: Side, lead: nat)
    requires Possible(s, written) && LeadRun(s, written, from, lead)
    requires |evs| == |written| + 2 && evs[..|written|] == written
    requires Possible(s, evs[..|written| + 1]) && Possible(s, evs)
    requires var mid := After(s, evs[..|written| + 1]);
             && mid.At(from.Other()).late == After(s, evs).At(from.Other()).late
             && mid.At(from.Other()).late == After(s, written).At(from.Other()).late
             && |mid.At(from).segs| <= lead && |After(s, evs).At(from).segs| <= lead
    ensures LeadRun(s, evs, from, lead)
  {
    LeadAtEnd(s, written, from, lead);
    var mid := evs[..|written| + 1];
    assert mid == written + [evs[|written|]] && evs == mid + [evs[|written| + 1]];
    ExtendLead(s, written, evs[|written|], from, lead);
    ExtendLead(s, mid, evs[|written| + 1], from, lead);
  }

  /** With 65537 segments sent and only the last one delivered, that one is taken for the first. */
  lemma LeadBreaksDelivery(s: System, from: Side, lead: nat) returns (evs: seq<Event>)
    requires Start(s) && lead > 0x1_0000
    ensures Possible(s, evs) && LeadRun(s, evs, from, lead) && Pure(evs)
    ensures !Delivers(After(s, evs).At(from), After(s, evs).At(from.Other()))
  {
    var n := 0x1_0001;
    var written, x := TwoWrites(s, from, lead);
    assert SentAs(x.isn, x.segs[n - 1], x.st.outgoing[n], x.tags[n], n);
    assert Num(x.isn, n) == Num(x.isn, 1);
    evs := DeliverAndRead(s, written, from, x, x.isn, [], n);
    LeadDelivered(s, written, evs, from, lead);
    var y := After(s, evs).At(from.Other());
    assert y.assembled == [x.segs[n - 1]];
    assert y.assembled[0] != x.segs[0];
  }

  /** Without late copies, delivery needs exactly this: never more than 65536 segments ahead. */
  lemma LeadLimit(lead: nat)
    ensures LeadHolds(lead) <==> lead <= 0x1_0000
  {
    if lead <= 0x1_0000 {
      forall s, evs, from: Side | Start(s) && Possible(s, evs) && LeadRun(s, evs, from, lead)
        ensures Delivers(After(s, evs).At(from), After(s, evs).At(from.Other()))
      {
        LeadIsTame(s, evs, from, lead);
        PrefixDelivery(s, evs, from);
      }
    } else {
      var s := Opened(0, 0, SocketAddr([], 0), SocketAddr([], 0));
      var evs := LeadBreaksDelivery(s, Client, lead);
    }
  }

  // ---------------------------------------------------------------------------------------
  // When a successful flush can be believed
  // ---------------------------------------------------------------------------------------

  /** The acknowledgements left over that get to `side` bear numbers in `acks`. */
  predicate StraysWithin(evs: seq<Event>, side: Side, acks: iset<u16>) {
    forall ev <- evs :: ev.Stray? && ev.to == side ==> ev.packet.ackNumber in acks
  }

  /** In every run with at most `n` segments numbered after `isn`, and with acknowledgements left over
      under the numbers in `acks` only, a flush that reports success means that the peer has
      assembled them all. */
  ghost predicate FlushHolds(isn: u16, n: nat, acks: iset<u16>) {
    forall s, evs, from: Side |
      && Start(s) && Possible(s, evs) && StraysWithin(evs, from, acks)
      && s.At(from).isn == isn
      && |After(s, evs).At(from).segs| <= n
      && PollFlush(After(s, evs).At(from).st).result == FlushOk ::
      After(s, evs).At(from.Other()).assembled == After(s, evs).At(from).segs
  }

  lemma {:induction false} PruneAll(queue: seq<(u16, Bytes)>, ack: u16)
    requires forall entry <- queue :: entry.0 <= ack
    ensures Prune(queue, ack) == []
  {
    if queue != [] {
      assert queue[0] in queue && forall entry <- queue[1..] :: entry in queue;
      PruneAll(queue[1..], ack);
    }
  }

  /** An accepted acknowledgement of a number that none in flight exceeds empties the queue. */
  lemma AckEmpties(x: Endpoint, p: Packet)
    requires Idle(x) && p.packetType == State && !Ignores(x.st, p)
    requires forall entry <- x.st.unackedData :: entry.0 <= p.ackNumber
    ensures PollFlush(Do(x, Receive(p)).st).result == FlushOk
  {
    PruneAll(x.st.unackedData, p.ackNumber);
    AbsorbOne(Do(x, Receive(p)).st, p);
  }

  lemma AckOfLastNumber(x: Endpoint, p: Packet)
    requires Contiguous(x) && Idle(x)
    requires p.packetType == State && p.ackNumber == 0xFFFF
    requires x.isn + |x.segs| == 0x1_0000 && |x.st.unackedData| == |x.segs|
    ensures PollFlush(Do(x, Receive(p)).st).result == FlushOk
  {
    var n := |x.segs|;
    NumPlain(x.isn, n - 1);
    NumDistance(x.isn, n + 1, n - 1);
    AckEmpties(x, p);
  }

  /** The receiver acknowledges what it has assembled, and the acknowledgement is handed over. */
  lemma Acknowledge(s: System, evs: seq<Event>, from: Side, x: Endpoint, assembled: seq<Bytes>)
    returns (evs': seq<Event>, p: Packet)
    requires Possible(s, evs) && Caught(After(s, evs), from, x, x.isn, assembled)
    ensures Possible(s, evs') && After(s, evs').At(from) == Do(x, Receive(p)) && (Pure(evs) ==> Pure(evs'))
    ensures After(s, evs').At(from.Other()).assembled == assembled
    ensures p.packetType == State && p.ackNumber == Num(x.isn, |assembled|)
  {
    var y := After(s, evs).At(from.Other());
    var read, deliver := Poll(from.Other(), Read(0, true, 0)), Deliver(from, |y.tags|);
    ReadNothing(x.isn, y);
    Extend(s, evs, read);
    p := After(s, evs + [read]).At(from.Other()).st.outgoing[|y.tags|];
    Extend(s, evs + [read], deliver);
    evs' := evs + [read] + [deliver];
  }

  /** One side has written `n` segments, and the other has assembled all but the last. */
  lemma AllButOne(s: System, from: Side, n: nat) returns (evs: seq<Event>, x: Endpoint)
    requires Start(s) && n > 0
    ensures Possible(s, evs) && Pure(evs)
    ensures Contiguous(x) && Idle(x) && x.isn == s.At(from).isn && |x.segs| == |x.st.unackedData| == n
    ensures Caught(After(s, evs), from, x, x.isn, x.segs[..n - 1])
  {
    var write;
    write, x := OneWrite(s, from, n);
    evs := FromStart(s, [write], from, x, n - 1);
  }

  /** The segment numbered 0 is dropped on the acknowledgement of the one before it. */
  lemma WrapBreaksFlush(s: System, from: Side) returns (evs: seq<Event>)
    requires Start(s)
    ensures Possible(s, evs) && Pure(evs)
    ensures |After(s, evs).At(from).segs| == 0x1_0000 - s.At(from).isn
    ensures PollFlush(After(s, evs).At(from).st).result == FlushOk
    ensures |After(s, evs).At(from.Other()).assembled| < |After(s, evs).At(from).segs|
  {
    var n := 0x1_0000 - s.At(from).isn;
    var x, p;
    evs, x := AllButOne(s, from, n);
    evs, p := Acknowledge(s, evs, from, x, x.segs[..n - 1]);
    NumPlain(x.isn, n - 1);
    AckOfLastNumber(x, p);
  }

  /** How many segments to write for a harmful acknowledgement to drop them all. */
  function HarmAt(isn: u16, n: nat, ack: u16): (k: nat)
    requires Harmful(isn, n, ack) && isn + n < 0x1_0000
    ensures 1 <= k <= n && (ack == isn + k || (k == 1 && ack >= isn + 0xFFFE))
  {
    if isn < ack <= isn + n then ack - isn else 1
  }

  lemma HarmDrops(x: Endpoint, n: nat, p: Packet)
    requires Contiguous(x) && Idle(x) && x.isn + n < 0x1_0000 && p.packetType == State && Harmful(x.isn, n, p.ackNumber)
    requires |x.segs| == |x.st.unackedData| == HarmAt(x.isn, n, p.ackNumber)
    ensures PollFlush(Do(x, Receive(p)).st).result == FlushOk
  {
    var k := |x.segs|;
    forall entry <- x.st.unackedData
      ensures entry.0 <= p.ackNumber
    {
      var i :| 0 <= i < k && x.st.unackedData[i] == entry;
      NumPlain(x.isn, i + 1);
    }
    assert 1 <= WrappingSub(x.st.seqNumber, p.ackNumber) <= k + ACK_LEEWAY;
    AckEmpties(x, p);
  }

  /** Segments that nobody has assembled are dropped on a harmful acknowledgement left over. */
  lemma StrayBreaksFlush(s: System, from: Side, n: nat, p: Packet) returns (evs: seq<Event>)
    requires Start(s) && s.At(from).isn + n < 0x1_0000
    requires p.packetType == State && Harmful(s.At(from).isn, n, p.ackNumber)
    ensures Possible(s, evs) && (forall ev <- evs :: ev.Stray? ==> ev == Stray(from, p))
    ensures 0 < |After(s, evs).At(from).segs| <= n
    ensures PollFlush(After(s, evs).At(from).st).result == FlushOk
    ensures After(s, evs).At(from.Other()).assembled == []
  {
    var write, x := OneWrite(s, from, HarmAt(s.At(from).isn, n, p.ackNumber));
    Extend(s, [write], Stray(from, p));
    evs := [write] + [Stray(from, p)];
    HarmDrops(x, n, p);
  }

  lemma FlushBelieved(isn: u16, n: nat, acks: iset<u16>)
    requires isn + n < 0x1_0000 && forall ack <- acks :: !Harmful(isn, n, ack)
    ensures FlushHolds(isn, n, acks)
  {
    forall s, evs, from: Side |
      && Start(s) && Possible(s, evs) && StraysWithin(evs, from, acks)
      && s.At(from).isn == isn
      && |After(s, evs).At(from).segs| <= n
      && PollFlush(After(s, evs).At(from).st).result == FlushOk
      ensures After(s, evs).At(from.Other()).assembled == After(s, evs).At(from).segs
    {
      FlushMeansAssembled(s, evs, from);
    }
  }

  /** An acknowledgement under the given number. */
  function AckPacket(ack: u16): Packet {
    Packet(State, 1, 0, 0, 0, 0, 0, ack, [], [])
  }

  /** A successful flush can be believed exactly as long as no number sent has wrapped and none of the
      acknowledgements left over does harm. */
  lemma FlushLimit(isn: u16, n: nat, acks: iset<u16>)
    ensures FlushHolds(isn, n, acks) <==> isn + n < 0x1_0000 && forall ack <- acks :: !Harmful(isn, n, ack)
  {
    var s := Opened(0, isn, SocketAddr([], 0), SocketAddr([], 0));
    assert Start(s) && s.At(Server).isn == isn;
    if isn + n >= 0x1_0000 {
      var evs := WrapBreaksFlush(s, Server);
      assert After(s, evs).At(Server.Other()).assembled != After(s, evs).At(Server).segs;
    } else if ack :| ack in acks && Harmful(isn, n, ack) {
      var evs := StrayBreaksFlush(s, Server, n, AckPacket(ack));
      assert StraysWithin(evs, Server, acks);
      assert After(s, evs).At(Server.Other()).assembled != After(s, evs).At(Server).segs;
    } else {
      FlushBelieved(isn, n, acks);
    }
  }
}
