/** What a reader is sure to get: every segment that was handed over in time, in whatever order. */
module Reassembly {
  import opened Words
  import opened Packets
  import opened Streams
  import opened Filters
  import opened Endpoints
  import opened Transfer
  import opened Runs
  import opened Intake
  import opened Outcomes

  /** The event hands segment `i` over to the peer of `from`, who has assembled all but at most 128 of the
      segments up to it. */
  predicate OfferedNow(s: System, ev: Event, from: Side, i: nat) {
    && ev.Deliver? && ev.to == from.Other()
    && var x := s.At(from);
       && ev.j < |x.tags| && ev.j < |x.st.outgoing|
       && x.st.outgoing[ev.j].packetType == Data && x.tags[ev.j] == i
       && i <= |s.At(from.Other()).assembled| + 128
  }

  /** At some point of the run it is. */
  ghost predicate Offered(s: System, evs: seq<Event>, from: Side, i: nat)
    requires Possible(s, evs)
    decreases |evs|
  {
    evs != [] && (OfferedNow(s, evs[0], from, i) || Offered(Step(s, evs[0]), evs[1..], from, i))
  }

  ghost predicate AllOffered(s: System, evs: seq<Event>, from: Side, k: nat)
    requires Possible(s, evs)
  {
    forall i: nat | 1 <= i <= k :: Offered(s, evs, from, i)
  }

  // ---------------------------------------------------------------------------------------
  // What has been offered is not lost
  // ---------------------------------------------------------------------------------------

  ghost predicate InMail(mail: seq<Packet>, key: u16) {
    exists j :: 0 <= j < |mail| && mail[j].packetType == Data && mail[j].seqNumber == key
  }

  /** Segment `i` has been assembled, or waits in the reorder buffer or the mailbox. */
  ghost predicate Held(isn: u16, y: Endpoint, i: nat) {
    || i <= |y.assembled|
    || (i <= |y.assembled| + 128 && (Num(isn, i) in y.st.inboundData || InMail(y.st.mailbox, Num(isn, i))))
  }

  /** The number is within the filter's reach. */
  lemma Reachable(isn: u16, a: nat, i: nat, p: Packet)
    requires a < i <= a + 128 && p.packetType == Data && p.seqNumber == Num(isn, i)
    ensures Lands(p, Num(isn, a), Num(isn, i))
  {
    NumDistance(isn, i, a);
  }

  /** Taking packets in brings what waits in the mailbox to the reorder buffer. */
  lemma AbsorbHolds(isn: u16, a: nat, i: nat, st: StreamState)
    requires AllSupported(st.mailbox) && st.ackNumber == Num(isn, a) && a < i <= a + 128
    requires Num(isn, i) in st.inboundData || InMail(st.mailbox, Num(isn, i))
    ensures Num(isn, i) in Absorb(st).st.inboundData
  {
    var key := Num(isn, i);
    AbsorbLooksUp(st, key);
    LastLandingExact(st.mailbox, st.ackNumber, key);
    if InMail(st.mailbox, key) {
      var j :| 0 <= j < |st.mailbox| && st.mailbox[j].packetType == Data && st.mailbox[j].seqNumber == key;
      Reachable(isn, a, i, st.mailbox[j]);
    }
  }

  /** The drain takes no number but those it assembles. */
  lemma AssembleHolds(isn: u16, a: nat, i: nat, buffer: map<u16, Bytes>)
    requires Num(isn, i) in buffer && a < i <= a + 128
    ensures var d := Assemble(buffer, Num(isn, a));
            i <= a + |d.segments| || Num(isn, i) in d.inboundData
  {
    var d := Assemble(buffer, Num(isn, a));
    AssembleExact(buffer, Num(isn, a));
    if i > a + |d.segments| && Num(isn, i) in Numbers(Num(isn, a), |d.segments|) {
      var m :| 1 <= m <= |d.segments| && Num(isn, i) == Num(Num(isn, a), m);
      NumNum(isn, a, m);
      NumInjective(isn, i, a + m);
    }
  }

  lemma ReadHolds(isn: u16, y: Endpoint, i: nat, room: nat, ackSent: bool, now: u32)
    requires y.st.ackNumber == Num(isn, |y.assembled|) && AllSupported(y.st.mailbox) && Held(isn, y, i)
    ensures Held(isn, DoRead(y, room, ackSent, now), i)
  {
    ReadEffect(y, isn, room, ackSent, now);
    AbsorbFrame(y.st);
    AbsorbStops(y.st);
    if i > |y.assembled| {
      AbsorbHolds(isn, |y.assembled|, i, y.st);
      AssembleHolds(isn, |y.assembled|, i, Absorb(y.st).st.inboundData);
    }
  }

  lemma PollHolds(isn: u16, y: Endpoint, i: nat, op: Op)
    requires !op.Receive?
    requires y.st.ackNumber == Num(isn, |y.assembled|) && AllSupported(y.st.mailbox) && Held(isn, y, i)
    ensures Held(isn, Do(y, op), i)
  {
    match op
    case Write(buf, sends, clock) => WriteEffect(y.st, buf, sends, clock);
    case Read(room, ackSent, now) => ReadHolds(isn, y, i, room, ackSent, now);
    case Flush =>
      AbsorbFrame(y.st);
      if i > |y.assembled| {
        AbsorbHolds(isn, |y.assembled|, i, y.st);
      }
    case Close =>
  }

  lemma MailGrows(mail: seq<Packet>, p: Packet, key: u16)
    ensures InMail(mail, key) ==> InMail(mail + [p], key)
    ensures p.packetType == Data && p.seqNumber == key ==> InMail(mail + [p], key)
  {
    if InMail(mail, key) {
      var j :| 0 <= j < |mail| && mail[j].packetType == Data && mail[j].seqNumber == key;
      assert (mail + [p])[j] == mail[j];
    }
    assert (mail + [p])[|mail|] == p;
  }

  lemma ReceiveHolds(isn: u16, y: Endpoint, i: nat, p: Packet)
    requires Held(isn, y, i)
    ensures Held(isn, Do(y, Receive(p)), i)
  {
    MailGrows(y.st.mailbox, p, Num(isn, i));
  }

  lemma ArriveHolds(isn: u16, y: Endpoint, i: nat, p: Packet, tag: nat)
    requires Held(isn, y, i) || (p.packetType == Data && p.seqNumber == Num(isn, i) && i <= |y.assembled| + 128)
    ensures Held(isn, Arrive(y, p, tag), i)
  {
    MailGrows(y.st.mailbox, p, Num(isn, i));
  }

  /** No step loses a segment that is held, and one that offers a segment makes it held. */
  lemma StepHolds(s: System, ev: Event, from: Side, i: nat)
    requires Locals(s) && BothSupported(s) && Enabled(s, ev)
    requires Held(s.At(from).isn, s.At(from.Other()), i) || OfferedNow(s, ev, from, i)
    ensures Held(Step(s, ev).At(from).isn, Step(s, ev).At(from.Other()), i)
  {
    var x, y := s.At(from), s.At(from.Other());
    assert AcksLogged(y, x.isn) && DataLogged(x) && SupportedMail(y);
    match ev
    case Poll(side, op) =>
      if side == from {
        SegsGrow(x, op);
      } else {
        PollHolds(x.isn, y, i, op);
      }
    case Deliver(to, j) =>
      if to != from {
        assert to.Other() == from && CarriesTagged(x.isn, x.segs, x.st.outgoing[j], x.tags[j]);
        ArriveHolds(x.isn, y, i, x.st.outgoing[j], x.tags[j]);
      }
    case Stray(to, p) =>
      if to != from {
        ReceiveHolds(x.isn, y, i, p);
      }
  }

  lemma {:induction false} RunHolds(s: System, evs: seq<Event>, from: Side, i: nat)
    requires Locals(s) && BothSupported(s) && Possible(s, evs)
    requires Held(s.At(from).isn, s.At(from.Other()), i) || Offered(s, evs, from, i)
    ensures Held(After(s, evs).At(from).isn, After(s, evs).At(from.Other()), i)
    ensures Locals(After(s, evs)) && BothSupported(After(s, evs))
    decreases |evs|
  {
    if evs != [] {
      var s' := Step(s, evs[0]);
      StepKeepsLocals(s, evs[0]);
      StepKeepsSupported(s, evs[0]);
      if Held(s.At(from).isn, s.At(from.Other()), i) || OfferedNow(s, evs[0], from, i) {
        StepHolds(s, evs[0], from, i);
      }
      RunHolds(s', evs[1..], from, i);
    }
  }

  // ---------------------------------------------------------------------------------------
  // The read
  // ---------------------------------------------------------------------------------------

  lemma DrainLeavesNoNext(isn: u16, a: nat, buffer: map<u16, Bytes>, d: Assembly, a': nat)
    requires d == Assemble(buffer, Num(isn, a)) && a' == a + |d.segments|
    ensures Num(isn, a' + 1) !in d.inboundData
  {
    AssembleExact(buffer, Num(isn, a));
    NumNum(isn, a, |d.segments| + 1);
  }

  /** What a read on an open channel leaves. */
  lemma ReadDrains(y: Endpoint, room: nat, ackSent: bool, now: u32)
    requires AllSupported(y.st.mailbox) && !y.st.closed
    ensures var y' := DoRead(y, room, ackSent, now);
            var d := Assemble(Absorb(y.st).st.inboundData, y.st.ackNumber);
            && y'.st.mailbox == [] && y'.st.inboundData == d.inboundData
            && |y'.assembled| == |y.assembled| + |d.segments|
  {
    AbsorbFrame(y.st);
    AbsorbStops(y.st);
  }

  /** After a read on an open channel nothing waits under the next number. */
  lemma ReadLeavesNoNext(isn: u16, y: Endpoint, room: nat, ackSent: bool, now: u32)
    requires y.st.ackNumber == Num(isn, |y.assembled|) && AllSupported(y.st.mailbox) && !y.st.closed
    ensures var y' := DoRead(y, room, ackSent, now);
            y'.st.mailbox == [] && Num(isn, |y'.assembled| + 1) !in y'.st.inboundData
  {
    var buffer := Absorb(y.st).st.inboundData;
    ReadDrains(y, room, ackSent, now);
    DrainLeavesNoNext(isn, |y.assembled|, buffer, Assemble(buffer, y.st.ackNumber),
                      |DoRead(y, room, ackSent, now).assembled|);
  }

  lemma NotHeld(isn: u16, y: Endpoint)
    requires y.st.mailbox == [] && Num(isn, |y.assembled| + 1) !in y.st.inboundData
    ensures !Held(isn, y, |y.assembled| + 1)
  {
  }

  /** A read on an open channel assembles everything up to the first segment that is not held. */
  lemma ReadAssembles(isn: u16, y: Endpoint, k: nat, room: nat, ackSent: bool, now: u32)
    requires y.st.ackNumber == Num(isn, |y.assembled|) && AllSupported(y.st.mailbox) && !y.st.closed
    requires forall i: nat | 1 <= i <= k :: Held(isn, y, i)
    ensures |DoRead(y, room, ackSent, now).assembled| >= k
  {
    var y' := DoRead(y, room, ackSent, now);
    forall i: nat | 1 <= i <= k
      ensures Held(isn, y', i)
    {
      ReadHolds(isn, y, i, room, ackSent, now);
    }
    ReadLeavesNoNext(isn, y, room, ackSent, now);
    NotHeld(isn, y');
  }

  lemma {:induction false} RunKeepsBoth(s: System, evs: seq<Event>)
    requires Locals(s) && Possible(s, evs)
    ensures Locals(After(s, evs))
    decreases |evs|
  {
    if evs != [] {
      StepKeepsLocals(s, evs[0]);
      RunKeepsBoth(Step(s, evs[0]), evs[1..]);
    }
  }

  /** In every run, wrapped or not: if each segment up to the `k`-th was handed over while at most 128 ahead of
      what was assembled, in any order, any number of times and with any polls in between, then a read
      on an open channel ends with at least `k` segments assembled. */
  lemma OfferedAreAssembled(s: System, evs: seq<Event>, from: Side, k: nat, room: nat, ackSent: bool, now: u32)
    requires Start(s) && Possible(s, evs) && AllOffered(s, evs, from, k) && !HasEnded(evs, from.Other())
    ensures |Do(After(s, evs).At(from.Other()), Read(room, ackSent, now)).assembled| >= k
  {
    StartEstablishes(s, from);
    StartSupported(s);
    RunEnds(s, evs, from.Other());
    var x, y := After(s, evs).At(from), After(s, evs).At(from.Other());
    forall i: nat | 1 <= i <= k
      ensures Held(x.isn, y, i)
    {
      RunHolds(s, evs, from, i);
    }
    RunKeepsBoth(s, evs);
    assert AcksLogged(y, x.isn);
    ReadAssembles(x.isn, y, k, room, ackSent, now);
  }

  /** What a read on an open channel leaves for later is what there is no room for. */
  lemma ReadGivesAll(y: Endpoint, room: nat, now: u32)
    requires Conserves(y) && Absorb(y.st).stop == Waiting
    requires room >= |Concat(DoRead(y, room, true, now).assembled)|
    ensures DoRead(y, room, true, now).given == Concat(DoRead(y, room, true, now).assembled)
  {
    var r := PollRead(y.st, room, true, now);
    ReadKeepsConserves(y, room, true, now);
    ReadDoesAllItCan(y.st, room, true, now);
    ConcatAppend(y.assembled, r.segments);
    assert |y.given + y.st.receivedData| == |y.given| + |y.st.receivedData|;
  }

  /** So with fewer than 65536 segments, all of them offered, a read with room enough has given the reader all
      that was written. */
  lemma OfferedAreGiven(s: System, evs: seq<Event>, from: Side, room: nat, now: u32)
    requires Start(s) && Possible(s, evs) && !HasEnded(evs, from.Other())
    requires var x := After(s, evs).At(from);
             AllOffered(s, evs, from, |x.segs|) && |x.segs| < 0x1_0000 && room >= |Concat(x.segs)|
    ensures var x, y' := After(s, evs).At(from), Do(After(s, evs).At(from.Other()), Read(room, true, now));
            y'.assembled == x.segs && y'.given == Concat(x.segs)
  {
    var read := Poll(from.Other(), Read(room, true, now));
    var x, y := After(s, evs).At(from), After(s, evs).At(from.Other());
    var y' := Do(y, Read(room, true, now));
    OfferedAreAssembled(s, evs, from, |x.segs|, room, true, now);
    Extend(s, evs, read);
    AdversarialDelivery(s, evs + [read], from);
    assert y'.assembled == x.segs;
    StartEstablishes(s, from);
    RunKeepsBoth(s, evs);
    RunEnds(s, evs, from.Other());
    AbsorbStops(y.st);
    ReadGivesAll(y, room, now);
  }

  // ---------------------------------------------------------------------------------------
  // The flush
  // ---------------------------------------------------------------------------------------

  lemma InFlightAscending(x: Endpoint)
    requires Contiguous(x) && x.isn + |x.segs| < 0x1_0000
    ensures Ascending(x.st.unackedData, x.isn + |x.segs| + 1)
    ensures x.st.seqNumber == (x.isn + |x.segs| + 1) % 0x1_0000
  {
    var k := |x.st.unackedData|;
    forall i | 0 <= i < k
      ensures x.st.unackedData[i].0 == x.isn + |x.segs| + 1 - k + i
    {
      NumPlain(x.isn, |x.segs| - k + 1 + i);
    }
  }

  lemma LastEntry(queue: seq<(u16, Bytes)>, end: nat)
    requires Ascending(queue, end)
    ensures queue == [] || !AllAbove(queue, end - 1)
  {
    if queue != [] {
      assert queue[|queue| - 1] in queue && queue[|queue| - 1].0 == end - 1;
    }
  }

  /** A flush that finds the acknowledgement of the last segment in its mailbox, wherever it stands and
      whatever else is there, succeeds, as long as no number wraps. */
  lemma FlushSucceeds(x: Endpoint, j: nat)
    requires Contiguous(x) && x.isn + |x.segs| < 0x1_0000 && AllSupported(x.st.mailbox)
    requires j < |x.st.mailbox| && x.st.mailbox[j].packetType == State
    requires x.st.mailbox[j].ackNumber == Num(x.isn, |x.segs|)
    ensures PollFlush(x.st).result == FlushOk
  {
    var end := x.isn + |x.segs| + 1;
    InFlightAscending(x);
    NumPlain(x.isn, |x.segs|);
    AbsorbDrops(x.st, end, j);
    AbsorbStops(x.st);
    AbsorbFrame(x.st);
    var left := Absorb(x.st).st.unackedData;
    SuffixAscending(x.st.unackedData, left, end, -1);
    LastEntry(left, end);
  }

  /** The acknowledgement that a read sends when everything has been assembled. */
  lemma ReadAcknowledges(isn: u16, y: Endpoint, segs: nat, room: nat, now: u32)
    requires y.st.ackNumber == Num(isn, |y.assembled|) && |y.tags| == |y.st.outgoing|
    requires Absorb(y.st).stop == Waiting
    requires |DoRead(y, room, true, now).assembled| == segs
    ensures var y' := DoRead(y, room, true, now);
            && |y'.st.outgoing| == |y.st.outgoing| + 1
            && y'.st.outgoing[|y.st.outgoing|].packetType == State
            && y'.st.outgoing[|y.st.outgoing|].ackNumber == Num(isn, segs)
  {
    ReadEffect(y, isn, room, true, now);
  }

  lemma AcknowledgedFlush(s: System, evs: seq<Event>, from: Side, x: Endpoint, p: Packet)
    requires Start(s) && Possible(s, evs) && After(s, evs).At(from).st == x.st.(mailbox := x.st.mailbox + [p])
    requires Contiguous(x) && x.isn + |x.segs| < 0x1_0000
    requires p.packetType == State && p.ackNumber == Num(x.isn, |x.segs|)
    ensures PollFlush(After(s, evs).At(from).st).result == FlushOk
  {
    RunEnds(s, evs, from);
    FlushSucceeds(x.(st := After(s, evs).At(from).st), |x.st.mailbox|);
  }

  /** The read, and the delivery of the acknowledgement it sends. */
  lemma ReadAndAcknowledge(s: System, evs: seq<Event>, from: Side, x: Endpoint, y: Endpoint, room: nat, now: u32)
    returns (rest: seq<Event>, p: Packet)
    requires Possible(s, evs) && After(s, evs).At(from) == x && After(s, evs).At(from.Other()) == y
    requires y.st.ackNumber == Num(x.isn, |y.assembled|) && |y.tags| == |y.st.outgoing|
    requires Absorb(y.st).stop == Waiting && |DoRead(y, room, true, now).assembled| == |x.segs|
    ensures |rest| == 2 && rest[0] == Poll(from.Other(), Read(room, true, now)) && rest[1].Deliver?
    ensures Possible(s, evs + rest)
    ensures After(s, evs + rest).At(from) == Do(x, Receive(p))
    ensures After(s, evs + rest).At(from.Other()) == Do(y, Read(room, true, now))
    ensures p.packetType == State && p.ackNumber == Num(x.isn, |x.segs|)
  {
    var read, deliver := Poll(from.Other(), Read(room, true, now)), Deliver(from, |y.st.outgoing|);
    rest := [read] + [deliver];
    ReadAcknowledges(x.isn, y, |x.segs|, room, now);
    p := Do(y, Read(room, true, now)).st.outgoing[|y.st.outgoing|];
    Extend(s, evs, read);
    Extend(s, evs + [read], deliver);
    assert evs + rest == (evs + [read]) + [deliver];
  }

  /** A transfer completes: with all segments offered, both channels open and no number wrapped, a read, the
      delivery of its acknowledgement and a flush end with all bytes given and the flush successful. */
  lemma TransferCompletes(s: System, evs: seq<Event>, from: Side, room: nat, now: u32) returns (rest: seq<Event>)
    requires Start(s) && Possible(s, evs) && !HasEnded(evs, from) && !HasEnded(evs, from.Other())
    requires var x := After(s, evs).At(from);
             && AllOffered(s, evs, from, |x.segs|)
             && x.isn + |x.segs| < 0x1_0000 && room >= |Concat(x.segs)|
    ensures |rest| == 2 && rest[0] == Poll(from.Other(), Read(room, true, now)) && rest[1].Deliver?
    ensures Possible(s, evs + rest)
    ensures var s' := After(s, evs + rest);
            && s'.At(from).segs == After(s, evs).At(from).segs
            && s'.At(from.Other()).given == Concat(s'.At(from).segs)
            && PollFlush(s'.At(from).st).result == FlushOk
  {
    var x, y := After(s, evs).At(from), After(s, evs).At(from.Other());
    StartEstablishes(s, from);
    RunKeepsBoth(s, evs);
    RunEnds(s, evs, from.Other());
    AbsorbStops(y.st);
    OfferedAreGiven(s, evs, from, room, now);
    assert AcksLogged(y, x.isn);
    var p;
    rest, p := ReadAndAcknowledge(s, evs, from, x, y, room, now);
    AcknowledgedFlush(s, evs + rest, from, x, p);
  }
}
