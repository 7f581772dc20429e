/** A stream together with its history, and what every sequence of operations on it keeps,
    whatever packets it is sent. */
module Endpoints {
  import opened Words
  import opened Packets
  import opened Streams
  import opened Filters

  /** `isn` is the number that precedes the first segment sent; segment `i`, counted from 1, is
      `segs[i - 1]` and has number `Num(isn, i)`. `assembled` are the segments joined up so far,
      `given` the bytes handed to the reader. `tags[j]` records what the packet `outgoing[j]`
      stands for: the index of the segment it carries, or how much had been assembled when it
      acknowledged. `late` collects the indices of segments that arrived once more after they
      had been assembled. */
  datatype Endpoint = Endpoint(
    st: StreamState,
    isn: u16,
    segs: seq<Bytes>,
    assembled: seq<Bytes>,
    given: Bytes,
    tags: seq<nat>,
    late: set<nat>)

  datatype Op =
    | Write(buf: Bytes, sends: nat, clock: seq<u32>)
    | Read(room: nat, ackSent: bool, now: u32)
    | Flush
    | Close
    | Receive(packet: Packet)

  function RecordWrite(e: Endpoint, st: StreamState, segments: seq<Bytes>): Endpoint {
    e.(st := st, segs := e.segs + segments, tags := e.tags + seq(|segments|, i => |e.segs| + 1 + i))
  }

  function DoWrite(e: Endpoint, buf: Bytes, sends: nat, clock: seq<u32>): Endpoint {
    var w := PollWrite(e.st, buf, sends, clock);
    RecordWrite(e, w.st, w.segments)
  }

  function DoRead(e: Endpoint, room: nat, ackSent: bool, now: u32): Endpoint {
    var r := PollRead(e.st, room, ackSent, now);
    var assembled := e.assembled + r.segments;
    e.(st := r.st, assembled := assembled,
       given := e.given + (if r.result.ReadOk? then r.result.bytes else []),
       tags := e.tags + (if r.result.ReadOk? || r.result.ReadPending? then [|assembled|] else []))
  }

  function Do(e: Endpoint, op: Op): Endpoint {
    match op
    case Write(buf, sends, clock) => DoWrite(e, buf, sends, clock)
    case Read(room, ackSent, now) => DoRead(e, room, ackSent, now)
    case Flush => e.(st := PollFlush(e.st).st)
    case Close => e.(st := e.st.(closed := true))
    case Receive(p) => e.(st := e.st.(mailbox := e.st.mailbox + [p]))
  }

  /** What an operation does to the stream alone. */
  function Perform(st: StreamState, op: Op): StreamState {
    match op
    case Write(buf, sends, clock) => PollWrite(st, buf, sends, clock).st
    case Read(room, ackSent, now) => PollRead(st, room, ackSent, now).st
    case Flush => PollFlush(st).st
    case Close => st.(closed := true)
    case Receive(p) => st.(mailbox := st.mailbox + [p])
  }

  lemma DoPerforms(e: Endpoint, op: Op)
    ensures Do(e, op).st == Perform(e.st, op)
  {
  }

  function DoAll(e: Endpoint, ops: seq<Op>): Endpoint
    decreases |ops|
  {
    if ops == [] then e else DoAll(Do(e, ops[0]), ops[1..])
  }

  // ---------------------------------------------------------------------------------------
  // The invariant
  // ---------------------------------------------------------------------------------------

  /** The numbers in flight are the consecutive run that ends just before the next number, and
      the data in flight are the most recent segments. */
  ghost predicate Contiguous(e: Endpoint) {
    && e.st.seqNumber == Num(e.isn, |e.segs| + 1)
    && InFlight(e.isn, e.segs, e.st.unackedData)
  }

  predicate CarriesTagged(isn: u16, segs: seq<Bytes>, p: Packet, tag: nat) {
    p.packetType == Data ==>
      && 1 <= tag <= |segs|
      && p.seqNumber == Num(isn, tag)
      && p.data == segs[tag - 1]
  }

  /** Every data packet sent carries the segment its tag says. */
  ghost predicate DataLogged(e: Endpoint) {
    && |e.tags| == |e.st.outgoing|
    && forall j | 0 <= j < |e.tags| :: CarriesTagged(e.isn, e.segs, e.st.outgoing[j], e.tags[j])
  }

  predicate AckTagged(peerIsn: u16, assembled: nat, p: Packet, tag: nat) {
    p.packetType == State ==> tag <= assembled && p.ackNumber == Num(peerIsn, tag)
  }

  /** The acknowledgement number is that of the last assembled segment of the peer, and every
      acknowledgement sent is the number of a segment assembled by then. */
  ghost predicate AcksLogged(e: Endpoint, peerIsn: u16) {
    && e.st.ackNumber == Num(peerIsn, |e.assembled|)
    && |e.tags| == |e.st.outgoing|
    && forall j | 0 <= j < |e.tags| :: AckTagged(peerIsn, |e.assembled|, e.st.outgoing[j], e.tags[j])
  }

  /** No assembled byte is lost, made up or reordered on its way to the reader. */
  ghost predicate Conserves(e: Endpoint) {
    e.given + e.st.receivedData == Concat(e.assembled)
  }

  /** Packets sent after the opening one, which is `outgoing[0]`, can be routed by the peer. */
  predicate Addressed(e: Endpoint) {
    forall j | 0 < j < |e.st.outgoing| ::
      && Sendable(e.st.outgoing[j])
      && Supported(e.st.outgoing[j])
      && e.st.outgoing[j].connectionId == e.st.connectionIdSend
  }

  ghost predicate Local(e: Endpoint, peerIsn: u16) {
    && Contiguous(e)
    && DataLogged(e)
    && AcksLogged(e, peerIsn)
    && Conserves(e)
    && |e.st.outgoing| > 0
    && Addressed(e)
  }

  // ---------------------------------------------------------------------------------------
  // Every operation keeps it
  // ---------------------------------------------------------------------------------------

  lemma WriteKeepsContiguous(e: Endpoint, st: StreamState, segments: seq<Bytes>, clock: seq<u32>)
    requires Contiguous(e) && Wrote(e.st, st, segments, clock)
    ensures Contiguous(RecordWrite(e, st, segments))
  {
    InFlightAppend(e.isn, e.segs, e.st.unackedData, segments);
    NumNum(e.isn, |e.segs| + 1, |segments|);
  }

  /** The packets of a write carry its segments, which come after those already sent. */
  lemma CarriedTagged(isn: u16, segs: seq<Bytes>, segments: seq<Bytes>, p: Packet, i: nat)
    requires i < |segments| && p.data == segments[i]
    requires p.seqNumber == Num(Num(isn, |segs| + 1), i)
    ensures CarriesTagged(isn, segs + segments, p, |segs| + 1 + i)
  {
    NumNum(isn, |segs| + 1, i);
  }

  lemma WriteKeepsLog(e: Endpoint, peerIsn: u16, st: StreamState, segments: seq<Bytes>, clock: seq<u32>)
    requires Contiguous(e) && DataLogged(e) && AcksLogged(e, peerIsn) && Wrote(e.st, st, segments, clock)
    ensures var e' := RecordWrite(e, st, segments);
            DataLogged(e') && AcksLogged(e', peerIsn)
  {
    var e' := RecordWrite(e, st, segments);
    var m := |e.tags|;
    forall j | 0 <= j < |e'.tags|
      ensures CarriesTagged(e'.isn, e'.segs, e'.st.outgoing[j], e'.tags[j])
      ensures AckTagged(peerIsn, |e'.assembled|, e'.st.outgoing[j], e'.tags[j])
    {
      if j < m {
        assert CarriesTagged(e.isn, e.segs, e.st.outgoing[j], e.tags[j]);
        assert AckTagged(peerIsn, |e.assembled|, e.st.outgoing[j], e.tags[j]);
      } else {
        CarriedTagged(e.isn, e.segs, segments, st.outgoing[j], j - m);
      }
    }
  }

  lemma WriteKeepsAddressed(e: Endpoint, st: StreamState, segments: seq<Bytes>, clock: seq<u32>)
    requires Addressed(e) && |e.st.outgoing| > 0 && Wrote(e.st, st, segments, clock)
    ensures Addressed(RecordWrite(e, st, segments))
  {
    CarriedSendable(e.st.connectionIdSend, e.st.ackNumber, e.st.seqNumber, segments, clock, 0);
    var sent := Carrying(e.st.connectionIdSend, e.st.ackNumber, e.st.seqNumber, segments, clock, 0);
    forall j | 0 < j < |st.outgoing|
      ensures Sendable(st.outgoing[j]) && Supported(st.outgoing[j])
      ensures st.outgoing[j].connectionId == st.connectionIdSend
    {
      if j >= |e.st.outgoing| {
        assert st.outgoing[j] == sent[j - |e.st.outgoing|];
      } else {
        assert st.outgoing[j] == e.st.outgoing[j];
      }
    }
  }

  /** Taking packets in, however hostile, leaves a suffix of the in-flight run in place. */
  lemma AbsorbKeepsContiguous(e: Endpoint, e': Endpoint)
    requires Contiguous(e)
    requires e'.st.seqNumber == e.st.seqNumber && e'.isn == e.isn && e'.segs == e.segs
    requires e'.st.unackedData == Absorb(e.st).st.unackedData
    ensures Contiguous(e')
  {
    AbsorbFrame(e.st);
    InFlightSuffix(e.isn, e.segs, e.st.unackedData, e'.st.unackedData);
  }

  lemma {:induction false} AssembleNumbers(inbound: map<u16, Bytes>, peerIsn: u16, a: nat)
    ensures var d := Assemble(inbound, Num(peerIsn, a));
            d.ackNumber == Num(peerIsn, a + |d.segments|)
    decreases |inbound|
  {
    NumSucc(peerIsn, a);
    var next := Num(peerIsn, a + 1);
    if next in inbound {
      AssembleNumbers(inbound - {next}, peerIsn, a + 1);
    }
  }

  /** The effect of a read, field by field. */
  lemma ReadEffect(e: Endpoint, peerIsn: u16, room: nat, ackSent: bool, now: u32)
    requires e.st.ackNumber == Num(peerIsn, |e.assembled|)
    ensures var r := PollRead(e.st, room, ackSent, now);
            var a := Absorb(e.st);
            && r.st.ackNumber == Num(peerIsn, |e.assembled| + |r.segments|)
            && r.st.seqNumber == e.st.seqNumber
            && r.st.connectionIdSend == e.st.connectionIdSend
            && r.st.unackedData == a.st.unackedData
            && r.st.mailbox == a.st.mailbox
            && (if a.stop == Waiting then
                  Assembly(r.segments, r.st.inboundData, r.st.ackNumber)
                  == Assemble(a.st.inboundData, e.st.ackNumber)
                else
                  r.segments == [] && r.st.inboundData == a.st.inboundData)
            && r.st.outgoing == e.st.outgoing
               + (if r.result.ReadOk? || r.result.ReadPending?
                  then [Packet(State, 1, e.st.connectionIdSend, now, 0, 0, e.st.seqNumber, r.st.ackNumber, [], [])]
                  else [])
  {
    AbsorbFrame(e.st);
    AssembleNumbers(Absorb(e.st).st.inboundData, peerIsn, |e.assembled|);
  }

  /** The bytes of one read: what it hands out and what it keeps are what it had and what it joined up. */
  lemma ReadBytes(st: StreamState, room: nat, ackSent: bool, now: u32)
    ensures var r := PollRead(st, room, ackSent, now);
            (if r.result.ReadOk? then r.result.bytes else []) + r.st.receivedData
            == st.receivedData + Concat(r.segments)
  {
    AbsorbFrame(st);
  }

  /** Assembly stops only where the next segment is missing. */
  lemma {:induction false} AssembleExhausts(inbound: map<u16, Bytes>, ackNumber: u16)
    ensures var d := Assemble(inbound, ackNumber); WrappingAdd(d.ackNumber, 1) !in d.inboundData
    decreases |inbound|
  {
    var next := WrappingAdd(ackNumber, 1);
    if next in inbound {
      AssembleExhausts(inbound - {next}, next);
    }
  }

  lemma {:induction false} AbsorbEnds(st: StreamState)
    ensures Absorb(st).stop == Ended ==> Absorb(st).st.isShutdown
    decreases |st.mailbox|
  {
    if st.mailbox != [] {
      var p := st.mailbox[0];
      var st1 := st.(mailbox := st.mailbox[1..]);
      if Supported(p) {
        AbsorbEnds(if Ignores(st1, p) then st1 else HandlePacket(st1, p));
      }
    }
  }

  /** What a read comes to, by the way its packet loop stopped. If the channel has ended, or a packet
      made it panic, nothing is joined up and nothing handed out, whatever is still buffered.
      Otherwise it does as much as it can: no packet is left in the mailbox and no next segment in
      the reorder buffer; all that is available is kept if the acknowledgement is refused, and
      else handed out as far as it fits, the read being pending exactly when there is nothing. */
  lemma ReadDoesAllItCan(st: StreamState, room: nat, ackSent: bool, now: u32)
    ensures var r := PollRead(st, room, ackSent, now);
            var available := st.receivedData + Concat(r.segments);
            match Absorb(st).stop
            case Panicked => r.result == ReadPanic && r.segments == [] && r.st.receivedData == st.receivedData
            case Ended =>
              && r.result == ReadEof && r.segments == [] && r.st.receivedData == st.receivedData
              && r.st.isShutdown && r.st.ackNumber == st.ackNumber
            case Waiting =>
              && r.st.mailbox == []
              && WrappingAdd(r.st.ackNumber, 1) !in r.st.inboundData
              && (if !ackSent then
                    r.result == ReadError && r.st.receivedData == available
                  else if available == [] then
                    r.result == ReadPending
                  else
                    && r.result.ReadOk?
                    && r.result.bytes + r.st.receivedData == available
                    && |r.result.bytes| == if |available| > room then room else |available|)
  {
    AbsorbFrame(st);
    AbsorbEnds(st);
    AssembleExhausts(Absorb(st).st.inboundData, Absorb(st).st.ackNumber);
  }

  lemma ReadKeepsConserves(e: Endpoint, room: nat, ackSent: bool, now: u32)
    requires Conserves(e)
    ensures Conserves(DoRead(e, room, ackSent, now))
  {
    var r := PollRead(e.st, room, ackSent, now);
    ReadBytes(e.st, room, ackSent, now);
    ConcatAppend(e.assembled, r.segments);
    var out := if r.result.ReadOk? then r.result.bytes else [];
    Associate(e.given, out, r.st.receivedData);
    Associate(e.given, e.st.receivedData, Concat(r.segments));
  }

  lemma ReadKeepsLog(e: Endpoint, peerIsn: u16, room: nat, ackSent: bool, now: u32)
    requires DataLogged(e) && AcksLogged(e, peerIsn) && Addressed(e) && |e.st.outgoing| > 0
    ensures var e' := DoRead(e, room, ackSent, now);
            DataLogged(e') && AcksLogged(e', peerIsn) && Addressed(e')
  {
    var e' := DoRead(e, room, ackSent, now);
    ReadEffect(e, peerIsn, room, ackSent, now);
    forall j | 0 <= j < |e'.tags|
      ensures CarriesTagged(e'.isn, e'.segs, e'.st.outgoing[j], e'.tags[j])
      ensures AckTagged(peerIsn, |e'.assembled|, e'.st.outgoing[j], e'.tags[j])
    {
      if j < |e.tags| {
        assert CarriesTagged(e.isn, e.segs, e.st.outgoing[j], e.tags[j]);
        assert AckTagged(peerIsn, |e.assembled|, e.st.outgoing[j], e.tags[j]);
      }
    }
  }

  lemma DoKeepsLocal(e: Endpoint, peerIsn: u16, op: Op)
    requires Local(e, peerIsn)
    ensures Local(Do(e, op), peerIsn)
  {
    match op
    case Write(buf, sends, clock) =>
      var w := PollWrite(e.st, buf, sends, clock);
      WriteEffect(e.st, buf, sends, clock);
      WriteKeepsContiguous(e, w.st, w.segments, clock);
      WriteKeepsLog(e, peerIsn, w.st, w.segments, clock);
      WriteKeepsAddressed(e, w.st, w.segments, clock);
    case Read(room, ackSent, now) =>
      ReadEffect(e, peerIsn, room, ackSent, now);
      AbsorbKeepsContiguous(e, DoRead(e, room, ackSent, now));
      ReadKeepsConserves(e, room, ackSent, now);
      ReadKeepsLog(e, peerIsn, room, ackSent, now);
    case Flush =>
      AbsorbFrame(e.st);
      AbsorbKeepsContiguous(e, e.(st := PollFlush(e.st).st));
    case Close =>
    case Receive(p) =>
  }

  /** Over every sequence of writes, reads, flushes and arrivals of arbitrary packets, with any
      pattern of refused sends: the in-flight queue is the consecutive run of numbers ending just
      before the next one, over the most recent segments; what has been handed to the reader plus
      what is buffered for it is what has been assembled; and the sent packets are what the
      history says they are. */
  lemma {:induction false} LocalInvariant(e: Endpoint, peerIsn: u16, ops: seq<Op>)
    requires Local(e, peerIsn)
    ensures Local(DoAll(e, ops), peerIsn)
    decreases |ops|
  {
    if ops != [] {
      DoKeepsLocal(e, peerIsn, ops[0]);
      LocalInvariant(Do(e, ops[0]), peerIsn, ops[1..]);
    }
  }

  // ---------------------------------------------------------------------------------------
  // What a stream sends, whatever its state
  // ---------------------------------------------------------------------------------------

  /** A packet as the streams send them after the opening one. */
  predicate OfStream(p: Packet, connectionId: u16) {
    Sendable(p) && Supported(p) && p.connectionId == connectionId
  }

  /** A stream that goes from `st` to `st'` stays addressed as it is, and only sends such packets. */
  ghost predicate SendsOn(st: StreamState, st': StreamState) {
    && st.outgoing <= st'.outgoing
    && (forall p <- st'.outgoing[|st.outgoing|..] :: OfStream(p, st.connectionIdSend))
    && st'.connectionIdSend == st.connectionIdSend && st'.connectionIdRecv == st.connectionIdRecv
    && st'.remoteAddr == st.remoteAddr
  }

  lemma AppendedSendsOn(st: StreamState, st': StreamState, sent: seq<Packet>)
    requires st'.outgoing == st.outgoing + sent && forall p <- sent :: OfStream(p, st.connectionIdSend)
    requires st'.connectionIdSend == st.connectionIdSend && st'.connectionIdRecv == st.connectionIdRecv
    requires st'.remoteAddr == st.remoteAddr
    ensures SendsOn(st, st')
  {
    assert st'.outgoing[|st.outgoing|..] == sent;
  }

  lemma WriteSendsOn(st: StreamState, buf: Bytes, sends: nat, clock: seq<u32>)
    ensures SendsOn(st, PollWrite(st, buf, sends, clock).st)
  {
    var w := PollWrite(st, buf, sends, clock);
    WriteEffect(st, buf, sends, clock);
    CarriedSendable(st.connectionIdSend, st.ackNumber, st.seqNumber, w.segments, clock, 0);
    AppendedSendsOn(st, w.st, Carrying(st.connectionIdSend, st.ackNumber, st.seqNumber, w.segments, clock, 0));
  }

  /** What a read sends: one acknowledgement, or nothing. */
  predicate SendsAtMost(st: StreamState, st': StreamState, ack: Packet) {
    && (st'.outgoing == st.outgoing || st'.outgoing == st.outgoing + [ack])
    && st'.connectionIdSend == st.connectionIdSend && st'.connectionIdRecv == st.connectionIdRecv
    && st'.remoteAddr == st.remoteAddr
  }

  /** The part of a read after its packet loop. */
  lemma DrainedSends(st: StreamState, st1: StreamState, room: nat, ackSent: bool, now: u32)
    requires Absorb(st) == Absorbed(st1, Waiting) && SameApart(st, st1)
    ensures var st' := PollRead(st, room, ackSent, now).st;
            SendsAtMost(st, st', Packet(State, 1, st.connectionIdSend, now, 0, 0, st.seqNumber, st'.ackNumber, [], []))
  {
  }

  lemma ReadSends(st: StreamState, room: nat, ackSent: bool, now: u32)
    ensures var st' := PollRead(st, room, ackSent, now).st;
            SendsAtMost(st, st', Packet(State, 1, st.connectionIdSend, now, 0, 0, st.seqNumber, st'.ackNumber, [], []))
  {
    AbsorbFrame(st);
    var a := Absorb(st);
    if a.stop == Waiting {
      DrainedSends(st, a.st, room, ackSent, now);
    }
  }

  lemma ReadSendsOn(st: StreamState, room: nat, ackSent: bool, now: u32)
    ensures SendsOn(st, PollRead(st, room, ackSent, now).st)
  {
    var st' := PollRead(st, room, ackSent, now).st;
    ReadSends(st, room, ackSent, now);
    if st'.outgoing == st.outgoing {
      AppendedSendsOn(st, st', []);
    } else {
      AppendedSendsOn(st, st', [Packet(State, 1, st.connectionIdSend, now, 0, 0, st.seqNumber, st'.ackNumber, [], [])]);
    }
  }

  /** Every operation, on every state of a stream, sends sendable data and acknowledgements under the
      stream's ID only. */
  lemma PerformSendsOn(st: StreamState, op: Op)
    ensures SendsOn(st, Perform(st, op))
  {
    match op
    case Write(buf, sends, clock) => WriteSendsOn(st, buf, sends, clock);
    case Read(room, ackSent, now) => ReadSendsOn(st, room, ackSent, now);
    case Flush => AbsorbFrame(st);
    case Close =>
    case Receive(p) =>
  }

  // ---------------------------------------------------------------------------------------
  // Acknowledgements in every reachable state
  // ---------------------------------------------------------------------------------------

  /** What pruning on `p` should leave: the segments after the one that `p` names. */
  predicate PrunesRight(st: StreamState, p: Packet) {
    var k := |st.unackedData|;
    var covered := Covered(k, WrappingSub(st.seqNumber, p.ackNumber));
    covered <= k && Prune(st.unackedData, p.ackNumber) == st.unackedData[covered..]
  }

  lemma ContiguousAck(e: Endpoint, p: Packet)
    requires Contiguous(e) && p.packetType == State && |e.st.unackedData| <= 65532
    ensures var n, k := |e.segs|, |e.st.unackedData|;
            && (!Ignores(e.st, p) <==> exists t :: n - k - 2 <= t <= n && p.ackNumber == Num(e.isn, t))
            && (!Ignores(e.st, p) ==>
                  (PrunesRight(e.st, p) <==>
                   k == 0 || !Straddles(Num(e.isn, n - k + 1), k, WrappingSub(e.st.seqNumber, p.ackNumber))))
  {
    var n, k := |e.segs|, |e.st.unackedData|;
    AckFilterExact(e.isn, n, k, e.st.ackNumber, p);
    if !Ignores(e.st, p) {
      InFlightNumbered(e.isn, e.segs, e.st.unackedData);
      NumNum(e.isn, n - k + 1, k);
      PruneExact(Num(e.isn, n - k + 1), e.segs[n - k..], p.ackNumber);
    }
  }

  /** After every sequence of operations, with at most 65532 segments in flight: the filter lets an
      acknowledgement through exactly if it names one of them or one of the three before the
      oldest; and one that is let through drops exactly the segments it covers, unless the
      numbers involved turn over, in which case it never does. */
  lemma ReachableAck(e: Endpoint, peerIsn: u16, ops: seq<Op>, p: Packet)
    requires Local(e, peerIsn) && p.packetType == State && |DoAll(e, ops).st.unackedData| <= 65532
    ensures var e' := DoAll(e, ops);
            var n, k := |e'.segs|, |e'.st.unackedData|;
            && (!Ignores(e'.st, p) <==> exists t :: n - k - 2 <= t <= n && p.ackNumber == Num(e'.isn, t))
            && (!Ignores(e'.st, p) ==>
                  (PrunesRight(e'.st, p) <==>
                   k == 0 || !Straddles(Num(e'.isn, n - k + 1), k, WrappingSub(e'.st.seqNumber, p.ackNumber))))
  {
    LocalInvariant(e, peerIsn, ops);
    ContiguousAck(DoAll(e, ops), p);
  }
}
