/** Two endpoints and a network that may lose, delay, reorder and duplicate packets: what the
    receiver assembles is what the sender wrote, and what the sender drops has been assembled. */
module Transfer {
  import opened Words
  import opened Packets
  import opened Streams
  import opened Filters
  import opened Endpoints
  import opened Handshake

  datatype Side = Client | Server {
    function Other(): Side {
      if this == Client then Server else Client
    }
  }

  datatype System = System(client: Endpoint, server: Endpoint) {
    function At(side: Side): Endpoint {
      if side == Client then client else server
    }

    function Set(side: Side, e: Endpoint): System {
      if side == Client then this.(client := e) else this.(server := e)
    }
  }

  /** An endpoint is polled; or the network hands `to` a copy of the `j`-th packet that its peer
      ever sent; or an acknowledgement that its peer never sent gets to `to`, left over from an earlier
      connection. Nothing forces a packet to be handed over, or keeps it from being so again. */
  datatype Event = Poll(side: Side, op: Op) | Deliver(to: Side, j: nat) | Stray(to: Side, packet: Packet)

  predicate Enabled(s: System, ev: Event) {
    match ev
    case Poll(side, op) => !op.Receive?
    case Deliver(to, j) =>
      var sent := s.At(to.Other()).st.outgoing;
      j < |sent| && sent[j].packetType != Syn
    case Stray(to, p) => p.packetType == State
  }

  /** The arrival of a packet, noting segments that come once more after they were assembled. */
  function Arrive(e: Endpoint, p: Packet, tag: nat): Endpoint {
    var e' := Do(e, Receive(p));
    if p.packetType == Data && tag <= |e.assembled| then e'.(late := e.late + {tag}) else e'
  }

  function Step(s: System, ev: Event): System
    requires Enabled(s, ev)
  {
    match ev
    case Poll(side, op) => s.Set(side, Do(s.At(side), op))
    case Deliver(to, j) =>
      var from := s.At(to.Other());
      s.Set(to, Arrive(s.At(to), from.st.outgoing[j], if j < |from.tags| then from.tags[j] else 0))
    case Stray(to, p) => s.Set(to, Do(s.At(to), Receive(p)))
  }

  ghost predicate Possible(s: System, evs: seq<Event>)
    decreases |evs|
  {
    evs != [] ==> Enabled(s, evs[0]) && Possible(Step(s, evs[0]), evs[1..])
  }

  ghost function After(s: System, evs: seq<Event>): System
    requires Possible(s, evs)
    decreases |evs|
  {
    if evs == [] then s else After(Step(s, evs[0]), evs[1..])
  }

  /** No acknowledgement left over gets to either endpoint. */
  predicate Pure(evs: seq<Event>) {
    forall ev <- evs :: !ev.Stray?
  }

  function Opened(id: u16, random: u16, clientAddr: SocketAddr, serverAddr: SocketAddr): System {
    System(ClientEndpoint(id, random, serverAddr), ServerEndpoint(id, random, clientAddr))
  }

  /** A connection that has just completed its handshake. */
  ghost predicate Start(s: System) {
    exists id, random, clientAddr, serverAddr :: s == Opened(id, random, clientAddr, serverAddr)
  }

  // ---------------------------------------------------------------------------------------
  // The invariant of one direction, from `x` to `y`
  // ---------------------------------------------------------------------------------------

  /** `data`, under the number `key`, is segment `i`; it was not assembled yet when it arrived,
      or it is on record as a late copy. */
  predicate Stands(isn: u16, segs: seq<Bytes>, a: nat, late: set<nat>, key: u16, data: Bytes, i: nat) {
    && 1 <= i <= |segs|
    && key == Num(isn, i)
    && data == segs[i - 1]
    && (i > a || i in late)
  }

  ghost predicate Genuine(isn: u16, segs: seq<Bytes>, a: nat, late: set<nat>, key: u16, data: Bytes) {
    exists i :: Stands(isn, segs, a, late, key, data, i)
  }

  ghost predicate GenuineMail(isn: u16, segs: seq<Bytes>, a: nat, late: set<nat>, mail: seq<Packet>) {
    forall p <- mail :: p.packetType == Data ==> Genuine(isn, segs, a, late, p.seqNumber, p.data)
  }

  ghost predicate GenuineBuffer(isn: u16, segs: seq<Bytes>, a: nat, late: set<nat>, buffer: map<u16, Bytes>) {
    forall key <- buffer :: Genuine(isn, segs, a, late, key, buffer[key])
  }

  /** All that waits at `y` is genuine, and what `y` has assembled is what was written first. */
  ghost predicate Receiving(isn: u16, segs: seq<Bytes>, y: Endpoint) {
    && y.st.ackNumber == Num(isn, |y.assembled|)
    && y.assembled <= segs
    && GenuineMail(isn, segs, |y.assembled|, y.late, y.st.mailbox)
    && GenuineBuffer(isn, segs, |y.assembled|, y.late, y.st.inboundData)
  }

  /** The condition on a run: the sender never gets more than a full turn of numbers ahead of
      what has been assembled, and never a full turn ahead of a segment that came late. */
  predicate Tame(segs: nat, assembled: nat, late: set<nat>) {
    && segs - assembled <= 0x1_0000
    && forall i <- late :: segs - i < 0xFFFF
  }

  ghost predicate TameAt(s: System, from: Side) {
    Tame(|s.At(from).segs|, |s.At(from.Other()).assembled|, s.At(from.Other()).late)
  }

  ghost predicate TameRun(s: System, evs: seq<Event>, from: Side)
    requires Possible(s, evs)
    decreases |evs|
  {
    TameAt(s, from) && (evs != [] ==> TameRun(Step(s, evs[0]), evs[1..], from))
  }

  // ---------------------------------------------------------------------------------------
  // What a poll of the receiver does to it
  // ---------------------------------------------------------------------------------------

  lemma {:induction false} AbsorbKeepsGenuine(isn: u16, segs: seq<Bytes>, a: nat, late: set<nat>, st: StreamState)
    requires GenuineMail(isn, segs, a, late, st.mailbox)
    requires GenuineBuffer(isn, segs, a, late, st.inboundData)
    ensures var st' := Absorb(st).st;
            && GenuineMail(isn, segs, a, late, st'.mailbox)
            && GenuineBuffer(isn, segs, a, late, st'.inboundData)
    decreases |st.mailbox|
  {
    if st.mailbox != [] {
      var p := st.mailbox[0];
      assert p in st.mailbox;
      var st1 := st.(mailbox := st.mailbox[1..]);
      assert forall q <- st1.mailbox :: q in st.mailbox;
      if Supported(p) {
        if Ignores(st1, p) {
          AbsorbKeepsGenuine(isn, segs, a, late, st1);
        } else {
          AbsorbKeepsGenuine(isn, segs, a, late, HandlePacket(st1, p));
        }
      }
    }
  }

  /** Under the next number there can only be the next segment. */
  lemma NextIsNext(isn: u16, segs: seq<Bytes>, a: nat, late: set<nat>, data: Bytes, i: nat)
    requires a <= |segs| && Tame(|segs|, a, late)
    requires Stands(isn, segs, a, late, Num(isn, a + 1), data, i)
    ensures i == a + 1
  {
    NumInjective(isn, i, a + 1);
  }

  /** Joining up the next segment leaves a genuine buffer. */
  lemma TakeNext(isn: u16, segs: seq<Bytes>, a: nat, late: set<nat>, buffer: map<u16, Bytes>)
    requires a <= |segs| && Tame(|segs|, a, late)
    requires GenuineBuffer(isn, segs, a, late, buffer)
    requires Num(isn, a + 1) in buffer
    ensures a < |segs| && buffer[Num(isn, a + 1)] == segs[a]
    ensures GenuineBuffer(isn, segs, a + 1, late, buffer - {Num(isn, a + 1)})
  {
    var next := Num(isn, a + 1);
    var i :| Stands(isn, segs, a, late, next, buffer[next], i);
    NextIsNext(isn, segs, a, late, buffer[next], i);
    forall key <- buffer - {next}
      ensures Genuine(isn, segs, a + 1, late, key, buffer[key])
    {
      var k :| Stands(isn, segs, a, late, key, buffer[key], k);
      assert Stands(isn, segs, a + 1, late, key, buffer[key], k);
    }
  }

  /** The segments `d` joined up after the first `a` are the next ones, and leave a genuine buffer. */
  ghost predicate NextInOrder(isn: u16, segs: seq<Bytes>, a: nat, late: set<nat>, d: Assembly) {
    && a + |d.segments| <= |segs|
    && d.segments == segs[a..a + |d.segments|]
    && GenuineBuffer(isn, segs, a + |d.segments|, late, d.inboundData)
  }

  lemma OneMoreInOrder(isn: u16, segs: seq<Bytes>, a: nat, late: set<nat>, d: Assembly)
    requires a < |segs| && NextInOrder(isn, segs, a + 1, late, d)
    ensures NextInOrder(isn, segs, a, late, d.(segments := [segs[a]] + d.segments))
  {
    assert segs[a..a + 1 + |d.segments|] == [segs[a]] + segs[a + 1..a + 1 + |d.segments|];
  }

  lemma {:induction false} AssembleInOrder(isn: u16, segs: seq<Bytes>, a: nat, late: set<nat>, buffer: map<u16, Bytes>)
    requires a <= |segs| && Tame(|segs|, a, late)
    requires GenuineBuffer(isn, segs, a, late, buffer)
    ensures NextInOrder(isn, segs, a, late, Assemble(buffer, Num(isn, a)))
    decreases |buffer|
  {
    NumSucc(isn, a);
    var next := Num(isn, a + 1);
    if next in buffer {
      TakeNext(isn, segs, a, late, buffer);
      AssembleInOrder(isn, segs, a + 1, late, buffer - {next});
      OneMoreInOrder(isn, segs, a, late, Assemble(buffer - {next}, next));
    }
  }

  lemma PrefixGrows(isn: u16, segs: seq<Bytes>, assembled: seq<Bytes>, late: set<nat>, d: Assembly)
    requires assembled <= segs && NextInOrder(isn, segs, |assembled|, late, d)
    ensures assembled + d.segments <= segs
    ensures GenuineBuffer(isn, segs, |assembled + d.segments|, late, d.inboundData)
    ensures GenuineMail(isn, segs, |assembled + d.segments|, late, [])
  {
    assert assembled + d.segments == segs[..|assembled| + |d.segments|];
  }

  lemma ReadKeepsReceiving(isn: u16, segs: seq<Bytes>, y: Endpoint, room: nat, ackSent: bool, now: u32)
    requires Receiving(isn, segs, y) && Tame(|segs|, |y.assembled|, y.late)
    ensures Receiving(isn, segs, DoRead(y, room, ackSent, now))
  {
    var a := |y.assembled|;
    AbsorbKeepsGenuine(isn, segs, a, y.late, y.st);
    AbsorbFrame(y.st);
    ReadEffect(y, isn, room, ackSent, now);
    var y' := DoRead(y, room, ackSent, now);
    if Absorb(y.st).stop == Waiting {
      AssembleInOrder(isn, segs, a, y.late, Absorb(y.st).st.inboundData);
      PrefixGrows(isn, segs, y.assembled, y.late, Assemble(Absorb(y.st).st.inboundData, y.st.ackNumber));
    } else {
      assert y'.assembled == y.assembled;
    }
  }

  lemma PollKeepsReceiving(isn: u16, segs: seq<Bytes>, y: Endpoint, op: Op)
    requires !op.Receive?
    requires Receiving(isn, segs, y) && Tame(|segs|, |y.assembled|, y.late)
    ensures Receiving(isn, segs, Do(y, op))
  {
    match op
    case Write(buf, sends, clock) =>
      WriteEffect(y.st, buf, sends, clock);
    case Read(room, ackSent, now) =>
      ReadKeepsReceiving(isn, segs, y, room, ackSent, now);
    case Flush =>
      AbsorbKeepsGenuine(isn, segs, |y.assembled|, y.late, y.st);
      AbsorbFrame(y.st);
    case Close =>
  }

  lemma GenuineGrows(isn: u16, segs: seq<Bytes>, segs': seq<Bytes>, a: nat, late: set<nat>, late': set<nat>, key: u16, data: Bytes)
    requires segs <= segs' && late <= late' && Genuine(isn, segs, a, late, key, data)
    ensures Genuine(isn, segs', a, late', key, data)
  {
    var i :| Stands(isn, segs, a, late, key, data, i);
    assert Stands(isn, segs', a, late', key, data, i);
  }

  /** More may be written, and more segments may come late, without what waits becoming less genuine. */
  lemma ReceivingGrows(isn: u16, segs: seq<Bytes>, segs': seq<Bytes>, y: Endpoint, late': set<nat>)
    requires Receiving(isn, segs, y) && segs <= segs' && y.late <= late'
    ensures Receiving(isn, segs', y.(late := late'))
  {
    forall p <- y.st.mailbox | p.packetType == Data
      ensures Genuine(isn, segs', |y.assembled|, late', p.seqNumber, p.data)
    {
      GenuineGrows(isn, segs, segs', |y.assembled|, y.late, late', p.seqNumber, p.data);
    }
    forall key <- y.st.inboundData
      ensures Genuine(isn, segs', |y.assembled|, late', key, y.st.inboundData[key])
    {
      GenuineGrows(isn, segs, segs', |y.assembled|, y.late, late', key, y.st.inboundData[key]);
    }
  }

  lemma ArriveKeepsReceiving(isn: u16, segs: seq<Bytes>, y: Endpoint, p: Packet, tag: nat)
    requires Receiving(isn, segs, y) && CarriesTagged(isn, segs, p, tag)
    ensures Receiving(isn, segs, Arrive(y, p, tag))
  {
    var y' := Arrive(y, p, tag);
    ReceivingGrows(isn, segs, segs, y, y'.late);
    if p.packetType == Data {
      assert Stands(isn, segs, |y.assembled|, y'.late, p.seqNumber, p.data, tag);
    }
  }

  /** An acknowledgement carries no data, wherever it comes from. */
  lemma StrayKeepsReceiving(isn: u16, segs: seq<Bytes>, y: Endpoint, p: Packet)
    requires Receiving(isn, segs, y) && p.packetType == State
    ensures Receiving(isn, segs, Do(y, Receive(p)))
  {
  }

  // ---------------------------------------------------------------------------------------
  // Steps and runs
  // ---------------------------------------------------------------------------------------

  ghost predicate Locals(s: System) {
    Local(s.client, s.server.isn) && Local(s.server, s.client.isn)
  }

  lemma StepKeepsLocals(s: System, ev: Event)
    requires Locals(s) && Enabled(s, ev)
    ensures Locals(Step(s, ev))
    ensures Step(s, ev).client.isn == s.client.isn && Step(s, ev).server.isn == s.server.isn
  {
    match ev
    case Poll(side, op) =>
      DoKeepsLocal(s.At(side), s.At(side.Other()).isn, op);
    case Deliver(to, j) =>
      var p := s.At(to.Other()).st.outgoing[j];
      DoKeepsLocal(s.At(to), s.At(to.Other()).isn, Receive(p));
    case Stray(to, p) =>
      DoKeepsLocal(s.At(to), s.At(to.Other()).isn, Receive(p));
  }

  ghost predicate Direction(s: System, from: Side) {
    Receiving(s.At(from).isn, s.At(from).segs, s.At(from.Other()))
  }

  /** Histories only grow. */
  lemma SegsGrow(e: Endpoint, op: Op)
    ensures e.segs <= Do(e, op).segs && e.assembled <= Do(e, op).assembled
    ensures Do(e, op).isn == e.isn && Do(e, op).late == e.late
  {
  }

  lemma StepKeepsDirection(s: System, ev: Event, from: Side)
    requires Locals(s) && Direction(s, from) && TameAt(s, from) && Enabled(s, ev)
    ensures Direction(Step(s, ev), from)
  {
    var x, y := s.At(from), s.At(from.Other());
    match ev
    case Poll(side, op) =>
      if side == from {
        SegsGrow(x, op);
        ReceivingGrows(x.isn, x.segs, Do(x, op).segs, y, y.late);
        assert y.(late := y.late) == y;
      } else {
        PollKeepsReceiving(x.isn, x.segs, y, op);
      }
    case Deliver(to, j) =>
      if to != from {
        assert to == from.Other() && to.Other() == from;
        ArriveKeepsReceiving(x.isn, x.segs, y, x.st.outgoing[j], x.tags[j]);
      }
    case Stray(to, p) =>
      if to != from {
        StrayKeepsReceiving(x.isn, x.segs, y, p);
      }
  }

  lemma FreshReceiving(isn: u16, y: Endpoint)
    requires y.assembled == [] && y.late == {} && y.st.mailbox == [] && y.st.inboundData == map[]
    requires y.st.ackNumber == isn
    ensures Receiving(isn, [], y) && Tame(0, 0, y.late)
  {
  }

  lemma OpenedEstablishes(id: u16, random: u16, clientAddr: SocketAddr, serverAddr: SocketAddr)
    ensures var s := Opened(id, random, clientAddr, serverAddr);
            && Locals(s)
            && Receiving(s.client.isn, s.client.segs, s.server)
            && Receiving(s.server.isn, s.server.segs, s.client)
            && s.client.segs == s.client.assembled == s.server.segs == s.server.assembled == []
            && s.client.late == s.server.late == {}
  {
    HandshakeEstablishes(id, random, clientAddr, serverAddr);
    FreshReceiving(FIRST_SEQ_NUMBER, ServerEndpoint(id, random, clientAddr));
    FreshReceiving(random, ClientEndpoint(id, random, serverAddr));
  }

  /** The late copies on record are copies of segments that exist. */
  ghost predicate LateExist(s: System, from: Side) {
    forall i <- s.At(from.Other()).late :: 1 <= i
  }

  lemma StartEstablishes(s: System, from: Side)
    requires Start(s)
    ensures Locals(s) && Direction(s, from) && TameAt(s, from) && LateExist(s, from)
  {
    var id, random, clientAddr, serverAddr :| s == Opened(id, random, clientAddr, serverAddr);
    OpenedEstablishes(id, random, clientAddr, serverAddr);
  }

  lemma {:induction false} RunKeeps(s: System, evs: seq<Event>, from: Side)
    requires Locals(s) && Direction(s, from) && Possible(s, evs) && TameRun(s, evs, from)
    ensures Locals(After(s, evs)) && Direction(After(s, evs), from) && TameAt(After(s, evs), from)
    decreases |evs|
  {
    if evs != [] {
      StepKeepsLocals(s, evs[0]);
      StepKeepsDirection(s, evs[0], from);
      RunKeeps(Step(s, evs[0]), evs[1..], from);
    }
  }

  /** What has been handed to the reader, and what has been assembled, are prefixes of what was
      written. */
  predicate Delivers(x: Endpoint, y: Endpoint) {
    && y.assembled <= x.segs
    && y.given <= Concat(x.segs)
  }

  lemma DirectionDelivers(s: System, from: Side)
    requires Locals(s) && Direction(s, from)
    ensures Delivers(s.At(from), s.At(from.Other()))
  {
    var x, y := s.At(from), s.At(from.Other());
    ConcatPrefix(y.assembled, x.segs);
    assert Conserves(y);
  }

  /** The transfer theorem. Over every run of a fresh connection, with any loss, reordering and
      duplication, any acknowledgements left over and any interleaving of polls: as long as the run is tame, the reader is given
      a prefix of what the writer wrote, however often the numbers wrap around. */
  lemma PrefixDelivery(s: System, evs: seq<Event>, from: Side)
    requires Start(s) && Possible(s, evs) && TameRun(s, evs, from)
    ensures Delivers(After(s, evs).At(from), After(s, evs).At(from.Other()))
  {
    StartEstablishes(s, from);
    RunKeeps(s, evs, from);
    DirectionDelivers(After(s, evs), from);
  }

  // ---------------------------------------------------------------------------------------
  // Fewer than 65536 segments: any network
  // ---------------------------------------------------------------------------------------

  lemma StepGrows(s: System, ev: Event, side: Side)
    requires Enabled(s, ev)
    ensures s.At(side).segs <= Step(s, ev).At(side).segs
    ensures s.At(side).assembled <= Step(s, ev).At(side).assembled
  {
    match ev
    case Poll(sd, op) => SegsGrow(s.At(sd), op);
    case Deliver(_, _) =>
    case Stray(_, _) =>
  }

  lemma {:induction false} AfterGrows(s: System, evs: seq<Event>, side: Side)
    requires Possible(s, evs)
    ensures s.At(side).segs <= After(s, evs).At(side).segs
    decreases |evs|
  {
    if evs != [] {
      StepGrows(s, evs[0], side);
      AfterGrows(Step(s, evs[0]), evs[1..], side);
    }
  }

  lemma StepKeepsLateExist(s: System, ev: Event, from: Side)
    requires Locals(s) && LateExist(s, from) && Enabled(s, ev)
    ensures LateExist(Step(s, ev), from)
  {
    match ev
    case Poll(sd, op) => SegsGrow(s.At(sd), op);
    case Deliver(to, j) =>
      var x := s.At(to.Other());
      assert CarriesTagged(x.isn, x.segs, x.st.outgoing[j], x.tags[j]);
    case Stray(_, _) =>
  }

  lemma {:induction false} ShortRunIsTame(s: System, evs: seq<Event>, from: Side)
    requires Locals(s) && Direction(s, from) && LateExist(s, from) && Possible(s, evs)
    requires |After(s, evs).At(from).segs| < 0x1_0000
    ensures TameRun(s, evs, from)
    ensures |s.At(from).segs| <= |After(s, evs).At(from).segs|
    decreases |evs|
  {
    if evs != [] {
      var s' := Step(s, evs[0]);
      StepGrows(s, evs[0], from);
      AfterGrows(s', evs[1..], from);
      StepKeepsLocals(s, evs[0]);
      StepKeepsDirection(s, evs[0], from);
      StepKeepsLateExist(s, evs[0], from);
      ShortRunIsTame(s', evs[1..], from);
    }
  }

  /** With fewer than 65536 segments sent in a direction, no network can make its reader see
      anything but a prefix of what was written. */
  lemma AdversarialDelivery(s: System, evs: seq<Event>, from: Side)
    requires Start(s) && Possible(s, evs)
    requires |After(s, evs).At(from).segs| < 0x1_0000
    ensures Delivers(After(s, evs).At(from), After(s, evs).At(from.Other()))
  {
    StartEstablishes(s, from);
    ShortRunIsTame(s, evs, from);
    PrefixDelivery(s, evs, from);
  }

  // ---------------------------------------------------------------------------------------
  // No packet of an unsupported type
  // ---------------------------------------------------------------------------------------

  ghost predicate SupportedMail(e: Endpoint) {
    forall p <- e.st.mailbox :: Supported(p)
  }

  /** The opening packet is one a stream understands, unless it is the SYN. */
  predicate SupportedOpening(e: Endpoint) {
    |e.st.outgoing| > 0 && (e.st.outgoing[0].packetType == Syn || Supported(e.st.outgoing[0]))
  }

  lemma {:induction false} SupportedNeverPanics(st: StreamState)
    requires forall p <- st.mailbox :: Supported(p)
    ensures Absorb(st).stop != Panicked && Absorb(st).st.mailbox == []
    decreases |st.mailbox|
  {
    if st.mailbox != [] {
      var p := st.mailbox[0];
      var st1 := st.(mailbox := st.mailbox[1..]);
      assert p in st.mailbox && forall q <- st1.mailbox :: q in st.mailbox;
      SupportedNeverPanics(if Ignores(st1, p) then st1 else HandlePacket(st1, p));
    }
  }

  lemma PollKeepsSupported(e: Endpoint, peerIsn: u16, op: Op)
    requires !op.Receive? && Local(e, peerIsn) && SupportedMail(e) && SupportedOpening(e)
    ensures SupportedMail(Do(e, op)) && SupportedOpening(Do(e, op))
  {
    AbsorbFrame(e.st);
    SupportedNeverPanics(e.st);
    match op
    case Write(buf, sends, clock) => WriteEffect(e.st, buf, sends, clock);
    case Read(room, ackSent, now) => ReadEffect(e, peerIsn, room, ackSent, now);
    case Flush =>
    case Close =>
  }

  ghost predicate BothSupported(s: System) {
    && SupportedMail(s.client) && SupportedOpening(s.client)
    && SupportedMail(s.server) && SupportedOpening(s.server)
  }

  lemma ArrivalKeepsSupported(e: Endpoint, p: Packet, tag: nat)
    requires SupportedMail(e) && SupportedOpening(e) && Supported(p)
    ensures SupportedMail(Arrive(e, p, tag)) && SupportedOpening(Arrive(e, p, tag))
    ensures SupportedMail(Do(e, Receive(p))) && SupportedOpening(Do(e, Receive(p)))
  {
  }

  /** All that can be handed over is understood. */
  lemma SentSupported(x: Endpoint, j: nat)
    requires Addressed(x) && SupportedOpening(x) && j < |x.st.outgoing| && x.st.outgoing[j].packetType != Syn
    ensures Supported(x.st.outgoing[j])
  {
  }

  lemma StepKeepsSupported(s: System, ev: Event)
    requires Locals(s) && BothSupported(s) && Enabled(s, ev)
    ensures BothSupported(Step(s, ev))
  {
    match ev
    case Poll(side, op) => PollKeepsSupported(s.At(side), s.At(side.Other()).isn, op);
    case Deliver(to, j) =>
      var x := s.At(to.Other());
      SentSupported(x, j);
      ArrivalKeepsSupported(s.At(to), x.st.outgoing[j], x.tags[j]);
    case Stray(to, p) => ArrivalKeepsSupported(s.At(to), p, 0);
  }

  lemma {:induction false} RunKeepsSupported(s: System, evs: seq<Event>)
    requires Locals(s) && BothSupported(s) && Possible(s, evs)
    ensures BothSupported(After(s, evs))
    decreases |evs|
  {
    if evs != [] {
      StepKeepsLocals(s, evs[0]);
      StepKeepsSupported(s, evs[0]);
      RunKeepsSupported(Step(s, evs[0]), evs[1..]);
    }
  }

  lemma StartSupported(s: System)
    requires Start(s)
    ensures BothSupported(s)
  {
    var id, random, clientAddr, serverAddr :| s == Opened(id, random, clientAddr, serverAddr);
  }

  /** In no run, wrapped or not, does a poll of either stream hit a packet type that is not
      implemented. */
  lemma NeverUnsupported(s: System, evs: seq<Event>, side: Side)
    requires Start(s) && Possible(s, evs)
    ensures Absorb(After(s, evs).At(side).st).stop != Panicked
  {
    StartEstablishes(s, side);
    StartSupported(s);
    RunKeepsSupported(s, evs);
    SupportedNeverPanics(After(s, evs).At(side).st);
  }
}
