/** Building blocks for runs: how to bring a connection into a wanted state, one poll or one packet
    handed over at a time. */
module Runs {
  import opened Words
  import opened Packets
  import opened Streams
  import opened Filters
  import opened Endpoints
  import opened Handshake
  import opened Transfer

  lemma {:induction false} Extend(s: System, evs: seq<Event>, ev: Event)
    requires Possible(s, evs) && Enabled(After(s, evs), ev)
    ensures Possible(s, evs + [ev])
    ensures After(s, evs + [ev]) == Step(After(s, evs), ev)
    decreases |evs|
  {
    if evs == [] {
      assert evs + [ev] == [ev] && [ev][1..] == [];
    } else {
      Extend(Step(s, evs[0]), evs[1..], ev);
      assert (evs + [ev])[1..] == evs[1..] + [ev];
    }
  }

  /** A buffer that is cut into exactly `n` segments of maximal size. */
  function Pad(n: nat): Bytes {
    if n == 0 then [] else seq(MAX_DATA_SEGMENT_SIZE, _ => 0) + Pad(n - 1)
  }

  lemma {:induction false} PadChunks(n: nat)
    ensures |Chunks(Pad(n))| == n
    ensures n > 0 ==> |Chunks(Pad(n))[0]| == MAX_DATA_SEGMENT_SIZE
    ensures n > 0 ==> |Pad(n)| >= MAX_DATA_SEGMENT_SIZE
  {
    if n > 0 {
      PadChunks(n - 1);
      assert Pad(n)[MAX_DATA_SEGMENT_SIZE..] == Pad(n - 1);
      if n == 1 {
        assert Pad(0) == [];
      }
    }
  }

  predicate SentAs(isn: u16, data: Bytes, p: Packet, tag: nat, i: nat) {
    tag == i && p.packetType == Data && p.seqNumber == Num(isn, i) && p.data == data
  }

  /** Everything written has been handed to the socket, in order, behind the opening packet. */
  ghost predicate Sent(x: Endpoint) {
    && |x.st.outgoing| == |x.tags| == |x.segs| + 1
    && !x.st.isShutdown
    && forall i | 1 <= i <= |x.segs| :: SentAs(x.isn, x.segs[i - 1], x.st.outgoing[i], x.tags[i], i)
  }

  lemma RecordIsSent(x: Endpoint, st: StreamState, segments: seq<Bytes>)
    requires Sent(x) && x.st.seqNumber == Num(x.isn, |x.segs| + 1) && Wrote(x.st, st, segments, [])
    ensures Sent(RecordWrite(x, st, segments))
  {
    var x' := RecordWrite(x, st, segments);
    var n := |x.segs|;
    forall i | 1 <= i <= |x'.segs|
      ensures SentAs(x'.isn, x'.segs[i - 1], st.outgoing[i], x'.tags[i], i)
    {
      if i > n {
        CarriedTagged(x.isn, x.segs, segments, st.outgoing[i], i - n - 1);
      } else {
        assert SentAs(x.isn, x.segs[i - 1], x.st.outgoing[i], x.tags[i], i);
      }
    }
  }

  lemma WriteIsSent(x: Endpoint, buf: Bytes)
    requires Sent(x) && Contiguous(x)
    ensures var x' := Do(x, Write(buf, |Chunks(buf)|, []));
            && Sent(x') && Contiguous(x') && x'.segs == x.segs + Chunks(buf) && x'.isn == x.isn
            && x'.st.mailbox == x.st.mailbox && x'.st.closed == x.st.closed
            && x'.st.inboundData == x.st.inboundData
            && |x'.st.unackedData| == |x.st.unackedData| + |Chunks(buf)|
  {
    var w := PollWrite(x.st, buf, |Chunks(buf)|, []);
    WriteEffect(x.st, buf, |Chunks(buf)|, []);
    RecordIsSent(x, w.st, w.segments);
    WriteKeepsContiguous(x, w.st, w.segments, []);
  }

  /** An endpoint with nothing waiting. */
  predicate Idle(y: Endpoint) {
    y.st.mailbox == [] && y.st.inboundData == map[] && !y.st.closed
  }

  /** A read with an empty mailbox sends one more acknowledgement and changes nothing else. */
  lemma ReadNothing(isn: u16, y: Endpoint)
    requires Idle(y) && y.st.ackNumber == Num(isn, |y.assembled|) && |y.tags| == |y.st.outgoing|
    ensures var y' := Do(y, Read(0, true, 0));
            && Idle(y') && y'.assembled == y.assembled && |y'.tags| == |y'.st.outgoing| == |y.tags| + 1
            && y'.st.outgoing[|y.tags|].packetType == State
            && y'.st.outgoing[|y.tags|].ackNumber == Num(isn, |y.assembled|)
  {
    ReadEffect(y, isn, 0, true, 0);
    assert Absorb(y.st) == Absorbed(y.st, Waiting);
    assert Assemble(map[], y.st.ackNumber) == Assembly([], map[], y.st.ackNumber);
  }

  lemma AssembleOne(ack: u16, data: Bytes)
    ensures Assemble(map[WrappingAdd(ack, 1) := data], ack) == Assembly([data], map[], WrappingAdd(ack, 1))
  {
    var next := WrappingAdd(ack, 1);
    assert map[next := data] - {next} == map[];
    assert Assemble(map[], next) == Assembly([], map[], next);
  }

  /** A lone packet that is not ignored is handled, and then nothing is left to do. */
  lemma AbsorbOne(st: StreamState, p: Packet)
    requires st.mailbox == [p] && !st.closed && Supported(p) && !Ignores(st, p)
    ensures Absorb(st) == Absorbed(HandlePacket(st.(mailbox := []), p), Waiting)
  {
    assert st.mailbox[1..] == [];
    var st1 := HandlePacket(st.(mailbox := []), p);
    assert Absorb(st1) == Absorbed(st1, Waiting);
  }

  /** A packet under the next number is assembled by the next read, whatever it carries. */
  lemma ReadOne(isn: u16, y: Endpoint, p: Packet, tag: nat)
    requires Idle(y) && y.st.ackNumber == Num(isn, |y.assembled|) && |y.tags| == |y.st.outgoing|
    requires p.packetType == Data && p.seqNumber == Num(isn, |y.assembled| + 1)
    ensures var y' := Do(Arrive(y, p, tag), Read(0, true, 0));
            && Idle(y') && y'.assembled == y.assembled + [p.data]
            && y'.st.ackNumber == Num(isn, |y'.assembled|) && |y'.tags| == |y'.st.outgoing|
            && y'.late == Arrive(y, p, tag).late
  {
    var a := |y.assembled|;
    var st := Arrive(y, p, tag).st;
    NumSucc(isn, a);
    NumDistance(isn, a + 1, a);
    AbsorbOne(st, p);
    AssembleOne(y.st.ackNumber, p.data);
    ReadEffect(Arrive(y, p, tag), isn, 0, true, 0);
  }

  /** The receiver, who took `base` for the number before the first, has assembled `assembled` and
      has nothing waiting; its peer is `x`. */
  ghost predicate Caught(s: System, from: Side, x: Endpoint, base: u16, assembled: seq<Bytes>) {
    var y := s.At(from.Other());
    && s.At(from) == x
    && Idle(y) && y.assembled == assembled
    && y.st.ackNumber == Num(base, |assembled|) && |y.tags| == |y.st.outgoing|
  }

  /** Hand over a packet that carries the next number, and read it. */
  lemma DeliverAndRead(s: System, evs: seq<Event>, from: Side, x: Endpoint, base: u16, assembled: seq<Bytes>, j: nat)
    returns (evs': seq<Event>)
    requires Possible(s, evs) && Caught(After(s, evs), from, x, base, assembled)
    requires j < |x.st.outgoing| == |x.tags| && x.st.outgoing[j].packetType == Data
    requires x.st.outgoing[j].seqNumber == Num(base, |assembled| + 1)
    ensures |evs'| == |evs| + 2 && evs'[..|evs|] == evs
    ensures Possible(s, evs'[..|evs| + 1]) && Possible(s, evs') && (Pure(evs) ==> Pure(evs'))
    ensures Caught(After(s, evs'), from, x, base, assembled + [x.st.outgoing[j].data])
    ensures var mid := After(s, evs'[..|evs| + 1]);
            && mid.At(from) == x
            && mid.At(from.Other()).assembled == assembled
            && mid.At(from.Other()).late == After(s, evs').At(from.Other()).late
            && (x.tags[j] > |assembled| ==> mid.At(from.Other()).late == After(s, evs).At(from.Other()).late)
  {
    assert from.Other().Other() == from;
    var y := After(s, evs).At(from.Other());
    var deliver, read := Deliver(from.Other(), j), Poll(from.Other(), Read(0, true, 0));
    Extend(s, evs, deliver);
    var mid := evs + [deliver];
    assert After(s, mid).At(from.Other()) == Arrive(y, x.st.outgoing[j], x.tags[j]);
    ReadOne(base, y, x.st.outgoing[j], x.tags[j]);
    Extend(s, mid, read);
    evs' := mid + [read];
    assert evs'[..|evs| + 1] == mid;
  }

  /** Segment `i` has been handed to the socket. */
  ghost predicate Logged(x: Endpoint, i: nat) {
    && |x.tags| == |x.st.outgoing| && 1 <= i <= |x.segs|
    && exists j :: 0 <= j < |x.tags| && SentAs(x.isn, x.segs[i - 1], x.st.outgoing[j], x.tags[j], i)
  }

  ghost predicate AllLogged(x: Endpoint) {
    && |x.tags| == |x.st.outgoing|
    && forall i: nat | 1 <= i <= |x.segs| :: Logged(x, i)
  }

  lemma SentIsLogged(x: Endpoint)
    requires Sent(x)
    ensures AllLogged(x)
  {
    forall i: nat | 1 <= i <= |x.segs|
      ensures Logged(x, i)
    {
      assert SentAs(x.isn, x.segs[i - 1], x.st.outgoing[i], x.tags[i], i);
    }
  }

  lemma FindSegment(x: Endpoint, i: nat) returns (j: nat)
    requires AllLogged(x) && 1 <= i <= |x.segs|
    ensures j < |x.tags| && SentAs(x.isn, x.segs[i - 1], x.st.outgoing[j], x.tags[j], i)
  {
    assert Logged(x, i);
    j :| 0 <= j < |x.tags| && SentAs(x.isn, x.segs[i - 1], x.st.outgoing[j], x.tags[j], i);
  }

  /** From a sender that has handed over all it wrote, a receiver that starts with segment
      `first + 1` can be brought to assemble exactly the `k` segments from there. */
  lemma {:induction false} InOrder(s: System, evs: seq<Event>, from: Side, x: Endpoint, first: nat, k: nat)
    returns (evs': seq<Event>)
    requires AllLogged(x) && first + k <= |x.segs|
    requires Possible(s, evs) && Caught(After(s, evs), from, x, Num(x.isn, first), [])
    ensures Possible(s, evs') && Caught(After(s, evs'), from, x, Num(x.isn, first), x.segs[first..first + k])
    ensures Pure(evs) ==> Pure(evs')
  {
    if k == 0 {
      return evs;
    }
    evs' := InOrder(s, evs, from, x, first, k - 1);
    var j := FindSegment(x, first + k);
    NumNum(x.isn, first, k);
    evs' := DeliverAndRead(s, evs', from, x, Num(x.isn, first), x.segs[first..first + k - 1], j);
    assert x.segs[first..first + k] == x.segs[first..first + k - 1] + [x.segs[first + k - 1]];
  }

  /** In particular one that starts with the first segment. */
  lemma FromStart(s: System, evs: seq<Event>, from: Side, x: Endpoint, k: nat)
    returns (evs': seq<Event>)
    requires Sent(x) && k <= |x.segs|
    requires Possible(s, evs) && Caught(After(s, evs), from, x, x.isn, [])
    ensures Possible(s, evs') && Caught(After(s, evs'), from, x, x.isn, x.segs[..k])
    ensures Pure(evs) ==> Pure(evs')
  {
    SentIsLogged(x);
    assert Num(x.isn, 0) == x.isn && x.segs[0..k] == x.segs[..k];
    evs' := InOrder(s, evs, from, x, 0, k);
  }

  ghost predicate Untouched(x: Endpoint, peerIsn: u16) {
    && Sent(x) && Contiguous(x) && Idle(x) && x.segs == [] && x.assembled == [] && x.late == {}
    && x.st.unackedData == []
    && x.st.ackNumber == peerIsn
  }

  lemma OpenedFacts(id: u16, random: u16, clientAddr: SocketAddr, serverAddr: SocketAddr)
    ensures Untouched(ClientEndpoint(id, random, serverAddr), random)
    ensures Untouched(ServerEndpoint(id, random, clientAddr), FIRST_SEQ_NUMBER)
  {
    HandshakeEstablishes(id, random, clientAddr, serverAddr);
  }

  lemma StartFacts(s: System, side: Side)
    requires Start(s)
    ensures Untouched(s.At(side), s.At(side.Other()).isn)
  {
    var id, random, clientAddr, serverAddr :| s == Opened(id, random, clientAddr, serverAddr);
    OpenedFacts(id, random, clientAddr, serverAddr);
  }

  /** A fresh connection on which one side writes `n` segments. */
  lemma OneWrite(s: System, from: Side, n: nat) returns (ev: Event, x: Endpoint)
    requires Start(s)
    ensures Possible(s, [ev]) && Pure([ev]) && Caught(After(s, [ev]), from, x, x.isn, [])
    ensures After(s, [ev]).At(from.Other()) == s.At(from.Other())
    ensures Sent(x) && Contiguous(x) && Idle(x) && x.isn == s.At(from).isn
    ensures |x.segs| == |x.st.unackedData| == n
    ensures n > 0 ==> |x.segs[0]| == MAX_DATA_SEGMENT_SIZE
  {
    StartFacts(s, from);
    StartFacts(s, from.Other());
    PadChunks(n);
    ev := Poll(from, Write(Pad(n), |Chunks(Pad(n))|, []));
    WriteIsSent(s.At(from), Pad(n));
    x := Do(s.At(from), Write(Pad(n), |Chunks(Pad(n))|, []));
    assert [] + Chunks(Pad(n)) == Chunks(Pad(n));
    assert Possible(s, []) && After(s, []) == s;
    Extend(s, [], ev);
    assert [] + [ev] == [ev];
  }
}
