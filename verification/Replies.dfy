/** Which of the server's packets may reach a waiting client first: what `connect` makes of each, and
    what becomes of delivery afterwards. */
module Replies {
  import opened Words
  import opened Packets
  import opened Streams
  import opened Filters
  import opened Endpoints
  import opened Handshake
  import opened Transfer
  import opened Runs

  /** What the server's stream can be asked to do while the client is still waiting: it is sent
      nothing, and its channel does not end. */
  predicate Prelude(ops: seq<Op>) {
    forall op <- ops :: op.Write? || op.Read? || op.Flush?
  }

  /** A State packet sent after the SYN-ACK carries the number of the next segment. */
  predicate NumberedAck(isn: u16, p: Packet, m: nat) {
    p.seqNumber == Num(isn, m + 1)
  }

  ghost predicate AcksNumbered(e: Endpoint) {
    forall j | 0 < j < |e.st.outgoing| && e.st.outgoing[j].packetType == State ::
      exists m: nat :: m <= |e.segs| && NumberedAck(e.isn, e.st.outgoing[j], m)
  }

  /** A server to which nothing has been sent. */
  ghost predicate Unheard(e: Endpoint, first: Packet) {
    && Local(e, FIRST_SEQ_NUMBER)
    && Idle(e) && !e.st.isShutdown
    && e.st.outgoing[0] == first
    && AcksNumbered(e) && AllLogged(e)
  }

  lemma WriteKeepsLogged(e: Endpoint, st: StreamState, segments: seq<Bytes>, clock: seq<u32>)
    requires Contiguous(e) && AllLogged(e) && Wrote(e.st, st, segments, clock)
    ensures AllLogged(RecordWrite(e, st, segments))
  {
    var e' := RecordWrite(e, st, segments);
    var n, m := |e.segs|, |e.tags|;
    forall i: nat | 1 <= i <= |e'.segs|
      ensures Logged(e', i)
    {
      if i <= n {
        assert Logged(e, i);
        var j :| 0 <= j < m && SentAs(e.isn, e.segs[i - 1], e.st.outgoing[j], e.tags[j], i);
        assert SentAs(e'.isn, e'.segs[i - 1], st.outgoing[j], e'.tags[j], i);
      } else {
        var j := m + (i - n - 1);
        CarriedTagged(e.isn, e.segs, segments, st.outgoing[j], i - n - 1);
        assert SentAs(e'.isn, e'.segs[i - 1], st.outgoing[j], e'.tags[j], i);
      }
    }
  }

  lemma WriteKeepsNumbered(e: Endpoint, st: StreamState, segments: seq<Bytes>, clock: seq<u32>)
    requires AcksNumbered(e) && Wrote(e.st, st, segments, clock)
    ensures AcksNumbered(RecordWrite(e, st, segments))
  {
    var e' := RecordWrite(e, st, segments);
    forall j | 0 < j < |st.outgoing| && st.outgoing[j].packetType == State
      ensures exists m: nat :: m <= |e'.segs| && NumberedAck(e'.isn, st.outgoing[j], m)
    {
      assert j < |e.st.outgoing| && st.outgoing[j] == e.st.outgoing[j];
      var m: nat :| m <= |e.segs| && NumberedAck(e.isn, e.st.outgoing[j], m);
      assert m <= |e'.segs| && NumberedAck(e'.isn, st.outgoing[j], m);
    }
  }

  lemma WriteKeepsUnheard(e: Endpoint, first: Packet, buf: Bytes, sends: nat, clock: seq<u32>)
    requires Unheard(e, first)
    ensures Unheard(DoWrite(e, buf, sends, clock), first)
  {
    var w := PollWrite(e.st, buf, sends, clock);
    WriteEffect(e.st, buf, sends, clock);
    WriteKeepsLogged(e, w.st, w.segments, clock);
    WriteKeepsNumbered(e, w.st, w.segments, clock);
    DoKeepsLocal(e, FIRST_SEQ_NUMBER, Write(buf, sends, clock));
  }

  /** A read with nothing waiting sends an acknowledgement, if it can, and does nothing else. */
  lemma ReadUnheard(e: Endpoint, room: nat, ackSent: bool, now: u32)
    requires Local(e, FIRST_SEQ_NUMBER) && Idle(e)
    ensures var e' := DoRead(e, room, ackSent, now);
            && Idle(e') && e'.st.isShutdown == e.st.isShutdown && e'.segs == e.segs && e'.isn == e.isn
            && (|| (e'.st.outgoing == e.st.outgoing && e'.tags == e.tags)
                || exists p, tag :: e'.st.outgoing == e.st.outgoing + [p] && e'.tags == e.tags + [tag]
                                    && NumberedAck(e.isn, p, |e.segs|))
  {
    assert Absorb(e.st) == Absorbed(e.st, Waiting);
    assert Assemble(map[], e.st.ackNumber) == Assembly([], map[], e.st.ackNumber);
    ReadEffect(e, FIRST_SEQ_NUMBER, room, ackSent, now);
    var e' := DoRead(e, room, ackSent, now);
    if |e'.st.outgoing| > |e.st.outgoing| {
      var p, tag := e'.st.outgoing[|e.st.outgoing|], |e'.assembled|;
      assert NumberedAck(e.isn, p, |e.segs|);
      assert e'.st.outgoing == e.st.outgoing + [p] && e'.tags == e.tags + [tag];
    }
  }

  lemma OneMoreAck(e: Endpoint, e': Endpoint, p: Packet, tag: nat)
    requires AcksNumbered(e) && AllLogged(e) && e'.segs == e.segs && e'.isn == e.isn
    requires e'.st.outgoing == e.st.outgoing + [p] && e'.tags == e.tags + [tag] && NumberedAck(e.isn, p, |e.segs|)
    ensures AcksNumbered(e') && AllLogged(e')
  {
    forall i: nat | 1 <= i <= |e'.segs|
      ensures Logged(e', i)
    {
      assert Logged(e, i);
      var j :| 0 <= j < |e.tags| && SentAs(e.isn, e.segs[i - 1], e.st.outgoing[j], e.tags[j], i);
      assert SentAs(e'.isn, e'.segs[i - 1], e'.st.outgoing[j], e'.tags[j], i);
    }
  }

  lemma SameLog(e: Endpoint, e': Endpoint)
    requires AcksNumbered(e) && AllLogged(e) && e'.segs == e.segs && e'.isn == e.isn
    requires e'.st.outgoing == e.st.outgoing && e'.tags == e.tags
    ensures AcksNumbered(e') && AllLogged(e')
  {
    forall i: nat | 1 <= i <= |e'.segs|
      ensures Logged(e', i)
    {
      assert Logged(e, i);
    }
  }

  lemma ReadKeepsUnheard(e: Endpoint, first: Packet, room: nat, ackSent: bool, now: u32)
    requires Unheard(e, first)
    ensures Unheard(DoRead(e, room, ackSent, now), first)
  {
    var e' := DoRead(e, room, ackSent, now);
    ReadUnheard(e, room, ackSent, now);
    DoKeepsLocal(e, FIRST_SEQ_NUMBER, Read(room, ackSent, now));
    if e'.st.outgoing != e.st.outgoing || e'.tags != e.tags {
      var p, tag :| e'.st.outgoing == e.st.outgoing + [p] && e'.tags == e.tags + [tag]
                    && NumberedAck(e.isn, p, |e.segs|);
      OneMoreAck(e, e', p, tag);
    } else {
      SameLog(e, e');
    }
  }

  lemma {:induction false} PreludeKeepsUnheard(e: Endpoint, first: Packet, ops: seq<Op>)
    requires Unheard(e, first) && Prelude(ops)
    ensures Unheard(DoAll(e, ops), first) && DoAll(e, ops).isn == e.isn
    decreases |ops|
  {
    if ops != [] {
      var op := ops[0];
      assert op in ops;
      match op {
        case Write(buf, sends, clock) => WriteKeepsUnheard(e, first, buf, sends, clock);
        case Read(room, ackSent, now) => ReadKeepsUnheard(e, first, room, ackSent, now);
        case Flush =>
          assert Absorb(e.st) == Absorbed(e.st, Waiting);
          assert Do(e, op) == e;
      }
      assert forall o <- ops[1..] :: o in ops;
      PreludeKeepsUnheard(Do(e, op), first, ops[1..]);
    }
  }

  lemma ServerUnheard(id: u16, random: u16, clientAddr: SocketAddr)
    ensures Unheard(ServerEndpoint(id, random, clientAddr), SynAckPacket(SynPacket(id), random))
  {
    HandshakeEstablishes(id, random, clientAddr, clientAddr);
  }

  // ---------------------------------------------------------------------------------------
  // What the client makes of it
  // ---------------------------------------------------------------------------------------

  /** The server's stream after a prelude, and the client that takes its `j`-th packet for the reply. */
  function ServerAfter(id: u16, random: u16, clientAddr: SocketAddr, ops: seq<Op>): Endpoint {
    DoAll(ServerEndpoint(id, random, clientAddr), ops)
  }

  /** The reply of a server that has sent at most 65534 segments so far: a data packet makes the
      client panic; of the others, the SYN-ACK alone gives it the right number. */
  lemma ReplyExact(id: u16, random: u16, clientAddr: SocketAddr, serverAddr: SocketAddr, ops: seq<Op>, j: nat)
    requires var e := ServerAfter(id, random, clientAddr, ops);
             Prelude(ops) && j < |e.st.outgoing| && |e.segs| < 0xFFFF
    ensures var e := ServerAfter(id, random, clientAddr, ops);
            var reply := TakeReply(id, serverAddr, e.st.outgoing[j]);
            && (reply == None <==> e.st.outgoing[j].packetType == Data)
            && (reply.Some? ==> (reply.value == ClientEndpoint(id, random, serverAddr).st <==> j == 0))
            && (reply.Some? ==> (reply.value.ackNumber == random <==> j == 0))
  {
    var e := ServerAfter(id, random, clientAddr, ops);
    ServerUnheard(id, random, clientAddr);
    PreludeKeepsUnheard(ServerEndpoint(id, random, clientAddr), SynAckPacket(SynPacket(id), random), ops);
    assert Addressed(e);
    if j > 0 && e.st.outgoing[j].packetType == State {
      var m: nat :| m <= |e.segs| && NumberedAck(e.isn, e.st.outgoing[j], m);
      assert Num(e.isn, 0) == random;
      if e.st.outgoing[j].seqNumber == random {
        NumInjective(e.isn, m + 1, 0);
      }
    }
  }

  /** From `s` on, every run in which the server sends fewer than 65536 segments gives the client a
      prefix of them. */
  ghost predicate DeliveryFollows(s: System) {
    forall evs | Possible(s, evs) && |After(s, evs).server.segs| < 0x1_0000 ::
      Delivers(After(s, evs).server, After(s, evs).client)
  }

  // ---------------------------------------------------------------------------------------
  // The SYN-ACK first: delivery holds
  // ---------------------------------------------------------------------------------------

  function Polls(ops: seq<Op>): seq<Event> {
    if ops == [] then [] else [Poll(Server, ops[0])] + Polls(ops[1..])
  }

  lemma {:induction false} PreludeIsARun(s: System, ops: seq<Op>, evs: seq<Event>)
    requires Prelude(ops) && Possible(System(s.client, DoAll(s.server, ops)), evs)
    ensures Possible(s, Polls(ops) + evs)
    ensures After(s, Polls(ops) + evs) == After(System(s.client, DoAll(s.server, ops)), evs)
    decreases |ops|
  {
    if ops == [] {
      assert Polls(ops) + evs == evs;
    } else {
      var ev := Poll(Server, ops[0]);
      assert forall o <- ops[1..] :: o in ops;
      PreludeIsARun(Step(s, ev), ops[1..], evs);
      assert Polls(ops) + evs == [ev] + (Polls(ops[1..]) + evs);
      assert (Polls(ops) + evs)[1..] == Polls(ops[1..]) + evs;
    }
  }

  lemma SynAckDelivers(id: u16, random: u16, clientAddr: SocketAddr, serverAddr: SocketAddr, ops: seq<Op>)
    requires Prelude(ops)
    ensures DeliveryFollows(System(ClientEndpoint(id, random, serverAddr), ServerAfter(id, random, clientAddr, ops)))
  {
    var start := Opened(id, random, clientAddr, serverAddr);
    var s := System(start.client, ServerAfter(id, random, clientAddr, ops));
    forall evs | Possible(s, evs) && |After(s, evs).server.segs| < 0x1_0000
      ensures Delivers(After(s, evs).server, After(s, evs).client)
    {
      PreludeIsARun(start, ops, evs);
      AdversarialDelivery(start, Polls(ops) + evs, Server);
    }
  }

  // ---------------------------------------------------------------------------------------
  // A later acknowledgement first: delivery fails
  // ---------------------------------------------------------------------------------------

  /** The server has written `segs` and heard nothing; the client, who starts after the number
      `base`, has assembled nothing yet. */
  ghost predicate Ready(s: System, isn: u16, base: u16, first: Packet, segs: seq<Bytes>) {
    && Unheard(s.server, first) && s.server.isn == isn && s.server.segs == segs
    && Caught(s, Server, s.server, base, [])
  }

  lemma WriteOne(s: System, evs: seq<Event>, isn: u16, base: u16, first: Packet, segs: seq<Bytes>, b: u8)
    returns (evs': seq<Event>)
    requires Possible(s, evs) && Ready(After(s, evs), isn, base, first, segs)
    ensures Possible(s, evs') && Ready(After(s, evs'), isn, base, first, segs + [[b]])
  {
    var e := After(s, evs).server;
    var write := Poll(Server, Write([b], 1, []));
    assert Chunks([b]) == [[b]];
    WriteKeepsUnheard(e, first, [b], 1, []);
    Extend(s, evs, write);
    evs' := evs + [write];
  }

  /** The last segment differs from the one `d` before it. */
  predicate EndsDifferent(segs: seq<Bytes>, d: nat) {
    d < |segs| && segs[|segs| - 1] != segs[|segs| - 1 - d]
  }

  function Differing(segs: seq<Bytes>, d: nat): (b: u8)
    requires 0 < d <= |segs|
    ensures EndsDifferent(segs + [[b]], d)
  {
    var b := if segs[|segs| - d] == [0] then 1 else 0;
    assert (segs + [[b]])[|segs| - d] == segs[|segs| - d];
    b
  }

  /** The server can write on so that its last segment differs from the one `d` before it. */
  lemma WriteDifferent(s: System, isn: u16, base: u16, first: Packet, segs: seq<Bytes>, d: nat)
    returns (evs: seq<Event>, segs': seq<Bytes>)
    requires Ready(s, isn, base, first, segs) && 0 < d <= |segs| + 1 && |segs| < 0xFFFE
    ensures Possible(s, evs) && Ready(After(s, evs), isn, base, first, segs')
    ensures |segs'| < 0x1_0000 && EndsDifferent(segs', d)
  {
    assert Possible(s, []) && After(s, []) == s;
    evs, segs' := [], segs;
    if |segs| < d {
      evs := WriteOne(s, evs, isn, base, first, segs, 0);
      segs' := segs + [[0]];
    }
    var b := Differing(segs', d);
    evs := WriteOne(s, evs, isn, base, first, segs', b);
    segs' := segs' + [[b]];
  }

  lemma Shifted(x: Endpoint, y: Endpoint, d: nat)
    requires 0 < d < |x.segs| && y.assembled == x.segs[d..|x.segs|] && EndsDifferent(x.segs, d)
    ensures !Delivers(x, y)
  {
    var n := |x.segs|;
    assert y.assembled[n - 1 - d] == x.segs[n - 1];
  }

  /** A client that misses the first `d` segments can be given something else than the server wrote. */
  lemma SkippingFails(s: System, isn: u16, first: Packet, segs: seq<Bytes>, d: nat) returns (evs: seq<Event>)
    requires Ready(s, isn, Num(isn, d), first, segs) && 0 < d <= |segs| + 1 && |segs| < 0xFFFE
    ensures Possible(s, evs) && |After(s, evs).server.segs| < 0x1_0000
    ensures !Delivers(After(s, evs).server, After(s, evs).client)
  {
    var segs';
    evs, segs' := WriteDifferent(s, isn, Num(isn, d), first, segs, d);
    var x := After(s, evs).server;
    evs := InOrder(s, evs, Server, x, d, |segs'| - d);
    Shifted(x, After(s, evs).client, d);
  }

  /** The failing runs: an acknowledgement that the server sent by reading early is taken for the
      SYN-ACK. */
  lemma EarlyAckFails(id: u16, serverAddr: SocketAddr, e: Endpoint, first: Packet, j: nat)
    requires Unheard(e, first) && 0 < j < |e.st.outgoing| && |e.segs| < 0xFFFE
    requires e.st.outgoing[j].packetType == State
    ensures !DeliveryFollows(System(Fresh(Connected(id, serverAddr, e.st.outgoing[j]), FIRST_SEQ_NUMBER), e))
  {
    var s := System(Fresh(Connected(id, serverAddr, e.st.outgoing[j]), FIRST_SEQ_NUMBER), e);
    var m: nat :| m <= |e.segs| && NumberedAck(e.isn, e.st.outgoing[j], m);
    assert Num(e.st.outgoing[j].seqNumber, 0) == e.st.outgoing[j].seqNumber;
    var evs := SkippingFails(s, e.isn, first, e.segs, m + 1);
  }

  /** After any prelude of at most 65533 segments, whichever packet of the server is handed to the
      waiting client first: the client panics if and only if that is a data packet; and if it does
      not, what it is given from then on is sure to be a prefix of what the server writes if and
      only if the packet was the SYN-ACK. */
  lemma ReplyLimit(id: u16, random: u16, clientAddr: SocketAddr, serverAddr: SocketAddr, ops: seq<Op>, j: nat)
    requires var e := ServerAfter(id, random, clientAddr, ops);
             Prelude(ops) && j < |e.st.outgoing| && |e.segs| < 0xFFFE
    ensures var e := ServerAfter(id, random, clientAddr, ops);
            var reply := TakeReply(id, serverAddr, e.st.outgoing[j]);
            && (reply == None <==> e.st.outgoing[j].packetType == Data)
            && (reply.Some? ==> (DeliveryFollows(System(Fresh(reply.value, FIRST_SEQ_NUMBER), e)) <==> j == 0))
  {
    var e := ServerAfter(id, random, clientAddr, ops);
    var first := SynAckPacket(SynPacket(id), random);
    ReplyExact(id, random, clientAddr, serverAddr, ops, j);
    var reply := TakeReply(id, serverAddr, e.st.outgoing[j]);
    if reply.Some? {
      if j == 0 {
        SynAckDelivers(id, random, clientAddr, serverAddr, ops);
      } else {
        ServerUnheard(id, random, clientAddr);
        PreludeKeepsUnheard(ServerEndpoint(id, random, clientAddr), first, ops);
        EarlyAckFails(id, serverAddr, e, first, j);
      }
    }
  }
}
