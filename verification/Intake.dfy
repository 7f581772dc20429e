/** What one poll takes in: every packet of the mailbox, and what becomes of it in the reorder buffer and
    the in-flight queue; and what the drain loop then takes out. */
module Intake {
  import opened Words
  import opened Packets
  import opened Streams
  import opened Filters

  predicate AllSupported(mail: seq<Packet>) {
    forall p <- mail :: Supported(p)
  }

  lemma SupportedParts(mail: seq<Packet>)
    requires mail != [] && AllSupported(mail)
    ensures Supported(mail[0]) && AllSupported(mail[1..])
  {
    assert mail[0] in mail && forall p <- mail[1..] :: p in mail;
  }

  // ---------------------------------------------------------------------------------------
  // All packets, one after the other
  // ---------------------------------------------------------------------------------------

  /** The state after the packets `a`, when nothing more waits. */
  function Taken(st: StreamState, a: seq<Packet>): StreamState {
    Absorb(st.(mailbox := a, closed := false)).st.(closed := st.closed)
  }

  /** Taking in `a + b` is taking in `a` and then `b`: no packet is skipped, lost or taken twice. */
  lemma {:induction false} AbsorbAppend(st: StreamState, a: seq<Packet>, b: seq<Packet>)
    requires AllSupported(a)
    ensures Absorb(st.(mailbox := a + b)) == Absorb(Taken(st, a).(mailbox := b))
    decreases |a|
  {
    if a == [] {
      assert a + b == b;
    } else {
      SupportedParts(a);
      var st1 := if Ignores(st, a[0]) then st else HandlePacket(st, a[0]);
      assert (a + b)[1..] == a[1..] + b;
      AbsorbAppend(st1, a[1..], b);
    }
  }

  /** Where it meets a packet of an unsupported type it has taken in what comes before, and goes no further. */
  lemma AbsorbPanics(st: StreamState, a: seq<Packet>, p: Packet, b: seq<Packet>)
    requires AllSupported(a) && !Supported(p)
    ensures Absorb(st.(mailbox := a + ([p] + b))) == Absorbed(Taken(st, a).(mailbox := b), Panicked)
  {
    AbsorbAppend(st, a, [p] + b);
    assert ([p] + b)[1..] == b;
  }

  /** The loop stops at the first packet of an unsupported type, and otherwise at the end of the channel or,
      while that is open, for want of packets. */
  lemma {:induction false} AbsorbStops(st: StreamState)
    ensures Absorb(st).stop == if !AllSupported(st.mailbox) then Panicked else if st.closed then Ended else Waiting
    ensures Absorb(st).stop != Panicked ==> Absorb(st).st.isShutdown == (st.isShutdown || st.closed)
    decreases |st.mailbox|
  {
    if st.mailbox != [] {
      var p := st.mailbox[0];
      var st1 := st.(mailbox := st.mailbox[1..]);
      if Supported(p) {
        AbsorbStops(if Ignores(st1, p) then st1 else HandlePacket(st1, p));
        assert AllSupported(st.mailbox) <==> AllSupported(st1.mailbox) by {
          assert st.mailbox == [p] + st1.mailbox;
        }
      } else {
        assert p in st.mailbox;
      }
    }
  }

  // ---------------------------------------------------------------------------------------
  // The reorder buffer
  // ---------------------------------------------------------------------------------------

  function Lookup(buffer: map<u16, Bytes>, key: u16): Option<Bytes> {
    if key in buffer then Some(buffer[key]) else None
  }

  /** The packet is data under number `key`, which is within 128 of the acknowledged one. */
  predicate Lands(p: Packet, ackNumber: u16, key: u16) {
    && p.packetType == Data && p.seqNumber == key
    && (WrappingSub(ackNumber, key) <= 128 || WrappingSub(key, ackNumber) <= 128)
  }

  /** The last packet in the mail that lands under `key`. */
  predicate LastLands(mail: seq<Packet>, ackNumber: u16, key: u16, j: nat) {
    && j < |mail| && Lands(mail[j], ackNumber, key)
    && forall l | j < l < |mail| :: !Lands(mail[l], ackNumber, key)
  }

  function LastLanding(mail: seq<Packet>, ackNumber: u16, key: u16): Option<Bytes> {
    if mail == [] then None
    else
      var later := LastLanding(mail[1..], ackNumber, key);
      if later.Some? then later
      else if Lands(mail[0], ackNumber, key) then Some(mail[0].data) else None
  }

  lemma {:induction false} LastLandingExact(mail: seq<Packet>, ackNumber: u16, key: u16)
    ensures match LastLanding(mail, ackNumber, key)
            case None => forall j | 0 <= j < |mail| :: !Lands(mail[j], ackNumber, key)
            case Some(data) => exists j: nat :: LastLands(mail, ackNumber, key, j) && mail[j].data == data
  {
    if mail != [] {
      var later := LastLanding(mail[1..], ackNumber, key);
      LastLandingExact(mail[1..], ackNumber, key);
      if later.Some? {
        var j: nat :| LastLands(mail[1..], ackNumber, key, j) && mail[1..][j].data == later.value;
        assert forall l | 0 < l < |mail| :: mail[l] == mail[1..][l - 1];
        assert LastLands(mail, ackNumber, key, j + 1);
      } else {
        assert forall l | 0 < l < |mail| :: mail[l] == mail[1..][l - 1];
        if Lands(mail[0], ackNumber, key) {
          assert LastLands(mail, ackNumber, key, 0);
        }
      }
    }
  }

  lemma LastLandsData(mail: seq<Packet>, ackNumber: u16, key: u16, j: nat)
    requires LastLands(mail, ackNumber, key, j)
    ensures LastLanding(mail, ackNumber, key) == Some(mail[j].data)
  {
    LastLandingExact(mail, ackNumber, key);
    var l: nat :| LastLands(mail, ackNumber, key, l)
                  && mail[l].data == LastLanding(mail, ackNumber, key).value;
    assert l == j;
  }

  lemma {:induction false} AbsorbLooksUp(st: StreamState, key: u16)
    requires AllSupported(st.mailbox)
    ensures Lookup(Absorb(st).st.inboundData, key)
         == var last := LastLanding(st.mailbox, st.ackNumber, key);
            if last.Some? then last else Lookup(st.inboundData, key)
    decreases |st.mailbox|
  {
    if st.mailbox != [] {
      SupportedParts(st.mailbox);
      var p := st.mailbox[0];
      var st1 := st.(mailbox := st.mailbox[1..]);
      AbsorbLooksUp(if Ignores(st1, p) then st1 else HandlePacket(st1, p), key);
    }
  }

  /** The reorder buffer after a poll has taken its packets in, number by number: the data of the last
      packet in the mailbox under that number, if it is within 128 of the acknowledged one, and else
      what was there before. */
  lemma AbsorbBuffers(st: StreamState, key: u16)
    requires AllSupported(st.mailbox)
    ensures var buffer := Absorb(st).st.inboundData;
            && (forall j: nat :: LastLands(st.mailbox, st.ackNumber, key, j) ==>
                  key in buffer && buffer[key] == st.mailbox[j].data)
            && ((forall j | 0 <= j < |st.mailbox| :: !Lands(st.mailbox[j], st.ackNumber, key)) ==>
                  Lookup(buffer, key) == Lookup(st.inboundData, key))
  {
    AbsorbLooksUp(st, key);
    LastLandingExact(st.mailbox, st.ackNumber, key);
    forall j: nat | LastLands(st.mailbox, st.ackNumber, key, j)
      ensures LastLanding(st.mailbox, st.ackNumber, key) == Some(st.mailbox[j].data)
    {
      LastLandsData(st.mailbox, st.ackNumber, key, j);
    }
  }

  // ---------------------------------------------------------------------------------------
  // The in-flight queue
  // ---------------------------------------------------------------------------------------

  /** Consecutive numbers from `first` that end just before `end`, without a turn-over. */
  predicate Ascending(queue: seq<(u16, Bytes)>, end: nat) {
    && |queue| <= end <= 0x1_0000 && |queue| < 0x1_0000
    && forall i | 0 <= i < |queue| :: queue[i].0 == end - |queue| + i
  }

  predicate AllAbove(queue: seq<(u16, Bytes)>, ack: int) {
    forall entry <- queue :: entry.0 > ack
  }

  lemma SuffixAscending(queue: seq<(u16, Bytes)>, part: seq<(u16, Bytes)>, end: nat, ack: int)
    requires Ascending(queue, end) && IsSuffix(part, queue)
    ensures Ascending(part, end) && (AllAbove(queue, ack) ==> AllAbove(part, ack))
  {
    forall entry <- part
      ensures entry in queue
    {
      var i :| 0 <= i < |part| && part[i] == entry;
      assert queue[|queue| - |part| + i] == entry;
    }
  }

  /** Pruning drops the numbers up to the acknowledged one, and no other. */
  lemma PruneAscending(queue: seq<(u16, Bytes)>, end: nat, ack: u16)
    requires Ascending(queue, end)
    ensures var first := end - |queue|;
            Prune(queue, ack) == if ack < first then queue else if ack >= end then [] else queue[ack + 1 - first..]
  {
    var first := end - |queue|;
    PruneCount(queue, ack, if ack < first then 0 else if ack >= end then |queue| else ack + 1 - first);
  }

  /** The filter lets an acknowledgement of a number in flight through. */
  lemma InFlightAccepted(st: StreamState, p: Packet, end: nat)
    requires Ascending(st.unackedData, end) && st.seqNumber == end % 0x1_0000
    requires p.packetType == State && end - |st.unackedData| <= p.ackNumber < end
    ensures !Ignores(st, p)
  {
  }

  lemma AllAboveAfterPrune(queue: seq<(u16, Bytes)>, end: nat, ack: u16)
    requires Ascending(queue, end)
    ensures AllAbove(Prune(queue, ack), ack)
  {
    PruneAscending(queue, end, ack);
    var part := Prune(queue, ack);
    forall entry <- part
      ensures entry.0 > ack
    {
      var i :| 0 <= i < |part| && part[i] == entry;
      assert part[i] == queue[|queue| - |part| + i];
    }
  }

  lemma AbsorbKeepsAbove(st: StreamState, end: nat, ack: int)
    requires Ascending(st.unackedData, end) && AllAbove(st.unackedData, ack)
    ensures AllAbove(Absorb(st).st.unackedData, ack)
  {
    AbsorbFrame(st);
    SuffixAscending(st.unackedData, Absorb(st).st.unackedData, end, ack);
  }

  lemma HandleKeepsAscending(st: StreamState, p: Packet, end: nat)
    requires Supported(p) && Ascending(st.unackedData, end)
    ensures Ascending(HandlePacket(st, p).unackedData, end)
  {
    if p.packetType == State {
      PruneSuffix(st.unackedData, p.ackNumber);
      SuffixAscending(st.unackedData, Prune(st.unackedData, p.ackNumber), end, -1);
    }
  }

  lemma FirstDrops(st: StreamState, p: Packet, end: nat)
    requires p.packetType == State && Ascending(st.unackedData, end) && st.seqNumber == end % 0x1_0000
    requires p.ackNumber < end
    ensures AllAbove((if Ignores(st, p) then st else HandlePacket(st, p)).unackedData, p.ackNumber)
  {
    if p.ackNumber >= end - |st.unackedData| {
      InFlightAccepted(st, p, end);
    }
    AllAboveAfterPrune(st.unackedData, end, p.ackNumber);
  }

  /** An acknowledgement anywhere in the mailbox that names a number in flight, whatever else is there,
      leaves no segment up to that number in flight, unless the numbers turn over. */
  lemma {:induction false} AbsorbDrops(st: StreamState, end: nat, j: nat)
    requires AllSupported(st.mailbox) && j < |st.mailbox| && st.mailbox[j].packetType == State
    requires Ascending(st.unackedData, end) && st.seqNumber == end % 0x1_0000 && st.mailbox[j].ackNumber < end
    ensures AllAbove(Absorb(st).st.unackedData, st.mailbox[j].ackNumber)
    decreases |st.mailbox|
  {
    SupportedParts(st.mailbox);
    var p, ack := st.mailbox[0], st.mailbox[j].ackNumber;
    var st1 := st.(mailbox := st.mailbox[1..]);
    var st2 := if Ignores(st1, p) then st1 else HandlePacket(st1, p);
    HandleKeepsAscending(st1, p, end);
    if j > 0 {
      AbsorbDrops(st2, end, j - 1);
    } else {
      FirstDrops(st1, p, end);
      AbsorbKeepsAbove(st2, end, ack);
    }
  }

  /** The greatest number acknowledged in the mail, if greater than `top`. */
  function TopAck(mail: seq<Packet>, top: int): int {
    if mail == [] then top
    else
      var p := mail[0];
      TopAck(mail[1..], if p.packetType == State && p.ackNumber > top then p.ackNumber else top)
  }

  /** All acknowledgements in the mail are of numbers before `end`. */
  predicate Truthful(mail: seq<Packet>, end: nat) {
    forall p <- mail :: p.packetType == State ==> p.ackNumber < end
  }

  /** What is left of the queue once the numbers up to `top` are acknowledged. */
  function Unacked(queue: seq<(u16, Bytes)>, end: nat, top: int): seq<(u16, Bytes)>
    requires Ascending(queue, end)
  {
    var first := end - |queue|;
    if top < first then queue else if top >= end then [] else queue[top + 1 - first..]
  }

  lemma UnackedTwice(queue: seq<(u16, Bytes)>, end: nat, top: int, ack: u16)
    requires Ascending(queue, end)
    ensures Ascending(Unacked(queue, end, top), end)
    ensures Prune(Unacked(queue, end, top), ack) == Unacked(queue, end, if ack > top then ack else top)
  {
    var part := Unacked(queue, end, top);
    SuffixAscending(queue, part, end, -1);
    PruneAscending(part, end, ack);
  }

  /** With acknowledgements of earlier numbers only, and no turn-over, a poll leaves exactly the segments
      in flight that are above the greatest number acknowledged, wherever in the mailbox that stands. */
  lemma {:induction false} AbsorbQueues(st: StreamState, queue: seq<(u16, Bytes)>, end: nat, top: int)
    requires AllSupported(st.mailbox) && Truthful(st.mailbox, end) && Ascending(queue, end)
    requires st.unackedData == Unacked(queue, end, top) && st.seqNumber == end % 0x1_0000 && top < end
    ensures Absorb(st).st.unackedData == Unacked(queue, end, TopAck(st.mailbox, top))
    decreases |st.mailbox|
  {
    if st.mailbox != [] {
      SupportedParts(st.mailbox);
      var p := st.mailbox[0];
      var st1 := st.(mailbox := st.mailbox[1..]);
      assert p in st.mailbox && forall q <- st1.mailbox :: q in st.mailbox;
      UnackedTwice(queue, end, top, if p.packetType == State then p.ackNumber else 0);
      if p.packetType == State && p.ackNumber >= end - |st.unackedData| {
        InFlightAccepted(st1, p, end);
      }
      PruneAscending(st.unackedData, end, if p.packetType == State then p.ackNumber else 0);
      AbsorbQueues(if Ignores(st1, p) then st1 else HandlePacket(st1, p), queue, end,
                   if p.packetType == State && p.ackNumber > top then p.ackNumber else top);
    }
  }

  // ---------------------------------------------------------------------------------------
  // The drain loop
  // ---------------------------------------------------------------------------------------

  /** The numbers of the `n` segments after `ackNumber`. */
  function Numbers(ackNumber: u16, n: nat): set<u16> {
    set i | 1 <= i <= n :: Num(ackNumber, i)
  }

  lemma NumbersNext(ackNumber: u16, n: nat)
    ensures Numbers(ackNumber, n + 1) == {WrappingAdd(ackNumber, 1)} + Numbers(WrappingAdd(ackNumber, 1), n)
  {
    var next := WrappingAdd(ackNumber, 1);
    forall key <- Numbers(ackNumber, n + 1)
      ensures key == next || key in Numbers(next, n)
    {
      var i :| 1 <= i <= n + 1 && key == Num(ackNumber, i);
      NumNum(ackNumber, 1, i - 1);
      assert i > 1 ==> key == Num(next, i - 1);
    }
    forall key <- Numbers(next, n)
      ensures key in Numbers(ackNumber, n + 1)
    {
      var i :| 1 <= i <= n && key == Num(next, i);
      NumNum(ackNumber, 1, i);
      assert key == Num(ackNumber, i + 1);
    }
    assert next == Num(ackNumber, 1);
  }

  /** The `i`-th segment joined up is what the buffer holds under the `i`-th number. */
  predicate Drained(buffer: map<u16, Bytes>, ackNumber: u16, segments: seq<Bytes>) {
    forall i | 1 <= i <= |segments| :: Lookup(buffer, Num(ackNumber, i)) == Some(segments[i - 1])
  }

  lemma DrainedNext(buffer: map<u16, Bytes>, ackNumber: u16, segments: seq<Bytes>)
    requires WrappingAdd(ackNumber, 1) in buffer
    requires Drained(buffer - {WrappingAdd(ackNumber, 1)}, WrappingAdd(ackNumber, 1), segments)
    ensures Drained(buffer, ackNumber, [buffer[WrappingAdd(ackNumber, 1)]] + segments)
  {
    var next := WrappingAdd(ackNumber, 1);
    var all := [buffer[next]] + segments;
    forall i | 1 <= i <= |all|
      ensures Lookup(buffer, Num(ackNumber, i)) == Some(all[i - 1])
    {
      NumNum(ackNumber, 1, i - 1);
      if i > 1 {
        assert Lookup(buffer - {next}, Num(next, i - 1)) == Some(segments[i - 2]);
      }
    }
  }

  /** `d` is what the drain should come to: the segments under the next numbers, in order, up to the first
      number that is missing, with whatever else was in the buffer left in it. */
  ghost predicate DrainExact(buffer: map<u16, Bytes>, ackNumber: u16, d: Assembly) {
    && Drained(buffer, ackNumber, d.segments)
    && d.inboundData == buffer - Numbers(ackNumber, |d.segments|)
    && d.ackNumber == Num(ackNumber, |d.segments|)
    && Num(ackNumber, |d.segments| + 1) !in d.inboundData
  }

  lemma DrainNothing(buffer: map<u16, Bytes>, ackNumber: u16)
    requires WrappingAdd(ackNumber, 1) !in buffer
    ensures DrainExact(buffer, ackNumber, Assembly([], buffer, ackNumber))
  {
    assert Numbers(ackNumber, 0) == {};
    assert Num(ackNumber, 0) == ackNumber && Num(ackNumber, 1) == WrappingAdd(ackNumber, 1);
  }

  lemma DrainedKeys(buffer: map<u16, Bytes>, next: u16, keys: set<u16>)
    ensures buffer - ({next} + keys) == (buffer - {next}) - keys
  {
  }

  lemma DrainOneMore(buffer: map<u16, Bytes>, ackNumber: u16, rest: Assembly)
    requires WrappingAdd(ackNumber, 1) in buffer
    requires DrainExact(buffer - {WrappingAdd(ackNumber, 1)}, WrappingAdd(ackNumber, 1), rest)
    ensures DrainExact(buffer, ackNumber,
                       rest.(segments := [buffer[WrappingAdd(ackNumber, 1)]] + rest.segments))
  {
    var next, n := WrappingAdd(ackNumber, 1), |rest.segments|;
    DrainedNext(buffer, ackNumber, rest.segments);
    NumbersNext(ackNumber, n);
    DrainedKeys(buffer, next, Numbers(next, n));
    assert next == Num(ackNumber, 1);
    NumNum(ackNumber, 1, n);
    NumNum(ackNumber, 1, n + 1);
  }

  /** The drain takes out exactly the segments under the next numbers, in order, up to the first number that
      is missing; whatever else is in the buffer stays. */
  lemma {:induction false} AssembleExact(buffer: map<u16, Bytes>, ackNumber: u16)
    ensures DrainExact(buffer, ackNumber, Assemble(buffer, ackNumber))
    decreases |buffer|
  {
    var next := WrappingAdd(ackNumber, 1);
    if next in buffer {
      AssembleExact(buffer - {next}, next);
      DrainOneMore(buffer, ackNumber, Assemble(buffer - {next}, next));
    } else {
      DrainNothing(buffer, ackNumber);
    }
  }
}
