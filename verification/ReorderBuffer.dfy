/** The reorder buffer: how much it can hold, and that no key is ambiguous. */
module ReorderBuffer {
  import opened Words
  import opened Packets
  import opened Streams
  import opened Filters
  import opened Endpoints
  import opened Transfer

  /** No segment has come late, and the sender is less than 65408 = 65536 - 128 segments ahead. */
  predicate Calm(segs: nat, assembled: nat, late: set<nat>) {
    late == {} && segs - assembled < 0x1_0000 - 128
  }

  ghost predicate CalmAt(s: System, from: Side) {
    Calm(|s.At(from).segs|, |s.At(from.Other()).assembled|, s.At(from.Other()).late)
  }

  ghost predicate CalmRun(s: System, evs: seq<Event>, from: Side)
    requires Possible(s, evs)
    decreases |evs|
  {
    CalmAt(s, from) && (evs != [] ==> CalmRun(Step(s, evs[0]), evs[1..], from))
  }

  lemma {:induction false} CalmIsTame(s: System, evs: seq<Event>, from: Side)
    requires Possible(s, evs) && CalmRun(s, evs, from)
    ensures TameRun(s, evs, from)
    decreases |evs|
  {
    if evs != [] {
      CalmIsTame(Step(s, evs[0]), evs[1..], from);
    }
  }

  /** Every key is one to 128 numbers after the acknowledged one. */
  ghost predicate Near(ack: u16, buffer: map<u16, Bytes>) {
    forall key <- buffer :: 1 <= WrappingSub(key, ack) <= ACCEPTABLE_DISTANCE
  }

  lemma AcceptedIsNear(isn: u16, segs: seq<Bytes>, a: nat, seqNumber: u16, inFlight: nat, p: Packet)
    requires Calm(|segs|, a, {}) && p.packetType == Data
    requires Genuine(isn, segs, a, {}, p.seqNumber, p.data)
    requires !IsSuspicious(Num(isn, a), seqNumber, inFlight, p)
    ensures 1 <= WrappingSub(p.seqNumber, Num(isn, a)) <= ACCEPTABLE_DISTANCE
  {
    var i: nat :| Stands(isn, segs, a, {}, p.seqNumber, p.data, i);
    DataFilterExact(isn, a, i, seqNumber, inFlight, p);
    NumDistance(isn, i, a);
  }

  lemma {:induction false} AbsorbKeepsNear(isn: u16, segs: seq<Bytes>, a: nat, st: StreamState)
    requires Calm(|segs|, a, {}) && st.ackNumber == Num(isn, a)
    requires GenuineMail(isn, segs, a, {}, st.mailbox)
    requires Near(st.ackNumber, st.inboundData)
    ensures Near(st.ackNumber, Absorb(st).st.inboundData)
    decreases |st.mailbox|
  {
    if st.mailbox != [] {
      var p := st.mailbox[0];
      var st1 := st.(mailbox := st.mailbox[1..]);
      assert p in st.mailbox && forall q <- st1.mailbox :: q in st.mailbox;
      if Supported(p) {
        if Ignores(st1, p) {
          AbsorbKeepsNear(isn, segs, a, st1);
        } else {
          if p.packetType == Data {
            AcceptedIsNear(isn, segs, a, st.seqNumber, |st.unackedData|, p);
          }
          AbsorbKeepsNear(isn, segs, a, HandlePacket(st1, p));
        }
      }
    }
  }

  lemma StepCloser(key: u16, ack: u16)
    requires 1 <= WrappingSub(key, ack) <= ACCEPTABLE_DISTANCE && key != WrappingAdd(ack, 1)
    ensures 1 <= WrappingSub(key, WrappingAdd(ack, 1)) <= ACCEPTABLE_DISTANCE
  {
  }

  lemma {:induction false} AssembleKeepsNear(buffer: map<u16, Bytes>, ack: u16)
    requires Near(ack, buffer)
    ensures var d := Assemble(buffer, ack); Near(d.ackNumber, d.inboundData)
    decreases |buffer|
  {
    var next := WrappingAdd(ack, 1);
    if next in buffer {
      forall key <- buffer - {next}
        ensures 1 <= WrappingSub(key, next) <= ACCEPTABLE_DISTANCE
      {
        StepCloser(key, ack);
      }
      AssembleKeepsNear(buffer - {next}, next);
    }
  }

  ghost predicate NearAt(s: System, from: Side) {
    var y := s.At(from.Other());
    Near(y.st.ackNumber, y.st.inboundData)
  }

  lemma PollKeepsNear(isn: u16, segs: seq<Bytes>, y: Endpoint, op: Op)
    requires Receiving(isn, segs, y) && Calm(|segs|, |y.assembled|, y.late)
    requires Near(y.st.ackNumber, y.st.inboundData)
    ensures Near(Do(y, op).st.ackNumber, Do(y, op).st.inboundData)
  {
    match op
    case Write(buf, sends, clock) =>
      WriteEffect(y.st, buf, sends, clock);
    case Read(room, ackSent, now) =>
      AbsorbKeepsNear(isn, segs, |y.assembled|, y.st);
      AbsorbFrame(y.st);
      AssembleKeepsNear(Absorb(y.st).st.inboundData, y.st.ackNumber);
      ReadEffect(y, isn, room, ackSent, now);
    case Flush =>
      AbsorbKeepsNear(isn, segs, |y.assembled|, y.st);
      AbsorbFrame(y.st);
    case Close =>
    case Receive(p) =>
  }

  lemma {:induction false} RunKeepsNear(s: System, evs: seq<Event>, from: Side)
    requires Locals(s) && Direction(s, from) && NearAt(s, from)
    requires Possible(s, evs) && CalmRun(s, evs, from)
    ensures NearAt(After(s, evs), from) && CalmAt(After(s, evs), from)
    decreases |evs|
  {
    if evs != [] {
      var x, y := s.At(from), s.At(from.Other());
      match evs[0] {
        case Poll(side, op) =>
          if side == from.Other() {
            PollKeepsNear(x.isn, x.segs, y, op);
          }
        case Deliver(to, j) =>
        case Stray(to, p) =>
      }
      assert NearAt(Step(s, evs[0]), from);
      StepKeepsLocals(s, evs[0]);
      StepKeepsDirection(s, evs[0], from);
      RunKeepsNear(Step(s, evs[0]), evs[1..], from);
    }
  }

  /** The numbers of the `k` segments after `ack`. */
  function Window(ack: u16, k: nat): (w: set<u16>)
    ensures |w| <= k
    ensures forall d | 1 <= d <= k :: Num(ack, d) in w
  {
    if k == 0 then {} else Window(ack, k - 1) + {Num(ack, k)}
  }

  lemma {:induction false} SubsetSize(a: set<u16>, b: set<u16>)
    requires a <= b
    ensures |a| <= |b|
  {
    if a != {} {
      var x :| x in a;
      SubsetSize(a - {x}, b - {x});
    }
  }

  lemma NearIsSmall(ack: u16, buffer: map<u16, Bytes>)
    requires Near(ack, buffer)
    ensures |buffer| <= ACCEPTABLE_DISTANCE
  {
    var window := Window(ack, ACCEPTABLE_DISTANCE);
    forall key <- buffer.Keys
      ensures key in window
    {
      assert key == Num(ack, WrappingSub(key, ack));
    }
    SubsetSize(buffer.Keys, window);
  }

  /** `i` is the one index, among the 128 after the last assembled, that `key` stands for. */
  ghost predicate OnlyIndex(isn: u16, a: nat, key: u16, i: nat) {
    && a < i <= a + ACCEPTABLE_DISTANCE
    && key == Num(isn, i)
    && forall k: nat | a < k <= a + ACCEPTABLE_DISTANCE && key == Num(isn, k) :: k == i
  }

  lemma NearIsOnly(isn: u16, segs: seq<Bytes>, a: nat, key: u16, data: Bytes)
    requires Calm(|segs|, a, {}) && Genuine(isn, segs, a, {}, key, data)
    requires 1 <= WrappingSub(key, Num(isn, a)) <= ACCEPTABLE_DISTANCE
    ensures exists i: nat :: OnlyIndex(isn, a, key, i) && i <= |segs| && data == segs[i - 1]
  {
    var i: nat :| Stands(isn, segs, a, {}, key, data, i);
    NumDistance(isn, i, a);
    forall k: nat | a < k <= a + ACCEPTABLE_DISTANCE && key == Num(isn, k)
      ensures k == i
    {
      NumInjective(isn, k, i);
    }
    assert OnlyIndex(isn, a, key, i);
  }

  ghost predicate Bounded(isn: u16, segs: seq<Bytes>, a: nat, buffer: map<u16, Bytes>) {
    && |buffer| <= ACCEPTABLE_DISTANCE
    && forall key <- buffer ::
         exists i: nat :: OnlyIndex(isn, a, key, i) && i <= |segs| && buffer[key] == segs[i - 1]
  }

  lemma NearIsBounded(isn: u16, segs: seq<Bytes>, a: nat, buffer: map<u16, Bytes>)
    requires Calm(|segs|, a, {}) && GenuineBuffer(isn, segs, a, {}, buffer) && Near(Num(isn, a), buffer)
    ensures Bounded(isn, segs, a, buffer)
  {
    NearIsSmall(Num(isn, a), buffer);
    forall key <- buffer
      ensures exists i: nat :: OnlyIndex(isn, a, key, i) && i <= |segs| && buffer[key] == segs[i - 1]
    {
      NearIsOnly(isn, segs, a, key, buffer[key]);
    }
  }

  lemma StartNear(s: System, from: Side)
    requires Start(s)
    ensures NearAt(s, from)
  {
    var id, random, clientAddr, serverAddr :| s == Opened(id, random, clientAddr, serverAddr);
  }

  /** Over every calm run, each key of the reorder buffer stands for exactly one of the 128
      segments after the last assembled one and holds that segment's data, so the buffer never
      holds more than 128 segments and never confuses two. */
  lemma BufferBoundedAndFaithful(s: System, evs: seq<Event>, from: Side)
    requires Start(s) && Possible(s, evs) && CalmRun(s, evs, from)
    ensures var x, y := After(s, evs).At(from), After(s, evs).At(from.Other());
            Bounded(x.isn, x.segs, |y.assembled|, y.st.inboundData)
  {
    StartEstablishes(s, from);
    StartNear(s, from);
    CalmIsTame(s, evs, from);
    RunKeeps(s, evs, from);
    RunKeepsNear(s, evs, from);
    var x, y := After(s, evs).At(from), After(s, evs).At(from.Other());
    NearIsBounded(x.isn, x.segs, |y.assembled|, y.st.inboundData);
  }

  /** Calm runs deliver in order, without end. */
  lemma CalmDelivery(s: System, evs: seq<Event>, from: Side)
    requires Start(s) && Possible(s, evs) && CalmRun(s, evs, from)
    ensures Delivers(After(s, evs).At(from), After(s, evs).At(from.Other()))
  {
    CalmIsTame(s, evs, from);
    PrefixDelivery(s, evs, from);
  }
}
