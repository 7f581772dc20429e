/** One endpoint of a connection. The functions say what each operation of the stream does to
    its state; the class below performs the operations step by step, as the program does. */
module Streams {
  import opened Words
  import opened Packets

  const ACCEPTABLE_DISTANCE := 128
  const ACK_LEEWAY := 3

  /** The fields of a stream. `mailbox` and `closed` are the inbound packet channel; `outgoing`
      is everything handed to the socket so far. */
  datatype StreamState = StreamState(
    connectionIdRecv: u16,
    connectionIdSend: u16,
    remoteAddr: SocketAddr,
    mailbox: seq<Packet>,
    closed: bool,
    seqNumber: u16,
    ackNumber: u16,
    inboundData: map<u16, Bytes>,
    receivedData: Bytes,
    unackedData: seq<(u16, Bytes)>,
    isShutdown: bool,
    outgoing: seq<Packet>)

  /** The packet types a stream acts on; any other one is a `todo!()` and panics. */
  predicate Supported(p: Packet) {
    p.packetType == Data || p.packetType == State
  }

  function IsSuspicious(ackNumber: u16, seqNumber: u16, inFlight: nat, p: Packet): bool
    requires Supported(p)
  {
    if p.packetType == Data then
      && WrappingSub(ackNumber, p.seqNumber) > ACCEPTABLE_DISTANCE
      && WrappingSub(p.seqNumber, ackNumber) > ACCEPTABLE_DISTANCE
    else
      var leftDistance := WrappingSub(seqNumber, p.ackNumber);
      leftDistance == 0 || leftDistance > inFlight + ACK_LEEWAY
  }

  predicate Ignores(st: StreamState, p: Packet)
    requires Supported(p)
  {
    IsSuspicious(st.ackNumber, st.seqNumber, |st.unackedData|, p)
  }

  /** What remains of the in-flight queue after an acknowledgement of `ack`. */
  function Prune(queue: seq<(u16, Bytes)>, ack: u16): seq<(u16, Bytes)> {
    if queue == [] || queue[0].0 > ack then queue else Prune(queue[1..], ack)
  }

  function HandlePacket(st: StreamState, p: Packet): StreamState
    requires Supported(p)
  {
    if p.packetType == Data then
      st.(inboundData := st.inboundData[p.seqNumber := p.data])
    else
      st.(unackedData := Prune(st.unackedData, p.ackNumber))
  }

  /** Why a poll stopped taking packets: the mailbox is empty, it has ended, or a packet of an
      unsupported type made the stream panic. */
  datatype Stop = Waiting | Ended | Panicked

  datatype Absorbed = Absorbed(st: StreamState, stop: Stop)

  /** Process as many packets as possible. */
  function Absorb(st: StreamState): Absorbed
    decreases |st.mailbox|
  {
    if st.mailbox == [] then
      if st.closed then Absorbed(st.(isShutdown := true), Ended) else Absorbed(st, Waiting)
    else
      var p := st.mailbox[0];
      var st1 := st.(mailbox := st.mailbox[1..]);
      if !Supported(p) then Absorbed(st1, Panicked)
      else if Ignores(st1, p) then Absorb(st1)
      else Absorb(HandlePacket(st1, p))
  }

  /** `count` segments joined up from the reorder buffer, and what is left of it. */
  datatype Assembly = Assembly(segments: seq<Bytes>, inboundData: map<u16, Bytes>, ackNumber: u16)

  /** Take the segments that directly follow `ackNumber` out of the reorder buffer, in order. */
  function Assemble(inboundData: map<u16, Bytes>, ackNumber: u16): Assembly
    decreases |inboundData|
  {
    var next := WrappingAdd(ackNumber, 1);
    if next in inboundData then
      var rest := Assemble(inboundData - {next}, next);
      rest.(segments := [inboundData[next]] + rest.segments)
    else
      Assembly([], inboundData, ackNumber)
  }

  /** The same, with `segments` joined up before. */
  function Joined(segments: seq<Bytes>, rest: Assembly): Assembly {
    rest.(segments := segments + rest.segments)
  }

  lemma JoinedStep(segments: seq<Bytes>, data: Bytes, rest: Assembly)
    ensures Joined(segments, rest.(segments := [data] + rest.segments)) == Joined(segments + [data], rest)
  {
    assert segments + ([data] + rest.segments) == (segments + [data]) + rest.segments;
  }

  function NewPacket(st: StreamState, packetType: PacketType, now: u32, data: Bytes): Packet {
    Packet(packetType, 1, st.connectionIdSend, now, 0, 0, st.seqNumber, st.ackNumber, [], data)
  }

  function SendAck(st: StreamState, now: u32): StreamState {
    st.(outgoing := st.outgoing + [NewPacket(st, State, now, [])])
  }

  datatype ReadResult = ReadOk(bytes: Bytes) | ReadEof | ReadPending | ReadError | ReadPanic

  datatype ReadOutcome = ReadOutcome(st: StreamState, segments: seq<Bytes>, result: ReadResult)

  /** One `poll_read` into a buffer with `room` bytes left. `ackSent` says whether the socket took
      the acknowledgement, `now` is the clock reading stamped on it. */
  function PollRead(st: StreamState, room: nat, ackSent: bool, now: u32): ReadOutcome {
    var a := Absorb(st);
    match a.stop
    case Panicked => ReadOutcome(a.st, [], ReadPanic)
    case Ended => ReadOutcome(a.st, [], ReadEof)
    case Waiting =>
      var d := Assemble(a.st.inboundData, a.st.ackNumber);
      var st1 := a.st.(inboundData := d.inboundData, ackNumber := d.ackNumber,
                       receivedData := a.st.receivedData + Concat(d.segments));
      if !ackSent then
        ReadOutcome(st1, d.segments, ReadError)
      else
        var st2 := SendAck(st1, now);
        if st2.receivedData == [] then
          ReadOutcome(st2, d.segments, ReadPending)
        else
          var n := if |st2.receivedData| > room then room else |st2.receivedData|;
          ReadOutcome(st2.(receivedData := st2.receivedData[n..]), d.segments, ReadOk(st2.receivedData[..n]))
  }

  /** A written buffer cut into segments: all of maximal size but for the last. */
  function Chunks(buf: Bytes): seq<Bytes> {
    if buf == [] then []
    else if |buf| <= MAX_DATA_SEGMENT_SIZE then [buf]
    else [buf[..MAX_DATA_SEGMENT_SIZE]] + Chunks(buf[MAX_DATA_SEGMENT_SIZE..])
  }

  function SendData(st: StreamState, data: Bytes, now: u32): StreamState {
    st.(outgoing := st.outgoing + [NewPacket(st, Data, now, data)],
        unackedData := st.unackedData + [(st.seqNumber, data)],
        seqNumber := WrappingAdd(st.seqNumber, 1))
  }

  /** The clock readings taken during one poll; a list that is too short goes on with zeros. */
  function Reading(clock: seq<u32>, k: nat): u32 {
    if k < |clock| then clock[k] else 0
  }

  function SendAll(st: StreamState, segments: seq<Bytes>, clock: seq<u32>, k: nat): StreamState
    decreases |segments|
  {
    if segments == [] then st
    else SendAll(SendData(st, segments[0], Reading(clock, k)), segments[1..], clock, k + 1)
  }

  datatype WriteResult = WriteOk(count: nat) | WriteError

  datatype WriteOutcome = WriteOutcome(st: StreamState, segments: seq<Bytes>, result: WriteResult)

  /** One `poll_write`, during which the socket takes `sends` packets before it refuses one. */
  function PollWrite(st: StreamState, buf: Bytes, sends: nat, clock: seq<u32>): WriteOutcome {
    if st.isShutdown then
      WriteOutcome(st, [], WriteOk(0))
    else
      var chunks := Chunks(buf);
      if sends < |chunks| then
        WriteOutcome(SendAll(st, chunks[..sends], clock, 0), chunks[..sends], WriteError)
      else
        WriteOutcome(SendAll(st, chunks, clock, 0), chunks, WriteOk(|buf|))
  }

  datatype FlushResult = FlushOk | FlushPending | FlushPanic

  datatype FlushOutcome = FlushOutcome(st: StreamState, result: FlushResult)

  /** One `poll_flush`. */
  function PollFlush(st: StreamState): FlushOutcome {
    var a := Absorb(st);
    FlushOutcome(a.st,
                 if a.stop == Panicked then FlushPanic
                 else if a.st.unackedData == [] then FlushOk
                 else if a.st.isShutdown then FlushPanic
                 else FlushPending)
  }

  // ---------------------------------------------------------------------------------------
  // The program
  // ---------------------------------------------------------------------------------------

  datatype PacketPoll = Got(packet: Packet) | NotReady | Terminated | Unsupported

  lemma {:induction false} SendAllSnoc(st: StreamState, segments: seq<Bytes>, data: Bytes, clock: seq<u32>, k: nat)
    ensures SendAll(st, segments + [data], clock, k)
         == SendData(SendAll(st, segments, clock, k), data, Reading(clock, k + |segments|))
    decreases |segments|
  {
    if segments != [] {
      assert (segments + [data])[1..] == segments[1..] + [data];
      SendAllSnoc(SendData(st, segments[0], Reading(clock, k)), segments[1..], data, clock, k + 1);
    } else {
      assert (segments + [data])[1..] == [];
    }
  }

  class UtpStream {
    const connectionIdRecv: u16
    const connectionIdSend: u16
    const remoteAddr: SocketAddr
    var mailbox: seq<Packet>
    var closed: bool
    var seqNumber: u16
    var ackNumber: u16
    var inboundData: map<u16, Bytes>
    var receivedData: Bytes
    var unackedData: seq<(u16, Bytes)>
    var isShutdown: bool
    var outgoing: seq<Packet>

    function Contents(): StreamState
      reads this
    {
      StreamState(connectionIdRecv, connectionIdSend, remoteAddr, mailbox, closed, seqNumber, ackNumber,
                  inboundData, receivedData, unackedData, isShutdown, outgoing)
    }

    constructor (connectionIdRecv: u16, connectionIdSend: u16, remoteAddr: SocketAddr,
                 seqNumber: u16, ackNumber: u16)
      ensures Contents() == StreamState(connectionIdRecv, connectionIdSend, remoteAddr, [], false,
                                        seqNumber, ackNumber, map[], [], [], false, [])
    {
      this.connectionIdRecv := connectionIdRecv;
      this.connectionIdSend := connectionIdSend;
      this.remoteAddr := remoteAddr;
      this.mailbox := [];
      this.closed := false;
      this.seqNumber := seqNumber;
      this.ackNumber := ackNumber;
      this.inboundData := map[];
      this.receivedData := [];
      this.unackedData := [];
      this.isShutdown := false;
      this.outgoing := [];
    }

    /** Skips suspicious packets; the caller handles the one that is returned. Either way, the
        packets that are left for later are absorbed as if this call had not been made. */
    method PollReadPacket() returns (r: PacketPoll)
      modifies this`mailbox, this`isShutdown
      ensures match r
              case Got(p) =>
                && Supported(p)
                && !Ignores(Contents(), p)
                && isShutdown == old(isShutdown)
                && |mailbox| < |old(mailbox)|
                && Absorb(old(Contents())) == Absorb(HandlePacket(Contents(), p))
              case NotReady => Absorb(old(Contents())) == Absorbed(Contents(), Waiting)
              case Terminated => Absorb(old(Contents())) == Absorbed(Contents(), Ended)
              case Unsupported => Absorb(old(Contents())) == Absorbed(Contents(), Panicked)
    {
      while mailbox != []
        invariant isShutdown == old(isShutdown)
        invariant |mailbox| <= |old(mailbox)|
        invariant Absorb(Contents()) == Absorb(old(Contents()))
        decreases |mailbox|
      {
        var packet := mailbox[0];
        mailbox := mailbox[1..];
        if !Supported(packet) {
          return Unsupported;
        }
        if !IsSuspicious(ackNumber, seqNumber, |unackedData|, packet) {
          return Got(packet);
        }
      }
      if closed {
        isShutdown := true;
        return Terminated;
      }
      r := NotReady;
    }

    method Handle(packet: Packet)
      requires Supported(packet)
      modifies this`inboundData, this`unackedData
      ensures Contents() == HandlePacket(old(Contents()), packet)
    {
      if packet.packetType == Data {
        inboundData := inboundData[packet.seqNumber := packet.data];
      } else {
        while unackedData != []
          invariant inboundData == old(inboundData)
          invariant Prune(unackedData, packet.ackNumber) == Prune(old(unackedData), packet.ackNumber)
          decreases |unackedData|
        {
          ghost var queue := unackedData;
          var oldest := unackedData[0];
          unackedData := unackedData[1..];
          if oldest.0 > packet.ackNumber {
            unackedData := [oldest] + unackedData;
            assert unackedData == queue;
            break;
          }
        }
      }
    }

    /** Process as many packets as possible. */
    method AbsorbPackets() returns (stop: Stop)
      modifies this`mailbox, this`isShutdown, this`inboundData, this`unackedData
      ensures Absorb(old(Contents())) == Absorbed(Contents(), stop)
    {
      while true
        invariant Absorb(Contents()) == Absorb(old(Contents()))
        decreases |mailbox|
      {
        var r := PollReadPacket();
        match r
        case Got(packet) => Handle(packet);
        case NotReady => return Waiting;
        case Terminated => return Ended;
        case Unsupported => return Panicked;
      }
    }

    /** Assemble as much data as possible, in order. */
    method AssembleData() returns (ghost segments: seq<Bytes>)
      modifies this`inboundData, this`ackNumber, this`receivedData
      ensures Assembly(segments, inboundData, ackNumber) == Assemble(old(inboundData), old(ackNumber))
      ensures receivedData == old(receivedData) + Concat(segments)
    {
      segments := [];
      ghost var all := Assemble(inboundData, ackNumber);
      assert segments + all.segments == all.segments;
      var nextSeqNum := WrappingAdd(ackNumber, 1);
      while nextSeqNum in inboundData
        invariant nextSeqNum == WrappingAdd(ackNumber, 1)
        invariant all == Joined(segments, Assemble(inboundData, ackNumber))
        invariant receivedData == old(receivedData) + Concat(segments)
        decreases |inboundData|
      {
        var data := inboundData[nextSeqNum];
        JoinedStep(segments, data, Assemble(inboundData - {nextSeqNum}, nextSeqNum));
        inboundData := inboundData - {nextSeqNum};
        receivedData := receivedData + data;
        ackNumber := nextSeqNum;
        nextSeqNum := WrappingAdd(nextSeqNum, 1);
        ConcatAppend(segments, [data]);
        assert Concat([data]) == data;
        segments := segments + [data];
      }
    }

    /** Move as much data as possible to a buffer with `room` bytes left. */
    method TakeReceived(room: nat) returns (chunk: Bytes)
      modifies this`receivedData
      ensures chunk + receivedData == old(receivedData)
      ensures |chunk| == if |old(receivedData)| > room then room else |old(receivedData)|
    {
      if |receivedData| > room {
        chunk := receivedData[..room];
        receivedData := receivedData[room..];
      } else {
        chunk := receivedData;
        receivedData := [];
      }
    }

    /** `poll_read`: `ackSent` is whether the socket takes the acknowledgement. */
    method Read(room: nat, ackSent: bool, now: u32) returns (r: ReadResult, ghost segments: seq<Bytes>)
      modifies this
      ensures ReadOutcome(Contents(), segments, r) == PollRead(old(Contents()), room, ackSent, now)
    {
      segments := [];
      var stop := AbsorbPackets();
      if stop == Panicked {
        return ReadPanic, segments;
      }
      if stop == Ended {
        return ReadEof, segments;
      }
      segments := AssembleData();
      if !ackSent {
        return ReadError, segments;
      }
      outgoing := outgoing + [Packet(State, 1, connectionIdSend, now, 0, 0, seqNumber, ackNumber, [], [])];
      if receivedData == [] {
        return ReadPending, segments;
      }
      ghost var joined := receivedData;
      var chunk := TakeReceived(room);
      assert chunk == joined[..|chunk|] && receivedData == joined[|chunk|..];
      r := ReadOk(chunk);
    }

    method Send(data: Bytes, accepted: bool, now: u32) returns (ok: bool)
      modifies this`outgoing, this`unackedData, this`seqNumber
      ensures ok == accepted
      ensures Contents() == if accepted then SendData(old(Contents()), data, now) else old(Contents())
    {
      if !accepted {
        return false;
      }
      outgoing := outgoing + [Packet(Data, 1, connectionIdSend, now, 0, 0, seqNumber, ackNumber, [], data)];
      unackedData := unackedData + [(seqNumber, data)];
      seqNumber := WrappingAdd(seqNumber, 1);
      ok := true;
    }

    /** `poll_write`: the socket takes `sends` packets before it refuses one. */
    method Write(buf: Bytes, sends: nat, clock: seq<u32>) returns (r: WriteResult, ghost segments: seq<Bytes>)
      modifies this`outgoing, this`unackedData, this`seqNumber
      ensures WriteOutcome(Contents(), segments, r) == PollWrite(old(Contents()), buf, sends, clock)
    {
      segments := [];
      if isShutdown {
        return WriteOk(0), segments;
      }
      ghost var chunks := Chunks(buf);
      var bytesWritten := 0;
      var rest := buf;
      var k := 0;
      while rest != []
        invariant 0 <= k <= |chunks| && k <= sends
        invariant chunks[k..] == Chunks(rest)
        invariant bytesWritten + |rest| == |buf|
        invariant Contents() == SendAll(old(Contents()), chunks[..k], clock, 0)
        decreases |rest|
      {
        var n := if |rest| <= MAX_DATA_SEGMENT_SIZE then |rest| else MAX_DATA_SEGMENT_SIZE;
        var chunk := rest[..n];
        rest := rest[n..];
        assert chunks[k] == chunks[k..][0] == chunk;
        assert chunks[k + 1..] == chunks[k..][1..];
        SendAllSnoc(old(Contents()), chunks[..k], chunk, clock, 0);
        assert chunks[..k + 1] == chunks[..k] + [chunk];
        var ok := Send(chunk, k < sends, Reading(clock, k));
        if !ok {
          segments := chunks[..k];
          return WriteError, segments;
        }
        bytesWritten := bytesWritten + |chunk|;
        k := k + 1;
      }
      assert chunks[..k] == chunks;
      segments := chunks;
      r := WriteOk(bytesWritten);
    }

    /** `poll_flush`. */
    method Flush() returns (r: FlushResult)
      modifies this`mailbox, this`isShutdown, this`inboundData, this`unackedData
      ensures FlushOutcome(Contents(), r) == PollFlush(old(Contents()))
    {
      var stop := AbsorbPackets();
      if stop == Panicked {
        return FlushPanic;
      }
      if unackedData == [] {
        return FlushOk;
      } else if isShutdown {
        return FlushPanic;
      }
      r := FlushPending;
    }
  }

  // ---------------------------------------------------------------------------------------
  // What the operations leave alone
  // ---------------------------------------------------------------------------------------

  /** `part` is what `whole` ends in. */
  predicate IsSuffix(part: seq<(u16, Bytes)>, whole: seq<(u16, Bytes)>) {
    |part| <= |whole| && part == whole[|whole| - |part|..]
  }

  lemma SuffixOfSuffix(a: seq<(u16, Bytes)>, b: seq<(u16, Bytes)>, c: seq<(u16, Bytes)>)
    requires IsSuffix(a, b) && IsSuffix(b, c)
    ensures IsSuffix(a, c)
  {
    assert c[|c| - |b|..][|b| - |a|..] == c[|c| - |a|..];
  }

  lemma {:induction false} PruneSuffix(queue: seq<(u16, Bytes)>, ack: u16)
    ensures IsSuffix(Prune(queue, ack), queue)
  {
    if queue != [] && queue[0].0 <= ack {
      PruneSuffix(queue[1..], ack);
      assert IsSuffix(queue[1..], queue);
      SuffixOfSuffix(Prune(queue, ack), queue[1..], queue);
    }
  }

  lemma {:induction false} AbsorbSuffix(st: StreamState)
    ensures IsSuffix(Absorb(st).st.unackedData, st.unackedData)
    decreases |st.mailbox|
  {
    if st.mailbox != [] {
      var p := st.mailbox[0];
      var st1 := st.(mailbox := st.mailbox[1..]);
      if Supported(p) {
        if Ignores(st1, p) {
          AbsorbSuffix(st1);
        } else {
          var st2 := HandlePacket(st1, p);
          AbsorbSuffix(st2);
          PruneSuffix(st1.unackedData, p.ackNumber);
          SuffixOfSuffix(Absorb(st).st.unackedData, st2.unackedData, st.unackedData);
        }
      }
    }
  }

  lemma {:induction false} AbsorbEmpties(st: StreamState)
    ensures Absorb(st).stop != Panicked ==> Absorb(st).st.mailbox == []
    decreases |st.mailbox|
  {
    if st.mailbox != [] {
      var p := st.mailbox[0];
      var st1 := st.(mailbox := st.mailbox[1..]);
      if Supported(p) {
        AbsorbEmpties(if Ignores(st1, p) then st1 else HandlePacket(st1, p));
      }
    }
  }

  /** The two states differ at most in what taking packets in may change. */
  predicate SameApart(st: StreamState, st': StreamState) {
    st' == st.(mailbox := st'.mailbox, inboundData := st'.inboundData,
               unackedData := st'.unackedData, isShutdown := st'.isShutdown)
  }

  lemma {:induction false} AbsorbSame(st: StreamState)
    ensures SameApart(st, Absorb(st).st)
    decreases |st.mailbox|
  {
    if st.mailbox != [] {
      var p := st.mailbox[0];
      var st1 := st.(mailbox := st.mailbox[1..]);
      if Supported(p) {
        AbsorbSame(if Ignores(st1, p) then st1 else HandlePacket(st1, p));
      }
    }
  }

  /** Taking packets in touches the mailbox, the reorder buffer and the in-flight queue only,
      and leaves a suffix of that queue. */
  lemma AbsorbFrame(st: StreamState)
    ensures SameApart(st, Absorb(st).st)
    ensures Absorb(st).stop != Panicked ==> Absorb(st).st.mailbox == []
    ensures IsSuffix(Absorb(st).st.unackedData, st.unackedData)
  {
    AbsorbSame(st);
    AbsorbEmpties(st);
    AbsorbSuffix(st);
  }

  /** Queue entries for segments numbered from `first` on. */
  function Numbered(first: u16, segments: seq<Bytes>): seq<(u16, Bytes)> {
    seq(|segments|, i requires 0 <= i < |segments| => (Num(first, i), segments[i]))
  }

  /** `queue` holds the last of the segments `segs`, numbered from `isn + 1` on. */
  ghost predicate InFlight(isn: u16, segs: seq<Bytes>, queue: seq<(u16, Bytes)>) {
    && |queue| <= |segs|
    && forall i | 0 <= i < |queue| ::
         queue[i] == (Num(isn, |segs| - |queue| + 1 + i), segs[|segs| - |queue| + i])
  }

  lemma InFlightAppend(isn: u16, segs: seq<Bytes>, queue: seq<(u16, Bytes)>, more: seq<Bytes>)
    requires InFlight(isn, segs, queue)
    ensures InFlight(isn, segs + more, queue + Numbered(Num(isn, |segs| + 1), more))
  {
    var n, k := |segs|, |queue|;
    var queue' := queue + Numbered(Num(isn, n + 1), more);
    forall i | 0 <= i < |queue'|
      ensures queue'[i] == (Num(isn, n - k + 1 + i), (segs + more)[n - k + i])
    {
      if i >= k {
        NumNum(isn, n + 1, i - k);
      }
    }
  }

  lemma InFlightSuffix(isn: u16, segs: seq<Bytes>, queue: seq<(u16, Bytes)>, part: seq<(u16, Bytes)>)
    requires InFlight(isn, segs, queue) && IsSuffix(part, queue)
    ensures InFlight(isn, segs, part)
  {
    var d := |queue| - |part|;
    forall i | 0 <= i < |part|
      ensures part[i] == (Num(isn, |segs| - |part| + 1 + i), segs[|segs| - |part| + i])
    {
      assert part[i] == queue[d + i];
    }
  }

  lemma InFlightNumbered(isn: u16, segs: seq<Bytes>, queue: seq<(u16, Bytes)>)
    requires InFlight(isn, segs, queue)
    ensures queue == Numbered(Num(isn, |segs| - |queue| + 1), segs[|segs| - |queue|..])
  {
    var m := |segs| - |queue|;
    forall i | 0 <= i < |queue|
      ensures queue[i] == (Num(Num(isn, m + 1), i), segs[m..][i])
    {
      NumNum(isn, m + 1, i);
    }
  }

  /** The packets that carry such segments. */
  function Carrying(id: u16, ack: u16, first: u16, segments: seq<Bytes>, clock: seq<u32>, k: nat): seq<Packet> {
    seq(|segments|, i requires 0 <= i < |segments| =>
      Packet(Data, 1, id, Reading(clock, k + i), 0, 0, Num(first, i), ack, [], segments[i]))
  }

  lemma NumberedStep(first: u16, segments: seq<Bytes>)
    requires segments != []
    ensures Numbered(first, segments) == [(first, segments[0])] + Numbered(WrappingAdd(first, 1), segments[1..])
  {
  }

  lemma CarryingStep(id: u16, ack: u16, first: u16, segments: seq<Bytes>, clock: seq<u32>, k: nat)
    requires segments != []
    ensures Carrying(id, ack, first, segments, clock, k)
         == [Packet(Data, 1, id, Reading(clock, k), 0, 0, first, ack, [], segments[0])]
            + Carrying(id, ack, WrappingAdd(first, 1), segments[1..], clock, k + 1)
  {
  }

  lemma {:induction false} SendAllQueue(st: StreamState, segments: seq<Bytes>, clock: seq<u32>, k: nat)
    ensures SendAll(st, segments, clock, k).unackedData == st.unackedData + Numbered(st.seqNumber, segments)
    decreases |segments|
  {
    if segments != [] {
      SendAllQueue(SendData(st, segments[0], Reading(clock, k)), segments[1..], clock, k + 1);
      NumberedStep(st.seqNumber, segments);
    }
  }

  lemma {:induction false} SendAllSent(st: StreamState, segments: seq<Bytes>, clock: seq<u32>, k: nat)
    ensures SendAll(st, segments, clock, k).outgoing
         == st.outgoing + Carrying(st.connectionIdSend, st.ackNumber, st.seqNumber, segments, clock, k)
    decreases |segments|
  {
    if segments != [] {
      SendAllSent(SendData(st, segments[0], Reading(clock, k)), segments[1..], clock, k + 1);
      CarryingStep(st.connectionIdSend, st.ackNumber, st.seqNumber, segments, clock, k);
    }
  }

  lemma {:induction false} SendAllRest(st: StreamState, segments: seq<Bytes>, clock: seq<u32>, k: nat)
    ensures var r := SendAll(st, segments, clock, k);
            && r == st.(outgoing := r.outgoing, unackedData := r.unackedData, seqNumber := r.seqNumber)
            && r.seqNumber == Num(st.seqNumber, |segments|)
    decreases |segments|
  {
    if segments != [] {
      SendAllRest(SendData(st, segments[0], Reading(clock, k)), segments[1..], clock, k + 1);
      NumNum(st.seqNumber, 1, |segments| - 1);
    }
  }

  /** The effect of a burst of sends, field by field. */
  lemma SendAllEffect(st: StreamState, segments: seq<Bytes>, clock: seq<u32>, k: nat)
    ensures var r := SendAll(st, segments, clock, k);
            && r == st.(outgoing := r.outgoing, unackedData := r.unackedData, seqNumber := r.seqNumber)
            && r.seqNumber == Num(st.seqNumber, |segments|)
            && r.unackedData == st.unackedData + Numbered(st.seqNumber, segments)
            && r.outgoing == st.outgoing
                 + Carrying(st.connectionIdSend, st.ackNumber, st.seqNumber, segments, clock, k)
  {
    SendAllRest(st, segments, clock, k);
    SendAllQueue(st, segments, clock, k);
    SendAllSent(st, segments, clock, k);
  }
}
