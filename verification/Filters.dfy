/** What the stream's packet filter, acknowledgement pruning and segmentation amount to. */
module Filters {
  import opened Words
  import opened Packets
  import opened Codec
  import opened Streams

  // ---------------------------------------------------------------------------------------
  // The filter
  // ---------------------------------------------------------------------------------------

  /** For indices less than a full turn apart, a data packet is let through exactly when it is
      within 128 of the last assembled segment, or within 128 of a full turn away from it. */
  lemma DataFilterExact(isn: u16, a: int, i: int, seqNumber: u16, inFlight: nat, p: Packet)
    requires p.packetType == Data && p.seqNumber == Num(isn, i)
    requires -0x1_0000 < i - a < 0x1_0000
    ensures !IsSuspicious(Num(isn, a), seqNumber, inFlight, p)
       <==> || -128 <= i - a <= 128
            || i - a >= 0x1_0000 - 128
            || i - a <= 128 - 0x1_0000
  {
    NumDistance(isn, a, i);
    NumDistance(isn, i, a);
  }

  /** The acknowledged number, counted back from the next one. */
  lemma DistanceBack(isn: u16, n: int, ack: u16)
    ensures ack == Num(isn, n - WrappingSub(Num(isn, n), ack))
  {
  }

  /** With `inFlight` segments ending at index `n` not yet acknowledged, an acknowledgement is let
      through exactly when it names one of them or one of the three before the oldest. */
  lemma AckFilterExact(isn: u16, n: int, inFlight: nat, ackNumber: u16, p: Packet)
    requires p.packetType == State && inFlight <= 65532
    ensures !IsSuspicious(ackNumber, Num(isn, n + 1), inFlight, p)
       <==> exists t :: n - inFlight - 2 <= t <= n && p.ackNumber == Num(isn, t)
  {
    var d := WrappingSub(Num(isn, n + 1), p.ackNumber);
    DistanceBack(isn, n + 1, p.ackNumber);
    if 1 <= d <= inFlight + 3 {
      var t := n + 1 - d;
      assert n - inFlight - 2 <= t <= n && p.ackNumber == Num(isn, t);
    }
    forall t | n - inFlight - 2 <= t <= n && p.ackNumber == Num(isn, t)
      ensures 1 <= d <= inFlight + 3
    {
      NumDistance(isn, n + 1, t);
    }
  }

  // ---------------------------------------------------------------------------------------
  // Cumulative acknowledgement
  // ---------------------------------------------------------------------------------------

  lemma {:induction false} PruneCount(queue: seq<(u16, Bytes)>, ack: u16, c: nat)
    requires c <= |queue|
    requires forall i | 0 <= i < c :: queue[i].0 <= ack
    requires c < |queue| ==> queue[c].0 > ack
    ensures Prune(queue, ack) == queue[c..]
  {
    if c > 0 {
      PruneCount(queue[1..], ack, c - 1);
      assert queue[1..][c - 1..] == queue[c..];
    }
  }

  /** The number of segments that an acknowledgement `distance` before the next number covers. */
  function Covered(inFlight: nat, distance: nat): nat {
    if distance > inFlight then 0 else inFlight - distance + 1
  }

  /** The numbers turn over from 65535 to 0 somewhere between the acknowledged number and the
      oldest one in flight, or right after the acknowledged number with more in flight behind it. */
  predicate Straddles(oldest: u16, inFlight: nat, distance: nat) {
    var acked := oldest + inFlight - distance;
    acked < 0 || acked > 65535 || (acked == 65535 && distance > 1)
  }

  lemma PruneRight(oldest: u16, segments: seq<Bytes>, ack: u16)
    requires 0 < |segments| <= 0x1_0000
    requires 1 <= WrappingSub(Num(oldest, |segments|), ack) <= |segments| + ACK_LEEWAY
    requires !Straddles(oldest, |segments|, WrappingSub(Num(oldest, |segments|), ack))
    ensures var queue := Numbered(oldest, segments);
            Prune(queue, ack) == queue[Covered(|segments|, WrappingSub(Num(oldest, |segments|), ack))..]
  {
    var queue := Numbered(oldest, segments);
    var n := |segments|;
    var distance := WrappingSub(Num(oldest, n), ack);
    var c := Covered(n, distance);
    DistanceBack(oldest, n, ack);
    forall i | 0 <= i < c
      ensures queue[i].0 <= ack
    {
      NumPlain(oldest, i);
    }
    if c < n {
      NumPlain(oldest, c);
    }
    PruneCount(queue, ack, c);
  }

  lemma PruneWrong(oldest: u16, segments: seq<Bytes>, ack: u16)
    requires 0 < |segments| <= 0x1_0000
    requires 1 <= WrappingSub(Num(oldest, |segments|), ack) <= |segments| + ACK_LEEWAY
    requires Straddles(oldest, |segments|, WrappingSub(Num(oldest, |segments|), ack))
    ensures var queue := Numbered(oldest, segments);
            |Prune(queue, ack)| != |segments| - Covered(|segments|, WrappingSub(Num(oldest, |segments|), ack))
  {
    var queue := Numbered(oldest, segments);
    var n := |segments|;
    var distance := WrappingSub(Num(oldest, n), ack);
    var acked := oldest + n - distance;
    assert ack == acked % 0x1_0000;
    if acked > 65535 {
      // the acknowledged number has wrapped, the oldest has not: nothing is dropped
      PruneCount(queue, ack, 0);
    } else if acked == 65535 {
      // no number is above the acknowledged one: everything is dropped
      PruneCount(queue, ack, n);
    } else {
      // the oldest number has wrapped, the acknowledged one has not: something is dropped
      assert queue[0].0 <= ack;
      PruneSuffix(queue[1..], ack);
    }
  }

  /** An accepted acknowledgement drops exactly the segments it covers, if and only if the numbers
      involved do not turn over. `oldest` numbers the first of `segments` in flight. */
  lemma PruneExact(oldest: u16, segments: seq<Bytes>, ack: u16)
    requires |segments| <= 0x1_0000
    requires 1 <= WrappingSub(Num(oldest, |segments|), ack) <= |segments| + ACK_LEEWAY
    ensures var queue := Numbered(oldest, segments);
            var distance := WrappingSub(Num(oldest, |segments|), ack);
            Prune(queue, ack) == queue[Covered(|segments|, distance)..]
            <==> segments == [] || !Straddles(oldest, |segments|, distance)
  {
    var queue := Numbered(oldest, segments);
    var distance := WrappingSub(Num(oldest, |segments|), ack);
    if segments != [] {
      if Straddles(oldest, |segments|, distance) {
        PruneWrong(oldest, segments, ack);
      } else {
        PruneRight(oldest, segments, ack);
      }
    }
  }

  /** In particular, no turn-over in the whole range the filter lets through is enough. */
  lemma PruneWithinRange(oldest: u16, segments: seq<Bytes>, ack: u16)
    requires oldest >= 3 && oldest + |segments| <= 0x1_0000
    requires 1 <= WrappingSub(Num(oldest, |segments|), ack) <= |segments| + ACK_LEEWAY
    ensures var queue := Numbered(oldest, segments);
            Prune(queue, ack)
            == queue[Covered(|segments|, WrappingSub(Num(oldest, |segments|), ack))..]
  {
    PruneExact(oldest, segments, ack);
  }

  // ---------------------------------------------------------------------------------------
  // Segmentation
  // ---------------------------------------------------------------------------------------

  lemma {:induction false} ChunksFit(buf: Bytes)
    ensures Concat(Chunks(buf)) == buf
    ensures forall c <- Chunks(buf) :: 1 <= |c| <= MAX_DATA_SEGMENT_SIZE
  {
    if |buf| > MAX_DATA_SEGMENT_SIZE {
      ChunksFit(buf[MAX_DATA_SEGMENT_SIZE..]);
      assert Chunks(buf)[1..] == Chunks(buf[MAX_DATA_SEGMENT_SIZE..]);
    } else if buf != [] {
      assert Chunks(buf) == [buf] && Chunks(buf)[1..] == [];
    }
  }

  /** All segments but the last are of maximal size, so that there are as few as can be. */
  lemma {:induction false} ChunksMaximal(buf: Bytes)
    ensures forall i | 0 <= i < |Chunks(buf)| - 1 :: |Chunks(buf)[i]| == 1452
    ensures (|Chunks(buf)| - 1) * 1452 < |buf| <= |Chunks(buf)| * 1452 || (buf == [] && Chunks(buf) == [])
  {
    if |buf| > MAX_DATA_SEGMENT_SIZE {
      var rest := Chunks(buf[MAX_DATA_SEGMENT_SIZE..]);
      ChunksMaximal(buf[MAX_DATA_SEGMENT_SIZE..]);
      assert Chunks(buf) == [buf[..MAX_DATA_SEGMENT_SIZE]] + rest;
      assert forall i | 1 <= i < |Chunks(buf)| :: Chunks(buf)[i] == rest[i - 1];
    }
  }

  /** A packet as a stream sends them: current version, no extensions, a payload within bounds. */
  predicate Sendable(p: Packet) {
    p.version == 1 && p.extensions == [] && |p.data| <= MAX_DATA_SEGMENT_SIZE
  }

  /** Such a packet fits one datagram and is read back unchanged. */
  lemma SendableFits(p: Packet)
    requires Sendable(p)
    ensures |Print(p)| == PACKET_HEADER_LEN + |p.data| <= MAX_DATAGRAM_SIZE
    ensures ParsePacket(Print(p)) == Ok(p)
  {
    ParseUndoesPrint(p);
  }

  /** The effect of a write that put `segments` on the wire, field by field. */
  ghost predicate Wrote(st: StreamState, st': StreamState, segments: seq<Bytes>, clock: seq<u32>) {
    && st' == st.(outgoing := st'.outgoing, unackedData := st'.unackedData, seqNumber := st'.seqNumber)
    && st'.seqNumber == Num(st.seqNumber, |segments|)
    && st'.unackedData == st.unackedData + Numbered(st.seqNumber, segments)
    && st'.outgoing == st.outgoing + Carrying(st.connectionIdSend, st.ackNumber, st.seqNumber, segments, clock, 0)
    && forall c <- segments :: 1 <= |c| <= MAX_DATA_SEGMENT_SIZE
  }

  lemma WriteEffect(st: StreamState, buf: Bytes, sends: nat, clock: seq<u32>)
    ensures var w := PollWrite(st, buf, sends, clock); Wrote(st, w.st, w.segments, clock)
  {
    var w := PollWrite(st, buf, sends, clock);
    assert w.st == SendAll(st, w.segments, clock, 0);
    ChunksFit(buf);
    SendAllEffect(st, w.segments, clock, 0);
  }

  lemma CarriedSendable(id: u16, ack: u16, first: u16, segments: seq<Bytes>, clock: seq<u32>, k: nat)
    requires forall c <- segments :: 1 <= |c| <= MAX_DATA_SEGMENT_SIZE
    ensures forall p <- Carrying(id, ack, first, segments, clock, k) ::
              Sendable(p) && p.packetType == Data && p.connectionId == id && |p.data| >= 1
  {
    forall p <- Carrying(id, ack, first, segments, clock, k)
      ensures Sendable(p) && p.packetType == Data && p.connectionId == id && |p.data| >= 1
    {
      assert p.data in segments;
    }
  }

  ghost predicate FitsOneDatagram(p: Packet) {
    |Print(p)| <= MAX_DATAGRAM_SIZE && ParsePacket(Print(p)) == Ok(p)
  }

  /** A datagram of its own for a segment within bounds. */
  ghost predicate CarriesWhole(p: Packet, segment: Bytes) {
    p.data == segment && 1 <= |segment| <= MAX_DATA_SEGMENT_SIZE && FitsOneDatagram(p)
  }

  lemma AppendedAt(before: seq<Packet>, sent: seq<Packet>, after: seq<Packet>)
    requires after == before + sent
    ensures |after| == |before| + |sent| && before <= after
    ensures forall i | 0 <= i < |sent| :: after[|before| + i] == sent[i]
  {
  }

  lemma CarriedFit(id: u16, ack: u16, first: u16, segments: seq<Bytes>, clock: seq<u32>, k: nat)
    requires forall c <- segments :: 1 <= |c| <= MAX_DATA_SEGMENT_SIZE
    ensures forall i | 0 <= i < |segments| ::
              CarriesWhole(Carrying(id, ack, first, segments, clock, k)[i], segments[i])
  {
    CarriedSendable(id, ack, first, segments, clock, k);
    var sent := Carrying(id, ack, first, segments, clock, k);
    forall i | 0 <= i < |segments|
      ensures CarriesWhole(sent[i], segments[i])
    {
      assert sent[i] in sent && segments[i] in segments;
      SendableFits(sent[i]);
    }
  }

  /** An uninterrupted write on an open stream reports the whole buffer; its bytes leave, in order
      and in full, as the payloads of the new packets, each of which fits one datagram and is
      read back unchanged. */
  lemma WriteFitsTheWire(st: StreamState, buf: Bytes, sends: nat, clock: seq<u32>)
    requires !st.isShutdown && sends >= |Chunks(buf)|
    ensures var w := PollWrite(st, buf, sends, clock);
            && w.result == WriteOk(|buf|)
            && Concat(w.segments) == buf
            && |w.st.outgoing| == |st.outgoing| + |w.segments|
            && st.outgoing <= w.st.outgoing
            && forall i | 0 <= i < |w.segments| :: CarriesWhole(w.st.outgoing[|st.outgoing| + i], w.segments[i])
  {
    ChunksFit(buf);
    WriteEffect(st, buf, sends, clock);
    var w := PollWrite(st, buf, sends, clock);
    CarriedFit(st.connectionIdSend, st.ackNumber, st.seqNumber, w.segments, clock, 0);
    AppendedAt(st.outgoing, Carrying(st.connectionIdSend, st.ackNumber, st.seqNumber, w.segments, clock, 0), w.st.outgoing);
  }

  /** A write that the socket cuts short reports an error, although a prefix of the buffer, cut at
      a segment boundary, has been sent and stays in flight. */
  lemma RefusedWrite(st: StreamState, buf: Bytes, sends: nat, clock: seq<u32>)
    requires !st.isShutdown && sends < |Chunks(buf)|
    ensures var w := PollWrite(st, buf, sends, clock);
            && w.result == WriteError
            && |w.segments| == sends && Concat(w.segments) <= buf
            && |w.st.unackedData| == |st.unackedData| + sends
  {
    ChunksFit(buf);
    WriteEffect(st, buf, sends, clock);
    ConcatPrefix(Chunks(buf)[..sends], Chunks(buf));
  }
}
