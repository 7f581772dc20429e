/** Acknowledgements across both endpoints: a segment is only dropped from the in-flight queue
    once the peer has assembled it. */
module AckSafety {
  import opened Words
  import opened Packets
  import opened Streams
  import opened Filters
  import opened Endpoints
  import opened Transfer

  /** An acknowledgement that the peer never sent does harm to a sender of at most `n` segments after
      number `isn` if it names one of them, or a number so far up that the filter takes it for one of
      the three before the first. */
  predicate Harmful(isn: u16, n: nat, ack: u16) {
    isn < ack <= isn + n || (n > 0 && ack >= isn + 0xFFFE)
  }

  /** No acknowledgement left over that gets to `side` does harm. */
  predicate Harmless(evs: seq<Event>, side: Side, isn: u16, n: nat) {
    forall ev <- evs :: ev.Stray? && ev.to == side ==> !Harmful(isn, n, ev.packet.ackNumber)
  }

  /** Every acknowledgement waiting at the sender names a segment that the peer has assembled, or the
      number before the first one, or does no harm. */
  ghost predicate AckMail(isn: u16, n: nat, assembled: nat, mail: seq<Packet>) {
    forall p <- mail :: p.packetType == State ==>
      (exists t :: AckTagged(isn, assembled, p, t)) || !Harmful(isn, n, p.ackNumber)
  }

  /** All segments that are no longer in flight have been assembled. */
  predicate Released(x: Endpoint, assembled: nat) {
    |x.segs| - |x.st.unackedData| <= assembled
  }

  lemma {:induction false} PruneCovers(isn: u16, segs: seq<Bytes>, queue: seq<(u16, Bytes)>, t: nat, a: nat)
    requires isn + |segs| < 0x1_0000
    requires InFlight(isn, segs, queue) && |segs| - |queue| <= a && t <= a <= |segs|
    ensures |segs| - |Prune(queue, Num(isn, t))| <= a
    decreases |queue|
  {
    if queue != [] && queue[0].0 <= Num(isn, t) {
      assert |segs| - |queue| + 1 <= t;
      InFlightSuffix(isn, segs, queue, queue[1..]);
      PruneCovers(isn, segs, queue[1..], t, a);
    }
  }

  /** What does no harm is ignored, or drops nothing. */
  lemma HarmlessDropsNothing(isn: u16, segs: seq<Bytes>, n: nat, queue: seq<(u16, Bytes)>, ackNumber: u16, p: Packet)
    requires isn + n < 0x1_0000 && |segs| <= n && InFlight(isn, segs, queue)
    requires p.packetType == State && !Harmful(isn, n, p.ackNumber)
    requires !IsSuspicious(ackNumber, Num(isn, |segs| + 1), |queue|, p)
    ensures Prune(queue, p.ackNumber) == queue
  {
    if queue != [] {
      NumPlain(isn, |segs| - |queue| + 1);
    }
  }

  lemma {:induction false} AbsorbReleases(isn: u16, segs: seq<Bytes>, n: nat, a: nat, st: StreamState)
    requires isn + n < 0x1_0000 && a <= |segs| <= n && st.seqNumber == Num(isn, |segs| + 1)
    requires InFlight(isn, segs, st.unackedData) && |segs| - |st.unackedData| <= a
    requires AckMail(isn, n, a, st.mailbox)
    ensures |segs| - |Absorb(st).st.unackedData| <= a
    decreases |st.mailbox|
  {
    if st.mailbox != [] {
      var p := st.mailbox[0];
      var st1 := st.(mailbox := st.mailbox[1..]);
      assert p in st.mailbox && forall q <- st1.mailbox :: q in st.mailbox;
      if Supported(p) {
        if Ignores(st1, p) {
          AbsorbReleases(isn, segs, n, a, st1);
        } else {
          if p.packetType == State {
            if !Harmful(isn, n, p.ackNumber) {
              HarmlessDropsNothing(isn, segs, n, st.unackedData, st.ackNumber, p);
            } else {
              var t :| AckTagged(isn, a, p, t);
              PruneCovers(isn, segs, st.unackedData, t, a);
            }
            PruneSuffix(st.unackedData, p.ackNumber);
            InFlightSuffix(isn, segs, st.unackedData, Prune(st.unackedData, p.ackNumber));
          }
          AbsorbReleases(isn, segs, n, a, HandlePacket(st1, p));
        }
      }
    }
  }

  ghost predicate AckMailAt(s: System, from: Side, n: nat) {
    AckMail(s.At(from).isn, n, |s.At(from.Other()).assembled|, s.At(from).st.mailbox)
  }

  ghost predicate ReleasedAt(s: System, from: Side) {
    Released(s.At(from), |s.At(from.Other()).assembled|)
  }

  lemma AckMailGrows(isn: u16, n: nat, a: nat, a': nat, mail: seq<Packet>)
    requires AckMail(isn, n, a, mail) && a <= a'
    ensures AckMail(isn, n, a', mail)
  {
    forall p <- mail | p.packetType == State && Harmful(isn, n, p.ackNumber)
      ensures exists t :: AckTagged(isn, a', p, t)
    {
      var t :| AckTagged(isn, a, p, t);
      assert AckTagged(isn, a', p, t);
    }
  }

  lemma {:induction false} AbsorbMail(st: StreamState)
    ensures forall p <- Absorb(st).st.mailbox :: p in st.mailbox
    decreases |st.mailbox|
  {
    if st.mailbox != [] {
      var p := st.mailbox[0];
      var st1 := st.(mailbox := st.mailbox[1..]);
      assert forall q <- st1.mailbox :: q in st.mailbox;
      if Supported(p) {
        AbsorbMail(if Ignores(st1, p) then st1 else HandlePacket(st1, p));
      }
    }
  }

  lemma PollMail(x: Endpoint, peerIsn: u16, op: Op)
    requires !op.Receive? && Local(x, peerIsn)
    ensures forall p <- Do(x, op).st.mailbox :: p in x.st.mailbox
  {
    AbsorbMail(x.st);
    AbsorbFrame(x.st);
    match op
    case Write(buf, sends, clock) => WriteEffect(x.st, buf, sends, clock);
    case Read(room, ackSent, now) => ReadEffect(x, peerIsn, room, ackSent, now);
    case Flush =>
    case Close =>
  }

  /** Acknowledgements stay truthful on their way, with no condition on the run but that none left over
      does harm. */
  lemma StepKeepsAckMail(s: System, ev: Event, from: Side, n: nat)
    requires Locals(s) && AckMailAt(s, from, n) && Enabled(s, ev) && Harmless([ev], from, s.At(from).isn, n)
    ensures AckMailAt(Step(s, ev), from, n)
  {
    var x, y := s.At(from), s.At(from.Other());
    match ev
    case Poll(side, op) =>
      if side == from {
        PollMail(x, y.isn, op);
      } else {
        SegsGrow(y, op);
        AckMailGrows(x.isn, n, |y.assembled|, |Do(y, op).assembled|, x.st.mailbox);
      }
    case Deliver(to, j) =>
      if to == from {
        assert AckTagged(x.isn, |y.assembled|, y.st.outgoing[j], y.tags[j]);
      }
    case Stray(to, p) =>
      assert ev in [ev];
  }

  lemma PollReleases(x: Endpoint, peerIsn: u16, n: nat, a: nat, op: Op)
    requires !op.Receive? && Local(x, peerIsn) && Released(x, a)
    requires x.isn + n < 0x1_0000 && a <= |x.segs| <= n
    requires AckMail(x.isn, n, a, x.st.mailbox)
    ensures Released(Do(x, op), a)
  {
    match op
    case Write(buf, sends, clock) => WriteEffect(x.st, buf, sends, clock);
    case Read(room, ackSent, now) =>
      AbsorbReleases(x.isn, x.segs, n, a, x.st);
      ReadEffect(x, peerIsn, room, ackSent, now);
    case Flush => AbsorbReleases(x.isn, x.segs, n, a, x.st);
    case Close =>
  }

  /** An arrival changes neither what is in flight nor what is assembled. */
  lemma ArrivalReleases(s: System, ev: Event, from: Side)
    requires ReleasedAt(s, from) && Enabled(s, ev) && !ev.Poll?
    ensures ReleasedAt(Step(s, ev), from)
  {
  }

  lemma StepKeepsReleased(s: System, ev: Event, from: Side, n: nat)
    requires Locals(s) && Direction(s, from) && AckMailAt(s, from, n) && ReleasedAt(s, from) && Enabled(s, ev)
    requires s.At(from).isn + n < 0x1_0000 && |s.At(from).segs| <= n
    ensures ReleasedAt(Step(s, ev), from)
  {
    var x, y := s.At(from), s.At(from.Other());
    match ev
    case Poll(side, op) =>
      if side == from {
        PollReleases(x, y.isn, n, |y.assembled|, op);
        assert Step(s, ev).At(from) == Do(x, op) && Step(s, ev).At(from.Other()) == y;
      } else {
        SegsGrow(y, op);
        assert Step(s, ev).At(from) == x && Step(s, ev).At(from.Other()) == Do(y, op);
      }
    case Deliver(_, _) => ArrivalReleases(s, ev, from);
    case Stray(_, _) => ArrivalReleases(s, ev, from);
  }

  lemma HarmlessParts(evs: seq<Event>, side: Side, isn: u16, n: nat)
    requires evs != [] && Harmless(evs, side, isn, n)
    ensures Harmless([evs[0]], side, isn, n) && Harmless(evs[1..], side, isn, n)
  {
    assert evs[0] in evs && forall ev <- evs[1..] :: ev in evs;
  }

  lemma {:induction false} RunKeepsReleased(s: System, evs: seq<Event>, from: Side, n: nat)
    requires Locals(s) && Direction(s, from) && LateExist(s, from) && AckMailAt(s, from, n) && ReleasedAt(s, from)
    requires Possible(s, evs) && Harmless(evs, from, s.At(from).isn, n)
    requires s.At(from).isn + n < 0x1_0000 && |After(s, evs).At(from).segs| <= n
    ensures ReleasedAt(After(s, evs), from)
    decreases |evs|
  {
    if evs != [] {
      var s' := Step(s, evs[0]);
      StepGrows(s, evs[0], from);
      AfterGrows(s', evs[1..], from);
      HarmlessParts(evs, from, s.At(from).isn, n);
      StepKeepsLocals(s, evs[0]);
      StepKeepsDirection(s, evs[0], from);
      StepKeepsLateExist(s, evs[0], from);
      StepKeepsAckMail(s, evs[0], from, n);
      StepKeepsReleased(s, evs[0], from, n);
      RunKeepsReleased(s', evs[1..], from, n);
    }
  }

  lemma StartReleased(s: System, from: Side, n: nat)
    requires Start(s)
    ensures AckMailAt(s, from, n) && ReleasedAt(s, from)
  {
    var id, random, clientAddr, serverAddr :| s == Opened(id, random, clientAddr, serverAddr);
  }

  /** As long as the numbers from the initial one to the last one sent do not wrap, then with any
      loss, reordering and duplication, and with any acknowledgements left over but harmful ones,
      every segment that has left the in-flight queue is one that the peer has assembled, at its
      place. */
  lemma DroppedOnlyIfAssembled(s: System, evs: seq<Event>, from: Side)
    requires Start(s) && Possible(s, evs)
    requires s.At(from).isn + |After(s, evs).At(from).segs| < 0x1_0000
    requires Harmless(evs, from, s.At(from).isn, |After(s, evs).At(from).segs|)
    ensures var x, y := After(s, evs).At(from), After(s, evs).At(from.Other());
            && |x.st.unackedData| <= |x.segs|
            && x.segs[..|x.segs| - |x.st.unackedData|] <= y.assembled <= x.segs
  {
    var n := |After(s, evs).At(from).segs|;
    StartEstablishes(s, from);
    StartReleased(s, from, n);
    RunKeepsReleased(s, evs, from, n);
    ShortRunIsTame(s, evs, from);
    RunKeeps(s, evs, from);
  }

  lemma FlushReleases(x: Endpoint, y: Endpoint)
    requires Local(x, y.isn) && Receiving(x.isn, x.segs, y)
    requires AckMail(x.isn, |x.segs|, |y.assembled|, x.st.mailbox) && Released(x, |y.assembled|)
    requires x.isn + |x.segs| < 0x1_0000
    requires PollFlush(x.st).result == FlushOk
    ensures y.assembled == x.segs
  {
    AbsorbReleases(x.isn, x.segs, |x.segs|, |y.assembled|, x.st);
  }

  lemma {:induction false} RunKeepsAckMail(s: System, evs: seq<Event>, from: Side, n: nat)
    requires Locals(s) && AckMailAt(s, from, n) && Possible(s, evs) && Harmless(evs, from, s.At(from).isn, n)
    ensures AckMailAt(After(s, evs), from, n)
    decreases |evs|
  {
    if evs != [] {
      HarmlessParts(evs, from, s.At(from).isn, n);
      StepKeepsLocals(s, evs[0]);
      StepKeepsAckMail(s, evs[0], from, n);
      RunKeepsAckMail(Step(s, evs[0]), evs[1..], from, n);
    }
  }

  lemma {:induction false} IsnFixed(s: System, evs: seq<Event>, side: Side)
    requires Possible(s, evs)
    ensures After(s, evs).At(side).isn == s.At(side).isn
    decreases |evs|
  {
    if evs != [] {
      IsnFixed(Step(s, evs[0]), evs[1..], side);
    }
  }

  /** So a flush that reports success, at the end of any such run, means that the peer has
      assembled every segment, and with them every byte, ever written. */
  lemma FlushMeansAssembled(s: System, evs: seq<Event>, from: Side)
    requires Start(s) && Possible(s, evs)
    requires s.At(from).isn + |After(s, evs).At(from).segs| < 0x1_0000
    requires Harmless(evs, from, s.At(from).isn, |After(s, evs).At(from).segs|)
    requires PollFlush(After(s, evs).At(from).st).result == FlushOk
    ensures After(s, evs).At(from.Other()).assembled == After(s, evs).At(from).segs
  {
    var n := |After(s, evs).At(from).segs|;
    StartEstablishes(s, from);
    StartReleased(s, from, n);
    RunKeepsReleased(s, evs, from, n);
    ShortRunIsTame(s, evs, from);
    RunKeeps(s, evs, from);
    RunKeepsAckMail(s, evs, from, n);
    IsnFixed(s, evs, from);
    FlushReleases(After(s, evs).At(from), After(s, evs).At(from.Other()));
  }
}
